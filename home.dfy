/** The greeting of src/pages/landing/Home.jsx: the name shown, and its
    per-word title-casing. Case mapping is ASCII-only (see Text.UpperChar). */
module Home {
  import opened Wrappers
  import Text

  /** The signed-in user: `name` and `email` may be null or undefined. */
  datatype User = User(name: Option<string>, email: Option<string>)

  /** `user?.name ?? user?.email ?? "User"`: nullish, not falsy, fallbacks,
      so an empty name is kept. */
  function GreetingName(user: Option<User>): (n: string)
    ensures user.Some? && user.value.name.Some? ==> n == user.value.name.value
    ensures user.Some? && user.value.name.None? && user.value.email.Some? ==> n == user.value.email.value
    ensures (user.None? || (user.value.name.None? && user.value.email.None?)) ==> n == "User"
  {
    match user
    case None => "User"
    case Some(u) =>
      if u.name.Some? then u.name.value
      else if u.email.Some? then u.email.value
      else "User"
  }

  /** `word.charAt(0).toUpperCase() + word.slice(1).toLowerCase()` */
  function CapWord(w: string): (r: string)
    ensures |r| == |w|
    ensures w == "" ==> r == ""
    ensures w != "" ==> r[0] == Text.UpperChar(w[0]) && r[1..] == Text.Lower(w[1..])
  {
    if w == "" then "" else [Text.UpperChar(w[0])] + Text.Lower(w[1..])
  }

  function CapAll(pieces: seq<string>): (r: seq<string>)
    ensures |r| == |pieces|
    ensures forall k :: 0 <= k < |r| ==> r[k] == CapWord(pieces[k])
  {
    seq(|pieces|, k requires 0 <= k < |pieces| => CapWord(pieces[k]))
  }

  /** `.split(" ").map(CapWord).join(" ")` */
  function TitleCase(s: string): string {
    Text.Join(CapAll(Text.Split(s, ' ')), " ")
  }

  /** Case mapping never turns a character into a space or a space into
      something else. */
  lemma CapWordKeepsSpaces(w: string)
    ensures ' ' in CapWord(w) <==> ' ' in w
  {
    if w != "" {
      var r := CapWord(w);
      forall i | 0 <= i < |w| ensures (r[i] == ' ') <==> (w[i] == ' ') {
        if i > 0 {
          assert r[i] == r[1..][i - 1] == Text.LowerChar(w[1..][i - 1]);
        }
      }
      if ' ' in w {
        var i :| 0 <= i < |w| && w[i] == ' ';
        assert r[i] == ' ';
      }
      if ' ' in r {
        var i :| 0 <= i < |r| && r[i] == ' ';
        assert w[i] == ' ';
      }
    }
  }

  lemma {:induction false} JoinLength(pieces: seq<string>, other: seq<string>)
    requires |pieces| == |other|
    requires forall k :: 0 <= k < |pieces| ==> |pieces[k]| == |other[k]|
    ensures |Text.Join(pieces, " ")| == |Text.Join(other, " ")|
    decreases |pieces|
  {
    if |pieces| > 1 {
      JoinLength(pieces[1..], other[1..]);
    }
  }

  /** The title-cased pieces are exactly the capitalised pieces of the
      input: splitting the greeting on " " gives as many pieces as the name
      had, empty ones included, each with its first character upper-cased
      and the rest lower-cased. */
  lemma TitleCasePieces(s: string)
    ensures Text.Split(TitleCase(s), ' ') == CapAll(Text.Split(s, ' '))
    ensures |Text.Split(TitleCase(s), ' ')| == |Text.Split(s, ' ')|
  {
    var caps := CapAll(Text.Split(s, ' '));
    forall k | 0 <= k < |caps| ensures ' ' !in caps[k] {
      CapWordKeepsSpaces(Text.Split(s, ' ')[k]);
    }
    Text.SplitJoin(caps, ' ');
  }

  /** The greeting has the length of the name it was made from. */
  lemma TitleCaseLength(s: string)
    ensures |TitleCase(s)| == |s|
  {
    var pieces := Text.Split(s, ' ');
    JoinLength(CapAll(pieces), pieces);
    Text.JoinSplit(s, ' ');
  }

  lemma CapWordIdempotent(w: string)
    ensures CapWord(CapWord(w)) == CapWord(w)
  {
    if w != "" {
      var r := CapWord(w);
      assert r[1..] == Text.Lower(w[1..]);
      Text.LowerIdempotent(w[1..]);
    }
  }

  /** Title-casing a title-cased greeting changes nothing. */
  lemma TitleCaseIdempotent(s: string)
    ensures TitleCase(TitleCase(s)) == TitleCase(s)
  {
    var caps := CapAll(Text.Split(s, ' '));
    TitleCasePieces(s);
    forall k | 0 <= k < |caps| ensures CapWord(caps[k]) == caps[k] {
      CapWordIdempotent(Text.Split(s, ' ')[k]);
    }
    assert CapAll(caps) == caps;
  }

  /** "jOHN  doe" is greeted as "John  Doe": the double space survives. */
  lemma TitleCaseExample()
    ensures TitleCase("jOHN  doe") == "John  Doe"
  {
    SplitExample();
    CapExample();
    JoinExample();
  }

  lemma JoinExample()
    ensures Text.Join(["John", "", "Doe"], " ") == "John  Doe"
  {
    var caps: seq<string> := ["John", "", "Doe"];
    assert Text.Join(caps[2..], " ") == "Doe";
    assert Text.Join(caps[1..], " ") == " Doe";
    assert Text.Join(caps, " ") == "John" + " " + " Doe";
  }

  lemma SplitExample()
    ensures Text.Split("jOHN  doe", ' ') == ["jOHN", "", "doe"]
  {
    Text.SplitAppend("jOHN", " doe", ' ');
    assert "jOHN  doe" == "jOHN" + [' '] + " doe";
    Text.SplitAppend("", "doe", ' ');
    assert " doe" == "" + [' '] + "doe";
    Text.SplitNoSep("doe", ' ');
  }

  lemma CapExample()
    ensures CapAll(["jOHN", "", "doe"]) == ["John", "", "Doe"]
  {
    assert Text.Lower("OHN") == "ohn";
    assert CapWord("jOHN") == "John";
    assert Text.Lower("oe") == "oe";
    assert CapWord("doe") == "Doe";
  }
}
