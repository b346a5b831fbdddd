/** The remote-module loader of src/utils/loadRemote.js as an object: the
    script registry of ScriptInjector held in fields and changed by one
    method per call or browser event, the global containers (`window[name]`)
    as a map, the host's share scope as a flag, and the calls made to
    `container.init` and the warnings printed as logs. The federated
    `import()` is an input: its outcome is passed in. */
module LoadRemote {
  import opened Wrappers
  import Text
  import opened ScriptInjector

  /** loadRemoteAndGet's default `opts`: `{ timeout: 12000 }`. */
  const DefaultRemoteTimeout: nat := 12000

  /** The `opts` argument: omitted, or an object whose `timeout` may be absent. */
  datatype LoadOpts = DefaultOpts | Opts(timeout: Option<nat>)

  /** The delay injectScript gets: 12000 when `opts` is omitted; when it is
      given without `timeout`, `undefined` is passed on and injectScript's
      own default of 10000 applies. */
  function EffectiveTimeout(opts: LoadOpts): (t: nat)
    ensures opts.DefaultOpts? ==> t == 12000
    ensures opts.Opts? && opts.timeout.None? ==> t == DefaultTimeout && t == 10000
    ensures opts.Opts? && opts.timeout.Some? ==> t == opts.timeout.value
  {
    match opts
    case DefaultOpts => DefaultRemoteTimeout
    case Opts(None) => DefaultTimeout
    case Opts(Some(t)) => t
  }

  /** A remote container on `window`: whether `init` is a function, whether
      calling it throws, and `Object.keys(container)` in order. */
  datatype Container = Container(initIsFunction: bool, initThrows: bool, keys: seq<string>)

  /** What a successful federated import gives. */
  datatype ModuleValue = ModuleValue(exportNames: seq<string>)

  datatype RemoteError =
    | MissingArguments
    | ScriptLoadFailed(remoteName: string, url: string, cause: string)
    | ContainerInitFailed(remoteName: string, reason: string)
    | ImportFailed(remoteName: string, url: string, message: string, original: string)

  function ErrorMessage(e: RemoteError): string {
    match e
    case MissingArguments => "loadRemoteAndGet requires (remoteName, remoteEntryUrl, exposedModule)"
    case ScriptLoadFailed(name, _, cause) => "Remote \"" + name + "\" failed to load script: " + cause
    case ContainerInitFailed(name, reason) => "Container init failed for remote \"" + name + "\": " + reason
    case ImportFailed(_, _, message, _) => message
  }

  /** What tryInitContainer returns or throws, whether it called `init`, and
      whether it printed a warning. */
  datatype InitOutcome = InitOutcome(result: Result<Container, RemoteError>, initCalled: bool, warned: bool)

  function MissingContainerReason(name: string): string {
    "window[\"" + name + "\"] is not defined after injecting remoteEntry"
  }

  function InitWarning(name: string): string {
    "container.init threw for " + name + ":"
  }

  /** tryInitContainer(name): a missing container is an error tagged with
      the remote's name; `init` is called only when it is a function and the
      host has a default share scope; an `init` that throws is only warned
      about, and the container is returned all the same. */
  function InitContainer(containers: map<string, Container>, shareScope: bool, name: string): (o: InitOutcome)
    ensures name !in containers ==>
      o == InitOutcome(Failure(ContainerInitFailed(name, MissingContainerReason(name))), false, false)
    ensures name in containers ==> o.result == Success(containers[name])
    ensures o.initCalled <==> name in containers && containers[name].initIsFunction && shareScope
    ensures o.warned <==> o.initCalled && containers[name].initThrows
  {
    if name !in containers then
      InitOutcome(Failure(ContainerInitFailed(name, MissingContainerReason(name))), false, false)
    else
      var c := containers[name];
      var called := c.initIsFunction && shareScope;
      InitOutcome(Success(c), called, called && c.initThrows)
  }

  /** `exposedModule.startsWith("./") ? exposedModule.slice(2) : exposedModule` */
  function Normalize(exposed: string): string {
    if Text.StartsWith(exposed, "./") then exposed[2..] else exposed
  }

  /** `${remoteName}/${normalized}` */
  function Specifier(name: string, exposed: string): string {
    name + "/" + Normalize(exposed)
  }

  /** Exactly one leading "./" is dropped, so both spellings of an exposed
      name give the same specifier, and "././X" keeps its second "./". */
  lemma NormalizeSpec(x: string)
    ensures Normalize("./" + x) == x
    ensures !Text.StartsWith(x, "./") ==> Normalize(x) == x
    ensures !Text.StartsWith(x, "./") ==> forall name :: Specifier(name, "./" + x) == Specifier(name, x)
    ensures Normalize("././" + x) == "./" + x
  {
    assert ("./" + x)[..2] == "./";
    assert ("./" + x)[2..] == x;
    assert "././" + x == "./" + ("./" + x);
  }

  /** "./CatalogApp" in remote "catalog" is imported as "catalog/CatalogApp". */
  lemma SpecifierExample()
    ensures Specifier("catalog", "./CatalogApp") == "catalog/CatalogApp"
    ensures Specifier("catalog", "CatalogApp") == "catalog/CatalogApp"
  {
    NormalizeSpec("CatalogApp");
    assert "CatalogApp"[..2] == "Ca";
  }

  /** The key list of the diagnostic: `keys.join(", ")` for a present
      container (empty when it has no keys), "none" for a missing one. */
  function KeysText(c: Option<Container>): string {
    if c.Some? then Text.Join(c.value.keys, ", ") else "none"
  }

  function BoolText(b: bool): string {
    if b then "true" else "false"
  }

  /** The message of a failed federated import of `spec`. */
  function ImportFailureMessage(spec: string, importMessage: string, c: Option<Container>): string {
    "Federated import failed for \"" + spec + "\": " + importMessage + ". "
    + "Container present: " + BoolText(c.Some?) + ". Container keys: " + KeysText(c)
  }

  function Lookup(containers: map<string, Container>, name: string): (c: Option<Container>)
    ensures c.Some? <==> name in containers
    ensures c.Some? ==> c.value == containers[name]
  {
    if name in containers then Some(containers[name]) else None
  }

  /** The diagnostic names the specifier and the import's own message,
      says whether the container is present, and ends with its keys or
      "none". */
  lemma DiagnosticComplete(spec: string, importMessage: string, c: Option<Container>)
    ensures var m := ImportFailureMessage(spec, importMessage, c);
      && Text.Contains(m, spec)
      && Text.Contains(m, importMessage)
      && Text.Contains(m, "Container present: " + BoolText(c.Some?))
      && Text.Contains(m, "Container keys: " + KeysText(c))
  {
    MentionsSpec(spec, importMessage, c);
    MentionsImportMessage(spec, importMessage, c);
    MentionsPresence(spec, importMessage, c);
    MentionsKeys(spec, importMessage, c);
  }

  lemma MentionsSpec(spec: string, importMessage: string, c: Option<Container>)
    ensures Text.Contains(ImportFailureMessage(spec, importMessage, c), spec)
  {
    var b, k := BoolText(c.Some?), KeysText(c);
    var p1 := "Federated import failed for \"" + spec;
    var rest := "\": " + importMessage + ". " + "Container present: " + b + ". Container keys: " + k;
    assert ImportFailureMessage(spec, importMessage, c) == p1 + rest;
    Text.ContainsAtEnd("Federated import failed for \"", spec);
    Text.ContainsExtend(p1, rest, spec);
  }

  lemma MentionsImportMessage(spec: string, importMessage: string, c: Option<Container>)
    ensures Text.Contains(ImportFailureMessage(spec, importMessage, c), importMessage)
  {
    var b, k := BoolText(c.Some?), KeysText(c);
    var p2 := "Federated import failed for \"" + spec + "\": " + importMessage;
    var rest := ". " + "Container present: " + b + ". Container keys: " + k;
    assert ImportFailureMessage(spec, importMessage, c) == p2 + rest;
    Text.ContainsAtEnd("Federated import failed for \"" + spec + "\": ", importMessage);
    Text.ContainsExtend(p2, rest, importMessage);
  }

  lemma MentionsPresence(spec: string, importMessage: string, c: Option<Container>)
    ensures Text.Contains(ImportFailureMessage(spec, importMessage, c), "Container present: " + BoolText(c.Some?))
  {
    var b, k := BoolText(c.Some?), KeysText(c);
    var x := "Federated import failed for \"" + spec + "\": " + importMessage + ". ";
    var rest := ". Container keys: " + k;
    assert ImportFailureMessage(spec, importMessage, c) == x + ("Container present: " + b) + rest;
    Text.ContainsInMiddle(x, "Container present: " + b, rest);
  }

  lemma MentionsKeys(spec: string, importMessage: string, c: Option<Container>)
    ensures Text.Contains(ImportFailureMessage(spec, importMessage, c), "Container keys: " + KeysText(c))
  {
    var b, k := BoolText(c.Some?), KeysText(c);
    var y := "Federated import failed for \"" + spec + "\": " + importMessage + ". " + "Container present: " + b;
    var tail := "Container keys: " + k;
    assert ImportFailureMessage(spec, importMessage, c) == y + ". Container keys: " + k;
    assert ". Container keys: " == ". " + "Container keys: ";
    assert y + ". Container keys: " + k == (y + ". ") + tail;
    Text.ContainsAtEnd(y + ". ", tail);
  }

  /** What loadRemoteAndGet settles with once its injectScript promise has
      settled with `script`: a failed script load is wrapped with the
      remote's name, then tryInitContainer may throw, then the import of the
      specifier either gives the module or fails with the diagnostic. */
  function FinishResult(script: Outcome, containers: map<string, Container>, shareScope: bool,
                        name: string, url: string, exposed: string,
                        imported: Result<ModuleValue, string>): Result<ModuleValue, RemoteError>
    requires !script.Pending?
  {
    if script.Rejected? then Failure(ScriptLoadFailed(name, url, Message(script.error)))
    else
      var init := InitContainer(containers, shareScope, name);
      if init.result.Failure? then Failure(init.result.error)
      else if imported.Success? then Success(imported.value)
      else
        Failure(ImportFailed(name, url,
          ImportFailureMessage(Specifier(name, exposed), imported.error, Lookup(containers, name)),
          imported.error))
  }

  /** A script that failed to load is reported behind the remote's name,
      keeping the injector's message; no container is looked at. */
  lemma FinishOnScriptFailure(script: Outcome, containers: map<string, Container>, shareScope: bool,
                              name: string, url: string, exposed: string, imported: Result<ModuleValue, string>)
    requires script.Rejected?
    ensures var r := FinishResult(script, containers, shareScope, name, url, exposed, imported);
      && r == Failure(ScriptLoadFailed(name, url, Message(script.error)))
      && ErrorMessage(r.error) == "Remote \"" + name + "\" failed to load script: " + Message(script.error)
  {
  }

  /** Once the script has loaded, a missing container is reported before any
      import; a present one leads to the import, whose module is returned. */
  lemma FinishAfterLoad(script: Outcome, containers: map<string, Container>, shareScope: bool,
                        name: string, url: string, exposed: string, imported: Result<ModuleValue, string>)
    requires script.Resolved?
    ensures var r := FinishResult(script, containers, shareScope, name, url, exposed, imported);
      && (name !in containers ==> r == Failure(ContainerInitFailed(name, MissingContainerReason(name))))
      && (name in containers && imported.Success? ==> r == Success(imported.value))
      && (name in containers && imported.Failure? ==> r.Failure? && r.error.ImportFailed?)
  {
  }

  /** A failed import names the specifier and, since the container was found
      just before, always reports it present with its keys: the "none" branch
      of the diagnostic cannot be reached unless the container disappears in
      between. */
  lemma FinishOnImportFailure(script: Outcome, containers: map<string, Container>, shareScope: bool,
                              name: string, url: string, exposed: string, imported: Result<ModuleValue, string>)
    requires script.Resolved? && name in containers && imported.Failure?
    ensures var r := FinishResult(script, containers, shareScope, name, url, exposed, imported);
      && r.Failure? && r.error.ImportFailed? && r.error.original == imported.error
      && Text.Contains(r.error.message, Specifier(name, exposed))
      && Text.Contains(r.error.message, imported.error)
      && Text.Contains(r.error.message, "Container present: true")
      && Text.Contains(r.error.message, "Container keys: " + Text.Join(containers[name].keys, ", "))
  {
    var c := Lookup(containers, name);
    var m := ImportFailureMessage(Specifier(name, exposed), imported.error, c);
    assert FinishResult(script, containers, shareScope, name, url, exposed, imported)
        == Failure(ImportFailed(name, url, m, imported.error));
    DiagnosticComplete(Specifier(name, exposed), imported.error, c);
  }

  /** The loader's state. */
  class RemoteLoader {
    var head: seq<string>
    var elements: map<string, Element>
    var requests: seq<Request>
    var containers: map<string, Container>
    var shareScope: bool
    var initCalls: seq<string>
    var warnings: seq<string>

    function Snapshot(): Registry
      reads this
    {
      Registry(head, elements, requests)
    }

    ghost predicate Valid()
      reads this
    {
      ScriptInjector.Valid(Snapshot())
    }

    /** An empty head; the containers and share scope the page starts with. */
    constructor (containers: map<string, Container>, shareScope: bool)
      ensures Snapshot() == Empty && Valid()
      ensures this.containers == containers && this.shareScope == shareScope
      ensures initCalls == [] && warnings == []
    {
      head := [];
      elements := map[];
      requests := [];
      this.containers := containers;
      this.shareScope := shareScope;
      initCalls := [];
      warnings := [];
    }

    /** injectScript(url, {timeout}). Returns the index of the request made. */
    method InjectScript(url: string, timeout: nat) returns (req: nat)
      requires Valid()
      modifies this`head, this`elements, this`requests
      ensures Valid()
      ensures req == old(|requests|)
      ensures Snapshot() == Inject(old(Snapshot()), url, timeout)
    {
      ghost var before := Snapshot();
      req := |requests|;
      if url == "" {
        requests := requests + [Request(url, Rejected(MissingUrl))];
      } else if url in elements {
        var existing := elements[url];
        if existing.loaded {
          requests := requests + [Request(url, Resolved(url))];
        } else {
          elements := elements[url := existing.(waiters := existing.waiters + [req])];
          requests := requests + [Request(url, Pending)];
        }
      } else {
        var el := Element(req, timeout, true, true, false, false, []);
        elements := elements[url := el];
        requests := requests + [Request(url, Pending)];
        head := head + [url];
      }
      assert Snapshot() == Inject(before, url, timeout);
      InjectKeepsValid(before, url, timeout);
    }

    /** The attached listeners fire one after another, each settling its
        request with `o` and removing itself. */
    method FireListeners(ws: seq<nat>, o: Outcome)
      modifies this`requests
      ensures requests == SettleAll(old(requests), ws, o)
    {
      var k := 0;
      while k < |ws|
        invariant 0 <= k <= |ws|
        invariant SettleAll(requests, ws[k..], o) == SettleAll(old(requests), ws, o)
      {
        assert ws[k..][0] == ws[k] && ws[k..][1..] == ws[k + 1..];
        requests := Settle(requests, ws[k], o);
        k := k + 1;
      }
    }

    /** The browser fires `load` on the element tagged `url`. */
    method ScriptLoaded(url: string)
      requires Valid()
      modifies this`elements, this`requests
      ensures Valid()
      ensures Snapshot() == OnLoad(old(Snapshot()), url)
    {
      ghost var before := Snapshot();
      if url !in elements || elements[url].fired {
        return;
      }
      var el := elements[url];
      var marked := if el.handlersSet then el.(timerArmed := false, loaded := true) else el;
      if el.handlersSet {
        requests := Settle(requests, el.owner, Resolved(url));
      }
      FireListeners(el.waiters, Resolved(url));
      elements := elements[url := marked.(fired := true, waiters := [])];
      assert Snapshot() == OnLoad(before, url);
      LoadKeepsValid(before, url);
    }

    /** The browser fires `error` on the element tagged `url`. */
    method ScriptFailed(url: string)
      requires Valid()
      modifies this`elements, this`requests
      ensures Valid()
      ensures Snapshot() == OnError(old(Snapshot()), url)
    {
      ghost var before := Snapshot();
      if url !in elements || elements[url].fired {
        return;
      }
      var el := elements[url];
      var cleared := if el.handlersSet then el.(timerArmed := false) else el;
      if el.handlersSet {
        requests := Settle(requests, el.owner, Rejected(LoadFailed(url)));
      }
      FireListeners(el.waiters, Rejected(TagLoadFailed(url)));
      elements := elements[url := cleared.(fired := true, waiters := [])];
      assert Snapshot() == OnError(before, url);
      ErrorKeepsValid(before, url);
    }

    /** The timer of the element tagged `url` fires. */
    method TimerFired(url: string)
      requires Valid()
      modifies this`elements, this`requests
      ensures Valid()
      ensures Snapshot() == OnTimeout(old(Snapshot()), url)
    {
      ghost var before := Snapshot();
      if url !in elements || !elements[url].timerArmed {
        return;
      }
      var el := elements[url];
      elements := elements[url := el.(handlersSet := false, timerArmed := false)];
      requests := Settle(requests, el.owner, Rejected(TimedOut(url, el.timeout)));
      assert Snapshot() == OnTimeout(before, url);
      TimeoutKeepsValid(before, url);
    }

    /** The remote entry script, once run, defines `window[name]`. */
    method DefineContainer(name: string, c: Container)
      modifies this`containers
      ensures containers == old(containers)[name := c]
    {
      containers := containers[name := c];
    }

    /** tryInitContainer(name). */
    method TryInitContainer(name: string) returns (r: Result<Container, RemoteError>)
      modifies this`initCalls, this`warnings
      ensures var o := InitContainer(containers, shareScope, name);
        && r == o.result
        && initCalls == old(initCalls) + (if o.initCalled then [name] else [])
        && warnings == old(warnings) + (if o.warned then [InitWarning(name)] else [])
    {
      if name !in containers {
        return Failure(ContainerInitFailed(name, MissingContainerReason(name)));
      }
      var container := containers[name];
      if container.initIsFunction {
        if shareScope {
          initCalls := initCalls + [name];
          if container.initThrows {
            warnings := warnings + [InitWarning(name)];
          }
        }
      }
      return Success(container);
    }

    /** loadRemoteAndGet up to its first `await`: the three arguments are
        checked before anything is injected, then the remote entry is
        injected with the effective timeout. Returns the request to await. */
    method StartRemoteLoad(name: string, url: string, exposed: string, opts: LoadOpts)
      returns (r: Result<nat, RemoteError>)
      requires Valid()
      modifies this`head, this`elements, this`requests
      ensures Valid()
      ensures name == "" || url == "" || exposed == "" ==>
        r == Failure(MissingArguments) && Snapshot() == old(Snapshot())
      ensures name != "" && url != "" && exposed != "" ==>
        r == Success(old(|requests|)) && Snapshot() == Inject(old(Snapshot()), url, EffectiveTimeout(opts))
    {
      if name == "" || url == "" || exposed == "" {
        return Failure(MissingArguments);
      }
      var req := InjectScript(url, EffectiveTimeout(opts));
      return Success(req);
    }

    /** loadRemoteAndGet after its injectScript request `req` has settled:
        `imported` is what `import(spec)` gives. Returns the result and the
        specifier imported, if the import was reached. */
    method FinishRemoteLoad(name: string, url: string, exposed: string, req: nat,
                            imported: Result<ModuleValue, string>)
      returns (r: Result<ModuleValue, RemoteError>, spec: Option<string>)
      requires req < |requests| && !requests[req].outcome.Pending?
      modifies this`initCalls, this`warnings
      ensures r == FinishResult(requests[req].outcome, containers, shareScope, name, url, exposed, imported)
      ensures spec.Some? <==> requests[req].outcome.Resolved? && name in containers
      ensures spec.Some? ==> spec.value == Specifier(name, exposed)
      ensures requests[req].outcome.Rejected? ==> initCalls == old(initCalls) && warnings == old(warnings)
      ensures requests[req].outcome.Resolved? ==>
        initCalls == old(initCalls) + (if InitContainer(containers, shareScope, name).initCalled then [name] else [])
    {
      var outcome := requests[req].outcome;
      if outcome.Rejected? {
        return Failure(ScriptLoadFailed(name, url, Message(outcome.error))), None;
      }
      var init := TryInitContainer(name);
      if init.Failure? {
        return Failure(init.error), None;
      }
      var normalized := Normalize(exposed);
      spec := Some(name + "/" + normalized);
      if imported.Success? {
        return Success(imported.value), spec;
      }
      var container := Lookup(containers, name);
      var message := ImportFailureMessage(name + "/" + normalized, imported.error, container);
      r := Failure(ImportFailed(name, url, message, imported.error));
    }
  }

  /** The usage the loader documents: "catalog" from its remote entry with
      "./CatalogApp". The entry is injected once; after it loads and defines
      the container, the import of "catalog/CatalogApp" gives the module, and
      a second load of the same remote reuses the element. */
  lemma CatalogExample(url: string, c: Container, shareScope: bool, m: ModuleValue)
    requires url != ""
    ensures var r := Run(Empty, [InjectCall(url, EffectiveTimeout(DefaultOpts)), LoadEvent(url)]);
      && r.head == [url]
      && r.requests == [Request(url, Resolved(url))]
      && FinishResult(r.requests[0].outcome, map["catalog" := c], shareScope, "catalog", url, "./CatalogApp", Success(m))
         == Success(m)
      && Inject(r, url, 12000).head == [url]
      && Inject(r, url, 12000).requests[1] == Request(url, Resolved(url))
  {
    var r1 := Inject(Empty, url, 12000);
    assert r1.head == [url] && r1.elements[url].handlersSet && r1.elements[url].waiters == [];
    var r2 := OnLoad(r1, url);
    assert r2.requests == [Request(url, Resolved(url))] && r2.elements[url].loaded;
    var evs := [InjectCall(url, 12000), LoadEvent(url)];
    assert Run(Empty, evs) == Run(r1, evs[1..]);
    assert Run(r1, evs[1..]) == Run(r2, []);
  }
}
