/** injectScript of src/utils/loadRemote.js as a state machine over the
    document head. The DOM, promises and the timer are replaced by a registry:
    the urls of the tagged script elements in head order, each element's
    state, and every request made so far with its outcome. The browser's
    load and error events and the timer firing are explicit events. */
module ScriptInjector {
  import Text

  /** injectScript's default `timeout` option, in milliseconds. */
  const DefaultTimeout: nat := 10000

  /** The errors a request is rejected with. */
  datatype LoadError =
    | MissingUrl
      // an element already in the head failed, seen by a later request's listener
    | TagLoadFailed(url: string)
      // the request that created the element: its onerror
    | LoadFailed(url: string)
    | TimedOut(url: string, timeout: nat)

  function Message(e: LoadError): string {
    match e
    case MissingUrl => "Missing url"
    case TagLoadFailed(url) => "Script tag load failed: " + url
    case LoadFailed(url) => "Failed to load " + url
    case TimedOut(url, t) => "Timeout " + Text.Decimal(t) + "ms loading " + url
  }

  /** A request's promise: pending, resolved with the url, or rejected. */
  datatype Outcome = Pending | Resolved(url: string) | Rejected(error: LoadError)

  datatype Request = Request(url: string, outcome: Outcome)

  /** A script element tagged `data-mf-remote = url`:
      `owner`       the request that created it;
      `timeout`     its timer's delay;
      `handlersSet` onload/onerror still installed (the timer nulls them);
      `timerArmed`  the timer not yet cleared nor fired;
      `loaded`      `data-mf-loaded="true"`;
      `fired`       the browser has fired its load or error event (at most once);
      `waiters`     the later requests whose one-shot listeners are attached. */
  datatype Element = Element(owner: nat, timeout: nat, handlersSet: bool, timerArmed: bool,
                             loaded: bool, fired: bool, waiters: seq<nat>)

  datatype Registry = Registry(head: seq<string>, elements: map<string, Element>, requests: seq<Request>)

  const Empty := Registry([], map[], [])

  predicate NoDup(s: seq<string>) {
    forall i, j :: 0 <= i < j < |s| ==> s[i] != s[j]
  }

  predicate ElementOk(r: Registry, u: string)
    requires u in r.elements
  {
    var e := r.elements[u];
    && e.owner < |r.requests| && r.requests[e.owner].url == u
    && (e.timerArmed <==> e.handlersSet && !e.fired)
    && (e.loaded ==> e.fired)
    && (e.handlersSet && !e.fired ==> r.requests[e.owner].outcome.Pending?)
    && (forall k :: 0 <= k < |e.waiters| ==>
          e.waiters[k] < |r.requests| && e.waiters[k] != e.owner && r.requests[e.waiters[k]].url == u)
    && (!e.fired ==> forall k :: 0 <= k < |e.waiters| ==> r.requests[e.waiters[k]].outcome.Pending?)
  }

  /** The registry invariant: the head holds exactly one element per url,
      and each element's bookkeeping agrees with the requests. */
  ghost predicate Valid(r: Registry) {
    && NoDup(r.head)
    && (forall u :: u in r.elements <==> u in r.head)
    && (forall u :: u in r.elements ==> ElementOk(r, u))
  }

  /** Settles request `i` with `o` unless it is already settled: a promise
      settles once. */
  function Settle(reqs: seq<Request>, i: nat, o: Outcome): (r: seq<Request>)
    ensures |r| == |reqs|
    ensures forall j :: 0 <= j < |reqs| ==> r[j].url == reqs[j].url
    ensures forall j :: 0 <= j < |reqs| && (j != i || !reqs[j].outcome.Pending?) ==> r[j] == reqs[j]
    ensures i < |reqs| && reqs[i].outcome.Pending? ==> r[i].outcome == o
  {
    if i < |reqs| && reqs[i].outcome.Pending? then reqs[i := reqs[i].(outcome := o)] else reqs
  }

  /** Each listener in `ws`, in attachment order, settles its request with `o`. */
  function SettleAll(reqs: seq<Request>, ws: seq<nat>, o: Outcome): (r: seq<Request>)
    ensures |r| == |reqs|
    ensures forall j :: 0 <= j < |reqs| ==> r[j].url == reqs[j].url
    ensures forall j :: 0 <= j < |reqs| && (j !in ws || !reqs[j].outcome.Pending?) ==> r[j] == reqs[j]
    ensures forall j :: 0 <= j < |reqs| && j in ws && reqs[j].outcome.Pending? ==> r[j].outcome == o
    decreases |ws|
  {
    if ws == [] then reqs
    else
      var r := SettleAll(Settle(reqs, ws[0], o), ws[1..], o);
      assert forall j :: j in ws ==> j == ws[0] || j in ws[1..];
      r
  }

  /** injectScript(url, {timeout}): a missing url rejects; an element for the
      url that is marked loaded resolves at once; an unmarked one gets this
      request's listeners; otherwise a new element is appended to the head
      with its handlers and timer. */
  function Inject(r: Registry, url: string, timeout: nat): Registry {
    var i := |r.requests|;
    if url == "" then
      r.(requests := r.requests + [Request(url, Rejected(MissingUrl))])
    else if url in r.elements then
      var e := r.elements[url];
      if e.loaded then
        r.(requests := r.requests + [Request(url, Resolved(url))])
      else
        r.(elements := r.elements[url := e.(waiters := e.waiters + [i])],
           requests := r.requests + [Request(url, Pending)])
    else
      Registry(r.head + [url],
               r.elements[url := Element(i, timeout, true, true, false, false, [])],
               r.requests + [Request(url, Pending)])
  }

  /** The browser fires `load` on the element for `url`: first its onload
      (if not nulled) clears the timer, marks the element loaded and resolves
      the owner; then every attached listener, in attachment order, resolves
      its request and removes itself. */
  function OnLoad(r: Registry, url: string): Registry {
    if url !in r.elements || r.elements[url].fired then r
    else
      var e := r.elements[url];
      var e' := if e.handlersSet then e.(timerArmed := false, loaded := true) else e;
      var reqs := if e.handlersSet then Settle(r.requests, e.owner, Resolved(url)) else r.requests;
      r.(elements := r.elements[url := e'.(fired := true, waiters := [])],
         requests := SettleAll(reqs, e.waiters, Resolved(url)))
  }

  /** The browser fires `error`: onerror (if not nulled) clears the timer and
      rejects the owner; then every listener rejects its request. The element
      stays unmarked. */
  function OnError(r: Registry, url: string): Registry {
    if url !in r.elements || r.elements[url].fired then r
    else
      var e := r.elements[url];
      var e' := if e.handlersSet then e.(timerArmed := false) else e;
      var reqs := if e.handlersSet then Settle(r.requests, e.owner, Rejected(LoadFailed(url))) else r.requests;
      r.(elements := r.elements[url := e'.(fired := true, waiters := [])],
         requests := SettleAll(reqs, e.waiters, Rejected(TagLoadFailed(url))))
  }

  /** The owner's timer fires: onload and onerror are nulled and the owner
      is rejected with the timeout. The element stays in the head. */
  function OnTimeout(r: Registry, url: string): Registry {
    if url !in r.elements || !r.elements[url].timerArmed then r
    else
      var e := r.elements[url];
      r.(elements := r.elements[url := e.(handlersSet := false, timerArmed := false)],
         requests := Settle(r.requests, e.owner, Rejected(TimedOut(url, e.timeout))))
  }

  datatype Event = InjectCall(url: string, timeout: nat) | LoadEvent(url: string) | ErrorEvent(url: string) | TimerEvent(url: string)

  function Step(r: Registry, ev: Event): Registry {
    match ev
    case InjectCall(url, t) => Inject(r, url, t)
    case LoadEvent(url) => OnLoad(r, url)
    case ErrorEvent(url) => OnError(r, url)
    case TimerEvent(url) => OnTimeout(r, url)
  }

  function Run(r: Registry, evs: seq<Event>): Registry
    decreases |evs|
  {
    if evs == [] then r else Run(Step(r, evs[0]), evs[1..])
  }

  // ---------------------------------------------------------------------
  // One call or event at a time

  /** An empty url rejects with "Missing url" and touches no element. */
  lemma MissingUrlRejects(r: Registry, timeout: nat)
    ensures var r' := Inject(r, "", timeout);
      && r'.head == r.head && r'.elements == r.elements
      && r'.requests == r.requests + [Request("", Rejected(MissingUrl))]
      && Message(r'.requests[|r.requests|].outcome.error) == "Missing url"
  {
  }

  /** An element marked loaded resolves a new request with the url at once
      and adds no element. */
  lemma LoadedResolvesAtOnce(r: Registry, url: string, timeout: nat)
    requires url != "" && url in r.elements && r.elements[url].loaded
    ensures var r' := Inject(r, url, timeout);
      r'.head == r.head && r'.elements == r.elements
      && r'.requests == r.requests + [Request(url, Resolved(url))]
  {
  }

  /** An element not marked loaded gets the new request's listeners: the
      request waits and no element is added. */
  lemma InFlightWaits(r: Registry, url: string, timeout: nat)
    requires url != "" && url in r.elements && !r.elements[url].loaded
    ensures var r' := Inject(r, url, timeout);
      && r'.head == r.head && r'.elements.Keys == r.elements.Keys
      && r'.requests == r.requests + [Request(url, Pending)]
      && r'.elements[url].waiters == r.elements[url].waiters + [|r.requests|]
  {
  }

  /** A first request appends exactly one element, tagged with its url, and
      owns it; its timer is armed. */
  lemma FirstRequestAppends(r: Registry, url: string, timeout: nat)
    requires url != "" && url !in r.elements
    ensures var r' := Inject(r, url, timeout);
      && r'.head == r.head + [url]
      && r'.elements.Keys == r.elements.Keys + {url}
      && r'.elements[url] == Element(|r.requests|, timeout, true, true, false, false, [])
      && r'.requests == r.requests + [Request(url, Pending)]
  {
  }

  /** On load the owner resolves with the url, the timer is cleared, the
      element is marked loaded, and every waiting request resolves too, its
      listeners removed. */
  lemma LoadSettles(r: Registry, url: string)
    requires Valid(r) && url in r.elements && !r.elements[url].fired && r.elements[url].handlersSet
    ensures var r', e := OnLoad(r, url), r.elements[url];
      && r'.head == r.head
      && r'.requests[e.owner].outcome == Resolved(url)
      && r'.elements[url].loaded && !r'.elements[url].timerArmed && r'.elements[url].waiters == []
      && forall k :: 0 <= k < |e.waiters| ==> r'.requests[e.waiters[k]].outcome == Resolved(url)
  {
    var e := r.elements[url];
    assert ElementOk(r, url);
    var reqs := SettleAll(r.requests, e.waiters, Resolved(url));
    assert e.owner !in e.waiters;
    forall k | 0 <= k < |e.waiters| ensures reqs[e.waiters[k]].outcome == Resolved(url) {
      assert e.waiters[k] in e.waiters;
    }
  }

  /** On error the owner is rejected with "Failed to load <url>", every
      waiting request with "Script tag load failed: <url>"; the timer is
      cleared and the element stays unmarked. */
  lemma ErrorSettles(r: Registry, url: string)
    requires Valid(r) && url in r.elements && !r.elements[url].fired && r.elements[url].handlersSet
    ensures var r', e := OnError(r, url), r.elements[url];
      && r'.head == r.head
      && r'.requests[e.owner].outcome == Rejected(LoadFailed(url))
      && !r'.elements[url].loaded && !r'.elements[url].timerArmed && r'.elements[url].waiters == []
      && forall k :: 0 <= k < |e.waiters| ==> r'.requests[e.waiters[k]].outcome == Rejected(TagLoadFailed(url))
  {
    var e := r.elements[url];
    assert ElementOk(r, url);
    var reqs := SettleAll(r.requests, e.waiters, Rejected(TagLoadFailed(url)));
    assert e.owner !in e.waiters;
    forall k | 0 <= k < |e.waiters| ensures reqs[e.waiters[k]].outcome == Rejected(TagLoadFailed(url)) {
      assert e.waiters[k] in e.waiters;
    }
  }

  /** On timeout the owner is rejected with a message naming the delay, the
      handlers are nulled, and the element stays in the head unmarked. */
  lemma TimeoutRejects(r: Registry, url: string)
    requires Valid(r) && url in r.elements && r.elements[url].timerArmed
    ensures var r', e := OnTimeout(r, url), r.elements[url];
      && r'.head == r.head
      && r'.requests[e.owner].outcome == Rejected(TimedOut(url, e.timeout))
      && Message(r'.requests[e.owner].outcome.error)
         == "Timeout " + Text.Decimal(e.timeout) + "ms loading " + url
      && !r'.elements[url].handlersSet && !r'.elements[url].loaded
  {
    assert ElementOk(r, url);
  }

  /** A load that comes after the timeout resolves the waiting requests but
      neither changes the owner's rejection nor marks the element loaded. */
  lemma LateLoadAfterTimeout(r: Registry, url: string)
    requires Valid(r) && url in r.elements && r.elements[url].timerArmed
    ensures var r'', e := OnLoad(OnTimeout(r, url), url), r.elements[url];
      && r''.requests[e.owner].outcome == Rejected(TimedOut(url, e.timeout))
      && !r''.elements[url].loaded
      && forall k :: 0 <= k < |e.waiters| ==> r''.requests[e.waiters[k]].outcome == Resolved(url)
  {
    var e := r.elements[url];
    assert ElementOk(r, url);
    var reqs := Settle(r.requests, e.owner, Rejected(TimedOut(url, e.timeout)));
    assert OnTimeout(r, url).requests == reqs;
    assert e.owner !in e.waiters;
    forall k | 0 <= k < |e.waiters| ensures reqs[e.waiters[k]].outcome.Pending? {
    }
    var done := SettleAll(reqs, e.waiters, Resolved(url));
    assert OnLoad(OnTimeout(r, url), url).requests == done;
    forall k | 0 <= k < |e.waiters| ensures done[e.waiters[k]].outcome == Resolved(url) {
      assert e.waiters[k] in e.waiters;
    }
  }

  // ---------------------------------------------------------------------
  // The invariant

  lemma InjectKeepsValid(r: Registry, url: string, timeout: nat)
    requires Valid(r)
    ensures Valid(Inject(r, url, timeout))
  {
    if url == "" {
      InjectWithoutElementKeepsValid(r, Request(url, Rejected(MissingUrl)));
    } else if url in r.elements && r.elements[url].loaded {
      InjectWithoutElementKeepsValid(r, Request(url, Resolved(url)));
    } else if url in r.elements {
      InjectWaiterKeepsValid(r, url);
    } else {
      InjectNewKeepsValid(r, url, timeout);
    }
  }

  /** A request that settles at once and touches no element. */
  lemma InjectWithoutElementKeepsValid(r: Registry, q: Request)
    requires Valid(r)
    ensures Valid(r.(requests := r.requests + [q]))
  {
    var r' := r.(requests := r.requests + [q]);
    forall u | u in r'.elements ensures ElementOk(r', u) {
      assert ElementOk(r, u);
    }
  }

  lemma InjectWaiterKeepsValid(r: Registry, url: string)
    requires Valid(r) && url in r.elements
    ensures var e := r.elements[url];
      Valid(r.(elements := r.elements[url := e.(waiters := e.waiters + [|r.requests|])],
               requests := r.requests + [Request(url, Pending)]))
  {
    var e := r.elements[url];
    var r' := r.(elements := r.elements[url := e.(waiters := e.waiters + [|r.requests|])],
                 requests := r.requests + [Request(url, Pending)]);
    forall u | u in r'.elements ensures ElementOk(r', u) {
      assert ElementOk(r, u);
    }
  }

  lemma InjectNewKeepsValid(r: Registry, url: string, timeout: nat)
    requires Valid(r) && url !in r.elements
    ensures Valid(Registry(r.head + [url],
                           r.elements[url := Element(|r.requests|, timeout, true, true, false, false, [])],
                           r.requests + [Request(url, Pending)]))
  {
    var r' := Registry(r.head + [url],
                       r.elements[url := Element(|r.requests|, timeout, true, true, false, false, [])],
                       r.requests + [Request(url, Pending)]);
    forall u | u in r'.elements ensures ElementOk(r', u) {
      if u != url {
        assert ElementOk(r, u);
      }
    }
    assert url !in r.head;
  }

  /** `r'` differs from `r` only in the element for `url` and in requests
      for `url`; the head, the element keys and every request url stay. */
  predicate OnlyTouches(r: Registry, r': Registry, url: string) {
    && r'.head == r.head && r'.elements.Keys == r.elements.Keys
    && |r'.requests| == |r.requests|
    && (forall j :: 0 <= j < |r.requests| ==> r'.requests[j].url == r.requests[j].url)
    && (forall j :: 0 <= j < |r.requests| && r.requests[j].url != url ==> r'.requests[j] == r.requests[j])
    && (forall v :: v in r.elements && v != url ==> r'.elements[v] == r.elements[v])
  }

  /** The owner and the listeners of an element all asked for its url. */
  lemma ListenersAskedForUrl(r: Registry, url: string)
    requires Valid(r) && url in r.elements
    ensures forall j :: 0 <= j < |r.requests| && r.requests[j].url != url ==>
      j != r.elements[url].owner && j !in r.elements[url].waiters
  {
    assert ElementOk(r, url);
  }

  lemma LoadTouchesOnlyItsUrl(r: Registry, url: string)
    requires Valid(r)
    ensures OnlyTouches(r, OnLoad(r, url), url)
  {
    if url in r.elements { ListenersAskedForUrl(r, url); }
  }

  lemma ErrorTouchesOnlyItsUrl(r: Registry, url: string)
    requires Valid(r)
    ensures OnlyTouches(r, OnError(r, url), url)
  {
    if url in r.elements { ListenersAskedForUrl(r, url); }
  }

  lemma TimeoutTouchesOnlyItsUrl(r: Registry, url: string)
    requires Valid(r)
    ensures OnlyTouches(r, OnTimeout(r, url), url)
  {
    if url in r.elements { ListenersAskedForUrl(r, url); }
  }

  /** A browser event or timer on a url touches only that url's element
      and only requests for that url. */
  lemma EventTouchesOnlyItsUrl(r: Registry, ev: Event)
    requires Valid(r) && !ev.InjectCall?
    ensures OnlyTouches(r, Step(r, ev), ev.url)
  {
    match ev
    case LoadEvent(u) => LoadTouchesOnlyItsUrl(r, u);
    case ErrorEvent(u) => ErrorTouchesOnlyItsUrl(r, u);
    case TimerEvent(u) => TimeoutTouchesOnlyItsUrl(r, u);
  }

  /** Elements other than `url` stay consistent when only requests for
      `url` change. */
  lemma OthersUnaffected(r: Registry, r': Registry, url: string)
    requires Valid(r) && OnlyTouches(r, r', url)
    ensures forall v :: v in r'.elements && v != url ==> ElementOk(r', v)
  {
    forall v | v in r'.elements && v != url ensures ElementOk(r', v) {
      assert ElementOk(r, v);
    }
  }

  lemma LoadKeepsValid(r: Registry, url: string)
    requires Valid(r)
    ensures Valid(OnLoad(r, url))
  {
    if url in r.elements && !r.elements[url].fired {
      LoadTouchesOnlyItsUrl(r, url);
      var r' := OnLoad(r, url);
      OthersUnaffected(r, r', url);
      assert ElementOk(r, url);
      assert ElementOk(r', url);
    }
  }

  lemma ErrorKeepsValid(r: Registry, url: string)
    requires Valid(r)
    ensures Valid(OnError(r, url))
  {
    if url in r.elements && !r.elements[url].fired {
      ErrorTouchesOnlyItsUrl(r, url);
      var r' := OnError(r, url);
      OthersUnaffected(r, r', url);
      assert ElementOk(r, url);
      assert ElementOk(r', url);
    }
  }

  lemma TimeoutKeepsValid(r: Registry, url: string)
    requires Valid(r)
    ensures Valid(OnTimeout(r, url))
  {
    if url in r.elements && r.elements[url].timerArmed {
      TimeoutTouchesOnlyItsUrl(r, url);
      var r' := OnTimeout(r, url);
      OthersUnaffected(r, r', url);
      assert ElementOk(r, url);
      assert ElementOk(r', url);
    }
  }

  lemma StepKeepsValid(r: Registry, ev: Event)
    requires Valid(r)
    ensures Valid(Step(r, ev))
  {
    match ev
    case InjectCall(url, t) => InjectKeepsValid(r, url, t);
    case LoadEvent(url) => LoadKeepsValid(r, url);
    case ErrorEvent(url) => ErrorKeepsValid(r, url);
    case TimerEvent(url) => TimeoutKeepsValid(r, url);
  }

  /** Whatever the calls and events, the head never holds two elements for
      the same url, and every tagged element is in the registry. */
  lemma {:induction false} RunKeepsValid(r: Registry, evs: seq<Event>)
    requires Valid(r)
    ensures Valid(Run(r, evs))
    ensures NoDup(Run(r, evs).head)
    decreases |evs|
  {
    if evs != [] {
      StepKeepsValid(r, evs[0]);
      RunKeepsValid(Step(r, evs[0]), evs[1..]);
    }
  }

  /** Elements are never removed and requests are only appended. */
  lemma StepOnlyAppends(r: Registry, ev: Event)
    ensures r.head <= Step(r, ev).head
    ensures |r.requests| <= |Step(r, ev).requests|
    ensures forall j :: 0 <= j < |r.requests| ==> Step(r, ev).requests[j].url == r.requests[j].url
    ensures forall j :: 0 <= j < |r.requests| && !r.requests[j].outcome.Pending? ==>
      Step(r, ev).requests[j] == r.requests[j]
  {
  }

  /** A settled request keeps its outcome forever: no later call or event
      (a late load after a timeout included) settles it again. */
  lemma {:induction false} SettledIsFinal(r: Registry, evs: seq<Event>, j: nat)
    requires j < |r.requests| && !r.requests[j].outcome.Pending?
    ensures j < |Run(r, evs).requests| && Run(r, evs).requests[j] == r.requests[j]
    ensures r.head <= Run(r, evs).head
    decreases |evs|
  {
    if evs != [] {
      StepOnlyAppends(r, evs[0]);
      SettledIsFinal(Step(r, evs[0]), evs[1..], j);
    }
  }

  // ---------------------------------------------------------------------
  // A request for a url whose element already failed

  /** Request `i` listens on the element for `url`, which has already fired
      without being marked loaded. */
  predicate Hung(r: Registry, i: nat, url: string) {
    && i < |r.requests| && r.requests[i] == Request(url, Pending)
    && url in r.elements && r.elements[url].fired && !r.elements[url].loaded
    && r.elements[url].owner != i
  }

  lemma StepKeepsHung(r: Registry, ev: Event, i: nat, url: string)
    requires Valid(r) && Hung(r, i, url)
    ensures Hung(Step(r, ev), i, url)
  {
    assert ElementOk(r, url);
    if !ev.InjectCall? {
      EventTouchesOnlyItsUrl(r, ev);
    }
  }

  lemma {:induction false} HungStaysPending(r: Registry, evs: seq<Event>, i: nat, url: string)
    requires Valid(r) && Hung(r, i, url)
    ensures Hung(Run(r, evs), i, url)
    decreases |evs|
  {
    if evs != [] {
      StepKeepsHung(r, evs[0], i, url);
      StepKeepsValid(r, evs[0]);
      HungStaysPending(Step(r, evs[0]), evs[1..], i, url);
    }
  }

  /** Once the element for a url has failed or timed out and then fired, a
      new request for that url attaches listeners to an element that will
      never fire again: whatever happens next, it stays pending. */
  lemma RetryAfterFailureNeverSettles(r: Registry, url: string, timeout: nat, evs: seq<Event>)
    requires Valid(r) && url != "" && url in r.elements && r.elements[url].fired && !r.elements[url].loaded
    ensures var r' := Run(Inject(r, url, timeout), evs);
      |r.requests| < |r'.requests| && r'.requests[|r.requests|] == Request(url, Pending)
  {
    assert ElementOk(r, url);
    InjectKeepsValid(r, url, timeout);
    HungStaysPending(Inject(r, url, timeout), evs, |r.requests|, url);
  }

  /** From an empty head: a request for a url, its load, then a second
      request for the same url gives one element and two resolved requests. */
  lemma LoadThenReuse(url: string, t1: nat, t2: nat)
    requires url != ""
    ensures var r := Run(Empty, [InjectCall(url, t1), LoadEvent(url), InjectCall(url, t2)]);
      && r.head == [url]
      && r.requests == [Request(url, Resolved(url)), Request(url, Resolved(url))]
  {
    var r1 := Inject(Empty, url, t1);
    assert r1.head == [url] && r1.elements[url].handlersSet && r1.elements[url].waiters == [];
    var r2 := OnLoad(r1, url);
    assert r2.requests == [Request(url, Resolved(url))];
    assert r2.head == [url] && r2.elements[url].loaded;
    var r3 := Inject(r2, url, t2);
    assert r3.head == [url];
    assert r3.requests == [Request(url, Resolved(url)), Request(url, Resolved(url))];
    var evs := [InjectCall(url, t1), LoadEvent(url), InjectCall(url, t2)];
    assert Run(Empty, evs) == Run(r1, evs[1..]);
    assert Run(r1, evs[1..]) == Run(r2, evs[2..]);
    assert Run(r2, evs[2..]) == Run(r3, []);
  }
}
