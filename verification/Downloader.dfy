/** The download protocol of `ImageDownloader`: requests for one URL share one network task,
    cancels are counted, and a request that meets a fully cancelled load is parked.

    `Step` says what one block of the barrier, process, cancel or delegate queue does to the
    state; a run is any sequence of such blocks. Load objects are numbered in creation order and
    a load shares its number with the one network task that is created for it. */
module DownloaderProtocol {
  import opened Basics

  type Url = string
  type Handler = nat
  type LoadId = nat
  type Image = nat
  type Data = seq<bv8>

  datatype Outcome =
    | Fetched(image: Image, original: Data)
    | NotModified
    | BadData
    | TransportError
    | Rejected

  /** A completion handler with the processor its options ask for. */
  datatype Content = Content(handler: Handler, processor: string)

  datatype Call = Call(handler: Handler, outcome: Outcome)

  /** `cancelSemaphore` holds the value of the dispatch semaphore; a negative value counts waiters. */
  datatype Load = Load(url: Url, contents: seq<Content>, downloadTaskCount: int, cancelSemaphore: Option<int>)

  /** A block on the cancel queue: it keeps the load that it was parked on. */
  datatype Parked = Parked(load: LoadId, url: Url, content: Content)

  datatype State = State(
    loads: seq<Load>,
    fetchLoads: map<Url, LoadId>,
    running: set<LoadId>,
    cancelled: set<LoadId>,
    jobs: set<LoadId>,
    cancelQueue: seq<Parked>,
    waiting: bool,
    downloadHolder: bool,
    calls: seq<Call>)

  const INIT: State := State([], map[], {}, {}, {}, [], false, false, [])

  /** What one block does. `data` is the delegate's answer for the received bytes and `images`
      holds what each processor makes of it; a processor without an entry returns nil. */
  datatype Event =
    | Download(url: Url, content: Content)
    | Reject(content: Content)
    | Cancel(task: LoadId)
    | CancelAll
    | BadStatus(task: LoadId)
    | TaskFailed(task: LoadId)
    | TaskSucceeded(task: LoadId)
    | Process(task: LoadId, data: Option<Data>, images: map<string, Image>, notModified: bool)
    | StartParked
    | WakeParked

  ghost predicate Wf(s: State) {
    && (forall u <- s.fetchLoads :: s.fetchLoads[u] < |s.loads| && s.loads[s.fetchLoads[u]].url == u)
    && (forall i <- s.running :: i < |s.loads|)
    && (forall i <- s.jobs :: i < |s.loads|)
    && (forall p <- s.cancelQueue :: p.load < |s.loads|)
    && (s.waiting ==> s.cancelQueue != [] && s.loads[s.cancelQueue[0].load].cancelSemaphore.Some?)
  }

  predicate Registered(s: State, i: LoadId) {
    && i < |s.loads|
    && s.loads[i].url in s.fetchLoads
    && s.fetchLoads[s.loads[i].url] == i
  }

  /** `prepareFetchLoad` together with the `started` closure that it calls inside the barrier. */
  function Prepare(s: State, url: Url, content: Content): (t: State)
    requires Wf(s)
    ensures Wf(t)
  {
    if url in s.fetchLoads then
      var i := s.fetchLoads[url];
      var l := s.loads[i];
      s.(loads := s.loads[i := l.(contents := l.contents + [content], downloadTaskCount := l.downloadTaskCount + 1)])
    else
      var i := |s.loads|;
      s.(loads := s.loads + [Load(url, [content], 1, None)],
         fetchLoads := s.fetchLoads[url := i],
         running := s.running + {i},
         downloadHolder := true)
  }

  /** Meeting a load whose count is zero parks the request behind the load's semaphore. */
  function Request(s: State, url: Url, content: Content): (t: State)
    requires Wf(s)
    ensures Wf(t)
  {
    if url in s.fetchLoads && s.loads[s.fetchLoads[url]].downloadTaskCount == 0 then
      var i := s.fetchLoads[url];
      var l := s.loads[i];
      var gate := if l.cancelSemaphore.None? then Some(0) else l.cancelSemaphore;
      s.(loads := s.loads[i := l.(cancelSemaphore := gate)],
         cancelQueue := s.cancelQueue + [Parked(i, url, content)])
    else
      Prepare(s, url, content)
  }

  /** The task is looked up by its URL, so a stale task counts against the load that now owns the URL. */
  function CancelTask(s: State, task: LoadId): (t: State)
    requires Wf(s) && task < |s.loads|
    ensures Wf(t)
  {
    var url := s.loads[task].url;
    if url !in s.fetchLoads then s
    else
      var i := s.fetchLoads[url];
      var l := s.loads[i];
      var n := l.downloadTaskCount - 1;
      s.(loads := s.loads[i := l.(downloadTaskCount := n)],
         cancelled := if n == 0 then s.cancelled + {task} else s.cancelled)
  }

  function CancelEvery(s: State): (t: State)
    requires Wf(s)
    ensures Wf(t)
  {
    s.(loads := seq(|s.loads|, i requires 0 <= i < |s.loads| =>
                      if Registered(s, i) then s.loads[i].(downloadTaskCount := s.loads[i].downloadTaskCount - 1)
                      else s.loads[i]),
       cancelled := s.cancelled + s.fetchLoads.Values)
  }

  /** `cleanFetchLoad`. */
  function Clean(s: State, url: Url): (t: State)
    requires Wf(s)
    ensures Wf(t)
  {
    var left := s.fetchLoads - {url};
    s.(fetchLoads := left, downloadHolder := s.downloadHolder && left != map[])
  }

  /** The value left by signalling until no waiter was woken. */
  function SignalledValue(v: int): int { (if v < 0 then 0 else v) + 1 }

  function FailureCalls(contents: seq<Content>): seq<Call> {
    seq(|contents|, k requires 0 <= k < |contents| => Call(contents[k].handler, TransportError))
  }

  /** `callCompletionHandlerFailure`: the load is found by URL, whichever task reports the failure. */
  function Fail(s: State, url: Url): (t: State)
    requires Wf(s)
    ensures Wf(t)
  {
    if !s.downloadHolder || url !in s.fetchLoads then s
    else
      var i := s.fetchLoads[url];
      var l := s.loads[i];
      var gate := if l.cancelSemaphore.Some? then Some(SignalledValue(l.cancelSemaphore.value)) else None;
      var c := Clean(s, url);
      c.(loads := c.loads[i := l.(cancelSemaphore := gate)], calls := c.calls + FailureCalls(l.contents))
  }

  function OutcomeOf(content: Content, data: Option<Data>, images: map<string, Image>, notModified: bool): Outcome {
    if data.Some? && content.processor in images then Fetched(images[content.processor], data.value)
    else if notModified then NotModified
    else BadData
  }

  function SuccessCalls(contents: seq<Content>, data: Option<Data>, images: map<string, Image>,
      notModified: bool): seq<Call> {
    seq(|contents|, k requires 0 <= k < |contents| =>
      Call(contents[k].handler, OutcomeOf(contents[k], data, images, notModified)))
  }

  /** The block that `processImage` queues; it signals no semaphore. */
  function Deliver(s: State, task: LoadId, data: Option<Data>, images: map<string, Image>,
      notModified: bool): (t: State)
    requires Wf(s) && task < |s.loads|
    ensures Wf(t)
  {
    var url := s.loads[task].url;
    var r := s.(jobs := s.jobs - {task});
    if url !in s.fetchLoads then r
    else
      var l := s.loads[s.fetchLoads[url]];
      var c := Clean(r, url);
      c.(calls := c.calls + SuccessCalls(l.contents, data, images, notModified))
  }

  /** The head block of the cancel queue has passed its semaphore and drops it. */
  function Passed(s: State): (t: State)
    requires Wf(s) && s.cancelQueue != []
    ensures Wf(t)
  {
    var p := s.cancelQueue[0];
    s.(loads := s.loads[p.load := s.loads[p.load].(cancelSemaphore := None)],
       cancelQueue := s.cancelQueue[1..],
       waiting := false)
  }

  /** The head block prepares its load, whatever now stands registered for the URL. */
  function Release(s: State): (t: State)
    requires Wf(s) && s.cancelQueue != []
    ensures Wf(t)
  {
    Prepare(Passed(s), s.cancelQueue[0].url, s.cancelQueue[0].content)
  }

  /** The head block reaches its wait: it passes, or it blocks the serial queue. */
  function Start(s: State): (t: State)
    requires Wf(s) && s.cancelQueue != []
    ensures Wf(t)
  {
    var p := s.cancelQueue[0];
    var l := s.loads[p.load];
    if l.cancelSemaphore.None? || l.cancelSemaphore.value >= 1 then Release(s)
    else s.(loads := s.loads[p.load := l.(cancelSemaphore := Some(l.cancelSemaphore.value - 1))], waiting := true)
  }

  predicate Enabled(s: State, e: Event)
    requires Wf(s)
  {
    match e
    case Download(_, _) => true
    case Reject(_) => true
    case Cancel(task) => task < |s.loads|
    case CancelAll => true
    case BadStatus(task) => task in s.running
    case TaskFailed(task) => task in s.running
    case TaskSucceeded(task) => task in s.running
    case Process(task, _, _, _) => task in s.jobs
    case StartParked => s.cancelQueue != [] && !s.waiting
    case WakeParked => s.waiting && s.loads[s.cancelQueue[0].load].cancelSemaphore.value >= 0
  }

  function Step(s: State, e: Event): (t: State)
    requires Wf(s) && Enabled(s, e)
    ensures Wf(t)
  {
    match e
    case Download(url, content) => Request(s, url, content)
    case Reject(content) => s.(calls := s.calls + [Call(content.handler, Rejected)])
    case Cancel(task) => CancelTask(s, task)
    case CancelAll => CancelEvery(s)
    case BadStatus(task) => Fail(s, s.loads[task].url)
    case TaskFailed(task) => Fail(s.(running := s.running - {task}), s.loads[task].url)
    case TaskSucceeded(task) =>
      s.(running := s.running - {task}, jobs := if s.downloadHolder then s.jobs + {task} else s.jobs)
    case Process(task, data, images, notModified) => Deliver(s, task, data, images, notModified)
    case StartParked => Start(s)
    case WakeParked => Release(s)
  }

  /** `tr` leads from `s` to `t`. */
  ghost predicate Run(s: State, tr: seq<Event>, t: State)
    requires Wf(s)
    decreases |tr|
  {
    if tr == [] then s == t else Enabled(s, tr[0]) && Run(Step(s, tr[0]), tr[1..], t)
  }
}

/** Theorems about every run of the download protocol. */
module DownloaderTheorems {
  import opened Basics
  import opened DownloaderProtocol

  // ---- the registry ----

  /** Each registered load has its own task still running or being processed, and the session
      handler holds the downloader exactly while a load is registered. */
  ghost predicate RegistryInv(s: State)
    requires Wf(s)
  {
    && (forall u <- s.fetchLoads :: s.fetchLoads[u] in s.running + s.jobs)
    && (s.downloadHolder <==> s.fetchLoads != map[])
  }

  lemma StepKeepsRegistry(s: State, e: Event)
    requires Wf(s) && RegistryInv(s) && Enabled(s, e)
    ensures RegistryInv(Step(s, e))
  {
    match e
    case Download(url, content) => PrepareKeepsRegistry(s, url, content);
    case BadStatus(task) => RemoveUrl(s, s.loads[task].url);
    case TaskFailed(task) => RemoveUrl(s, s.loads[task].url);
    case Process(task, _, _, _) => RemoveUrl(s, s.loads[task].url);
    case StartParked => ReleaseKeepsRegistry(s);
    case WakeParked => ReleaseKeepsRegistry(s);
    case _ =>
  }

  lemma PrepareKeepsRegistry(s: State, url: Url, content: Content)
    requires Wf(s) && RegistryInv(s)
    ensures RegistryInv(Prepare(s, url, content))
  {
  }

  lemma ReleaseKeepsRegistry(s: State)
    requires Wf(s) && RegistryInv(s) && s.cancelQueue != []
    ensures RegistryInv(Release(s))
  {
    PrepareKeepsRegistry(Passed(s), s.cancelQueue[0].url, s.cancelQueue[0].content);
  }

  /** Removing a URL leaves only loads of other URLs, hence no load of the task that ended. */
  lemma RemoveUrl(s: State, url: Url)
    requires Wf(s)
    ensures forall u <- s.fetchLoads - {url} :: u in s.fetchLoads && u != url && s.loads[s.fetchLoads[u]].url == u
  {
  }

  lemma {:induction false} RunKeepsRegistry(s: State, tr: seq<Event>, t: State)
    requires Wf(s) && RegistryInv(s) && Run(s, tr, t)
    ensures Wf(t) && RegistryInv(t)
    decreases |tr|
  {
    if tr != [] {
      StepKeepsRegistry(s, tr[0]);
      RunKeepsRegistry(Step(s, tr[0]), tr[1..], t);
    }
  }

  // ---- every handler is owed exactly one call ----

  function ContentHandlers(cs: seq<Content>): seq<Handler> { seq(|cs|, k requires 0 <= k < |cs| => cs[k].handler) }
  function CallHandlers(cs: seq<Call>): seq<Handler> { seq(|cs|, k requires 0 <= k < |cs| => cs[k].handler) }
  function ParkedHandlers(ps: seq<Parked>): seq<Handler> {
    seq(|ps|, k requires 0 <= k < |ps| => ps[k].content.handler)
  }

  ghost function HeldBy(s: State, i: LoadId): multiset<Handler>
    requires i < |s.loads|
  {
    if Registered(s, i) then multiset(ContentHandlers(s.loads[i].contents)) else multiset{}
  }

  ghost function HeldBelow(s: State, n: nat): multiset<Handler>
    requires n <= |s.loads|
  {
    if n == 0 then multiset{} else HeldBelow(s, n - 1) + HeldBy(s, n - 1)
  }

  /** The handlers already called, plus those held by registered loads, plus those parked. */
  ghost function Owed(s: State): multiset<Handler> {
    multiset(CallHandlers(s.calls)) + HeldBelow(s, |s.loads|) + multiset(ParkedHandlers(s.cancelQueue))
  }

  /** The handlers that a trace passes to `downloadImage`. */
  ghost function Issued(tr: seq<Event>): multiset<Handler> {
    if tr == [] then multiset{} else IssuedBy(tr[0]) + Issued(tr[1..])
  }

  ghost function IssuedBy(e: Event): multiset<Handler> {
    match e
    case Download(_, content) => multiset{content.handler}
    case Reject(content) => multiset{content.handler}
    case _ => multiset{}
  }

  lemma {:induction false} HeldAgrees(s: State, t: State, n: nat)
    requires n <= |s.loads| && n <= |t.loads|
    requires forall j | 0 <= j < n :: HeldBy(s, j) == HeldBy(t, j)
    ensures HeldBelow(s, n) == HeldBelow(t, n)
  {
    if n > 0 { HeldAgrees(s, t, n - 1); }
  }

  /** When only load `i` changes what it holds, the total changes by just that. */
  lemma {:induction false} HeldGains(s: State, t: State, i: LoadId, n: nat, gain: multiset<Handler>)
    requires i < n <= |s.loads| && n <= |t.loads|
    requires forall j | 0 <= j < n && j != i :: HeldBy(s, j) == HeldBy(t, j)
    requires HeldBy(t, i) == HeldBy(s, i) + gain
    ensures HeldBelow(t, n) == HeldBelow(s, n) + gain
  {
    if i == n - 1 { HeldAgrees(s, t, n - 1); } else { HeldGains(s, t, i, n - 1, gain); }
  }

  lemma JoinOwes(s: State, url: Url, content: Content)
    requires Wf(s) && url in s.fetchLoads
    ensures Owed(Prepare(s, url, content)) == Owed(s) + multiset{content.handler}
  {
    var t := Prepare(s, url, content);
    var i := s.fetchLoads[url];
    forall j | 0 <= j < |s.loads| && j != i ensures HeldBy(s, j) == HeldBy(t, j) {
      assert Registered(s, j) == Registered(t, j);
    }
    assert HeldBy(t, i) == HeldBy(s, i) + multiset{content.handler} by {
      assert ContentHandlers(t.loads[i].contents) == ContentHandlers(s.loads[i].contents) + [content.handler];
    }
    HeldGains(s, t, i, |s.loads|, multiset{content.handler});
  }

  lemma CreatedLoadHolds(s: State, url: Url, content: Content)
    requires Wf(s) && url !in s.fetchLoads
    ensures var t := Prepare(s, url, content);
      HeldBelow(t, |s.loads|) == HeldBelow(s, |s.loads|) && HeldBy(t, |s.loads|) == multiset{content.handler}
  {
    var t := Prepare(s, url, content);
    forall j | 0 <= j < |s.loads| ensures HeldBy(s, j) == HeldBy(t, j) {
      assert t.loads[j] == s.loads[j];
      assert Registered(s, j) == Registered(t, j);
    }
    HeldAgrees(s, t, |s.loads|);
    assert ContentHandlers([content]) == [content.handler];
  }

  lemma CreateOwes(s: State, url: Url, content: Content)
    requires Wf(s) && url !in s.fetchLoads
    ensures Owed(Prepare(s, url, content)) == Owed(s) + multiset{content.handler}
  {
    CreatedLoadHolds(s, url, content);
    var t := Prepare(s, url, content);
    assert |t.loads| == |s.loads| + 1 && t.calls == s.calls && t.cancelQueue == s.cancelQueue;
    assert HeldBelow(t, |t.loads|) == HeldBelow(t, |s.loads|) + HeldBy(t, |s.loads|);
  }

  lemma PrepareOwes(s: State, url: Url, content: Content)
    requires Wf(s)
    ensures Owed(Prepare(s, url, content)) == Owed(s) + multiset{content.handler}
  {
    if url in s.fetchLoads { JoinOwes(s, url, content); } else { CreateOwes(s, url, content); }
  }

  /** A change that touches no contents and no registration leaves what is held alone. */
  lemma SameHeld(s: State, t: State)
    requires |s.loads| == |t.loads| && s.fetchLoads == t.fetchLoads
    requires forall j | 0 <= j < |s.loads| ::
      s.loads[j].contents == t.loads[j].contents && s.loads[j].url == t.loads[j].url
    ensures HeldBelow(s, |s.loads|) == HeldBelow(t, |t.loads|)
  {
    forall j | 0 <= j < |s.loads| ensures HeldBy(s, j) == HeldBy(t, j) {
      assert Registered(s, j) == Registered(t, j);
    }
    HeldAgrees(s, t, |s.loads|);
  }

  /** Unregistering a load and calling each of its handlers keeps the balance. */
  lemma CleanOwes(s: State, t: State, url: Url, made: seq<Call>)
    requires Wf(s) && url in s.fetchLoads
    requires t.fetchLoads == s.fetchLoads - {url}
    requires |t.loads| == |s.loads| && forall j | 0 <= j < |s.loads| ::
      t.loads[j].contents == s.loads[j].contents && t.loads[j].url == s.loads[j].url
    requires t.calls == s.calls + made && t.cancelQueue == s.cancelQueue
    requires CallHandlers(made) == ContentHandlers(s.loads[s.fetchLoads[url]].contents)
    ensures Owed(t) == Owed(s)
  {
    var i := s.fetchLoads[url];
    forall j | 0 <= j < |s.loads| && j != i ensures HeldBy(s, j) == HeldBy(t, j) {
      assert Registered(s, j) == Registered(t, j);
    }
    assert Registered(s, i) && !Registered(t, i);
    HeldGains(t, s, i, |s.loads|, multiset(CallHandlers(made)));
    assert CallHandlers(t.calls) == CallHandlers(s.calls) + CallHandlers(made);
  }

  lemma FailOwes(s: State, url: Url)
    requires Wf(s)
    ensures Owed(Fail(s, url)) == Owed(s)
  {
    if s.downloadHolder && url in s.fetchLoads {
      var cs := s.loads[s.fetchLoads[url]].contents;
      assert CallHandlers(FailureCalls(cs)) == ContentHandlers(cs);
      CleanOwes(s, Fail(s, url), url, FailureCalls(cs));
    }
  }

  lemma PassedOwes(s: State)
    requires Wf(s) && s.cancelQueue != []
    ensures Owed(s) == Owed(Passed(s)) + multiset{s.cancelQueue[0].content.handler}
  {
    SameHeld(s, Passed(s));
    assert ParkedHandlers(s.cancelQueue) == [s.cancelQueue[0].content.handler] + ParkedHandlers(s.cancelQueue[1..]);
  }

  lemma ReleaseOwes(s: State)
    requires Wf(s) && s.cancelQueue != []
    ensures Owed(Release(s)) == Owed(s)
  {
    PassedOwes(s);
    PrepareOwes(Passed(s), s.cancelQueue[0].url, s.cancelQueue[0].content);
  }

  lemma ParkingOwes(s: State, t: State, p: Parked)
    requires |s.loads| == |t.loads| && s.fetchLoads == t.fetchLoads && s.calls == t.calls
    requires t.cancelQueue == s.cancelQueue + [p]
    requires forall j | 0 <= j < |s.loads| ::
      s.loads[j].contents == t.loads[j].contents && s.loads[j].url == t.loads[j].url
    ensures Owed(t) == Owed(s) + multiset{p.content.handler}
  {
    SameHeld(s, t);
    assert ParkedHandlers(t.cancelQueue) == ParkedHandlers(s.cancelQueue) + [p.content.handler];
  }

  lemma RequestOwes(s: State, url: Url, content: Content)
    requires Wf(s)
    ensures Owed(Request(s, url, content)) == Owed(s) + multiset{content.handler}
  {
    if url in s.fetchLoads && s.loads[s.fetchLoads[url]].downloadTaskCount == 0 {
      ParkingOwes(s, Request(s, url, content), Parked(s.fetchLoads[url], url, content));
    } else {
      PrepareOwes(s, url, content);
    }
  }

  lemma RejectOwes(s: State, content: Content)
    requires Wf(s)
    ensures Owed(Step(s, Reject(content))) == Owed(s) + multiset{content.handler}
  {
    var t := Step(s, Reject(content));
    SameHeld(s, t);
    assert CallHandlers(t.calls) == CallHandlers(s.calls) + [content.handler];
  }

  lemma DeliverOwes(s: State, task: LoadId, data: Option<Data>, images: map<string, Image>, notModified: bool)
    requires Wf(s) && task < |s.loads|
    ensures Owed(Deliver(s, task, data, images, notModified)) == Owed(s)
  {
    var t := Deliver(s, task, data, images, notModified);
    var url := s.loads[task].url;
    if url in s.fetchLoads {
      var cs := s.loads[s.fetchLoads[url]].contents;
      var made := SuccessCalls(cs, data, images, notModified);
      assert CallHandlers(made) == ContentHandlers(cs);
      CleanOwes(s, t, url, made);
    } else {
      SameHeld(s, t);
    }
  }

  /** A step that touches neither calls nor parked requests nor what loads hold. */
  lemma QuietOwes(s: State, t: State)
    requires |s.loads| == |t.loads| && s.fetchLoads == t.fetchLoads && s.calls == t.calls
    requires s.cancelQueue == t.cancelQueue
    requires forall j | 0 <= j < |s.loads| ::
      s.loads[j].contents == t.loads[j].contents && s.loads[j].url == t.loads[j].url
    ensures Owed(s) == Owed(t)
  {
    SameHeld(s, t);
  }

  lemma FailedTaskOwes(s: State, task: LoadId)
    requires Wf(s) && task in s.running
    ensures Owed(Step(s, TaskFailed(task))) == Owed(s)
  {
    var r := s.(running := s.running - {task});
    QuietOwes(s, r);
    FailOwes(r, s.loads[task].url);
  }

  lemma StartOwes(s: State)
    requires Wf(s) && s.cancelQueue != []
    ensures Owed(Start(s)) == Owed(s)
  {
    var l := s.loads[s.cancelQueue[0].load];
    if l.cancelSemaphore.None? || l.cancelSemaphore.value >= 1 {
      ReleaseOwes(s);
    } else {
      QuietOwes(s, Start(s));
    }
  }

  lemma StepOwes(s: State, e: Event)
    requires Wf(s) && Enabled(s, e)
    ensures Owed(Step(s, e)) == Owed(s) + IssuedBy(e)
  {
    match e
    case Download(url, content) => RequestOwes(s, url, content);
    case Reject(content) => RejectOwes(s, content);
    case _ => OtherStepOwes(s, e);
  }

  lemma OtherStepOwes(s: State, e: Event)
    requires Wf(s) && Enabled(s, e) && !e.Download? && !e.Reject?
    ensures Owed(Step(s, e)) == Owed(s)
  {
    match e
    case Cancel(task) => QuietOwes(s, CancelTask(s, task));
    case CancelAll => QuietOwes(s, CancelEvery(s));
    case BadStatus(task) => FailOwes(s, s.loads[task].url);
    case TaskFailed(task) => FailedTaskOwes(s, task);
    case TaskSucceeded(task) => QuietOwes(s, Step(s, e));
    case Process(task, data, images, notModified) => DeliverOwes(s, task, data, images, notModified);
    case StartParked => StartOwes(s);
    case WakeParked => ReleaseOwes(s);
  }

  lemma {:induction false} RunOwes(s: State, tr: seq<Event>, t: State)
    requires Wf(s) && Run(s, tr, t)
    ensures Owed(t) == Owed(s) + Issued(tr)
    decreases |tr|
  {
    if tr != [] {
      StepOwes(s, tr[0]);
      RunOwes(Step(s, tr[0]), tr[1..], t);
    }
  }

  lemma {:induction false} NothingRegisteredHoldsNothing(s: State, n: nat)
    requires n <= |s.loads| && s.fetchLoads == map[]
    ensures HeldBelow(s, n) == multiset{}
  {
    if n > 0 { NothingRegisteredHoldsNothing(s, n - 1); }
  }

  lemma InitOwesNothing()
    ensures Owed(INIT) == multiset{}
  {
  }

  lemma IdleRegistersNothing(s: State)
    requires Wf(s) && RegistryInv(s) && s.running == {} && s.jobs == {}
    ensures s.fetchLoads == map[]
  {
    assert s.running + s.jobs == {};
  }

  lemma IdleHoldsNothing(s: State)
    requires Wf(s) && RegistryInv(s) && s.running == {} && s.jobs == {}
    ensures HeldBelow(s, |s.loads|) == multiset{}
  {
    IdleRegistersNothing(s);
    NothingRegisteredHoldsNothing(s, |s.loads|);
  }

  /** Over every interleaving no handler is called more often than it was given, and once no task,
      no processing job and no parked request is left, each was called exactly as often. */
  lemma EachHandlerCalledOnce(tr: seq<Event>, t: State)
    requires Run(INIT, tr, t)
    ensures multiset(CallHandlers(t.calls)) <= Issued(tr)
    ensures t.running == {} && t.jobs == {} && t.cancelQueue == [] ==> multiset(CallHandlers(t.calls)) == Issued(tr)
  {
    RunOwes(INIT, tr, t);
    InitOwesNothing();
    assert Issued(tr) == Owed(t);
    RunKeepsRegistry(INIT, tr, t);
    if t.running == {} && t.jobs == {} {
      IdleHoldsNothing(t);
    }
  }

  // ---- what each handler is told ----

  /** A network task of this URL has failed in the course of `tr`. */
  ghost predicate TaskOfUrlFailed(tr: seq<Event>, s: State, url: Url) {
    exists task: LoadId :: (TaskFailed(task) in tr || BadStatus(task) in tr)
                           && task < |s.loads| && s.loads[task].url == url
  }

  /** What a processing block makes of its data for one processor. */
  ghost predicate Makes(e: Event, processor: string, outcome: Outcome)
    requires e.Process?
  {
    if e.data.Some? && processor in e.images then outcome == Fetched(e.images[processor], e.data.value)
    else if e.notModified then outcome == NotModified
    else outcome == BadData
  }

  /** A processing block of a task of this URL has run and made this of the data. */
  ghost predicate TaskOfUrlProcessed(tr: seq<Event>, s: State, url: Url, processor: string, outcome: Outcome) {
    exists e :: e in tr && e.Process? && e.task < |s.loads| && s.loads[e.task].url == url
                && Makes(e, processor, outcome)
  }

  /** The outcome that a download of this URL with this processor may come to. */
  ghost predicate DownloadEnds(tr: seq<Event>, s: State, url: Url, processor: string, outcome: Outcome) {
    (outcome == TransportError && TaskOfUrlFailed(tr, s, url)) || TaskOfUrlProcessed(tr, s, url, processor, outcome)
  }

  /** The call answers a request of the trace, with an outcome that this request may come to. */
  ghost predicate Justified(tr: seq<Event>, s: State, call: Call) {
    || (exists content :: Reject(content) in tr && content.handler == call.handler && call.outcome == Rejected)
    || (exists url, content :: Download(url, content) in tr && content.handler == call.handler
                               && DownloadEnds(tr, s, url, content.processor, call.outcome))
  }

  /** What loads and parked requests hold was asked for under their URL. */
  ghost predicate AskedFor(tr: seq<Event>, s: State)
    requires Wf(s)
  {
    && (forall i | 0 <= i < |s.loads| :: forall c <- s.loads[i].contents :: Download(s.loads[i].url, c) in tr)
    && (forall p <- s.cancelQueue :: Download(p.url, p.content) in tr)
  }

  ghost predicate AllJustified(tr: seq<Event>, s: State) { forall call <- s.calls :: Justified(tr, s, call) }

  /** Loads keep their URLs. */
  ghost predicate SameUrls(s: State, t: State) {
    |s.loads| <= |t.loads| && forall i | 0 <= i < |s.loads| :: t.loads[i].url == s.loads[i].url
  }

  lemma PrepareKeepsUrls(s: State, url: Url, content: Content)
    requires Wf(s)
    ensures SameUrls(s, Prepare(s, url, content))
  {
  }

  lemma StepKeepsUrls(s: State, e: Event)
    requires Wf(s) && Enabled(s, e)
    ensures SameUrls(s, Step(s, e))
  {
    match e
    case Download(url, content) => PrepareKeepsUrls(s, url, content);
    case StartParked => PrepareKeepsUrls(Passed(s), s.cancelQueue[0].url, s.cancelQueue[0].content);
    case WakeParked => PrepareKeepsUrls(Passed(s), s.cancelQueue[0].url, s.cancelQueue[0].content);
    case _ =>
  }

  lemma EndsStays(tr: seq<Event>, s: State, e: Event, t: State, url: Url, processor: string, outcome: Outcome)
    requires DownloadEnds(tr, s, url, processor, outcome) && SameUrls(s, t)
    ensures DownloadEnds(tr + [e], t, url, processor, outcome)
  {
    if outcome == TransportError && TaskOfUrlFailed(tr, s, url) {
      var task: LoadId :| (TaskFailed(task) in tr || BadStatus(task) in tr)
        && task < |s.loads| && s.loads[task].url == url;
      assert TaskFailed(task) in tr + [e] || BadStatus(task) in tr + [e];
    } else {
      var d :| d in tr && d.Process? && d.task < |s.loads| && s.loads[d.task].url == url
        && Makes(d, processor, outcome);
      assert d in tr + [e];
    }
  }

  lemma JustifiedStays(tr: seq<Event>, s: State, e: Event, t: State, call: Call)
    requires Justified(tr, s, call) && SameUrls(s, t)
    ensures Justified(tr + [e], t, call)
  {
    if content :| Reject(content) in tr && content.handler == call.handler && call.outcome == Rejected {
      assert Reject(content) in tr + [e];
    } else {
      var url, content :| Download(url, content) in tr && content.handler == call.handler
        && DownloadEnds(tr, s, url, content.processor, call.outcome);
      EndsStays(tr, s, e, t, url, content.processor, call.outcome);
      assert Download(url, content) in tr + [e];
    }
  }

  // requests

  lemma AskedForStays(tr: seq<Event>, s: State, e: Event)
    requires Wf(s) && AskedFor(tr, s)
    ensures AskedFor(tr + [e], s)
  {
  }

  lemma PrepareAsks(tr: seq<Event>, s: State, url: Url, content: Content)
    requires Wf(s) && AskedFor(tr, s) && Download(url, content) in tr
    ensures AskedFor(tr, Prepare(s, url, content))
  {
    var t := Prepare(s, url, content);
    forall i | 0 <= i < |t.loads| ensures forall c <- t.loads[i].contents :: Download(t.loads[i].url, c) in tr {
      if i < |s.loads| { assert forall c <- s.loads[i].contents :: Download(s.loads[i].url, c) in tr; }
    }
  }

  lemma RequestAsks(tr: seq<Event>, s: State, url: Url, content: Content)
    requires Wf(s) && AskedFor(tr, s) && Download(url, content) in tr
    ensures AskedFor(tr, Request(s, url, content))
  {
    if url in s.fetchLoads && s.loads[s.fetchLoads[url]].downloadTaskCount == 0 {
      var t := Request(s, url, content);
      forall i | 0 <= i < |t.loads| ensures forall c <- t.loads[i].contents :: Download(t.loads[i].url, c) in tr {
        assert t.loads[i].contents == s.loads[i].contents && t.loads[i].url == s.loads[i].url;
      }
    } else {
      PrepareAsks(tr, s, url, content);
    }
  }

  lemma PassedAsks(tr: seq<Event>, s: State)
    requires Wf(s) && AskedFor(tr, s) && s.cancelQueue != []
    ensures AskedFor(tr, Passed(s))
  {
    var t := Passed(s);
    assert forall p <- t.cancelQueue :: p in s.cancelQueue;
    forall i | 0 <= i < |t.loads| ensures forall c <- t.loads[i].contents :: Download(t.loads[i].url, c) in tr {
      assert t.loads[i].contents == s.loads[i].contents && t.loads[i].url == s.loads[i].url;
    }
  }

  lemma ReleaseAsks(tr: seq<Event>, s: State)
    requires Wf(s) && AskedFor(tr, s) && s.cancelQueue != []
    ensures AskedFor(tr, Release(s))
  {
    PassedAsks(tr, s);
    assert s.cancelQueue[0] in s.cancelQueue;
    PrepareAsks(tr, Passed(s), s.cancelQueue[0].url, s.cancelQueue[0].content);
  }

  /** A step that changes no contents, URLs or parked requests. */
  lemma SameAsks(tr: seq<Event>, s: State, t: State)
    requires Wf(s) && Wf(t) && AskedFor(tr, s) && |t.loads| == |s.loads| && t.cancelQueue == s.cancelQueue
    requires forall i | 0 <= i < |s.loads| ::
      t.loads[i].contents == s.loads[i].contents && t.loads[i].url == s.loads[i].url
    ensures AskedFor(tr, t)
  {
    forall i | 0 <= i < |t.loads| ensures forall c <- t.loads[i].contents :: Download(t.loads[i].url, c) in tr {
      assert t.loads[i].contents == s.loads[i].contents;
    }
  }

  lemma OtherStepAsks(tr: seq<Event>, s: State, e: Event)
    requires Wf(s) && Enabled(s, e) && AskedFor(tr, s)
    requires !e.Download? && !e.StartParked? && !e.WakeParked?
    ensures AskedFor(tr, Step(s, e))
  {
    SameAsks(tr, s, Step(s, e));
  }

  lemma StepAsks(tr: seq<Event>, s: State, e: Event)
    requires Wf(s) && Enabled(s, e) && AskedFor(tr, s)
    ensures AskedFor(tr + [e], Step(s, e))
  {
    AskedForStays(tr, s, e);
    match e
    case Download(url, content) => RequestAsks(tr + [e], s, url, content);
    case StartParked =>
      if Open(s, s.cancelQueue[0].load) { ReleaseAsks(tr + [e], s); } else { SameAsks(tr + [e], s, Start(s)); }
    case WakeParked => ReleaseAsks(tr + [e], s);
    case _ => OtherStepAsks(tr + [e], s, e);
  }

  // calls

  lemma FailureJustified(tr: seq<Event>, s: State, e: Event, task: LoadId, t: State)
    requires Wf(s) && AskedFor(tr, s) && AllJustified(tr, s) && task < |s.loads|
    requires e == TaskFailed(task) || e == BadStatus(task)
    requires SameUrls(s, t) && t.calls == Fail(s, s.loads[task].url).calls
    ensures AllJustified(tr + [e], t)
  {
    var url := s.loads[task].url;
    forall call <- t.calls ensures Justified(tr + [e], t, call) {
      if call in s.calls {
        JustifiedStays(tr, s, e, t, call);
      } else {
        var l := s.loads[s.fetchLoads[url]];
        var k :| 0 <= k < |l.contents| && FailureCalls(l.contents)[k] == call;
        var content := l.contents[k];
        assert content in l.contents && Download(url, content) in tr + [e];
        assert e in tr + [e] && t.loads[task].url == url;
        assert TaskOfUrlFailed(tr + [e], t, url);
        assert DownloadEnds(tr + [e], t, url, content.processor, call.outcome);
      }
    }
  }

  lemma DeliveryJustified(tr: seq<Event>, s: State, e: Event)
    requires Wf(s) && Enabled(s, e) && e.Process? && AskedFor(tr, s) && AllJustified(tr, s)
    ensures AllJustified(tr + [e], Step(s, e))
  {
    var t, url := Step(s, e), s.loads[e.task].url;
    StepKeepsUrls(s, e);
    forall call <- t.calls ensures Justified(tr + [e], t, call) {
      if call in s.calls {
        JustifiedStays(tr, s, e, t, call);
      } else {
        var l := s.loads[s.fetchLoads[url]];
        var k :| 0 <= k < |l.contents| && SuccessCalls(l.contents, e.data, e.images, e.notModified)[k] == call;
        var content := l.contents[k];
        assert content in l.contents && Download(url, content) in tr + [e];
        assert e in tr + [e] && t.loads[e.task].url == url && Makes(e, content.processor, call.outcome);
        assert TaskOfUrlProcessed(tr + [e], t, url, content.processor, call.outcome);
      }
    }
  }

  lemma NoNewCalls(tr: seq<Event>, s: State, e: Event, t: State)
    requires AllJustified(tr, s) && SameUrls(s, t) && t.calls == s.calls
    ensures AllJustified(tr + [e], t)
  {
    forall call <- t.calls ensures Justified(tr + [e], t, call) {
      JustifiedStays(tr, s, e, t, call);
    }
  }

  lemma RejectionJustified(tr: seq<Event>, s: State, content: Content)
    requires Wf(s) && AllJustified(tr, s)
    ensures AllJustified(tr + [Reject(content)], Step(s, Reject(content)))
  {
    var e := Reject(content);
    var t := Step(s, e);
    forall call <- t.calls ensures Justified(tr + [e], t, call) {
      if call in s.calls { JustifiedStays(tr, s, e, t, call); } else { assert e in tr + [e]; }
    }
  }

  lemma StepJustifies(tr: seq<Event>, s: State, e: Event)
    requires Wf(s) && Enabled(s, e) && AskedFor(tr, s) && AllJustified(tr, s)
    ensures AllJustified(tr + [e], Step(s, e))
  {
    StepKeepsUrls(s, e);
    match e
    case Reject(content) => RejectionJustified(tr, s, content);
    case BadStatus(task) => FailureJustified(tr, s, e, task, Step(s, e));
    case TaskFailed(task) => FailureJustified(tr, s, e, task, Step(s, e));
    case Process(_, _, _, _) => DeliveryJustified(tr, s, e);
    case _ => NoNewCalls(tr, s, e, Step(s, e));
  }

  /** Over every run: whoever is called had asked, and is told what became of the request. A rejected
      one is told so. One that asked for a URL with a processor is told of a transport error only if
      a task of that URL failed; otherwise a processing block of such a task ran, and it is told the
      image that its own processor made and the data, else that nothing was modified, else that the
      data were bad. */
  lemma {:induction false} EachHandlerIsToldItsOutcome(tr: seq<Event>, t: State)
    requires Run(INIT, tr, t)
    ensures Wf(t) && AskedFor(tr, t) && AllJustified(tr, t)
    decreases |tr|
  {
    if tr != [] {
      var before, e := tr[..|tr| - 1], tr[|tr| - 1];
      var s := LastStep(INIT, tr, t);
      EachHandlerIsToldItsOutcome(before, s);
      assert tr == before + [e];
      StepAsks(before, s, e);
      StepJustifies(before, s, e);
    }
  }

  /** So the only request that passed a handler in is told its own outcome. */
  lemma OnlyRequestIsTold(tr: seq<Event>, t: State, url: Url, content: Content, call: Call)
    requires Run(INIT, tr, t) && call in t.calls && call.handler == content.handler && Download(url, content) in tr
    requires forall u, c :: Download(u, c) in tr && c.handler == content.handler ==> u == url && c == content
    requires forall c :: Reject(c) in tr ==> c.handler != content.handler
    ensures DownloadEnds(tr, t, url, content.processor, call.outcome)
  {
    EachHandlerIsToldItsOutcome(tr, t);
    assert Justified(tr, t, call);
  }

  // ---- cancel counts ----

  /** How often a run cancels load `i`: by a task with its URL, or by `cancelAll`, while it is registered. */
  ghost function CancelHits(s: State, tr: seq<Event>, i: LoadId): nat
    requires Wf(s)
    decreases |tr|
  {
    if tr == [] || !Enabled(s, tr[0]) then 0
    else (if Hits(s, tr[0], i) then 1 else 0) + CancelHits(Step(s, tr[0]), tr[1..], i)
  }

  ghost predicate Hits(s: State, e: Event, i: LoadId)
    requires Wf(s) && Enabled(s, e)
  {
    Registered(s, i) && (e.CancelAll? || (e.Cancel? && s.loads[e.task].url == s.loads[i].url))
  }

  ghost function Joins(s: State, i: LoadId): nat { if i < |s.loads| then |s.loads[i].contents| else 0 }

  ghost function Count(s: State, i: LoadId): int { if i < |s.loads| then s.loads[i].downloadTaskCount else 0 }

  lemma CancelCounts(s: State, e: Event, i: LoadId)
    requires Wf(s) && Enabled(s, e) && (e.Cancel? || e.CancelAll?)
    ensures var t := Step(s, e);
      Joins(t, i) - Count(t, i) == Joins(s, i) - Count(s, i) + if Hits(s, e, i) then 1 else 0
  {
  }

  lemma PrepareCounts(s: State, url: Url, content: Content, i: LoadId)
    requires Wf(s)
    ensures var t := Prepare(s, url, content); Joins(t, i) - Count(t, i) == Joins(s, i) - Count(s, i)
  {
  }

  lemma ReleaseCounts(s: State, i: LoadId)
    requires Wf(s) && s.cancelQueue != []
    ensures Joins(Release(s), i) - Count(Release(s), i) == Joins(s, i) - Count(s, i)
  {
    var p := s.cancelQueue[0];
    var u := Passed(s);
    PrepareCounts(u, p.url, p.content, i);
  }

  lemma OtherStepCounts(s: State, e: Event, i: LoadId)
    requires Wf(s) && Enabled(s, e) && !e.Cancel? && !e.CancelAll?
    ensures var t := Step(s, e); Joins(t, i) - Count(t, i) == Joins(s, i) - Count(s, i)
  {
    match e
    case Download(url, content) => PrepareCounts(s, url, content, i);
    case StartParked => ReleaseCounts(s, i);
    case WakeParked => ReleaseCounts(s, i);
    case _ =>
  }

  lemma {:induction false} RunCounts(s: State, tr: seq<Event>, t: State, i: LoadId)
    requires Wf(s) && Run(s, tr, t)
    ensures Joins(t, i) - Count(t, i) == Joins(s, i) - Count(s, i) + CancelHits(s, tr, i)
    decreases |tr|
  {
    if tr != [] {
      if tr[0].Cancel? || tr[0].CancelAll? {
        CancelCounts(s, tr[0], i);
      } else {
        OtherStepCounts(s, tr[0], i);
      }
      RunCounts(Step(s, tr[0]), tr[1..], t, i);
    }
  }

  /** A load's task count is the number of requests that joined it minus the cancels that hit it. */
  lemma CountIsJoinsMinusCancels(tr: seq<Event>, t: State, i: LoadId)
    requires Run(INIT, tr, t) && i < |t.loads|
    ensures t.loads[i].downloadTaskCount == |t.loads[i].contents| - CancelHits(INIT, tr, i)
  {
    RunCounts(INIT, tr, t, i);
  }

  // ---- which tasks are stopped ----

  /** What holds of the run behind the first step holds of the whole run. */
  lemma BehindFirst(s: State, tr: seq<Event>, rest: seq<Event>, u: State)
    requires Wf(s) && tr != [] && Enabled(s, tr[0]) && rest == tr[1..] && rest != []
    requires Run(Step(s, tr[0]), rest[..|rest| - 1], u)
    ensures Run(s, tr[..|tr| - 1], u) && tr[|tr| - 1] == rest[|rest| - 1]
  {
    var before := tr[..|tr| - 1];
    assert before[1..] == rest[..|rest| - 1] && before[0] == tr[0];
  }

  lemma {:induction false} LastStep(s: State, tr: seq<Event>, t: State) returns (u: State)
    requires Wf(s) && Run(s, tr, t) && tr != []
    ensures Run(s, tr[..|tr| - 1], u) && Wf(u) && Enabled(u, tr[|tr| - 1]) && t == Step(u, tr[|tr| - 1])
    decreases |tr|
  {
    if |tr| == 1 {
      return s;
    }
    var rest := tr[1..];
    u := LastStep(Step(s, tr[0]), rest, t);
    BehindFirst(s, tr, rest, u);
  }

  /** The last step of a run stops the task of load `i`: `cancelAll` while the load is registered, or
      a cancel of that very task that makes as many cancels as joins of the load now registered for
      its URL. */
  ghost predicate StopsLast(tr: seq<Event>, s: State, i: LoadId)
    requires tr != [] && Wf(s) && i < |s.loads|
  {
    var e, url := tr[|tr| - 1], s.loads[i].url;
    || (e.CancelAll? && Registered(s, i))
    || (e == Cancel(i) && url in s.fetchLoads
        && |s.loads[s.fetchLoads[url]].contents| == CancelHits(INIT, tr, s.fetchLoads[url]))
  }

  ghost predicate Stopped(tr: seq<Event>, i: LoadId)
    decreases |tr|
  {
    tr != [] &&
    var before := tr[..|tr| - 1];
    Stopped(before, i) || exists s :: Run(INIT, before, s) && Wf(s) && i < |s.loads| && StopsLast(tr, s, i)
  }

  lemma {:induction false} RunIsDetermined(s: State, tr: seq<Event>, t: State, t': State)
    requires Wf(s) && Run(s, tr, t) && Run(s, tr, t')
    ensures t == t'
    decreases |tr|
  {
    if tr != [] { RunIsDetermined(Step(s, tr[0]), tr[1..], t, t'); }
  }

  /** What a single step stops: the count decides. */
  ghost predicate StopsNow(s: State, e: Event, i: LoadId)
    requires Wf(s) && Enabled(s, e)
  {
    || (e.CancelAll? && Registered(s, i))
    || (e == Cancel(i) && s.loads[i].url in s.fetchLoads
        && Step(s, e).loads[s.fetchLoads[s.loads[i].url]].downloadTaskCount == 0)
  }

  ghost predicate CancelledLoads(s: State) { forall j <- s.cancelled :: j < |s.loads| }

  lemma CancelStops(s: State, task: LoadId, i: LoadId)
    requires Wf(s) && task < |s.loads| && CancelledLoads(s)
    ensures CancelledLoads(Step(s, Cancel(task)))
    ensures i in Step(s, Cancel(task)).cancelled <==> i in s.cancelled || StopsNow(s, Cancel(task), i)
  {
  }

  lemma CancelAllStops(s: State, i: LoadId)
    requires Wf(s) && CancelledLoads(s)
    ensures CancelledLoads(Step(s, CancelAll))
    ensures i in Step(s, CancelAll).cancelled <==> i in s.cancelled || Registered(s, i)
  {
    if i in s.fetchLoads.Values {
      var u :| u in s.fetchLoads && s.fetchLoads[u] == i;
    }
  }

  lemma StepStops(s: State, e: Event, i: LoadId)
    requires Wf(s) && Enabled(s, e) && CancelledLoads(s)
    ensures CancelledLoads(Step(s, e))
    ensures i in Step(s, e).cancelled <==> i in s.cancelled || StopsNow(s, e, i)
  {
    match e
    case Cancel(task) => CancelStops(s, task, i);
    case CancelAll => CancelAllStops(s, i);
    case _ =>
  }

  lemma CountsAtCancel(tr: seq<Event>, s: State, t: State, i: LoadId)
    requires tr != [] && tr[|tr| - 1] == Cancel(i) && Run(INIT, tr, t) && Wf(s)
    requires Enabled(s, Cancel(i)) && t == Step(s, Cancel(i))
    requires s.loads[i].url in s.fetchLoads
    ensures var k := s.fetchLoads[s.loads[i].url];
      k < |t.loads| && (t.loads[k].downloadTaskCount == 0 <==> |s.loads[k].contents| == CancelHits(INIT, tr, k))
  {
    CountIsJoinsMinusCancels(tr, t, s.fetchLoads[s.loads[i].url]);
  }

  lemma StopsLastIff(tr: seq<Event>, s: State, t: State, i: LoadId)
    requires tr != [] && Run(INIT, tr, t) && Wf(s) && Enabled(s, tr[|tr| - 1]) && t == Step(s, tr[|tr| - 1])
    requires CancelledLoads(s)
    ensures CancelledLoads(t)
    ensures i in t.cancelled <==> i in s.cancelled || (i < |s.loads| && StopsLast(tr, s, i))
  {
    var e := tr[|tr| - 1];
    StepStops(s, e, i);
    if e == Cancel(i) && s.loads[i].url in s.fetchLoads { CountsAtCancel(tr, s, t, i); }
  }

  /** Over every run: the task of a load is stopped exactly when some step was a `cancelAll` while the
      load was registered, or a cancel of that task with which the cancels of the load registered for
      its URL became as many as the requests that had joined it. */
  lemma {:induction false} StoppedIff(tr: seq<Event>, t: State, i: LoadId)
    requires Run(INIT, tr, t)
    ensures i in t.cancelled <==> Stopped(tr, i)
    ensures CancelledLoads(t)
    decreases |tr|
  {
    if tr != [] {
      var before := tr[..|tr| - 1];
      var s := LastStep(INIT, tr, t);
      StoppedIff(before, s, i);
      StopsLastIff(tr, s, t, i);
      if exists s' :: Run(INIT, before, s') && Wf(s') && i < |s'.loads| && StopsLast(tr, s', i) {
        var s' :| Run(INIT, before, s') && Wf(s') && i < |s'.loads| && StopsLast(tr, s', i);
        RunIsDetermined(INIT, before, s, s');
      }
    }
  }

  // ---- parked requests ----

  /** The semaphore of load `i` lets the next waiter through. */
  ghost predicate Open(s: State, i: LoadId) {
    i < |s.loads| && (s.loads[i].cancelSemaphore.None? || s.loads[i].cancelSemaphore.value >= 1)
  }

  /** What the semaphore of load `i` stands at while nobody has signalled it. */
  ghost function Unsignalled(s: State, i: LoadId): int {
    if s.waiting && s.cancelQueue != [] && s.cancelQueue[0].load == i then -1 else 0
  }

  /** Requests are parked behind a closed semaphore while their load is registered, and only then. */
  ghost predicate GatesInv(s: State)
    requires Wf(s)
  {
    && (forall i | 0 <= i < |s.loads| && Registered(s, i) && s.loads[i].cancelSemaphore.Some? ::
          s.loads[i].cancelSemaphore.value == Unsignalled(s, i))
    && (forall p <- s.cancelQueue ::
          if Registered(s, p.load) then s.loads[p.load].cancelSemaphore.Some? else Open(s, p.load))
  }

  /** The processing block takes away a load that requests are parked on. */
  ghost predicate Orphans(s: State, e: Event)
    requires Wf(s) && Enabled(s, e)
  {
    && e.Process?
    && s.loads[e.task].url in s.fetchLoads
    && s.loads[s.fetchLoads[s.loads[e.task].url]].cancelSemaphore.Some?
  }

  ghost predicate RunWithoutOrphans(s: State, tr: seq<Event>, t: State)
    requires Wf(s)
    decreases |tr|
  {
    if tr == [] then s == t
    else Enabled(s, tr[0]) && !Orphans(s, tr[0]) && RunWithoutOrphans(Step(s, tr[0]), tr[1..], t)
  }

  lemma PrepareKeepsGates(s: State, url: Url, content: Content)
    requires Wf(s) && GatesInv(s)
    ensures GatesInv(Prepare(s, url, content))
  {
    var t := Prepare(s, url, content);
    forall i | 0 <= i < |s.loads|
      ensures Registered(t, i) == Registered(s, i) && t.loads[i].cancelSemaphore == s.loads[i].cancelSemaphore
    {
    }
  }

  lemma ReleaseKeepsGates(s: State)
    requires Wf(s) && GatesInv(s) && s.cancelQueue != [] && !Registered(s, s.cancelQueue[0].load)
    ensures GatesInv(Release(s))
  {
    var p := s.cancelQueue[0];
    var u := Passed(s);
    assert forall i | 0 <= i < |s.loads| :: Registered(u, i) == Registered(s, i);
    assert GatesInv(u);
    PrepareKeepsGates(u, p.url, p.content);
  }

  lemma FailKeepsGates(s: State, url: Url)
    requires Wf(s) && GatesInv(s)
    ensures GatesInv(Fail(s, url))
  {
    var t := Fail(s, url);
    if s.downloadHolder && url in s.fetchLoads {
      var i := s.fetchLoads[url];
      assert forall j | 0 <= j < |s.loads| && j != i ::
        Registered(t, j) == Registered(s, j) && t.loads[j] == s.loads[j];
      assert Open(t, i) && !Registered(t, i);
    }
  }

  lemma DeliverKeepsGates(s: State, e: Event)
    requires Wf(s) && GatesInv(s) && Enabled(s, e) && e.Process? && !Orphans(s, e)
    ensures GatesInv(Step(s, e))
  {
    var t := Step(s, e);
    var url := s.loads[e.task].url;
    if url in s.fetchLoads {
      var i := s.fetchLoads[url];
      assert forall j | 0 <= j < |s.loads| && j != i :: Registered(t, j) == Registered(s, j);
    }
  }

  lemma SameGates(s: State, t: State)
    requires Wf(s) && Wf(t) && GatesInv(s)
    requires |t.loads| == |s.loads| && t.fetchLoads == s.fetchLoads
    requires t.cancelQueue == s.cancelQueue && t.waiting == s.waiting
    requires forall i | 0 <= i < |s.loads| ::
      t.loads[i].url == s.loads[i].url && t.loads[i].cancelSemaphore == s.loads[i].cancelSemaphore
    ensures GatesInv(t)
  {
    assert forall i | 0 <= i < |s.loads| :: Registered(t, i) == Registered(s, i);
  }

  lemma RequestKeepsGates(s: State, url: Url, content: Content)
    requires Wf(s) && GatesInv(s)
    ensures GatesInv(Request(s, url, content))
  {
    var t := Request(s, url, content);
    if url in s.fetchLoads && s.loads[s.fetchLoads[url]].downloadTaskCount == 0 {
      assert forall i | 0 <= i < |s.loads| :: Registered(t, i) == Registered(s, i);
      assert forall i | 0 <= i < |s.loads| && i != s.fetchLoads[url] :: t.loads[i] == s.loads[i];
    } else {
      PrepareKeepsGates(s, url, content);
    }
  }

  lemma StartKeepsGates(s: State)
    requires Wf(s) && GatesInv(s) && s.cancelQueue != [] && !s.waiting
    ensures GatesInv(Start(s))
  {
    var t := Start(s);
    var i := s.cancelQueue[0].load;
    if Open(s, i) {
      ReleaseKeepsGates(s);
    } else {
      assert forall j | 0 <= j < |s.loads| :: Registered(t, j) == Registered(s, j);
    }
  }

  lemma StepKeepsGates(s: State, e: Event)
    requires Wf(s) && GatesInv(s) && Enabled(s, e) && !Orphans(s, e)
    ensures GatesInv(Step(s, e))
  {
    match e
    case Download(url, content) => RequestKeepsGates(s, url, content);
    case BadStatus(task) => FailKeepsGates(s, s.loads[task].url);
    case TaskFailed(task) =>
      SameGates(s, s.(running := s.running - {task}));
      FailKeepsGates(s.(running := s.running - {task}), s.loads[task].url);
    case Process(_, _, _, _) => DeliverKeepsGates(s, e);
    case StartParked => StartKeepsGates(s);
    case WakeParked => ReleaseKeepsGates(s);
    case _ => SameGates(s, Step(s, e));
  }

  lemma {:induction false} RunKeepsGates(s: State, tr: seq<Event>, t: State)
    requires Wf(s) && GatesInv(s) && RunWithoutOrphans(s, tr, t)
    ensures Wf(t) && GatesInv(t) && Run(s, tr, t)
    decreases |tr|
  {
    if tr != [] {
      StepKeepsGates(s, tr[0]);
      RunKeepsGates(Step(s, tr[0]), tr[1..], t);
    }
  }

  /** The head of the cancel queue goes through at its next step. */
  ghost predicate HeadPasses(s: State)
    requires Wf(s)
  {
    && s.cancelQueue != []
    && if s.waiting then Enabled(s, WakeParked) else !Step(s, StartParked).waiting
  }

  lemma OpenHeadPasses(s: State)
    requires Wf(s) && GatesInv(s) && s.cancelQueue != [] && !Registered(s, s.cancelQueue[0].load)
    ensures HeadPasses(s)
  {
    assert Open(s, s.cancelQueue[0].load);
  }

  /** While no processing block orphans a load, a parked request whose load is gone always goes
      through, so with no task and no job left the cancel queue is never stuck. */
  lemma ParkedRequestsAreReleased(tr: seq<Event>, t: State)
    requires RunWithoutOrphans(INIT, tr, t) && t.cancelQueue != []
    ensures Wf(t)
    ensures !Registered(t, t.cancelQueue[0].load) ==> HeadPasses(t)
    ensures t.running == {} && t.jobs == {} ==> HeadPasses(t)
  {
    RunKeepsGates(INIT, tr, t);
    RunKeepsRegistry(INIT, tr, t);
    if t.running == {} && t.jobs == {} { IdleRegistersNothing(t); }
    if !Registered(t, t.cancelQueue[0].load) { OpenHeadPasses(t); }
  }

  /** Load `i` is gone and nobody can signal its semaphore any more. */
  ghost predicate ClosedForGood(s: State, i: LoadId) {
    && i < |s.loads| && !Registered(s, i)
    && s.loads[i].cancelSemaphore.Some? && s.loads[i].cancelSemaphore.value <= Unsignalled(s, i)
  }

  /** Letting the head through takes no load out of the registry. */
  lemma ReleaseRegisters(s: State, i: LoadId)
    requires Wf(s) && s.cancelQueue != [] && Registered(s, i)
    ensures Registered(Release(s), i)
  {
  }

  /** Only a failing task and a processing block take loads out of the registry. */
  lemma OnlyEndsUnregister(s: State, e: Event, i: LoadId)
    requires Wf(s) && Enabled(s, e) && Registered(s, i)
    requires !e.BadStatus? && !e.TaskFailed? && !e.Process?
    ensures Registered(Step(s, e), i)
  {
    match e
    case StartParked =>
      if Open(s, s.cancelQueue[0].load) { ReleaseRegisters(s, i); }
    case WakeParked => ReleaseRegisters(s, i);
    case _ =>
  }

  lemma FailOpens(s: State, url: Url, i: LoadId)
    requires Wf(s) && Registered(s, i) && !Registered(Fail(s, url), i) && s.loads[i].cancelSemaphore.Some?
    ensures Fail(s, url).cancelQueue == s.cancelQueue
    ensures Open(Fail(s, url), i) && !ClosedForGood(Fail(s, url), i)
  {
  }

  lemma ProcessCloses(s: State, e: Event, i: LoadId)
    requires Wf(s) && GatesInv(s) && e.Process? && Enabled(s, e)
    requires Registered(s, i) && !Registered(Step(s, e), i) && s.loads[i].cancelSemaphore.Some?
    ensures Step(s, e).cancelQueue == s.cancelQueue
    ensures !Open(Step(s, e), i) && ClosedForGood(Step(s, e), i)
  {
  }

  /** The step that takes a load away decides the fate of the requests parked on it: they can go
      through if and only if it was not the processing block. */
  lemma ReleasedIffLoadFails(s: State, e: Event, p: Parked)
    requires Wf(s) && GatesInv(s) && Enabled(s, e) && p in s.cancelQueue && Registered(s, p.load)
    requires !Registered(Step(s, e), p.load)
    ensures var t := Step(s, e);
      && p in t.cancelQueue
      && (Open(t, p.load) <==> !e.Process?)
      && (ClosedForGood(t, p.load) <==> e.Process?)
  {
    if !e.BadStatus? && !e.TaskFailed? && !e.Process? { OnlyEndsUnregister(s, e, p.load); }
    match e
    case BadStatus(task) => FailOpens(s, s.loads[task].url, p.load);
    case TaskFailed(task) => FailOpens(s.(running := s.running - {task}), s.loads[task].url, p.load);
    case Process(_, _, _, _) => ProcessCloses(s, e, p.load);
  }

  // ---- which parked requests can still be released ----

  /** In every reachable state a semaphore stands where its waiters left it, or it has been signalled
      and its load is gone; and a registered load that requests are parked on has one. */
  ghost predicate SemaphoreInv(s: State)
    requires Wf(s)
  {
    && (forall i | 0 <= i < |s.loads| && s.loads[i].cancelSemaphore.Some? ::
          s.loads[i].cancelSemaphore.value == Unsignalled(s, i)
          || (s.loads[i].cancelSemaphore.value >= 1 && !Registered(s, i)))
    && (forall p <- s.cancelQueue :: Registered(s, p.load) ==> s.loads[p.load].cancelSemaphore.Some?)
  }

  lemma PrepareKeepsSemaphores(s: State, url: Url, content: Content)
    requires Wf(s) && SemaphoreInv(s)
    ensures SemaphoreInv(Prepare(s, url, content))
  {
    var t := Prepare(s, url, content);
    forall i | 0 <= i < |s.loads|
      ensures Registered(t, i) == Registered(s, i) && t.loads[i].cancelSemaphore == s.loads[i].cancelSemaphore
    {
    }
  }

  /** A head that can pass has no registered load. */
  lemma PassedKeepsSemaphores(s: State)
    requires Wf(s) && SemaphoreInv(s) && s.cancelQueue != [] && Open(s, s.cancelQueue[0].load)
    ensures SemaphoreInv(Passed(s))
  {
    var p, u := s.cancelQueue[0], Passed(s);
    assert !Registered(s, p.load);
    assert forall i | 0 <= i < |s.loads| :: Registered(u, i) == Registered(s, i);
    assert forall q <- u.cancelQueue :: q in s.cancelQueue;
  }

  lemma ReleaseKeepsSemaphores(s: State)
    requires Wf(s) && SemaphoreInv(s) && s.cancelQueue != [] && Open(s, s.cancelQueue[0].load)
    ensures SemaphoreInv(Release(s))
  {
    PassedKeepsSemaphores(s);
    PrepareKeepsSemaphores(Passed(s), s.cancelQueue[0].url, s.cancelQueue[0].content);
  }

  lemma FailKeepsSemaphores(s: State, url: Url)
    requires Wf(s) && SemaphoreInv(s)
    ensures SemaphoreInv(Fail(s, url))
  {
    var t := Fail(s, url);
    if s.downloadHolder && url in s.fetchLoads {
      var i := s.fetchLoads[url];
      assert forall j | 0 <= j < |s.loads| && j != i ::
        Registered(t, j) == Registered(s, j) && t.loads[j] == s.loads[j];
      assert !Registered(t, i);
    }
  }

  lemma DeliverKeepsSemaphores(s: State, e: Event)
    requires Wf(s) && SemaphoreInv(s) && Enabled(s, e) && e.Process?
    ensures SemaphoreInv(Step(s, e))
  {
    var t := Step(s, e);
    var url := s.loads[e.task].url;
    if url in s.fetchLoads {
      var i := s.fetchLoads[url];
      assert forall j | 0 <= j < |s.loads| && j != i :: Registered(t, j) == Registered(s, j);
      assert !Registered(t, i);
    } else {
      assert forall j | 0 <= j < |s.loads| :: Registered(t, j) == Registered(s, j);
    }
  }

  lemma SameSemaphores(s: State, t: State)
    requires Wf(s) && Wf(t) && SemaphoreInv(s)
    requires |t.loads| == |s.loads| && t.fetchLoads == s.fetchLoads
    requires t.cancelQueue == s.cancelQueue && t.waiting == s.waiting
    requires forall i | 0 <= i < |s.loads| ::
      t.loads[i].url == s.loads[i].url && t.loads[i].cancelSemaphore == s.loads[i].cancelSemaphore
    ensures SemaphoreInv(t)
  {
    assert forall i | 0 <= i < |s.loads| :: Registered(t, i) == Registered(s, i);
  }

  lemma RequestKeepsSemaphores(s: State, url: Url, content: Content)
    requires Wf(s) && SemaphoreInv(s)
    ensures SemaphoreInv(Request(s, url, content))
  {
    var t := Request(s, url, content);
    if url in s.fetchLoads && s.loads[s.fetchLoads[url]].downloadTaskCount == 0 {
      assert forall i | 0 <= i < |s.loads| :: Registered(t, i) == Registered(s, i);
      assert forall i | 0 <= i < |s.loads| && i != s.fetchLoads[url] :: t.loads[i] == s.loads[i];
    } else {
      PrepareKeepsSemaphores(s, url, content);
    }
  }

  lemma StartKeepsSemaphores(s: State)
    requires Wf(s) && SemaphoreInv(s) && s.cancelQueue != [] && !s.waiting
    ensures SemaphoreInv(Start(s))
  {
    var t := Start(s);
    if Open(s, s.cancelQueue[0].load) {
      ReleaseKeepsSemaphores(s);
    } else {
      assert forall j | 0 <= j < |s.loads| :: Registered(t, j) == Registered(s, j);
    }
  }

  lemma StepKeepsSemaphores(s: State, e: Event)
    requires Wf(s) && SemaphoreInv(s) && Enabled(s, e)
    ensures SemaphoreInv(Step(s, e))
  {
    match e
    case Download(url, content) => RequestKeepsSemaphores(s, url, content);
    case BadStatus(task) => FailKeepsSemaphores(s, s.loads[task].url);
    case TaskFailed(task) =>
      SameSemaphores(s, s.(running := s.running - {task}));
      FailKeepsSemaphores(s.(running := s.running - {task}), s.loads[task].url);
    case Process(_, _, _, _) => DeliverKeepsSemaphores(s, e);
    case StartParked => StartKeepsSemaphores(s);
    case WakeParked => ReleaseKeepsSemaphores(s);
    case _ => SameSemaphores(s, Step(s, e));
  }

  /** A running task of this URL can still fail and so signal the load registered for it. */
  ghost predicate CanFail(s: State, url: Url)
    requires Wf(s)
  {
    exists task :: task in s.running && s.loads[task].url == url
  }

  /** Nobody can open the semaphore of load `i` any more: it is gone without a signal, or no task is
      left whose failure would signal it, so that only a processing block can take it away. */
  ghost predicate Lost(s: State, i: LoadId)
    requires Wf(s) && i < |s.loads|
  {
    && s.loads[i].cancelSemaphore.Some?
    && s.loads[i].cancelSemaphore.value == Unsignalled(s, i)
    && (Registered(s, i) ==> !CanFail(s, s.loads[i].url))
  }

  /** The step lets the head of the cancel queue through. */
  ghost predicate Passes(s: State, e: Event)
    requires Wf(s) && Enabled(s, e)
  {
    (e.StartParked? || e.WakeParked?) && |Step(s, e).cancelQueue| < |s.cancelQueue|
  }

  /** How many blocks of the cancel queue a run lets through; they go in order. */
  ghost function PassCount(s: State, tr: seq<Event>): nat
    requires Wf(s)
    decreases |tr|
  {
    if tr == [] || !Enabled(s, tr[0]) then 0
    else (if Passes(s, tr[0]) then 1 else 0) + PassCount(Step(s, tr[0]), tr[1..])
  }

  lemma LostHeadIsClosed(s: State)
    requires Wf(s) && s.cancelQueue != [] && Lost(s, s.cancelQueue[0].load)
    ensures s.waiting ==> !Enabled(s, WakeParked)
    ensures !s.waiting ==> !Passes(s, StartParked)
  {
  }

  lemma PrepareKeepsLost(s: State, url: Url, content: Content, i: LoadId)
    requires Wf(s) && i < |s.loads| && Lost(s, i)
    ensures Lost(Prepare(s, url, content), i)
  {
    var t := Prepare(s, url, content);
    assert Registered(t, i) == Registered(s, i) && t.loads[i].cancelSemaphore == s.loads[i].cancelSemaphore;
  }

  lemma RequestKeepsLost(s: State, url: Url, content: Content, i: LoadId)
    requires Wf(s) && i < |s.loads| && Lost(s, i)
    ensures Lost(Request(s, url, content), i) && s.cancelQueue <= Request(s, url, content).cancelQueue
  {
    if !(url in s.fetchLoads && s.loads[s.fetchLoads[url]].downloadTaskCount == 0) {
      PrepareKeepsLost(s, url, content, i);
    }
  }

  /** Letting another load's request through. */
  lemma ReleaseKeepsLost(s: State, i: LoadId)
    requires Wf(s) && s.cancelQueue != [] && i < |s.loads| && Lost(s, i) && s.cancelQueue[0].load != i
    ensures Lost(Release(s), i) && Release(s).cancelQueue == s.cancelQueue[1..]
  {
    var u := Passed(s);
    assert u.loads[i] == s.loads[i] && Registered(u, i) == Registered(s, i) && u.running == s.running;
    PrepareKeepsLost(u, s.cancelQueue[0].url, s.cancelQueue[0].content, i);
  }

  lemma FailKeepsLost(s: State, url: Url, i: LoadId)
    requires Wf(s) && i < |s.loads| && Lost(s, i) && (Registered(s, i) ==> s.loads[i].url != url)
    ensures Lost(Fail(s, url), i) && Fail(s, url).cancelQueue == s.cancelQueue
  {
    var t := Fail(s, url);
    assert t.loads[i] == s.loads[i] && Registered(t, i) == Registered(s, i) && t.running == s.running;
  }

  lemma DeliverKeepsLost(s: State, e: Event, i: LoadId)
    requires Wf(s) && Enabled(s, e) && e.Process? && i < |s.loads| && Lost(s, i)
    ensures Lost(Step(s, e), i) && Step(s, e).cancelQueue == s.cancelQueue
  {
    var t := Step(s, e);
    assert t.loads[i] == s.loads[i] && t.running == s.running && (Registered(t, i) ==> Registered(s, i));
  }

  lemma FewerTasksKeepLost(s: State, task: LoadId, i: LoadId)
    requires Wf(s) && i < |s.loads| && Lost(s, i)
    ensures Lost(s.(running := s.running - {task}), i)
  {
    var t := s.(running := s.running - {task});
    assert CanFail(t, s.loads[i].url) ==> CanFail(s, s.loads[i].url);
  }

  /** Whatever step comes, a lost load stays lost, and the requests from the one parked on it on stay
      where they are behind those before it. */
  lemma StepKeepsLost(s: State, e: Event, i: LoadId)
    requires Wf(s) && Enabled(s, e) && i < |s.loads| && Lost(s, i)
    requires Passes(s, e) ==> s.cancelQueue[0].load != i
    ensures Lost(Step(s, e), i)
    ensures (if Passes(s, e) then s.cancelQueue[1..] else s.cancelQueue) <= Step(s, e).cancelQueue
  {
    match e
    case Download(url, content) => RequestKeepsLost(s, url, content, i);
    case BadStatus(task) => FailKeepsLost(s, s.loads[task].url, i);
    case TaskFailed(task) =>
      FewerTasksKeepLost(s, task, i);
      FailKeepsLost(s.(running := s.running - {task}), s.loads[task].url, i);
    case TaskSucceeded(task) => FewerTasksKeepLost(s, task, i);
    case Process(_, _, _, _) => DeliverKeepsLost(s, e, i);
    case StartParked => if Open(s, s.cancelQueue[0].load) { ReleaseKeepsLost(s, i); } else { WaitKeepsLost(s, i); }
    case WakeParked => ReleaseKeepsLost(s, i);
    case _ => QuietKeepsLost(s, e, i);
  }

  lemma WaitKeepsLost(s: State, i: LoadId)
    requires Wf(s) && s.cancelQueue != [] && !s.waiting && !Open(s, s.cancelQueue[0].load)
    requires i < |s.loads| && Lost(s, i)
    ensures Lost(Start(s), i) && Start(s).cancelQueue == s.cancelQueue
  {
    var t := Start(s);
    assert Registered(t, i) == Registered(s, i) && t.running == s.running;
  }

  lemma QuietKeepsLost(s: State, e: Event, i: LoadId)
    requires Wf(s) && Enabled(s, e) && (e.Reject? || e.Cancel? || e.CancelAll?) && i < |s.loads| && Lost(s, i)
    ensures Lost(Step(s, e), i) && Step(s, e).cancelQueue == s.cancelQueue
  {
    var t := Step(s, e);
    assert Registered(t, i) == Registered(s, i) && t.loads[i].cancelSemaphore == s.loads[i].cancelSemaphore;
    assert t.running == s.running && t.loads[i].url == s.loads[i].url;
  }

  /** Where the request at position `m` is after a step, when it is parked on a lost load. */
  lemma StrandedStep(s: State, e: Event, m: nat) returns (n: nat)
    requires Wf(s) && Enabled(s, e) && m < |s.cancelQueue| && Lost(s, s.cancelQueue[m].load)
    ensures n == (if Passes(s, e) then 1 else 0) && n <= m
    ensures s.cancelQueue[n..] <= Step(s, e).cancelQueue
    ensures m - n < |Step(s, e).cancelQueue| && Step(s, e).cancelQueue[m - n] == s.cancelQueue[m]
    ensures Lost(Step(s, e), s.cancelQueue[m].load)
  {
    var i := s.cancelQueue[m].load;
    n := if Passes(s, e) then 1 else 0;
    if Passes(s, e) && s.cancelQueue[0].load == i { LostHeadIsClosed(s); }
    StepKeepsLost(s, e, i);
    assert s.cancelQueue[n..][m - n] == s.cancelQueue[m];
  }

  /** A request parked on a lost load is never released, and neither is any request behind it. */
  lemma {:induction false} StrandedForever(s: State, tr: seq<Event>, t: State, m: nat)
    requires Wf(s) && Run(s, tr, t) && m < |s.cancelQueue| && Lost(s, s.cancelQueue[m].load)
    ensures PassCount(s, tr) <= m && s.cancelQueue[PassCount(s, tr)..] <= t.cancelQueue
    decreases |tr|
  {
    if tr != [] {
      var u := Step(s, tr[0]);
      var n := StrandedStep(s, tr[0], m);
      assert u.cancelQueue[m - n] == s.cancelQueue[m];
      StrandedForever(u, tr[1..], t, m - n);
      assert PassCount(s, tr) == n + PassCount(u, tr[1..]);
      StrandedSplit(s.cancelQueue, n, u.cancelQueue, PassCount(u, tr[1..]), t.cancelQueue, m);
    }
  }

  /** And the load stays lost. */
  lemma {:induction false} LostForever(s: State, tr: seq<Event>, t: State, m: nat, i: LoadId)
    requires Wf(s) && Run(s, tr, t) && m < |s.cancelQueue| && i == s.cancelQueue[m].load && Lost(s, i)
    ensures Wf(t) && i < |t.loads| && Lost(t, i)
    decreases |tr|
  {
    if tr != [] {
      var n := StrandedStep(s, tr[0], m);
      var u := Step(s, tr[0]);
      assert u.cancelQueue[m - n].load == i;
      LostForever(u, tr[1..], t, m - n, i);
    }
  }

  lemma StrandedSplit(q: seq<Parked>, n: nat, r: seq<Parked>, k: nat, t: seq<Parked>, m: nat)
    requires n + k <= m < |q| && q[n..] <= r && k <= |r| && r[k..] <= t
    ensures q[n + k..] <= t
  {
    assert q[n + k..] == q[n..][k..];
    assert q[n..][k..] <= r[k..];
  }

  // ---- and those that can ----

  lemma PrepareKeepsHope(s: State, url: Url, content: Content, j: LoadId)
    requires Wf(s) && j < |s.loads| && !Lost(s, j)
    ensures !Lost(Prepare(s, url, content), j)
  {
    var t := Prepare(s, url, content);
    assert t.loads[j].cancelSemaphore == s.loads[j].cancelSemaphore && t.loads[j].url == s.loads[j].url;
    assert Registered(t, j) == Registered(s, j);
    if CanFail(s, s.loads[j].url) {
      var task :| task in s.running && s.loads[task].url == s.loads[j].url;
      assert task in t.running && t.loads[task].url == s.loads[task].url;
    }
  }

  lemma PassedKeepsHope(s: State, j: LoadId)
    requires Wf(s) && SemaphoreInv(s) && s.cancelQueue != [] && Open(s, s.cancelQueue[0].load)
    requires j < |s.loads| && !Lost(s, j)
    ensures !Lost(Passed(s), j)
  {
    var t := Passed(s);
    if j != s.cancelQueue[0].load {
      assert t.loads[j] == s.loads[j] && Registered(t, j) == Registered(s, j);
      if CanFail(s, s.loads[j].url) {
        var task :| task in s.running && s.loads[task].url == s.loads[j].url;
        assert task in t.running && t.loads[task].url == s.loads[task].url;
      }
    }
  }

  lemma PassingKeepsHope(s: State, j: LoadId)
    requires Wf(s) && SemaphoreInv(s) && s.cancelQueue != [] && Open(s, s.cancelQueue[0].load)
    requires j < |s.loads| && !Lost(s, j)
    ensures !Lost(Release(s), j)
  {
    PassedKeepsHope(s, j);
    PrepareKeepsHope(Passed(s), s.cancelQueue[0].url, s.cancelQueue[0].content, j);
  }

  lemma FailingKeepsHope(s: State, task: LoadId, j: LoadId)
    requires Wf(s) && RegistryInv(s) && task in s.running && s.loads[task].url in s.fetchLoads
    requires s.loads[s.fetchLoads[s.loads[task].url]].cancelSemaphore.Some?
    requires j < |s.loads| && !Lost(s, j)
    ensures !Lost(Step(s, TaskFailed(task)), j)
  {
    var url, t := s.loads[task].url, Step(s, TaskFailed(task));
    if j != s.fetchLoads[url] {
      assert t.loads[j] == s.loads[j] && Registered(t, j) == Registered(s, j);
      if Registered(s, j) && CanFail(s, s.loads[j].url) {
        var task' :| task' in s.running && s.loads[task'].url == s.loads[j].url;
        assert task' in t.running && t.loads[task'].url == s.loads[task'].url;
      }
    }
  }

  lemma FailingOpens(s: State, i: LoadId, task: LoadId)
    requires Wf(s) && RegistryInv(s) && Registered(s, i) && s.loads[i].cancelSemaphore.Some?
    requires task in s.running && s.loads[task].url == s.loads[i].url
    ensures var t := Step(s, TaskFailed(task)); Open(t, i) && t.cancelQueue == s.cancelQueue && t.waiting == s.waiting
  {
  }

  /** Every request up to position `k` is parked on a load that is not lost. */
  ghost predicate Hopeful(s: State, k: nat)
    requires Wf(s) && k < |s.cancelQueue|
  {
    forall m | 0 <= m <= k :: !Lost(s, s.cancelQueue[m].load)
  }

  ghost predicate Sound(s: State) { Wf(s) && RegistryInv(s) && SemaphoreInv(s) }

  lemma StepKeepsSound(s: State, e: Event)
    requires Sound(s) && Enabled(s, e)
    ensures Sound(Step(s, e))
  {
    StepKeepsRegistry(s, e);
    StepKeepsSemaphores(s, e);
  }

  /** The step with which an open head passes. */
  function PassEvent(s: State): Event { if s.waiting then WakeParked else StartParked }

  lemma OpenPasses(s: State)
    requires Sound(s) && s.cancelQueue != [] && Open(s, s.cancelQueue[0].load)
    ensures Enabled(s, PassEvent(s)) && Step(s, PassEvent(s)) == Release(s) && Passes(s, PassEvent(s))
    ensures Release(s).cancelQueue == s.cancelQueue[1..]
  {
  }

  lemma HopefulAfterPass(s: State, k: nat)
    requires Sound(s) && 0 < k < |s.cancelQueue| && Hopeful(s, k) && Open(s, s.cancelQueue[0].load)
    ensures Release(s).cancelQueue == s.cancelQueue[1..] && Hopeful(Release(s), k - 1)
  {
    var t := Release(s);
    OpenPasses(s);
    forall m | 0 <= m <= k - 1 ensures !Lost(t, t.cancelQueue[m].load) {
      PassingKeepsHope(s, s.cancelQueue[m + 1].load);
    }
  }

  lemma ConsRun(s: State, e: Event, tr: seq<Event>, t: State)
    requires Wf(s) && Enabled(s, e) && Run(Step(s, e), tr, t)
    ensures Run(s, [e] + tr, t)
    ensures PassCount(s, [e] + tr) == (if Passes(s, e) then 1 else 0) + PassCount(Step(s, e), tr)
  {
    assert ([e] + tr)[1..] == tr;
  }

  /** The failure that opens a head which is closed but not lost. */
  lemma OpenHead(s: State, k: nat) returns (e: Event)
    requires Sound(s) && k < |s.cancelQueue| && Hopeful(s, k) && !Open(s, s.cancelQueue[0].load)
    ensures Enabled(s, e) && Step(s, e).cancelQueue == s.cancelQueue
    ensures Open(Step(s, e), s.cancelQueue[0].load) && Hopeful(Step(s, e), k)
  {
    var i := s.cancelQueue[0].load;
    assert !Lost(s, i);
    var task :| task in s.running && s.loads[task].url == s.loads[i].url;
    e := TaskFailed(task);
    FailingOpens(s, i, task);
    forall m | 0 <= m <= k ensures !Lost(Step(s, e), s.cancelQueue[m].load) {
      FailingKeepsHope(s, task, s.cancelQueue[m].load);
    }
  }

  lemma {:induction false} PassTo(s: State, k: nat) returns (tr: seq<Event>, t: State)
    requires Sound(s) && k < |s.cancelQueue| && Hopeful(s, k)
    ensures Run(s, tr, t) && PassCount(s, tr) > k
    decreases k, if Open(s, s.cancelQueue[0].load) then 0 else 1
  {
    var e;
    if !Open(s, s.cancelQueue[0].load) {
      e := OpenHead(s, k);
      StepKeepsSound(s, e);
      tr, t := PassTo(Step(s, e), k);
    } else {
      e := PassEvent(s);
      OpenPasses(s);
      StepKeepsSound(s, e);
      if k == 0 {
        tr, t := [], Step(s, e);
      } else {
        HopefulAfterPass(s, k);
        tr, t := PassTo(Step(s, e), k - 1);
      }
    }
    ConsRun(s, e, tr, t);
    tr := [e] + tr;
  }

  lemma {:induction false} RunKeepsSound(s: State, tr: seq<Event>, t: State)
    requires Sound(s) && Run(s, tr, t)
    ensures Sound(t)
    decreases |tr|
  {
    if tr != [] {
      StepKeepsSound(s, tr[0]);
      RunKeepsSound(Step(s, tr[0]), tr[1..], t);
    }
  }

  /** Some continuation lets the request at position `k` of the cancel queue through. */
  ghost predicate CanBeReleased(s: State, k: nat)
    requires Wf(s)
  {
    exists tr, t :: Run(s, tr, t) && PassCount(s, tr) > k
  }

  /** In every reachable state: a parked request can still be released if and only if neither it nor a
      request before it in the serial queue is parked on a lost load. */
  lemma ReleasableIff(tr: seq<Event>, s: State, k: nat)
    requires Run(INIT, tr, s)
    ensures Wf(s) && (k < |s.cancelQueue| ==> (CanBeReleased(s, k) <==> Hopeful(s, k)))
  {
    RunKeepsSound(INIT, tr, s);
    if k < |s.cancelQueue| {
      if Hopeful(s, k) {
        var tr', t := PassTo(s, k);
      }
      if CanBeReleased(s, k) && !Hopeful(s, k) {
        var tr', t :| Run(s, tr', t) && PassCount(s, tr') > k;
        var m :| 0 <= m <= k && Lost(s, s.cancelQueue[m].load);
        StrandedForever(s, tr', t, m);
      }
    }
  }

  function AfterDownload(url: Url, first: Content): State {
    State([Load(url, [first], 1, None)], map[url := 0], {0}, {}, {}, [], false, true, [])
  }

  function AfterSuccess(url: Url, first: Content): State {
    State([Load(url, [first], 1, None)], map[url := 0], {}, {}, {0}, [], false, true, [])
  }

  function AfterCancel(url: Url, first: Content): State {
    State([Load(url, [first], 0, None)], map[url := 0], {}, {0}, {0}, [], false, true, [])
  }

  function AfterParking(url: Url, first: Content, second: Content): State {
    State([Load(url, [first], 0, Some(0))], map[url := 0], {}, {0}, {0}, [Parked(0, url, second)], false, true, [])
  }

  function AfterProcessing(url: Url, first: Content, second: Content): State {
    State([Load(url, [first], 0, Some(0))], map[], {}, {0}, {}, [Parked(0, url, second)], false, false,
          [Call(first.handler, BadData)])
  }

  lemma Downloads(url: Url, first: Content)
    ensures Wf(AfterDownload(url, first)) && Step(INIT, Download(url, first)) == AfterDownload(url, first)
  {
  }

  lemma Succeeds(url: Url, first: Content)
    ensures var s := AfterDownload(url, first);
      Wf(s) && Enabled(s, TaskSucceeded(0)) && Step(s, TaskSucceeded(0)) == AfterSuccess(url, first)
  {
  }

  lemma Cancels(url: Url, first: Content)
    ensures var s := AfterSuccess(url, first);
      Wf(s) && Enabled(s, Cancel(0)) && Step(s, Cancel(0)) == AfterCancel(url, first)
  {
  }

  lemma Parks(url: Url, first: Content, second: Content)
    ensures var s := AfterCancel(url, first);
      Wf(s) && Step(s, Download(url, second)) == AfterParking(url, first, second)
  {
  }

  lemma Processes(url: Url, first: Content, second: Content, data: Data)
    ensures var s, e := AfterParking(url, first, second), Process(0, Some(data), map[], false);
      Wf(s) && Enabled(s, e) && Step(s, e) == AfterProcessing(url, first, second)
  {
    var s := AfterParking(url, first, second);
    assert SuccessCalls(s.loads[0].contents, Some(data), map[], false) == [Call(first.handler, BadData)];
  }

  /** The window in which this happens: the task has succeeded, its only request is cancelled
      before the processing block runs, and a new request for the URL arrives in between. */
  lemma StrandedExample(url: Url, first: Content, second: Content, data: Data)
    ensures Run(INIT, [Download(url, first), TaskSucceeded(0), Cancel(0), Download(url, second),
                       Process(0, Some(data), map[], false)], AfterProcessing(url, first, second))
    ensures Wf(AfterProcessing(url, first, second))
    ensures ClosedForGood(AfterProcessing(url, first, second), 0) && Lost(AfterProcessing(url, first, second), 0)
  {
    var e5, t := Process(0, Some(data), map[], false), AfterProcessing(url, first, second);
    Downloads(url, first);
    Succeeds(url, first);
    Cancels(url, first);
    Parks(url, first, second);
    Processes(url, first, second, data);
    RunOfTwo(AfterCancel(url, first), Download(url, second), AfterParking(url, first, second), e5, t);
    RunBefore(AfterSuccess(url, first), Cancel(0), [Download(url, second), e5], t);
    RunBefore(AfterDownload(url, first), TaskSucceeded(0), [Cancel(0)] + [Download(url, second), e5], t);
    RunBefore(INIT, Download(url, first), [TaskSucceeded(0)] + ([Cancel(0)] + [Download(url, second), e5]), t);
    assert [Download(url, first)] + ([TaskSucceeded(0)] + ([Cancel(0)] + [Download(url, second), e5]))
        == [Download(url, first), TaskSucceeded(0), Cancel(0), Download(url, second), e5];
  }

  lemma RunOfTwo(s0: State, a: Event, s1: State, b: Event, s2: State)
    requires Wf(s0) && Wf(s1) && Enabled(s0, a) && s1 == Step(s0, a) && Enabled(s1, b) && s2 == Step(s1, b)
    ensures Run(s0, [a, b], s2)
  {
    RunBefore(s1, b, [], s2);
    RunBefore(s0, a, [b] + [], s2);
    assert [a] + ([b] + []) == [a, b];
  }

  lemma RunBefore(s: State, e: Event, rest: seq<Event>, t: State)
    requires Wf(s) && Enabled(s, e) && Run(Step(s, e), rest, t)
    ensures Run(s, [e] + rest, t)
  {
    assert ([e] + rest)[1..] == rest;
  }

  /** Where that run stands before its last step, no load is closed for good yet, but the parked
      request is beyond release already: no task is left that could fail. */
  lemma StrandedBeforeProcessing(url: Url, first: Content, second: Content)
    ensures var s := AfterParking(url, first, second);
      Wf(s) && !ClosedForGood(s, 0) && Lost(s, 0) && !CanBeReleased(s, 0)
  {
    var s := AfterParking(url, first, second);
    if CanBeReleased(s, 0) {
      var tr, t :| Run(s, tr, t) && PassCount(s, tr) > 0;
      StrandedForever(s, tr, t, 0);
    }
  }

  /** A load of another URL whose request is cancelled and asked for again while the head is stranded. */
  lemma ParksBehind(s: State, url: Url, first: Content, second: Content) returns (u: State)
    requires Wf(s) && url !in s.fetchLoads
    ensures var n := |s.loads|;
      && u == s.(loads := s.loads + [Load(url, [first], 0, Some(0))], fetchLoads := s.fetchLoads[url := n],
                 running := s.running + {n}, cancelled := s.cancelled + {n}, downloadHolder := true,
                 cancelQueue := s.cancelQueue + [Parked(n, url, second)])
      && Wf(u) && Run(s, [Download(url, first), Cancel(n), Download(url, second)], u)
  {
    var n := |s.loads|;
    var u1 := s.(loads := s.loads + [Load(url, [first], 1, None)], fetchLoads := s.fetchLoads[url := n],
                 running := s.running + {n}, downloadHolder := true);
    assert Step(s, Download(url, first)) == u1;
    var u2 := u1.(loads := s.loads + [Load(url, [first], 0, None)], cancelled := s.cancelled + {n});
    assert Step(u1, Cancel(n)) == u2;
    u := u2.(loads := s.loads + [Load(url, [first], 0, Some(0))],
             cancelQueue := s.cancelQueue + [Parked(n, url, second)]);
    assert Step(u2, Download(url, second)) == u;
    RunOfTwo(u1, Cancel(n), u2, Download(url, second), u);
    RunBefore(s, Download(url, first), [Cancel(n), Download(url, second)], u);
    assert [Download(url, first)] + [Cancel(n), Download(url, second)]
        == [Download(url, first), Cancel(n), Download(url, second)];
  }

  lemma StillLost(s: State, url: Url, first: Content, second: Content, u: State, i: LoadId)
    requires Wf(s) && url !in s.fetchLoads && i < |s.loads| && Lost(s, i) && s.cancelQueue != []
    requires var n := |s.loads|;
      u == s.(loads := s.loads + [Load(url, [first], 0, Some(0))], fetchLoads := s.fetchLoads[url := n],
              running := s.running + {n}, cancelled := s.cancelled + {n}, downloadHolder := true,
              cancelQueue := s.cancelQueue + [Parked(n, url, second)])
    ensures Wf(u) && Lost(u, i)
  {
    assert Registered(u, i) == Registered(s, i) && u.loads[i] == s.loads[i];
  }

  /** A stranded head blocks the queue for all URLs: a load of another URL fails, its semaphore opens,
      and the request parked on it still is never released. */
  lemma StrandsOthers(s: State, url: Url, first: Content, second: Content) returns (u: State, t: State)
    requires Wf(s) && url !in s.fetchLoads && s.cancelQueue != [] && Lost(s, s.cancelQueue[0].load)
    ensures Run(s, [Download(url, first), Cancel(|s.loads|), Download(url, second)], u)
    ensures Wf(u) && Enabled(u, TaskFailed(|s.loads|)) && t == Step(u, TaskFailed(|s.loads|))
    ensures t.cancelQueue == s.cancelQueue + [Parked(|s.loads|, url, second)] && Open(t, |s.loads|)
    ensures !CanBeReleased(t, |s.cancelQueue|)
  {
    var n, i := |s.loads|, s.cancelQueue[0].load;
    u := ParksBehind(s, url, first, second);
    StillLost(s, url, first, second, u, i);
    t := Step(u, TaskFailed(n));
    StepKeepsLost(u, TaskFailed(n), i);
    if CanBeReleased(t, |s.cancelQueue|) {
      var tr, v :| Run(t, tr, v) && PassCount(t, tr) > |s.cancelQueue|;
      StrandedForever(t, tr, v, 0);
    }
  }
}
