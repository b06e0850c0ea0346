/** The slot scheduler of `ImagePrefetcher`. Every block runs on the serial prefetch queue, so a
    run is a sequence of blocks: a download's completion handler, a queued "start next" block, or
    a stop. */
module PrefetcherProtocol {
  import opened Basics

  type Url = string

  datatype Resource = Resource(cacheKey: string, downloadURL: Url)

  /** What becomes of a resource that is started: it is in the cache already, the downloader
      refuses it and calls back at once, or it downloads with or without returning a task. */
  datatype Placement = Cached | Refused | Tracked | Untracked

  datatype State = State(
    prefetchResources: seq<Resource>,
    pending: seq<Resource>,
    skipped: seq<Resource>,
    failed: seq<Resource>,
    completed: seq<Resource>,
    tasks: set<Url>,
    inFlight: multiset<Resource>,
    queued: nat,
    stopped: bool,
    completions: nat)

  datatype Event =
    | Completed(resource: Resource, ok: bool)
    | Next(placement: Placement)
    | Stop

  function Init(resources: seq<Resource>): State {
    State(resources, resources, [], [], [], {}, multiset{}, 0, false, 0)
  }

  function HandleComplete(s: State): State { s.(completions := s.completions + 1) }

  /** The handler that `downloadAndCache` passes on. */
  function Finish(s: State, r: Resource, ok: bool): State {
    var u := if ok then s.(tasks := s.tasks - {r.downloadURL}, completed := s.completed + [r])
             else s.(tasks := s.tasks - {r.downloadURL}, failed := s.failed + [r]);
    if !u.stopped then u.(queued := u.queued + 1)
    else if u.tasks == {} then HandleComplete(u.(failed := u.failed + u.pending))
    else u
  }

  /** `startPrefetching`. */
  function StartPrefetching(s: State, r: Resource, p: Placement): State {
    match p
    case Cached => s.(skipped := s.skipped + [r], queued := s.queued + 1)
    case Refused => Finish(s, r, false)
    case Tracked => s.(inFlight := s.inFlight + multiset{r}, tasks := s.tasks + {r.downloadURL})
    case Untracked => s.(inFlight := s.inFlight + multiset{r})
  }

  function PopAndStart(s: State, p: Placement): State
    requires s.pending != []
  {
    StartPrefetching(s.(pending := s.pending[1..]), s.pending[0], p)
  }

  predicate Finished(s: State) {
    |s.failed| + |s.skipped| + |s.completed| == |s.prefetchResources| && s.tasks == {}
  }

  predicate Enabled(s: State, e: Event) {
    match e
    case Completed(r, _) => r in s.inFlight
    case Next(_) => s.queued > 0
    case Stop => true
  }

  function Step(s: State, e: Event): State
    requires Enabled(s, e)
  {
    match e
    case Completed(r, ok) => Finish(s.(inFlight := s.inFlight - multiset{r}), r, ok)
    case Next(p) =>
      var u := s.(queued := s.queued - 1);
      if u.pending != [] then PopAndStart(u, p)
      else if u.tasks != {} then u
      else HandleComplete(u)
    case Stop => if Finished(s) then s else s.(stopped := true)
  }

  /** The loop of `start`, over the resources that fill the first slots. */
  function StartLoop(s: State, ps: seq<Placement>): State {
    if ps == [] then s
    else
      var u := StartLoop(s, ps[..|ps| - 1]);
      if u.pending == [] then u else PopAndStart(u, ps[|ps| - 1])
  }

  function Start(s: State, limit: int, ps: seq<Placement>): State
    requires |ps| == Min(|s.prefetchResources|, limit) || s.stopped || limit <= 0
  {
    if s.stopped || limit <= 0 || s.prefetchResources == [] then HandleComplete(s)
    else StartLoop(s, ps)
  }

  /** `tr` leads from `s` to `t`. */
  ghost predicate Run(s: State, tr: seq<Event>, t: State)
    decreases |tr|
  {
    if tr == [] then s == t else Enabled(s, tr[0]) && Run(Step(s, tr[0]), tr[1..], t)
  }
}

/** Theorems about every run that `start` begins. */
module PrefetcherTheorems {
  import opened Basics
  import opened PrefetcherProtocol

  // ---- conservation ----

  ghost function Reported(s: State): multiset<Resource> {
    multiset(s.skipped) + multiset(s.failed) + multiset(s.completed)
  }

  /** Every resource of the input is pending, in flight or reported, and in one place only. */
  ghost predicate Balanced(s: State) {
    multiset(s.prefetchResources) == multiset(s.pending) + s.inFlight + Reported(s)
  }

  /** The first completion is the step that takes the count of completions from zero to one. */
  ghost predicate FirstCompletion(s: State, e: Event) {
    Enabled(s, e) && s.completions == 0 && Step(s, e).completions > 0
  }

  lemma ReportsGrow(s: State, xs: seq<Resource>)
    ensures Reported(s.(failed := s.failed + xs)) == Reported(s) + multiset(xs)
    ensures Reported(s.(completed := s.completed + xs)) == Reported(s) + multiset(xs)
    ensures Reported(s.(skipped := s.skipped + xs)) == Reported(s) + multiset(xs)
  {
  }

  lemma Regroup(p: multiset<Resource>, f: multiset<Resource>, r: multiset<Resource>, x: multiset<Resource>)
    ensures p + f + r + x == p + f + (r + x)
    ensures p + f + r + x == f + (r + x + p)
  {
  }

  lemma FinishBalances(s: State, r: Resource, ok: bool)
    requires multiset(s.prefetchResources) == multiset(s.pending) + s.inFlight + Reported(s) + multiset{r}
    ensures var t := Finish(s, r, ok);
      if t.completions == s.completions then Balanced(t) else multiset(t.prefetchResources) == t.inFlight + Reported(t)
  {
    Regroup(multiset(s.pending), s.inFlight, Reported(s), multiset{r});
    FinishReports(s, r, ok);
  }

  lemma FinishReports(s: State, r: Resource, ok: bool)
    ensures var t := Finish(s, r, ok);
      && t.prefetchResources == s.prefetchResources && t.pending == s.pending && t.inFlight == s.inFlight
      && Reported(t) == if t.completions == s.completions then Reported(s) + multiset{r}
                        else Reported(s) + multiset{r} + multiset(s.pending)
  {
    ReportsGrow(s, [r]);
    var u := if ok then s.(completed := s.completed + [r]) else s.(failed := s.failed + [r]);
    ReportsGrow(u, s.pending);
    var t := Finish(s, r, ok);
    if t.completions == s.completions {
      assert Reported(t) == Reported(u);
    } else {
      assert Reported(t) == Reported(u.(failed := u.failed + u.pending));
    }
  }

  lemma PopBalances(s: State, p: Placement)
    requires s.pending != [] && Balanced(s)
    ensures var t := PopAndStart(s, p);
      if t.completions == s.completions then Balanced(t) else multiset(t.prefetchResources) == t.inFlight + Reported(t)
  {
    var u := s.(pending := s.pending[1..]);
    var r := s.pending[0];
    assert s.pending == [r] + u.pending;
    assert multiset(s.pending) == multiset{r} + multiset(u.pending);
    match p
    case Cached => ReportsGrow(u, [r]);
    case Refused => FinishBalances(u, r, false);
    case _ =>
  }

  lemma CompletedBalances(s: State, r: Resource, ok: bool)
    requires r in s.inFlight && Balanced(s)
    ensures var t := Step(s, Completed(r, ok));
      if t.completions == s.completions then Balanced(t) else multiset(t.prefetchResources) == t.inFlight + Reported(t)
  {
    var u := s.(inFlight := s.inFlight - multiset{r});
    assert s.inFlight == u.inFlight + multiset{r};
    assert Reported(u) == Reported(s);
    FinishBalances(u, r, ok);
  }

  lemma NextBalances(s: State, p: Placement)
    requires s.queued > 0 && s.completions == 0 && Balanced(s)
    ensures var t := Step(s, Next(p));
      if t.completions == 0 then Balanced(t) else multiset(t.prefetchResources) == t.inFlight + Reported(t)
  {
    var u := s.(queued := s.queued - 1);
    assert Reported(u) == Reported(s);
    if s.pending != [] {
      PopBalances(u, p);
    } else {
      assert multiset(s.pending) + s.inFlight == s.inFlight;
      assert Reported(HandleComplete(u)) == Reported(s);
    }
  }

  lemma StepBalances(s: State, e: Event)
    requires Enabled(s, e) && s.completions == 0 && Balanced(s)
    ensures var t := Step(s, e);
      if t.completions == 0 then Balanced(t) else multiset(t.prefetchResources) == t.inFlight + Reported(t)
  {
    match e
    case Completed(r, ok) => CompletedBalances(s, r, ok);
    case Next(p) => NextBalances(s, p);
    case Stop => assert Reported(Step(s, e)) == Reported(s);
  }

  lemma CompletionsGrow(s: State, e: Event)
    requires Enabled(s, e)
    ensures s.completions <= Step(s, e).completions && Step(s, e).prefetchResources == s.prefetchResources
  {
  }

  lemma {:induction false} RunCompletionsGrow(s: State, tr: seq<Event>, t: State)
    requires Run(s, tr, t)
    ensures s.completions <= t.completions && t.prefetchResources == s.prefetchResources
    decreases |tr|
  {
    if tr != [] {
      CompletionsGrow(s, tr[0]);
      RunCompletionsGrow(Step(s, tr[0]), tr[1..], t);
    }
  }

  lemma {:induction false} RunBalances(s: State, tr: seq<Event>, t: State)
    requires Run(s, tr, t) && Balanced(s) && t.completions == 0
    ensures Balanced(t)
    decreases |tr|
  {
    if tr != [] {
      var u := Step(s, tr[0]);
      RunCompletionsGrow(u, tr[1..], t);
      CompletionsGrow(s, tr[0]);
      StepBalances(s, tr[0]);
      RunBalances(u, tr[1..], t);
    }
  }

  // ---- slots ----

  /** Downloads in flight and queued "start next" blocks. */
  ghost function Slots(s: State): nat { |s.inFlight| + s.queued }

  /** A measure of the work left. */
  ghost function Work(s: State): nat { 3 * |s.pending| + 2 * |s.inFlight| + s.queued }

  /** Each task in the dictionary belongs to a download in flight. */
  ghost predicate TasksInFlight(s: State) {
    forall u <- s.tasks :: exists r :: r in s.inFlight && r.downloadURL == u
  }

  /** Something will still run, unless the prefetcher has completed. */
  ghost predicate Alive(s: State) {
    TasksInFlight(s) && (s.completions == 0 ==> Slots(s) > 0)
  }

  lemma FinishKeepsTasks(s: State, r: Resource, ok: bool)
    requires forall u <- s.tasks | u != r.downloadURL :: exists q :: q in s.inFlight && q.downloadURL == u
    ensures TasksInFlight(Finish(s, r, ok))
    ensures Finish(s, r, ok).completions == 0 ==> Slots(Finish(s, r, ok)) > 0
  {
    var t := Finish(s, r, ok);
    if t.tasks != {} {
      var u :| u in t.tasks;
      assert u in s.tasks && u != r.downloadURL;
      var q :| q in s.inFlight && q.downloadURL == u;
      assert |t.inFlight| > 0;
    }
  }

  lemma PopKeepsTasks(s: State, p: Placement)
    requires s.pending != [] && TasksInFlight(s)
    ensures var t := PopAndStart(s, p); Alive(t)
  {
    var u := s.(pending := s.pending[1..]);
    var t := PopAndStart(s, p);
    var r := s.pending[0];
    if p.Refused? {
      FinishKeepsTasks(u, r, false);
    } else if p.Tracked? || p.Untracked? {
      assert r in t.inFlight;
      forall u <- t.tasks ensures exists q :: q in t.inFlight && q.downloadURL == u {
        if u in s.tasks { var q :| q in s.inFlight && q.downloadURL == u; assert q in t.inFlight; }
      }
    }
  }

  lemma StepKeepsAlive(s: State, e: Event)
    requires Enabled(s, e) && Alive(s)
    ensures Alive(Step(s, e))
  {
    match e
    case Completed(r, ok) =>
      var u := s.(inFlight := s.inFlight - multiset{r});
      forall v <- u.tasks | v != r.downloadURL ensures exists q :: q in u.inFlight && q.downloadURL == v {
        var q :| q in s.inFlight && q.downloadURL == v;
        assert q in u.inFlight;
      }
      FinishKeepsTasks(u, r, ok);
    case Next(p) =>
      var u := s.(queued := s.queued - 1);
      if u.pending != [] {
        PopKeepsTasks(u, p);
      } else if u.tasks != {} {
        var v :| v in u.tasks;
        var q :| q in u.inFlight && q.downloadURL == v;
      }
    case Stop =>
  }

  /** A step other than a stop lets no slot appear and leaves less work. */
  lemma StepSpends(s: State, e: Event)
    requires Enabled(s, e)
    ensures Slots(Step(s, e)) <= Slots(s)
    ensures if e.Stop? then Work(Step(s, e)) == Work(s) else Work(Step(s, e)) < Work(s)
  {
  }

  ghost function WorkSteps(tr: seq<Event>): nat {
    if tr == [] then 0 else (if tr[0].Stop? then 0 else 1) + WorkSteps(tr[1..])
  }

  lemma {:induction false} RunKeepsSlots(s: State, tr: seq<Event>, t: State)
    requires Run(s, tr, t) && Alive(s)
    ensures Alive(t) && Slots(t) <= Slots(s) && WorkSteps(tr) + Work(t) <= Work(s)
    decreases |tr|
  {
    if tr != [] {
      StepKeepsAlive(s, tr[0]);
      StepSpends(s, tr[0]);
      RunKeepsSlots(Step(s, tr[0]), tr[1..], t);
    }
  }

  // ---- start ----

  lemma PopFillsSlot(s: State, p: Placement)
    requires s.pending != [] && !s.stopped
    ensures var t := PopAndStart(s, p);
      !t.stopped && t.completions == s.completions && t.prefetchResources == s.prefetchResources
      && Slots(t) == Slots(s) + 1 && t.pending == s.pending[1..] && Work(t) <= Work(s)
  {
  }

  lemma {:induction false} StartLoopFillsSlots(input: seq<Resource>, ps: seq<Placement>)
    requires |ps| <= |input|
    ensures var s := StartLoop(Init(input), ps);
      && !s.stopped && s.completions == 0 && s.prefetchResources == input
      && Balanced(s) && TasksInFlight(s)
      && Slots(s) == |ps| && s.pending == input[|ps|..] && Work(s) <= 3 * |input|
  {
    if ps != [] {
      var n := |ps| - 1;
      StartLoopFillsSlots(input, ps[..n]);
      var u := StartLoop(Init(input), ps[..n]);
      PopBalances(u, ps[n]);
      PopKeepsTasks(u, ps[n]);
      PopFillsSlot(u, ps[n]);
      assert u.pending[1..] == input[|ps|..];
    } else {
      assert input[0..] == input;
    }
  }

  /** A legal first block of a prefetcher: `start` before any stop, with a positive limit. */
  ghost predicate Started(input: seq<Resource>, limit: int, ps: seq<Placement>, s: State) {
    limit > 0 && |ps| == Min(|input|, limit) && s == Start(Init(input), limit, ps)
  }

  lemma StartIsAlive(input: seq<Resource>, limit: int, ps: seq<Placement>, s: State)
    requires Started(input, limit, ps, s)
    ensures Alive(s) && Slots(s) <= Min(|input|, limit) && Work(s) <= 3 * |input|
    ensures input != [] ==> s.completions == 0
    ensures Balanced(s) && s.prefetchResources == input && !s.stopped
  {
    if input != [] { StartLoopFillsSlots(input, ps); }
  }

  /** Downloads in flight plus queued blocks never exceed the number of resources or the limit,
      with or without stops; every run has at most three working steps a resource; and a run that
      can go no further has completed. */
  lemma SchedulerIsBoundedAndLive(input: seq<Resource>, limit: int, ps: seq<Placement>, s: State, tr: seq<Event>,
      t: State)
    requires Started(input, limit, ps, s) && Run(s, tr, t)
    ensures |t.inFlight| + t.queued <= Min(|input|, limit)
    ensures WorkSteps(tr) <= 3 * |input|
    ensures t.inFlight == multiset{} && t.queued == 0 ==> t.completions > 0
  {
    StartIsAlive(input, limit, ps, s);
    RunKeepsSlots(s, tr, t);
  }

  /** Until the first completion nothing is lost or doubled; at the first completion the three
      lists hold the whole input if and only if no download is in flight. */
  lemma ConservedUntilFirstCompletion(input: seq<Resource>, limit: int, ps: seq<Placement>, s: State, tr: seq<Event>,
      t: State)
    requires Started(input, limit, ps, s) && Run(s, tr, t) && t.completions == 0
    ensures multiset(input) == multiset(t.pending) + t.inFlight + Reported(t)
    ensures forall e | FirstCompletion(t, e) ::
      (multiset(input) == Reported(Step(t, e)) <==> Step(t, e).inFlight == multiset{})
  {
    StartIsAlive(input, limit, ps, s);
    RunBalances(s, tr, t);
    RunCompletionsGrow(s, tr, t);
    forall e | FirstCompletion(t, e)
      ensures multiset(input) == Reported(Step(t, e)) <==> Step(t, e).inFlight == multiset{}
    {
      StepBalances(t, e);
      CompletionsGrow(t, e);
      var u := Step(t, e);
      assert multiset(input) == u.inFlight + Reported(u);
      if multiset(input) == Reported(u) { assert |u.inFlight + Reported(u)| == |u.inFlight| + |Reported(u)|; }
    }
  }

  // ---- what the lists hold ----

  // The placements of the starting loop and the blocks behind it make one list of events, in which the
  // resource at `k` is the one that the block `Next` number `k` starts.

  function Starts(ps: seq<Placement>): seq<Event> {
    if ps == [] then [] else Starts(ps[..|ps| - 1]) + [Next(ps[|ps| - 1])]
  }

  function NextCount(run: seq<Event>): nat {
    if run == [] then 0 else NextCount(run[..|run| - 1]) + if run[|run| - 1].Next? then 1 else 0
  }

  /** The resources that are left to start. */
  function Remaining(input: seq<Resource>, run: seq<Event>): seq<Resource> {
    if NextCount(run) < |input| then input[NextCount(run)..] else []
  }

  /** The resources that were started and found in the cache. */
  function SkippedIn(input: seq<Resource>, run: seq<Event>): seq<Resource> {
    if run == [] then []
    else
      var before, e := run[..|run| - 1], run[|run| - 1];
      SkippedIn(input, before)
      + if e == Next(Cached) && NextCount(before) < |input| then [input[NextCount(before)]] else []
  }

  /** The resources whose download succeeded. */
  function CompletedIn(run: seq<Event>): seq<Resource> {
    if run == [] then []
    else
      var e := run[|run| - 1];
      CompletedIn(run[..|run| - 1]) + if e.Completed? && e.ok then [e.resource] else []
  }

  /** The resources that the downloader refused, or whose download failed. */
  function FailedIn(input: seq<Resource>, run: seq<Event>): seq<Resource> {
    if run == [] then []
    else
      var before, e := run[..|run| - 1], run[|run| - 1];
      FailedIn(input, before)
      + if e == Next(Refused) && NextCount(before) < |input| then [input[NextCount(before)]]
        else if e.Completed? && !e.ok then [e.resource]
        else []
  }

  /** The URLs that have a task: from when one was returned until a handler of that URL is called. */
  function TasksIn(input: seq<Resource>, run: seq<Event>): set<Url> {
    if run == [] then {}
    else
      var before, e := run[..|run| - 1], run[|run| - 1];
      var tasks := TasksIn(input, before);
      if e.Completed? then tasks - {e.resource.downloadURL}
      else if e == Next(Refused) && NextCount(before) < |input| then tasks - {input[NextCount(before)].downloadURL}
      else if e == Next(Tracked) && NextCount(before) < |input| then tasks + {input[NextCount(before)].downloadURL}
      else tasks
  }

  /** A stop counts unless all resources have been reported and no task is left. */
  predicate StoppedIn(input: seq<Resource>, run: seq<Event>) {
    run != [] &&
    (var before := run[..|run| - 1];
     || StoppedIn(input, before)
     || (&& run[|run| - 1].Stop?
         && (|FailedIn(input, before)| + |SkippedIn(input, before)| + |CompletedIn(before)| != |input|
             || TasksIn(input, before) != {})))
  }

  /** The state is what the run says, up to the failed list. */
  ghost predicate TellsBut(s: State, input: seq<Resource>, run: seq<Event>, failed: seq<Resource>) {
    && s.prefetchResources == input && s.pending == Remaining(input, run)
    && s.skipped == SkippedIn(input, run) && s.completed == CompletedIn(run) && s.failed == failed
    && s.tasks == TasksIn(input, run) && s.stopped == StoppedIn(input, run)
  }

  ghost predicate Tells(s: State, input: seq<Resource>, run: seq<Event>) {
    TellsBut(s, input, run, FailedIn(input, run))
  }

  /** The next step of the run, and whether it ends in a completion, which finds no task and reports
      what is left to start as failed. */
  ghost predicate TellsOn(s: State, t: State, input: seq<Resource>, run: seq<Event>) {
    if t.completions == s.completions then Tells(t, input, run)
    else
      && t.completions == s.completions + 1 && t.tasks == {}
      && TellsBut(t, input, run, FailedIn(input, run) + Remaining(input, run))
  }

  /** When does a step complete? A handler completes a stopped prefetcher that has no task left, and
      a queued block completes when nothing is left to start and no task either. */
  ghost predicate Completes(input: seq<Resource>, before: seq<Event>, e: Event) {
    && TasksIn(input, before + [e]) == {}
    && match e
       case Completed(_, _) => StoppedIn(input, before)
       case Next(p) => NextCount(before) >= |input| || (p.Refused? && StoppedIn(input, before))
       case Stop => false
  }

  lemma StartTells(s: State, input: seq<Resource>, before: seq<Event>, p: Placement)
    requires Tells(s, input, before) && s.pending != []
    ensures var t := PopAndStart(s, p);
      TellsOn(s, t, input, before + [Next(p)])
      && (t.completions != s.completions <==> Completes(input, before, Next(p)))
  {
    var u := s.(pending := s.pending[1..]);
    NextRemains(input, before, p);
    if p.Refused? {
      RefusalTells(u, input, before, before + [Next(p)], s.pending[0]);
    } else {
      AcceptanceTells(u, input, before, before + [Next(p)], s.pending[0], p);
    }
  }

  lemma NextRemains(input: seq<Resource>, before: seq<Event>, p: Placement)
    requires Remaining(input, before) != []
    ensures var (run, left) := (before + [Next(p)], Remaining(input, before));
      run[..|before|] == before && left[0] == input[NextCount(before)] && left[1..] == Remaining(input, run)
  {
    assert (before + [Next(p)])[..|before|] == before;
  }

  lemma AcceptanceTells(s: State, input: seq<Resource>, before: seq<Event>, run: seq<Event>, r: Resource, p: Placement)
    requires run == before + [Next(p)] && run[..|before|] == before && !p.Refused?
    requires NextCount(before) < |input| && r == input[NextCount(before)] && s.pending == Remaining(input, run)
    requires s.prefetchResources == input && s.skipped == SkippedIn(input, before) && s.completed == CompletedIn(before)
    requires s.failed == FailedIn(input, before) && s.tasks == TasksIn(input, before)
    requires s.stopped == StoppedIn(input, before)
    ensures Tells(StartPrefetching(s, r, p), input, run) && !Completes(input, before, Next(p))
    ensures StartPrefetching(s, r, p).completions == s.completions
  {
  }

  /** The downloader refuses the resource that has just been taken from the pending ones. */
  lemma RefusalTells(s: State, input: seq<Resource>, before: seq<Event>, run: seq<Event>, r: Resource)
    requires run == before + [Next(Refused)] && run[..|before|] == before
    requires NextCount(before) < |input| && r == input[NextCount(before)] && s.pending == Remaining(input, run)
    requires s.prefetchResources == input && s.skipped == SkippedIn(input, before) && s.completed == CompletedIn(before)
    requires s.failed == FailedIn(input, before) && s.tasks == TasksIn(input, before)
    requires s.stopped == StoppedIn(input, before)
    ensures TellsOn(s, Finish(s, r, false), input, run)
    ensures Finish(s, r, false).completions != s.completions <==> Completes(input, before, Next(Refused))
  {
  }

  lemma {:induction false} StartLoopTells(input: seq<Resource>, ps: seq<Placement>)
    requires |ps| <= |input|
    ensures Tells(StartLoop(Init(input), ps), input, Starts(ps)) && NextCount(Starts(ps)) == |ps|
    ensures !StartLoop(Init(input), ps).stopped
  {
    if ps == [] {
      assert input[0..] == input;
    } else {
      var n := |ps| - 1;
      StartLoopTells(input, ps[..n]);
      StartTells(StartLoop(Init(input), ps[..n]), input, Starts(ps[..n]), ps[n]);
      assert Starts(ps) == Starts(ps[..n]) + [Next(ps[n])];
      assert Starts(ps)[..|Starts(ps)| - 1] == Starts(ps[..n]);
    }
  }

  lemma CompletedTells(s: State, input: seq<Resource>, before: seq<Event>, r: Resource, ok: bool)
    requires Tells(s, input, before) && r in s.inFlight
    ensures var t := Step(s, Completed(r, ok));
      TellsOn(s, t, input, before + [Completed(r, ok)])
      && (t.completions != s.completions <==> Completes(input, before, Completed(r, ok)))
  {
    var run, u := before + [Completed(r, ok)], s.(inFlight := s.inFlight - multiset{r});
    assert run[..|before|] == before;
    HandlerTells(u, input, before, run, r, ok);
  }

  lemma HandlerTells(s: State, input: seq<Resource>, before: seq<Event>, run: seq<Event>, r: Resource, ok: bool)
    requires Tells(s, input, before) && run == before + [Completed(r, ok)] && run[..|before|] == before
    ensures TellsOn(s, Finish(s, r, ok), input, run)
    ensures Finish(s, r, ok).completions != s.completions <==> Completes(input, before, Completed(r, ok))
  {
    assert Remaining(input, run) == Remaining(input, before);
  }

  lemma NextTells(s: State, input: seq<Resource>, before: seq<Event>, p: Placement)
    requires Tells(s, input, before) && s.queued > 0
    ensures var t := Step(s, Next(p));
      TellsOn(s, t, input, before + [Next(p)])
      && (t.completions != s.completions <==> Completes(input, before, Next(p)))
  {
    assert (before + [Next(p)])[..|before|] == before;
    if s.pending != [] { StartTells(s.(queued := s.queued - 1), input, before, p); }
  }

  lemma StopTells(s: State, input: seq<Resource>, before: seq<Event>)
    requires Tells(s, input, before)
    ensures Tells(Step(s, Stop), input, before + [Stop]) && Step(s, Stop).completions == s.completions
  {
    assert (before + [Stop])[..|before|] == before;
  }

  lemma StepTells(s: State, input: seq<Resource>, before: seq<Event>, e: Event)
    requires Tells(s, input, before) && Enabled(s, e)
    ensures TellsOn(s, Step(s, e), input, before + [e])
    ensures Step(s, e).completions != s.completions <==> Completes(input, before, e)
  {
    match e
    case Completed(r, ok) => CompletedTells(s, input, before, r, ok);
    case Next(p) => NextTells(s, input, before, p);
    case Stop => StopTells(s, input, before);
  }

  lemma {:induction false} RunTells(s: State, tr: seq<Event>, t: State, input: seq<Resource>, before: seq<Event>)
    requires Tells(s, input, before) && Run(s, tr, t) && t.completions == s.completions
    ensures Tells(t, input, before + tr)
    decreases |tr|
  {
    if tr == [] {
      assert before + tr == before;
    } else {
      var u := Step(s, tr[0]);
      CompletionsGrow(s, tr[0]);
      RunCompletionsGrow(u, tr[1..], t);
      StepTells(s, input, before, tr[0]);
      RunTells(u, tr[1..], t, input, before + [tr[0]]);
      MovedOver(before, tr);
    }
  }

  lemma MovedOver(before: seq<Event>, tr: seq<Event>)
    requires tr != []
    ensures before + [tr[0]] + tr[1..] == before + tr
  {
  }

  /** Until the first completion the lists are what the placements and the handlers say, in order:
      skipped what was found in the cache, completed what was downloaded, failed what was refused or
      failed to download, and pending the rest of the input. */
  lemma ListsFollowTrace(input: seq<Resource>, limit: int, ps: seq<Placement>, s: State, tr: seq<Event>, t: State)
    requires Started(input, limit, ps, s) && Run(s, tr, t) && t.completions == 0
    ensures t.skipped == SkippedIn(input, Starts(ps) + tr) && t.completed == CompletedIn(Starts(ps) + tr)
    ensures t.failed == FailedIn(input, Starts(ps) + tr) && t.pending == Remaining(input, Starts(ps) + tr)
    ensures t.tasks == TasksIn(input, Starts(ps) + tr) && t.stopped == StoppedIn(input, Starts(ps) + tr)
  {
    RunCompletionsGrow(s, tr, t);
    StartLoopTells(input, ps);
    RunTells(s, tr, t, input, Starts(ps));
  }

  /** The first completion comes exactly when the trace says, and reports exactly those lists, with
      what is left to start behind the failed ones. */
  lemma FirstCompletionReports(
    input: seq<Resource>, limit: int, ps: seq<Placement>, s: State, tr: seq<Event>, t: State, e: Event)
    requires Started(input, limit, ps, s) && Run(s, tr, t) && t.completions == 0 && Enabled(t, e)
    ensures FirstCompletion(t, e) <==> Completes(input, Starts(ps) + tr, e)
    ensures FirstCompletion(t, e) ==>
      var u, run := Step(t, e), Starts(ps) + tr + [e];
      && u.skipped == SkippedIn(input, run) && u.completed == CompletedIn(run)
      && u.failed == FailedIn(input, run) + Remaining(input, run)
  {
    RunCompletionsGrow(s, tr, t);
    StartLoopTells(input, ps);
    RunTells(s, tr, t, input, Starts(ps));
    StepTells(t, input, Starts(ps) + tr, e);
  }

  // ---- which inputs complete only when all is done ----

  ghost predicate DistinctURLs(xs: seq<Resource>) {
    forall i, j | 0 <= i < j < |xs| :: xs[i].downloadURL != xs[j].downloadURL
  }

  /** Every download in flight is in the dictionary. */
  ghost predicate FlightsTracked(s: State) {
    forall r <- s.inFlight :: r.downloadURL in s.tasks
  }

  lemma {:induction false} DistinctOccursOnce(xs: seq<Resource>, r: Resource)
    requires DistinctURLs(xs)
    ensures multiset(xs)[r] <= 1
  {
    if xs != [] {
      var n := |xs| - 1;
      DistinctOccursOnce(xs[..n], r);
      assert xs == xs[..n] + [xs[n]];
      assert xs[n] !in xs[..n];
    }
  }

  lemma DistinctParts(xs: seq<Resource>, m: multiset<Resource>, r: Resource, q: Resource)
    requires DistinctURLs(xs) && m <= multiset(xs) && r in m && q in m - multiset{r}
    ensures q.downloadURL != r.downloadURL
  {
    DistinctOccursOnce(xs, r);
    assert r in multiset(xs) && q in multiset(xs) && q != r;
    assert r in xs && q in xs;
    var i :| 0 <= i < |xs| && xs[i] == r;
    var j :| 0 <= j < |xs| && xs[j] == q;
  }

  lemma PopKeepsTracked(s: State, p: Placement)
    requires s.pending != [] && !p.Untracked? && FlightsTracked(s)
    requires Balanced(s) && DistinctURLs(s.prefetchResources)
    ensures FlightsTracked(PopAndStart(s, p))
  {
    var r := s.pending[0];
    if p.Refused? {
      forall q <- s.inFlight ensures q.downloadURL != r.downloadURL {
        assert q in multiset{r} + s.inFlight - multiset{r};
        DistinctParts(s.prefetchResources, multiset{r} + s.inFlight, r, q) by {
          assert s.pending == [r] + s.pending[1..];
        }
      }
    }
  }

  lemma CompletedKeepsTracked(s: State, r: Resource, ok: bool)
    requires r in s.inFlight && FlightsTracked(s) && Balanced(s) && DistinctURLs(s.prefetchResources)
    ensures FlightsTracked(Step(s, Completed(r, ok)))
  {
    forall q <- s.inFlight - multiset{r} ensures q.downloadURL != r.downloadURL {
      DistinctParts(s.prefetchResources, s.inFlight, r, q);
    }
  }

  lemma StepKeepsTracked(s: State, e: Event)
    requires Enabled(s, e) && FlightsTracked(s) && Balanced(s) && DistinctURLs(s.prefetchResources)
    requires e.Next? ==> !e.placement.Untracked?
    ensures FlightsTracked(Step(s, e))
  {
    match e
    case Completed(r, ok) => CompletedKeepsTracked(s, r, ok);
    case Next(p) => if s.pending != [] { PopKeepsTracked(s.(queued := s.queued - 1), p); }
    case Stop =>
  }

  lemma {:induction false} RunKeepsTracked(s: State, tr: seq<Event>, t: State)
    requires Run(s, tr, t) && t.completions == 0
    requires FlightsTracked(s) && Balanced(s) && DistinctURLs(s.prefetchResources)
    requires forall e <- tr | e.Next? :: !e.placement.Untracked?
    ensures FlightsTracked(t)
    decreases |tr|
  {
    if tr != [] {
      var u := Step(s, tr[0]);
      assert tr[0] in tr;
      CompletionsGrow(s, tr[0]);
      RunCompletionsGrow(u, tr[1..], t);
      StepBalances(s, tr[0]);
      StepKeepsTracked(s, tr[0]);
      RunKeepsTracked(u, tr[1..], t);
    }
  }

  lemma {:induction false} StartLoopTracks(input: seq<Resource>, ps: seq<Placement>)
    requires |ps| <= |input| && DistinctURLs(input) && Untracked !in ps
    ensures FlightsTracked(StartLoop(Init(input), ps))
  {
    if ps != [] {
      var n := |ps| - 1;
      StartLoopTracks(input, ps[..n]);
      StartLoopFillsSlots(input, ps[..n]);
      assert ps[n] in ps;
      PopKeepsTracked(StartLoop(Init(input), ps[..n]), ps[n]);
    }
  }

  /** With distinct URLs and a task for every download, the first completion reports exactly the
      input: the three lists together are a permutation of it, with or without a stop. */
  lemma FirstCompletionReportsInput(
    input: seq<Resource>, limit: int, ps: seq<Placement>, s: State, tr: seq<Event>, t: State, e: Event)
    requires Started(input, limit, ps, s) && Run(s, tr, t) && FirstCompletion(t, e)
    requires DistinctURLs(input) && Untracked !in ps
    requires forall d <- tr + [e] | d.Next? :: !d.placement.Untracked?
    ensures multiset(input) == Reported(Step(t, e))
  {
    ConservedUntilFirstCompletion(input, limit, ps, s, tr, t);
    RunCompletionsGrow(s, tr, t);
    StartIsAlive(input, limit, ps, s);
    if input != [] { StartLoopTracks(input, ps); }
    assert forall d <- tr :: d in tr + [e];
    assert e in tr + [e];
    RunKeepsTracked(s, tr, t);
    StepKeepsTracked(t, e);
    CompletingEmptiesTasks(t, e);
  }

  /** A completion finds the dictionary empty. */
  lemma CompletingEmptiesTasks(s: State, e: Event)
    requires FirstCompletion(s, e) && FlightsTracked(Step(s, e))
    ensures Step(s, e).inFlight == multiset{}
  {
    var t := Step(s, e);
    assert t.tasks == {};
    assert forall r <- t.inFlight :: r.downloadURL in t.tasks;
  }

  lemma StartTwo(input: seq<Resource>, p: Placement, q: Placement)
    requires |input| >= 2
    ensures var u := PopAndStart(Init(input), p);
      u.pending == input[1..] && Start(Init(input), 2, [p, q]) == PopAndStart(u, q)
  {
    assert [p, q][..1] == [p] && [p][..0] == [];
    assert StartLoop(Init(input), [p]) == PopAndStart(Init(input), p);
  }

  // ---- exactly which inputs those are ----

  ghost predicate AllTracked(ps: seq<Placement>, tr: seq<Event>) {
    Untracked !in ps && forall d <- tr :: d.Next? ==> !d.placement.Untracked?
  }

  /** A run whose next step completes for the first time. */
  ghost predicate Completing(
    input: seq<Resource>, limit: int, ps: seq<Placement>, s: State, tr: seq<Event>, t: State, e: Event)
  {
    Started(input, limit, ps, s) && Run(s, tr, t) && FirstCompletion(t, e)
  }

  ghost predicate AlwaysReports(input: seq<Resource>, limit: int) {
    forall ps, s, tr, t, e ::
      Completing(input, limit, ps, s, tr, t, e) ==> multiset(input) == Reported(Step(t, e))
  }

  ghost predicate AlwaysReportsTracked(input: seq<Resource>, limit: int) {
    forall ps, s, tr, t, e ::
      Completing(input, limit, ps, s, tr, t, e) && AllTracked(ps, tr + [e]) ==> multiset(input) == Reported(Step(t, e))
  }

  /** A completion uses up a slot. */
  lemma CompletionUsesSlot(s: State, e: Event)
    requires FirstCompletion(s, e)
    ensures |Step(s, e).inFlight| < Slots(s)
  {
  }

  /** With one slot nothing is in flight when it is used up. */
  lemma OneSlotReports(input: seq<Resource>, limit: int, ps: seq<Placement>, s: State, tr: seq<Event>, t: State,
      e: Event)
    requires Completing(input, limit, ps, s, tr, t, e) && Min(|input|, limit) <= 1
    ensures multiset(input) == Reported(Step(t, e))
  {
    SchedulerIsBoundedAndLive(input, limit, ps, s, tr, t);
    ConservedUntilFirstCompletion(input, limit, ps, s, tr, t);
    CompletionUsesSlot(t, e);
  }

  /** The first `m` resources have been started; `flights` of them are in flight, the others are done. */
  ghost predicate At(s: State, input: seq<Resource>, m: nat, flights: multiset<Resource>, tasks: set<Url>, slots: nat) {
    && m <= |input| && s.prefetchResources == input && s.pending == input[m..]
    && !s.stopped && s.completions == 0
    && s.inFlight == flights && s.tasks == tasks && s.queued + |flights| == slots
  }

  /** Starting one more resource from the cache, or as a download that is tracked or not. */
  lemma PopAt(s: State, input: seq<Resource>, m: nat, flights: multiset<Resource>, tasks: set<Url>, slots: nat,
      p: Placement)
    requires At(s, input, m, flights, tasks, slots) && m < |input| && !p.Refused?
    ensures At(PopAndStart(s, p), input, m + 1,
               if p.Cached? then flights else flights + multiset{input[m]},
               if p.Tracked? then tasks + {input[m].downloadURL} else tasks, slots + 1)
  {
  }

  lemma NextAt(s: State, input: seq<Resource>, m: nat, flights: multiset<Resource>, tasks: set<Url>, slots: nat,
      p: Placement)
    requires At(s, input, m, flights, tasks, slots) && m < |input| && !p.Refused? && |flights| < slots
    ensures Enabled(s, Next(p))
    ensures At(Step(s, Next(p)), input, m + 1,
               if p.Cached? then flights else flights + multiset{input[m]},
               if p.Tracked? then tasks + {input[m].downloadURL} else tasks, slots)
  {
    var u := s.(queued := s.queued - 1);
    assert At(u, input, m, flights, tasks, slots - 1);
    PopAt(u, input, m, flights, tasks, slots - 1, p);
    assert Step(s, Next(p)) == PopAndStart(u, p);
  }

  lemma {:induction false} RunConcat(s: State, tr: seq<Event>, t: State, tr': seq<Event>, u: State)
    requires Run(s, tr, t) && Run(t, tr', u)
    ensures Run(s, tr + tr', u)
    decreases |tr|
  {
    if tr == [] {
      assert tr + tr' == tr';
    } else {
      RunConcat(Step(s, tr[0]), tr[1..], t, tr', u);
      assert (tr + tr')[1..] == tr[1..] + tr';
    }
  }

  /** What each resource becomes in the failing runs: those at `i` and `j` as `p`, the others cached. */
  function Chosen(i: nat, j: nat, p: Placement, m: nat): Placement { if m == i || m == j then p else Cached }

  function ChosenTo(i: nat, j: nat, p: Placement, n: nat): seq<Placement> {
    seq(n, m requires 0 <= m < n => Chosen(i, j, p, m))
  }

  ghost function FlightsTo(input: seq<Resource>, i: nat, j: nat, m: nat): multiset<Resource>
    requires i <= j < |input|
  {
    (if i < m then multiset{input[i]} else multiset{}) + (if i < j < m then multiset{input[j]} else multiset{})
  }

  ghost function TasksTo(input: seq<Resource>, i: nat, j: nat, p: Placement, m: nat): set<Url>
    requires i <= j < |input|
  {
    if !p.Tracked? then {}
    else (if i < m then {input[i].downloadURL} else {}) + (if i < j < m then {input[j].downloadURL} else {})
  }

  ghost predicate ChosenAt(s: State, input: seq<Resource>, i: nat, j: nat, p: Placement, m: nat, slots: nat) {
    i <= j < |input| && At(s, input, m, FlightsTo(input, i, j, m), TasksTo(input, i, j, p, m), slots)
  }

  lemma FlightsGrow(input: seq<Resource>, i: nat, j: nat, p: Placement, m: nat)
    requires i <= j < |input| && m < |input| && (p.Tracked? || p.Untracked?)
    ensures var q := Chosen(i, j, p, m);
      && FlightsTo(input, i, j, m + 1)
         == (if q.Cached? then FlightsTo(input, i, j, m) else FlightsTo(input, i, j, m) + multiset{input[m]})
      && TasksTo(input, i, j, p, m + 1)
         == (if q.Tracked? then TasksTo(input, i, j, p, m) + {input[m].downloadURL} else TasksTo(input, i, j, p, m))
  {
  }

  lemma {:induction false} StartChosen(input: seq<Resource>, i: nat, j: nat, p: Placement, n: nat)
    requires i <= j < |input| && n <= |input| && (p.Tracked? || p.Untracked?)
    ensures ChosenAt(StartLoop(Init(input), ChosenTo(i, j, p, n)), input, i, j, p, n, n)
  {
    if n == 0 {
      assert input[0..] == input;
    } else {
      var ps := ChosenTo(i, j, p, n);
      StartChosen(input, i, j, p, n - 1);
      assert ps[..n - 1] == ChosenTo(i, j, p, n - 1);
      var u := StartLoop(Init(input), ps[..n - 1]);
      PopAt(u, input, n - 1, FlightsTo(input, i, j, n - 1), TasksTo(input, i, j, p, n - 1), n - 1, ps[n - 1]);
      FlightsGrow(input, i, j, p, n - 1);
    }
  }

  /** From `m` to `n` by queued blocks, while a slot is left for them. */
  lemma {:induction false} AdvanceChosen(s: State, input: seq<Resource>, i: nat, j: nat, p: Placement, m: nat,
      n: nat, slots: nat)
    returns (tr: seq<Event>, t: State)
    requires ChosenAt(s, input, i, j, p, m, slots) && m <= n <= |input| && (p.Tracked? || p.Untracked?)
    requires m < n ==> |FlightsTo(input, i, j, n - 1)| < slots
    ensures Run(s, tr, t) && ChosenAt(t, input, i, j, p, n, slots)
    ensures p.Tracked? ==> forall d <- tr :: d.Next? ==> !d.placement.Untracked?
    decreases n - m
  {
    if m == n {
      return [], s;
    }
    var q := Chosen(i, j, p, m);
    NextAt(s, input, m, FlightsTo(input, i, j, m), TasksTo(input, i, j, p, m), slots, q);
    FlightsGrow(input, i, j, p, m);
    tr, t := AdvanceChosen(Step(s, Next(q)), input, i, j, p, m + 1, n, slots);
    assert ([Next(q)] + tr)[1..] == tr;
    tr := [Next(q)] + tr;
  }

  /** With no task in the dictionary, the rest of the input comes from the cache and the next block completes. */
  lemma {:induction false} RunDry(s: State, input: seq<Resource>, m: nat, flights: multiset<Resource>, slots: nat)
    returns (tr: seq<Event>, t: State)
    requires At(s, input, m, flights, {}, slots) && |flights| < slots
    ensures Run(s, tr, t) && forall d <- tr :: d == Next(Cached)
    ensures t.completions == 0 && FirstCompletion(t, Next(Cached)) && Step(t, Next(Cached)).inFlight == flights
    decreases |input| - m
  {
    if m == |input| {
      return [], s;
    }
    NextAt(s, input, m, flights, {}, slots, Cached);
    tr, t := RunDry(Step(s, Next(Cached)), input, m + 1, flights, slots);
    assert ([Next(Cached)] + tr)[1..] == tr;
    tr := [Next(Cached)] + tr;
  }

  lemma NotReported(input: seq<Resource>, limit: int, ps: seq<Placement>, s: State, tr: seq<Event>, t: State, e: Event)
    requires Completing(input, limit, ps, s, tr, t, e) && Step(t, e).inFlight != multiset{}
    ensures multiset(input) != Reported(Step(t, e))
  {
    ConservedUntilFirstCompletion(input, limit, ps, s, tr, t);
  }

  /** Where two slots are open, one download without a task completes too early. */
  lemma UntrackedCompletesEarly(input: seq<Resource>, limit: int)
    returns (ps: seq<Placement>, s: State, tr: seq<Event>, t: State)
    requires Min(|input|, limit) >= 2
    ensures Completing(input, limit, ps, s, tr, t, Next(Cached))
    ensures multiset(input) != Reported(Step(t, Next(Cached)))
  {
    var k := Min(|input|, limit);
    ps := ChosenTo(0, 0, Untracked, k);
    StartChosen(input, 0, 0, Untracked, k);
    s := Start(Init(input), limit, ps);
    tr, t := RunDry(s, input, k, FlightsTo(input, 0, 0, k), k);
    NotReported(input, limit, ps, s, tr, t, Next(Cached));
  }

  lemma RepeatedInFlight(s: State, input: seq<Resource>, i: nat, j: nat, m: nat, slots: nat)
    requires ChosenAt(s, input, i, j, Tracked, m, slots) && i < j < m
    requires input[i].downloadURL == input[j].downloadURL
    ensures Enabled(s, Completed(input[i], true))
    ensures At(Step(s, Completed(input[i], true)), input, m, multiset{input[j]}, {}, slots)
  {
    assert s.inFlight == multiset{input[i]} + multiset{input[j]};
    assert s.inFlight - multiset{input[i]} == multiset{input[j]};
  }

  /** A run ends with a completion that finds `left` in flight. */
  ghost predicate EndsEarly(s: State, tr: seq<Event>, t: State, left: Resource) {
    && Run(s, tr, t) && FirstCompletion(t, Next(Cached)) && Step(t, Next(Cached)).inFlight == multiset{left}
    && forall d <- tr :: d.Next? ==> !d.placement.Untracked?
  }

  lemma RepeatedThenDry(s: State, input: seq<Resource>, i: nat, j: nat, n: nat, slots: nat)
    returns (tr: seq<Event>, t: State)
    requires ChosenAt(s, input, i, j, Tracked, n, slots) && i < j < n && slots >= 2
    requires input[i].downloadURL == input[j].downloadURL
    ensures EndsEarly(s, tr, t, input[j])
  {
    RepeatedInFlight(s, input, i, j, n, slots);
    var e := Completed(input[i], true);
    tr, t := RunDry(Step(s, e), input, n, multiset{input[j]}, slots);
    assert ([e] + tr)[1..] == tr;
    tr := [e] + tr;
  }

  lemma EndsEarlyAfter(s: State, tr: seq<Event>, u: State, tr': seq<Event>, t: State, left: Resource)
    requires Run(s, tr, u) && EndsEarly(u, tr', t, left) && forall d <- tr :: d.Next? ==> !d.placement.Untracked?
    ensures EndsEarly(s, tr + tr', t, left)
  {
    RunConcat(s, tr, u, tr', t);
  }

  lemma RepeatedRun(s: State, input: seq<Resource>, i: nat, j: nat, m: nat, slots: nat)
    returns (tr: seq<Event>, t: State)
    requires ChosenAt(s, input, i, j, Tracked, m, slots) && i < j && slots >= 2
    requires input[i].downloadURL == input[j].downloadURL
    ensures EndsEarly(s, tr, t, input[j])
  {
    var n := if m <= j then j + 1 else m;
    var u, tr';
    tr, u := AdvanceChosen(s, input, i, j, Tracked, m, n, slots);
    tr', t := RepeatedThenDry(u, input, i, j, n, slots);
    EndsEarlyAfter(s, tr, u, tr', t, input[j]);
    tr := tr + tr';
  }

  /** Where two slots are open, a URL that is listed twice completes too early. */
  lemma RepeatedURLCompletesEarly(input: seq<Resource>, limit: int, i: nat, j: nat)
    returns (ps: seq<Placement>, s: State, tr: seq<Event>, t: State)
    requires Min(|input|, limit) >= 2 && i < j < |input| && input[i].downloadURL == input[j].downloadURL
    ensures Completing(input, limit, ps, s, tr, t, Next(Cached)) && AllTracked(ps, tr + [Next(Cached)])
    ensures multiset(input) != Reported(Step(t, Next(Cached)))
  {
    var k := Min(|input|, limit);
    ps := ChosenTo(i, j, Tracked, k);
    StartChosen(input, i, j, Tracked, k);
    s := Start(Init(input), limit, ps);
    tr, t := RepeatedRun(s, input, i, j, k, k);
    NotReported(input, limit, ps, s, tr, t, Next(Cached));
  }

  /** Whatever becomes of the resources: the first completion always reports exactly the input if and
      only if at most one slot is ever open. */
  lemma ReportsInputIff(input: seq<Resource>, limit: int)
    requires limit > 0
    ensures AlwaysReports(input, limit) <==> Min(|input|, limit) <= 1
  {
    if Min(|input|, limit) <= 1 {
      forall ps, s, tr, t, e | Completing(input, limit, ps, s, tr, t, e)
        ensures multiset(input) == Reported(Step(t, e))
      {
        OneSlotReports(input, limit, ps, s, tr, t, e);
      }
    } else {
      var ps, s, tr, t := UntrackedCompletesEarly(input, limit);
    }
  }

  /** When every download returns a task: if and only if the URLs are distinct or at most one slot is
      ever open. */
  lemma ReportsInputIffTracked(input: seq<Resource>, limit: int)
    requires limit > 0
    ensures AlwaysReportsTracked(input, limit) <==> DistinctURLs(input) || Min(|input|, limit) <= 1
  {
    if DistinctURLs(input) || Min(|input|, limit) <= 1 {
      forall ps, s, tr, t, e | Completing(input, limit, ps, s, tr, t, e) && AllTracked(ps, tr + [e])
        ensures multiset(input) == Reported(Step(t, e))
      {
        if DistinctURLs(input) {
          FirstCompletionReportsInput(input, limit, ps, s, tr, t, e);
        } else {
          OneSlotReports(input, limit, ps, s, tr, t, e);
        }
      }
    } else {
      var i, j :| 0 <= i < j < |input| && input[i].downloadURL == input[j].downloadURL;
      var ps, s, tr, t := RepeatedURLCompletesEarly(input, limit, i, j);
    }
  }

  // ---- stop ----

  /** How many resources a run hands to the downloader. */
  ghost function Downloads(s: State, tr: seq<Event>): nat
    decreases |tr|
  {
    if tr == [] || !Enabled(s, tr[0]) then 0
    else
      (if tr[0].Next? && s.pending != [] && !tr[0].placement.Cached? then 1 else 0)
      + Downloads(Step(s, tr[0]), tr[1..])
  }

  /** Once stopped, only the blocks that were queued before the stop can start a download. */
  lemma {:induction false} DownloadsAfterStop(s: State, tr: seq<Event>, t: State)
    requires Run(s, tr, t) && s.stopped
    ensures Downloads(s, tr) + t.queued <= s.queued
    decreases |tr|
  {
    if tr != [] {
      DownloadsAfterStop(Step(s, tr[0]), tr[1..], t);
    }
  }

  lemma {:induction false} NothingPendingStarts(s: State, tr: seq<Event>, t: State)
    requires Run(s, tr, t) && s.pending == []
    ensures Downloads(s, tr) == 0
    decreases |tr|
  {
    if tr != [] { NothingPendingStarts(Step(s, tr[0]), tr[1..], t); }
  }

  ghost predicate CanDownload(s: State) { exists tr, t :: Run(s, tr, t) && Downloads(s, tr) > 0 }

  /** A stopped prefetcher can still start a download if and only if a block was queued for one. */
  lemma StoppedStillStartsIff(s: State)
    requires s.stopped
    ensures CanDownload(s) <==> s.queued > 0 && s.pending != []
  {
    if CanDownload(s) {
      var tr, t :| Run(s, tr, t) && Downloads(s, tr) > 0;
      DownloadsAfterStop(s, tr, t);
      if s.pending == [] { NothingPendingStarts(s, tr, t); }
    }
    if s.queued > 0 && s.pending != [] {
      var tr := [Next(Tracked)];
      assert tr[1..] == [];
      assert Run(s, tr, Step(s, Next(Tracked))) && Downloads(s, tr) > 0;
    }
  }

  lemma RunOfThree(s: State, a: Event, b: Event, c: Event)
    requires Enabled(s, a) && Enabled(Step(s, a), b) && Enabled(Step(Step(s, a), b), c)
    ensures Run(s, [a, b, c], Step(Step(Step(s, a), b), c))
  {
    assert [a, b, c][1..] == [b, c] && [b, c][1..] == [c] && [c][1..] == [];
    assert Run(Step(s, a), [b, c], Step(Step(Step(s, a), b), c));
  }

  lemma StartedTwoOfThree(a: Resource, b: Resource, c: Resource)
    ensures Start(Init([a, b, c]), 2, [Tracked, Tracked])
         == State([a, b, c], [c], [], [], [], {a.downloadURL, b.downloadURL}, multiset{a, b}, 0, false, 0)
  {
    StartTwo([a, b, c], Tracked, Tracked);
  }

  lemma StopsWithOneQueued(a: Resource, b: Resource, c: Resource)
    requires a.downloadURL != b.downloadURL
    ensures var input := [a, b, c];
      var s := State(input, [c], [], [], [], {a.downloadURL, b.downloadURL}, multiset{a, b}, 0, false, 0);
      && Enabled(s, Completed(a, true))
      && Step(Step(s, Completed(a, true)), Stop)
         == State(input, [c], [], [], [a], {b.downloadURL}, multiset{b}, 1, true, 0)
  {
  }

  /** One such block suffices: a resource is downloaded after it was reported as failed. */
  lemma StoppedPrefetcherStillStarts(a: Resource, b: Resource, c: Resource)
    requires a.downloadURL != b.downloadURL
    ensures var input := [a, b, c];
      var s := Start(Init(input), 2, [Tracked, Tracked]);
      var stopped := State(input, [c], [], [b, c], [a], {}, multiset{}, 1, true, 1);
      && Run(s, [Completed(a, true), Stop, Completed(b, false)], stopped)
      && Enabled(stopped, Next(Tracked)) && Step(stopped, Next(Tracked)).inFlight == multiset{c}
  {
    var input := [a, b, c];
    StartedTwoOfThree(a, b, c);
    StopsWithOneQueued(a, b, c);
    var s2 := State(input, [c], [], [], [a], {b.downloadURL}, multiset{b}, 1, true, 0);
    assert Step(s2, Completed(b, false)).failed == [b, c];
    RunOfThree(Start(Init(input), 2, [Tracked, Tracked]), Completed(a, true), Stop, Completed(b, false));
  }
}

/** `ImagePrefetcher` with its fields updated in place; each method is one block of its queue. */
module Prefetcher {
  import opened Basics
  import opened PrefetcherProtocol
  import opened PrefetcherTheorems

  type TaskId = nat

  class ImagePrefetcher {
    const prefetchResources: seq<Resource>
    const maxConcurrentDownloads: int
    var pendingResources: seq<Resource>
    var skippedResources: seq<Resource>
    var failedResources: seq<Resource>
    var completedResources: seq<Resource>
    var tasks: map<Url, TaskId>
    var cancelledTasks: set<TaskId>
    var stopped: bool
    var queuedBlocks: nat
    var handlerCalls: nat
    ghost var inFlight: multiset<Resource>

    ghost function View(): State
      reads this
    {
      State(prefetchResources, pendingResources, skippedResources, failedResources, completedResources,
            tasks.Keys, inFlight, queuedBlocks, stopped, handlerCalls)
    }

    constructor (resources: seq<Resource>, limit: int)
      ensures View() == Init(resources) && maxConcurrentDownloads == limit
    {
      prefetchResources, pendingResources, maxConcurrentDownloads := resources, resources, limit;
      skippedResources, failedResources, completedResources := [], [], [];
      tasks, cancelledTasks, stopped, queuedBlocks, handlerCalls, inFlight := map[], {}, false, 0, 0, multiset{};
    }

    /** `ps` and `ids` say what becomes of each resource that is started and which task it gets. */
    method StartPrefetcher(ps: seq<Placement>, ids: seq<TaskId>)
      requires |ps| == |ids|
      requires |ps| == Min(|prefetchResources|, maxConcurrentDownloads) || stopped || maxConcurrentDownloads <= 0
      modifies this
      ensures View() == Start(old(View()), maxConcurrentDownloads, ps)
    {
      if stopped || maxConcurrentDownloads <= 0 || |prefetchResources| == 0 {
        handlerCalls := handlerCalls + 1;
        return;
      }
      for k := 0 to Min(|prefetchResources|, maxConcurrentDownloads)
        invariant View() == StartLoop(old(View()), ps[..k])
      {
        assert ps[..k + 1][..k] == ps[..k];
        if pendingResources != [] { StartFirst(ps[k], ids[k]); }
      }
      assert ps[..|ps|] == ps;
    }

    method StartFirst(p: Placement, id: TaskId)
      requires pendingResources != []
      modifies this
      ensures View() == PopAndStart(old(View()), p)
    {
      var resource := pendingResources[0];
      pendingResources := pendingResources[1..];
      StartOne(resource, p, id);
    }

    method StartOne(resource: Resource, p: Placement, id: TaskId)
      modifies this
      ensures View() == StartPrefetching(old(View()), resource, p)
    {
      match p
      case Cached =>
        skippedResources := skippedResources + [resource];
        queuedBlocks := queuedBlocks + 1;
      case Refused =>
        DownloadCompleted(resource, false);
      case Tracked =>
        inFlight := inFlight + multiset{resource};
        tasks := tasks[resource.downloadURL := id];
      case Untracked =>
        inFlight := inFlight + multiset{resource};
    }

    method DownloadCompleted(resource: Resource, ok: bool)
      modifies this
      ensures View() == Finish(old(View()), resource, ok)
    {
      tasks := tasks - {resource.downloadURL};
      if ok {
        completedResources := completedResources + [resource];
      } else {
        failedResources := failedResources + [resource];
      }
      if stopped {
        if tasks.Keys == {} {
          failedResources := failedResources + pendingResources;
          handlerCalls := handlerCalls + 1;
        }
      } else {
        queuedBlocks := queuedBlocks + 1;
      }
    }

    /** The completion handler of a download that is in flight. */
    method RunCompletion(resource: Resource, ok: bool)
      requires resource in inFlight
      modifies this
      ensures View() == Step(old(View()), Completed(resource, ok))
    {
      inFlight := inFlight - multiset{resource};
      DownloadCompleted(resource, ok);
    }

    /** One queued block of `reportCompletionOrStartNext`. */
    method RunNext(p: Placement, id: TaskId)
      requires queuedBlocks > 0
      modifies this
      ensures View() == Step(old(View()), Next(p))
    {
      queuedBlocks := queuedBlocks - 1;
      if pendingResources != [] {
        StartFirst(p, id);
      } else if tasks.Keys == {} {
        handlerCalls := handlerCalls + 1;
      }
    }

    method StopPrefetcher()
      modifies this
      ensures View() == Step(old(View()), Stop)
      ensures cancelledTasks == old(cancelledTasks) + if stopped && !Finished(old(View())) then tasks.Values else {}
    {
      if |failedResources| + |skippedResources| + |completedResources| == |prefetchResources| &&
        tasks.Keys == {} { return; }
      stopped := true;
      cancelledTasks := cancelledTasks + tasks.Values;
    }
  }
}
