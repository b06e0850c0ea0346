/** The life of Alamofire data requests: attempts, the task registry, validations and retries.

    `Step` says what one callback of the session, of the retrier or of the caller does to the state;
    a run is any sequence of such callbacks. Building a new task for a retry and registering the
    request under it are one step. */
module RetryProtocol {
  import opened Basics

  type Octet = n: int | 0 <= n < 256
  type Data = seq<Octet>
  type TaskId = nat
  type RequestId = nat

  datatype Error = Error(code: int)

  datatype Response = Response(statusCode: int, mimeType: Option<string>)

  /** A validation looks at the response and the data received so far; a result is a failure. */
  type Validation = (Response, Data) -> Option<Error>

  datatype Request = Request(
    hasOriginalTask: bool,
    task: Option<TaskId>,
    error: Option<Error>,
    data: Data,
    totalBytesReceived: nat,
    suspended: bool,
    validations: seq<Validation>,
    retryCount: nat)

  /** A decision that the retrier owes about the attempt that `task` ended with `error`. */
  datatype Decision = Decision(task: TaskId, error: Error)

  datatype State = State(
    hasRetrier: bool,
    startImmediately: bool,
    requests: seq<Request>,
    registry: map<TaskId, RequestId>,
    pending: map<RequestId, Decision>,
    adapting: set<RequestId>,
    completed: set<TaskId>,
    nextTask: TaskId)

  /** What the task factory does when a retry asks it for a new task. */
  datatype Creation = Created | CreationFailed(error: Error)

  datatype Event =
    | Begin
    | BeginFailed(error: Error, adapt: bool, hasOriginalTask: bool)
    | Validate(r: RequestId, validation: Validation)
    | Receive(t: TaskId, chunk: Data)
    | Complete(t: TaskId, response: Option<Response>, failure: Option<Error>)
    | Decide(r: RequestId, shouldRetry: bool, creation: Creation)
    | DecideAdapt(r: RequestId, shouldRetry: bool, creation: Creation)
    | Resume(r: RequestId)

  // ---- what the steps are made of ----

  /** The validations in the order in which they were added; one runs only while no error is set. */
  function Judged(q: Request, response: Option<Response>, n: nat): Option<Error>
    requires n <= |q.validations|
  {
    if n == 0 then q.error
    else
      var before := Judged(q, response, n - 1);
      if response.None? || before.Some? then before else q.validations[n - 1](response.value, q.data)
  }

  function Validated(q: Request, response: Option<Response>): Request {
    q.(error := Judged(q, response, |q.validations|))
  }

  /** The data task delegate's own completion. */
  function Finished(q: Request, failure: Option<Error>): Request {
    q.(error := if q.error.None? then failure else q.error, suspended := false)
  }

  /** Setting the delegate's task resets what the last attempt left in it. */
  function Restarted(q: Request, t: TaskId): Request {
    q.(task := Some(t), error := None, data := [], totalBytesReceived := 0, retryCount := q.retryCount + 1)
  }

  function Resumed(q: Request): Request { if q.task.None? then q.(suspended := false) else q }

  function CompleteTask(s: State, t: TaskId, failure: Option<Error>): State
    requires Wf(s)
  {
    if t !in s.registry then s
    else
      var r := s.registry[t];
      s.(requests := s.requests[r := Finished(s.requests[r], failure)], registry := s.registry - {t})
  }

  /** `retry` and the registration that follows it; false when no task was built. */
  function Retry(s: State, r: RequestId, creation: Creation): (State, bool)
    requires Wf(s) && r < |s.requests|
  {
    var q := s.requests[r];
    if !q.hasOriginalTask then (s, false)
    else
      match creation
      case CreationFailed(e) => (s.(requests := s.requests[r := q.(error := Some(e))]), false)
      case Created =>
        var registry := if q.task.Some? then s.registry - {q.task.value} else s.registry;
        (s.(requests := s.requests[r := Restarted(q, s.nextTask)],
            registry := registry[s.nextTask := r],
            nextTask := s.nextTask + 1), true)
  }

  ghost predicate Wf(s: State) {
    && (forall t <- s.registry :: s.registry[t] < |s.requests|)
    && (forall r <- s.pending :: r < |s.requests|)
    && (forall r <- s.adapting :: r < |s.requests|)
  }

  /** The session completes each of its tasks once, and the retrier answers each question once. */
  predicate Enabled(s: State, e: Event) {
    match e
    case Begin => true
    case BeginFailed(_, adapt, hasOriginalTask) => adapt ==> hasOriginalTask
    case Validate(r, _) => r < |s.requests|
    case Receive(t, _) => t < s.nextTask
    case Complete(t, _, _) => t < s.nextTask && t !in s.completed
    case Decide(r, _, _) => r in s.pending
    case DecideAdapt(r, _, _) => r in s.adapting
    case Resume(r) => r < |s.requests|
  }

  function DoBegin(s: State): State {
    s.(requests := s.requests + [Request(true, Some(s.nextTask), None, [], 0, true, [], 0)],
       registry := s.registry[s.nextTask := |s.requests|],
       nextTask := s.nextTask + 1)
  }

  function DoBeginFailed(s: State, error: Error, adapt: bool, hasOriginalTask: bool): State {
    var ask := s.hasRetrier && adapt;
    s.(requests := s.requests + [Request(hasOriginalTask, None, Some(error), [], 0, ask || !s.startImmediately, [], 0)],
       adapting := if ask then s.adapting + {|s.requests|} else s.adapting)
  }

  function DoReceive(s: State, t: TaskId, chunk: Data): State
    requires Wf(s)
  {
    if t !in s.registry then s
    else
      var q := s.requests[s.registry[t]];
      s.(requests := s.requests[s.registry[t] :=
           q.(data := q.data + chunk, totalBytesReceived := q.totalBytesReceived + |chunk|)])
  }

  function DoComplete(s: State, t: TaskId, response: Option<Response>, failure: Option<Error>): State
    requires Wf(s)
  {
    var c := s.(completed := s.completed + {t});
    if t !in s.registry then c else EndAttempt(c, t, response, failure)
  }

  function EndAttempt(s: State, t: TaskId, response: Option<Response>, failure: Option<Error>): State
    requires Wf(s) && t in s.registry
  {
    var r := s.registry[t];
    var q := Validated(s.requests[r], response);
    var error := if q.error.Some? then q.error else failure;
    var v := s.(requests := s.requests[r := q]);
    if s.hasRetrier && error.Some? then v.(pending := s.pending[r := Decision(t, error.value)])
    else CompleteTask(v, t, error)
  }

  function DoDecide(s: State, r: RequestId, shouldRetry: bool, creation: Creation): State
    requires Wf(s) && r in s.pending
  {
    var d := s.pending[r];
    var c := s.(pending := s.pending - {r});
    if !shouldRetry then CompleteTask(c, d.task, Some(d.error))
    else
      var (u, succeeded) := Retry(c, r, creation);
      if succeeded then u else CompleteTask(u, d.task, Some(d.error))
  }

  function DoDecideAdapt(s: State, r: RequestId, shouldRetry: bool, creation: Creation): State
    requires Wf(s) && r in s.adapting
  {
    var c := s.(adapting := s.adapting - {r});
    if !shouldRetry then GiveUp(c, r)
    else
      var (u, succeeded) := Retry(c, r, creation);
      if succeeded then u else GiveUp(u, r)
  }

  /** No task will come of the request: its handlers may run, at once if requests start by themselves. */
  function GiveUp(s: State, r: RequestId): State
    requires r < |s.requests|
  {
    if s.startImmediately then s.(requests := s.requests[r := Resumed(s.requests[r])]) else s
  }

  function Step(s: State, e: Event): State
    requires Wf(s) && Enabled(s, e)
  {
    match e
    case Begin => DoBegin(s)
    case BeginFailed(error, adapt, hasOriginalTask) => DoBeginFailed(s, error, adapt, hasOriginalTask)
    case Validate(r, validation) =>
      s.(requests := s.requests[r := s.requests[r].(validations := s.requests[r].validations + [validation])])
    case Receive(t, chunk) => DoReceive(s, t, chunk)
    case Complete(t, response, failure) => DoComplete(s, t, response, failure)
    case Decide(r, shouldRetry, creation) => DoDecide(s, r, shouldRetry, creation)
    case DecideAdapt(r, shouldRetry, creation) => DoDecideAdapt(s, r, shouldRetry, creation)
    case Resume(r) => s.(requests := s.requests[r := Resumed(s.requests[r])])
  }

  /** `tr` leads from `s0` to `t`. */
  ghost predicate Run(s0: State, tr: seq<Event>, t: State)
    decreases |tr|
  {
    if tr == [] then t == s0
    else
      exists s ::
        Run(s0, tr[..|tr| - 1], s) && Wf(s) && Enabled(s, tr[|tr| - 1]) && t == Step(s, tr[|tr| - 1])
  }

  /** A session without requests. */
  predicate Initial(s: State) {
    && s.requests == [] && s.registry.Keys == {} && s.pending.Keys == {} && s.adapting == {} && s.completed == {}
    && s.nextTask == 0
  }
}

module RetryTheorems {
  import opened Basics
  import opened RetryProtocol

  // ---- the registry ----

  /** What holds of one request between steps. */
  ghost predicate RequestInv(s: State, r: RequestId)
    requires r < |s.requests|
  {
    var q := s.requests[r];
    match q.task
    case None => r !in s.pending && (r in s.adapting ==> q.hasOriginalTask)
    case Some(t) =>
      && t < s.nextTask && q.hasOriginalTask && r !in s.adapting
      && (r in s.pending ==> t in s.registry && s.pending[r].task == t)
      && (t in s.registry ==> s.registry[t] == r && (t in s.completed <==> r in s.pending))
      && (t !in s.registry ==> t in s.completed && !q.suspended)
  }

  ghost predicate Inv(s: State) {
    && Wf(s)
    && (forall t <- s.registry :: s.requests[s.registry[t]].task == Some(t))
    && (forall t <- s.completed :: t < s.nextTask)
    && (forall r :: 0 <= r < |s.requests| ==> RequestInv(s, r))
  }

  lemma BeginKeeps(s: State)
    requires Inv(s)
    ensures Inv(DoBegin(s))
  {
    var u := DoBegin(s);
    forall r | 0 <= r < |u.requests| ensures RequestInv(u, r) {
      if r < |s.requests| { assert RequestInv(s, r); }
    }
  }

  lemma BeginFailedKeeps(s: State, error: Error, adapt: bool, hasOriginalTask: bool)
    requires Inv(s) && (adapt ==> hasOriginalTask)
    ensures Inv(DoBeginFailed(s, error, adapt, hasOriginalTask))
  {
    var u := DoBeginFailed(s, error, adapt, hasOriginalTask);
    forall r | 0 <= r < |u.requests| ensures RequestInv(u, r) {
      if r < |s.requests| { assert RequestInv(s, r); }
    }
  }

  /** Changing what a request holds, but neither its task nor its claim to one, keeps the invariant. */
  lemma ContentsKeep(s: State, r: RequestId, q: Request)
    requires Inv(s) && r < |s.requests|
    requires q.task == s.requests[r].task && q.hasOriginalTask == s.requests[r].hasOriginalTask
    requires q.suspended ==> s.requests[r].suspended
    ensures Inv(s.(requests := s.requests[r := q]))
  {
    var u := s.(requests := s.requests[r := q]);
    forall r' | 0 <= r' < |u.requests| ensures RequestInv(u, r') {
      assert RequestInv(s, r');
    }
  }

  /** The invariant but for one registered request, whose attempt is complete and which owes no decision. */
  ghost predicate InvBut(s: State, t: TaskId) {
    && Wf(s) && t in s.registry && t in s.completed
    && (forall t' <- s.registry :: s.requests[s.registry[t']].task == Some(t'))
    && (forall t' <- s.completed :: t' < s.nextTask)
    && (forall r :: 0 <= r < |s.requests| && r != s.registry[t] ==> RequestInv(s, r))
    && s.registry[t] !in s.pending && s.registry[t] !in s.adapting && s.requests[s.registry[t]].hasOriginalTask
  }

  lemma CompleteTaskKeeps(s: State, t: TaskId, failure: Option<Error>)
    requires InvBut(s, t)
    ensures Inv(CompleteTask(s, t, failure))
  {
    var u := CompleteTask(s, t, failure);
    forall r | 0 <= r < |u.requests| ensures RequestInv(u, r) {
      if r != s.registry[t] { assert RequestInv(s, r); }
    }
  }

  lemma ValidationKeeps(s: State, t: TaskId, q: Request)
    requires InvBut(s, t) && q.task == Some(t) && q.hasOriginalTask
    ensures InvBut(s.(requests := s.requests[s.registry[t] := q]), t)
  {
    var u := s.(requests := s.requests[s.registry[t] := q]);
    forall r | 0 <= r < |u.requests| && r != s.registry[t] ensures RequestInv(u, r) {
      assert RequestInv(s, r);
    }
  }

  lemma AskingKeeps(s: State, t: TaskId, error: Error)
    requires InvBut(s, t)
    ensures Inv(s.(pending := s.pending[s.registry[t] := Decision(t, error)]))
  {
    var u := s.(pending := s.pending[s.registry[t] := Decision(t, error)]);
    forall r | 0 <= r < |u.requests| ensures RequestInv(u, r) {
      if r != s.registry[t] { assert RequestInv(s, r); }
    }
  }

  lemma CompletedBut(s: State, t: TaskId)
    requires Inv(s) && t in s.registry && t !in s.completed
    ensures t < s.nextTask && InvBut(s.(completed := s.completed + {t}), t)
  {
    var c := s.(completed := s.completed + {t});
    assert RequestInv(s, s.registry[t]);
    forall r | 0 <= r < |c.requests| && r != s.registry[t] ensures RequestInv(c, r) {
      assert RequestInv(s, r);
    }
  }

  lemma CompleteKeeps(s: State, t: TaskId, response: Option<Response>, failure: Option<Error>)
    requires Inv(s) && t < s.nextTask && t !in s.completed
    ensures Inv(DoComplete(s, t, response, failure))
  {
    var c := s.(completed := s.completed + {t});
    if t !in s.registry {
      forall r | 0 <= r < |c.requests| ensures RequestInv(c, r) {
        assert RequestInv(s, r);
      }
    } else {
      CompletedBut(s, t);
      var r := s.registry[t];
      var q := Validated(s.requests[r], response);
      ValidationKeeps(c, t, q);
      var v := c.(requests := c.requests[r := q]);
      var error := if q.error.Some? then q.error else failure;
      if s.hasRetrier && error.Some? {
        AskingKeeps(v, t, error.value);
      } else {
        CompleteTaskKeeps(v, t, error);
      }
    }
  }

  lemma RetryKeeps(s: State, r: RequestId)
    requires Wf(s) && r < |s.requests| && r !in s.pending && r !in s.adapting && s.requests[r].hasOriginalTask
    requires forall t <- s.registry :: s.requests[s.registry[t]].task == Some(t) && t < s.nextTask
    requires forall t <- s.completed :: t < s.nextTask
    requires s.requests[r].task.Some? && s.requests[r].task.value in s.registry ==>
      s.registry[s.requests[r].task.value] == r
    requires forall r' :: 0 <= r' < |s.requests| && r' != r ==> RequestInv(s, r')
    ensures Inv(Retry(s, r, Created).0)
  {
    var u := Retry(s, r, Created).0;
    forall r' | 0 <= r' < |u.requests| ensures RequestInv(u, r') {
      if r' != r { assert RequestInv(s, r'); }
    }
  }

  lemma DecideKeeps(s: State, r: RequestId, shouldRetry: bool, creation: Creation)
    requires Inv(s) && r in s.pending
    ensures Inv(DoDecide(s, r, shouldRetry, creation))
  {
    var d := s.pending[r];
    var c := s.(pending := s.pending - {r});
    assert RequestInv(s, r);
    forall r' | 0 <= r' < |c.requests| && r' != r ensures RequestInv(c, r') {
      assert RequestInv(s, r');
    }
    if !shouldRetry {
      CompleteTaskKeeps(c, d.task, Some(d.error));
    } else if creation == Created {
      forall t <- c.registry ensures t < c.nextTask { assert RequestInv(s, s.registry[t]); }
      RetryKeeps(c, r);
    } else {
      var u := Retry(c, r, creation).0;
      forall r' | 0 <= r' < |u.requests| && r' != r ensures RequestInv(u, r') {
        assert RequestInv(c, r');
      }
      CompleteTaskKeeps(u, d.task, Some(d.error));
    }
  }

  lemma DecideAdaptKeeps(s: State, r: RequestId, shouldRetry: bool, creation: Creation)
    requires Inv(s) && r in s.adapting
    ensures Inv(DoDecideAdapt(s, r, shouldRetry, creation))
  {
    var c := s.(adapting := s.adapting - {r});
    assert RequestInv(s, r);
    forall r' | 0 <= r' < |c.requests| ensures RequestInv(c, r') {
      assert RequestInv(s, r');
    }
    if shouldRetry && creation == Created {
      forall t <- c.registry ensures t < c.nextTask { assert RequestInv(s, s.registry[t]); }
      RetryKeeps(c, r);
    } else {
      var u := if shouldRetry then Retry(c, r, creation).0 else c;
      if shouldRetry { ContentsKeep(c, r, u.requests[r]); }
      ContentsKeep(u, r, Resumed(u.requests[r]));
    }
  }

  /** Every step keeps a request registered under its delegate's own task, or finished. */
  lemma StepKeepsRegistry(s: State, e: Event)
    requires Inv(s) && Enabled(s, e)
    ensures Inv(Step(s, e))
  {
    match e
    case Begin => BeginKeeps(s);
    case BeginFailed(error, adapt, hasOriginalTask) => BeginFailedKeeps(s, error, adapt, hasOriginalTask);
    case Validate(r, validation) =>
      ContentsKeep(s, r, s.requests[r].(validations := s.requests[r].validations + [validation]));
    case Receive(t, chunk) =>
      if t in s.registry { ContentsKeep(s, s.registry[t], DoReceive(s, t, chunk).requests[s.registry[t]]); }
    case Complete(t, response, failure) => CompleteKeeps(s, t, response, failure);
    case Decide(r, shouldRetry, creation) => DecideKeeps(s, r, shouldRetry, creation);
    case DecideAdapt(r, shouldRetry, creation) => DecideAdaptKeeps(s, r, shouldRetry, creation);
    case Resume(r) => ContentsKeep(s, r, Resumed(s.requests[r]));
  }

  lemma LastStep(s0: State, tr: seq<Event>, t: State) returns (s: State)
    requires Run(s0, tr, t) && tr != []
    ensures Run(s0, tr[..|tr| - 1], s) && Wf(s) && Enabled(s, tr[|tr| - 1])
    ensures t == Step(s, tr[|tr| - 1]) && tr == tr[..|tr| - 1] + [tr[|tr| - 1]]
  {
    s :| Run(s0, tr[..|tr| - 1], s) && Wf(s) && Enabled(s, tr[|tr| - 1]) && t == Step(s, tr[|tr| - 1]);
  }

  /** In every reachable state. */
  lemma {:induction false} RunKeepsRegistry(s0: State, tr: seq<Event>, t: State)
    requires Inv(s0) && Run(s0, tr, t)
    ensures Inv(t)
    decreases |tr|
  {
    if tr != [] {
      var s := LastStep(s0, tr, t);
      RunKeepsRegistry(s0, tr[..|tr| - 1], s);
      StepKeepsRegistry(s, tr[|tr| - 1]);
    }
  }

  /** Each request is registered under at most one task, which is its delegate's. */
  lemma RegisteredOnce(s0: State, tr: seq<Event>, s: State, t: TaskId, t': TaskId)
    requires Initial(s0) && Run(s0, tr, s)
    requires t in s.registry && t' in s.registry && s.registry[t] == s.registry[t']
    ensures t == t' && s.registry[t] < |s.requests| && s.requests[s.registry[t]].task == Some(t)
  {
    RunKeepsRegistry(s0, tr, s);
  }

  // ---- one step concerns one request ----

  function Subject(s: State, e: Event): Option<RequestId> {
    match e
    case Begin => None
    case BeginFailed(_, _, _) => None
    case Validate(r, _) => Some(r)
    case Receive(t, _) => if t in s.registry then Some(s.registry[t]) else None
    case Complete(t, _, _) => if t in s.registry then Some(s.registry[t]) else None
    case Decide(r, _, _) => Some(r)
    case DecideAdapt(r, _, _) => Some(r)
    case Resume(r) => Some(r)
  }

  ghost predicate Untouched(s: State, u: State, r: RequestId)
    requires r < |s.requests|
  {
    && r < |u.requests| && u.requests[r] == s.requests[r]
    && (r in s.pending <==> r in u.pending) && (r in s.pending ==> u.pending[r] == s.pending[r])
    && (r in s.adapting <==> r in u.adapting)
    && (s.requests[r].task.Some? ==>
          (s.requests[r].task.value in s.registry <==> s.requests[r].task.value in u.registry))
  }

  lemma CompleteLeaves(s: State, e: Event, r: RequestId)
    requires Inv(s) && Enabled(s, e) && e.Complete? && r < |s.requests| && Subject(s, e) != Some(r)
    ensures Untouched(s, Step(s, e), r)
  {
    assert RequestInv(s, r);
  }

  lemma DecideLeaves(s: State, e: Event, r: RequestId)
    requires Inv(s) && Enabled(s, e) && e.Decide? && r < |s.requests| && Subject(s, e) != Some(r)
    ensures Untouched(s, Step(s, e), r)
  {
    assert RequestInv(s, r);
    assert RequestInv(s, e.r);
  }

  lemma DecideAdaptLeaves(s: State, e: Event, r: RequestId)
    requires Inv(s) && Enabled(s, e) && e.DecideAdapt? && r < |s.requests| && Subject(s, e) != Some(r)
    ensures Untouched(s, Step(s, e), r)
  {
    assert RequestInv(s, r);
    assert RequestInv(s, e.r);
  }

  /** A step leaves every other request as it is, with its registration and the decision owed about it. */
  lemma OthersUntouched(s: State, e: Event, r: RequestId)
    requires Inv(s) && Enabled(s, e) && r < |s.requests| && Subject(s, e) != Some(r)
    ensures Untouched(s, Step(s, e), r)
  {
    assert RequestInv(s, r);
    match e
    case Complete(_, _, _) => CompleteLeaves(s, e, r);
    case Decide(_, _, _) => DecideLeaves(s, e, r);
    case DecideAdapt(_, _, _) => DecideAdaptLeaves(s, e, r);
    case _ =>
  }

  // ---- the last attempt ----

  /** The chunks delivered for a task. */
  function Chunks(tr: seq<Event>, t: TaskId): Data {
    if tr == [] then []
    else
      var e := tr[|tr| - 1];
      Chunks(tr[..|tr| - 1], t) + if e.Receive? && e.t == t then e.chunk else []
  }

  predicate CompletedIn(tr: seq<Event>, t: TaskId) {
    tr != [] && ((tr[|tr| - 1].Complete? && tr[|tr| - 1].t == t) || CompletedIn(tr[..|tr| - 1], t))
  }

  /** The session delivers nothing for this task after it completed it; other tasks are free to. */
  predicate OrderlyFor(tr: seq<Event>, t: TaskId) {
    tr == [] ||
    var e, before := tr[|tr| - 1], tr[..|tr| - 1];
    OrderlyFor(before, t) && (e.Receive? && e.t == t ==> !CompletedIn(before, t))
  }

  /** The task creations that answered a decision about a request. */
  function Retries(tr: seq<Event>, r: RequestId): nat {
    if tr == [] then 0
    else
      var e := tr[|tr| - 1];
      Retries(tr[..|tr| - 1], r)
      + if (e.Decide? || e.DecideAdapt?) && e.r == r && e.shouldRetry && e.creation == Created then 1 else 0
  }

  predicate Retried(e: Event, r: RequestId) {
    (e.Decide? || e.DecideAdapt?) && e.r == r && e.shouldRetry && e.creation == Created
  }

  predicate SameAttempt(q: Request, q': Request) {
    q'.task == q.task && q'.data == q.data && q'.totalBytesReceived == q.totalBytesReceived &&
      q'.retryCount == q.retryCount
  }

  /** Another attempt starts with nothing but what the caller set up: the validations, and whether the
      handlers wait. */
  ghost predicate NewAttempt(q: Request, q': Request, t: TaskId) {
    && q'.task == Some(t) && q'.error == None && q'.data == [] && q'.totalBytesReceived == 0
    && q'.retryCount == q.retryCount + 1
    && q'.validations == q.validations && q'.suspended == q.suspended && q'.hasOriginalTask == q.hasOriginalTask
  }

  /** Which steps touch what an attempt of a request has gathered. */
  ghost predicate Touches(s: State, e: Event, r: RequestId, u: State)
    requires r < |s.requests|
  {
    && |s.requests| <= |u.requests|
    && var q, q' := s.requests[r], u.requests[r];
       if Retried(e, r) then NewAttempt(q, q', s.nextTask)
       else if e.Receive? && q.task == Some(e.t) && e.t in s.registry then
         q' == q.(data := q.data + e.chunk, totalBytesReceived := q.totalBytesReceived + |e.chunk|)
       else SameAttempt(q, q')
  }

  lemma CompleteTouches(s: State, e: Event, r: RequestId)
    requires Inv(s) && Enabled(s, e) && r < |s.requests| && e.Complete?
    ensures Touches(s, e, r, Step(s, e))
  {
  }

  lemma DecideTouchesOwn(s: State, e: Event)
    requires Inv(s) && Enabled(s, e) && e.Decide?
    ensures e.r < |s.requests| && Touches(s, e, e.r, Step(s, e))
  {
    assert RequestInv(s, e.r);
  }

  lemma DecideTouches(s: State, e: Event, r: RequestId)
    requires Inv(s) && Enabled(s, e) && r < |s.requests| && e.Decide?
    ensures Touches(s, e, r, Step(s, e))
  {
    if e.r == r { DecideTouchesOwn(s, e); } else { DecideLeaves(s, e, r); }
  }

  lemma DecideAdaptTouchesOwn(s: State, e: Event)
    requires Inv(s) && Enabled(s, e) && e.DecideAdapt?
    ensures e.r < |s.requests| && Touches(s, e, e.r, Step(s, e))
  {
    assert RequestInv(s, e.r);
  }

  lemma DecideAdaptTouches(s: State, e: Event, r: RequestId)
    requires Inv(s) && Enabled(s, e) && r < |s.requests| && e.DecideAdapt?
    ensures Touches(s, e, r, Step(s, e))
  {
    if e.r == r { DecideAdaptTouchesOwn(s, e); } else { DecideAdaptLeaves(s, e, r); }
  }

  lemma ReceiveTouches(s: State, e: Event, r: RequestId)
    requires Inv(s) && Enabled(s, e) && r < |s.requests| && e.Receive?
    ensures Touches(s, e, r, Step(s, e))
  {
    assert RequestInv(s, r);
  }

  lemma StepTouches(s: State, e: Event, r: RequestId)
    requires Inv(s) && Enabled(s, e) && r < |s.requests|
    ensures Touches(s, e, r, Step(s, e))
  {
    match e
    case Receive(_, _) => ReceiveTouches(s, e, r);
    case Complete(_, _, _) => CompleteTouches(s, e, r);
    case Decide(_, _, _) => DecideTouches(s, e, r);
    case DecideAdapt(_, _, _) => DecideAdaptTouches(s, e, r);
    case _ =>
  }

  lemma StepCounts(s: State, e: Event)
    requires Inv(s) && Enabled(s, e)
    ensures var u := Step(s, e);
      && |u.requests| == |s.requests| + (if e.Begin? || e.BeginFailed? then 1 else 0)
      && u.nextTask == s.nextTask + (if e.Begin? || (exists r :: Retried(e, r)) then 1 else 0)
      && u.completed == s.completed + (if e.Complete? then {e.t} else {})
  {
    if e.Decide? || e.DecideAdapt? { DecisionCounts(s, e); }
  }

  lemma DecisionCounts(s: State, e: Event)
    requires Inv(s) && Enabled(s, e) && (e.Decide? || e.DecideAdapt?)
    ensures var u := Step(s, e);
      && |u.requests| == |s.requests| && u.completed == s.completed
      && u.nextTask == s.nextTask + (if exists r :: Retried(e, r) then 1 else 0)
  {
    assert RequestInv(s, e.r);
    assert e.shouldRetry && e.creation == Created ==> Retried(e, e.r);
  }

  lemma StepAdds(s: State, e: Event)
    requires Inv(s) && Enabled(s, e) && (e.Begin? || e.BeginFailed?)
    ensures |Step(s, e).requests| == |s.requests| + 1
    ensures var q := Step(s, e).requests[|s.requests|];
      q.data == [] && q.totalBytesReceived == 0 && q.retryCount == 0 && (q.task.Some? ==> q.task.value == s.nextTask)
  {
  }

  /** What a request holds, in terms of what happened. The first `n` steps are those until its last
      attempt ended; while that is registered they are all. */
  ghost predicate Recalls(tr: seq<Event>, s: State, r: RequestId, n: nat)
    requires r < |s.requests|
  {
    var q := s.requests[r];
    && q.totalBytesReceived == |q.data|
    && q.retryCount == Retries(tr, r)
    && n <= |tr|
    && (q.task.Some? ==> RecallsTask(tr, s, q, q.task.value, n))
  }

  ghost predicate RecallsTask(tr: seq<Event>, s: State, q: Request, t: TaskId, n: nat)
    requires n <= |tr|
  {
    && q.data == Chunks(tr[..n], t)
    && (if t in s.registry then n == |tr| else CompletedIn(tr[..n], t))
    && (OrderlyFor(tr, t) ==> q.data == Chunks(tr, t))
  }

  /** Nothing has happened yet to what does not exist yet. */
  ghost predicate Fresh(tr: seq<Event>, s: State) {
    && (forall t :: t in s.completed <==> CompletedIn(tr, t))
    && (forall t :: t >= s.nextTask ==> Chunks(tr, t) == [])
    && (forall r :: r >= |s.requests| ==> Retries(tr, r) == 0)
  }

  lemma FreshStep(tr: seq<Event>, s: State, e: Event)
    requires Inv(s) && Enabled(s, e) && Fresh(tr, s)
    ensures Fresh(tr + [e], Step(s, e))
  {
    var u, tr' := Step(s, e), tr + [e];
    assert tr'[..|tr|] == tr;
    StepCounts(s, e);
    forall t ensures t in u.completed <==> CompletedIn(tr', t) {
      assert t in s.completed <==> CompletedIn(tr, t);
    }
    forall r | r >= |u.requests| ensures Retries(tr', r) == 0 {
      assert Retries(tr, r) == 0;
    }
  }

  /** A step that starts another attempt, or belongs to the one that is registered. */
  ghost predicate Extends(s: State, e: Event, r: RequestId)
    requires r < |s.requests|
  {
    Retried(e, r) || (s.requests[r].task.Some? && s.requests[r].task.value in s.registry)
  }

  lemma ChunksStep(tr: seq<Event>, e: Event, t: TaskId)
    ensures Chunks(tr + [e], t) == Chunks(tr, t) + if e.Receive? && e.t == t then e.chunk else []
    ensures OrderlyFor(tr + [e], t) <==> OrderlyFor(tr, t) && (e.Receive? && e.t == t ==> !CompletedIn(tr, t))
  {
    assert (tr + [e])[..|tr|] == tr;
  }

  lemma RecallLive(tr: seq<Event>, s: State, e: Event, r: RequestId, n: nat)
    requires Inv(s) && Enabled(s, e) && Fresh(tr, s) && r < |s.requests| && Recalls(tr, s, r, n) && Extends(s, e, r)
    ensures Touches(s, e, r, Step(s, e)) && Step(s, e).requests[r].task.Some?
    ensures Step(s, e).requests[r].data == Chunks(tr + [e], Step(s, e).requests[r].task.value)
  {
    StepTouches(s, e, r);
    var q := s.requests[r];
    if Retried(e, r) {
      ChunksStep(tr, e, s.nextTask);
    } else {
      ChunksStep(tr, e, q.task.value);
      assert tr[..n] == tr;
    }
  }

  lemma RecallEnded(tr: seq<Event>, s: State, e: Event, r: RequestId, n: nat)
    requires Inv(s) && Enabled(s, e) && Fresh(tr, s) && r < |s.requests| && Recalls(tr, s, r, n) && !Extends(s, e, r)
    ensures Touches(s, e, r, Step(s, e))
    ensures var q := Step(s, e).requests[r];
      q.task.Some? ==> RecallsTask(tr + [e], Step(s, e), q, q.task.value, n)
  {
    StepTouches(s, e, r);
    var q := s.requests[r];
    if q.task.Some? {
      ChunksStep(tr, e, q.task.value);
      assert RequestInv(s, r) && (tr + [e])[..n] == tr[..n];
      EndedStep(s, e, r);
    }
  }

  lemma RetriesStep(tr: seq<Event>, e: Event, r: RequestId)
    ensures Retries(tr + [e], r) == Retries(tr, r) + if Retried(e, r) then 1 else 0
  {
    assert (tr + [e])[..|tr|] == tr;
  }

  lemma UnregisteredIsCompleted(tr: seq<Event>, s: State, e: Event, r: RequestId)
    requires Inv(s) && Enabled(s, e) && Fresh(tr, s) && r < |Step(s, e).requests|
    ensures var u := Step(s, e);
      u.requests[r].task.Some? && u.requests[r].task.value !in u.registry ==>
        CompletedIn(tr + [e], u.requests[r].task.value)
  {
    StepKeepsRegistry(s, e);
    assert RequestInv(Step(s, e), r);
    FreshStep(tr, s, e);
  }

  lemma RecallStep(tr: seq<Event>, s: State, e: Event, r: RequestId, n: nat) returns (n': nat)
    requires Inv(s) && Enabled(s, e) && Fresh(tr, s) && r < |s.requests| && Recalls(tr, s, r, n)
    ensures |s.requests| <= |Step(s, e).requests| && Recalls(tr + [e], Step(s, e), r, n')
  {
    RetriesStep(tr, e, r);
    if Extends(s, e, r) {
      RecallLive(tr, s, e, r, n);
      n' := |tr| + 1;
      assert (tr + [e])[..n'] == tr + [e];
      UnregisteredIsCompleted(tr, s, e, r);
    } else {
      RecallEnded(tr, s, e, r, n);
      n' := n;
    }
  }

  lemma RecallNew(tr: seq<Event>, s: State, e: Event)
    requires Inv(s) && Enabled(s, e) && Fresh(tr, s) && (e.Begin? || e.BeginFailed?)
    ensures |Step(s, e).requests| == |s.requests| + 1 && Recalls(tr + [e], Step(s, e), |s.requests|, |tr| + 1)
  {
    assert (tr + [e])[..|tr| + 1] == tr + [e];
    StepAdds(s, e);
    RetriesStep(tr, e, |s.requests|);
    ChunksStep(tr, e, s.nextTask);
    UnregisteredIsCompleted(tr, s, e, |s.requests|);
  }

  lemma RecallAfter(tr: seq<Event>, s: State, e: Event, r: RequestId, n: nat) returns (n': nat)
    requires Inv(s) && Enabled(s, e) && Fresh(tr, s)
    requires r < |Step(s, e).requests| && (r < |s.requests| ==> Recalls(tr, s, r, n))
    ensures Recalls(tr + [e], Step(s, e), r, n')
  {
    if r < |s.requests| {
      n' := RecallStep(tr, s, e, r, n);
    } else {
      StepCounts(s, e);
      RecallNew(tr, s, e);
      n' := |tr| + 1;
    }
  }

  /** Over every run of attempts and retries, what a request holds depends only on its last attempt:
      its data are the chunks delivered for that attempt until it ended, in order and whatever else
      was delivered for older tasks; its byte count is their length; and it was retried as often as a
      new task was built for it. */
  lemma {:induction false} LastAttemptOnly(s0: State, tr: seq<Event>, t: State, r: RequestId) returns (n: nat)
    requires Initial(s0) && Run(s0, tr, t)
    ensures Fresh(tr, t) && (r < |t.requests| ==> Recalls(tr, t, r, n))
    decreases |tr|
  {
    n := 0;
    if tr != [] {
      var before, e := tr[..|tr| - 1], tr[|tr| - 1];
      var s := LastStep(s0, tr, t);
      n := LastAttemptOnly(s0, before, s, r);
      RunKeepsRegistry(s0, before, s);
      FreshStep(before, s, e);
      if r < |t.requests| {
        StepCounts(s, e);
        n := RecallAfter(before, s, e, r, n);
      }
    }
  }

  lemma RetiredStep(s: State, e: Event, t: TaskId)
    requires Inv(s) && Enabled(s, e) && t < s.nextTask && t !in s.registry
    ensures t < Step(s, e).nextTask && t !in Step(s, e).registry
  {
    StepCounts(s, e);
    if e.Decide? || e.DecideAdapt? { assert RequestInv(s, e.r); }
  }

  /** A task that has been handed out and has no request is out of use for good: whatever runs, no
      request is registered under it again and its chunks change nothing. */
  lemma {:induction false} LateChunkIsIgnored(s: State, tr: seq<Event>, u: State, t: TaskId, chunk: Data)
    requires Inv(s) && Run(s, tr, u) && t < s.nextTask && t !in s.registry
    ensures Wf(u) && t < u.nextTask && t !in u.registry && Step(u, Receive(t, chunk)) == u
    decreases |tr|
  {
    if tr != [] {
      var v := LastStep(s, tr, u);
      LateChunkIsIgnored(s, tr[..|tr| - 1], v, t, chunk);
      RunKeepsRegistry(s, tr[..|tr| - 1], v);
      RetiredStep(v, tr[|tr| - 1], t);
      StepKeepsRegistry(v, tr[|tr| - 1]);
    }
  }

  /** So are all tasks that a request has been retried from. */
  lemma RetryRetiresTask(s: State, r: RequestId)
    requires Inv(s) && r in s.pending
    ensures var t, u := s.pending[r].task, Step(s, Decide(r, true, Created));
      Inv(u) && t < u.nextTask && t !in u.registry
  {
    assert RequestInv(s, r);
    StepKeepsRegistry(s, Decide(r, true, Created));
  }

  // ---- what the caller and the retrier asked of a request ----

  function Begun(tr: seq<Event>): nat {
    if tr == [] then 0 else Begun(tr[..|tr| - 1]) + if tr[|tr| - 1].Begin? || tr[|tr| - 1].BeginFailed? then 1 else 0
  }

  /** The validations that the run added to a request. */
  function ValidationsOf(tr: seq<Event>, r: RequestId): seq<Validation> {
    if tr == [] then []
    else
      var e := tr[|tr| - 1];
      ValidationsOf(tr[..|tr| - 1], r) + if e.Validate? && e.r == r then [e.validation] else []
  }

  /** The error that a request without a task is left with: the one it began with, or the last failure
      to build a task for it. */
  function FailureOf(tr: seq<Event>, r: RequestId): Option<Error> {
    if tr == [] then None
    else
      var before := tr[..|tr| - 1];
      match tr[|tr| - 1]
      case BeginFailed(error, _, _) => if Begun(before) == r then Some(error) else FailureOf(before, r)
      case DecideAdapt(r', true, CreationFailed(error)) => if r' == r then Some(error) else FailureOf(before, r)
      case _ => FailureOf(before, r)
  }

  /** Whether the handlers of a request without a task have been released: by the caller, or, when
      requests start by themselves, at once if no retrier is asked and else when it brings no task. */
  predicate ReleasedIn(tr: seq<Event>, r: RequestId, hasRetrier: bool, startImmediately: bool) {
    tr != [] &&
    var before := tr[..|tr| - 1];
    || ReleasedIn(before, r, hasRetrier, startImmediately)
    || match tr[|tr| - 1]
       case Resume(r') => r' == r
       case BeginFailed(_, adapt, _) => Begun(before) == r && startImmediately && !(hasRetrier && adapt)
       case DecideAdapt(r', shouldRetry, creation) =>
         r' == r && startImmediately && !(shouldRetry && creation == Created)
       case _ => false
  }

  /** What a request holds is what was asked of it; of one that has not begun nothing was. */
  ghost predicate Obeys(tr: seq<Event>, s: State, r: RequestId) {
    && |s.requests| == Begun(tr)
    && (r >= |s.requests| ==>
          ValidationsOf(tr, r) == [] && !ReleasedIn(tr, r, s.hasRetrier, s.startImmediately))
    && (r < |s.requests| ==>
          && s.requests[r].validations == ValidationsOf(tr, r)
          && (s.requests[r].task == None ==>
                && s.requests[r].error == FailureOf(tr, r)
                && (!s.requests[r].suspended <==> ReleasedIn(tr, r, s.hasRetrier, s.startImmediately))))
  }

  lemma StepBegins(s: State, e: Event)
    requires Inv(s) && Enabled(s, e)
    ensures var u := Step(s, e);
      && |u.requests| == |s.requests| + (if e.Begin? || e.BeginFailed? then 1 else 0)
      && u.hasRetrier == s.hasRetrier && u.startImmediately == s.startImmediately
  {
    if e.Decide? || e.DecideAdapt? { assert RequestInv(s, e.r); }
  }

  lemma ObeysNew(tr: seq<Event>, s: State, e: Event, r: RequestId)
    requires Inv(s) && Enabled(s, e) && Obeys(tr, s, r) && r >= |s.requests|
    ensures Obeys(tr + [e], Step(s, e), r)
  {
    assert (tr + [e])[..|tr|] == tr;
    StepBegins(s, e);
  }

  lemma ObeysOther(tr: seq<Event>, s: State, e: Event, r: RequestId)
    requires Inv(s) && Enabled(s, e) && Obeys(tr, s, r) && r < |s.requests| && Subject(s, e) != Some(r)
    ensures Obeys(tr + [e], Step(s, e), r)
  {
    assert (tr + [e])[..|tr|] == tr;
    OthersUntouched(s, e, r);
    StepBegins(s, e);
  }

  lemma ObeysDecideAdapt(tr: seq<Event>, s: State, e: Event, r: RequestId)
    requires Inv(s) && Enabled(s, e) && Obeys(tr, s, r) && e.DecideAdapt? && e.r == r
    ensures Obeys(tr + [e], Step(s, e), r)
  {
    assert (tr + [e])[..|tr|] == tr && RequestInv(s, r);
    StepBegins(s, e);
  }

  lemma ObeysOwn(tr: seq<Event>, s: State, e: Event, r: RequestId)
    requires Inv(s) && Enabled(s, e) && Obeys(tr, s, r) && Subject(s, e) == Some(r)
    requires e.Validate? || e.Receive? || e.Resume?
    ensures Obeys(tr + [e], Step(s, e), r)
  {
    assert (tr + [e])[..|tr|] == tr && RequestInv(s, r);
    StepBegins(s, e);
  }

  /** The end of an attempt and the decision about it concern a request that has a task. */
  lemma ObeysAttempt(tr: seq<Event>, s: State, e: Event, r: RequestId)
    requires Inv(s) && Enabled(s, e) && Obeys(tr, s, r) && Subject(s, e) == Some(r) && (e.Complete? || e.Decide?)
    ensures Obeys(tr + [e], Step(s, e), r)
  {
    assert (tr + [e])[..|tr|] == tr && RequestInv(s, r);
    StepBegins(s, e);
    StepKeepsTask(s, e, r);
  }

  lemma StepKeepsTask(s: State, e: Event, r: RequestId)
    requires Inv(s) && Enabled(s, e) && Subject(s, e) == Some(r) && (e.Complete? || e.Decide?)
    ensures r < |s.requests| && r < |Step(s, e).requests| && Step(s, e).requests[r].task.Some?
    ensures Step(s, e).requests[r].validations == s.requests[r].validations
  {
    assert RequestInv(s, r);
  }

  /** Over every run: the validations of a request are those that the caller added, in order, across
      all retries. A request that has no task keeps the error of its last failure, and its handlers
      wait until the caller resumes it, or until it is clear that no task will come. */
  lemma {:induction false} RequestsObey(s0: State, tr: seq<Event>, t: State, r: RequestId)
    requires Initial(s0) && Run(s0, tr, t)
    ensures Obeys(tr, t, r)
    decreases |tr|
  {
    if tr != [] {
      var before, e := tr[..|tr| - 1], tr[|tr| - 1];
      var s := LastStep(s0, tr, t);
      RunKeepsRegistry(s0, before, s);
      RequestsObey(s0, before, s, r);
      if r >= |s.requests| {
        ObeysNew(before, s, e, r);
      } else if Subject(s, e) != Some(r) {
        ObeysOther(before, s, e, r);
      } else if e.DecideAdapt? {
        ObeysDecideAdapt(before, s, e, r);
      } else if e.Complete? || e.Decide? {
        ObeysAttempt(before, s, e, r);
      } else {
        ObeysOwn(before, s, e, r);
      }
    }
  }

  // ---- the error ----

  /** The first failure among the validations, in the order in which they were added. */
  function FirstFailure(validations: seq<Validation>, response: Response, data: Data): Option<Error> {
    if validations == [] then None
    else
      var v := validations[0](response, data);
      if v.Some? then v else FirstFailure(validations[1..], response, data)
  }

  /** What an attempt that starts without an error ends with. */
  function Verdict(validations: seq<Validation>, data: Data, response: Option<Response>, failure: Option<Error>):
      Option<Error>
  {
    var v := if response.None? then None else FirstFailure(validations, response.value, data);
    if v.Some? then v else failure
  }

  lemma {:induction false} FirstFailureAppend(vs: seq<Validation>, v: Validation, response: Response, data: Data)
    ensures FirstFailure(vs + [v], response, data)
         == if FirstFailure(vs, response, data).Some? then FirstFailure(vs, response, data) else v(response, data)
  {
    if vs != [] {
      assert (vs + [v])[1..] == vs[1..] + [v];
      FirstFailureAppend(vs[1..], v, response, data);
    }
  }

  lemma {:induction false} JudgedIsFirstFailure(q: Request, response: Option<Response>, n: nat)
    requires n <= |q.validations| && q.error.None?
    ensures Judged(q, response, n)
         == if response.None? then None else FirstFailure(q.validations[..n], response.value, q.data)
  {
    if n > 0 {
      JudgedIsFirstFailure(q, response, n - 1);
      if response.Some? {
        assert q.validations[..n] == q.validations[..n - 1] + [q.validations[n - 1]];
        FirstFailureAppend(q.validations[..n - 1], q.validations[n - 1], response.value, q.data);
      }
    }
  }

  /** An attempt starts without an error, and a decision is owed about the error that ended it. */
  ghost predicate ErrorInv(s: State, r: RequestId)
    requires r < |s.requests|
  {
    var q := s.requests[r];
    && (r in s.pending ==> q.error.None? || q.error == Some(s.pending[r].error))
    && (q.task.Some? && q.task.value in s.registry && r !in s.pending ==> q.error.None?)
  }

  lemma ErrorComplete(s: State, e: Event, r: RequestId)
    requires Inv(s) && Enabled(s, e) && e.Complete? && r < |s.requests| && ErrorInv(s, r) && Subject(s, e) == Some(r)
    ensures r < |Step(s, e).requests| && ErrorInv(Step(s, e), r)
  {
    assert RequestInv(s, r);
  }

  lemma ErrorDecide(s: State, e: Event, r: RequestId)
    requires Inv(s) && Enabled(s, e) && e.Decide? && r < |s.requests| && ErrorInv(s, r) && Subject(s, e) == Some(r)
    ensures r < |Step(s, e).requests| && ErrorInv(Step(s, e), r)
  {
    assert RequestInv(s, r);
  }

  lemma ErrorDecideAdapt(s: State, e: Event, r: RequestId)
    requires Inv(s) && Enabled(s, e) && e.DecideAdapt? && r < |s.requests| && ErrorInv(s, r) && Subject(s, e) == Some(r)
    ensures r < |Step(s, e).requests| && ErrorInv(Step(s, e), r)
  {
    assert RequestInv(s, r);
  }

  lemma ErrorStep(s: State, e: Event, r: RequestId)
    requires Inv(s) && Enabled(s, e) && r < |s.requests| && ErrorInv(s, r)
    ensures r < |Step(s, e).requests| && ErrorInv(Step(s, e), r)
  {
    if Subject(s, e) != Some(r) {
      OthersUntouched(s, e, r);
    } else {
      match e
      case Complete(_, _, _) => ErrorComplete(s, e, r);
      case Decide(_, _, _) => ErrorDecide(s, e, r);
      case DecideAdapt(_, _, _) => ErrorDecideAdapt(s, e, r);
      case _ =>
    }
  }

  lemma {:induction false} RunKeepsErrors(s0: State, tr: seq<Event>, t: State, r: RequestId)
    requires Initial(s0) && Run(s0, tr, t) && r < |t.requests|
    ensures ErrorInv(t, r)
    decreases |tr|
  {
    if tr != [] {
      var s := LastStep(s0, tr, t);
      RunKeepsRegistry(s0, tr[..|tr| - 1], s);
      if r < |s.requests| {
        RunKeepsErrors(s0, tr[..|tr| - 1], s, r);
        ErrorStep(s, tr[|tr| - 1], r);
      } else {
        ErrorStart(s, tr[|tr| - 1], r);
      }
    }
  }

  lemma ErrorStart(s: State, e: Event, r: RequestId)
    requires Inv(s) && Enabled(s, e) && |s.requests| <= r < |Step(s, e).requests|
    ensures ErrorInv(Step(s, e), r)
  {
    StepCounts(s, e);
  }

  lemma AttemptVerdict(q: Request, response: Option<Response>, failure: Option<Error>)
    requires q.error.None?
    ensures var error := Validated(q, response).error;
      Verdict(q.validations, q.data, response, failure) == if error.Some? then error else failure
  {
    JudgedIsFirstFailure(q, response, |q.validations|);
    assert q.validations[..|q.validations|] == q.validations;
  }

  /** The attempt that is registered has gathered the chunks of its task, and its validations are those
      that were added to the request. */
  lemma Gathered(s0: State, tr: seq<Event>, s: State, t: TaskId)
    requires Initial(s0) && Run(s0, tr, s) && t in s.registry
    ensures s.registry[t] < |s.requests| && s.requests[s.registry[t]].data == Chunks(tr, t)
    ensures s.requests[s.registry[t]].validations == ValidationsOf(tr, s.registry[t])
  {
    RunKeepsRegistry(s0, tr, s);
    RequestsObey(s0, tr, s, s.registry[t]);
    var n := LastAttemptOnly(s0, tr, s, s.registry[t]);
    assert tr[..|tr|] == tr;
  }

  /** When a registered attempt completes, its error is the first failure among all validations that
      the run added to its request, shown the response and the chunks of its task, else the
      transport error. The retrier is asked about an error; without a retrier or an error the request
      ends with the verdict and its response handlers may run. */
  lemma CompletionIsJudged(s0: State, tr: seq<Event>, s: State, t: TaskId, response: Option<Response>,
      failure: Option<Error>)
    requires Initial(s0) && Run(s0, tr, s) && Wf(s) && Enabled(s, Complete(t, response, failure)) && t in s.registry
    ensures var r, u := s.registry[t], Step(s, Complete(t, response, failure));
      var verdict := Verdict(ValidationsOf(tr, r), Chunks(tr, t), response, failure);
      if s.hasRetrier && verdict.Some? then
        r in u.pending && u.pending[r] == Decision(t, verdict.value) && t in u.registry
      else
        |u.requests| == |s.requests| && u.requests[r].error == verdict && !u.requests[r].suspended && t !in u.registry
  {
    var r := s.registry[t];
    RunKeepsRegistry(s0, tr, s);
    assert RequestInv(s, r);
    RunKeepsErrors(s0, tr, s, r);
    Gathered(s0, tr, s, t);
    AttemptVerdict(s.requests[r], response, failure);
    AttemptEnds(s, t, response, failure);
  }

  /** What a completion does with the error that the validations left, or the transport error. */
  lemma AttemptEnds(s: State, t: TaskId, response: Option<Response>, failure: Option<Error>)
    requires Inv(s) && Enabled(s, Complete(t, response, failure)) && t in s.registry
    ensures var r, u := s.registry[t], Step(s, Complete(t, response, failure));
      var judged := Validated(s.requests[r], response).error;
      var error := if judged.Some? then judged else failure;
      if s.hasRetrier && error.Some? then
        r in u.pending && u.pending[r] == Decision(t, error.value) && t in u.registry
      else
        |u.requests| == |s.requests| && u.requests[r].error == error && !u.requests[r].suspended && t !in u.registry
  {
  }

  /** However long the retrier takes, and whatever else happens in between, the decision is about the
      same attempt with the same verdict. */
  lemma {:induction false} DecisionIsKept(s: State, tr: seq<Event>, u: State, r: RequestId)
    requires Inv(s) && r in s.pending && Run(s, tr, u)
    requires forall e <- tr :: !(e.Decide? && e.r == r)
    ensures r in u.pending && u.pending[r] == s.pending[r]
    decreases |tr|
  {
    if tr != [] {
      var v := LastStep(s, tr, u);
      RunKeepsRegistry(s, tr[..|tr| - 1], v);
      DecisionIsKept(s, tr[..|tr| - 1], v, r);
      assert tr[|tr| - 1] in tr;
      KeepsDecision(v, tr[|tr| - 1], r);
    }
  }

  lemma KeepsDecision(s: State, e: Event, r: RequestId)
    requires Inv(s) && Enabled(s, e) && r in s.pending && !(e.Decide? && e.r == r)
    ensures r in Step(s, e).pending && Step(s, e).pending[r] == s.pending[r]
  {
    assert RequestInv(s, r);
    if Subject(s, e) != Some(r) { OthersUntouched(s, e, r); }
  }

  /** The answer: without a retry the request ends with the verdict; when building the new task fails
      it ends with that failure instead; after a successful retry nothing of the attempt is left. */
  lemma DecisionEnds(s0: State, tr: seq<Event>, s: State, r: RequestId, shouldRetry: bool, creation: Creation)
    requires Initial(s0) && Run(s0, tr, s) && Wf(s) && r in s.pending
    ensures var d, u := s.pending[r], Step(s, Decide(r, shouldRetry, creation));
      |u.requests| == |s.requests| && r !in u.pending && d.task !in u.registry
      && if shouldRetry && creation == Created then
           && NewAttempt(s.requests[r], u.requests[r], s.nextTask)
           && s.nextTask in u.registry && u.registry[s.nextTask] == r
         else
           u.requests[r].error == Some(if shouldRetry then creation.error else d.error) && !u.requests[r].suspended
  {
    RunKeepsRegistry(s0, tr, s);
    assert RequestInv(s, r);
    RunKeepsErrors(s0, tr, s, r);
  }

  ghost predicate Ended(s: State, r: RequestId) {
    r < |s.requests| && s.requests[r].task.Some? && s.requests[r].task.value !in s.registry
  }

  /** A request that has ended keeps its error, its data and its task. */
  lemma {:induction false} EndedForGood(s: State, tr: seq<Event>, u: State, r: RequestId)
    requires Inv(s) && Run(s, tr, u) && Ended(s, r)
    ensures Ended(u, r) && SameAttempt(s.requests[r], u.requests[r])
    ensures u.requests[r].error == s.requests[r].error && !u.requests[r].suspended
    decreases |tr|
  {
    assert RequestInv(s, r);
    if tr != [] {
      var v := LastStep(s, tr, u);
      var e := tr[|tr| - 1];
      RunKeepsRegistry(s, tr[..|tr| - 1], v);
      EndedForGood(s, tr[..|tr| - 1], v, r);
      EndedStep(v, e, r);
    }
  }

  lemma EndedStep(s: State, e: Event, r: RequestId)
    requires Inv(s) && Enabled(s, e) && Ended(s, r)
    ensures Ended(Step(s, e), r) && SameAttempt(s.requests[r], Step(s, e).requests[r])
    ensures Step(s, e).requests[r].error == s.requests[r].error
    ensures !Step(s, e).requests[r].suspended
  {
    assert RequestInv(s, r);
    if Subject(s, e) != Some(r) { OthersUntouched(s, e, r); }
  }

  /** `v` is what the last completion of an attempt of `r` came to, on task `task`: its verdict, or the
      failure to build a task for the retry that was to follow it. */
  ghost predicate LastVerdict(s0: State, tr: seq<Event>, r: RequestId, task: TaskId, v: Option<Error>)
    decreases |tr|, 0
  {
    tr != [] &&
    var before, e := tr[..|tr| - 1], tr[|tr| - 1];
    exists s :: Run(s0, before, s) && Wf(s) && VerdictStep(s0, before, s, e, r, task, v)
  }

  ghost predicate VerdictStep(s0: State, before: seq<Event>, s: State, e: Event, r: RequestId, task: TaskId,
      v: Option<Error>)
    requires Wf(s)
    decreases |before|, 1
  {
    if e.Complete? && e.t in s.registry && s.registry[e.t] == r then
      task == e.t && v == Verdict(ValidationsOf(before, r), Chunks(before, e.t), e.response, e.failure)
    else if e.Decide? && e.r == r && e.shouldRetry && e.creation.CreationFailed? then
      v == Some(e.creation.error) && r < |s.requests| && s.requests[r].task == Some(task)
    else LastVerdict(s0, before, r, task, v)
  }

  lemma VerdictOf(s0: State, tr: seq<Event>, s: State, r: RequestId, task: TaskId, v: Option<Error>)
    requires tr != [] && Run(s0, tr[..|tr| - 1], s) && Wf(s)
    requires VerdictStep(s0, tr[..|tr| - 1], s, tr[|tr| - 1], r, task, v)
    ensures LastVerdict(s0, tr, r, task, v)
  {
  }

  /** An ended request carries the last verdict, and a decision is owed about it. */
  ghost predicate Carries(s0: State, tr: seq<Event>, s: State, r: RequestId)
    requires r < |s.requests|
  {
    var q := s.requests[r];
    && (r in s.pending ==> LastVerdict(s0, tr, r, s.pending[r].task, Some(s.pending[r].error)))
    && (Ended(s, r) ==> LastVerdict(s0, tr, r, q.task.value, q.error))
  }

  lemma CarriesComplete(s0: State, tr: seq<Event>, s: State, r: RequestId)
    requires tr != [] && Initial(s0) && Run(s0, tr[..|tr| - 1], s) && Wf(s) && Enabled(s, tr[|tr| - 1])
    requires tr[|tr| - 1].Complete? && Subject(s, tr[|tr| - 1]) == Some(r)
    ensures r < |Step(s, tr[|tr| - 1]).requests| && Carries(s0, tr, Step(s, tr[|tr| - 1]), r)
  {
    var e := tr[|tr| - 1];
    RunKeepsRegistry(s0, tr[..|tr| - 1], s);
    CompletionIsJudged(s0, tr[..|tr| - 1], s, e.t, e.response, e.failure);
    VerdictOf(s0, tr, s, r, e.t,
              Verdict(ValidationsOf(tr[..|tr| - 1], r), Chunks(tr[..|tr| - 1], e.t), e.response, e.failure));
    CompletionIsAbout(s, e, r);
  }

  lemma CompletionIsAbout(s: State, e: Event, r: RequestId)
    requires Inv(s) && Enabled(s, e) && e.Complete? && Subject(s, e) == Some(r)
    ensures var u := Step(s, e);
      r < |u.requests| && u.requests[r].task == Some(e.t) && (r in u.pending <==> e.t in u.registry)
  {
    assert RequestInv(s, r);
  }

  lemma CarriesDecide(s0: State, tr: seq<Event>, s: State, r: RequestId)
    requires tr != [] && Initial(s0) && Run(s0, tr[..|tr| - 1], s) && Wf(s) && Enabled(s, tr[|tr| - 1])
    requires tr[|tr| - 1].Decide? && tr[|tr| - 1].r == r && Carries(s0, tr[..|tr| - 1], s, r)
    ensures r < |Step(s, tr[|tr| - 1]).requests| && Carries(s0, tr, Step(s, tr[|tr| - 1]), r)
  {
    var e, d := tr[|tr| - 1], s.pending[r];
    RunKeepsRegistry(s0, tr[..|tr| - 1], s);
    assert RequestInv(s, r);
    DecisionEnds(s0, tr[..|tr| - 1], s, r, e.shouldRetry, e.creation);
    StepTouches(s, e, r);
    if !Retried(e, r) {
      VerdictOf(s0, tr, s, r, d.task, Some(if e.shouldRetry then e.creation.error else d.error));
    }
  }

  /** Any other step leaves an ended request and an owed decision as they are, and makes no new ones. */
  lemma OthersKeepVerdict(s: State, e: Event, r: RequestId)
    requires Inv(s) && Enabled(s, e) && r < |s.requests|
    requires !(e.Complete? && Subject(s, e) == Some(r)) && !(e.Decide? && e.r == r)
    ensures var t := Step(s, e);
      && r < |t.requests|
      && (r in t.pending ==> r in s.pending && t.pending[r] == s.pending[r])
      && (Ended(t, r) ==> Ended(s, r) && t.requests[r].task == s.requests[r].task
                          && t.requests[r].error == s.requests[r].error)
  {
    assert RequestInv(s, r);
    if Subject(s, e) != Some(r) { OthersUntouched(s, e, r); }
  }

  lemma CarriesOther(s0: State, tr: seq<Event>, s: State, r: RequestId)
    requires tr != [] && Initial(s0) && Run(s0, tr[..|tr| - 1], s) && Wf(s) && Enabled(s, tr[|tr| - 1])
    requires r < |s.requests| && Carries(s0, tr[..|tr| - 1], s, r)
    requires !(tr[|tr| - 1].Complete? && Subject(s, tr[|tr| - 1]) == Some(r))
    requires !(tr[|tr| - 1].Decide? && tr[|tr| - 1].r == r)
    ensures r < |Step(s, tr[|tr| - 1]).requests| && Carries(s0, tr, Step(s, tr[|tr| - 1]), r)
  {
    var before, e := tr[..|tr| - 1], tr[|tr| - 1];
    RunKeepsRegistry(s0, before, s);
    OthersKeepVerdict(s, e, r);
    if r in s.pending && LastVerdict(s0, before, r, s.pending[r].task, Some(s.pending[r].error)) {
      VerdictOf(s0, tr, s, r, s.pending[r].task, Some(s.pending[r].error));
    }
    if Ended(s, r) { VerdictOf(s0, tr, s, r, s.requests[r].task.value, s.requests[r].error); }
  }

  lemma CarriesNew(s0: State, tr: seq<Event>, s: State, e: Event, r: RequestId)
    requires Inv(s) && Enabled(s, e) && |s.requests| <= r < |Step(s, e).requests|
    ensures Carries(s0, tr, Step(s, e), r)
  {
    StepCounts(s, e);
  }

  lemma {:induction false} RunCarries(s0: State, tr: seq<Event>, t: State, r: RequestId)
    requires Initial(s0) && Run(s0, tr, t) && r < |t.requests|
    ensures Carries(s0, tr, t, r)
    decreases |tr|
  {
    if tr != [] {
      var e := tr[|tr| - 1];
      var s := LastStep(s0, tr, t);
      RunKeepsRegistry(s0, tr[..|tr| - 1], s);
      if r >= |s.requests| {
        CarriesNew(s0, tr, s, e, r);
      } else {
        RunCarries(s0, tr[..|tr| - 1], s, r);
        if e.Complete? && Subject(s, e) == Some(r) {
          CarriesComplete(s0, tr, s, r);
        } else if e.Decide? && e.r == r {
          CarriesDecide(s0, tr, s, r);
        } else {
          CarriesOther(s0, tr, s, r);
        }
      }
    }
  }

  /** Over every run: the error of a request that has ended is the verdict on its last attempt, the
      first failing validation else the transport error, unless building the task for a retry failed
      after it; then it is that failure. */
  lemma EndedWithLastVerdict(s0: State, tr: seq<Event>, t: State, r: RequestId)
    requires Initial(s0) && Run(s0, tr, t) && Ended(t, r)
    ensures LastVerdict(s0, tr, r, t.requests[r].task.value, t.requests[r].error)
  {
    RunCarries(s0, tr, t, r);
  }

  // ---- the response handlers ----

  /** An attempt is registered, or the retrier has yet to answer about a failed adaptation. */
  ghost predicate Open(s: State, r: RequestId)
    requires r < |s.requests|
  {
    (s.requests[r].task.Some? && s.requests[r].task.value in s.registry) || r in s.adapting
  }

  /** The caller resumed the request while the retrier had yet to answer about its adaptation. */
  ghost predicate ResumedEarly(s0: State, tr: seq<Event>, r: RequestId)
    decreases |tr|
  {
    tr != [] &&
    var before := tr[..|tr| - 1];
    ResumedEarly(s0, before, r) || (tr[|tr| - 1] == Resume(r) && exists s :: Run(s0, before, s) && r in s.adapting)
  }

  lemma {:induction false} RunIsDetermined(s0: State, tr: seq<Event>, s: State, t: State)
    requires Run(s0, tr, s) && Run(s0, tr, t)
    ensures s == t
    decreases |tr|
  {
    if tr != [] {
      var s' := LastStep(s0, tr, s);
      var t' := LastStep(s0, tr, t);
      RunIsDetermined(s0, tr[..|tr| - 1], s', t');
    }
  }

  ghost predicate StaysOpen(s: State, e: Event, r: RequestId, u: State)
    requires r < |s.requests|
  {
    && r < |u.requests|
    && (Open(u, r) ==>
          && Open(s, r)
          && u.requests[r].suspended == (s.requests[r].suspended && !(e == Resume(r) && r in s.adapting)))
  }

  lemma OpenDecided(s: State, e: Event, r: RequestId)
    requires Inv(s) && Enabled(s, e) && (e.Decide? || e.DecideAdapt?) && r < |s.requests| && Subject(s, e) == Some(r)
    ensures StaysOpen(s, e, r, Step(s, e))
  {
    assert RequestInv(s, r);
  }

  lemma OpenCompleted(s: State, e: Event, r: RequestId)
    requires Inv(s) && Enabled(s, e) && e.Complete? && r < |s.requests| && Subject(s, e) == Some(r)
    ensures StaysOpen(s, e, r, Step(s, e))
  {
    assert RequestInv(s, r);
  }

  /** A step never suspends the handlers of an open request, and only an early resume releases them. */
  lemma OpenStep(s: State, e: Event, r: RequestId)
    requires Inv(s) && Enabled(s, e) && r < |s.requests|
    ensures StaysOpen(s, e, r, Step(s, e))
  {
    assert RequestInv(s, r);
    if Subject(s, e) != Some(r) {
      OthersUntouched(s, e, r);
    } else {
      match e
      case Complete(_, _, _) => OpenCompleted(s, e, r);
      case Decide(_, _, _) => OpenDecided(s, e, r);
      case DecideAdapt(_, _, _) => OpenDecided(s, e, r);
      case _ =>
    }
  }

  lemma OpenStart(s: State, e: Event)
    requires Inv(s) && Enabled(s, e) && (e.Begin? || e.BeginFailed?)
    ensures |Step(s, e).requests| == |s.requests| + 1
    ensures Open(Step(s, e), |s.requests|) ==> Step(s, e).requests[|s.requests|].suspended
  {
  }

  lemma {:induction false} NotResumedBeforeBegin(s0: State, tr: seq<Event>, t: State, r: RequestId)
    requires Initial(s0) && Run(s0, tr, t) && r >= |t.requests|
    ensures !ResumedEarly(s0, tr, r)
    decreases |tr|
  {
    if tr != [] {
      var s := LastStep(s0, tr, t);
      RunKeepsRegistry(s0, tr[..|tr| - 1], s);
      StepCounts(s, tr[|tr| - 1]);
      NotResumedBeforeBegin(s0, tr[..|tr| - 1], s, r);
    }
  }

  /** Across all attempts and retries the response handlers of an open request stay suspended, exactly
      when the caller did not resume it while a decision about its adaptation was open. */
  lemma {:induction false} SuspendedWhileOpen(s0: State, tr: seq<Event>, t: State, r: RequestId)
    requires Initial(s0) && Run(s0, tr, t) && r < |t.requests| && Open(t, r)
    ensures t.requests[r].suspended <==> !ResumedEarly(s0, tr, r)
    decreases |tr|
  {
    if tr != [] {
      var before, e := tr[..|tr| - 1], tr[|tr| - 1];
      var s := LastStep(s0, tr, t);
      RunKeepsRegistry(s0, before, s);
      StepCounts(s, e);
      if r < |s.requests| {
        OpenStep(s, e, r);
        SuspendedWhileOpen(s0, before, s, r);
        EarlyStep(s0, tr, s, r);
      } else {
        OpenStart(s, e);
        NotResumedBeforeBegin(s0, before, s, r);
      }
    }
  }

  lemma EarlyStep(s0: State, tr: seq<Event>, s: State, r: RequestId)
    requires tr != [] && Run(s0, tr[..|tr| - 1], s)
    ensures ResumedEarly(s0, tr, r)
       <==> ResumedEarly(s0, tr[..|tr| - 1], r) || (tr[|tr| - 1] == Resume(r) && r in s.adapting)
  {
    if tr[|tr| - 1] == Resume(r) && (exists s' :: Run(s0, tr[..|tr| - 1], s') && r in s'.adapting) {
      var s' :| Run(s0, tr[..|tr| - 1], s') && r in s'.adapting;
      RunIsDetermined(s0, tr[..|tr| - 1], s, s');
    }
  }

  lemma Then(s0: State, tr: seq<Event>, s: State, e: Event)
    requires Run(s0, tr, s) && Wf(s) && Enabled(s, e)
    ensures Run(s0, tr + [e], Step(s, e))
  {
    assert (tr + [e])[..|tr|] == tr;
  }

  lemma AdaptationFailed(s0: State, error: Error) returns (s: State)
    requires Initial(s0) && s0.hasRetrier
    ensures Wf(s0) && s == Step(s0, BeginFailed(error, true, true)) && Wf(s)
    ensures s.requests == [Request(true, None, Some(error), [], 0, true, [], 0)]
    ensures s.adapting == {0} && s.registry == s0.registry && s.nextTask == 0
  {
    s := DoBeginFailed(s0, error, true, true);
  }

  lemma ResumedWhileAdapting(s: State)
    requires Wf(s) && |s.requests| == 1 && s.requests[0].task == None
    ensures var u := Step(s, Resume(0));
      Wf(u) && u == s.(requests := [s.requests[0].(suspended := false)])
  {
  }

  lemma EarlyResumeState(s0: State, error: Error) returns (s: State)
    requires Initial(s0) && s0.hasRetrier
    ensures Run(s0, [] + [BeginFailed(error, true, true)] + [Resume(0)], s) && Wf(s)
    ensures |s.requests| == 1 && s.adapting == {0} && s.registry.Keys == {} && s.nextTask == 0
    ensures s.requests[0].hasOriginalTask && s.requests[0].task == None && !s.requests[0].suspended
  {
    var s1 := AdaptationFailed(s0, error);
    Then(s0, [], s0, BeginFailed(error, true, true));
    ResumedWhileAdapting(s1);
    Then(s0, [] + [BeginFailed(error, true, true)], s1, Resume(0));
    s := s1.(requests := [s1.requests[0].(suspended := false)]);
  }

  /** Such a caller sees its handlers run while the retried task is still under way. */
  lemma EarlyResumeExample(s0: State, error: Error) returns (t: State)
    requires Initial(s0) && s0.hasRetrier
    ensures Run(s0, [] + [BeginFailed(error, true, true)] + [Resume(0)] + [DecideAdapt(0, true, Created)], t)
    ensures |t.requests| == 1 && Open(t, 0) && !t.requests[0].suspended
  {
    var s := EarlyResumeState(s0, error);
    Then(s0, [] + [BeginFailed(error, true, true)] + [Resume(0)], s, DecideAdapt(0, true, Created));
    t := Step(s, DecideAdapt(0, true, Created));
  }
}
