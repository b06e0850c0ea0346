/** Data requests, their delegates and the session that registers them, updated in place. Each method
    of `Session` is one callback and is proved to do what the matching event of `RetryProtocol` does. */
module AlamofireSession {
  import opened Basics
  import opened RetryProtocol
  import opened RetryTheorems

  class DataTaskDelegate {
    const owner: RequestId
    var task: Option<TaskId>
    var error: Option<Error>
    var mutableData: Data
    var totalBytesReceived: nat
    var queueIsSuspended: bool

    constructor (owner: RequestId, task: Option<TaskId>, error: Option<Error>)
      ensures this.owner == owner && this.task == task && this.error == error
      ensures mutableData == [] && totalBytesReceived == 0 && queueIsSuspended
    {
      this.owner, this.task, this.error := owner, task, error;
      mutableData, totalBytesReceived, queueIsSuspended := [], 0, true;
    }

    method SetTask(t: TaskId)
      modifies this
      ensures task == Some(t) && error == None && mutableData == [] && totalBytesReceived == 0
      ensures queueIsSuspended == old(queueIsSuspended)
    {
      task := Some(t);
      Reset();
    }

    method Reset()
      modifies `error, `mutableData, `totalBytesReceived
      ensures error == None && mutableData == [] && totalBytesReceived == 0
    {
      error := None;
      totalBytesReceived := 0;
      mutableData := [];
    }

    method DidReceive(data: Data)
      modifies `mutableData, `totalBytesReceived
      ensures mutableData == old(mutableData) + data && totalBytesReceived == old(totalBytesReceived) + |data|
    {
      mutableData := mutableData + data;
      var bytesReceived := |data|;
      totalBytesReceived := totalBytesReceived + bytesReceived;
    }

    method DidComplete(failure: Option<Error>)
      modifies `error, `queueIsSuspended
      ensures error == if old(error).None? then failure else old(error)
      ensures !queueIsSuspended
    {
      if failure.Some? {
        if error == None { error := failure; }
      }
      queueIsSuspended := false;
    }
  }

  class DataRequest {
    const id: RequestId
    const delegate: DataTaskDelegate
    const hasOriginalTask: bool
    var validations: seq<Validation>
    var retryCount: nat

    ghost function View(): Request
      reads this, delegate
    {
      Request(hasOriginalTask, delegate.task, delegate.error, delegate.mutableData, delegate.totalBytesReceived,
              delegate.queueIsSuspended, validations, retryCount)
    }

    constructor (id: RequestId, hasOriginalTask: bool, task: Option<TaskId>, error: Option<Error>)
      ensures this.id == id && delegate.owner == id && fresh(delegate)
      ensures View() == Request(hasOriginalTask, task, error, [], 0, true, [], 0)
    {
      this.id, this.hasOriginalTask := id, hasOriginalTask;
      validations, retryCount := [], 0;
      delegate := new DataTaskDelegate(id, task, error);
    }

    method Validate(validation: Validation)
      modifies this
      ensures View() == old(View()).(validations := old(View()).validations + [validation])
    {
      validations := validations + [validation];
    }

    /** Runs the validations in order; each looks at the error that the earlier ones left. */
    method RunValidations(response: Option<Response>)
      modifies delegate
      ensures View() == Validated(old(View()), response)
    {
      ghost var q := View();
      for i := 0 to |validations|
        invariant View() == q.(error := Judged(q, response, i))
      {
        if response.Some? && delegate.error == None {
          var failure := validations[i](response.value, delegate.mutableData);
          if failure.Some? { delegate.error := failure; }
        }
      }
    }

    method Resume()
      modifies delegate
      ensures View() == Resumed(old(View()))
    {
      if delegate.task == None { delegate.queueIsSuspended := false; }
    }
  }

  ghost function Objects(rs: seq<DataRequest>): set<object> {
    (set r | r in rs :: r as object) + (set r | r in rs :: r.delegate as object)
  }

  ghost function Snapshot(rs: seq<DataRequest>): seq<Request>
    reads Objects(rs)
  {
    seq(|rs|, i requires 0 <= i < |rs| reads Objects(rs) => var r := rs[i]; assert r in rs; r.View())
  }

  class Session {
    const hasRetrier: bool
    const startImmediately: bool
    var all: seq<DataRequest>
    var requests: map<TaskId, DataRequest>
    var pending: map<RequestId, Decision>
    var adapting: set<RequestId>
    var completed: set<TaskId>
    var nextTask: TaskId

    ghost function Repr(): set<object>
      reads `all
    {
      Objects(all)
    }

    ghost function Views(): seq<Request>
      reads `all, Repr()
    {
      Snapshot(all)
    }

    ghost function Registry(): map<TaskId, RequestId>
      reads `requests
    {
      map t | t in requests :: requests[t].id
    }

    ghost function View(): State
      reads this, Repr()
    {
      State(hasRetrier, startImmediately, Views(), Registry(), pending, adapting, completed, nextTask)
    }

    /** The requests are distinct objects, and the registry holds only them. */
    ghost predicate Consistent()
      reads this
    {
      && (forall i :: 0 <= i < |all| ==> all[i].id == i && all[i].delegate.owner == i)
      && (forall t <- requests :: requests[t].id < |all| && all[requests[t].id] == requests[t])
    }

    ghost predicate Valid()
      reads this, Repr()
    {
      Consistent() && Wf(View())
    }

    constructor (hasRetrier: bool, startImmediately: bool)
      ensures Valid() && Initial(View()) && View().hasRetrier == hasRetrier &&
        View().startImmediately == startImmediately
    {
      this.hasRetrier, this.startImmediately := hasRetrier, startImmediately;
      all, requests, pending, adapting, completed, nextTask := [], map[], map[], {}, {}, 0;
    }

    /** Updating the objects of one request changes one place of the view. */
    twostate lemma OneChanged(i: nat)
      requires old(Consistent()) && i < |old(all)|
      requires unchanged(this)
      requires forall j :: 0 <= j < |all| && j != i ==> unchanged(all[j]) && unchanged(all[j].delegate)
      ensures Views() == old(Views())[i := all[i].View()]
    {
    }

    /** `completeTask` of the session's delegate. */
    method FinishTask(t: TaskId, failure: Option<Error>)
      requires Valid()
      modifies this, Repr()
      ensures Valid() && all == old(all) && View() == CompleteTask(old(View()), t, failure)
    {
      if t in requests {
        var request := requests[t];
        request.delegate.DidComplete(failure);
        OneChanged(request.id);
        assert Views() == CompleteTask(old(View()), t, failure).requests;
        Unregister(t);
      }
    }

    ghost predicate Has(request: DataRequest)
      reads `all
    {
      request.id < |all| && all[request.id] == request
    }

    method Add(hasOriginalTask: bool, task: Option<TaskId>, error: Option<Error>, suspended: bool)
      returns (request: DataRequest)
      requires Valid() && (task.Some? ==> suspended)
      modifies `all
      ensures Valid() && fresh(Repr() - old(Repr())) && Has(request) && request.id == |old(all)|
      ensures var q := Request(hasOriginalTask, task, error, [], 0, suspended, [], 0);
        request.View() == q && View() == old(View()).(requests := old(View()).requests + [q])
    {
      request := new DataRequest(|all|, hasOriginalTask, task, error);
      if !suspended { request.Resume(); }
      all := all + [request];
      assert Registry() == old(Registry());
      assert Views() == old(Views()) + [request.View()];
    }

    method Register(request: DataRequest, task: TaskId)
      requires Valid() && Has(request)
      modifies `requests
      ensures Valid() && View() == old(View()).(registry := old(View()).registry[task := request.id])
    {
      requests := requests[task := request];
      assert Registry() == old(Registry())[task := request.id];
      assert Views() == old(Views());
    }

    method Unregister(task: TaskId)
      requires Valid()
      modifies `requests
      ensures Valid() && View() == old(View()).(registry := old(View()).registry - {task})
    {
      requests := requests - {task};
      assert Registry() == old(Registry()) - {task};
      assert Views() == old(Views());
    }

    method TakeDecision(id: RequestId) returns (decision: Decision)
      requires Valid() && id in pending
      modifies `pending
      ensures Valid() && decision == old(pending)[id] && View() == old(View()).(pending := old(View()).pending - {id})
    {
      decision := pending[id];
      pending := pending - {id};
      assert Views() == old(Views()) && Registry() == old(Registry());
    }

    method AskRetrier(id: RequestId, decision: Decision)
      requires Valid() && id < |all|
      modifies `pending
      ensures Valid() && View() == old(View()).(pending := old(View()).pending[id := decision])
    {
      pending := pending[id := decision];
      assert Views() == old(Views()) && Registry() == old(Registry());
    }

    method AwaitAdaptation(id: RequestId)
      requires Valid() && id < |all|
      modifies `adapting
      ensures Valid() && View() == old(View()).(adapting := old(View()).adapting + {id})
    {
      adapting := adapting + {id};
      assert Views() == old(Views()) && Registry() == old(Registry());
    }

    method TakeAdaptation(id: RequestId)
      requires Valid()
      modifies `adapting
      ensures Valid() && View() == old(View()).(adapting := old(View()).adapting - {id})
    {
      adapting := adapting - {id};
      assert Views() == old(Views()) && Registry() == old(Registry());
    }

    method MarkCompleted(t: TaskId)
      requires Valid()
      modifies `completed
      ensures Valid() && View() == old(View()).(completed := old(View()).completed + {t})
    {
      completed := completed + {t};
      assert Views() == old(Views()) && Registry() == old(Registry());
    }

    method NextTask() returns (task: TaskId)
      requires Valid()
      modifies `nextTask
      ensures Valid() && task == old(nextTask) && View() == old(View()).(nextTask := task + 1)
    {
      task := nextTask;
      nextTask := nextTask + 1;
      assert Views() == old(Views()) && Registry() == old(Registry());
    }

    /** The two assignments through the registry's subscript. */
    method Reregister(request: DataRequest, oldTask: Option<TaskId>, task: TaskId)
      requires Valid() && Has(request)
      modifies `requests
      ensures Valid()
      ensures var registry := if oldTask.Some? then old(View()).registry - {oldTask.value} else old(View()).registry;
        View() == old(View()).(registry := registry[task := request.id])
    {
      if oldTask.Some? { Unregister(oldTask.value); }
      Register(request, task);
    }

    /** What a retry does to the request itself. */
    method RestartAttempt(request: DataRequest, task: TaskId)
      requires Valid() && Has(request)
      modifies Repr()
      ensures Valid()
      ensures var r := request.id;
        View() == old(View()).(requests := old(View()).requests[r := Restarted(old(View()).requests[r], task)])
    {
      request.delegate.SetTask(task);
      request.retryCount := request.retryCount + 1;
      OneChanged(request.id);
    }

    method RunValidations(request: DataRequest, response: Option<Response>)
      requires Valid() && Has(request)
      modifies Repr()
      ensures Valid()
      ensures var r := request.id;
        View() == old(View()).(requests := old(View()).requests[r := Validated(old(View()).requests[r], response)])
    {
      request.RunValidations(response);
      OneChanged(request.id);
    }

    /** `request(_:)` when the task could be built. */
    method Begin() returns (request: DataRequest)
      requires Valid()
      modifies this
      ensures Valid() && fresh(Repr() - old(Repr())) && View() == Step(old(View()), RetryProtocol.Begin) && Has(request)
    {
      var task := nextTask;
      request := Add(true, Some(task), None, true);
      TakeTask(request);
      if startImmediately { StartTask(request); }
    }

    method TakeTask(request: DataRequest)
      requires Valid() && Has(request)
      modifies `requests, `nextTask
      ensures Valid()
      ensures View() == old(View()).(registry := old(View()).registry[old(nextTask) := request.id],
                                     nextTask := old(nextTask) + 1)
    {
      var task := NextTask();
      Register(request, task);
    }

    /** Resuming a request that has a task starts the task and leaves the handlers suspended. */
    method StartTask(request: DataRequest)
      requires Valid() && Has(request) && request.delegate.task.Some?
      modifies request.delegate
      ensures Valid() && View() == old(View())
    {
      request.Resume();
      assert Views() == old(Views());
    }

    /** `request(_:failedWith:)`. */
    method BeginFailed(error: Error, adapt: bool, hasOriginalTask: bool) returns (request: DataRequest)
      requires Valid() && (adapt ==> hasOriginalTask)
      modifies this
      ensures Valid() && fresh(Repr() - old(Repr())) && Has(request)
      ensures View() == Step(old(View()), RetryProtocol.BeginFailed(error, adapt, hasOriginalTask))
    {
      var ask := hasRetrier && adapt;
      request := Add(hasOriginalTask, None, Some(error), ask || !startImmediately);
      if ask { AwaitAdaptation(request.id); }
    }

    method Validate(request: DataRequest, validation: Validation)
      requires Valid() && Has(request)
      modifies Repr()
      ensures Valid() && View() == Step(old(View()), RetryProtocol.Validate(request.id, validation))
    {
      assert request in all;
      request.Validate(validation);
      OneChanged(request.id);
    }

    /** A chunk reaches the delegate of the request that is registered under its task. */
    method Receive(t: TaskId, chunk: Data)
      requires Valid() && t < nextTask
      modifies Repr()
      ensures Valid() && View() == Step(old(View()), RetryProtocol.Receive(t, chunk))
    {
      if t in requests {
        requests[t].delegate.DidReceive(chunk);
        OneChanged(requests[t].id);
      }
    }

    /** The session reports the end of a task: validations first, then the retrier or the delegate. */
    method Complete(t: TaskId, response: Option<Response>, failure: Option<Error>)
      requires Valid() && t < nextTask && t !in completed
      modifies this, Repr()
      ensures Valid() && all == old(all) && View() == Step(old(View()), RetryProtocol.Complete(t, response, failure))
    {
      MarkCompleted(t);
      if t !in requests {
        FinishTask(t, failure);
      } else {
        EndAttempt(t, response, failure);
      }
    }

    method EndAttempt(t: TaskId, response: Option<Response>, failure: Option<Error>)
      requires Valid() && t in requests
      modifies this, Repr()
      ensures Valid() && all == old(all) && View() == RetryProtocol.EndAttempt(old(View()), t, response, failure)
    {
      var request := requests[t];
      RunValidations(request, response);
      var error := failure;
      if request.delegate.error.Some? { error := request.delegate.error; }
      assert request.delegate.error == View().requests[request.id].error;
      if hasRetrier && error.Some? {
        AskRetrier(request.id, Decision(t, error.value));
      } else {
        FinishTask(t, error);
      }
    }

    /** Builds a task for another attempt and registers the request under it. */
    method Retry(request: DataRequest, creation: Creation) returns (succeeded: bool)
      requires Valid() && Has(request)
      modifies this, Repr()
      ensures Valid() && all == old(all)
      ensures (View(), succeeded) == RetryProtocol.Retry(old(View()), request.id, creation)
    {
      if !request.hasOriginalTask { return false; }
      if creation.CreationFailed? {
        request.delegate.error := Some(creation.error);
        OneChanged(request.id);
        return false;
      }
      Restart(request);
      return true;
    }

    method Restart(request: DataRequest)
      requires Valid() && Has(request) && request.hasOriginalTask
      modifies this, Repr()
      ensures Valid() && all == old(all) && View() == RetryProtocol.Retry(old(View()), request.id, Created).0
    {
      var oldTask := request.delegate.task;
      assert oldTask == View().requests[request.id].task;
      var task := NextTask();
      RestartAttempt(request, task);
      Reregister(request, oldTask, task);
    }

    /** The retrier answers about an attempt that ended with an error. */
    method Decide(request: DataRequest, shouldRetry: bool, creation: Creation)
      requires Valid() && Has(request) && request.id in pending
      modifies this, Repr()
      ensures Valid() && View() == Step(old(View()), RetryProtocol.Decide(request.id, shouldRetry, creation))
    {
      var decision := TakeDecision(request.id);
      if !shouldRetry {
        FinishTask(decision.task, Some(decision.error));
        return;
      }
      RetryOrFinish(request, creation, decision);
    }

    method RetryOrFinish(request: DataRequest, creation: Creation, decision: Decision)
      requires Valid() && Has(request)
      modifies this, Repr()
      ensures Valid()
      ensures var (u, succeeded) := RetryProtocol.Retry(old(View()), request.id, creation);
        View() == if succeeded then u else CompleteTask(u, decision.task, Some(decision.error))
    {
      var retrySucceeded := Retry(request, creation);
      if !retrySucceeded { FinishTask(decision.task, Some(decision.error)); }
    }

    /** The retrier answers about a request whose adaptation failed before it had a task. */
    method DecideAdapt(request: DataRequest, shouldRetry: bool, creation: Creation)
      requires Valid() && Has(request) && request.id in adapting
      modifies this, Repr()
      ensures Valid() && View() == Step(old(View()), RetryProtocol.DecideAdapt(request.id, shouldRetry, creation))
    {
      TakeAdaptation(request.id);
      if !shouldRetry {
        GiveUp(request);
        return;
      }
      var retrySucceeded := Retry(request, creation);
      if !retrySucceeded { GiveUp(request); }
    }

    method GiveUp(request: DataRequest)
      requires Valid() && Has(request)
      modifies Repr()
      ensures Valid() && View() == RetryProtocol.GiveUp(old(View()), request.id)
    {
      if startImmediately { Resume(request); }
    }

    method Resume(request: DataRequest)
      requires Valid() && Has(request)
      modifies Repr()
      ensures Valid() && View() == Step(old(View()), RetryProtocol.Resume(request.id))
    {
      request.Resume();
      OneChanged(request.id);
    }
  }
}
