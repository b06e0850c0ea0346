/** `ImageDownloader` with its fields updated in place. Each method is one block of a queue and is
    proved to do what the matching event of `DownloaderProtocol` does. */
module Downloader {
  import opened Basics
  import opened DownloaderProtocol
  import opened DownloaderTheorems

  /** `cancelAll` when it has visited the URLs in `done`. */
  ghost function PartlyCancelled(s: State, done: set<Url>): State {
    s.(loads := seq(|s.loads|, i requires 0 <= i < |s.loads| =>
                      if Registered(s, i) && s.loads[i].url in done
                      then s.loads[i].(downloadTaskCount := s.loads[i].downloadTaskCount - 1) else s.loads[i]),
       cancelled := s.cancelled + set u | u in done && u in s.fetchLoads :: s.fetchLoads[u])
  }

  ghost function CancelledLoad(s: State, u: Url): State
    requires Wf(s) && u in s.fetchLoads
  {
    var i := s.fetchLoads[u];
    s.(loads := s.loads[i := s.loads[i].(downloadTaskCount := s.loads[i].downloadTaskCount - 1)],
       cancelled := s.cancelled + {i})
  }

  lemma CancelOneMore(s: State, done: set<Url>, u: Url)
    requires Wf(s) && u in s.fetchLoads && u !in done
    ensures Wf(PartlyCancelled(s, done))
    ensures PartlyCancelled(s, done + {u}) == CancelledLoad(PartlyCancelled(s, done), u)
  {
    var c, d := PartlyCancelled(s, done), PartlyCancelled(s, done + {u});
    var i := s.fetchLoads[u];
    assert d.loads == CancelledLoad(c, u).loads;
    assert d.cancelled == c.cancelled + {i};
  }

  lemma NoneCancelled(s: State)
    ensures PartlyCancelled(s, {}) == s
  {
    assert PartlyCancelled(s, {}).loads == s.loads;
    assert PartlyCancelled(s, {}).cancelled == s.cancelled;
  }

  lemma AllCancelled(s: State)
    requires Wf(s)
    ensures PartlyCancelled(s, s.fetchLoads.Keys) == CancelEvery(s)
  {
    assert (set u | u in s.fetchLoads.Keys && u in s.fetchLoads :: s.fetchLoads[u]) == s.fetchLoads.Values;
    assert PartlyCancelled(s, s.fetchLoads.Keys).loads == CancelEvery(s).loads;
  }

  class ImageDownloader {
    var loads: seq<Load>
    var fetchLoads: map<Url, LoadId>
    var running: set<LoadId>
    var cancelled: set<LoadId>
    var jobs: set<LoadId>
    var cancelQueue: seq<Parked>
    var waiting: bool
    var downloadHolder: bool
    var calls: seq<Call>

    ghost function View(): State
      reads this
    {
      State(loads, fetchLoads, running, cancelled, jobs, cancelQueue, waiting, downloadHolder, calls)
    }

    ghost predicate Shape()
      reads this
    {
      Wf(View())
    }

    /** What holds between blocks; inside a block only `Shape` does. */
    ghost predicate Valid()
      reads this
    {
      Shape() && RegistryInv(View())
    }

    constructor ()
      ensures Valid() && View() == INIT
    {
      loads, fetchLoads, running, cancelled, jobs := [], map[], {}, {}, {};
      cancelQueue, waiting, downloadHolder, calls := [], false, false, [];
    }

    /** Returns the task that the request shares, or None when it was refused or parked.
        `modifier` is the request modifier's answer: None without a modifier, Some(None) when it refuses. */
    method DownloadImage(url: Url, content: Content, cancelledBeforeStarting: bool, modifier: Option<Option<Url>>)
      returns (task: Option<LoadId>)
      requires Valid()
      modifies this
      ensures Valid()
      ensures var refused := cancelledBeforeStarting || modifier == Some(None);
        var target := if modifier.Some? && modifier.value.Some? then modifier.value.value else url;
        if refused || target == "" then
          View() == Step(old(View()), Reject(content)) && task == None
        else
          && View() == Step(old(View()), Download(target, content))
          && task == if |cancelQueue| > |old(cancelQueue)| then None else Some(fetchLoads[target])
    {
      task := None;
      if cancelledBeforeStarting {
        calls := calls + [Call(content.handler, Rejected)];
        return;
      }
      var target := url;
      if modifier.Some? {
        if modifier.value.None? {
          calls := calls + [Call(content.handler, Rejected)];
          return;
        }
        target := modifier.value.value;
      }
      if target == "" {
        calls := calls + [Call(content.handler, Rejected)];
        return;
      }
      task := Setup(target, content);
    }

    method Setup(url: Url, content: Content) returns (task: Option<LoadId>)
      requires Valid()
      modifies this
      ensures Valid() && View() == Step(old(View()), Download(url, content))
      ensures task == if |cancelQueue| > |old(cancelQueue)| then None else Some(fetchLoads[url])
    {
      StepKeepsRegistry(View(), Download(url, content));
      if url in fetchLoads && loads[fetchLoads[url]].downloadTaskCount == 0 {
        var i := fetchLoads[url];
        if loads[i].cancelSemaphore == None {
          loads := loads[i := loads[i].(cancelSemaphore := Some(0))];
        }
        cancelQueue := cancelQueue + [Parked(i, url, content)];
        task := None;
        assert old(View()).loads[i := loads[i]] == loads;
      } else {
        task := PrepareFetchLoad(url, content);
      }
    }

    method PrepareFetchLoad(url: Url, content: Content) returns (task: Option<LoadId>)
      requires Shape()
      modifies this
      ensures Shape() && View() == Prepare(old(View()), url, content)
      ensures url in fetchLoads && task == Some(fetchLoads[url])
    {
      if url in fetchLoads {
        var i := fetchLoads[url];
        loads := loads[i := loads[i].(contents := loads[i].contents + [content])];
        loads := loads[i := loads[i].(downloadTaskCount := loads[i].downloadTaskCount + 1)];
      } else {
        var load := Load(url, [content], 0, None);
        fetchLoads := fetchLoads[url := |loads|];
        running := running + {|loads|};
        downloadHolder := true;
        loads := loads + [load.(downloadTaskCount := load.downloadTaskCount + 1)];
      }
      task := Some(fetchLoads[url]);
    }

    method CancelTask(task: LoadId)
      requires Valid() && task < |loads|
      modifies this
      ensures Valid() && View() == Step(old(View()), Cancel(task))
    {
      StepKeepsRegistry(View(), Cancel(task));
      var url := loads[task].url;
      if url in fetchLoads {
        var i := fetchLoads[url];
        loads := loads[i := loads[i].(downloadTaskCount := loads[i].downloadTaskCount - 1)];
        if loads[i].downloadTaskCount == 0 {
          cancelled := cancelled + {task};
        }
      }
    }

    method CancelLoad(ghost s: State, ghost done: set<Url>, u: Url)
      requires View() == PartlyCancelled(s, done) && Wf(s) && u in fetchLoads && u !in done
      modifies this`loads, this`cancelled
      ensures View() == PartlyCancelled(s, done + {u})
    {
      CancelOneMore(s, done, u);
      var i := fetchLoads[u];
      loads := loads[i := loads[i].(downloadTaskCount := loads[i].downloadTaskCount - 1)];
      cancelled := cancelled + {i};
    }

    method CancelLoads(ghost s: State, urls: set<Url>)
      requires s == View() && Wf(s) && urls == fetchLoads.Keys
      modifies this`loads, this`cancelled
      ensures View() == PartlyCancelled(s, urls)
    {
      var todo := urls;
      NoneCancelled(s);
      assert urls - todo == {};
      while todo != {}
        invariant todo <= urls
        invariant View() == PartlyCancelled(s, urls - todo)
        decreases todo
      {
        var u :| u in todo;
        CancelLoad(s, urls - todo, u);
        assert urls - todo + {u} == urls - (todo - {u});
        todo := todo - {u};
      }
      assert urls - todo == urls;
    }

    method CancelAllTasks()
      requires Valid()
      modifies this
      ensures Valid() && View() == Step(old(View()), CancelAll)
    {
      StepKeepsRegistry(View(), CancelAll);
      AllCancelled(View());
      CancelLoads(View(), fetchLoads.Keys);
    }

    method CleanFetchLoad(url: Url)
      requires Shape()
      modifies this`fetchLoads, this`downloadHolder
      ensures Shape() && (old(downloadHolder) ==> View() == Clean(old(View()), url))
      ensures !old(downloadHolder) ==> View() == old(View())
    {
      if !downloadHolder { return; }
      fetchLoads := fetchLoads - {url};
      if fetchLoads == map[] {
        downloadHolder := false;
      }
    }

    /** Signals until no waiter was woken; a signal reports a woken waiter when the value was negative. */
    static method SignalAll(value: int) returns (left: int)
      ensures left == SignalledValue(value)
    {
      left := value;
      var woken := true;
      while woken
        invariant if woken then value <= left <= 0 || left == value else left == SignalledValue(value)
        decreases woken, -left
      {
        woken := left < 0;
        left := left + 1;
      }
    }

    method CallCompletionHandlerFailure(url: Url)
      requires Shape()
      modifies this
      ensures Shape() && View() == Fail(old(View()), url)
    {
      if !downloadHolder || url !in fetchLoads { return; }
      ghost var s := View();
      var i := fetchLoads[url];
      CleanFetchLoad(url);
      if loads[i].cancelSemaphore.Some? {
        var left := SignalAll(loads[i].cancelSemaphore.value);
        loads := loads[i := loads[i].(cancelSemaphore := Some(left))];
      }
      var contents := loads[i].contents;
      for k := 0 to |contents|
        invariant View() == Fail(s, url).(calls := calls)
        invariant calls == s.calls + FailureCalls(contents)[..k]
      {
        calls := calls + [Call(contents[k].handler, TransportError)];
      }
      assert FailureCalls(contents)[..|contents|] == FailureCalls(contents);
    }

    /** A response with an invalid status code: the load fails before its task completes. */
    method DidReceiveInvalidStatus(task: LoadId)
      requires Valid() && task in running
      modifies this
      ensures Valid() && View() == Step(old(View()), BadStatus(task))
    {
      StepKeepsRegistry(View(), BadStatus(task));
      CallCompletionHandlerFailure(loads[task].url);
    }

    method DidComplete(task: LoadId, failed: bool)
      requires Valid() && task in running
      modifies this
      ensures Valid() && View() == Step(old(View()), if failed then TaskFailed(task) else TaskSucceeded(task))
    {
      StepKeepsRegistry(View(), if failed then TaskFailed(task) else TaskSucceeded(task));
      running := running - {task};
      if failed {
        CallCompletionHandlerFailure(loads[task].url);
      } else if downloadHolder {
        jobs := jobs + {task};
      }
    }

    /** The processing block. An image made by one processor is kept for the later handlers that use it. */
    method ProcessImage(task: LoadId, data: Option<Data>, images: map<string, Image>, notModified: bool)
      requires Valid() && task in jobs
      modifies this
      ensures Valid() && View() == Step(old(View()), Process(task, data, images, notModified))
    {
      ghost var s := View();
      StepKeepsRegistry(s, Process(task, data, images, notModified));
      jobs := jobs - {task};
      var url := loads[task].url;
      if url !in fetchLoads { return; }
      var contents := loads[fetchLoads[url]].contents;
      CleanFetchLoad(url);
      ghost var cleaned := View();
      CallCompletionHandlers(contents, data, images, notModified);
      assert View() == cleaned.(calls := s.calls + SuccessCalls(contents, data, images, notModified));
    }

    method CallCompletionHandlers(contents: seq<Content>, data: Option<Data>, images: map<string, Image>,
        notModified: bool)
      modifies this`calls
      ensures calls == old(calls) + SuccessCalls(contents, data, images, notModified)
    {
      ghost var made := SuccessCalls(contents, data, images, notModified);
      var imageCache: map<string, Image> := map[];
      for k := 0 to |contents|
        invariant calls == old(calls) + made[..k]
        invariant forall p <- imageCache :: data.Some? && p in images && imageCache[p] == images[p]
      {
        var processor := contents[k].processor;
        var image := if processor in imageCache then Some(imageCache[processor]) else None;
        if data.Some? && image.None? && processor in images {
          image := Some(images[processor]);
          imageCache := imageCache[processor := images[processor]];
        }
        if image.Some? {
          calls := calls + [Call(contents[k].handler, Fetched(image.value, data.value))];
        } else if notModified {
          calls := calls + [Call(contents[k].handler, NotModified)];
        } else {
          calls := calls + [Call(contents[k].handler, BadData)];
        }
        assert made[..k + 1] == made[..k] + [made[k]];
      }
    }

    /** One turn of the cancel queue's head block: it reaches its wait, or it is woken from it. */
    method RunCancelBlock() returns (passed: bool)
      requires Valid() && cancelQueue != []
      requires waiting ==> Enabled(View(), WakeParked)
      modifies this
      ensures Valid() && View() == Step(old(View()), if old(waiting) then WakeParked else StartParked)
      ensures passed <==> |cancelQueue| < |old(cancelQueue)|
    {
      StepKeepsRegistry(View(), if waiting then WakeParked else StartParked);
      var p := cancelQueue[0];
      if !waiting && loads[p.load].cancelSemaphore.Some? {
        var v := loads[p.load].cancelSemaphore.value - 1;
        if v < 0 {
          loads := loads[p.load := loads[p.load].(cancelSemaphore := Some(v))];
          waiting := true;
          return false;
        }
      }
      PassSemaphore();
      passed := true;
    }

    method PassSemaphore()
      requires Shape() && cancelQueue != []
      modifies this
      ensures Shape() && View() == Release(old(View())) && cancelQueue == old(cancelQueue)[1..]
    {
      var p := cancelQueue[0];
      loads := loads[p.load := loads[p.load].(cancelSemaphore := None)];
      cancelQueue := cancelQueue[1..];
      waiting := false;
      var _ := PrepareFetchLoad(p.url, p.content);
    }
  }
}
