/** One retrieval by `KingfisherManager`: the callbacks of cache, downloader and process queue in turn.

    `World` fixes what these answer; the steps are the callbacks, each of which comes once. */
module ManagerProtocol {
  import opened Basics

  type Image = nat
  type Data = nat

  datatype CacheType = NoCache | Memory | Disk

  datatype Fault = NotModified | NotCached | OtherFault(code: int)

  datatype Options = Options(
    forceRefresh: bool, onlyFromCache: bool, waitForCache: bool, cacheMemoryOnly: bool, cacheOriginalImage: bool,
    defaultProcessor: bool)

  datatype Found = Found(image: Option<Image>, cacheType: CacheType)

  datatype Downloaded = Downloaded(image: Option<Image>, error: Option<Fault>, originalData: Option<Data>)

  /** The answers: the target cache, the original cache, the processor on the cached original, the
      download, the target cache after a not-modified response, the default processor on the
      downloaded data, and the cache type that the target cache reports after a store. */
  datatype World = World(
    target: Found, original: Option<Image>, processed: Option<Image>, download: Downloaded, unmodified: Found,
    decoded: Option<Image>, cachedAs: CacheType)

  datatype Call = Call(image: Option<Image>, error: Option<Fault>, cacheType: CacheType)

  /** An image stored for the processor of the options, or for the default one. */
  datatype Stored = Stored(image: Image, asOriginal: bool, toDisk: bool)

  datatype Pending =
    | TargetCache
    | OriginalCache
    | Processing(image: Image)
    | Download
    | Unmodified
    | Storing(image: Image)

  datatype State = State(
    options: Options, pending: Option<Pending>, originalJob: bool, calls: seq<Call>, stores: seq<Stored>,
      downloads: nat)

  datatype Event = Callback | OriginalJob

  function Start(options: Options): State {
    var s := State(options, None, false, [], [], 0);
    if options.forceRefresh then StartDownload(s) else s.(pending := Some(TargetCache))
  }

  function StartDownload(s: State): State { s.(pending := Some(Download), downloads := s.downloads + 1) }

  function Complete(s: State, image: Option<Image>, error: Option<Fault>, cacheType: CacheType): State {
    s.(pending := None, calls := s.calls + [Call(image, error, cacheType)])
  }

  function HandleNoCache(s: State): State {
    if s.options.onlyFromCache then Complete(s, None, Some(NotCached), NoCache) else StartDownload(s)
  }

  /** Storing for the target cache; with `waitForCache` its handler completes the retrieval. */
  function Store(s: State, image: Image): State {
    s.(pending := if s.options.waitForCache then Some(Storing(image)) else None,
       stores := s.stores + [Stored(image, false, !s.options.cacheMemoryOnly)])
  }

  function FinishDownload(s: State, d: Downloaded): State {
    if d.error == Some(NotModified) then s.(pending := Some(Unmodified))
    else
      var t := if d.image.Some? && d.originalData.Some?
        then Store(s, d.image.value).(originalJob := s.options.cacheOriginalImage && !s.options.defaultProcessor)
        else s.(pending := None);
      if !s.options.waitForCache || d.image.None? then Complete(t, d.image, d.error, NoCache) else t
  }

  predicate Enabled(s: State, e: Event) { if e.Callback? then s.pending.Some? else s.originalJob }

  function Step(w: World, s: State, e: Event): State
    requires Enabled(s, e)
  {
    if e.OriginalJob? then
      s.(originalJob := false,
         stores := if w.decoded.None? then s.stores
                   else s.stores + [Stored(w.decoded.value, true, !s.options.cacheMemoryOnly)])
    else
      match s.pending.value
      case TargetCache =>
        if w.target.image.Some? then Complete(s, w.target.image, None, w.target.cacheType)
        else if s.options.defaultProcessor then HandleNoCache(s)
        else s.(pending := Some(OriginalCache))
      case OriginalCache =>
        if w.original.None? then HandleNoCache(s) else s.(pending := Some(Processing(w.original.value)))
      case Processing(_) =>
        if w.processed.None? then Complete(s, None, None, NoCache)
        else
          var t := Store(s, w.processed.value);
          if s.options.waitForCache then t else Complete(t, w.processed, None, NoCache)
      case Download => FinishDownload(s, w.download)
      case Unmodified => Complete(s, w.unmodified.image, None, w.unmodified.cacheType)
      case Storing(image) => Complete(s, Some(image), None, w.cachedAs)
  }

  function RunAll(w: World, s: State, tr: seq<Event>): Option<State> {
    if tr == [] then Some(s)
    else
      match RunAll(w, s, tr[..|tr| - 1])
      case None => None
      case Some(t) => if Enabled(t, tr[|tr| - 1]) then Some(Step(w, t, tr[|tr| - 1])) else None
  }
}

module ManagerTheorems {
  import opened Basics
  import opened ManagerProtocol

  // ---- what a retrieval should come to ----

  predicate Cached(w: World, o: Options) { !o.forceRefresh && w.target.image.Some? }

  /** The original image is at hand and the processor can be applied to it. */
  predicate FromOriginal(w: World, o: Options) {
    !o.forceRefresh && w.target.image.None? && !o.defaultProcessor && w.original.Some?
  }

  predicate Downloads(w: World, o: Options) {
    o.forceRefresh || (!Cached(w, o) && !FromOriginal(w, o) && !o.onlyFromCache)
  }

  /** The one case in which nobody is told: an image without its data, while the handler waits for the cache. */
  predicate Lost(w: World, o: Options) {
    Downloads(w, o) && w.download.error != Some(NotModified)
    && o.waitForCache && w.download.image.Some? && w.download.originalData.None?
  }

  /** The result that the completion handler gets. */
  function Expected(w: World, o: Options): Call {
    if Cached(w, o) then Call(w.target.image, None, w.target.cacheType)
    else if FromOriginal(w, o) then
      Call(w.processed, None, if o.waitForCache && w.processed.Some? then w.cachedAs else NoCache)
    else if !Downloads(w, o) then Call(None, Some(NotCached), NoCache)
    else if w.download.error == Some(NotModified) then Call(w.unmodified.image, None, w.unmodified.cacheType)
    else if o.waitForCache && w.download.image.Some? then Call(w.download.image, None, w.cachedAs)
    else Call(w.download.image, w.download.error, NoCache)
  }

  /** A fresh image that comes with its data, or one made from the cached original. */
  function NewImage(w: World, o: Options): Option<Image> {
    if FromOriginal(w, o) then w.processed
    else if !Downloads(w, o) || w.download.error == Some(NotModified) || w.download.originalData.None? then None
    else w.download.image
  }

  predicate KeepsOriginal(w: World, o: Options) {
    Downloads(w, o) && NewImage(w, o).Some? && o.cacheOriginalImage && !o.defaultProcessor && w.decoded.Some?
  }

  function TargetStores(w: World, o: Options): seq<Stored> {
    if NewImage(w, o).Some? then [Stored(NewImage(w, o).value, false, !o.cacheMemoryOnly)] else []
  }

  function OriginalStores(w: World, o: Options): seq<Stored> {
    if KeepsOriginal(w, o) then [Stored(w.decoded.value, true, !o.cacheMemoryOnly)] else []
  }

  // ---- how far a retrieval has come ----

  ghost predicate Awaits(w: World, o: Options, p: Pending) {
    match p
    case TargetCache => !o.forceRefresh
    case OriginalCache => !o.forceRefresh && w.target.image.None? && !o.defaultProcessor
    case Processing(image) => FromOriginal(w, o) && w.original == Some(image)
    case Download => Downloads(w, o)
    case Unmodified => Downloads(w, o) && w.download.error == Some(NotModified)
    case Storing(image) => o.waitForCache && NewImage(w, o) == Some(image)
  }

  predicate Finishing(s: State) { s.pending.None? || s.pending.value.Storing? }

  predicate Downloading(s: State) { s.pending.Some? && (s.pending.value.Download? || s.pending.value.Unmodified?) }

  ghost predicate CallInv(w: World, s: State) {
    && (s.pending.Some? ==> s.calls == [] && Awaits(w, s.options, s.pending.value))
    && (s.pending.None? ==> s.calls == if Lost(w, s.options) then [] else [Expected(w, s.options)])
  }

  /** The new image is stored for the target cache, then the original if the job for it has run. */
  ghost predicate StoreInv(w: World, s: State) {
    && (s.originalJob ==> Finishing(s) && Downloads(w, s.options) && NewImage(w, s.options).Some?
                          && s.options.cacheOriginalImage && !s.options.defaultProcessor)
    && s.stores == (if Finishing(s) then TargetStores(w, s.options) else [])
                 + (if Finishing(s) && !s.originalJob then OriginalStores(w, s.options) else [])
    && s.downloads == if Downloads(w, s.options) && (Finishing(s) || Downloading(s)) then 1 else 0
  }

  lemma StartHolds(w: World, o: Options)
    ensures CallInv(w, Start(o)) && StoreInv(w, Start(o)) && Start(o).options == o
  {
  }

  lemma DownloadCallStep(w: World, s: State)
    requires CallInv(w, s) && s.pending == Some(Download)
    ensures CallInv(w, FinishDownload(s, w.download)) && FinishDownload(s, w.download).options == s.options
  {
  }

  lemma CacheCallStep(w: World, s: State)
    requires CallInv(w, s) && s.pending.Some? && (s.pending.value.TargetCache? || s.pending.value.OriginalCache?)
    ensures CallInv(w, Step(w, s, Callback)) && Step(w, s, Callback).options == s.options
  {
  }

  lemma CallStep(w: World, s: State, e: Event)
    requires CallInv(w, s) && Enabled(s, e)
    ensures CallInv(w, Step(w, s, e)) && Step(w, s, e).options == s.options
  {
    if e.Callback? {
      match s.pending.value
      case TargetCache => CacheCallStep(w, s);
      case OriginalCache => CacheCallStep(w, s);
      case Download => DownloadCallStep(w, s);
      case _ =>
    }
  }

  lemma DownloadStoreStep(w: World, s: State)
    requires CallInv(w, s) && StoreInv(w, s) && s.pending == Some(Download)
    ensures StoreInv(w, FinishDownload(s, w.download))
  {
  }

  lemma CacheStoreStep(w: World, s: State)
    requires CallInv(w, s) && StoreInv(w, s)
    requires s.pending.Some? && (s.pending.value.TargetCache? || s.pending.value.OriginalCache?)
    ensures StoreInv(w, Step(w, s, Callback))
  {
  }

  lemma StoreStep(w: World, s: State, e: Event)
    requires CallInv(w, s) && StoreInv(w, s) && Enabled(s, e)
    ensures StoreInv(w, Step(w, s, e))
  {
    if e.Callback? {
      match s.pending.value
      case TargetCache => CacheStoreStep(w, s);
      case OriginalCache => CacheStoreStep(w, s);
      case Download => DownloadStoreStep(w, s);
      case _ =>
    }
  }

  lemma {:induction false} RunHolds(w: World, o: Options, tr: seq<Event>, t: State)
    requires RunAll(w, Start(o), tr) == Some(t)
    ensures CallInv(w, t) && StoreInv(w, t) && t.options == o
    decreases |tr|
  {
    if tr == [] {
      StartHolds(w, o);
    } else {
      var s := RunAll(w, Start(o), tr[..|tr| - 1]).value;
      RunHolds(w, o, tr[..|tr| - 1], s);
      CallStep(w, s, tr[|tr| - 1]);
      StoreStep(w, s, tr[|tr| - 1]);
    }
  }

  /** For every combination of options and answers the completion handler is called at most once, and
      when no callback is outstanding it was called exactly once unless the case is the lost one. */
  lemma CompletesOnceIff(w: World, o: Options, tr: seq<Event>, t: State)
    requires RunAll(w, Start(o), tr) == Some(t)
    ensures |t.calls| <= 1
    ensures t.pending.None? ==> (|t.calls| == 1 <==> !Lost(w, o))
    ensures t.calls != [] ==> t.calls == [Expected(w, o)]
  {
    RunHolds(w, o, tr, t);
  }

  /** A downloader that hands out an image only together with its data loses no retrieval. */
  lemma CompletesOnce(w: World, o: Options, tr: seq<Event>, t: State)
    requires RunAll(w, Start(o), tr) == Some(t) && t.pending.None?
    requires w.download.image.Some? ==> w.download.originalData.Some?
    ensures t.calls == [Expected(w, o)]
  {
    RunHolds(w, o, tr, t);
  }

  /** What a finished retrieval has put into the caches, and whether it went to the network: never
      after a cache hit, never when only the cache may answer, and never twice. */
  lemma StoresAndDownloads(w: World, o: Options, tr: seq<Event>, t: State)
    requires RunAll(w, Start(o), tr) == Some(t) && t.pending.None? && !t.originalJob
    ensures t.stores == TargetStores(w, o) + OriginalStores(w, o)
    ensures t.downloads == if Downloads(w, o) then 1 else 0
  {
    RunHolds(w, o, tr, t);
  }

  /** How many callbacks can still follow. */
  function Rank(s: State): nat {
    One(s.originalJob) + if s.pending.None? then 0 else
      match s.pending.value
      case TargetCache => 6
      case OriginalCache => 5
      case Processing(_) => 2
      case Download => 3
      case Unmodified => 1
      case Storing(_) => 1
  }

  function One(b: bool): nat { if b then 1 else 0 }

  lemma StepDescends(w: World, s: State, e: Event)
    requires Enabled(s, e) && (s.originalJob ==> Finishing(s))
    ensures Rank(Step(w, s, e)) < Rank(s)
  {
  }

  /** A retrieval ends: no run is longer than six steps. */
  lemma {:induction false} RunsEnd(w: World, o: Options, tr: seq<Event>, t: State)
    requires RunAll(w, Start(o), tr) == Some(t)
    ensures |tr| + Rank(t) <= 6
    decreases |tr|
  {
    if tr != [] {
      var s := RunAll(w, Start(o), tr[..|tr| - 1]).value;
      RunsEnd(w, o, tr[..|tr| - 1], s);
      RunHolds(w, o, tr[..|tr| - 1], s);
      StepDescends(w, s, tr[|tr| - 1]);
    }
  }
}

/** The callbacks of a retrieval, each as the closure that runs when it comes. */
module KingfisherManager {
  import opened Basics
  import opened ManagerProtocol

  class Retrieval {
    const options: Options
    var pending: Option<Pending>
    var originalJob: bool
    var calls: seq<Call>
    var stores: seq<Stored>
    var downloads: nat

    ghost function View(): State
      reads this
    {
      State(options, pending, originalJob, calls, stores, downloads)
    }

    /** `retrieveImage(with:)`. */
    constructor (options: Options)
      ensures View() == Start(options)
    {
      this.options := options;
      pending, originalJob, calls, stores, downloads := None, false, [], [], 0;
      new;
      if options.forceRefresh {
        DownloadAndCacheImage();
      } else {
        pending := Some(TargetCache);
      }
    }

    method DownloadAndCacheImage()
      modifies this
      ensures View() == StartDownload(old(View()))
    {
      pending := Some(Download);
      downloads := downloads + 1;
    }

    method CompletionHandler(image: Option<Image>, error: Option<Fault>, cacheType: CacheType)
      modifies this
      ensures View() == Complete(old(View()), image, error, cacheType)
    {
      pending := None;
      calls := calls + [Call(image, error, cacheType)];
    }

    method HandleNoCache()
      modifies this
      ensures View() == ManagerProtocol.HandleNoCache(old(View()))
    {
      if options.onlyFromCache {
        CompletionHandler(None, Some(NotCached), NoCache);
        return;
      }
      DownloadAndCacheImage();
    }

    method StoreForTarget(image: Image)
      modifies this
      ensures View() == Store(old(View()), image)
    {
      stores := stores + [Stored(image, false, !options.cacheMemoryOnly)];
      pending := if options.waitForCache then Some(Storing(image)) else None;
    }

    method TargetCacheAnswered(w: World)
      requires pending == Some(TargetCache)
      modifies this
      ensures View() == Step(w, old(View()), Callback)
    {
      if w.target.image != None {
        CompletionHandler(w.target.image, None, w.target.cacheType);
        return;
      }
      if options.defaultProcessor {
        HandleNoCache();
        return;
      }
      pending := Some(OriginalCache);
    }

    method OriginalCacheAnswered(w: World)
      requires pending == Some(OriginalCache)
      modifies this
      ensures View() == Step(w, old(View()), Callback)
    {
      if w.original == None {
        HandleNoCache();
        return;
      }
      pending := Some(Processing(w.original.value));
    }

    method Processed(w: World)
      requires pending.Some? && pending.value.Processing?
      modifies this
      ensures View() == Step(w, old(View()), Callback)
    {
      if w.processed == None {
        CompletionHandler(None, None, NoCache);
        return;
      }
      StoreForTarget(w.processed.value);
      if !options.waitForCache { CompletionHandler(w.processed, None, NoCache); }
    }

    method DownloadFinished(w: World)
      requires pending == Some(Download)
      modifies this
      ensures View() == Step(w, old(View()), Callback)
    {
      var d := w.download;
      if d.error == Some(NotModified) {
        pending := Some(Unmodified);
        return;
      }
      pending := None;
      if d.image.Some? && d.originalData.Some? {
        StoreForTarget(d.image.value);
        originalJob := options.cacheOriginalImage && !options.defaultProcessor;
      }
      if !options.waitForCache || d.image == None { CompletionHandler(d.image, d.error, NoCache); }
    }

    method UnmodifiedImageFound(w: World)
      requires pending == Some(Unmodified)
      modifies this
      ensures View() == Step(w, old(View()), Callback)
    {
      CompletionHandler(w.unmodified.image, None, w.unmodified.cacheType);
    }

    method StoreCompleted(w: World)
      requires pending.Some? && pending.value.Storing?
      modifies this
      ensures View() == Step(w, old(View()), Callback)
    {
      CompletionHandler(Some(pending.value.image), None, w.cachedAs);
    }

    /** The job on the process queue that keeps the original image. */
    method StoreOriginal(w: World)
      requires originalJob
      modifies this
      ensures View() == Step(w, old(View()), OriginalJob)
    {
      originalJob := false;
      if w.decoded.Some? { stores := stores + [Stored(w.decoded.value, true, !options.cacheMemoryOnly)]; }
    }
  }
}
