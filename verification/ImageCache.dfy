/** The two levels of `ImageCache`: a memory level that may forget anything at any time, and files
    that only the serial io queue touches.

    `Step` is one call of the cache, one block of the io queue or of the process queue, or one
    eviction. A run is any interleaving of these. */
module ImageCacheProtocol {
  import opened Basics

  type Key = string
  type FileName = string
  type Image = nat
  type Data = nat
  type RequestId = nat

  datatype CacheType = NoCache | Memory | Disk

  /** How computed keys become file names, and what the serializer makes of a file. */
  datatype Config = Config(fileName: Key -> FileName, decode: Data -> Option<Image>)

  /** Blocks of the io queue. */
  datatype Block =
    | Write(key: Key, data: Option<Data>)
    | RemoveFile(key: Key)
    | ClearFiles
    | CleanFiles
    | Load(id: RequestId, key: Key, background: bool)

  datatype Decoding = Decoding(id: RequestId, key: Key, image: Image)

  datatype Answer = Answer(id: RequestId, key: Key, image: Option<Image>, from: CacheType)

  datatype State = State(
    memory: map<Key, Image>,
    disk: map<FileName, Data>,
    io: seq<Block>,
    decoding: seq<Decoding>,
    cancelled: set<RequestId>,
    answers: seq<Answer>,
    nextId: RequestId)

  const INIT: State := State(map[], map[], [], [], {}, [], 0)

  /** `data` is what the serializer makes of the stored image; `removed` are the files that a
      cleaning block deletes. */
  datatype Event =
    | Store(key: Key, image: Image, data: Option<Data>, toDisk: bool)
    | Remove(key: Key, fromMemory: bool, fromDisk: bool)
    | Retrieve(key: Key, memoryOnly: bool, background: bool)
    | Cancel(id: RequestId)
    | Evict(key: Key)
    | ClearMemory
    | ClearDisk
    | CleanDisk
    | RunIO(removed: set<FileName>)
    | RunDecoding(i: nat)

  /** The key of an image together with the processor that made it. */
  function ComputedKey(key: string, identifier: string): Key {
    if identifier == "" then key else key + "@" + identifier
  }

  predicate Enabled(s: State, e: Event) {
    match e
    case RunIO(_) => s.io != []
    case RunDecoding(i) => i < |s.decoding|
    case Cancel(id) => id < s.nextId
    case _ => true
  }

  function Respond(s: State, id: RequestId, key: Key, image: Option<Image>, from: CacheType): State {
    s.(answers := s.answers + [Answer(id, key, image, from)])
  }

  function DoRetrieve(s: State, key: Key, memoryOnly: bool, background: bool): State {
    var id, t := s.nextId, s.(nextId := s.nextId + 1);
    if key in s.memory then Respond(t, id, key, Some(s.memory[key]), Memory)
    else if memoryOnly then Respond(t, id, key, None, NoCache)
    else t.(io := s.io + [Load(id, key, background)])
  }

  /** What the serializer finds on the disk for a key. */
  function DiskImage(c: Config, s: State, key: Key): Option<Image> {
    if c.fileName(key) in s.disk then c.decode(s.disk[c.fileName(key)]) else None
  }

  /** A block puts the image that it loads into memory before it answers. */
  function Finish(s: State, id: RequestId, key: Key, image: Image): State {
    Respond(s.(memory := s.memory[key := image]), id, key, Some(image), Disk)
  }

  function RunBlock(c: Config, s: State, b: Block, removed: set<FileName>): State {
    match b
    case Write(key, data) => if data.Some? then s.(disk := s.disk[c.fileName(key) := data.value]) else s
    case RemoveFile(key) => s.(disk := s.disk - {c.fileName(key)})
    case ClearFiles => s.(disk := map[])
    case CleanFiles => s.(disk := s.disk - removed)
    case Load(id, key, background) =>
      if id in s.cancelled then s
      else
        match DiskImage(c, s, key)
        case None => Respond(s, id, key, None, NoCache)
        case Some(image) =>
          if background then s.(decoding := s.decoding + [Decoding(id, key, image)]) else Finish(s, id, key, image)
  }

  function Step(c: Config, s: State, e: Event): State
    requires Enabled(s, e)
  {
    match e
    case Store(key, image, data, toDisk) =>
      s.(memory := s.memory[key := image], io := if toDisk then s.io + [Write(key, data)] else s.io)
    case Remove(key, fromMemory, fromDisk) =>
      s.(memory := if fromMemory then s.memory - {key} else s.memory,
         io := if fromDisk then s.io + [RemoveFile(key)] else s.io)
    case Retrieve(key, memoryOnly, background) => DoRetrieve(s, key, memoryOnly, background)
    case Cancel(id) => s.(cancelled := s.cancelled + {id})
    case Evict(key) => s.(memory := s.memory - {key})
    case ClearMemory => s.(memory := map[])
    case ClearDisk => s.(io := s.io + [ClearFiles])
    case CleanDisk => s.(io := s.io + [CleanFiles])
    case RunIO(removed) => RunBlock(c, s.(io := s.io[1..]), s.io[0], removed)
    case RunDecoding(i) =>
      var d := s.decoding[i];
      Finish(s.(decoding := s.decoding[..i] + s.decoding[i + 1..]), d.id, d.key, d.image)
  }

  ghost predicate Follows(c: Config, s: State, e: Event, t: State) { Enabled(s, e) && t == Step(c, s, e) }

  ghost predicate Run(c: Config, s0: State, tr: seq<Event>, t: State)
    decreases |tr|
  {
    if tr == [] then t == s0
    else
      var before, last := tr[..|tr| - 1], tr[|tr| - 1];
      exists s :: Run(c, s0, before, s) && Follows(c, s, last, t)
  }
}

module ImageCacheTheorems {
  import opened Basics
  import opened ImageCacheProtocol

  lemma LastStep(c: Config, s0: State, tr: seq<Event>, t: State) returns (s: State)
    requires Run(c, s0, tr, t) && tr != []
    ensures Run(c, s0, tr[..|tr| - 1], s) && Enabled(s, tr[|tr| - 1]) && t == Step(c, s, tr[|tr| - 1])
    ensures tr == tr[..|tr| - 1] + [tr[|tr| - 1]]
  {
    s :| Run(c, s0, tr[..|tr| - 1], s) && Follows(c, s, tr[|tr| - 1], t);
  }

  // ---- nothing comes from nowhere ----

  /** `image` is what a store put into memory for `key`, or what its file decodes to. */
  ghost predicate StoredAs(c: Config, e: Event, key: Key, image: Image) {
    && e.Store? && e.key == key
    && (e.image == image || (e.toDisk && e.data.Some? && c.decode(e.data.value) == Some(image)))
  }

  /** Some store under a computed key with the file name of `key` had this image. */
  ghost predicate Stored(c: Config, tr: seq<Event>, key: Key, image: Image) {
    exists e :: e in tr && exists k :: c.fileName(k) == c.fileName(key) && StoredAs(c, e, k, image)
  }

  /** Everything that a later answer can be made from was stored. */
  ghost predicate Sourced(c: Config, tr: seq<Event>, s: State) {
    && (forall k <- s.memory :: Stored(c, tr, k, s.memory[k]))
    && (forall k, image :: DiskImage(c, s, k) == Some(image) ==> Stored(c, tr, k, image))
    && (forall b <- s.io :: b.Write? && b.data.Some? && c.decode(b.data.value).Some? ==>
          Stored(c, tr, b.key, c.decode(b.data.value).value))
    && (forall d <- s.decoding :: Stored(c, tr, d.key, d.image))
    && (forall a <- s.answers :: a.image.Some? ==> Stored(c, tr, a.key, a.image.value))
  }

  lemma StoredStays(c: Config, tr: seq<Event>, e: Event, key: Key, image: Image)
    requires Stored(c, tr, key, image)
    ensures Stored(c, tr + [e], key, image)
  {
    var e0 :| e0 in tr && exists k :: c.fileName(k) == c.fileName(key) && StoredAs(c, e0, k, image);
    assert e0 in tr + [e];
  }

  lemma SourcedStays(c: Config, tr: seq<Event>, e: Event, s: State)
    requires Sourced(c, tr, s)
    ensures Sourced(c, tr + [e], s)
  {
    forall k, image | Stored(c, tr, k, image) ensures Stored(c, tr + [e], k, image) {
      StoredStays(c, tr, e, k, image);
    }
  }

  lemma StoreSources(c: Config, tr: seq<Event>, s: State, e: Event)
    requires Sourced(c, tr, s) && e.Store?
    ensures Sourced(c, tr + [e], Step(c, s, e))
  {
    SourcedStays(c, tr, e, s);
    assert e in tr + [e];
    assert StoredAs(c, e, e.key, e.image) && c.fileName(e.key) == c.fileName(e.key);
    assert Stored(c, tr + [e], e.key, e.image);
    if e.toDisk && e.data.Some? && c.decode(e.data.value).Some? {
      assert StoredAs(c, e, e.key, c.decode(e.data.value).value);
      assert Stored(c, tr + [e], e.key, c.decode(e.data.value).value);
    }
  }

  lemma LoadSources(c: Config, tr: seq<Event>, s: State, b: Block)
    requires Sourced(c, tr, s) && b.Load?
    ensures Sourced(c, tr, RunBlock(c, s, b, {}))
  {
  }

  lemma WriteSources(c: Config, tr: seq<Event>, s: State, b: Block)
    requires Sourced(c, tr, s) && b.Write?
    requires b.data.Some? && c.decode(b.data.value).Some? ==> Stored(c, tr, b.key, c.decode(b.data.value).value)
    ensures Sourced(c, tr, RunBlock(c, s, b, {}))
  {
    var t := RunBlock(c, s, b, {});
    forall k, image | DiskImage(c, t, k) == Some(image) ensures Stored(c, tr, k, image) {
      if c.fileName(k) == c.fileName(b.key) && b.data.Some? {
        SameFile(c, tr, b.key, k, image);
      } else {
        assert DiskImage(c, s, k) == Some(image);
      }
    }
  }

  lemma SameFile(c: Config, tr: seq<Event>, k: Key, k': Key, image: Image)
    requires Stored(c, tr, k, image) && c.fileName(k) == c.fileName(k')
    ensures Stored(c, tr, k', image)
  {
    var e :| e in tr && exists k0 :: c.fileName(k0) == c.fileName(k) && StoredAs(c, e, k0, image);
    var k0 :| c.fileName(k0) == c.fileName(k) && StoredAs(c, e, k0, image);
    assert c.fileName(k0) == c.fileName(k') && StoredAs(c, e, k0, image);
  }

  lemma BlockSources(c: Config, tr: seq<Event>, s: State, b: Block, removed: set<FileName>)
    requires Sourced(c, tr, s.(io := [b] + s.io))
    ensures Sourced(c, tr, RunBlock(c, s, b, removed))
  {
    var u := s.(io := [b] + s.io);
    assert forall b' <- s.io :: b' in u.io;
    assert b in u.io;
    assert forall k :: DiskImage(c, s, k) == DiskImage(c, u, k);
    assert Sourced(c, tr, s);
    var t := RunBlock(c, s, b, removed);
    match b
    case Write(_, _) => WriteSources(c, tr, s, b);
    case Load(_, _, _) => LoadSources(c, tr, s, b);
    case ClearFiles =>
    case _ =>
      forall k, image | DiskImage(c, t, k) == Some(image) ensures Stored(c, tr, k, image) {
        assert DiskImage(c, s, k) == Some(image);
      }
  }

  lemma DecodingSources(c: Config, tr: seq<Event>, s: State, i: nat)
    requires Sourced(c, tr, s) && i < |s.decoding|
    ensures Sourced(c, tr, Step(c, s, RunDecoding(i)))
  {
    assert s.decoding[i] in s.decoding;
    var t := Step(c, s, RunDecoding(i));
    assert forall d <- t.decoding :: d in s.decoding;
    assert forall k :: DiskImage(c, t, k) == DiskImage(c, s, k);
  }

  /** A call or an eviction, which touches no file. */
  lemma CallSources(c: Config, tr: seq<Event>, s: State, e: Event)
    requires Sourced(c, tr, s) && Enabled(s, e) && !e.Store? && !e.RunIO? && !e.RunDecoding?
    ensures Sourced(c, tr, Step(c, s, e))
  {
    assert forall k :: DiskImage(c, Step(c, s, e), k) == DiskImage(c, s, k);
  }

  lemma SourcedStep(c: Config, tr: seq<Event>, s: State, e: Event)
    requires Sourced(c, tr, s) && Enabled(s, e)
    ensures Sourced(c, tr + [e], Step(c, s, e))
  {
    SourcedStays(c, tr, e, s);
    match e
    case Store(_, _, _, _) => StoreSources(c, tr, s, e);
    case RunIO(removed) =>
      assert s == s.(io := [s.io[0]] + s.io[1..]);
      BlockSources(c, tr + [e], s.(io := s.io[1..]), s.io[0], removed);
    case RunDecoding(i) => DecodingSources(c, tr + [e], s, i);
    case _ => CallSources(c, tr + [e], s, e);
  }

  /** Under any interleaving of calls, blocks and evictions the cache never answers with an image that
      was not stored under a computed key with the file name of the requested one. */
  lemma {:induction false} AnswersWereStored(c: Config, tr: seq<Event>, t: State)
    requires Run(c, INIT, tr, t)
    ensures Sourced(c, tr, t)
    decreases |tr|
  {
    if tr != [] {
      var s := LastStep(c, INIT, tr, t);
      AnswersWereStored(c, tr[..|tr| - 1], s);
      SourcedStep(c, tr[..|tr| - 1], s, tr[|tr| - 1]);
    }
  }

  /** Different computed keys have different files. */
  ghost predicate Injective(c: Config) { forall k, k' :: c.fileName(k) == c.fileName(k') ==> k == k' }

  /** Reading back what the serializer wrote gives the stored image. */
  predicate Faithful(c: Config, e: Event) { e.Store? ==> e.data.Some? && c.decode(e.data.value) == Some(e.image) }

  /** So with distinct files and a faithful serializer an answer is an image stored for its very key. */
  lemma AnswersAreOwnImages(c: Config, tr: seq<Event>, t: State, a: Answer)
    requires Run(c, INIT, tr, t) && Injective(c) && (forall e <- tr :: Faithful(c, e))
    requires a in t.answers && a.image.Some?
    ensures exists e :: e in tr && e.Store? && e.key == a.key && e.image == a.image.value
  {
    AnswersWereStored(c, tr, t);
    assert Stored(c, tr, a.key, a.image.value);
    var e :| e in tr && exists k :: c.fileName(k) == c.fileName(a.key) && StoredAs(c, e, k, a.image.value);
    assert Faithful(c, e);
  }

  // ---- computed keys ----

  /** Some pair of processors makes the two keys share a computed key. */
  ghost predicate CanCollide(key: string, key': string) {
    exists i, i' :: ComputedKey(key, i) == ComputedKey(key', i')
  }

  /** Two cache keys can be confused exactly when one extends the other from an `@` on. */
  lemma CollideIff(key: string, key': string)
    ensures CanCollide(key, key') <==> key == key' || key + "@" <= key' || key' + "@" <= key
  {
    if CanCollide(key, key') && key != key' {
      var i, i' :| ComputedKey(key, i) == ComputedKey(key', i');
      OnlyExtensionsCollide(key, i, key', i');
    }
    if key == key' {
      assert ComputedKey(key, "") == ComputedKey(key', "");
    } else if key + "@" <= key' {
      ExtensionCollides(key, key');
    } else if key' + "@" <= key {
      ExtensionCollides(key', key);
      var i, i' :| ComputedKey(key', i) == ComputedKey(key, i');
      assert ComputedKey(key, i') == ComputedKey(key', i);
    }
  }

  lemma OnlyExtensionsCollide(key: string, i: string, key': string, i': string)
    requires ComputedKey(key, i) == ComputedKey(key', i') && key != key'
    ensures key + "@" <= key' || key' + "@" <= key
  {
    var full := ComputedKey(key, i);
    assert key == full[..|key|] && key' == full[..|key'|];
    if |key| < |key'| {
      assert full[|key|] == '@' && key + "@" == full[..|key| + 1];
    } else if |key'| < |key| {
      assert full[|key'|] == '@' && key' + "@" == full[..|key'| + 1];
    }
  }

  lemma ExtensionCollides(key: string, key': string)
    requires key + "@" <= key'
    ensures CanCollide(key, key')
  {
    var rest := key'[|key| + 1..];
    assert key' == key + "@" + rest;
    if rest == "" {
      assert ComputedKey(key', "x") == key + "@" + "@x";
      assert ComputedKey(key, "@x") == key + "@" + "@x";
    } else {
      assert ComputedKey(key, rest) == ComputedKey(key', "");
    }
  }

  // ---- removal while loads are queued ----

  predicate Touches(c: Config, b: Block, key: Key) {
    (b.Write? || b.RemoveFile?) && c.fileName(b.key) == c.fileName(key)
  }

  /** Whether the key's file decodes after a block, when it did (`present`) or did not before. */
  predicate After(c: Config, b: Block, present: bool, key: Key) {
    if b.Write? && Touches(c, b, key) && b.data.Some? then c.decode(b.data.value).Some?
    else present && !(b.RemoveFile? && Touches(c, b, key)) && !b.ClearFiles?
  }

  /** A queued load of the key will find a file. */
  predicate Finds(c: Config, io: seq<Block>, cancelled: set<RequestId>, present: bool, key: Key) {
    io != [] &&
    ((io[0].Load? && io[0].key == key && io[0].id !in cancelled && present)
     || Finds(c, io[1..], cancelled, After(c, io[0], present, key), key))
  }

  /** The key has a file when all queued blocks have run. */
  predicate Leaves(c: Config, io: seq<Block>, present: bool, key: Key) {
    if io == [] then present else Leaves(c, io[1..], After(c, io[0], present, key), key)
  }

  lemma {:induction false} LeavesAppend(c: Config, io: seq<Block>, b: Block, present: bool, key: Key)
    ensures Leaves(c, io + [b], present, key) == After(c, b, Leaves(c, io, present, key), key)
  {
    if io == [] {
      assert (io + [b])[1..] == [];
    } else {
      LeavesAppend(c, io[1..], b, After(c, io[0], present, key), key);
      assert (io + [b])[1..] == io[1..] + [b];
    }
  }

  lemma {:induction false} FindsAppend(c: Config, io: seq<Block>, b: Block, cancelled: set<RequestId>, present: bool,
      key: Key)
    ensures Finds(c, io + [b], cancelled, present, key)
         == (Finds(c, io, cancelled, present, key)
             || (b.Load? && b.key == key && b.id !in cancelled && Leaves(c, io, present, key)))
  {
    if io == [] {
      assert (io + [b])[1..] == [];
    } else {
      FindsAppend(c, io[1..], b, cancelled, After(c, io[0], present, key), key);
      assert (io + [b])[1..] == io[1..] + [b];
    }
  }

  lemma {:induction false} FewerFiles(c: Config, io: seq<Block>, cancelled: set<RequestId>, cancelled': set<RequestId>,
                                      present: bool, present': bool, key: Key)
    requires cancelled <= cancelled' && (present' ==> present)
    ensures Finds(c, io, cancelled', present', key) ==> Finds(c, io, cancelled, present, key)
    ensures Leaves(c, io, present', key) ==> Leaves(c, io, present, key)
  {
    if io != [] {
      FewerFiles(c, io[1..], cancelled, cancelled', After(c, io[0], present, key), After(c, io[0], present', key), key);
    }
  }

  predicate Present(c: Config, s: State, key: Key) { DiskImage(c, s, key).Some? }

  /** Nothing that is kept or queued can bring the key back. */
  ghost predicate Gone(c: Config, s: State, key: Key) {
    && key !in s.memory
    && (forall d <- s.decoding :: d.key != key)
    && !Finds(c, s.io, s.cancelled, Present(c, s, key), key)
    && !Leaves(c, s.io, Present(c, s, key), key)
  }

  predicate StoresFile(c: Config, e: Event, key: Key) { e.Store? && c.fileName(e.key) == c.fileName(key) }

  lemma BlockKeepsGone(c: Config, s: State, removed: set<FileName>, key: Key)
    requires Gone(c, s, key) && s.io != []
    ensures Gone(c, Step(c, s, RunIO(removed)), key)
  {
    var b, t := s.io[0], Step(c, s, RunIO(removed));
    assert t.io == s.io[1..] && t.cancelled == s.cancelled;
    assert Present(c, t, key) ==> After(c, b, Present(c, s, key), key);
    FewerFiles(c, t.io, s.cancelled, s.cancelled, After(c, b, Present(c, s, key), key), Present(c, t, key), key);
    if b.Load? && b.key == key {
      assert b.id in s.cancelled || !Present(c, s, key);
    }
  }

  lemma AppendKeepsGone(c: Config, s: State, b: Block, key: Key)
    requires Gone(c, s, key) && !(b.Write? && c.fileName(b.key) == c.fileName(key))
    ensures Gone(c, s.(io := s.io + [b]), key)
  {
    LeavesAppend(c, s.io, b, Present(c, s, key), key);
    FindsAppend(c, s.io, b, s.cancelled, Present(c, s, key), key);
  }

  lemma GoneStep(c: Config, s: State, e: Event, key: Key)
    requires Gone(c, s, key) && Enabled(s, e) && !StoresFile(c, e, key)
    ensures Gone(c, Step(c, s, e), key)
    ensures forall i :: |s.answers| <= i < |Step(c, s, e).answers| && Step(c, s, e).answers[i].key == key ==>
              Step(c, s, e).answers[i].image == None
  {
    var t := Step(c, s, e);
    match e
    case Store(k, image, data, toDisk) => if toDisk { AppendKeepsGone(c, s, Write(k, data), key); }
    case Remove(k, _, fromDisk) => if fromDisk { AppendKeepsGone(c, s, RemoveFile(k), key); }
    case Retrieve(k, _, background) => AppendKeepsGone(c, s, Load(s.nextId, k, background), key);
    case ClearDisk => AppendKeepsGone(c, s, ClearFiles, key);
    case CleanDisk => AppendKeepsGone(c, s, CleanFiles, key);
    case Cancel(id) =>
      FewerFiles(c, s.io, s.cancelled, s.cancelled + {id}, Present(c, s, key), Present(c, s, key), key);
    case RunIO(removed) => BlockKeepsGone(c, s, removed, key);
    case RunDecoding(i) => assert s.decoding[i] in s.decoding;
    case _ =>
  }

  /** A removal from both levels that no queued load of the key can undo. */
  lemma RemovalMakesGone(c: Config, s: State, key: Key)
    requires forall d <- s.decoding :: d.key != key
    requires !Finds(c, s.io, s.cancelled, Present(c, s, key), key)
    ensures Gone(c, Step(c, s, Remove(key, true, true)), key)
  {
    LeavesAppend(c, s.io, RemoveFile(key), Present(c, s, key), key);
    FindsAppend(c, s.io, RemoveFile(key), s.cancelled, Present(c, s, key), key);
  }

  /** Until the key is stored again it stays gone and every answer for it is empty, whatever runs. */
  lemma {:induction false} GoneForGood(c: Config, s: State, tr: seq<Event>, t: State, key: Key)
    requires Gone(c, s, key) && Run(c, s, tr, t) && (forall e <- tr :: !StoresFile(c, e, key))
    ensures Gone(c, t, key) && |s.answers| <= |t.answers|
    ensures forall i :: |s.answers| <= i < |t.answers| && t.answers[i].key == key ==> t.answers[i].image == None
    decreases |tr|
  {
    if tr != [] {
      var u := LastStep(c, s, tr, t);
      assert tr[|tr| - 1] in tr;
      GoneForGood(c, s, tr[..|tr| - 1], u, key);
      GoneStep(c, u, tr[|tr| - 1], key);
      AnswersGrow(c, u, tr[|tr| - 1]);
    }
  }

  lemma AnswersGrow(c: Config, s: State, e: Event)
    requires Enabled(s, e)
    ensures s.answers <= Step(c, s, e).answers
  {
  }

  /** The io queue runs until it is empty, and no cleaning block deletes anything. */
  function Drained(c: Config, s: State): State
    decreases |s.io|
  {
    if s.io == [] then s else Drained(c, Step(c, s, RunIO({})))
  }

  /** The key is in memory, or a decoding is about to put it there. */
  ghost predicate Back(s: State, key: Key) { key in s.memory || exists d :: d in s.decoding && d.key == key }

  lemma BlockKeepsBack(c: Config, s: State, key: Key)
    requires s.io != [] && Back(s, key)
    ensures Back(Step(c, s, RunIO({})), key)
  {
    var t := Step(c, s, RunIO({}));
    if key !in s.memory {
      var d :| d in s.decoding && d.key == key;
      assert d in t.decoding;
    }
  }

  lemma {:induction false} DrainKeepsBack(c: Config, s: State, key: Key)
    requires Back(s, key)
    ensures Back(Drained(c, s), key)
    decreases |s.io|
  {
    if s.io != [] {
      BlockKeepsBack(c, s, key);
      DrainKeepsBack(c, Step(c, s, RunIO({})), key);
    }
  }

  lemma LoadBringsBack(c: Config, s: State, key: Key)
    requires s.io != [] && s.io[0].Load? && s.io[0].key == key && s.io[0].id !in s.cancelled && Present(c, s, key)
    ensures Back(Step(c, s, RunIO({})), key)
  {
    var t := Step(c, s, RunIO({}));
    if s.io[0].background { assert t.decoding[|t.decoding| - 1].key == key; }
  }

  lemma BlockPresence(c: Config, s: State, key: Key)
    requires s.io != []
    ensures Present(c, Step(c, s, RunIO({})), key) == After(c, s.io[0], Present(c, s, key), key)
  {
  }

  lemma {:induction false} FindsBringsBack(c: Config, s: State, key: Key)
    requires Finds(c, s.io, s.cancelled, Present(c, s, key), key)
    ensures Back(Drained(c, s), key)
    decreases |s.io|
  {
    if s.io[0].Load? && s.io[0].key == key && s.io[0].id !in s.cancelled && Present(c, s, key) {
      LoadBringsBack(c, s, key);
      DrainKeepsBack(c, Step(c, s, RunIO({})), key);
    } else {
      BlockPresence(c, s, key);
      FindsBringsBack(c, Step(c, s, RunIO({})), key);
    }
  }

  lemma {:induction false} GoneDrains(c: Config, s: State, key: Key)
    requires Gone(c, s, key)
    ensures Gone(c, Drained(c, s), key)
    decreases |s.io|
  {
    if s.io != [] {
      BlockKeepsGone(c, s, {}, key);
      GoneDrains(c, Step(c, s, RunIO({})), key);
    }
  }

  ghost predicate BeingDecoded(s: State, key: Key) { exists d :: d in s.decoding && d.key == key }

  /** Removing an image at any time: once the io queue has drained, the image is back in memory (or
      about to be) exactly when it was being decoded, or some queued load of its key finds a file
      before the removal reaches the disk. */
  lemma RemovalFailsIff(c: Config, s: State, key: Key)
    ensures Back(Drained(c, Step(c, s, Remove(key, true, true))), key)
       <==> BeingDecoded(s, key) || Finds(c, s.io, s.cancelled, Present(c, s, key), key)
  {
    var t := Step(c, s, Remove(key, true, true));
    FindsAppend(c, s.io, RemoveFile(key), s.cancelled, Present(c, s, key), key);
    if BeingDecoded(s, key) {
      DrainKeepsBack(c, t, key);
    } else if Finds(c, s.io, s.cancelled, Present(c, s, key), key) {
      FindsBringsBack(c, t, key);
    } else {
      RemovalMakesGone(c, s, key);
      GoneDrains(c, t, key);
    }
  }

  /** The shortest case with nothing queued: remove while the process queue decodes an image. */
  lemma DecodingThenRemove(c: Config, s: State, d: Decoding)
    requires s.io == [] && s.decoding == [d]
    ensures !Finds(c, s.io, s.cancelled, Present(c, s, d.key), d.key)
    ensures var t := Drained(c, Step(c, s, Remove(d.key, true, true)));
      t.io == [] && t.decoding == [d] && d.key in Step(c, t, RunDecoding(0)).memory
  {
    var t := Step(c, s, Remove(d.key, true, true));
    assert t.io == [RemoveFile(d.key)] && t.io[1..] == [];
    var u := Step(c, t, RunIO({}));
    assert u.io == [] && u.decoding == [d] && Drained(c, t) == u;
  }

  /** The shortest case with a queued load: retrieve, then remove before the io queue has run. */
  lemma RetrieveThenRemove(c: Config, s: State, key: Key)
    requires s.io == [] && s.decoding == [] && key !in s.memory && Present(c, s, key) && s.nextId !in s.cancelled
    ensures Back(Drained(c, Step(c, Step(c, s, Retrieve(key, false, false)), Remove(key, true, true))), key)
  {
    var t := Step(c, s, Retrieve(key, false, false));
    assert t.io == [Load(s.nextId, key, false)] && Present(c, t, key);
    RemovalFailsIff(c, t, key);
  }

  // ---- what memory serves ----

  /** The steps that may change what memory holds for the key: a store, a removal, an eviction, or a
      load of it that comes to its end. */
  predicate Displaces(s: State, e: Event, key: Key)
    requires Enabled(s, e)
  {
    match e
    case Store(k, _, _, _) => k == key
    case Remove(k, fromMemory, _) => k == key && fromMemory
    case Evict(k) => k == key
    case ClearMemory => true
    case RunIO(_) => s.io[0].Load? && s.io[0].key == key
    case RunDecoding(i) => s.decoding[i].key == key
    case _ => false
  }

  ghost predicate Undisturbed(c: Config, s0: State, tr: seq<Event>, t: State, key: Key)
    decreases |tr|
  {
    if tr == [] then t == s0
    else
      var before, last := tr[..|tr| - 1], tr[|tr| - 1];
      exists s :: Undisturbed(c, s0, before, s, key) && Follows(c, s, last, t) && !Displaces(s, last, key)
  }

  lemma UndisturbedStep(c: Config, s: State, e: Event, key: Key)
    requires Enabled(s, e) && !Displaces(s, e, key) && key in s.memory
    ensures key in Step(c, s, e).memory && Step(c, s, e).memory[key] == s.memory[key]
  {
  }

  lemma {:induction false} UndisturbedKeeps(c: Config, s0: State, tr: seq<Event>, t: State, key: Key)
    requires Undisturbed(c, s0, tr, t, key) && key in s0.memory
    ensures key in t.memory && t.memory[key] == s0.memory[key]
    decreases |tr|
  {
    if tr != [] {
      var before, last := tr[..|tr| - 1], tr[|tr| - 1];
      var s :| Undisturbed(c, s0, before, s, key) && Follows(c, s, last, t) && !Displaces(s, last, key);
      UndisturbedKeeps(c, s0, before, s, key);
      UndisturbedStep(c, s, last, key);
    }
  }

  /** A stored image, whether or not it goes to the disk, is what every retrieval of its key gets at
      once from memory, whatever runs in between, until the key itself is disturbed. */
  lemma StoredIsServed(c: Config, s: State, key: Key, image: Image, data: Option<Data>, toDisk: bool,
                       tr: seq<Event>, t: State, memoryOnly: bool, background: bool)
    requires Undisturbed(c, Step(c, s, Store(key, image, data, toDisk)), tr, t, key)
    ensures var u := Step(c, t, Retrieve(key, memoryOnly, background));
      u.answers == t.answers + [Answer(t.nextId, key, Some(image), Memory)] && u.io == t.io
  {
    UndisturbedKeeps(c, Step(c, s, Store(key, image, data, toDisk)), tr, t, key);
  }

  // ---- what a file holds ----

  function FileAt(s: State, file: FileName): Option<Data> { if file in s.disk then Some(s.disk[file]) else None }

  function MemoryAt(s: State, key: Key): Option<Image> { if key in s.memory then Some(s.memory[key]) else None }

  /** The last call that wrote, removed or cleared this file decides what it holds. */
  function LastFile(c: Config, tr: seq<Event>, file: FileName): Option<Data> {
    if tr == [] then None
    else
      var was := LastFile(c, tr[..|tr| - 1], file);
      match tr[|tr| - 1]
      case Store(key, _, data, toDisk) => if toDisk && data.Some? && c.fileName(key) == file then data else was
      case Remove(key, _, fromDisk) => if fromDisk && c.fileName(key) == file then None else was
      case ClearDisk => None
      case _ => was
  }

  /** What a file that held `was` holds after a block that is no cleaning. */
  function Written(c: Config, b: Block, was: Option<Data>, file: FileName): Option<Data> {
    match b
    case Write(key, data) => if data.Some? && c.fileName(key) == file then data else was
    case RemoveFile(key) => if c.fileName(key) == file then None else was
    case ClearFiles => None
    case _ => was
  }

  /** What the file will hold when the queued blocks have run and no cleaning has deleted it. */
  function Awaited(c: Config, io: seq<Block>, held: Option<Data>, file: FileName): Option<Data> {
    if io == [] then held else Awaited(c, io[1..], Written(c, io[0], held, file), file)
  }

  lemma {:induction false} AwaitedAppend(c: Config, io: seq<Block>, b: Block, held: Option<Data>, file: FileName)
    ensures Awaited(c, io + [b], held, file) == Written(c, b, Awaited(c, io, held, file), file)
  {
    if io == [] {
      assert (io + [b])[1..] == [];
    } else {
      AwaitedAppend(c, io[1..], b, Written(c, io[0], held, file), file);
      assert (io + [b])[1..] == io[1..] + [b];
    }
  }

  lemma BlockWrites(c: Config, s: State, removed: set<FileName>, file: FileName)
    requires s.io != [] && file !in removed
    ensures var t := Step(c, s, RunIO(removed));
      t.io == s.io[1..] && FileAt(t, file) == Written(c, s.io[0], FileAt(s, file), file)
  {
  }

  lemma AwaitedStep(c: Config, s: State, e: Event, file: FileName, before: seq<Event>)
    requires Enabled(s, e) && (e.RunIO? ==> file !in e.removed)
    requires Awaited(c, s.io, FileAt(s, file), file) == LastFile(c, before, file)
    ensures Awaited(c, Step(c, s, e).io, FileAt(Step(c, s, e), file), file) == LastFile(c, before + [e], file)
  {
    assert (before + [e])[..|before|] == before;
    var held := FileAt(s, file);
    match e
    case Store(k, _, data, _) => AwaitedAppend(c, s.io, Write(k, data), held, file);
    case Remove(k, _, _) => AwaitedAppend(c, s.io, RemoveFile(k), held, file);
    case Retrieve(k, _, background) => AwaitedAppend(c, s.io, Load(s.nextId, k, background), held, file);
    case ClearDisk => AwaitedAppend(c, s.io, ClearFiles, held, file);
    case CleanDisk => AwaitedAppend(c, s.io, CleanFiles, held, file);
    case RunIO(removed) => BlockWrites(c, s, removed, file);
    case _ =>
  }

  lemma {:induction false} RunAwaits(c: Config, tr: seq<Event>, t: State, file: FileName)
    requires Run(c, INIT, tr, t) && forall e <- tr :: e.RunIO? ==> file !in e.removed
    ensures Awaited(c, t.io, FileAt(t, file), file) == LastFile(c, tr, file)
    decreases |tr|
  {
    if tr != [] {
      var before, e := tr[..|tr| - 1], tr[|tr| - 1];
      var s := LastStep(c, INIT, tr, t);
      assert e in tr;
      RunAwaits(c, before, s, file);
      AwaitedStep(c, s, e, file, before);
    }
  }

  /** Under any interleaving a file that no cleaning deletes holds, once the io queue is empty, what
      the last call about it asked for. */
  lemma FileIsLastWritten(c: Config, tr: seq<Event>, t: State, file: FileName)
    requires Run(c, INIT, tr, t) && forall e <- tr :: e.RunIO? ==> file !in e.removed
    ensures t.io == [] ==> FileAt(t, file) == LastFile(c, tr, file)
  {
    RunAwaits(c, tr, t, file);
  }

  // ---- the drained cache ----

  /** Calls that wait until both queues are empty. `removed` are the files that a cleaning deletes. */
  datatype Call =
    | StoreCall(key: Key, image: Image, data: Option<Data>, toDisk: bool)
    | RemoveCall(key: Key, fromMemory: bool, fromDisk: bool)
    | RetrieveCall(key: Key, memoryOnly: bool, background: bool)
    | EvictCall(key: Key)
    | ClearMemoryCall
    | ClearDiskCall
    | CleanCall(removed: set<FileName>)

  function EventOf(call: Call): Event {
    match call
    case StoreCall(key, image, data, toDisk) => Store(key, image, data, toDisk)
    case RemoveCall(key, fromMemory, fromDisk) => Remove(key, fromMemory, fromDisk)
    case RetrieveCall(key, memoryOnly, background) => Retrieve(key, memoryOnly, background)
    case EvictCall(key) => Evict(key)
    case ClearMemoryCall => ClearMemory
    case ClearDiskCall => ClearDisk
    case CleanCall(_) => CleanDisk
  }

  function Settled(c: Config, s: State, removed: set<FileName>): State {
    var a := if s.io == [] then s else Step(c, s, RunIO(removed));
    if a.decoding == [] then a else Step(c, a, RunDecoding(0))
  }

  function Perform(c: Config, s: State, call: Call): State {
    Settled(c, Step(c, s, EventOf(call)), if call.CleanCall? then call.removed else {})
  }

  function PerformAll(c: Config, s: State, calls: seq<Call>): State {
    if calls == [] then s else Perform(c, PerformAll(c, s, calls[..|calls| - 1]), calls[|calls| - 1])
  }

  /** The last call about a file decides what it holds. */
  function FileOf(c: Config, calls: seq<Call>, file: FileName): Option<Data> {
    if calls == [] then None
    else
      var was := FileOf(c, calls[..|calls| - 1], file);
      match calls[|calls| - 1]
      case StoreCall(key, _, data, toDisk) => if toDisk && data.Some? && c.fileName(key) == file then data else was
      case RemoveCall(key, _, fromDisk) => if fromDisk && c.fileName(key) == file then None else was
      case ClearDiskCall => None
      case CleanCall(removed) => if file in removed then None else was
      case _ => was
  }

  /** What the serializer makes of the file of a key. */
  function ReadBack(c: Config, calls: seq<Call>, key: Key): Option<Image> {
    match FileOf(c, calls, c.fileName(key))
    case Some(data) => c.decode(data)
    case None => None
  }

  /** The last call about a key decides what memory holds for it. */
  function MemoryOf(c: Config, calls: seq<Call>, key: Key): Option<Image> {
    if calls == [] then None
    else
      var before := calls[..|calls| - 1];
      var was := MemoryOf(c, before, key);
      match calls[|calls| - 1]
      case StoreCall(k, image, _, _) => if k == key then Some(image) else was
      case RemoveCall(k, fromMemory, _) => if k == key && fromMemory then None else was
      case RetrieveCall(k, memoryOnly, _) =>
        if k == key && was == None && !memoryOnly then ReadBack(c, before, key) else was
      case EvictCall(k) => if k == key then None else was
      case ClearMemoryCall => None
      case _ => was
  }

  predicate AtRest(s: State) { s.io == [] && s.decoding == [] && s.cancelled == {} }

  /** Memory, disk and queues are what the calls asked for. */
  ghost predicate Holds(c: Config, s: State, calls: seq<Call>) {
    && AtRest(s)
    && (forall k :: MemoryAt(s, k) == MemoryOf(c, calls, k))
    && (forall f :: FileAt(s, f) == FileOf(c, calls, f))
  }

  /** What a retrieval is answered with after these calls, and from where. */
  function AnswerOf(c: Config, calls: seq<Call>, key: Key, memoryOnly: bool): (Option<Image>, CacheType) {
    if MemoryOf(c, calls, key).Some? then (MemoryOf(c, calls, key), Memory)
    else if memoryOnly || ReadBack(c, calls, key) == None then (None, NoCache)
    else (ReadBack(c, calls, key), Disk)
  }

  // Each call queues at most one block, which runs at once.

  lemma PerformsStore(c: Config, s: State, key: Key, image: Image, data: Option<Data>, toDisk: bool)
    requires AtRest(s)
    ensures Perform(c, s, StoreCall(key, image, data, toDisk)) == s.(
      memory := s.memory[key := image],
      disk := if toDisk && data.Some? then s.disk[c.fileName(key) := data.value] else s.disk)
  {
    var t1 := Step(c, s, Store(key, image, data, toDisk));
    if toDisk { assert t1.io == [Write(key, data)] && t1.io[1..] == s.io; }
  }

  lemma PerformsRemove(c: Config, s: State, key: Key, fromMemory: bool, fromDisk: bool)
    requires AtRest(s)
    ensures Perform(c, s, RemoveCall(key, fromMemory, fromDisk)) == s.(
      memory := if fromMemory then s.memory - {key} else s.memory,
      disk := if fromDisk then s.disk - {c.fileName(key)} else s.disk)
  {
    var t1 := Step(c, s, Remove(key, fromMemory, fromDisk));
    if fromDisk { assert t1.io == [RemoveFile(key)] && t1.io[1..] == s.io; }
  }

  lemma PerformsClean(c: Config, s: State, removed: set<FileName>)
    requires AtRest(s)
    ensures Perform(c, s, CleanCall(removed)) == s.(disk := s.disk - removed)
  {
    var t1 := Step(c, s, CleanDisk);
    assert t1.io == [CleanFiles] && t1.io[1..] == s.io;
  }

  lemma PerformsClearDisk(c: Config, s: State)
    requires AtRest(s)
    ensures Perform(c, s, ClearDiskCall) == s.(disk := map[])
  {
    var t1 := Step(c, s, ClearDisk);
    assert t1.io == [ClearFiles] && t1.io[1..] == s.io;
  }

  lemma PerformsLoad(c: Config, s: State, key: Key, background: bool)
    requires AtRest(s) && key !in s.memory
    ensures var u := s.(nextId := s.nextId + 1);
      Perform(c, s, RetrieveCall(key, false, background))
      == match DiskImage(c, s, key)
         case None => Respond(u, s.nextId, key, None, NoCache)
         case Some(image) => Finish(u, s.nextId, key, image)
  {
    var t1 := Step(c, s, Retrieve(key, false, background));
    assert t1.io == [Load(s.nextId, key, background)] && t1.io[1..] == s.io;
    var t2 := Step(c, t1, RunIO({}));
    if t2.decoding != [] {
      assert t2.decoding[..0] + t2.decoding[1..] == [];
    }
  }

  lemma RetrieveAnswers(c: Config, s: State, calls: seq<Call>, key: Key, memoryOnly: bool, background: bool)
    requires Holds(c, s, calls)
    ensures var t := Perform(c, s, RetrieveCall(key, memoryOnly, background));
      && AtRest(t) && t.disk == s.disk && t.nextId == s.nextId + 1
      && t.memory == (if MemoryOf(c, calls, key) == None && !memoryOnly && ReadBack(c, calls, key).Some?
                      then s.memory[key := ReadBack(c, calls, key).value] else s.memory)
      && (var (image, from) := AnswerOf(c, calls, key, memoryOnly);
          t.answers == s.answers + [Answer(s.nextId, key, image, from)])
  {
    assert MemoryAt(s, key) == MemoryOf(c, calls, key);
    assert FileAt(s, c.fileName(key)) == FileOf(c, calls, c.fileName(key));
    if key !in s.memory && !memoryOnly { PerformsLoad(c, s, key, background); }
  }

  /** The memory entry and the file are what the calls asked for. */
  ghost predicate HoldsAt(c: Config, s: State, calls: seq<Call>, key: Key, file: FileName) {
    AtRest(s) && MemoryAt(s, key) == MemoryOf(c, calls, key) && FileAt(s, file) == FileOf(c, calls, file)
  }

  lemma StoreHoldsAt(c: Config, s: State, calls: seq<Call>, key: Key, file: FileName)
    requires calls != [] && calls[|calls| - 1].StoreCall? && HoldsAt(c, s, calls[..|calls| - 1], key, file)
    ensures HoldsAt(c, Perform(c, s, calls[|calls| - 1]), calls, key, file)
  {
    var call := calls[|calls| - 1];
    PerformsStore(c, s, call.key, call.image, call.data, call.toDisk);
  }

  lemma RetrieveHoldsAt(c: Config, s: State, calls: seq<Call>, key: Key, file: FileName)
    requires calls != [] && calls[|calls| - 1].RetrieveCall? && Holds(c, s, calls[..|calls| - 1])
    requires HoldsAt(c, s, calls[..|calls| - 1], key, file)
    ensures HoldsAt(c, Perform(c, s, calls[|calls| - 1]), calls, key, file)
  {
    var call := calls[|calls| - 1];
    RetrieveAnswers(c, s, calls[..|calls| - 1], call.key, call.memoryOnly, call.background);
  }

  lemma RemovalHoldsAt(c: Config, s: State, calls: seq<Call>, key: Key, file: FileName)
    requires calls != [] && HoldsAt(c, s, calls[..|calls| - 1], key, file)
    requires !calls[|calls| - 1].StoreCall? && !calls[|calls| - 1].RetrieveCall?
    ensures HoldsAt(c, Perform(c, s, calls[|calls| - 1]), calls, key, file)
  {
    match calls[|calls| - 1]
    case RemoveCall(k, fromMemory, fromDisk) => PerformsRemove(c, s, k, fromMemory, fromDisk);
    case ClearDiskCall => PerformsClearDisk(c, s);
    case CleanCall(removed) => PerformsClean(c, s, removed);
    case _ =>
  }

  lemma CallHoldsAt(c: Config, s: State, calls: seq<Call>, key: Key, file: FileName)
    requires calls != [] && Holds(c, s, calls[..|calls| - 1])
    ensures HoldsAt(c, Perform(c, s, calls[|calls| - 1]), calls, key, file)
  {
    assert HoldsAt(c, s, calls[..|calls| - 1], key, file);
    match calls[|calls| - 1]
    case StoreCall(_, _, _, _) => StoreHoldsAt(c, s, calls, key, file);
    case RetrieveCall(_, _, _) => RetrieveHoldsAt(c, s, calls, key, file);
    case _ => RemovalHoldsAt(c, s, calls, key, file);
  }

  lemma CallHolds(c: Config, s: State, calls: seq<Call>)
    requires calls != [] && Holds(c, s, calls[..|calls| - 1])
    ensures Holds(c, Perform(c, s, calls[|calls| - 1]), calls)
  {
    var t := Perform(c, s, calls[|calls| - 1]);
    CallHoldsAt(c, s, calls, "", "");
    forall f ensures FileAt(t, f) == FileOf(c, calls, f) { CallHoldsAt(c, s, calls, "", f); }
    forall k ensures MemoryAt(t, k) == MemoryOf(c, calls, k) { CallHoldsAt(c, s, calls, k, ""); }
  }

  lemma {:induction false} CallsHold(c: Config, calls: seq<Call>)
    ensures Holds(c, PerformAll(c, INIT, calls), calls)
  {
    if calls != [] {
      CallsHold(c, calls[..|calls| - 1]);
      CallHolds(c, PerformAll(c, INIT, calls[..|calls| - 1]), calls);
    }
  }

  /** With the queues drained between calls a retrieval is answered once, with exactly what the calls
      before it left: from memory what the last call about the key put there, else from the disk what
      the serializer makes of what the last call about its file wrote. Any file names, any serializer. */
  lemma AnswersExactly(c: Config, calls: seq<Call>, key: Key, memoryOnly: bool, background: bool)
    ensures var s := PerformAll(c, INIT, calls);
      var (image, from) := AnswerOf(c, calls, key, memoryOnly);
      Perform(c, s, RetrieveCall(key, memoryOnly, background)).answers
      == s.answers + [Answer(s.nextId, key, image, from)]
  {
    CallsHold(c, calls);
    RetrieveAnswers(c, PerformAll(c, INIT, calls), calls, key, memoryOnly, background);
  }

  // ---- the cache as a map ----

  /** Stores that go to both levels with data that read back, and removals from both. */
  predicate WritesThrough(c: Config, call: Call) {
    match call
    case StoreCall(_, image, data, toDisk) => toDisk && data.Some? && c.decode(data.value) == Some(image)
    case RemoveCall(_, fromMemory, fromDisk) => fromMemory && fromDisk
    case _ => true
  }

  /** The simple form: the last image stored for each key, and the keys that still have a file.
      A key without a file may linger in memory until the memory is cleared. */
  datatype Table = Table(last: map<Key, Image>, onDisk: set<Key>)

  function Apply(c: Config, m: Table, call: Call): Table {
    match call
    case StoreCall(key, image, _, _) => Table(m.last[key := image], m.onDisk + {key})
    case RemoveCall(key, _, _) => Table(m.last - {key}, m.onDisk - {key})
    case RetrieveCall(_, _, _) => m
    case EvictCall(_) => m
    case ClearMemoryCall => Table(map k | k in m.last && k in m.onDisk :: m.last[k], m.onDisk)
    case ClearDiskCall => Table(m.last, {})
    case CleanCall(removed) => Table(m.last, set k <- m.onDisk | c.fileName(k) !in removed)
  }

  function ApplyAll(c: Config, calls: seq<Call>): Table {
    if calls == [] then Table(map[], {}) else Apply(c, ApplyAll(c, calls[..|calls| - 1]), calls[|calls| - 1])
  }

  function LastOf(m: Table, key: Key): Option<Image> { if key in m.last then Some(m.last[key]) else None }

  /** Memory holds nothing else than the last image, and the file of a key gives it back. */
  ghost predicate Represents(c: Config, calls: seq<Call>, m: Table, key: Key) {
    && (MemoryOf(c, calls, key).Some? ==> MemoryOf(c, calls, key) == LastOf(m, key))
    && (key in m.onDisk <==> FileOf(c, calls, c.fileName(key)).Some?)
    && (key in m.onDisk ==> LastOf(m, key).Some? && ReadBack(c, calls, key) == LastOf(m, key))
  }

  lemma {:induction false} CallsRepresent(c: Config, calls: seq<Call>, key: Key)
    requires Injective(c) && forall call <- calls :: WritesThrough(c, call)
    ensures Represents(c, calls, ApplyAll(c, calls), key)
  {
    if calls != [] {
      CallsRepresent(c, calls[..|calls| - 1], key);
      assert calls[|calls| - 1] in calls;
    }
  }

  ghost predicate AnswersFrom(m: Table, key: Key, memoryOnly: bool, a: Answer) {
    && a.key == key
    && (a.image.Some? ==> a.image == LastOf(m, key) && (a.from == Memory || (a.from == Disk && key in m.onDisk)))
    && (a.image == None ==> a.from == NoCache)
    && (key in m.onDisk && !memoryOnly ==> a.image == LastOf(m, key) && a.image.Some?)
    && (key !in m.last ==> a.image == None)
  }

  /** With writes that go through to the disk the drained cache is a map, whatever the memory level
      evicts: a key that has a file is answered with the last image stored for it, a key that was never
      stored or was removed with nothing, and any image answered is the last one stored, from memory
      or from its file. A retrieval from memory alone may get nothing as well. */
  lemma CacheIsAMap(c: Config, calls: seq<Call>, key: Key, memoryOnly: bool, background: bool)
    requires Injective(c) && forall call <- calls :: WritesThrough(c, call)
    ensures var s := PerformAll(c, INIT, calls);
      var t := Perform(c, s, RetrieveCall(key, memoryOnly, background));
      |t.answers| == |s.answers| + 1 && AnswersFrom(ApplyAll(c, calls), key, memoryOnly, t.answers[|s.answers|])
  {
    AnswersExactly(c, calls, key, memoryOnly, background);
    CallsRepresent(c, calls, key);
  }

  // ---- every retrieval is answered once ----

  function One(b: bool): nat { if b then 1 else 0 }

  function Queued(io: seq<Block>, id: RequestId): nat {
    if io == [] then 0 else One(io[0].Load? && io[0].id == id) + Queued(io[1..], id)
  }

  function Decoded(decoding: seq<Decoding>, id: RequestId): nat {
    if decoding == [] then 0 else One(decoding[0].id == id) + Decoded(decoding[1..], id)
  }

  function Answered(answers: seq<Answer>, id: RequestId): nat {
    if answers == [] then 0 else One(answers[0].id == id) + Answered(answers[1..], id)
  }

  lemma {:induction false} QueuedAppend(io: seq<Block>, b: Block, id: RequestId)
    ensures Queued(io + [b], id) == Queued(io, id) + One(b.Load? && b.id == id)
  {
    if io == [] {
      assert io + [b] == [b];
    } else {
      QueuedAppend(io[1..], b, id);
      assert (io + [b])[1..] == io[1..] + [b];
    }
  }

  lemma {:induction false} AnsweredAppend(answers: seq<Answer>, a: Answer, id: RequestId)
    ensures Answered(answers + [a], id) == Answered(answers, id) + One(a.id == id)
  {
    if answers == [] {
      assert answers + [a] == [a];
    } else {
      AnsweredAppend(answers[1..], a, id);
      assert (answers + [a])[1..] == answers[1..] + [a];
    }
  }

  lemma {:induction false} DecodedConcat(ds: seq<Decoding>, ds': seq<Decoding>, id: RequestId)
    ensures Decoded(ds + ds', id) == Decoded(ds, id) + Decoded(ds', id)
  {
    if ds == [] {
      assert ds + ds' == ds';
    } else {
      DecodedConcat(ds[1..], ds', id);
      assert (ds + ds')[1..] == ds[1..] + ds';
    }
  }

  lemma DecodedWithout(ds: seq<Decoding>, i: nat, id: RequestId)
    requires i < |ds|
    ensures Decoded(ds, id) == Decoded(ds[..i] + ds[i + 1..], id) + One(ds[i].id == id)
  {
    assert ds == ds[..i] + ds[i..];
    DecodedConcat(ds[..i], ds[i..], id);
    DecodedConcat(ds[..i], ds[i + 1..], id);
    assert ds[i..][1..] == ds[i + 1..];
  }

  /** How often a request is queued, being decoded, or answered. */
  function Owed(s: State, id: RequestId): nat {
    Queued(s.io, id) + Decoded(s.decoding, id) + Answered(s.answers, id)
  }

  /** The request that a step drops without an answer: a cancelled load that comes up. */
  predicate Drops(s: State, e: Event, id: RequestId) {
    e.RunIO? && s.io != [] && s.io[0].Load? && s.io[0].id == id && id in s.cancelled
  }

  lemma RespondOwes(s: State, id': RequestId, key: Key, image: Option<Image>, from: CacheType, id: RequestId)
    ensures Owed(Respond(s, id', key, image, from), id) == Owed(s, id) + One(id' == id)
  {
    AnsweredAppend(s.answers, Answer(id', key, image, from), id);
  }

  lemma BlockOwes(c: Config, s: State, b: Block, removed: set<FileName>, id: RequestId)
    ensures Owed(RunBlock(c, s, b, removed), id)
         == Owed(s, id) + One(b.Load? && b.id == id && b.id !in s.cancelled)
  {
    if b.Load? && b.id !in s.cancelled {
      match DiskImage(c, s, b.key)
      case None => RespondOwes(s, b.id, b.key, None, NoCache, id);
      case Some(image) =>
        DecodedConcat(s.decoding, [Decoding(b.id, b.key, image)], id);
        RespondOwes(s.(memory := s.memory[b.key := image]), b.id, b.key, Some(image), Disk, id);
    }
  }

  lemma RetrieveOwes(s: State, key: Key, memoryOnly: bool, background: bool, id: RequestId)
    ensures Owed(DoRetrieve(s, key, memoryOnly, background), id) == Owed(s, id) + One(id == s.nextId)
  {
    var t := s.(nextId := s.nextId + 1);
    if key in s.memory {
      RespondOwes(t, s.nextId, key, Some(s.memory[key]), Memory, id);
    } else if memoryOnly {
      RespondOwes(t, s.nextId, key, None, NoCache, id);
    } else {
      QueuedAppend(s.io, Load(s.nextId, key, background), id);
    }
  }

  lemma DecodingOwes(c: Config, s: State, i: nat, id: RequestId)
    requires i < |s.decoding|
    ensures Owed(Step(c, s, RunDecoding(i)), id) == Owed(s, id)
  {
    var d := s.decoding[i];
    var t := s.(decoding := s.decoding[..i] + s.decoding[i + 1..]);
    DecodedWithout(s.decoding, i, id);
    RespondOwes(t.(memory := t.memory[d.key := d.image]), d.id, d.key, Some(d.image), Disk, id);
  }

  lemma StepOwes(c: Config, s: State, e: Event, id: RequestId)
    requires Enabled(s, e)
    ensures Owed(Step(c, s, e), id) + One(Drops(s, e, id)) == Owed(s, id) + One(e.Retrieve? && id == s.nextId)
  {
    match e
    case Store(k, _, data, _) => QueuedAppend(s.io, Write(k, data), id);
    case Remove(k, _, _) => QueuedAppend(s.io, RemoveFile(k), id);
    case Retrieve(k, memoryOnly, background) => RetrieveOwes(s, k, memoryOnly, background, id);
    case ClearDisk => QueuedAppend(s.io, ClearFiles, id);
    case CleanDisk => QueuedAppend(s.io, CleanFiles, id);
    case RunIO(removed) => BlockOwes(c, s.(io := s.io[1..]), s.io[0], removed, id);
    case RunDecoding(i) => DecodingOwes(c, s, i, id);
    case _ =>
  }

  lemma StepCounts(c: Config, s: State, e: Event)
    requires Enabled(s, e)
    ensures Step(c, s, e).nextId == s.nextId + One(e.Retrieve?) && s.cancelled <= Step(c, s, e).cancelled
  {
  }

  ghost predicate OwedOnce(s: State, id: RequestId) {
    Owed(s, id) <= One(id < s.nextId) && (id < s.nextId && id !in s.cancelled ==> Owed(s, id) == 1)
  }

  lemma StepOwesOnce(c: Config, s: State, e: Event, id: RequestId)
    requires Enabled(s, e) && OwedOnce(s, id)
    ensures OwedOnce(Step(c, s, e), id)
  {
    StepOwes(c, s, e, id);
    StepCounts(c, s, e);
  }

  lemma {:induction false} RunOwesOnce(c: Config, tr: seq<Event>, t: State, id: RequestId)
    requires Run(c, INIT, tr, t)
    ensures OwedOnce(t, id)
    decreases |tr|
  {
    if tr != [] {
      var s := LastStep(c, INIT, tr, t);
      RunOwesOnce(c, tr[..|tr| - 1], s, id);
      StepOwesOnce(c, s, tr[|tr| - 1], id);
    }
  }

  /** The completion handler of every retrieval is called at most once, and exactly once when it was
      not cancelled and nothing is queued or being decoded for it. */
  lemma AnsweredOnce(c: Config, tr: seq<Event>, t: State, id: RequestId)
    requires Run(c, INIT, tr, t)
    ensures Answered(t.answers, id) <= 1
    ensures id < t.nextId && id !in t.cancelled && t.io == [] && t.decoding == [] ==> Answered(t.answers, id) == 1
  {
    RunOwesOnce(c, tr, t, id);
  }

  /** The request is cancelled and nothing decodes for it any more. */
  ghost predicate Silenced(s: State, id: RequestId) {
    id < s.nextId && id in s.cancelled && Decoded(s.decoding, id) == 0
  }

  lemma SilencedBlock(c: Config, s: State, b: Block, removed: set<FileName>, id: RequestId)
    requires Silenced(s, id)
    ensures var t := RunBlock(c, s, b, removed);
      Silenced(t, id) && Answered(t.answers, id) == Answered(s.answers, id)
  {
    if b.Load? && b.id !in s.cancelled {
      match DiskImage(c, s, b.key)
      case None => AnsweredAppend(s.answers, Answer(b.id, b.key, None, NoCache), id);
      case Some(image) =>
        DecodedConcat(s.decoding, [Decoding(b.id, b.key, image)], id);
        AnsweredAppend(s.answers, Answer(b.id, b.key, Some(image), Disk), id);
    }
  }

  lemma SilencedStep(c: Config, s: State, e: Event, id: RequestId)
    requires Enabled(s, e) && Silenced(s, id)
    ensures Silenced(Step(c, s, e), id) && Answered(Step(c, s, e).answers, id) == Answered(s.answers, id)
  {
    match e
    case Retrieve(key, memoryOnly, background) =>
      RetrieveOwes(s, key, memoryOnly, background, id);
      if key in s.memory {
        AnsweredAppend(s.answers, Answer(s.nextId, key, Some(s.memory[key]), Memory), id);
      } else {
        AnsweredAppend(s.answers, Answer(s.nextId, key, None, NoCache), id);
      }
    case RunIO(removed) => SilencedBlock(c, s.(io := s.io[1..]), s.io[0], removed, id);
    case RunDecoding(i) =>
      var d := s.decoding[i];
      DecodedWithout(s.decoding, i, id);
      AnsweredAppend(s.answers, Answer(d.id, d.key, Some(d.image), Disk), id);
    case _ =>
  }

  /** A retrieval that is cancelled before it decodes is never answered any more. */
  lemma {:induction false} CancelledIsSilent(c: Config, s: State, tr: seq<Event>, t: State, id: RequestId)
    requires Silenced(s, id) && Run(c, s, tr, t)
    ensures Silenced(t, id) && Answered(t.answers, id) == Answered(s.answers, id)
    decreases |tr|
  {
    if tr != [] {
      var u := LastStep(c, s, tr, t);
      CancelledIsSilent(c, s, tr[..|tr| - 1], u, id);
      SilencedStep(c, u, tr[|tr| - 1], id);
    }
  }
}

/** The limits on the disk cache: expired files go first, then the least recently accessed ones. */
module DiskCleanup {
  import opened Basics

  type Url = string

  /** A directory entry with its resource values. */
  datatype File = File(url: Url, isDirectory: bool, accessDate: Option<int>, allocatedSize: Option<nat>)

  /** A limit date exists when the period is not negative. */
  predicate Expired(f: File, expiredDate: Option<int>) {
    !f.isDirectory && expiredDate.Some? && f.accessDate.Some? && f.accessDate.value <= expiredDate.value
  }

  predicate Counted(f: File, expiredDate: Option<int>) {
    !f.isDirectory && !Expired(f, expiredDate) && f.allocatedSize.Some?
  }

  function ExpiredOf(files: seq<File>, expiredDate: Option<int>): seq<File> {
    if files == [] then []
    else
      ExpiredOf(files[..|files| - 1], expiredDate)
      + if Expired(files[|files| - 1], expiredDate) then [files[|files| - 1]] else []
  }

  function CountedOf(files: seq<File>, expiredDate: Option<int>): seq<File> {
    if files == [] then []
    else
      CountedOf(files[..|files| - 1], expiredDate)
      + if Counted(files[|files| - 1], expiredDate) then [files[|files| - 1]] else []
  }

  /** Files that the listing reports without a size count for nothing. */
  function SizeOf(f: File): nat { if f.allocatedSize.Some? then f.allocatedSize.value else 0 }

  function TotalSize(files: seq<File>): nat {
    if files == [] then 0 else SizeOf(files[0]) + TotalSize(files[1..])
  }

  lemma {:induction false} TotalAppend(files: seq<File>, f: File)
    ensures TotalSize(files + [f]) == TotalSize(files) + SizeOf(f)
  {
    if files == [] {
      assert files + [f] == [f];
    } else {
      TotalAppend(files[1..], f);
      assert (files + [f])[1..] == files[1..] + [f];
    }
  }

  /** The order of the cleaning: by access date, when both files have one. */
  predicate Before(a: File, b: File) {
    a.accessDate.Some? && b.accessDate.Some? ==> a.accessDate.value < b.accessDate.value
  }

  ghost predicate Ascending(files: seq<File>) {
    forall i, j :: 0 <= i < j < |files| && files[i].accessDate.Some? && files[j].accessDate.Some? ==>
      files[i].accessDate.value <= files[j].accessDate.value
  }

  /** One pass over the directory. */
  method TravelCachedFiles(files: seq<File>, expiredDate: Option<int>)
    returns (urlsToDelete: seq<File>, diskCacheSize: nat, cachedFiles: seq<File>)
    ensures urlsToDelete == ExpiredOf(files, expiredDate)
    ensures cachedFiles == CountedOf(files, expiredDate) && diskCacheSize == TotalSize(cachedFiles)
    ensures diskCacheSize == UnexpiredSize(files, expiredDate)
    ensures forall f :: Parts(files, expiredDate, urlsToDelete, cachedFiles, f)
  {
    urlsToDelete, diskCacheSize, cachedFiles := [], 0, [];
    for i := 0 to |files|
      invariant urlsToDelete == ExpiredOf(files[..i], expiredDate)
      invariant cachedFiles == CountedOf(files[..i], expiredDate) && diskCacheSize == TotalSize(cachedFiles)
    {
      var f := files[i];
      assert files[..i + 1][..i] == files[..i];
      if f.isDirectory {
      } else if expiredDate.Some? && f.accessDate.Some? && f.accessDate.value <= expiredDate.value {
        urlsToDelete := urlsToDelete + [f];
      } else if f.allocatedSize.Some? {
        TotalAppend(cachedFiles, f);
        diskCacheSize := diskCacheSize + f.allocatedSize.value;
        cachedFiles := cachedFiles + [f];
      }
    }
    assert files[..|files|] == files;
    CountedSize(files, expiredDate);
    forall f ensures Parts(files, expiredDate, urlsToDelete, cachedFiles, f) { PassParts(files, expiredDate, f); }
  }

  /** A file that is no directory is to be deleted if its date has come, and counts otherwise if it
      has a size. */
  ghost predicate Parts(files: seq<File>, expiredDate: Option<int>, expired: seq<File>, counted: seq<File>, f: File) {
    var due := expiredDate.Some? && f.accessDate.Some? && f.accessDate.value <= expiredDate.value;
    && multiset(expired)[f] == (if !f.isDirectory && due then multiset(files)[f] else 0)
    && multiset(counted)[f] == (if !f.isDirectory && !due && f.allocatedSize.Some? then multiset(files)[f] else 0)
  }

  /** What the files take that have not expired. */
  function UnexpiredSize(files: seq<File>, expiredDate: Option<int>): nat {
    if files == [] then 0
    else
      var (rest, f) := (files[..|files| - 1], files[|files| - 1]);
      UnexpiredSize(rest, expiredDate)
      + if f.isDirectory
           || (expiredDate.Some? && f.accessDate.Some? && f.accessDate.value <= expiredDate.value)
           || f.allocatedSize == None
        then 0 else f.allocatedSize.value
  }

  lemma {:induction false} CountedSize(files: seq<File>, expiredDate: Option<int>)
    ensures UnexpiredSize(files, expiredDate) == TotalSize(CountedOf(files, expiredDate))
  {
    if files != [] {
      var rest, f := files[..|files| - 1], files[|files| - 1];
      CountedSize(rest, expiredDate);
      TotalAppend(CountedOf(rest, expiredDate), f);
      assert CountedOf(rest, expiredDate) + [] == CountedOf(rest, expiredDate);
    }
  }

  lemma AppendedIf(files: seq<File>, f: File, added: bool, g: File)
    ensures multiset(files + if added then [f] else [])[g] == multiset(files)[g] + if added && g == f then 1 else 0
  {
  }

  lemma LastOccurs(files: seq<File>, f: File)
    requires files != []
    ensures var (rest, last) := (files[..|files| - 1], files[|files| - 1]);
      multiset(files)[f] == multiset(rest)[f] + if last == f then 1 else 0
  {
    assert files == files[..|files| - 1] + [files[|files| - 1]];
  }

  lemma {:induction false} ExpiredOccur(files: seq<File>, expiredDate: Option<int>, f: File)
    ensures multiset(ExpiredOf(files, expiredDate))[f] == if Expired(f, expiredDate) then multiset(files)[f] else 0
  {
    if files != [] {
      var rest, last := files[..|files| - 1], files[|files| - 1];
      ExpiredOccur(rest, expiredDate, f);
      LastOccurs(files, f);
      AppendedIf(ExpiredOf(rest, expiredDate), last, Expired(last, expiredDate), f);
    }
  }

  lemma {:induction false} CountedOccur(files: seq<File>, expiredDate: Option<int>, f: File)
    ensures multiset(CountedOf(files, expiredDate))[f] == if Counted(f, expiredDate) then multiset(files)[f] else 0
  {
    if files != [] {
      var rest, last := files[..|files| - 1], files[|files| - 1];
      CountedOccur(rest, expiredDate, f);
      LastOccurs(files, f);
      AppendedIf(CountedOf(rest, expiredDate), last, Counted(last, expiredDate), f);
    }
  }

  lemma PassParts(files: seq<File>, expiredDate: Option<int>, f: File)
    ensures Parts(files, expiredDate, ExpiredOf(files, expiredDate), CountedOf(files, expiredDate), f)
  {
    ExpiredOccur(files, expiredDate, f);
    CountedOccur(files, expiredDate, f);
  }

  predicate AllDated(files: seq<File>) { forall f <- files :: f.accessDate.Some? }

  /** A sort by the order of the cleaning. Between files without a date that order is not one, and only
      the permutation is promised. */
  method SortedByDate(files: seq<File>) returns (sorted: seq<File>)
    ensures multiset(sorted) == multiset(files)
    ensures AllDated(files) ==> Ascending(sorted)
  {
    sorted := [];
    for i := 0 to |files|
      invariant multiset(sorted) == multiset(files[..i])
      invariant AllDated(files) ==> Ascending(sorted) && AllDated(sorted)
    {
      assert files[..i + 1] == files[..i] + [files[i]];
      sorted := Insert(sorted, files[i]);
    }
    assert files[..|files|] == files;
  }

  method Insert(sorted: seq<File>, f: File) returns (r: seq<File>)
    ensures multiset(r) == multiset(sorted) + multiset{f}
    ensures Ascending(sorted) && AllDated(sorted) && f.accessDate.Some? ==> Ascending(r) && AllDated(r)
  {
    var i := 0;
    while i < |sorted| && !Before(f, sorted[i])
      invariant 0 <= i <= |sorted|
      invariant forall j :: 0 <= j < i ==> !Before(f, sorted[j])
    {
      i := i + 1;
    }
    r := sorted[..i] + [f] + sorted[i..];
    InsertedFiles(sorted, f, i);
    if Ascending(sorted) && AllDated(sorted) && f.accessDate.Some? { InsertedAscending(sorted, f, i); }
  }

  lemma InsertedFiles(sorted: seq<File>, f: File, i: nat)
    requires i <= |sorted|
    ensures multiset(sorted[..i] + [f] + sorted[i..]) == multiset(sorted) + multiset{f}
  {
    assert sorted == sorted[..i] + sorted[i..];
  }

  lemma InsertedAscending(sorted: seq<File>, f: File, i: nat)
    requires i <= |sorted| && Ascending(sorted) && AllDated(sorted) && f.accessDate.Some?
    requires (forall j :: 0 <= j < i ==> !Before(f, sorted[j])) && (i < |sorted| ==> Before(f, sorted[i]))
    ensures Ascending(sorted[..i] + [f] + sorted[i..]) && AllDated(sorted[..i] + [f] + sorted[i..])
  {
    assert forall j :: 0 <= j < |sorted| ==> sorted[j] in sorted;
  }

  // ---- eviction ----

  /** How many files go: one after the other until what is left is smaller than the target. */
  function Evictions(sorted: seq<File>, target: nat): (n: nat)
    ensures n <= |sorted|
  {
    if sorted == [] then 0
    else if TotalSize(sorted[1..]) < target then 1
    else 1 + Evictions(sorted[1..], target)
  }

  /** Eviction stops at the first total below the target, or when no counted file is left. */
  lemma {:induction false} EvictionStopsFirst(sorted: seq<File>, target: nat, m: nat)
    requires sorted != []
    ensures var n := Evictions(sorted, target);
      && 1 <= n
      && (n < |sorted| ==> TotalSize(sorted[n..]) < target)
      && (1 <= m < n ==> TotalSize(sorted[m..]) >= target)
  {
    var n := Evictions(sorted, target);
    if TotalSize(sorted[1..]) >= target {
      if |sorted| > 1 {
        EvictionStopsFirst(sorted[1..], target, if m > 1 then m - 1 else 1);
        assert sorted[1..][n - 1..] == sorted[n..];
        if m > 1 && m < n { assert sorted[1..][m - 1..] == sorted[m..]; }
      } else {
        assert sorted[1..] == [];
      }
    }
  }

  /** A size limit of zero is none. */
  predicate Exceeds(sorted: seq<File>, max: nat) { max > 0 && TotalSize(sorted) > max }

  /** How many of the counted files a cleaning evicts. */
  function Removed(sorted: seq<File>, max: nat): (n: nat)
    ensures n <= |sorted|
  {
    if Exceeds(sorted, max) then Evictions(sorted, max / 2) else 0
  }

  /** With a size limit the counted files that remain fit it; after an eviction they take less than
      half of it. Whatever was evicted was last accessed no later than what remains. */
  lemma CleaningKeepsLimit(sorted: seq<File>, max: nat, i: nat, j: nat)
    requires max > 0
    ensures var n := Removed(sorted, max);
      && TotalSize(sorted[n..]) <= max
      && (n > 0 && n < |sorted| ==> TotalSize(sorted[n..]) < max / 2)
      && (Ascending(sorted) && AllDated(sorted) && i < n <= j < |sorted| ==>
            sorted[i].accessDate.value <= sorted[j].accessDate.value)
  {
    var n := Removed(sorted, max);
    if Exceeds(sorted, max) {
      EvictionStopsFirst(sorted, max / 2, 1);
      if n == |sorted| { assert sorted[n..] == []; }
    } else {
      assert sorted[n..] == sorted;
    }
  }

  /** The expired files, then the counted ones in the order of their last access as far as the limit asks. */
  ghost predicate Condemned(
    files: seq<File>, expiredDate: Option<int>, max: nat, sorted: seq<File>, deleted: seq<File>)
  {
    && multiset(sorted) == multiset(CountedOf(files, expiredDate))
    && (AllDated(CountedOf(files, expiredDate)) ==> Ascending(sorted))
    && deleted == ExpiredOf(files, expiredDate) + sorted[..Removed(sorted, max)]
  }

  lemma {:induction false} ExpiredAndCountedAreListed(files: seq<File>, expiredDate: Option<int>, f: File)
    requires f in ExpiredOf(files, expiredDate) || f in CountedOf(files, expiredDate)
    ensures f in files && !f.isDirectory
  {
    if files != [] {
      var rest := files[..|files| - 1];
      if f in ExpiredOf(rest, expiredDate) || f in CountedOf(rest, expiredDate) {
        ExpiredAndCountedAreListed(rest, expiredDate, f);
      }
    }
  }

  /** Only listed files are deleted, and no directory. */
  lemma CondemnedAreListed(files: seq<File>, expiredDate: Option<int>, max: nat, deleted: seq<File>)
    requires exists sorted :: Condemned(files, expiredDate, max, sorted, deleted)
    ensures forall f <- deleted :: f in files && !f.isDirectory
  {
    var sorted :| Condemned(files, expiredDate, max, sorted, deleted);
    forall f <- deleted ensures f in files && !f.isDirectory {
      if f !in ExpiredOf(files, expiredDate) { assert f in multiset(sorted); }
      ExpiredAndCountedAreListed(files, expiredDate, f);
    }
  }

  // ---- what a cleaning deletes, by the dates and sizes alone ----

  /** Every listed file whose date has come is deleted, another one only if it has a size and the
      files that stay alive exceed the limit, and nothing is deleted that is not listed. */
  ghost predicate DeletesExpired(files: seq<File>, expiredDate: Option<int>, max: nat, deleted: seq<File>) {
    && (forall f <- files :: !f.isDirectory && expiredDate.Some? && f.accessDate.Some?
                             && f.accessDate.value <= expiredDate.value ==>
          multiset(deleted)[f] == multiset(files)[f])
    && (forall f <- deleted :: f in files && !f.isDirectory && multiset(deleted)[f] <= multiset(files)[f])
    && (forall f <- deleted :: (expiredDate.Some? && f.accessDate.Some? && f.accessDate.value <= expiredDate.value)
                               || (f.allocatedSize.Some? && max > 0 && UnexpiredSize(files, expiredDate) > max))
  }

  /** What is left is the total less what was deleted. When the total exceeded the limit, files went
      until less than half of the limit is left or all that count are gone, and the last was needed. */
  ghost predicate DeletesEnough(
    files: seq<File>, expiredDate: Option<int>, max: nat, deleted: seq<File>, diskCacheSize: int)
  {
    && diskCacheSize == UnexpiredSize(files, expiredDate) - UnexpiredSize(deleted, expiredDate)
    && (max > 0 && UnexpiredSize(files, expiredDate) > max ==>
          && deleted != [] && diskCacheSize + SizeOf(deleted[|deleted| - 1]) >= max / 2
          && (diskCacheSize < max / 2
              || forall f <- files :: !f.isDirectory && f.allocatedSize.Some? ==>
                   multiset(deleted)[f] == multiset(files)[f]))
  }

  /** If all files that count have a date, whatever is deleted was accessed no later than whatever
      stays that has a size. */
  ghost predicate DeletesOldest(files: seq<File>, deleted: seq<File>) {
    (forall f <- files :: !f.isDirectory && f.allocatedSize.Some? ==> f.accessDate.Some?) ==>
      forall f <- deleted, g <- files ::
        !g.isDirectory && g.allocatedSize.Some? && multiset(deleted)[g] < multiset(files)[g] ==>
          f.accessDate.Some? && g.accessDate.Some? && f.accessDate.value <= g.accessDate.value
  }

  lemma {:induction false} UnexpiredConcat(a: seq<File>, b: seq<File>, expiredDate: Option<int>)
    ensures UnexpiredSize(a + b, expiredDate) == UnexpiredSize(a, expiredDate) + UnexpiredSize(b, expiredDate)
  {
    if b == [] {
      assert a + b == a;
    } else {
      UnexpiredConcat(a, b[..|b| - 1], expiredDate);
      assert (a + b)[..|a + b| - 1] == a + b[..|b| - 1];
    }
  }

  lemma {:induction false} WeighsNothing(files: seq<File>, expiredDate: Option<int>)
    requires forall f <- files :: Expired(f, expiredDate)
    ensures UnexpiredSize(files, expiredDate) == 0
  {
    if files != [] {
      assert files[|files| - 1] in files;
      WeighsNothing(files[..|files| - 1], expiredDate);
    }
  }

  lemma {:induction false} WeighsAll(files: seq<File>, expiredDate: Option<int>)
    requires forall f <- files :: Counted(f, expiredDate)
    ensures UnexpiredSize(files, expiredDate) == TotalSize(files)
  {
    if files != [] {
      var rest, f := files[..|files| - 1], files[|files| - 1];
      assert f in files && files == rest + [f];
      WeighsAll(rest, expiredDate);
      TotalAppend(rest, f);
    }
  }

  lemma SplitCounts(files: seq<File>, n: nat, f: File)
    requires n <= |files|
    ensures multiset(files)[f] == multiset(files[..n])[f] + multiset(files[n..])[f]
  {
    assert files == files[..n] + files[n..];
  }

  /** How often each file is deleted, and which files are. */
  lemma CondemnedCounts(
      files: seq<File>, expiredDate: Option<int>, max: nat, sorted: seq<File>, deleted: seq<File>, f: File)
    requires Condemned(files, expiredDate, max, sorted, deleted)
    ensures var n := Removed(sorted, max);
      && multiset(sorted)[f] == multiset(CountedOf(files, expiredDate))[f]
      && multiset(sorted)[f] == multiset(sorted[..n])[f] + multiset(sorted[n..])[f]
      && multiset(deleted)[f] == multiset(ExpiredOf(files, expiredDate))[f] + multiset(sorted[..n])[f]
    ensures Parts(files, expiredDate, ExpiredOf(files, expiredDate), CountedOf(files, expiredDate), f)
    ensures f in files <==> multiset(files)[f] > 0
    ensures f in deleted <==> multiset(deleted)[f] > 0
  {
    PassParts(files, expiredDate, f);
    SplitCounts(sorted, Removed(sorted, max), f);
  }

  lemma AreExpired(files: seq<File>, expiredDate: Option<int>)
    ensures forall f <- ExpiredOf(files, expiredDate) :: Expired(f, expiredDate)
    ensures forall f <- CountedOf(files, expiredDate) :: Counted(f, expiredDate)
  {
    forall f <- ExpiredOf(files, expiredDate) ensures Expired(f, expiredDate) {
      PassParts(files, expiredDate, f);
      assert multiset(ExpiredOf(files, expiredDate))[f] > 0;
    }
    forall f <- CountedOf(files, expiredDate) ensures Counted(f, expiredDate) {
      PassParts(files, expiredDate, f);
      assert multiset(CountedOf(files, expiredDate))[f] > 0;
    }
  }

  lemma DeletedSize(
      files: seq<File>, expiredDate: Option<int>, max: nat, sorted: seq<File>, deleted: seq<File>)
    requires Condemned(files, expiredDate, max, sorted, deleted)
    ensures UnexpiredSize(deleted, expiredDate) == TotalSize(sorted[..Removed(sorted, max)])
  {
    var evicted := sorted[..Removed(sorted, max)];
    AreExpired(files, expiredDate);
    forall f <- evicted ensures Counted(f, expiredDate) {
      assert f in multiset(sorted);
      assert f in CountedOf(files, expiredDate);
    }
    WeighsNothing(ExpiredOf(files, expiredDate), expiredDate);
    WeighsAll(evicted, expiredDate);
    UnexpiredConcat(ExpiredOf(files, expiredDate), evicted, expiredDate);
  }

  lemma CondemnedSizes(
      files: seq<File>, expiredDate: Option<int>, max: nat, sorted: seq<File>, deleted: seq<File>)
    requires Condemned(files, expiredDate, max, sorted, deleted)
    ensures var n := Removed(sorted, max);
      && UnexpiredSize(files, expiredDate) == TotalSize(sorted)
      && UnexpiredSize(deleted, expiredDate) == TotalSize(sorted[..n])
      && TotalSize(sorted) == TotalSize(sorted[..n]) + TotalSize(sorted[n..])
  {
    var n := Removed(sorted, max);
    CountedSize(files, expiredDate);
    SameTotal(sorted, CountedOf(files, expiredDate));
    assert sorted == sorted[..n] + sorted[n..];
    TotalConcat(sorted[..n], sorted[n..]);
    DeletedSize(files, expiredDate, max, sorted, deleted);
  }

  lemma CondemnedExpired(
      files: seq<File>, expiredDate: Option<int>, max: nat, sorted: seq<File>, deleted: seq<File>)
    requires Condemned(files, expiredDate, max, sorted, deleted)
    ensures DeletesExpired(files, expiredDate, max, deleted)
  {
    CondemnedSizes(files, expiredDate, max, sorted, deleted);
    forall f <- files | Expired(f, expiredDate) ensures multiset(deleted)[f] == multiset(files)[f] {
      CondemnedCounts(files, expiredDate, max, sorted, deleted, f);
    }
    forall f <- deleted
      ensures f in files && !f.isDirectory && multiset(deleted)[f] <= multiset(files)[f]
      ensures Expired(f, expiredDate)
        || (f.allocatedSize.Some? && max > 0 && UnexpiredSize(files, expiredDate) > max)
    {
      CondemnedCounts(files, expiredDate, max, sorted, deleted, f);
      if !Exceeds(sorted, max) { assert sorted[..0] == []; }
    }
  }

  lemma CondemnedEnough(
      files: seq<File>, expiredDate: Option<int>, max: nat, sorted: seq<File>, deleted: seq<File>)
    requires Condemned(files, expiredDate, max, sorted, deleted)
    ensures DeletesEnough(files, expiredDate, max, deleted, TotalSize(sorted[Removed(sorted, max)..]))
  {
    var n := Removed(sorted, max);
    CondemnedSizes(files, expiredDate, max, sorted, deleted);
    if Exceeds(sorted, max) {
      EvictionStopsFirst(sorted, max / 2, n - 1);
      assert deleted[|deleted| - 1] == sorted[n - 1];
      assert sorted[n - 1..][1..] == sorted[n..];
      assert sorted[0..] == sorted;
      if n == |sorted| {
        assert sorted[n..] == [];
        forall f <- files | !f.isDirectory && f.allocatedSize.Some?
          ensures multiset(deleted)[f] == multiset(files)[f]
        {
          CondemnedCounts(files, expiredDate, max, sorted, deleted, f);
        }
      }
    }
  }

  lemma CondemnedOldest(
      files: seq<File>, expiredDate: Option<int>, max: nat, sorted: seq<File>, deleted: seq<File>, f: File, g: File)
    requires Condemned(files, expiredDate, max, sorted, deleted) && f in deleted && g in files
    requires forall h <- files :: !h.isDirectory && h.allocatedSize.Some? ==> h.accessDate.Some?
    requires !g.isDirectory && g.allocatedSize.Some? && multiset(deleted)[g] < multiset(files)[g]
    ensures f.accessDate.Some? && g.accessDate.Some? && f.accessDate.value <= g.accessDate.value
  {
    var n := Removed(sorted, max);
    CondemnedCounts(files, expiredDate, max, sorted, deleted, f);
    CondemnedCounts(files, expiredDate, max, sorted, deleted, g);
    assert multiset(sorted[n..])[g] > 0;
    assert g in sorted[n..];
    var j :| n <= j < |sorted| && sorted[j] == g;
    if !Expired(f, expiredDate) {
      assert multiset(sorted[..n])[f] > 0;
      assert f in sorted[..n];
      var i :| 0 <= i < n && sorted[i] == f;
      CountedAreDated(files, expiredDate);
    }
  }

  lemma CountedAreDated(files: seq<File>, expiredDate: Option<int>)
    requires forall h <- files :: !h.isDirectory && h.allocatedSize.Some? ==> h.accessDate.Some?
    ensures AllDated(CountedOf(files, expiredDate))
  {
    forall f <- CountedOf(files, expiredDate) ensures f.accessDate.Some? {
      PassParts(files, expiredDate, f);
      assert multiset(CountedOf(files, expiredDate))[f] > 0;
      assert f in files;
    }
  }

  lemma CondemnedIsClean(
      files: seq<File>, expiredDate: Option<int>, max: nat, sorted: seq<File>, deleted: seq<File>)
    requires Condemned(files, expiredDate, max, sorted, deleted)
    ensures DeletesExpired(files, expiredDate, max, deleted)
    ensures DeletesEnough(files, expiredDate, max, deleted, TotalSize(sorted[Removed(sorted, max)..]))
    ensures DeletesOldest(files, deleted)
  {
    CondemnedExpired(files, expiredDate, max, sorted, deleted);
    CondemnedEnough(files, expiredDate, max, sorted, deleted);
    if forall f <- files :: !f.isDirectory && f.allocatedSize.Some? ==> f.accessDate.Some? {
      forall f <- deleted, g <- files |
        !g.isDirectory && g.allocatedSize.Some? && multiset(deleted)[g] < multiset(files)[g]
        ensures f.accessDate.Some? && g.accessDate.Some? && f.accessDate.value <= g.accessDate.value
      {
        CondemnedOldest(files, expiredDate, max, sorted, deleted, f, g);
      }
    }
  }

  /** Cleans the disk cache. The subtraction never goes below zero. */
  method CleanExpiredDiskCache(files: seq<File>, expiredDate: Option<int>, maxDiskCacheSize: nat)
    returns (urlsToDelete: seq<File>, diskCacheSize: nat)
    ensures exists sorted ::
      && Condemned(files, expiredDate, maxDiskCacheSize, sorted, urlsToDelete)
      && diskCacheSize == TotalSize(sorted[Removed(sorted, maxDiskCacheSize)..])
    ensures DeletesExpired(files, expiredDate, maxDiskCacheSize, urlsToDelete)
    ensures DeletesEnough(files, expiredDate, maxDiskCacheSize, urlsToDelete, diskCacheSize)
    ensures DeletesOldest(files, urlsToDelete)
  {
    var cachedFiles: seq<File>;
    urlsToDelete, diskCacheSize, cachedFiles := TravelCachedFiles(files, expiredDate);
    var sortedFiles := SortedByDate(cachedFiles);
    SameTotal(sortedFiles, cachedFiles);
    assert sortedFiles[0..] == sortedFiles;
    if maxDiskCacheSize > 0 && diskCacheSize > maxDiskCacheSize {
      var evicted: seq<File>;
      evicted, diskCacheSize := Evict(sortedFiles, diskCacheSize, maxDiskCacheSize / 2);
      urlsToDelete := urlsToDelete + evicted;
    }
    assert Condemned(files, expiredDate, maxDiskCacheSize, sortedFiles, urlsToDelete);
    CondemnedIsClean(files, expiredDate, maxDiskCacheSize, sortedFiles, urlsToDelete);
  }

  method Evict(sortedFiles: seq<File>, totalSize: nat, targetSize: nat) returns (evicted: seq<File>, diskCacheSize: nat)
    requires totalSize == TotalSize(sortedFiles)
    ensures evicted == sortedFiles[..Evictions(sortedFiles, targetSize)]
    ensures diskCacheSize == TotalSize(sortedFiles[Evictions(sortedFiles, targetSize)..])
  {
    evicted, diskCacheSize := [], totalSize;
    var i := 0;
    assert sortedFiles[0..] == sortedFiles;
    while i < |sortedFiles|
      invariant 0 <= i <= |sortedFiles| && evicted == sortedFiles[..i] && diskCacheSize == TotalSize(sortedFiles[i..])
      invariant Evictions(sortedFiles, targetSize) == i + Evictions(sortedFiles[i..], targetSize)
    {
      var f := sortedFiles[i];
      assert sortedFiles[i..][0] == f && sortedFiles[i..][1..] == sortedFiles[i + 1..];
      evicted := evicted + [f];
      if f.allocatedSize.Some? { diskCacheSize := diskCacheSize - f.allocatedSize.value; }
      i := i + 1;
      if diskCacheSize < targetSize { break; }
    }
  }

  lemma {:induction false} TotalConcat(a: seq<File>, b: seq<File>)
    ensures TotalSize(a + b) == TotalSize(a) + TotalSize(b)
  {
    if a == [] {
      assert a + b == b;
    } else {
      TotalConcat(a[1..], b);
      assert (a + b)[1..] == a[1..] + b;
    }
  }

  lemma TotalWithout(b: seq<File>, i: nat)
    requires i < |b|
    ensures TotalSize(b) == SizeOf(b[i]) + TotalSize(b[..i] + b[i + 1..])
  {
    assert b == b[..i] + b[i..];
    TotalConcat(b[..i], b[i..]);
    TotalConcat(b[..i], b[i + 1..]);
    assert b[i..][1..] == b[i + 1..];
  }

  lemma SameRest(a: seq<File>, b: seq<File>, i: nat)
    requires multiset(a) == multiset(b) && a != [] && i < |b| && b[i] == a[0]
    ensures multiset(a[1..]) == multiset(b[..i] + b[i + 1..])
  {
    assert a == [a[0]] + a[1..];
    assert b == b[..i] + [b[i]] + b[i + 1..];
    assert multiset(a) == multiset{a[0]} + multiset(a[1..]);
    assert multiset(b) == multiset{a[0]} + multiset(b[..i] + b[i + 1..]);
    CancelOne(a[0], multiset(a[1..]), multiset(b[..i] + b[i + 1..]));
  }

  lemma CancelOne(f: File, m: multiset<File>, n: multiset<File>)
    requires multiset{f} + m == multiset{f} + n
    ensures m == n
  {
    forall g ensures m[g] == n[g] {
      assert (multiset{f} + m)[g] == (multiset{f} + n)[g];
    }
  }

  /** The order of the files does not matter for their total. */
  lemma {:induction false} SameTotal(a: seq<File>, b: seq<File>)
    requires multiset(a) == multiset(b)
    ensures TotalSize(a) == TotalSize(b)
  {
    if a == [] {
      assert |multiset(b)| == 0;
    } else {
      assert a[0] in multiset(b);
      var i :| 0 <= i < |b| && b[i] == a[0];
      SameRest(a, b, i);
      SameTotal(a[1..], b[..i] + b[i + 1..]);
      TotalWithout(b, i);
    }
  }
}

/** `ImageCache` with its two levels and its queues updated in place. Each method is one call or one
    block and is proved to do what the matching event of `ImageCacheProtocol` does. */
module ImageCacheObject {
  import opened Basics
  import opened ImageCacheProtocol
  import DiskCleanup

  class ImageCache {
    const config: Config
    var memoryCache: map<Key, Image>
    var disk: map<FileName, Data>
    var ioQueue: seq<Block>
    var processQueue: seq<Decoding>
    var cancelled: set<RequestId>
    var answers: seq<Answer>
    var nextId: RequestId

    ghost function View(): State
      reads this
    {
      State(memoryCache, disk, ioQueue, processQueue, cancelled, answers, nextId)
    }

    constructor (config: Config)
      ensures View() == INIT && this.config == config
    {
      this.config := config;
      memoryCache, disk, ioQueue, processQueue, cancelled, answers, nextId := map[], map[], [], [], {}, [], 0;
    }

    /** `data` is the serializer's answer for the image. */
    method Store(image: Image, data: Option<Data>, key: string, identifier: string, toDisk: bool)
      modifies this
      ensures View() == Step(config, old(View()),
                             ImageCacheProtocol.Store(ComputedKey(key, identifier), image, data, toDisk))
    {
      var computedKey := ComputedKey(key, identifier);
      memoryCache := memoryCache[computedKey := image];
      if toDisk { ioQueue := ioQueue + [Write(computedKey, data)]; }
    }

    method RemoveImage(key: string, identifier: string, fromMemory: bool, fromDisk: bool)
      modifies this
      ensures View() == Step(config, old(View()), Remove(ComputedKey(key, identifier), fromMemory, fromDisk))
    {
      var computedKey := ComputedKey(key, identifier);
      if fromMemory { memoryCache := memoryCache - {computedKey}; }
      if fromDisk { ioQueue := ioQueue + [RemoveFile(computedKey)]; }
    }

    method RetrieveImage(key: string, identifier: string, fromMemoryCacheOrRefresh: bool, backgroundDecode: bool)
      returns (id: RequestId)
      modifies this
      ensures id == old(nextId)
      ensures View() == Step(config, old(View()),
                             Retrieve(ComputedKey(key, identifier), fromMemoryCacheOrRefresh, backgroundDecode))
    {
      var computedKey := ComputedKey(key, identifier);
      id := nextId;
      nextId := nextId + 1;
      if computedKey in memoryCache {
        answers := answers + [Answer(id, computedKey, Some(memoryCache[computedKey]), Memory)];
      } else if fromMemoryCacheOrRefresh {
        answers := answers + [Answer(id, computedKey, None, NoCache)];
      } else {
        ioQueue := ioQueue + [Load(id, computedKey, backgroundDecode)];
      }
    }

    /** Cancels the work item of a retrieval. */
    method CancelRetrieval(id: RequestId)
      requires id < nextId
      modifies this
      ensures View() == Step(config, old(View()), Cancel(id))
    {
      cancelled := cancelled + {id};
    }

    /** The memory level may drop an image at any time. */
    method EvictFromMemory(key: Key)
      modifies this
      ensures View() == Step(config, old(View()), Evict(key))
    {
      memoryCache := memoryCache - {key};
    }

    method ClearMemoryCache()
      modifies this
      ensures View() == Step(config, old(View()), ClearMemory)
    {
      memoryCache := map[];
    }

    method ClearDiskCache()
      modifies this
      ensures View() == Step(config, old(View()), ClearDisk)
    {
      ioQueue := ioQueue + [ClearFiles];
    }

    method CleanExpiredDiskCache()
      modifies this
      ensures View() == Step(config, old(View()), CleanDisk)
    {
      ioQueue := ioQueue + [CleanFiles];
    }

    /** The directory listing names the files on the disk, and perhaps some directories. */
    ghost predicate Lists(listing: seq<DiskCleanup.File>)
      reads `disk
    {
      (set f | f in listing && !f.isDirectory :: f.url) == disk.Keys
    }

    /** Deletes the files that the limits condemn, which are files on the disk. */
    method DeleteFiles(listing: seq<DiskCleanup.File>, expiredDate: Option<int>, maxDiskCacheSize: nat)
      returns (urlsToDelete: seq<DiskCleanup.File>)
      requires Lists(listing)
      modifies `disk
      ensures forall f <- urlsToDelete :: f in listing && f.url in old(disk)
      ensures exists sorted :: DiskCleanup.Condemned(listing, expiredDate, maxDiskCacheSize, sorted, urlsToDelete)
      ensures disk == old(disk) - set f <- urlsToDelete :: f.url
    {
      var diskCacheSize;
      urlsToDelete, diskCacheSize := DiskCleanup.CleanExpiredDiskCache(listing, expiredDate, maxDiskCacheSize);
      DiskCleanup.CondemnedAreListed(listing, expiredDate, maxDiskCacheSize, urlsToDelete);
      RemoveItems(urlsToDelete);
    }

    method RemoveItems(urlsToDelete: seq<DiskCleanup.File>)
      modifies `disk
      ensures disk == old(disk) - set f <- urlsToDelete :: f.url
    {
      for i := 0 to |urlsToDelete|
        invariant disk == old(disk) - set f <- urlsToDelete[..i] :: f.url
      {
        assert urlsToDelete[..i + 1] == urlsToDelete[..i] + [urlsToDelete[i]];
        disk := disk - {urlsToDelete[i].url};
      }
      assert urlsToDelete[..|urlsToDelete|] == urlsToDelete;
    }

    /** The io queue runs its next block; `listing` is what the directory holds if that is a cleaning. */
    method RunNextBlock(listing: seq<DiskCleanup.File>, expiredDate: Option<int>, maxDiskCacheSize: nat)
      returns (urlsToDelete: seq<DiskCleanup.File>)
      requires ioQueue != [] && (ioQueue[0].CleanFiles? ==> Lists(listing))
      modifies this
      ensures forall f <- urlsToDelete :: f.url in old(disk)
      ensures View() == Step(config, old(View()), RunIO(set f <- urlsToDelete :: f.url))
      ensures old(ioQueue)[0].CleanFiles? ==>
        exists sorted :: DiskCleanup.Condemned(listing, expiredDate, maxDiskCacheSize, sorted, urlsToDelete)
    {
      urlsToDelete := [];
      var block := ioQueue[0];
      ioQueue := ioQueue[1..];
      match block
      case Write(key, data) =>
        if data.Some? { disk := disk[config.fileName(key) := data.value]; }
      case RemoveFile(key) =>
        disk := disk - {config.fileName(key)};
      case ClearFiles =>
        disk := map[];
      case CleanFiles =>
        urlsToDelete := DeleteFiles(listing, expiredDate, maxDiskCacheSize);
      case Load(id, key, background) =>
        if id !in cancelled { LoadFromDisk(id, key, background); }
    }

    method LoadFromDisk(id: RequestId, key: Key, backgroundDecode: bool)
      requires id !in cancelled
      modifies this
      ensures View() == RunBlock(config, old(View()), Load(id, key, backgroundDecode), {})
    {
      var image: Option<Image> := None;
      if config.fileName(key) in disk { image := config.decode(disk[config.fileName(key)]); }
      if image.Some? {
        if backgroundDecode {
          processQueue := processQueue + [Decoding(id, key, image.value)];
        } else {
          memoryCache := memoryCache[key := image.value];
          answers := answers + [Answer(id, key, image, Disk)];
        }
      } else {
        answers := answers + [Answer(id, key, None, NoCache)];
      }
    }

    /** The process queue finishes one of its decodings. */
    method FinishDecoding(i: nat)
      requires i < |processQueue|
      modifies this
      ensures View() == Step(config, old(View()), RunDecoding(i))
    {
      var d := processQueue[i];
      processQueue := processQueue[..i] + processQueue[i + 1..];
      memoryCache := memoryCache[d.key := d.image];
      answers := answers + [Answer(d.id, d.key, Some(d.image), Disk)];
    }
  }
}
