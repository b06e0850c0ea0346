/** The frame ring of `Animator`: `n` source frames, `k` buffered slots, and refills that a serial
    queue performs later, in order. */
module AnimatorProtocol {
  import opened Basics

  datatype Frame = Frame(image: Option<nat>, duration: real)

  const NULL_FRAME := Frame(None, 0.0)
  const MAX_TIME_STEP := 1.0

  datatype State = State(
    source: seq<Frame>,
    slots: seq<Frame>,
    currentFrameIndex: nat,
    currentFrameIndexInBuffer: nat,
    currentPreloadIndex: int,
    timeSinceLastFrameChange: real,
    currentRepeatCount: nat,
    refills: seq<nat>)

  datatype Event = Tick(duration: real) | Refill

  /** Decoding outside the source gives the null frame. */
  function PrepareFrame(source: seq<Frame>, index: int): Frame {
    if 0 <= index < |source| then source[index] else NULL_FRAME
  }

  function Prepare(source: seq<Frame>, maxFrameCount: nat): State
    requires source != []
  {
    var count := Min(|source|, maxFrameCount);
    State(source, source[..count], 0, 0, (count + 1) % |source| - 1, 0.0, 0, [])
  }

  function TimeStep(duration: real): real { if MAX_TIME_STEP <= duration then MAX_TIME_STEP else duration }

  /** Whether a tick moves on to the next frame. */
  predicate Advances(s: State, duration: real) {
    && s.currentFrameIndexInBuffer < |s.slots|
    && s.slots[s.currentFrameIndexInBuffer].duration <= s.timeSinceLastFrameChange + TimeStep(duration)
  }

  function Update(s: State, duration: real): State {
    var time := s.timeSinceLastFrameChange + TimeStep(duration);
    if !Advances(s, duration) then s.(timeSinceLastFrameChange := time)
    else
      var last := s.currentFrameIndexInBuffer;
      var wraps := s.currentFrameIndex + 1 == |s.source|;
      s.(timeSinceLastFrameChange := time - s.slots[last].duration,
         currentFrameIndexInBuffer := (last + 1) % |s.slots|,
         refills := if |s.slots| < |s.source| then s.refills + [last] else s.refills,
         currentFrameIndex := if wraps then 0 else s.currentFrameIndex + 1,
         currentRepeatCount := if wraps then s.currentRepeatCount + 1 else s.currentRepeatCount)
  }

  predicate Enabled(s: State, e: Event) {
    match e
    case Tick(_) => true
    case Refill => s.refills != [] && s.refills[0] < |s.slots| && s.source != []
  }

  /** `preloadFrame` for the oldest outstanding refill. */
  function Preload(s: State): State
    requires Enabled(s, Refill)
  {
    s.(slots := s.slots[s.refills[0] := PrepareFrame(s.source, s.currentPreloadIndex)],
       currentPreloadIndex := (s.currentPreloadIndex + 1) % |s.source|,
       refills := s.refills[1..])
  }

  function Step(s: State, e: Event): State
    requires Enabled(s, e)
  {
    match e
    case Tick(duration) => Update(s, duration)
    case Refill => Preload(s)
  }

  ghost predicate Run(s: State, tr: seq<Event>, t: State)
    decreases |tr|
  {
    if tr == [] then s == t else Enabled(s, tr[0]) && Run(Step(s, tr[0]), tr[1..], t)
  }

  function CurrentFrame(s: State): Frame {
    PrepareFrame(s.slots, s.currentFrameIndexInBuffer)
  }
}

/** Positions and turns on a ring, defined step by step. `PosIsRemainder` ties them to division. */
module Ring {

  ghost function Pos(t: nat, k: nat): (p: nat)
    requires k > 0
    ensures p < k
  {
    if t == 0 then 0 else if Pos(t - 1, k) + 1 == k then 0 else Pos(t - 1, k) + 1
  }

  /** How often the position has come back to zero. */
  ghost function Turns(t: nat, k: nat): nat
    requires k > 0
  {
    if t == 0 then 0 else Turns(t - 1, k) + if Pos(t, k) == 0 then 1 else 0
  }

  lemma {:induction false} PosDecomposes(t: nat, k: nat)
    requires k > 0
    ensures t == Turns(t, k) * k + Pos(t, k)
  {
    if t > 0 {
      PosDecomposes(t - 1, k);
      assert (Turns(t - 1, k) + 1) * k == Turns(t - 1, k) * k + k;
    }
  }

  lemma MultipleIsFar(d: int, k: int)
    requires d != 0 && k >= 0
    ensures d * k >= k || d * k <= -k
  {
    if d > 0 { assert (d - 1) * k >= 0; } else { assert (-d - 1) * k >= 0; }
  }

  /** Quotient and remainder are unique. */
  lemma DivisionUnique(q: int, r: int, p: int, x: int, k: nat)
    requires 0 <= r < k && 0 <= x < k && q * k + r == p * k + x
    ensures q == p && r == x
  {
    assert (q - p) * k == x - r;
    if q != p { MultipleIsFar(q - p, k); }
  }

  lemma PosIsRemainder(t: nat, k: nat)
    requires k > 0
    ensures Pos(t, k) == t % k && Turns(t, k) == t / k
  {
    PosDecomposes(t, k);
    DivisionUnique(Turns(t, k), Pos(t, k), t / k, t % k, k);
  }

  lemma SamePos(a: nat, b: nat, k: nat)
    requires k > 0 && Pos(a, k) == Pos(b, k) && a < b + k && b < a + k
    ensures a == b
  {
    PosDecomposes(a, k);
    PosDecomposes(b, k);
    var d := Turns(a, k) - Turns(b, k);
    assert a - b == d * k;
    if d != 0 { MultipleIsFar(d, k); }
  }

  lemma {:induction false} PosBelow(t: nat, k: nat)
    requires t < k
    ensures Pos(t, k) == t
  {
    if t > 0 { PosBelow(t - 1, k); }
  }

  lemma {:induction false} PosPeriod(t: nat, k: nat)
    requires k > 0
    ensures Pos(t + k, k) == Pos(t, k)
  {
    if t == 0 {
      PosBelow(k - 1, k);
    } else {
      PosPeriod(t - 1, k);
      assert t - 1 + k == t + k - 1;
    }
  }

  lemma IncrementMod(r: int, k: nat)
    requires -1 <= r < k && k > 0
    ensures (r + 1) % k == if r + 1 == k then 0 else r + 1
  {
  }
}

/** Theorems about every run of the animator. */
module AnimatorTheorems {
  import opened Basics
  import opened AnimatorProtocol
  import opened Ring

  /** The frame meant for tick `t`. With `k` slots and `k + 1` frames the first refill reads
      index -1, so the slot for tick `k` alone holds the null frame. */
  ghost function FrameAt(source: seq<Frame>, k: nat, t: nat): Frame
    requires source != []
  {
    if |source| == k + 1 && t == k then NULL_FRAME else source[Pos(t, |source|)]
  }

  /** `t` frames have been left behind; `done` of the refills have run. */
  ghost predicate RefillInv(s: State, t: nat, done: int)
    requires 0 < |s.slots| < |s.source|
  {
    var n, k := |s.source|, |s.slots|;
    && done == t - |s.refills| >= 0
    && (forall q | 0 <= q < |s.refills| :: s.refills[q] == Pos(done + q, k))
    && s.currentPreloadIndex == (if done == 0 && n == k + 1 then -1 else Pos(done + k, n))
    && (forall i | done <= i < done + k :: s.slots[Pos(i, k)] == FrameAt(s.source, k, i))
  }

  ghost predicate RingInv(s: State, t: nat) {
    && s.source != [] && |s.slots| <= |s.source|
    && s.currentFrameIndex == Pos(t, |s.source|) && s.currentRepeatCount == Turns(t, |s.source|)
    && (s.slots == [] ==> t == 0 && s.currentFrameIndexInBuffer == 0 && s.refills == [])
    && (s.slots != [] ==> s.currentFrameIndexInBuffer == Pos(t, |s.slots|))
    && (|s.slots| == |s.source| ==> s.slots == s.source && s.refills == [])
    && (0 < |s.slots| < |s.source| ==> RefillInv(s, t, t - |s.refills|))
  }

  lemma PrepareEstablishes(source: seq<Frame>, maxFrameCount: nat)
    requires source != []
    ensures RingInv(Prepare(source, maxFrameCount), 0)
  {
    var s := Prepare(source, maxFrameCount);
    var n, k := |source|, |s.slots|;
    if 0 < k < n {
      forall i | 0 <= i < k ensures s.slots[Pos(i, k)] == FrameAt(source, k, i) {
        PosBelow(i, k);
        PosBelow(i, n);
      }
      PosBelow(k, n);
      IncrementMod(k, n);
    }
  }

  lemma UpdateKeepsRing(s: State, duration: real, t: nat)
    requires RingInv(s, t)
    ensures RingInv(Update(s, duration), if Advances(s, duration) then t + 1 else t)
    ensures Update(s, duration).source == s.source && |Update(s, duration).slots| == |s.slots|
  {
    if Advances(s, duration) {
      var u := Update(s, duration);
      var k := |s.slots|;
      IncrementMod(s.currentFrameIndexInBuffer, k);
      if k < |s.source| { UpdateKeepsRefills(s, duration, t); }
    }
  }

  lemma UpdateKeepsRefills(s: State, duration: real, t: nat)
    requires RingInv(s, t) && Advances(s, duration) && |s.slots| < |s.source|
    ensures Update(s, duration).source == s.source && Update(s, duration).slots == s.slots
    ensures RefillInv(Update(s, duration), t + 1, t - |s.refills|)
  {
    UpdateQueuesRefill(s, duration, t);
    UpdateKeepsWindow(s, duration, t);
  }

  lemma UpdateQueuesRefill(s: State, duration: real, t: nat)
    requires RingInv(s, t) && Advances(s, duration) && |s.slots| < |s.source|
    ensures var u, done := Update(s, duration), t - |s.refills|;
      |u.refills| == |s.refills| + 1 && forall q | 0 <= q < |u.refills| :: u.refills[q] == Pos(done + q, |s.slots|)
  {
    RefillIsQueued(s, duration);
    QueueGrows(s.refills, t - |s.refills|, |s.slots|);
  }

  lemma RefillIsQueued(s: State, duration: real)
    requires Advances(s, duration) && |s.slots| < |s.source|
    ensures Update(s, duration).refills == s.refills + [s.currentFrameIndexInBuffer]
  {
  }

  lemma QueueGrows(refills: seq<nat>, done: nat, k: nat)
    requires k > 0 && forall q | 0 <= q < |refills| :: refills[q] == Pos(done + q, k)
    ensures var more := refills + [Pos(done + |refills|, k)];
      forall q | 0 <= q < |more| :: more[q] == Pos(done + q, k)
  {
  }

  lemma UpdateKeepsWindow(s: State, duration: real, t: nat)
    requires RingInv(s, t) && Advances(s, duration) && |s.slots| < |s.source|
    ensures var u, k, done := Update(s, duration), |s.slots|, t - |s.refills|;
      && u.currentPreloadIndex == s.currentPreloadIndex
      && forall i | done <= i < done + k :: u.slots[Pos(i, k)] == FrameAt(s.source, k, i)
  {
  }

  lemma PreloadFillsWindow(s: State, t: nat)
    requires RingInv(s, t) && Enabled(s, Refill)
    ensures var k, d := |s.slots|, t - |s.refills|;
      forall i | d < i <= d + k :: Preload(s).slots[Pos(i, k)] == FrameAt(s.source, k, i)
  {
    var k, d := |s.slots|, t - |s.refills|;
    assert s.refills[0] == Pos(d, k);
    forall i | d < i <= d + k ensures Preload(s).slots[Pos(i, k)] == FrameAt(s.source, k, i) {
      if i == d + k {
        PosPeriod(d, k);
      } else if Pos(i, k) == Pos(d, k) {
        SamePos(i, d, k);
      }
    }
  }

  lemma PreloadMovesIndex(s: State, t: nat)
    requires RingInv(s, t) && Enabled(s, Refill)
    ensures Preload(s).currentPreloadIndex == Pos(t - |s.refills| + 1 + |s.slots|, |s.source|)
  {
    var n, k := |s.source|, |s.slots|;
    IncrementMod(s.currentPreloadIndex, n);
    if s.currentPreloadIndex == -1 { PosBelow(k, n); }
  }

  lemma PreloadShiftsQueue(s: State, t: nat)
    requires RingInv(s, t) && Enabled(s, Refill)
    ensures var d, u := t - |s.refills| + 1, Preload(s);
      forall q | 0 <= q < |u.refills| :: u.refills[q] == Pos(d + q, |s.slots|)
  {
    var d, u := t - |s.refills|, Preload(s);
    forall q | 0 <= q < |u.refills| ensures u.refills[q] == Pos(d + 1 + q, |s.slots|) {
      assert u.refills[q] == s.refills[q + 1] == Pos(d + (q + 1), |s.slots|);
    }
  }

  lemma PreloadKeepsRing(s: State, t: nat)
    requires RingInv(s, t) && Enabled(s, Refill)
    ensures RingInv(Preload(s), t)
    ensures Preload(s).source == s.source && |Preload(s).slots| == |s.slots|
  {
    PreloadFillsWindow(s, t);
    PreloadMovesIndex(s, t);
    PreloadShiftsQueue(s, t);
    assert RefillInv(Preload(s), t, t - |s.refills| + 1);
  }

  ghost function Gain(s: State, e: Event): nat {
    if e.Tick? && Advances(s, e.duration) then 1 else 0
  }

  lemma StepKeepsRing(s: State, e: Event, t: nat)
    requires RingInv(s, t) && Enabled(s, e)
    ensures RingInv(Step(s, e), t + Gain(s, e))
    ensures Step(s, e).source == s.source && |Step(s, e).slots| == |s.slots|
  {
    match e
    case Tick(duration) => UpdateKeepsRing(s, duration, t);
    case Refill => PreloadKeepsRing(s, t);
  }

  /** The number of ticks of a run that moved to the next frame. */
  ghost function AdvancingTicks(s: State, tr: seq<Event>): nat
    decreases |tr|
  {
    if tr == [] || !Enabled(s, tr[0]) then 0 else Gain(s, tr[0]) + AdvancingTicks(Step(s, tr[0]), tr[1..])
  }

  lemma {:induction false} RunKeepsRing(s: State, tr: seq<Event>, u: State, t: nat) returns (n: nat)
    requires Run(s, tr, u) && RingInv(s, t)
    ensures n == t + AdvancingTicks(s, tr)
    ensures RingInv(u, n) && u.source == s.source && |u.slots| == |s.slots|
    decreases |tr|
  {
    n := t;
    if tr != [] {
      StepKeepsRing(s, tr[0], t);
      n := RunKeepsRing(Step(s, tr[0]), tr[1..], u, t + Gain(s, tr[0]));
    }
  }

  /** After any interleaving of ticks and refills: the frame index and the loop count are remainder
      and quotient of the ticks that advanced, and while fewer refills than slots are outstanding
      the frame shown is the source frame of that index, except at tick `k` when `n == k + 1`. */
  lemma ShownFrame(source: seq<Frame>, maxFrameCount: nat, tr: seq<Event>, u: State)
    requires source != [] && Run(Prepare(source, maxFrameCount), tr, u)
    ensures var n, k := |source|, Min(|source|, maxFrameCount);
      var t := AdvancingTicks(Prepare(source, maxFrameCount), tr);
      && u.currentFrameIndex == t % n && u.currentRepeatCount == t / n
      && (k == 0 ==> t == 0 && CurrentFrame(u) == NULL_FRAME)
      && (k < n ==> |u.refills| <= t)
      && (|u.refills| < k ==>
            CurrentFrame(u) == if n == k + 1 && t == k then NULL_FRAME else source[t % n])
  {
    var s := Prepare(source, maxFrameCount);
    PrepareEstablishes(source, maxFrameCount);
    var t := RunKeepsRing(s, tr, u, 0);
    PosIsRemainder(t, |source|);
  }

  // ---- time ----

  ghost function Elapsed(tr: seq<Event>): real {
    if tr == [] then 0.0 else (if tr[0].Tick? then TimeStep(tr[0].duration) else 0.0) + Elapsed(tr[1..])
  }

  /** The durations of the frames that a run showed to their end. */
  ghost function Played(s: State, tr: seq<Event>): real
    decreases |tr|
  {
    if tr == [] || !Enabled(s, tr[0]) then 0.0
    else
      (if tr[0].Tick? && Advances(s, tr[0].duration) then CurrentFrame(s).duration else 0.0)
      + Played(Step(s, tr[0]), tr[1..])
  }

  /** No time is lost: what has elapsed was played, or is carried over to the next frame. */
  lemma {:induction false} TimeIsConserved(s: State, tr: seq<Event>, u: State)
    requires Run(s, tr, u)
    ensures s.timeSinceLastFrameChange + Elapsed(tr) == Played(s, tr) + u.timeSinceLastFrameChange
    decreases |tr|
  {
    if tr != [] {
      TimeIsConserved(Step(s, tr[0]), tr[1..], u);
    }
  }

  /** A tick carries the time over, but at most a second of its own. Exactly when that reaches the
      duration of the frame shown, the animator moves on by one frame and pays for it. */
  lemma TickMovesOn(source: seq<Frame>, maxFrameCount: nat, tr: seq<Event>, s: State, duration: real)
    requires source != [] && Run(Prepare(source, maxFrameCount), tr, s)
    ensures var carried := s.timeSinceLastFrameChange + if duration < 1.0 then duration else 1.0;
      var u := Step(s, Tick(duration));
      if Min(|source|, maxFrameCount) > 0 && CurrentFrame(s).duration <= carried then
        && u.timeSinceLastFrameChange == carried - CurrentFrame(s).duration
        && u.currentFrameIndex == (s.currentFrameIndex + 1) % |source|
        && u.currentRepeatCount == s.currentRepeatCount + if u.currentFrameIndex == 0 then 1 else 0
      else
        u == s.(timeSinceLastFrameChange := carried)
  {
    PrepareEstablishes(source, maxFrameCount);
    var t := RunKeepsRing(Prepare(source, maxFrameCount), tr, s, 0);
    TickOnRing(s, t, duration);
  }

  lemma TickOnRing(s: State, t: nat, duration: real)
    requires RingInv(s, t)
    ensures var carried := s.timeSinceLastFrameChange + if duration < 1.0 then duration else 1.0;
      var u := Step(s, Tick(duration));
      if s.slots != [] && CurrentFrame(s).duration <= carried then
        && u.timeSinceLastFrameChange == carried - CurrentFrame(s).duration
        && u.currentFrameIndex == (s.currentFrameIndex + 1) % |s.source|
        && u.currentRepeatCount == s.currentRepeatCount + if u.currentFrameIndex == 0 then 1 else 0
      else
        u == s.(timeSinceLastFrameChange := carried)
  {
    IncrementMod(s.currentFrameIndex, |s.source|);
  }

  /** What is carried over is never negative. */
  lemma {:induction false} CarriesNoDebt(s: State, tr: seq<Event>, u: State)
    requires Run(s, tr, u) && s.timeSinceLastFrameChange >= 0.0
    requires forall e <- tr :: e.Tick? ==> e.duration >= 0.0
    ensures u.timeSinceLastFrameChange >= 0.0
    decreases |tr|
  {
    if tr != [] {
      assert tr[0] in tr;
      CarriesNoDebt(Step(s, tr[0]), tr[1..], u);
    }
  }
}

/** `Animator` with its fields and frame buffer updated in place. */
module AnimatorObject {
  import opened Basics
  import opened AnimatorProtocol

  datatype RepeatCount = Once | Finite(count: nat) | Infinite

  class Animator {
    const imageSource: seq<Frame>
    const maxFrameCount: nat
    const maxRepeatCount: RepeatCount
    var animatedFrames: array<Frame>
    var frameCount: nat
    var currentFrameIndex: nat
    var currentFrameIndexInBuffer: nat
    var currentPreloadIndex: int
    var timeSinceLastFrameChange: real
    var currentRepeatCount: nat
    var preloadQueue: seq<nat>
    var loopsReported: seq<nat>

    ghost predicate Valid()
      reads this, animatedFrames
    {
      imageSource != [] && frameCount == |imageSource|
    }

    ghost function View(): State
      reads this, animatedFrames
    {
      State(imageSource, animatedFrames[..], currentFrameIndex, currentFrameIndexInBuffer, currentPreloadIndex,
            timeSinceLastFrameChange, currentRepeatCount, preloadQueue)
    }

    /** `init` followed by `prepareFrames` on the preload queue. */
    constructor (source: seq<Frame>, framePreloadCount: nat, repeatCount: RepeatCount)
      requires source != []
      ensures Valid() && fresh(animatedFrames)
      ensures View() == Prepare(source, framePreloadCount) && loopsReported == [] && maxRepeatCount == repeatCount
    {
      imageSource, maxFrameCount, maxRepeatCount := source, framePreloadCount, repeatCount;
      frameCount := |source|;
      var count := Min(|source|, framePreloadCount);
      animatedFrames := new Frame[count](i => PrepareFrame(source, i));
      currentPreloadIndex := (count + 1) % |source| - 1;
      currentFrameIndex, currentFrameIndexInBuffer, timeSinceLastFrameChange := 0, 0, 0.0;
      currentRepeatCount, preloadQueue, loopsReported := 0, [], [];
      new;
      assert animatedFrames[..] == source[..count];
    }

    method UpdateCurrentFrame(duration: real) returns (changed: bool)
      requires Valid()
      modifies this
      ensures Valid() && animatedFrames == old(animatedFrames)
      ensures View() == Update(old(View()), duration) && changed == old(Advances(View(), duration))
      ensures loopsReported == old(loopsReported) +
        if currentRepeatCount > old(currentRepeatCount) then [currentRepeatCount] else []
    {
      timeSinceLastFrameChange := timeSinceLastFrameChange + TimeStep(duration);
      if currentFrameIndexInBuffer >= animatedFrames.Length
        || animatedFrames[currentFrameIndexInBuffer].duration > timeSinceLastFrameChange {
        return false;
      }
      timeSinceLastFrameChange := timeSinceLastFrameChange - animatedFrames[currentFrameIndexInBuffer].duration;
      var lastFrameIndex := currentFrameIndexInBuffer;
      currentFrameIndexInBuffer := currentFrameIndexInBuffer + 1;
      currentFrameIndexInBuffer := currentFrameIndexInBuffer % animatedFrames.Length;
      if animatedFrames.Length < frameCount {
        preloadQueue := preloadQueue + [lastFrameIndex];
      }
      currentFrameIndex := currentFrameIndex + 1;
      if currentFrameIndex == frameCount {
        currentFrameIndex := 0;
        currentRepeatCount := currentRepeatCount + 1;
        loopsReported := loopsReported + [currentRepeatCount];
      }
      changed := true;
    }

    method PreloadFrame()
      requires Valid() && Enabled(View(), Refill)
      modifies this, animatedFrames
      ensures Valid() && animatedFrames == old(animatedFrames)
      ensures View() == Preload(old(View())) && loopsReported == old(loopsReported)
    {
      var index := preloadQueue[0];
      preloadQueue := preloadQueue[1..];
      animatedFrames[index] := PrepareFrame(imageSource, currentPreloadIndex);
      currentPreloadIndex := currentPreloadIndex + 1;
      currentPreloadIndex := currentPreloadIndex % frameCount;
    }

    predicate IsReachMaxRepeatCount()
      reads this
    {
      match maxRepeatCount
      case Once => currentRepeatCount >= 1
      case Finite(count) => currentRepeatCount >= count
      case Infinite => false
    }
  }
}
