/** The worker pool's bounds: the semaphore, the dispatchers and the channel. */
module PipelinePool {
  import opened Pipeline

  function One(b: bool): nat {
    if b then 1 else 0
  }

  /** Dispatchers between acquiring a slot and spawning. */
  function Slots(hands: seq<Hand>): nat {
    if hands == [] then 0 else One(hands[|hands| - 1].Acquired?) + Slots(hands[..|hands| - 1])
  }

  /** Dispatchers holding a job. */
  function Busy(hands: seq<Hand>): nat {
    if hands == [] then 0
    else One(hands[|hands| - 1].Holding? || hands[|hands| - 1].Acquired?) + Busy(hands[..|hands| - 1])
  }

  lemma {:induction false} SlotsUpdate(hands: seq<Hand>, d: nat, h: Hand)
    requires d < |hands|
    ensures Slots(hands[d := h]) == Slots(hands) - One(hands[d].Acquired?) + One(h.Acquired?)
  {
    var n := |hands| - 1;
    if d < n {
      assert hands[d := h][..n] == hands[..n][d := h];
      SlotsUpdate(hands[..n], d, h);
    } else {
      assert hands[d := h][..n] == hands[..n];
    }
  }

  lemma {:induction false} BusyBounds(hands: seq<Hand>)
    ensures Slots(hands) <= Busy(hands) <= |hands|
  {
    if hands != [] {
      BusyBounds(hands[..|hands| - 1]);
    }
  }

  lemma {:induction false} NoSlots(hands: seq<Hand>)
    requires forall d | 0 <= d < |hands| :: !hands[d].Acquired?
    ensures Slots(hands) == 0
  {
    if hands != [] {
      NoSlots(hands[..|hands| - 1]);
    }
  }

  lemma Without<T>(m: map<nat, T>, g: nat)
    requires g in m
    ensures |m - {g}| == |m| - 1
  {
    assert (m - {g}).Keys == m.Keys - {g};
  }

  lemma With<T>(m: map<nat, T>, g: nat, x: T)
    ensures |m[g := x]| == if g in m then |m| else |m| + 1
  {
    assert m[g := x].Keys == m.Keys + {g};
  }

  /** Every token is a running goroutine's, a returned one's not yet released, or one about to be spawned. */
  predicate TokensMatch(s: State) {
    && s.tokens == |s.lay.procs| + s.exiting + Slots(s.lay.hands)
    && s.tokens <= s.workers
  }

  /** A dispatcher exits only once the channel is closed and empty, and then it stays empty. */
  predicate ExitsSound(s: State) {
    forall d | 0 <= d < |s.lay.hands| :: s.lay.hands[d].Exited? ==> s.closed && s.lay.queue == []
  }

  predicate PoolSound(s: State) {
    && |s.lay.hands| == s.workers && |s.lay.queue| <= s.queueSize
    && TokensMatch(s) && ExitsSound(s)
  }

  /** What the bound depends on. */
  predicate SamePool(s: State, t: State) {
    && t.workers == s.workers && t.queueSize == s.queueSize && t.lay.hands == s.lay.hands && t.tokens == s.tokens
  }

  lemma HandsKeep(s: State, a: Action)
    requires PoolSound(s) && Enabled(s, a) && (a.Dequeue? || a.Acquire? || a.Exit?)
    ensures PoolSound(Apply(s, a))
  {
    var t := Apply(s, a);
    SlotsUpdate(s.lay.hands, a.d, t.lay.hands[a.d]);
  }

  lemma SpawnKeepsPool(s: State, a: Action)
    requires PoolSound(s) && Enabled(s, a) && a.Spawn?
    ensures PoolSound(Apply(s, a))
  {
    SlotsUpdate(s.lay.hands, a.d, Idle);
    With(s.lay.procs, a.g, Proc(s.lay.hands[a.d].job, Begin));
  }

  lemma ProcsKeep(s: State, t: State, g: nat, stays: bool)
    requires PoolSound(s) && g in s.lay.procs && SamePool(s, t) && t.lay.queue == s.lay.queue && t.closed == s.closed
    requires stays ==> g in t.lay.procs && t.lay.procs == s.lay.procs[g := t.lay.procs[g]] && t.exiting == s.exiting
    requires !stays ==> t.lay.procs == s.lay.procs - {g} && t.exiting == s.exiting + 1
    ensures PoolSound(t)
  {
    if stays {
      With(s.lay.procs, g, t.lay.procs[g]);
    } else {
      Without(s.lay.procs, g);
    }
  }

  lemma StageKeepsPool(s: State, a: Action)
    requires PoolSound(s) && Enabled(s, a) && (a.Lock? || a.Work? || a.Put? || a.RemoveTmp? || a.Save?)
    ensures PoolSound(Apply(s, a))
  {
    var t := Apply(s, a);
    ProcsKeep(s, t, a.g, t.exiting == s.exiting);
  }

  lemma ReturnKeepsPool(s: State, a: Action)
    requires PoolSound(s) && Enabled(s, a) && (a.Notify? || a.Retry? || a.Exhaust? || a.Panic?)
    ensures PoolSound(Apply(s, a))
  {
    ProcsKeep(s, Apply(s, a), a.g, false);
  }

  lemma StepKeepsPool(s: State, a: Action)
    requires PoolSound(s) && Enabled(s, a)
    ensures PoolSound(Apply(s, a))
  {
    match a
    case Dequeue(_) => HandsKeep(s, a);
    case Acquire(_) => HandsKeep(s, a);
    case Exit(_) => HandsKeep(s, a);
    case Spawn(_, _) => SpawnKeepsPool(s, a);
    case Lock(_, _) => StageKeepsPool(s, a);
    case Work(_, _) => StageKeepsPool(s, a);
    case Put(_, _) => StageKeepsPool(s, a);
    case RemoveTmp(_, _) => StageKeepsPool(s, a);
    case Save(_, _) => StageKeepsPool(s, a);
    case Notify(_, _) => ReturnKeepsPool(s, a);
    case Retry(_, _) => ReturnKeepsPool(s, a);
    case Exhaust(_, _) => ReturnKeepsPool(s, a);
    case Panic(_) => ReturnKeepsPool(s, a);
    case _ =>
  }

  lemma InitiallyPoolSound(workers: nat, queueSize: nat)
    ensures PoolSound(Initial(workers, queueSize))
  {
    NoSlots(Initial(workers, queueSize).lay.hands);
  }

  lemma {:induction false} RunKeepsPool(s: State, tr: seq<Action>)
    requires PoolSound(s) && Valid(s, tr)
    ensures PoolSound(After(s, tr)) && After(s, tr).workers == s.workers && After(s, tr).queueSize == s.queueSize
    decreases |tr|
  {
    if tr != [] {
      RunKeepsPool(s, tr[..|tr| - 1]);
      StepKeepsPool(After(s, tr[..|tr| - 1]), tr[|tr| - 1]);
    }
  }

  /** In every reachable state the semaphore's tokens are exactly accounted for, at most `workers` jobs run, at
      most twice that many have been received and are unfinished, and at most queueSize more wait in the channel. */
  lemma PoolBound(workers: nat, queueSize: nat, tr: seq<Action>)
    requires Valid(Initial(workers, queueSize), tr)
    ensures var s := After(Initial(workers, queueSize), tr);
            && s.tokens == |s.lay.procs| + s.exiting + Slots(s.lay.hands)
            && |s.lay.procs| <= workers
            && |s.lay.procs| + Busy(s.lay.hands) <= 2 * workers
            && |s.lay.queue| + |s.lay.procs| + Busy(s.lay.hands) <= queueSize + 2 * workers
  {
    InitiallyPoolSound(workers, queueSize);
    RunKeepsPool(Initial(workers, queueSize), tr);
    BusyBounds(After(Initial(workers, queueSize), tr).lay.hands);
  }
}
