/** Closing the channel: the dispatchers hand over every job that was waiting, and then exit. */
module PipelineDrain {
  import opened Domain
  import opened Pipeline
  import opened PipelineInvariant
  import opened PipelineOutcome
  import opened PipelinePool
  import opened PipelineProgress

  function Times(ids: seq<Id>, id: Id): nat {
    multiset(ids)[id]
  }

  /** How often a file is in the channel, and in the dispatchers' hands. */
  function Queuing(queue: seq<Job>, id: Id): nat {
    if queue == [] then 0 else One(queue[0].fileId == id) + Queuing(queue[1..], id)
  }

  predicate Carries(h: Hand, id: Id) {
    (h.Holding? || h.Acquired?) && h.job.fileId == id
  }

  function Carrying(hands: seq<Hand>, id: Id): nat {
    if hands == [] then 0 else One(Carries(hands[|hands| - 1], id)) + Carrying(hands[..|hands| - 1], id)
  }

  lemma {:induction false} CarryingUpdate(hands: seq<Hand>, d: nat, h: Hand, id: Id)
    requires d < |hands|
    ensures Carrying(hands[d := h], id) == Carrying(hands, id) - One(Carries(hands[d], id)) + One(Carries(h, id))
  {
    var n := |hands| - 1;
    if d < n {
      assert hands[d := h][..n] == hands[..n][d := h];
      CarryingUpdate(hands[..n], d, h, id);
    } else {
      assert hands[d := h][..n] == hands[..n];
    }
  }

  lemma {:induction false} CarryingNone(hands: seq<Hand>, id: Id)
    requires forall d | 0 <= d < |hands| :: !Carries(hands[d], id)
    ensures Carrying(hands, id) == 0
  {
    if hands != [] {
      CarryingNone(hands[..|hands| - 1], id);
    }
  }

  /** How often a file has been handed to Process, is in a dispatcher's hand, or is in the channel. */
  function Flow(s: State, id: Id): nat {
    Times(s.spawned, id) + Carrying(s.lay.hands, id) + Queuing(s.lay.queue, id)
  }

  lemma TimesAppend(ids: seq<Id>, x: Id, id: Id)
    ensures Times(ids + [x], id) == Times(ids, id) + One(x == id)
  {
  }

  lemma SpawnFlows(s: State, d: nat, g: nat, id: Id)
    requires Enabled(s, Spawn(d, g))
    ensures Flow(Apply(s, Spawn(d, g)), id) == Flow(s, id)
  {
    CarryingUpdate(s.lay.hands, d, Idle, id);
    TimesAppend(s.spawned, s.lay.hands[d].job.fileId, id);
  }

  lemma HandsFlow(s: State, a: Action, id: Id)
    requires Enabled(s, a) && (a.Dequeue? || a.Acquire? || a.Exit?)
    ensures Flow(Apply(s, a), id) == Flow(s, id)
  {
    CarryingUpdate(s.lay.hands, a.d, Apply(s, a).lay.hands[a.d], id);
  }

  lemma OthersFlow(s: State, a: Action)
    requires Enabled(s, a) && s.closed && !a.Dequeue? && !a.Acquire? && !a.Exit? && !a.Spawn?
    ensures var t := Apply(s, a);
            t.spawned == s.spawned && t.lay.hands == s.lay.hands && t.lay.queue == s.lay.queue
  {
  }

  /** Once the channel is closed no step adds to the flow or takes from it. */
  lemma StepFlows(s: State, a: Action, id: Id)
    requires Enabled(s, a) && s.closed
    ensures Flow(Apply(s, a), id) == Flow(s, id) && Apply(s, a).closed && s.spawned <= Apply(s, a).spawned
  {
    match a
    case Spawn(d, g) => SpawnFlows(s, d, g, id);
    case Dequeue(_) => HandsFlow(s, a, id);
    case Acquire(_) => HandsFlow(s, a, id);
    case Exit(_) => HandsFlow(s, a, id);
    case _ => OthersFlow(s, a);
  }

  lemma {:induction false} RunFlows(s: State, tr: seq<Action>, id: Id)
    requires Valid(s, tr) && s.closed
    ensures Flow(After(s, tr), id) == Flow(s, id) && After(s, tr).closed && s.spawned <= After(s, tr).spawned
    decreases |tr|
  {
    if tr != [] {
      var front := tr[..|tr| - 1];
      RunFlows(s, front, id);
      StepFlows(After(s, front), tr[|tr| - 1], id);
    }
  }

  lemma {:induction false} QueuingNone(queue: seq<Job>, id: Id)
    requires forall i | 0 <= i < |queue| :: queue[i].fileId != id
    ensures Queuing(queue, id) == 0
  {
    if queue != [] {
      QueuingNone(queue[1..], id);
    }
  }

  lemma {:induction false} QueuingOnce(queue: seq<Job>, i: nat)
    requires i < |queue| && forall k | 0 <= k < |queue| && k != i :: queue[k].fileId != queue[i].fileId
    ensures Queuing(queue, queue[i].fileId) == 1
  {
    if i == 0 {
      QueuingNone(queue[1..], queue[0].fileId);
    } else {
      assert forall k | 0 <= k < |queue| - 1 :: queue[1..][k] == queue[k + 1];
      QueuingOnce(queue[1..], i - 1);
    }
  }

  /** In a sound state a queued file is in the channel once and in no dispatcher's hand. */
  lemma QueuedOnce(s: State, i: nat)
    requires Sound(s) && i < |s.lay.queue|
    ensures var id := s.lay.queue[i].fileId; Carrying(s.lay.hands, id) == 0 && Queuing(s.lay.queue, id) == 1
  {
    var l, id := s.lay, s.lay.queue[i].fileId;
    assert Holds(l, InQueue(l.taken + i), id);
    forall k: nat | k < |l.queue| && k != i ensures l.queue[k].fileId != id {
      if l.queue[k].fileId == id {
        OnlyPlace(l, InQueue(l.taken + k), InQueue(l.taken + i), id);
      }
    }
    forall d: nat | d < |l.hands| ensures !Carries(l.hands[d], id) {
      if Carries(l.hands[d], id) {
        OnlyPlace(l, InHand(d), InQueue(l.taken + i), id);
      }
    }
    QueuingOnce(l.queue, i);
    CarryingNone(l.hands, id);
  }

  predicate AllExited(s: State) {
    forall d | 0 <= d < |s.lay.hands| :: s.lay.hands[d] == Exited
  }

  lemma TimesSplit(ids: seq<Id>, n: nat, id: Id)
    requires n <= |ids|
    ensures Times(ids, id) == Times(ids[..n], id) + Times(ids[n..], id)
  {
    assert ids == ids[..n] + ids[n..];
  }

  lemma ExitedFlow(t: State, id: Id)
    requires PoolSound(t) && t.workers > 0 && AllExited(t)
    ensures t.lay.queue == [] && Flow(t, id) == Times(t.spawned, id)
  {
    assert t.lay.hands[0] == Exited;
    CarryingNone(t.lay.hands, id);
  }

  lemma SpawnedSince(s: State, t: State, id: Id)
    requires s.spawned <= t.spawned && Flow(s, id) == Times(t.spawned, id)
    ensures Times(t.spawned[|s.spawned|..], id) == Carrying(s.lay.hands, id) + Queuing(s.lay.queue, id)
  {
    TimesSplit(t.spawned, |s.spawned|, id);
    assert t.spawned[..|s.spawned|] == s.spawned;
  }

  /** From a closed channel, when every dispatcher has exited the channel is empty, and exactly the jobs then
      waiting or in hand have been handed to Process. */
  lemma DrainedFlow(s: State, tr: seq<Action>, id: Id)
    requires PoolSound(s) && s.workers > 0 && s.closed && Valid(s, tr) && AllExited(After(s, tr))
    ensures var t := After(s, tr);
            && t.lay.queue == [] && s.spawned <= t.spawned
            && Times(t.spawned[|s.spawned|..], id) == Carrying(s.lay.hands, id) + Queuing(s.lay.queue, id)
  {
    RunFlows(s, tr, id);
    RunKeepsPool(s, tr);
    ExitedFlow(After(s, tr), id);
    SpawnedSince(s, After(s, tr), id);
  }

  /** Drain on close: after Wait, each job that was in the channel when it was closed has been handed to
      Process exactly once since. */
  lemma DrainOnClose(workers: nat, queueSize: nat, before: seq<Action>, tr: seq<Action>, i: nat)
    requires workers > 0 && Valid(Initial(workers, queueSize), before)
    requires var s := After(Initial(workers, queueSize), before);
             s.closed && Valid(s, tr) && AllExited(After(s, tr)) && i < |s.lay.queue|
    ensures var s := After(Initial(workers, queueSize), before);
            var t := After(s, tr);
            && t.lay.queue == [] && s.spawned <= t.spawned
            && Times(t.spawned[|s.spawned|..], s.lay.queue[i].fileId) == 1
  {
    var s0 := Initial(workers, queueSize);
    var s := After(s0, before);
    InitiallySound(workers, queueSize);
    InitiallyPoolSound(workers, queueSize);
    RunKeepsFiles(s0, before);
    RunKeepsPool(s0, before);
    DrainedFlow(s, tr, s.lay.queue[i].fileId);
    QueuedOnce(s, i);
  }

  /** And Wait returns: after a close, every run that takes no upload ends within the measure, and one that can
      go on no further has left every dispatcher exited, the channel empty and nothing running. */
  lemma EveryRunDrains(workers: nat, queueSize: nat, before: seq<Action>, tr: seq<Action>)
    requires workers > 0 && Valid(Initial(workers, queueSize), before)
    requires var s := After(Initial(workers, queueSize), before); s.closed && Valid(s, tr) && NoUploads(tr)
    ensures var s := After(Initial(workers, queueSize), before);
            && |tr| <= Measure(s)
            && ((forall a | Internal(a) :: !Enabled(After(s, tr), a)) ==> Drained(After(s, tr)))
  {
    var s := After(Initial(workers, queueSize), before);
    InitiallyPoolSound(workers, queueSize);
    RunKeepsPool(Initial(workers, queueSize), before);
    RunKeepsPool(s, tr);
    RunFlows(s, tr, 0);
    RunIsBounded(s, tr);
    NoUploadsNoAllowance(tr);
    if !Drained(After(s, tr)) {
      var a := NoDeadlockClosed(After(s, tr));
    }
  }

  /** One such run: a closed pool has a run that ends with every dispatcher exited, the channel empty
      and nothing running. */
  lemma {:induction false} WaitReturns(s: State) returns (tr: seq<Action>)
    requires PoolSound(s) && s.workers > 0 && s.closed
    ensures Valid(s, tr) && Drained(After(s, tr)) && |tr| <= Measure(s)
    decreases Measure(s)
  {
    if Drained(s) {
      tr := [];
    } else {
      var a, t := StepToExit(s);
      var rest := WaitReturns(t);
      FirstStep(s, a, rest);
      tr := [a] + rest;
    }
  }

  lemma StepToExit(s: State) returns (a: Action, t: State)
    requires PoolSound(s) && s.workers > 0 && s.closed && !Drained(s)
    ensures Enabled(s, a) && t == Apply(s, a)
    ensures PoolSound(t) && t.workers > 0 && t.closed && Measure(t) < Measure(s)
  {
    a := NoDeadlockClosed(s);
    t := Apply(s, a);
    StepKeepsPool(s, a);
    StepDecreases(s, a);
    InternalKeeps(s, a);
  }
}
