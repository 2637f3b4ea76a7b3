/** Every run settles: a measure that each step decreases, and no deadlock before quiescence. */
module PipelineProgress {
  import opened Domain
  import opened Pipeline
  import opened PipelineInvariant
  import opened PipelineMoves
  import opened PipelineOutcome
  import opened PipelinePool

  // ----- The measure -----------------------------------------------------------------------------

  /** A job's remaining attempts, each worth more than all the stages of one. */
  function AttemptsLeft(j: Job): nat {
    if j.retryCount < MAX_RETRIES then 32 * (MAX_RETRIES - j.retryCount) else 0
  }

  function StageRank(stage: Stage): nat {
    match stage
    case Begin => 16
    case Marked => 15
    case Worked => 14
    case Stored => 13
    case Cleaned => 12
    case Saved => 11
    case Failed => 10
  }

  function Weight(item: Item): nat {
    match item
    case Uploading(j) => AttemptsLeft(j) + 21
    case Waiting(j) => AttemptsLeft(j) + 20
    case Queued(j) => AttemptsLeft(j) + 19
    case Carried(j, slot) => AttemptsLeft(j) + if slot then 17 else 18
    case Running(j, stage) => AttemptsLeft(j) + StageRank(stage)
    case _ => 0
  }

  function WeightAt(l: Layout, p: Place): nat {
    if At(l, p).Some? then Weight(At(l, p).value) else 0
  }

  /** Everywhere work can still be going on. */
  ghost function Busied(l: Layout): set<Place> {
    (set u | u in l.uploads :: InUpload(u)) + (set n | l.taken <= n < l.taken + |l.queue| :: InQueue(n)) +
    (set d | 0 <= d < |l.hands| :: InHand(d)) + (set g | g in l.procs :: InProcess(g)) +
    (set t | t in l.timers :: OnTimer(t))
  }

  lemma WeighsInBusied(l: Layout, p: Place)
    requires WeightAt(l, p) > 0
    ensures p in Busied(l)
  {
  }

  ghost function Sum(l: Layout, ps: set<Place>): nat {
    if ps == {} then 0 else
      var p :| p in ps;
      WeightAt(l, p) + Sum(l, ps - {p})
  }

  lemma {:induction false} SumWithout(l: Layout, ps: set<Place>, p: Place)
    requires p in ps
    ensures Sum(l, ps) == WeightAt(l, p) + Sum(l, ps - {p})
    decreases |ps|
  {
    var q :| q in ps && Sum(l, ps) == WeightAt(l, q) + Sum(l, ps - {q});
    if q != p {
      SumWithout(l, ps - {q}, p);
      SumWithout(l, ps - {p}, q);
      assert ps - {q} - {p} == ps - {p} - {q};
    }
  }

  /** Places that weigh nothing may be added or left out. */
  lemma {:induction false} SumAgrees(l: Layout, m: Layout, ps: set<Place>, qs: set<Place>)
    requires forall p | p in ps + qs :: WeightAt(l, p) == WeightAt(m, p)
    requires forall p | p in ps && p !in qs :: WeightAt(l, p) == 0
    requires forall p | p in qs && p !in ps :: WeightAt(m, p) == 0
    ensures Sum(l, ps) == Sum(m, qs)
    decreases |ps| + |qs|
  {
    if p :| p in ps {
      SumWithout(l, ps, p);
      if p in qs {
        SumWithout(m, qs, p);
      } else {
        assert qs - {p} == qs;
      }
      SumAgrees(l, m, ps - {p}, qs - {p});
    } else if q :| q in qs {
      SumWithout(m, qs, q);
      SumAgrees(l, m, ps, qs - {q});
    }
  }

  ghost function Work(l: Layout): nat {
    Sum(l, Busied(l))
  }

  /** Off the places in `out`, layouts of equal weights have equal totals. */
  lemma WorkAgrees(l: Layout, m: Layout, out: set<Place>)
    requires forall p | p !in out :: WeightAt(m, p) == WeightAt(l, p)
    ensures Sum(l, Busied(l) - out) == Sum(m, Busied(m) - out)
  {
    var ps, qs := Busied(l) - out, Busied(m) - out;
    forall r | r in ps && r !in qs ensures WeightAt(l, r) == 0 {
      if WeightAt(m, r) > 0 {
        WeighsInBusied(m, r);
      }
    }
    forall r | r in qs && r !in ps ensures WeightAt(m, r) == 0 {
      if WeightAt(l, r) > 0 {
        WeighsInBusied(l, r);
      }
    }
    SumAgrees(l, m, ps, qs);
  }

  lemma SumTakesOut(l: Layout, ps: set<Place>, p: Place)
    requires WeightAt(l, p) > 0 ==> p in ps
    ensures Sum(l, ps) == WeightAt(l, p) + Sum(l, ps - {p})
  {
    if p in ps {
      SumWithout(l, ps, p);
    } else {
      assert ps - {p} == ps;
    }
  }

  lemma WorkWithout(l: Layout, p: Place)
    ensures Work(l) == WeightAt(l, p) + Sum(l, Busied(l) - {p})
  {
    if WeightAt(l, p) > 0 {
      WeighsInBusied(l, p);
    }
    SumTakesOut(l, Busied(l), p);
  }

  lemma WorkWithoutBoth(l: Layout, p: Place, q: Place)
    requires p != q
    ensures Work(l) == WeightAt(l, p) + WeightAt(l, q) + Sum(l, Busied(l) - {p, q})
  {
    WorkWithout(l, p);
    if WeightAt(l, q) > 0 {
      WeighsInBusied(l, q);
    }
    SumTakesOut(l, Busied(l) - {p}, q);
    assert Busied(l) - {p} - {q} == Busied(l) - {p, q};
  }

  lemma MoveWeights(l: Layout, m: Layout, p: Place, q: Place)
    requires Moves(l, m, p, q)
    ensures forall r | r != p && r != q :: WeightAt(m, r) == WeightAt(l, r)
    ensures p != q ==> WeightAt(l, q) == 0 && WeightAt(m, p) == 0
  {
  }

  /** Moving a file to a lighter place takes the difference off the total. */
  lemma MoveWork(l: Layout, m: Layout, p: Place, q: Place)
    requires forall r | r != p && r != q :: WeightAt(m, r) == WeightAt(l, r)
    requires p != q ==> WeightAt(l, q) == 0 && WeightAt(m, p) == 0
    ensures Work(m) == Work(l) - WeightAt(l, p) + WeightAt(m, q)
  {
    if p == q {
      WorkWithout(l, p);
      WorkWithout(m, p);
      WorkAgrees(l, m, {p});
    } else {
      WorkWithoutBoth(l, p, q);
      WorkWithoutBoth(m, p, q);
      WorkAgrees(l, m, {p, q});
    }
  }

  /** Dispatchers that have not exited. */
  function Up(hands: seq<Hand>): nat {
    if hands == [] then 0 else One(!hands[|hands| - 1].Exited?) + Up(hands[..|hands| - 1])
  }

  lemma {:induction false} UpUpdate(hands: seq<Hand>, d: nat, h: Hand)
    requires d < |hands|
    ensures Up(hands[d := h]) == Up(hands) - One(!hands[d].Exited?) + One(!h.Exited?)
  {
    var n := |hands| - 1;
    if d < n {
      assert hands[d := h][..n] == hands[..n][d := h];
      UpUpdate(hands[..n], d, h);
    } else {
      assert hands[d := h][..n] == hands[..n];
    }
  }

  ghost function Measure(s: State): nat {
    Work(s.lay) + s.exiting + Up(s.lay.hands) + One(!s.closed)
  }

  // ----- Every step decreases it ------------------------------------------------------------------------

  ghost predicate Lightens(s: State, a: Action)
    requires Enabled(s, a) && Source(s, a).Some?
  {
    var t := Apply(s, a);
    && Target(s, a).Some?
    && WeightAt(t.lay, Target(s, a).value) + t.exiting < WeightAt(s.lay, Source(s, a).value) + s.exiting
    && Up(t.lay.hands) == Up(s.lay.hands) && t.closed == s.closed
  }

  lemma ArrivalLightens(s: State, a: Action)
    requires Enabled(s, a) && (a.EnqueueUpload? || a.Fire?)
    ensures Lightens(s, a)
  {
  }

  lemma DispatchLightens(s: State, a: Action)
    requires Enabled(s, a) && (a.Dequeue? || a.Acquire? || a.Spawn?)
    ensures Lightens(s, a)
  {
    UpUpdate(s.lay.hands, a.d, Apply(s, a).lay.hands[a.d]);
  }

  lemma StageLightens(s: State, a: Action)
    requires Enabled(s, a) && (a.Work? || a.Put? || a.RemoveTmp? || a.Save?)
    ensures Lightens(s, a)
  {
  }

  lemma LockLightens(s: State, a: Action)
    requires Enabled(s, a) && a.Lock?
    ensures Lightens(s, a)
  {
  }

  lemma ReturnLightens(s: State, a: Action)
    requires Enabled(s, a) && (a.Notify? || a.Exhaust? || a.Panic?)
    ensures Lightens(s, a)
  {
  }

  lemma RetryLightens(s: State, a: Action)
    requires Enabled(s, a) && a.Retry?
    ensures Lightens(s, a)
  {
  }

  lemma MoverLightens(s: State, a: Action)
    requires Enabled(s, a) && Source(s, a).Some?
    ensures Lightens(s, a)
  {
    match a
    case EnqueueUpload(_) => ArrivalLightens(s, a);
    case Fire(_) => ArrivalLightens(s, a);
    case Dequeue(_) => DispatchLightens(s, a);
    case Acquire(_) => DispatchLightens(s, a);
    case Spawn(_, _) => DispatchLightens(s, a);
    case Notify(_, _) => ReturnLightens(s, a);
    case Exhaust(_, _) => ReturnLightens(s, a);
    case Panic(_) => ReturnLightens(s, a);
    case Retry(_, _) => RetryLightens(s, a);
    case Lock(_, _) => LockLightens(s, a);
    case _ => StageLightens(s, a);
  }

  lemma ExitDecreases(s: State, d: nat)
    requires Enabled(s, Exit(d))
    ensures Measure(Apply(s, Exit(d))) < Measure(s)
  {
    var m := s.lay.(hands := s.lay.hands[d := Exited]);
    WorkAgrees(s.lay, m, {});
    assert Busied(s.lay) - {} == Busied(s.lay) && Busied(m) - {} == Busied(m);
    UpUpdate(s.lay.hands, d, Exited);
  }

  lemma StepDecreases(s: State, a: Action)
    requires Enabled(s, a) && !a.CreateRow?
    ensures Measure(Apply(s, a)) < Measure(s)
  {
    if Source(s, a).Some? {
      StepMoves(s, a);
      MoverLightens(s, a);
      MoveWeights(s.lay, Apply(s, a).lay, Source(s, a).value, Target(s, a).value);
      MoveWork(s.lay, Apply(s, a).lay, Source(s, a).value, Target(s, a).value);
    } else if a.Exit? {
      ExitDecreases(s, a.d);
    }
  }

  const UPLOAD_WEIGHT := 32 * MAX_RETRIES + 21

  lemma UploadWeights(l: Layout, u: nat, job: Job)
    requires u !in l.uploads && job.retryCount == 0
    ensures var m := WithUpload(l, u, job);
            && WeightAt(l, InUpload(u)) == 0 && WeightAt(m, InUpload(u)) == UPLOAD_WEIGHT
            && forall r | r != InUpload(u) :: WeightAt(m, r) == WeightAt(l, r)
  {
  }

  lemma CreateAdds(s: State, a: Action)
    requires Enabled(s, a) && a.CreateRow?
    ensures Measure(Apply(s, a)) == Measure(s) + UPLOAD_WEIGHT
  {
    var m := WithUpload(s.lay, a.u, a.job);
    UploadWeights(s.lay, a.u, a.job);
    MoveWork(s.lay, m, InUpload(a.u), InUpload(a.u));
    assert Apply(s, a).lay == m;
  }

  /** What a step may add to the measure, and itself. */
  function Allowance(a: Action): nat {
    if a.CreateRow? then UPLOAD_WEIGHT + 1 else 0
  }

  function TotalAllowance(tr: seq<Action>): nat {
    if tr == [] then 0 else TotalAllowance(tr[..|tr| - 1]) + Allowance(tr[|tr| - 1])
  }

  lemma StepIsBounded(s: State, a: Action)
    requires Enabled(s, a)
    ensures 1 + Measure(Apply(s, a)) <= Measure(s) + Allowance(a)
  {
    if a.CreateRow? {
      CreateAdds(s, a);
    } else {
      StepDecreases(s, a);
    }
  }

  /** A run is never longer than the measure it starts with and what its uploads add: with no more uploads,
      every run from a state stops within the state's measure. */
  lemma {:induction false} RunIsBounded(s: State, tr: seq<Action>)
    requires Valid(s, tr)
    ensures |tr| + Measure(After(s, tr)) <= Measure(s) + TotalAllowance(tr)
    decreases |tr|
  {
    if tr != [] {
      var front, a := tr[..|tr| - 1], tr[|tr| - 1];
      RunIsBounded(s, front);
      StepIsBounded(After(s, front), a);
    }
  }

  predicate NoUploads(tr: seq<Action>) {
    forall a | a in tr :: !a.CreateRow?
  }

  lemma {:induction false} NoUploadsNoAllowance(tr: seq<Action>)
    requires NoUploads(tr)
    ensures TotalAllowance(tr) == 0
  {
    if tr != [] {
      assert tr[|tr| - 1] in tr && forall a | a in tr[..|tr| - 1] :: a in tr;
      NoUploadsNoAllowance(tr[..|tr| - 1]);
    }
  }

  // ----- No deadlock ------------------------------------------------------------------------------------------

  lemma ProcCanStep(s: State, g: nat) returns (a: Action)
    requires g in s.lay.procs
    ensures Internal(a) && !a.Panic? && !a.Fire? && Enabled(s, a)
  {
    match s.lay.procs[g].stage
    case Begin => a := Lock(g, true);
    case Marked => a := Action.Work(g, true);
    case Worked => a := Put(g, true);
    case Stored => a := RemoveTmp(g, true);
    case Cleaned => a := Save(g, true);
    case Saved => a := Notify(g, true);
    case Failed =>
      var t := Above(s.lay.timers.Keys);
      a := if s.lay.procs[g].job.retryCount + 1 < MAX_RETRIES then Retry(g, t) else Exhaust(g, true);
  }

  /** With nothing running, a dispatcher that holds a job can go on. */
  lemma HandCanStep(s: State, d: nat) returns (a: Action)
    requires PoolSound(s) && s.lay.procs == map[] && s.exiting == 0
    requires d < |s.lay.hands| && (s.lay.hands[d].Holding? || s.lay.hands[d].Acquired?)
    ensures Internal(a) && !a.Panic? && !a.Fire? && Enabled(s, a)
  {
    if e: nat :| e < |s.lay.hands| && s.lay.hands[e].Acquired? {
      a := Spawn(e, 0);
    } else {
      NoSlots(s.lay.hands);
      a := Acquire(d);
    }
  }

  predicate Resting(s: State) {
    && s.lay.procs == map[] && s.exiting == 0
    && forall d | 0 <= d < |s.lay.hands| :: s.lay.hands[d] in {Idle, Exited}
  }

  lemma BusyCanStep(s: State) returns (a: Action)
    requires PoolSound(s) && !Resting(s)
    ensures Internal(a) && !a.Panic? && !a.Fire? && Enabled(s, a)
  {
    if g :| g in s.lay.procs {
      a := ProcCanStep(s, g);
    } else if s.exiting > 0 {
      a := Release;
    } else {
      assert s.lay.procs == map[];
      var d: nat :| d < |s.lay.hands| && s.lay.hands[d] !in {Idle, Exited};
      a := HandCanStep(s, d);
    }
  }

  /** Before shutdown, a state in which nothing can happen but a new upload is quiescent. */
  lemma NoDeadlock(s: State) returns (a: Action)
    requires PoolSound(s) && s.workers > 0 && !s.closed && !Quiescent(s)
    ensures Internal(a) && !a.Panic? && Enabled(s, a)
  {
    if !Resting(s) {
      a := BusyCanStep(s);
    } else if s.lay.queue != [] {
      a := Dequeue(0);
    } else if u :| u in s.lay.uploads {
      a := EnqueueUpload(u);
    } else {
      var t :| t in s.lay.timers;
      a := Fire(t);
    }
  }

  predicate Drained(s: State) {
    Resting(s) && s.lay.queue == [] && forall d | 0 <= d < |s.lay.hands| :: s.lay.hands[d] == Exited
  }

  /** After the channel is closed, the pool always goes on until every dispatcher has exited. */
  lemma NoDeadlockClosed(s: State) returns (a: Action)
    requires PoolSound(s) && s.workers > 0 && s.closed && !Drained(s)
    ensures Internal(a) && Enabled(s, a)
  {
    if !Resting(s) {
      a := BusyCanStep(s);
    } else if s.lay.queue != [] {
      a := Dequeue(0);
    } else {
      var d: nat :| d < |s.lay.hands| && s.lay.hands[d] != Exited;
      a := Exit(d);
    }
  }

  lemma InternalKeeps(s: State, a: Action)
    requires Enabled(s, a) && Internal(a)
    ensures var t := Apply(s, a); t.workers == s.workers && t.queueSize == s.queueSize && t.closed == s.closed
  {
  }

  /** One internal step on the way to quiescence. */
  lemma StepTowards(s: State) returns (a: Action, t: State)
    requires PoolSound(s) && s.workers > 0 && !s.closed && !Quiescent(s)
    ensures Internal(a) && !a.Panic? && Enabled(s, a) && t == Apply(s, a)
    ensures PoolSound(t) && t.workers > 0 && !t.closed && Measure(t) < Measure(s)
  {
    a := NoDeadlock(s);
    t := Apply(s, a);
    StepKeepsPool(s, a);
    StepDecreases(s, a);
    InternalKeeps(s, a);
  }

  ghost predicate SettlesBy(s: State, tr: seq<Action>) {
    && Valid(s, tr) && Quiescent(After(s, tr)) && |tr| <= Measure(s)
    && NoPanic(tr) && forall a | a in tr :: Internal(a)
  }

  lemma SettlesFirst(s: State, a: Action, t: State, rest: seq<Action>)
    requires Internal(a) && !a.Panic? && Enabled(s, a) && t == Apply(s, a)
    requires Measure(t) < Measure(s) && SettlesBy(t, rest)
    ensures SettlesBy(s, [a] + rest)
  {
    FirstStep(s, a, rest);
  }

  /** Once uploads stop, the pipeline settles: every state before shutdown has a run without uploads to
      quiescence, within its measure. */
  lemma {:induction false} Settles(s: State) returns (tr: seq<Action>)
    requires PoolSound(s) && s.workers > 0 && !s.closed
    ensures SettlesBy(s, tr)
    decreases Measure(s)
  {
    if Quiescent(s) {
      tr := [];
    } else {
      var a, t := StepTowards(s);
      var rest := Settles(t);
      SettlesFirst(s, a, t, rest);
      tr := [a] + rest;
    }
  }

  /** And so does every run that keeps going: one that takes no upload and can take no further internal step
      has reached quiescence, and it is never longer than the measure it started from. */
  lemma EveryRunSettles(workers: nat, queueSize: nat, before: seq<Action>, tr: seq<Action>)
    requires workers > 0 && Valid(Initial(workers, queueSize), before)
    requires var s := After(Initial(workers, queueSize), before); Valid(s, tr) && !After(s, tr).closed
    requires NoUploads(tr)
    ensures var s := After(Initial(workers, queueSize), before);
            && |tr| <= Measure(s)
            && ((forall a | Internal(a) :: !Enabled(After(s, tr), a)) ==> Quiescent(After(s, tr)))
  {
    var s := After(Initial(workers, queueSize), before);
    InitiallyPoolSound(workers, queueSize);
    RunKeepsPool(Initial(workers, queueSize), before);
    RunKeepsPool(s, tr);
    RunIsBounded(s, tr);
    NoUploadsNoAllowance(tr);
    if !Quiescent(After(s, tr)) {
      var a := NoDeadlock(After(s, tr));
    }
  }

  // ----- Attempts and delays -------------------------------------------------------------------------------------

  lemma SpentAt(st: Store, item: Item)
    requires item.File() in st.rows && Good(st, item)
    ensures Spent(st, item.File())
  {
  }

  lemma AlwaysSpent(s: State, id: Id)
    requires Sound(s) && id in s.store.rows
    ensures Spent(s.store, id)
  {
    var p :| Holds(s.lay, p, id);
    assert GoodAt(s.lay, s.store, p);
    SpentAt(s.store, At(s.lay, p).value);
  }

  /** At most three attempts are made for a file; the first retry waits two seconds, the second four, and a delay
      of eight seconds never occurs. */
  lemma AttemptsBounded(workers: nat, queueSize: nat, tr: seq<Action>, id: Id)
    requires Valid(Initial(workers, queueSize), tr) && id in After(Initial(workers, queueSize), tr).store.rows
    ensures var st := After(Initial(workers, queueSize), tr).store;
            && Lookup(st.attempts, id, 0) <= 3
            && st.rows[id].retryCount <= 2 && Lookup(st.backoff, id, []) == Waits(st.rows[id].retryCount)
  {
    InitiallySound(workers, queueSize);
    RunKeepsFiles(Initial(workers, queueSize), tr);
    AlwaysSpent(After(Initial(workers, queueSize), tr), id);
  }
}
