/** When a failed save after the upload can be made good, and when it dooms the file. */
module PipelineRecovery {
  import opened Domain
  import opened Pipeline
  import opened PipelineInvariant
  import opened PipelineMoves
  import opened PipelineOutcome
  import opened PipelinePool
  import opened PipelineProgress
  import opened Attempt
  import opened AttemptOutcome

  /** Sound, open for business, with a dispatcher and room in the channel. */
  ghost predicate Working(s: State) {
    Sound(s) && PoolSound(s) && s.workers > 0 && s.queueSize > 0 && !s.closed
  }

  /** A run without panics from one state to another. */
  ghost predicate Leads(s: State, tr: seq<Action>, t: State) {
    Valid(s, tr) && After(s, tr) == t && NoPanic(tr)
  }

  lemma Chain(s: State, tr: seq<Action>, t: State, more: seq<Action>, u: State)
    requires Leads(s, tr, t) && Leads(t, more, u)
    ensures Leads(s, tr + more, u)
  {
    Extends(s, tr, more);
  }

  lemma StepLeads(s: State, a: Action)
    requires Working(s) && Enabled(s, a) && Internal(a) && !a.Panic?
    ensures Leads(s, [a], Apply(s, a)) && Working(Apply(s, a))
  {
    OneStep(s, a);
    StepKeepsFiles(s, a);
    StepKeepsPool(s, a);
    InternalKeeps(s, a);
  }

  lemma {:induction false} RunKeepsShape(s: State, tr: seq<Action>)
    requires Valid(s, tr) && forall a | a in tr :: Internal(a)
    ensures var t := After(s, tr); t.workers == s.workers && t.queueSize == s.queueSize && t.closed == s.closed
    decreases |tr|
  {
    if tr != [] {
      var front, a := tr[..|tr| - 1], tr[|tr| - 1];
      assert a in tr && forall b | b in front :: b in tr;
      RunKeepsShape(s, front);
      InternalKeeps(After(s, front), a);
    }
  }

  // ----- Settling everything but one retry ------------------------------------------------------------

  /** The job waits on a timer, with its tmp file there. */
  predicate Retrying(s: State, t: nat, j: Job) {
    t in s.lay.timers && s.lay.timers[t] == j && j.tmpPath in s.store.tmp
  }

  lemma OnlyRemovalRemoves(s: State, a: Action, path: Path)
    requires Enabled(s, a) && path in s.store.tmp && path !in Apply(s, a).store.tmp
    ensures a.RemoveTmp? && s.lay.procs[a.g].job.tmpPath == path
  {
  }

  lemma PathOfTwo(s: State, p: Place, q: Place, j: Job, k: Job)
    requires Sound(s) && At(s.lay, p).Some? && At(s.lay, q).Some?
    requires At(s.lay, p).value == Waiting(j) && At(s.lay, q).value.Running? && At(s.lay, q).value.job == k
    ensures j.tmpPath != k.tmpPath
  {
    assert GoodAt(s.lay, s.store, p) && GoodAt(s.lay, s.store, q);
    if j.fileId == k.fileId {
      OnlyPlace(s.lay, p, q, j.fileId);
    }
  }

  lemma StepKeepsRetrying(s: State, a: Action, t: nat, j: Job)
    requires Sound(s) && Enabled(s, a) && Retrying(s, t, j) && a != Fire(t)
    ensures Retrying(Apply(s, a), t, j)
  {
    OthersStay(s, a, OnTimer(t));
    if j.tmpPath !in Apply(s, a).store.tmp {
      OnlyRemovalRemoves(s, a, j.tmpPath);
      PathOfTwo(s, OnTimer(t), InProcess(a.g), j, s.lay.procs[a.g].job);
    }
  }

  /** Nothing is left but that timer. */
  predicate QuietBut(s: State, t: nat) {
    Resting(s) && s.lay.queue == [] && s.lay.uploads == map[] && s.lay.timers.Keys == {t}
  }

  lemma StepAround(s: State, t: nat) returns (a: Action)
    requires PoolSound(s) && s.workers > 0 && !s.closed && t in s.lay.timers && !QuietBut(s, t)
    ensures Internal(a) && !a.Panic? && a != Fire(t) && Enabled(s, a)
  {
    if !Resting(s) {
      a := BusyCanStep(s);
    } else if s.lay.queue != [] {
      a := Dequeue(0);
    } else if u :| u in s.lay.uploads {
      a := EnqueueUpload(u);
    } else {
      var r :| r in s.lay.timers && r != t;
      a := Fire(r);
    }
  }

  lemma OneAround(s: State, t: nat, j: Job) returns (a: Action, u: State)
    requires Working(s) && Retrying(s, t, j) && !QuietBut(s, t)
    ensures Leads(s, [a], u) && Working(u) && Retrying(u, t, j) && Measure(u) < Measure(s)
  {
    a := StepAround(s, t);
    u := Apply(s, a);
    StepLeads(s, a);
    StepKeepsRetrying(s, a, t, j);
    StepDecreases(s, a);
  }

  lemma {:induction false} SettlesAround(s: State, t: nat, j: Job) returns (tr: seq<Action>, u: State)
    requires Working(s) && Retrying(s, t, j)
    ensures Leads(s, tr, u) && Working(u) && Retrying(u, t, j) && QuietBut(u, t)
    decreases Measure(s)
  {
    if QuietBut(s, t) {
      tr, u := [], s;
    } else {
      var a, v := OneAround(s, t, j);
      var rest;
      rest, u := SettlesAround(v, t, j);
      Chain(s, [a], v, rest, u);
      tr := [a] + rest;
    }
  }

  // ----- The retry --------------------------------------------------------------------------------------

  lemma RetryEffect(s: State, g: nat, t: nat)
    requires Enabled(s, Retry(g, t))
    ensures var j, u := s.lay.procs[g].job, Apply(s, Retry(g, t));
            t in u.lay.timers && u.lay.timers[t] == j.(retryCount := j.retryCount + 1) && u.store.tmp == s.store.tmp
  {
  }

  lemma RetryWaits(s: State, g: nat) returns (a: Action, t: nat, u: State)
    requires Working(s) && AtStage(s.lay, g, Failed) && s.lay.procs[g].job.tmpPath in s.store.tmp
    requires s.lay.procs[g].job.retryCount + 1 < MAX_RETRIES
    ensures Leads(s, [a], u) && Working(u)
    ensures var j := s.lay.procs[g].job; Retrying(u, t, j.(retryCount := j.retryCount + 1))
  {
    t := Above(s.lay.timers.Keys);
    a := Retry(g, t);
    u := Apply(s, a);
    RetryEffect(s, g, t);
    StepLeads(s, a);
  }

  /** An idle pool: every dispatcher free, every slot free. */
  predicate Free(s: State) {
    s.tokens == 0 && s.lay.procs == map[] && s.lay.hands != [] && s.lay.hands[0] == Idle
  }

  lemma QuietIsFree(s: State, t: nat)
    requires Working(s) && QuietBut(s, t)
    ensures Free(s)
  {
    NoSlots(s.lay.hands);
  }

  lemma FireQueues(s: State, t: nat, j: Job) returns (u: State)
    requires Working(s) && Retrying(s, t, j) && QuietBut(s, t)
    ensures Leads(s, [Fire(t)], u) && Working(u) && Free(u)
    ensures u.lay.queue == [j] && u.lay.timers == map[] && j.tmpPath in u.store.tmp
  {
    u := Apply(s, Fire(t));
    QuietIsFree(s, t);
    StepLeads(s, Fire(t));
    assert s.lay.timers - {t} == map[];
  }

  lemma QueueBegins(s: State, j: Job) returns (tr: seq<Action>, u: State)
    requires Working(s) && Free(s) && s.lay.queue == [j] && s.lay.timers == map[] && j.tmpPath in s.store.tmp
    ensures Leads(s, tr, u) && Working(u)
    ensures AtStage(u.lay, 0, Begin) && u.lay.procs[0].job == j && u.lay.timers == map[] && j.tmpPath in u.store.tmp
  {
    var s1 := Apply(s, Dequeue(0));
    StepLeads(s, Dequeue(0));
    var s2 := Apply(s1, Acquire(0));
    StepLeads(s1, Acquire(0));
    u := Apply(s2, Spawn(0, 0));
    StepLeads(s2, Spawn(0, 0));
    Chain(s, [Dequeue(0)], s1, [Acquire(0)], s2);
    Chain(s, [Dequeue(0)] + [Acquire(0)], s2, [Spawn(0, 0)], u);
    tr := [Dequeue(0)] + [Acquire(0)] + [Spawn(0, 0)];
  }

  lemma AttemptFinishes(s: State, j: Job) returns (tr: seq<Action>, u: State)
    requires Working(s) && AtStage(s.lay, 0, Begin) && s.lay.procs[0].job == j
    requires s.lay.timers == map[] && j.tmpPath in s.store.tmp
    ensures Leads(s, tr, u) && Working(u) && HasDoneRow(u, j.fileId)
  {
    var c := Calls(true, true, true, true, true, true, true, Option.None);
    DoneIffAllSucceed(s, 0, 0, c);
    tr := AttemptIsRun(s, 0, 0, c);
    u := After(s, tr);
    RunKeepsFiles(s, tr);
    RunKeepsPool(s, tr);
    RunKeepsShape(s, tr);
  }

  lemma RestSettles(s: State, id: Id) returns (tr: seq<Action>, u: State)
    requires Working(s) && HasDoneRow(s, id)
    ensures Leads(s, tr, u) && Quiescent(u) && HasDoneRow(u, id)
  {
    tr := Settles(s);
    u := After(s, tr);
    TerminalForever(s, tr, id);
  }

  /** A failed attempt with its tmp file and another attempt to come can still finish the file. */
  lemma Recovers(s: State, g: nat) returns (tr: seq<Action>, u: State)
    requires Working(s) && AtStage(s.lay, g, Failed) && s.lay.procs[g].job.tmpPath in s.store.tmp
    requires s.lay.procs[g].job.retryCount + 1 < MAX_RETRIES
    ensures Leads(s, tr, u) && Quiescent(u) && HasDoneRow(u, s.lay.procs[g].job.fileId)
  {
    var j := s.lay.procs[g].job.(retryCount := s.lay.procs[g].job.retryCount + 1);
    var a, t, s1 := RetryWaits(s, g);
    var quiet, s2 := SettlesAround(s1, t, j);
    Chain(s, [a], s1, quiet, s2);
    var s3 := FireQueues(s2, t, j);
    Chain(s, [a] + quiet, s2, [Fire(t)], s3);
    var begin, s4 := QueueBegins(s3, j);
    Chain(s, [a] + quiet + [Fire(t)], s3, begin, s4);
    var finish, s5 := AttemptFinishes(s4, j);
    Chain(s, [a] + quiet + [Fire(t)] + begin, s4, finish, s5);
    var rest;
    rest, u := RestSettles(s5, j.fileId);
    Chain(s, [a] + quiet + [Fire(t)] + begin + finish, s5, rest, u);
    tr := [a] + quiet + [Fire(t)] + begin + finish + rest;
  }

  // ----- The exact condition ------------------------------------------------------------------------------

  lemma StepNeedsRoom(s: State, a: Action)
    requires Enabled(s, a) && s.queueSize == 0 && s.store.accepted == {}
    ensures Apply(s, a).queueSize == 0 && Apply(s, a).store.accepted == {}
  {
  }

  lemma {:induction false} NoRoomNothingAccepted(s: State, tr: seq<Action>)
    requires Valid(s, tr) && s.queueSize == 0 && s.store.accepted == {}
    ensures After(s, tr).queueSize == 0 && After(s, tr).store.accepted == {}
    decreases |tr|
  {
    if tr != [] {
      NoRoomNothingAccepted(s, tr[..|tr| - 1]);
      StepNeedsRoom(After(s, tr[..|tr| - 1]), tr[|tr| - 1]);
    }
  }

  /** Something is only ever processed by a pool with a worker, behind a channel with room. */
  lemma RunningIsWorking(workers: nat, queueSize: nat, tr: seq<Action>, g: nat)
    requires Valid(Initial(workers, queueSize), tr)
    requires var s := After(Initial(workers, queueSize), tr); g in s.lay.procs && !s.closed
    ensures Working(After(Initial(workers, queueSize), tr))
  {
    var s0 := Initial(workers, queueSize);
    var s := After(s0, tr);
    InitiallySound(workers, queueSize);
    InitiallyPoolSound(workers, queueSize);
    RunKeepsFiles(s0, tr);
    RunKeepsPool(s0, tr);
    Without(s.lay.procs, g);
    if queueSize == 0 {
      NoRoomNothingAccepted(s0, tr);
      InPipelineIsAccepted(s, InProcess(g), s.lay.procs[g].job.fileId);
    }
  }

  /** A continuation that comes to rest without a panic. */
  predicate ComesToRest(s: State, tr: seq<Action>) {
    Valid(s, tr) && NoPanic(tr) && Quiescent(After(s, tr))
  }

  /** Every such continuation has dead-lettered the file. */
  ghost predicate AlwaysDeadLettered(s: State, id: Id) {
    forall tr | ComesToRest(s, tr) :: IsBuried(After(s, tr), id)
  }

  lemma DoneIsNotBuried(s: State, id: Id)
    requires HasDoneRow(s, id)
    ensures !IsBuried(s, id)
  {
  }

  /** A save that fails after the upload dooms its file, in every reachable state before shutdown, if and only
      if the tmp file has been removed or this was the last attempt. Some continuation does come to rest. */
  lemma LateFailureDoomsExactly(workers: nat, queueSize: nat, before: seq<Action>, g: nat)
    requires Valid(Initial(workers, queueSize), before)
    requires var s := After(Initial(workers, queueSize), before); AtStage(s.lay, g, Cleaned) && !s.closed
    ensures var s := After(Initial(workers, queueSize), before);
            var j := s.lay.procs[g].job;
            AlwaysDeadLettered(Apply(s, Save(g, false)), j.fileId) <==>
            j.tmpPath !in s.store.tmp || j.retryCount >= 2
    ensures exists tr :: ComesToRest(Apply(After(Initial(workers, queueSize), before), Save(g, false)), tr)
  {
    var s := After(Initial(workers, queueSize), before);
    RunningIsWorking(workers, queueSize, before, g);
    RestIsReached(s, g);
    if NoWayBack(s, g) {
      DoomedAlways(s, g);
    } else {
      RecoverableSometimes(s, g);
    }
  }

  lemma RestIsReached(s: State, g: nat)
    requires Working(s) && AtStage(s.lay, g, Cleaned)
    ensures exists tr :: ComesToRest(Apply(s, Save(g, false)), tr)
  {
    StepLeads(s, Save(g, false));
    var tr := Settles(Apply(s, Save(g, false)));
    assert ComesToRest(Apply(s, Save(g, false)), tr);
  }

  lemma DoomedAlways(s: State, g: nat)
    requires Working(s) && AtStage(s.lay, g, Cleaned) && NoWayBack(s, g)
    ensures AlwaysDeadLettered(Apply(s, Save(g, false)), s.lay.procs[g].job.fileId)
  {
    var u, id := Apply(s, Save(g, false)), s.lay.procs[g].job.fileId;
    forall tr | ComesToRest(u, tr) ensures IsBuried(After(u, tr), id) {
      LateFailureDeadLetters(s, g, tr);
    }
  }

  lemma SaveFails(s: State, g: nat)
    requires Enabled(s, Save(g, false))
    ensures var u := Apply(s, Save(g, false));
            AtStage(u.lay, g, Failed) && u.lay.procs[g].job == s.lay.procs[g].job && u.store.tmp == s.store.tmp
  {
  }

  lemma RecoverableSometimes(s: State, g: nat)
    requires Working(s) && AtStage(s.lay, g, Cleaned) && !NoWayBack(s, g)
    ensures !AlwaysDeadLettered(Apply(s, Save(g, false)), s.lay.procs[g].job.fileId)
  {
    var u := Apply(s, Save(g, false));
    StepLeads(s, Save(g, false));
    SaveFails(s, g);
    var tr, v := Recovers(u, g);
    assert ComesToRest(u, tr);
    DoneIsNotBuried(v, s.lay.procs[g].job.fileId);
  }
}
