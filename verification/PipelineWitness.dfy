/** Two runs that the documentation does not foresee. */
module PipelineWitness {
  import opened Domain
  import opened Pipeline
  import opened PipelineInvariant
  import opened Attempt
  import opened AttemptOutcome

  function LoneJob(attempt: nat): Job {
    Job(0, 0, 0, PDF, attempt)
  }

  /** One worker, a queue of one, one file: what the steps below leave alone. */
  predicate Lone(s: State, status: Status) {
    && s.workers == 1 && s.queueSize == 1 && !s.closed
    && s.lay.hands == [Idle] && s.lay.uploads == map[]
    && 0 in s.store.rows && s.store.rows[0].status == status && 0 in s.store.tmp
  }

  /** Its job waits in the channel. */
  predicate Waits(s: State, status: Status, attempt: nat) {
    && Lone(s, status) && s.tokens == 0 && s.exiting == 0
    && s.lay.queue == [LoneJob(attempt)] && s.lay.procs == map[] && s.lay.timers == map[]
  }

  /** Its job is being processed. */
  predicate Runs(s: State, status: Status, attempt: nat, stage: Stage) {
    && Lone(s, status) && s.tokens == 1 && s.exiting == 0
    && s.lay.queue == [] && s.lay.procs == map[0 := Proc(LoneJob(attempt), stage)] && s.lay.timers == map[]
  }

  /** Its job waits for a retry. */
  predicate Parked(s: State, status: Status, attempt: nat, exiting: nat) {
    && Lone(s, status) && s.tokens == exiting && s.exiting == exiting
    && s.lay.queue == [] && s.lay.procs == map[] && s.lay.timers == map[0 := LoneJob(attempt)]
  }

  // ----- The steps --------------------------------------------------------------------------------

  lemma Starts(s: State, status: Status, attempt: nat)
    requires Waits(s, status, attempt)
    ensures Valid(s, [Dequeue(0)] + [Acquire(0)] + [Spawn(0, 0)])
    ensures var t := After(s, [Dequeue(0)] + [Acquire(0)] + [Spawn(0, 0)]);
            Runs(t, status, attempt, Begin) && t.store.lateFails == s.store.lateFails
  {
    var s1 := Apply(s, Dequeue(0));
    OneStep(s, Dequeue(0));
    var s2 := Apply(s1, Acquire(0));
    OneMore(s, [Dequeue(0)], Acquire(0));
    OneMore(s, [Dequeue(0)] + [Acquire(0)], Spawn(0, 0));
  }

  lemma RetryParks(s: State, status: Status, attempt: nat)
    requires Runs(s, status, attempt, Failed) && attempt + 1 < MAX_RETRIES
    ensures Enabled(s, Retry(0, 0))
    ensures var t := Apply(s, Retry(0, 0)); Parked(t, status, attempt + 1, 1) && t.store.lateFails == s.store.lateFails
  {
    assert s.lay.procs - {0} == map[];
  }

  lemma FireQueues(s: State, status: Status, attempt: nat)
    requires Parked(s, status, attempt, 0)
    ensures Enabled(s, Fire(0))
    ensures var t := Apply(s, Fire(0)); Waits(t, status, attempt) && t.store.lateFails == s.store.lateFails
  {
    assert s.lay.timers - {0} == map[];
  }

  lemma Requeues(s: State, status: Status, attempt: nat)
    requires Runs(s, status, attempt, Failed) && attempt + 1 < MAX_RETRIES
    ensures Valid(s, [Retry(0, 0)] + [Release] + [Fire(0)])
    ensures var t := After(s, [Retry(0, 0)] + [Release] + [Fire(0)]);
            Waits(t, status, attempt + 1) && t.store.lateFails == s.store.lateFails
  {
    var s1 := Apply(s, Retry(0, 0));
    RetryParks(s, status, attempt);
    OneStep(s, Retry(0, 0));
    var s2 := Apply(s1, Release);
    OneMore(s, [Retry(0, 0)], Release);
    FireQueues(s2, status, attempt + 1);
    OneMore(s, [Retry(0, 0)] + [Release], Fire(0));
  }

  lemma UploadWaits()
    ensures Valid(Initial(1, 1), [CreateRow(0, LoneJob(0), PDF)] + [EnqueueUpload(0)])
    ensures Waits(After(Initial(1, 1), [CreateRow(0, LoneJob(0), PDF)] + [EnqueueUpload(0)]), Pending, 0)
  {
    var create := CreateRow(0, LoneJob(0), PDF);
    OneStep(Initial(1, 1), create);
    OneMore(Initial(1, 1), [create], EnqueueUpload(0));
  }

  lemma LockSteps(s: State, status: Status, attempt: nat, ok: bool)
    requires Runs(s, status, attempt, Begin) && !status.Terminal()
    ensures Enabled(s, Lock(0, ok))
    ensures var t := Apply(s, Lock(0, ok));
            if ok then Runs(t, Processing, attempt, Marked) else Runs(t, status, attempt, Failed)
  {
  }

  // ----- From pending to error ------------------------------------------------------------------------

  /** The dispatcher starts an attempt, and the attempt fails to lock the row. */
  lemma LockFails(s: State, status: Status, attempt: nat) returns (tr: seq<Action>)
    requires Waits(s, status, attempt) && !status.Terminal()
    ensures Valid(s, tr) && Runs(After(s, tr), status, attempt, Failed)
  {
    var start := [Dequeue(0)] + [Acquire(0)] + [Spawn(0, 0)];
    Starts(s, status, attempt);
    LockSteps(After(s, start), status, attempt, false);
    OneMore(s, start, Lock(0, false));
    tr := start + [Lock(0, false)];
  }

  lemma AttemptWasted(s: State, status: Status, attempt: nat) returns (tr: seq<Action>)
    requires Waits(s, status, attempt) && !status.Terminal() && attempt + 1 < MAX_RETRIES
    ensures Valid(s, tr) && Waits(After(s, tr), status, attempt + 1)
  {
    var failing := LockFails(s, status, attempt);
    Requeues(After(s, failing), status, attempt);
    Extends(s, failing, [Retry(0, 0)] + [Release] + [Fire(0)]);
    tr := failing + ([Retry(0, 0)] + [Release] + [Fire(0)]);
  }

  lemma TwoAttemptsWasted(s: State) returns (tr: seq<Action>)
    requires Waits(s, Pending, 0)
    ensures Valid(s, tr) && Waits(After(s, tr), Pending, 2)
  {
    var first := AttemptWasted(s, Pending, 0);
    var second := AttemptWasted(After(s, first), Pending, 1);
    Extends(s, first, second);
    tr := first + second;
  }

  lemma ThirdFailureIsError(s: State)
    requires Runs(s, Pending, 2, Failed)
    ensures Enabled(s, Exhaust(0, true))
    ensures 0 in Apply(s, Exhaust(0, true)).store.rows && Apply(s, Exhaust(0, true)).store.rows[0].status == Error
  {
  }

  /** A row need not be processing before it is in error: three failed locks take it there from pending. */
  lemma PendingToError() returns (tr: seq<Action>, last: Action)
    ensures Valid(Initial(1, 1), tr) && Enabled(After(Initial(1, 1), tr), last)
    ensures var s, t := After(Initial(1, 1), tr), Apply(After(Initial(1, 1), tr), last);
            && 0 in s.store.rows && s.store.rows[0].status == Pending
            && 0 in t.store.rows && t.store.rows[0].status == Error
  {
    var s, up := Initial(1, 1), [CreateRow(0, LoneJob(0), PDF)] + [EnqueueUpload(0)];
    UploadWaits();
    var wasted := TwoAttemptsWasted(After(s, up));
    Extends(s, up, wasted);
    var third := LockFails(After(s, up + wasted), Pending, 2);
    Extends(s, up + wasted, third);
    tr, last := up + wasted + third, Exhaust(0, true);
    ThirdFailureIsError(After(s, tr));
  }

  // ----- A late failure that is made good -----------------------------------------------------------------

  lemma WorkSteps(s: State)
    requires Runs(s, Processing, 0, Marked)
    ensures Enabled(s, Work(0, true)) && Runs(Apply(s, Work(0, true)), Processing, 0, Worked)
  {
  }

  lemma PutSteps(s: State)
    requires Runs(s, Processing, 0, Worked)
    ensures Enabled(s, Put(0, true)) && Runs(Apply(s, Put(0, true)), Processing, 0, Stored)
  {
  }

  lemma RemovalFails(s: State)
    requires Runs(s, Processing, 0, Stored)
    ensures Enabled(s, RemoveTmp(0, false)) && Runs(Apply(s, RemoveTmp(0, false)), Processing, 0, Cleaned)
  {
  }

  lemma SaveFails(s: State)
    requires Runs(s, Processing, 0, Cleaned)
    ensures Enabled(s, Save(0, false)) && Runs(Apply(s, Save(0, false)), Processing, 0, Failed)
    ensures 0 in Apply(s, Save(0, false)).store.lateFails
  {
  }

  /** An attempt that stores the object, fails to remove the tmp file, and fails to save. */
  lemma LateFailure(s: State) returns (tr: seq<Action>)
    requires Runs(s, Pending, 0, Begin)
    ensures Valid(s, tr) && Runs(After(s, tr), Processing, 0, Failed) && 0 in After(s, tr).store.lateFails
  {
    LockSteps(s, Pending, 0, true);
    var s1 := Apply(s, Lock(0, true));
    WorkSteps(s1);
    var s2 := Apply(s1, Work(0, true));
    PutSteps(s2);
    var s3 := Apply(s2, Put(0, true));
    RemovalFails(s3);
    var s4 := Apply(s3, RemoveTmp(0, false));
    SaveFails(s4);
    OneStep(s4, Save(0, false));
    FirstStep(s3, RemoveTmp(0, false), [Save(0, false)]);
    var end := [RemoveTmp(0, false)] + [Save(0, false)];
    FirstStep(s2, Put(0, true), end);
    FirstStep(s1, Work(0, true), [Put(0, true)] + end);
    FirstStep(s, Lock(0, true), [Work(0, true)] + ([Put(0, true)] + end));
    tr := [Lock(0, true)] + ([Work(0, true)] + ([Put(0, true)] + end));
  }

  lemma SecondAttempt(s: State) returns (tr: seq<Action>)
    requires Runs(s, Processing, 0, Failed) && 0 in s.store.lateFails
    ensures Valid(s, tr) && Runs(After(s, tr), Processing, 1, Begin) && 0 in After(s, tr).store.lateFails
  {
    var again, start := [Retry(0, 0)] + [Release] + [Fire(0)], [Dequeue(0)] + [Acquire(0)] + [Spawn(0, 0)];
    Requeues(s, Processing, 0);
    Starts(After(s, again), Processing, 1);
    Extends(s, again, start);
    tr := again + start;
  }

  lemma UploadBegins() returns (tr: seq<Action>)
    ensures Valid(Initial(1, 1), tr) && Runs(After(Initial(1, 1), tr), Pending, 0, Begin)
  {
    var up, start := [CreateRow(0, LoneJob(0), PDF)] + [EnqueueUpload(0)], [Dequeue(0)] + [Acquire(0)] + [Spawn(0, 0)];
    UploadWaits();
    Starts(After(Initial(1, 1), up), Pending, 0);
    Extends(Initial(1, 1), up, start);
    tr := up + start;
  }

  /** A failed save after the upload does not always doom the file: when the removal of the tmp file failed as
      well, the next attempt can still finish it. */
  lemma LateFailureMadeGood() returns (tr: seq<Action>, more: seq<Action>)
    ensures Valid(Initial(1, 1), tr) && Valid(After(Initial(1, 1), tr), more)
    ensures 0 in After(Initial(1, 1), tr).store.lateFails
    ensures HasDoneRow(After(After(Initial(1, 1), tr), more), 0)
  {
    var s0 := Initial(1, 1);
    var begin := UploadBegins();
    var late := LateFailure(After(s0, begin));
    Extends(s0, begin, late);
    var again := SecondAttempt(After(s0, begin + late));
    Extends(s0, begin + late, again);
    tr := begin + late + again;
    var s := After(s0, tr);
    more := FinishesNow(s, tr);
  }

  lemma FinishesNow(s: State, tr: seq<Action>) returns (more: seq<Action>)
    requires Valid(Initial(1, 1), tr) && s == After(Initial(1, 1), tr) && Runs(s, Processing, 1, Begin)
    ensures Valid(s, more) && HasDoneRow(After(s, more), 0)
  {
    var c := Calls(true, true, true, true, true, true, true, Option.None);
    InitiallySound(1, 1);
    RunKeepsFiles(Initial(1, 1), tr);
    DoneIffAllSucceed(s, 0, 0, c);
    more := AttemptIsRun(s, 0, 0, c);
  }
}
