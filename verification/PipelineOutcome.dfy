/** What becomes of every accepted file. */
module PipelineOutcome {
  import opened Domain
  import opened Pipeline
  import opened PipelineInvariant
  import opened PipelineMoves

  // ----- Exactly one place ---------------------------------------------------------------------

  /** In the channel, in a dispatcher's hand, in a processing goroutine, on a retry timer, finished,
      abandoned, or dead-lettered. */
  predicate InPipeline(p: Place) {
    !p.InUpload? && !p.InRejected?
  }

  lemma AcceptedIsInPipeline(s: State, id: Id)
    requires Sound(s) && id in s.store.accepted
    ensures exists p :: InPipeline(p) && Holds(s.lay, p, id)
  {
    var p :| Holds(s.lay, p, id);
    assert GoodAt(s.lay, s.store, p);
    assert InPipeline(p);
  }

  lemma InPipelineIsAccepted(s: State, p: Place, id: Id)
    requires Sound(s) && InPipeline(p) && Holds(s.lay, p, id)
    ensures id in s.store.accepted
  {
    assert GoodAt(s.lay, s.store, p);
  }

  lemma OnlyPlace(l: Layout, p: Place, q: Place, id: Id)
    requires OnePlaceEach(l) && Holds(l, p, id) && Holds(l, q, id)
    ensures p == q
  {
  }

  /** Conservation: in every reachable state a file has been accepted exactly when it is somewhere in the
      pipeline, and it is never in two places; so no file ever has two live jobs. */
  lemma ExactlyOnePlace(workers: nat, queueSize: nat, tr: seq<Action>, id: Id)
    requires Valid(Initial(workers, queueSize), tr)
    ensures var s := After(Initial(workers, queueSize), tr);
            && (id in s.store.accepted <==> exists p :: InPipeline(p) && Holds(s.lay, p, id))
            && forall p, q | Holds(s.lay, p, id) && Holds(s.lay, q, id) :: p == q
  {
    InitiallySound(workers, queueSize);
    RunKeepsFiles(Initial(workers, queueSize), tr);
    var s := After(Initial(workers, queueSize), tr);
    if id in s.store.accepted {
      AcceptedIsInPipeline(s, id);
    }
    if p :| InPipeline(p) && Holds(s.lay, p, id) {
      InPipelineIsAccepted(s, p, id);
    }
    forall p, q | Holds(s.lay, p, id) && Holds(s.lay, q, id) ensures p == q {
      OnlyPlace(s.lay, p, q, id);
    }
  }

  // ----- Statuses -----------------------------------------------------------------------------------

  /** The status changes that occur: processing may repeat, and three failures to lock the row take a file
      from pending to error without processing. */
  predicate MayBecome(before: Status, after: Status) {
    || before == after
    || (before == Pending && after in {Processing, Error})
    || (before == Processing && after in {Done, Error})
  }

  /** What a step may do to a row. */
  predicate RowKept(before: Row, after: Row) {
    && (before.status.Terminal() ==> after == before)
    && after.user == before.user && after.fileType == before.fileType
    && MayBecome(before.status, after.status)
  }

  lemma RunningIsGood(s: State, g: nat)
    requires Sound(s) && g in s.lay.procs
    ensures var p := s.lay.procs[g]; p.job.fileId in s.store.rows && Good(s.store, Running(p.job, p.stage))
  {
    assert GoodAt(s.lay, s.store, InProcess(g));
  }

  lemma MarkStatus(st: Store, j: Job, id: Id)
    requires id in st.rows && j.fileId in st.rows && StageGood(st, j, Begin)
    ensures id in RowMarked(st, j.fileId).rows && RowKept(st.rows[id], RowMarked(st, j.fileId).rows[id])
  {
  }

  lemma DoneStatus(st: Store, j: Job, id: Id)
    requires id in st.rows && j.fileId in st.rows && StageGood(st, j, Cleaned)
    ensures id in RowDone(st, j).rows && RowKept(st.rows[id], RowDone(st, j).rows[id])
  {
  }

  lemma ErrorStatus(st: Store, j: Job, id: Id)
    requires id in st.rows && j.fileId in st.rows && StageGood(st, j, Failed)
    ensures id in RowErrored(st, j.fileId).rows && RowKept(st.rows[id], RowErrored(st, j.fileId).rows[id])
  {
  }

  lemma RetryStatus(st: Store, j: Job, n: nat, id: Id)
    requires id in st.rows && j.fileId in st.rows && StageGood(st, j, Failed)
    ensures id in RetryCounted(st, j.fileId, n).rows && RowKept(st.rows[id], RetryCounted(st, j.fileId, n).rows[id])
  {
  }

  /** The steps that do not touch an existing row. */
  lemma RowsUntouched(s: State, a: Action, id: Id)
    requires Enabled(s, a) && !a.Lock? && !a.Save? && !a.Retry? && !a.Exhaust? && id in s.store.rows
    ensures id in Apply(s, a).store.rows && Apply(s, a).store.rows[id] == s.store.rows[id]
  {
  }

  lemma WrittenRows(s: State, a: Action)
    requires Enabled(s, a) && (a.Lock? || a.Save? || a.Retry? || a.Exhaust?)
    ensures var su, j := Apply(s, a).store, s.lay.procs[a.g].job;
            match a
            case Lock(_, _) => su.rows == s.store.rows || su == RowMarked(s.store, j.fileId)
            case Save(_, _) => su.rows == s.store.rows || su == RowDone(s.store, j)
            case Retry(_, _) => su == RetryCounted(s.store, j.fileId, j.retryCount + 1)
            case _ => su == RowErrored(s.store, j.fileId)
  {
  }

  lemma WriteStatus(s: State, a: Action, id: Id)
    requires Enabled(s, a) && (a.Lock? || a.Save? || a.Retry? || a.Exhaust?) && id in s.store.rows
    requires var p := s.lay.procs[a.g]; p.job.fileId in s.store.rows && StageGood(s.store, p.job, p.stage)
    ensures id in Apply(s, a).store.rows && RowKept(s.store.rows[id], Apply(s, a).store.rows[id])
  {
    var j := s.lay.procs[a.g].job;
    WrittenRows(s, a);
    match a
    case Lock(_, _) => MarkStatus(s.store, j, id);
    case Save(_, _) => DoneStatus(s.store, j, id);
    case Retry(_, _) => RetryStatus(s.store, j, j.retryCount + 1, id);
    case _ => ErrorStatus(s.store, j, id);
  }

  /** One step never rewrites a terminal row, although the writes themselves are unconditional. */
  lemma StepStatus(s: State, a: Action, id: Id)
    requires Sound(s) && Enabled(s, a) && id in s.store.rows
    ensures id in Apply(s, a).store.rows && RowKept(s.store.rows[id], Apply(s, a).store.rows[id])
  {
    if a.Lock? || a.Save? || a.Retry? || a.Exhaust? {
      RunningIsGood(s, a.g);
      WriteStatus(s, a, id);
    } else {
      RowsUntouched(s, a, id);
    }
  }

  /** Terminal statuses are absorbing: whatever follows, a done or failed row stays as it is. */
  lemma {:induction false} TerminalForever(s: State, tr: seq<Action>, id: Id)
    requires Sound(s) && Valid(s, tr) && id in s.store.rows && s.store.rows[id].status.Terminal()
    ensures id in After(s, tr).store.rows && After(s, tr).store.rows[id] == s.store.rows[id]
    decreases |tr|
  {
    if tr != [] {
      var front := tr[..|tr| - 1];
      TerminalForever(s, front, id);
      RunKeepsFiles(s, front);
      StepStatus(After(s, front), tr[|tr| - 1], id);
    }
  }

  /** The step locks the file's row and sets it to processing. */
  predicate Marks(s: State, a: Action, id: Id)
    requires Enabled(s, a)
  {
    a.Lock? && s.lay.procs[a.g].job.fileId == id && AtStage(Apply(s, a).lay, a.g, Marked)
  }

  predicate EverMarked(s: State, tr: seq<Action>, id: Id)
    requires Valid(s, tr)
    decreases |tr|
  {
    tr != [] && (EverMarked(s, tr[..|tr| - 1], id) || Marks(After(s, tr[..|tr| - 1]), tr[|tr| - 1], id))
  }

  /** Not yet marked: still pending, or given up. Once marked: pending never again. */
  predicate MarkShows(st: Store, id: Id, marked: bool) {
    if id !in st.rows then !marked
    else if marked then st.rows[id].status != Pending
    else st.rows[id].status in {Pending, Error}
  }

  lemma LockShows(s: State, a: Action, id: Id, marked: bool)
    requires Enabled(s, a) && a.Lock? && MarkShows(s.store, id, marked)
    ensures MarkShows(Apply(s, a).store, id, marked || Marks(s, a, id))
  {
  }

  lemma WriteShows(s: State, a: Action, id: Id, marked: bool)
    requires Enabled(s, a) && (a.Save? || a.Retry? || a.Exhaust?) && MarkShows(s.store, id, marked)
    requires var p := s.lay.procs[a.g]; p.job.fileId in s.store.rows && StageGood(s.store, p.job, p.stage)
    ensures MarkShows(Apply(s, a).store, id, marked)
  {
    WrittenRows(s, a);
  }

  lemma OtherShows(s: State, a: Action, id: Id, marked: bool)
    requires Enabled(s, a) && !a.Lock? && !a.Save? && !a.Retry? && !a.Exhaust? && MarkShows(s.store, id, marked)
    ensures MarkShows(Apply(s, a).store, id, marked)
  {
    if id in s.store.rows {
      RowsUntouched(s, a, id);
    }
  }

  lemma StepShows(s: State, a: Action, id: Id, marked: bool)
    requires Sound(s) && Enabled(s, a) && MarkShows(s.store, id, marked)
    ensures MarkShows(Apply(s, a).store, id, marked || Marks(s, a, id))
  {
    if a.Lock? {
      LockShows(s, a, id, marked);
    } else if a.Save? || a.Retry? || a.Exhaust? {
      RunningIsGood(s, a.g);
      WriteShows(s, a, id, marked);
    } else {
      OtherShows(s, a, id, marked);
    }
  }

  lemma {:induction false} RunShows(workers: nat, queueSize: nat, tr: seq<Action>, id: Id)
    requires Valid(Initial(workers, queueSize), tr)
    ensures MarkShows(After(Initial(workers, queueSize), tr).store, id, EverMarked(Initial(workers, queueSize), tr, id))
    decreases |tr|
  {
    var s := Initial(workers, queueSize);
    if tr != [] {
      var front := tr[..|tr| - 1];
      RunShows(workers, queueSize, front, id);
      InitiallySound(workers, queueSize);
      RunKeepsFiles(s, front);
      StepShows(After(s, front), tr[|tr| - 1], id, EverMarked(s, front, id));
    }
  }

  /** When the documented order is skipped: giving up takes a file from pending straight to error if and only
      if none of its attempts ever locked the row, and from processing otherwise. */
  lemma ErrorFromPendingIff(workers: nat, queueSize: nat, tr: seq<Action>, g: nat, queued: bool)
    requires Valid(Initial(workers, queueSize), tr)
    requires Enabled(After(Initial(workers, queueSize), tr), Exhaust(g, queued))
    ensures var s := After(Initial(workers, queueSize), tr);
            var id, t := s.lay.procs[g].job.fileId, Apply(s, Exhaust(g, queued));
            && id in s.store.rows && id in t.store.rows && t.store.rows[id].status == Error
            && s.store.rows[id].status ==
               if EverMarked(Initial(workers, queueSize), tr, id) then Processing else Pending
  {
    var s := After(Initial(workers, queueSize), tr);
    InitiallySound(workers, queueSize);
    RunKeepsFiles(Initial(workers, queueSize), tr);
    RunningIsGood(s, g);
    var id := s.lay.procs[g].job.fileId;
    RunShows(workers, queueSize, tr, id);
    GivingUp(s, g, queued, EverMarked(Initial(workers, queueSize), tr, id));
  }

  lemma GivingUp(s: State, g: nat, queued: bool, marked: bool)
    requires Enabled(s, Exhaust(g, queued))
    requires var j := s.lay.procs[g].job;
             j.fileId in s.store.rows && StageGood(s.store, j, Failed) && MarkShows(s.store, j.fileId, marked)
    ensures var id, t := s.lay.procs[g].job.fileId, Apply(s, Exhaust(g, queued));
            && id in t.store.rows && t.store.rows[id].status == Error
            && s.store.rows[id].status == if marked then Processing else Pending
  {
  }

  /** A live job's row is terminal only between saving it and returning from Process. */
  lemma LiveRowNotTerminal(s: State, p: Place)
    requires Sound(s) && At(s.lay, p).Some? && At(s.lay, p).value.Live()
    ensures var item := At(s.lay, p).value;
            item.File() in s.store.rows &&
            (s.store.rows[item.File()].status.Terminal() <==> item.Running? && item.stage == Saved)
  {
    assert GoodAt(s.lay, s.store, p);
  }

  lemma GuardPasses(s: State, g: nat)
    requires AtStage(s.lay, g, Begin)
    requires var id := s.lay.procs[g].job.fileId; id in s.store.rows && !s.store.rows[id].status.Terminal()
    ensures Apply(s, Lock(g, true)).lay == Staged(s.lay, g, Marked)
  {
  }

  /** So the guard against processing a finished file never fires. */
  lemma GuardNeverFires(s: State, g: nat)
    requires Sound(s) && AtStage(s.lay, g, Begin)
    ensures Apply(s, Lock(g, true)).lay == Staged(s.lay, g, Marked)
  {
    RunningIsGood(s, g);
    GuardPasses(s, g);
  }

  // ----- Events ----------------------------------------------------------------------------------------

  ghost predicate Backed(s: State, e: Event) {
    match e.kind
    case FileProcessed => exists i :: 0 <= i < |s.lay.finished| && s.lay.finished[i] == e.fileId
    case FileError =>
      exists i :: 0 <= i < |s.lay.deadLetters| && s.lay.deadLetters[i].fileId == e.fileId &&
                  s.lay.deadLetters[i].reason == Exhausted
  }

  ghost predicate EventsSound(s: State) {
    && (forall i | 0 <= i < |s.events| :: Backed(s, s.events[i]))
    && (forall i, j | 0 <= i < j < |s.events| :: s.events[i].fileId != s.events[j].fileId)
  }

  predicate Grown(s: State, t: State) {
    s.lay.finished <= t.lay.finished && s.lay.deadLetters <= t.lay.deadLetters
  }

  lemma StaysBacked(s: State, t: State, e: Event)
    requires Grown(s, t) && Backed(s, e)
    ensures Backed(t, e)
  {
    if e.kind.FileProcessed? {
      var i :| 0 <= i < |s.lay.finished| && s.lay.finished[i] == e.fileId;
      assert t.lay.finished[i] == e.fileId;
    } else {
      var i :| 0 <= i < |s.lay.deadLetters| && s.lay.deadLetters[i].fileId == e.fileId &&
               s.lay.deadLetters[i].reason == Exhausted;
      assert t.lay.deadLetters[i] == s.lay.deadLetters[i];
    }
  }

  /** A file still being processed has no event yet. */
  lemma NoEventWhileRunning(s: State, g: nat, e: Event)
    requires Sound(s) && g in s.lay.procs && Backed(s, e)
    ensures e.fileId != s.lay.procs[g].job.fileId
  {
    assert At(s.lay, InProcess(g)).Some?;
    if e.kind.FileProcessed? {
      var i :| 0 <= i < |s.lay.finished| && s.lay.finished[i] == e.fileId;
      assert At(s.lay, InFinished(i)) == Some(WasFinished(e.fileId));
    } else {
      var i :| 0 <= i < |s.lay.deadLetters| && s.lay.deadLetters[i].fileId == e.fileId &&
               s.lay.deadLetters[i].reason == Exhausted;
      assert At(s.lay, InDeadLetters(i)) == Some(WasBuried(s.lay.deadLetters[i]));
    }
  }

  lemma AppendEvent(s: State, t: State, g: nat, e: Event)
    requires Sound(s) && EventsSound(s) && Grown(s, t) && g in s.lay.procs
    requires t.events == s.events + [e] && e.fileId == s.lay.procs[g].job.fileId && Backed(t, e)
    ensures EventsSound(t)
  {
    forall i | 0 <= i < |s.events| ensures Backed(t, s.events[i]) && s.events[i].fileId != e.fileId {
      StaysBacked(s, t, s.events[i]);
      NoEventWhileRunning(s, g, s.events[i]);
    }
  }

  lemma SameEvents(s: State, t: State)
    requires EventsSound(s) && Grown(s, t) && t.events == s.events
    ensures EventsSound(t)
  {
    forall i | 0 <= i < |s.events| ensures Backed(t, s.events[i]) {
      StaysBacked(s, t, s.events[i]);
    }
  }

  lemma StepGrows(s: State, a: Action)
    requires Enabled(s, a)
    ensures Grown(s, Apply(s, a))
  {
  }

  lemma StepKeepsEvents(s: State, a: Action)
    requires Sound(s) && EventsSound(s) && Enabled(s, a)
    ensures EventsSound(Apply(s, a))
  {
    var t := Apply(s, a);
    StepGrows(s, a);
    if a.Notify? && a.queued {
      assert t.lay.finished[|s.lay.finished|] == s.lay.procs[a.g].job.fileId;
      AppendEvent(s, t, a.g, Event(s.lay.procs[a.g].job.fileId, FileProcessed));
    } else if a.Exhaust? && a.queued {
      assert t.lay.deadLetters[|s.lay.deadLetters|].reason == Exhausted;
      AppendEvent(s, t, a.g, Event(s.lay.procs[a.g].job.fileId, FileError));
    } else {
      SameEvents(s, t);
    }
  }

  lemma {:induction false} RunKeepsEvents(s: State, tr: seq<Action>)
    requires Sound(s) && EventsSound(s) && Valid(s, tr)
    ensures EventsSound(After(s, tr))
    decreases |tr|
  {
    if tr != [] {
      var front := tr[..|tr| - 1];
      RunKeepsEvents(s, front);
      RunKeepsFiles(s, front);
      StepKeepsEvents(After(s, front), tr[|tr| - 1]);
    }
  }

  /** What the log says of its file. */
  predicate EntryFits(st: Store, e: Entry) {
    && e.fileId in st.rows && e.userId == st.rows[e.fileId].user
    && if e.reason == Exhausted then e.retryCount == 3 && st.rows[e.fileId].status == Error
       else 1 <= e.retryCount <= 2 && !st.rows[e.fileId].status.Terminal()
  }

  lemma BackedStatus(s: State, e: Event)
    requires Sound(s) && Backed(s, e)
    ensures e.fileId in s.store.rows
    ensures s.store.rows[e.fileId].status == if e.kind == FileProcessed then Done else Error
  {
    if e.kind.FileProcessed? {
      var k: nat :| k < |s.lay.finished| && s.lay.finished[k] == e.fileId;
      assert GoodAt(s.lay, s.store, InFinished(k));
    } else {
      var k: nat :| k < |s.lay.deadLetters| && s.lay.deadLetters[k].fileId == e.fileId &&
                    s.lay.deadLetters[k].reason == Exhausted;
      BuriedFits(s, k);
    }
  }

  /** Per file at most one event is handed to the hub: file.processed only for a row that is done, file.error
      only for one whose retries are exhausted. */
  lemma OneEventPerFile(workers: nat, queueSize: nat, tr: seq<Action>, i: nat)
    requires Valid(Initial(workers, queueSize), tr) && i < |After(Initial(workers, queueSize), tr).events|
    ensures var s := After(Initial(workers, queueSize), tr);
            var e := s.events[i];
            && (forall j | 0 <= j < |s.events| && s.events[j].fileId == e.fileId :: j == i)
            && e.fileId in s.store.rows
            && s.store.rows[e.fileId].status == if e.kind == FileProcessed then Done else Error
  {
    var s0 := Initial(workers, queueSize);
    var s := After(s0, tr);
    InitiallySound(workers, queueSize);
    RunKeepsFiles(s0, tr);
    RunKeepsEvents(s0, tr);
    assert Backed(s, s.events[i]);
    BackedStatus(s, s.events[i]);
  }

  // ----- At quiescence -----------------------------------------------------------------------------------

  predicate Quiescent(s: State) {
    && s.lay.uploads == map[] && s.lay.queue == [] && s.lay.procs == map[] && s.lay.timers == map[]
    && s.exiting == 0 && forall d | 0 <= d < |s.lay.hands| :: s.lay.hands[d] in {Idle, Exited}
  }

  /** Done, with its object stored. */
  predicate IsDone(s: State, id: Id) {
    id in s.lay.finished && id in s.store.rows && StoredDone(s.store, id)
  }

  /** In the dead-letter log exactly once, under its uploader: with count 3 and status error when its retries
      were exhausted, with a smaller count and a row left unfinished when a retry met a full queue. */
  ghost predicate IsBuried(s: State, id: Id) {
    exists i: nat :: i < |s.lay.deadLetters| && s.lay.deadLetters[i].fileId == id &&
      EntryFits(s.store, s.lay.deadLetters[i]) &&
      forall j | 0 <= j < |s.lay.deadLetters| && s.lay.deadLetters[j].fileId == id :: j == i
  }

  lemma BuriedFits(s: State, i: nat)
    requires Sound(s) && i < |s.lay.deadLetters|
    ensures EntryFits(s.store, s.lay.deadLetters[i])
  {
    assert GoodAt(s.lay, s.store, InDeadLetters(i));
  }

  lemma BuriedAt(s: State, i: nat)
    requires Sound(s) && i < |s.lay.deadLetters|
    ensures IsBuried(s, s.lay.deadLetters[i].fileId)
  {
    var id := s.lay.deadLetters[i].fileId;
    BuriedFits(s, i);
    forall j: nat | j < |s.lay.deadLetters| && s.lay.deadLetters[j].fileId == id ensures j == i {
      OnlyPlace(s.lay, InDeadLetters(j), InDeadLetters(i), id);
    }
  }

  /** At quiescence a file can only be where its work has ended. */
  lemma SettledPlaces(s: State, p: Place)
    requires Quiescent(s) && At(s.lay, p).Some?
    ensures p.InFinished? || p.InAbandoned? || p.InDeadLetters? || p.InRejected?
  {
  }

  /** Once nothing is left to do, every accepted file that no panic abandoned is done or dead-lettered. */
  lemma AcceptedFilesSettled(s: State, id: Id)
    requires Sound(s) && Quiescent(s) && id in s.store.accepted
    ensures id in s.lay.abandoned || IsDone(s, id) || IsBuried(s, id)
  {
    var p :| Holds(s.lay, p, id);
    assert GoodAt(s.lay, s.store, p);
    SettledPlaces(s, p);
    if p.InDeadLetters? {
      BuriedAt(s, p.i);
    }
  }

  /** Files whose work ended without a final status. */
  ghost predicate LeftBehind(s: State, id: Id) {
    || id in s.lay.rejected
    || id in s.lay.abandoned
    || exists i :: 0 <= i < |s.lay.deadLetters| && s.lay.deadLetters[i].fileId == id &&
                   s.lay.deadLetters[i].reason == QueueFull
  }

  lemma LeftBehindPlace(s: State, id: Id) returns (p: Place)
    requires LeftBehind(s, id)
    ensures Holds(s.lay, p, id)
    ensures p.InRejected? || p.InAbandoned? || (p.InDeadLetters? && s.lay.deadLetters[p.i].reason == QueueFull)
  {
    if id in s.lay.rejected {
      var i: nat :| i < |s.lay.rejected| && s.lay.rejected[i] == id;
      p := InRejected(i);
    } else if id in s.lay.abandoned {
      var i: nat :| i < |s.lay.abandoned| && s.lay.abandoned[i] == id;
      p := InAbandoned(i);
    } else {
      var i: nat :| i < |s.lay.deadLetters| && s.lay.deadLetters[i].fileId == id &&
                    s.lay.deadLetters[i].reason == QueueFull;
      p := InDeadLetters(i);
    }
  }

  lemma UnfinishedIsLeftBehind(s: State, id: Id, p: Place)
    requires Sound(s) && Quiescent(s) && id in s.store.rows && Holds(s.lay, p, id)
    requires !s.store.rows[id].status.Terminal()
    ensures LeftBehind(s, id)
  {
    assert GoodAt(s.lay, s.store, p);
    SettledPlaces(s, p);
  }

  /** And a row that is still pending or processing is exactly that of a rejected upload, of a retry that met
      a full queue, or of a job abandoned by a panic. */
  lemma UnfinishedRowsExplained(s: State, id: Id)
    requires Sound(s) && Quiescent(s) && id in s.store.rows
    ensures !s.store.rows[id].status.Terminal() <==> LeftBehind(s, id)
  {
    if LeftBehind(s, id) {
      var p := LeftBehindPlace(s, id);
      assert GoodAt(s.lay, s.store, p);
    } else if !s.store.rows[id].status.Terminal() {
      var p :| Holds(s.lay, p, id);
      UnfinishedIsLeftBehind(s, id, p);
    }
  }

  // ----- The tmp file ---------------------------------------------------------------------------------------

  /** A live job still has its tmp file before its removal, unless an earlier attempt failed to save after the
      upload; then the object is already stored. */
  lemma TmpFileKept(s: State, p: Place)
    requires Sound(s) && At(s.lay, p).Some? && At(s.lay, p).value.Live()
    requires At(s.lay, p).value.Running? ==> At(s.lay, p).value.stage !in {Cleaned, Saved}
    ensures var j := At(s.lay, p).value.job;
            j.tmpPath in s.store.tmp || (j.fileId in s.store.lateFails && KeyFor(j) in s.store.objects)
  {
    assert GoodAt(s.lay, s.store, p);
  }

  /** Without its tmp file and with work still to do, out of attempts, or already dead-lettered. */
  predicate DoomedItem(st: Store, item: Item) {
    match item
    case Queued(j) => j.tmpPath !in st.tmp
    case Carried(j, _) => j.tmpPath !in st.tmp
    case Waiting(j) => j.tmpPath !in st.tmp
    case Running(j, stage) =>
      || (j.tmpPath !in st.tmp && stage in {Begin, Marked, Failed})
      || (j.retryCount >= 2 && stage == Failed)
    case WasBuried(_) => true
    case _ => false
  }

  ghost predicate Doomed(s: State, id: Id) {
    exists p :: Holds(s.lay, p, id) && DoomedItem(s.store, At(s.lay, p).value)
  }

  lemma TmpOnlyGrowsByCreation(s: State, a: Action, path: Path)
    requires Enabled(s, a) && path in Apply(s, a).store.tmp && path !in s.store.tmp
    ensures FreshPath(s.store, path)
  {
  }

  lemma TmpStaysGone(s: State, a: Action, id: Id)
    requires Enabled(s, a) && id in s.store.uploaded && s.store.uploaded[id].tmpPath !in s.store.tmp
    ensures s.store.uploaded[id].tmpPath !in Apply(s, a).store.tmp
  {
    if s.store.uploaded[id].tmpPath in Apply(s, a).store.tmp {
      TmpOnlyGrowsByCreation(s, a, s.store.uploaded[id].tmpPath);
    }
  }

  ghost predicate LandsDoomed(s: State, a: Action)
    requires Enabled(s, a)
  {
    && Target(s, a).Some? && At(Apply(s, a).lay, Target(s, a).value).Some?
    && DoomedItem(Apply(s, a).store, At(Apply(s, a).lay, Target(s, a).value).value)
  }

  predicate FromDoomed(s: State, a: Action) {
    && Source(s, a).Some? && At(s.lay, Source(s, a).value).Some?
    && DoomedItem(s.store, At(s.lay, Source(s, a).value).value)
  }

  lemma DispatchLandsDoomed(s: State, a: Action)
    requires Enabled(s, a) && FromDoomed(s, a) && (a.Dequeue? || a.Acquire? || a.Spawn?)
    ensures LandsDoomed(s, a)
  {
  }

  lemma FireLandsDoomed(s: State, a: Action)
    requires Enabled(s, a) && FromDoomed(s, a) && a.Fire?
    ensures LandsDoomed(s, a)
  {
  }

  lemma AttemptLandsDoomed(s: State, a: Action)
    requires Sound(s) && Enabled(s, a) && FromDoomed(s, a) && (a.Lock? || a.Work?)
    ensures LandsDoomed(s, a)
  {
    assert GoodAt(s.lay, s.store, InProcess(a.g));
  }

  lemma FailureLandsDoomed(s: State, a: Action)
    requires Enabled(s, a) && FromDoomed(s, a) && (a.Retry? || a.Exhaust?)
    ensures LandsDoomed(s, a)
  {
  }

  lemma DoomedLands(s: State, a: Action)
    requires Sound(s) && Enabled(s, a) && !a.Panic? && FromDoomed(s, a)
    ensures LandsDoomed(s, a)
  {
    match a
    case Dequeue(_) => DispatchLandsDoomed(s, a);
    case Acquire(_) => DispatchLandsDoomed(s, a);
    case Spawn(_, _) => DispatchLandsDoomed(s, a);
    case Fire(_) => FireLandsDoomed(s, a);
    case Lock(_, _) => AttemptLandsDoomed(s, a);
    case Work(_, _) => AttemptLandsDoomed(s, a);
    case Retry(_, _) => FailureLandsDoomed(s, a);
    case Exhaust(_, _) => FailureLandsDoomed(s, a);
    case _ =>
  }

  lemma DoomedMoves(s: State, a: Action, p: Place)
    requires Sound(s) && Enabled(s, a) && !a.Panic? && Source(s, a) == Some(p)
    requires At(s.lay, p).Some? && DoomedItem(s.store, At(s.lay, p).value)
    ensures Doomed(Apply(s, a), At(s.lay, p).value.File())
  {
    DoomedLands(s, a);
    StepMoves(s, a);
    assert Holds(Apply(s, a).lay, Target(s, a).value, At(s.lay, p).value.File());
  }

  lemma StepKeepsDoomed(s: State, a: Action, id: Id)
    requires Sound(s) && Enabled(s, a) && !a.Panic? && Doomed(s, id)
    ensures Doomed(Apply(s, a), id)
  {
    var p :| Holds(s.lay, p, id) && DoomedItem(s.store, At(s.lay, p).value);
    assert GoodAt(s.lay, s.store, p);
    if Source(s, a) == Some(p) {
      DoomedMoves(s, a, p);
    } else {
      OthersStay(s, a, p);
      if s.store.uploaded[id].tmpPath !in s.store.tmp {
        TmpStaysGone(s, a, id);
      }
      assert Holds(Apply(s, a).lay, p, id);
    }
  }

  lemma DoomedIsBuried(s: State, id: Id)
    requires Sound(s) && Quiescent(s) && Doomed(s, id)
    ensures IsBuried(s, id)
  {
    var p :| Holds(s.lay, p, id) && DoomedItem(s.store, At(s.lay, p).value);
    SettledPlaces(s, p);
    BuriedAt(s, p.i);
  }

  lemma {:induction false} DoomedForever(s: State, tr: seq<Action>, id: Id)
    requires Sound(s) && Valid(s, tr) && Doomed(s, id) && NoPanic(tr)
    ensures Doomed(After(s, tr), id)
    decreases |tr|
  {
    if tr != [] {
      var front, a := tr[..|tr| - 1], tr[|tr| - 1];
      assert a in tr && forall b | b in front :: b in tr;
      DoomedForever(s, front, id);
      RunKeepsFiles(s, front);
      StepKeepsDoomed(After(s, front), a, id);
    }
  }

  /** A goroutine whose save can no longer be made good: the tmp file is gone, or this is the last attempt. */
  predicate NoWayBack(s: State, g: nat)
    requires g in s.lay.procs
  {
    var j := s.lay.procs[g].job;
    j.tmpPath !in s.store.tmp || j.retryCount >= 2
  }

  lemma FailedSaveDooms(s: State, g: nat)
    requires AtStage(s.lay, g, Cleaned) && NoWayBack(s, g)
    ensures Doomed(Apply(s, Save(g, false)), s.lay.procs[g].job.fileId)
    ensures Apply(s, Save(g, false)).store.objects == s.store.objects
  {
    assert Holds(Apply(s, Save(g, false)).lay, InProcess(g), s.lay.procs[g].job.fileId);
  }

  /** How a file comes to be doomed. */
  lemma LateFailureDooms(s: State, g: nat)
    requires Sound(s) && AtStage(s.lay, g, Cleaned) && NoWayBack(s, g)
    ensures var t := Apply(s, Save(g, false));
            Doomed(t, s.lay.procs[g].job.fileId) && KeyFor(s.lay.procs[g].job) in t.store.objects
  {
    RunningIsGood(s, g);
    FailedSaveDooms(s, g);
  }

  lemma StepKeepsObjects(s: State, a: Action)
    requires Enabled(s, a)
    ensures s.store.objects <= Apply(s, a).store.objects
  {
  }

  /** A stored object is never removed. */
  lemma {:induction false} ObjectsKept(s: State, tr: seq<Action>, key: Key)
    requires Valid(s, tr) && key in s.store.objects
    ensures key in After(s, tr).store.objects
    decreases |tr|
  {
    if tr != [] {
      ObjectsKept(s, tr[..|tr| - 1], key);
      StepKeepsObjects(After(s, tr[..|tr| - 1]), tr[|tr| - 1]);
    }
  }

  /** From the moment a save fails with no way back, every continuation without panics dead-letters the file
      once it is quiescent, even though its object is stored. */
  lemma LateFailureDeadLetters(s: State, g: nat, tr: seq<Action>)
    requires Sound(s) && AtStage(s.lay, g, Cleaned) && NoWayBack(s, g)
    requires Valid(Apply(s, Save(g, false)), tr) && NoPanic(tr)
    ensures var t, j := After(Apply(s, Save(g, false)), tr), s.lay.procs[g].job;
            KeyFor(j) in t.store.objects && (Quiescent(t) ==> IsBuried(t, j.fileId))
  {
    var u, j := Apply(s, Save(g, false)), s.lay.procs[g].job;
    LateFailureDooms(s, g);
    StepKeepsFiles(s, Save(g, false));
    RunKeepsFiles(u, tr);
    DoomedForever(u, tr, j.fileId);
    ObjectsKept(u, tr, KeyFor(j));
    if Quiescent(After(u, tr)) {
      DoomedIsBuried(After(u, tr), j.fileId);
    }
  }
}
