/** What every step of the pipeline keeps. */
module PipelineInvariant {
  import opened Domain
  import opened Pipeline

  // ----- Places ---------------------------------------------------------------------------------

  /** Everywhere a file's work can be. A job's position in the channel is counted from the start of time, so
      that receiving one job does not move the others. */
  datatype Place =
    | InUpload(u: nat) | InQueue(n: nat) | InHand(d: nat) | InProcess(g: nat) | OnTimer(t: nat)
    | InFinished(i: nat) | InAbandoned(i: nat) | InDeadLetters(i: nat) | InRejected(i: nat)

  datatype Item =
    | Uploading(job: Job) | Queued(job: Job) | Carried(job: Job, slot: bool) | Running(job: Job, stage: Stage)
    | Waiting(job: Job)
    | WasFinished(id: Id) | WasAbandoned(id: Id) | WasBuried(entry: Entry) | WasRejected(id: Id)
  {
    predicate Live() {
      Queued? || Carried? || Running? || Waiting?
    }

    function File(): Id {
      match this
      case Uploading(j) => j.fileId
      case Queued(j) => j.fileId
      case Carried(j, _) => j.fileId
      case Running(j, _) => j.fileId
      case Waiting(j) => j.fileId
      case WasFinished(id) => id
      case WasAbandoned(id) => id
      case WasBuried(e) => e.fileId
      case WasRejected(id) => id
    }
  }

  function At(l: Layout, p: Place): Option<Item> {
    match p
    case InUpload(u) => if u in l.uploads then Some(Uploading(l.uploads[u])) else None
    case InQueue(n) => if l.taken <= n < l.taken + |l.queue| then Some(Queued(l.queue[n - l.taken])) else None
    case InHand(d) =>
      if d < |l.hands| && l.hands[d].Holding? then Some(Carried(l.hands[d].job, false))
      else if d < |l.hands| && l.hands[d].Acquired? then Some(Carried(l.hands[d].job, true))
      else None
    case InProcess(g) => if g in l.procs then Some(Running(l.procs[g].job, l.procs[g].stage)) else None
    case OnTimer(t) => if t in l.timers then Some(Waiting(l.timers[t])) else None
    case InFinished(i) => if i < |l.finished| then Some(WasFinished(l.finished[i])) else None
    case InAbandoned(i) => if i < |l.abandoned| then Some(WasAbandoned(l.abandoned[i])) else None
    case InDeadLetters(i) => if i < |l.deadLetters| then Some(WasBuried(l.deadLetters[i])) else None
    case InRejected(i) => if i < |l.rejected| then Some(WasRejected(l.rejected[i])) else None
  }

  predicate Holds(l: Layout, p: Place, id: Id) {
    At(l, p).Some? && At(l, p).value.File() == id
  }

  ghost predicate OnePlaceEach(l: Layout) {
    forall p, q | At(l, p).Some? && At(l, q).Some? && At(l, p).value.File() == At(l, q).value.File() :: p == q
  }

  ghost predicate AllPlaced(l: Layout, ids: set<Id>) {
    forall id | id in ids :: exists p :: Holds(l, p, id)
  }

  // ----- What is true of a file, given where it is ---------------------------------------------------

  /** The tmp file is there, unless an earlier attempt failed to save after its upload. */
  predicate TmpKept(st: Store, j: Job) {
    j.tmpPath in st.tmp || j.fileId in st.lateFails
  }

  /** The waits before the first `n` retries, in seconds. */
  function Waits(n: nat): seq<nat> {
    if n == 0 then [] else if n == 1 then [2] else [2, 4]
  }

  /** The object's key: the uploader, the file, and the type of the job. */
  function KeyFor(j: Job): Key {
    Key(j.userId, j.fileId, j.fileType)
  }

  /** The job is the uploaded one but for its count, and the row and the delays agree with that count. */
  predicate JobKnown(st: Store, j: Job) {
    && j.fileId in st.rows && j.fileId in st.uploaded && j == st.uploaded[j.fileId].(retryCount := j.retryCount)
    && st.rows[j.fileId].user == j.userId
    && j.retryCount <= 2 && st.rows[j.fileId].retryCount == j.retryCount
    && Lookup(st.backoff, j.fileId, []) == Waits(j.retryCount)
    && (j.fileId in st.lateFails ==> KeyFor(j) in st.objects)
  }

  predicate AttemptsAre(st: Store, id: Id, n: nat) {
    Lookup(st.attempts, id, 0) == n
  }

  predicate StageGood(st: Store, j: Job, stage: Stage)
    requires j.fileId in st.rows
  {
    var row := st.rows[j.fileId];
    match stage
    case Begin => !row.status.Terminal() && TmpKept(st, j)
    case Marked => row.status == Processing && TmpKept(st, j)
    case Worked => row.status == Processing && j.tmpPath in st.tmp
    case Stored => row.status == Processing && j.tmpPath in st.tmp && KeyFor(j) in st.objects
    case Cleaned => row.status == Processing && KeyFor(j) in st.objects
    case Saved => row.status == Done && row.storagePath == Some(KeyFor(j)) && KeyFor(j) in st.objects
    case Failed => !row.status.Terminal() && TmpKept(st, j)
  }

  predicate StoredDone(st: Store, id: Id)
    requires id in st.rows
  {
    && id in st.uploaded && st.rows[id].user == st.uploaded[id].userId
    && st.rows[id].status == Done
    && st.rows[id].storagePath == Some(Key(st.uploaded[id].userId, id, st.uploaded[id].fileType))
    && st.rows[id].storagePath.value in st.objects
  }

  /** At most three attempts, and a delay of two seconds before the second, of four before the third. */
  predicate Spent(st: Store, id: Id)
    requires id in st.rows
  {
    && Lookup(st.attempts, id, 0) <= 3
    && st.rows[id].retryCount <= 2 && Lookup(st.backoff, id, []) == Waits(st.rows[id].retryCount)
  }

  predicate Idling(st: Store, j: Job)
    requires j.fileId in st.rows
  {
    && !st.rows[j.fileId].status.Terminal() && JobKnown(st, j)
    && AttemptsAre(st, j.fileId, j.retryCount) && TmpKept(st, j)
  }

  predicate Good(st: Store, item: Item)
    requires item.File() in st.rows
  {
    var id := item.File();
    var status := st.rows[id].status;
    && (item.Uploading? || item.WasRejected? <==> id !in st.accepted)
    && match item
       case Uploading(j) => status == Pending && Idling(st, j) && j.retryCount == 0 && j.tmpPath in st.tmp
       case Queued(j) => Idling(st, j)
       case Carried(j, _) => Idling(st, j)
       case Waiting(j) => Idling(st, j) && j.retryCount > 0
       case Running(j, stage) => JobKnown(st, j) && AttemptsAre(st, id, j.retryCount + 1) && StageGood(st, j, stage)
       case WasFinished(_) => StoredDone(st, id) && Spent(st, id)
       case WasAbandoned(_) => !status.Terminal() && Spent(st, id)
       case WasBuried(e) =>
         && Spent(st, id) && AttemptsAre(st, id, e.retryCount)
         && id in st.uploaded && e.userId == st.uploaded[id].userId == st.rows[id].user
         && (if e.reason == Exhausted then e.retryCount == 3 && status == Error
             else 1 <= e.retryCount <= 2 && !status.Terminal())
       case WasRejected(_) =>
         status == Pending && AttemptsAre(st, id, 0) && st.rows[id].retryCount == 0 && Spent(st, id)
  }

  predicate GoodAt(l: Layout, st: Store, p: Place) {
    At(l, p).Some? ==> At(l, p).value.File() in st.rows && Good(st, At(l, p).value)
  }

  ghost predicate AllGood(l: Layout, st: Store) {
    forall p :: GoodAt(l, st, p)
  }

  ghost predicate PathsDistinct(st: Store) {
    && st.uploaded.Keys == st.rows.Keys
    && forall id, other | id in st.uploaded && other in st.uploaded ::
         st.uploaded[id].tmpPath == st.uploaded[other].tmpPath ==> id == other
  }

  ghost predicate HistoryKnown(st: Store) {
    && st.accepted <= st.rows.Keys && st.lateFails <= st.rows.Keys
    && st.attempts.Keys <= st.rows.Keys && st.backoff.Keys <= st.rows.Keys
  }

  ghost predicate FilesSound(l: Layout, st: Store) {
    OnePlaceEach(l) && AllPlaced(l, st.rows.Keys) && AllGood(l, st) && PathsDistinct(st) && HistoryKnown(st)
  }

  // ----- Moving one file -------------------------------------------------------------------------------

  /** One file goes from place `p` to place `q`; every other place keeps what it held. */
  ghost predicate Moves(l: Layout, m: Layout, p: Place, q: Place) {
    && At(l, p).Some? && At(m, q).Some? && At(l, p).value.File() == At(m, q).value.File()
    && (p != q ==> At(l, q).None? && At(m, p).None?)
    && forall r | r != p && r != q :: At(m, r) == At(l, r)
  }

  /** Nothing that matters to files other than `id` changes. */
  ghost predicate OnlyFile(st: Store, su: Store, id: Id) {
    && su.rows.Keys == st.rows.Keys && su.uploaded == st.uploaded
    && (forall other | other in st.rows && other != id :: su.rows[other] == st.rows[other])
    && (forall other | other != id ::
          && (other in su.accepted <==> other in st.accepted)
          && (other in su.lateFails <==> other in st.lateFails)
          && Lookup(su.attempts, other, 0) == Lookup(st.attempts, other, 0)
          && Lookup(su.backoff, other, []) == Lookup(st.backoff, other, []))
    && st.objects <= su.objects
    && (forall x | x in st.tmp && x !in su.tmp :: id in st.uploaded && x == st.uploaded[id].tmpPath)
  }

  lemma GoodElsewhere(st: Store, su: Store, id: Id, item: Item)
    requires PathsDistinct(st) && OnlyFile(st, su, id) && id in st.rows
    requires item.File() in st.rows && item.File() != id && Good(st, item)
    ensures Good(su, item)
  {
    assert su.rows[item.File()] == st.rows[item.File()];
  }

  lemma MoveKeepsUnique(l: Layout, m: Layout, p: Place, q: Place)
    requires OnePlaceEach(l) && Moves(l, m, p, q)
    ensures OnePlaceEach(m)
  {
    forall a, b | At(m, a).Some? && At(m, b).Some? && At(m, a).value.File() == At(m, b).value.File() ensures a == b {
      var a', b' := if a == q then p else a, if b == q then p else b;
      assert At(l, a').Some? && At(l, a').value.File() == At(m, a).value.File();
      assert At(l, b').Some? && At(l, b').value.File() == At(m, b).value.File();
    }
  }

  lemma StillHolds(l: Layout, m: Layout, p: Place, q: Place, a: Place, id: Id)
    requires Moves(l, m, p, q) && Holds(l, a, id)
    ensures Holds(m, if a == p then q else a, id)
  {
    if a != p {
      assert a != q;
      assert At(m, a) == At(l, a);
    }
  }

  lemma MoveKeepsPlaced(l: Layout, m: Layout, p: Place, q: Place, ids: set<Id>)
    requires AllPlaced(l, ids) && Moves(l, m, p, q)
    ensures AllPlaced(m, ids)
  {
    forall other | other in ids ensures exists a :: Holds(m, a, other) {
      var a :| Holds(l, a, other);
      StillHolds(l, m, p, q, a, other);
    }
  }

  lemma GoodElsewhereAt(l: Layout, m: Layout, st: Store, su: Store, p: Place, q: Place, id: Id, a: Place)
    requires OnePlaceEach(l) && GoodAt(l, st, a) && PathsDistinct(st) && Moves(l, m, p, q)
    requires id == At(l, p).value.File() && id in st.rows && OnlyFile(st, su, id) && a != p && a != q
    ensures GoodAt(m, su, a)
  {
    assert At(m, a) == At(l, a);
    if At(l, a).Some? {
      assert At(l, a).value.File() != id;
      GoodElsewhere(st, su, id, At(l, a).value);
    }
  }

  lemma MoveKeepsFiles(l: Layout, m: Layout, st: Store, su: Store, p: Place, q: Place, id: Id)
    requires FilesSound(l, st) && Moves(l, m, p, q) && id == At(l, p).value.File() && OnlyFile(st, su, id)
    requires GoodAt(m, su, q) && HistoryKnown(su)
    ensures FilesSound(m, su)
  {
    assert GoodAt(l, st, p);
    MoveKeepsUnique(l, m, p, q);
    MoveKeepsPlaced(l, m, p, q, st.rows.Keys);
    forall a ensures GoodAt(m, su, a) {
      if a != q && a != p {
        assert GoodAt(l, st, a);
        GoodElsewhereAt(l, m, st, su, p, q, id, a);
      }
    }
  }

  // ----- Layout moves -------------------------------------------------------------------------------------

  lemma UploadToQueue(l: Layout, u: nat)
    requires u in l.uploads
    ensures Moves(l, Pushed(WithoutUpload(l, u), l.uploads[u]), InUpload(u), InQueue(l.taken + |l.queue|))
  {
  }

  lemma UploadToRejected(l: Layout, u: nat)
    requires u in l.uploads
    ensures Moves(l, WithoutUpload(l, u).(rejected := l.rejected + [l.uploads[u].fileId]),
                  InUpload(u), InRejected(|l.rejected|))
  {
  }

  lemma QueueToHand(l: Layout, d: nat)
    requires HasHand(l, d) && l.hands[d] == Idle && l.queue != []
    ensures Moves(l, l.(queue := l.queue[1..], taken := l.taken + 1, hands := l.hands[d := Holding(l.queue[0])]),
                  InQueue(l.taken), InHand(d))
  {
  }

  lemma HandAcquires(l: Layout, d: nat)
    requires HasHand(l, d) && l.hands[d].Holding?
    ensures Moves(l, l.(hands := l.hands[d := Acquired(l.hands[d].job)]), InHand(d), InHand(d))
  {
  }

  lemma HandToProc(l: Layout, d: nat, g: nat)
    requires HasHand(l, d) && l.hands[d].Acquired? && g !in l.procs
    ensures Moves(l, l.(hands := l.hands[d := Idle], procs := l.procs[g := Proc(l.hands[d].job, Begin)]),
                  InHand(d), InProcess(g))
  {
  }

  lemma ProcAdvances(l: Layout, g: nat, stage: Stage)
    requires g in l.procs
    ensures Moves(l, Staged(l, g, stage), InProcess(g), InProcess(g))
  {
  }

  lemma ProcToFinished(l: Layout, g: nat)
    requires g in l.procs
    ensures var m, id := Finished(WithoutProc(l, g), l.procs[g].job.fileId), l.procs[g].job.fileId;
            && Moves(l, m, InProcess(g), InFinished(|l.finished|))
            && At(m, InFinished(|l.finished|)) == Some(WasFinished(id))
  {
  }

  lemma ProcToTimer(l: Layout, g: nat, t: nat, job: Job)
    requires g in l.procs && t !in l.timers && job.fileId == l.procs[g].job.fileId
    ensures var m := WithoutProc(l, g).(timers := l.timers[t := job]);
            Moves(l, m, InProcess(g), OnTimer(t)) && At(m, OnTimer(t)) == Some(Waiting(job))
  {
  }

  lemma ProcToDeadLetters(l: Layout, g: nat, e: Entry)
    requires g in l.procs && e.fileId == l.procs[g].job.fileId
    ensures Moves(l, Buried(WithoutProc(l, g), e), InProcess(g), InDeadLetters(|l.deadLetters|))
  {
  }

  lemma ProcToAbandoned(l: Layout, g: nat)
    requires g in l.procs
    ensures Moves(l, WithoutProc(l, g).(abandoned := l.abandoned + [l.procs[g].job.fileId]),
                  InProcess(g), InAbandoned(|l.abandoned|))
  {
  }

  lemma TimerToQueue(l: Layout, t: nat)
    requires t in l.timers
    ensures var m, q := Pushed(WithoutTimer(l, t), l.timers[t]), InQueue(l.taken + |l.queue|);
            Moves(l, m, OnTimer(t), q) && At(m, q) == Some(Queued(l.timers[t]))
  {
  }

  lemma TimerToDeadLetters(l: Layout, t: nat, e: Entry)
    requires t in l.timers && e.fileId == l.timers[t].fileId
    ensures Moves(l, Buried(WithoutTimer(l, t), e), OnTimer(t), InDeadLetters(|l.deadLetters|))
  {
  }

  // ----- What a file's new place demands ---------------------------------------------------------------------

  lemma DelayInSeconds(n: nat)
    requires n <= 1
    ensures Waits(n) + [Delay(n + 1)] == Waits(n + 1)
  {
    assert Delay(0) == 1 && Delay(1) == 2 && Delay(2) == 4;
  }

  lemma SpawnedIsGood(st: Store, j: Job)
    requires j.fileId in st.rows && Good(st, Carried(j, true)) && HistoryKnown(st)
    ensures var su := Attempted(st, j.fileId);
            OnlyFile(st, su, j.fileId) && Good(su, Running(j, Begin)) && HistoryKnown(su)
  {
  }

  lemma SavedIsGood(st: Store, j: Job)
    requires j.fileId in st.rows && Good(st, Running(j, Cleaned)) && HistoryKnown(st)
    ensures var su := RowDone(st, j);
            OnlyFile(st, su, j.fileId) && Good(su, Running(j, Saved)) && HistoryKnown(su)
  {
  }

  lemma UnsavedIsGood(st: Store, j: Job)
    requires j.fileId in st.rows && Good(st, Running(j, Cleaned)) && HistoryKnown(st)
    ensures var su := FailedLate(st, j.fileId);
            OnlyFile(st, su, j.fileId) && Good(su, Running(j, Failed)) && HistoryKnown(su)
  {
  }

  lemma RetriedIsGood(st: Store, j: Job)
    requires j.fileId in st.rows && Good(st, Running(j, Failed)) && HistoryKnown(st) && j.retryCount + 1 < MAX_RETRIES
    ensures var su := RetryCounted(st, j.fileId, j.retryCount + 1);
            OnlyFile(st, su, j.fileId) && HistoryKnown(su) && Good(su, Waiting(j.(retryCount := j.retryCount + 1)))
  {
    DelayInSeconds(j.retryCount);
  }

  lemma ExhaustedIsGood(st: Store, j: Job)
    requires j.fileId in st.rows && Good(st, Running(j, Failed)) && HistoryKnown(st) && j.retryCount + 1 >= MAX_RETRIES
    ensures var su := RowErrored(st, j.fileId);
            && OnlyFile(st, su, j.fileId) && HistoryKnown(su)
            && Good(su, WasBuried(Entry(j.fileId, j.userId, j.retryCount + 1, Exhausted)))
  {
  }

  lemma FinishedIsGood(st: Store, j: Job)
    requires j.fileId in st.rows && Good(st, Running(j, Saved))
    ensures Good(st, WasFinished(j.fileId))
  {
  }

  lemma AbandonedIsGood(st: Store, j: Job, stage: Stage)
    requires j.fileId in st.rows && Good(st, Running(j, stage)) && stage !in {Saved, Failed}
    ensures Good(st, WasAbandoned(j.fileId))
  {
  }

  lemma BuriedIsGood(st: Store, j: Job)
    requires j.fileId in st.rows && Good(st, Waiting(j))
    ensures Good(st, WasBuried(Entry(j.fileId, j.userId, j.retryCount, QueueFull)))
  {
  }

  lemma SameStore(st: Store, id: Id)
    ensures OnlyFile(st, st, id)
  {
  }

  // ----- One lemma per action ----------------------------------------------------------------------------------

  ghost predicate Sound(s: State) {
    FilesSound(s.lay, s.store)
  }

  lemma UploadQueuedKeeps(l: Layout, st: Store, u: nat, j: Job)
    requires FilesSound(l, st) && u in l.uploads && l.uploads[u] == j
    ensures FilesSound(Pushed(WithoutUpload(l, u), j), Accepted(st, j.fileId))
  {
    assert GoodAt(l, st, InUpload(u));
    UploadToQueue(l, u);
    MoveKeepsFiles(l, Pushed(WithoutUpload(l, u), j), st, Accepted(st, j.fileId),
                   InUpload(u), InQueue(l.taken + |l.queue|), j.fileId);
  }

  lemma UploadRejectedKeeps(l: Layout, st: Store, u: nat, j: Job)
    requires FilesSound(l, st) && u in l.uploads && l.uploads[u] == j
    ensures FilesSound(WithoutUpload(l, u).(rejected := l.rejected + [j.fileId]), st)
  {
    assert GoodAt(l, st, InUpload(u));
    UploadToRejected(l, u);
    SameStore(st, j.fileId);
    MoveKeepsFiles(l, WithoutUpload(l, u).(rejected := l.rejected + [j.fileId]), st, st,
                   InUpload(u), InRejected(|l.rejected|), j.fileId);
  }

  lemma EnqueueKeeps(s: State, u: nat)
    requires Sound(s) && Enabled(s, EnqueueUpload(u))
    ensures Sound(Apply(s, EnqueueUpload(u)))
  {
    var l, j, t := s.lay, s.lay.uploads[u], Apply(s, EnqueueUpload(u));
    if Full(s) {
      assert t.lay == WithoutUpload(l, u).(rejected := l.rejected + [j.fileId]) && t.store == s.store;
      UploadRejectedKeeps(l, s.store, u, j);
    } else {
      assert t.lay == Pushed(WithoutUpload(l, u), j) && t.store == Accepted(s.store, j.fileId);
      UploadQueuedKeeps(l, s.store, u, j);
    }
  }

  lemma QueueReceivedKeeps(l: Layout, st: Store, d: nat, j: Job)
    requires FilesSound(l, st) && HasHand(l, d) && l.hands[d] == Idle && l.queue != [] && l.queue[0] == j
    ensures FilesSound(l.(queue := l.queue[1..], taken := l.taken + 1, hands := l.hands[d := Holding(j)]), st)
  {
    var m := l.(queue := l.queue[1..], taken := l.taken + 1, hands := l.hands[d := Holding(j)]);
    assert GoodAt(l, st, InQueue(l.taken));
    QueueToHand(l, d);
    SameStore(st, j.fileId);
    LandKeeps(l, m, st, st, InQueue(l.taken), InHand(d), Queued(j), Carried(j, false));
  }

  lemma DequeueKeeps(s: State, d: nat)
    requires Sound(s) && Enabled(s, Dequeue(d))
    ensures Sound(Apply(s, Dequeue(d)))
  {
    var l, j, t := s.lay, s.lay.queue[0], Apply(s, Dequeue(d));
    assert t.lay == l.(queue := l.queue[1..], taken := l.taken + 1, hands := l.hands[d := Holding(j)]);
    assert t.store == s.store;
    QueueReceivedKeeps(l, s.store, d, j);
  }

  lemma SlotTakenKeeps(l: Layout, st: Store, d: nat, j: Job)
    requires FilesSound(l, st) && HasHand(l, d) && l.hands[d] == Holding(j)
    ensures FilesSound(l.(hands := l.hands[d := Acquired(j)]), st)
  {
    assert GoodAt(l, st, InHand(d));
    HandAcquires(l, d);
    SameStore(st, j.fileId);
    LandKeeps(l, l.(hands := l.hands[d := Acquired(j)]), st, st,
              InHand(d), InHand(d), Carried(j, false), Carried(j, true));
  }

  lemma AcquireKeeps(s: State, d: nat)
    requires Sound(s) && Enabled(s, Acquire(d))
    ensures Sound(Apply(s, Acquire(d)))
  {
    var j, t := s.lay.hands[d].job, Apply(s, Acquire(d));
    SlotTakenKeeps(s.lay, s.store, d, j);
    assert t.lay == s.lay.(hands := s.lay.hands[d := Acquired(j)]) && t.store == s.store;
  }

  /** A move is sound if what arrives is good where it arrives. */
  lemma LandKeeps(l: Layout, m: Layout, st: Store, su: Store, p: Place, q: Place, was: Item, now: Item)
    requires FilesSound(l, st) && Moves(l, m, p, q)
    requires At(l, p) == Some(was) && At(m, q) == Some(now) && was.File() == now.File()
    requires OnlyFile(st, su, was.File()) && HistoryKnown(su)
    requires was.File() in su.rows && Good(su, now)
    ensures FilesSound(m, su)
  {
    MoveKeepsFiles(l, m, st, su, p, q, was.File());
  }

  lemma SpawnedKeeps(l: Layout, st: Store, d: nat, g: nat, j: Job)
    requires FilesSound(l, st) && HasHand(l, d) && l.hands[d] == Acquired(j) && g !in l.procs
    ensures FilesSound(l.(hands := l.hands[d := Idle], procs := l.procs[g := Proc(j, Begin)]), Attempted(st, j.fileId))
  {
    assert GoodAt(l, st, InHand(d));
    HandToProc(l, d, g);
    SpawnedIsGood(st, j);
    LandKeeps(l, l.(hands := l.hands[d := Idle], procs := l.procs[g := Proc(j, Begin)]), st, Attempted(st, j.fileId),
              InHand(d), InProcess(g), Carried(j, true), Running(j, Begin));
  }

  lemma SpawnKeeps(s: State, d: nat, g: nat)
    requires Sound(s) && Enabled(s, Spawn(d, g))
    ensures Sound(Apply(s, Spawn(d, g)))
  {
    var l, j, t := s.lay, s.lay.hands[d].job, Apply(s, Spawn(d, g));
    assert t.lay == l.(hands := l.hands[d := Idle], procs := l.procs[g := Proc(j, Begin)]);
    assert t.store == Attempted(s.store, j.fileId);
    SpawnedKeeps(l, s.store, d, g, j);
  }

  /** Steps inside doProcess that leave the goroutine in place. */
  lemma StageKeeps(s: State, g: nat, stage: Stage, su: Store)
    requires Sound(s) && g in s.lay.procs
    requires var j := s.lay.procs[g].job;
             && j.fileId in s.store.rows && OnlyFile(s.store, su, j.fileId)
             && Good(su, Running(j, stage)) && HistoryKnown(su)
    ensures FilesSound(Staged(s.lay, g, stage), su)
  {
    var l := s.lay;
    ProcAdvances(l, g, stage);
    MoveKeepsFiles(l, Staged(l, g, stage), s.store, su, InProcess(g), InProcess(g), l.procs[g].job.fileId);
  }

  lemma MarkedIsGood(st: Store, j: Job)
    requires j.fileId in st.rows && Good(st, Running(j, Begin)) && HistoryKnown(st)
    ensures var su := RowMarked(st, j.fileId);
            && OnlyFile(st, su, j.fileId) && Good(su, Running(j, Marked)) && HistoryKnown(su)
            && !st.rows[j.fileId].status.Terminal() && Good(st, Running(j, Failed))
  {
  }

  lemma LockKeeps(s: State, g: nat, ok: bool)
    requires Sound(s) && Enabled(s, Lock(g, ok))
    ensures Sound(Apply(s, Lock(g, ok)))
  {
    var st, j, t := s.store, s.lay.procs[g].job, Apply(s, Lock(g, ok));
    assert GoodAt(s.lay, st, InProcess(g));
    MarkedIsGood(st, j);
    if ok {
      assert t.lay == Staged(s.lay, g, Marked) && t.store == RowMarked(st, j.fileId);
      StageKeeps(s, g, Marked, RowMarked(st, j.fileId));
    } else {
      assert t.lay == Staged(s.lay, g, Failed) && t.store == st;
      SameStore(st, j.fileId);
      StageKeeps(s, g, Failed, st);
    }
  }

  lemma WorkedIsGood(st: Store, j: Job, ok: bool)
    requires j.fileId in st.rows && Good(st, Running(j, Marked))
    ensures Good(st, Running(j, if ok && j.tmpPath in st.tmp then Worked else Failed))
  {
  }

  lemma WorkKeeps(s: State, g: nat, ok: bool)
    requires Sound(s) && Enabled(s, Work(g, ok))
    ensures Sound(Apply(s, Work(g, ok)))
  {
    var j, t := s.lay.procs[g].job, Apply(s, Work(g, ok));
    var stage := if ok && j.tmpPath in s.store.tmp then Worked else Failed;
    assert GoodAt(s.lay, s.store, InProcess(g));
    WorkedIsGood(s.store, j, ok);
    SameStore(s.store, j.fileId);
    StageKeeps(s, g, stage, s.store);
    assert t.lay == Staged(s.lay, g, stage) && t.store == s.store;
  }

  lemma PutIsGood(st: Store, j: Job)
    requires j.fileId in st.rows && Good(st, Running(j, Worked)) && HistoryKnown(st)
    ensures var su := ObjectPut(st, KeyFor(j));
            && OnlyFile(st, su, j.fileId) && Good(su, Running(j, Stored)) && HistoryKnown(su)
            && Good(st, Running(j, Failed)) && j.tmpPath in st.tmp
  {
  }

  lemma PutKeeps(s: State, g: nat, ok: bool)
    requires Sound(s) && Enabled(s, Put(g, ok))
    ensures Sound(Apply(s, Put(g, ok)))
  {
    var j, t := s.lay.procs[g].job, Apply(s, Put(g, ok));
    assert GoodAt(s.lay, s.store, InProcess(g));
    PutIsGood(s.store, j);
    if ok {
      assert t.lay == Staged(s.lay, g, Stored) && t.store == ObjectPut(s.store, KeyFor(j));
      StageKeeps(s, g, Stored, ObjectPut(s.store, KeyFor(j)));
    } else {
      assert t.lay == Staged(s.lay, g, Failed) && t.store == s.store;
      SameStore(s.store, j.fileId);
      StageKeeps(s, g, Failed, s.store);
    }
  }

  lemma CleanedIsGood(st: Store, j: Job)
    requires j.fileId in st.rows && Good(st, Running(j, Stored)) && HistoryKnown(st)
    ensures Good(st, Running(j, Cleaned))
    ensures var su := TmpRemoved(st, j.tmpPath);
            OnlyFile(st, su, j.fileId) && Good(su, Running(j, Cleaned)) && HistoryKnown(su)
  {
  }

  lemma RemoveTmpKeeps(s: State, g: nat, ok: bool)
    requires Sound(s) && Enabled(s, RemoveTmp(g, ok))
    ensures Sound(Apply(s, RemoveTmp(g, ok)))
  {
    var j, t := s.lay.procs[g].job, Apply(s, RemoveTmp(g, ok));
    var su := if ok then TmpRemoved(s.store, j.tmpPath) else s.store;
    assert GoodAt(s.lay, s.store, InProcess(g));
    CleanedIsGood(s.store, j);
    SameStore(s.store, j.fileId);
    assert t.lay == Staged(s.lay, g, Cleaned) && t.store == su;
    StageKeeps(s, g, Cleaned, su);
  }

  lemma SaveKeeps(s: State, g: nat, ok: bool)
    requires Sound(s) && Enabled(s, Save(g, ok))
    ensures Sound(Apply(s, Save(g, ok)))
  {
    var st, j := s.store, s.lay.procs[g].job;
    assert GoodAt(s.lay, st, InProcess(g));
    if ok {
      SavedIsGood(st, j);
      StageKeeps(s, g, Saved, RowDone(st, j));
    } else {
      UnsavedIsGood(st, j);
      StageKeeps(s, g, Failed, FailedLate(st, j.fileId));
    }
  }

  lemma NotifyKeeps(s: State, g: nat, queued: bool)
    requires Sound(s) && Enabled(s, Notify(g, queued))
    ensures Sound(Apply(s, Notify(g, queued)))
  {
    var l, st, j := s.lay, s.store, s.lay.procs[g].job;
    assert GoodAt(l, st, InProcess(g));
    ProcToFinished(l, g);
    FinishedIsGood(st, j);
    SameStore(st, j.fileId);
    LandKeeps(l, Finished(WithoutProc(l, g), j.fileId), st, st,
              InProcess(g), InFinished(|l.finished|), Running(j, Saved), WasFinished(j.fileId));
  }

  lemma RetriedKeeps(l: Layout, st: Store, g: nat, t: nat, k: Job)
    requires FilesSound(l, st) && AtStage(l, g, Failed) && t !in l.timers
    requires var j := l.procs[g].job; j.retryCount + 1 < MAX_RETRIES && k == j.(retryCount := j.retryCount + 1)
    ensures FilesSound(WithoutProc(l, g).(timers := l.timers[t := k]), RetryCounted(st, k.fileId, k.retryCount))
  {
    var j := l.procs[g].job;
    var m, su := WithoutProc(l, g).(timers := l.timers[t := k]), RetryCounted(st, k.fileId, k.retryCount);
    assert GoodAt(l, st, InProcess(g));
    ProcToTimer(l, g, t, k);
    RetriedIsGood(st, j);
    LandKeeps(l, m, st, su, InProcess(g), OnTimer(t), Running(j, Failed), Waiting(k));
  }

  lemma RetryKeeps(s: State, g: nat, t: nat)
    requires Sound(s) && Enabled(s, Retry(g, t))
    ensures Sound(Apply(s, Retry(g, t)))
  {
    var l, j, after := s.lay, s.lay.procs[g].job, Apply(s, Retry(g, t));
    var k := j.(retryCount := j.retryCount + 1);
    assert after.lay == WithoutProc(l, g).(timers := l.timers[t := k]);
    assert after.store == RetryCounted(s.store, k.fileId, k.retryCount);
    RetriedKeeps(l, s.store, g, t, k);
  }

  lemma ExhaustedKeeps(l: Layout, st: Store, g: nat, e: Entry)
    requires FilesSound(l, st) && AtStage(l, g, Failed)
    requires var j := l.procs[g].job;
             j.retryCount + 1 >= MAX_RETRIES && e == Entry(j.fileId, j.userId, j.retryCount + 1, Exhausted)
    ensures FilesSound(Buried(WithoutProc(l, g), e), RowErrored(st, e.fileId))
  {
    var j, m := l.procs[g].job, Buried(WithoutProc(l, g), e);
    assert GoodAt(l, st, InProcess(g));
    ProcToDeadLetters(l, g, e);
    ExhaustedIsGood(st, j);
    assert At(m, InDeadLetters(|l.deadLetters|)) == Some(WasBuried(e));
    LandKeeps(l, m, st, RowErrored(st, e.fileId),
              InProcess(g), InDeadLetters(|l.deadLetters|), Running(j, Failed), WasBuried(e));
  }

  lemma ExhaustKeeps(s: State, g: nat, queued: bool)
    requires Sound(s) && Enabled(s, Exhaust(g, queued))
    ensures Sound(Apply(s, Exhaust(g, queued)))
  {
    var l, j, t := s.lay, s.lay.procs[g].job, Apply(s, Exhaust(g, queued));
    var e := Entry(j.fileId, j.userId, j.retryCount + 1, Exhausted);
    assert t.lay == Buried(WithoutProc(l, g), e) && t.store == RowErrored(s.store, e.fileId);
    ExhaustedKeeps(l, s.store, g, e);
  }

  lemma PanicKeeps(s: State, g: nat)
    requires Sound(s) && Enabled(s, Panic(g))
    ensures Sound(Apply(s, Panic(g)))
  {
    var l, st, j := s.lay, s.store, s.lay.procs[g].job;
    assert GoodAt(l, st, InProcess(g));
    ProcToAbandoned(l, g);
    AbandonedIsGood(st, j, l.procs[g].stage);
    SameStore(st, j.fileId);
    LandKeeps(l, WithoutProc(l, g).(abandoned := l.abandoned + [j.fileId]), st, st,
              InProcess(g), InAbandoned(|l.abandoned|), Running(j, l.procs[g].stage), WasAbandoned(j.fileId));
  }

  lemma TimerBuriedKeeps(l: Layout, st: Store, t: nat, e: Entry)
    requires FilesSound(l, st) && t in l.timers
    requires var j := l.timers[t]; e == Entry(j.fileId, j.userId, j.retryCount, QueueFull)
    ensures FilesSound(Buried(WithoutTimer(l, t), e), st)
  {
    var j := l.timers[t];
    assert GoodAt(l, st, OnTimer(t));
    TimerToDeadLetters(l, t, e);
    BuriedIsGood(st, j);
    SameStore(st, j.fileId);
    LandKeeps(l, Buried(WithoutTimer(l, t), e), st, st,
              OnTimer(t), InDeadLetters(|l.deadLetters|), Waiting(j), WasBuried(e));
  }

  lemma TimerQueuedKeeps(l: Layout, st: Store, t: nat)
    requires FilesSound(l, st) && t in l.timers
    ensures FilesSound(Pushed(WithoutTimer(l, t), l.timers[t]), st)
  {
    var j := l.timers[t];
    assert GoodAt(l, st, OnTimer(t));
    TimerToQueue(l, t);
    assert At(l, OnTimer(t)) == Some(Waiting(j)) && Good(st, Queued(j));
    SameStore(st, j.fileId);
    LandKeeps(l, Pushed(WithoutTimer(l, t), j), st, st,
              OnTimer(t), InQueue(l.taken + |l.queue|), Waiting(j), Queued(j));
  }

  lemma FireKeeps(s: State, t: nat)
    requires Sound(s) && Enabled(s, Fire(t))
    ensures Sound(Apply(s, Fire(t)))
  {
    var j := s.lay.timers[t];
    if Full(s) {
      TimerBuriedKeeps(s.lay, s.store, t, Entry(j.fileId, j.userId, j.retryCount, QueueFull));
    } else {
      TimerQueuedKeeps(s.lay, s.store, t);
    }
  }

  // ----- Steps that move no file --------------------------------------------------------------------------------

  lemma GoodBesideNew(st: Store, job: Job, rowType: FileType, item: Item)
    requires item.File() in st.rows && Good(st, item) && job.fileId !in st.rows
    ensures item.File() in Created(st, job, rowType).rows && Good(Created(st, job, rowType), item)
  {
    assert Created(st, job, rowType).rows[item.File()] == st.rows[item.File()];
  }

  lemma NewIsGood(st: Store, job: Job, rowType: FileType)
    requires HistoryKnown(st) && job.fileId !in st.rows && job.retryCount == 0
    ensures Good(Created(st, job, rowType), Uploading(job)) && HistoryKnown(Created(st, job, rowType))
  {
    assert job.fileId !in st.accepted && job.fileId !in st.attempts && job.fileId !in st.backoff;
  }

  function WithUpload(l: Layout, u: nat, job: Job): Layout {
    l.(uploads := l.uploads[u := job])
  }

  lemma CreateKeepsPlaces(l: Layout, st: Store, u: nat, job: Job)
    requires FilesSound(l, st) && u !in l.uploads && job.fileId !in st.rows
    ensures OnePlaceEach(WithUpload(l, u, job)) && AllPlaced(WithUpload(l, u, job), st.rows.Keys + {job.fileId})
  {
    var m := WithUpload(l, u, job);
    assert forall p | p != InUpload(u) :: At(m, p) == At(l, p);
    forall p | At(l, p).Some? ensures At(l, p).value.File() != job.fileId {
      assert GoodAt(l, st, p);
    }
    forall id | id in st.rows.Keys + {job.fileId} ensures exists p :: Holds(m, p, id) {
      if id == job.fileId {
        assert Holds(m, InUpload(u), id);
      } else {
        var p :| Holds(l, p, id);
        assert Holds(m, p, id);
      }
    }
  }

  lemma CreateKeepsGood(l: Layout, st: Store, u: nat, job: Job, rowType: FileType)
    requires FilesSound(l, st) && u !in l.uploads && job.fileId !in st.rows && job.retryCount == 0
    ensures AllGood(WithUpload(l, u, job), Created(st, job, rowType))
  {
    var m, su := WithUpload(l, u, job), Created(st, job, rowType);
    NewIsGood(st, job, rowType);
    forall p ensures GoodAt(m, su, p) {
      if p != InUpload(u) {
        assert At(m, p) == At(l, p) && GoodAt(l, st, p);
        if At(l, p).Some? {
          GoodBesideNew(st, job, rowType, At(l, p).value);
        }
      }
    }
  }

  lemma CreateKeepsPaths(st: Store, job: Job, rowType: FileType)
    requires PathsDistinct(st) && FreshPath(st, job.tmpPath)
    ensures PathsDistinct(Created(st, job, rowType))
  {
  }

  lemma CreateKeeps(s: State, u: nat, job: Job, rowType: FileType)
    requires Sound(s) && Enabled(s, CreateRow(u, job, rowType))
    ensures Sound(Apply(s, CreateRow(u, job, rowType)))
  {
    var st := s.store;
    CreateKeepsPlaces(s.lay, st, u, job);
    assert Created(st, job, rowType).rows.Keys == st.rows.Keys + {job.fileId};
    CreateKeepsGood(s.lay, st, u, job, rowType);
    CreateKeepsPaths(st, job, rowType);
    NewIsGood(st, job, rowType);
  }

  lemma SameLayoutKeeps(l: Layout, m: Layout, st: Store)
    requires FilesSound(l, st) && forall p :: At(m, p) == At(l, p)
    ensures FilesSound(m, st)
  {
    forall p ensures GoodAt(m, st, p) {
      assert GoodAt(l, st, p);
    }
    forall id | id in st.rows ensures exists p :: Holds(m, p, id) {
      var p :| Holds(l, p, id);
      assert Holds(m, p, id);
    }
  }

  lemma ExitKeeps(s: State, d: nat)
    requires Sound(s) && Enabled(s, Exit(d))
    ensures Sound(Apply(s, Exit(d)))
  {
    var m := s.lay.(hands := s.lay.hands[d := Exited]);
    SameLayoutKeeps(s.lay, m, s.store);
  }

  /** Every step keeps the files sound. */
  lemma StepKeepsFiles(s: State, a: Action)
    requires Sound(s) && Enabled(s, a)
    ensures Sound(Apply(s, a))
  {
    match a
    case CreateRow(u, job, rowType) => CreateKeeps(s, u, job, rowType);
    case EnqueueUpload(u) => EnqueueKeeps(s, u);
    case Dequeue(d) => DequeueKeeps(s, d);
    case Acquire(d) => AcquireKeeps(s, d);
    case Spawn(d, g) => SpawnKeeps(s, d, g);
    case Lock(g, ok) => LockKeeps(s, g, ok);
    case Work(g, ok) => WorkKeeps(s, g, ok);
    case Put(g, ok) => PutKeeps(s, g, ok);
    case RemoveTmp(g, ok) => RemoveTmpKeeps(s, g, ok);
    case Save(g, ok) => SaveKeeps(s, g, ok);
    case Notify(g, queued) => NotifyKeeps(s, g, queued);
    case Retry(g, t) => RetryKeeps(s, g, t);
    case Exhaust(g, queued) => ExhaustKeeps(s, g, queued);
    case Panic(g) => PanicKeeps(s, g);
    case Release =>
    case Fire(t) => FireKeeps(s, t);
    case Close =>
    case Exit(d) => ExitKeeps(s, d);
  }

  lemma InitiallySound(workers: nat, queueSize: nat)
    ensures Sound(Initial(workers, queueSize))
  {
    forall p ensures At(Initial(workers, queueSize).lay, p) == None {
    }
  }

  lemma {:induction false} RunKeepsFiles(s: State, tr: seq<Action>)
    requires Sound(s) && Valid(s, tr)
    ensures Sound(After(s, tr))
    decreases |tr|
  {
    if tr != [] {
      RunKeepsFiles(s, tr[..|tr| - 1]);
      StepKeepsFiles(After(s, tr[..|tr| - 1]), tr[|tr| - 1]);
    }
  }
}
