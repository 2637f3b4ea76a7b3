/** The asynchronous job pipeline as one transition system: uploads, the bounded queue, the dispatchers and
    their semaphore, the steps of a processing goroutine, retry timers and the dead-letter log. Every step is
    atomic, and every call that can fail fails whenever the run says so. */
module Pipeline {
  import opened Domain
  import Sequences

  type Path = nat

  datatype Option<+T> = None | Some(value: T)

  /** An object's key: {user}/{file} with the extension of the job's type. */
  datatype Key = Key(user: Id, file: Id, ext: FileType)

  /** `fileType` comes from the uploaded name's extension; a job's type comes from the detected content. */
  datatype Row = Row(user: Id, fileType: FileType, status: Status, storagePath: Option<Key>, retryCount: nat)

  datatype Job = Job(fileId: Id, userId: Id, tmpPath: Path, fileType: FileType, retryCount: nat) {
    function StorageKey(): Key {
      Key(userId, fileId, fileType)
    }
  }

  /** How far a processing goroutine has come. */
  datatype Stage =
    | Begin     // nothing done
    | Marked    // the row is locked, checked and set to processing
    | Worked    // the file has been processed
    | Stored    // the object has been put
    | Cleaned   // the tmp file has been removed, or the removal has failed unnoticed
    | Saved     // the row is done
    | Failed    // doProcess has returned an error

  datatype Proc = Proc(job: Job, stage: Stage)
  datatype Hand = Idle | Holding(job: Job) | Acquired(job: Job) | Exited

  datatype Reason = Exhausted | QueueFull
  datatype Entry = Entry(fileId: Id, userId: Id, retryCount: nat, reason: Reason)

  datatype EventKind = FileProcessed | FileError
  datatype Event = Event(fileId: Id, kind: EventKind)

  const MAX_RETRIES := 3

  /** Where jobs are. `taken` counts the jobs received from the channel; `uploads` are the handlers between
      creating a row and enqueueing; the sequences at the end record what has become of files. */
  datatype Layout = Layout(
    queue: seq<Job>, taken: nat, hands: seq<Hand>, procs: map<nat, Proc>,
    timers: map<nat, Job>, uploads: map<nat, Job>,
    finished: seq<Id>, abandoned: seq<Id>, deadLetters: seq<Entry>, rejected: seq<Id>)

  /** The database rows, the objects and the tmp directory; and, as history, the job each file was
      uploaded with, the files accepted, the files whose save failed after the upload, and the attempts and
      delays of each file. */
  datatype Store = Store(
    rows: map<Id, Row>, objects: set<Key>, tmp: set<Path>,
    uploaded: map<Id, Job>, accepted: set<Id>, lateFails: set<Id>,
    attempts: map<Id, nat>, backoff: map<Id, seq<nat>>)

  /** `tokens` are the semaphore's; `exiting` counts goroutines that have returned from Process and still
      hold one; `events` were handed to the hub, `spawned` is the order in which files reached Process. */
  datatype State = State(
    workers: nat, queueSize: nat, tokens: nat, exiting: nat, closed: bool,
    lay: Layout, store: Store, events: seq<Event>, spawned: seq<Id>)

  function Initial(workers: nat, queueSize: nat): State {
    State(workers, queueSize, 0, 0, false,
          Layout([], 0, seq(workers, _ => Idle), map[], map[], map[], [], [], [], []),
          Store(map[], {}, {}, map[], {}, {}, map[], map[]), [], [])
  }

  datatype Action =
    | CreateRow(u: nat, job: Job, rowType: FileType)  // tmp file written and row created
    | EnqueueUpload(u: nat)                           // 202, or 503 when the queue is full
    | Dequeue(d: nat)
    | Acquire(d: nat)
    | Spawn(d: nat, g: nat)
    | Lock(g: nat, ok: bool)
    | Work(g: nat, ok: bool)
    | Put(g: nat, ok: bool)
    | RemoveTmp(g: nat, ok: bool)
    | Save(g: nat, ok: bool)
    | Notify(g: nat, queued: bool)
    | Retry(g: nat, t: nat)
    | Exhaust(g: nat, queued: bool)
    | Panic(g: nat)
    | Release
    | Fire(t: nat)
    | Close
    | Exit(d: nat)

  predicate AtStage(l: Layout, g: nat, stage: Stage) {
    g in l.procs && l.procs[g].stage == stage
  }

  predicate HasHand(l: Layout, d: nat) {
    d < |l.hands|
  }

  /** No file was ever uploaded through this tmp path. */
  predicate FreshPath(st: Store, path: Path) {
    forall id | id in st.uploaded :: st.uploaded[id].tmpPath != path
  }

  predicate Enabled(s: State, a: Action) {
    var l := s.lay;
    match a
    case CreateRow(u, job, _) =>
      u !in l.uploads && job.fileId !in s.store.rows && FreshPath(s.store, job.tmpPath) && job.retryCount == 0
    case EnqueueUpload(u) => u in l.uploads && !s.closed
    case Dequeue(d) => HasHand(l, d) && l.hands[d] == Idle && l.queue != []
    case Acquire(d) => HasHand(l, d) && l.hands[d].Holding? && s.tokens < s.workers
    case Spawn(d, g) => HasHand(l, d) && l.hands[d].Acquired? && g !in l.procs
    case Lock(g, _) => AtStage(l, g, Begin)
    case Work(g, _) => AtStage(l, g, Marked)
    case Put(g, _) => AtStage(l, g, Worked)
    case RemoveTmp(g, _) => AtStage(l, g, Stored)
    case Save(g, _) => AtStage(l, g, Cleaned)
    case Notify(g, _) => AtStage(l, g, Saved)
    case Retry(g, t) => AtStage(l, g, Failed) && l.procs[g].job.retryCount + 1 < MAX_RETRIES && t !in l.timers
    case Exhaust(g, _) => AtStage(l, g, Failed) && l.procs[g].job.retryCount + 1 >= MAX_RETRIES
    case Panic(g) => g in l.procs && l.procs[g].stage !in {Saved, Failed}
    case Release => s.exiting > 0 && s.tokens > 0
    case Fire(t) => t in l.timers && !s.closed
    case Close => !s.closed
    case Exit(d) => HasHand(l, d) && l.hands[d] == Idle && s.closed && l.queue == []
  }

  function Lookup<T>(m: map<Id, T>, id: Id, default: T): T {
    if id in m then m[id] else default
  }

  // ----- The stores, call by call --------------------------------------------------------------

  /** An update of a row by id touches nothing when there is no such row. */
  function WithRow(rows: map<Id, Row>, id: Id, change: Row -> Row): map<Id, Row> {
    if id in rows then rows[id := change(rows[id])] else rows
  }

  function SetStatus(rows: map<Id, Row>, id: Id, status: Status): map<Id, Row> {
    WithRow(rows, id, (r: Row) => r.(status := status))
  }

  function SetDone(rows: map<Id, Row>, id: Id, key: Key): map<Id, Row> {
    WithRow(rows, id, (r: Row) => r.(status := Done, storagePath := Some(key)))
  }

  function CountRetry(rows: map<Id, Row>, id: Id): map<Id, Row> {
    WithRow(rows, id, (r: Row) => r.(retryCount := r.retryCount + 1))
  }

  function Delay(count: nat): nat {
    if count == 0 then 1 else 2 * Delay(count - 1)
  }

  function Created(st: Store, job: Job, rowType: FileType): Store {
    st.(rows := st.rows[job.fileId := Row(job.userId, rowType, Pending, None, 0)],
        tmp := st.tmp + {job.tmpPath}, uploaded := st.uploaded[job.fileId := job])
  }

  function Accepted(st: Store, id: Id): Store {
    st.(accepted := st.accepted + {id})
  }

  function Attempted(st: Store, id: Id): Store {
    st.(attempts := st.attempts[id := Lookup(st.attempts, id, 0) + 1])
  }

  function RowMarked(st: Store, id: Id): Store {
    st.(rows := SetStatus(st.rows, id, Processing))
  }

  function ObjectPut(st: Store, key: Key): Store {
    st.(objects := st.objects + {key})
  }

  function TmpRemoved(st: Store, path: Path): Store {
    st.(tmp := st.tmp - {path})
  }

  function RowDone(st: Store, job: Job): Store {
    st.(rows := SetDone(st.rows, job.fileId, job.StorageKey()))
  }

  function FailedLate(st: Store, id: Id): Store {
    st.(lateFails := st.lateFails + {id})
  }

  function RetryCounted(st: Store, id: Id, n: nat): Store {
    st.(rows := CountRetry(st.rows, id), backoff := st.backoff[id := Lookup(st.backoff, id, []) + [Delay(n)]])
  }

  function RowErrored(st: Store, id: Id): Store {
    st.(rows := SetStatus(st.rows, id, Error))
  }

  // ----- The jobs, move by move ------------------------------------------------------------------

  function Staged(l: Layout, g: nat, stage: Stage): Layout
    requires g in l.procs
  {
    l.(procs := l.procs[g := Proc(l.procs[g].job, stage)])
  }

  function WithoutProc(l: Layout, g: nat): Layout {
    l.(procs := l.procs - {g})
  }

  function WithoutUpload(l: Layout, u: nat): Layout {
    l.(uploads := l.uploads - {u})
  }

  function WithoutTimer(l: Layout, t: nat): Layout {
    l.(timers := l.timers - {t})
  }

  function Pushed(l: Layout, job: Job): Layout {
    l.(queue := l.queue + [job])
  }

  function Finished(l: Layout, id: Id): Layout {
    l.(finished := l.finished + [id])
  }

  function Buried(l: Layout, e: Entry): Layout {
    l.(deadLetters := l.deadLetters + [e])
  }

  predicate Full(s: State) {
    |s.lay.queue| >= s.queueSize
  }

  function Apply(s: State, a: Action): State
    requires Enabled(s, a)
  {
    var l, st := s.lay, s.store;
    match a
    case CreateRow(u, job, rowType) =>
      s.(lay := l.(uploads := l.uploads[u := job]), store := Created(st, job, rowType))
    case EnqueueUpload(u) =>
      var job := l.uploads[u];
      if Full(s)
      then s.(lay := WithoutUpload(l, u).(rejected := l.rejected + [job.fileId]))
      else s.(lay := Pushed(WithoutUpload(l, u), job), store := Accepted(st, job.fileId))
    case Dequeue(d) =>
      s.(lay := l.(queue := l.queue[1..], taken := l.taken + 1, hands := l.hands[d := Holding(l.queue[0])]))
    case Acquire(d) => s.(lay := l.(hands := l.hands[d := Acquired(l.hands[d].job)]), tokens := s.tokens + 1)
    case Spawn(d, g) =>
      var job := l.hands[d].job;
      s.(lay := l.(hands := l.hands[d := Idle], procs := l.procs[g := Proc(job, Begin)]),
         store := Attempted(st, job.fileId), spawned := s.spawned + [job.fileId])
    case Lock(g, ok) =>
      var id := l.procs[g].job.fileId;
      if !ok || id !in st.rows then s.(lay := Staged(l, g, Failed))
      else if st.rows[id].status.Terminal()
      then s.(lay := Finished(WithoutProc(l, g), id), exiting := s.exiting + 1)
      else s.(lay := Staged(l, g, Marked), store := RowMarked(st, id))
    case Work(g, ok) =>
      s.(lay := Staged(l, g, if ok && l.procs[g].job.tmpPath in st.tmp then Worked else Failed))
    case Put(g, ok) =>
      var job := l.procs[g].job;
      // A PDF is uploaded from its tmp file, an image from its processed copy.
      if ok && (job.fileType == PDF ==> job.tmpPath in st.tmp)
      then s.(lay := Staged(l, g, Stored), store := ObjectPut(st, job.StorageKey()))
      else s.(lay := Staged(l, g, Failed))
    case RemoveTmp(g, ok) =>
      s.(lay := Staged(l, g, Cleaned), store := if ok then TmpRemoved(st, l.procs[g].job.tmpPath) else st)
    case Save(g, ok) =>
      var job := l.procs[g].job;
      if ok then s.(lay := Staged(l, g, Saved), store := RowDone(st, job))
      else s.(lay := Staged(l, g, Failed), store := FailedLate(st, job.fileId))
    case Notify(g, queued) =>
      var id := l.procs[g].job.fileId;
      s.(lay := Finished(WithoutProc(l, g), id), exiting := s.exiting + 1,
         events := if queued then s.events + [Event(id, FileProcessed)] else s.events)
    case Retry(g, t) =>
      var job := l.procs[g].job;
      var n := job.retryCount + 1;
      s.(lay := WithoutProc(l, g).(timers := l.timers[t := job.(retryCount := n)]), exiting := s.exiting + 1,
         store := RetryCounted(st, job.fileId, n))
    case Exhaust(g, queued) =>
      var job := l.procs[g].job;
      s.(lay := Buried(WithoutProc(l, g), Entry(job.fileId, job.userId, job.retryCount + 1, Exhausted)),
         exiting := s.exiting + 1, store := RowErrored(st, job.fileId),
         events := if queued then s.events + [Event(job.fileId, FileError)] else s.events)
    case Panic(g) =>
      s.(lay := WithoutProc(l, g).(abandoned := l.abandoned + [l.procs[g].job.fileId]), exiting := s.exiting + 1)
    case Release => s.(exiting := s.exiting - 1, tokens := s.tokens - 1)
    case Fire(t) =>
      var job := l.timers[t];
      if Full(s)
      then s.(lay := Buried(WithoutTimer(l, t), Entry(job.fileId, job.userId, job.retryCount, QueueFull)))
      else s.(lay := Pushed(WithoutTimer(l, t), job))
    case Close => s.(closed := true)
    case Exit(d) => s.(lay := l.(hands := l.hands[d := Exited]))
  }

  // ----- Runs ---------------------------------------------------------------------------------

  predicate Valid(s: State, tr: seq<Action>)
    decreases |tr|, 0
  {
    tr == [] || (Valid(s, tr[..|tr| - 1]) && Enabled(After(s, tr[..|tr| - 1]), tr[|tr| - 1]))
  }

  function After(s: State, tr: seq<Action>): State
    requires Valid(s, tr)
    decreases |tr|, 1
  {
    if tr == [] then s else Apply(After(s, tr[..|tr| - 1]), tr[|tr| - 1])
  }

  /** Steps of the pipeline itself: no upload arrives and nobody closes the channel. */
  predicate Internal(a: Action) {
    !a.CreateRow? && !a.Close?
  }

  predicate NoPanic(tr: seq<Action>) {
    forall a | a in tr :: !a.Panic?
  }

  lemma OneMore(s: State, tr: seq<Action>, a: Action)
    requires Valid(s, tr)
    ensures Valid(s, tr + [a]) <==> Enabled(After(s, tr), a)
    ensures Valid(s, tr + [a]) ==> After(s, tr + [a]) == Apply(After(s, tr), a)
  {
    assert (tr + [a])[..|tr|] == tr;
  }

  lemma PrefixValid(s: State, tr: seq<Action>)
    requires tr != [] && Valid(s, tr)
    ensures var front, a := tr[..|tr| - 1], tr[|tr| - 1];
            Valid(s, front) && Enabled(After(s, front), a) && After(s, tr) == Apply(After(s, front), a)
  {
  }

  lemma SameStep(s: State, run: seq<Action>, t: State, more: seq<Action>, all: seq<Action>)
    requires more != [] && Valid(t, more) && all == run + [more[|more| - 1]]
    requires Valid(t, more[..|more| - 1]) && Valid(s, run) && After(s, run) == After(t, more[..|more| - 1])
    ensures Valid(s, all) && After(s, all) == After(t, more)
  {
    OneMore(s, run, more[|more| - 1]);
  }

  lemma {:induction false} ExtendsFrom(s: State, tr: seq<Action>, t: State, more: seq<Action>)
    requires Valid(s, tr) && After(s, tr) == t && Valid(t, more)
    ensures Valid(s, tr + more) && After(s, tr + more) == After(t, more)
    decreases |more|
  {
    if more == [] {
      assert tr + more == tr;
    } else {
      PrefixValid(t, more);
      ExtendsFrom(s, tr, t, more[..|more| - 1]);
      Sequences.LastApart(tr, more);
      SameStep(s, tr + more[..|more| - 1], t, more, tr + more);
    }
  }

  lemma Extends(s: State, tr: seq<Action>, more: seq<Action>)
    requires Valid(s, tr) && Valid(After(s, tr), more)
    ensures Valid(s, tr + more) && After(s, tr + more) == After(After(s, tr), more)
  {
    ExtendsFrom(s, tr, After(s, tr), more);
  }

  lemma {:induction false} OneStep(s: State, a: Action)
    requires Enabled(s, a)
    ensures Valid(s, [a]) && After(s, [a]) == Apply(s, a)
  {
    OneMore(s, [], a);
    assert [] + [a] == [a];
  }

  lemma FirstStep(s: State, a: Action, rest: seq<Action>)
    requires Enabled(s, a) && Valid(Apply(s, a), rest)
    ensures Valid(s, [a] + rest) && After(s, [a] + rest) == After(Apply(s, a), rest)
  {
    OneStep(s, a);
    Extends(s, [a], rest);
  }

  /** There is always a name not yet in use. */
  lemma {:induction false} Above(ks: set<nat>) returns (n: nat)
    ensures forall k | k in ks :: k < n
    decreases |ks|
  {
    n := 0;
    if k :| k in ks {
      var m := Above(ks - {k});
      n := m + k + 1;
      assert forall j | j in ks :: j == k || j in ks - {k};
    }
  }
}
