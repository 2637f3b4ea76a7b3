/** The wired service: the upload handler's tail, the processor and the dispatchers, over the stores. `model`
    follows the fields, and every method is proved to take it along steps of the transition system. */
module Backend {
  import opened Domain
  import opened Pipeline
  import opened JobChannel
  import opened FileRows
  import opened Sinks
  import opened Attempt

  datatype Reply = Accepted202 | Unavailable503 | ServerError500

  datatype Locking = Locked | AlreadyFinal | LockError

  lemma WrittenStatus(was: map<Id, Row>, now: map<Id, Row>, id: Id, status: Status)
    requires now.Keys == was.Keys && forall other | other in now && other != id :: now[other] == was[other]
    requires id in now ==> now[id] == was[id].(status := status)
    ensures now == SetStatus(was, id, status)
  {
  }

  lemma WrittenDone(was: map<Id, Row>, now: map<Id, Row>, id: Id, key: Key)
    requires now.Keys == was.Keys && forall other | other in now && other != id :: now[other] == was[other]
    requires id in now ==> now[id] == was[id].(status := Done, storagePath := Some(key))
    ensures now == SetDone(was, id, key)
  {
  }

  lemma WrittenRetry(was: map<Id, Row>, now: map<Id, Row>, id: Id)
    requires now.Keys == was.Keys && forall other | other in now && other != id :: now[other] == was[other]
    requires id in now ==> now[id] == was[id].(retryCount := was[id].retryCount + 1)
    ensures now == CountRetry(was, id)
  {
  }

  class Service {
    const fileRepo: FileRepo
    const storage: ObjectStore
    const tmpDir: TmpDir
    const jobQueue: JobQueue
    const deadLetter: DeadLetter
    const workerCount: nat

    var hands: seq<Hand>         // what each dispatcher goroutine is doing
    var sem: nat                 // slots taken
    var timers: map<nat, Job>    // retries waiting in time.AfterFunc
    var nextTimer: nat
    var events: seq<Event>       // handed to the hub

    ghost var model: State

    ghost predicate Valid()
      reads this, fileRepo, storage, tmpDir, jobQueue, deadLetter
    {
      && model.workers == workerCount && model.queueSize == jobQueue.size && jobQueue.Valid()
      && model.lay.queue == jobQueue.ch && model.closed == jobQueue.closed
      && model.lay.hands == hands && model.tokens == sem
      && model.lay.timers == timers && (forall t | t in timers :: t < nextTimer)
      && model.lay.deadLetters == deadLetter.entries && model.events == events
      && model.store.rows == fileRepo.rows && model.store.objects == storage.objects && model.store.tmp == tmpDir.files
    }

    /** Nothing has happened yet, and every dispatcher is started. */
    constructor (workerCount: nat, queueSize: nat)
      ensures Valid() && model == Initial(workerCount, queueSize)
      ensures fresh(fileRepo) && fresh(storage) && fresh(tmpDir) && fresh(jobQueue) && fresh(deadLetter)
    {
      this.workerCount := workerCount;
      fileRepo := new FileRepo();
      storage := new ObjectStore();
      tmpDir := new TmpDir();
      jobQueue := new JobQueue(queueSize);
      deadLetter := new DeadLetter();
      hands, sem, timers, nextTimer, events := seq(workerCount, _ => Idle), 0, map[], 0, [];
      model := Initial(workerCount, queueSize);
    }

    // ----- Upload ------------------------------------------------------------------------------

    /** The end of Upload: write the tmp file, create the pending row, and enqueue the job. A full queue is
        answered with 503 and leaves the row and the tmp file behind; a failed row takes the tmp file back. */
    method Upload(ghost u: nat, job: Job, rowType: FileType, created: bool) returns (reply: Reply)
      requires Valid() && !jobQueue.closed
      requires Enabled(model, CreateRow(u, job, rowType)) && job.tmpPath !in tmpDir.files
      modifies this`model, fileRepo, tmpDir, jobQueue
      ensures Valid()
      ensures reply == ServerError500 <==> !created
      ensures reply == Accepted202 <==> created && |old(jobQueue.ch)| < jobQueue.size
      ensures reply == ServerError500 ==>
                model == old(model) && fileRepo.rows == old(fileRepo.rows) && tmpDir.files == old(tmpDir.files)
      ensures reply != ServerError500 ==>
                && model == Apply(Apply(old(model), CreateRow(u, job, rowType)), EnqueueUpload(u))
                && fileRepo.rows == old(fileRepo.rows)[job.fileId := Row(job.userId, rowType, Pending, None, 0)]
                && tmpDir.files == old(tmpDir.files) + {job.tmpPath}
      ensures jobQueue.ch == if reply == Accepted202 then old(jobQueue.ch) + [job] else old(jobQueue.ch)
    {
      tmpDir.Write(job.tmpPath);
      var row := Row(job.userId, rowType, Pending, None, 0);
      var ok := fileRepo.Create(job.fileId, row, created);
      if !ok {
        tmpDir.Remove(job.tmpPath, true);
        return ServerError500;
      }
      model := Apply(model, CreateRow(u, job, rowType));
      var queued := jobQueue.Enqueue(job);
      model := Apply(model, EnqueueUpload(u));
      reply := if queued then Accepted202 else Unavailable503;
    }

    // ----- The steps of doProcess ------------------------------------------------------------------

    /** The transaction: find and lock the row, refuse a final one, set it to processing, commit. */
    method LockRow(ghost g: nat, job: Job, c: Calls) returns (r: Locking)
      requires Valid() && AtStage(model.lay, g, Begin) && model.lay.procs[g].job == job && !c.Panics(Begin)
      modifies this`model, fileRepo
      ensures Valid() && model == Apply(old(model), NextStep(old(model), g, c))
      ensures BodyDone(model, g, c) == BodyDone(old(model), g, c)
      ensures r == Locked <==> AtStage(model.lay, g, Marked)
      ensures r == LockError <==> AtStage(model.lay, g, Failed)
      ensures r == AlreadyFinal <==> g !in model.lay.procs
      ensures g in model.lay.procs ==> model.lay.procs[g].job == job
    {
      ghost var was := fileRepo.rows;
      var row := fileRepo.FindByIDForUpdate(job.fileId, c.found);
      if row.None? {
        FindFails(model, g, c);
        r := LockError;
      } else if row.value.status == Done || row.value.status == Error {
        FindsFinal(model, g, c);
        r := AlreadyFinal;
      } else {
        FindsWork(model, g, c);
        var marked := fileRepo.MarkProcessing(job.fileId, c.marked);
        if marked {
          WrittenStatus(was, fileRepo.rows, job.fileId, Processing);
        }
        assert !marked ==> fileRepo.rows == was;
        r := if marked then Locked else LockError;
      }
      BodyUnfolds(model, g, c);
      model := Apply(model, NextStep(model, g, c));
    }

    /** ProcessPDF or ProcessImage: both read the tmp file. */
    method DoWork(ghost g: nat, job: Job, c: Calls) returns (ok: bool)
      requires Valid() && AtStage(model.lay, g, Marked) && model.lay.procs[g].job == job && !c.Panics(Marked)
      modifies this`model
      ensures Valid() && model == Apply(old(model), NextStep(old(model), g, c))
      ensures BodyDone(model, g, c) == BodyDone(old(model), g, c)
      ensures AtStage(model.lay, g, if ok then Worked else Failed) && model.lay.procs[g].job == job
    {
      ok := c.worked && job.tmpPath in tmpDir.files;
      BodyUnfolds(model, g, c);
      model := Apply(model, NextStep(model, g, c));
    }

    method PutObject(ghost g: nat, job: Job, c: Calls) returns (ok: bool)
      requires Valid() && AtStage(model.lay, g, Worked) && model.lay.procs[g].job == job && !c.Panics(Worked)
      modifies this`model, storage
      ensures Valid() && model == Apply(old(model), NextStep(old(model), g, c))
      ensures BodyDone(model, g, c) == BodyDone(old(model), g, c)
      ensures AtStage(model.lay, g, if ok then Stored else Failed) && model.lay.procs[g].job == job
      ensures storage.objects ==
              old(storage.objects) + if ok then {Key(job.userId, job.fileId, job.fileType)} else {}
    {
      var readable := job.fileType != PDF || job.tmpPath in tmpDir.files;
      ok := storage.PutFile(job.StorageKey(), readable, c.put);
      BodyUnfolds(model, g, c);
      model := Apply(model, NextStep(model, g, c));
    }

    method RemoveTmpFile(ghost g: nat, job: Job, c: Calls)
      requires Valid() && AtStage(model.lay, g, Stored) && model.lay.procs[g].job == job && !c.Panics(Stored)
      modifies this`model, tmpDir
      ensures Valid() && model == Apply(old(model), NextStep(old(model), g, c))
      ensures BodyDone(model, g, c) == BodyDone(old(model), g, c)
      ensures AtStage(model.lay, g, Cleaned) && model.lay.procs[g].job == job
    {
      tmpDir.Remove(job.tmpPath, c.removed);
      BodyUnfolds(model, g, c);
      model := Apply(model, NextStep(model, g, c));
    }

    method SaveRow(ghost g: nat, job: Job, c: Calls) returns (ok: bool)
      requires Valid() && AtStage(model.lay, g, Cleaned) && model.lay.procs[g].job == job && !c.Panics(Cleaned)
      modifies this`model, fileRepo
      ensures Valid() && model == Apply(old(model), NextStep(old(model), g, c))
      ensures BodyDone(model, g, c) == BodyDone(old(model), g, c)
      ensures AtStage(model.lay, g, if ok then Saved else Failed) && model.lay.procs[g].job == job
      ensures ok && job.fileId in fileRepo.rows ==>
                && fileRepo.rows[job.fileId].status == Done
                && fileRepo.rows[job.fileId].storagePath == Some(Key(job.userId, job.fileId, job.fileType))
    {
      ghost var was := fileRepo.rows;
      ok := fileRepo.UpdateDone(job.fileId, job.StorageKey(), c.saved);
      if ok {
        WrittenDone(was, fileRepo.rows, job.fileId, job.StorageKey());
      } else {
        assert fileRepo.rows == was;
      }
      BodyUnfolds(model, g, c);
      model := Apply(model, NextStep(model, g, c));
    }

    method NotifyDone(ghost g: nat, job: Job, c: Calls)
      requires Valid() && AtStage(model.lay, g, Saved) && model.lay.procs[g].job == job
      modifies this`model, this`events
      ensures Valid() && model == Apply(old(model), NextStep(old(model), g, c))
      ensures BodyDone(model, g, c) == BodyDone(old(model), g, c)
      ensures g !in model.lay.procs
    {
      if c.notified {
        events := events + [Event(job.fileId, FileProcessed)];
      }
      BodyUnfolds(model, g, c);
      model := Apply(model, NextStep(model, g, c));
    }

    /** A recovered panic rolls back and returns no error. */
    method Recover(ghost g: nat, c: Calls)
      requires Valid() && g in model.lay.procs && c.Panics(model.lay.procs[g].stage)
      modifies this`model
      ensures Valid() && model == Apply(old(model), NextStep(old(model), g, c)) && g !in model.lay.procs
      ensures BodyDone(model, g, c) == BodyDone(old(model), g, c)
    {
      BodyUnfolds(model, g, c);
      model := Apply(model, NextStep(model, g, c));
    }

    // ----- Process -------------------------------------------------------------------------------------

    /** Runs one attempt and says whether it failed. An attempt that panicked, or found the row final, returns
        no error just as one that succeeded. */
    method DoProcess(ghost g: nat, job: Job, c: Calls) returns (failed: bool)
      requires Valid() && AtStage(model.lay, g, Begin) && model.lay.procs[g].job == job
      modifies this`model, this`events, fileRepo, storage, tmpDir
      ensures Valid() && model == BodyDone(old(model), g, c)
      ensures failed <==> g in model.lay.procs
      ensures failed ==> AtStage(model.lay, g, Failed) && model.lay.procs[g].job == job
    {
      if c.Panics(Begin) {
        Recover(g, c);
        return false;
      }
      var locked := LockRow(g, job, c);
      if locked != Locked {
        return locked == LockError;
      }
      failed := WorkAndPut(g, job, c);
    }

    /** From the committed transaction on. */
    method WorkAndPut(ghost g: nat, job: Job, c: Calls) returns (failed: bool)
      requires Valid() && AtStage(model.lay, g, Marked) && model.lay.procs[g].job == job
      modifies this`model, this`events, fileRepo, storage, tmpDir
      ensures Valid() && model == BodyDone(old(model), g, c)
      ensures failed <==> g in model.lay.procs
      ensures failed ==> AtStage(model.lay, g, Failed) && model.lay.procs[g].job == job
    {
      if c.Panics(Marked) {
        Recover(g, c);
        return false;
      }
      var ok := DoWork(g, job, c);
      if !ok {
        return true;
      }
      if c.Panics(Worked) {
        Recover(g, c);
        return false;
      }
      ok := PutObject(g, job, c);
      if !ok {
        return true;
      }
      failed := Finish(g, job, c);
    }

    /** From the stored object on. */
    method Finish(ghost g: nat, job: Job, c: Calls) returns (failed: bool)
      requires Valid() && AtStage(model.lay, g, Stored) && model.lay.procs[g].job == job
      modifies this`model, this`events, fileRepo, tmpDir
      ensures Valid() && model == BodyDone(old(model), g, c)
      ensures failed <==> g in model.lay.procs
      ensures failed ==> AtStage(model.lay, g, Failed) && model.lay.procs[g].job == job
    {
      if c.Panics(Stored) {
        Recover(g, c);
        return false;
      }
      RemoveTmpFile(g, job, c);
      if c.Panics(Cleaned) {
        Recover(g, c);
        return false;
      }
      var ok := SaveRow(g, job, c);
      if !ok {
        return true;
      }
      NotifyDone(g, job, c);
      return false;
    }

    /** One attempt, and on failure a retry or the dead-letter log. */
    method Process(ghost g: nat, job: Job, c: Calls)
      requires Valid() && AtStage(model.lay, g, Begin) && model.lay.procs[g].job == job
      modifies this`model, this`events, this`timers, this`nextTimer, fileRepo, storage, tmpDir, deadLetter
      ensures Valid() && old(nextTimer) !in old(model).lay.timers
      ensures model == AttemptDone(old(model), g, old(nextTimer), c) && g !in model.lay.procs
    {
      BodyReturns(model, g, c);
      var failed := DoProcess(g, job, c);
      if failed {
        var retryCount := job.retryCount + 1;
        if retryCount >= MAX_RETRIES {
          GiveUp(g, job, retryCount, c.notified);
        } else {
          ScheduleRetry(g, job, retryCount);
        }
      }
    }

    method GiveUp(ghost g: nat, job: Job, retryCount: nat, notified: bool)
      requires Valid() && AtStage(model.lay, g, Failed) && model.lay.procs[g].job == job
      requires retryCount == job.retryCount + 1 >= MAX_RETRIES
      modifies this`model, this`events, fileRepo, deadLetter
      ensures Valid() && model == Apply(old(model), Exhaust(g, notified)) && g !in model.lay.procs
    {
      ghost var was := fileRepo.rows;
      deadLetter.Save(job.fileId, job.userId, Exhausted, retryCount);
      fileRepo.UpdateError(job.fileId);
      WrittenStatus(was, fileRepo.rows, job.fileId, Error);
      if notified {
        events := events + [Event(job.fileId, FileError)];
      }
      model := Apply(model, Exhaust(g, notified));
    }

    method ScheduleRetry(ghost g: nat, job: Job, retryCount: nat)
      requires Valid() && AtStage(model.lay, g, Failed) && model.lay.procs[g].job == job
      requires retryCount == job.retryCount + 1 < MAX_RETRIES
      modifies this`model, this`timers, this`nextTimer, fileRepo
      ensures Valid() && old(nextTimer) !in old(model).lay.timers
      ensures model == Apply(old(model), Retry(g, old(nextTimer))) && g !in model.lay.procs
    {
      ghost var was := fileRepo.rows;
      fileRepo.IncrementRetry(job.fileId);
      WrittenRetry(was, fileRepo.rows, job.fileId);
      model := Apply(model, Retry(g, nextTimer));
      timers, nextTimer := timers[nextTimer := job.(retryCount := retryCount)], nextTimer + 1;
    }

    /** The retry's callback: enqueue again, or dead-letter the job and leave its row as it is. */
    method TimerFires(t: nat)
      requires Valid() && t in timers && !jobQueue.closed
      modifies this`model, this`timers, jobQueue, deadLetter
      ensures Valid() && model == Apply(old(model), Fire(t))
      ensures unchanged(fileRepo) && timers == old(timers) - {t}
      ensures var job, room := old(timers)[t], |old(jobQueue.ch)| < jobQueue.size;
              && jobQueue.ch == (if room then old(jobQueue.ch) + [job] else old(jobQueue.ch))
              && deadLetter.entries ==
                 (if room then old(deadLetter.entries)
                  else old(deadLetter.entries) + [Entry(job.fileId, job.userId, job.retryCount, QueueFull)])
    {
      var job := timers[t];
      var queued := jobQueue.Enqueue(job);
      if !queued {
        deadLetter.Save(job.fileId, job.userId, QueueFull, job.retryCount);
      }
      timers := timers - {t};
      model := Apply(model, Fire(t));
    }

    // ----- The dispatchers ----------------------------------------------------------------------------------

    /** A dispatcher receives a job, or returns once the channel is closed and empty. */
    method Receive(d: nat) returns (job: Option<Job>)
      requires Valid() && d < |hands| && hands[d] == Idle && (jobQueue.ch != [] || jobQueue.closed)
      modifies this`model, this`hands, jobQueue
      ensures Valid()
      ensures job.Some? ==> old(jobQueue.ch) == [job.value] + jobQueue.ch && model == Apply(old(model), Dequeue(d)) &&
                            hands == old(hands)[d := Holding(job.value)]
      ensures job.None? ==> old(jobQueue.ch) == [] && model == Apply(old(model), Exit(d)) &&
                            hands == old(hands)[d := Exited]
    {
      job := jobQueue.Receive();
      if job.Some? {
        hands := hands[d := Holding(job.value)];
        model := Apply(model, Dequeue(d));
      } else {
        hands := hands[d := Exited];
        model := Apply(model, Exit(d));
      }
    }

    method AcquireSlot(d: nat)
      requires Valid() && d < |hands| && hands[d].Holding? && sem < workerCount
      modifies this`model, this`hands, this`sem
      ensures Valid() && model == Apply(old(model), Acquire(d))
      ensures hands == old(hands)[d := Acquired(old(hands)[d].job)]
    {
      hands, sem := hands[d := Acquired(hands[d].job)], sem + 1;
      model := Apply(model, Acquire(d));
    }

    /** Starts the job's goroutine and frees the dispatcher. */
    method Go(d: nat, ghost g: nat) returns (job: Job)
      requires Valid() && d < |hands| && hands[d].Acquired? && g !in model.lay.procs
      modifies this`model, this`hands
      ensures Valid() && model == Apply(old(model), Spawn(d, g)) && hands == old(hands)[d := Idle]
      ensures job == old(hands)[d].job && AtStage(model.lay, g, Begin) && model.lay.procs[g].job == job
    {
      job := hands[d].job;
      hands := hands[d := Idle];
      model := Apply(model, Spawn(d, g));
    }

    method ReleaseSlot()
      requires Valid() && sem > 0 && model.exiting > 0
      modifies this`model, this`sem
      ensures Valid() && model == Apply(old(model), Release)
    {
      sem := sem - 1;
      model := Apply(model, Release);
    }

    /** Take a slot and start the goroutine. */
    method Start(d: nat, ghost g: nat) returns (job: Job)
      requires Valid() && CanTurn(model, d, g, nextTimer)
      modifies this`model, this`hands, this`sem
      ensures Valid() && model == Begun(old(model), d, g)
      ensures AtStage(model.lay, g, Begin) && model.lay.procs[g].job == job
      ensures hands == old(hands)[d := Idle] && sem == old(sem) + 1
    {
      AcquireSlot(d);
      job := Go(d, g);
    }

    /** Take a slot, start the goroutine, and let it run to its end. */
    method RunJob(d: nat, c: Calls) returns (ghost tr: seq<Action>)
      requires Valid() && d < |hands| && hands[d].Holding? && sem < workerCount
      modifies this, fileRepo, storage, tmpDir, deadLetter
      ensures Valid() && Pipeline.Valid(old(model), tr) && model == After(old(model), tr) && model.exiting > 0
      ensures hands == old(hands)[d := Idle] && sem == old(sem) + 1
      ensures model.spawned == old(model).spawned + [old(hands)[d].job.fileId]
    {
      ghost var g := Above(model.lay.procs.Keys);
      tr := TurnIsRun(model, d, g, nextTimer, c);
      var job := Start(d, g);
      Process(g, job, c);
    }

    /** A dispatcher's turn with one job, down to the released slot. */
    method Turn(d: nat, c: Calls) returns (ghost tr: seq<Action>)
      requires Valid() && d < |hands| && hands[d].Holding? && sem < workerCount
      modifies this, fileRepo, storage, tmpDir, deadLetter
      ensures Valid() && Pipeline.Valid(old(model), tr) && model == After(old(model), tr)
      ensures hands == old(hands)[d := Idle] && sem == old(sem)
      ensures model.spawned == old(model).spawned + [old(hands)[d].job.fileId]
    {
      ghost var run := RunJob(d, c);
      OneMore(old(model), run, Release);
      ReleaseSlot();
      tr := run + [Release];
    }

    /** Receive the oldest job and run it, or exit when the closed channel is empty. */
    method TakeNext(d: nat, c: Calls) returns (more: bool, ghost tr: seq<Action>)
      requires Valid() && d < |hands| && hands[d] == Idle && sem < workerCount && jobQueue.closed
      modifies this, fileRepo, storage, tmpDir, jobQueue, deadLetter
      ensures Valid() && jobQueue.closed && sem == old(sem)
      ensures Pipeline.Valid(old(model), tr) && model == After(old(model), tr)
      ensures more <==> old(jobQueue.ch) != []
      ensures more ==> hands == old(hands) && jobQueue.ch == old(jobQueue.ch)[1..] &&
                       model.spawned == old(model).spawned + [old(jobQueue.ch)[0].fileId]
      ensures !more ==> hands == old(hands)[d := Exited] && jobQueue.ch == [] && model.spawned == old(model).spawned
    {
      ghost var start := model;
      var job := Receive(d);
      more := job.Some?;
      if more {
        tr := Turn(d, c);
        FirstStep(start, Dequeue(d), tr);
        tr := [Dequeue(d)] + tr;
      } else {
        OneStep(start, Exit(d));
        tr := [Exit(d)];
      }
    }

    /** A dispatcher left alone with a closed channel: it hands every waiting job to Process, oldest first, and
        exits. Each goroutine runs to its end before the next receive, one of the orders the scheduler may pick. */
    method Dispatch(d: nat, calls: nat -> Calls) returns (ghost tr: seq<Action>)
      requires Valid() && jobQueue.closed && d < |hands| && hands[d] == Idle && sem < workerCount
      modifies this, fileRepo, storage, tmpDir, jobQueue, deadLetter
      ensures Valid() && jobQueue.closed && jobQueue.ch == [] && hands == old(hands)[d := Exited] && sem == old(sem)
      ensures Pipeline.Valid(old(model), tr) && model == After(old(model), tr)
      ensures model.spawned == old(model).spawned + FilesOf(old(jobQueue.ch))
    {
      tr := [];
      ghost var start, waiting := model, jobQueue.ch;
      var n, more := 0, true;
      while more
        invariant Valid() && jobQueue.closed && sem == old(sem)
        invariant n <= |waiting| && jobQueue.ch == waiting[n..]
        invariant hands == if more then old(hands) else old(hands)[d := Exited]
        invariant !more ==> n == |waiting|
        invariant Pipeline.Valid(start, tr) && model == After(start, tr)
        invariant model.spawned == start.spawned + FilesOf(waiting[..n])
        decreases |waiting| - n, more
      {
        ghost var step;
        more, step := TakeNext(d, calls(n));
        Extends(start, tr, step);
        tr := tr + step;
        if more {
          FilesOfNext(waiting, n);
          n := n + 1;
        }
      }
      assert waiting[..n] == waiting;
    }
  }

  lemma FilesOfNext(jobs: seq<Job>, n: nat)
    requires n < |jobs|
    ensures FilesOf(jobs[..n + 1]) == FilesOf(jobs[..n]) + [jobs[n].fileId]
    ensures jobs[n..][0] == jobs[n] && jobs[n..][1..] == jobs[n + 1..]
  {
  }

  function FilesOf(jobs: seq<Job>): seq<Id> {
    seq(|jobs|, i requires 0 <= i < |jobs| => jobs[i].fileId)
  }
}
