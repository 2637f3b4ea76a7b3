/** When one attempt finishes its file. */
module AttemptOutcome {
  import opened Domain
  import opened Pipeline
  import opened PipelineInvariant
  import opened Attempt

  predicate WillReturnSaved(stage: Stage, c: Calls) {
    match stage
    case Stored => !c.Panics(Stored) && !c.Panics(Cleaned) && c.saved
    case Cleaned => !c.Panics(Cleaned) && c.saved
    case Saved => true
    case _ => false
  }

  /** What has to go well from a stage on: no panic, every call that can fail succeeds, and the tmp file is
      there while it is read. */
  predicate WillSave(stage: Stage, c: Calls, tmp: bool) {
    var put := !c.Panics(Worked) && c.put && tmp && WillReturnSaved(Stored, c);
    var worked := !c.Panics(Marked) && c.worked && tmp && put;
    match stage
    case Begin => !c.Panics(Begin) && c.found && c.marked && worked
    case Marked => worked
    case Worked => put
    case _ => WillReturnSaved(stage, c)
  }

  /** The row is there, and done just from the save on; a worked file has been read. */
  predicate OnItsWay(s: State, g: nat) {
    && g in s.lay.procs
    && var p := s.lay.procs[g];
       && p.job.fileId in s.store.rows
       && (p.stage == Saved ==> s.store.rows[p.job.fileId].status == Done)
       && (p.stage != Saved ==> !s.store.rows[p.job.fileId].status.Terminal())
       && (p.stage == Worked ==> p.job.tmpPath in s.store.tmp)
  }

  predicate WillFinish(s: State, g: nat, c: Calls)
    requires g in s.lay.procs
  {
    WillSave(s.lay.procs[g].stage, c, s.lay.procs[g].job.tmpPath in s.store.tmp)
  }

  predicate HasDoneRow(s: State, id: Id) {
    id in s.store.rows && s.store.rows[id].status == Done
  }

  /** A step either keeps the outlook, or settles it. */
  ghost predicate KeepsOutlook(s: State, g: nat, c: Calls)
    requires g in s.lay.procs && s.lay.procs[g].stage != Failed && Enabled(s, NextStep(s, g, c))
  {
    var t, j := Apply(s, NextStep(s, g, c)), s.lay.procs[g].job;
    if g in t.lay.procs then OnItsWay(t, g) && t.lay.procs[g].job == j && (WillFinish(t, g, c) <==> WillFinish(s, g, c))
    else HasDoneRow(t, j.fileId) <==> WillFinish(s, g, c)
  }

  lemma PanicOutlook(s: State, g: nat, c: Calls)
    requires OnItsWay(s, g) && !Returned(s, g) && c.Panics(s.lay.procs[g].stage)
    ensures Enabled(s, NextStep(s, g, c)) && KeepsOutlook(s, g, c)
  {
  }

  lemma LockOutlook(s: State, g: nat, c: Calls)
    requires OnItsWay(s, g) && AtStage(s.lay, g, Begin) && !c.Panics(Begin)
    ensures Enabled(s, NextStep(s, g, c)) && KeepsOutlook(s, g, c)
  {
    if c.found {
      FindsWork(s, g, c);
    } else {
      FindFails(s, g, c);
    }
  }

  lemma ReadOutlook(s: State, g: nat, c: Calls)
    requires OnItsWay(s, g) && (AtStage(s.lay, g, Marked) || AtStage(s.lay, g, Worked))
    requires !c.Panics(s.lay.procs[g].stage)
    ensures Enabled(s, NextStep(s, g, c)) && KeepsOutlook(s, g, c)
  {
  }

  lemma FinishOutlook(s: State, g: nat, c: Calls)
    requires OnItsWay(s, g) && s.lay.procs[g].stage in {Stored, Cleaned, Saved} && !c.Panics(s.lay.procs[g].stage)
    ensures Enabled(s, NextStep(s, g, c)) && KeepsOutlook(s, g, c)
  {
  }

  lemma StepOutlook(s: State, g: nat, c: Calls)
    requires OnItsWay(s, g) && !Returned(s, g)
    ensures Enabled(s, NextStep(s, g, c)) && KeepsOutlook(s, g, c)
  {
    var stage := s.lay.procs[g].stage;
    if c.Panics(stage) {
      PanicOutlook(s, g, c);
    } else if stage == Begin {
      LockOutlook(s, g, c);
    } else if stage in {Marked, Worked} {
      ReadOutlook(s, g, c);
    } else {
      FinishOutlook(s, g, c);
    }
  }

  lemma {:induction false} BodyOutcome(s: State, g: nat, c: Calls)
    requires OnItsWay(s, g)
    ensures var id := s.lay.procs[g].job.fileId;
            HasDoneRow(BodyDone(s, g, c), id) <==> WillFinish(s, g, c)
    ensures var u := BodyDone(s, g, c); g in u.lay.procs ==> OnItsWay(u, g) && u.lay.procs[g].job == s.lay.procs[g].job
    decreases StepsLeft(s, g)
  {
    BodyUnfolds(s, g, c);
    if !Returned(s, g) {
      var t := Apply(s, NextStep(s, g, c));
      StepTaken(s, g, c);
      StepOutlook(s, g, c);
      if g in t.lay.procs {
        BodyOutcome(t, g, c);
      } else {
        BodyUnfolds(t, g, c);
      }
    }
  }

  lemma SettledOutcome(u: State, g: nat, t: nat, notified: bool, id: Id)
    requires CanSettle(u, g, t) && (g in u.lay.procs ==> !HasDoneRow(u, u.lay.procs[g].job.fileId))
    requires g in u.lay.procs ==> u.lay.procs[g].job.fileId == id
    ensures HasDoneRow(Settled(u, g, t, notified), id) <==> HasDoneRow(u, id)
  {
  }

  lemma StartsOnItsWay(s: State, g: nat)
    requires Sound(s) && AtStage(s.lay, g, Begin)
    ensures OnItsWay(s, g)
  {
    assert GoodAt(s.lay, s.store, InProcess(g));
  }

  /** From a sound state, Process leaves the file's row done exactly when nothing panicked, the row was locked
      and marked, the tmp file was there, and the work, the upload and the save succeeded. */
  lemma DoneIffAllSucceed(s: State, g: nat, t: nat, c: Calls)
    requires Sound(s) && AtStage(s.lay, g, Begin) && t !in s.lay.timers
    ensures var j := s.lay.procs[g].job;
            HasDoneRow(AttemptDone(s, g, t, c), j.fileId) <==>
            && c.found && c.marked && c.worked && c.put && c.saved && j.tmpPath in s.store.tmp
            && c.panicAt !in {Some(Begin), Some(Marked), Some(Worked), Some(Stored), Some(Cleaned)}
  {
    StartsOnItsWay(s, g);
    AttemptOutcomeCore(s, g, t, c);
  }

  lemma AttemptOutcomeCore(s: State, g: nat, t: nat, c: Calls)
    requires OnItsWay(s, g) && t !in s.lay.timers
    ensures HasDoneRow(AttemptDone(s, g, t, c), s.lay.procs[g].job.fileId) <==> WillFinish(s, g, c)
  {
    var u, id := BodyDone(s, g, c), s.lay.procs[g].job.fileId;
    BodyReturns(s, g, c);
    BodyOutcome(s, g, c);
    SettledOutcome(u, g, t, c.notified, id);
  }
}
