/** Everything one attempt leaves behind, in terms of the calls that succeeded and of where it panicked. */
module AttemptEffects {
  import opened Domain
  import opened Pipeline
  import opened PipelineInvariant
  import opened Attempt
  import opened AttemptOutcome

  /** What is still to come of an attempt: its row set to processing, its object put, its tmp file removed, its
      row saved; and its end, done or with an error. */
  datatype Outlook = Outlook(locked: bool, put: bool, removed: bool, saved: bool, done: bool, failed: bool)

  const NOTHING := Outlook(false, false, false, false, false, false)
  const ERROR := NOTHING.(failed := true)
  const DONE := NOTHING.(done := true)

  function FromCleaned(c: Calls): Outlook {
    if c.Panics(Cleaned) then NOTHING else if c.saved then DONE.(saved := true) else ERROR
  }

  function FromStored(c: Calls): Outlook {
    if c.Panics(Stored) then NOTHING else FromCleaned(c).(removed := c.removed)
  }

  function FromWorked(c: Calls): Outlook {
    if c.Panics(Worked) then NOTHING else if c.put then FromStored(c).(put := true) else ERROR
  }

  function FromMarked(c: Calls, tmp: bool): Outlook {
    if c.Panics(Marked) then NOTHING else if c.worked && tmp then FromWorked(c) else ERROR
  }

  function FromBegin(c: Calls, tmp: bool): Outlook {
    if c.Panics(Begin) then NOTHING else if c.found && c.marked then FromMarked(c, tmp).(locked := true) else ERROR
  }

  function Ahead(s: State, g: nat, c: Calls): Outlook
    requires g in s.lay.procs
  {
    match s.lay.procs[g].stage
    case Begin => FromBegin(c, s.lay.procs[g].job.tmpPath in s.store.tmp)
    case Marked => FromMarked(c, s.lay.procs[g].job.tmpPath in s.store.tmp)
    case Worked => FromWorked(c)
    case Stored => FromStored(c)
    case Cleaned => FromCleaned(c)
    case Saved => DONE
    case Failed => ERROR
  }

  /** The file's row after the body. */
  function BodyRow(row: Row, j: Job, o: Outlook): Row {
    if o.saved then row.(status := Done, storagePath := Some(KeyFor(j)))
    else if o.locked then row.(status := Processing)
    else row
  }

  /** From `s` to `u`, the body of the attempt at `j` did just what `o` says. */
  predicate BodyFits(s: State, u: State, g: nat, j: Job, o: Outlook, c: Calls) {
    && j.fileId in s.store.rows && j.fileId in u.store.rows
    && u.store.rows[j.fileId] == BodyRow(s.store.rows[j.fileId], j, o)
    && u.store.rows - {j.fileId} == s.store.rows - {j.fileId}
    && u.store.objects == (if o.put then s.store.objects + {KeyFor(j)} else s.store.objects)
    && u.store.tmp == (if o.removed then s.store.tmp - {j.tmpPath} else s.store.tmp)
    && u.events == (if o.done && c.notified then s.events + [Event(j.fileId, FileProcessed)] else s.events)
    && u.lay.finished == (if o.done then s.lay.finished + [j.fileId] else s.lay.finished)
    && u.lay.abandoned == (if o.done || o.failed then s.lay.abandoned else s.lay.abandoned + [j.fileId])
    && u.lay.deadLetters == s.lay.deadLetters && u.lay.timers == s.lay.timers
    && (g in u.lay.procs <==> o.failed) && (o.failed ==> u.lay.procs[g] == Proc(j, Failed))
  }

  /** What the step's successor still has ahead. */
  ghost predicate RestFits(t: State, u: State, g: nat, j: Job, c: Calls) {
    if g in t.lay.procs then BodyFits(t, u, g, j, Ahead(t, g, c), c) else u == t
  }

  lemma PanicFits(s: State, u: State, g: nat, j: Job, c: Calls)
    requires OnItsWay(s, g) && s.lay.procs[g].job == j && s.lay.procs[g].stage !in {Saved, Failed}
    requires c.Panics(s.lay.procs[g].stage) && RestFits(Apply(s, Panic(g)), u, g, j, c)
    ensures BodyFits(s, u, g, j, Ahead(s, g, c), c)
  {
  }

  lemma LockFits(s: State, u: State, g: nat, j: Job, c: Calls)
    requires OnItsWay(s, g) && s.lay.procs[g] == Proc(j, Begin) && !c.Panics(Begin)
    requires RestFits(Apply(s, NextStep(s, g, c)), u, g, j, c)
    ensures BodyFits(s, u, g, j, Ahead(s, g, c), c)
  {
    if c.found {
      FindsWork(s, g, c);
    } else {
      FindFails(s, g, c);
    }
  }

  lemma WorkFits(s: State, u: State, g: nat, j: Job, c: Calls)
    requires OnItsWay(s, g) && s.lay.procs[g] == Proc(j, Marked) && !c.Panics(Marked)
    requires RestFits(Apply(s, Work(g, c.worked)), u, g, j, c)
    ensures BodyFits(s, u, g, j, Ahead(s, g, c), c)
  {
  }

  lemma PutFits(s: State, u: State, g: nat, j: Job, c: Calls)
    requires OnItsWay(s, g) && s.lay.procs[g] == Proc(j, Worked) && !c.Panics(Worked)
    requires RestFits(Apply(s, Put(g, c.put)), u, g, j, c)
    ensures BodyFits(s, u, g, j, Ahead(s, g, c), c)
  {
  }

  lemma RemoveFits(s: State, u: State, g: nat, j: Job, c: Calls)
    requires OnItsWay(s, g) && s.lay.procs[g] == Proc(j, Stored) && !c.Panics(Stored)
    requires RestFits(Apply(s, RemoveTmp(g, c.removed)), u, g, j, c)
    ensures BodyFits(s, u, g, j, Ahead(s, g, c), c)
  {
  }

  lemma SaveFits(s: State, u: State, g: nat, j: Job, c: Calls)
    requires OnItsWay(s, g) && s.lay.procs[g] == Proc(j, Cleaned) && !c.Panics(Cleaned)
    requires RestFits(Apply(s, Save(g, c.saved)), u, g, j, c)
    ensures BodyFits(s, u, g, j, Ahead(s, g, c), c)
  {
  }

  lemma NotifyFits(s: State, u: State, g: nat, j: Job, c: Calls)
    requires OnItsWay(s, g) && s.lay.procs[g] == Proc(j, Saved)
    requires RestFits(Apply(s, Notify(g, c.notified)), u, g, j, c)
    ensures BodyFits(s, u, g, j, Ahead(s, g, c), c)
  {
  }

  lemma StepFits(s: State, u: State, g: nat, j: Job, c: Calls)
    requires OnItsWay(s, g) && !Returned(s, g) && s.lay.procs[g].job == j
    requires Enabled(s, NextStep(s, g, c)) && RestFits(Apply(s, NextStep(s, g, c)), u, g, j, c)
    ensures BodyFits(s, u, g, j, Ahead(s, g, c), c)
  {
    var stage := s.lay.procs[g].stage;
    if c.Panics(stage) {
      PanicFits(s, u, g, j, c);
    } else {
      match stage
      case Begin => LockFits(s, u, g, j, c);
      case Marked => WorkFits(s, u, g, j, c);
      case Worked => PutFits(s, u, g, j, c);
      case Stored => RemoveFits(s, u, g, j, c);
      case Cleaned => SaveFits(s, u, g, j, c);
      case Saved => NotifyFits(s, u, g, j, c);
    }
  }

  lemma {:induction false} BodyEffects(s: State, g: nat, j: Job, c: Calls)
    requires OnItsWay(s, g) && s.lay.procs[g].job == j
    ensures BodyFits(s, BodyDone(s, g, c), g, j, Ahead(s, g, c), c)
    decreases StepsLeft(s, g)
  {
    BodyUnfolds(s, g, c);
    if !Returned(s, g) {
      var t := Apply(s, NextStep(s, g, c));
      StepTaken(s, g, c);
      StepOutlook(s, g, c);
      if g in t.lay.procs {
        BodyEffects(t, g, j, c);
      } else {
        BodyUnfolds(t, g, c);
      }
      StepFits(s, BodyDone(s, g, c), g, j, c);
    }
  }

  // ----- The whole attempt -----------------------------------------------------------------------------

  function AttemptRow(row: Row, j: Job, o: Outlook): Row {
    var after := BodyRow(row, j, o);
    if !o.failed then after
    else if j.retryCount == 2 then after.(status := Error)
    else after.(retryCount := after.retryCount + 1)
  }

  /** The attempt as a whole: its body's effects, and for an error the retry or the end. */
  predicate AttemptFits(s: State, u: State, t: nat, j: Job, o: Outlook, c: Calls) {
    var over := o.failed && j.retryCount == 2;
    && j.fileId in s.store.rows && j.fileId in u.store.rows
    && u.store.rows[j.fileId] == AttemptRow(s.store.rows[j.fileId], j, o)
    && u.store.rows - {j.fileId} == s.store.rows - {j.fileId}
    && u.store.objects == (if o.put then s.store.objects + {KeyFor(j)} else s.store.objects)
    && u.store.tmp == (if o.removed then s.store.tmp - {j.tmpPath} else s.store.tmp)
    && u.events == (if c.notified && o.done then s.events + [Event(j.fileId, FileProcessed)]
                    else if c.notified && over then s.events + [Event(j.fileId, FileError)]
                    else s.events)
    && u.lay.finished == (if o.done then s.lay.finished + [j.fileId] else s.lay.finished)
    && u.lay.abandoned == (if o.done || o.failed then s.lay.abandoned else s.lay.abandoned + [j.fileId])
    && u.lay.deadLetters ==
       (if over then s.lay.deadLetters + [Entry(j.fileId, j.userId, 3, Exhausted)] else s.lay.deadLetters)
    && u.lay.timers ==
       (if o.failed && !over then s.lay.timers[t := j.(retryCount := j.retryCount + 1)] else s.lay.timers)
  }

  lemma ErrorSettles(s: State, u: State, g: nat, t: nat, j: Job, o: Outlook, c: Calls)
    requires BodyFits(s, u, g, j, o, c) && t !in s.lay.timers && j.retryCount == 2 && o.failed && !o.done
    ensures Enabled(u, Exhaust(g, c.notified)) && AttemptFits(s, Apply(u, Exhaust(g, c.notified)), t, j, o, c)
  {
  }

  lemma ErrorRetries(s: State, u: State, g: nat, t: nat, j: Job, o: Outlook, c: Calls)
    requires BodyFits(s, u, g, j, o, c) && t !in s.lay.timers && j.retryCount < 2 && o.failed && !o.done
    ensures Enabled(u, Retry(g, t)) && AttemptFits(s, Apply(u, Retry(g, t)), t, j, o, c)
  {
  }

  lemma SettledFits(s: State, u: State, g: nat, t: nat, j: Job, o: Outlook, c: Calls)
    requires BodyFits(s, u, g, j, o, c) && t !in s.lay.timers && j.retryCount <= 2 && !(o.done && o.failed)
    ensures CanSettle(u, g, t) && AttemptFits(s, Settled(u, g, t, c.notified), t, j, o, c)
  {
    if o.failed && j.retryCount == 2 {
      ErrorSettles(s, u, g, t, j, o, c);
    } else if o.failed {
      ErrorRetries(s, u, g, t, j, o, c);
    }
  }

  /** What the calls and the panic come to, spelled out. */
  lemma OutlookSpelledOut(c: Calls, tmp: bool)
    ensures var o := FromBegin(c, tmp);
            var locked := c.panicAt != Some(Begin) && c.found && c.marked;
            var worked := locked && c.panicAt != Some(Marked) && c.worked && tmp;
            var stored := worked && c.panicAt != Some(Worked) && c.put;
            var cleaned := stored && c.panicAt != Some(Stored);
            && o.locked == locked
            && o.put == stored
            && o.removed == (cleaned && c.removed)
            && o.saved == o.done == (cleaned && c.panicAt != Some(Cleaned) && c.saved)
            && o.failed == (|| (c.panicAt != Some(Begin) && !locked)
                            || (locked && c.panicAt != Some(Marked) && !worked)
                            || (worked && c.panicAt != Some(Worked) && !stored)
                            || (cleaned && c.panicAt != Some(Cleaned) && !c.saved))
  {
  }

  /** From a sound state, Process writes the file's row, stores the object, removes the tmp file, queues the event,
      finishes, abandons, retries or dead-letters the file exactly as the outcome of its calls says. */
  lemma EffectsOfAttempt(s: State, g: nat, t: nat, c: Calls)
    requires Sound(s) && AtStage(s.lay, g, Begin) && t !in s.lay.timers
    ensures var j := s.lay.procs[g].job;
            AttemptFits(s, AttemptDone(s, g, t, c), t, j, FromBegin(c, j.tmpPath in s.store.tmp), c)
  {
    var j, u := s.lay.procs[g].job, BodyDone(s, g, c);
    StartsOnItsWay(s, g);
    AttemptsLeft(s, g);
    BodyEffects(s, g, j, c);
    BodyReturns(s, g, c);
    SettledFits(s, u, g, t, j, FromBegin(c, j.tmpPath in s.store.tmp), c);
  }

  lemma AttemptsLeft(s: State, g: nat)
    requires Sound(s) && g in s.lay.procs
    ensures s.lay.procs[g].job.retryCount <= 2
  {
    assert GoodAt(s.lay, s.store, InProcess(g));
  }
}
