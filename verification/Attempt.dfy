/** One attempt at a job, from its goroutine's start to what becomes of it, as a run of the transition system. */
module Attempt {
  import opened Domain
  import opened Pipeline

  /** Which calls of an attempt succeed, and whether and where it panics. */
  datatype Calls = Calls(
    found: bool, marked: bool, worked: bool, put: bool, removed: bool, saved: bool, notified: bool,
    panicAt: Option<Stage>)
  {
    predicate Panics(stage: Stage) {
      panicAt == Some(stage) && stage !in {Saved, Failed}
    }
  }

  /** The transaction succeeds when the row is found and marked; a row found final is not marked. */
  predicate LockOk(st: Store, id: Id, c: Calls) {
    c.found && (c.marked || (id in st.rows && st.rows[id].status.Terminal()))
  }

  /** What doProcess does next. */
  function NextStep(s: State, g: nat, c: Calls): Action
    requires g in s.lay.procs && s.lay.procs[g].stage != Failed
  {
    var p := s.lay.procs[g];
    if c.Panics(p.stage) then Panic(g)
    else match p.stage
      case Begin => Lock(g, LockOk(s.store, p.job.fileId, c))
      case Marked => Work(g, c.worked)
      case Worked => Put(g, c.put)
      case Stored => RemoveTmp(g, c.removed)
      case Cleaned => Save(g, c.saved)
      case Saved => Notify(g, c.notified)
  }

  function StepsLeft(s: State, g: nat): nat {
    if g !in s.lay.procs then 0
    else match s.lay.procs[g].stage
      case Begin => 7
      case Marked => 6
      case Worked => 5
      case Stored => 4
      case Cleaned => 3
      case Saved => 2
      case Failed => 1
  }

  predicate Returned(s: State, g: nat) {
    StepsLeft(s, g) <= 1
  }

  lemma NextIsEnabled(s: State, g: nat, c: Calls)
    requires !Returned(s, g)
    ensures var a := NextStep(s, g, c);
            && Enabled(s, a)
            && (a.Lock? || a.Work? || a.Put? || a.RemoveTmp? || a.Save? || a.Notify? || a.Panic?) && a.g == g
  {
  }

  ghost predicate Advances(s: State, t: State, g: nat) {
    StepsLeft(t, g) < StepsLeft(s, g) && t.lay.timers == s.lay.timers
  }

  lemma StageAdvances(s: State, a: Action)
    requires Enabled(s, a) && (a.Work? || a.Put? || a.RemoveTmp? || a.Save?)
    ensures Advances(s, Apply(s, a), a.g)
  {
  }

  lemma OtherAdvances(s: State, a: Action)
    requires Enabled(s, a) && (a.Lock? || a.Notify? || a.Panic?)
    ensures Advances(s, Apply(s, a), a.g)
  {
  }

  lemma StepTaken(s: State, g: nat, c: Calls)
    requires !Returned(s, g)
    ensures Enabled(s, NextStep(s, g, c)) && Advances(s, Apply(s, NextStep(s, g, c)), g)
  {
    NextIsEnabled(s, g, c);
    var a := NextStep(s, g, c);
    if a.Work? || a.Put? || a.RemoveTmp? || a.Save? {
      StageAdvances(s, a);
    } else {
      OtherAdvances(s, a);
    }
  }

  /** The state in which doProcess returns. */
  function BodyDone(s: State, g: nat, c: Calls): State
    decreases StepsLeft(s, g)
  {
    if Returned(s, g) then s
    else
      StepTaken(s, g, c);
      BodyDone(Apply(s, NextStep(s, g, c)), g, c)
  }

  lemma BodyUnfolds(s: State, g: nat, c: Calls)
    ensures Returned(s, g) ==> BodyDone(s, g, c) == s
    ensures !Returned(s, g) ==>
              Enabled(s, NextStep(s, g, c)) && BodyDone(s, g, c) == BodyDone(Apply(s, NextStep(s, g, c)), g, c)
  {
    if !Returned(s, g) {
      StepTaken(s, g, c);
    }
  }

  /** What Process does with a failed attempt. */
  function FailureStep(s: State, g: nat, t: nat, notified: bool): Action
    requires g in s.lay.procs
  {
    if s.lay.procs[g].job.retryCount + 1 >= MAX_RETRIES then Exhaust(g, notified) else Retry(g, t)
  }

  predicate CanSettle(s: State, g: nat, t: nat) {
    g in s.lay.procs ==> s.lay.procs[g].stage == Failed && t !in s.lay.timers
  }

  /** The state in which Process returns. */
  function Settled(s: State, g: nat, t: nat, notified: bool): State
    requires CanSettle(s, g, t)
  {
    if g in s.lay.procs then Apply(s, FailureStep(s, g, t, notified)) else s
  }

  lemma {:induction false} BodyReturns(s: State, g: nat, c: Calls)
    ensures Returned(BodyDone(s, g, c), g) && BodyDone(s, g, c).lay.timers == s.lay.timers
    decreases StepsLeft(s, g)
  {
    if !Returned(s, g) {
      StepTaken(s, g, c);
      BodyReturns(Apply(s, NextStep(s, g, c)), g, c);
    }
  }

  function AttemptDone(s: State, g: nat, t: nat, c: Calls): State
    requires t !in s.lay.timers
  {
    BodyReturns(s, g, c);
    Settled(BodyDone(s, g, c), g, t, c.notified)
  }

  /** Only the goroutine's own steps, and no panic unless one is called for. */
  predicate Own(tr: seq<Action>, c: Calls) {
    (forall a | a in tr :: Internal(a)) && (c.panicAt == None ==> NoPanic(tr))
  }

  /** An attempt is a run: what holds along every run holds of the imperative code that makes it. */
  lemma {:induction false} BodyIsRun(s: State, g: nat, c: Calls) returns (tr: seq<Action>)
    ensures Valid(s, tr) && After(s, tr) == BodyDone(s, g, c) && Own(tr, c)
    decreases StepsLeft(s, g)
  {
    if Returned(s, g) {
      tr := [];
    } else {
      var a := NextStep(s, g, c);
      StepTaken(s, g, c);
      var rest := BodyIsRun(Apply(s, a), g, c);
      FirstStep(s, a, rest);
      tr := [a] + rest;
    }
  }

  lemma FailureEnabled(u: State, g: nat, t: nat, notified: bool)
    requires CanSettle(u, g, t) && g in u.lay.procs
    ensures var a := FailureStep(u, g, t, notified); Enabled(u, a) && Internal(a) && !a.Panic?
  {
  }

  lemma SettledIsRun(s: State, tr: seq<Action>, u: State, g: nat, t: nat, c: Calls) returns (all: seq<Action>)
    requires Valid(s, tr) && After(s, tr) == u && CanSettle(u, g, t) && Own(tr, c)
    ensures Valid(s, all) && After(s, all) == Settled(u, g, t, c.notified) && Own(all, c)
  {
    all := tr;
    if g in u.lay.procs {
      var a := FailureStep(u, g, t, c.notified);
      FailureEnabled(u, g, t, c.notified);
      OneMore(s, tr, a);
      all := tr + [a];
    }
  }

  lemma AttemptIsRun(s: State, g: nat, t: nat, c: Calls) returns (tr: seq<Action>)
    requires t !in s.lay.timers
    ensures Valid(s, tr) && After(s, tr) == AttemptDone(s, g, t, c) && Own(tr, c)
  {
    tr := BodyIsRun(s, g, c);
    BodyReturns(s, g, c);
    tr := SettledIsRun(s, tr, BodyDone(s, g, c), g, t, c);
  }

  /** A goroutine on its way keeps its slot; one that has returned is about to release it. */
  predicate Counts(s: State, t: State, g: nat) {
    && t.spawned == s.spawned
    && t.exiting == s.exiting + if g in t.lay.procs then 0 else 1
  }

  lemma StageCounts(s: State, a: Action)
    requires Enabled(s, a) && (a.Work? || a.Put? || a.RemoveTmp? || a.Save?)
    ensures Counts(s, Apply(s, a), a.g)
  {
  }

  lemma OtherCounts(s: State, a: Action)
    requires Enabled(s, a) && (a.Lock? || a.Notify? || a.Panic?)
    ensures Counts(s, Apply(s, a), a.g)
  {
  }

  lemma StepCounts(s: State, g: nat, c: Calls)
    requires !Returned(s, g)
    ensures Enabled(s, NextStep(s, g, c)) && Counts(s, Apply(s, NextStep(s, g, c)), g)
  {
    NextIsEnabled(s, g, c);
    var a := NextStep(s, g, c);
    if a.Work? || a.Put? || a.RemoveTmp? || a.Save? {
      StageCounts(s, a);
    } else {
      OtherCounts(s, a);
    }
  }

  lemma {:induction false} BodyCounts(s: State, g: nat, c: Calls)
    requires g in s.lay.procs
    ensures Counts(s, BodyDone(s, g, c), g)
    decreases StepsLeft(s, g)
  {
    BodyUnfolds(s, g, c);
    if !Returned(s, g) {
      var t := Apply(s, NextStep(s, g, c));
      StepTaken(s, g, c);
      StepCounts(s, g, c);
      if g in t.lay.procs {
        BodyCounts(t, g, c);
      } else {
        BodyUnfolds(t, g, c);
      }
    }
  }

  lemma SettledCounts(u: State, g: nat, t: nat, notified: bool)
    requires CanSettle(u, g, t) && g in u.lay.procs
    ensures Counts(u, Settled(u, g, t, notified), g) && g !in Settled(u, g, t, notified).lay.procs
  {
  }

  /** Process always returns: with the slot still to release, and no other file handed to Process. */
  lemma AttemptReturns(s: State, g: nat, t: nat, c: Calls)
    requires g in s.lay.procs && t !in s.lay.timers
    ensures var u := AttemptDone(s, g, t, c); u.exiting == s.exiting + 1 && u.spawned == s.spawned
  {
    BodyReturns(s, g, c);
    BodyCounts(s, g, c);
    var u := BodyDone(s, g, c);
    if g in u.lay.procs {
      SettledCounts(u, g, t, c.notified);
    }
  }

  lemma FindFails(s: State, g: nat, c: Calls)
    requires AtStage(s.lay, g, Begin) && !c.Panics(Begin)
    requires !c.found || s.lay.procs[g].job.fileId !in s.store.rows
    ensures Apply(s, NextStep(s, g, c)) == s.(lay := Staged(s.lay, g, Failed))
  {
  }

  lemma FindsFinal(s: State, g: nat, c: Calls)
    requires AtStage(s.lay, g, Begin) && !c.Panics(Begin)
    requires var id := s.lay.procs[g].job.fileId; c.found && id in s.store.rows && s.store.rows[id].status.Terminal()
    ensures Apply(s, NextStep(s, g, c)) ==
            s.(lay := Finished(WithoutProc(s.lay, g), s.lay.procs[g].job.fileId), exiting := s.exiting + 1)
  {
  }

  lemma FindsWork(s: State, g: nat, c: Calls)
    requires AtStage(s.lay, g, Begin) && !c.Panics(Begin)
    requires var id := s.lay.procs[g].job.fileId; c.found && id in s.store.rows && !s.store.rows[id].status.Terminal()
    ensures Apply(s, NextStep(s, g, c)) ==
            if c.marked then s.(lay := Staged(s.lay, g, Marked), store := RowMarked(s.store, s.lay.procs[g].job.fileId))
            else s.(lay := Staged(s.lay, g, Failed))
  {
  }

  // ----- A dispatcher's turn ------------------------------------------------------------------------------

  predicate CanTurn(s: State, d: nat, g: nat, t: nat) {
    HasHand(s.lay, d) && s.lay.hands[d].Holding? && s.tokens < s.workers && g !in s.lay.procs && t !in s.lay.timers
  }

  function Begun(s: State, d: nat, g: nat): State
    requires HasHand(s.lay, d) && s.lay.hands[d].Holding? && s.tokens < s.workers && g !in s.lay.procs
  {
    Apply(Apply(s, Acquire(d)), Spawn(d, g))
  }

  lemma BegunIs(s: State, d: nat, g: nat, t: nat)
    requires CanTurn(s, d, g, t)
    ensures var u, j := Begun(s, d, g), s.lay.hands[d].job;
            && g in u.lay.procs && u.lay.procs[g] == Proc(j, Begin) && u.lay.timers == s.lay.timers
            && u.spawned == s.spawned + [j.fileId] && u.tokens == s.tokens + 1
    ensures Valid(s, [Acquire(d)] + [Spawn(d, g)]) && After(s, [Acquire(d)] + [Spawn(d, g)]) == Begun(s, d, g)
  {
    OneStep(s, Acquire(d));
    OneMore(s, [Acquire(d)], Spawn(d, g));
  }

  lemma TurnIsRun(s: State, d: nat, g: nat, t: nat, c: Calls) returns (tr: seq<Action>)
    requires CanTurn(s, d, g, t)
    ensures t !in Begun(s, d, g).lay.timers
    ensures Valid(s, tr) && After(s, tr) == AttemptDone(Begun(s, d, g), g, t, c)
    ensures After(s, tr).exiting > 0 && After(s, tr).spawned == s.spawned + [s.lay.hands[d].job.fileId]
  {
    BegunIs(s, d, g, t);
    AttemptReturns(Begun(s, d, g), g, t, c);
    var attempt := AttemptIsRun(Begun(s, d, g), g, t, c);
    Extends(s, [Acquire(d)] + [Spawn(d, g)], attempt);
    tr := [Acquire(d)] + [Spawn(d, g)] + attempt;
  }
}
