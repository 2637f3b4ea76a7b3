/** Which file each step moves, from where and to where. */
module PipelineMoves {
  import opened Pipeline
  import opened PipelineInvariant

  /** The place a step takes a file from, for steps that move one. */
  function Source(s: State, a: Action): Option<Place> {
    match a
    case EnqueueUpload(u) => Some(InUpload(u))
    case Dequeue(d) => Some(InQueue(s.lay.taken))
    case Acquire(d) => Some(InHand(d))
    case Spawn(d, g) => Some(InHand(d))
    case Fire(t) => Some(OnTimer(t))
    case Lock(g, _) => Some(InProcess(g))
    case Work(g, _) => Some(InProcess(g))
    case Put(g, _) => Some(InProcess(g))
    case RemoveTmp(g, _) => Some(InProcess(g))
    case Save(g, _) => Some(InProcess(g))
    case Notify(g, _) => Some(InProcess(g))
    case Retry(g, _) => Some(InProcess(g))
    case Exhaust(g, _) => Some(InProcess(g))
    case Panic(g) => Some(InProcess(g))
    case _ => None
  }

  /** The place a step puts the file it moves. */
  function Target(s: State, a: Action): Option<Place>
    requires Enabled(s, a)
  {
    var l := s.lay;
    match a
    case EnqueueUpload(u) => Some(if Full(s) then InRejected(|l.rejected|) else InQueue(l.taken + |l.queue|))
    case Dequeue(d) => Some(InHand(d))
    case Acquire(d) => Some(InHand(d))
    case Spawn(d, g) => Some(InProcess(g))
    case Fire(t) => Some(if Full(s) then InDeadLetters(|l.deadLetters|) else InQueue(l.taken + |l.queue|))
    case Lock(g, ok) =>
      var id := l.procs[g].job.fileId;
      Some(if ok && id in s.store.rows && s.store.rows[id].status.Terminal() then InFinished(|l.finished|)
           else InProcess(g))
    case Work(g, _) => Some(InProcess(g))
    case Put(g, _) => Some(InProcess(g))
    case RemoveTmp(g, _) => Some(InProcess(g))
    case Save(g, _) => Some(InProcess(g))
    case Notify(g, _) => Some(InFinished(|l.finished|))
    case Retry(g, t) => Some(OnTimer(t))
    case Exhaust(g, _) => Some(InDeadLetters(|l.deadLetters|))
    case Panic(g) => Some(InAbandoned(|l.abandoned|))
    case _ => None
  }

  lemma ArrivalMoves(s: State, a: Action)
    requires Enabled(s, a) && (a.EnqueueUpload? || a.Fire?)
    ensures Moves(s.lay, Apply(s, a).lay, Source(s, a).value, Target(s, a).value)
  {
    var l := s.lay;
    if a.EnqueueUpload? {
      if Full(s) {
        UploadToRejected(l, a.u);
      } else {
        UploadToQueue(l, a.u);
      }
    } else if Full(s) {
      var j := l.timers[a.t];
      TimerToDeadLetters(l, a.t, Entry(j.fileId, j.userId, j.retryCount, QueueFull));
    } else {
      TimerToQueue(l, a.t);
    }
  }

  lemma DispatchMoves(s: State, a: Action)
    requires Enabled(s, a) && (a.Dequeue? || a.Acquire? || a.Spawn?)
    ensures Moves(s.lay, Apply(s, a).lay, Source(s, a).value, Target(s, a).value)
  {
    match a
    case Dequeue(d) => QueueToHand(s.lay, d);
    case Acquire(d) => HandAcquires(s.lay, d);
    case Spawn(d, g) => HandToProc(s.lay, d, g);
    case _ =>
  }

  lemma DepartureMoves(s: State, a: Action)
    requires Enabled(s, a) && (a.Notify? || a.Panic?)
    ensures Moves(s.lay, Apply(s, a).lay, Source(s, a).value, Target(s, a).value)
  {
    if a.Notify? {
      ProcToFinished(s.lay, a.g);
    } else {
      ProcToAbandoned(s.lay, a.g);
    }
  }

  lemma RetryMoves(s: State, a: Action)
    requires Enabled(s, a) && a.Retry?
    ensures Moves(s.lay, Apply(s, a).lay, Source(s, a).value, Target(s, a).value)
  {
    var j := s.lay.procs[a.g].job;
    ProcToTimer(s.lay, a.g, a.t, j.(retryCount := j.retryCount + 1));
  }

  lemma ExhaustMoves(s: State, a: Action)
    requires Enabled(s, a) && a.Exhaust?
    ensures Moves(s.lay, Apply(s, a).lay, Source(s, a).value, Target(s, a).value)
  {
    var j := s.lay.procs[a.g].job;
    ProcToDeadLetters(s.lay, a.g, Entry(j.fileId, j.userId, j.retryCount + 1, Exhausted));
  }

  lemma StageMoves(s: State, a: Action)
    requires Enabled(s, a) && (a.Lock? || a.Work? || a.Put? || a.RemoveTmp? || a.Save?)
    ensures Moves(s.lay, Apply(s, a).lay, Source(s, a).value, Target(s, a).value)
  {
    var l, g, m := s.lay, a.g, Apply(s, a).lay;
    if Target(s, a) == Some(InProcess(g)) {
      assert m == Staged(l, g, m.procs[g].stage);
      ProcAdvances(l, g, m.procs[g].stage);
    } else {
      ProcToFinished(l, g);
    }
  }

  /** A step that moves a file moves that file only. */
  lemma StepMoves(s: State, a: Action)
    requires Enabled(s, a) && Source(s, a).Some?
    ensures Target(s, a).Some? && Moves(s.lay, Apply(s, a).lay, Source(s, a).value, Target(s, a).value)
  {
    match a
    case EnqueueUpload(_) => ArrivalMoves(s, a);
    case Fire(_) => ArrivalMoves(s, a);
    case Dequeue(_) => DispatchMoves(s, a);
    case Acquire(_) => DispatchMoves(s, a);
    case Spawn(_, _) => DispatchMoves(s, a);
    case Notify(_, _) => DepartureMoves(s, a);
    case Retry(_, _) => RetryMoves(s, a);
    case Exhaust(_, _) => ExhaustMoves(s, a);
    case Panic(_) => DepartureMoves(s, a);
    case _ => StageMoves(s, a);
  }

  lemma OthersStay(s: State, a: Action, p: Place)
    requires Enabled(s, a) && At(s.lay, p).Some? && Source(s, a) != Some(p)
    ensures At(Apply(s, a).lay, p) == At(s.lay, p)
  {
    if Source(s, a).Some? {
      StepMoves(s, a);
    }
  }
}
