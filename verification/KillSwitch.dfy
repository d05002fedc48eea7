/** The kill switch over whole runs of the controller machine: what it stops, how soon a loop notices,
    and when it survives a restart. */
module KillSwitch {
  import opened Options
  import opened Controller

  predicate Releases(a: Action) { a.Begin? && a.kind.Release? }

  predicate NoRelease(acts: seq<Action>) { forall k :: 0 <= k < |acts| ==> !Releases(acts[k]) }

  predicate NoCrash(acts: seq<Action>) { forall k :: 0 <= k < |acts| ==> !acts[k].Crash? }

  // ------------------------------------------------------------------ nothing new begins

  lemma HaltedGo(s: State, c: CallId)
    ensures var t := StepGo(s, c);
            t.up == s.up && t.flags.halted == s.flags.halted && t.begun == s.begun && t.cycles == s.cycles
  {}

  lemma HaltedStep(s: State, a: Action)
    requires s.up && s.flags.halted && !Releases(a) && !a.Crash?
    ensures var t := Step(s, a); t.up && t.flags.halted && t.begun == s.begun && t.cycles == s.cycles
  {
    if a.Go? { HaltedGo(s, a.c); }
  }

  /** Once engaged and until released: at every interleaving of calls, loops and operator commands, no
      triangle execution begins and no loop begins a cycle. */
  lemma {:induction false} NothingBegins(s: State, acts: seq<Action>)
    requires s.up && s.flags.halted && NoRelease(acts) && NoCrash(acts)
    ensures var t := Run(s, acts); t.up && t.flags.halted && t.begun == s.begun && t.cycles == s.cycles
  {
    if acts != [] {
      NothingBegins(s, acts[..|acts| - 1]);
      HaltedStep(Run(s, acts[..|acts| - 1]), acts[|acts| - 1]);
    }
  }

  // ------------------------------------------------------------------ the loop notices

  /** How many of its own steps a loop has left while the kill switch is engaged. */
  function StepsLeft(p: Pos): (n: nat)
    ensures n <= 7
    ensures n == 0 <==> p.Done?
  {
    match p
    case Done => 0
    case GotFlag(_) => 1
    case AskingFlag => 2
    case Top => 3
    case Waiting => 4
    case Ticking => 5
    case InCycle(_) => 6
    case Executing(_) => 7
    case Scanning => 7
  }

  /** The steps of task `t` in the run. */
  function OwnSteps(acts: seq<Action>, t: TaskId): (n: nat) {
    if acts == [] then 0 else
    OwnSteps(acts[..|acts| - 1], t) + if acts[|acts| - 1].TaskStep? && acts[|acts| - 1].t == t then 1 else 0
  }

  function LeftOf(s: State, t: TaskId): (n: nat) { if t in s.loops.tasks then StepsLeft(s.loops.tasks[t].pos) else 0 }

  lemma TaskFalls(s: State, u: TaskId, found: nat, limit: nat, ok: bool, t: TaskId)
    requires s.up && s.flags.halted
    ensures var r := StepTask(s, u, found, limit, ok);
            && r.loops.next == s.loops.next
            && (if u == t && LeftOf(s, t) > 0 then LeftOf(r, t) < LeftOf(s, t) else LeftOf(r, t) <= LeftOf(s, t))
  {
    if Live(s.loops, u) { PosFalls(s.loops.tasks[u], s.flags, found, limit, ok); }
  }

  lemma PosFalls(task: Task, f: Flags, found: nat, limit: nat, ok: bool)
    requires f.halted && !task.pos.Done?
    ensures StepsLeft(PosAfter(task, f, found, limit, ok)) < StepsLeft(task.pos)
  {}

  lemma LeftFalls(s: State, a: Action, t: TaskId)
    requires LockInv(s) && s.up && s.flags.halted && !Releases(a) && !a.Crash? && t < s.loops.next
    ensures var u := Step(s, a);
            && t < u.loops.next
            && (if a.TaskStep? && a.t == t && LeftOf(s, t) > 0 then LeftOf(u, t) < LeftOf(s, t) else LeftOf(u, t) <= LeftOf(s, t))
  {
    if a.TaskStep? { TaskFalls(s, a.t, a.found, a.limit, a.ok, t); }
    else if a.Go? && a.c in s.calls { GoLeaves(s.loops, s.calls[a.c], t); }
  }

  lemma GoLeaves(l: Loops, call: Call, t: TaskId)
    requires t < l.next
    ensures var u := LoopsAfter(l, call);
            t < u.next && (t in u.tasks <==> t in l.tasks) && (t in l.tasks ==> u.tasks[t].pos == l.tasks[t].pos)
  {}

  lemma {:induction false} LeftRun(s: State, acts: seq<Action>, t: TaskId)
    requires LockInv(s) && s.up && s.flags.halted && NoRelease(acts) && NoCrash(acts) && t < s.loops.next
    ensures var u := Run(s, acts);
            LockInv(u) && t < u.loops.next && (LeftOf(u, t) == 0 || LeftOf(u, t) + OwnSteps(acts, t) <= LeftOf(s, t))
  {
    if acts != [] {
      var init := acts[..|acts| - 1];
      LeftRun(s, init, t);
      NothingBegins(s, init);
      LockStep(Run(s, init), acts[|acts| - 1]);
      LeftFalls(Run(s, init), acts[|acts| - 1], t);
    }
  }

  /** Whatever a loop is doing when the kill switch is engaged, it ends within seven steps of its own,
      without beginning another cycle. */
  lemma HaltedLoopEnds(before: seq<Action>, acts: seq<Action>, t: TaskId)
    requires var s := Run(INIT, before); s.up && s.flags.halted && t < s.loops.next
    requires NoRelease(acts) && NoCrash(acts) && OwnSteps(acts, t) >= 7
    ensures !Live(Run(Run(INIT, before), acts).loops, t)
    ensures Run(Run(INIT, before), acts).cycles == Run(INIT, before).cycles
  {
    LockRun(before);
    NothingBegins(Run(INIT, before), acts);
    LeftRun(Run(INIT, before), acts, t);
  }

  // ------------------------------------------------------------------ restarts

  /** The engaged kill switch is written, and no delete by an earlier release is still on its way. */
  ghost predicate Sealed(s: State) {
    && s.flags.savedHalt && (s.up ==> s.flags.halted)
    && (forall c :: c in s.calls ==> !s.calls[c].ReleasePersist?)
  }

  lemma SealedStep(s: State, a: Action)
    requires Sealed(s) && !Releases(a)
    ensures var t := Step(s, a); Sealed(t) && t.begun == s.begun && (s.up ==> t.cycles == s.cycles)
  {
    if a.Go? && s.up && a.c in s.calls { HaltedGo(s, a.c); SealedGo(s, a.c); }
  }

  lemma SealedGo(s: State, c: CallId)
    requires Sealed(s) && s.up && c in s.calls
    ensures forall d :: d in StepGo(s, c).calls ==> !StepGo(s, c).calls[d].ReleasePersist?
    ensures StepGo(s, c).flags.savedHalt
  {
    assert !s.calls[c].ReleasePersist?;
  }

  /** Once the engagement is written and no earlier release is pending, crashes and restarts change
      nothing: until an operator releases it, every process comes up halted and no execution begins. */
  lemma {:induction false} SurvivesRestarts(s: State, acts: seq<Action>)
    requires Sealed(s) && NoRelease(acts)
    ensures var t := Run(s, acts); Sealed(t) && t.begun == s.begun
  {
    if acts != [] {
      SurvivesRestarts(s, acts[..|acts| - 1]);
      SealedStep(Run(s, acts[..|acts| - 1]), acts[|acts| - 1]);
    }
  }

  /** An uninterrupted engagement halts the guard, writes that down and switches auto trading off, in the
      database and in the guard. */
  lemma LoneEngage(s: State, c: CallId)
    requires s.up && c !in s.calls && s.lock != Some(c)
    ensures Run(s, [Begin(c, Engage), Go(c), Go(c), Go(c)]) == s.(flags := Flags(false, true, true, false))
  {
    RunFour(s, Begin(c, Engage), Go(c), Go(c), Go(c));
    EngageWrites(s.(flags := s.flags.(halted := true)), c);
    GoEnds(s.(flags := s.flags.(halted := true, savedHalt := true, auto := false)), c, EngageWritten);
  }

  lemma EngageWrites(s: State, c: CallId)
    requires s.up
    ensures StepGo(StepGo(At(s, c, EngagePersist), c), c) == At(s.(flags := s.flags.(savedHalt := true, auto := false)), c, EngageWritten)
  {
    GoAt(s, c, EngagePersist, EngageWrite);
    GoAt(s.(flags := s.flags.(savedHalt := true)), c, EngageWrite, EngageWritten);
  }

  /** An uninterrupted release undoes the halt in both places and nothing else. */
  lemma LoneRelease(s: State, c: CallId)
    requires s.up && c !in s.calls && s.lock != Some(c)
    ensures Run(s, [Begin(c, Release), Go(c)]) == s.(flags := s.flags.(savedHalt := false, halted := false))
  {
    RunTwo(s, Begin(c, Release), Go(c));
    GoEnds(s.(flags := s.flags.(halted := false)), c, ReleasePersist);
  }

  /** A restart comes up halted exactly when the engagement is in the database at the crash. */
  lemma RestartHalted(s: State)
    ensures Run(s, [Crash, Boot]).up && (Run(s, [Crash, Boot]).flags.halted <==> s.flags.savedHalt)
  {
    RunTwo(s, Crash, Boot);
  }

  /** The kill switch of a running process survives every sequence of crashes and restarts without a
      release if and only if its engagement is written and no delete by an earlier release is pending. */
  lemma SurvivesIff(s: State)
    requires s.up && s.flags.halted
    ensures Sealed(s) <==> forall acts :: NoRelease(acts) && Run(s, acts).up ==> Run(s, acts).flags.halted
  {
    if Sealed(s) {
      forall acts | NoRelease(acts) && Run(s, acts).up ensures Run(s, acts).flags.halted { SurvivesRestarts(s, acts); }
    } else if !s.flags.savedHalt {
      RestartHalted(s);
      assert NoRelease([Crash, Boot]);
    } else {
      var c :| c in s.calls && s.calls[c].ReleasePersist?;
      DeleteThenRestart(s, c);
    }
  }

  lemma DeleteThenRestart(s: State, c: CallId)
    requires s.up && c in s.calls && s.calls[c].ReleasePersist?
    ensures var acts := [Go(c)] + [Crash, Boot]; NoRelease(acts) && Run(s, acts).up && !Run(s, acts).flags.halted
  {
    RunAppend(s, [Go(c)], [Crash, Boot]);
    RunFirst(s, [Go(c)]);
    RestartHalted(Run(s, [Go(c)]));
  }

  /** The pending delete matters: an engagement written while an earlier release is still writing is
      lost at the next restart, although it was engaged last. */
  lemma LateReleaseLosesHalt(s: State, c: CallId, d: CallId)
    requires s.up && c !in s.calls && d !in s.calls && c != d
    ensures var t := Run(s, [Begin(c, Release), Begin(d, Engage)] + [Go(d), Go(c)]);
            t.flags.halted && !t.flags.savedHalt && !Run(t, [Crash, Boot]).flags.halted
  {
    var first, second := [Begin(c, Release), Begin(d, Engage)], [Go(d), Go(c)];
    RunAppend(s, first, second);
    RunTwo(s, first[0], first[1]);
    RunTwo(Run(s, first), second[0], second[1]);
    WritesCross(s.(calls := s.calls[c := ReleasePersist]), c, d);
    RestartHalted(Run(Run(s, first), second));
  }

  lemma WritesCross(s: State, c: CallId, d: CallId)
    requires s.up && c in s.calls && s.calls[c].ReleasePersist? && d !in s.calls
    ensures var t := StepGo(StepGo(At(s.(flags := s.flags.(halted := true)), d, EngagePersist), d), c);
            t.flags.halted && !t.flags.savedHalt
  {
    var s1 := s.(flags := s.flags.(halted := true));
    GoAt(s1, d, EngagePersist, EngageWrite);
  }
}
