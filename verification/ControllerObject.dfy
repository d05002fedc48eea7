/** The controller as an object: `start`, `stop` and `is_running` run to their end with no other call
    in flight, each tied to the step machine. */
module ControllerObject {
  import opened Options
  import opened Controller

  /** The machine state of a running process with nothing in flight. */
  function Idle(flags: Flags, loops: Loops): (s: State) { State(true, flags, loops, None, map[], 0, 0) }

  function StartSteps(): (acts: seq<Action>) { [Begin(0, Start)] + [Go(0), Go(0)] + [Go(0), Go(0), Go(0)] }

  lemma NoCallNoStep(s: State, c: CallId)
    requires c !in s.calls
    ensures StepGo(s, c) == s
  {}

  lemma RefusedStart(s: State)
    requires s.calls == map[] && (s.flags.halted || Running(s.loops))
    ensures Run(s, StartSteps()) == s
  {
    RunFirst(s, [Begin(0, Start)]);
    RunTwo(s, Go(0), Go(0));
    RunThree(s, Go(0), Go(0), Go(0));
    RunAppend(s, [Begin(0, Start)], [Go(0), Go(0)]);
    RunAppend(s, [Begin(0, Start)] + [Go(0), Go(0)], [Go(0), Go(0), Go(0)]);
  }

  lemma AcceptedStart(flags: Flags, loops: Loops)
    requires !flags.halted && !Running(loops) && loops.trader == loops.task
    ensures Run(Idle(flags, loops), StartSteps()) == Idle(flags.(auto := true, enabled := true), Spawned(Cleared(loops)))
  {
    var s := Idle(flags, loops);
    RunFirst(s, [Begin(0, Start)]);
    RunAppend(s, [Begin(0, Start)], [Go(0), Go(0)]);
    RunAppend(s, [Begin(0, Start)] + [Go(0), Go(0)], [Go(0), Go(0), Go(0)]);
    var s1 := s.(loops := Cleared(loops), lock := Some(0));
    if Stale(loops) {
      RunTwo(At(s1, 0, StartClear), Go(0), Go(0));
      GoAt(s1, 0, StartClear, StartCleared);
      GoAt(s1.(flags := flags.(auto := false)), 0, StartCleared, StartSet);
      SetAndSpawn(s1.(flags := flags.(auto := false, enabled := false)), 0);
    } else {
      assert Cleared(loops) == loops;
      SettledStart(s1);
    }
  }

  /** With nothing stale to clear, three of the five steps are enough. */
  lemma SettledStart(s: State)
    requires s.up && s.calls == map[] && s.lock == Some(0)
    ensures Run(Run(At(s, 0, StartSet), [Go(0), Go(0)]), [Go(0), Go(0), Go(0)])
            == s.(flags := s.flags.(auto := true, enabled := true), loops := Spawned(s.loops), lock := None)
  {
    var t := At(s, 0, StartSet);
    RunAppend(t, [Go(0), Go(0)], [Go(0), Go(0), Go(0)]);
    RunAppend(t, [Go(0), Go(0), Go(0)], [Go(0), Go(0)]);
    assert [Go(0), Go(0)] + [Go(0), Go(0), Go(0)] == [Go(0), Go(0), Go(0)] + [Go(0), Go(0)];
    SetAndSpawn(s, 0);
    var u := Run(t, [Go(0), Go(0), Go(0)]);
    RunTwo(u, Go(0), Go(0));
    NoCallNoStep(u, 0);
  }

  /** A stop that finds task `t` running: it signals, waits until the task has ended, and clears. */
  function StopSteps(t: TaskId): (acts: seq<Action>) { [Begin(0, Stop), Go(0), Go(0), Go(0)] + [TaskEnds(t), Go(0)] }

  lemma RunningStop(flags: Flags, loops: Loops, t: TaskId)
    requires loops.task == Some(t) && Live(loops, t)
    ensures Live(Signalled(loops), t)
    ensures Run(Idle(flags, loops), StopSteps(t))
            == Idle(flags.(auto := false, enabled := false), Cleared(AtPos(Signalled(loops), t, Done)))
  {
    SignalFrame(loops);
    StopWaits(Idle(flags, loops), 0, t);
    var s := Run(Idle(flags, loops), [Begin(0, Stop), Go(0), Go(0), Go(0)]);
    RunAppend(Idle(flags, loops), [Begin(0, Stop), Go(0), Go(0), Go(0)], [TaskEnds(t), Go(0)]);
    RunTwo(s, TaskEnds(t), Go(0));
    var u := Exit(s, t);
    RunFirst(u, [Go(0)]);
    ClearsOther(u, 0, t);
  }

  lemma IdleStop(flags: Flags, loops: Loops, t: TaskId)
    requires !Running(loops) && !Live(loops, t)
    ensures Run(Idle(flags, loops), StopSteps(t)) == Idle(flags.(auto := false, enabled := false), Cleared(Signalled(loops)))
  {
    SignalFrame(loops);
    var s, g := Idle(flags, loops), flags.(auto := false, enabled := false);
    RunFour(s, Begin(0, Stop), Go(0), Go(0), Go(0));
    StopClearsFlag(s, 0);
    GoEnds(Idle(g, loops), 0, StopSignal);
    var u := Idle(g, Cleared(Signalled(loops)));
    RunAppend(s, [Begin(0, Stop), Go(0), Go(0), Go(0)], [TaskEnds(t), Go(0)]);
    RunTwo(u, TaskEnds(t), Go(0));
  }

  lemma LoneCheck(flags: Flags, loops: Loops)
    ensures Run(Idle(flags, loops), [Begin(0, IsRunning), Go(0), Go(0)]) ==
            if Stale(loops) then Idle(flags.(auto := false, enabled := false), Cleared(loops)) else Idle(flags, loops)
  {
    var s := Idle(flags, loops);
    RunThree(s, Begin(0, IsRunning), Go(0), Go(0));
    if Stale(loops) {
      var t := Idle(flags, Cleared(loops));
      GoAt(t, 0, CheckWrite, CheckWritten);
      GoEnds(t.(flags := flags.(auto := false)), 0, CheckWritten);
    }
  }

  lemma ClearedLive(l: Loops)
    ensures forall t: TaskId :: Live(Cleared(l), t) <==> Live(l, t)
  {}

  lemma SpawnedLive(l: Loops)
    ensures forall t: TaskId :: Live(Spawned(l), t) <==> t == l.next || Live(l, t)
  {}

  class AutoTradingController {
    var flags: Flags
    var loops: Loops

    /** One loop at most, and it is the one referred to. */
    ghost predicate Valid()
      reads this
    {
      LoopsInv(loops) && Single(loops)
    }

    constructor (auto: bool, savedHalt: bool)
      ensures Valid() && flags == Flags(auto, savedHalt, savedHalt, false) && loops == NOTHING
    {
      flags, loops := Flags(auto, savedHalt, savedHalt, false), NOTHING;
    }

    /** Restarting is refused while halted or running, and then nothing changes; otherwise exactly one
        fresh loop exists, and the flag, the guard and the reference all say so. */
    method StartTrading() returns (started: bool)
      requires Valid()
      modifies this
      ensures Valid()
      ensures started <==> !old(flags).halted && !Running(old(loops))
      ensures !started ==> flags == old(flags) && loops == old(loops)
      ensures started ==> Running(loops) && loops.task == Some(old(loops).next) && flags.auto && flags.enabled
      ensures started ==> forall t: TaskId :: Live(loops, t) <==> t == old(loops).next
      ensures Idle(flags, loops) == Run(Idle(old(flags), old(loops)), StartSteps())
    {
      if flags.halted || Running(loops) {
        RefusedStart(Idle(flags, loops));
        return false;
      }
      AcceptedStart(flags, loops);
      SpawnedLive(Cleared(loops));
      ClearedLive(loops);
      if Stale(loops) {
        loops := Cleared(loops);
        SetAutoTrading(false);
      }
      SetAutoTrading(true);
      assert loops == Cleared(old(loops));
      loops := Spawned(loops);
      return true;
    }

    method SetAutoTrading(on: bool)
      modifies this`flags
      ensures flags == old(flags).(auto := on, enabled := on)
    {
      flags := flags.(auto := on);
      flags := flags.(enabled := on);
    }

    /** Stopping waits for the loop to end and leaves no loop, no reference and no flag behind; the kill
        switch is not touched. */
    method StopTrading() returns (stopped: bool)
      requires Valid()
      modifies this
      ensures Valid()
      ensures stopped <==> Running(old(loops)) || old(flags).auto
      ensures forall t: TaskId :: !Live(loops, t)
      ensures loops.task.None? && loops.trader.None? && loops.next == old(loops).next
      ensures flags == old(flags).(auto := false, enabled := false)
      ensures Idle(flags, loops) == Run(Idle(old(flags), old(loops)), StopSteps(if old(loops).task.Some? then old(loops).task.value else 0))
    {
      if Running(loops) { RunningStop(flags, loops, loops.task.value); }
      else { IdleStop(flags, loops, if loops.task.Some? then loops.task.value else 0); }
      stopped := Running(loops) || flags.auto;
      SetAutoTrading(false);
      SignalFrame(loops);
      loops := Signalled(loops);
      var task := loops.task;
      if task.Some? && Live(loops, task.value) {
        PosFrame(loops, task.value, Done);
        loops := AtPos(loops, task.value, Done);       // awaited or cancelled
        flags := flags.(enabled := false);
      }
      assert forall t: TaskId :: Live(loops, t) ==> Live(old(loops), t) && task == Some(t);
      ClearedLive(loops);
      loops := Cleared(loops);
    }

    /** A finished loop is noticed: its reference and flag are dropped. */
    method CheckRunning() returns (running: bool)
      requires Valid()
      modifies this
      ensures Valid()
      ensures running <==> Running(old(loops)) && old(flags).auto
      ensures Stale(old(loops)) ==> loops == Cleared(old(loops)) && flags == old(flags).(auto := false, enabled := false)
      ensures !Stale(old(loops)) ==> loops == old(loops) && flags == old(flags)
      ensures Idle(flags, loops) == Run(Idle(old(flags), old(loops)), [Begin(0, IsRunning), Go(0), Go(0)])
    {
      LoneCheck(flags, loops);
      if !Running(loops) {
        if Stale(loops) {
          loops := Cleared(loops);
          SetAutoTrading(false);
        }
        return false;
      }
      return flags.auto;
    }
  }
}
