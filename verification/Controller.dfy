/** The auto-trading controller, its loop and the kill switch (app/auto_controller.py, app/auto.py,
    app/services.py) as a step machine. A step is the code between two `await`s of one call or of one
    loop task; a flag or kill-switch write commits in a step of its own. */
module Controller {
  import opened Options

  type CallId = nat
  type TaskId = nat

  /** Where a loop task stands. */
  datatype Pos =
    | Top
    | AskingFlag
    | GotFlag(on: bool)
    | Scanning
    | InCycle(left: nat)
    | Executing(left: nat)
    | Ticking
    | Waiting
    | Done

  datatype Task = Task(pos: Pos, stopping: bool)

  /** Where a call stands: what it does when it next moves. */
  datatype Call =
    | StartClear | StartCleared | StartSet | StartWasSet | StartSpawn
    | StopWrite | StopWritten | StopSignal | StopWait(task: TaskId)
    | CheckWrite | CheckWritten
    | EngagePersist | EngageWrite | EngageWritten
    | ReleasePersist

  datatype Kind = Start | Stop | IsRunning | Engage | Release

  /** The persisted auto flag and kill switch, and the guard's own copies. */
  datatype Flags = Flags(auto: bool, savedHalt: bool, halted: bool, enabled: bool)

  /** The loop tasks, and the controller's references `_task` and `_trader` (named by its task). */
  datatype Loops = Loops(task: Option<TaskId>, trader: Option<TaskId>, tasks: map<TaskId, Task>, next: TaskId)

  /** `cycles` and `begun` count the cycles and the triangle executions begun so far. */
  datatype State = State(
    up: bool, flags: Flags, loops: Loops, lock: Option<CallId>, calls: map<CallId, Call>, cycles: nat, begun: nat)

  datatype Action =
    | Begin(c: CallId, kind: Kind)
    | Go(c: CallId)
    | Abort(c: CallId)
    | TaskStep(t: TaskId, found: nat, limit: nat, ok: bool)
    | TaskEnds(t: TaskId)
    | Manual(approved: bool)
    | Crash
    | Boot
    | RestoreFlag                    // `start_app` copies the persisted flag to the guard

  predicate Live(l: Loops, t: TaskId) { t in l.tasks && !l.tasks[t].pos.Done? }

  predicate Running(l: Loops) { l.task.Some? && Live(l, l.task.value) }

  /** The reference points at a task that has finished. */
  predicate Stale(l: Loops) { l.task.Some? && !Live(l, l.task.value) }

  function Cleared(l: Loops): (r: Loops) { l.(task := None, trader := None) }

  function Signalled(l: Loops): (r: Loops) {
    if l.trader.Some? && l.trader.value in l.tasks
    then l.(tasks := l.tasks[l.trader.value := l.tasks[l.trader.value].(stopping := true)]) else l
  }

  function Spawned(l: Loops): (r: Loops) {
    Loops(Some(l.next), Some(l.next), l.tasks[l.next := Task(Top, false)], l.next + 1)
  }

  // ------------------------------------------------------------------ calls

  function At(s: State, c: CallId, call: Call): (r: State) { s.(calls := s.calls[c := call]) }

  /** What a call does before its first `await`. A start first needs the lock. */
  function StepBegin(s: State, c: CallId, kind: Kind): (r: State) {
    if !s.up || c in s.calls then s else
    match kind
    case Start =>
      if s.lock.Some? || s.flags.halted || Running(s.loops) then s
      else if Stale(s.loops) then At(s.(loops := Cleared(s.loops), lock := Some(c)), c, StartClear)
      else At(s.(lock := Some(c)), c, StartSet)
    case Stop => At(s, c, StopWrite)
    case IsRunning => if Stale(s.loops) then At(s.(loops := Cleared(s.loops)), c, CheckWrite) else s
    case Engage => At(s.(flags := s.flags.(halted := true)), c, EngagePersist)
    case Release => At(s.(flags := s.flags.(halted := false)), c, ReleasePersist)
  }

  /** What the next step of a call does to the flags, to the loops, and where it leaves the call. */
  function FlagsAfter(f: Flags, call: Call): (r: Flags) {
    match call
    case StartClear => f.(auto := false)
    case StartCleared => f.(enabled := false)
    case StartSet => f.(auto := true)
    case StartWasSet => f.(enabled := true)
    case StartSpawn => f
    case StopWrite => f.(auto := false)
    case StopWritten => f.(enabled := false)
    case StopSignal => f
    case StopWait(_) => f
    case CheckWrite => f.(auto := false)
    case CheckWritten => f.(enabled := false)
    case EngagePersist => f.(savedHalt := true)
    case EngageWrite => f.(auto := false)
    case EngageWritten => f.(enabled := false)
    case ReleasePersist => f.(savedHalt := false)
  }

  function LoopsAfter(l: Loops, call: Call): (r: Loops) {
    if call.StartSpawn? then Spawned(l)
    else if call.StopSignal? then (if Running(l) then Signalled(l) else Cleared(Signalled(l)))
    else if call.StopWait? && !Live(l, call.task) then Cleared(l)
    else l
  }

  function CallAfter(l: Loops, call: Call): (r: Option<Call>) {
    match call
    case StartClear => Some(StartCleared)
    case StartCleared => Some(StartSet)
    case StartSet => Some(StartWasSet)
    case StartWasSet => Some(StartSpawn)
    case StartSpawn => None
    case StopWrite => Some(StopWritten)
    case StopWritten => Some(StopSignal)
    case StopSignal => if Running(l) then Some(StopWait(l.task.value)) else None
    case StopWait(t) => if Live(l, t) then Some(call) else None
    case CheckWrite => Some(CheckWritten)
    case CheckWritten => None
    case EngagePersist => Some(EngageWrite)
    case EngageWrite => Some(EngageWritten)
    case EngageWritten => None
    case ReleasePersist => None
  }

  /** The call returns or raises; a start gives the lock back. */
  function Ended(s: State, c: CallId): (r: State) {
    s.(calls := s.calls - {c}, lock := if s.lock == Some(c) then None else s.lock)
  }

  function StepGo(s: State, c: CallId): (r: State) {
    if !s.up || c !in s.calls then s else
    var call := s.calls[c];
    var t := s.(flags := FlagsAfter(s.flags, call), loops := LoopsAfter(s.loops, call));
    match CallAfter(s.loops, call)
    case Some(next) => At(t, c, next)
    case None => Ended(t, c)
  }

  // ------------------------------------------------------------------ the loop

  /** Where the loop goes next: `found` opportunities come back from the scan and at most `limit` of them
      are taken in a cycle; `ok` says whether the awaited work went well or the risk check approved. */
  function PosAfter(task: Task, f: Flags, found: nat, limit: nat, ok: bool): (p: Pos) {
    match task.pos
    case Top => if task.stopping then Done else AskingFlag
    case AskingFlag => GotFlag(f.auto)
    case GotFlag(on) => if !on || f.halted then Done else if !f.enabled then Waiting else Scanning
    case Scanning => if ok then InCycle(if found < limit then found else limit) else Waiting
    case InCycle(left) =>
      if left == 0 || f.halted then Ticking
      else if ok then Executing(left - 1)
      else InCycle(left - 1)
    case Executing(left) => if ok then InCycle(left) else Waiting
    case Ticking => Waiting
    case Waiting => Top
    case Done => Done
  }

  function AtPos(l: Loops, t: TaskId, pos: Pos): (r: Loops)
    requires t in l.tasks
  {
    l.(tasks := l.tasks[t := l.tasks[t].(pos := pos)])
  }

  /** The loop ends: its `finally` switches the guard's flag off. */
  function Exit(s: State, t: TaskId): (r: State)
    requires t in s.loops.tasks
  {
    s.(loops := AtPos(s.loops, t, Done), flags := s.flags.(enabled := false))
  }

  function StepTask(s: State, t: TaskId, found: nat, limit: nat, ok: bool): (r: State) {
    if !s.up || !Live(s.loops, t) then s else
    var p := PosAfter(s.loops.tasks[t], s.flags, found, limit, ok);
    if p.Done? then Exit(s, t)
    else s.(loops := AtPos(s.loops, t, p),
            cycles := s.cycles + if p.Scanning? then 1 else 0,
            begun := s.begun + if p.Executing? then 1 else 0)
  }

  // ------------------------------------------------------------------ runs

  const NOTHING: Loops := Loops(None, None, map[], 0)

  function Step(s: State, a: Action): (r: State) {
    match a
    case Begin(c, kind) => StepBegin(s, c, kind)
    case Go(c) => StepGo(s, c)
    case Abort(c) => Ended(s, c)
    case TaskStep(t, found, limit, ok) => StepTask(s, t, found, limit, ok)
    case TaskEnds(t) => if s.up && Live(s.loops, t) then Exit(s, t) else s
    case Manual(approved) => if s.up && !s.flags.halted && approved then s.(begun := s.begun + 1) else s
    case Crash => s.(up := false, loops := NOTHING, lock := None, calls := map[])
    case Boot => if s.up then s else s.(up := true, flags := s.flags.(halted := s.flags.savedHalt, enabled := false))
    case RestoreFlag => if s.up && s.flags.auto then s.(flags := s.flags.(enabled := true)) else s
  }

  const INIT: State := State(false, Flags(false, false, false, false), NOTHING, None, map[], 0, 0)

  function Run(s: State, acts: seq<Action>): (r: State) {
    if acts == [] then s else Step(Run(s, acts[..|acts| - 1]), acts[|acts| - 1])
  }

  lemma {:induction false} RunAppend(s: State, first: seq<Action>, second: seq<Action>)
    ensures Run(s, first + second) == Run(Run(s, first), second)
  {
    if second == [] {
      assert first + second == first;
    } else {
      var init := second[..|second| - 1];
      RunAppend(s, first, init);
      assert (first + second)[..|first + second| - 1] == first + init;
    }
  }

  // ------------------------------------------------------------------ at most one loop

  predicate IsStart(call: Call) { call.StartClear? || call.StartCleared? || call.StartSet? || call.StartWasSet? || call.StartSpawn? }

  predicate IsStop(call: Call) { call.StopWrite? || call.StopWritten? || call.StopSignal? || call.StopWait? }

  ghost predicate LoopsInv(l: Loops) {
    (forall t :: t in l.tasks ==> t < l.next) && (l.task.Some? ==> l.task.value in l.tasks) && l.trader == l.task
  }

  /** The lock is held by the start in flight, if there is one, and nothing runs while it is. */
  ghost predicate LockInv(s: State) {
    && LoopsInv(s.loops)
    && (forall c :: c in s.calls && IsStart(s.calls[c]) ==> s.lock == Some(c) && !Running(s.loops))
    && (s.lock.Some? ==> s.lock.value in s.calls && IsStart(s.calls[s.lock.value]))
    && (!s.up ==> s.calls == map[] && s.loops == NOTHING)
  }

  /** The one live loop task is the one the controller refers to. */
  ghost predicate Single(l: Loops) { forall t: TaskId :: Live(l, t) ==> l.task == Some(t) }

  /** The action is the last step of a stop, and the reference it clears is a live task: not the task
      this stop waited for. */
  predicate Orphans(s: State, a: Action) {
    && a.Go? && s.up && a.c in s.calls && s.calls[a.c].StopWait?
    && !Live(s.loops, s.calls[a.c].task) && Running(s.loops)
  }

  lemma BeginLock(s: State, c: CallId, kind: Kind)
    requires LockInv(s)
    ensures LockInv(StepBegin(s, c, kind))
  {}

  /** Signalling a task changes neither which tasks exist nor which are live. */
  lemma SignalFrame(l: Loops)
    ensures Signalled(l).(tasks := l.tasks) == l && Signalled(l).tasks.Keys == l.tasks.Keys
    ensures forall u :: Live(Signalled(l), u) <==> Live(l, u)
  {}

  lemma LoopsKept(l: Loops, call: Call)
    requires LoopsInv(l)
    ensures LoopsInv(LoopsAfter(l, call))
    ensures !call.StartSpawn? ==> (Running(LoopsAfter(l, call)) ==> Running(l))
  {
    SignalFrame(l);
  }

  lemma GoLock(s: State, c: CallId)
    requires LockInv(s)
    ensures LockInv(StepGo(s, c))
  {
    if s.up && c in s.calls { LoopsKept(s.loops, s.calls[c]); }
  }

  /** A loop step changes its own task only, and never revives a task. */
  lemma PosFrame(l: Loops, t: TaskId, p: Pos)
    requires Live(l, t)
    ensures var u := AtPos(l, t, p);
            u.(tasks := l.tasks) == l && u.tasks.Keys == l.tasks.Keys && (forall v :: Live(u, v) ==> Live(l, v))
  {}

  lemma TaskLock(s: State, t: TaskId, found: nat, limit: nat, ok: bool)
    requires LockInv(s)
    ensures LockInv(StepTask(s, t, found, limit, ok))
  {
    if s.up && Live(s.loops, t) { PosFrame(s.loops, t, PosAfter(s.loops.tasks[t], s.flags, found, limit, ok)); }
  }

  lemma LockStep(s: State, a: Action)
    requires LockInv(s)
    ensures LockInv(Step(s, a))
  {
    match a
    case Begin(c, kind) => BeginLock(s, c, kind);
    case Go(c) => GoLock(s, c);
    case Abort(c) =>
    case TaskStep(t, found, limit, ok) => TaskLock(s, t, found, limit, ok);
    case TaskEnds(t) =>
    case Manual(_) =>
    case Crash =>
    case Boot =>
    case RestoreFlag =>
  }

  lemma {:induction false} LockRun(acts: seq<Action>)
    ensures LockInv(Run(INIT, acts))
  {
    if acts != [] {
      LockRun(acts[..|acts| - 1]);
      LockStep(Run(INIT, acts[..|acts| - 1]), acts[|acts| - 1]);
    }
  }

  /** One step keeps the single loop exactly when it orphans none. */
  lemma SingleStep(s: State, a: Action)
    requires LockInv(s) && Single(s.loops)
    ensures Single(Step(s, a).loops) <==> !Orphans(s, a)
  {
    match a
    case Begin(c, kind) =>
    case Go(c) => SingleGo(s, c);
    case Abort(c) =>
    case TaskStep(t, found, limit, ok) =>
      if s.up && Live(s.loops, t) { PosFrame(s.loops, t, PosAfter(s.loops.tasks[t], s.flags, found, limit, ok)); }
    case TaskEnds(t) => if s.up && Live(s.loops, t) { PosFrame(s.loops, t, Done); }
    case Manual(_) =>
    case Crash =>
    case Boot =>
    case RestoreFlag =>
  }

  lemma SingleGo(s: State, c: CallId)
    requires LockInv(s) && Single(s.loops)
    ensures Single(StepGo(s, c).loops) <==> !Orphans(s, Go(c))
  {
    if s.up && c in s.calls { SingleLoops(s.loops, s.calls[c]); }
  }

  lemma SingleLoops(l: Loops, call: Call)
    requires Single(l) && (call.StartSpawn? ==> !Running(l))
    ensures Single(LoopsAfter(l, call)) <==> !(call.StopWait? && !Live(l, call.task) && Running(l))
  {
    SignalFrame(l);
    if call.StopWait? && !Live(l, call.task) && Running(l) { assert Live(LoopsAfter(l, call), l.task.value); }
    if call.StartSpawn? {
      assert forall t: TaskId :: Live(Spawned(l), t) ==> t == l.next || Live(l, t);
    }
  }

  ghost predicate NeverOrphans(acts: seq<Action>) {
    forall k :: 0 <= k < |acts| ==> !Orphans(Run(INIT, acts[..k]), acts[k])
  }

  ghost predicate AlwaysSingle(acts: seq<Action>) { forall k :: 0 <= k <= |acts| ==> Single(Run(INIT, acts[..k]).loops) }

  /** Over every interleaving of calls, loop exits and crashes: at every point at most one loop is
      alive and it is the one the controller refers to, if and only if no stop clears a reference to a
      live task. */
  lemma {:induction false} OneLoopIff(acts: seq<Action>)
    ensures AlwaysSingle(acts) <==> NeverOrphans(acts)
  {
    assert acts[..|acts|] == acts;
    if acts == [] {
      assert Single(NOTHING);
    } else {
      var init := acts[..|acts| - 1];
      OneLoopIff(init);
      LockRun(init);
      PrefixesOf(acts);
      if AlwaysSingle(init) { SingleStep(Run(INIT, init), acts[|acts| - 1]); }
    }
  }

  lemma PrefixesOf(acts: seq<Action>)
    requires acts != []
    ensures var init := acts[..|acts| - 1];
            && (AlwaysSingle(acts) <==> AlwaysSingle(init) && Single(Run(INIT, acts).loops))
            && (NeverOrphans(acts) <==> NeverOrphans(init) && !Orphans(Run(INIT, init), acts[|acts| - 1]))
            && (AlwaysSingle(init) ==> Single(Run(INIT, init).loops))
  {
    var init := acts[..|acts| - 1];
    assert forall k :: 0 <= k <= |init| ==> init[..k] == acts[..k];
    assert acts[..|acts|] == acts && init[..|init|] == init;
    if AlwaysSingle(acts) {
      assert Single(Run(INIT, acts[..|acts|]).loops);
      forall k | 0 <= k <= |init| ensures Single(Run(INIT, init[..k]).loops) { assert Single(Run(INIT, acts[..k]).loops); }
    }
    if AlwaysSingle(init) && Single(Run(INIT, acts).loops) {
      forall k | 0 <= k <= |acts| ensures Single(Run(INIT, acts[..k]).loops) {
        if k < |acts| { assert Single(Run(INIT, init[..k]).loops); }
      }
    }
    if NeverOrphans(acts) {
      forall k | 0 <= k < |init| ensures !Orphans(Run(INIT, init[..k]), init[k]) { assert !Orphans(Run(INIT, acts[..k]), acts[k]); }
      assert !Orphans(Run(INIT, acts[..|init|]), acts[|init|]);
    }
    if NeverOrphans(init) && !Orphans(Run(INIT, init), acts[|acts| - 1]) {
      forall k | 0 <= k < |acts| ensures !Orphans(Run(INIT, acts[..k]), acts[k]) {
        if k < |init| { assert !Orphans(Run(INIT, init[..k]), init[k]); }
      }
    }
  }

  // ------------------------------------------------------------------ stops that overlap no start

  /** A stop is in flight while a start holds the lock. */
  ghost predicate Overlap(s: State) {
    exists c, d :: c in s.calls && d in s.calls && IsStart(s.calls[c]) && IsStop(s.calls[d])
  }

  ghost predicate NoOverlap(acts: seq<Action>) { forall k :: 0 <= k <= |acts| ==> !Overlap(Run(INIT, acts[..k])) }

  /** A waiting stop still waits for the task the controller refers to, or for nothing. */
  ghost predicate WaitInv(s: State) {
    forall c :: c in s.calls && s.calls[c].StopWait? ==> s.loops.task.None? || s.loops.task == Some(s.calls[c].task)
  }

  lemma WaitGo(s: State, c: CallId)
    requires LockInv(s) && WaitInv(s) && !Overlap(s)
    ensures WaitInv(StepGo(s, c))
  {
    if s.up && c in s.calls {
      SignalFrame(s.loops);
      assert s.calls[c].StartSpawn? ==> forall d :: d in s.calls ==> !IsStop(s.calls[d]);
    }
  }

  lemma WaitStep(s: State, a: Action)
    requires LockInv(s) && WaitInv(s) && !Overlap(s)
    ensures WaitInv(Step(s, a))
  {
    if a.Go? { WaitGo(s, a.c); }
  }

  lemma {:induction false} NoOverlapRun(acts: seq<Action>)
    requires NoOverlap(acts)
    ensures NeverOrphans(acts) && WaitInv(Run(INIT, acts))
  {
    assert acts[..|acts|] == acts;
    if acts != [] {
      var init := acts[..|acts| - 1];
      assert forall k :: 0 <= k <= |init| ==> init[..k] == acts[..k];
      NoOverlapRun(init);
      LockRun(init);
      PrefixesOf(acts);
      assert !Overlap(Run(INIT, acts[..|init|]));
      WaitStep(Run(INIT, init), acts[|acts| - 1]);
    }
  }

  /** If no stop overlaps a start, then at every point of every run at most one loop is alive, and it
      is the one the controller refers to. */
  lemma OneLoop(acts: seq<Action>)
    requires NoOverlap(acts)
    ensures AlwaysSingle(acts)
  {
    NoOverlapRun(acts);
    OneLoopIff(acts);
  }

  // ------------------------------------------------------------------ a stop that overlaps a start

  lemma {:induction false} RunFirst(s: State, acts: seq<Action>)
    requires acts != []
    ensures Run(s, acts) == Run(Step(s, acts[0]), acts[1..])
  {
    assert acts == [acts[0]] + acts[1..];
    RunAppend(s, [acts[0]], acts[1..]);
    assert [acts[0]][..0] == [];
  }

  /** A stop waits for its loop to end; the loop ends; a new start spawns a second loop; the stop then
      clears the reference to it; and a third start spawns a third loop beside it. */
  const OVERLAP_RUN: seq<Action> := FIRST_HALF + [Go(1)] + [Begin(3, Start), Go(3), Go(3), Go(3)]

  const FIRST_HALF: seq<Action> := [Begin(0, Start), Go(0), Go(0), Go(0)] + [Begin(1, Stop), Go(1), Go(1), Go(1)]
    + ([TaskEnds(0), Begin(2, Start)] + [Go(2), Go(2)] + [Go(2), Go(2), Go(2)])

  /** An idle running process with no loop. */
  predicate Fresh(s: State) {
    s.up && s.calls == map[] && s.lock.None? && s.loops.task.None? && s.loops.tasks == map[] && s.loops.next == 0 && !s.flags.halted
  }

  lemma GoAt(s: State, c: CallId, call: Call, next: Call)
    requires s.up && CallAfter(s.loops, call) == Some(next)
    ensures StepGo(At(s, c, call), c) == At(s.(flags := FlagsAfter(s.flags, call), loops := LoopsAfter(s.loops, call)), c, next)
  {
    assert s.calls[c := call][c := next] == s.calls[c := next];
  }

  lemma GoEnds(s: State, c: CallId, call: Call)
    requires s.up && CallAfter(s.loops, call).None? && c !in s.calls
    ensures StepGo(At(s, c, call), c)
            == s.(flags := FlagsAfter(s.flags, call), loops := LoopsAfter(s.loops, call), lock := if s.lock == Some(c) then None else s.lock)
  {
    assert s.calls[c := call] - {c} == s.calls;
  }

  lemma RunThree(s: State, a: Action, b: Action, c: Action)
    ensures Run(s, [a, b, c]) == Step(Step(Step(s, a), b), c)
  {
    RunFirst(s, [a, b, c]);
    RunFirst(Step(s, a), [b, c]);
    RunFirst(Step(Step(s, a), b), [c]);
    assert [a, b, c][1..] == [b, c] && [b, c][1..] == [c];
  }

  lemma RunFour(s: State, a: Action, b: Action, c: Action, d: Action)
    ensures Run(s, [a, b, c, d]) == Step(Step(Step(Step(s, a), b), c), d)
  {
    RunFirst(s, [a, b, c, d]);
    RunThree(Step(s, a), b, c, d);
    assert [a, b, c, d][1..] == [b, c, d];
  }

  /** From the write of the flag to the new task. */
  lemma SetAndSpawn(s: State, c: CallId)
    requires s.up && c !in s.calls && s.lock == Some(c)
    ensures Run(At(s, c, StartSet), [Go(c), Go(c), Go(c)])
            == s.(flags := s.flags.(auto := true, enabled := true), loops := Spawned(s.loops), lock := None)
  {
    RunThree(At(s, c, StartSet), Go(c), Go(c), Go(c));
    GoAt(s, c, StartSet, StartWasSet);
    var s1 := s.(flags := s.flags.(auto := true));
    GoAt(s1, c, StartWasSet, StartSpawn);
    GoEnds(s1.(flags := s1.flags.(enabled := true)), c, StartSpawn);
  }

  lemma StartsFresh(s: State, c: CallId)
    requires s.up && c !in s.calls && s.lock.None? && s.loops.task.None? && !s.flags.halted
    ensures Run(s, [Begin(c, Start), Go(c), Go(c), Go(c)])
            == s.(flags := s.flags.(auto := true, enabled := true), loops := Spawned(s.loops))
  {
    RunFirst(s, [Begin(c, Start), Go(c), Go(c), Go(c)]);
    SetAndSpawn(s.(lock := Some(c)), c);
  }

  lemma StopWaits(s: State, c: CallId, t: TaskId)
    requires s.up && c !in s.calls && s.loops.task == Some(t) && Live(s.loops, t)
    ensures Run(s, [Begin(c, Stop), Go(c), Go(c), Go(c)])
            == At(s.(flags := s.flags.(auto := false, enabled := false), loops := Signalled(s.loops)), c, StopWait(t))
  {
    RunFour(s, Begin(c, Stop), Go(c), Go(c), Go(c));
    StopClearsFlag(s, c);
    GoAt(s.(flags := s.flags.(auto := false, enabled := false)), c, StopSignal, StopWait(t));
  }

  lemma StopClearsFlag(s: State, c: CallId)
    requires s.up
    ensures StepGo(StepGo(At(s, c, StopWrite), c), c) == At(s.(flags := s.flags.(auto := false, enabled := false)), c, StopSignal)
  {
    GoAt(s, c, StopWrite, StopWritten);
    GoAt(s.(flags := s.flags.(auto := false)), c, StopWritten, StopSignal);
  }

  lemma RestartsStale(s: State, c: CallId, t: TaskId)
    requires s.up && c !in s.calls && s.lock.None? && !s.flags.halted && s.loops.task == Some(t) && Live(s.loops, t)
    ensures Run(s, [TaskEnds(t), Begin(c, Start)] + [Go(c), Go(c)] + [Go(c), Go(c), Go(c)])
            == s.(flags := s.flags.(auto := true, enabled := true), loops := Spawned(Cleared(AtPos(s.loops, t, Done))))
  {
    var first, second, third := [TaskEnds(t), Begin(c, Start)], [Go(c), Go(c)], [Go(c), Go(c), Go(c)];
    var s1 := s.(flags := s.flags.(enabled := false), loops := Cleared(AtPos(s.loops, t, Done)), lock := Some(c));
    RunTwo(s, first[0], first[1]);
    assert Run(s, first) == At(s1, c, StartClear);
    RunTwo(At(s1, c, StartClear), second[0], second[1]);
    GoAt(s1, c, StartClear, StartCleared);
    var s2 := s1.(flags := s1.flags.(auto := false));
    GoAt(s2, c, StartCleared, StartSet);
    RunAppend(s, first, second);
    RunAppend(s, first + second, third);
    SetAndSpawn(s2, c);
  }

  lemma RunTwo(s: State, a: Action, b: Action)
    ensures Run(s, [a, b]) == Step(Step(s, a), b)
  {
    RunFirst(s, [a, b]);
    RunFirst(Step(s, a), [b]);
    assert [a, b][1..] == [b];
  }

  /** The first half: a stop waiting for loop 0 while loop 1 is the one the controller refers to. */
  lemma StopWaitsForOld(s: State)
    requires Fresh(s)
    ensures var t := Run(s, FIRST_HALF);
            && t.up && t.lock.None? && !t.flags.halted && t.calls == map[1 := StopWait(0)]
            && t.loops.task == Some(1) && t.loops.next == 2 && Live(t.loops, 1) && !Live(t.loops, 0)
  {
    var a, b, c := [Begin(0, Start), Go(0), Go(0), Go(0)], [Begin(1, Stop), Go(1), Go(1), Go(1)], [TaskEnds(0), Begin(2, Start)] + [Go(2), Go(2)] + [Go(2), Go(2), Go(2)];
    StartsFresh(s, 0);
    var s1 := Run(s, a);
    StopWaits(s1, 1, 0);
    RunAppend(s, a, b);
    RestartsStale(Run(s1, b), 2, 0);
    RunAppend(s, a + b, c);
  }

  /** Two loops can be alive at once when a stop overlaps a start. */
  lemma OverlapOrphans(s: State)
    requires Fresh(s)
    ensures var l := Run(s, OVERLAP_RUN).loops; Live(l, 1) && Live(l, 2) && l.task == Some(2)
  {
    var d, e := [Go(1)], [Begin(3, Start), Go(3), Go(3), Go(3)];
    StopWaitsForOld(s);
    var s3 := Run(s, FIRST_HALF);
    ClearsOther(s3, 1, 0);
    RunAppend(s, FIRST_HALF, d);
    StartsFresh(Run(s3, d), 3);
    RunAppend(s, FIRST_HALF + d, e);
  }

  /** A stop that waited for a finished task clears whatever the controller refers to. */
  lemma ClearsOther(s: State, c: CallId, t: TaskId)
    requires s.up && s.calls == map[c := StopWait(t)] && !Live(s.loops, t) && s.lock.None?
    ensures Run(s, [Go(c)]) == s.(loops := Cleared(s.loops), calls := map[])
  {
    RunFirst(s, [Go(c)]);
    assert s.calls - {c} == map[];
  }
}
