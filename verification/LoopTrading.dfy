/** What a trading loop does: how many executions it begins for what its scans found, what a whole round
    looks like, and how soon it takes notice of a stop or of the flag being switched off. */
module LoopTrading {
  import opened Options
  import opened Sequences
  import opened Controller
  import opened KillSwitch

  function PosOf(s: State, t: TaskId): (p: Pos) { if t in s.loops.tasks then s.loops.tasks[t].pos else Done }

  predicate Moves(a: Action, t: TaskId) { a.TaskStep? && a.t == t }

  // ------------------------------------------------------------------ counts read off a run

  predicate BeginsExecution(s: State, a: Action, t: TaskId) { Moves(a, t) && PosOf(s, t).InCycle? && PosOf(Step(s, a), t).Executing? }

  predicate CompletesScan(s: State, a: Action, t: TaskId) { Moves(a, t) && PosOf(s, t).Scanning? && PosOf(Step(s, a), t).InCycle? }

  predicate BeginsCycle(s: State, a: Action, t: TaskId) { Moves(a, t) && PosOf(s, t).GotFlag? && PosOf(Step(s, a), t).Scanning? }

  function Executions(s: State, acts: seq<Action>, t: TaskId): (n: nat) {
    if acts == [] then 0 else
    Executions(s, Before(acts), t) + if BeginsExecution(Run(s, Before(acts)), Last(acts), t) then 1 else 0
  }

  /** What the completed scans of `t` found, each cut to its limit per cycle. */
  function Found(s: State, acts: seq<Action>, t: TaskId): (n: nat) {
    if acts == [] then 0 else
    Found(s, Before(acts), t)
    + if CompletesScan(Run(s, Before(acts)), Last(acts), t) then Smaller(Last(acts).found, Last(acts).limit) else 0
  }

  function Cycles(s: State, acts: seq<Action>, t: TaskId): (n: nat) {
    if acts == [] then 0 else
    Cycles(s, Before(acts), t) + if BeginsCycle(Run(s, Before(acts)), Last(acts), t) then 1 else 0
  }

  function Smaller(a: nat, b: nat): (r: nat)
    ensures r <= a && r <= b && (r == a || r == b)
  {
    if a < b then a else b
  }

  // ------------------------------------------------------------------ what a step can do to a position

  /** A step of anything but the loop `t` leaves its position alone, ends it, or starts it afresh. */
  lemma OtherStep(s: State, a: Action, t: TaskId)
    requires !Moves(a, t)
    ensures PosOf(Step(s, a), t) == PosOf(s, t) || PosOf(Step(s, a), t).Done? || PosOf(Step(s, a), t).Top?
  {
    if a.Go? && s.up && a.c in s.calls { GoPos(s.loops, s.calls[a.c], t); }
  }

  lemma GoPos(l: Loops, call: Call, t: TaskId)
    ensures var u := LoopsAfter(l, call);
            (t in u.tasks && u.tasks[t].pos.Top?) || ((t in u.tasks <==> t in l.tasks) && (t in l.tasks ==> u.tasks[t].pos == l.tasks[t].pos))
  {}

  lemma OwnStep(s: State, a: Action, t: TaskId)
    requires Moves(a, t)
    ensures PosOf(Step(s, a), t) == if s.up && Live(s.loops, t) then PosAfter(s.loops.tasks[t], s.flags, a.found, a.limit, a.ok) else PosOf(s, t)
  {}

  // ------------------------------------------------------------------ executions are bounded by what was found

  /** The opportunities a loop still has before it. */
  function Ahead(p: Pos): (n: nat) { if p.InCycle? || p.Executing? then p.left else 0 }

  lemma AheadStep(s: State, a: Action, t: TaskId)
    ensures Ahead(PosOf(Step(s, a), t)) + (if BeginsExecution(s, a, t) then 1 else 0) <=
            Ahead(PosOf(s, t)) + if CompletesScan(s, a, t) then Smaller(a.found, a.limit) else 0
  {
    if Moves(a, t) { OwnStep(s, a, t); } else { OtherStep(s, a, t); }
  }

  /** Over every run a loop begins at most as many executions as its completed scans found, each scan cut
      to the limit per cycle, and the ones it had before it at the start. */
  lemma {:induction false} ExecutionsBounded(s: State, acts: seq<Action>, t: TaskId)
    ensures Executions(s, acts, t) + Ahead(PosOf(Run(s, acts), t)) <= Ahead(PosOf(s, t)) + Found(s, acts, t)
  {
    if acts != [] {
      ExecutionsBounded(s, Before(acts), t);
      AheadStep(Run(s, Before(acts)), Last(acts), t);
    }
  }

  /** After an execution that fails, the loop begins no other before its next completed scan. */
  lemma FailureEndsCycle(s: State, a: Action, acts: seq<Action>, t: TaskId)
    requires s.up && Moves(a, t) && PosOf(s, t).Executing? && !a.ok
    ensures Executions(Step(s, a), acts, t) <= Found(Step(s, a), acts, t)
  {
    OwnStep(s, a, t);
    ExecutionsBounded(Step(s, a), acts, t);
  }

  /** Nothing is executed off the books: the executions begun in a run are those of its loops' steps and
      the approved operator commands given while not halted; and likewise its cycles. */
  function StepsExecuting(s: State, acts: seq<Action>): (n: nat) {
    if acts == [] then 0 else
    var t, a := Run(s, Before(acts)), Last(acts);
    StepsExecuting(s, Before(acts))
    + if (a.TaskStep? && BeginsExecution(t, a, a.t)) || (a.Manual? && a.approved && t.up && !t.flags.halted) then 1 else 0
  }

  function StepsCycling(s: State, acts: seq<Action>): (n: nat) {
    if acts == [] then 0 else
    StepsCycling(s, Before(acts)) + if Last(acts).TaskStep? && BeginsCycle(Run(s, Before(acts)), Last(acts), Last(acts).t) then 1 else 0
  }

  lemma CountStep(s: State, a: Action)
    ensures var t := Step(s, a);
            && t.begun == s.begun + (if (a.TaskStep? && BeginsExecution(s, a, a.t)) || (a.Manual? && a.approved && s.up && !s.flags.halted) then 1 else 0)
            && t.cycles == s.cycles + (if a.TaskStep? && BeginsCycle(s, a, a.t) then 1 else 0)
  {
    if a.TaskStep? { TaskCounts(s, a); } else if a.Go? { HaltedGo(s, a.c); }
  }

  lemma TaskCounts(s: State, a: Action)
    requires a.TaskStep?
    ensures var t := StepTask(s, a.t, a.found, a.limit, a.ok);
            && t.begun == s.begun + (if BeginsExecution(s, a, a.t) then 1 else 0)
            && t.cycles == s.cycles + (if BeginsCycle(s, a, a.t) then 1 else 0)
  {
    OwnStep(s, a, a.t);
  }

  lemma {:induction false} AllAccounted(s: State, acts: seq<Action>)
    ensures Run(s, acts).begun == s.begun + StepsExecuting(s, acts)
    ensures Run(s, acts).cycles == s.cycles + StepsCycling(s, acts)
  {
    if acts != [] {
      AllAccounted(s, Before(acts));
      CountStep(Run(s, Before(acts)), Last(acts));
    }
  }

  // ------------------------------------------------------------------ a cycle ends

  /** How many of its own steps a loop has left in its cycle. */
  function CycleSteps(p: Pos): (n: nat) {
    match p
    case InCycle(left) => 2 * left + 1
    case Executing(left) => 2 * left + 2
    case _ => 0
  }

  lemma {:induction false} CycleRun(s: State, acts: seq<Action>, t: TaskId)
    requires s.up && forall k :: 0 <= k <= |acts| ==> CycleSteps(PosOf(Run(s, acts[..k]), t)) > 0
    ensures Run(s, acts).up && CycleSteps(PosOf(Run(s, acts), t)) + OwnSteps(acts, t) <= CycleSteps(PosOf(s, t))
  {
    if acts != [] {
      var init := Before(acts);
      assert acts[..|init|] == init && acts[..|acts|] == acts && forall k :: 0 <= k <= |init| ==> init[..k] == acts[..k];
      CycleRun(s, init, t);
      assert CycleSteps(PosOf(Run(s, acts[..|acts|]), t)) > 0;
      assert CycleSteps(PosOf(Run(s, acts[..|init|]), t)) > 0;
      CycleStep(Run(s, init), Last(acts), t);
    }
  }

  lemma CycleStep(s: State, a: Action, t: TaskId)
    requires s.up && CycleSteps(PosOf(s, t)) > 0 && CycleSteps(PosOf(Step(s, a), t)) > 0
    ensures Step(s, a).up
    ensures CycleSteps(PosOf(Step(s, a), t)) + (if Moves(a, t) then 1 else 0) <= CycleSteps(PosOf(s, t))
  {
    if Moves(a, t) { OwnStep(s, a, t); } else { OtherStep(s, a, t); }
  }

  /** A cycle with `n` opportunities before it is over after at most 2n + 1 steps of the loop, halted or not. */
  lemma CycleEnds(s: State, acts: seq<Action>, t: TaskId, n: nat)
    requires s.up && PosOf(s, t) == InCycle(n) && OwnSteps(acts, t) >= 2 * n + 1
    ensures exists k :: 0 <= k <= |acts| && !PosOf(Run(s, acts[..k]), t).InCycle? && !PosOf(Run(s, acts[..k]), t).Executing?
  {
    if forall k :: 0 <= k <= |acts| ==> CycleSteps(PosOf(Run(s, acts[..k]), t)) > 0 {
      CycleRun(s, acts, t);
      assert acts[..|acts|] == acts;
      assert CycleSteps(PosOf(Run(s, acts[..|acts|]), t)) > 0;
      assert false;
    }
    var k :| 0 <= k <= |acts| && CycleSteps(PosOf(Run(s, acts[..k]), t)) == 0;
  }

  // ------------------------------------------------------------------ a whole round

  function Times(a: Action, n: nat): (acts: seq<Action>) { seq(n, _ => a) }

  lemma TimesMore(s: State, next: State, a: Action, n: nat)
    requires Step(s, a) == next
    ensures Run(s, Times(a, n + 1)) == Run(next, Times(a, n))
  {
    RunFirst(s, Times(a, n + 1));
    assert Times(a, n + 1)[1..] == Times(a, n);
  }

  /** The state with loop `t` at `p` and the counters moved on. */
  function Placed(s: State, t: TaskId, p: Pos, cycles: nat, begun: nat): (r: State)
    requires t in s.loops.tasks
  {
    s.(loops := AtPos(s.loops, t, p), cycles := s.cycles + cycles, begun := s.begun + begun)
  }

  /** Nothing holds the loop back: no kill switch, the flag and the guard on, no stop signal. */
  predicate Free(s: State, t: TaskId) {
    s.up && !s.flags.halted && s.flags.auto && s.flags.enabled && t in s.loops.tasks && !s.loops.tasks[t].stopping
  }

  lemma PlacedStep(s: State, t: TaskId, p: Pos, c: nat, b: nat, found: nat, limit: nat)
    requires Free(s, t) && !p.Done?
    ensures var q := PosAfter(Task(p, false), s.flags, found, limit, true);
            !q.Done? ==> Step(Placed(s, t, p, c, b), TaskStep(t, found, limit, true)) ==
                         Placed(s, t, q, c + (if q.Scanning? then 1 else 0), b + (if q.Executing? then 1 else 0))
  {
    var u := Placed(s, t, p, c, b);
    assert u.loops.tasks[t] == Task(p, false);
    assert forall q :: s.loops.tasks[t := s.loops.tasks[t].(pos := p)][t := Task(q, false)] == s.loops.tasks[t := s.loops.tasks[t].(pos := q)];
  }

  /** Every opportunity is executed once: 2n steps from the start of a cycle with n of them begin n executions. */
  lemma {:induction false} CycleExecutesAll(s: State, t: TaskId, n: nat, c: nat, b: nat, found: nat, limit: nat)
    requires Free(s, t)
    ensures Run(Placed(s, t, InCycle(n), c, b), Times(TaskStep(t, found, limit, true), 2 * n)) == Placed(s, t, InCycle(0), c, b + n)
  {
    if n > 0 {
      ExecutesOne(s, t, n, c, b, found, limit);
      CycleExecutesAll(s, t, n - 1, c, b + 1, found, limit);
    }
  }

  lemma ExecutesOne(s: State, t: TaskId, n: nat, c: nat, b: nat, found: nat, limit: nat)
    requires Free(s, t) && n > 0
    ensures var a := TaskStep(t, found, limit, true);
            Run(Placed(s, t, InCycle(n), c, b), Times(a, 2 * n)) == Run(Placed(s, t, InCycle(n - 1), c, b + 1), Times(a, 2 * (n - 1)))
  {
    var a := TaskStep(t, found, limit, true);
    var s1, s2, s3 := Placed(s, t, InCycle(n), c, b), Placed(s, t, Executing(n - 1), c, b + 1), Placed(s, t, InCycle(n - 1), c, b + 1);
    assert Step(s1, a) == s2 by { PlacedStep(s, t, InCycle(n), c, b, found, limit); }
    assert Step(s2, a) == s3 by { PlacedStep(s, t, Executing(n - 1), c, b + 1, found, limit); }
    TimesMore(s1, s2, a, 2 * n - 1);
    TimesMore(s2, s3, a, 2 * n - 2);
  }

  lemma FourSteps(s: State, t: TaskId, found: nat, limit: nat)
    requires Free(s, t)
    ensures Run(Placed(s, t, Top, 0, 0), Times(TaskStep(t, found, limit, true), 4)) == Placed(s, t, InCycle(Smaller(found, limit)), 1, 0)
  {
    var a := TaskStep(t, found, limit, true);
    var s1, s2, s3 := Placed(s, t, Top, 0, 0), Placed(s, t, AskingFlag, 0, 0), Placed(s, t, GotFlag(true), 0, 0);
    assert Step(s1, a) == s2 by { PlacedStep(s, t, Top, 0, 0, found, limit); }
    assert Step(s2, a) == s3 by { PlacedStep(s, t, AskingFlag, 0, 0, found, limit); }
    TimesMore(s1, s2, a, 3);
    TimesMore(s2, s3, a, 2);
    IntoCycle(s, t, found, limit);
  }

  lemma IntoCycle(s: State, t: TaskId, found: nat, limit: nat)
    requires Free(s, t)
    ensures Run(Placed(s, t, GotFlag(true), 0, 0), Times(TaskStep(t, found, limit, true), 2)) == Placed(s, t, InCycle(Smaller(found, limit)), 1, 0)
  {
    var a := TaskStep(t, found, limit, true);
    var s1, s2, s3 := Placed(s, t, GotFlag(true), 0, 0), Placed(s, t, Scanning, 1, 0), Placed(s, t, InCycle(Smaller(found, limit)), 1, 0);
    assert Step(s1, a) == s2 by { PlacedStep(s, t, GotFlag(true), 0, 0, found, limit); }
    assert Step(s2, a) == s3 by { PlacedStep(s, t, Scanning, 1, 0, found, limit); }
    TimesMore(s1, s2, a, 1);
    TimesMore(s2, s3, a, 0);
  }

  lemma ThreeSteps(s: State, t: TaskId, b: nat, found: nat, limit: nat)
    requires Free(s, t)
    ensures Run(Placed(s, t, InCycle(0), 1, b), Times(TaskStep(t, found, limit, true), 3)) == Placed(s, t, Top, 1, b)
  {
    var a := TaskStep(t, found, limit, true);
    var s1, s2, s3, s4 := Placed(s, t, InCycle(0), 1, b), Placed(s, t, Ticking, 1, b), Placed(s, t, Waiting, 1, b), Placed(s, t, Top, 1, b);
    assert Step(s1, a) == s2 by { PlacedStep(s, t, InCycle(0), 1, b, found, limit); }
    assert Step(s2, a) == s3 by { PlacedStep(s, t, Ticking, 1, b, found, limit); }
    assert Step(s3, a) == s4 by { PlacedStep(s, t, Waiting, 1, b, found, limit); }
    TimesMore(s1, s2, a, 2);
    TimesMore(s2, s3, a, 1);
    TimesMore(s3, s4, a, 0);
  }

  /** An undisturbed round of a loop nothing holds back: it begins one cycle, executes each opportunity
      found up to the limit once, and comes back to its start, changing nothing else. */
  lemma WholeRound(s: State, t: TaskId, found: nat, limit: nat)
    requires Free(s, t) && PosOf(s, t).Top?
    ensures var a, n := TaskStep(t, found, limit, true), Smaller(found, limit);
            Run(s, Times(a, 4) + Times(a, 2 * n) + Times(a, 3)) == s.(cycles := s.cycles + 1, begun := s.begun + n)
  {
    var a, n := TaskStep(t, found, limit, true), Smaller(found, limit);
    RoundPlaced(s, t, found, limit);
    PlacedTop(s, t, 0, 0);
    PlacedTop(s, t, 1, n);
  }

  lemma RoundPlaced(s: State, t: TaskId, found: nat, limit: nat)
    requires Free(s, t)
    ensures var a, n := TaskStep(t, found, limit, true), Smaller(found, limit);
            Run(Placed(s, t, Top, 0, 0), Times(a, 4) + Times(a, 2 * n) + Times(a, 3)) == Placed(s, t, Top, 1, n)
  {
    var a, n := TaskStep(t, found, limit, true), Smaller(found, limit);
    FourSteps(s, t, found, limit);
    CycleExecutesAll(s, t, n, 1, 0, found, limit);
    ThreeSteps(s, t, n, found, limit);
    Appended(Placed(s, t, Top, 0, 0), Placed(s, t, InCycle(n), 1, 0), Placed(s, t, InCycle(0), 1, n), Times(a, 4), Times(a, 2 * n), Times(a, 3));
  }

  lemma PlacedTop(s: State, t: TaskId, c: nat, b: nat)
    requires t in s.loops.tasks && s.loops.tasks[t].pos.Top?
    ensures Placed(s, t, Top, c, b) == s.(cycles := s.cycles + c, begun := s.begun + b)
  {
    assert s.loops.tasks[t := s.loops.tasks[t].(pos := Top)] == s.loops.tasks;
  }

  lemma Appended(s: State, t: State, u: State, first: seq<Action>, second: seq<Action>, third: seq<Action>)
    requires Run(s, first) == t && Run(t, second) == u
    ensures Run(s, first + second + third) == Run(u, third)
  {
    RunAppend(s, first, second);
    RunAppend(s, first + second, third);
  }

  // ------------------------------------------------------------------ stops

  /** An execution begins only for an opportunity the risk check approved, and not while halted; one it
      refuses is passed over. */
  lemma ExecutionsAreApproved(s: State, a: Action, t: TaskId)
    requires Moves(a, t) && PosOf(s, t).InCycle? && s.up
    ensures BeginsExecution(s, a, t) <==> a.ok && !s.flags.halted && PosOf(s, t).left > 0
    ensures !a.ok && !s.flags.halted && PosOf(s, t).left > 0 ==> PosOf(Step(s, a), t) == InCycle(PosOf(s, t).left - 1)
  {
    OwnStep(s, a, t);
  }

  /** A cycle begins only with the guard open and a flag that was read as on. */
  lemma CyclesAreGuarded(s: State, a: Action, t: TaskId)
    requires BeginsCycle(s, a, t)
    ensures s.flags.enabled && !s.flags.halted && PosOf(s, t) == GotFlag(true)
  {
    OwnStep(s, a, t);
  }

  /** At start-up the guard is opened only if the persisted flag says so. */
  lemma RestoreFollowsFlag(s: State)
    requires s.up
    ensures Step(s, RestoreFlag).flags == s.flags.(enabled := s.flags.enabled || s.flags.auto)
  {}

  /** The loop has looked at the stop signal already and not yet begun its cycle. */
  function Committed(p: Pos): (n: nat) { if p.AskingFlag? || p.GotFlag? then 1 else 0 }

  lemma StopStep(s: State, a: Action, t: TaskId)
    requires LockInv(s) && !a.Crash? && t in s.loops.tasks && s.loops.tasks[t].stopping
    ensures var u := Step(s, a);
            && t in u.loops.tasks && u.loops.tasks[t].stopping
            && Committed(PosOf(u, t)) + (if BeginsCycle(s, a, t) then 1 else 0) <= Committed(PosOf(s, t))
  {
    if Moves(a, t) { OwnStep(s, a, t); }
    else if a.Go? && s.up && a.c in s.calls { GoKeepsStopping(s.loops, s.calls[a.c], t); }
  }

  lemma GoKeepsStopping(l: Loops, call: Call, t: TaskId)
    requires LoopsInv(l) && t in l.tasks && l.tasks[t].stopping
    ensures var u := LoopsAfter(l, call); t in u.tasks && u.tasks[t] == l.tasks[t]
  {}

  /** A loop with its stop signal set begins no further cycle, but for the one it was about to begin. */
  lemma {:induction false} StopIsHeeded(s: State, acts: seq<Action>, t: TaskId)
    requires LockInv(s) && NoCrash(acts) && t in s.loops.tasks && s.loops.tasks[t].stopping
    ensures LockInv(Run(s, acts)) && t in Run(s, acts).loops.tasks && Run(s, acts).loops.tasks[t].stopping
    ensures Cycles(s, acts, t) + Committed(PosOf(Run(s, acts), t)) <= Committed(PosOf(s, t))
  {
    if acts != [] {
      StopIsHeeded(s, Before(acts), t);
      LockStep(Run(s, Before(acts)), Last(acts));
      StopStep(Run(s, Before(acts)), Last(acts), t);
    }
  }

  /** The loop has read the flag as on and not yet begun its cycle. */
  function ReadOn(p: Pos): (n: nat) { if p == GotFlag(true) then 1 else 0 }

  lemma OffStep(s: State, a: Action, t: TaskId)
    requires !s.flags.auto
    ensures ReadOn(PosOf(Step(s, a), t)) + (if BeginsCycle(s, a, t) then 1 else 0) <= ReadOn(PosOf(s, t))
  {
    if Moves(a, t) { OwnStep(s, a, t); } else { OtherStep(s, a, t); }
  }

  /** While the flag is off a loop begins no cycle, but for the one whose flag it had read as on. */
  lemma {:induction false} FlagIsHeeded(s: State, acts: seq<Action>, t: TaskId)
    requires forall k :: 0 <= k < |acts| ==> !Run(s, acts[..k]).flags.auto
    ensures Cycles(s, acts, t) + ReadOn(PosOf(Run(s, acts), t)) <= ReadOn(PosOf(s, t))
  {
    if acts != [] {
      var init := Before(acts);
      assert acts[..|init|] == init && forall k :: 0 <= k < |init| ==> init[..k] == acts[..k];
      FlagIsHeeded(s, init, t);
      assert !Run(s, acts[..|init|]).flags.auto;
      OffStep(Run(s, init), Last(acts), t);
    }
  }
}
