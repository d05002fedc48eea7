/** When a committed claim is stale: the staleness check is made once, before the claim, and what other
    calls do to the runtime in between decides whether it would still pass. */
module ApprovalStaleness {
  import opened Options
  import opened Sequences
  import opened ApprovalModel
  import opened ApprovalProtocol
  import opened ApprovalSafety
  import opened ApprovalRuns

  // ------------------------------------------------------------------ what others do meanwhile

  /** The two moments a call remembers the runtime of: its staleness check and its snapshot. */
  datatype Moment = Checking | Snapshotting

  /** The action is call `c` passing that moment. */
  predicate Passes(s: State, a: Action, c: CallId, m: Moment) {
    && At(s, c)
    && (match m
        case Checking => a.CheckApprove? && a.c == c && s.calls[c].ApproveRead?
        case Snapshotting => a == SnapshotRuntime(c) && s.calls[c].ApproveValidated?)
  }

  /** Another call's step changes the runtime. */
  predicate OtherMoves(tx: Text, s: State, a: Action, c: CallId) {
    By(a).Some? && a.c != c && Step(tx, s, a).store.rt != s.store.rt
  }

  /** Since call `c` last passed the moment, another call has changed the runtime. */
  predicate Disturbed(tx: Text, s: State, acts: seq<Action>, c: CallId, m: Moment) {
    acts != [] &&
      var t := Run(tx, s, Before(acts));
      !Passes(t, Last(acts), c, m) && (Disturbed(tx, s, Before(acts), c, m) || OtherMoves(tx, t, Last(acts), c))
  }

  /** The call has passed its staleness check and not claimed yet. */
  predicate Waiting(call: Call) { call.ApproveValidated? || call.ApproveSnapshotted? }

  function LiveText(tx: Text, rt: Runtime, p: Param): (s: string) { tx.strip(tx.show(rt.settings[p])) }

  /** The live text of the parameter when call `c` last passed its staleness check, read off the run. */
  function CheckedText(tx: Text, s: State, acts: seq<Action>, c: CallId): (r: Option<string>) {
    if acts == [] then None else
    var t := Run(tx, s, Before(acts));
    var checked := if Passes(t, Last(acts), c, Checking) then Validate(tx, t.calls[c].row, t.store.rt, Last(acts).gates) else None;
    if checked.Some? then Some(LiveText(tx, t.store.rt, checked.value.param)) else CheckedText(tx, s, Before(acts), c)
  }

  // ------------------------------------------------------------------ the invariant

  /** What a waiting call knows: its row's stored text was the live text at its check, and is so still
      if nobody moved the runtime since. */
  ghost predicate CheckOk(tx: Text, s: State, acts: seq<Action>, c: CallId) {
    var t := Run(tx, s, acts);
    c in t.calls && Waiting(t.calls[c]) ==>
      var call, text := t.calls[c], CheckedText(tx, s, acts, c);
      && text.Some? && (call.row.current.Some? ==> tx.strip(call.row.current.value) == text.value)
      && (!Disturbed(tx, s, acts, c, Checking) ==> text.value == LiveText(tx, t.store.rt, call.ok.param))
  }

  /** A waiting call either just passed its check, or waited already with the same row and parameter. */
  lemma WaitsFrom(tx: Text, s: State, a: Action, c: CallId)
    requires c in Step(tx, s, a).calls && Waiting(Step(tx, s, a).calls[c]) && !Passes(s, a, c, Checking)
    ensures c in s.calls && Waiting(s.calls[c])
    ensures Step(tx, s, a).calls[c].row == s.calls[c].row && Step(tx, s, a).calls[c].ok == s.calls[c].ok
  {
    if By(a) == Some(c) {
      OwnWait(tx, s, a);
    } else if By(a).Some? {
      CallFrame(tx, s, a);
      var t := Step(tx, s, a);
      assert c in t.calls - {a.c} && (t.calls - {a.c})[c] == (s.calls - {a.c})[c];
    } else {
      WorldCalls(tx, s, a);
    }
  }

  lemma OwnWait(tx: Text, s: State, a: Action)
    requires By(a).Some? && !Passes(s, a, a.c, Checking)
    requires a.c in StepCall(tx, s, a).calls && Waiting(StepCall(tx, s, a).calls[a.c])
    ensures a.c in s.calls && Waiting(s.calls[a.c])
    ensures StepCall(tx, s, a).calls[a.c].row == s.calls[a.c].row && StepCall(tx, s, a).calls[a.c].ok == s.calls[a.c].ok
  {}

  /** While a call waits, only another call can move the runtime. */
  lemma StillUnlessOther(tx: Text, s: State, a: Action, c: CallId)
    requires CallInv(tx, s) && c in s.calls && Waiting(s.calls[c])
    ensures Step(tx, s, a).store.rt == s.store.rt || OtherMoves(tx, s, a, c)
  {
    if By(a) == Some(c) { OwnStill(tx, s, a); }
    else if By(a).None? { UpStill(tx, s, a); }
  }

  lemma OwnStill(tx: Text, s: State, a: Action)
    requires By(a).Some? && a.c in s.calls && Waiting(s.calls[a.c])
    ensures StepCall(tx, s, a).store.rt == s.store.rt
  {
    if !a.Sync? && !a.Compensate? { CallRuntimeStill(tx, s, a); }
  }

  lemma UpStill(tx: Text, s: State, a: Action)
    requires By(a).None? && s.process.Up?
    ensures StepWorld(tx, s, a).store.rt == s.store.rt
  {
    if a.Boot? { BootNeedsDown(tx, s, a.env, a.faults); }
    else if a.RecoverRecord? { RecoverNeedsStartup(tx, s, a.fault); }
    else { RuntimeStill(tx, s, a); }
  }

  lemma BootNeedsDown(tx: Text, s: State, env: Settings, faults: map<Param, Fault>)
    requires s.process.Up?
    ensures StepBoot(tx, s, env, faults) == s
  {}

  lemma RecoverNeedsStartup(tx: Text, s: State, fault: Fault)
    requires s.process.Up?
    ensures StepRecover(tx, s, fault) == s
  {}

  lemma CheckPassed(tx: Text, s: State, acts: seq<Action>, c: CallId)
    requires acts != [] && Passes(Run(tx, s, Before(acts)), Last(acts), c, Checking)
    ensures CheckOk(tx, s, acts, c)
  {}

  lemma {:induction false} CheckRun(tx: Text, env: Settings, acts: seq<Action>, c: CallId)
    requires TextOk(tx)
    ensures CheckOk(tx, Init(env), acts, c)
  {
    if acts != [] {
      var s, a := Run(tx, Init(env), Before(acts)), Last(acts);
      CheckRun(tx, env, Before(acts), c);
      RunKeeps(tx, Init(env), Before(acts));
      if Passes(s, a, c, Checking) {
        CheckPassed(tx, Init(env), acts, c);
      } else if c in Step(tx, s, a).calls && Waiting(Step(tx, s, a).calls[c]) {
        WaitsFrom(tx, s, a, c);
        StillUnlessOther(tx, s, a, c);
      }
    }
  }

  // ------------------------------------------------------------------ when a claim is stale

  /** A claim that can commit now would pass every check of phase 1 again, but for staleness. */
  lemma OnlyStalenessLeft(tx: Text, st: Store, call: Call)
    requires TextOk(tx) && CallOk(tx, st, call) && call.ApproveSnapshotted? && Actionable(st.rows[call.id].status)
    ensures var row := st.rows[call.id];
            && row.current == call.row.current
            && (Validate(tx, row, st.rt, true).Some? <==>
                  row.current.None? || tx.strip(row.current.value) == LiveText(tx, st.rt, call.ok.param))
  {}

  /** For every run and every claim about to commit: the checks of phase 1 would still pass if and only
      if the row stores no current text, or the live text of its parameter is what it was when the call
      passed its check. */
  lemma StaleIff(tx: Text, env: Settings, acts: seq<Action>, c: CallId)
    requires TextOk(tx) && Claimed(tx, Run(tx, Init(env), acts), Claim(c, true)).Some?
    ensures var s := Run(tx, Init(env), acts);
            var call := s.calls[c];
            && call.id in s.store.rows && CheckedText(tx, Init(env), acts, c).Some?
            && (Validate(tx, s.store.rows[call.id], s.store.rt, true).Some? <==>
                  || s.store.rows[call.id].current.None?
                  || LiveText(tx, s.store.rt, call.ok.param) == CheckedText(tx, Init(env), acts, c).value)
  {
    var s := Run(tx, Init(env), acts);
    RunKeeps(tx, Init(env), acts);
    CheckRun(tx, env, acts, c);
    assert CallOk(tx, s.store, s.calls[c]);
    OnlyStalenessLeft(tx, s.store, s.calls[c]);
  }

  /** If no other call changed the runtime between the check and the claim, the claim is not stale. */
  lemma UndisturbedClaimIsFresh(tx: Text, env: Settings, acts: seq<Action>, c: CallId)
    requires TextOk(tx) && Claimed(tx, Run(tx, Init(env), acts), Claim(c, true)).Some?
    requires !Disturbed(tx, Init(env), acts, c, Checking)
    ensures var s := Run(tx, Init(env), acts);
            s.calls[c].id in s.store.rows && Validate(tx, s.store.rows[s.calls[c].id], s.store.rt, true).Some?
  {
    StaleIff(tx, env, acts, c);
    CheckRun(tx, env, acts, c);
  }
}
