/** Where the guarantees end: runs, from any idle running state, in which compensation undoes another
    approval, a recovered record overrides a newer one, a stale approval commits, and a text that
    startup refuses is approved. With them, the condition on the proposals under which startup never refuses. */
module ApprovalWitness {
  import opened Options
  import opened Sequences
  import opened PyText
  import opened ApprovalModel
  import opened ApprovalProtocol
  import opened ApprovalSafety
  import opened ApprovalRuns
  import opened ApprovalRecovery
  import opened ApprovalConvergence

  // ------------------------------------------------------------------ the stages of one approval

  function Prepare(c: CallId, id: Id, who: string): (acts: seq<Action>) {
    [BeginApprove(c, id, who), CheckApprove(c, true), SnapshotRuntime(c)]
  }

  function Succeed(c: CallId): (acts: seq<Action>) { [Claim(c, true), Sync(c, NoFault), MarkApplied(c, true)] }

  function Fail(c: CallId): (acts: seq<Action>) { [Claim(c, true), Sync(c, BuildFault), MarkFailed(c, true), Compensate(c)] }

  /** `row` of `id` passes every check of `approve` right now. */
  ghost predicate Ready(tx: Text, s: State, id: Id, ok: Validated) {
    && id in s.store.rows && tx.strip(id) != "" && id != ""
    && Validate(tx, s.store.rows[id], s.store.rt, true) == Some(ok)
  }

  lemma PrepareRun(tx: Text, s: State, c: CallId, id: Id, who: string, ok: Validated)
    requires s.process.Up? && c !in s.calls && tx.strip(who) != "" && Ready(tx, s, id, ok)
    ensures Run(tx, s, Prepare(c, id, who)) == Moved(s, c, ApproveSnapshotted(id, s.store.rows[id], ok, s.store.rt))
  {
    var row := s.store.rows[id];
    var s1 := Moved(s, c, ApproveRead(id, row));
    var s2 := Moved(s1, c, ApproveValidated(id, row, ok));
    assert StepBegin(tx, s, BeginApprove(c, id, who)) == s1;
    assert StepCheck(tx, s1, c, true) == s2;
    assert StepSnapshot(s2, c) == Moved(s, c, ApproveSnapshotted(id, row, ok, s.store.rt));
    RunThree(tx, s, BeginApprove(c, id, who), CheckApprove(c, true), SnapshotRuntime(c));
  }

  /** The store once the claim of a prepared call is committed and its record has status `to`. */
  function Committed(tx: Text, st: Store, id: Id, row: Row, ok: Validated, to: ApplyStatus): (r: Store)
    requires id in st.rows
  {
    st.(rows := st.rows[id := st.rows[id].(status := Approved, version := row.version + 1)],
        config := st.config[ok.param := ok.raw],
        records := st.records[id := Record(tx.name(ok.param), ok.raw, to)])
  }

  predicate Prepared(s: State, c: CallId) {
    && At(s, c) && s.calls[c].ApproveSnapshotted? && s.calls[c].id in s.store.rows
    && Actionable(s.store.rows[s.calls[c].id].status)
  }

  lemma ClaimRun(tx: Text, s: State, c: CallId)
    requires Prepared(s, c)
    ensures var call := s.calls[c];
            StepClaim(tx, s, c, true)
            == Moved(s.(store := Committed(tx, s.store, call.id, call.row, call.ok, Applying)), c, ApproveClaimed(call.id, call.ok, call.snap))
  {}

  lemma SucceedRun(tx: Text, s: State, c: CallId)
    requires Prepared(s, c) && tx.accept(s.calls[c].ok.param, s.calls[c].ok.raw) == Some(s.calls[c].ok.value)
    requires Canonical(tx, s.calls[c].ok.param, s.calls[c].ok.raw)
    ensures var call := s.calls[c];
            Run(tx, s, Succeed(c))
            == Ended(s.(store := Committed(tx, s.store, call.id, call.row, call.ok, Applied)
                                   .(rt := Installed(s.store.rt, call.ok.param, call.ok.value))), c)
  {
    var call := s.calls[c];
    RunThree(tx, s, Claim(c, true), Sync(c, NoFault), MarkApplied(c, true));
    ClaimRun(tx, s, c);
    var s1 := StepClaim(tx, s, c, true);
    var s2 := StepSync(tx, s1, c, NoFault);
    var rt := Installed(s.store.rt, call.ok.param, call.ok.value);
    assert s2 == Moved(s1.(store := s1.store.(rt := rt)), c, ApproveSynced(call.id, call.ok)) by {
      SyncExact(tx, s1.store.rt, call.ok.param, call.ok.raw);
    }
    MarkAppliedRun(tx, s2, c);
    assert s2.calls - {c} == s.calls - {c};
    assert s1.store.records[call.id := Record(tx.name(call.ok.param), call.ok.raw, Applied)]
        == s.store.records[call.id := Record(tx.name(call.ok.param), call.ok.raw, Applied)];
  }

  lemma MarkAppliedRun(tx: Text, s: State, c: CallId)
    requires At(s, c) && s.calls[c].ApproveSynced?
    ensures StepMarkApplied(tx, s, c, true)
            == Ended(s.(store := Marked(tx, s.store, s.calls[c].id, s.calls[c].ok.param, s.calls[c].ok.raw, Applied)), c)
  {}

  lemma FailRun(tx: Text, s: State, c: CallId)
    requires Prepared(s, c)
    ensures var call := s.calls[c];
            Run(tx, s, Fail(c)) == Ended(s.(store := Committed(tx, s.store, call.id, call.row, call.ok, Failed).(rt := call.snap)), c)
  {
    var call := s.calls[c];
    RunThree(tx, s, Claim(c, true), Sync(c, BuildFault), MarkFailed(c, true));
    RunLast(tx, s, [Claim(c, true), Sync(c, BuildFault), MarkFailed(c, true)], Compensate(c));
    assert [Claim(c, true), Sync(c, BuildFault), MarkFailed(c, true)] + [Compensate(c)] == Fail(c);
    ClaimRun(tx, s, c);
    var s1 := StepClaim(tx, s, c, true);
    var s2 := StepSync(tx, s1, c, BuildFault);
    assert s2 == Moved(s1, c, ApproveFaulted(call.id, call.ok, call.snap));
    FailMarkRun(tx, s2, c);
    assert s2.calls - {c} == s.calls - {c};
    assert s1.store.records[call.id := Record(tx.name(call.ok.param), call.ok.raw, Failed)]
        == s.store.records[call.id := Record(tx.name(call.ok.param), call.ok.raw, Failed)];
  }

  lemma FailMarkRun(tx: Text, s: State, c: CallId)
    requires At(s, c) && s.calls[c].ApproveFaulted?
    ensures var call := s.calls[c];
            StepCompensate(StepMarkFailed(tx, s, c, true), c)
            == Ended(s.(store := Marked(tx, s.store, call.id, call.ok.param, call.ok.raw, Failed).(rt := call.snap)), c)
  {
    var t := StepMarkFailed(tx, s, c, true);
    assert t.calls - {c} == s.calls - {c};
  }

  /** Idle running states with two given recommendations are reachable. */
  lemma FreshStart(tx: Text, env: Settings, a: Id, rowA: Row, b: Id, rowB: Row)
    requires TextOk(tx) && a != b && !rowA.status.Approved? && !rowB.status.Approved?
    ensures Run(tx, Init(env), [Boot(env, map[]), LoadRecords([])] + [FinishBoot, Create(a, rowA), Create(b, rowB)])
            == State(Store(map[a := rowA, b := rowB], map[], map[], FromEnvironment(env)), Up, map[])
  {
    var s := Init(env);
    BootsUp(tx, env);
    var t := State(s.store, Recovering([]), map[]);
    RunAppend(tx, s, [Boot(env, map[]), LoadRecords([])], [FinishBoot, Create(a, rowA), Create(b, rowB)]);
    RunThree(tx, t, FinishBoot, Create(a, rowA), Create(b, rowB));
    assert map[a := rowA][b := rowB] == map[a := rowA, b := rowB];
  }

  lemma BootsUp(tx: Text, env: Settings)
    ensures Run(tx, Init(env), [Boot(env, map[]), LoadRecords([])]) == State(Init(env).store, Recovering([]), map[])
  {
    RunTwo(tx, Init(env), Boot(env, map[]), LoadRecords([]));
    BootNothing(tx, SORTED_PARAMS, FromEnvironment(env));
    assert StepBoot(tx, Init(env), env, map[]) == State(Init(env).store, Configured, map[]);
  }

  lemma {:induction false} BootNothing(tx: Text, ps: seq<Param>, rt: Runtime)
    ensures ApplyOverrides(tx, ps, map[], rt, map[]) == Some(rt)
  {
    if ps != [] { BootNothing(tx, ps[1..], rt); }
  }

  // ------------------------------------------------------------------ what can go wrong

  /** Two recommendations for the same or different parameters, both approvable now. */
  ghost predicate TwoReady(tx: Text, s: State, a: Id, okA: Validated, b: Id, okB: Validated, who: string) {
    && s.process.Up? && s.calls == map[] && a != b && tx.strip(who) != ""
    && Ready(tx, s, a, okA) && Ready(tx, s, b, okB)
  }

  /** Both are checked and snapshotted, then the second runs to `applied`. */
  lemma BothThenSecond(tx: Text, s: State, a: Id, okA: Validated, b: Id, okB: Validated, who: string)
    requires TextOk(tx) && TwoReady(tx, s, a, okA, b, okB, who) && Canonical(tx, okB.param, okB.raw)
    ensures Run(tx, s, Prepare(0, a, who) + Prepare(1, b, who) + Succeed(1))
            == State(Committed(tx, s.store, b, s.store.rows[b], okB, Applied).(rt := Installed(s.store.rt, okB.param, okB.value)),
                     Up, map[0 := ApproveSnapshotted(a, s.store.rows[a], okA, s.store.rt)])
  {
    ValidateGives(tx, s.store.rows[b], s.store.rt, true);
    BothPrepared(tx, s, a, okA, b, okB, who);
    var s2 := Run(tx, s, Prepare(0, a, who) + Prepare(1, b, who));
    SucceedRun(tx, s2, 1);
    RunAppend(tx, s, Prepare(0, a, who) + Prepare(1, b, who), Succeed(1));
    assert s2.calls - {1} == map[0 := ApproveSnapshotted(a, s.store.rows[a], okA, s.store.rt)];
  }

  lemma BothPrepared(tx: Text, s: State, a: Id, okA: Validated, b: Id, okB: Validated, who: string)
    requires TwoReady(tx, s, a, okA, b, okB, who)
    ensures Run(tx, s, Prepare(0, a, who) + Prepare(1, b, who))
            == s.(calls := map[0 := ApproveSnapshotted(a, s.store.rows[a], okA, s.store.rt), 1 := ApproveSnapshotted(b, s.store.rows[b], okB, s.store.rt)])
  {
    PrepareRun(tx, s, 0, a, who, okA);
    var s1 := Run(tx, s, Prepare(0, a, who));
    PrepareRun(tx, s1, 1, b, who, okB);
    RunAppend(tx, s, Prepare(0, a, who), Prepare(1, b, who));
  }

  /** Compensation undoes another approval: the first call's synchronisation fails after the second
      call finished, and its old snapshot takes the second call's applied value out of the runtime. */
  lemma CompensationUndoesApplied(tx: Text, s: State, a: Id, okA: Validated, b: Id, okB: Validated, who: string)
    requires TextOk(tx) && TwoReady(tx, s, a, okA, b, okB, who) && Canonical(tx, okB.param, okB.raw)
    requires okA.param != okB.param && s.store.rt.settings[okB.param] != okB.value
    ensures var t := Run(tx, s, Prepare(0, a, who) + Prepare(1, b, who) + Succeed(1) + Fail(0));
            && t.calls == map[] && t.store.rt == s.store.rt
            && b in t.store.records && t.store.records[b] == Record(tx.name(okB.param), okB.raw, Applied)
            && okB.param in t.store.config && t.store.config[okB.param] == okB.raw
            && !Holds(tx, t.store.rt, okB.param, okB.raw)
  {
    ValidateGives(tx, s.store.rows[a], s.store.rt, true);
    ValidateGives(tx, s.store.rows[b], s.store.rt, true);
    BothThenSecond(tx, s, a, okA, b, okB, who);
    var acts := Prepare(0, a, who) + Prepare(1, b, who) + Succeed(1);
    var u := Run(tx, s, acts);
    assert u.store.rows[a] == s.store.rows[a];
    FailRun(tx, u, 0);
    RunAppend(tx, s, acts, Fail(0));
  }

  /** A stale approval commits: the second call changes the parameter after the first one's staleness
      check, and the first claim still commits although the check would now refuse it. */
  lemma StaleClaimCommits(tx: Text, s: State, a: Id, okA: Validated, b: Id, okB: Validated, who: string)
    requires TextOk(tx) && TwoReady(tx, s, a, okA, b, okB, who) && Canonical(tx, okB.param, okB.raw)
    requires okA.param == okB.param && s.store.rows[a].current.Some?
    requires tx.strip(s.store.rows[a].current.value) != okB.raw
    ensures var t := Run(tx, s, Prepare(0, a, who) + Prepare(1, b, who) + Succeed(1));
            && a in t.store.rows && t.store.rows[a] == s.store.rows[a]
            && Validate(tx, t.store.rows[a], t.store.rt, true).None?
            && Claimed(tx, t, Claim(0, true)).Some?
  {
    ValidateGives(tx, s.store.rows[a], s.store.rt, true);
    ValidateGives(tx, s.store.rows[b], s.store.rt, true);
    BothThenSecond(tx, s, a, okA, b, okB, who);
  }

  /** The first approval fails after its claim, the second one of the same parameter is applied, and
      the process dies. */
  function OlderUnfinished(a: Id, b: Id, who: string): (acts: seq<Action>) {
    Prepare(0, a, who) + Fail(0) + Prepare(1, b, who) + Succeed(1) + [Crash]
  }

  lemma OlderUnfinishedRun(tx: Text, s: State, a: Id, okA: Validated, b: Id, okB: Validated, who: string)
    requires TextOk(tx) && TwoReady(tx, s, a, okA, b, okB, who) && Canonical(tx, okB.param, okB.raw)
    ensures var t := Run(tx, s, OlderUnfinished(a, b, who));
            var st := Committed(tx, s.store, a, s.store.rows[a], okA, Failed);
            t == State(Committed(tx, st, b, s.store.rows[b], okB, Applied).(rt := t.store.rt), Down, map[])
  {
    ValidateGives(tx, s.store.rows[a], s.store.rt, true);
    ValidateGives(tx, s.store.rows[b], s.store.rt, true);
    var acts := Prepare(0, a, who);
    PrepareRun(tx, s, 0, a, who, okA);
    var s1 := Run(tx, s, acts);
    FailRun(tx, s1, 0);
    RunAppend(tx, s, acts, Fail(0));
    var s2 := Run(tx, s, acts + Fail(0));
    assert s2 == State(Committed(tx, s.store, a, s.store.rows[a], okA, Failed), Up, map[]);
    PrepareRun(tx, s2, 1, b, who, okB);
    RunAppend(tx, s, acts + Fail(0), Prepare(1, b, who));
    SecondThenCrash(tx, s, s2, acts + Fail(0) + Prepare(1, b, who), b, okB);
  }

  lemma SecondThenCrash(tx: Text, s: State, s2: State, acts: seq<Action>, b: Id, ok: Validated)
    requires s2.process.Up? && s2.calls == map[] && b in s2.store.rows && Actionable(s2.store.rows[b].status)
    requires tx.accept(ok.param, ok.raw) == Some(ok.value) && Canonical(tx, ok.param, ok.raw)
    requires Run(tx, s, acts) == Moved(s2, 1, ApproveSnapshotted(b, s2.store.rows[b], ok, s2.store.rt))
    ensures var t := Run(tx, s, acts + Succeed(1) + [Crash]);
            t == State(Committed(tx, s2.store, b, s2.store.rows[b], ok, Applied).(rt := t.store.rt), Down, map[])
  {
    SucceedRun(tx, Run(tx, s, acts), 1);
    RunAppend(tx, s, acts, Succeed(1));
    RunLast(tx, s, acts + Succeed(1), Crash);
  }

  /** A recovered record overrides a newer approval: if the process dies with the older record still
      unfinished, the next startup returns normally, in every record order, with the older value live
      while the desired value is the newer one. */
  lemma OlderRecordWins(tx: Text, s: State, a: Id, okA: Validated, b: Id, okB: Validated, who: string, env: Settings, order: seq<Id>)
    requires TextOk(tx) && Inv(tx, s) && TwoReady(tx, s, a, okA, b, okB, who)
    requires okA.param == okB.param && Canonical(tx, okA.param, okA.raw) && Canonical(tx, okB.param, okB.raw)
    requires Acceptable(tx, s.store) && NoneOpen(tx, s.store, okA.param)
    requires Lists(order, Run(tx, s, OlderUnfinished(a, b, who)).store.records.Keys)
    ensures var st := Run(tx, s, OlderUnfinished(a, b, who)).store;
            && okA.param in st.config && st.config[okA.param] == okB.raw
            && CleanReconcile(tx, st, env, order).1
            && Live(CleanReconcile(tx, st, env, order).0.rt, okA.param, okA.value)
  {
    OlderUnfinishedRun(tx, s, a, okA, b, okB, who);
    var st := Run(tx, s, OlderUnfinished(a, b, who)).store;
    ValidateGives(tx, s.store.rows[a], s.store.rt, true);
    ValidateGives(tx, s.store.rows[b], s.store.rt, true);
    NewRecords(tx, s, a, b);
    OnlyOlder(tx, s.store, st, a, okA, b, okB);
    StartupAccepts(tx, st, env, order);
    ExactRecovery(tx, st, env, order, map[], map[], okA.param);
    LastIsOne(tx, st.records, order, okA.param);
    SomeIsLast(tx, st.records, order, okA.param, a);
  }

  lemma NewRecords(tx: Text, s: State, a: Id, b: Id)
    requires Inv(tx, s) && a in s.store.rows && b in s.store.rows
    requires Actionable(s.store.rows[a].status) && Actionable(s.store.rows[b].status)
    ensures a !in s.store.records && b !in s.store.records
  {
    assert forall id :: id in s.store.records ==> RecordOk(tx, s.store, id);
  }

  lemma OnlyOlder(tx: Text, st: Store, t: Store, a: Id, okA: Validated, b: Id, okB: Validated)
    requires TextOk(tx) && a != b && okA.param == okB.param && Acceptable(tx, st) && NoneOpen(tx, st, okA.param)
    requires Canonical(tx, okA.param, okA.raw) && Canonical(tx, okB.param, okB.raw)
    requires a !in st.records && b !in st.records && a != "" && okA.raw != "" && tx.name(okA.param) != ""
    requires t.config == st.config[okA.param := okA.raw][okB.param := okB.raw]
    requires t.records == st.records[a := Record(tx.name(okA.param), okA.raw, Failed)][b := Record(tx.name(okB.param), okB.raw, Applied)]
    ensures Acceptable(tx, t)
    ensures forall id :: id in t.records ==> (Concerns(tx, t.records[id], okA.param) <==> id == a)
  {
    assert tx.lookup(tx.name(okA.param)) == Some(okA.param);
    forall id | id in t.records && id != a && id != b ensures t.records[id] == st.records[id] && !Concerns(tx, st.records[id], okA.param) {}
    assert RecordAcceptable(tx, a, t.records[a]);
  }

  lemma {:induction false} SomeIsLast(tx: Text, records: map<Id, Record>, order: seq<Id>, p: Param, id: Id)
    requires id in order && id in records && Concerns(tx, records[id], p)
    ensures LastUnfinished(tx, records, order, p).Some?
  {
    if order[0] != id { SomeIsLast(tx, records, order[1..], p, id); }
  }

  // ------------------------------------------------------------------ proposals that block startup

  /** Approving a proposal that does not print back to itself commits it, and from the moment that
      process dies no restart, in any environment, ever succeeds again. */
  lemma NonCanonicalApprovalBlocks(tx: Text, s: State, id: Id, ok: Validated, who: string, more: seq<Action>)
    requires TextOk(tx) && s.process.Up? && s.calls == map[] && tx.strip(who) != "" && Ready(tx, s, id, ok)
    requires !Canonical(tx, ok.param, ok.raw)
    ensures !Run(tx, s, Prepare(0, id, who) + [Claim(0, true), Crash] + more).process.Up?
  {
    ValidateGives(tx, s.store.rows[id], s.store.rt, true);
    var acts := Prepare(0, id, who);
    PrepareRun(tx, s, 0, id, who, ok);
    var s1 := Run(tx, s, acts);
    ClaimRun(tx, s1, 0);
    RunTwo(tx, s1, Claim(0, true), Crash);
    RunAppend(tx, s, acts, [Claim(0, true), Crash]);
    var t := Run(tx, s, acts + [Claim(0, true), Crash]);
    assert t.store.config[ok.param] == ok.raw;
    BlockedForGood(tx, t, more);
    RunAppend(tx, s, acts + [Claim(0, true), Crash], more);
  }

  /** Every desired value is the stripped proposal of a row for that parameter. */
  ghost predicate FromRow(tx: Text, st: Store, p: Param) {
    p in st.config ==> exists id :: id in st.rows && tx.lookup(tx.strip(st.rows[id].param)) == Some(p) && tx.strip(st.rows[id].proposed) == st.config[p]
  }

  lemma FromRowStep(tx: Text, s: State, a: Action, p: Param)
    requires TextOk(tx) && Inv(tx, s) && FromRow(tx, s.store, p)
    ensures FromRow(tx, Step(tx, s, a).store, p)
  {
    var t := Step(tx, s, a).store;
    ConfigStep(tx, s, a);
    if Claimed(tx, s, a).Some? && s.calls[a.c].ok.param == p {
      var id := s.calls[a.c].id;
      assert CallOk(tx, s.store, s.calls[a.c]);
      RowsForward(tx, s, a, id);
      assert tx.lookup(tx.strip(t.rows[id].param)) == Some(p);
    } else if p in s.store.config {
      var id :| id in s.store.rows && tx.lookup(tx.strip(s.store.rows[id].param)) == Some(p) && tx.strip(s.store.rows[id].proposed) == s.store.config[p];
      RowsForward(tx, s, a, id);
      assert tx.lookup(tx.strip(t.rows[id].param)) == Some(p);
    }
  }

  lemma {:induction false} FromRowRun(tx: Text, env: Settings, acts: seq<Action>, p: Param)
    requires TextOk(tx)
    ensures FromRow(tx, Run(tx, Init(env), acts).store, p)
  {
    if acts != [] {
      FromRowRun(tx, env, Before(acts), p);
      RunKeeps(tx, Init(env), Before(acts));
      FromRowStep(tx, Run(tx, Init(env), Before(acts)), Last(acts), p);
    }
  }

  /** The row's proposal would be refused, or prints back to itself. */
  ghost predicate HarmlessRow(tx: Text, row: Row) {
    var p := tx.lookup(tx.strip(row.param));
    p.Some? && tx.accept(p.value, row.proposed).Some? ==> Canonical(tx, p.value, row.proposed)
  }

  /** If every recommendation ever written proposes a canonical text (or one that is refused), startup
      succeeds in every reachable state, in every environment and record order. */
  lemma CanonicalProposalsStart(tx: Text, boot: Settings, acts: seq<Action>, env: Settings, order: seq<Id>)
    requires TextOk(tx) && Lists(order, Run(tx, Init(boot), acts).store.records.Keys)
    requires forall id :: id in Run(tx, Init(boot), acts).store.rows ==> HarmlessRow(tx, Run(tx, Init(boot), acts).store.rows[id])
    ensures CleanReconcile(tx, Run(tx, Init(boot), acts).store, env, order).1
  {
    var st := Run(tx, Init(boot), acts).store;
    RunKeeps(tx, Init(boot), acts);
    ReachableStartup(tx, boot, acts, env, order);
    forall p | p in st.config ensures Canonical(tx, p, st.config[p]) {
      FromRowRun(tx, boot, acts, p);
      var id :| id in st.rows && tx.lookup(tx.strip(st.rows[id].param)) == Some(p) && tx.strip(st.rows[id].proposed) == st.config[p];
      StrippedCanonical(tx, p, st.rows[id].proposed);
      assert HarmlessRow(tx, st.rows[id]);
    }
    forall id | id in st.records && Unfinished(st.records[id])
      ensures tx.lookup(st.records[id].param).Some? && Canonical(tx, tx.lookup(st.records[id].param).value, st.records[id].value)
    {
      assert RecordOk(tx, st, id);
      StrippedCanonical(tx, tx.lookup(st.records[id].param).value, st.rows[id].proposed);
      assert HarmlessRow(tx, st.rows[id]);
    }
  }

  lemma StrippedCanonical(tx: Text, p: Param, raw: string)
    requires TextOk(tx)
    ensures Canonical(tx, p, tx.strip(raw)) <==> Canonical(tx, p, raw)
    ensures tx.accept(p, tx.strip(raw)) == tx.accept(p, raw)
  {
    assert tx.accept(p, tx.strip(raw)) == tx.accept(p, raw);
    assert tx.strip(tx.strip(raw)) == tx.strip(raw);
  }

  /** Such proposals exist for every decimal parameter: any in-bounds whole number written with
      leading zeros is accepted and does not print back to itself. */
  lemma LeadingZerosNotCanonical(p: Param, n: nat, z: nat)
    requires KindOf(p).DecimalKind? && Lowest(p) <= n <= Highest(p) && z > 0
    ensures var raw := Zeros(z) + DigitsOf(n);
            Accept(p, raw) == Some(DecValueOf(Dec(false, n, 0))) && !Canonical(PYTHON, p, raw)
  {
    var d, raw := Dec(false, n, 0), Zeros(z) + DigitsOf(n);
    PaddedParses(n, z, raw);
    StripFixed(raw);
    WholeInBounds(p, n);
    assert |PrintDec(d)| < |raw| by { PlainPrint(n); }
    LongerNotCanonical(p, d, raw);
  }

  lemma WholeInBounds(p: Param, n: nat)
    requires Lowest(p) <= n <= Highest(p)
    ensures InBounds(p, DecValueOf(Dec(false, n, 0)))
  {
    assert DecValue(Dec(false, n, 0)) == n as real;
  }

  lemma LongerNotCanonical(p: Param, d: Dec, raw: string)
    requires KindOf(p).DecimalKind? && InBounds(p, DecValueOf(d))
    requires Strip(raw) == raw && ParseDec(raw) == Some(d) && |PrintDec(d)| < |raw|
    ensures Accept(p, raw) == Some(DecValueOf(d)) && !Canonical(PYTHON, p, raw)
  {
    ShowRoundTrip(DecimalKind, DecValueOf(d));
  }

  lemma PaddedParses(n: nat, z: nat, raw: string)
    requires raw == Zeros(z) + DigitsOf(n)
    ensures ParseDec(raw) == Some(Dec(false, n, 0)) && NoEdgeSpace(raw)
  {
    NatOfPadded(z, DigitsOf(n));
    NatOfDigits(n);
    assert raw + "" == raw && "" + (raw + "") == raw;
    ShapedText(raw, "", 0, Dec(false, n, 0), raw);
  }
}
