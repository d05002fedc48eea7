/** The approval service as the program runs it: one object whose fields are the durable tables and
    the live runtime, changed in place. Each method is tied to the step machine: an uninterrupted
    `Approve` is eight steps of it, an uninterrupted `ReconcileApproved` is one startup. */
module ApprovalService {
  import opened Options
  import opened ApprovalModel
  import opened ApprovalProtocol
  import opened ApprovalRuns
  import opened ApprovalRecovery
  import opened ApprovalWitness
  import opened ApprovalRequests

  /** The steps of one call; those a raised error skips are not enabled and change nothing. */
  function ApproveSteps(id: Id, approver: string, gates: bool, claimDb: bool, fault: Fault, markDb: bool): (acts: seq<Action>) {
    [BeginApprove(0, id, approver), CheckApprove(0, gates), SnapshotRuntime(0), Claim(0, claimDb)]
    + [Sync(0, fault), MarkApplied(0, markDb), MarkFailed(0, markDb), Compensate(0)]
  }

  /** The call has ended: the rest of its steps do nothing. */
  lemma NothingLeft(tx: Text, s: State, a: Action)
    requires s.calls == map[] && By(a).Some? && !a.BeginApprove? && !a.BeginReview? && !a.BeginReject?
    ensures StepCall(tx, s, a) == s
  {}

  lemma EndedEarly(tx: Text, s: State, fault: Fault, markDb: bool)
    requires s.calls == map[]
    ensures Run(tx, s, [Sync(0, fault), MarkApplied(0, markDb), MarkFailed(0, markDb), Compensate(0)]) == s
  {
    RunFour(tx, s, Sync(0, fault), MarkApplied(0, markDb), MarkFailed(0, markDb), Compensate(0));
    NothingLeft(tx, s, Sync(0, fault));
    NothingLeft(tx, s, MarkApplied(0, markDb));
    NothingLeft(tx, s, MarkFailed(0, markDb));
    NothingLeft(tx, s, Compensate(0));
  }

  /** The first half of a lone call: refused, or claimed. */
  lemma FirstHalf(tx: Text, st: Store, id: Id, approver: string, gates: bool, claimDb: bool)
    ensures var s := Run(tx, Alone(st), [BeginApprove(0, id, approver), CheckApprove(0, gates), SnapshotRuntime(0), Claim(0, claimDb)]);
            if tx.strip(approver) == "" || tx.strip(id) == "" || id !in st.rows
               || Validate(tx, st.rows[id], st.rt, gates).None? || !claimDb
            then s == Alone(st)
            else var ok := Validate(tx, st.rows[id], st.rt, gates).value;
                 s == State(Committed(tx, st, id, st.rows[id], ok, Applying), Up, map[0 := ApproveClaimed(id, ok, st.rt)])
  {
    var begin, check, snap, claim := BeginApprove(0, id, approver), CheckApprove(0, gates), SnapshotRuntime(0), Claim(0, claimDb);
    RunFour(tx, Alone(st), begin, check, snap, claim);
    if tx.strip(approver) == "" || tx.strip(id) == "" || id !in st.rows {
      NothingLeft(tx, Alone(st), check);
      NothingLeft(tx, Alone(st), snap);
      NothingLeft(tx, Alone(st), claim);
    } else {
      var s1 := State(st, Up, map[0 := ApproveRead(id, st.rows[id])]);
      assert StepBegin(tx, Alone(st), begin) == s1;
      match Validate(tx, st.rows[id], st.rt, gates)
      case None =>
        assert StepCheck(tx, s1, 0, gates) == Alone(st) by { assert s1.calls - {0} == map[]; }
        NothingLeft(tx, Alone(st), snap);
        NothingLeft(tx, Alone(st), claim);
      case Some(ok) =>
        var s2 := State(st, Up, map[0 := ApproveValidated(id, st.rows[id], ok)]);
        assert StepCheck(tx, s1, 0, gates) == s2;
        SnapshotAndClaim(tx, st, id, ok, claimDb);
    }
  }

  lemma SnapshotAndClaim(tx: Text, st: Store, id: Id, ok: Validated, claimDb: bool)
    requires id in st.rows && Actionable(st.rows[id].status)
    ensures var s := StepClaim(tx, StepSnapshot(State(st, Up, map[0 := ApproveValidated(id, st.rows[id], ok)]), 0), 0, claimDb);
            s == if claimDb then State(Committed(tx, st, id, st.rows[id], ok, Applying), Up, map[0 := ApproveClaimed(id, ok, st.rt)]) else Alone(st)
  {
    var s := StepSnapshot(State(st, Up, map[0 := ApproveValidated(id, st.rows[id], ok)]), 0);
    assert s == State(st, Up, map[0 := ApproveSnapshotted(id, st.rows[id], ok, st.rt)]);
    assert s.calls - {0} == map[];
  }

  /** What synchronising, marking and, on failure, compensating make of a claimed store. */
  function Finished(tx: Text, st: Store, id: Id, ok: Validated, snap: Runtime, fault: Fault, markDb: bool): (r: Store) {
    var (rt, good) := Synchronise(tx, st.rt, ok.param, ok.value, ok.raw, fault);
    var t := st.(rt := if good then rt else snap);
    if markDb then Marked(tx, t, id, ok.param, ok.raw, if good then Applied else Failed) else t
  }

  lemma SyncStage(tx: Text, st: Store, id: Id, ok: Validated, snap: Runtime, fault: Fault)
    ensures var (rt, good) := Synchronise(tx, st.rt, ok.param, ok.value, ok.raw, fault);
            StepSync(tx, State(st, Up, map[0 := ApproveClaimed(id, ok, snap)]), 0, fault)
            == State(st.(rt := rt), Up, map[0 := if good then ApproveSynced(id, ok) else ApproveFaulted(id, ok, snap)])
  {}

  /** The second half of a lone call: synchronised and marked, or failed, marked and compensated. */
  lemma SecondHalf(tx: Text, st: Store, id: Id, ok: Validated, snap: Runtime, fault: Fault, markDb: bool)
    ensures Run(tx, State(st, Up, map[0 := ApproveClaimed(id, ok, snap)]),
                [Sync(0, fault), MarkApplied(0, markDb), MarkFailed(0, markDb), Compensate(0)])
            == Alone(Finished(tx, st, id, ok, snap, fault, markDb))
  {
    RunTail(tx, State(st, Up, map[0 := ApproveClaimed(id, ok, snap)]), fault, markDb);
    SyncThenMark(tx, st, id, ok, snap, fault, markDb);
  }

  lemma RunTail(tx: Text, s: State, fault: Fault, markDb: bool)
    ensures Run(tx, s, [Sync(0, fault), MarkApplied(0, markDb), MarkFailed(0, markDb), Compensate(0)])
            == StepCompensate(StepMarkFailed(tx, StepMarkApplied(tx, StepSync(tx, s, 0, fault), 0, markDb), 0, markDb), 0)
  {
    RunFour(tx, s, Sync(0, fault), MarkApplied(0, markDb), MarkFailed(0, markDb), Compensate(0));
    CallSteps(tx, s, fault);
    var t := StepSync(tx, s, 0, fault);
    MarkSteps(tx, t, markDb);
  }

  lemma CallSteps(tx: Text, s: State, fault: Fault)
    ensures Step(tx, s, Sync(0, fault)) == StepSync(tx, s, 0, fault)
  {}

  lemma MarkSteps(tx: Text, s: State, markDb: bool)
    ensures Step(tx, Step(tx, Step(tx, s, MarkApplied(0, markDb)), MarkFailed(0, markDb)), Compensate(0))
            == StepCompensate(StepMarkFailed(tx, StepMarkApplied(tx, s, 0, markDb), 0, markDb), 0)
  {}

  lemma SyncThenMark(tx: Text, st: Store, id: Id, ok: Validated, snap: Runtime, fault: Fault, markDb: bool)
    ensures var s := StepSync(tx, State(st, Up, map[0 := ApproveClaimed(id, ok, snap)]), 0, fault);
            StepCompensate(StepMarkFailed(tx, StepMarkApplied(tx, s, 0, markDb), 0, markDb), 0)
            == Alone(Finished(tx, st, id, ok, snap, fault, markDb))
  {
    SyncStage(tx, st, id, ok, snap, fault);
    var (rt, good) := Synchronise(tx, st.rt, ok.param, ok.value, ok.raw, fault);
    if good { GoodHalf(tx, st.(rt := rt), id, ok, markDb); } else { BadHalf(tx, st.(rt := rt), id, ok, snap, markDb); }
  }

  /** What a lone approve leaves behind. */
  function LoneApprove(tx: Text, st: Store, id: Id, approver: string, gates: bool, claimDb: bool, fault: Fault, markDb: bool): (r: Store) {
    if tx.strip(approver) == "" || tx.strip(id) == "" || id !in st.rows then st else
    var checked := Validate(tx, st.rows[id], st.rt, gates);
    if checked.None? || !claimDb then st
    else Finished(tx, Committed(tx, st, id, st.rows[id], checked.value, Applying), id, checked.value, st.rt, fault, markDb)
  }

  lemma ApproveIsRun(tx: Text, st: Store, id: Id, approver: string, gates: bool, claimDb: bool, fault: Fault, markDb: bool)
    ensures Run(tx, Alone(st), ApproveSteps(id, approver, gates, claimDb, fault, markDb))
            == Alone(LoneApprove(tx, st, id, approver, gates, claimDb, fault, markDb))
  {
    var first := [BeginApprove(0, id, approver), CheckApprove(0, gates), SnapshotRuntime(0), Claim(0, claimDb)];
    var second := [Sync(0, fault), MarkApplied(0, markDb), MarkFailed(0, markDb), Compensate(0)];
    FirstHalf(tx, st, id, approver, gates, claimDb);
    RunAppend(tx, Alone(st), first, second);
    if Run(tx, Alone(st), first) == Alone(st) {
      EndedEarly(tx, Alone(st), fault, markDb);
    } else {
      var ok := Validate(tx, st.rows[id], st.rt, gates).value;
      SecondHalf(tx, Committed(tx, st, id, st.rows[id], ok, Applying), id, ok, st.rt, fault, markDb);
    }
  }

  lemma GoodHalf(tx: Text, st: Store, id: Id, ok: Validated, markDb: bool)
    ensures var s := State(st, Up, map[0 := ApproveSynced(id, ok)]);
            StepCompensate(StepMarkFailed(tx, StepMarkApplied(tx, s, 0, markDb), 0, markDb), 0)
            == Alone(if markDb then Marked(tx, st, id, ok.param, ok.raw, Applied) else st)
  {
    var s := State(st, Up, map[0 := ApproveSynced(id, ok)]);
    assert s.calls - {0} == map[];
  }

  lemma BadHalf(tx: Text, st: Store, id: Id, ok: Validated, snap: Runtime, markDb: bool)
    ensures var s := State(st, Up, map[0 := ApproveFaulted(id, ok, snap)]);
            StepCompensate(StepMarkFailed(tx, StepMarkApplied(tx, s, 0, markDb), 0, markDb), 0)
            == Alone((if markDb then Marked(tx, st, id, ok.param, ok.raw, Failed) else st).(rt := snap))
  {
    var s := State(st, Up, map[0 := ApproveFaulted(id, ok, snap)]);
    assert StepMarkApplied(tx, s, 0, markDb) == s;
    var t := StepMarkFailed(tx, s, 0, markDb);
    assert t.calls == map[0 := ApproveCompensating(id, ok, snap)] && t.calls - {0} == map[];
  }

  class Service {
    const tx: Text
    var rows: map<Id, Row>
    var config: map<Param, string>
    var records: map<Id, Record>
    var settings: Settings
    var limits: Settings

    ghost function View(): (st: Store)
      reads this
    {
      Store(rows, config, records, Runtime(settings, limits))
    }

    /** `build_app`: the durable tables as they are, the runtime from the environment. */
    constructor (tx: Text, rows: map<Id, Row>, config: map<Param, string>, records: map<Id, Record>, env: Settings)
      ensures this.tx == tx && View() == Store(rows, config, records, FromEnvironment(env))
    {
      this.tx, this.rows, this.config, this.records := tx, rows, config, records;
      settings, limits := env, env;
    }

    /** Both replacements are made before either is installed; a RiskEngine that cannot be installed
        puts the settings back. */
    method ApplyValue(p: Param, v: Value, fault: Fault) returns (ok: bool)
      modifies this`settings, this`limits
      ensures ok <==> fault.NoFault? || (fault.InstallFault? && !IsRisk(p))
      ensures Runtime(settings, limits) == if ok then Installed(old(Runtime(settings, limits)), p, v) else old(Runtime(settings, limits))
    {
      if fault.BuildFault? { return false; }
      var newSettings := settings[p := v];
      if IsRisk(p) {
        var oldSettings, newLimits := settings, limits[p := v];
        settings := newSettings;
        if fault.InstallFault? {
          settings := oldSettings;
          return false;
        }
        limits := newLimits;
      } else {
        settings := newSettings;
      }
      return true;
    }

    method VerifyConverged(p: Param, raw: string) returns (ok: bool)
      ensures ok <==> Converged(tx, Runtime(settings, limits), p, raw)
    {
      if tx.strip(tx.show(settings[p])) != tx.strip(raw) { return false; }
      if IsRisk(p) && tx.strip(tx.show(limits[p])) != tx.strip(raw) { return false; }
      return true;
    }

    /** Apply, then verify: the pair the protocol treats as one step. */
    method SynchroniseRuntime(p: Param, v: Value, raw: string, fault: Fault) returns (ok: bool)
      modifies this`settings, this`limits
      ensures (Runtime(settings, limits), ok) == Synchronise(tx, old(Runtime(settings, limits)), p, v, raw, fault)
    {
      ok := ApplyValue(p, v, fault);
      if ok { ok := VerifyConverged(p, raw); }
    }

    method MarkApplyStatus(id: Id, p: Param, raw: string, to: ApplyStatus, db: bool) returns (ok: bool)
      modifies this`records
      ensures ok == db && View() == if db then Marked(tx, old(View()), id, p, raw, to) else old(View())
    {
      if db { records := records[id := Record(tx.name(p), raw, to)]; }
      return db;
    }

    /** `approve` with nothing else in flight. It returns normally only when the durable claim is
        committed and the runtime verifiably holds the proposed value; when it raises, the runtime is
        what it was; and its whole effect is that of the steps of one call. */
    method Approve(id: Id, approver: string, gates: bool, claimDb: bool, fault: Fault, markDb: bool) returns (ok: bool)
      modifies this
      ensures View() == Run(tx, Alone(old(View())), ApproveSteps(id, approver, gates, claimDb, fault, markDb)).store
      ensures ok ==> id in old(rows) && id in records && records[id].Record? && (records[id].status.Applied? <==> markDb)
                     && Validate(tx, old(rows)[id], old(View()).rt, gates).Some?
                     && Converged(tx, View().rt, Validate(tx, old(rows)[id], old(View()).rt, gates).value.param, records[id].value)
      ensures !ok ==> View().rt == old(View()).rt
      ensures !ok && config != old(config) ==> id in records && Unfinished(records[id])
    {
      ApproveIsRun(tx, View(), id, approver, gates, claimDb, fault, markDb);
      if tx.strip(approver) == "" || tx.strip(id) == "" || id !in rows { return false; }
      var row := rows[id];
      var checked := Validate(tx, row, Runtime(settings, limits), gates);
      if checked.None? { return false; }
      var oldSettings, oldLimits := settings, limits;
      if !claimDb { return false; }
      ClaimRow(id, row, checked.value);
      ok := ApplyClaimed(id, checked.value, oldSettings, oldLimits, fault, markDb);
    }

    /** What follows the commit. */
    method ApplyClaimed(id: Id, checked: Validated, oldSettings: Settings, oldLimits: Settings, fault: Fault, markDb: bool) returns (ok: bool)
      modifies this`settings, this`limits, this`records
      ensures View() == Finished(tx, old(View()), id, checked, Runtime(oldSettings, oldLimits), fault, markDb)
      ensures ok == Synchronise(tx, old(View()).rt, checked.param, checked.value, checked.raw, fault).1
    {
      ok := SynchroniseRuntime(checked.param, checked.value, checked.raw, fault);
      if ok {
        var marked := MarkApplyStatus(id, checked.param, checked.raw, Applied, markDb);
      } else {
        var marked := MarkApplyStatus(id, checked.param, checked.raw, Failed, markDb);
        settings, limits := oldSettings, oldLimits;
      }
    }

    /** The claim transaction: row, desired value and application record together. */
    method ClaimRow(id: Id, row: Row, ok: Validated)
      requires id in rows && Actionable(rows[id].status)
      modifies this`rows, this`config, this`records
      ensures View() == Committed(tx, old(View()), id, row, ok, Applying)
      ensures ClaimTxn(tx, old(View()), id, ok.param, ok.raw, row.version) == Some(View())
    {
      rows := rows[id := rows[id].(status := Approved, version := row.version + 1)];
      config := config[ok.param := ok.raw];
      records := records[id := Record(tx.name(ok.param), ok.raw, Applying)];
    }

    /** `review` with nothing else in flight: the steps of one review. */
    method Review(id: Id, approver: string, db: bool) returns (ok: bool)
      modifies this`rows
      ensures View() == Run(tx, Alone(old(View())), [BeginReview(0, id, approver), CommitReview(0, db)]).store
      ensures ok ==> id in old(rows) && old(rows)[id].status.Pending?
                     && rows == old(rows)[id := old(rows)[id].(status := Reviewed, version := old(rows)[id].version + 1)]
      ensures !ok ==> View() == old(View())
    {
      LoneReview(tx, View(), id, approver, db);
      if tx.strip(approver) == "" || tx.strip(id) == "" || id !in rows { return false; }
      var row := rows[id];
      if !row.status.Pending? || !db { return false; }
      rows := rows[id := row.(status := Reviewed, version := row.version + 1)];
      return true;
    }

    /** `reject` with nothing else in flight: the steps of one rejection. */
    method Reject(id: Id, approver: string, db: bool) returns (ok: bool)
      modifies this`rows
      ensures View() == Run(tx, Alone(old(View())), [BeginReject(0, id, approver), CommitReject(0, db)]).store
      ensures ok ==> id in old(rows) && Actionable(old(rows)[id].status)
                     && rows == old(rows)[id := old(rows)[id].(status := Rejected, version := old(rows)[id].version + 1)]
      ensures !ok ==> View() == old(View())
    {
      LoneReject(tx, View(), id, approver, db);
      if tx.strip(approver) == "" || id !in rows { return false; }
      var row := rows[id];
      if !Actionable(row.status) || !db { return false; }
      rows := rows[id := row.(status := Rejected, version := row.version + 1)];
      return true;
    }

    /** The first loop of `reconcile_approved_config`. */
    method ApplyDesired(paramFaults: map<Param, Fault>) returns (ok: bool)
      modifies this`settings, this`limits
      ensures ok <==> LoadOverrides(tx, config).Some? &&
                      ApplyOverrides(tx, SORTED_PARAMS, LoadOverrides(tx, config).value, old(View()).rt, paramFaults).Some?
      ensures ok ==> ApplyOverrides(tx, SORTED_PARAMS, LoadOverrides(tx, config).value, old(View()).rt, paramFaults) == Some(View().rt)
    {
      var loaded := LoadOverrides(tx, config);
      if loaded.None? { return false; }
      var texts := loaded.value;
      var k := 0;
      while k < |SORTED_PARAMS|
        invariant 0 <= k <= |SORTED_PARAMS|
        invariant ApplyOverrides(tx, SORTED_PARAMS, texts, old(View()).rt, paramFaults)
               == ApplyOverrides(tx, SORTED_PARAMS[k..], texts, View().rt, paramFaults)
      {
        var p := SORTED_PARAMS[k];
        assert SORTED_PARAMS[k..][0] == p && SORTED_PARAMS[k..][1..] == SORTED_PARAMS[k + 1..];
        if p in texts {
          var v := tx.accept(p, texts[p]);
          if v.None? { return false; }
          var good := SynchroniseRuntime(p, v.value, texts[p], FaultAt(paramFaults, p));
          if !good { return false; }
        }
        k := k + 1;
      }
      return true;
    }

    /** The second loop: every unfinished record is re-applied, verified and marked, in the order given. */
    method FinishRecords(order: seq<Id>, recordFaults: map<Id, Fault>) returns (ok: bool)
      requires Lists(order, records.Keys)
      modifies this`settings, this`limits, this`records
      ensures ok == RecoverAll(tx, old(View()), order, recordFaults).1
      ensures ok ==> View() == RecoverAll(tx, old(View()), order, recordFaults).0
      ensures records == RecoverAll(tx, old(View()), order, recordFaults).0.records
    {
      var k := 0;
      ghost var want := RecoverAll(tx, View(), order, recordFaults);
      assert order[0..] == order;
      while k < |order|
        invariant 0 <= k <= |order| && records.Keys == old(records.Keys)
        invariant want == RecoverAll(tx, View(), order[k..], recordFaults)
      {
        assert order[k] in records && order[k..] == [order[k]] + order[k + 1..];
        var good := FinishRecord(order[k], recordFaults, order[k + 1..]);
        if !good { return false; }
        k := k + 1;
      }
      return true;
    }

    /** One turn of that loop: it leaves the recovery of the rest to do, or ends it here. */
    method FinishRecord(id: Id, recordFaults: map<Id, Fault>, ghost rest: seq<Id>) returns (ok: bool)
      requires id in records
      modifies this`settings, this`limits, this`records
      ensures records.Keys == old(records.Keys)
      ensures ok ==> RecoverAll(tx, old(View()), [id] + rest, recordFaults) == RecoverAll(tx, View(), rest, recordFaults)
      ensures !ok ==> RecoverAll(tx, old(View()), [id] + rest, recordFaults) == (old(View()), false) && records == old(records)
    {
      assert ([id] + rest)[1..] == rest;
      var rec := records[id];
      if !Unfinished(rec) { return true; }
      if rec.status.OtherStatus? || id == "" || rec.param == "" || rec.value == "" { return false; }
      var p := tx.lookup(rec.param);
      if p.None? { return false; }
      var v := tx.accept(p.value, rec.value);
      if v.None? { return false; }
      ok := SynchroniseRuntime(p.value, v.value, rec.value, FaultOf(recordFaults, id));
      if ok {
        records := records[id := rec.(status := Applied)];
        assert View() == WithApplied(old(View()).(rt := View().rt), id);
      }
    }

    /** `reconcile_approved_config` on the object `build_app` just made. */
    method ReconcileApproved(ghost env: Settings, order: seq<Id>, paramFaults: map<Param, Fault>, recordFaults: map<Id, Fault>) returns (ok: bool)
      requires Lists(order, records.Keys) && Runtime(settings, limits) == FromEnvironment(env)
      modifies this`settings, this`limits, this`records
      ensures ok == Reconcile(tx, old(View()), env, order, paramFaults, recordFaults).1
      ensures ok ==> View() == Reconcile(tx, old(View()), env, order, paramFaults, recordFaults).0
      ensures records == Reconcile(tx, old(View()), env, order, paramFaults, recordFaults).0.records
    {
      ok := ApplyDesired(paramFaults);
      if ok { ok := FinishRecords(order, recordFaults); }
    }
  }
}
