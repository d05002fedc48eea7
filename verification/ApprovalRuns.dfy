/** Theorems over whole runs of the approval machine: what the durable state says, who wins a
    race, that losers leave no trace, and that settings and RiskEngine never part. */
module ApprovalRuns {
  import opened Options
  import opened Sequences
  import opened ApprovalModel
  import opened ApprovalProtocol
  import opened ApprovalSafety

  // ------------------------------------------------------------------ durable claims

  /** The last value claimed for each parameter, read off the run. */
  function LatestClaims(tx: Text, s: State, acts: seq<Action>): (r: map<Param, string>) {
    if acts == [] then map[] else
    var t, claims := Run(tx, s, Before(acts)), LatestClaims(tx, s, Before(acts));
    if Claimed(tx, t, Last(acts)).Some?
    then claims[t.calls[Last(acts).c].ok.param := t.calls[Last(acts).c].ok.raw] else claims
  }

  lemma ConfigStep(tx: Text, s: State, a: Action)
    ensures Step(tx, s, a).store.config ==
            if Claimed(tx, s, a).Some? then s.store.config[s.calls[a.c].ok.param := s.calls[a.c].ok.raw] else s.store.config
  {}

  /** In every reachable state a row is APPROVED exactly when it has an application record; the
      record carries the row's allowlisted, in-bounds parameter and value; and the desired value of
      every parameter is the value of its latest committed claim. */
  lemma {:induction false} DurableClaims(tx: Text, env: Settings, acts: seq<Action>)
    requires TextOk(tx)
    ensures var st := Run(tx, Init(env), acts).store;
            && (forall id :: (id in st.rows && st.rows[id].status.Approved?) <==> id in st.records)
            && (forall id :: id in st.records ==> RecordOk(tx, st, id))
            && st.config == LatestClaims(tx, Init(env), acts)
            && (forall p :: p in st.config ==> tx.accept(p, st.config[p]).Some?)
  {
    RunKeeps(tx, Init(env), acts);
    var st := Run(tx, Init(env), acts).store;
    assert forall id :: id in st.records ==> RecordOk(tx, st, id);
    ConfigIsLatest(tx, env, acts);
  }

  lemma {:induction false} ConfigIsLatest(tx: Text, env: Settings, acts: seq<Action>)
    ensures Run(tx, Init(env), acts).store.config == LatestClaims(tx, Init(env), acts)
  {
    if acts != [] {
      ConfigIsLatest(tx, env, Before(acts));
      ConfigStep(tx, Run(tx, Init(env), Before(acts)), Last(acts));
    }
  }

  // ------------------------------------------------------------------ one winner

  predicate Terminal(st: Status) { st.Approved? || st.Rejected? }

  function Rank(st: Status): (n: nat) {
    match st
    case Pending => 0
    case Reviewed => 1
    case _ => 2
  }

  /** Rows only move forward: a decided or inactive row never changes again, and the version grows by at
      most one for each of the two transitions (by none when the deciding call read the row before its review). */
  predicate Forward(old_: Row, new_: Row) {
    && old_.param == new_.param && old_.proposed == new_.proposed && old_.current == new_.current
    && Rank(old_.status) <= Rank(new_.status) && old_.version <= new_.version <= old_.version + 2 - Rank(old_.status)
    && (old_.status.Pending? && old_ != new_ ==> old_.version < new_.version)
    && (old_.status.Pending? && new_.status.Reviewed? ==> new_.version == old_.version + 1)
    && (!Actionable(old_.status) ==> old_ == new_)
    && (old_.status == new_.status ==> old_ == new_)
    && (old_ != new_ ==> Terminal(new_.status) || new_.status.Reviewed?)
  }

  lemma ClaimForward(tx: Text, s: State, c: CallId, db: bool, id: Id)
    requires TextOk(tx) && Inv(tx, s) && id in s.store.rows
    ensures id in StepClaim(tx, s, c, db).store.rows && Forward(s.store.rows[id], StepClaim(tx, s, c, db).store.rows[id])
  {
    if At(s, c) { assert CallOk(tx, s.store, s.calls[c]); }
  }

  lemma DecideForward(tx: Text, s: State, a: Action, id: Id)
    requires TextOk(tx) && Inv(tx, s) && id in s.store.rows && (a.CommitReview? || a.CommitReject?)
    ensures id in StepDecide(s, a).store.rows && Forward(s.store.rows[id], StepDecide(s, a).store.rows[id])
  {
    if Decided(s, a).Some? {
      assert CallOk(tx, s.store, s.calls[a.c]);
      TxnForward(s.store, s.calls[a.c].id, a.CommitReview?, if a.CommitReview? then Reviewed else Rejected, s.calls[a.c].row, id);
    }
  }

  lemma TxnForward(st: Store, target: Id, onlyPending: bool, to: Status, row: Row, id: Id)
    requires target in st.rows && StillFresh(row, st.rows[target]) && id in st.rows
    requires to == if onlyPending then Reviewed else Rejected
    requires DecideTxn(st, target, onlyPending, to, row.version).Some?
    ensures var t := DecideTxn(st, target, onlyPending, to, row.version).value;
            id in t.rows && Forward(st.rows[id], t.rows[id])
  {}

  lemma RowsForward(tx: Text, s: State, a: Action, id: Id)
    requires TextOk(tx) && Inv(tx, s) && id in s.store.rows
    ensures id in Step(tx, s, a).store.rows && Forward(s.store.rows[id], Step(tx, s, a).store.rows[id])
  {
    if a.Claim? { ClaimForward(tx, s, a.c, a.db, id); }
    else if a.CommitReview? || a.CommitReject? { DecideForward(tx, s, a, id); }
    else { RowsStill(tx, s, a, id); }
  }

  lemma RowsStill(tx: Text, s: State, a: Action, id: Id)
    requires !a.Claim? && !a.CommitReview? && !a.CommitReject? && id in s.store.rows
    ensures id in Step(tx, s, a).store.rows && Step(tx, s, a).store.rows[id] == s.store.rows[id]
  {}

  lemma {:induction false} RowsForwardRun(tx: Text, s: State, acts: seq<Action>, id: Id)
    requires TextOk(tx) && Inv(tx, s) && id in s.store.rows
    ensures id in Run(tx, s, acts).store.rows && Forward(s.store.rows[id], Run(tx, s, acts).store.rows[id])
  {
    if acts != [] {
      RowsForwardRun(tx, s, Before(acts), id);
      RunKeeps(tx, s, Before(acts));
      RowsForward(tx, Run(tx, s, Before(acts)), Last(acts), id);
    }
  }

  /** How many steps of the run decide `id`: its row goes from undecided to APPROVED or REJECTED. */
  function Decisions(tx: Text, s: State, acts: seq<Action>, id: Id): (n: nat) {
    if acts == [] then 0 else
    var t, u := Run(tx, s, Before(acts)), Run(tx, s, acts);
    Decisions(tx, s, Before(acts), id)
    + (if id in t.store.rows && !Terminal(t.store.rows[id].status)
          && id in u.store.rows && Terminal(u.store.rows[id].status) then 1 else 0)
  }

  /** Whatever calls race on a recommendation, at most one decision ever commits, and it stands. */
  lemma {:induction false} OneWinner(tx: Text, env: Settings, acts: seq<Action>, id: Id)
    requires TextOk(tx)
    ensures Decisions(tx, Init(env), acts, id) <= 1
    ensures Decisions(tx, Init(env), acts, id) == 1 ==>
              var rows := Run(tx, Init(env), acts).store.rows; id in rows && Terminal(rows[id].status)
  {
    if acts != [] {
      var t := Run(tx, Init(env), Before(acts));
      OneWinner(tx, env, Before(acts), id);
      RunKeeps(tx, Init(env), Before(acts));
      if id in t.store.rows { RowsForward(tx, t, Last(acts), id); }
    }
  }

  // ------------------------------------------------------------------ losers leave no trace

  /** Call `c` commits nothing in this run: no claim, no review, no rejection. */
  ghost predicate NeverCommits(tx: Text, s: State, acts: seq<Action>, c: CallId) {
    forall k :: 0 <= k < |acts| && By(acts[k]) == Some(c) ==>
      Claimed(tx, Run(tx, s, acts[..k]), acts[k]).None? && Decided(Run(tx, s, acts[..k]), acts[k]).None?
  }

  /** The run without the steps of call `c`. */
  function Without(acts: seq<Action>, c: CallId): (r: seq<Action>) {
    if acts == [] then [] else
    Without(Before(acts), c) + (if By(Last(acts)) == Some(c) then [] else [Last(acts)])
  }

  /** The two states differ at most in the stage of call `c`, which owns no claim. */
  predicate SameBut(s: State, t: State, c: CallId) {
    && s.store == t.store && s.process == t.process && s.calls - {c} == t.calls && c !in t.calls
    && (c in s.calls ==> !Owner(s.calls[c]))
  }

  lemma OwnStepErased(tx: Text, s: State, t: State, a: Action, c: CallId)
    requires SameBut(s, t, c) && By(a) == Some(c) && Claimed(tx, s, a).None? && Decided(s, a).None?
    ensures SameBut(Step(tx, s, a), t, c)
  {
    var u := Step(tx, s, a);
    assert u.store == s.store && u.process == s.process;
    assert u.calls == s.calls || u.calls == s.calls - {c} || (c in u.calls && u.calls == s.calls[c := u.calls[c]]);
    assert u.calls - {c} == s.calls - {c};
  }

  lemma OtherStepAgrees(tx: Text, s: State, t: State, a: Action, c: CallId)
    requires SameBut(s, t, c) && By(a) != Some(c)
    ensures SameBut(Step(tx, s, a), Step(tx, t, a), c)
  {
    if By(a).None? {
      ProcessAgrees(tx, s, t, a, c);
    } else {
      var d := a.c;
      assert d in s.calls <==> d in t.calls;
      assert d in s.calls ==> s.calls[d] == t.calls[d];
      CallAgrees(tx, s, t, a, c);
    }
  }

  lemma ProcessAgrees(tx: Text, s: State, t: State, a: Action, c: CallId)
    requires SameBut(s, t, c) && By(a).None?
    ensures SameBut(Step(tx, s, a), Step(tx, t, a), c)
  {
    WorldCalls(tx, s, a);
  }

  /** A step of call `d` touches no other call and leaves the process alone. */
  lemma CallFrame(tx: Text, s: State, a: Action)
    requires By(a).Some?
    ensures Step(tx, s, a).calls - {a.c} == s.calls - {a.c} && Step(tx, s, a).process == s.process
  {}

  /** A call does nothing while no process is up. */
  lemma CallIdle(tx: Text, s: State, a: Action)
    requires By(a).Some? && !s.process.Up?
    ensures StepCall(tx, s, a) == s
  {}

  /** What a step of call `d` does depends on the store, the process and the stage of `d`. */
  lemma CallLocal(tx: Text, s: State, t: State, a: Action)
    requires By(a).Some? && s.store == t.store && s.process == t.process
    requires a.c in s.calls <==> a.c in t.calls
    requires a.c in s.calls ==> s.calls[a.c] == t.calls[a.c]
    ensures var u, v := Step(tx, s, a), Step(tx, t, a);
            u.store == v.store && (a.c in u.calls <==> a.c in v.calls) && (a.c in u.calls ==> u.calls[a.c] == v.calls[a.c])
  {
    assert Claimed(tx, s, a) == Claimed(tx, t, a) && Decided(s, a) == Decided(t, a);
  }

  lemma CallAgrees(tx: Text, s: State, t: State, a: Action, c: CallId)
    requires SameBut(s, t, c) && By(a).Some? && a.c != c
    requires a.c in s.calls <==> a.c in t.calls
    requires a.c in s.calls ==> s.calls[a.c] == t.calls[a.c]
    ensures SameBut(Step(tx, s, a), Step(tx, t, a), c)
  {
    CallFrame(tx, s, a);
    CallFrame(tx, t, a);
    CallLocal(tx, s, t, a);
    AgreeOff(s.calls, t.calls, Step(tx, s, a).calls, Step(tx, t, a).calls, a.c, c);
  }

  lemma AgreeOff(s: map<CallId, Call>, t: map<CallId, Call>, u: map<CallId, Call>, v: map<CallId, Call>, d: CallId, c: CallId)
    requires d != c && s - {c} == t && c !in t && u - {d} == s - {d} && v - {d} == t - {d}
    requires (d in u <==> d in v) && (d in u ==> u[d] == v[d])
    ensures u - {c} == v && c !in v && (c in u <==> c in s) && (c in u ==> u[c] == s[c])
  {
    forall e ensures e in u - {c} <==> e in v {
      assert e in u - {d} <==> e in s - {d};
      assert e in v - {d} <==> e in t - {d};
      assert e in s - {c} <==> e in t;
    }
    forall e | e in v ensures (u - {c})[e] == v[e] {
      if e != d { assert (u - {d})[e] == (s - {d})[e] && (v - {d})[e] == (t - {d})[e] && (s - {c})[e] == t[e]; }
    }
    assert c in u - {d} <==> c in s - {d};
    assert c in u ==> (u - {d})[c] == (s - {d})[c];
  }

  /** Erasing every step of a call that never commits gives the same rows, desired values, records,
      settings and RiskEngine: a call that loses, is refused or dies before its claim changes nothing. */
  lemma {:induction false} LosersLeaveNoTrace(tx: Text, s: State, acts: seq<Action>, c: CallId)
    requires c !in s.calls && NeverCommits(tx, s, acts, c)
    ensures Run(tx, s, acts).store == Run(tx, s, Without(acts, c)).store
    ensures SameBut(Run(tx, s, acts), Run(tx, s, Without(acts, c)), c)
  {
    if acts == [] {
      assert s.calls - {c} == s.calls;
    } else {
      var init := Before(acts);
      assert NeverCommits(tx, s, init, c) by {
        assert forall k :: 0 <= k < |init| ==> init[k] == acts[k] && init[..k] == acts[..k];
      }
      LosersLeaveNoTrace(tx, s, init, c);
      var t, u := Run(tx, s, init), Run(tx, s, Without(init, c));
      if By(Last(acts)) == Some(c) {
        assert acts[..|acts| - 1] == init;
        OwnStepErased(tx, t, u, Last(acts), c);
        assert Without(acts, c) == Without(init, c);
      } else {
        OtherStepAgrees(tx, t, u, Last(acts), c);
        RunLast(tx, s, Without(init, c), Last(acts));
      }
    }
  }

  // ------------------------------------------------------------------ lockstep

  predicate HasSnapshot(call: Call) {
    call.ApproveSnapshotted? || call.ApproveClaimed? || call.ApproveFaulted? || call.ApproveCompensating?
  }

  ghost predicate LockstepInv(s: State) {
    Lockstep(s.store.rt) && forall c :: c in s.calls && HasSnapshot(s.calls[c]) ==> Lockstep(s.calls[c].snap)
  }

  lemma SynchroniseLocked(tx: Text, rt: Runtime, p: Param, v: Value, raw: string, fault: Fault)
    requires Lockstep(rt)
    ensures Lockstep(Synchronise(tx, rt, p, v, raw, fault).0)
  {}

  lemma {:induction false} OverridesLocked(tx: Text, ps: seq<Param>, texts: map<Param, string>, rt: Runtime, faults: map<Param, Fault>)
    requires Lockstep(rt)
    ensures ApplyOverrides(tx, ps, texts, rt, faults).Some? ==> Lockstep(ApplyOverrides(tx, ps, texts, rt, faults).value)
  {
    if ps != [] {
      if ps[0] !in texts {
        OverridesLocked(tx, ps[1..], texts, rt, faults);
      } else if tx.accept(ps[0], texts[ps[0]]).Some? {
        var v, fault := tx.accept(ps[0], texts[ps[0]]).value, FaultAt(faults, ps[0]);
        SynchroniseLocked(tx, rt, ps[0], v, texts[ps[0]], fault);
        OverridesLocked(tx, ps[1..], texts, Synchronise(tx, rt, ps[0], v, texts[ps[0]], fault).0, faults);
      }
    }
  }

  lemma BootLocked(tx: Text, s: State, env: Settings, faults: map<Param, Fault>)
    requires LockstepInv(s)
    ensures LockstepInv(StepBoot(tx, s, env, faults))
  {
    if LoadOverrides(tx, s.store.config).Some? {
      OverridesLocked(tx, SORTED_PARAMS, LoadOverrides(tx, s.store.config).value, FromEnvironment(env), faults);
    }
  }

  lemma RecoverLocked(tx: Text, s: State, fault: Fault)
    requires LockstepInv(s)
    ensures LockstepInv(StepRecover(tx, s, fault))
  {
    if s.process.Recovering? && s.process.todo != [] && s.process.todo[0] in s.store.records {
      var id := s.process.todo[0];
      RecoverOneLocked(tx, s.store.rt, id, s.store.records[id], fault);
    }
  }

  lemma RecoverOneLocked(tx: Text, rt: Runtime, id: Id, rec: Record, fault: Fault)
    requires Lockstep(rt)
    ensures var r := RecoverOne(tx, rt, id, rec, fault); r.Reapplied? ==> Lockstep(r.rt)
  {}

  lemma SyncLocked(tx: Text, s: State, c: CallId, fault: Fault)
    requires LockstepInv(s)
    ensures LockstepInv(StepSync(tx, s, c, fault))
  {
    if At(s, c) && s.calls[c].ApproveClaimed? {
      var ok := s.calls[c].ok;
      SynchroniseLocked(tx, s.store.rt, ok.param, ok.value, ok.raw, fault);
    }
  }

  lemma EarlyRuntimeStill(tx: Text, s: State, a: Action)
    requires By(a).Some? && !a.Claim? && !a.Sync? && !a.MarkApplied? && !a.MarkFailed? && !a.Compensate?
    ensures StepCall(tx, s, a).store.rt == s.store.rt
  {}

  lemma LateRuntimeStill(tx: Text, s: State, a: Action)
    requires a.Claim? || a.MarkApplied? || a.MarkFailed?
    ensures StepCall(tx, s, a).store.rt == s.store.rt
  {}

  /** Only startup, synchronisation and compensation move the runtime. */
  lemma CallRuntimeStill(tx: Text, s: State, a: Action)
    requires By(a).Some? && !a.Sync? && !a.Compensate?
    ensures StepCall(tx, s, a).store.rt == s.store.rt
  {
    if a.Claim? || a.MarkApplied? || a.MarkFailed? { LateRuntimeStill(tx, s, a); } else { EarlyRuntimeStill(tx, s, a); }
  }

  lemma RuntimeStill(tx: Text, s: State, a: Action)
    requires !a.Boot? && !a.RecoverRecord? && !a.Sync? && !a.Compensate?
    ensures Step(tx, s, a).store.rt == s.store.rt
  {
    if By(a).Some? { CallRuntimeStill(tx, s, a); }
  }

  /** Steps after which the call carries no snapshot, unless it did not move. */
  lemma NoNewSnapshot(tx: Text, s: State, a: Action)
    requires By(a).Some? && !a.SnapshotRuntime? && !a.Claim? && !a.Sync? && !a.MarkFailed?
    requires a.c in StepCall(tx, s, a).calls && HasSnapshot(StepCall(tx, s, a).calls[a.c])
    ensures a.c in s.calls && s.calls[a.c] == StepCall(tx, s, a).calls[a.c]
  {}

  lemma HandedOn(tx: Text, s: State, a: Action)
    requires a.Claim? || a.Sync? || a.MarkFailed?
    requires a.c in StepCall(tx, s, a).calls && HasSnapshot(StepCall(tx, s, a).calls[a.c])
    ensures a.c in s.calls && HasSnapshot(s.calls[a.c]) && StepCall(tx, s, a).calls[a.c].snap == s.calls[a.c].snap
  {}

  /** A snapshot is the runtime at the moment it is taken, and is only ever handed on. */
  lemma OwnSnapshot(tx: Text, s: State, a: Action)
    requires By(a).Some? && a.c in StepCall(tx, s, a).calls && HasSnapshot(StepCall(tx, s, a).calls[a.c])
    ensures var snap := StepCall(tx, s, a).calls[a.c].snap;
            snap == s.store.rt || (a.c in s.calls && HasSnapshot(s.calls[a.c]) && snap == s.calls[a.c].snap)
  {
    if a.Claim? || a.Sync? || a.MarkFailed? { HandedOn(tx, s, a); }
    else if !a.SnapshotRuntime? { NoNewSnapshot(tx, s, a); }
  }

  lemma SnapshotsFrom(tx: Text, s: State, a: Action, c: CallId)
    requires c in Step(tx, s, a).calls && HasSnapshot(Step(tx, s, a).calls[c])
    ensures var snap := Step(tx, s, a).calls[c].snap;
            snap == s.store.rt || (c in s.calls && HasSnapshot(s.calls[c]) && snap == s.calls[c].snap)
  {
    if By(a) == Some(c) {
      OwnSnapshot(tx, s, a);
    } else if By(a).Some? {
      CallFrame(tx, s, a);
      var t := Step(tx, s, a);
      assert c in t.calls - {a.c} && (t.calls - {a.c})[c] == (s.calls - {a.c})[c];
    } else {
      WorldCalls(tx, s, a);
    }
  }

  lemma WorldCalls(tx: Text, s: State, a: Action)
    requires By(a).None?
    ensures StepWorld(tx, s, a).calls == s.calls || StepWorld(tx, s, a).calls == map[]
  {}

  lemma SnapshotsLocked(tx: Text, s: State, a: Action)
    requires LockstepInv(s)
    ensures forall c :: c in Step(tx, s, a).calls && HasSnapshot(Step(tx, s, a).calls[c]) ==> Lockstep(Step(tx, s, a).calls[c].snap)
  {
    var t := Step(tx, s, a);
    forall c | c in t.calls && HasSnapshot(t.calls[c]) ensures Lockstep(t.calls[c].snap) { SnapshotsFrom(tx, s, a, c); }
  }

  lemma CallRuntimeLocked(tx: Text, s: State, a: Action)
    requires LockstepInv(s) && By(a).Some?
    ensures Lockstep(StepCall(tx, s, a).store.rt)
  {
    if a.Sync? { SyncLocked(tx, s, a.c, a.fault); }
    else if a.Compensate? { CompensateLocked(s, a.c); }
    else { CallRuntimeStill(tx, s, a); }
  }

  lemma CompensateLocked(s: State, c: CallId)
    requires LockstepInv(s)
    ensures Lockstep(StepCompensate(s, c).store.rt)
  {}

  lemma WorldRuntimeLocked(tx: Text, s: State, a: Action)
    requires LockstepInv(s) && By(a).None?
    ensures Lockstep(StepWorld(tx, s, a).store.rt)
  {
    if a.Boot? { BootLocked(tx, s, a.env, a.faults); assert StepWorld(tx, s, a) == StepBoot(tx, s, a.env, a.faults); }
    else if a.RecoverRecord? { RecoverLocked(tx, s, a.fault); assert StepWorld(tx, s, a) == StepRecover(tx, s, a.fault); }
    else { RuntimeStill(tx, s, a); assert StepWorld(tx, s, a).store.rt == s.store.rt; }
  }

  lemma LockstepStep(tx: Text, s: State, a: Action)
    requires LockstepInv(s)
    ensures LockstepInv(Step(tx, s, a))
  {
    SnapshotsLocked(tx, s, a);
    if By(a).Some? { CallRuntimeLocked(tx, s, a); } else { WorldRuntimeLocked(tx, s, a); }
  }

  lemma {:induction false} LockstepRun(tx: Text, env: Settings, acts: seq<Action>)
    ensures LockstepInv(Run(tx, Init(env), acts))
  {
    if acts != [] {
      LockstepRun(tx, env, Before(acts));
      LockstepStep(tx, Run(tx, Init(env), Before(acts)), Last(acts));
    }
  }

  /** At every point of every run, settings and RiskEngine agree on every parameter named `risk.*`, also
      after failed synchronisations whose compensation restores an older pair. */
  lemma AlwaysLockstep(tx: Text, env: Settings, acts: seq<Action>, p: Param)
    requires NamedRisk(p)
    ensures var rt := Run(tx, Init(env), acts).store.rt; rt.limits[p] == rt.settings[p]
  {
    LockstepRun(tx, env, acts);
    RiskByName(p);
  }
}
