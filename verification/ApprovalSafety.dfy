/** What every step of the approval machine keeps, and what follows for whole runs. */
module ApprovalSafety {
  import opened Options
  import opened ApprovalModel
  import opened ApprovalProtocol

  // ------------------------------------------------------------------ each step keeps the invariant

  /** A call that ends, or moves without touching the store, keeps the invariant. */
  lemma EndedKeeps(tx: Text, s: State, c: CallId)
    requires TextOk(tx) && Inv(tx, s)
    ensures Inv(tx, Ended(s, c))
  {}

  /** A call that only changes its own stage keeps the invariant. */
  lemma MovedKeeps(tx: Text, s: State, c: CallId, call: Call)
    requires Inv(tx, s) && c in s.calls && CallOk(tx, s.store, call) && call.id == s.calls[c].id
    requires Owner(call) ==> Owner(s.calls[c])
    ensures Inv(tx, Moved(s, c, call))
  {}

  lemma CreateKeeps(tx: Text, s: State, id: Id, row: Row)
    requires TextOk(tx) && Inv(tx, s)
    ensures Inv(tx, StepCreate(s, id, row))
  {
    var t := StepCreate(s, id, row);
    forall c | c in s.calls ensures CallOk(tx, t.store, t.calls[c]) { assert CallOk(tx, s.store, s.calls[c]); }
    forall i | i in t.store.records ensures RecordOk(tx, t.store, i) { assert RecordOk(tx, s.store, i); }
  }

  lemma BeginKeeps(tx: Text, s: State, a: Action)
    requires TextOk(tx) && Inv(tx, s) && (a.BeginApprove? || a.BeginReview? || a.BeginReject?)
    ensures Inv(tx, StepBegin(tx, s, a))
  {
    if StepBegin(tx, s, a) != s { assert CallOk(tx, s.store, StepBegin(tx, s, a).calls[a.c]); }
  }

  lemma CheckKeeps(tx: Text, s: State, c: CallId, gates: bool)
    requires TextOk(tx) && Inv(tx, s)
    ensures Inv(tx, StepCheck(tx, s, c, gates))
  {
    if At(s, c) && s.calls[c].ApproveRead? {
      var call := s.calls[c];
      ValidateGives(tx, call.row, s.store.rt, gates);
      match Validate(tx, call.row, s.store.rt, gates)
      case None => EndedKeeps(tx, s, c);
      case Some(ok) => MovedKeeps(tx, s, c, ApproveValidated(call.id, call.row, ok));
    }
  }

  lemma SnapshotKeeps(tx: Text, s: State, c: CallId)
    requires TextOk(tx) && Inv(tx, s)
    ensures Inv(tx, StepSnapshot(s, c))
  {}

  /** What a committed claim leaves of the invariant for the other calls: none of them owns its record. */
  lemma ClaimCalls(tx: Text, s: State, c: CallId, d: CallId)
    requires TextOk(tx) && Inv(tx, s) && Claimed(tx, s, Claim(c, true)).Some? && d in s.calls && d != c
    ensures CallOk(tx, Claimed(tx, s, Claim(c, true)).value, s.calls[d])
    ensures Owner(s.calls[d]) ==> s.calls[d].id != s.calls[c].id
  {
    var id := s.calls[c].id;
    assert CallOk(tx, s.store, s.calls[d]);
    RowFrame(tx, s.store, id, Approved, s.calls[d]);
    assert forall i :: i in s.store.records ==> RecordOk(tx, s.store, i);
  }

  lemma ClaimRecords(tx: Text, s: State, c: CallId)
    requires TextOk(tx) && Inv(tx, s) && Claimed(tx, s, Claim(c, true)).Some?
    ensures ClaimInv(tx, Claimed(tx, s, Claim(c, true)).value)
    ensures CallOk(tx, Claimed(tx, s, Claim(c, true)).value, ApproveClaimed(s.calls[c].id, s.calls[c].ok, s.calls[c].snap))
  {
    var id, t := s.calls[c].id, Claimed(tx, s, Claim(c, true)).value;
    assert CallOk(tx, s.store, s.calls[c]);
    forall i | i in t.records ensures RecordOk(tx, t, i) {
      if i != id { assert RecordOk(tx, s.store, i); }
    }
  }

  lemma ClaimKeeps(tx: Text, s: State, c: CallId, db: bool)
    requires TextOk(tx) && Inv(tx, s)
    ensures Inv(tx, StepClaim(tx, s, c, db))
  {
    if Claimed(tx, s, Claim(c, db)).Some? {
      ClaimRecords(tx, s, c);
      forall d | d in s.calls && d != c
        ensures CallOk(tx, Claimed(tx, s, Claim(c, true)).value, s.calls[d]) && (Owner(s.calls[d]) ==> s.calls[d].id != s.calls[c].id)
      {
        ClaimCalls(tx, s, c, d);
      }
    } else if At(s, c) { EndedKeeps(tx, s, c); }
  }

  /** Only the runtime moves: nothing the invariant speaks of changes. */
  lemma RuntimeKeeps(tx: Text, s: State, rt: Runtime)
    requires Inv(tx, s)
    ensures Inv(tx, s.(store := s.store.(rt := rt)))
  {
    var t := s.(store := s.store.(rt := rt));
    forall c | c in s.calls ensures CallOk(tx, t.store, t.calls[c]) { assert CallOk(tx, s.store, s.calls[c]); }
    forall id | id in s.store.records ensures RecordOk(tx, t.store, id) { assert RecordOk(tx, s.store, id); }
  }

  lemma SyncKeeps(tx: Text, s: State, c: CallId, fault: Fault)
    requires TextOk(tx) && Inv(tx, s)
    ensures Inv(tx, StepSync(tx, s, c, fault))
  {
    if At(s, c) && s.calls[c].ApproveClaimed? {
      var call := s.calls[c];
      var (rt, good) := Synchronise(tx, s.store.rt, call.ok.param, call.ok.value, call.ok.raw, fault);
      RuntimeKeeps(tx, s, rt);
      var t := s.(store := s.store.(rt := rt));
      assert CallOk(tx, t.store, call);
      MovedKeeps(tx, t, c, if good then ApproveSynced(call.id, call.ok) else ApproveFaulted(call.id, call.ok, call.snap));
    }
  }

  lemma CompensateKeeps(tx: Text, s: State, c: CallId)
    requires TextOk(tx) && Inv(tx, s)
    ensures Inv(tx, StepCompensate(s, c))
  {
    if At(s, c) && s.calls[c].ApproveCompensating? {
      RuntimeKeeps(tx, s, s.calls[c].snap);
      EndedKeeps(tx, s.(store := s.store.(rt := s.calls[c].snap)), c);
    }
  }

  /** The durable mark of an owned record touches that record alone. */
  lemma MarkFrame(tx: Text, s: State, c: CallId, to: ApplyStatus)
    requires TextOk(tx) && Inv(tx, s) && c in s.calls && Owner(s.calls[c]) && !s.calls[c].ApproveCompensating?
    requires to.Applied? || to.Failed?
    ensures var t := Marked(tx, s.store, s.calls[c].id, s.calls[c].ok.param, s.calls[c].ok.raw, to);
            ClaimInv(tx, t) && forall d :: d in s.calls && d != c ==> CallOk(tx, t, s.calls[d])
  {
    var t := Marked(tx, s.store, s.calls[c].id, s.calls[c].ok.param, s.calls[c].ok.raw, to);
    forall d | d in s.calls && d != c ensures CallOk(tx, t, s.calls[d]) { assert CallOk(tx, s.store, s.calls[d]); }
    forall id | id in t.records ensures RecordOk(tx, t, id) { assert RecordOk(tx, s.store, id); }
  }

  lemma MarkAppliedKeeps(tx: Text, s: State, c: CallId, db: bool)
    requires TextOk(tx) && Inv(tx, s)
    ensures Inv(tx, StepMarkApplied(tx, s, c, db))
  {
    if At(s, c) && s.calls[c].ApproveSynced? {
      if db { MarkFrame(tx, s, c, Applied); } else { EndedKeeps(tx, s, c); }
    }
  }

  lemma MarkFailedKeeps(tx: Text, s: State, c: CallId, db: bool)
    requires TextOk(tx) && Inv(tx, s)
    ensures Inv(tx, StepMarkFailed(tx, s, c, db))
  {
    if At(s, c) && s.calls[c].ApproveFaulted? {
      var call := s.calls[c];
      assert CallOk(tx, s.store, call);
      if db { FailureKeeps(tx, s, c); }
      else { MovedKeeps(tx, s, c, ApproveCompensating(call.id, call.ok, call.snap)); }
    }
  }

  lemma FailureKeeps(tx: Text, s: State, c: CallId)
    requires TextOk(tx) && Inv(tx, s) && c in s.calls && s.calls[c].ApproveFaulted?
    ensures var call := s.calls[c];
            Inv(tx, Moved(s.(store := Marked(tx, s.store, call.id, call.ok.param, call.ok.raw, Failed)), c,
                          ApproveCompensating(call.id, call.ok, call.snap)))
  {
    var call := s.calls[c];
    var t := Marked(tx, s.store, call.id, call.ok.param, call.ok.raw, Failed);
    MarkFrame(tx, s, c, Failed);
    assert CallOk(tx, s.store, call);
    OwnMoved(tx, s, t, c, ApproveCompensating(call.id, call.ok, call.snap));
  }

  /** The calls of a state whose owner `c` moves on over a changed store. */
  lemma OwnMoved(tx: Text, s: State, t: Store, c: CallId, to: Call)
    requires CallInv(tx, s) && ClaimInv(tx, t) && c in s.calls && Owner(s.calls[c]) && to.id == s.calls[c].id && CallOk(tx, t, to)
    requires forall d :: d in s.calls && d != c ==> CallOk(tx, t, s.calls[d])
    ensures Inv(tx, Moved(s.(store := t), c, to))
  {}

  /** One row moves on, by one version: what the other calls read about it stays fresh. */
  lemma RowFrame(tx: Text, st: Store, id: Id, to: Status, call: Call)
    requires id in st.rows && Actionable(st.rows[id].status) && CallOk(tx, st, call)
    requires (to.Reviewed? && st.rows[id].status.Pending?) || to.Approved? || to.Rejected?
    ensures forall v :: (to.Reviewed? ==> v == st.rows[id].version + 1) ==>
              CallOk(tx, st.(rows := st.rows[id := st.rows[id].(status := to, version := v)]), call)
  {}

  lemma DecideKeeps(tx: Text, s: State, a: Action)
    requires TextOk(tx) && Inv(tx, s) && (a.CommitReview? || a.CommitReject?)
    ensures Inv(tx, StepDecide(s, a))
  {
    if Decided(s, a).Some? {
      var id, t := s.calls[a.c].id, Decided(s, a).value;
      assert CallOk(tx, s.store, s.calls[a.c]);
      forall d | d in s.calls ensures CallOk(tx, t, s.calls[d]) {
        RowFrame(tx, s.store, id, t.rows[id].status, s.calls[d]);
      }
      forall i | i in t.records ensures RecordOk(tx, t, i) { assert RecordOk(tx, s.store, i); }
    } else if At(s, a.c) {
      EndedKeeps(tx, s, a.c);
    }
  }

  lemma ProcessFrame(tx: Text, s: State, a: Action)
    requires a.Crash? || a.Boot? || a.LoadRecords? || a.RecoverRecord? || a.FinishBoot?
    ensures var t := StepProcess(tx, s, a);
            && t.store == s.store.(rt := t.store.rt)
            && (t.calls == map[] || (t.calls == s.calls && (s.process.Up? ==> t.process.Up?)))
  {}

  lemma ProcessKeeps(tx: Text, s: State, a: Action)
    requires TextOk(tx) && Inv(tx, s) && (a.Crash? || a.Boot? || a.LoadRecords? || a.RecoverRecord? || a.FinishBoot?)
    ensures Inv(tx, StepProcess(tx, s, a))
  {
    ProcessFrame(tx, s, a);
    SameButRuntime(tx, s, StepProcess(tx, s, a));
  }

  lemma SameButRuntime(tx: Text, s: State, t: State)
    requires Inv(tx, s) && t.store == s.store.(rt := t.store.rt)
    requires t.calls == map[] || (t.calls == s.calls && (s.process.Up? ==> t.process.Up?))
    ensures Inv(tx, t)
  {
    RuntimeKeeps(tx, s, t.store.rt);
  }

  lemma MarkRecoveredKeeps(tx: Text, s: State, db: bool)
    requires TextOk(tx) && Inv(tx, s)
    ensures Inv(tx, StepMarkRecovered(s, db))
  {
    var t := StepMarkRecovered(s, db);
    forall id | id in t.store.records ensures RecordOk(tx, t.store, id) { assert RecordOk(tx, s.store, id); }
  }

  lemma CallKeeps(tx: Text, s: State, a: Action)
    requires TextOk(tx) && Inv(tx, s) && By(a).Some?
    ensures Inv(tx, StepCall(tx, s, a))
  {
    match a {
      case BeginApprove(_, _, _) => BeginKeeps(tx, s, a);
      case BeginReview(_, _, _) => BeginKeeps(tx, s, a);
      case BeginReject(_, _, _) => BeginKeeps(tx, s, a);
      case CheckApprove(c, gates) => CheckKeeps(tx, s, c, gates);
      case SnapshotRuntime(c) => SnapshotKeeps(tx, s, c);
      case Claim(c, db) => ClaimKeeps(tx, s, c, db);
      case Sync(c, fault) => SyncKeeps(tx, s, c, fault);
      case MarkApplied(c, db) => MarkAppliedKeeps(tx, s, c, db);
      case MarkFailed(c, db) => MarkFailedKeeps(tx, s, c, db);
      case Compensate(c) => CompensateKeeps(tx, s, c);
      case Abort(c) => EndedKeeps(tx, s, c);
      case CommitReview(_, _) => DecideKeeps(tx, s, a);
      case CommitReject(_, _) => DecideKeeps(tx, s, a);
    }
  }

  lemma StepKeeps(tx: Text, s: State, a: Action)
    requires TextOk(tx) && Inv(tx, s)
    ensures Inv(tx, Step(tx, s, a))
  {
    if By(a).Some? { CallKeeps(tx, s, a); }
    else {
      match a {
        case Create(id, row) => CreateKeeps(tx, s, id, row);
        case MarkRecovered(db) => MarkRecoveredKeeps(tx, s, db);
        case _ => ProcessKeeps(tx, s, a);
      }
    }
  }

  lemma {:induction false} RunKeeps(tx: Text, s: State, acts: seq<Action>)
    requires TextOk(tx) && Inv(tx, s)
    ensures Inv(tx, Run(tx, s, acts))
  {
    if acts != [] {
      RunKeeps(tx, s, acts[..|acts| - 1]);
      StepKeeps(tx, Run(tx, s, acts[..|acts| - 1]), acts[|acts| - 1]);
    }
  }
}
