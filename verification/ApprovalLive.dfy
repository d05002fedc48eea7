/** While the program runs: exactly when the live values stay the desired ones. Only a compensation can
    take a settled value out of the runtime, and only one whose snapshot another call has overtaken. */
module ApprovalLive {
  import opened Options
  import opened Sequences
  import opened ApprovalModel
  import opened ApprovalProtocol
  import opened ApprovalSafety
  import opened ApprovalRuns
  import opened ApprovalRecovery
  import opened ApprovalConvergence
  import opened ApprovalStaleness

  /** The runtime holds the desired value of every parameter that has no unfinished record. */
  ghost predicate Settled(tx: Text, st: Store, rt: Runtime) {
    forall p :: p in st.config && NoneOpen(tx, st, p) ==> Holds(tx, rt, p, st.config[p])
  }

  /** The runtime holds the value of every call that has verified it and not yet marked its record. */
  ghost predicate SyncedHeld(tx: Text, calls: map<CallId, Call>, rt: Runtime) {
    forall c :: c in calls && calls[c].ApproveSynced? ==> Holds(tx, rt, calls[c].ok.param, calls[c].ok.raw)
  }

  /** What a running program owes its operators: every applied value is live. */
  ghost predicate Kept(tx: Text, s: State) {
    s.process.Up? ==> Settled(tx, s.store, s.store.rt) && SyncedHeld(tx, s.calls, s.store.rt)
  }

  /** The parameter has a desired value and no unfinished record, or a call that just verified it. */
  ghost predicate Protected(tx: Text, s: State, p: Param) {
    (p in s.store.config && NoneOpen(tx, s.store, p)) || exists c :: c in s.calls && s.calls[c].ApproveSynced? && s.calls[c].ok.param == p
  }

  predicate Compensates(s: State, a: Action) { a.Compensate? && At(s, a.c) && s.calls[a.c].ApproveCompensating? }

  /** The action is a compensation whose snapshot has another value of a protected parameter than the
      live settings: somebody changed that parameter after the snapshot was taken. */
  ghost predicate Clobbers(tx: Text, s: State, a: Action) {
    Compensates(s, a) && exists p :: Protected(tx, s, p) && s.calls[a.c].snap.settings[p] != s.store.rt.settings[p]
  }

  // ------------------------------------------------------------------ settled runtimes

  /** With the desired values kept, only a record that becomes finished adds an obligation. */
  lemma SettledFrame(tx: Text, st: Store, t: Store, rt: Runtime)
    requires Settled(tx, st, rt) && t.config == st.config
    requires forall p :: NoneOpen(tx, t, p) ==> NoneOpen(tx, st, p)
    ensures Settled(tx, t, rt)
  {}

  lemma SettledStore(tx: Text, st: Store, t: Store, rt: Runtime)
    requires t.config == st.config && t.records == st.records
    ensures Settled(tx, st, rt) <==> Settled(tx, t, rt)
  {
    assert forall p :: NoneOpen(tx, t, p) <==> NoneOpen(tx, st, p);
  }

  /** The claim opens its own record and changes one desired value: everything else stays settled. */
  lemma ClaimSettled(tx: Text, st: Store, t: Store, id: Id, p: Param, raw: string, rt: Runtime)
    requires TextOk(tx) && Settled(tx, st, rt) && id !in st.records
    requires t.config == st.config[p := raw] && t.records == st.records[id := Record(tx.name(p), raw, Applying)]
    ensures Settled(tx, t, rt)
  {
    forall q | q in t.config && NoneOpen(tx, t, q) ensures Holds(tx, rt, q, t.config[q]) {
      assert !Concerns(tx, t.records[id], q);
      forall i | i in st.records ensures !Concerns(tx, st.records[i], q) { assert t.records[i] == st.records[i]; }
      assert NoneOpen(tx, st, q);
    }
  }

  lemma ClaimIsNew(tx: Text, s: State, a: Action)
    requires Inv(tx, s) && Claimed(tx, s, a).Some?
    ensures s.calls[a.c].id !in s.store.records
  {
    assert forall i :: i in s.store.records ==> RecordOk(tx, s.store, i);
  }

  /** An owner's record is unfinished. */
  lemma OwnOpen(tx: Text, st: Store, call: Call)
    requires TextOk(tx) && ClaimInv(tx, st) && CallOk(tx, st, call) && Owner(call)
    ensures call.id in st.records && Concerns(tx, st.records[call.id], call.ok.param) && !NoneOpen(tx, st, call.ok.param)
  {
    assert RecordOk(tx, st, call.id);
  }

  /** Rewriting a record settles at most its own parameter. */
  lemma MarkOpens(tx: Text, st: Store, t: Store, id: Id, p: Param, raw: string, to: ApplyStatus)
    requires TextOk(tx) && t.records == st.records[id := Record(tx.name(p), raw, to)]
    requires id in st.records && st.records[id].Record? && st.records[id].param == tx.name(p)
    ensures forall q :: q != p && NoneOpen(tx, t, q) ==> NoneOpen(tx, st, q)
    ensures !to.Applied? ==> !NoneOpen(tx, t, p)
  {
    assert tx.lookup(tx.name(p)) == Some(p);
    forall q | q != p && NoneOpen(tx, t, q) ensures NoneOpen(tx, st, q) {
      forall i | i in st.records ensures !Concerns(tx, st.records[i], q) {
        if i != id { assert t.records[i] == st.records[i]; }
      }
    }
    assert Concerns(tx, t.records[id], p) <==> !to.Applied?;
  }

  // ------------------------------------------------------------------ owners of different parameters

  /** Two calls that own unfinished records own them for different parameters. */
  ghost predicate OwnersApart(s: State) {
    forall c, d :: c in s.calls && d in s.calls && c != d && Owner(s.calls[c]) && Owner(s.calls[d]) ==>
      s.calls[c].ok.param != s.calls[d].ok.param
  }

  lemma OffAgree(s: State, t: State, c: CallId)
    requires t.calls - {c} == s.calls - {c}
    ensures forall d :: d != c ==> (d in t.calls <==> d in s.calls)
    ensures forall d :: d != c && d in s.calls ==> t.calls[d] == s.calls[d]
  {
    forall d | d != c ensures (d in t.calls <==> d in s.calls) && (d in s.calls ==> t.calls[d] == s.calls[d]) {
      assert d in t.calls - {c} <==> d in s.calls - {c};
      if d in s.calls { assert (t.calls - {c})[d] == (s.calls - {c})[d]; }
    }
  }

  lemma OwnOwner(tx: Text, s: State, a: Action)
    requires By(a).Some? && a.c in StepCall(tx, s, a).calls && Owner(StepCall(tx, s, a).calls[a.c])
    ensures a.c in s.calls && StepCall(tx, s, a).calls[a.c].ok == s.calls[a.c].ok
    ensures Owner(s.calls[a.c]) || Claimed(tx, s, a).Some?
  {}

  lemma ApartStep(tx: Text, s: State, a: Action)
    requires TextOk(tx) && Inv(tx, s) && OwnersApart(s)
    requires Claimed(tx, s, a).Some? ==> NoneOpen(tx, s.store, s.calls[a.c].ok.param)
    ensures OwnersApart(Step(tx, s, a))
  {
    if By(a).Some? {
      CallFrame(tx, s, a);
      OffAgree(s, Step(tx, s, a), a.c);
      if a.c in Step(tx, s, a).calls && Owner(Step(tx, s, a).calls[a.c]) {
        OwnOwner(tx, s, a);
        forall d | d in s.calls && d != a.c && Owner(s.calls[d]) ensures s.calls[d].ok.param != s.calls[a.c].ok.param {
          OwnOpen(tx, s.store, s.calls[d]);
        }
      }
    } else {
      WorldCalls(tx, s, a);
    }
  }

  // ------------------------------------------------------------------ one step

  /** A step that leaves desired values, records, runtime and process alone and synchronises no call. */
  ghost predicate Quiet(s: State, t: State, c: CallId) {
    && t.store.config == s.store.config && t.store.records == s.store.records && t.store.rt == s.store.rt
    && t.process == s.process && t.calls - {c} == s.calls - {c}
    && (c in t.calls && t.calls[c].ApproveSynced? ==> c in s.calls && t.calls[c] == s.calls[c])
  }

  lemma QuietKeeps(tx: Text, s: State, t: State, c: CallId)
    requires Kept(tx, s) && Quiet(s, t, c)
    ensures Kept(tx, t)
  {
    OffAgree(s, t, c);
    SettledStore(tx, s.store, t.store, t.store.rt);
  }

  lemma BeginQuiet(tx: Text, s: State, a: Action)
    requires a.BeginApprove? || a.BeginReview? || a.BeginReject?
    ensures Quiet(s, StepBegin(tx, s, a), a.c)
  {}

  lemma CheckQuiet(tx: Text, s: State, c: CallId, gates: bool)
    ensures Quiet(s, StepCheck(tx, s, c, gates), c)
  {}

  lemma SnapshotQuiet(s: State, c: CallId)
    ensures Quiet(s, StepSnapshot(s, c), c)
  {}

  lemma ClaimQuiet(tx: Text, s: State, c: CallId, db: bool)
    requires Claimed(tx, s, Claim(c, db)).None?
    ensures Quiet(s, StepClaim(tx, s, c, db), c)
  {}

  lemma DecideQuiet(s: State, a: Action)
    requires a.CommitReview? || a.CommitReject?
    ensures Quiet(s, StepDecide(s, a), a.c)
  {}

  lemma AbortQuiet(s: State, c: CallId)
    ensures Quiet(s, StepAbort(s, c), c)
  {}

  lemma ClaimKept(tx: Text, s: State, a: Action)
    requires TextOk(tx) && Inv(tx, s) && Kept(tx, s) && Claimed(tx, s, a).Some?
    ensures Kept(tx, StepClaim(tx, s, a.c, a.db))
  {
    var call, t := s.calls[a.c], StepClaim(tx, s, a.c, a.db);
    ClaimIsNew(tx, s, a);
    ClaimSettled(tx, s.store, t.store, call.id, call.ok.param, call.ok.raw, s.store.rt);
    assert t.store.rt == s.store.rt;
  }

  /** Applying a value disturbs no other parameter, whether or not it is then verified. */
  lemma OthersHold(tx: Text, rt: Runtime, p: Param, v: Value, raw: string, fault: Fault)
    ensures var next := Synchronise(tx, rt, p, v, raw, fault).0;
            forall q, text :: q != p && Holds(tx, rt, q, text) ==> Holds(tx, next, q, text)
  {}

  lemma SyncKept(tx: Text, s: State, c: CallId, fault: Fault)
    requires TextOk(tx) && Inv(tx, s) && OwnersApart(s) && Kept(tx, s)
    ensures Kept(tx, StepSync(tx, s, c, fault))
  {
    if At(s, c) && s.calls[c].ApproveClaimed? {
      var call := s.calls[c];
      assert CallOk(tx, s.store, call);
      OwnOpen(tx, s.store, call);
      OthersHold(tx, s.store.rt, call.ok.param, call.ok.value, call.ok.raw, fault);
      SyncHolds(tx, s.store.rt, call.ok.param, call.ok.raw, fault);
      var (rt, good) := Synchronise(tx, s.store.rt, call.ok.param, call.ok.value, call.ok.raw, fault);
      assert forall d :: d in s.calls && d != c && s.calls[d].ApproveSynced? ==> Owner(s.calls[d]);
      InstalledKept(tx, s, c, rt, if good then ApproveSynced(call.id, call.ok) else ApproveFaulted(call.id, call.ok, call.snap));
    }
  }

  lemma InstalledKept(tx: Text, s: State, c: CallId, rt: Runtime, to: Call)
    requires Kept(tx, s) && s.process.Up? && c in s.calls && Owner(s.calls[c]) && !NoneOpen(tx, s.store, s.calls[c].ok.param)
    requires forall q, text :: q != s.calls[c].ok.param && Holds(tx, s.store.rt, q, text) ==> Holds(tx, rt, q, text)
    requires forall d :: d in s.calls && d != c && s.calls[d].ApproveSynced? ==> s.calls[d].ok.param != s.calls[c].ok.param
    requires to.ApproveSynced? ==> Holds(tx, rt, to.ok.param, to.ok.raw)
    ensures Kept(tx, Moved(s.(store := s.store.(rt := rt)), c, to))
  {
    SettledStore(tx, s.store, s.store.(rt := rt), rt);
  }

  lemma MarkAppliedKept(tx: Text, s: State, c: CallId, db: bool)
    requires TextOk(tx) && Inv(tx, s) && Agreed(tx, s.store) && Kept(tx, s)
    ensures Kept(tx, StepMarkApplied(tx, s, c, db))
  {
    if At(s, c) && s.calls[c].ApproveSynced? {
      if db { AppliedSettled(tx, s.store, s.calls[c]); }
    }
  }

  /** The record that becomes finished carries the desired value, which the runtime holds. */
  lemma AppliedSettled(tx: Text, st: Store, call: Call)
    requires TextOk(tx) && CallOk(tx, st, call) && call.ApproveSynced? && Agreed(tx, st)
    requires Settled(tx, st, st.rt) && Holds(tx, st.rt, call.ok.param, call.ok.raw)
    ensures var t := Marked(tx, st, call.id, call.ok.param, call.ok.raw, Applied); Settled(tx, t, t.rt)
  {
    var t := Marked(tx, st, call.id, call.ok.param, call.ok.raw, Applied);
    MarkOpens(tx, st, t, call.id, call.ok.param, call.ok.raw, Applied);
    assert Unfinished(st.records[call.id]) && tx.lookup(st.records[call.id].param) == Some(call.ok.param);
    forall p | p in t.config && NoneOpen(tx, t, p) ensures Holds(tx, t.rt, p, t.config[p]) {
      assert p == call.ok.param || NoneOpen(tx, st, p);
    }
  }

  lemma MarkFailedKept(tx: Text, s: State, c: CallId, db: bool)
    requires TextOk(tx) && Inv(tx, s) && Kept(tx, s)
    ensures Kept(tx, StepMarkFailed(tx, s, c, db))
  {
    if At(s, c) && s.calls[c].ApproveFaulted? {
      if db { FailedSettled(tx, s.store, s.calls[c], s.store.rt); }
    }
  }

  lemma FailedSettled(tx: Text, st: Store, call: Call, rt: Runtime)
    requires TextOk(tx) && CallOk(tx, st, call) && call.ApproveFaulted? && Settled(tx, st, rt)
    ensures Settled(tx, Marked(tx, st, call.id, call.ok.param, call.ok.raw, Failed), rt)
  {
    var t := Marked(tx, st, call.id, call.ok.param, call.ok.raw, Failed);
    MarkOpens(tx, st, t, call.id, call.ok.param, call.ok.raw, Failed);
    assert forall p :: NoneOpen(tx, t, p) ==> p != call.ok.param;
    SettledFrame(tx, st, t, rt);
  }

  /** Two runtimes in lockstep that both hold a text of a parameter agree on it, and conversely. */
  lemma HoldsSame(tx: Text, a: Runtime, b: Runtime, p: Param, raw: string)
    requires Lockstep(a) && Lockstep(b) && Holds(tx, a, p, raw)
    ensures Holds(tx, b, p, raw) <==> b.settings[p] == a.settings[p]
  {}

  /** A compensation keeps the live values exactly when it clobbers none. */
  lemma CompensateIff(tx: Text, s: State, a: Action)
    requires LockstepInv(s) && Kept(tx, s) && Compensates(s, a)
    ensures Kept(tx, StepCompensate(s, a.c)) <==> !Clobbers(tx, s, a)
  {
    var t, snap := StepCompensate(s, a.c), s.calls[a.c].snap;
    assert t.store.rt == snap && t.calls == s.calls - {a.c} && t.process.Up?;
    SettledStore(tx, s.store, t.store, snap);
    if Clobbers(tx, s, a) {
      var p :| Protected(tx, s, p) && snap.settings[p] != s.store.rt.settings[p];
      ClobberedShows(tx, s, a.c, p);
    } else {
      forall p | p in s.store.config && NoneOpen(tx, s.store, p) ensures Holds(tx, snap, p, s.store.config[p]) {
        assert Protected(tx, s, p);
        HoldsSame(tx, s.store.rt, snap, p, s.store.config[p]);
      }
      forall d | d in t.calls && t.calls[d].ApproveSynced? ensures Holds(tx, snap, t.calls[d].ok.param, t.calls[d].ok.raw) {
        assert Protected(tx, s, s.calls[d].ok.param);
        HoldsSame(tx, s.store.rt, snap, s.calls[d].ok.param, s.calls[d].ok.raw);
      }
    }
  }

  lemma ClobberedShows(tx: Text, s: State, c: CallId, p: Param)
    requires LockstepInv(s) && Kept(tx, s) && At(s, c) && s.calls[c].ApproveCompensating? && Protected(tx, s, p)
    requires s.calls[c].snap.settings[p] != s.store.rt.settings[p]
    ensures !(Settled(tx, s.store, s.calls[c].snap) && SyncedHeld(tx, s.calls - {c}, s.calls[c].snap))
  {
    if p in s.store.config && NoneOpen(tx, s.store, p) {
      HoldsSame(tx, s.store.rt, s.calls[c].snap, p, s.store.config[p]);
    } else {
      var d :| d in s.calls && s.calls[d].ApproveSynced? && s.calls[d].ok.param == p;
      HoldsSame(tx, s.store.rt, s.calls[c].snap, p, s.calls[d].ok.raw);
      assert d in s.calls - {c} && (s.calls - {c})[d] == s.calls[d];
    }
  }

  lemma CallKept(tx: Text, s: State, a: Action)
    requires TextOk(tx) && Inv(tx, s) && Agreed(tx, s.store) && OwnersApart(s) && Kept(tx, s)
    requires By(a).Some? && !a.Compensate?
    ensures Kept(tx, StepCall(tx, s, a))
  {
    match a {
      case BeginApprove(_, _, _) => BeginQuiet(tx, s, a); QuietKeeps(tx, s, StepBegin(tx, s, a), a.c);
      case BeginReview(_, _, _) => BeginQuiet(tx, s, a); QuietKeeps(tx, s, StepBegin(tx, s, a), a.c);
      case BeginReject(_, _, _) => BeginQuiet(tx, s, a); QuietKeeps(tx, s, StepBegin(tx, s, a), a.c);
      case CheckApprove(c, gates) => CheckQuiet(tx, s, c, gates); QuietKeeps(tx, s, StepCheck(tx, s, c, gates), c);
      case SnapshotRuntime(c) => SnapshotQuiet(s, c); QuietKeeps(tx, s, StepSnapshot(s, c), c);
      case Claim(c, db) =>
        if Claimed(tx, s, a).Some? { ClaimKept(tx, s, a); }
        else { ClaimQuiet(tx, s, c, db); QuietKeeps(tx, s, StepClaim(tx, s, c, db), c); }
      case Sync(c, fault) => SyncKept(tx, s, c, fault);
      case MarkApplied(c, db) => MarkAppliedKept(tx, s, c, db);
      case MarkFailed(c, db) => MarkFailedKept(tx, s, c, db);
      case Abort(c) => AbortQuiet(s, c); QuietKeeps(tx, s, StepAbort(s, c), c);
      case CommitReview(_, _) => DecideQuiet(s, a); QuietKeeps(tx, s, StepDecide(s, a), a.c);
      case CommitReject(_, _) => DecideQuiet(s, a); QuietKeeps(tx, s, StepDecide(s, a), a.c);
    }
  }

  lemma WorldKept(tx: Text, s: State, a: Action)
    requires Inv(tx, s) && Kept(tx, s) && By(a).None? && BootHolds(tx, s)
    ensures Kept(tx, StepWorld(tx, s, a))
  {
    var t := StepWorld(tx, s, a);
    if s.process.Up? {
      if !a.Crash? {
        UpWorld(tx, s, a);
        SettledStore(tx, s.store, t.store, t.store.rt);
      }
    } else {
      if t.process.Up? { NewlyUp(tx, s, a); }
    }
  }

  lemma UpWorld(tx: Text, s: State, a: Action)
    requires By(a).None? && s.process.Up? && !a.Crash?
    ensures StepWorld(tx, s, a).(store := s.store) == s
    ensures var t := StepWorld(tx, s, a).store; t.config == s.store.config && t.records == s.store.records && t.rt == s.store.rt
  {}

  lemma NewlyUp(tx: Text, s: State, a: Action)
    requires By(a).None? && !s.process.Up? && StepWorld(tx, s, a).process.Up?
    ensures s.process == Recovering([]) && StepWorld(tx, s, a) == s.(process := Up)
  {}

  lemma KeptStep(tx: Text, s: State, a: Action)
    requires TextOk(tx) && Inv(tx, s) && LockstepInv(s) && Agreed(tx, s.store) && BootHolds(tx, s) && OwnersApart(s) && Kept(tx, s)
    ensures Kept(tx, Step(tx, s, a)) <==> !Clobbers(tx, s, a)
  {
    if a.Compensate? {
      if Compensates(s, a) { CompensateIff(tx, s, a); }
    } else if By(a).Some? {
      CallKept(tx, s, a);
    } else {
      WorldKept(tx, s, a);
    }
  }

  // ------------------------------------------------------------------ whole runs

  ghost predicate AlwaysKept(tx: Text, s: State, acts: seq<Action>) { forall k :: 0 <= k <= |acts| ==> Kept(tx, Run(tx, s, acts[..k])) }

  ghost predicate NeverClobbers(tx: Text, s: State, acts: seq<Action>) {
    forall k :: 0 <= k < |acts| ==> !Clobbers(tx, Run(tx, s, acts[..k]), acts[k])
  }

  lemma KeptPrefix(tx: Text, s: State, acts: seq<Action>)
    requires acts != []
    ensures AlwaysKept(tx, s, acts) <==> AlwaysKept(tx, s, Before(acts)) && Kept(tx, Run(tx, s, acts))
    ensures AlwaysKept(tx, s, Before(acts)) ==> Kept(tx, Run(tx, s, Before(acts)))
  {
    var init := Before(acts);
    assert acts[..|acts|] == acts && init[..|init|] == init;
    assert forall k :: 0 <= k <= |init| ==> init[..k] == acts[..k];
    if AlwaysKept(tx, s, acts) {
      forall k | 0 <= k <= |init| ensures Kept(tx, Run(tx, s, init[..k])) { assert Kept(tx, Run(tx, s, acts[..k])); }
      assert Kept(tx, Run(tx, s, acts[..|acts|]));
    }
    if AlwaysKept(tx, s, init) && Kept(tx, Run(tx, s, acts)) {
      forall k | 0 <= k <= |acts| ensures Kept(tx, Run(tx, s, acts[..k])) {
        if k < |acts| { assert Kept(tx, Run(tx, s, init[..k])); }
      }
    }
  }

  lemma ClobberPrefix(tx: Text, s: State, acts: seq<Action>)
    requires acts != []
    ensures NeverClobbers(tx, s, acts) <==> NeverClobbers(tx, s, Before(acts)) && !Clobbers(tx, Run(tx, s, Before(acts)), Last(acts))
  {
    var init := Before(acts);
    assert forall k :: 0 <= k <= |init| ==> init[..k] == acts[..k];
    if NeverClobbers(tx, s, acts) {
      forall k | 0 <= k < |init| ensures !Clobbers(tx, Run(tx, s, init[..k]), init[k]) {
        assert !Clobbers(tx, Run(tx, s, acts[..k]), acts[k]);
      }
      assert !Clobbers(tx, Run(tx, s, acts[..|init|]), acts[|init|]);
    }
    if NeverClobbers(tx, s, init) && !Clobbers(tx, Run(tx, s, init), Last(acts)) {
      forall k | 0 <= k < |acts| ensures !Clobbers(tx, Run(tx, s, acts[..k]), acts[k]) {
        if k < |init| { assert !Clobbers(tx, Run(tx, s, init[..k]), init[k]); }
      }
    }
  }

  lemma {:induction false} ApartRun(tx: Text, env: Settings, acts: seq<Action>)
    requires TextOk(tx) && SerialClaims(tx, Init(env), acts)
    ensures OwnersApart(Run(tx, Init(env), acts))
  {
    if acts != [] {
      SerialPrefix(tx, Init(env), acts);
      ApartRun(tx, env, Before(acts));
      RunKeeps(tx, Init(env), Before(acts));
      ApartStep(tx, Run(tx, Init(env), Before(acts)), Last(acts));
    }
  }

  /** Over every run with serial claims, however the calls overlap, fail, are cancelled or crash: at every
      point of the running program every parameter without an unfinished record, and every value just
      verified, is live in settings and RiskEngine, if and only if no compensation restores another value
      of such a parameter. */
  lemma {:induction false} KeptIff(tx: Text, env: Settings, acts: seq<Action>)
    requires TextOk(tx) && SerialClaims(tx, Init(env), acts)
    ensures AlwaysKept(tx, Init(env), acts) <==> NeverClobbers(tx, Init(env), acts)
  {
    if acts != [] {
      var init := Before(acts);
      SerialPrefix(tx, Init(env), acts);
      KeptIff(tx, env, init);
      KeptPrefix(tx, Init(env), acts);
      ClobberPrefix(tx, Init(env), acts);
      if AlwaysKept(tx, Init(env), init) {
        RunKeeps(tx, Init(env), init);
        LockstepRun(tx, env, init);
        SerialRun(tx, env, init);
        ApartRun(tx, env, init);
        KeptStep(tx, Run(tx, Init(env), init), Last(acts));
      }
    } else {
      assert acts[..0] == acts;
    }
  }

  // ------------------------------------------------------------------ what a caller can arrange

  /** No compensation runs after another call has changed the runtime since the failed call's snapshot. */
  ghost predicate UndisturbedCompensations(tx: Text, s: State, acts: seq<Action>) {
    forall k :: 0 <= k < |acts| && Compensates(Run(tx, s, acts[..k]), acts[k]) ==> !Disturbed(tx, s, acts[..k], acts[k].c, Snapshotting)
  }

  /** An undisturbed snapshot differs from the live settings at most in the call's own parameter. */
  ghost predicate SnapOk(tx: Text, s: State, acts: seq<Action>, c: CallId) {
    var t := Run(tx, s, acts);
    c in t.calls && HasSnapshot(t.calls[c]) && !Disturbed(tx, s, acts, c, Snapshotting) ==>
      OnlyOwn(t.calls[c], t.store.rt)
  }

  ghost predicate OnlyOwn(call: Call, rt: Runtime)
    requires HasSnapshot(call)
  {
    forall q :: q != call.ok.param ==> call.snap.settings[q] == rt.settings[q]
  }

  lemma SnapFrom(tx: Text, s: State, a: Action, c: CallId)
    requires c in Step(tx, s, a).calls && HasSnapshot(Step(tx, s, a).calls[c]) && !Passes(s, a, c, Snapshotting)
    ensures c in s.calls && HasSnapshot(s.calls[c])
    ensures Step(tx, s, a).calls[c].snap == s.calls[c].snap && Step(tx, s, a).calls[c].ok == s.calls[c].ok
  {
    if By(a) == Some(c) {
      if a.Claim? || a.Sync? || a.MarkFailed? { HandedOn(tx, s, a); SameOk(tx, s, a); }
      else if !a.SnapshotRuntime? { NoNewSnapshot(tx, s, a); }
    } else if By(a).Some? {
      CallFrame(tx, s, a);
      OffAgree(s, Step(tx, s, a), a.c);
    } else {
      WorldCalls(tx, s, a);
    }
  }

  lemma SameOk(tx: Text, s: State, a: Action)
    requires (a.Claim? || a.Sync? || a.MarkFailed?) && a.c in StepCall(tx, s, a).calls && HasSnapshot(StepCall(tx, s, a).calls[a.c])
    ensures a.c in s.calls && HasSnapshot(s.calls[a.c]) && StepCall(tx, s, a).calls[a.c].ok == s.calls[a.c].ok
  {}

  lemma SyncOwn(tx: Text, s: State, c: CallId, fault: Fault)
    requires c in s.calls && HasSnapshot(s.calls[c]) && OnlyOwn(s.calls[c], s.store.rt)
    ensures OnlyOwn(s.calls[c], StepSync(tx, s, c, fault).store.rt)
  {
    if At(s, c) && s.calls[c].ApproveClaimed? {
      var ok := s.calls[c].ok;
      SyncSettings(tx, s.store.rt, ok.param, ok.value, ok.raw, fault);
    }
  }

  lemma SyncSettings(tx: Text, rt: Runtime, p: Param, v: Value, raw: string, fault: Fault)
    ensures forall q :: q != p ==> Synchronise(tx, rt, p, v, raw, fault).0.settings[q] == rt.settings[q]
  {
    InstalledSettings(rt, p, v);
    SyncRuntime(tx, rt, p, v, raw, fault);
  }

  lemma InstalledSettings(rt: Runtime, p: Param, v: Value)
    ensures forall q :: q != p ==> Installed(rt, p, v).settings[q] == rt.settings[q]
  {}

  lemma SyncRuntime(tx: Text, rt: Runtime, p: Param, v: Value, raw: string, fault: Fault)
    ensures var next := Synchronise(tx, rt, p, v, raw, fault).0; next == rt || next == Installed(rt, p, v)
  {}

  lemma CompensateEnds(s: State, c: CallId)
    requires c in StepCompensate(s, c).calls
    ensures StepCompensate(s, c) == s
  {}

  lemma OwnStepMove(tx: Text, s: State, a: Action)
    requires By(a).Some? && a.c in s.calls && HasSnapshot(s.calls[a.c]) && a.c in StepCall(tx, s, a).calls
    requires OnlyOwn(s.calls[a.c], s.store.rt)
    ensures OnlyOwn(s.calls[a.c], StepCall(tx, s, a).store.rt)
  {
    if a.Sync? { SyncOwn(tx, s, a.c, a.fault); }
    else if a.Compensate? { CompensateEnds(s, a.c); }
    else { CallRuntimeStill(tx, s, a); }
  }

  /** While a call holds a snapshot and nobody else moves the runtime, only its own parameter can change. */
  lemma OwnMove(tx: Text, s: State, a: Action, c: CallId)
    requires CallInv(tx, s) && c in s.calls && HasSnapshot(s.calls[c]) && !OtherMoves(tx, s, a, c)
    requires c in Step(tx, s, a).calls && OnlyOwn(s.calls[c], s.store.rt)
    ensures OnlyOwn(s.calls[c], Step(tx, s, a).store.rt)
  {
    if By(a) == Some(c) { OwnStepMove(tx, s, a); }
    else if By(a).None? { UpStill(tx, s, a); }
  }

  lemma SnapNext(tx: Text, s: State, a: Action, c: CallId)
    requires CallInv(tx, s) && c in Step(tx, s, a).calls && HasSnapshot(Step(tx, s, a).calls[c])
    requires !OtherMoves(tx, s, a, c) && !Passes(s, a, c, Snapshotting)
    requires c in s.calls && HasSnapshot(s.calls[c]) ==> OnlyOwn(s.calls[c], s.store.rt)
    ensures OnlyOwn(Step(tx, s, a).calls[c], Step(tx, s, a).store.rt)
  {
    SnapFrom(tx, s, a, c);
    OwnMove(tx, s, a, c);
  }

  lemma SnapTaken(tx: Text, s: State, a: Action, c: CallId)
    requires Passes(s, a, c, Snapshotting)
    ensures var t := Step(tx, s, a); c in t.calls && HasSnapshot(t.calls[c]) && OnlyOwn(t.calls[c], t.store.rt)
  {}

  lemma {:induction false} SnapRun(tx: Text, env: Settings, acts: seq<Action>, c: CallId)
    requires TextOk(tx)
    ensures SnapOk(tx, Init(env), acts, c)
  {
    if acts != [] {
      var s, a := Run(tx, Init(env), Before(acts)), Last(acts);
      SnapRun(tx, env, Before(acts), c);
      RunKeeps(tx, Init(env), Before(acts));
      var t := Step(tx, s, a);
      if Passes(s, a, c, Snapshotting) {
        SnapTaken(tx, s, a, c);
      } else if c in t.calls && HasSnapshot(t.calls[c]) && !Disturbed(tx, Init(env), acts, c, Snapshotting) {
        SnapNext(tx, s, a, c);
      }
    }
  }

  /** The call's own parameter is not protected while it compensates: its record is unfinished, and no
      other call owns one for it. */
  lemma OwnUnprotected(tx: Text, s: State, c: CallId)
    requires TextOk(tx) && Inv(tx, s) && OwnersApart(s) && c in s.calls && s.calls[c].ApproveCompensating?
    ensures !Protected(tx, s, s.calls[c].ok.param)
  {
    assert CallOk(tx, s.store, s.calls[c]);
    OwnOpen(tx, s.store, s.calls[c]);
    assert forall d :: d in s.calls && s.calls[d].ApproveSynced? ==> d != c && Owner(s.calls[d]);
  }

  lemma UndisturbedHarmless(tx: Text, env: Settings, acts: seq<Action>, a: Action)
    requires TextOk(tx) && SerialClaims(tx, Init(env), acts) && Compensates(Run(tx, Init(env), acts), a)
    requires !Disturbed(tx, Init(env), acts, a.c, Snapshotting)
    ensures !Clobbers(tx, Run(tx, Init(env), acts), a)
  {
    RunKeeps(tx, Init(env), acts);
    SnapRun(tx, env, acts, a.c);
    ApartRun(tx, env, acts);
    OwnUnprotected(tx, Run(tx, Init(env), acts), a.c);
  }

  lemma SerialUpTo(tx: Text, s: State, acts: seq<Action>, k: nat)
    requires k <= |acts| && SerialClaims(tx, s, acts)
    ensures SerialClaims(tx, s, acts[..k])
  {
    assert forall j :: 0 <= j < k ==> acts[..k][j] == acts[j] && acts[..k][..j] == acts[..j];
  }

  /** While the program is up every parameter without an unfinished record holds its desired value in
      settings and RiskEngine, whatever calls are in flight, if claims are serial and no call compensates
      after another one changed the runtime since its snapshot. Approvals may overlap freely. */
  lemma LiveConvergence(tx: Text, env: Settings, acts: seq<Action>, p: Param)
    requires TextOk(tx) && SerialClaims(tx, Init(env), acts) && UndisturbedCompensations(tx, Init(env), acts)
    requires var s := Run(tx, Init(env), acts); s.process.Up? && p in s.store.config && NoneOpen(tx, s.store, p)
    ensures var st := Run(tx, Init(env), acts).store; Holds(tx, st.rt, p, st.config[p])
  {
    forall k | 0 <= k < |acts| ensures !Clobbers(tx, Run(tx, Init(env), acts[..k]), acts[k]) {
      if Compensates(Run(tx, Init(env), acts[..k]), acts[k]) {
        SerialUpTo(tx, Init(env), acts, k);
        UndisturbedHarmless(tx, env, acts[..k], acts[k]);
      }
    }
    KeptIff(tx, env, acts);
    assert acts[..|acts|] == acts;
  }

  // ------------------------------------------------------------------ approvals one at a time

  /** The call has taken its runtime snapshot and has not returned. */
  predicate Past(call: Call) { HasSnapshot(call) || call.ApproveSynced? }

  ghost predicate NoOtherPast(s: State, c: CallId) { forall d :: d in s.calls && d != c ==> !Past(s.calls[d]) }

  /** No call takes its snapshot while another one is between its own snapshot and its return. */
  ghost predicate ExclusiveCalls(tx: Text, s: State, acts: seq<Action>) {
    forall k :: 0 <= k < |acts| && acts[k].SnapshotRuntime? ==> NoOtherPast(Run(tx, s, acts[..k]), acts[k].c)
  }

  ghost predicate OnePast(s: State) { forall c :: c in s.calls && Past(s.calls[c]) ==> NoOtherPast(s, c) }

  lemma PastFrom(tx: Text, s: State, a: Action)
    requires By(a).Some? && a.c in StepCall(tx, s, a).calls && Past(StepCall(tx, s, a).calls[a.c])
    ensures a.c in s.calls && (Past(s.calls[a.c]) || a.SnapshotRuntime?)
  {}

  lemma OnePastStep(tx: Text, s: State, a: Action)
    requires OnePast(s) && (a.SnapshotRuntime? ==> NoOtherPast(s, a.c))
    ensures OnePast(Step(tx, s, a))
  {
    var t := Step(tx, s, a);
    if By(a).Some? {
      CallFrame(tx, s, a);
      OffAgree(s, t, a.c);
      if a.c in t.calls && Past(t.calls[a.c]) { PastFrom(tx, s, a); }
    } else {
      WorldCalls(tx, s, a);
    }
  }

  /** Only a call past its snapshot moves the runtime. */
  lemma MoversArePast(tx: Text, s: State, a: Action)
    requires By(a).Some? && StepCall(tx, s, a).store.rt != s.store.rt
    ensures a.c in s.calls && Past(s.calls[a.c])
  {
    if !a.Sync? && !a.Compensate? { CallRuntimeStill(tx, s, a); }
  }

  lemma ExclusivePrefix(tx: Text, s: State, acts: seq<Action>)
    requires acts != [] && ExclusiveCalls(tx, s, acts)
    ensures ExclusiveCalls(tx, s, Before(acts))
    ensures Last(acts).SnapshotRuntime? ==> NoOtherPast(Run(tx, s, Before(acts)), Last(acts).c)
  {
    var init := Before(acts);
    assert forall k :: 0 <= k < |init| ==> init[k] == acts[k] && init[..k] == acts[..k];
    assert acts[..|acts| - 1] == init;
  }

  lemma {:induction false} ExclusiveRun(tx: Text, env: Settings, acts: seq<Action>, c: CallId)
    requires ExclusiveCalls(tx, Init(env), acts)
    ensures OnePast(Run(tx, Init(env), acts))
    ensures c in Run(tx, Init(env), acts).calls && HasSnapshot(Run(tx, Init(env), acts).calls[c]) ==> !Disturbed(tx, Init(env), acts, c, Snapshotting)
  {
    if acts != [] {
      var s, a := Run(tx, Init(env), Before(acts)), Last(acts);
      ExclusivePrefix(tx, Init(env), acts);
      ExclusiveRun(tx, env, Before(acts), c);
      OnePastStep(tx, s, a);
      var t := Step(tx, s, a);
      if c in t.calls && HasSnapshot(t.calls[c]) && !Passes(s, a, c, Snapshotting) {
        SnapFrom(tx, s, a, c);
        if OtherMoves(tx, s, a, c) { MoversArePast(tx, s, a); }
      }
    }
  }

  /** Taking approvals one at a time is enough. */
  lemma ExclusiveIsEnough(tx: Text, env: Settings, acts: seq<Action>)
    requires ExclusiveCalls(tx, Init(env), acts)
    ensures UndisturbedCompensations(tx, Init(env), acts)
  {
    forall k | 0 <= k < |acts| && Compensates(Run(tx, Init(env), acts[..k]), acts[k])
      ensures !Disturbed(tx, Init(env), acts[..k], acts[k].c, Snapshotting)
    {
      assert forall j :: 0 <= j < k ==> acts[..k][j] == acts[j] && acts[..k][..j] == acts[..j];
      ExclusiveRun(tx, env, acts[..k], acts[k].c);
    }
  }
}
