/** Who decided: over every run, a status other than the one a row was created with goes back to a
    request by a named operator, and an approval also to safety gates that passed. */
module ApprovalRequests {
  import opened Options
  import opened Sequences
  import opened PyText
  import opened ApprovalModel
  import opened ApprovalProtocol
  import opened ApprovalSafety
  import opened ApprovalRuns

  // ------------------------------------------------------------------ requests in a run

  predicate Reviews(tx: Text, a: Action, c: CallId, id: Id) { a.BeginReview? && a.c == c && a.id == id && tx.strip(a.approver) != "" }

  predicate Rejects(tx: Text, a: Action, c: CallId, id: Id) { a.BeginReject? && a.c == c && a.id == id && tx.strip(a.approver) != "" }

  predicate Approves(tx: Text, a: Action, c: CallId, id: Id) { a.BeginApprove? && a.c == c && a.id == id && tx.strip(a.approver) != "" }

  ghost predicate ReviewAsked(tx: Text, acts: seq<Action>, c: CallId, id: Id) { exists j :: 0 <= j < |acts| && Reviews(tx, acts[j], c, id) }

  ghost predicate RejectAsked(tx: Text, acts: seq<Action>, c: CallId, id: Id) { exists j :: 0 <= j < |acts| && Rejects(tx, acts[j], c, id) }

  ghost predicate ApproveAsked(tx: Text, acts: seq<Action>, c: CallId, id: Id) { exists j :: 0 <= j < |acts| && Approves(tx, acts[j], c, id) }

  /** The request, and after it a check at which the safety gates passed. */
  ghost predicate GatesPassed(tx: Text, acts: seq<Action>, c: CallId, id: Id) {
    exists k :: 0 <= k < |acts| && acts[k] == CheckApprove(c, true) && ApproveAsked(tx, acts[..k], c, id)
  }

  ghost predicate ReviewCommitted(tx: Text, acts: seq<Action>, id: Id) {
    exists k :: 0 <= k < |acts| && acts[k].CommitReview? && ReviewAsked(tx, acts[..k], acts[k].c, id)
  }

  ghost predicate RejectCommitted(tx: Text, acts: seq<Action>, id: Id) {
    exists k :: 0 <= k < |acts| && acts[k].CommitReject? && RejectAsked(tx, acts[..k], acts[k].c, id)
  }

  ghost predicate ApproveCommitted(tx: Text, acts: seq<Action>, id: Id) {
    exists k :: 0 <= k < |acts| && acts[k].Claim? && GatesPassed(tx, acts[..k], acts[k].c, id)
  }

  ghost predicate CreatedAs(acts: seq<Action>, id: Id, st: Status) {
    exists k :: 0 <= k < |acts| && acts[k].Create? && acts[k].newId == id && acts[k].newRow.status == st
  }

  /** How a row can have come by its status. */
  ghost predicate Accounted(tx: Text, acts: seq<Action>, id: Id, st: Status) {
    if st.Approved? then ApproveCommitted(tx, acts, id)
    else CreatedAs(acts, id, st) || (st.Reviewed? && ReviewCommitted(tx, acts, id)) || (st.Rejected? && RejectCommitted(tx, acts, id))
  }

  /** The request an in-flight call goes back to. */
  ghost predicate CallAsked(tx: Text, acts: seq<Action>, c: CallId, call: Call) {
    if call.ReviewRead? then ReviewAsked(tx, acts, c, call.id)
    else if call.RejectRead? then RejectAsked(tx, acts, c, call.id)
    else if call.ApproveRead? then ApproveAsked(tx, acts, c, call.id)
    else GatesPassed(tx, acts, c, call.id)
  }

  // ------------------------------------------------------------------ longer runs

  lemma AskedStill(tx: Text, acts: seq<Action>, c: CallId, call: Call)
    requires acts != [] && CallAsked(tx, Before(acts), c, call)
    ensures CallAsked(tx, acts, c, call)
  {
    var init := Before(acts);
    assert forall k :: 0 <= k < |init| ==> init[k] == acts[k] && init[..k] == acts[..k];
    if call.ReviewRead? {
      var j :| 0 <= j < |init| && Reviews(tx, init[j], c, call.id);
      assert Reviews(tx, acts[j], c, call.id);
    } else if call.RejectRead? {
      var j :| 0 <= j < |init| && Rejects(tx, init[j], c, call.id);
      assert Rejects(tx, acts[j], c, call.id);
    } else if call.ApproveRead? {
      var j :| 0 <= j < |init| && Approves(tx, init[j], c, call.id);
      assert Approves(tx, acts[j], c, call.id);
    } else {
      var k :| 0 <= k < |init| && init[k] == CheckApprove(c, true) && ApproveAsked(tx, init[..k], c, call.id);
      assert acts[k] == CheckApprove(c, true);
    }
  }

  lemma AccountedStill(tx: Text, acts: seq<Action>, id: Id, st: Status)
    requires acts != [] && Accounted(tx, Before(acts), id, st)
    ensures Accounted(tx, acts, id, st)
  {
    var init := Before(acts);
    assert forall k :: 0 <= k < |init| ==> init[k] == acts[k] && init[..k] == acts[..k];
    if st.Approved? {
      var k :| 0 <= k < |init| && init[k].Claim? && GatesPassed(tx, init[..k], init[k].c, id);
      assert acts[k].Claim?;
    } else if CreatedAs(init, id, st) {
      var k :| 0 <= k < |init| && init[k].Create? && init[k].newId == id && init[k].newRow.status == st;
      assert acts[k].Create?;
    } else if st.Reviewed? {
      var k :| 0 <= k < |init| && init[k].CommitReview? && ReviewAsked(tx, init[..k], init[k].c, id);
      assert acts[k].CommitReview?;
    } else {
      var k :| 0 <= k < |init| && init[k].CommitReject? && RejectAsked(tx, init[..k], init[k].c, id);
      assert acts[k].CommitReject?;
    }
  }

  // ------------------------------------------------------------------ one step

  /** What a step of call `a.c` makes of itself, and by which action. */
  lemma OwnCall(tx: Text, s: State, a: Action)
    requires By(a).Some? && a.c in StepCall(tx, s, a).calls
    ensures var call := StepCall(tx, s, a).calls[a.c];
            || (a.c in s.calls && call == s.calls[a.c])
            || (Reviews(tx, a, a.c, call.id) && call.ReviewRead?)
            || (Rejects(tx, a, a.c, call.id) && call.RejectRead?)
            || (Approves(tx, a, a.c, call.id) && call.ApproveRead?)
            || (a == CheckApprove(a.c, true) && a.c in s.calls && s.calls[a.c].ApproveRead? && s.calls[a.c].id == call.id && call.ApproveValidated?)
            || (a.c in s.calls && s.calls[a.c].id == call.id && PastCheck(s.calls[a.c]) && PastCheck(call))
  {}

  predicate PastCheck(call: Call) { !call.ReviewRead? && !call.RejectRead? && !call.ApproveRead? }

  lemma CallAskedStep(tx: Text, s0: State, acts: seq<Action>, c: CallId)
    requires acts != [] && c in Run(tx, s0, acts).calls
    requires var s := Run(tx, s0, Before(acts)); c in s.calls ==> CallAsked(tx, Before(acts), c, s.calls[c])
    ensures CallAsked(tx, acts, c, Run(tx, s0, acts).calls[c])
  {
    var s, a := Run(tx, s0, Before(acts)), Last(acts);
    var call := Step(tx, s, a).calls[c];
    var n := |acts| - 1;
    assert acts[..n] == Before(acts) && acts[n] == a;
    if By(a) == Some(c) {
      OwnCall(tx, s, a);
      if c in s.calls && (call == s.calls[c] || (PastCheck(s.calls[c]) && PastCheck(call) && s.calls[c].id == call.id)) {
        AskedStill(tx, acts, c, call);
      } else if a == CheckApprove(c, true) {
        assert acts[n] == CheckApprove(c, true) && ApproveAsked(tx, acts[..n], c, call.id);
      }
    } else if By(a).Some? {
      CallFrame(tx, s, a);
      var t := Step(tx, s, a);
      assert c in t.calls - {a.c} && (t.calls - {a.c})[c] == (s.calls - {a.c})[c];
      AskedStill(tx, acts, c, call);
    } else {
      WorldCalls(tx, s, a);
      AskedStill(tx, acts, c, call);
    }
  }

  lemma {:induction false} CallsAsked(tx: Text, env: Settings, acts: seq<Action>, c: CallId)
    requires c in Run(tx, Init(env), acts).calls
    ensures CallAsked(tx, acts, c, Run(tx, Init(env), acts).calls[c])
  {
    if acts != [] {
      if c in Run(tx, Init(env), Before(acts)).calls { CallsAsked(tx, env, Before(acts), c); }
      CallAskedStep(tx, Init(env), acts, c);
    }
  }

  /** The three ways one step changes a status, each by the commit of a call of its own kind on that row. */
  lemma StatusStep(tx: Text, s: State, a: Action, id: Id)
    requires id in s.store.rows && id in Step(tx, s, a).store.rows
    requires Step(tx, s, a).store.rows[id].status != s.store.rows[id].status
    ensures By(a).Some? && a.c in s.calls && s.calls[a.c].id == id
    ensures var st := Step(tx, s, a).store.rows[id].status;
            || (a.CommitReview? && s.calls[a.c].ReviewRead? && st.Reviewed?)
            || (a.CommitReject? && s.calls[a.c].RejectRead? && st.Rejected?)
            || (a.Claim? && s.calls[a.c].ApproveSnapshotted? && st.Approved?)
  {
    if !a.Claim? && !a.CommitReview? && !a.CommitReject? { RowsStill(tx, s, a, id); }
  }

  lemma NewRow(tx: Text, s: State, a: Action, id: Id)
    requires id !in s.store.rows && id in Step(tx, s, a).store.rows
    ensures a.Create? && a.newId == id && Step(tx, s, a).store.rows[id] == a.newRow && !a.newRow.status.Approved?
  {}

  lemma StatusAccounted(tx: Text, env: Settings, acts: seq<Action>, id: Id)
    requires acts != [] && id in Run(tx, Init(env), acts).store.rows
    requires var rows := Run(tx, Init(env), Before(acts)).store.rows; id in rows ==> Accounted(tx, Before(acts), id, rows[id].status)
    ensures Accounted(tx, acts, id, Run(tx, Init(env), acts).store.rows[id].status)
  {
    var s, a := Run(tx, Init(env), Before(acts)), Last(acts);
    var st := Step(tx, s, a).store.rows[id].status;
    var n := |acts| - 1;
    assert acts[..n] == Before(acts) && acts[n] == a;
    if id !in s.store.rows {
      NewRow(tx, s, a, id);
      assert acts[n].Create? && acts[n].newId == id && acts[n].newRow.status == st;
    } else if st == s.store.rows[id].status {
      AccountedStill(tx, acts, id, st);
    } else {
      StatusStep(tx, s, a, id);
      CallsAsked(tx, env, Before(acts), a.c);
      if st.Approved? { assert acts[n].Claim? && GatesPassed(tx, acts[..n], acts[n].c, id); }
      else if st.Reviewed? { assert acts[n].CommitReview? && ReviewAsked(tx, acts[..n], acts[n].c, id); }
      else { assert acts[n].CommitReject? && RejectAsked(tx, acts[..n], acts[n].c, id); }
    }
  }

  /** Over every run, each row's status is the one it was created with, or goes back to a request of its
      own kind by a nonblank operator and the commit of that call: REVIEWED only through a review,
      REJECTED only through a rejection, APPROVED only through an approval whose safety gates passed. */
  lemma {:induction false} EveryStatusRequested(tx: Text, env: Settings, acts: seq<Action>, id: Id)
    requires id in Run(tx, Init(env), acts).store.rows
    ensures Accounted(tx, acts, id, Run(tx, Init(env), acts).store.rows[id].status)
  {
    if acts != [] {
      if id in Run(tx, Init(env), Before(acts)).store.rows { EveryStatusRequested(tx, env, Before(acts), id); }
      StatusAccounted(tx, env, acts, id);
    }
  }

  /** Over every run of the program, every desired value is a number of its parameter's type within the
      allowlist's bounds. */
  lemma DesiredWithinBounds(env: Settings, acts: seq<Action>, p: Param)
    requires p in Run(PYTHON, Init(env), acts).store.config
    ensures var v := ParseValue(KindOf(p), Run(PYTHON, Init(env), acts).store.config[p]);
            v.Some? && KindMatches(KindOf(p), v.value) && Lowest(p) as real <= RealOf(v.value) <= Highest(p) as real
  {
    PythonTextOk();
    DurableClaims(PYTHON, env, acts);
    AcceptedInBounds(p, Run(PYTHON, Init(env), acts).store.config[p]);
  }

  // ------------------------------------------------------------------ review and reject on their own

  /** A running process with no call in flight. */
  function Alone(st: Store): (s: State) { State(st, Up, map[]) }

  function WithStatus(st: Store, id: Id, to: Status): (r: Store)
    requires id in st.rows
  {
    st.(rows := st.rows[id := st.rows[id].(status := to, version := st.rows[id].version + 1)])
  }

  /** An uninterrupted review marks a PENDING row REVIEWED at the next version; it is refused otherwise. */
  lemma LoneReview(tx: Text, st: Store, id: Id, who: string, db: bool)
    ensures Run(tx, Alone(st), [BeginReview(0, id, who), CommitReview(0, db)]) ==
            Alone(if tx.strip(who) != "" && tx.strip(id) != "" && id in st.rows && st.rows[id].status.Pending? && db
                  then WithStatus(st, id, Reviewed) else st)
  {
    var s := Alone(st);
    RunTwo(tx, s, BeginReview(0, id, who), CommitReview(0, db));
    if tx.strip(who) != "" && tx.strip(id) != "" && id in st.rows {
      var t := State(st, Up, map[0 := ReviewRead(id, st.rows[id])]);
      assert StepBegin(tx, s, BeginReview(0, id, who)) == t;
      assert t.calls - {0} == map[];
    }
  }

  /** An uninterrupted rejection marks a PENDING or REVIEWED row REJECTED at the next version. */
  lemma LoneReject(tx: Text, st: Store, id: Id, who: string, db: bool)
    ensures Run(tx, Alone(st), [BeginReject(0, id, who), CommitReject(0, db)]) ==
            Alone(if tx.strip(who) != "" && id in st.rows && Actionable(st.rows[id].status) && db
                  then WithStatus(st, id, Rejected) else st)
  {
    var s := Alone(st);
    RunTwo(tx, s, BeginReject(0, id, who), CommitReject(0, db));
    if tx.strip(who) != "" && id in st.rows {
      var t := State(st, Up, map[0 := RejectRead(id, st.rows[id])]);
      assert StepBegin(tx, s, BeginReject(0, id, who)) == t;
      assert t.calls - {0} == map[];
    }
  }
}
