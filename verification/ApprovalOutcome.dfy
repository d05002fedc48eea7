/** No false success: `applied` is written only after the runtime was seen to hold the value, and
    is never taken back. */
module ApprovalOutcome {
  import opened Options
  import opened Sequences
  import opened ApprovalModel
  import opened ApprovalProtocol
  import opened ApprovalSafety
  import opened ApprovalRuns

  /** The state is that of a live or starting process whose runtime holds exactly the value of the
      still unfinished record of `id`. */
  ghost predicate HeldWhileUnfinished(tx: Text, s: State, id: Id, param: string, value: string) {
    && !s.process.Down? && id in s.store.records && Unfinished(s.store.records[id])
    && s.store.records[id].param == param && s.store.records[id].value == value
    && tx.lookup(param).Some? && Converged(tx, s.store.rt, tx.lookup(param).value, value)
  }

  /** Some earlier point of the run is such a state. */
  ghost predicate WasHeld(tx: Text, s: State, acts: seq<Action>, id: Id, param: string, value: string) {
    exists k :: 0 <= k <= |acts| && HeldWhileUnfinished(tx, Run(tx, s, acts[..k]), id, param, value)
  }

  lemma SamePrefix(acts: seq<Action>, k: nat)
    requires acts != [] && k <= |Before(acts)|
    ensures Before(acts)[..k] == acts[..k]
  {}

  lemma WasHeldStill(tx: Text, s: State, acts: seq<Action>, id: Id, param: string, value: string)
    requires acts != [] && WasHeld(tx, s, Before(acts), id, param, value)
    ensures WasHeld(tx, s, acts, id, param, value)
  {
    var init := Before(acts);
    var k :| 0 <= k <= |init| && HeldWhileUnfinished(tx, Run(tx, s, init[..k]), id, param, value);
    SamePrefix(acts, k);
  }

  lemma HeldNow(tx: Text, s: State, acts: seq<Action>, id: Id, param: string, value: string)
    requires HeldWhileUnfinished(tx, Run(tx, s, acts), id, param, value)
    ensures WasHeld(tx, s, acts, id, param, value)
  {
    assert acts[..|acts|] == acts;
  }

  /** The record being marked during startup is held right now. */
  ghost predicate MarkingOk(tx: Text, s: State) {
    s.process.Marking? && s.process.todo != [] && s.process.todo[0] in s.store.records
      && s.store.records[s.process.todo[0]].Record? ==>
      var id := s.process.todo[0];
      HeldWhileUnfinished(tx, s, id, s.store.records[id].param, s.store.records[id].value)
  }

  ghost predicate OutcomeInv(tx: Text, s0: State, acts: seq<Action>) {
    var s := Run(tx, s0, acts);
    && (forall id :: id in s.store.records && s.store.records[id].Record? && s.store.records[id].status.Applied? ==>
          WasHeld(tx, s0, acts, id, s.store.records[id].param, s.store.records[id].value))
    && (forall c :: c in s.calls && s.calls[c].ApproveSynced? ==>
          WasHeld(tx, s0, acts, s.calls[c].id, tx.name(s.calls[c].ok.param), s.calls[c].ok.raw))
    && MarkingOk(tx, s)
  }

  /** A record becomes applied by the mark of its own synchronised call, or by the startup mark. */
  lemma AppliedBy(tx: Text, s: State, a: Action, id: Id)
    requires TextOk(tx) && Inv(tx, s)
    requires id in Step(tx, s, a).store.records && Step(tx, s, a).store.records[id].Record?
    requires Step(tx, s, a).store.records[id].status.Applied?
    ensures var r := Step(tx, s, a).store.records[id];
            || (id in s.store.records && s.store.records[id] == r)
            || (By(a).Some? && a.c in s.calls && s.calls[a.c].ApproveSynced? && s.calls[a.c].id == id
                && r.param == tx.name(s.calls[a.c].ok.param) && r.value == s.calls[a.c].ok.raw)
            || (a.MarkRecovered? && s.process.Marking? && s.process.todo != [] && s.process.todo[0] == id
                && id in s.store.records && s.store.records[id].Record?
                && r == s.store.records[id].(status := Applied))
  {
    if By(a).Some? { CallMarks(tx, s, a, id); } else { WorldMarks(tx, s, a, id); }
  }

  lemma WorldMarks(tx: Text, s: State, a: Action, id: Id)
    requires By(a).None? && id in StepWorld(tx, s, a).store.records
    ensures var r := StepWorld(tx, s, a).store.records[id];
            || (id in s.store.records && s.store.records[id] == r)
            || (a.MarkRecovered? && s.process.Marking? && s.process.todo != [] && s.process.todo[0] == id
                && id in s.store.records && s.store.records[id].Record?
                && r == s.store.records[id].(status := Applied))
  {}

  /** What one call step can do to the record of `id`: claim it while its row is undecided, or mark it. */
  lemma CallMarks(tx: Text, s: State, a: Action, id: Id)
    requires By(a).Some? && id in StepCall(tx, s, a).store.records
    ensures var r := StepCall(tx, s, a).store.records[id];
            || (id in s.store.records && s.store.records[id] == r)
            || (a.c in s.calls && s.calls[a.c].id == id && s.calls[a.c].ApproveSynced?
                && r == Record(tx.name(s.calls[a.c].ok.param), s.calls[a.c].ok.raw, Applied))
            || (a.c in s.calls && s.calls[a.c].id == id && s.calls[a.c].ApproveFaulted?
                && r == Record(tx.name(s.calls[a.c].ok.param), s.calls[a.c].ok.raw, Failed))
            || (r.Record? && r.status.Applying? && id in s.store.rows && Actionable(s.store.rows[id].status))
  {}

  /** A call becomes synchronised only by a step whose runtime converges on its value. */
  lemma SyncedBy(tx: Text, s: State, a: Action, c: CallId)
    requires TextOk(tx) && Inv(tx, s) && c in Step(tx, s, a).calls && Step(tx, s, a).calls[c].ApproveSynced?
    ensures || (c in s.calls && s.calls[c] == Step(tx, s, a).calls[c])
            || HeldWhileUnfinished(tx, Step(tx, s, a), Step(tx, s, a).calls[c].id,
                                   tx.name(Step(tx, s, a).calls[c].ok.param), Step(tx, s, a).calls[c].ok.raw)
  {
    if By(a) == Some(c) {
      OwnSynced(tx, s, a);
    } else if By(a).Some? {
      CallFrame(tx, s, a);
      assert c in Step(tx, s, a).calls - {a.c};
    } else {
      WorldCalls(tx, s, a);
    }
  }

  lemma OwnSynced(tx: Text, s: State, a: Action)
    requires TextOk(tx) && Inv(tx, s) && By(a).Some?
    requires a.c in StepCall(tx, s, a).calls && StepCall(tx, s, a).calls[a.c].ApproveSynced?
    ensures || (a.c in s.calls && s.calls[a.c] == StepCall(tx, s, a).calls[a.c])
            || HeldWhileUnfinished(tx, StepCall(tx, s, a), StepCall(tx, s, a).calls[a.c].id,
                                   tx.name(StepCall(tx, s, a).calls[a.c].ok.param), StepCall(tx, s, a).calls[a.c].ok.raw)
  {
    OnlySyncSyncs(tx, s, a);
    if a.Sync? && At(s, a.c) && s.calls[a.c].ApproveClaimed? { assert CallOk(tx, s.store, s.calls[a.c]); }
  }

  lemma OnlySyncSyncs(tx: Text, s: State, a: Action)
    requires By(a).Some? && a.c in StepCall(tx, s, a).calls && StepCall(tx, s, a).calls[a.c].ApproveSynced?
    ensures (a.c in s.calls && s.calls[a.c] == StepCall(tx, s, a).calls[a.c]) || (a.Sync? && At(s, a.c) && s.calls[a.c].ApproveClaimed?)
  {}

  lemma MarkingBy(tx: Text, s: State, a: Action)
    requires TextOk(tx) && Inv(tx, s) && MarkingOk(tx, s)
    ensures MarkingOk(tx, Step(tx, s, a))
  {
    if By(a).Some? {
      CallFrame(tx, s, a);
      if !s.process.Up? { CallIdle(tx, s, a); }
    } else {
      WorldMarking(tx, s, a);
    }
  }

  lemma WorldMarking(tx: Text, s: State, a: Action)
    requires TextOk(tx) && Inv(tx, s) && MarkingOk(tx, s) && By(a).None?
    ensures MarkingOk(tx, StepWorld(tx, s, a))
  {
    if s.process.Recovering? && s.process.todo != [] && s.process.todo[0] in s.store.records {
      assert RecordOk(tx, s.store, s.process.todo[0]);
    }
  }

  lemma {:induction false} OutcomeRun(tx: Text, env: Settings, acts: seq<Action>)
    requires TextOk(tx)
    ensures OutcomeInv(tx, Init(env), acts)
  {
    if acts != [] {
      OutcomeRun(tx, env, Before(acts));
      RunKeeps(tx, Init(env), Before(acts));
      OutcomeStep(tx, Init(env), acts);
    }
  }

  lemma OutcomeStep(tx: Text, s0: State, acts: seq<Action>)
    requires TextOk(tx) && acts != [] && OutcomeInv(tx, s0, Before(acts)) && Inv(tx, Run(tx, s0, Before(acts)))
    ensures OutcomeInv(tx, s0, acts)
  {
    var s, t, a := Run(tx, s0, Before(acts)), Run(tx, s0, acts), Last(acts);
    MarkingBy(tx, s, a);
    forall id | id in t.store.records && t.store.records[id].Record? && t.store.records[id].status.Applied?
      ensures WasHeld(tx, s0, acts, id, t.store.records[id].param, t.store.records[id].value)
    {
      AppliedBy(tx, s, a, id);
      var r := t.store.records[id];
      if a.MarkRecovered? && s.process.Marking? && s.process.todo != [] && s.process.todo[0] == id {
        HeldNow(tx, s0, Before(acts), id, r.param, r.value);
      }
      WasHeldStill(tx, s0, acts, id, r.param, r.value);
    }
    forall c | c in t.calls && t.calls[c].ApproveSynced?
      ensures WasHeld(tx, s0, acts, t.calls[c].id, tx.name(t.calls[c].ok.param), t.calls[c].ok.raw)
    {
      SyncedBy(tx, s, a, c);
      if c in s.calls && s.calls[c] == t.calls[c] {
        WasHeldStill(tx, s0, acts, t.calls[c].id, tx.name(t.calls[c].ok.param), t.calls[c].ok.raw);
      } else {
        HeldNow(tx, s0, acts, t.calls[c].id, tx.name(t.calls[c].ok.param), t.calls[c].ok.raw);
      }
    }
  }

  /** Every record that reads `applied`, in any reachable state, was preceded by a state in which the
      runtime of that process verifiably held exactly its value while the record was unfinished. */
  lemma NoFalseSuccess(tx: Text, env: Settings, acts: seq<Action>, id: Id)
    requires TextOk(tx)
    requires var records := Run(tx, Init(env), acts).store.records; id in records && records[id].Record? && records[id].status.Applied?
    ensures var r := Run(tx, Init(env), acts).store.records[id]; WasHeld(tx, Init(env), acts, id, r.param, r.value)
  {
    OutcomeRun(tx, env, acts);
  }

  // ------------------------------------------------------------------ applied stays applied

  lemma AppliedStep(tx: Text, s: State, a: Action, id: Id)
    requires TextOk(tx) && Inv(tx, s) && id in s.store.records && s.store.records[id].Record?
    requires s.store.records[id].status.Applied?
    ensures id in Step(tx, s, a).store.records && Step(tx, s, a).store.records[id] == s.store.records[id]
  {
    if By(a).Some? {
      assert RecordOk(tx, s.store, id);
      RecordsGrow(tx, s, a, id);
      CallMarks(tx, s, a, id);
      if a.c in s.calls { assert CallOk(tx, s.store, s.calls[a.c]); }
    } else {
      AppliedWorld(tx, s, a, id);
    }
  }

  lemma AppliedWorld(tx: Text, s: State, a: Action, id: Id)
    requires By(a).None? && id in s.store.records && s.store.records[id].Record? && s.store.records[id].status.Applied?
    ensures id in StepWorld(tx, s, a).store.records && StepWorld(tx, s, a).store.records[id] == s.store.records[id]
  {}

  lemma RecordsGrow(tx: Text, s: State, a: Action, id: Id)
    requires By(a).Some? && id in s.store.records
    ensures id in StepCall(tx, s, a).store.records
  {}

  lemma {:induction false} AppliedRun(tx: Text, s: State, acts: seq<Action>, id: Id)
    requires TextOk(tx) && Inv(tx, s) && id in s.store.records && s.store.records[id].Record?
    requires s.store.records[id].status.Applied?
    ensures id in Run(tx, s, acts).store.records && Run(tx, s, acts).store.records[id] == s.store.records[id]
  {
    if acts != [] {
      AppliedRun(tx, s, Before(acts), id);
      RunKeeps(tx, s, Before(acts));
      AppliedStep(tx, Run(tx, s, Before(acts)), Last(acts), id);
    }
  }

  /** Once applied, a record never changes again, over live calls, crashes and recoveries. */
  lemma AppliedForever(tx: Text, env: Settings, acts: seq<Action>, more: seq<Action>, id: Id)
    requires TextOk(tx)
    requires var records := Run(tx, Init(env), acts).store.records; id in records && records[id].Record? && records[id].status.Applied?
    ensures var records := Run(tx, Init(env), acts + more).store.records;
            id in records && records[id] == Run(tx, Init(env), acts).store.records[id]
  {
    RunKeeps(tx, Init(env), acts);
    RunAppend(tx, Init(env), acts, more);
    AppliedRun(tx, Run(tx, Init(env), acts), more, id);
  }
}
