/** When the runtime equals the desired configuration: after startup, while running, and when a
    text makes startup impossible for good. */
module ApprovalConvergence {
  import opened Options
  import opened Sequences
  import opened ApprovalModel
  import opened ApprovalProtocol
  import opened ApprovalSafety
  import opened ApprovalRuns
  import opened ApprovalRecovery

  /** Settings, and the RiskEngine for a risk parameter, hold the value of `raw`. */
  predicate Holds(tx: Text, rt: Runtime, p: Param, raw: string) {
    && tx.accept(p, raw) == Some(rt.settings[p]) && tx.strip(tx.show(rt.settings[p])) == tx.strip(raw)
    && (IsRisk(p) ==> rt.limits[p] == rt.settings[p])
  }

  lemma SyncHolds(tx: Text, rt: Runtime, p: Param, raw: string, fault: Fault)
    requires tx.accept(p, raw).Some?
    ensures var (next, good) := Synchronise(tx, rt, p, tx.accept(p, raw).value, raw, fault);
            good ==> Holds(tx, next, p, raw) && forall q, t :: q != p && Holds(tx, rt, q, t) ==> Holds(tx, next, q, t)
  {}

  // ------------------------------------------------------------------ startup after serial claims

  /** Every claim of the run commits while no earlier record of its parameter is unfinished. */
  ghost predicate SerialClaims(tx: Text, s: State, acts: seq<Action>) {
    forall k :: 0 <= k < |acts| && Claimed(tx, Run(tx, s, acts[..k]), acts[k]).Some? ==>
      NoneOpen(tx, Run(tx, s, acts[..k]).store, Run(tx, s, acts[..k]).calls[acts[k].c].ok.param)
  }

  ghost predicate NoneOpen(tx: Text, st: Store, p: Param) {
    forall id :: id in st.records ==> !Concerns(tx, st.records[id], p)
  }

  /** Every unfinished record carries its parameter's desired value. */
  ghost predicate Agreed(tx: Text, st: Store) {
    forall id :: id in st.records && Unfinished(st.records[id]) ==>
      var p := tx.lookup(st.records[id].param); p.Some? && p.value in st.config && st.config[p.value] == st.records[id].value
  }

  lemma AgreedStep(tx: Text, s: State, a: Action)
    requires TextOk(tx) && Inv(tx, s) && Agreed(tx, s.store)
    requires Claimed(tx, s, a).Some? ==> NoneOpen(tx, s.store, s.calls[a.c].ok.param)
    ensures Agreed(tx, Step(tx, s, a).store)
  {
    if By(a).Some? {
      if a.c in s.calls { assert CallOk(tx, s.store, s.calls[a.c]); }
      if Claimed(tx, s, a).Some? { AgreedClaim(tx, s, a); } else { AgreedCall(tx, s, a); }
    } else {
      AgreedWorld(tx, s, a);
    }
  }

  lemma AgreedClaim(tx: Text, s: State, a: Action)
    requires TextOk(tx) && Inv(tx, s) && Agreed(tx, s.store) && Claimed(tx, s, a).Some?
    requires NoneOpen(tx, s.store, s.calls[a.c].ok.param)
    ensures Agreed(tx, StepCall(tx, s, a).store)
  {
    var t, p := StepCall(tx, s, a).store, s.calls[a.c].ok.param;
    assert tx.lookup(tx.name(p)) == Some(p);
    forall id | id in t.records && Unfinished(t.records[id])
      ensures var q := tx.lookup(t.records[id].param); q.Some? && q.value in t.config && t.config[q.value] == t.records[id].value
    {
      if id != s.calls[a.c].id { assert t.records[id] == s.store.records[id] && !Concerns(tx, s.store.records[id], p); }
    }
  }

  /** A call step that commits no claim leaves the desired values, and of each record all but the status. */
  lemma AgreedCall(tx: Text, s: State, a: Action)
    requires By(a).Some? && Claimed(tx, s, a).None? && Agreed(tx, s.store)
    requires a.c in s.calls ==> CallOk(tx, s.store, s.calls[a.c])
    ensures Agreed(tx, StepCall(tx, s, a).store)
  {
    var t := StepCall(tx, s, a).store;
    CallKeepsText(tx, s, a);
    assert forall id :: id in t.records && Unfinished(t.records[id]) ==> Unfinished(s.store.records[id]);
  }

  lemma CallKeepsText(tx: Text, s: State, a: Action)
    requires By(a).Some? && Claimed(tx, s, a).None?
    requires a.c in s.calls ==> CallOk(tx, s.store, s.calls[a.c])
    ensures var t := StepCall(tx, s, a).store;
            && t.config == s.store.config
            && forall id :: id in t.records ==>
                 (&& id in s.store.records
                  && (|| t.records[id] == s.store.records[id]
                      || (t.records[id].Record? && s.store.records[id] == t.records[id].(status := Applying))))
  {}

  lemma AgreedWorld(tx: Text, s: State, a: Action)
    requires By(a).None? && Agreed(tx, s.store)
    ensures Agreed(tx, StepWorld(tx, s, a).store)
  {}

  /** A starting process already holds every desired value. */
  ghost predicate BootHolds(tx: Text, s: State) {
    s.process.Configured? || s.process.Recovering? || s.process.Marking? ==>
      forall p :: p in s.store.config ==> Holds(tx, s.store.rt, p, s.store.config[p])
  }

  lemma {:induction false} OverridesHold(tx: Text, ps: seq<Param>, texts: map<Param, string>, rt: Runtime, faults: map<Param, Fault>, p: Param)
    requires ApplyOverrides(tx, ps, texts, rt, faults).Some? && p in texts && (p in ps || Holds(tx, rt, p, texts[p]))
    ensures Holds(tx, ApplyOverrides(tx, ps, texts, rt, faults).value, p, texts[p])
    decreases |ps|
  {
    if ps != [] {
      var q := ps[0];
      if q !in texts {
        OverridesHold(tx, ps[1..], texts, rt, faults, p);
      } else {
        SyncHolds(tx, rt, q, texts[q], FaultAt(faults, q));
        OverridesHold(tx, ps[1..], texts, Synchronise(tx, rt, q, TextValue(tx, q, texts[q]), texts[q], FaultAt(faults, q)).0, faults, p);
      }
    }
  }

  lemma BootStartsHolding(tx: Text, s: State, env: Settings, faults: map<Param, Fault>)
    requires TextOk(tx) && BootHolds(tx, s)
    ensures BootHolds(tx, StepBoot(tx, s, env, faults))
  {
    if s.process.Down? && BootRuntime(tx, s.store.config, env, faults).Some? {
      var texts := LoadOverrides(tx, s.store.config).value;
      var rt := BootRuntime(tx, s.store.config, env, faults).value;
      forall p | p in s.store.config ensures Holds(tx, rt, p, s.store.config[p]) {
        assert SORTED_PARAMS[Place(p)] == p;
        OverridesHold(tx, SORTED_PARAMS, texts, FromEnvironment(env), faults, p);
        assert tx.accept(p, tx.strip(s.store.config[p])) == tx.accept(p, s.store.config[p]);
      }
    }
  }

  lemma RecoverHolds(tx: Text, s: State, fault: Fault)
    requires TextOk(tx) && Agreed(tx, s.store) && BootHolds(tx, s)
    ensures BootHolds(tx, StepRecover(tx, s, fault))
  {
    if s.process.Recovering? && s.process.todo != [] && s.process.todo[0] in s.store.records {
      var id := s.process.todo[0];
      var r := s.store.records[id];
      if RecoverOne(tx, s.store.rt, id, r, fault).Reapplied? {
        SyncHolds(tx, s.store.rt, tx.lookup(r.param).value, r.value, fault);
      }
    }
  }

  lemma BootHoldsStep(tx: Text, s: State, a: Action)
    requires TextOk(tx) && Inv(tx, s) && Agreed(tx, s.store) && BootHolds(tx, s)
    ensures BootHolds(tx, Step(tx, s, a))
  {
    if By(a).Some? {
      CallFrame(tx, s, a);
      if !s.process.Up? { CallIdle(tx, s, a); }
    } else if a.Boot? {
      BootStartsHolding(tx, s, a.env, a.faults);
    } else if a.RecoverRecord? {
      RecoverHolds(tx, s, a.fault);
    } else {
      WorldStill(tx, s, a);
    }
  }

  lemma WorldStill(tx: Text, s: State, a: Action)
    requires By(a).None? && !a.Boot? && !a.RecoverRecord?
    ensures var t := StepWorld(tx, s, a);
            && t.store.config == s.store.config && t.store.rt == s.store.rt
            && (t.process.Configured? || t.process.Recovering? || t.process.Marking? ==>
                  s.process.Configured? || s.process.Recovering? || s.process.Marking?)
  {}

  lemma SerialPrefix(tx: Text, s: State, acts: seq<Action>)
    requires acts != [] && SerialClaims(tx, s, acts)
    ensures SerialClaims(tx, s, Before(acts))
    ensures Claimed(tx, Run(tx, s, Before(acts)), Last(acts)).Some? ==>
              NoneOpen(tx, Run(tx, s, Before(acts)).store, Run(tx, s, Before(acts)).calls[Last(acts).c].ok.param)
  {
    var init := Before(acts);
    assert forall k :: 0 <= k < |init| ==> init[k] == acts[k] && init[..k] == acts[..k];
    assert acts[..|acts| - 1] == init;
  }

  lemma {:induction false} SerialRun(tx: Text, env: Settings, acts: seq<Action>)
    requires TextOk(tx) && SerialClaims(tx, Init(env), acts)
    ensures Agreed(tx, Run(tx, Init(env), acts).store) && BootHolds(tx, Run(tx, Init(env), acts))
  {
    if acts != [] {
      SerialPrefix(tx, Init(env), acts);
      SerialRun(tx, env, Before(acts));
      RunKeeps(tx, Init(env), Before(acts));
      AgreedStep(tx, Run(tx, Init(env), Before(acts)), Last(acts));
      BootHoldsStep(tx, Run(tx, Init(env), Before(acts)), Last(acts));
    }
  }

  /** Over every run of interleaved approvals, rejections, failures and crashes: if no claim commits
      while an earlier record of its parameter is unfinished, a startup that is about to return
      normally has settings and RiskEngine at the desired value of every parameter. */
  lemma StartupConverges(tx: Text, env: Settings, acts: seq<Action>)
    requires TextOk(tx) && SerialClaims(tx, Init(env), acts)
    requires Run(tx, Init(env), acts).process == Recovering([])
    ensures var st := Run(tx, Init(env), acts).store;
            forall p :: p in st.config ==> Holds(tx, st.rt, p, st.config[p])
  {
    SerialRun(tx, env, acts);
  }

  // ------------------------------------------------------------------ the exact condition

  lemma {:induction false} SomeOrder(ids: set<Id>) returns (order: seq<Id>)
    ensures Lists(order, ids)
  {
    if ids == {} {
      order := [];
    } else {
      var id :| id in ids;
      var rest := SomeOrder(ids - {id});
      order := rest + [id];
    }
  }

  lemma OrderEndingIn(ids: set<Id>, id: Id) returns (order: seq<Id>)
    requires id in ids
    ensures Lists(order, ids) && order != [] && order[|order| - 1] == id
  {
    var rest := SomeOrder(ids - {id});
    order := rest + [id];
  }

  lemma {:induction false} LastDecides(tx: Text, records: map<Id, Record>, order: seq<Id>, p: Param)
    requires order != [] && order[|order| - 1] in records && Concerns(tx, records[order[|order| - 1]], p)
    ensures LastUnfinished(tx, records, order, p) == Some(records[order[|order| - 1]].value)
  {
    if |order| > 1 { LastDecides(tx, records, order[1..], p); }
  }

  lemma {:induction false} LastIsOne(tx: Text, records: map<Id, Record>, order: seq<Id>, p: Param)
    ensures var t := LastUnfinished(tx, records, order, p);
            t.Some? ==> exists id :: id in order && id in records && Concerns(tx, records[id], p) && records[id].value == t.value
  {
    if order != [] {
      LastIsOne(tx, records, order[1..], p);
      assert forall id :: id in order[1..] ==> id in order;
      assert order[0] in order;
    }
  }

  /** Two accepted canonical texts of one value are one text. */
  lemma CanonicalUnique(tx: Text, p: Param, a: string, b: string)
    requires TextOk(tx) && Canonical(tx, p, a) && Canonical(tx, p, b)
    ensures tx.accept(p, a) == tx.accept(p, b) <==> tx.strip(a) == tx.strip(b)
  {
    assert tx.accept(p, tx.strip(a)) == tx.accept(p, a) && tx.accept(p, tx.strip(b)) == tx.accept(p, b);
  }

  /** For a durable state that startup accepts: every record order leads to the desired
      configuration if and only if every unfinished record carries its parameter's desired value. */
  lemma EveryOrderConverges(tx: Text, st: Store, env: Settings)
    requires TextOk(tx) && ClaimInv(tx, st) && Acceptable(tx, st)
    ensures (forall order, p :: Lists(order, st.records.Keys) && p in st.config ==>
               Live(CleanReconcile(tx, st, env, order).0.rt, p, TextValue(tx, p, st.config[p])))
            <==> Agreed(tx, st)
  {
    if Agreed(tx, st) {
      forall order, p | Lists(order, st.records.Keys) && p in st.config
        ensures Live(CleanReconcile(tx, st, env, order).0.rt, p, TextValue(tx, p, st.config[p]))
      {
        StartupAccepts(tx, st, env, order);
        ExactRecovery(tx, st, env, order, map[], map[], p);
        LastIsOne(tx, st.records, order, p);
      }
    } else {
      var id :| id in st.records && Unfinished(st.records[id]) &&
        !(var q := tx.lookup(st.records[id].param); q.Some? && q.value in st.config && st.config[q.value] == st.records[id].value);
      assert RecordOk(tx, st, id);
      var p := tx.lookup(st.records[id].param).value;
      var order := OrderEndingIn(st.records.Keys, id);
      StartupAccepts(tx, st, env, order);
      ExactRecovery(tx, st, env, order, map[], map[], p);
      LastDecides(tx, st.records, order, p);
      DisagreementShows(tx, st, id, p);
      assert !Live(CleanReconcile(tx, st, env, order).0.rt, p, TextValue(tx, p, st.config[p]));
    }
  }

  lemma DisagreementShows(tx: Text, st: Store, id: Id, p: Param)
    requires TextOk(tx) && ClaimInv(tx, st) && Acceptable(tx, st)
    requires id in st.records && Concerns(tx, st.records[id], p) && p in st.config && st.config[p] != st.records[id].value
    ensures tx.accept(p, st.records[id].value).Some? && tx.accept(p, st.config[p]).Some?
    ensures TextValue(tx, p, st.records[id].value) != TextValue(tx, p, st.config[p])
  {
    assert RecordOk(tx, st, id);
    assert RecordAcceptable(tx, id, st.records[id]);
    assert tx.strip(st.records[id].value) == st.records[id].value;
    CanonicalUnique(tx, p, st.records[id].value, st.config[p]);
  }

  // ------------------------------------------------------------------ a text that blocks startup for good

  /** An unfinished record startup will refuse. */
  predicate BadRecord(tx: Text, id: Id, r: Record) { Unfinished(r) && !RecordAcceptable(tx, id, r) }

  /** Startup cannot get past `id` from here. */
  predicate Stuck(tx: Text, s: State, id: Id) {
    && id in s.store.records && BadRecord(tx, id, s.store.records[id])
    && (s.process.Recovering? ==> id in s.process.todo)
    && (s.process.Marking? ==> s.process.todo != [] && s.process.todo[0] != id && id in s.process.todo)
  }

  ghost predicate Blocked(tx: Text, s: State) {
    && !s.process.Up? && s.calls == map[]
    && (|| (s.process.Down? && exists p :: p in s.store.config && !Canonical(tx, p, s.store.config[p]))
        || (exists id :: Stuck(tx, s, id)))
  }

  lemma {:induction false} BadOverride(tx: Text, ps: seq<Param>, texts: map<Param, string>, rt: Runtime, faults: map<Param, Fault>, p: Param)
    requires p in ps && p in texts && !Canonical(tx, p, texts[p])
    ensures ApplyOverrides(tx, ps, texts, rt, faults).None?
    decreases |ps|
  {
    var q := ps[0];
    if q !in texts {
      BadOverride(tx, ps[1..], texts, rt, faults, p);
    } else if tx.accept(q, texts[q]).Some? && q != p {
      BadOverride(tx, ps[1..], texts, Synchronise(tx, rt, q, TextValue(tx, q, texts[q]), texts[q], FaultAt(faults, q)).0, faults, p);
    }
  }

  lemma BadConfigRefused(tx: Text, config: map<Param, string>, env: Settings, faults: map<Param, Fault>, p: Param)
    requires TextOk(tx) && p in config && !Canonical(tx, p, config[p])
    ensures BootRuntime(tx, config, env, faults).None?
  {
    if LoadOverrides(tx, config).Some? {
      assert SORTED_PARAMS[Place(p)] == p;
      assert tx.accept(p, tx.strip(config[p])) == tx.accept(p, config[p]);
      BadOverride(tx, SORTED_PARAMS, LoadOverrides(tx, config).value, FromEnvironment(env), faults, p);
    }
  }

  lemma BadRecordRefused(tx: Text, rt: Runtime, id: Id, r: Record, fault: Fault)
    requires BadRecord(tx, id, r)
    ensures RecoverOne(tx, rt, id, r, fault).Refuse?
  {}

  lemma StuckStep(tx: Text, s: State, a: Action, id: Id)
    requires TextOk(tx) && !s.process.Up? && s.calls == map[] && Stuck(tx, s, id) && By(a).None?
    ensures var t := StepWorld(tx, s, a); !t.process.Up? && t.calls == map[] && Stuck(tx, t, id)
  {
    if a.RecoverRecord? && s.process.Recovering? && s.process.todo != [] && s.process.todo[0] in s.store.records {
      if s.process.todo[0] == id { BadRecordRefused(tx, s.store.rt, id, s.store.records[id], a.fault); }
      else { assert id in s.process.todo[1..]; }
    }
  }

  lemma BlockedStep(tx: Text, s: State, a: Action)
    requires TextOk(tx) && Blocked(tx, s)
    ensures Blocked(tx, Step(tx, s, a))
  {
    if By(a).Some? {
      CallIdle(tx, s, a);
    } else if exists id :: Stuck(tx, s, id) {
      var id :| Stuck(tx, s, id);
      StuckStep(tx, s, a, id);
    } else {
      var p :| p in s.store.config && !Canonical(tx, p, s.store.config[p]);
      if a.Boot? { BadConfigRefused(tx, s.store.config, a.env, a.faults, p); }
      assert Step(tx, s, a).store.config == s.store.config && Step(tx, s, a).process.Down?;
    }
  }

  /** With no process running and one desired value or unfinished record that does not print back to
      itself, no sequence of restarts, in any environment, ever starts the program again. */
  lemma {:induction false} BlockedForGood(tx: Text, s: State, acts: seq<Action>)
    requires TextOk(tx) && s.process.Down? && s.calls == map[]
    requires (exists p :: p in s.store.config && !Canonical(tx, p, s.store.config[p]))
             || (exists id :: id in s.store.records && BadRecord(tx, id, s.store.records[id]))
    ensures !Run(tx, s, acts).process.Up? && Blocked(tx, Run(tx, s, acts))
  {
    if acts == [] {
      if exists id :: id in s.store.records && BadRecord(tx, id, s.store.records[id]) {
        var id :| id in s.store.records && BadRecord(tx, id, s.store.records[id]);
        assert Stuck(tx, s, id);
      }
    } else {
      BlockedForGood(tx, s, Before(acts));
      BlockedStep(tx, Run(tx, s, Before(acts)), Last(acts));
    }
  }
}
