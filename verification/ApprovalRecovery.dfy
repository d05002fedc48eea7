/** Startup: what `reconcile_approved_config` leaves behind, when it accepts the durable state, and
    when the runtime it builds is the desired configuration. */
module ApprovalRecovery {
  import opened Options
  import opened ApprovalModel
  import opened ApprovalProtocol
  import opened ApprovalSafety
  import opened ApprovalRuns

  // ------------------------------------------------------------------ startup as one function

  function FaultOf(faults: map<Id, Fault>, id: Id): (f: Fault) { if id in faults then faults[id] else NoFault }

  function WithApplied(st: Store, id: Id): (r: Store)
    requires id in st.records && st.records[id].Record?
  {
    st.(records := st.records[id := st.records[id].(status := Applied)])
  }

  /** The record loop: the store after it, and whether startup goes on. */
  function RecoverAll(tx: Text, st: Store, todo: seq<Id>, faults: map<Id, Fault>): (r: (Store, bool))
    decreases |todo|
  {
    if todo == [] then (st, true)
    else if todo[0] !in st.records then (st, false)
    else
      match RecoverOne(tx, st.rt, todo[0], st.records[todo[0]], FaultOf(faults, todo[0]))
      case Skip => RecoverAll(tx, st, todo[1..], faults)
      case Refuse => (st, false)
      case Reapplied(rt) => RecoverAll(tx, WithApplied(st.(rt := rt), todo[0]), todo[1..], faults)
  }

  /** `reconcile_approved_config` on a freshly built process: `true` when it returns normally. */
  function Reconcile(tx: Text, st: Store, env: Settings, order: seq<Id>,
                     paramFaults: map<Param, Fault>, recordFaults: map<Id, Fault>): (r: (Store, bool)) {
    match BootRuntime(tx, st.config, env, paramFaults)
    case None => (st, false)
    case Some(rt) => RecoverAll(tx, st.(rt := rt), order, recordFaults)
  }

  /** Startup with nothing failing but the code's own checks. */
  function CleanReconcile(tx: Text, st: Store, env: Settings, order: seq<Id>): (r: (Store, bool)) {
    Reconcile(tx, st, env, order, map[], map[])
  }

  // ------------------------------------------------------------------ the steps agree with the function

  /** The steps of the record loop, one record after the other. */
  function Script(todo: seq<Id>, faults: map<Id, Fault>): (acts: seq<Action>) {
    if todo == [] then [] else [RecoverRecord(FaultOf(faults, todo[0])), MarkRecovered(true)] + Script(todo[1..], faults)
  }

  lemma {:induction false} DownScript(tx: Text, s: State, todo: seq<Id>, faults: map<Id, Fault>)
    requires s.process.Down?
    ensures Run(tx, s, Script(todo, faults)) == s
  {
    if todo != [] {
      var two := [RecoverRecord(FaultOf(faults, todo[0])), MarkRecovered(true)];
      RunTwo(tx, s, two[0], two[1]);
      DownScript(tx, s, todo[1..], faults);
      RunAppend(tx, s, two, Script(todo[1..], faults));
    }
  }

  lemma {:induction false} ScriptRun(tx: Text, s: State, faults: map<Id, Fault>)
    requires s.process.Recovering? && forall id :: id in s.process.todo ==> id in s.store.records
    ensures var (st, good) := RecoverAll(tx, s.store, s.process.todo, faults);
            Run(tx, s, Script(s.process.todo, faults)) == s.(store := st, process := if good then Recovering([]) else Down)
    decreases |s.process.todo|
  {
    var todo := s.process.todo;
    if todo != [] {
      var two := [RecoverRecord(FaultOf(faults, todo[0])), MarkRecovered(true)];
      var t := Step(tx, Step(tx, s, two[0]), two[1]);
      RunTwo(tx, s, two[0], two[1]);
      RunAppend(tx, s, two, Script(todo[1..], faults));
      match RecoverOne(tx, s.store.rt, todo[0], s.store.records[todo[0]], FaultOf(faults, todo[0])) {
        case Skip =>
          assert t == s.(process := Recovering(todo[1..]));
          ScriptRun(tx, t, faults);
        case Refuse =>
          assert t == s.(process := Down);
          DownScript(tx, t, todo[1..], faults);
        case Reapplied(rt) =>
          assert t == s.(store := WithApplied(s.store.(rt := rt), todo[0]), process := Recovering(todo[1..]));
          ScriptRun(tx, t, faults);
      }
    }
  }

  /** Taken one step at a time without interruption, startup is the function `Reconcile`. */
  lemma StartupIsReconcile(tx: Text, s: State, env: Settings, order: seq<Id>,
                           paramFaults: map<Param, Fault>, recordFaults: map<Id, Fault>)
    requires s.process.Down? && s.calls == map[] && Lists(order, s.store.records.Keys)
    ensures var (st, good) := Reconcile(tx, s.store, env, order, paramFaults, recordFaults);
            Run(tx, s, [Boot(env, paramFaults), LoadRecords(order)] + Script(order, recordFaults) + [FinishBoot])
            == State(st, if good then Up else Down, map[])
  {
    var two := [Boot(env, paramFaults), LoadRecords(order)];
    var t := Step(tx, Step(tx, s, two[0]), two[1]);
    RunTwo(tx, s, two[0], two[1]);
    RunAppend(tx, s, two, Script(order, recordFaults));
    RunLast(tx, s, two + Script(order, recordFaults), FinishBoot);
    if BootRuntime(tx, s.store.config, env, paramFaults).None? {
      assert t == s;
      DownScript(tx, s, order, recordFaults);
    } else {
      ScriptRun(tx, t, recordFaults);
    }
  }

  // ------------------------------------------------------------------ the desired values

  function TextValue(tx: Text, p: Param, raw: string): (v: Value)
    requires tx.accept(p, raw).Some?
  {
    tx.accept(p, raw).value
  }

  /** After the first pass every parameter holds its desired value, or the environment's. */
  lemma {:induction false} OverridesExact(tx: Text, ps: seq<Param>, texts: map<Param, string>, rt: Runtime, faults: map<Param, Fault>, p: Param)
    requires ApplyOverrides(tx, ps, texts, rt, faults).Some?
    ensures var out := ApplyOverrides(tx, ps, texts, rt, faults).value;
            if p in ps && p in texts
            then tx.accept(p, texts[p]).Some? && out.settings[p] == TextValue(tx, p, texts[p])
            else out.settings[p] == rt.settings[p]
    decreases |ps|
  {
    if ps != [] {
      if ps[0] !in texts {
        OverridesExact(tx, ps[1..], texts, rt, faults, p);
      } else {
        var next := Installed(rt, ps[0], TextValue(tx, ps[0], texts[ps[0]]));
        OverridesExact(tx, ps[1..], texts, next, faults, p);
      }
    }
  }

  lemma {:induction false} OverridesAccepted(tx: Text, ps: seq<Param>, texts: map<Param, string>, rt: Runtime)
    requires forall p :: p in texts ==> tx.accept(p, texts[p]).Some?
    ensures ApplyOverrides(tx, ps, texts, rt, map[]).Some? <==> forall p :: p in ps && p in texts ==> Canonical(tx, p, texts[p])
    decreases |ps|
  {
    if ps != [] {
      var p := ps[0];
      assert forall q :: q in ps <==> q == p || q in ps[1..];
      if p !in texts {
        OverridesAccepted(tx, ps[1..], texts, rt);
      } else {
        SyncExact(tx, rt, p, texts[p]);
        OverridesAccepted(tx, ps[1..], texts, Installed(rt, p, TextValue(tx, p, texts[p])));
      }
    }
  }

  /** Without a fault, applying and verifying a text succeeds exactly when it is canonical. */
  lemma SyncExact(tx: Text, rt: Runtime, p: Param, raw: string)
    requires tx.accept(p, raw).Some?
    ensures Synchronise(tx, rt, p, tx.accept(p, raw).value, raw, NoFault).1 <==> Canonical(tx, p, raw)
  {}

  lemma BootExact(tx: Text, config: map<Param, string>, env: Settings, faults: map<Param, Fault>, p: Param)
    requires TextOk(tx) && BootRuntime(tx, config, env, faults).Some?
    ensures var rt := BootRuntime(tx, config, env, faults).value;
            if p in config then tx.accept(p, config[p]).Some? && rt.settings[p] == TextValue(tx, p, config[p])
            else rt.settings[p] == env[p]
  {
    OverridesExact(tx, SORTED_PARAMS, LoadOverrides(tx, config).value, FromEnvironment(env), faults, p);
    assert SORTED_PARAMS[Place(p)] == p;
  }

  lemma BootAccepted(tx: Text, config: map<Param, string>, env: Settings)
    requires TextOk(tx)
    ensures BootRuntime(tx, config, env, map[]).Some? <==> forall p :: p in config ==> Canonical(tx, p, config[p])
  {
    if LoadOverrides(tx, config).Some? {
      var texts := LoadOverrides(tx, config).value;
      OverridesAccepted(tx, SORTED_PARAMS, texts, FromEnvironment(env));
      forall p | p in config ensures p in SORTED_PARAMS && (Canonical(tx, p, texts[p]) <==> Canonical(tx, p, config[p])) {
        assert SORTED_PARAMS[Place(p)] == p;
        assert tx.accept(p, tx.strip(config[p])) == tx.accept(p, config[p]);
        assert tx.strip(tx.strip(config[p])) == tx.strip(config[p]);
      }
    }
  }

  // ------------------------------------------------------------------ the unfinished records

  predicate Concerns(tx: Text, r: Record, p: Param) { Unfinished(r) && tx.lookup(r.param) == Some(p) }

  /** The text of the last unfinished record of `p` in processing order. */
  function LastUnfinished(tx: Text, records: map<Id, Record>, todo: seq<Id>, p: Param): (r: Option<string>) {
    if todo == [] then None else
    var rest := LastUnfinished(tx, records, todo[1..], p);
    if rest.Some? then rest
    else if todo[0] in records && Concerns(tx, records[todo[0]], p) then Some(records[todo[0]].value) else None
  }

  predicate Distinct(todo: seq<Id>) { forall i, j :: 0 <= i < j < |todo| ==> todo[i] != todo[j] }

  lemma {:induction false} LastUnfinishedFrame(tx: Text, records: map<Id, Record>, other: map<Id, Record>, todo: seq<Id>, p: Param)
    requires forall id :: id in todo ==> (id in records <==> id in other) && (id in records ==> records[id] == other[id])
    ensures LastUnfinished(tx, records, todo, p) == LastUnfinished(tx, other, todo, p)
  {
    if todo != [] { LastUnfinishedFrame(tx, records, other, todo[1..], p); }
  }

  lemma RecoverOneSettings(tx: Text, rt: Runtime, id: Id, r: Record, fault: Fault, p: Param)
    requires RecoverOne(tx, rt, id, r, fault).Reapplied?
    ensures var out := RecoverOne(tx, rt, id, r, fault).rt;
            && Unfinished(r)
            && (if Concerns(tx, r, p) then tx.accept(p, r.value).Some? && out.settings[p] == TextValue(tx, p, r.value)
                else out.settings[p] == rt.settings[p])
  {}

  lemma DistinctRest(todo: seq<Id>)
    requires todo != [] && Distinct(todo)
    ensures Distinct(todo[1..]) && todo[0] !in todo[1..]
  {
    var rest := todo[1..];
    assert forall i :: 0 <= i < |rest| ==> rest[i] == todo[i + 1];
  }

  /** After a record loop that went through, each parameter holds its last-processed unfinished
      record's value, and is otherwise untouched. */
  lemma {:induction false} RecoverSettings(tx: Text, st: Store, todo: seq<Id>, faults: map<Id, Fault>, p: Param)
    requires RecoverAll(tx, st, todo, faults).1 && Distinct(todo)
    ensures var out := RecoverAll(tx, st, todo, faults).0;
            var text := LastUnfinished(tx, st.records, todo, p);
            if text.Some? then tx.accept(p, text.value).Some? && out.rt.settings[p] == TextValue(tx, p, text.value)
            else out.rt.settings[p] == st.rt.settings[p]
    decreases |todo|
  {
    if todo != [] {
      var id, rest := todo[0], todo[1..];
      DistinctRest(todo);
      match RecoverOne(tx, st.rt, id, st.records[id], FaultOf(faults, id)) {
        case Skip =>
          assert !Concerns(tx, st.records[id], p);
          RecoverSettings(tx, st, rest, faults, p);
        case Reapplied(rt) =>
          var next := WithApplied(st.(rt := rt), id);
          RecoverTurn(tx, st, todo, faults, rt);
          RecoverSettings(tx, next, rest, faults, p);
          ReappliedLast(tx, st, todo, rt, FaultOf(faults, id), p);
      }
    }
  }

  lemma RecoverTurn(tx: Text, st: Store, todo: seq<Id>, faults: map<Id, Fault>, rt: Runtime)
    requires todo != [] && todo[0] in st.records
    requires RecoverOne(tx, st.rt, todo[0], st.records[todo[0]], FaultOf(faults, todo[0])) == Reapplied(rt)
    ensures RecoverAll(tx, st, todo, faults) == RecoverAll(tx, WithApplied(st.(rt := rt), todo[0]), todo[1..], faults)
  {}

  /** Re-applying the first record decides its parameter unless a later one does. */
  lemma ReappliedLast(tx: Text, st: Store, todo: seq<Id>, rt: Runtime, fault: Fault, p: Param)
    requires todo != [] && todo[0] in st.records && todo[0] !in todo[1..]
    requires RecoverOne(tx, st.rt, todo[0], st.records[todo[0]], fault) == Reapplied(rt)
    ensures var next, rec := WithApplied(st.(rt := rt), todo[0]), st.records[todo[0]];
            var later := LastUnfinished(tx, next.records, todo[1..], p);
            && LastUnfinished(tx, st.records, todo, p) == (if later.Some? then later else if Concerns(tx, rec, p) then Some(rec.value) else None)
            && (if Concerns(tx, rec, p) then tx.accept(p, rec.value).Some? && rt.settings[p] == TextValue(tx, p, rec.value)
                else rt.settings[p] == st.rt.settings[p])
  {
    RecoverOneSettings(tx, st.rt, todo[0], st.records[todo[0]], fault, p);
    LastUnfinishedFrame(tx, st.records, WithApplied(st.(rt := rt), todo[0]).records, todo[1..], p);
  }

  /** After a record loop that went through, every record it met is applied (or malformed and skipped). */
  lemma {:induction false} RecoverRecords(tx: Text, st: Store, todo: seq<Id>, faults: map<Id, Fault>, id: Id)
    requires RecoverAll(tx, st, todo, faults).1 && id in st.records
    ensures var out := RecoverAll(tx, st, todo, faults).0;
            && id in out.records
            && out.records[id] == (if id in todo && Unfinished(st.records[id]) then st.records[id].(status := Applied) else st.records[id])
    decreases |todo|
  {
    if todo != [] {
      match RecoverOne(tx, st.rt, todo[0], st.records[todo[0]], FaultOf(faults, todo[0])) {
        case Skip => RecoverRecords(tx, st, todo[1..], faults, id);
        case Reapplied(rt) => RecoverRecords(tx, WithApplied(st.(rt := rt), todo[0]), todo[1..], faults, id);
      }
    }
  }

  lemma {:induction false} RecoverKeepsRest(tx: Text, st: Store, todo: seq<Id>, faults: map<Id, Fault>)
    ensures var out := RecoverAll(tx, st, todo, faults).0;
            out.rows == st.rows && out.config == st.config && out.records.Keys == st.records.Keys
    decreases |todo|
  {
    if todo != [] && todo[0] in st.records {
      match RecoverOne(tx, st.rt, todo[0], st.records[todo[0]], FaultOf(faults, todo[0])) {
        case Skip => RecoverKeepsRest(tx, st, todo[1..], faults);
        case Refuse =>
        case Reapplied(rt) => RecoverKeepsRest(tx, WithApplied(st.(rt := rt), todo[0]), todo[1..], faults);
      }
    }
  }

  // ------------------------------------------------------------------ faults and lockstep

  /** A fault can only make a synchronisation fail: where it succeeds, it made no difference. */
  lemma FaultOnlyRefuses(tx: Text, rt: Runtime, p: Param, v: Value, raw: string, fault: Fault)
    requires Synchronise(tx, rt, p, v, raw, fault).1
    ensures Synchronise(tx, rt, p, v, raw, fault) == Synchronise(tx, rt, p, v, raw, NoFault)
  {}

  lemma {:induction false} OverridesSame(tx: Text, ps: seq<Param>, texts: map<Param, string>, rt: Runtime, faults: map<Param, Fault>)
    requires ApplyOverrides(tx, ps, texts, rt, faults).Some?
    ensures ApplyOverrides(tx, ps, texts, rt, faults) == ApplyOverrides(tx, ps, texts, rt, map[])
    decreases |ps|
  {
    if ps != [] {
      var p := ps[0];
      if p !in texts {
        OverridesSame(tx, ps[1..], texts, rt, faults);
      } else {
        var v := TextValue(tx, p, texts[p]);
        FaultOnlyRefuses(tx, rt, p, v, texts[p], FaultAt(faults, p));
        OverridesSame(tx, ps[1..], texts, Installed(rt, p, v), faults);
      }
    }
  }

  lemma RecoverOneSame(tx: Text, rt: Runtime, id: Id, rec: Record, fault: Fault)
    requires !RecoverOne(tx, rt, id, rec, fault).Refuse?
    ensures RecoverOne(tx, rt, id, rec, fault) == RecoverOne(tx, rt, id, rec, NoFault)
  {}

  lemma {:induction false} RecoverSame(tx: Text, st: Store, todo: seq<Id>, faults: map<Id, Fault>)
    requires RecoverAll(tx, st, todo, faults).1
    ensures RecoverAll(tx, st, todo, faults) == RecoverAll(tx, st, todo, map[])
    decreases |todo|
  {
    if todo != [] {
      var id := todo[0];
      RecoverOneSame(tx, st.rt, id, st.records[id], FaultOf(faults, id));
      match RecoverOne(tx, st.rt, id, st.records[id], FaultOf(faults, id)) {
        case Skip => RecoverSame(tx, st, todo[1..], faults);
        case Reapplied(rt) => RecoverSame(tx, WithApplied(st.(rt := rt), id), todo[1..], faults);
      }
    }
  }

  /** A startup that returns normally did what it would have done without any fault. */
  lemma ReconcileSame(tx: Text, st: Store, env: Settings, order: seq<Id>, paramFaults: map<Param, Fault>, recordFaults: map<Id, Fault>)
    requires Reconcile(tx, st, env, order, paramFaults, recordFaults).1
    ensures Reconcile(tx, st, env, order, paramFaults, recordFaults) == CleanReconcile(tx, st, env, order)
  {
    OverridesSame(tx, SORTED_PARAMS, LoadOverrides(tx, st.config).value, FromEnvironment(env), paramFaults);
    RecoverSame(tx, st.(rt := BootRuntime(tx, st.config, env, paramFaults).value), order, recordFaults);
  }

  lemma {:induction false} RecoverAllLocked(tx: Text, st: Store, todo: seq<Id>, faults: map<Id, Fault>)
    requires Lockstep(st.rt)
    ensures Lockstep(RecoverAll(tx, st, todo, faults).0.rt)
    decreases |todo|
  {
    if todo != [] && todo[0] in st.records {
      RecoverOneLocked(tx, st.rt, todo[0], st.records[todo[0]], FaultOf(faults, todo[0]));
      match RecoverOne(tx, st.rt, todo[0], st.records[todo[0]], FaultOf(faults, todo[0])) {
        case Skip => RecoverAllLocked(tx, st, todo[1..], faults);
        case Refuse =>
        case Reapplied(rt) => RecoverAllLocked(tx, WithApplied(st.(rt := rt), todo[0]), todo[1..], faults);
      }
    }
  }

  lemma ReconcileLocked(tx: Text, st: Store, env: Settings, order: seq<Id>, paramFaults: map<Param, Fault>, recordFaults: map<Id, Fault>)
    requires Reconcile(tx, st, env, order, paramFaults, recordFaults).1
    ensures Lockstep(Reconcile(tx, st, env, order, paramFaults, recordFaults).0.rt)
  {
    OverridesLocked(tx, SORTED_PARAMS, LoadOverrides(tx, st.config).value, FromEnvironment(env), paramFaults);
    RecoverAllLocked(tx, st.(rt := BootRuntime(tx, st.config, env, paramFaults).value), order, recordFaults);
  }

  /** The live value of a parameter: in the settings and, for one named `risk.*`, in the RiskEngine. */
  predicate Live(rt: Runtime, p: Param, v: Value) { rt.settings[p] == v && (NamedRisk(p) ==> rt.limits[p] == v) }

  /** The exact result of a startup that returns normally, for every order of the records. */
  lemma ExactRecovery(tx: Text, st: Store, env: Settings, order: seq<Id>,
                      paramFaults: map<Param, Fault>, recordFaults: map<Id, Fault>, p: Param)
    requires TextOk(tx) && Lists(order, st.records.Keys)
    requires Reconcile(tx, st, env, order, paramFaults, recordFaults).1
    ensures var out := Reconcile(tx, st, env, order, paramFaults, recordFaults).0;
            && out.rows == st.rows && out.config == st.config && out.records.Keys == st.records.Keys
            && (forall id :: id in out.records ==> !Unfinished(out.records[id]))
            && var text := LastUnfinished(tx, st.records, order, p);
               if text.Some? then tx.accept(p, text.value).Some? && Live(out.rt, p, TextValue(tx, p, text.value))
               else if p in st.config then tx.accept(p, st.config[p]).Some? && Live(out.rt, p, TextValue(tx, p, st.config[p]))
               else Live(out.rt, p, env[p])
  {
    ReconcileLocked(tx, st, env, order, paramFaults, recordFaults);
    RiskByName(p);
    var booted := st.(rt := BootRuntime(tx, st.config, env, paramFaults).value);
    BootExact(tx, st.config, env, paramFaults, p);
    RecoverSettings(tx, booted, order, recordFaults, p);
    RecoverKeepsRest(tx, booted, order, recordFaults);
    forall id | id in st.records
      ensures var out := RecoverAll(tx, booted, order, recordFaults).0; id in out.records && !Unfinished(out.records[id])
    {
      RecoverRecords(tx, booted, order, recordFaults, id);
    }
  }

  // ------------------------------------------------------------------ exact acceptance

  /** Startup has nothing to object to: every desired value and every unfinished record is well
      formed and prints back to itself. */
  ghost predicate Acceptable(tx: Text, st: Store) {
    && (forall p :: p in st.config ==> Canonical(tx, p, st.config[p]))
    && (forall id :: id in st.records && Unfinished(st.records[id]) ==> RecordAcceptable(tx, id, st.records[id]))
  }

  predicate RecordAcceptable(tx: Text, id: Id, r: Record)
    requires r.Record?
  {
    && !r.status.OtherStatus? && id != "" && r.param != "" && r.value != "" && tx.lookup(r.param).Some?
    && Canonical(tx, tx.lookup(r.param).value, r.value)
  }

  lemma RecoverOneAccepts(tx: Text, rt: Runtime, id: Id, r: Record)
    ensures RecoverOne(tx, rt, id, r, NoFault).Refuse? <==> Unfinished(r) && !RecordAcceptable(tx, id, r)
    ensures RecoverOne(tx, rt, id, r, NoFault).Skip? <==> !Unfinished(r)
  {}

  lemma {:induction false} RecoverAccepts(tx: Text, st: Store, todo: seq<Id>)
    requires Distinct(todo) && forall id :: id in todo ==> id in st.records
    ensures RecoverAll(tx, st, todo, map[]).1 <==>
            forall id :: id in todo && Unfinished(st.records[id]) ==> RecordAcceptable(tx, id, st.records[id])
    decreases |todo|
  {
    if todo != [] {
      var id, rest := todo[0], todo[1..];
      assert forall i :: i in todo <==> i == id || i in rest;
      RecoverOneAccepts(tx, st.rt, id, st.records[id]);
      match RecoverOne(tx, st.rt, id, st.records[id], NoFault) {
        case Skip => RecoverAccepts(tx, st, rest);
        case Refuse =>
        case Reapplied(rt) =>
          var next := WithApplied(st.(rt := rt), id);
          RecoverAccepts(tx, next, rest);
          assert forall i :: i in rest ==> i != id && next.records[i] == st.records[i];
      }
    }
  }

  /** Startup returns normally exactly when the durable state is acceptable, whatever the environment
      and the record order. */
  lemma StartupAccepts(tx: Text, st: Store, env: Settings, order: seq<Id>)
    requires TextOk(tx) && Lists(order, st.records.Keys)
    ensures CleanReconcile(tx, st, env, order).1 <==> Acceptable(tx, st)
  {
    BootAccepted(tx, st.config, env);
    var boot := BootRuntime(tx, st.config, env, map[]);
    if boot.Some? {
      RecoverAccepts(tx, st.(rt := boot.value), order);
    }
  }

  /** In every reachable state, the only thing that can make startup refuse its own data is a text that
      does not print back to itself. */
  lemma ReachableStartup(tx: Text, boot: Settings, acts: seq<Action>, env: Settings, order: seq<Id>)
    requires TextOk(tx) && Lists(order, Run(tx, Init(boot), acts).store.records.Keys)
    ensures var st := Run(tx, Init(boot), acts).store;
            CleanReconcile(tx, st, env, order).1 <==>
            && (forall p :: p in st.config ==> Canonical(tx, p, st.config[p]))
            && (forall id :: id in st.records && Unfinished(st.records[id]) ==>
                  tx.lookup(st.records[id].param).Some? && Canonical(tx, tx.lookup(st.records[id].param).value, st.records[id].value))
  {
    var st := Run(tx, Init(boot), acts).store;
    DurableClaims(tx, boot, acts);
    StartupAccepts(tx, st, env, order);
    forall id | id in st.records && Unfinished(st.records[id])
      ensures tx.lookup(st.records[id].param).Some?
      ensures RecordAcceptable(tx, id, st.records[id]) <==> Canonical(tx, tx.lookup(st.records[id].param).value, st.records[id].value)
    {
      assert RecordOk(tx, st, id);
    }
  }

  /** Two startups in a row that return normally, whatever records the first one found and whatever
      faults either met: the second ends at the desired configuration. And the second does return
      normally when nothing fails but the code's own checks. */
  lemma TwoStartups(tx: Text, st: Store, env: Settings, order: seq<Id>, paramFaults: map<Param, Fault>, recordFaults: map<Id, Fault>,
                    env2: Settings, order2: seq<Id>, paramFaults2: map<Param, Fault>, recordFaults2: map<Id, Fault>, p: Param)
    requires TextOk(tx) && Lists(order, st.records.Keys) && Lists(order2, st.records.Keys)
    requires Reconcile(tx, st, env, order, paramFaults, recordFaults).1
    ensures var first := Reconcile(tx, st, env, order, paramFaults, recordFaults).0;
            var second := Reconcile(tx, first, env2, order2, paramFaults2, recordFaults2);
            && CleanReconcile(tx, first, env2, order2).1
            && (second.1 ==>
                  && second.0.config == st.config
                  && (if p in st.config
                      then tx.accept(p, st.config[p]).Some? && Live(second.0.rt, p, TextValue(tx, p, st.config[p]))
                      else Live(second.0.rt, p, env2[p])))
  {
    var first := Reconcile(tx, st, env, order, paramFaults, recordFaults).0;
    ReconcileSame(tx, st, env, order, paramFaults, recordFaults);
    ExactRecovery(tx, st, env, order, map[], map[], p);
    StartupAccepts(tx, st, env, order);
    StartupAccepts(tx, first, env2, order2);
    if Reconcile(tx, first, env2, order2, paramFaults2, recordFaults2).1 {
      ExactRecovery(tx, first, env2, order2, paramFaults2, recordFaults2, p);
      NoneUnfinished(tx, first.records, order2, p);
    }
  }

  lemma {:induction false} NoneUnfinished(tx: Text, records: map<Id, Record>, todo: seq<Id>, p: Param)
    requires forall id :: id in records ==> !Unfinished(records[id])
    ensures LastUnfinished(tx, records, todo, p).None?
  {
    if todo != [] { NoneUnfinished(tx, records, todo[1..], p); }
  }
}
