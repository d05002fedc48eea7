/** The approval workflow as a step machine.

    A step is the code between two `await`s of one call, one committed database transaction,
    one stage of startup, or a crash. Everything the code does not decide (which call moves,
    what the environment holds, what the database or the RiskEngine refuses, the order in which
    records come back) is part of the action, so a run is a sequence of actions and a theorem
    over all sequences is a theorem over all interleavings, failures and crashes. */
module ApprovalProtocol {
  import opened Options
  import opened ApprovalModel

  type CallId = nat

  /** Where an in-flight call stands, with the locals it still needs. */
  datatype Call =
    | ApproveRead(id: Id, row: Row)
    | ApproveValidated(id: Id, row: Row, ok: Validated)
    | ApproveSnapshotted(id: Id, row: Row, ok: Validated, snap: Runtime)
    | ApproveClaimed(id: Id, ok: Validated, snap: Runtime)
    | ApproveSynced(id: Id, ok: Validated)
    | ApproveFaulted(id: Id, ok: Validated, snap: Runtime)
    | ApproveCompensating(id: Id, ok: Validated, snap: Runtime)
    | ReviewRead(id: Id, row: Row)
    | RejectRead(id: Id, row: Row)

  datatype Process =
    | Down
    | Configured                     // desired values applied, records not yet read
    | Recovering(todo: seq<Id>)      // records left to look at
    | Marking(todo: seq<Id>)         // first record re-applied and verified, not yet marked
    | Up

  datatype State = State(store: Store, process: Process, calls: map<CallId, Call>)

  datatype Action =
    | Create(newId: Id, newRow: Row)
    | BeginApprove(c: CallId, id: Id, approver: string)
    | CheckApprove(c: CallId, gates: bool)
    | SnapshotRuntime(c: CallId)
    | Claim(c: CallId, db: bool)
    | Sync(c: CallId, fault: Fault)
    | MarkApplied(c: CallId, db: bool)
    | MarkFailed(c: CallId, db: bool)
    | Compensate(c: CallId)
    | Abort(c: CallId)
    | BeginReview(c: CallId, id: Id, approver: string)
    | CommitReview(c: CallId, db: bool)
    | BeginReject(c: CallId, id: Id, approver: string)
    | CommitReject(c: CallId, db: bool)
    | Crash
    | Boot(env: Settings, faults: map<Param, Fault>)
    | LoadRecords(order: seq<Id>)
    | RecoverRecord(fault: Fault)
    | MarkRecovered(db: bool)
    | FinishBoot

  // ------------------------------------------------------------------ live calls

  function Ended(s: State, c: CallId): (r: State) { s.(calls := s.calls - {c}) }

  function Moved(s: State, c: CallId, to: Call): (r: State) { s.(calls := s.calls[c := to]) }

  predicate CanBegin(tx: Text, s: State, c: CallId, id: Id, approver: string) {
    s.process.Up? && c !in s.calls && tx.strip(approver) != "" && id in s.store.rows
  }

  predicate At(s: State, c: CallId) { s.process.Up? && c in s.calls }

  function StepCheck(tx: Text, s: State, c: CallId, gates: bool): (r: State) {
    if At(s, c) && s.calls[c].ApproveRead? then
      var call := s.calls[c];
      match Validate(tx, call.row, s.store.rt, gates)
      case None => Ended(s, c)
      case Some(ok) => Moved(s, c, ApproveValidated(call.id, call.row, ok))
    else s
  }

  function StepSnapshot(s: State, c: CallId): (r: State) {
    if At(s, c) && s.calls[c].ApproveValidated? then
      var call := s.calls[c];
      Moved(s, c, ApproveSnapshotted(call.id, call.row, call.ok, s.store.rt))
    else s
  }

  /** The committed claim of call `c`, if the action commits one. */
  function Claimed(tx: Text, s: State, a: Action): (r: Option<Store>) {
    if a.Claim? && a.db && At(s, a.c) && s.calls[a.c].ApproveSnapshotted? then
      var call := s.calls[a.c];
      ClaimTxn(tx, s.store, call.id, call.ok.param, call.ok.raw, call.row.version)
    else None
  }

  function StepClaim(tx: Text, s: State, c: CallId, db: bool): (r: State) {
    if At(s, c) && s.calls[c].ApproveSnapshotted? then
      var call := s.calls[c];
      match Claimed(tx, s, Claim(c, db))
      case None => Ended(s, c)
      case Some(store) => Moved(s.(store := store), c, ApproveClaimed(call.id, call.ok, call.snap))
    else s
  }

  function StepSync(tx: Text, s: State, c: CallId, fault: Fault): (r: State) {
    if At(s, c) && s.calls[c].ApproveClaimed? then
      var call := s.calls[c];
      var (rt, good) := Synchronise(tx, s.store.rt, call.ok.param, call.ok.value, call.ok.raw, fault);
      Moved(s.(store := s.store.(rt := rt)), c,
            if good then ApproveSynced(call.id, call.ok) else ApproveFaulted(call.id, call.ok, call.snap))
    else s
  }

  function StepMarkApplied(tx: Text, s: State, c: CallId, db: bool): (r: State) {
    if At(s, c) && s.calls[c].ApproveSynced? then
      var call := s.calls[c];
      Ended(if db then s.(store := Marked(tx, s.store, call.id, call.ok.param, call.ok.raw, Applied)) else s, c)
    else s
  }

  function StepMarkFailed(tx: Text, s: State, c: CallId, db: bool): (r: State) {
    if At(s, c) && s.calls[c].ApproveFaulted? then
      var call := s.calls[c];
      Moved(if db then s.(store := Marked(tx, s.store, call.id, call.ok.param, call.ok.raw, Failed)) else s,
            c, ApproveCompensating(call.id, call.ok, call.snap))
    else s
  }

  function StepCompensate(s: State, c: CallId): (r: State) {
    if At(s, c) && s.calls[c].ApproveCompensating? then
      Ended(s.(store := s.store.(rt := s.calls[c].snap)), c)
    else s
  }

  /** The call is cancelled at an `await`: it vanishes where it stands, without compensation. */
  function StepAbort(s: State, c: CallId): (r: State) { if At(s, c) then Ended(s, c) else s }

  /** The committed review or rejection, if the action commits one. */
  function Decided(s: State, a: Action): (r: Option<Store>) {
    if a.CommitReview? && a.db && At(s, a.c) && s.calls[a.c].ReviewRead? && s.calls[a.c].row.status.Pending? then
      DecideTxn(s.store, s.calls[a.c].id, true, Reviewed, s.calls[a.c].row.version)
    else if a.CommitReject? && a.db && At(s, a.c) && s.calls[a.c].RejectRead? && Actionable(s.calls[a.c].row.status) then
      DecideTxn(s.store, s.calls[a.c].id, false, Rejected, s.calls[a.c].row.version)
    else None
  }

  function StepDecide(s: State, a: Action): (r: State)
    requires a.CommitReview? || a.CommitReject?
  {
    if At(s, a.c) && (if a.CommitReview? then s.calls[a.c].ReviewRead? else s.calls[a.c].RejectRead?) then
      match Decided(s, a)
      case None => Ended(s, a.c)
      case Some(store) => Ended(s.(store := store), a.c)
    else s
  }

  // ------------------------------------------------------------------ startup

  /** `load_persisted_overrides`: the stripped texts, or `None` where it raises. */
  function LoadOverrides(tx: Text, config: map<Param, string>): (r: Option<map<Param, string>>) {
    if forall p :: p in config ==> tx.accept(p, config[p]).Some?
    then Some(map p | p in config :: tx.strip(config[p])) else None
  }

  function FaultAt(faults: map<Param, Fault>, p: Param): (f: Fault) { if p in faults then faults[p] else NoFault }

  /** Applying and verifying the desired values one parameter after the other. */
  function ApplyOverrides(tx: Text, ps: seq<Param>, texts: map<Param, string>, rt: Runtime, faults: map<Param, Fault>): (r: Option<Runtime>) {
    if ps == [] then Some(rt)
    else if ps[0] !in texts then ApplyOverrides(tx, ps[1..], texts, rt, faults)
    else
      match tx.accept(ps[0], texts[ps[0]])
      case None => None
      case Some(v) =>
        var (next, good) := Synchronise(tx, rt, ps[0], v, texts[ps[0]], FaultAt(faults, ps[0]));
        if good then ApplyOverrides(tx, ps[1..], texts, next, faults) else None
  }

  function BootRuntime(tx: Text, config: map<Param, string>, env: Settings, faults: map<Param, Fault>): (r: Option<Runtime>) {
    match LoadOverrides(tx, config)
    case None => None
    case Some(texts) => ApplyOverrides(tx, SORTED_PARAMS, texts, FromEnvironment(env), faults)
  }

  datatype Recovery = Skip | Refuse | Reapplied(rt: Runtime)

  /** One turn of the record loop of `reconcile_approved_config`, up to the durable mark. */
  function RecoverOne(tx: Text, rt: Runtime, id: Id, rec: Record, fault: Fault): (r: Recovery) {
    if rec.Malformed? || rec.status.Applied? then Skip
    else if rec.status.OtherStatus? || id == "" || rec.param == "" || rec.value == "" then Refuse
    else
      match tx.lookup(rec.param)
      case None => Refuse
      case Some(p) =>
        match tx.accept(p, rec.value)
        case None => Refuse
        case Some(v) =>
          var (next, good) := Synchronise(tx, rt, p, v, rec.value, fault);
          if good then Reapplied(next) else Refuse
  }

  /** `order` lists every record once: the order in which the query returned them. */
  predicate Lists(order: seq<Id>, ids: set<Id>) {
    && (forall i, j :: 0 <= i < j < |order| ==> order[i] != order[j])
    && (forall id :: id in ids ==> id in order)
    && (forall id :: id in order ==> id in ids)
  }

  function StepBoot(tx: Text, s: State, env: Settings, faults: map<Param, Fault>): (r: State) {
    if s.process.Down? then
      match BootRuntime(tx, s.store.config, env, faults)
      case None => s
      case Some(rt) => State(s.store.(rt := rt), Configured, map[])
    else s
  }

  function StepRecover(tx: Text, s: State, fault: Fault): (r: State) {
    if s.process.Recovering? && s.process.todo != [] && s.process.todo[0] in s.store.records then
      var id := s.process.todo[0];
      match RecoverOne(tx, s.store.rt, id, s.store.records[id], fault)
      case Skip => s.(process := Recovering(s.process.todo[1..]))
      case Refuse => s.(process := Down)
      case Reapplied(rt) => s.(store := s.store.(rt := rt), process := Marking(s.process.todo))
    else s
  }

  function StepMarkRecovered(s: State, db: bool): (r: State) {
    if s.process.Marking? && s.process.todo != [] && s.process.todo[0] in s.store.records
       && s.store.records[s.process.todo[0]].Record? then
      var id := s.process.todo[0];
      if db then
        s.(store := s.store.(records := s.store.records[id := s.store.records[id].(status := Applied)]),
           process := Recovering(s.process.todo[1..]))
      else s.(process := Down)
    else s
  }

  // ------------------------------------------------------------------ runs

  function StepCreate(s: State, id: Id, row: Row): (r: State) {
    if id !in s.store.rows && !row.status.Approved? then s.(store := s.store.(rows := s.store.rows[id := row])) else s
  }

  /** The first read of `approve`, `review` or `reject`; the first two insist on a nonblank id. */
  function StepBegin(tx: Text, s: State, a: Action): (r: State)
    requires a.BeginApprove? || a.BeginReview? || a.BeginReject?
  {
    if CanBegin(tx, s, a.c, a.id, a.approver) && (a.BeginReject? || tx.strip(a.id) != "") then
      var row := s.store.rows[a.id];
      Moved(s, a.c, if a.BeginApprove? then ApproveRead(a.id, row)
                    else if a.BeginReview? then ReviewRead(a.id, row) else RejectRead(a.id, row))
    else s
  }

  /** The process dies, or the startup stages that only move the process. */
  function StepProcess(tx: Text, s: State, a: Action): (r: State)
    requires a.Crash? || a.Boot? || a.LoadRecords? || a.RecoverRecord? || a.FinishBoot?
  {
    match a
    case Crash => s.(process := Down, calls := map[])
    case Boot(env, faults) => StepBoot(tx, s, env, faults)
    case LoadRecords(order) =>
      if s.process.Configured? && Lists(order, s.store.records.Keys) then s.(process := Recovering(order)) else s
    case RecoverRecord(fault) => StepRecover(tx, s, fault)
    case FinishBoot => if s.process == Recovering([]) then s.(process := Up) else s
  }

  /** The call an action belongs to; the others belong to the process or the database. */
  function By(a: Action): (r: Option<CallId>) {
    if a.Create? || a.Crash? || a.Boot? || a.LoadRecords? || a.RecoverRecord? || a.MarkRecovered? || a.FinishBoot?
    then None else Some(a.c)
  }

  function StepCall(tx: Text, s: State, a: Action): (r: State)
    requires By(a).Some?
  {
    match a
    case BeginApprove(_, _, _) => StepBegin(tx, s, a)
    case BeginReview(_, _, _) => StepBegin(tx, s, a)
    case BeginReject(_, _, _) => StepBegin(tx, s, a)
    case CheckApprove(c, gates) => StepCheck(tx, s, c, gates)
    case SnapshotRuntime(c) => StepSnapshot(s, c)
    case Claim(c, db) => StepClaim(tx, s, c, db)
    case Sync(c, fault) => StepSync(tx, s, c, fault)
    case MarkApplied(c, db) => StepMarkApplied(tx, s, c, db)
    case MarkFailed(c, db) => StepMarkFailed(tx, s, c, db)
    case Compensate(c) => StepCompensate(s, c)
    case Abort(c) => StepAbort(s, c)
    case CommitReview(_, _) => StepDecide(s, a)
    case CommitReject(_, _) => StepDecide(s, a)
  }

  function StepWorld(tx: Text, s: State, a: Action): (r: State)
    requires By(a).None?
  {
    match a
    case Create(id, row) => StepCreate(s, id, row)
    case MarkRecovered(db) => StepMarkRecovered(s, db)
    case Crash => StepProcess(tx, s, a)
    case Boot(_, _) => StepProcess(tx, s, a)
    case LoadRecords(_) => StepProcess(tx, s, a)
    case RecoverRecord(_) => StepProcess(tx, s, a)
    case FinishBoot => StepProcess(tx, s, a)
  }

  /** One step; an action that is not enabled changes nothing. */
  function Step(tx: Text, s: State, a: Action): (r: State) {
    if By(a).Some? then StepCall(tx, s, a) else StepWorld(tx, s, a)
  }

  /** A database with no recommendations, and no process. */
  function Init(env: Settings): (s: State) { State(Store(map[], map[], map[], FromEnvironment(env)), Down, map[]) }

  function Run(tx: Text, s: State, acts: seq<Action>): (r: State) {
    if acts == [] then s else Step(tx, Run(tx, s, acts[..|acts| - 1]), acts[|acts| - 1])
  }

  lemma RunLast(tx: Text, s: State, acts: seq<Action>, a: Action)
    ensures Run(tx, s, acts + [a]) == Step(tx, Run(tx, s, acts), a)
  {
    assert (acts + [a])[..|acts|] == acts;
  }

  lemma {:induction false} RunAppend(tx: Text, s: State, first: seq<Action>, second: seq<Action>)
    ensures Run(tx, s, first + second) == Run(tx, Run(tx, s, first), second)
  {
    if second == [] {
      assert first + second == first;
    } else {
      var init := second[..|second| - 1];
      RunAppend(tx, s, first, init);
      assert (first + second)[..|first + second| - 1] == first + init;
    }
  }

  lemma RunTwo(tx: Text, s: State, a: Action, b: Action)
    ensures Run(tx, s, [a, b]) == Step(tx, Step(tx, s, a), b)
  {
    assert [a, b] == [a] + [b] && [a] == [] + [a];
    RunLast(tx, s, [a], b);
    RunLast(tx, s, [], a);
  }

  lemma RunThree(tx: Text, s: State, a: Action, b: Action, c: Action)
    ensures Run(tx, s, [a, b, c]) == Step(tx, Step(tx, Step(tx, s, a), b), c)
  {
    RunTwo(tx, s, a, b);
    RunLast(tx, s, [a, b], c);
    assert [a, b] + [c] == [a, b, c];
  }

  lemma RunFour(tx: Text, s: State, a: Action, b: Action, c: Action, d: Action)
    ensures Run(tx, s, [a, b, c, d]) == Step(tx, Step(tx, Step(tx, Step(tx, s, a), b), c), d)
  {
    RunThree(tx, s, a, b, c);
    RunLast(tx, s, [a, b, c], d);
    assert [a, b, c] + [d] == [a, b, c, d];
  }

  // ------------------------------------------------------------------ the durable invariant

  /** The record of `id` carries its row's allowlisted, in-bounds parameter and value. */
  predicate RecordOk(tx: Text, st: Store, id: Id)
    requires id in st.records
  {
    var r := st.records[id];
    && r.Record? && !r.status.OtherStatus? && id != "" && id in st.rows && st.rows[id].status.Approved?
    && r.param == tx.strip(st.rows[id].param) && r.value == tx.strip(st.rows[id].proposed)
    && r.param != "" && r.value != "" && tx.lookup(r.param).Some?
    && tx.lookup(r.param).value in st.config && tx.accept(tx.lookup(r.param).value, r.value).Some?
  }

  ghost predicate ClaimInv(tx: Text, st: Store) {
    && (forall id :: id in st.rows && st.rows[id].status.Approved? ==> id in st.records)
    && (forall id :: id in st.records ==> RecordOk(tx, st, id))
    && (forall p :: p in st.config ==> tx.accept(p, st.config[p]).Some? && tx.strip(st.config[p]) == st.config[p])
  }

  /** What a call read about its row, against the row now. */
  predicate StillFresh(local: Row, now: Row) {
    && local.param == now.param && local.proposed == now.proposed && local.current == now.current
    && (now.status.Pending? ==> local.status.Pending? && local.version == now.version)
    && (now.status.Reviewed? ==>
          || (local.status.Pending? && local.version + 1 == now.version)
          || (local.status.Reviewed? && local.version == now.version))
  }

  predicate ValidatedOk(tx: Text, row: Row, ok: Validated) {
    && tx.lookup(tx.strip(row.param)) == Some(ok.param) && tx.name(ok.param) == tx.strip(row.param) && ok.raw == tx.strip(row.proposed)
    && tx.name(ok.param) != "" && ok.raw != "" && tx.strip(ok.raw) == ok.raw && tx.accept(ok.param, ok.raw) == Some(ok.value)
  }

  /** The call has committed its claim and has not returned. */
  predicate Owner(call: Call) {
    call.ApproveClaimed? || call.ApproveSynced? || call.ApproveFaulted? || call.ApproveCompensating?
  }

  predicate CallOk(tx: Text, st: Store, call: Call) {
    && call.id in st.rows
    && (call.ApproveRead? || call.ReviewRead? || call.RejectRead? || call.ApproveValidated? || call.ApproveSnapshotted? ==>
          StillFresh(call.row, st.rows[call.id]))
    && (call.ApproveRead? || call.ApproveValidated? || call.ApproveSnapshotted? ==> call.id != "")
    && (call.ApproveValidated? || call.ApproveSnapshotted? ==> ValidatedOk(tx, call.row, call.ok))
    && (Owner(call) ==>
          && call.id in st.records && ValidatedOk(tx, st.rows[call.id], call.ok)
          && (call.ApproveCompensating? || st.records[call.id] == Record(tx.name(call.ok.param), call.ok.raw, Applying))
          && (call.ApproveCompensating? ==> st.records[call.id].Record? && !st.records[call.id].status.Applied?))
  }

  ghost predicate CallInv(tx: Text, s: State) {
    && (forall c :: c in s.calls ==> CallOk(tx, s.store, s.calls[c]))
    && (forall c, d :: c in s.calls && d in s.calls && c != d && Owner(s.calls[c]) && Owner(s.calls[d]) ==>
          s.calls[c].id != s.calls[d].id)
    && (s.calls != map[] ==> s.process.Up?)
  }

  ghost predicate Inv(tx: Text, s: State) { ClaimInv(tx, s.store) && CallInv(tx, s) }

  lemma ValidateGives(tx: Text, row: Row, rt: Runtime, gates: bool)
    requires TextOk(tx)
    ensures Validate(tx, row, rt, gates).Some? ==> ValidatedOk(tx, row, Validate(tx, row, rt, gates).value) && Actionable(row.status)
  {}
}
