/** The data of the approval workflow (app/agent/approval.py): the allowlist, the durable
    tables, the live runtime, and what one atomic piece of the code does to them. */
module ApprovalModel {
  import opened Options
  import opened PyText

  // ------------------------------------------------------------------ allowlist

  datatype Param =
    | MaxTradeSize | MinNetProfitBps | MaxSlippageBps | MaxDataAgeMs | MaxOpenTransfers | MaxDailyLoss
    | TriangleMinNetBps | TriangleMaxLegSlippageBps | LegTimeoutSeconds

  datatype Kind = DecimalKind | IntKind

  datatype Value = DecValueOf(dec: Dec) | IntValueOf(n: int)

  predicate IsRisk(p: Param) {
    p.MaxTradeSize? || p.MinNetProfitBps? || p.MaxSlippageBps? || p.MaxDataAgeMs? || p.MaxOpenTransfers? || p.MaxDailyLoss?
  }

  function KindOf(p: Param): (k: Kind) {
    if p.MaxDataAgeMs? || p.MaxOpenTransfers? || p.LegTimeoutSeconds? then IntKind else DecimalKind
  }

  function Name(p: Param): (s: string) {
    match p
    case MaxTradeSize => "risk.max_trade_size"
    case MinNetProfitBps => "risk.min_net_profit_bps"
    case MaxSlippageBps => "risk.max_slippage_bps"
    case MaxDataAgeMs => "risk.max_data_age_ms"
    case MaxOpenTransfers => "risk.max_open_transfers"
    case MaxDailyLoss => "risk.max_daily_loss"
    case TriangleMinNetBps => "arbitrage.triangle_min_net_bps"
    case TriangleMaxLegSlippageBps => "arbitrage.triangle_max_leg_slippage_bps"
    case LegTimeoutSeconds => "execution.leg_timeout_seconds"
  }

  function Lowest(p: Param): (n: int) {
    match p
    case MaxTradeSize => 10
    case MinNetProfitBps => 0
    case MaxSlippageBps => 1
    case MaxDataAgeMs => 500
    case MaxOpenTransfers => 0
    case MaxDailyLoss => 10
    case TriangleMinNetBps => 0
    case TriangleMaxLegSlippageBps => 1
    case LegTimeoutSeconds => 1
  }

  function Highest(p: Param): (n: int) {
    match p
    case MaxTradeSize => 5000
    case MinNetProfitBps => 100
    case MaxSlippageBps => 100
    case MaxDataAgeMs => 10000
    case MaxOpenTransfers => 10
    case MaxDailyLoss => 10000
    case TriangleMinNetBps => 100
    case TriangleMaxLegSlippageBps => 50
    case LegTimeoutSeconds => 60
  }

  /** Every parameter, in the order `sorted` puts their names. */
  const SORTED_PARAMS: seq<Param> := [
    TriangleMaxLegSlippageBps, TriangleMinNetBps, LegTimeoutSeconds,
    MaxDailyLoss, MaxDataAgeMs, MaxOpenTransfers, MaxSlippageBps, MaxTradeSize, MinNetProfitBps]

  /** The allowlist lookup `param in ALLOWLIST`. */
  function Lookup(name: string, from: nat := 0): (r: Option<Param>)
    requires from <= |SORTED_PARAMS|
    ensures r.Some? ==> Name(r.value) == name
    decreases |SORTED_PARAMS| - from
  {
    if from == |SORTED_PARAMS| then None
    else if Name(SORTED_PARAMS[from]) == name then Some(SORTED_PARAMS[from])
    else Lookup(name, from + 1)
  }

  // ------------------------------------------------------------------ values and their text

  function Show(v: Value): (s: string) {
    match v
    case DecValueOf(d) => PrintDec(d)
    case IntValueOf(n) => PrintInt(n)
  }

  /** `_parse_value`: the text is stripped first; an int parameter refuses a point. */
  function ParseValue(k: Kind, raw: string): (r: Option<Value>) {
    var s := Strip(raw);
    match k
    case DecimalKind => (match ParseDec(s) case Some(d) => Some(DecValueOf(d)) case None => None)
    case IntKind =>
      if '.' in s then None else
      match ParseInt(s) case Some(n) => Some(IntValueOf(n)) case None => None
  }

  function RealOf(v: Value): (x: real) {
    match v
    case DecValueOf(d) => DecValue(d)
    case IntValueOf(n) => n as real
  }

  /** `_validate_bounds`. */
  predicate InBounds(p: Param, v: Value) { Lowest(p) as real <= RealOf(v) <= Highest(p) as real }

  /** `_parse_value` followed by `_validate_bounds`; `None` where either raises. */
  function Accept(p: Param, raw: string): (r: Option<Value>) {
    match ParseValue(KindOf(p), raw)
    case Some(v) => if InBounds(p, v) then Some(v) else None
    case None => None
  }

  /** The text functions the workflow relies on. The protocol is proved for every choice of them
      that meets `TextOk`; `PYTHON` is the choice the program makes. */
  datatype Text = Text(
    strip: string -> string,
    accept: (Param, string) -> Option<Value>,
    show: Value -> string,
    name: Param -> string,
    lookup: string -> Option<Param>)

  const PYTHON: Text := Text(Strip, Accept, Show, Name, name => Lookup(name))

  ghost predicate TextOk(tx: Text) {
    && (forall s :: tx.strip(tx.strip(s)) == tx.strip(s))
    && (forall p, s :: tx.accept(p, tx.strip(s)) == tx.accept(p, s))
    && (forall s :: tx.lookup(s).Some? ==> tx.name(tx.lookup(s).value) == s)
    && (forall p :: tx.lookup(tx.name(p)) == Some(p))
    && tx.strip("") == ""
  }

  /** The text prints back to itself after parsing. */
  predicate Canonical(tx: Text, p: Param, raw: string) {
    tx.accept(p, raw).Some? && tx.strip(tx.show(tx.accept(p, raw).value)) == tx.strip(raw)
  }

  lemma PythonTextOk()
    ensures TextOk(PYTHON)
  {
    forall s ensures Strip(Strip(s)) == Strip(s) { StripTwice(s); }
    forall p: Param, s ensures Accept(p, Strip(s)) == Accept(p, s) { StripTwice(s); }
    forall p ensures Lookup(Name(p)) == Some(p) { LookupFinds(p); }
  }

  lemma LookupFinds(p: Param)
    ensures Lookup(Name(p)) == Some(p)
  {
    assert p == SORTED_PARAMS[Place(p)];
    LookupFrom(p, 0);
  }

  function Place(p: Param): (i: nat)
    ensures i < |SORTED_PARAMS| && SORTED_PARAMS[i] == p
  {
    match p
    case TriangleMaxLegSlippageBps => 0
    case TriangleMinNetBps => 1
    case LegTimeoutSeconds => 2
    case MaxDailyLoss => 3
    case MaxDataAgeMs => 4
    case MaxOpenTransfers => 5
    case MaxSlippageBps => 6
    case MaxTradeSize => 7
    case MinNetProfitBps => 8
  }

  lemma {:induction false} LookupFrom(p: Param, from: nat)
    requires from <= Place(p)
    ensures Lookup(Name(p), from) == Some(p)
    decreases Place(p) - from
  {
    NamesDiffer(SORTED_PARAMS[from], p);
    if SORTED_PARAMS[from] != p { LookupFrom(p, from + 1); }
  }

  /** Two parameters with one name are one parameter. */
  lemma NamesDiffer(p: Param, q: Param)
    ensures Name(p) == Name(q) ==> p == q
  {}

  /** The risk limits are the parameters named `risk.*`. */
  predicate NamedRisk(p: Param) { |Name(p)| >= 5 && Name(p)[..5] == "risk." }

  lemma RiskByName(p: Param)
    ensures IsRisk(p) <==> NamedRisk(p)
  {
    match p
    case MaxTradeSize => assert Name(p)[..5] == "risk.";
    case MinNetProfitBps => assert Name(p)[..5] == "risk.";
    case MaxSlippageBps => assert Name(p)[..5] == "risk.";
    case MaxDataAgeMs => assert Name(p)[..5] == "risk.";
    case MaxOpenTransfers => assert Name(p)[..5] == "risk.";
    case MaxDailyLoss => assert Name(p)[..5] == "risk.";
    case TriangleMinNetBps => assert Name(p)[0] == 'a' && Name(p)[..5][0] == Name(p)[0];
    case TriangleMaxLegSlippageBps => assert Name(p)[0] == 'a' && Name(p)[..5][0] == Name(p)[0];
    case LegTimeoutSeconds => assert Name(p)[0] == 'e' && Name(p)[..5][0] == Name(p)[0];
  }

  predicate KindMatches(k: Kind, v: Value) { k.DecimalKind? <==> v.DecValueOf? }

  /** What `str` writes for a value of the right type is read back as that value. */
  lemma {:induction false} ShowRoundTrip(k: Kind, v: Value)
    requires KindMatches(k, v)
    ensures ParseValue(k, Show(v)) == Some(v)
    ensures NoEdgeSpace(Show(v)) && |Show(v)| > 0 && Strip(Show(v)) == Show(v)
  {
    match v {
      case DecValueOf(d) => DecRoundTrip(d);
      case IntValueOf(n) =>
        IntRoundTrip(n);
        assert '.' !in PrintInt(n) by { DigitsOnly(DigitsOf(if n < 0 then -n else n), '.'); }
    }
    StripFixed(Show(v));
  }

  /** Text written by `str` from an in-bounds value of the parameter's type is canonical. */
  lemma ShownIsCanonical(p: Param, v: Value)
    requires KindMatches(KindOf(p), v) && InBounds(p, v)
    ensures Canonical(PYTHON, p, Show(v)) && Accept(p, Show(v)) == Some(v)
  {
    var raw := Show(v);
    assert ParseValue(KindOf(p), raw) == Some(v) by { ShowRoundTrip(KindOf(p), v); }
    CanonicalText(p, raw, v);
  }

  lemma CanonicalText(p: Param, raw: string, v: Value)
    requires ParseValue(KindOf(p), raw) == Some(v) && InBounds(p, v) && Strip(Show(v)) == Strip(raw)
    ensures Accept(p, raw) == Some(v) && Canonical(PYTHON, p, raw)
  {}

  /** What is accepted lies within the allowlist's bounds, at both ends, and is of the parameter's type. */
  lemma AcceptedInBounds(p: Param, raw: string)
    ensures Accept(p, raw).Some? <==>
            && ParseValue(KindOf(p), raw).Some?
            && !(RealOf(ParseValue(KindOf(p), raw).value) < Lowest(p) as real) && !(RealOf(ParseValue(KindOf(p), raw).value) > Highest(p) as real)
    ensures Accept(p, raw).Some? ==> Accept(p, raw) == ParseValue(KindOf(p), raw) && KindMatches(KindOf(p), Accept(p, raw).value)
  {}

  /** Which whole numbers, written plainly, each parameter accepts. */
  lemma WholeNumbersAccepted(p: Param, n: nat)
    ensures Accept(p, DigitsOf(n)).Some? <==>
            match p
            case MaxTradeSize => 10 <= n <= 5000
            case MinNetProfitBps => n <= 100
            case MaxSlippageBps => 1 <= n <= 100
            case MaxDataAgeMs => 500 <= n <= 10000
            case MaxOpenTransfers => n <= 10
            case MaxDailyLoss => 10 <= n <= 10000
            case TriangleMinNetBps => n <= 100
            case TriangleMaxLegSlippageBps => 1 <= n <= 50
            case LegTimeoutSeconds => 1 <= n <= 60
  {
    var v := WholeNumber(KindOf(p), n);
    assert ParseValue(KindOf(p), DigitsOf(n)) == Some(v) && RealOf(v) == n as real by { WholeNumberParses(KindOf(p), n); }
  }

  function WholeNumber(k: Kind, n: nat): (v: Value) { if k.DecimalKind? then DecValueOf(Dec(false, n, 0)) else IntValueOf(n) }

  lemma WholeNumberParses(k: Kind, n: nat)
    ensures ParseValue(k, DigitsOf(n)) == Some(WholeNumber(k, n)) && RealOf(WholeNumber(k, n)) == n as real
  {
    PlainPrint(n);
    ShowRoundTrip(k, WholeNumber(k, n));
  }

  /** The three whole-number parameters refuse every text with a point; the others take any in-bounds decimal. */
  lemma WholeNumberParams(p: Param, raw: string, d: Dec)
    ensures p.MaxDataAgeMs? || p.MaxOpenTransfers? || p.LegTimeoutSeconds? ==> ('.' in Strip(raw) ==> Accept(p, raw).None?)
    ensures !(p.MaxDataAgeMs? || p.MaxOpenTransfers? || p.LegTimeoutSeconds?) && Lowest(p) as real <= DecValue(d) <= Highest(p) as real ==>
              Accept(p, PrintDec(d)) == Some(DecValueOf(d))
  {
    if KindOf(p).DecimalKind? && InBounds(p, DecValueOf(d)) { ShownIsCanonical(p, DecValueOf(d)); }
  }

  // ------------------------------------------------------------------ durable state

  type Id = string

  datatype Status = Draft | Pending | Reviewed | Approved | Rejected | Dismissed | Expired | Superseded

  predicate Actionable(st: Status) { st.Pending? || st.Reviewed? }

  /** A row of `agent_recommendations`. `current` is `current_value`, or `old_value` when that is null. */
  datatype Row = Row(param: string, proposed: string, current: Option<string>, status: Status, version: int)

  datatype ApplyStatus = Applying | Applied | Failed | OtherStatus(text: string)

  /** The value under an `agent_apply:<id>` key; `Malformed` is anything but a dictionary. */
  datatype Record = Malformed | Record(param: string, value: string, status: ApplyStatus)

  predicate Unfinished(r: Record) { r.Record? && !r.status.Applied? }

  // ------------------------------------------------------------------ runtime

  type Settings = m: map<Param, Value> | forall p: Param :: p in m
    witness map p: Param :: IntValueOf(0)

  /** `services.settings` and the limits of `services.risk`. */
  datatype Runtime = Runtime(settings: Settings, limits: Settings)

  /** The runtime `build_app` makes from the environment: the limits are copied from the settings. */
  function FromEnvironment(env: Settings): (rt: Runtime) { Runtime(env, env) }

  /** Settings and RiskEngine agree on every risk parameter. */
  predicate Lockstep(rt: Runtime) { forall p: Param :: IsRisk(p) ==> rt.limits[p] == rt.settings[p] }

  /** The two replacement objects of `_apply_value`, installed together. */
  function Installed(rt: Runtime, p: Param, v: Value): (r: Runtime) {
    Runtime(rt.settings[p := v], if IsRisk(p) then rt.limits[p := v] else rt.limits)
  }

  /** `_verify_converged`: the live texts equal the durable text. */
  predicate Converged(tx: Text, rt: Runtime, p: Param, raw: string) {
    && tx.strip(tx.show(rt.settings[p])) == tx.strip(raw)
    && (IsRisk(p) ==> tx.strip(tx.show(rt.limits[p])) == tx.strip(raw))
  }

  /** Where a runtime application can break down. */
  datatype Fault = NoFault | BuildFault | InstallFault

  /** `_apply_value` then `_verify_converged`: the new runtime and whether both passed. A fault
      while building the replacements, or while installing the RiskEngine (the settings are then
      put back), leaves the runtime as it was; only risk parameters have a RiskEngine to install. */
  function Synchronise(tx: Text, rt: Runtime, p: Param, v: Value, raw: string, fault: Fault): (r: (Runtime, bool)) {
    if fault.BuildFault? || (fault.InstallFault? && IsRisk(p)) then (rt, false)
    else (Installed(rt, p, v), Converged(tx, Installed(rt, p, v), p, raw))
  }

  // ------------------------------------------------------------------ one store

  /** The durable tables and the live runtime of one process. */
  datatype Store = Store(rows: map<Id, Row>, config: map<Param, string>, records: map<Id, Record>, rt: Runtime)

  /** The claim transaction of `approve`, given the row fields read earlier. */
  function ClaimTxn(tx: Text, st: Store, id: Id, p: Param, raw: string, fromVersion: int): (r: Option<Store>) {
    if id in st.rows && Actionable(st.rows[id].status) then
      Some(st.(rows := st.rows[id := st.rows[id].(status := Approved, version := fromVersion + 1)],
               config := st.config[p := raw],
               records := st.records[id := Record(tx.name(p), raw, Applying)]))
    else None
  }

  /** The conditional update of `review` and `reject`. */
  function DecideTxn(st: Store, id: Id, onlyPending: bool, to: Status, fromVersion: int): (r: Option<Store>) {
    if id in st.rows && (if onlyPending then st.rows[id].status.Pending? else Actionable(st.rows[id].status)) then
      Some(st.(rows := st.rows[id := st.rows[id].(status := to, version := fromVersion + 1)]))
    else None
  }

  /** `_mark_apply_status`: the record is rewritten whole. */
  function Marked(tx: Text, st: Store, id: Id, p: Param, raw: string, to: ApplyStatus): (r: Store) {
    st.(records := st.records[id := Record(tx.name(p), raw, to)])
  }

  datatype Validated = Validated(param: Param, raw: string, value: Value)

  /** Phase 1 of `approve`: `None` where it raises. */
  function Validate(tx: Text, row: Row, rt: Runtime, gates: bool): (r: Option<Validated>) {
    var name, raw := tx.strip(row.param), tx.strip(row.proposed);
    if !Actionable(row.status) || name == "" || raw == "" then None else
    match tx.lookup(name)
    case None => None
    case Some(p) =>
      match tx.accept(p, raw)
      case None => None
      case Some(v) =>
        if !gates then None
        else if row.current.Some? && tx.strip(row.current.value) != tx.strip(tx.show(rt.settings[p])) then None
        else Some(Validated(p, raw, v))
  }
}
