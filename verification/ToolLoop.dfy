/** The natural-language tool loop (app/agent/telegram.py) and its executor
    (app/agent/nl_tool_executor.py) facing a language model that may answer anything. */
module ToolLoop {
  import opened Options
  import opened Sequences
  import PyText

  // ------------------------------------------------------------------ tool calls

  /** A decoded JSON value; `Other` stands for numbers with a point and for arrays. */
  datatype Json = Null | Bool(b: bool) | Int(n: int) | Text(s: string) | Other | Obj(m: map<string, Json>)

  const MAX_CALLS: nat := 5

  const TOOLS: set<string> := {
    "get_recent_trades", "get_trade_statistics", "get_scan_statistics", "get_current_parameters", "get_risk_state",
    "get_exchange_status", "get_balances", "get_recent_journal", "get_previous_recommendations", "get_memory"}

  /** `isinstance(v, int)` and the number it is: booleans are integers. */
  function IntValue(j: Json): (r: Option<int>) {
    if j.Int? then Some(j.n) else if j.Bool? then Some(if j.b then 1 else 0) else None
  }

  predicate LimitOk(m: map<string, Json>, hi: int) {
    "limit" in m ==> IntValue(m["limit"]).Some? && 1 <= IntValue(m["limit"]).value <= hi
  }

  function LimitOnly(m: map<string, Json>, hi: int, standard: int): (r: Option<map<string, Json>>) {
    if !LimitOk(m, hi) || (exists k :: k in m && k != "limit") then None
    else Some(map["limit" := Int(if "limit" in m then IntValue(m["limit"]).value else standard)])
  }

  function Cut(s: string): (r: string)
    ensures |r| <= 500 && r <= s && (|s| <= 500 ==> r == s) && (|s| > 500 ==> |r| == 500)
  {
    if |s| <= 500 then s else s[..500]
  }

  function MemoryArgs(m: map<string, Json>): (r: Option<map<string, Json>>) {
    if ("query" in m && !m["query"].Null? && !m["query"].Text?) || !LimitOk(m, 20)
       || (exists k :: k in m && k != "query" && k != "limit") then None
    else Some((if "query" in m then map["query" := if m["query"].Text? then Text(Cut(m["query"].s)) else Null] else map[])
              + (if "limit" in m then map["limit" := Int(IntValue(m["limit"]).value)] else map[]))
  }

  function ValidateObject(name: string, m: map<string, Json>): (r: Option<map<string, Json>>) {
    if name == "get_recent_trades" then LimitOnly(m, 100, 20)
    else if name == "get_recent_journal" then LimitOnly(m, 50, 50)
    else if name == "get_previous_recommendations" then LimitOnly(m, 20, 20)
    else if name == "get_memory" then MemoryArgs(m)
    else if m == map[] then Some(map[]) else None
  }

  /** `validate_tool_call`: the cleaned arguments, or `None` where it raises. */
  function Validate(name: string, args: Json): (r: Option<map<string, Json>>) {
    if name !in TOOLS then None
    else if args.Null? then ValidateObject(name, map[])
    else if args.Obj? then ValidateObject(name, args.m)
    else None
  }

  /** What is handed on is what was asked for: the limit given, or the tool's standard one; the first 500
      characters of the query; and nothing else. */
  lemma ValidateKeeps(name: string, m: map<string, Json>)
    requires Validate(name, Obj(m)).Some?
    ensures var out := Validate(name, Obj(m)).value;
            && (forall k :: k in out ==> k == "limit" || k == "query")
            && ("limit" in m ==> "limit" in out && Some(out["limit"].n) == IntValue(m["limit"]) && out["limit"].Int?)
            && ("query" in m ==> "query" in out && (m["query"].Text? ==> out["query"] == Text(Cut(m["query"].s))) && (m["query"].Null? ==> out["query"].Null?))
            && ("query" in out ==> "query" in m)
            && ("limit" !in m ==>
                  (if name == "get_recent_trades" || name == "get_previous_recommendations" then out == map["limit" := Int(20)]
                   else if name == "get_recent_journal" then out == map["limit" := Int(50)]
                   else "limit" !in out))
  {}

  // ------------------------------------------------------------------ the declared schemas

  /** What `NL_TOOL_DEFINITIONS` declares for a tool: an optional integer `limit`, an optional string
      `query`, and no other property. */
  datatype Schema = Schema(maxLimit: Option<int>, query: bool)

  function SchemaOf(name: string): (s: Schema) {
    if name == "get_recent_trades" then Schema(Some(100), false)
    else if name == "get_recent_journal" then Schema(Some(50), false)
    else if name == "get_previous_recommendations" then Schema(Some(20), false)
    else if name == "get_memory" then Schema(Some(20), true)
    else Schema(None, false)
  }

  predicate Conforms(sc: Schema, m: map<string, Json>) {
    forall k :: k in m ==>
      || (k == "limit" && sc.maxLimit.Some? && m[k].Int? && 1 <= m[k].n <= sc.maxLimit.value)
      || (k == "query" && sc.query && m[k].Text?)
  }

  /** The three liberties the validator takes: missing arguments are the empty object, a boolean limit is
      its number, and a null query counts as no query. */
  function Normal(sc: Schema, args: Json): (m: map<string, Json>) {
    if args.Obj? then
      map k | k in args.m && !(k == "query" && sc.query && args.m[k].Null?) ::
        if k == "limit" && args.m[k].Bool? then Int(if args.m[k].b then 1 else 0) else args.m[k]
    else map[]
  }

  /** The validator accepts exactly the calls to the ten tools whose arguments, up to those liberties,
      conform to the declared schema; and what it hands on conforms to the schema. */
  lemma ValidateExact(name: string, args: Json)
    ensures Validate(name, args).Some? <==>
            name in TOOLS && (args.Null? || args.Obj?) && Conforms(SchemaOf(name), Normal(SchemaOf(name), args))
    ensures Validate(name, args).Some? ==> Conforms(SchemaOf(name), Normal(SchemaOf(name), Obj(Validate(name, args).value)))
  {
    if name in TOOLS && (args.Null? || args.Obj?) {
      var m: map<string, Json> := if args.Obj? then args.m else map[];
      var sc := SchemaOf(name);
      assert Normal(sc, args) == Normal(sc, Obj(m));
      if sc.maxLimit.None? { NoArguments(name, m); }
      else if sc.query { MemoryExact(m); }
      else { LimitExact(m, sc.maxLimit.value, if name == "get_recent_journal" then 50 else 20); }
    }
  }

  lemma NoArguments(name: string, m: map<string, Json>)
    ensures Conforms(Schema(None, false), Normal(Schema(None, false), Obj(m))) <==> m == map[]
  {
    var n := Normal(Schema(None, false), Obj(m));
    if m != map[] {
      var k :| k in m;
      assert k in n;
    }
  }

  lemma LimitExact(m: map<string, Json>, hi: int, standard: int)
    requires 1 <= standard <= hi
    ensures var sc := Schema(Some(hi), false);
            && (LimitOnly(m, hi, standard).Some? <==> Conforms(sc, Normal(sc, Obj(m))))
            && (LimitOnly(m, hi, standard).Some? ==> Conforms(sc, Normal(sc, Obj(LimitOnly(m, hi, standard).value))))
  {
    var sc := Schema(Some(hi), false);
    var n := Normal(sc, Obj(m));
    assert n.Keys == m.Keys;
    if LimitOnly(m, hi, standard).Some? { assert forall k :: k in n ==> k == "limit"; }
    else if "limit" in m && !LimitOk(m, hi) { assert "limit" in n; }
    else { var k :| k in m && k != "limit"; assert k in n; }
  }

  lemma MemoryExact(m: map<string, Json>)
    ensures var sc := Schema(Some(20), true);
            && (MemoryArgs(m).Some? <==> Conforms(sc, Normal(sc, Obj(m))))
            && (MemoryArgs(m).Some? ==> Conforms(sc, Normal(sc, Obj(MemoryArgs(m).value))))
  {
    var sc := Schema(Some(20), true);
    var n := Normal(sc, Obj(m));
    if MemoryArgs(m).Some? { assert forall k :: k in n ==> k in m && (k == "query" || k == "limit"); }
    else if "limit" in m && !LimitOk(m, 20) { assert "limit" in n; }
    else if "query" in m && !m["query"].Null? && !m["query"].Text? { assert "query" in n; }
    else { var k :| k in m && k != "query" && k != "limit"; assert k in n; }
  }

  // ------------------------------------------------------------------ the conversation

  datatype ToolCall = ToolCall(id: string, name: string, args: Json)

  /** `error` tells a correction from a tool's result. */
  datatype Message =
    | System(content: string)
    | User(content: string)
    | Assistant(content: string, calls: seq<ToolCall>)
    | ToolMessage(content: string, callId: string, name: string, error: bool)

  /** What the model does with a request: fail, or answer with some text and some tool calls. */
  datatype Reply = Failed | Reply(content: string, calls: seq<ToolCall>)

  datatype ToolOutcome = Result(text: string) | Blocked(reason: string) | Broken

  datatype Dispatch = Dispatch(name: string, args: map<string, Json>)

  datatype Outcome = Fallback | Raised | Answer(text: string)

  /** One question and everything outside the loop's control: what the model does with its `n`-th request,
      with or without tools offered, and what the `n`-th dispatched call does. */
  datatype World = World(
    system: string, user: string, explicit: bool,
    model: (nat, bool, seq<Message>) -> Reply,
    tool: (nat, string, map<string, Json>) -> ToolOutcome)

  /** The whole visible effect of one question. */
  datatype Trace = Trace(messages: seq<Message>, modelCalls: nat, dispatched: seq<Dispatch>, completed: nat)

  const BALANCE_NOTE: string := "Tool error: balances only for explicit balance queries."
  const ALLOWLIST_NOTE: string := "Tool error: use valid allowlisted tools only."

  // ------------------------------------------------------------------ reading a transcript

  function Rounds(ms: seq<Message>): (n: nat) { if ms == [] then 0 else Rounds(Before(ms)) + if Last(ms).Assistant? then 1 else 0 }

  /** Results, and corrections. */
  function Results(ms: seq<Message>): (n: nat) {
    if ms == [] then 0 else Results(Before(ms)) + if Last(ms).ToolMessage? && !Last(ms).error then 1 else 0
  }

  function Corrections(ms: seq<Message>): (n: nat) {
    if ms == [] then 0 else Corrections(Before(ms)) + if Last(ms).ToolMessage? && Last(ms).error then 1 else 0
  }

  /** The place of the latest assistant message, or -1. */
  function LastAsk(ms: seq<Message>): (a: int)
    ensures -1 <= a < |ms| && (a >= 0 ==> ms[a].Assistant?)
  {
    if ms == [] then -1 else if Last(ms).Assistant? then |ms| - 1 else LastAsk(Before(ms))
  }

  /** The next call of the latest assistant message, unless all are answered or one was corrected. */
  function Due(ms: seq<Message>): (r: Option<ToolCall>) {
    var a := LastAsk(ms);
    if a < 0 || |ms| - 1 - a >= |ms[a].calls| || (Last(ms).ToolMessage? && Last(ms).error) then None
    else Some(ms[a].calls[|ms| - 1 - a])
  }

  /** More tools may be asked for: budget is left, and no correction followed a result. */
  predicate Open(ms: seq<Message>) { Results(ms) < MAX_CALLS && (Corrections(ms) == 0 || Results(ms) == 0) }

  predicate Refused(w: World, tc: ToolCall) { (tc.name == "get_balances" && !w.explicit) || Validate(tc.name, tc.args).None? }

  function Note(w: World, tc: ToolCall): (s: string) { if tc.name == "get_balances" && !w.explicit then BALANCE_NOTE else ALLOWLIST_NOTE }

  function DispatchOf(tc: ToolCall): (d: Dispatch)
    requires Validate(tc.name, tc.args).Some?
  {
    Dispatch(tc.name, Validate(tc.name, tc.args).value)
  }

  /** The calls that reached a tool, in order. */
  function Dispatches(w: World, ms: seq<Message>): (ds: seq<Dispatch>) {
    if ms == [] then [] else
    Dispatches(w, Before(ms))
    + if Last(ms).ToolMessage? && Due(Before(ms)).Some? && !Refused(w, Due(Before(ms)).value) then [DispatchOf(Due(Before(ms)).value)] else []
  }

  /** What the next call leads to. */
  function OutcomeOf(w: World, ms: seq<Message>, tc: ToolCall): (r: ToolOutcome) {
    if Refused(w, tc) then Blocked(Note(w, tc)) else w.tool(|Dispatches(w, ms)|, tc.name, Validate(tc.name, tc.args).value)
  }

  function AnswerTo(w: World, ms: seq<Message>, tc: ToolCall): (m: Message)
    requires !OutcomeOf(w, ms, tc).Broken?
  {
    match OutcomeOf(w, ms, tc)
    case Result(text) => ToolMessage(text, tc.id, tc.name, false)
    case Blocked(reason) => ToolMessage(reason, tc.id, tc.name, true)
  }

  /** The call ends the conversation with an error: a broken tool, or a second correction. */
  predicate Fatal(w: World, ms: seq<Message>, tc: ToolCall) {
    OutcomeOf(w, ms, tc).Broken? || (OutcomeOf(w, ms, tc).Blocked? && Corrections(ms) > 0)
  }

  function FirstOf(calls: seq<ToolCall>, n: nat): (r: seq<ToolCall>) { if |calls| <= n then calls else calls[..n] }

  /** The transcripts the conversation may have, message by message: assistant messages are the model's
      own replies with tool calls, cut to the budget, asked for only between rounds while the conversation
      is open; tool messages answer the next call with its result, or with the one correction allowed. */
  predicate Proper(w: World, ms: seq<Message>) {
    if |ms| <= 2 then ms == [System(w.system), User(w.user)]
    else
      var pre, m := Before(ms), Last(ms);
      && Proper(w, pre)
      && (if Due(pre).Some? then !Fatal(w, pre, Due(pre).value) && m == AnswerTo(w, pre, Due(pre).value)
          else Open(pre) &&
               var r := w.model(Rounds(pre), true, pre);
               r.Reply? && r.calls != [] && m == Assistant(r.content, FirstOf(r.calls, MAX_CALLS - Results(pre))))
  }

  // ------------------------------------------------------------------ what every transcript obeys

  lemma ProperMore(w: World, ms: seq<Message>, m: Message)
    requires Proper(w, ms)
    requires if Due(ms).Some? then !Fatal(w, ms, Due(ms).value) && m == AnswerTo(w, ms, Due(ms).value)
             else Open(ms) &&
                  var r := w.model(Rounds(ms), true, ms);
                  r.Reply? && r.calls != [] && m == Assistant(r.content, FirstOf(r.calls, MAX_CALLS - Results(ms)))
    ensures Proper(w, ms + [m])
  {
    ProperLong(w, ms);
    assert Before(ms + [m]) == ms && Last(ms + [m]) == m;
  }

  lemma ProperLong(w: World, ms: seq<Message>)
    requires Proper(w, ms)
    ensures |ms| >= 2
  {}

  /** How many calls of the round are still unanswered. */
  function Unanswered(ms: seq<Message>): (n: int) { if Due(ms).Some? then |ms[LastAsk(ms)].calls| - (|ms| - 1 - LastAsk(ms)) else 0 }

  lemma CountMore(w: World, ms: seq<Message>)
    requires ms != []
    ensures Results(ms) == Results(Before(ms)) + (if Last(ms).ToolMessage? && !Last(ms).error then 1 else 0)
    ensures Corrections(ms) == Corrections(Before(ms)) + (if Last(ms).ToolMessage? && Last(ms).error then 1 else 0)
    ensures Rounds(ms) == Rounds(Before(ms)) + (if Last(ms).Assistant? then 1 else 0)
    ensures LastAsk(ms) == if Last(ms).Assistant? then |ms| - 1 else LastAsk(Before(ms))
  {}

  lemma UnansweredMore(ms: seq<Message>)
    requires ms != [] && Before(ms) != []
    ensures Last(ms).ToolMessage? && Due(Before(ms)).Some? ==> Unanswered(ms) <= Unanswered(Before(ms)) - 1 && Unanswered(ms) >= 0
    ensures Last(ms).Assistant? ==> Unanswered(ms) == |Last(ms).calls|
  {
    var pre := Before(ms);
    if Last(ms).ToolMessage? && Due(pre).Some? {
      assert LastAsk(ms) == LastAsk(pre) && ms[LastAsk(pre)] == pre[LastAsk(pre)];
    }
  }

  lemma OpeningCounts(w: World)
    ensures var ms := [System(w.system), User(w.user)];
            && Rounds(ms) == 0 && Results(ms) == 0 && Corrections(ms) == 0 && LastAsk(ms) == -1 && Dispatches(w, ms) == [] && Due(ms).None?
  {
    var one, two := [System(w.system)], [System(w.system), User(w.user)];
    assert Before(two) == one && Before(one) == [];
    assert Rounds(one) == 0 && Results(one) == 0 && Corrections(one) == 0 && LastAsk(one) == -1 && Dispatches(w, one) == [];
  }

  /** Budget: at most five results and one correction, one round per result or correction (and the one
      just asked for), and no dispatch without a result or a correction. */
  lemma {:induction false} ProperBounds(w: World, ms: seq<Message>)
    requires Proper(w, ms)
    ensures Results(ms) + Unanswered(ms) <= MAX_CALLS && Corrections(ms) <= 1
    ensures Rounds(ms) <= Results(ms) + Corrections(ms) + (if Last(ms).Assistant? then 1 else 0)
    ensures Last(ms).Assistant? ==> Results(ms) < MAX_CALLS && Due(ms).Some?
    ensures Results(ms) <= |Dispatches(w, ms)| <= Results(ms) + Corrections(ms)
  {
    if |ms| <= 2 {
      OpeningCounts(w);
    } else {
      ProperBounds(w, Before(ms));
      CountMore(w, ms);
      UnansweredMore(ms);
    }
  }

  /** The model is offered tools only while results are left to get, and never after a correction that
      followed a result. */
  lemma {:induction false} AskedOnlyWhileOpen(w: World, ms: seq<Message>, a: nat)
    requires Proper(w, ms) && a < |ms| && ms[a].Assistant?
    ensures Results(ms[..a]) < MAX_CALLS && (Corrections(ms[..a]) == 0 || Results(ms[..a]) == 0)
    ensures w.model(Rounds(ms[..a]), true, ms[..a]).Reply? && w.model(Rounds(ms[..a]), true, ms[..a]).content == ms[a].content
    ensures ms[a].calls <= w.model(Rounds(ms[..a]), true, ms[..a]).calls && 0 < |ms[a].calls| <= MAX_CALLS - Results(ms[..a])
  {
    if |ms| > 2 {
      if a < |ms| - 1 {
        AskedOnlyWhileOpen(w, Before(ms), a);
        assert Before(ms)[..a] == ms[..a];
      } else {
        assert ms[..a] == Before(ms);
      }
    }
  }

  predicate Permitted(d: Dispatch, explicit: bool) {
    && d.name in TOOLS && (d.name == "get_balances" ==> explicit)
    && Conforms(SchemaOf(d.name), Normal(SchemaOf(d.name), Obj(d.args)))
  }

  lemma {:induction false} DispatchesPermitted(w: World, ms: seq<Message>)
    ensures forall d :: d in Dispatches(w, ms) ==> Permitted(d, w.explicit)
  {
    if ms != [] {
      DispatchesPermitted(w, Before(ms));
      if Due(Before(ms)).Some? { CallPermitted(w, Due(Before(ms)).value); }
    }
  }

  lemma CallPermitted(w: World, tc: ToolCall)
    ensures !Refused(w, tc) ==> Permitted(DispatchOf(tc), w.explicit)
  {
    ValidateExact(tc.name, tc.args);
  }

  /** Message `i` is the answer to its place's call of the assistant message at `a`, with only other
      answers in between. */
  predicate AnswersCall(messages: seq<Message>, a: int, i: int) {
    && 0 <= a < i < |messages| && messages[a].Assistant? && messages[i].ToolMessage?
    && (forall j :: a < j < i ==> messages[j].ToolMessage?)
    && i - a - 1 < |messages[a].calls|
    && messages[i].callId == messages[a].calls[i - a - 1].id && messages[i].name == messages[a].calls[i - a - 1].name
  }

  /** Every tool message answers, in order, a call of the latest assistant message. */
  ghost predicate Answered(messages: seq<Message>) {
    forall i :: 0 <= i < |messages| && messages[i].ToolMessage? ==> exists a :: AnswersCall(messages, a, i)
  }

  lemma {:induction false} AfterAskOnlyTools(w: World, ms: seq<Message>)
    requires Proper(w, ms)
    ensures LastAsk(ms) >= 0 ==> forall j :: LastAsk(ms) < j < |ms| ==> ms[j].ToolMessage?
    ensures LastAsk(ms) < 0 ==> |ms| == 2
  {
    if |ms| > 2 { AfterAskOnlyTools(w, Before(ms)); }
    else { OpeningCounts(w); }
  }

  lemma LastAnswers(w: World, ms: seq<Message>)
    requires Proper(w, ms) && |ms| > 2 && Last(ms).ToolMessage?
    ensures AnswersCall(ms, LastAsk(Before(ms)), |ms| - 1)
  {
    AfterAskOnlyTools(w, Before(ms));
  }

  lemma AnsweredMore(ms: seq<Message>, ask: int)
    requires ms != [] && Answered(Before(ms)) && (Last(ms).ToolMessage? ==> AnswersCall(ms, ask, |ms| - 1))
    ensures Answered(ms)
  {
    var pre := Before(ms);
    forall i | 0 <= i < |ms| && ms[i].ToolMessage? ensures exists a :: AnswersCall(ms, a, i) {
      if i < |pre| {
        var a :| AnswersCall(pre, a, i);
        assert AnswersCall(ms, a, i);
      } else {
        assert AnswersCall(ms, ask, i);
      }
    }
  }

  lemma {:induction false} ProperAnswered(w: World, ms: seq<Message>)
    requires Proper(w, ms)
    ensures Answered(ms)
  {
    if |ms| > 2 {
      ProperAnswered(w, Before(ms));
      if Last(ms).ToolMessage? { LastAnswers(w, ms); }
      AnsweredMore(ms, LastAsk(Before(ms)));
    }
  }

  // ------------------------------------------------------------------ the executor

  class Executor {
    var calls: nat

    constructor ()
      ensures calls == 0
    {
      calls := 0;
    }

    /** `NLToolExecutor.execute`: refuses what is not allowlisted and what is over budget. */
    method Execute(n: nat, name: string, args: map<string, Json>, tool: (nat, string, map<string, Json>) -> ToolOutcome)
      returns (r: ToolOutcome, called: bool)
      modifies this
      ensures called <==> name in TOOLS && old(calls) < MAX_CALLS
      ensures r == if called then tool(n, name, args) else Blocked(if name in TOOLS then "tool budget exhausted" else "not in the allowlist")
      ensures calls == old(calls) + if called && r.Result? then 1 else 0
    {
      if name !in TOOLS { return Blocked("not in the allowlist"), false; }
      if calls >= MAX_CALLS { return Blocked("tool budget exhausted"), false; }
      called := true;
      r := tool(n, name, args);
      if r.Result? { calls := calls + 1; }
    }
  }

  // ------------------------------------------------------------------ the loop

  /** How a round of tool calls went. */
  datatype Round = Worked | Corrected | Raises

  /** The trace says of the transcript what it is. */
  ghost predicate TraceOk(w: World, t: Trace) {
    && Proper(w, t.messages) && t.completed == Results(t.messages) && t.dispatched == Dispatches(w, t.messages)
    && t.modelCalls == Rounds(t.messages)
  }

  /** The trace of a conversation that broke off at its next call, which a tool may have seen. */
  ghost predicate BrokenOff(w: World, t: Trace) {
    && Proper(w, t.messages) && t.completed == Results(t.messages) && t.modelCalls == Rounds(t.messages)
    && Due(t.messages).Some? && Fatal(w, t.messages, Due(t.messages).value)
    && t.dispatched == Dispatches(w, t.messages) + if Refused(w, Due(t.messages).value) then [] else [DispatchOf(Due(t.messages).value)]
  }

  lemma AnswerKeeps(w: World, t: Trace, m: Message, d: seq<Dispatch>)
    requires TraceOk(w, t) && Due(t.messages).Some? && !Fatal(w, t.messages, Due(t.messages).value)
    requires m == AnswerTo(w, t.messages, Due(t.messages).value)
    requires d == if Refused(w, Due(t.messages).value) then [] else [DispatchOf(Due(t.messages).value)]
    ensures TraceOk(w, Trace(t.messages + [m], t.modelCalls, t.dispatched + d, t.completed + if m.error then 0 else 1))
  {
    ProperMore(w, t.messages, m);
    var more := t.messages + [m];
    assert Before(more) == t.messages && Last(more) == m;
    CountMore(w, more);
  }

  /** One call of the round. */
  method AnswerCall(w: World, before: Trace, tc: ToolCall, executor: Executor) returns (now: Trace, round: Round)
    requires TraceOk(w, before) && Due(before.messages) == Some(tc) && executor.calls == before.completed
    modifies executor
    ensures round.Raises? <==> Fatal(w, before.messages, tc)
    ensures round.Raises? ==> BrokenOff(w, now) && now.messages == before.messages
    ensures !round.Raises? ==> TraceOk(w, now) && executor.calls == now.completed
    ensures !round.Raises? ==> now.messages == before.messages + [AnswerTo(w, before.messages, tc)]
    ensures !round.Raises? ==> (round.Corrected? <==> AnswerTo(w, before.messages, tc).error)
  {
    ProperBounds(w, before.messages);
    var corrected := Corrections(before.messages) > 0;
    if Refused(w, tc) {
      if corrected { return before, Raises; }
      AnswerKeeps(w, before, ToolMessage(Note(w, tc), tc.id, tc.name, true), []);
      assert before.dispatched + [] == before.dispatched;
      return before.(messages := before.messages + [ToolMessage(Note(w, tc), tc.id, tc.name, true)]), Corrected;
    }
    var d := DispatchOf(tc);
    ValidateExact(tc.name, tc.args);
    var r, called := executor.Execute(|before.dispatched|, tc.name, d.args, w.tool);
    now := before.(dispatched := before.dispatched + [d]);
    match r
    case Broken => round := Raises;
    case Blocked(reason) =>
      if corrected { return now, Raises; }
      AnswerKeeps(w, before, ToolMessage(reason, tc.id, tc.name, true), [d]);
      now := now.(messages := before.messages + [ToolMessage(reason, tc.id, tc.name, true)]);
      round := Corrected;
    case Result(text) =>
      AnswerKeeps(w, before, ToolMessage(text, tc.id, tc.name, false), [d]);
      now := now.(messages := before.messages + [ToolMessage(text, tc.id, tc.name, false)], completed := before.completed + 1);
      round := Worked;
  }

  /** The first `k` calls of the round asked for in `before` have their results in `now`. */
  ghost predicate InRound(before: seq<Message>, now: seq<Message>, k: nat) {
    && before != [] && Last(before).Assistant? && k <= |Last(before).calls| && |now| == |before| + k
    && LastAsk(now) == |before| - 1 && now[|before| - 1] == Last(before)
    && Corrections(now) == Corrections(before) && Results(now) == Results(before) + k
    && (k > 0 ==> Last(now).ToolMessage? && !Last(now).error)
  }

  lemma InRoundDue(before: seq<Message>, now: seq<Message>, k: nat)
    requires InRound(before, now, k)
    ensures Due(now) == if k < |Last(before).calls| then Some(Last(before).calls[k]) else None
  {}

  lemma InRoundNext(w: World, before: seq<Message>, now: seq<Message>, k: nat, m: Message)
    requires InRound(before, now, k) && k < |Last(before).calls| && m.ToolMessage?
    ensures !m.error ==> InRound(before, now + [m], k + 1)
    ensures m.error ==> Due(now + [m]).None? && Corrections(now + [m]) == Corrections(before) + 1 && Results(now + [m]) == Results(before) + k
  {
    var more := now + [m];
    assert Before(more) == now && Last(more) == m;
    CountMore(w, more);
  }

  /** The inner loop: the calls of one reply, until all are answered or one is corrected or fatal. */
  method AnswerCalls(w: World, before: Trace, calls: seq<ToolCall>, executor: Executor) returns (now: Trace, round: Round)
    requires TraceOk(w, before) && executor.calls == before.completed && calls != []
    requires Last(before.messages).Assistant? && Last(before.messages).calls == calls
    modifies executor
    ensures round.Raises? ==> BrokenOff(w, now)
    ensures !round.Raises? ==> TraceOk(w, now) && Due(now.messages).None? && executor.calls == now.completed
    ensures !round.Raises? ==> now.completed + Corrections(now.messages) > before.completed + Corrections(before.messages)
    ensures round.Corrected? ==> Corrections(now.messages) == Corrections(before.messages) + 1 && now.completed >= before.completed
    ensures round.Worked? ==> Corrections(now.messages) == Corrections(before.messages)
  {
    now := before;
    var k: nat := 0;
    while k < |calls|
      invariant TraceOk(w, now) && executor.calls == now.completed && InRound(before.messages, now.messages, k)
    {
      InRoundDue(before.messages, now.messages, k);
      ghost var was := now.messages;
      now, round := AnswerCall(w, now, calls[k], executor);
      if round.Raises? { return; }
      InRoundNext(w, before.messages, was, k, AnswerTo(w, was, calls[k]));
      if round.Corrected? { return; }
      k := k + 1;
    }
    InRoundDue(before.messages, now.messages, k);
    round := Worked;
  }

  /** What a request without a usable answer, or with one, leads to: `last` is the reply to it. */
  predicate EndsWith(outcome: Outcome, last: Reply) {
    match outcome
    case Answer(text) => last.Reply? && text == last.content && |PyText.Strip(text)| >= 5
    case Fallback => last.Failed? || |PyText.Strip(last.content)| < 5
    case Raised => false
  }

  /** The tool-calling flow, for every behaviour of the model (a function of the whole request history)
      and of the tools. It always ends, with a proper transcript. It answers, with the text of the model's
      last reply, or falls back because that reply is missing or too short; the last request offers tools
      exactly while the conversation is open, and then its reply asks for none. It raises only when a
      request that offers tools fails, a tool breaks, or a second call needs correcting. At most five tools
      complete, six are started and seven requests made. */
  method ToolsFlow(w: World) returns (outcome: Outcome, trace: Trace)
    ensures Ended(w, outcome, trace) || (outcome.Raised? && BrokenOff(w, trace))
    ensures trace.completed <= MAX_CALLS && trace.modelCalls <= MAX_CALLS + 2
    ensures trace.completed <= |trace.dispatched| <= MAX_CALLS + 1
    ensures forall d :: d in trace.dispatched ==> Permitted(d, w.explicit)
    ensures Answered(trace.messages)
  {
    outcome, trace := Converse(w);
    TraceBounds(w, trace, outcome);
    ProperAnswered(w, trace.messages);
  }

  lemma TraceBounds(w: World, t: Trace, outcome: Outcome)
    requires Proper(w, t.messages) && t.completed == Results(t.messages)
    requires BrokenOff(w, t) || (Due(t.messages).None? && t.dispatched == Dispatches(w, t.messages) && t.modelCalls == Rounds(t.messages) + 1)
    ensures t.completed <= MAX_CALLS && t.modelCalls <= MAX_CALLS + 2
    ensures t.completed <= |t.dispatched| <= MAX_CALLS + 1
    ensures forall d :: d in t.dispatched ==> Permitted(d, w.explicit)
  {
    ProperBounds(w, t.messages);
    DispatchesPermitted(w, t.messages);
    if Due(t.messages).Some? { CallPermitted(w, Due(t.messages).value); }
  }

  /** How a conversation may end, with its last request counted. */
  ghost predicate Ended(w: World, outcome: Outcome, t: Trace) {
    && Proper(w, t.messages) && t.completed == Results(t.messages) && t.dispatched == Dispatches(w, t.messages)
    && Due(t.messages).None? && t.modelCalls == Rounds(t.messages) + 1
    && var last := w.model(Rounds(t.messages), Open(t.messages), t.messages);
       if outcome.Raised? then Open(t.messages) && last.Failed?
       else (Open(t.messages) ==> last.Reply? && last.calls == []) && EndsWith(outcome, last)
  }

  /** The model's last word: its reply without tool calls, or the reply to a request that offers none. */
  method Finish(w: World, t: Trace, reply: Reply) returns (outcome: Outcome, trace: Trace)
    requires TraceOk(w, t) && Due(t.messages).None? && reply == w.model(Rounds(t.messages), Open(t.messages), t.messages)
    requires Open(t.messages) ==> reply.Reply? && reply.calls == []
    ensures Ended(w, outcome, trace) && !outcome.Raised?
  {
    trace := t.(modelCalls := t.modelCalls + 1);
    if reply.Failed? || |PyText.Strip(reply.content)| < 5 { return Fallback, trace; }
    return Answer(reply.content), trace;
  }

  /** One round: the reply is recorded, cut to the budget, and its calls answered. */
  method TakeRound(w: World, t: Trace, reply: Reply, executor: Executor) returns (trace: Trace, round: Round)
    requires TraceOk(w, t) && Due(t.messages).None? && Open(t.messages) && executor.calls == t.completed
    requires reply == w.model(t.modelCalls, true, t.messages) && reply.Reply? && reply.calls != []
    modifies executor
    ensures round.Raises? ==> BrokenOff(w, trace)
    ensures !round.Raises? ==> TraceOk(w, trace) && Due(trace.messages).None? && executor.calls == trace.completed <= MAX_CALLS
    ensures !round.Raises? ==> trace.completed + Corrections(trace.messages) > t.completed + Corrections(t.messages)
    ensures round.Corrected? ==> Corrections(trace.messages) == Corrections(t.messages) + 1 == 1 && trace.completed >= t.completed
    ensures round.Worked? ==> Corrections(trace.messages) == Corrections(t.messages)
  {
    var calls := FirstOf(reply.calls, MAX_CALLS - t.completed);
    AskKeeps(w, t, reply);
    trace := Trace(t.messages + [Assistant(reply.content, calls)], t.modelCalls + 1, t.dispatched, t.completed);
    trace, round := AnswerCalls(w, trace, calls, executor);
    if !round.Raises? { ProperBounds(w, trace.messages); }
  }

  method Converse(w: World) returns (outcome: Outcome, trace: Trace)
    ensures Ended(w, outcome, trace) || (outcome.Raised? && BrokenOff(w, trace))
  {
    var executor := new Executor();
    trace := Trace([System(w.system), User(w.user)], 0, [], 0);
    var corrective := 0;
    StartsProper(w);
    while trace.completed < MAX_CALLS
      invariant fresh(executor) && TraceOk(w, trace) && Due(trace.messages).None? && executor.calls == trace.completed <= MAX_CALLS
      invariant corrective == Corrections(trace.messages) <= 1
      invariant corrective == 0 || trace.completed == 0 || trace.completed == MAX_CALLS || !Open(trace.messages)
      decreases MAX_CALLS - trace.completed + 1 - corrective
    {
      if corrective > 0 && trace.completed > 0 { break; }
      var reply := w.model(trace.modelCalls, true, trace.messages);
      if reply.Failed? { return Raised, trace.(modelCalls := trace.modelCalls + 1); }
      if reply.calls == [] {
        outcome, trace := Finish(w, trace, reply);
        return;
      }
      var round;
      trace, round := TakeRound(w, trace, reply, executor);
      if round.Raises? { return Raised, trace; }
      if round.Corrected? { corrective := corrective + 1; }
    }
    outcome, trace := Finish(w, trace, w.model(trace.modelCalls, false, trace.messages));
  }

  lemma StartsProper(w: World)
    ensures TraceOk(w, Trace([System(w.system), User(w.user)], 0, [], 0)) && Due([System(w.system), User(w.user)]).None?
    ensures Corrections([System(w.system), User(w.user)]) == 0
  {
    OpeningCounts(w);
  }

  lemma AskKeeps(w: World, t: Trace, reply: Reply)
    requires TraceOk(w, t) && Due(t.messages).None? && Open(t.messages)
    requires reply == w.model(t.modelCalls, true, t.messages) && reply.Reply? && reply.calls != []
    ensures var m := Assistant(reply.content, FirstOf(reply.calls, MAX_CALLS - t.completed));
            && TraceOk(w, Trace(t.messages + [m], t.modelCalls + 1, t.dispatched, t.completed))
            && Corrections(t.messages + [m]) == Corrections(t.messages)
  {
    var m := Assistant(reply.content, FirstOf(reply.calls, MAX_CALLS - t.completed));
    ProperMore(w, t.messages, m);
    var more := t.messages + [m];
    assert Before(more) == t.messages && Last(more) == m;
    CountMore(w, more);
  }
}
