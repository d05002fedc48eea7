/** The advisor pipeline (app/agent/core.py, analysis.py, reflection.py): which parts of its answer the
    language model can reach, and what a surfaced recommendation rests on. */
module Pipeline {
  import opened Options
  import PyText

  const MIN_INSIGHT: real := 0.6
  const GATE_EVIDENCE: int := 5
  const GATE_CONFIDENCE: real := 0.45
  const MAX_FACTS: nat := 8
  const MAX_OBSERVATIONS: nat := 5
  const MAX_HYPOTHESES: nat := 3
  const MAX_FACT_CHARS: nat := 500
  const MAX_HYPOTHESIS_CHARS: nat := 800

  datatype Status = Completed | FailedOrReview | OtherStatus

  datatype Trade = Trade(id: string, status: Status, profit: real)

  datatype Experience = Experience(id: string, text: string, confidence: real)

  /** What the collector gathered. `facts` are the raw fact lines; `reflects` says whether reflecting on the
      trades goes through, `readable` whether the stored experiences can be rebuilt. */
  datatype Context = Context(trades: seq<Trade>, reflects: bool, experiences: seq<Experience>, readable: bool, facts: seq<string>)

  datatype Action = NoAction | Insight

  datatype Observation = Observation(pattern: string, evidenceCount: int, confidence: real, evidence: seq<string>)

  datatype Reflection = Reflection(
    action: Action, observation: Option<Observation>, reason: string, evidenceCount: int, confidence: real, hasEnough: bool)

  datatype Recommendation = Recommendation(reason: string, confidence: real, evidence: seq<string>)

  datatype Analysis = Analysis(
    facts: seq<string>, observations: seq<string>, hypotheses: seq<string>, recommendations: seq<Recommendation>,
    evidenceCount: int, confidence: real, hasEnough: bool, action: Action)

  /** What the model did with the prompt. */
  datatype Reply = Fails | Says(text: string)

  datatype Response = Response(
    reflection: Option<Reflection>, recommendation: Option<Recommendation>, llmOutput: Option<string>, noAction: bool,
    analysis: Option<Analysis>)

  /** The wording the gates do not depend on: the pattern read into experiences, the line written for an
      observation, the redaction of untrusted text, and the trade patterns. */
  datatype Wording = Wording(
    infer: seq<Experience> -> string,
    tell: Observation -> string,
    clean: string -> string,
    tradePattern: (bool, bool) -> string)

  // ------------------------------------------------------------------ reflection

  function CountOf(trades: seq<Trade>, status: Status): (n: nat)
    ensures n <= |trades|
  {
    if trades == [] then 0 else CountOf(trades[..|trades| - 1], status) + if trades[|trades| - 1].status == status then 1 else 0
  }

  function Total(trades: seq<Trade>): (x: real) {
    if trades == [] then 0.0 else Total(trades[..|trades| - 1]) + trades[|trades| - 1].profit
  }

  function FirstIds(trades: seq<Trade>): (ids: seq<string>) {
    var window := if |trades| > 5 then trades[..5] else trades;
    seq(|window|, i requires 0 <= i < |window| => window[i].id)
  }

  function Min(a: real, b: real): (r: real) { if b < a then b else a }

  function Max(a: real, b: real): (r: real) { if b > a then b else a }

  function Quiet(reason: string, evidence: int, confidence: real): (r: Reflection) {
    Reflection(NoAction, None, reason, evidence, confidence, false)
  }

  function ReflectOnTrades(trades: seq<Trade>, min: int, w: Wording): (r: Reflection)
    requires trades != []
  {
    if |trades| < min then Quiet("insufficient trade evidence", |trades|, 0.0) else
    var total, failed, completed := |trades|, CountOf(trades, FailedOrReview), CountOf(trades, Completed);
    var pattern := 5 * failed >= 2 * total || completed == 0;
    var confidence := Min(0.9, Max(0.3, 0.5 + 0.1 + if pattern then 0.15 else 0.0));
    if confidence < GATE_CONFIDENCE && total < min * 2 then Quiet("not confident enough", total, confidence)
    else if pattern then
      var text := w.tradePattern(2 * failed >= total, Total(trades) < 0.0);
      Reflection(Insight, Some(Observation(text, total, confidence, FirstIds(trades))), "pattern", total, confidence, true)
    else Quiet("no strong pattern", total, confidence)
  }

  function SumConfidence(es: seq<Experience>): (x: real) {
    if es == [] then 0.0 else SumConfidence(es[..|es| - 1]) + es[|es| - 1].confidence
  }

  function FirstExperienceIds(es: seq<Experience>): (ids: seq<string>) {
    var window := if |es| > 5 then es[..5] else es;
    seq(|window|, i requires 0 <= i < |window| => window[i].id)
  }

  function Average(es: seq<Experience>): (x: real)
    requires es != []
  {
    SumConfidence(es) / |es| as real
  }

  /** The experiences the pipeline rebuilds carry no lesson of their own. */
  function ReflectOnExperiences(es: seq<Experience>, min: int, w: Wording): (r: Reflection)
    requires es != []
  {
    if |es| < min then Quiet("insufficient evidence", |es|, 0.0) else OnAverage(es, Average(es), w)
  }

  function OnAverage(es: seq<Experience>, average: real, w: Wording): (r: Reflection) {
    if average < MIN_INSIGHT then Quiet("low confidence", |es|, average) else
    var confidence := Min(0.95, Max(0.35, average));
    if confidence < GATE_CONFIDENCE then Quiet("evidence threshold not met", |es|, confidence)
    else Reflection(Insight, Some(Observation(w.infer(es), |es|, confidence, FirstExperienceIds(es))), "insight", |es|, confidence, true)
  }

  /** `maybe_recommend`. */
  function Synthesised(r: Reflection): (rec: Option<Recommendation>) {
    if r.action.NoAction? || r.observation.None? then None
    else if r.observation.value.confidence < MIN_INSIGHT || r.observation.value.pattern == "" then None
    else Some(Recommendation(r.observation.value.pattern, r.observation.value.confidence, r.observation.value.evidence))
  }

  // ------------------------------------------------------------------ analysis

  function Truncated(s: string, limit: nat): (r: string)
    requires limit >= 20
    ensures |r| <= limit && (|s| <= limit ==> r == s)
    ensures |s| > limit ==> |r| == limit - 5 && r[..limit - 20] == s[..limit - 20]
  {
    if |s| <= limit then s else s[..limit - 20] + "... (truncated)"
  }

  function FirstOf(items: seq<string>, n: nat): (r: seq<string>)
    ensures r <= items && (|r| == n || r == items) && |r| <= n
  {
    if |items| > n then items[..n] else items
  }

  /** `_bound_list`: at most so many items, each cleaned and cut. */
  function Bounded(items: seq<string>, n: nat, limit: nat, clean: string -> string): (r: seq<string>)
    requires limit >= 20
    ensures |r| <= n && |r| <= |items| && (|r| == n || |r| == |items|)
    ensures forall i :: 0 <= i < |r| ==> |r[i]| <= limit && (|clean(items[i])| <= limit ==> r[i] == clean(items[i]))
  {
    var kept := FirstOf(items, n);
    seq(|kept|, i requires 0 <= i < |kept| => Truncated(clean(kept[i]), limit))
  }

  method BoundList(items: seq<string>, n: nat, limit: nat, clean: string -> string) returns (r: seq<string>)
    requires limit >= 20
    ensures r == Bounded(items, n, limit, clean)
  {
    r := [];
    var kept := FirstOf(items, n);
    for i := 0 to |kept|
      invariant |r| == i && forall j :: 0 <= j < i ==> r[j] == Truncated(clean(kept[j]), limit)
    {
      r := r + [Truncated(clean(kept[i]), limit)];
    }
  }

  /** `x or fallback` on a number. */
  function EvidenceOf(refl: Option<Reflection>): (n: int) {
    if refl.None? then 0
    else if refl.value.evidenceCount != 0 then refl.value.evidenceCount
    else if refl.value.observation.Some? then refl.value.observation.value.evidenceCount else 0
  }

  function ConfidenceOf(refl: Option<Reflection>): (x: real) {
    if refl.None? then 0.0
    else if refl.value.confidence != 0.0 then refl.value.confidence
    else if refl.value.observation.Some? then refl.value.observation.value.confidence else 0.0
  }

  predicate GatePasses(refl: Option<Reflection>) { EvidenceOf(refl) >= GATE_EVIDENCE && ConfidenceOf(refl) >= GATE_CONFIDENCE }

  function GatedAction(refl: Option<Reflection>): (a: Action) {
    if refl.Some? && refl.value.action.Insight? && GatePasses(refl) then Insight else NoAction
  }

  function ObservationLines(refl: Option<Reflection>, w: Wording): (lines: seq<string>) {
    if refl.None? then ["no reflection (no trades/experiences)"]
    else if refl.value.observation.Some? then [Truncated(w.tell(refl.value.observation.value), MAX_FACT_CHARS)]
    else if refl.value.reason != "" then [Truncated("reflection reason: " + refl.value.reason, MAX_FACT_CHARS)]
    else []
  }

  function Capped(s: string, n: nat): (r: string) { if |s| > n then s[..n] else s }

  /** The model's text, or else the pattern, as speculation: the only place that text goes. */
  function HypothesisLines(refl: Option<Reflection>, llmOutput: Option<string>, malformed: bool, w: Wording): (lines: seq<string>) {
    if llmOutput.Some? then
      var raw := Truncated(w.clean(llmOutput.value), MAX_HYPOTHESIS_CHARS);
      [Truncated(if malformed then "LLM malformed output (treated as hypothesis, not fact): " + Capped(raw, 200)
                 else "LLM hypothesis: " + Capped(raw, 400), MAX_HYPOTHESIS_CHARS)]
    else if refl.Some? && refl.value.observation.Some? then
      [Truncated("deterministic hypothesis: " + Capped(refl.value.observation.value.pattern, 300), MAX_HYPOTHESIS_CHARS)]
    else []
  }

  /** `AnalysisEngine.build`: the model's text enters the hypotheses and nothing else. */
  method Build(ctx: Context, refl: Option<Reflection>, llmOutput: Option<string>, malformed: bool, w: Wording) returns (a: Analysis)
    ensures a.facts == Bounded(ctx.facts, MAX_FACTS, MAX_FACT_CHARS, w.clean)
    ensures a.observations == Bounded(ObservationLines(refl, w), MAX_OBSERVATIONS, MAX_FACT_CHARS, w.clean)
    ensures a.evidenceCount == EvidenceOf(refl) && a.confidence == ConfidenceOf(refl)
    ensures a.action == GatedAction(refl) && a.recommendations == []
    ensures a.hasEnough <==> refl.Some? && refl.value.hasEnough && GatePasses(refl)
    ensures a.hypotheses == Bounded(HypothesisLines(refl, llmOutput, malformed, w), MAX_HYPOTHESES, MAX_HYPOTHESIS_CHARS, w.clean)
  {
    var facts := BoundList(ctx.facts, MAX_FACTS, MAX_FACT_CHARS, w.clean);
    var observations: seq<string> := [];
    var evidenceCount, confidence, hasEnough, action := 0, 0.0, false, NoAction;
    if refl.Some? {
      evidenceCount, confidence := EvidenceOf(refl), ConfidenceOf(refl);
      hasEnough, action := refl.value.hasEnough, refl.value.action;
      if refl.value.observation.Some? {
        observations := observations + [Truncated(w.tell(refl.value.observation.value), MAX_FACT_CHARS)];
      } else if refl.value.reason != "" {
        observations := observations + [Truncated("reflection reason: " + refl.value.reason, MAX_FACT_CHARS)];
      }
    } else {
      observations := observations + ["no reflection (no trades/experiences)"];
    }
    var lines := BoundList(observations, MAX_OBSERVATIONS, MAX_FACT_CHARS, w.clean);
    var hypotheses := BoundList(HypothesisLines(refl, llmOutput, malformed, w), MAX_HYPOTHESES, MAX_HYPOTHESIS_CHARS, w.clean);
    if evidenceCount < GATE_EVIDENCE { action, hasEnough := NoAction, false; }
    if confidence < GATE_CONFIDENCE { action, hasEnough := NoAction, false; }
    a := Analysis(facts, lines, hypotheses, [], evidenceCount, confidence, hasEnough, action);
  }

  function Attached(a: Analysis, rec: Option<Recommendation>): (r: Analysis) {
    if a.action.NoAction? || rec.None? || a.evidenceCount < GATE_EVIDENCE || a.confidence < GATE_CONFIDENCE then a
    else a.(recommendations := [rec.value])
  }

  // ------------------------------------------------------------------ the pipeline

  function TradeReflection(ctx: Context, min: int, w: Wording): (r: Reflection)
    requires ctx.trades != []
  {
    if ctx.reflects then ReflectOnTrades(ctx.trades, min, w) else Quiet("reflection error", 0, 0.0)
  }

  /** The reflection the pipeline settles on: a function of the context alone. */
  function ReflectionOf(ctx: Context, min: int, w: Wording): (r: Option<Reflection>) {
    var first := if ctx.trades != [] then Some(TradeReflection(ctx, min, w)) else None;
    if (first.None? || first.value.action.NoAction?) && ctx.experiences != [] && ctx.readable
       && ReflectOnExperiences(ctx.experiences, min, w).action.Insight?
    then Some(ReflectOnExperiences(ctx.experiences, min, w)) else first
  }

  /** The reflection stages, in the order the pipeline tries them. */
  method Reflect(ctx: Context, min: int, w: Wording) returns (reflection: Option<Reflection>)
    ensures reflection == ReflectionOf(ctx, min, w)
  {
    reflection := None;
    if ctx.trades != [] {
      if ctx.reflects { reflection := Some(ReflectOnTrades(ctx.trades, min, w)); }
      else { reflection := Some(Quiet("reflection error", 0, 0.0)); }
    }
    if (reflection.None? || reflection.value.action.NoAction?) && ctx.experiences != [] && ctx.readable {
      var second := ReflectOnExperiences(ctx.experiences, min, w);
      if !second.action.NoAction? { reflection := Some(second); }
    }
  }

  function Candidate(refl: Option<Reflection>): (rec: Option<Recommendation>) {
    if refl.Some? && refl.value.action.Insight? then Synthesised(refl.value) else None
  }

  /** What is surfaced: the candidate, held back by the analysis gates unless the analysis broke down. */
  function Surfaced(refl: Option<Reflection>, broken: bool): (rec: Option<Recommendation>) {
    if broken || GatedAction(refl).Insight? then Candidate(refl) else None
  }

  function Decided(refl: Option<Reflection>, broken: bool): (noAction: bool) {
    if broken then refl.None? || refl.value.action.NoAction? else GatedAction(refl).NoAction?
  }

  /** The model is asked only about an insight. */
  predicate Consulted(ctx: Context, min: int, w: Wording) {
    ReflectionOf(ctx, min, w).Some? && ReflectionOf(ctx, min, w).value.action.Insight?
  }

  predicate Malformed(reply: Reply, w: Wording) { reply.Fails? || |PyText.Strip(w.clean(reply.text))| < 5 }

  method Consult(reply: Reply, w: Wording) returns (llmOutput: Option<string>, malformed: bool)
    ensures llmOutput == if reply.Says? then Some(w.clean(reply.text)) else None
    ensures malformed <==> Malformed(reply, w)
  {
    llmOutput, malformed := None, true;
    if reply.Says? {
      llmOutput := Some(w.clean(reply.text));
      malformed := |PyText.Strip(w.clean(reply.text))| < 5;
    }
  }

  /** `AgentCore.handle`, for every reply of the model and whether or not building the analysis fails.
      Nothing on the right of these equations mentions the reply: reflection, recommendation, decision,
      facts, observations, evidence, confidence and action are what they are without the model. */
  method Handle(ctx: Context, min: int, w: Wording, reply: Reply, broken: bool) returns (r: Response)
    ensures r.reflection == ReflectionOf(ctx, min, w)
    ensures r.recommendation == Surfaced(ReflectionOf(ctx, min, w), broken)
    ensures r.noAction == Decided(ReflectionOf(ctx, min, w), broken)
    ensures r.analysis.None? <==> broken
    ensures !broken ==>
              var refl, a := ReflectionOf(ctx, min, w), r.analysis.value;
              && a.facts == Bounded(ctx.facts, MAX_FACTS, MAX_FACT_CHARS, w.clean)
              && a.observations == Bounded(ObservationLines(refl, w), MAX_OBSERVATIONS, MAX_FACT_CHARS, w.clean)
              && a.evidenceCount == EvidenceOf(refl) && a.confidence == ConfidenceOf(refl) && a.action == GatedAction(refl)
              && a.recommendations == (if Surfaced(refl, false).Some? then [Surfaced(refl, false).value] else [])
    ensures r.llmOutput == if Consulted(ctx, min, w) && reply.Says? then Some(w.clean(reply.text)) else None
    ensures !broken ==>
              var lines := HypothesisLines(ReflectionOf(ctx, min, w), r.llmOutput, Malformed(reply, w), w);
              r.analysis.value.hypotheses == Bounded(lines, MAX_HYPOTHESES, MAX_HYPOTHESIS_CHARS, w.clean)
  {
    var reflection := Reflect(ctx, min, w);
    var recommendation: Option<Recommendation> := None;
    var llmOutput: Option<string> := None;
    if reflection.Some? && !reflection.value.action.NoAction? { recommendation := Synthesised(reflection.value); }
    var malformed := false;
    if reflection.Some? && !reflection.value.action.NoAction? { llmOutput, malformed := Consult(reply, w); }
    var analysis: Option<Analysis> := None;
    var noAction: bool;
    if !broken {
      var built := Build(ctx, reflection, llmOutput, malformed, w);
      if recommendation.Some? {
        built := Attached(built, recommendation);
        if built.action.NoAction? { recommendation := None; }
        else if built.recommendations != [] { recommendation := Some(built.recommendations[0]); }
        else { recommendation := None; }
      }
      noAction := built.action.NoAction?;
      if noAction { recommendation := None; }
      analysis := Some(built);
    } else {
      noAction := reflection.None? || reflection.value.action.NoAction?;
      if noAction { recommendation := None; }
    }
    r := Response(reflection, recommendation, llmOutput, noAction, analysis);
  }

  // ------------------------------------------------------------------ when there is an insight

  /** The places of the trades with that status. */
  function Places(trades: seq<Trade>, status: Status): (r: set<int>) { set i | 0 <= i < |trades| && trades[i].status == status }

  lemma {:induction false} CountIsPlaces(trades: seq<Trade>, status: Status)
    ensures CountOf(trades, status) == |Places(trades, status)|
  {
    if trades != [] {
      var init, n := trades[..|trades| - 1], |trades| - 1;
      CountIsPlaces(init, status);
      assert Places(trades, status) == Places(init, status) + if trades[n].status == status then {n} else {};
    }
  }

  /** The trades show a pattern: at least two fifths of them failed, or none completed. */
  predicate TradesSpeak(ctx: Context, min: int) {
    && ctx.trades != [] && ctx.reflects && |ctx.trades| >= min
    && (5 * |Places(ctx.trades, FailedOrReview)| >= 2 * |ctx.trades| || Places(ctx.trades, Completed) == {})
  }

  /** The experiences are confident enough on average. */
  predicate ExperiencesSpeak(ctx: Context, min: int) {
    ctx.experiences != [] && ctx.readable && |ctx.experiences| >= min && SumConfidence(ctx.experiences) >= MIN_INSIGHT * |ctx.experiences| as real
  }

  /** The reflection on trades is an insight exactly when they show a pattern; the numbers it carries. */
  lemma TradesInsightIff(ctx: Context, min: int, w: Wording)
    requires ctx.trades != []
    ensures var r := TradeReflection(ctx, min, w);
            && (r.action.Insight? <==> TradesSpeak(ctx, min))
            && (ctx.reflects ==> r.evidenceCount == |ctx.trades|)
            && (r.action.Insight? ==>
                  r.confidence == 0.75 && r.hasEnough && r.observation.Some?
                  && |r.observation.value.evidence| <= 5 && (|r.observation.value.evidence| == 5 || |r.observation.value.evidence| == |ctx.trades|)
                  && (forall i :: 0 <= i < |r.observation.value.evidence| ==> i < |ctx.trades| && r.observation.value.evidence[i] == ctx.trades[i].id)
                  && r.observation.value.pattern == w.tradePattern(2 * |Places(ctx.trades, FailedOrReview)| >= |ctx.trades|, Total(ctx.trades) < 0.0))
            && (r.action.NoAction? ==>
                  r.observation.None? && !r.hasEnough && r.confidence == if ctx.reflects && |ctx.trades| >= min then 0.6 else 0.0)
  {
    CountIsPlaces(ctx.trades, FailedOrReview);
    CountIsPlaces(ctx.trades, Completed);
  }

  /** The reflection on experiences is an insight exactly when their average confidence is at least 0.6. */
  lemma ExperiencesInsightIff(es: seq<Experience>, min: int, w: Wording)
    requires es != []
    ensures var r := ReflectOnExperiences(es, min, w);
            && (r.action.Insight? <==> |es| >= min && SumConfidence(es) >= MIN_INSIGHT * |es| as real)
            && (r.action.Insight? ==>
                  r.observation.Some? && r.observation.value.pattern == w.infer(es)
                  && |r.observation.value.evidence| <= 5 && (|r.observation.value.evidence| == 5 || |r.observation.value.evidence| == |es|)
                  && (forall i :: 0 <= i < |r.observation.value.evidence| ==> i < |es| && r.observation.value.evidence[i] == es[i].id)
                  && r.evidenceCount == |es| && r.confidence == Min(0.95, Average(es)))
  {
    AverageOf(es);
    AverageDecides(es, Average(es), w);
  }

  lemma AverageOf(es: seq<Experience>)
    requires es != []
    ensures Average(es) < MIN_INSIGHT <==> SumConfidence(es) < MIN_INSIGHT * |es| as real
  {
    AverageBelow(SumConfidence(es), |es| as real, MIN_INSIGHT);
  }

  lemma AverageDecides(es: seq<Experience>, average: real, w: Wording)
    ensures var r := OnAverage(es, average, w);
            && (r.action.Insight? <==> average >= MIN_INSIGHT)
            && (r.action.Insight? ==>
                  r == Reflection(Insight, Some(Observation(w.infer(es), |es|, Min(0.95, average), FirstExperienceIds(es))), "insight", |es|, Min(0.95, average), true))
  {}

  lemma AverageBelow(sum: real, n: real, x: real)
    requires n > 0.0
    ensures sum / n < x <==> sum < x * n
  {
    var q := sum / n;
    assert q * n == sum;
    if q < x { Grows(x - q, n); } else if x < q { Grows(q - x, n); }
  }

  lemma Grows(d: real, n: real)
    requires d > 0.0 && n > 0.0
    ensures d * n > 0.0
  {}

  /** What the pipeline settles on: the trades' insight if there is one, else the experiences', else what
      the trades gave. */
  lemma ReflectionIff(ctx: Context, min: int, w: Wording)
    ensures var r := ReflectionOf(ctx, min, w);
            && (r.Some? && r.value.action.Insight? <==> TradesSpeak(ctx, min) || ExperiencesSpeak(ctx, min))
            && (if TradesSpeak(ctx, min) || (!ExperiencesSpeak(ctx, min) && ctx.trades != []) then r == Some(TradeReflection(ctx, min, w))
                else if ExperiencesSpeak(ctx, min) then r == Some(ReflectOnExperiences(ctx.experiences, min, w)) else r.None?)
  {
    if ctx.trades != [] { TradesInsightIff(ctx, min, w); }
    if ctx.experiences != [] { ExperiencesInsightIff(ctx.experiences, min, w); }
  }

  /** Completed trades alone never give an insight. */
  lemma CompletedTradesAreQuiet(ctx: Context, min: int, w: Wording)
    requires ctx.trades != [] && forall t :: t in ctx.trades ==> t.status.Completed?
    ensures TradeReflection(ctx, min, w).action.NoAction?
  {
    TradesInsightIff(ctx, min, w);
    assert Places(ctx.trades, FailedOrReview) == {};
    assert 0 in Places(ctx.trades, Completed);
  }

  /** A completed trade that turns out failed never loses an insight. */
  lemma FailuresOnlyAdd(ctx: Context, min: int, w: Wording, i: nat)
    requires i < |ctx.trades| && ctx.trades[i].status.Completed? && TradeReflection(ctx, min, w).action.Insight?
    ensures TradeReflection(ctx.(trades := ctx.trades[i := ctx.trades[i].(status := FailedOrReview)]), min, w).action.Insight?
  {
    var worse := ctx.(trades := ctx.trades[i := ctx.trades[i].(status := FailedOrReview)]);
    TradesInsightIff(ctx, min, w);
    TradesInsightIff(worse, min, w);
    assert Places(worse.trades, FailedOrReview) == Places(ctx.trades, FailedOrReview) + {i};
    assert i in Places(ctx.trades, Completed);
  }

  lemma {:induction false} SumAtLeast(es: seq<Experience>, x: real)
    ensures (forall e :: e in es ==> e.confidence >= x) ==> SumConfidence(es) >= x * |es| as real
    ensures es != [] && (forall e :: e in es ==> e.confidence < x) ==> SumConfidence(es) < x * |es| as real
  {
    if es != [] {
      var init := es[..|es| - 1];
      SumAtLeast(init, x);
      assert |es| as real == |init| as real + 1.0;
      assert x * |es| as real == x * |init| as real + x;
    }
  }

  /** Profits that are never negative do not add up to a loss; losses do. */
  lemma {:induction false} TotalSign(trades: seq<Trade>)
    ensures (forall t :: t in trades ==> t.profit >= 0.0) ==> Total(trades) >= 0.0
    ensures trades != [] && (forall t :: t in trades ==> t.profit < 0.0) ==> Total(trades) < 0.0
  {
    if trades != [] { TotalSign(trades[..|trades| - 1]); }
  }

  /** Enough experiences that are each confident speak; experiences none of which is do not. */
  lemma ConfidentExperiences(ctx: Context, min: int)
    requires ctx.readable && ctx.experiences != [] && |ctx.experiences| >= min
    ensures (forall e :: e in ctx.experiences ==> e.confidence >= MIN_INSIGHT) ==> ExperiencesSpeak(ctx, min)
    ensures (forall e :: e in ctx.experiences ==> e.confidence < MIN_INSIGHT) ==> !ExperiencesSpeak(ctx, min)
  {
    SumAtLeast(ctx.experiences, MIN_INSIGHT);
  }

  /** A surfaced recommendation is the pattern of an insight that passes the gates, with its confidence and
      its evidence; and every such insight with a pattern is surfaced. */
  lemma SurfacedIff(ctx: Context, min: int, w: Wording)
    ensures var refl := ReflectionOf(ctx, min, w);
            var rec := Surfaced(refl, false);
            && (rec.Some? <==>
                  (TradesSpeak(ctx, min) || ExperiencesSpeak(ctx, min)) && refl.Some? && refl.value.observation.Some?
                  && refl.value.evidenceCount >= 5 && refl.value.observation.value.pattern != "")
            && (Decided(refl, false) <==> !((TradesSpeak(ctx, min) || ExperiencesSpeak(ctx, min)) && refl.Some? && refl.value.evidenceCount >= 5))
            && (rec.Some? ==>
                  var o := refl.value.observation.value;
                  rec.value.reason == o.pattern && rec.value.confidence == o.confidence && rec.value.evidence == o.evidence)
  {
    ReflectionIff(ctx, min, w);
    InsightIsGrounded(ctx, min, w);
  }

  // ------------------------------------------------------------------ what the gates guarantee

  /** An insight rests on at least `min` items and at least the gate's confidence, and its observation
      carries the same numbers. */
  lemma InsightIsGrounded(ctx: Context, min: int, w: Wording)
    ensures var refl := ReflectionOf(ctx, min, w);
            refl.Some? && refl.value.action.Insight? ==>
              && refl.value.observation.Some?
              && refl.value.evidenceCount == refl.value.observation.value.evidenceCount >= min
              && refl.value.evidenceCount >= 1
              && refl.value.confidence == refl.value.observation.value.confidence >= MIN_INSIGHT
  {}

  /** Any surfaced recommendation has confidence at least 0.6 and rests on at least five items, or, when
      the analysis broke down, on at least as many as reflection was configured to ask for. */
  lemma SurfacedIsGrounded(ctx: Context, min: int, w: Wording, broken: bool)
    ensures var refl := ReflectionOf(ctx, min, w);
            var rec := Surfaced(refl, broken);
            rec.Some? ==>
              && rec.value.confidence >= MIN_INSIGHT && rec.value.confidence == ConfidenceOf(refl)
              && EvidenceOf(refl) >= (if broken then min else GATE_EVIDENCE)
  {
    InsightIsGrounded(ctx, min, w);
  }

  /** With reflection asking for five items, as it does by default, a failing analysis changes neither
      the recommendation nor the decision: nothing the model says can reach them even that way. */
  lemma BrokenAnalysisIsHarmless(ctx: Context, min: int, w: Wording)
    requires min >= GATE_EVIDENCE
    ensures var refl := ReflectionOf(ctx, min, w);
            Surfaced(refl, true) == Surfaced(refl, false) && Decided(refl, true) == Decided(refl, false)
  {
    InsightIsGrounded(ctx, min, w);
  }

  /** `n` copies of a failed trade: the least evidence that makes an insight of any minimum up to `n`. */
  function Copies(t: Trade, n: nat): (trades: seq<Trade>)
    ensures |trades| == n
  {
    seq(n, _ => t)
  }

  lemma {:induction false} CopiesCount(t: Trade, n: nat, status: Status)
    ensures CountOf(Copies(t, n), status) == if t.status == status then n else 0
  {
    if n > 0 {
      CopiesCount(t, n - 1, status);
      assert Copies(t, n)[..n - 1] == Copies(t, n - 1);
    }
  }

  /** Asking for fewer items than the gate does, a failing analysis surfaces what the gate would hold back. */
  lemma FewerItemsNeedTheGate(min: int, w: Wording, t: Trade)
    requires min < GATE_EVIDENCE && t.status.FailedOrReview? && forall a, b :: w.tradePattern(a, b) != ""
    ensures var n := if min < 1 then 1 else min;
            var refl := ReflectionOf(Context(Copies(t, n), true, [], true, []), min, w);
            Surfaced(refl, true).Some? && Surfaced(refl, false).None?
  {
    var n := if min < 1 then 1 else min;
    CopiesCount(t, n, FailedOrReview);
    CopiesCount(t, n, Completed);
    assert ReflectOnTrades(Copies(t, n), min, w).action.Insight?;
  }

  /** A failing analysis changes no answer if and only if reflection asks for at least as many items as
      the gate: then nothing the model says can reach recommendation or decision even by breaking it. */
  lemma BrokenAnalysisIff(min: int, w: Wording)
    requires forall a, b :: w.tradePattern(a, b) != ""
    ensures min >= GATE_EVIDENCE <==>
            forall ctx :: var refl := ReflectionOf(ctx, min, w);
                          Surfaced(refl, true) == Surfaced(refl, false) && Decided(refl, true) == Decided(refl, false)
  {
    if min >= GATE_EVIDENCE {
      forall ctx: Context
        ensures var refl := ReflectionOf(ctx, min, w);
                Surfaced(refl, true) == Surfaced(refl, false) && Decided(refl, true) == Decided(refl, false)
      {
        BrokenAnalysisIsHarmless(ctx, min, w);
      }
    } else {
      FewerItemsNeedTheGate(min, w, Trade("", FailedOrReview, 0.0));
    }
  }
}
