/** The three recommendation rules (app/agent/recommender.py): what they propose, in which direction it
    moves, and that the approval workflow accepts it. */
module Recommender {
  import opened Options
  import opened PyText
  import opened ApprovalModel

  const MIN_SAMPLE: nat := 5

  // ------------------------------------------------------------------ decimal arithmetic

  function TenTo(n: nat): (r: nat)
    ensures r > 0
  {
    if n == 0 then 1 else 10 * TenTo(n - 1)
  }

  /** Division rounded to the nearest integer, a tie to the even one. */
  function HalfEven(num: nat, den: nat): (q: nat)
    requires den > 0
  {
    var q, r := num / den, num % den;
    if 2 * r < den || (2 * r == den && q % 2 == 0) then q else q + 1
  }

  /** `quantize(Decimal("1"))`. */
  function Quantized(d: Dec): (q: Dec) {
    if d.exp >= 0 then Dec(d.neg, d.coeff * TenTo(d.exp), 0) else Dec(d.neg, HalfEven(d.coeff, TenTo(-d.exp)), 0)
  }

  /** The product with a factor of `places` decimal places. */
  function Scaled(d: Dec, factor: nat, places: nat): (r: Dec) { Dec(d.neg, d.coeff * factor, d.exp - places) }

  function Signed(d: Dec): (n: int) { if d.neg then 0 - d.coeff else d.coeff }

  /** The sum with a natural number. */
  function Plus(d: Dec, n: nat): (r: Dec) {
    var sum := if d.exp >= 0 then Signed(d) * TenTo(d.exp) + n else Signed(d) + n * TenTo(-d.exp);
    Dec(sum < 0, if sum < 0 then -sum else sum, if d.exp >= 0 then 0 else d.exp)
  }

  lemma {:induction false} PowStep(e: int)
    ensures Pow10(e - 1) == Pow10(e) / 10.0
  {}

  lemma {:induction false} PowUp(n: nat)
    ensures Pow10(n) == TenTo(n) as real
  {
    if n > 0 { PowUp(n - 1); }
  }

  lemma {:induction false} PowDown(n: nat)
    ensures Pow10(0 - n) * TenTo(n) as real == 1.0
  {
    if n > 0 {
      PowDown(n - 1);
      PowStep(1 - n);
      Regroup(Pow10(1 - n), TenTo(n - 1) as real);
    }
  }

  lemma Regroup(p: real, t: real)
    ensures (p / 10.0) * (10.0 * t) == p * t
  {}

  lemma ScaledValue(d: Dec, factor: nat)
    ensures DecValue(Scaled(d, factor, 1)) == DecValue(d) * (factor as real / 10.0)
    ensures DecValue(Scaled(d, factor, 2)) == DecValue(d) * (factor as real / 100.0)
  {
    PowStep(d.exp);
    PowStep(d.exp - 1);
    var c, p := d.coeff as real, Pow10(d.exp);
    assert (d.coeff * factor) as real == c * (factor as real);
    Products(c, factor as real, p);
  }

  lemma Products(c: real, f: real, p: real)
    ensures (c * f) * (p / 10.0) == (c * p) * (f / 10.0)
    ensures (c * f) * (p / 10.0 / 10.0) == (c * p) * (f / 100.0)
  {}

  /** The value of a number without a sign. */
  lemma PlainValue(d: Dec)
    requires !d.neg
    ensures DecValue(d) == d.coeff as real * Pow10(d.exp)
  {}

  /** A nearest integer, with ties to even. */
  predicate Nearest(q: int, x: real) {
    q as real - 0.5 <= x <= q as real + 0.5 && (x == q as real + 0.5 || x == q as real - 0.5 ==> q % 2 == 0)
  }

  lemma HalfEvenNear(num: nat, den: nat, x: real)
    requires den > 0 && x * den as real == num as real
    ensures Nearest(HalfEven(num, den), x)
  {
    var q, r := num / den, num % den;
    assert num == q * den + r && 0 <= r < den;
    ProductAsReal(q, den);
    Remainder(x, q as real, den as real, r as real);
  }

  lemma Remainder(x: real, q: real, den: real, r: real)
    requires den > 0.0 && x * den == q * den + r && 0.0 <= r < den
    ensures q <= x < q + 1.0
    ensures 2.0 * r < den <==> x < q + 0.5
    ensures 2.0 * r == den <==> x == q + 0.5
  {
    assert (x - q) * den == x * den - q * den;
    Fraction(x - q, den, r);
  }

  lemma Fraction(f: real, den: real, r: real)
    requires den > 0.0 && f * den == r && 0.0 <= r < den
    ensures 0.0 <= f < 1.0
    ensures 2.0 * r < den <==> f < 0.5
    ensures 2.0 * r == den <==> f == 0.5
  {
    Compare(f, 0.0, den);
    Compare(f, 1.0, den);
    Compare(f, 0.5, den);
    var half := 0.5 * den;
    assert half + half == den && 0.0 * den == 0.0 && 1.0 * den == den;
  }

  lemma Compare(a: real, b: real, den: real)
    requires den > 0.0
    ensures a < b <==> a * den < b * den
    ensures a == b <==> a * den == b * den
  {
    if a < b { Positive(b - a, den); } else if b < a { Positive(a - b, den); }
  }

  lemma Positive(a: real, b: real)
    requires a > 0.0 && b > 0.0
    ensures a * b > 0.0
  {}

  lemma QuantizedNear(d: Dec)
    requires !d.neg
    ensures var q := Quantized(d); !q.neg && q.exp == 0 && DecValue(q) == q.coeff as real && Nearest(q.coeff, DecValue(d))
  {
    WholeValue(Quantized(d).coeff);
    if d.exp >= 0 { WholeNear(d); } else { FractionNear(d); }
  }

  lemma WholeNear(d: Dec)
    requires !d.neg && d.exp >= 0
    ensures Nearest(Quantized(d).coeff, DecValue(d))
  {
    var x := Quantized(d).coeff as real;
    assert DecValue(d) == x by {
      PlainValue(d);
      PowUp(d.exp);
      ProductAsReal(d.coeff, TenTo(d.exp));
    }
  }

  lemma FractionNear(d: Dec)
    requires !d.neg && d.exp < 0
    ensures Nearest(Quantized(d).coeff, DecValue(d))
  {
    var x, t := DecValue(d), TenTo(-d.exp);
    assert x * t as real == d.coeff as real by {
      PlainValue(d);
      PowDown(-d.exp);
      Cancel(d.coeff as real, Pow10(d.exp), t as real);
    }
    HalfEvenNear(d.coeff, t, x);
  }

  lemma ProductAsReal(a: nat, b: nat)
    ensures (a * b) as real == a as real * b as real
  {}

  lemma Cancel(c: real, p: real, t: real)
    requires p * t == 1.0
    ensures (c * p) * t == c
  {
    assert (c * p) * t == c * (p * t);
  }

  lemma WholeValue(n: nat)
    ensures DecValue(Dec(false, n, 0)) == n as real
  {}

  // ------------------------------------------------------------------ the rules

  /** `_clamp_to_allowlist`, with Python's `min` and `max`, which keep the first of two equal values. */
  function Clamped(p: Param, d: Dec): (r: Dec)
    requires 0 <= Lowest(p) <= Highest(p)
  {
    var low, high := Dec(false, Lowest(p), 0), Dec(false, Highest(p), 0);
    var capped := if DecValue(d) < DecValue(high) then d else high;
    if DecValue(capped) > DecValue(low) then capped else low
  }

  function Sum(xs: seq<real>): (r: real) { if xs == [] then 0.0 else Sum(xs[..|xs| - 1]) + xs[|xs| - 1] }

  function Mean(xs: seq<real>): (r: real)
    requires xs != []
  {
    Sum(xs) / |xs| as real
  }

  datatype Candidate = Candidate(param: Param, current: string, proposed: Dec, samples: nat)

  /** `slips` are the realised slippages of the completed trades. */
  function SlippageRule(slips: seq<real>, live: Dec): (r: Option<Candidate>) {
    if |slips| < MIN_SAMPLE || Mean(slips) <= DecValue(live) then None
    else Some(Candidate(MaxSlippageBps, PrintDec(live), Clamped(MaxSlippageBps, Quantized(Scaled(live, 85, 2))), |slips|))
  }

  datatype Outcome = Completed | Failed | ManualReview | InProgress

  function Terminal(trades: seq<Outcome>): (n: nat)
    ensures n <= |trades|
  {
    if trades == [] then 0 else Terminal(trades[..|trades| - 1]) + if trades[|trades| - 1].InProgress? then 0 else 1
  }

  function Bad(trades: seq<Outcome>): (n: nat)
    ensures n <= Terminal(trades)
  {
    if trades == [] then 0 else
    Bad(trades[..|trades| - 1]) + if trades[|trades| - 1].Failed? || trades[|trades| - 1].ManualReview? then 1 else 0
  }

  /** Over the twenty newest trades. */
  function FailureRule(trades: seq<Outcome>, live: Dec): (r: Option<Candidate>) {
    var window := Window(trades);
    if Terminal(window) < MIN_SAMPLE || 2 * Bad(window) < Terminal(window) then None else
    var proposed := Clamped(MaxTradeSize, Quantized(Scaled(live, 9, 1)));
    if DecValue(proposed) == DecValue(live) then None
    else Some(Candidate(MaxTradeSize, PrintDec(live), proposed, Terminal(window)))
  }

  /** `edges` are the realised profits of the completed trades. */
  function ProfitRule(edges: seq<real>, live: Dec): (r: Option<Candidate>) {
    if |edges| < MIN_SAMPLE || Mean(edges) >= DecValue(live) then None else
    var proposed := Clamped(TriangleMinNetBps, Plus(live, 5));
    if DecValue(proposed) == DecValue(live) then None
    else Some(Candidate(TriangleMinNetBps, PrintDec(live), proposed, |edges|))
  }

  // ------------------------------------------------------------------ in bounds

  lemma ClampedValue(p: Param, d: Dec)
    requires 0 <= Lowest(p) <= Highest(p)
    ensures var x, low, high := DecValue(d), Lowest(p) as real, Highest(p) as real;
            DecValue(Clamped(p, d)) == if x >= high then high else if x <= low then low else x
    ensures InBounds(p, DecValueOf(Clamped(p, d)))
  {
    WholeValue(Lowest(p));
    WholeValue(Highest(p));
  }

  /** A positive value has no minus sign. */
  lemma PositiveUnsigned(d: Dec)
    requires DecValue(d) > 0.0
    ensures !d.neg
  {
    if d.neg { NonNegative(d.coeff as real, Pow10(d.exp)); }
  }

  lemma NonNegative(c: real, p: real)
    requires c >= 0.0 && p > 0.0
    ensures -1.0 * c * p <= 0.0
  {}

  // ------------------------------------------------------------------ directions

  // ------------------------------------------------------------------ when a rule proposes, and how much

  lemma OneMore(x: real, n: nat)
    ensures x * (n + 1) as real == x * n as real + x
  {
    assert (n + 1) as real == n as real + 1.0;
  }

  lemma {:induction false} SumAbove(xs: seq<real>, x: real)
    requires xs != [] && forall i :: 0 <= i < |xs| ==> xs[i] > x
    ensures Sum(xs) > x * |xs| as real
  {
    var init := xs[..|xs| - 1];
    OneMore(x, |init|);
    if init != [] { SumAbove(init, x); } else { assert Sum(init) == 0.0; }
  }

  lemma {:induction false} SumAtMost(xs: seq<real>, x: real)
    requires forall i :: 0 <= i < |xs| ==> xs[i] <= x
    ensures Sum(xs) <= x * |xs| as real
  {
    if xs != [] {
      var init := xs[..|xs| - 1];
      OneMore(x, |init|);
      SumAtMost(init, x);
    }
  }

  lemma {:induction false} SumAtLeast(xs: seq<real>, x: real)
    requires forall i :: 0 <= i < |xs| ==> xs[i] >= x
    ensures Sum(xs) >= x * |xs| as real
  {
    if xs != [] {
      var init := xs[..|xs| - 1];
      OneMore(x, |init|);
      SumAtLeast(init, x);
    }
  }

  /** The mean lies on the side of `x` on which all the samples lie. */
  lemma MeanSides(xs: seq<real>, x: real)
    requires xs != []
    ensures (forall i :: 0 <= i < |xs| ==> xs[i] > x) ==> Mean(xs) > x
    ensures (forall i :: 0 <= i < |xs| ==> xs[i] <= x) ==> Mean(xs) <= x
    ensures (forall i :: 0 <= i < |xs| ==> xs[i] >= x) ==> Mean(xs) >= x
  {
    MeanCompare(Sum(xs), |xs| as real, x);
    if forall i :: 0 <= i < |xs| ==> xs[i] > x { SumAbove(xs, x); }
    if forall i :: 0 <= i < |xs| ==> xs[i] <= x { SumAtMost(xs, x); }
    if forall i :: 0 <= i < |xs| ==> xs[i] >= x { SumAtLeast(xs, x); }
  }

  lemma MeanCompare(sum: real, n: real, x: real)
    requires n > 0.0
    ensures sum / n <= x <==> sum <= x * n
    ensures sum / n >= x <==> sum >= x * n
  {
    var q := sum / n;
    assert q * n == sum;
    Compare(q, x, n);
    Compare(x, q, n);
  }

  /** `p` is the nearest whole number to `y`, a tie going to the even one, but at least `floor`. */
  ghost predicate RoundedAtLeast(y: real, floor: int, p: real) { exists q :: Nearest(q, y) && p == if q < floor then floor as real else q as real }

  /** The slippage rule proposes exactly when at least five fills exceed the live limit on average, and
      then the nearest whole number to 85 percent of it, but at least 1. */
  lemma SlippageRuleIff(slips: seq<real>, live: Dec)
    requires InBounds(MaxSlippageBps, DecValueOf(live))
    ensures var r := SlippageRule(slips, live);
            && (r.Some? <==> |slips| >= 5 && Mean(slips) > DecValue(live))
            && (r.Some? ==> RoundedAtLeast(DecValue(live) * 0.85, 1, DecValue(r.value.proposed)))
  {
    SlippageAmount(live);
  }

  lemma SlippageAmount(live: Dec)
    requires InBounds(MaxSlippageBps, DecValueOf(live))
    ensures var q := Quantized(Scaled(live, 85, 2)).coeff;
            Nearest(q, DecValue(live) * 0.85)
            && DecValue(Clamped(MaxSlippageBps, Quantized(Scaled(live, 85, 2)))) == if q < 1 then 1.0 else q as real
  {
    var d := Scaled(live, 85, 2);
    PositiveUnsigned(live);
    ScaledValue(live, 85);
    QuantizedNear(d);
    ClampedValue(MaxSlippageBps, Quantized(d));
    assert Quantized(d).coeff < 100;
  }

  /** The places among the twenty newest trades whose status satisfies a test. */
  function Window(trades: seq<Outcome>): (r: seq<Outcome>)
    ensures r <= trades && |r| <= 20 && (|r| == 20 || r == trades)
  {
    if |trades| > 20 then trades[..20] else trades
  }

  function DonePlaces(trades: seq<Outcome>): (r: set<int>) { set i | 0 <= i < |trades| && !trades[i].InProgress? }

  function BadPlaces(trades: seq<Outcome>): (r: set<int>) { set i | 0 <= i < |trades| && (trades[i].Failed? || trades[i].ManualReview?) }

  lemma {:induction false} DoneCount(trades: seq<Outcome>)
    ensures Terminal(trades) == |DonePlaces(trades)|
  {
    if trades != [] {
      var init, n := trades[..|trades| - 1], |trades| - 1;
      DoneCount(init);
      assert DonePlaces(trades) == DonePlaces(init) + if trades[n].InProgress? then {} else {n};
    }
  }

  lemma {:induction false} BadCount(trades: seq<Outcome>)
    ensures Bad(trades) == |BadPlaces(trades)|
  {
    if trades != [] {
      var init, n := trades[..|trades| - 1], |trades| - 1;
      BadCount(init);
      assert BadPlaces(trades) == BadPlaces(init) + if trades[n].Failed? || trades[n].ManualReview? then {n} else {};
    }
  }

  /** The failure rule proposes exactly when, of at least five finished trades among the twenty newest, at
      least half failed or need review, and the live size is above the floor; and then the nearest whole
      number to 90 percent of it, but at least 10. */
  lemma FailureRuleIff(trades: seq<Outcome>, live: Dec)
    requires InBounds(MaxTradeSize, DecValueOf(live))
    ensures var r, newest := FailureRule(trades, live), Window(trades);
            && (r.Some? <==> |DonePlaces(newest)| >= 5 && 2 * |BadPlaces(newest)| >= |DonePlaces(newest)| && DecValue(live) > 10.0)
            && (r.Some? ==>
                  RoundedAtLeast(DecValue(live) * 0.9, 10, DecValue(r.value.proposed)))
  {
    DoneCount(Window(trades));
    BadCount(Window(trades));
    TradeSizeAmount(live);
  }

  lemma TradeSizeAmount(live: Dec)
    requires InBounds(MaxTradeSize, DecValueOf(live))
    ensures var q := Quantized(Scaled(live, 9, 1)).coeff;
            var p := DecValue(Clamped(MaxTradeSize, Quantized(Scaled(live, 9, 1))));
            Nearest(q, DecValue(live) * 0.9) && p == (if q < 10 then 10.0 else q as real) && (p == DecValue(live) <==> DecValue(live) == 10.0)
  {
    var d := Scaled(live, 9, 1);
    PositiveUnsigned(live);
    ScaledValue(live, 9);
    QuantizedNear(d);
    ClampedValue(MaxTradeSize, Quantized(d));
    assert Quantized(d).coeff < 5000;
  }

  /** The profit rule proposes exactly when at least five trades fall short of the live threshold on average
      and it is below the ceiling; and then five more, but at most 100. */
  lemma ProfitRuleIff(edges: seq<real>, live: Dec)
    requires InBounds(TriangleMinNetBps, DecValueOf(live))
    ensures var r := ProfitRule(edges, live);
            && (r.Some? <==> |edges| >= 5 && Mean(edges) < DecValue(live) && DecValue(live) < 100.0)
            && (r.Some? ==> DecValue(r.value.proposed) == if DecValue(live) + 5.0 > 100.0 then 100.0 else DecValue(live) + 5.0)
  {
    PlusValue(live, 5);
    ClampedValue(TriangleMinNetBps, Plus(live, 5));
  }

  /** The trade size falls: from every value above the floor strictly, and at the floor nothing is proposed. */
  lemma TradeSizeFalls(trades: seq<Outcome>, live: Dec)
    requires InBounds(MaxTradeSize, DecValueOf(live))
    ensures var r := FailureRule(trades, live);
            && (r.Some? ==> DecValue(r.value.proposed) < DecValue(live) && InBounds(MaxTradeSize, DecValueOf(r.value.proposed)))
            && (DecValue(live) == 10.0 ==> r.None?)
  {
    var x, d := DecValue(live), Scaled(live, 9, 1);
    PositiveUnsigned(live);
    ScaledValue(live, 9);
    QuantizedNear(d);
    ClampedValue(MaxTradeSize, Quantized(d));
    assert DecValue(d) == x * 0.9;
  }

  /** The profit threshold rises strictly, and at the ceiling nothing is proposed. */
  lemma ProfitThresholdRises(edges: seq<real>, live: Dec)
    requires InBounds(TriangleMinNetBps, DecValueOf(live))
    ensures var r := ProfitRule(edges, live);
            && (r.Some? ==> DecValue(r.value.proposed) > DecValue(live) && InBounds(TriangleMinNetBps, DecValueOf(r.value.proposed)))
            && (DecValue(live) == 100.0 ==> r.None?)
  {
    PlusValue(live, 5);
    ClampedValue(TriangleMinNetBps, Plus(live, 5));
  }

  lemma PlusValue(d: Dec, n: nat)
    ensures DecValue(Plus(d, n)) == DecValue(d) + n as real
  {
    SignedValue(d);
    SignedValue(Plus(d, n));
    if d.exp >= 0 { PlusWhole(d, n); } else { PlusFraction(d, n); }
  }

  lemma PlusWhole(d: Dec, n: nat)
    requires d.exp >= 0
    ensures Signed(Plus(d, n)) as real * Pow10(Plus(d, n).exp) == Signed(d) as real * Pow10(d.exp) + n as real
  {
    PowUp(d.exp);
    assert Signed(Plus(d, n)) == Signed(d) * TenTo(d.exp) + n;
    assert (Signed(d) * TenTo(d.exp)) as real == Signed(d) as real * TenTo(d.exp) as real;
  }

  lemma PlusFraction(d: Dec, n: nat)
    requires d.exp < 0
    ensures Signed(Plus(d, n)) as real * Pow10(Plus(d, n).exp) == Signed(d) as real * Pow10(d.exp) + n as real
  {
    var t := TenTo(-d.exp);
    PowDown(-d.exp);
    assert Signed(Plus(d, n)) == Signed(d) + n * t;
    assert (n * t) as real == n as real * t as real;
    Distribute(Signed(d) as real, n as real, t as real, Pow10(d.exp));
  }

  lemma SignedValue(d: Dec)
    ensures DecValue(d) == Signed(d) as real * Pow10(d.exp)
  {
    var c := d.coeff as real;
    assert -1.0 * c == 0.0 - c && 1.0 * c == c;
    assert Signed(d) as real == if d.neg then 0.0 - c else c;
  }

  lemma Distribute(a: real, n: real, t: real, p: real)
    requires p * t == 1.0
    ensures (a + n * t) * p == a * p + n
  {
    assert (n * t) * p == n * (p * t);
  }

  /** Where a tightened slippage limit is in fact a higher one. */
  predicate SlippageRises(x: real) { 30.0 / 17.0 <= x < 2.0 || 50.0 / 17.0 < x < 3.0 }

  /** The slippage limit: exactly where the proposal rises, stays and falls. */
  lemma SlippageDirection(slips: seq<real>, live: Dec)
    requires InBounds(MaxSlippageBps, DecValueOf(live))
    ensures var r := SlippageRule(slips, live);
            r.Some? ==>
              (&& InBounds(MaxSlippageBps, DecValueOf(r.value.proposed))
               && (DecValue(r.value.proposed) > DecValue(live) <==> SlippageRises(DecValue(live)))
               && (DecValue(r.value.proposed) == DecValue(live) <==> DecValue(live) == 1.0 || DecValue(live) == 2.0 || DecValue(live) == 3.0))
  {
    var x, d := DecValue(live), Scaled(live, 85, 2);
    PositiveUnsigned(live);
    ScaledValue(live, 85);
    QuantizedNear(d);
    ClampedValue(MaxSlippageBps, Quantized(d));
    assert DecValue(d) == x * 0.85;
    SlippageCases(x, Quantized(d).coeff);
  }

  lemma SlippageCases(x: real, q: nat)
    requires 1.0 <= x <= 100.0 && Nearest(q, x * 0.85)
    ensures var p := if q as real >= 100.0 then 100.0 else if q as real <= 1.0 then 1.0 else q as real;
            (p > x <==> SlippageRises(x)) && (p == x <==> x == 1.0 || x == 2.0 || x == 3.0)
  {
    assert q < 100;
    if q >= 5 { assert q as real < x; }
  }

  /** An integer limit never rises, and strictly falls from 4 on. */
  lemma IntegerSlippage(slips: seq<real>, live: Dec, n: int)
    requires InBounds(MaxSlippageBps, DecValueOf(live)) && DecValue(live) == n as real
    ensures var r := SlippageRule(slips, live);
            r.Some? ==> DecValue(r.value.proposed) <= n as real && (n >= 4 ==> DecValue(r.value.proposed) < n as real)
  {
    SlippageDirection(slips, live);
    assert !SlippageRises(n as real);
  }

  // ------------------------------------------------------------------ approvable

  /** A candidate as the row that `_persist_candidate` writes. */
  function RowOf(c: Candidate): (row: Row) { Row(Name(c.param), PrintDec(c.proposed), Some(c.current), Pending, 1) }

  /** A proposal in bounds for the live value passes every check of `approve`. */
  lemma RowApproved(c: Candidate, rt: Runtime, live: Dec)
    requires KindOf(c.param).DecimalKind? && rt.settings[c.param] == DecValueOf(live) && c.current == PrintDec(live)
    requires InBounds(c.param, DecValueOf(c.proposed))
    ensures Validate(PYTHON, RowOf(c), rt, true) == Some(Validated(c.param, PrintDec(c.proposed), DecValueOf(c.proposed)))
    ensures Canonical(PYTHON, c.param, PrintDec(c.proposed))
  {
    ShownIsCanonical(c.param, DecValueOf(c.proposed));
    ShowRoundTrip(KindOf(c.param), DecValueOf(c.proposed));
    NameFixed(c.param);
    LookupFinds(c.param);
  }

  lemma NameFixed(p: Param)
    ensures Strip(Name(p)) == Name(p) && Name(p) != ""
  {
    StripFixed(Name(p));
  }

  /** Every recommendation the rules produce, for every history and every live value inside the
      allowlist, is approvable at once and prints back to itself. */
  lemma GeneratedAreApprovable(slips: seq<real>, trades: seq<Outcome>, edges: seq<real>, rt: Runtime, s: Dec, t: Dec, e: Dec)
    requires rt.settings[MaxSlippageBps] == DecValueOf(s) && InBounds(MaxSlippageBps, DecValueOf(s))
    requires rt.settings[MaxTradeSize] == DecValueOf(t) && InBounds(MaxTradeSize, DecValueOf(t))
    requires rt.settings[TriangleMinNetBps] == DecValueOf(e) && InBounds(TriangleMinNetBps, DecValueOf(e))
    ensures forall r :: r in {SlippageRule(slips, s), FailureRule(trades, t), ProfitRule(edges, e)} && r.Some? ==>
              && Validate(PYTHON, RowOf(r.value), rt, true) == Some(Validated(r.value.param, PrintDec(r.value.proposed), DecValueOf(r.value.proposed)))
              && Canonical(PYTHON, r.value.param, PrintDec(r.value.proposed)) && r.value.samples >= MIN_SAMPLE
  {
    SlippageDirection(slips, s);
    TradeSizeFalls(trades, t);
    ProfitThresholdRises(edges, e);
    if SlippageRule(slips, s).Some? { RowApproved(SlippageRule(slips, s).value, rt, s); }
    if FailureRule(trades, t).Some? { RowApproved(FailureRule(trades, t).value, rt, t); }
    if ProfitRule(edges, e).Some? { RowApproved(ProfitRule(edges, e).value, rt, e); }
  }
}
