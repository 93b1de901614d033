/**
 * The single-box pollutant model: a constant inflow S into a room of volume V,
 * removed at rate K, so that C(t) = (C0 - S/(K*V)) * e^(-K*t) + S/(K*V).
 * The defaults for S and K come from a per-pollutant preset plus a fixed
 * increment for every passage and every window.
 */
module Kinetics {

  /** The three pollutants of the settings screen, by their stored index, and any other index. */
  datatype Pollutant = FineDust | CarbonMonoxide | Chlorine | Unknown

  function PollutantOf(index: int): (p: Pollutant)
    ensures p == Unknown <==> !(0 <= index <= 2)
  {
    if index == 0 then FineDust
    else if index == 1 then CarbonMonoxide
    else if index == 2 then Chlorine
    else Unknown
  }

  /** An inflow rate S and a removal constant K. */
  datatype Rates = Rates(s: real, k: real)

  /** Presets for a sealed room (no passage, no window). */
  const BASE_S_PM10: real := 1.0
  const BASE_K_PM10: real := 0.005
  const BASE_S_CO: real := 5.0
  const BASE_K_CO: real := 0.002
  const BASE_S_CL2: real := 0.1
  const BASE_K_CL2: real := 0.05
  /** The preset used when the stored index names no known pollutant. */
  const BASE_S_UNKNOWN: real := 10.0
  const BASE_K_UNKNOWN: real := 0.1

  /** What every passage and every window adds to S and to K. */
  const S_ADJUST_PASSAGE: real := 5.0
  const K_ADJUST_PASSAGE: real := 0.02
  const S_ADJUST_WINDOW: real := 3.0
  const K_ADJUST_WINDOW: real := 0.05

  /** K is never allowed below this, so that S/(K*V) is defined. */
  const K_FLOOR: real := 0.0001
  /** The room volume is never allowed below this. */
  const VOLUME_FLOOR: real := 0.001

  /** The sealed-room rates for a pollutant: the switch over the stored index. */
  function BaseRates(p: Pollutant): (r: Rates)
    ensures r.s > 0.0 && r.k > K_FLOOR
  {
    match p
    case FineDust => Rates(BASE_S_PM10, BASE_K_PM10)
    case CarbonMonoxide => Rates(BASE_S_CO, BASE_K_CO)
    case Chlorine => Rates(BASE_S_CL2, BASE_K_CL2)
    case Unknown => Rates(BASE_S_UNKNOWN, BASE_K_UNKNOWN)
  }

  /** The switch over the stored index picks (1, 0.005), (5, 0.002), (0.1, 0.05) for 0, 1, 2 and (10, 0.1) otherwise. */
  lemma BaseRatesFollowPresets(index: int)
    ensures index == 0 ==> BaseRates(PollutantOf(index)) == Rates(1.0, 0.005)
    ensures index == 1 ==> BaseRates(PollutantOf(index)) == Rates(5.0, 0.002)
    ensures index == 2 ==> BaseRates(PollutantOf(index)) == Rates(0.1, 0.05)
    ensures !(0 <= index <= 2) ==> BaseRates(PollutantOf(index)) == Rates(10.0, 0.1)
  {
  }

  /** K raised to the floor when it is below it. */
  function FloorK(k: real): (r: real)
    ensures r >= K_FLOOR
    ensures k >= K_FLOOR ==> r == k
    ensures k < K_FLOOR ==> r == K_FLOOR
  {
    if k < K_FLOOR then K_FLOOR else k
  }

  /** What `count` openings of one kind add, at `increment` each. */
  function PerOpening(count: int, increment: real): real
  {
    count as real * increment
  }

  /** The default S and K for a pollutant index and the stored opening counts. */
  function DefaultRates(index: int, passages: int, windows: int): (r: Rates)
    ensures r.k >= K_FLOOR
  {
    var base := BaseRates(PollutantOf(index));
    Rates(base.s + PerOpening(passages, S_ADJUST_PASSAGE) + PerOpening(windows, S_ADJUST_WINDOW),
          FloorK(base.k + PerOpening(passages, K_ADJUST_PASSAGE) + PerOpening(windows, K_ADJUST_WINDOW)))
  }

  /** A sealed room gets exactly the pollutant's preset. */
  lemma SealedRoomRates(index: int)
    ensures DefaultRates(index, 0, 0) == BaseRates(PollutantOf(index))
  {
  }

  /** One more passage raises S by 5; one more window raises S by 3. */
  lemma OpeningRaisesInflow(index: int, passages: int, windows: int)
    ensures DefaultRates(index, passages + 1, windows).s == DefaultRates(index, passages, windows).s + S_ADJUST_PASSAGE
    ensures DefaultRates(index, passages, windows + 1).s == DefaultRates(index, passages, windows).s + S_ADJUST_WINDOW
  {
  }

  /**
   * With non-negative counts the floor never bites: K is the preset plus
   * 0.02 per passage and 0.05 per window.
   */
  lemma RemovalUnfloored(index: int, passages: nat, windows: nat)
    ensures DefaultRates(index, passages, windows).k
            == BaseRates(PollutantOf(index)).k + passages as real * K_ADJUST_PASSAGE + windows as real * K_ADJUST_WINDOW
  {
  }

  /** More openings never lower the removal constant. */
  lemma RemovalMonotone(index: int, p: int, w: int, p': int, w': int)
    requires p <= p' && w <= w'
    ensures DefaultRates(index, p, w).k <= DefaultRates(index, p', w').k
  {
  }

  /** The product of the three room dimensions. */
  function BoxVolume(width: real, depth: real, height: real): real
  {
    width * depth * height
  }

  /** The room volume: the product of the three dimensions, never below VOLUME_FLOOR. */
  function RoomVolume(width: real, depth: real, height: real): (v: real)
    ensures v >= VOLUME_FLOOR
    ensures BoxVolume(width, depth, height) >= VOLUME_FLOOR ==> v == BoxVolume(width, depth, height)
    ensures BoxVolume(width, depth, height) < VOLUME_FLOOR ==> v == VOLUME_FLOOR
  {
    var product := BoxVolume(width, depth, height);
    if product < VOLUME_FLOOR then VOLUME_FLOOR else product
  }

  /** What is assumed of the exponential: e^0 = 1, it is positive, and it is non-decreasing. */
  ghost predicate ExpLike(exp: real -> real)
  {
    && exp(0.0) == 1.0
    && (forall x :: exp(x) > 0.0)
    && (forall x, y :: x <= y ==> exp(x) <= exp(y))
    && (forall x :: x < 0.0 ==> exp(x) < 1.0)
  }

  /** The steady-state concentration S/(K*V) the room tends to. */
  function SteadyState(s: real, k: real, v: real): (c: real)
    requires k * v != 0.0
    ensures c * (k * v) == s
  {
    s / (k * v)
  }

  /** The start c0 weighted by the decay factor e, the steady state term by the rest. */
  function Blend(c0: real, term: real, e: real): real
  {
    (c0 - term) * e + term
  }

  /** The closed form before clamping. */
  function ClosedForm(c0: real, s: real, k: real, v: real, t: real, exp: real -> real): real
    requires k * v != 0.0
  {
    Blend(c0, SteadyState(s, k, v), exp(-k * t))
  }

  /** The concentration at time t: the closed form, clamped so that it is never negative. */
  function Concentration(c0: real, s: real, k: real, v: real, t: real, exp: real -> real): (c: real)
    requires k * v != 0.0
    ensures c >= 0.0
    ensures ClosedForm(c0, s, k, v, t, exp) >= 0.0 ==> c == ClosedForm(c0, s, k, v, t, exp)
    ensures ClosedForm(c0, s, k, v, t, exp) < 0.0 ==> c == 0.0
  {
    var c := ClosedForm(c0, s, k, v, t, exp);
    if c < 0.0 then 0.0 else c
  }

  /** At t = 0 the concentration is the initial one. */
  lemma ConcentrationAtStart(c0: real, s: real, k: real, v: real, exp: real -> real)
    requires k * v != 0.0 && exp(0.0) == 1.0 && c0 >= 0.0
    ensures Concentration(c0, s, k, v, 0.0, exp) == c0
  {
    assert -k * 0.0 == 0.0;
  }

  /** A room that starts at its steady state stays there. */
  lemma SteadyStateIsFixed(c0: real, s: real, k: real, v: real, t: real, exp: real -> real)
    requires k * v != 0.0 && c0 == SteadyState(s, k, v) && c0 >= 0.0
    ensures Concentration(c0, s, k, v, t, exp) == c0
  {
  }

  /** Without inflow the concentration only decays: C(t) = C0 * e^(-K*t). */
  lemma NoInflowDecays(c0: real, k: real, v: real, t: real, exp: real -> real)
    requires k * v != 0.0 && c0 >= 0.0 && exp(-k * t) > 0.0
    ensures Concentration(c0, 0.0, k, v, t, exp) == c0 * exp(-k * t)
  {
    assert SteadyState(0.0, k, v) == 0.0;
  }

  /** For K > 0 and 0 <= t1 <= t2, the decay factors are ordered: 0 < e^(-K*t2) <= e^(-K*t1) <= 1. */
  lemma DecayFactorsOrdered(k: real, t1: real, t2: real, exp: real -> real)
    requires k > 0.0 && 0.0 <= t1 <= t2 && ExpLike(exp)
    ensures 0.0 < exp(-k * t2) <= exp(-k * t1) <= 1.0
  {
    assert k * t1 <= k * t2;
    assert -k * t2 <= -k * t1 <= 0.0;
    assert exp(-k * t1) <= exp(0.0);
  }

  /** (c0 - term) * e + term lies between c0 and term when 0 < e <= 1. */
  lemma Interpolates(c0: real, term: real, e: real)
    requires 0.0 < e <= 1.0
    ensures var x := Blend(c0, term, e);
            (c0 <= term ==> c0 <= x <= term) && (term <= c0 ==> term <= x <= c0)
  {
    var d := c0 - term;
    assert d - d * e == d * (1.0 - e);
    if d >= 0.0 {
      assert d * (1.0 - e) >= 0.0 && d * e >= 0.0;
    } else {
      assert d * (1.0 - e) <= 0.0 && d * e <= 0.0;
    }
  }

  /** A smaller factor puts (c0 - term) * e + term closer to term. */
  lemma MovesToward(c0: real, term: real, e1: real, e2: real)
    requires 0.0 < e2 <= e1
    ensures var x1, x2 := Blend(c0, term, e1), Blend(c0, term, e2);
            (c0 <= term ==> x1 <= x2) && (term <= c0 ==> x2 <= x1)
  {
    var d := c0 - term;
    var x1, x2 := d * e1 + term, d * e2 + term;
    assert x1 - x2 == d * (e1 - e2);
    if d >= 0.0 {
      assert d * (e1 - e2) >= 0.0;
    } else {
      assert d * (e1 - e2) <= 0.0;
    }
  }

  /**
   * For t >= 0 and K > 0, from a non-negative start, the concentration lies
   * between the initial concentration and the steady state. A negative S (the
   * S box accepts a leading '-') makes the steady state negative; the clamp at
   * 0 then keeps the concentration between 0 and C0.
   */
  lemma ConcentrationBetween(c0: real, s: real, k: real, v: real, t: real, exp: real -> real)
    requires k > 0.0 && v > 0.0 && t >= 0.0 && ExpLike(exp)
    requires c0 >= 0.0
    ensures var c, term := Concentration(c0, s, k, v, t, exp), SteadyState(s, k, v);
            (c0 <= term ==> c0 <= c <= term) && (term <= c0 ==> term <= c <= c0)
  {
    assert k * v > 0.0;
    var term := SteadyState(s, k, v);
    DecayFactorsOrdered(k, t, t, exp);
    Interpolates(c0, term, exp(-k * t));
  }

  /**
   * With K > 0 and S >= 0, the concentration leaves C0 as soon as time has
   * passed, unless C0 already is the steady state.
   */
  lemma ConcentrationLeavesStart(c0: real, s: real, k: real, v: real, t: real, exp: real -> real)
    requires k > 0.0 && v > 0.0 && t > 0.0 && ExpLike(exp)
    requires c0 >= 0.0 && s >= 0.0
    requires c0 != SteadyState(s, k, v)
    ensures Concentration(c0, s, k, v, t, exp) != c0
  {
    assert k * v > 0.0;
    var term := SteadyState(s, k, v);
    assert term >= 0.0 by {
      assert term * (k * v) == s;
    }
    var e := exp(-k * t);
    assert -k * t < 0.0;
    assert 0.0 < e < 1.0;
    Interpolates(c0, term, e);
    assert Concentration(c0, s, k, v, t, exp) == Blend(c0, term, e);
    BlendMoves(c0, term, e);
  }

  /** With 0 < e < 1, (c0 - term) * e + term is not c0 unless c0 == term. */
  lemma BlendMoves(c0: real, term: real, e: real)
    requires 0.0 < e < 1.0 && c0 != term
    ensures Blend(c0, term, e) != c0
  {
    var d := c0 - term;
    NonZeroProduct(d, 1.0 - e);
    assert Blend(c0, term, e) == c0 - d * (1.0 - e);
  }

  lemma NonZeroProduct(a: real, b: real)
    requires a != 0.0 && b > 0.0
    ensures a * b != 0.0
  {
    if a > 0.0 {
      assert a * b > 0.0;
    } else {
      assert a * b < 0.0;
    }
  }

  /**
   * The concentration moves monotonically towards the steady state: at a later
   * time it is never farther from S/(K*V) than at an earlier one.
   */
  lemma ConcentrationApproaches(c0: real, s: real, k: real, v: real, t1: real, t2: real, exp: real -> real)
    requires k > 0.0 && v > 0.0 && 0.0 <= t1 <= t2 && ExpLike(exp)
    requires c0 >= 0.0
    ensures var term := SteadyState(s, k, v);
            var c1, c2 := Concentration(c0, s, k, v, t1, exp), Concentration(c0, s, k, v, t2, exp);
            (c0 <= term ==> c1 <= c2) && (term <= c0 ==> c2 <= c1)
  {
    assert k * v > 0.0;
    var term := SteadyState(s, k, v);
    DecayFactorsOrdered(k, t1, t2, exp);
    Interpolates(c0, term, exp(-k * t1));
    Interpolates(c0, term, exp(-k * t2));
    MovesToward(c0, term, exp(-k * t1), exp(-k * t2));
  }
}
