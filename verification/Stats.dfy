/** Loss windows and quality scores of src/stats.c, over the reals. */
module Stats {
  import opened History

  const WORD: nat := 0x1_0000_0000

  // ---------------------------------------------------------------------
  // The E-model
  // ---------------------------------------------------------------------

  datatype Codec = Codec(ie: real, bpl: real, wide: bool)

  /** What every entry of the codec table satisfies. */
  predicate Plausible(cp: Codec) {
    0.0 <= cp.ie <= 95.0 && cp.bpl > 0.0
  }

  datatype Quality = Quality(lq: real, cq: real, q: real)

  /** R on the 0..100 scale of the polynomial. */
  function Normalised(R: real, wide: bool): real {
    if wide then R * 100.0 / 129.0 else R
  }

  function Cubic(r: real): real {
    1.0 + 0.035 * r + 0.000007 * (r * (r - 60.0) * (100.0 - r))
  }

  function Mos(r: real): real {
    if r <= 0.0 then 1.0 else if r >= 100.0 then 4.5 else Cubic(r)
  }

  function RToMos(R: real, wide: bool): real {
    Mos(Normalised(R, wide))
  }

  /** Ie-eff of ITU-T G.107. */
  function Impairment(loss: real, cp: Codec): real
    requires loss >= 0.0 && cp.bpl > 0.0
  {
    cp.ie + (95.0 - cp.ie) * loss / (loss + cp.bpl)
  }

  function ListeningR(loss: real, cp: Codec): real
    requires loss >= 0.0 && cp.bpl > 0.0
  {
    (if cp.wide then 129.0 else 93.2) - Impairment(loss, cp)
  }

  function DelayImpairment(ta: real): (id: real)
    ensures id >= 0.0
  {
    var id := 0.024 * ta + if ta > 177.3 then 0.11 * (ta - 177.3) else 0.0;
    if id < 0.0 then 0.0 else id
  }

  function EModel(loss: real, jb: real, rtt: real, cp: Codec): Quality
    requires loss >= 0.0 && cp.bpl > 0.0
  {
    var R := ListeningR(loss, cp);
    Quality(RToMos(R, cp.wide), RToMos(R - DelayImpairment(rtt * 0.5 + jb), cp.wide), R)
  }

  function Clamp(m: real): real {
    if m < 1.0 then 1.0 else if m > 4.5 then 4.5 else m
  }

  function Simplified(loss: real, jitter: real, rtt: real): Quality {
    var lq := 4.5 - 0.09 * loss - 0.0009 * jitter;
    Quality(Clamp(lq), Clamp(lq - 0.0005 * rtt), Clamp(lq))
  }

  /** The chord slope of the cubic, scaled. */
  function Slope(a: real, b: real): real {
    160.0 * (a + b) - (a * a + a * b + b * b) - 1000.0
  }

  lemma CubicChord(a: real, b: real)
    ensures Cubic(b) - Cubic(a) == 0.000007 * ((b - a) * Slope(a, b))
  {
    CubicExpanded(a);
    CubicExpanded(b);
    assert (b - a) * Slope(a, b) == 160.0 * (b * b - a * a) - (b * b * b - a * a * a) - 1000.0 * (b - a);
  }

  lemma CubicExpanded(r: real)
    ensures Cubic(r) == 1.0 + 0.000007 * (160.0 * (r * r) - r * r * r - 1000.0 * r)
  {
    assert r * (r - 60.0) * (100.0 - r) == 160.0 * (r * r) - r * r * r - 6000.0 * r;
  }

  /** In b the chord is concave, so its ends decide; there the same holds in a. */
  lemma ChordRises(a: real, b: real)
    requires 4.0 <= a <= b <= 100.0
    ensures Slope(a, b) > 0.0
  {
    hide Slope;
    ChordEnds(a);
    Interpolated(a, b);
    Mixed(Slope(a, b), b - 4.0, 100.0 - b, Slope(a, 4.0), Slope(a, 100.0));
  }

  lemma ChordEnds(a: real)
    requires 4.0 <= a <= 100.0
    ensures Slope(a, 4.0) > 0.0 && Slope(a, 100.0) > 0.0
  {
    Product(a - 4.0, 100.0 - a);
  }

  lemma Interpolated(a: real, b: real)
    ensures 96.0 * Slope(a, b)
         == 96.0 * ((b - 4.0) * (100.0 - b)) + (100.0 - b) * Slope(a, 4.0) + (b - 4.0) * Slope(a, 100.0)
  {
  }

  lemma Mixed(s: real, u: real, v: real, x: real, y: real)
    requires 96.0 * s == 96.0 * (u * v) + v * x + u * y
    requires u >= 0.0 && v >= 0.0 && x > 0.0 && y > 0.0 && u + v > 0.0
    ensures s > 0.0
  {
    Product(u, v);
    Product(v, x);
    Product(u, y);
  }

  lemma Product(x: real, y: real)
    requires x >= 0.0 && y >= 0.0
    ensures x * y >= 0.0 && (x > 0.0 && y > 0.0 ==> x * y > 0.0)
  {
  }

  /** The score leaves the documented range exactly on the dip at the bottom of
    the scale. */
  lemma BelowOneExactly(r: real)
    ensures Mos(r) < 1.0 <==> 0.0 < r && r * (160.0 - r) < 1000.0 && r < 100.0
    ensures 0.0 < r < 6.5 ==> Mos(r) < 1.0
  {
    if 0.0 < r < 100.0 {
      CubicExpanded(r);
      var x := r * (160.0 - r) - 1000.0;
      assert 160.0 * (r * r) - r * r * r - 1000.0 * r == r * x;
      if x < 0.0 { assert r * x < 0.0; } else { assert r * x >= 0.0; }
      if r < 6.5 {
        assert r * (160.0 - r) == 1000.0 - ((6.5 - r) * (153.5 - r) + 2.25);
        assert (6.5 - r) * (153.5 - r) > 0.0;
      }
    }
  }

  /** Above the dip the score rises with R. */
  lemma MosRises(a: real, b: real)
    requires 4.0 <= a <= b
    ensures Mos(a) <= Mos(b) <= 4.5
  {
    hide Cubic;
    if a < 100.0 {
      var top := if b < 100.0 then b else 100.0;
      CubicRises(a, top);
      CubicRises(top, 100.0);
      CubicTop();
    }
  }

  lemma CubicTop()
    ensures Cubic(100.0) == 4.5
  {
  }

  lemma CubicRises(a: real, b: real)
    requires 4.0 <= a <= b <= 100.0
    ensures Cubic(a) <= Cubic(b)
  {
    hide Cubic, Slope;
    ChordRises(a, b);
    CubicChord(a, b);
    Product(b - a, Slope(a, b));
  }

  /** Every score is positive and at most 4.5. */
  lemma MosRange(r: real)
    ensures 0.9 < Mos(r) <= 4.5
  {
    if r >= 4.0 {
      MosRises(4.0, r);
      CubicExpanded(4.0);
    } else if r > 0.0 {
      BelowOneExactly(r);
      CubicExpanded(r);
      assert r * r <= 4.0 * r;
      assert 0.0 <= r * r;
      assert r * r * r <= 4.0 * (r * r) by { assert (4.0 - r) * (r * r) >= 0.0; }
    }
  }

  /** A lower R scores no better than a higher one whose own score is at least
    one. */
  lemma LowerScoresLower(a: real, b: real)
    requires a <= b && Mos(b) >= 1.0
    ensures Mos(a) <= Mos(b)
  {
    if a >= 4.0 {
      MosRises(a, b);
    } else if a > 0.0 {
      BelowOneExactly(a);
    }
  }

  lemma NormalisedScales(x: real, y: real, wide: bool)
    requires x <= y
    ensures Normalised(x, wide) <= Normalised(y, wide)
  {
  }

  /** Off the dip of the cubic, where the score is at least one. */
  predicate OffTheDip(r: real) {
    r <= 0.0 || r * (160.0 - r) >= 1000.0 || r >= 100.0
  }

  lemma DelayGrows(ta: real)
    requires ta >= 0.0
    ensures DelayImpairment(ta) >= 0.024 * ta
  {
  }

  /** A listening R on the dip: enough delay drives R below zero, and the score
    up to one. */
  lemma DelayLeavesTheDip(loss: real, cp: Codec)
    requires loss >= 0.0 && cp.bpl > 0.0 && !OffTheDip(Normalised(ListeningR(loss, cp), cp.wide))
    ensures exists jb: real :: jb >= 0.0 && EModel(loss, jb, 0.0, cp).cq > EModel(loss, jb, 0.0, cp).lq
  {
    hide Mos, DelayImpairment, ListeningR;
    var R := ListeningR(loss, cp);
    BelowOneExactly(Normalised(R, cp.wide));
    assert R > 0.0;
    var jb := R / 0.024;
    DelayGrows(jb);
    assert 0.024 * jb == R;
    assert 0.0 * 0.5 + jb == jb;
    AtMostZero(R - DelayImpairment(jb), cp.wide);
    assert EModel(loss, jb, 0.0, cp).cq == 1.0 && EModel(loss, jb, 0.0, cp).lq < 1.0;
  }

  lemma AtMostZero(R: real, wide: bool)
    requires R <= 0.0
    ensures RToMos(R, wide) == 1.0
  {
  }

  lemma DelayNeverHelps(loss: real, jb: real, rtt: real, cp: Codec)
    requires loss >= 0.0 && cp.bpl > 0.0 && OffTheDip(Normalised(ListeningR(loss, cp), cp.wide))
    ensures EModel(loss, jb, rtt, cp).cq <= EModel(loss, jb, rtt, cp).lq
  {
    hide Mos, ListeningR;
    var R := ListeningR(loss, cp);
    var low := R - DelayImpairment(rtt * 0.5 + jb);
    BelowOneExactly(Normalised(R, cp.wide));
    NormalisedScales(low, R, cp.wide);
    LowerScoresLower(Normalised(low, cp.wide), Normalised(R, cp.wide));
  }

  /** For given loss and codec, no buffer depth and no round trip makes
    conversational quality exceed listening quality if and only if the normalised
    listening R is off the dip. */
  lemma {:induction false} DelayNeverHelpsExactly(loss: real, cp: Codec)
    requires loss >= 0.0 && cp.bpl > 0.0
    ensures (forall jb: real, rtt: real :: jb >= 0.0 && rtt >= 0.0 ==>
               EModel(loss, jb, rtt, cp).cq <= EModel(loss, jb, rtt, cp).lq)
            <==> OffTheDip(Normalised(ListeningR(loss, cp), cp.wide))
  {
    hide EModel, ListeningR, OffTheDip;
    if OffTheDip(Normalised(ListeningR(loss, cp), cp.wide)) {
      forall jb: real, rtt: real ensures EModel(loss, jb, rtt, cp).cq <= EModel(loss, jb, rtt, cp).lq {
        DelayNeverHelps(loss, jb, rtt, cp);
      }
    } else {
      DelayLeavesTheDip(loss, cp);
    }
  }

  /** Wherever the conversational R stays at 4 or above, or the listening score is
    at least one, CQ <= LQ <= 4.5. */
  lemma {:induction false} ConversationBelowListening(loss: real, jb: real, rtt: real, cp: Codec)
    requires loss >= 0.0 && cp.bpl > 0.0
    requires var R := ListeningR(loss, cp);
             || OffTheDip(Normalised(R, cp.wide))
             || Normalised(R - DelayImpairment(rtt * 0.5 + jb), cp.wide) >= 4.0
    ensures EModel(loss, jb, rtt, cp).cq <= EModel(loss, jb, rtt, cp).lq <= 4.5
  {
    hide Mos, ListeningR;
    var R := ListeningR(loss, cp);
    var low := R - DelayImpairment(rtt * 0.5 + jb);
    NormalisedScales(low, R, cp.wide);
    MosRange(Normalised(R, cp.wide));
    if Normalised(low, cp.wide) >= 4.0 {
      MosRises(Normalised(low, cp.wide), Normalised(R, cp.wide));
    } else {
      DelayNeverHelps(loss, jb, rtt, cp);
    }
  }

  /** The header promises CQ <= LQ without condition; a G.711 call that loses
    everything, with 100 ms of buffer, breaks it. */
  lemma ConversationCanExceedListening()
    ensures var m := EModel(100.0, 100.0, 0.0, Codec(0.0, 4.3, false)); m.cq > m.lq && m.lq < 1.0
  {
    var cp := Codec(0.0, 4.3, false);
    var R := ListeningR(100.0, cp);
    assert 2.0 < R < 2.2;
    BelowOneExactly(R);
  }

  lemma ImpairmentGrows(low: real, high: real, cp: Codec)
    requires 0.0 <= low <= high && Plausible(cp)
    ensures Impairment(low, cp) <= Impairment(high, cp) <= 95.0
  {
    Share(low, high, cp.bpl);
    var (x, y) := (low / (low + cp.bpl), high / (high + cp.bpl));
    var k := 95.0 - cp.ie;
    Factored(k, low, low + cp.bpl);
    Factored(k, high, high + cp.bpl);
    Product(k, y - x);
    Product(k, 1.0 - y);
    assert k * (y - x) == k * y - k * x && k * (1.0 - y) == k - k * y;
  }

  lemma Factored(k: real, x: real, d: real)
    requires d > 0.0
    ensures k * x / d == k * (x / d)
  {
    Scaled(x / d * d, x, k);
  }

  lemma Share(low: real, high: real, bpl: real)
    requires 0.0 <= low <= high && bpl > 0.0
    ensures low / (low + bpl) <= high / (high + bpl) <= 1.0
  {
    Product(high - low, bpl);
    assert low * (high + bpl) <= high * (low + bpl);
    Quotients(low, low + bpl, high, high + bpl);
    Quotients(high, high + bpl, 1.0, 1.0);
  }

  /** Fractions compare like their cross products. */
  lemma Quotients(a: real, b: real, c: real, d: real)
    requires b > 0.0 && d > 0.0 && a * d <= c * b
    ensures a / b <= c / d
  {
    var x, y := a / b, c / d;
    assert x * b == a && y * d == c;
    if x > y {
      Cross(x, b, y, d);
      Scaled(x * b, a, d);
      Scaled(y * d, c, b);
      assert false;
    }
  }

  lemma Cross(x: real, b: real, y: real, d: real)
    requires x > y && b > 0.0 && d > 0.0
    ensures x * b * d > y * d * b
  {
    Product(b, d);
    Product(x - y, b * d);
    assert (x - y) * (b * d) == x * b * d - y * d * b;
  }

  lemma Scaled(x: real, y: real, k: real)
    requires x == y
    ensures x * k == y * k
  {
  }

  /** The E-model at its anchors: no loss costs the codec's own impairment, a loss of
    Bpl half of what is left to 95; a delay costs 0.024 per millisecond and, beyond
    177.3 ms, 0.11 more; without either, narrowband R is 93.2 and wideband 129. */
  lemma {:induction false} Anchors(cp: Codec, ta: real)
    requires cp.bpl > 0.0
    ensures Impairment(0.0, cp) == cp.ie && Impairment(cp.bpl, cp) == 0.5 * cp.ie + 47.5
    ensures ListeningR(0.0, cp) == (if cp.wide then 129.0 else 93.2) - cp.ie
    ensures 0.0 <= ta <= 177.3 ==> DelayImpairment(ta) == 0.024 * ta
    ensures ta >= 177.3 ==> DelayImpairment(ta) == 0.134 * ta - 19.503
    ensures ta < 0.0 ==> DelayImpairment(ta) == 0.0
    ensures RToMos(100.0, false) == 4.5 && RToMos(129.0, true) == 4.5 && RToMos(0.0, cp.wide) == 1.0
    ensures RToMos(60.0, false) == 3.1 && RToMos(50.0, false) == 2.575
  {
    assert (95.0 - cp.ie) * 0.0 / (0.0 + cp.bpl) == 0.0;
    Half(cp.bpl, cp);
  }

  lemma Half(loss: real, cp: Codec)
    requires cp.bpl > 0.0 && loss == cp.bpl
    ensures Impairment(loss, cp) == 0.5 * cp.ie + 47.5
  {
    var k, d := 95.0 - cp.ie, loss + cp.bpl;
    Factored(k, loss, d);
    Quotients(loss, d, 0.5, 1.0);
    Quotients(0.5, 1.0, loss, d);
    Scaled(loss / d, 0.5, k);
    assert Impairment(loss, cp) == cp.ie + k * (loss / d);
  }

  /** The simplified score: 4.5 less 0.09 per percent of loss and 0.0009 per
    millisecond of jitter, and for conversation 0.0005 per millisecond of round
    trip, between 1 and 4.5; conversation is never above listening. */
  lemma {:induction false} SimplifiedIs(loss: real, jitter: real, rtt: real)
    requires rtt >= 0.0
    ensures var m := Simplified(loss, jitter, rtt);
            var lq := 4.5 - 0.09 * loss - 0.0009 * jitter;
            && 1.0 <= m.cq <= m.lq <= 4.5 && m.q == m.lq
            && (1.0 <= lq <= 4.5 ==> m.lq == lq)
            && (1.0 <= lq - 0.0005 * rtt <= 4.5 ==> m.cq == lq - 0.0005 * rtt)
            && (lq <= 1.0 ==> m.lq == 1.0) && (lq >= 4.5 ==> m.lq == 4.5)
  {
  }

  /** More loss never raises a listening score, wherever it leaves R at 4 or above
    or R was off the dip before; in wideband always. */
  lemma {:induction false} LossNeverHelps(low: real, high: real, cp: Codec)
    requires 0.0 <= low <= high && Plausible(cp)
    requires cp.wide || OffTheDip(ListeningR(low, cp)) || ListeningR(high, cp) >= 4.0
    ensures RToMos(ListeningR(high, cp), cp.wide) <= RToMos(ListeningR(low, cp), cp.wide)
  {
    hide Mos;
    ImpairmentGrows(low, high, cp);
    ImpairmentGrows(low, low, cp);
    NormalisedScales(ListeningR(high, cp), ListeningR(low, cp), cp.wide);
    if cp.wide || ListeningR(high, cp) >= 4.0 {
      MosRises(Normalised(ListeningR(high, cp), cp.wide), Normalised(ListeningR(low, cp), cp.wide));
    } else {
      BelowOneExactly(ListeningR(low, cp));
      LowerScoresLower(Normalised(ListeningR(high, cp), false), Normalised(ListeningR(low, cp), false));
    }
  }

  // ---------------------------------------------------------------------
  // Poll windows
  // ---------------------------------------------------------------------

  /** The cumulative RTCP and jitter buffer counters of one poll; the lost counts
    are signed. */
  datatype Counters = Counters(txSent: nat, txLost: int, rxRecv: nat, rxLost: int, jbDiscard: nat, jbGet: nat)

  const ZERO := Counters(0, 0, 0, 0, 0, 0)

  /** What a poll measures besides the counters. */
  datatype Path = Path(codec: Codec, rtt: real, jitter: real, txJitter: real, jb: real, emodel: bool)

  datatype Report = Report(lossTx: real, lossRx: real, effective: real, tx: Quality, rx: Quality)

  /** counter_delta and counter_delta_i: a counter that went back counts nothing. */
  function Delta(now: int, prev: int): nat {
    if now >= prev then now - prev else 0
  }

  /** `part` of `whole` in percent. */
  function Percent(part: nat, whole: nat): real {
    if whole > 0 then part as real * 100.0 / whole as real else 0.0
  }

  function LossTx(c: Counters, prev: Counters): real {
    var sent, lost := Delta(c.txSent, prev.txSent), Delta(c.txLost, prev.txLost);
    Percent(if lost > sent then sent else lost, sent)
  }

  /** The sum of received and lost is a 32-bit sum. */
  function LossRx(c: Counters, prev: Counters): real {
    var recv, lost := Delta(c.rxRecv, prev.rxRecv), Delta(c.rxLost, prev.rxLost);
    Percent(lost, (recv + lost) % WORD)
  }

  function Discards(c: Counters, prev: Counters): real {
    var disc, got := Delta(c.jbDiscard, prev.jbDiscard), Delta(c.jbGet, prev.jbGet);
    Percent(disc, (disc + got) % WORD)
  }

  function Capped(x: real): real {
    if x > 100.0 then 100.0 else x
  }

  lemma PercentRange(part: nat, whole: nat)
    ensures Percent(part, whole) >= 0.0
    ensures whole > 0 ==> (Percent(part, whole) <= 100.0 <==> part <= whole)
  {
    if whole > 0 {
      var (p, w) := (part as real, whole as real);
      Quotients(0.0, 1.0, p * 100.0, w);
      if part <= whole {
        Quotients(p * 100.0, w, 100.0, 1.0);
      } else {
        var x := p * 100.0 / w;
        assert x * w == p * 100.0;
        if x <= 100.0 {
          Product(100.0 - x, w);
          assert false;
        }
      }
    }
  }

  /** The sending loss rate is always a percentage; the receiving one is, unless
    the 32-bit sum of a window's received and lost packets wraps past zero. */
  lemma LossRatesArePercentages(c: Counters, prev: Counters)
    requires Delta(c.rxRecv, prev.rxRecv) < WORD && Delta(c.rxLost, prev.rxLost) < WORD
    ensures 0.0 <= LossTx(c, prev) <= 100.0
    ensures 0.0 <= LossRx(c, prev)
    ensures LossRx(c, prev) <= 100.0 <==> Delta(c.rxRecv, prev.rxRecv) + Delta(c.rxLost, prev.rxLost) <= WORD
  {
    var sent, lost := Delta(c.txSent, prev.txSent), Delta(c.txLost, prev.txLost);
    PercentRange(if lost > sent then sent else lost, sent);
    var (r, l) := (Delta(c.rxRecv, prev.rxRecv), Delta(c.rxLost, prev.rxLost));
    PercentRange(l, (r + l) % WORD);
    if r + l < WORD {
      assert (r + l) % WORD == r + l;
    } else {
      assert (r + l) % WORD == r + l - WORD;
    }
  }

  function Score(loss: real, jitter: real, jb: real, p: Path): Quality
    requires loss >= 0.0 && p.codec.bpl > 0.0
  {
    if p.emodel then EModel(loss, jb, p.rtt, p.codec) else Simplified(loss, jitter, p.rtt)
  }

  lemma RatesNonNegative(c: Counters, prev: Counters)
    ensures LossTx(c, prev) >= 0.0 && LossRx(c, prev) >= 0.0 && Discards(c, prev) >= 0.0
  {
    var sent, lost := Delta(c.txSent, prev.txSent), Delta(c.txLost, prev.txLost);
    PercentRange(if lost > sent then sent else lost, sent);
    PercentRange(Delta(c.rxLost, prev.rxLost), (Delta(c.rxRecv, prev.rxRecv) + Delta(c.rxLost, prev.rxLost)) % WORD);
    PercentRange(Delta(c.jbDiscard, prev.jbDiscard), (Delta(c.jbDiscard, prev.jbDiscard) + Delta(c.jbGet, prev.jbGet)) % WORD);
  }

  /** The measuring part of fill_audio_stats. */
  function Measure(prev: Counters, c: Counters, p: Path): Report
    requires p.codec.bpl > 0.0
  {
    RatesNonNegative(c, prev);
    var eff := Capped(LossRx(c, prev) + Discards(c, prev));
    Report(LossTx(c, prev), LossRx(c, prev), eff,
           Score(LossTx(c, prev), p.txJitter, 2.0 * p.txJitter, p),
           Score(eff, p.jitter, p.jb, p))
  }

  /** Each direction is described by its own counters, and scored from its own loss
    and jitter: what differs in the other does not show. */
  lemma {:induction false} DirectionsAreApart(prev: Counters, c: Counters, p: Path, d: Counters, q: Path)
    requires p.codec.bpl > 0.0 && q.codec == p.codec && q.rtt == p.rtt && q.emodel == p.emodel
    ensures d.txSent == c.txSent && d.txLost == c.txLost && q.txJitter == p.txJitter ==>
              Measure(prev, d, q).lossTx == Measure(prev, c, p).lossTx && Measure(prev, d, q).tx == Measure(prev, c, p).tx
    ensures d == c.(txSent := d.txSent, txLost := d.txLost) && q.jitter == p.jitter && q.jb == p.jb ==>
              && Measure(prev, d, q).lossRx == Measure(prev, c, p).lossRx
              && Measure(prev, d, q).effective == Measure(prev, c, p).effective
              && Measure(prev, d, q).rx == Measure(prev, c, p).rx
  {
    hide EModel, Simplified, Percent, Delta;
  }

  /** The ends of the scales: nothing lost is 0, as many lost as sent, or nothing
    but losses received, is 100; and the two halves of a receiving window count
    alike. */
  lemma {:induction false} LossEnds(prev: Counters, c: Counters)
    ensures c.txLost <= prev.txLost ==> LossTx(c, prev) == 0.0
    ensures c.txLost - prev.txLost >= c.txSent - prev.txSent > 0 ==> LossTx(c, prev) == 100.0
    ensures c.rxLost <= prev.rxLost ==> LossRx(c, prev) == 0.0
    ensures c.rxRecv <= prev.rxRecv && 0 < c.rxLost - prev.rxLost < WORD ==> LossRx(c, prev) == 100.0
    ensures 0 < c.rxRecv - prev.rxRecv == c.rxLost - prev.rxLost < WORD / 2 ==> LossRx(c, prev) == 50.0
    ensures c.jbDiscard <= prev.jbDiscard ==> Discards(c, prev) == 0.0
    ensures c.jbGet <= prev.jbGet && 0 < c.jbDiscard - prev.jbDiscard < WORD ==> Discards(c, prev) == 100.0
  {
    Whole(Delta(c.txSent, prev.txSent));
    Whole(Delta(c.rxLost, prev.rxLost));
    Whole(Delta(c.jbDiscard, prev.jbDiscard));
    var (recv, lost) := (Delta(c.rxRecv, prev.rxRecv), Delta(c.rxLost, prev.rxLost));
    var (disc, got) := (Delta(c.jbDiscard, prev.jbDiscard), Delta(c.jbGet, prev.jbGet));
    NoWrap(recv + lost);
    NoWrap(disc + got);
    assert recv == 0 && 0 < lost < WORD ==> Percent(lost, (recv + lost) % WORD) == Percent(lost, lost);
    assert got == 0 && 0 < disc < WORD ==> Percent(disc, (disc + got) % WORD) == Percent(disc, disc);
  }

  lemma NoWrap(n: nat)
    ensures n < WORD ==> n % WORD == n
  {
  }

  lemma Whole(n: nat)
    ensures n > 0 ==> Percent(n, n) == 100.0 && Percent(n, n + n) == 50.0
    ensures forall w: nat :: Percent(0, w) == 0.0
  {
    if n > 0 {
      var x := n as real;
      assert x * 100.0 / x == 100.0 by { Quotients(x * 100.0, x, 100.0, 1.0); Quotients(100.0, 1.0, x * 100.0, x); }
      var y := (n + n) as real;
      assert y == x + x;
      assert x * 100.0 / y == 50.0 by { Quotients(x * 100.0, y, 50.0, 1.0); Quotients(50.0, 1.0, x * 100.0, y); }
    }
  }

  /** The scores of a tick: the sending side from its loss, twice its jitter for the
    peer's buffer and the round trip; the receiving side from network loss and
    buffer discards together, and the buffer's own depth. */
  lemma {:induction false} ScoresAre(prev: Counters, c: Counters, p: Path)
    requires p.codec.bpl > 0.0 && p.emodel
    ensures var m := Measure(prev, c, p);
            && m.lossTx >= 0.0 && m.effective >= 0.0
            && m.tx == EModel(m.lossTx, 2.0 * p.txJitter, p.rtt, p.codec)
            && m.rx == EModel(m.effective, p.jb, p.rtt, p.codec)
            && m.effective == if LossRx(c, prev) + Discards(c, prev) > 100.0 then 100.0 else LossRx(c, prev) + Discards(c, prev)
  {
    hide EModel, Percent;
    RatesNonNegative(c, prev);
  }

  /** A call's window and its session sums; `lowest` is zero before any tick. */
  datatype Window = Window(prev: Counters, sum: real, ticks: nat, lowest: real)

  const OPENED := Window(ZERO, 0.0, 0, 0.0)

  datatype Poll = Poll(counters: Counters, path: Path, advance: bool)

  function Advance(w: Window, poll: Poll): Window
    requires poll.path.codec.bpl > 0.0
  {
    var tx := Measure(w.prev, poll.counters, poll.path).tx;
    Window(poll.counters, w.sum + tx.q, w.ticks + 1, if w.lowest == 0.0 || tx.lq < w.lowest then tx.lq else w.lowest)
  }

  function Polled(w: Window, poll: Poll): Window
    requires poll.path.codec.bpl > 0.0
  {
    if poll.advance then Advance(w, poll) else w
  }

  predicate Sane(polls: Log<Poll>) {
    match polls
    case Empty => true
    case Then(past, poll) => Sane(past) && poll.path.codec.bpl > 0.0
  }

  function After(polls: Log<Poll>): Window
    requires Sane(polls)
  {
    match polls
    case Empty => OPENED
    case Then(past, poll) => Polled(After(past), poll)
  }

  /** The polls of the statistics tick alone, the getters' erased. */
  function Ticks(polls: Log<Poll>): Log<Poll> {
    match polls
    case Empty => Empty
    case Then(past, poll) => if poll.advance then Then(Ticks(past), poll) else Ticks(past)
  }

  /** Getter calls, however many and wherever they fall, change no later tick. */
  lemma {:induction false} GettersAreInvisible(polls: Log<Poll>)
    requires Sane(polls)
    ensures Sane(Ticks(polls)) && After(polls) == After(Ticks(polls))
  {
    match polls
    case Empty =>
    case Then(past, poll) => GettersAreInvisible(past);
  }

  /** What the ticks reported for one counter, added up. */
  function Reported(polls: Log<Poll>, f: Counters -> int): nat
    requires Sane(polls)
  {
    match polls
    case Empty => 0
    case Then(past, poll) =>
      Reported(past, f) + if poll.advance then Delta(f(poll.counters), f(After(past).prev)) else 0
  }

  /** The counter never went back from one tick to the next. */
  predicate NeverBack(polls: Log<Poll>, f: Counters -> int)
    requires Sane(polls)
  {
    match polls
    case Empty => true
    case Then(past, poll) =>
      NeverBack(past, f) && (poll.advance ==> f(poll.counters) >= f(After(past).prev))
  }

  /** The windows add up to the cumulative counter if and only if it never went
    back; otherwise they add up to more. */
  lemma {:induction false} WindowsTelescope(polls: Log<Poll>, f: Counters -> int)
    requires Sane(polls)
    ensures Reported(polls, f) >= f(After(polls).prev) - f(ZERO)
    ensures Reported(polls, f) == f(After(polls).prev) - f(ZERO) <==> NeverBack(polls, f)
  {
    match polls
    case Empty =>
    case Then(past, poll) => WindowsTelescope(past, f);
  }

  lemma ScoresArePositive(loss: real, jitter: real, jb: real, p: Path)
    requires loss >= 0.0 && p.codec.bpl > 0.0
    ensures 0.0 < Score(loss, jitter, jb, p).lq <= 4.5
  {
    hide Mos;
    MosRange(Normalised(ListeningR(loss, p.codec), p.codec.wide));
  }

  /** The transmit score of a tick. */
  function TickLq(past: Log<Poll>, poll: Poll): real
    requires Sane(past) && poll.path.codec.bpl > 0.0
  {
    Measure(After(past).prev, poll.counters, poll.path).tx.lq
  }

  /** Some tick scored exactly `m`. */
  predicate Attained(polls: Log<Poll>, m: real)
    requires Sane(polls)
  {
    match polls
    case Empty => false
    case Then(past, poll) => Attained(past, m) || (poll.advance && TickLq(past, poll) == m)
  }

  /** No tick scored below `m`. */
  predicate NoneBelow(polls: Log<Poll>, m: real)
    requires Sane(polls)
  {
    match polls
    case Empty => true
    case Then(past, poll) => NoneBelow(past, m) && (poll.advance ==> TickLq(past, poll) >= m)
  }

  lemma {:induction false} LowestBoundsAll(polls: Log<Poll>, m: real, x: real)
    requires Sane(polls) && x <= m && NoneBelow(polls, m)
    ensures NoneBelow(polls, x)
  {
    match polls
    case Empty =>
    case Then(past, poll) => LowestBoundsAll(past, m, x);
  }

  /** ZERO as "no score yet" is never mistaken for one: after any tick the session
    minimum is the lowest transmit score, and it is positive. */
  lemma {:induction false} MinimumIsLowest(polls: Log<Poll>)
    requires Sane(polls)
    ensures After(polls).ticks == 0 ==> After(polls).lowest == 0.0
    ensures After(polls).ticks > 0 ==>
              && 0.0 < After(polls).lowest && NoneBelow(polls, After(polls).lowest)
              && Attained(polls, After(polls).lowest)
    ensures After(polls).ticks == 0 ==> forall m :: NoneBelow(polls, m)
  {
    hide Score, LossTx, LossRx, Discards;
    match polls
    case Empty =>
    case Then(past, poll) =>
      MinimumIsLowest(past);
      if poll.advance {
        var lq := TickLq(past, poll);
        RatesNonNegative(poll.counters, After(past).prev);
        ScoresArePositive(LossTx(poll.counters, After(past).prev), poll.path.txJitter, 2.0 * poll.path.txJitter, poll.path);
        if After(past).ticks > 0 && lq < After(past).lowest { LowestBoundsAll(past, After(past).lowest, lq); }
      }
  }

  class CallStats {
    var prev: Counters
    var sum: real
    var ticks: nat
    var lowest: real
    ghost var polls: Log<Poll>

    ghost function View(): Window
      reads this
    {
      Window(prev, sum, ticks, lowest)
    }

    /** The record is what the polls so far have made of it. */
    ghost predicate Valid()
      reads this
    {
      Sane(polls) && View() == After(polls)
    }

    constructor ()
      ensures Valid() && polls == Empty
    {
      prev, sum, ticks, lowest, polls := ZERO, 0.0, 0, 0.0, Empty;
    }

    /** fill_audio_stats: measure against the window, and move it only on a tick.
      After any tick the stored minimum is the lowest score of them all. */
    method Fill(poll: Poll) returns (report: Report)
      requires Valid() && poll.path.codec.bpl > 0.0
      modifies this
      ensures Valid() && polls == Then(old(polls), poll)
      ensures report == Measure(old(prev), poll.counters, poll.path)
      ensures ticks > 0 ==> NoneBelow(polls, lowest) && Attained(polls, lowest)
    {
      report := Measure(prev, poll.counters, poll.path);
      if poll.advance {
        prev := poll.counters;
        sum := sum + report.tx.q;
        ticks := ticks + 1;
        if lowest == 0.0 || report.tx.lq < lowest { lowest := report.tx.lq; }
      }
      polls := Then(polls, poll);
      MinimumIsLowest(polls);
    }
  }
}
