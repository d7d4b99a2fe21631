/** The cake scene's two derived values: which cake geometry is selected, and where the
    candles stand on it (classic candles around an ellipse, or one candle per digit). */
module CakeScene {
  import opened Wrappers
  import opened Text
  import opened Session

  /** A built-in cake: its id, its display name, and where candles go on its artwork
      (percent from the top, and percent of the width they spread over). */
  datatype CakeOption = CakeOption(id: string, name: string, candleBaseY: real, candleBaseWidth: real)

  /** The built-in cakes, in the order the picker shows them. */
  const CAKES: seq<CakeOption> := [
    CakeOption("elegant-strawberry", "Strawberry Dream", 38.0, 55.0),
    CakeOption("classic-chocolate", "Midnight Cocoa", 52.0, 50.0),
    CakeOption("rainbow-party", "Rainbow Layer", 38.0, 45.0),
    CakeOption("blueberry-glaze", "Purple Velvet", 45.0, 40.0)
  ]

  /** The cake the scene draws: a built-in illustration, or an uploaded image (which may be
      missing when the id is not in `customCakes`). */
  datatype SelectedCake = BuiltIn(option: CakeOption) | Custom(id: string, customImage: Option<string>) {
    function CandleBaseY(): real {
      match this
      case BuiltIn(o) => o.candleBaseY
      case Custom(_, _) => 40.0
    }
    function CandleBaseWidth(): real {
      match this
      case BuiltIn(o) => o.candleBaseWidth
      case Custom(_, _) => 50.0
    }
  }

  const CustomPrefix: string := "custom-"

  /** `cakes.find(c => c.id === id)`: the first entry with that id. */
  function FindCake(cakes: seq<CakeOption>, id: string): (r: Option<CakeOption>)
    ensures r.Some? ==> exists k :: 0 <= k < |cakes| && cakes[k] == r.value &&
                          (forall j :: 0 <= j < k ==> cakes[j].id != id)
    ensures r.Some? ==> r.value.id == id
    ensures r.None? <==> forall k :: 0 <= k < |cakes| ==> cakes[k].id != id
  {
    if cakes == [] then None
    else if cakes[0].id == id then Some(cakes[0])
    else
      var rest := FindCake(cakes[1..], id);
      assert rest.Some? ==> (exists k :: 1 <= k < |cakes| && cakes[k] == rest.value &&
                                         (forall j :: 0 <= j < k ==> cakes[j].id != id)) by {
        if rest.Some? {
          var k :| 0 <= k < |cakes[1..]| && cakes[1..][k] == rest.value &&
            (forall j :: 0 <= j < k ==> cakes[1..][j].id != id);
          assert cakes[k + 1] == rest.value;
          assert forall j :: 0 <= j < k + 1 ==> cakes[j].id != id by {
            forall j | 0 <= j < k + 1 ensures cakes[j].id != id {
              if j > 0 { assert cakes[j] == cakes[1..][j - 1]; }
            }
          }
        }
      }
      assert rest.None? ==> forall k :: 0 <= k < |cakes| ==> cakes[k].id != id by {
        if rest.None? {
          forall k | 0 <= k < |cakes| ensures cakes[k].id != id {
            if k > 0 { assert cakes[k] == cakes[1..][k - 1]; }
          }
        }
      }
      rest
  }

  /** The `selectedCake` memo: an id with the custom prefix is an uploaded cake with fixed
      geometry (40, 50); any other id is the matching built-in cake, or the first one. */
  function SelectCake(selectedCakeId: string, customCakes: map<string, string>): (r: SelectedCake)
    ensures StartsWith(selectedCakeId, CustomPrefix) ==>
              r.Custom? && r.id == selectedCakeId && r.CandleBaseY() == 40.0 && r.CandleBaseWidth() == 50.0
    ensures !StartsWith(selectedCakeId, CustomPrefix) ==> r.BuiltIn? && r.option in CAKES
    ensures !StartsWith(selectedCakeId, CustomPrefix) && (exists k :: 0 <= k < |CAKES| && CAKES[k].id == selectedCakeId) ==>
              r.option.id == selectedCakeId
    ensures !StartsWith(selectedCakeId, CustomPrefix) && (forall k :: 0 <= k < |CAKES| ==> CAKES[k].id != selectedCakeId) ==>
              r == BuiltIn(CAKES[0])
  {
    if StartsWith(selectedCakeId, CustomPrefix) then
      Custom(selectedCakeId, if selectedCakeId in customCakes then Some(customCakes[selectedCakeId]) else None)
    else
      BuiltIn(FindCake(CAKES, selectedCakeId).GetOr(CAKES[0]))
  }

  /** The uploaded image shown is the one stored under the selected custom id. */
  lemma CustomCakeImage(selectedCakeId: string, customCakes: map<string, string>)
    requires StartsWith(selectedCakeId, CustomPrefix) && selectedCakeId in customCakes
    ensures SelectCake(selectedCakeId, customCakes) == Custom(selectedCakeId, Some(customCakes[selectedCakeId]))
  {
  }

  // ----- Candle placements -----

  /** One candle as the scene positions it, in percent of the scene box. */
  datatype Candle = Candle(id: string, x: real, y: real, labelText: string)  // the source's `label` (a reserved word here)

  /** The browser's `Math.cos` and `Math.sin` of the angle that is the fraction `t` of a full
      turn (`t * 2 * Math.PI`), and the value of the `k`-th `Math.random()` draw of a render. */
  datatype MathOracle = MathOracle(cosTurn: real -> real, sinTurn: real -> real, random: nat -> real)

  /** Cosines and sines lie in [-1, 1]; random draws in [0, 1). */
  ghost predicate WellBehaved(m: MathOracle) {
    && (forall t: real :: -1.0 <= m.cosTurn(t) <= 1.0)
    && (forall t: real :: -1.0 <= m.sinTurn(t) <= 1.0)
    && (forall k: nat :: 0.0 <= m.random(k) < 1.0)
  }

  /** `Math.max(1, Math.min(candleCount, 100))`. */
  function ClassicCount(candleCount: int): (n: nat)
    ensures 1 <= n <= 100
    ensures 1 <= candleCount <= 100 ==> n == candleCount
    ensures candleCount < 1 ==> n == 1
    ensures candleCount > 100 ==> n == 100
  {
    var m := if candleCount <= 100 then candleCount else 100;
    if 1 >= m then 1 else m
  }

  /** `Math.min(1, count / 10 + 0.3)`: fewer candles cluster tighter, and from seven
      candles on they use the cake's whole base width. */
  function ClusterFactor(count: int): (f: real)
    ensures 1 <= count ==> 0.4 <= f <= 1.0
    ensures 1 <= count ==> (f == 1.0 <==> count >= 7)
  {
    var f := count as real / 10.0 + 0.3;
    if 1.0 <= f then 1.0 else f
  }

  /** Classic candle `i` of `count`: around an ellipse of half-width `adaptiveWidth / 2` and
      half-height 8, shifted sideways by up to one unit of noise. */
  function ClassicCandle(i: nat, count: nat, baseWidth: real, baseY: real, m: MathOracle): Candle
    requires count > 0
  {
    var adaptiveWidth := baseWidth * ClusterFactor(count);
    var turn := i as real / count as real;
    var randomShift := (m.random(i) - 0.5) * 2.0;
    var x := m.cosTurn(turn) * (adaptiveWidth / 2.0) + randomShift;
    var y := m.sinTurn(turn) * 8.0;
    Candle("c-" + Decimal(i), 50.0 + x, baseY + y, "")
  }

  /** Classic mode: `Array.from({ length: count }).map(...)`. */
  function ClassicCandles(candleCount: int, baseWidth: real, baseY: real, m: MathOracle): (r: seq<Candle>)
    ensures |r| == ClassicCount(candleCount)
  {
    var count := ClassicCount(candleCount);
    seq(count, (i: int) requires 0 <= i < count => ClassicCandle(i, count, baseWidth, baseY, m))
  }

  /** `state.digits || '0'`. */
  function EffectiveDigits(digits: string): (d: string)
    ensures |d| >= 1
    ensures digits != "" ==> d == digits
    ensures digits == "" ==> d == "0"
  {
    if digits == "" then "0" else digits
  }

  /** `50 + (i - (length - 1) / 2) * 12`. */
  function DigitX(i: int, length: int): real {
    50.0 + (i as real - (length as real - 1.0) / 2.0) * 12.0
  }

  /** Digit mode: one candle per character, in string order. */
  function DigitCandles(digits: string, baseY: real): (r: seq<Candle>)
    ensures |r| == |EffectiveDigits(digits)|
  {
    var d := EffectiveDigits(digits);
    seq(|d|, (i: int) requires 0 <= i < |d| => Candle("d-" + Decimal(i), DigitX(i, |d|), baseY, [d[i]]))
  }

  /** The `candles` memo for a session state, with the browser's math functions as `m`. */
  function Candles(st: AppState, m: MathOracle): (r: seq<Candle>)
    ensures st.candleType == Classic ==> |r| == ClassicCount(st.candleCount)
    ensures st.candleType != Classic ==> |r| == |EffectiveDigits(st.digits)|
  {
    var cake := SelectCake(st.selectedCakeId, st.customCakes);
    if st.candleType == Classic then
      ClassicCandles(st.candleCount, cake.CandleBaseWidth(), cake.CandleBaseY(), m)
    else
      DigitCandles(st.digits, cake.CandleBaseY())
  }

  /** The labels of a layout, read in order. */
  function Labels(cs: seq<Candle>): string {
    if cs == [] then "" else Labels(cs[..|cs| - 1]) + cs[|cs| - 1].labelText
  }

  /** Every layout has pairwise distinct ids. */
  predicate DistinctIds(cs: seq<Candle>) {
    forall i, j :: 0 <= i < j < |cs| ==> cs[i].id != cs[j].id
  }

  /** Ids `prefix + i` are distinct for distinct `i`. */
  lemma NumberedIdsDistinct(prefix: string, i: nat, j: nat)
    requires i != j
    ensures prefix + Decimal(i) != prefix + Decimal(j)
  {
    PrefixCancel(prefix, Decimal(i), Decimal(j));
    if Decimal(i) == Decimal(j) {
      DecimalInjective(i, j);
    }
  }

  /** Classic mode: the clamped number of candles, ids `c-0` to `c-(n-1)`, no labels. */
  lemma ClassicLayout(candleCount: int, baseWidth: real, baseY: real, m: MathOracle)
    ensures var r := ClassicCandles(candleCount, baseWidth, baseY, m);
      && |r| == ClassicCount(candleCount)
      && (forall i :: 0 <= i < |r| ==> r[i].id == "c-" + Decimal(i) && r[i].labelText == "")
      && DistinctIds(r)
      && Labels(r) == ""
  {
    var r := ClassicCandles(candleCount, baseWidth, baseY, m);
    forall i, j | 0 <= i < j < |r| ensures r[i].id != r[j].id {
      NumberedIdsDistinct("c-", i, j);
    }
    NoLabels(r);
  }

  lemma {:induction false} NoLabels(cs: seq<Candle>)
    requires forall i :: 0 <= i < |cs| ==> cs[i].labelText == ""
    ensures Labels(cs) == ""
  {
    if cs != [] {
      NoLabels(cs[..|cs| - 1]);
    }
  }

  /** Under a well-behaved oracle every classic candle lies within one noise unit of the
      ellipse of half-width `baseWidth * clusterFactor / 2` and half-height 8 around (50, baseY). */
  lemma ClassicBounds(candleCount: int, baseWidth: real, baseY: real, m: MathOracle)
    requires WellBehaved(m) && baseWidth >= 0.0
    ensures var r := ClassicCandles(candleCount, baseWidth, baseY, m);
            var half := baseWidth * ClusterFactor(ClassicCount(candleCount)) / 2.0;
      forall i :: 0 <= i < |r| ==>
        && 50.0 - half - 1.0 <= r[i].x <= 50.0 + half + 1.0
        && baseY - 8.0 <= r[i].y <= baseY + 8.0
  {
    var count := ClassicCount(candleCount);
    var r := ClassicCandles(candleCount, baseWidth, baseY, m);
    forall i | 0 <= i < |r|
      ensures 50.0 - baseWidth * ClusterFactor(count) / 2.0 - 1.0 <= r[i].x
      ensures r[i].x <= 50.0 + baseWidth * ClusterFactor(count) / 2.0 + 1.0
      ensures baseY - 8.0 <= r[i].y <= baseY + 8.0
    {
      var turn := i as real / count as real;
      assert r[i] == ClassicCandle(i, count, baseWidth, baseY, m);
      assert -1.0 <= m.cosTurn(turn) <= 1.0;
      assert -1.0 <= m.sinTurn(turn) <= 1.0;
      assert 0.0 <= m.random(i) < 1.0;
      ClassicCandleBounds(i, count, baseWidth, baseY, m);
    }
  }

  /** The bounds for one classic candle, from the ranges of the three values it draws. */
  lemma ClassicCandleBounds(i: nat, count: nat, baseWidth: real, baseY: real, m: MathOracle)
    requires count > 0 && baseWidth >= 0.0
    requires -1.0 <= m.cosTurn(i as real / count as real) <= 1.0
    requires -1.0 <= m.sinTurn(i as real / count as real) <= 1.0
    requires 0.0 <= m.random(i) < 1.0
    ensures var cd := ClassicCandle(i, count, baseWidth, baseY, m);
            var half := baseWidth * ClusterFactor(count) / 2.0;
      && 50.0 - half - 1.0 <= cd.x <= 50.0 + half + 1.0
      && baseY - 8.0 <= cd.y <= baseY + 8.0
  {
    var cf := ClusterFactor(count);
    assert 0.0 <= cf <= 1.0;
    CosineScaled(cf, baseWidth);
    var turn := i as real / count as real;
    PlacementBounds(m.cosTurn(turn), m.sinTurn(turn), m.random(i), baseWidth * cf);
  }

  /** The placement arithmetic alone: a point `cos * (w / 2) + noise` with the cosine in
      [-1, 1] and the noise in [-1, 1) stays within `w / 2 + 1` of the centre. */
  lemma PlacementBounds(cos: real, sin: real, random: real, w: real)
    requires -1.0 <= cos <= 1.0 && -1.0 <= sin <= 1.0 && 0.0 <= random < 1.0 && w >= 0.0
    ensures -(w / 2.0) - 1.0 <= cos * (w / 2.0) + (random - 0.5) * 2.0 <= w / 2.0 + 1.0
    ensures -8.0 <= sin * 8.0 <= 8.0
  {
    var half := w / 2.0;
    CosineScaled(cos, half);
    CosineScaled(sin, 8.0);
    var px := cos * half;
    var shift := (random - 0.5) * 2.0;
    assert -half <= px <= half && -1.0 <= shift < 1.0;
  }

  lemma CosineScaled(c: real, h: real)
    requires -1.0 <= c <= 1.0 && h >= 0.0
    ensures -h <= c * h <= h
  {
    assert (1.0 - c) * h >= 0.0;
    assert (1.0 + c) * h >= 0.0;
  }

  /** Digit mode: one candle per character in order, `id = "d-" + i`, `label = D[i]`,
      all at the cake's base line; reading the labels back gives the digit string. */
  lemma DigitLayout(digits: string, baseY: real)
    ensures var d := EffectiveDigits(digits);
            var r := DigitCandles(digits, baseY);
      && |r| == |d|
      && (forall i :: 0 <= i < |r| ==> r[i].id == "d-" + Decimal(i) && r[i].labelText == [d[i]] && r[i].y == baseY)
      && DistinctIds(r)
      && Labels(r) == d
    ensures digits != "" ==> Labels(DigitCandles(digits, baseY)) == digits
  {
    var d := EffectiveDigits(digits);
    var r := DigitCandles(digits, baseY);
    forall i, j | 0 <= i < j < |r| ensures r[i].id != r[j].id {
      NumberedIdsDistinct("d-", i, j);
    }
    DigitLabelsPrefix(digits, baseY, |r|);
    assert r[..|r|] == r && d[..|d|] == d;
  }

  lemma {:induction false} DigitLabelsPrefix(digits: string, baseY: real, k: nat)
    requires k <= |EffectiveDigits(digits)|
    ensures Labels(DigitCandles(digits, baseY)[..k]) == EffectiveDigits(digits)[..k]
  {
    var d := EffectiveDigits(digits);
    var r := DigitCandles(digits, baseY);
    if k > 0 {
      DigitLabelsPrefix(digits, baseY, k - 1);
      assert r[..k][..k - 1] == r[..k - 1];
      assert d[..k] == d[..k - 1] + [d[k - 1]];
    }
  }

  /** Digit x-positions are symmetric about 50 and step by exactly 12. */
  lemma DigitSpacing(digits: string, baseY: real)
    ensures var r := DigitCandles(digits, baseY);
      && (forall i :: 0 <= i < |r| ==> r[i].x + r[|r| - 1 - i].x == 100.0)
      && (forall i :: 0 <= i < |r| - 1 ==> r[i + 1].x - r[i].x == 12.0)
  {
  }

  /** An empty digit string shows a single candle "0" in the middle. */
  lemma EmptyDigitsShowZero(baseY: real)
    ensures DigitCandles("", baseY) == [Candle("d-0", 50.0, baseY, "0")]
  {
    var r := DigitCandles("", baseY);
    assert Decimal(0) == "0";
    assert r[0] == Candle("d-0", 50.0, baseY, "0");
  }

  /** Two digits "23" on a base line at 40: labels "2" then "3" at 44 and 56. */
  lemma TwoDigitExample()
    ensures DigitCandles("23", 40.0) == [Candle("d-0", 44.0, 40.0, "2"), Candle("d-1", 56.0, 40.0, "3")]
  {
    var r := DigitCandles("23", 40.0);
    assert Decimal(0) == "0" && Decimal(1) == "1";
    assert "d-" + Decimal(0) == "d-0" && "d-" + Decimal(1) == "d-1";
    assert DigitX(0, 2) == 44.0 && DigitX(1, 2) == 56.0;
    assert |r| == 2;
    assert r[0] == Candle("d-0", 44.0, 40.0, "2");
    assert r[1] == Candle("d-1", 56.0, 40.0, "3");
  }

  /** In digit mode every candle stands on the selected cake's base line. */
  lemma DigitModeOnBaseLine(st: AppState, m: MathOracle)
    requires st.candleType == Digits
    ensures var cs := Candles(st, m);
            var baseY := SelectCake(st.selectedCakeId, st.customCakes).CandleBaseY();
      forall i :: 0 <= i < |cs| ==> cs[i].y == baseY
  {
  }
}
