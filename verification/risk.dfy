/** The risk-tier mapper at the end of `predict_risk`: fixed thresholds on the
    classifier's probability, each tier with a fixed label, message and colour.
 */
module Risk {
  import opened Results

  /** A probability as the classifier reports it. */
  type Probability = p: real | 0.0 <= p <= 1.0

  const LowThreshold: real := 0.20

  const HighThreshold: real := 0.65

  datatype Tier = Low | Medium | High {

    /** The order of the tiers, for stating monotonicity. */
    function Rank(): nat {
      match this
      case Low => 0
      case Medium => 1
      case High => 2
    }

    function Label(): string {
      match this
      case Low => "LOW RISK"
      case Medium => "MEDIUM RISK"
      case High => "HIGH RISK"
    }

    function Message(): string {
      match this
      case Low => "No immediate risk detected. Maintain a healthy lifestyle."
      case Medium => "Moderate risk detected. Consider lifestyle improvements and monitor health."
      case High => "High risk of diabetes. Please consult a healthcare professional soon."
    }

    function Colour(): string {
      match this
      case Low => "#2e7d32"
      case Medium => "#f9a825"
      case High => "#c62828"
    }
  }

  /** The tier of a probability: below 0.20 low, below 0.65 medium, else high. */
  function TierOf(p: real): (t: Tier)
    ensures t == Low <==> p < LowThreshold
    ensures t == Medium <==> LowThreshold <= p < HighThreshold
    ensures t == High <==> HighThreshold <= p
  {
    if p < LowThreshold then Low
    else if p < HighThreshold then Medium
    else High
  }

  /** The lower threshold belongs to the medium tier and the upper one to the
      high tier. */
  lemma BoundariesAreClosedBelow()
    ensures TierOf(0.20) == Medium && TierOf(0.65) == High
    ensures TierOf(0.0) == Low && TierOf(1.0) == High
  {
  }

  /** A larger probability never gives a lower tier. */
  lemma TierIsMonotone(p: real, q: real)
    requires p <= q
    ensures TierOf(p).Rank() <= TierOf(q).Rank()
  {
  }

  /** The label names its tier: reading a label back recovers the tier, so the
      three responses can be told apart by their label alone. */
  function TierOfLabel(name: string): (t: Option<Tier>)
    ensures forall tier: Tier :: name == tier.Label() <==> t == Some(tier)
  {
    if name == "LOW RISK" then Some(Low)
    else if name == "MEDIUM RISK" then Some(Medium)
    else if name == "HIGH RISK" then Some(High)
    else None
  }

  /** The tiers' messages and colours are pairwise different too. */
  lemma TiersAreDistinguishable(a: Tier, b: Tier)
    requires a != b
    ensures a.Label() != b.Label() && a.Message() != b.Message() && a.Colour() != b.Colour()
  {
  }

  // ---------------------------------------------------------------------------
  // The reported percentage

  /** The distance between two reals. */
  function Dist(a: real, b: real): real {
    if a >= b then a - b else b - a
  }

  /** Python's `round` to an integer: the integer nearest to `y`, a tie going
      to the even neighbour. */
  function RoundHalfEven(y: real): (n: int)
    ensures Dist(n as real, y) <= 0.5
    ensures Dist(n as real, y) == 0.5 ==> n % 2 == 0
  {
    var f := y.Floor;
    var d := y - f as real;
    if d < 0.5 then f
    else if d > 0.5 then f + 1
    else if f % 2 == 0 then f
    else f + 1
  }

  /** No integer is nearer to `y` than the rounded one. */
  lemma RoundHalfEvenIsNearest(y: real, m: int)
    ensures Dist(RoundHalfEven(y) as real, y) <= Dist(m as real, y)
  {
    var n := RoundHalfEven(y);
    if m < n {
      assert m as real <= n as real - 1.0;
    } else if m > n {
      assert m as real >= n as real + 1.0;
    }
  }

  /** The two promises of `RoundHalfEven` pin it down: any integer within 0.5
      of `y`, and even when exactly 0.5 away, is the rounded one. */
  lemma RoundHalfEvenIsDetermined(y: real, m: int)
    requires Dist(m as real, y) <= 0.5
    requires Dist(m as real, y) == 0.5 ==> m % 2 == 0
    ensures m == RoundHalfEven(y)
  {
  }

  /** `round(prob * 100, 2)`: the percentage to two decimals. Rounding can move
      it onto a threshold, so it agrees with the tier only up to the
      thresholds themselves: a percentage below 20 is always low and one above
      65 always high, but a low probability may be shown as exactly 20 and a
      medium one as exactly 65. */
  function RiskPercent(p: Probability): (r: real)
    ensures 0.0 <= r <= 100.0
    ensures (r * 100.0).Floor as real == r * 100.0
    ensures Dist(r, p * 100.0) <= 0.005
    ensures Dist(r, p * 100.0) == 0.005 ==> (r * 100.0).Floor % 2 == 0
    ensures r < 20.0 ==> TierOf(p) == Low
    ensures TierOf(p) == Low ==> r <= 20.0
    ensures 65.0 < r ==> TierOf(p) == High
    ensures TierOf(p) == High ==> 65.0 <= r
  {
    var n := RoundHalfEven(p * 100.0 * 100.0);
    HundredthsMeetThresholds(p, n);
    n as real / 100.0
  }
  /** The first three promises of `RiskPercent` determine it: the only whole
      number of hundredths within 0.005 of `p * 100`, taking the even one on a
      tie, is the rounded percentage. */
  lemma RiskPercentIsDetermined(p: Probability, r: real)
    requires (r * 100.0).Floor as real == r * 100.0
    requires Dist(r, p * 100.0) <= 0.005
    requires Dist(r, p * 100.0) == 0.005 ==> (r * 100.0).Floor % 2 == 0
    ensures r == RiskPercent(p)
  {
    var m := (r * 100.0).Floor;
    assert Dist(m as real, p * 100.0 * 100.0) == 100.0 * Dist(r, p * 100.0);
    RoundHalfEvenIsDetermined(p * 100.0 * 100.0, m);
  }


  /** A whole number of hundredths within half a hundredth of a percentage
      lies on the same side of each threshold, or on the threshold itself. */
  lemma HundredthsMeetThresholds(p: real, n: int)
    requires Dist(n as real, p * 10000.0) <= 0.5
    ensures n < 2000 ==> p < LowThreshold
    ensures p < LowThreshold ==> n <= 2000
    ensures n > 6500 ==> HighThreshold <= p
    ensures HighThreshold <= p ==> n >= 6500
  {
    if n < 2000 {
      assert n as real <= 1999.0;
    }
    if n > 6500 {
      assert n as real >= 6501.0;
    }
  }

  /** A low probability just under 0.20 is shown as exactly 20.0, and a medium
      one just under 0.65 as exactly 65.0. */
  lemma ShownPercentCanReachThreshold()
    ensures TierOf(0.199996) == Low && RiskPercent(0.199996) == 20.0
    ensures TierOf(0.649996) == Medium && RiskPercent(0.649996) == 65.0
  {
    assert (1999.96).Floor == 1999;
    assert (6499.96).Floor == 6499;
  }
}
