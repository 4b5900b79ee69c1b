/** The proportional split of landed cost (`allocate` in `packages/utils/src/money.ts`). */
module Allocation {
  import opened Money

  /** `total * w / weightSum`, unrounded. */
  function Portion(total: real, w: real, weightSum: real): (p: real)
    requires weightSum != 0.0
    ensures p * weightSum == total * w
  {
    Quotient(total * w, weightSum)
  }

  /** The exact, unrounded share of each weight: even when the weights sum to zero. */
  function Shares(total: real, weights: seq<real>): (shares: seq<real>)
    ensures |shares| == |weights|
    ensures SumReal(weights) != 0.0 ==>
      forall i | 0 <= i < |shares| :: shares[i] == Portion(total, weights[i], SumReal(weights))
    ensures SumReal(weights) == 0.0 ==>
      forall i | 0 <= i < |shares| :: shares[i] == Quotient(total, |weights| as real)
  {
    var weightSum := SumReal(weights);
    if weightSum == 0.0 then
      seq(|weights|, i requires 0 <= i < |weights| => Quotient(total, |weights| as real))
    else
      seq(|weights|, i requires 0 <= i < |weights| => Portion(total, weights[i], weightSum))
  }

  function RoundAll(shares: seq<real>): (rounded: seq<int>)
    ensures |rounded| == |shares|
  {
    seq(|shares|, i requires 0 <= i < |shares| => Round(shares[i]))
  }

  /** The position of the first largest weight. */
  function FirstMax(weights: seq<real>): (t: nat)
    requires weights != []
    ensures t < |weights|
    ensures forall j | 0 <= j < |weights| :: weights[j] <= weights[t]
    ensures forall j | 0 <= j < t :: weights[j] < weights[t]
  {
    var last := |weights| - 1;
    if last == 0 then 0
    else
      var t := FirstMax(weights[..last]);
      if weights[last] > weights[t] then last else t
  }

  /** Every share rounded on its own, the remainder added to the first largest weight. */
  ghost function Allocated(total: real, weights: seq<real>): (parts: seq<int>)
    ensures |parts| == |weights|
  {
    if weights == [] then []
    else
      var rounded := RoundAll(Shares(total, weights));
      var t := FirstMax(weights);
      rounded[t := rounded[t] + Round(total) - Sum(rounded)]
  }

  lemma {:induction false} FirstMaxExtends(weights: seq<real>, i: nat)
    requires 0 < i < |weights|
    ensures var t := FirstMax(weights[..i]);
            FirstMax(weights[..i + 1]) == if weights[i] > weights[t] then i else t
  {
    assert weights[..i + 1][..i] == weights[..i];
  }

  method Allocate(total: real, weights: seq<real>) returns (parts: seq<int>)
    ensures parts == Allocated(total, weights)
  {
    var n := |weights|;
    if n == 0 {
      return [];
    }
    parts := RoundAll(Shares(total, weights));
    var remainder := Round(total) - Sum(parts);
    if remainder != 0 {
      hide Round, Shares, RoundAll, Sum;
      var target := 0;
      for i := 1 to n
        invariant target < n && target == FirstMax(weights[..i])
      {
        FirstMaxExtends(weights, i);
        if weights[i] > weights[target] {
          target := i;
        }
      }
      assert weights[..n] == weights;
      parts := parts[target := parts[target] + remainder];
    }
  }

  // --- the shares add up to the total ---------------------------------------------------------

  lemma {:induction false} PortionAdd(total: real, a: real, b: real, d: real)
    requires d != 0.0
    ensures Portion(total, a, d) + Portion(total, b, d) == Portion(total, a + b, d)
  {
  }

  lemma {:induction false} PortionEnds(total: real, d: real)
    requires d != 0.0
    ensures Portion(total, 0.0, d) == 0.0 && Portion(total, d, d) == total
  {
  }

  lemma {:induction false} SumRealScaled(total: real, weights: seq<real>, weightSum: real, s: seq<real>)
    requires weightSum != 0.0 && |s| == |weights|
    requires forall i | 0 <= i < |s| :: s[i] == Portion(total, weights[i], weightSum)
    ensures SumReal(s) == Portion(total, SumReal(weights), weightSum)
  {
    if s == [] {
      PortionEnds(total, weightSum);
    } else {
      var last := |s| - 1;
      SumRealScaled(total, weights[..last], weightSum, s[..last]);
      PortionAdd(total, SumReal(weights[..last]), weights[last], weightSum);
    }
  }

  lemma {:induction false} SumRealConstant(s: seq<real>, c: real)
    requires forall i | 0 <= i < |s| :: s[i] == c
    ensures SumReal(s) == |s| as real * c
  {
    if s != [] {
      SumRealConstant(s[..|s| - 1], c);
    }
  }

  lemma {:induction false} SharesSum(total: real, weights: seq<real>)
    requires weights != []
    ensures SumReal(Shares(total, weights)) == total
  {
    var weightSum := SumReal(weights);
    if weightSum == 0.0 {
      SumRealConstant(Shares(total, weights), Quotient(total, |weights| as real));
    } else {
      SumRealScaled(total, weights, weightSum, Shares(total, weights));
      PortionEnds(total, weightSum);
    }
  }

  // --- the parts reconcile to the total, and stay close to their shares -----------------------

  /** For every total and every list of weights, on grid or not, the parts sum to the rounded total. */
  lemma {:induction false} AllocatedSum(total: real, weights: seq<real>)
    requires weights != []
    ensures Sum(Allocated(total, weights)) == Round(total)
  {
    var rounded := RoundAll(Shares(total, weights));
    var t := FirstMax(weights);
    SumUpdate(rounded, t, rounded[t] + Round(total) - Sum(rounded));
  }

  /** Summed over all positions but `t`, parts within half a unit of their shares are off by (n-1)/2. */
  lemma {:induction false} DeviationBound(shares: seq<real>, parts: seq<int>, t: nat)
    requires |shares| == |parts|
    requires forall i | 0 <= i < |parts| && i != t :: -0.5 <= parts[i] as real - shares[i] <= 0.5
    ensures var rest := Sum(parts) as real - SumReal(shares) -
              (if t < |parts| then parts[t] as real - shares[t] else 0.0);
            var bound := (|parts| - (if t < |parts| then 1 else 0)) as real / 2.0;
            -bound <= rest <= bound
  {
    var last := |parts| - 1;
    if parts != [] {
      DeviationBound(shares[..last], parts[..last], t);
    }
  }

  /**
   Every part but the target is within half a unit of its exact share; the target is within
   (n-1)/2 units of its own, plus what rounding the total itself moved.
   */
  lemma {:induction false} AllocatedDeviation(total: real, weights: seq<real>, i: nat)
    requires i < |weights|
    ensures var off := Allocated(total, weights)[i] as real - Shares(total, weights)[i];
            var slack := Round(total) as real - total;
            var half := (|weights| - 1) as real / 2.0;
            if i == FirstMax(weights) then -half <= off - slack <= half else -0.5 <= off <= 0.5
  {
    var shares, parts, t := Shares(total, weights), Allocated(total, weights), FirstMax(weights);
    DeviationBound(shares, parts, t);
    SharesSum(total, weights);
    AllocatedSum(total, weights);
  }

  // --- when a part may be negative ------------------------------------------------------------

  /** The totals over `n` parts that some weights make negative; see `NonNegativeExactlyWhen`. */
  predicate Treacherous(total: nat, n: nat) {
    2 <= total && total + 1 <= Room(n - 1, (n - 2) / 2)
  }

  /** What `c` parts of at most `q` units can hold. */
  function Room(c: int, q: int): int {
    c * q
  }

  lemma {:induction false} RoomStep(c: int, q: int)
    ensures Room(c + 1, q) == Room(c, q) + q
    ensures Room(0, q) == 0 == Room(c, 0)
    ensures c >= 0 && q >= 1 ==> Room(c, q) >= c
  {
    if c >= 0 && q >= 1 {
      assert c * (q - 1) >= 0;
    }
  }

  predicate NonNegativeReals(s: seq<real>) {
    forall i | 0 <= i < |s| :: s[i] >= 0.0
  }

  lemma {:induction false} SumRealNonNegative(s: seq<real>)
    requires NonNegativeReals(s)
    ensures SumReal(s) >= 0.0
    ensures forall i | 0 <= i < |s| :: s[i] <= SumReal(s)
  {
    if s != [] {
      SumRealNonNegative(s[..|s| - 1]);
      assert forall i | 0 <= i < |s| - 1 :: s[i] == s[..|s| - 1][i];
    }
  }

  lemma {:induction false} PortionMonotone(total: real, v: real, w: real, d: real)
    requires total >= 0.0 && 0.0 <= v <= w && d > 0.0
    ensures 0.0 <= Portion(total, v, d) <= Portion(total, w, d)
  {
    assert total * v <= total * w;
    QuotientBetween(total * v, d, 0.0, Portion(total, w, d));
  }

  /** The exact shares are non-negative and the target's is a largest one. */
  lemma {:induction false} TargetShare(total: real, weights: seq<real>, i: nat)
    requires total >= 0.0 && NonNegativeReals(weights) && i < |weights|
    ensures var shares := Shares(total, weights); 0.0 <= shares[i] <= shares[FirstMax(weights)]
  {
    SumRealNonNegative(weights);
    var d := SumReal(weights);
    if d == 0.0 {
      QuotientBetween(total, |weights| as real, 0.0, Quotient(total, |weights| as real));
    } else {
      PortionMonotone(total, weights[i], weights[FirstMax(weights)], d);
    }
  }

  /** What the other parts round to, added up: at most twice their shares, and at most `q` each. */
  lemma {:induction false} OthersBound(shares: seq<real>, t: nat, q: int)
    requires NonNegativeReals(shares)
    requires forall i | 0 <= i < |shares| :: Round(shares[i]) <= q
    ensures var others := Sum(RoundAll(shares)) - if t < |shares| then Round(shares[t]) else 0;
            && others as real <= 2.0 * (SumReal(shares) - if t < |shares| then shares[t] else 0.0)
            && others <= Room(|shares| - if t < |shares| then 1 else 0, q)
  {
    if shares != [] {
      var n := |shares| - 1;
      assert forall i | 0 <= i < n :: shares[..n][i] == shares[i];
      OthersBound(shares[..n], t, q);
      assert RoundAll(shares)[..n] == RoundAll(shares[..n]);
      AtMostTwice(shares[n]);
      RoomStep(n - (if t < n then 1 else 0), q);
      hide Room, Round, RoundAll;
    }
  }

  lemma {:induction false} AtMostTwice(x: real)
    requires x >= 0.0
    ensures Round(x) as real <= 2.0 * x
  {
    RoundIsMonotoneAndOdd(0.0, x);
  }

  lemma {:induction false} HalfBelow(n: int, x: real)
    requires x <= (n - 3) as real / 2.0
    ensures Round(x) <= (n - 2) / 2
  {
    RoundIsMonotoneAndOdd(x, (n - 3) as real / 2.0);
  }

  lemma {:induction false} TargetPart(total: nat, weights: seq<real>)
    requires weights != []
    ensures var (t, shares) := (FirstMax(weights), Shares(total as real, weights));
            Allocated(total as real, weights)[t] == total - (Sum(RoundAll(shares)) - Round(shares[t]))
  {
    RoundOnGrid(total);
    hide Round, Shares, Sum;
  }

  lemma {:induction false} SharesRound(shares: seq<real>, t: nat, q: int)
    requires t < |shares| && Round(shares[t]) <= q
    requires forall i | 0 <= i < |shares| :: shares[i] <= shares[t]
    ensures forall i | 0 <= i < |shares| :: Round(shares[i]) <= q
  {
    forall i | 0 <= i < |shares| ensures Round(shares[i]) <= q {
      RoundIsMonotoneAndOdd(shares[i], shares[t]);
    }
  }

  /** If the remainder drives the target below zero, the total is one of the treacherous ones. */
  lemma {:induction false} NegativeTarget(total: nat, weights: seq<real>)
    requires weights != [] && NonNegativeReals(weights)
    ensures Allocated(total as real, weights)[FirstMax(weights)] < 0 ==> Treacherous(total, |weights|)
  {
    var n, t, shares := |weights|, FirstMax(weights), Shares(total as real, weights);
    TargetPart(total, weights);
    SharesSum(total as real, weights);
    forall i | 0 <= i < n ensures 0.0 <= shares[i] <= shares[t] {
      TargetShare(total as real, weights, i);
    }
    if Allocated(total as real, weights)[t] < 0 {
      NegativeShares(total, shares, t);
    }
  }

  lemma {:induction false} NegativeShares(total: nat, shares: seq<real>, t: nat)
    requires t < |shares| && SumReal(shares) == total as real
    requires forall i | 0 <= i < |shares| :: 0.0 <= shares[i] <= shares[t]
    requires total < Sum(RoundAll(shares)) - Round(shares[t])
    ensures Treacherous(total, |shares|)
  {
    var n := |shares|;
    DeviationBound(shares, RoundAll(shares), t);
    hide Sum, SumReal;
    assert shares[t] <= (n - 3) as real / 2.0;
    HalfBelow(n, shares[t]);
    SharesRound(shares, t, (n - 2) / 2);
    OthersBound(shares, t, (n - 2) / 2);
    hide Round, RoundAll;
    if total <= 1 {
      SmallTotal(total, shares, t);
    }
  }

  lemma {:induction false} SmallTotal(total: nat, shares: seq<real>, t: nat)
    requires t < |shares| && NonNegativeReals(shares) && SumReal(shares) == total as real <= 1.0
    requires forall i | 0 <= i < |shares| :: shares[i] <= shares[t]
    ensures 2.0 * (SumReal(shares) - shares[t]) < (total + 1) as real
  {
    if shares[t] == 0.0 {
      SumRealConstant(shares, 0.0);
    }
  }

  /** Outside the treacherous totals no non-negative weights yield a negative part. */
  lemma {:induction false} AllocatedNonNegative(total: nat, weights: seq<real>, i: nat)
    requires NonNegativeReals(weights) && i < |weights| && !Treacherous(total, |weights|)
    ensures Allocated(total as real, weights)[i] >= 0
  {
    if i == FirstMax(weights) {
      NegativeTarget(total, weights);
    } else {
      TargetShare(total as real, weights, i);
      RoundIsMonotoneAndOdd(0.0, Shares(total as real, weights)[i]);
    }
  }

  // --- and each of them does, for some weights --------------------------------------------------

  function Min(a: nat, b: nat): nat {
    if a <= b then a else b
  }

  /** `total` units dealt into `c` bins of at most `q`, no bin left empty while there are units. */
  function Bins(c: nat, total: nat, q: nat): (bins: seq<nat>)
    ensures |bins| == c
  {
    if c == 0 then []
    else
      var last := if total <= c then Min(total, 1) else Min(q, total - (c - 1));
      Bins(c - 1, total - last, q) + [last]
  }

  /** The smallest share that rounds to each bin. */
  function Halved(bins: seq<nat>): (shares: seq<real>)
    ensures |shares| == |bins|
    ensures forall i | 0 <= i < |bins| :: shares[i] == if bins[i] == 0 then 0.0 else bins[i] as real - 0.5
  {
    seq(|bins|, i requires 0 <= i < |bins| => if bins[i] == 0 then 0.0 else bins[i] as real - 0.5)
  }

  lemma {:induction false} RoundHalved(bin: nat)
    ensures Round(if bin == 0 then 0.0 else bin as real - 0.5) == bin
  {
  }

  lemma {:induction false} HalvedAppend(bins: seq<nat>, last: nat)
    ensures SumReal(Halved(bins + [last])) == SumReal(Halved(bins)) + if last == 0 then 0.0 else last as real - 0.5
    ensures Sum(bins + [last]) == Sum(bins) + last
  {
    var longer := bins + [last];
    assert Halved(longer)[..|bins|] == Halved(bins);
    assert longer[..|bins|] == bins;
  }

  lemma {:induction false} BinsUnfold(c: nat, total: nat, q: nat) returns (last: nat, left: nat)
    requires c > 0 && total <= Room(c, q)
    ensures Bins(c, total, q) == Bins(c - 1, left, q) + [last]
    ensures left == total - last && last <= q && left <= Room(c - 1, q)
    ensures total > c ==> last >= 1 && left >= c - 1
    ensures total <= c ==> left <= c - 1 && last == if total == 0 then 0 else 1
  {
    last := if total <= c then Min(total, 1) else Min(q, total - (c - 1));
    left := total - last;
    RoomLeft(c, total, q, last);
  }

  /** The bins hold the total, and as many are non-empty as there are units or bins. */
  lemma {:induction false} BinsFacts(c: nat, total: nat, q: nat)
    requires total <= Room(c, q)
    ensures Sum(Bins(c, total, q)) == total
    ensures SumReal(Halved(Bins(c, total, q))) == total as real - Min(total, c) as real / 2.0
  {
    if c == 0 {
      RoomStep(0, q);
    } else {
      var last, left := BinsUnfold(c, total, q);
      BinsFacts(c - 1, left, q);
      HalvedAppend(Bins(c - 1, left, q), last);
      hide Bins, Halved, Sum, SumReal, Room;
    }
  }

  lemma {:induction false} BinsAreSmall(c: nat, total: nat, q: nat, i: nat)
    requires total <= Room(c, q) && i < c
    ensures Bins(c, total, q)[i] <= q && (total <= c ==> Bins(c, total, q)[i] <= 1)
  {
    var last, left := BinsUnfold(c, total, q);
    hide Bins, Room;
    if i < c - 1 {
      BinsAreSmall(c - 1, left, q, i);
    }
  }

  lemma {:induction false} RoomLeft(c: nat, total: nat, q: nat, last: nat)
    requires c > 0 && total <= Room(c, q)
    requires last == if total <= c then Min(total, 1) else Min(q, total - (c - 1))
    ensures last <= total && last <= q && total - last <= Room(c - 1, q)
    ensures total > c ==> last >= 1 && total - last >= c - 1
    ensures total <= c ==> total - last <= c - 1
  {
    RoomStep(c - 1, q);
    RoomStep(c, q);
    hide Room;
  }

  lemma {:induction false} SumPrepend(x: int, s: seq<int>)
    ensures Sum([x] + s) == x + Sum(s)
  {
    SumConcat([x], s);
    assert [x][..0] == [];
  }

  lemma {:induction false} SumRealPrepend(x: real, s: seq<real>)
    ensures SumReal([x] + s) == x + SumReal(s)
  {
    if s == [] {
      assert [x] + s == [x] && [x][..0] == [];
    } else {
      var n := |s| - 1;
      SumRealPrepend(x, s[..n]);
      assert ([x] + s)[..n + 1] == [x] + s[..n];
    }
  }

  lemma {:induction false} FirstIsMax(weights: seq<real>)
    requires weights != [] && forall i | 0 <= i < |weights| :: weights[i] <= weights[0]
    ensures FirstMax(weights) == 0
  {
    if |weights| > 1 {
      FirstIsMax(weights[..|weights| - 1]);
    }
  }

  /** Weights that add up to the total are their own shares. */
  lemma {:induction false} SharesOfTotal(total: real, weights: seq<real>)
    requires total != 0.0 && SumReal(weights) == total
    ensures Shares(total, weights) == weights
  {
    forall i | 0 <= i < |weights| ensures Portion(total, weights[i], total) == weights[i] {
      assert (Portion(total, weights[i], total) - weights[i]) * total == 0.0;
    }
  }

  lemma {:induction false} TreacherousNeedsFour(total: nat, n: nat)
    requires n > 0 && Treacherous(total, n)
    ensures n >= 4 && total >= 2 && total + 1 <= Room(n - 1, (n - 2) / 2)
  {
    if n == 1 {
      RoomStep(0, (n - 2) / 2);
    } else if n <= 3 {
      RoomStep(n - 1, 0);
    }
  }

  /** The target's share: half of each other non-empty part, less one unit. */
  function TargetOf(total: nat, n: nat): real
    requires n > 0
  {
    Min(total + 1, n - 1) as real / 2.0 - 1.0
  }

  lemma {:induction false} TargetIsLargest(total: nat, n: nat, bin: nat)
    requires total >= 2 && n >= 4
    requires bin <= (n - 2) / 2 && (total + 1 <= n - 1 ==> bin <= 1)
    ensures (if bin == 0 then 0.0 else bin as real - 0.5) <= TargetOf(total, n)
    ensures TargetOf(total, n) >= 0.0
  {
  }

  /** For each treacherous total there are weights whose first part comes out at minus one. */
  lemma {:induction false} NegativeWeights(total: nat, n: nat) returns (weights: seq<real>)
    requires n > 0 && Treacherous(total, n)
    ensures |weights| == n && NonNegativeReals(weights) && Allocated(total as real, weights)[0] == -1
  {
    hide *;
    TreacherousNeedsFour(total, n);
    var bins := Bins(n - 1, total + 1, (n - 2) / 2);
    BinsFacts(n - 1, total + 1, (n - 2) / 2);
    forall i | 0 <= i < n - 1
      ensures 0.0 <= Halved(bins)[i] <= TargetOf(total, n) && Round(Halved(bins)[i]) == bins[i]
    {
      OtherIsSmaller(total, n, i);
    }
    TargetIsLargest(total, n, 0);
    TargetTotal(total, n);
    weights := [TargetOf(total, n)] + Halved(bins);
    SumRealPrepend(TargetOf(total, n), Halved(bins));
    TargetFirst(total, TargetOf(total, n), Halved(bins), bins);
  }

  lemma {:induction false} OtherIsSmaller(total: nat, n: nat, i: nat)
    requires n >= 4 && Treacherous(total, n) && i < n - 1
    ensures var bins := Bins(n - 1, total + 1, (n - 2) / 2);
            0.0 <= Halved(bins)[i] <= TargetOf(total, n) && Round(Halved(bins)[i]) == bins[i]
  {
    BinsAreSmall(n - 1, total + 1, (n - 2) / 2, i);
    var bin := Bins(n - 1, total + 1, (n - 2) / 2)[i];
    hide Bins, Room;
    TargetIsLargest(total, n, bin);
    RoundHalved(bin);
  }

  lemma {:induction false} TargetTotal(total: nat, n: nat)
    requires n > 0
    ensures TargetOf(total, n) + ((total + 1) as real - Min(total + 1, n - 1) as real / 2.0) == total as real
  {
  }

  lemma {:induction false} TargetFirst(total: nat, x: real, rest: seq<real>, bins: seq<nat>)
    requires |rest| == |bins| && total > 0 && SumReal([x] + rest) == total as real && Sum(bins) == total + 1
    requires 0.0 <= x && forall i | 0 <= i < |bins| :: 0.0 <= rest[i] <= x && Round(rest[i]) == bins[i]
    ensures NonNegativeReals([x] + rest) && Allocated(total as real, [x] + rest)[0] == -1
  {
    var weights := [x] + rest;
    hide SumReal, Sum, Round;
    FirstIsMax(weights);
    SharesOfTotal(total as real, weights);
    assert RoundAll(weights) == [Round(x)] + bins;
    SumPrepend(Round(x), bins);
    RoundOnGrid(total);
  }

  ghost predicate NonNegativeParts(parts: seq<int>) {
    forall i | 0 <= i < |parts| :: parts[i] >= 0
  }

  /** Splitting a total over `n` lines never yields a negative part, if and only if the total is not treacherous. */
  lemma {:induction false} NonNegativeExactlyWhen(total: nat, n: nat)
    requires n > 0
    ensures (forall weights | |weights| == n && NonNegativeReals(weights) ::
               NonNegativeParts(Allocated(total as real, weights)))
       <==> !Treacherous(total, n)
  {
    if Treacherous(total, n) {
      var weights := NegativeWeights(total, n);
      assert !NonNegativeParts(Allocated(total as real, weights));
    } else {
      forall weights | |weights| == n && NonNegativeReals(weights)
        ensures NonNegativeParts(Allocated(total as real, weights))
      {
        var parts := Allocated(total as real, weights);
        forall i | 0 <= i < n ensures parts[i] >= 0 {
          AllocatedNonNegative(total, weights, i);
        }
      }
    }
  }

  /** The smallest case: two units over four equal weights leave the first part at minus one. */
  lemma {:induction false} AllocatedNegativeExample()
    ensures Treacherous(2, 4) && Allocated(2.0, [1.0, 1.0, 1.0, 1.0]) == [-1, 1, 1, 1]
  {
    var weights := [1.0, 1.0, 1.0, 1.0];
    SumRealConstant(weights, 1.0);
    var rounded := RoundAll(Shares(2.0, weights));
    assert rounded == [1, 1, 1, 1];
    assert rounded[..3] == [1, 1, 1] && [1, 1, 1][..2] == [1, 1] && [1, 1][..1] == [1];
    assert Sum([1]) == 1 && Sum([1, 1]) == 2;
  }
}
