/** Document totals under the three VAT modes (`apps/api/src/sales/totals.service.ts`). */
module Totals {
  import opened Money

  datatype Line = Line(qty: int, unitPrice: int, discount: int)

  datatype VatMode = NonVat | VatNai | VatNok

  datatype DocumentTotals = DocumentTotals(lines: seq<int>, subtotal: int, vat: int, wht: int, grand: int)

  /** 7%. */
  const VAT_PERCENT: real := 7.0

  /** `qty * unitPrice - discount`, rounded once; the quantity scale is the wider one. */
  function NetLine(line: Line): int {
    Round((line.qty * line.unitPrice) as real / SCALE6 - line.discount as real)
  }

  function VatOn(subtotal: int): int {
    Round(subtotal as real * VAT_PERCENT / 100.0)
  }

  function VatBackOut(grand: int): int {
    Round(grand as real * 100.0 / (100.0 + VAT_PERCENT))
  }

  function Compute(lines: seq<Line>, mode: VatMode, whtRate: int): DocumentTotals {
    var computed := seq(|lines|, i requires 0 <= i < |lines| => NetLine(lines[i]));
    var sum := Sum(computed);
    var (subtotal, vat, grand) :=
      match mode
      case NonVat => (sum, 0, sum)
      case VatNai => var s := VatBackOut(sum); (s, sum - s, sum)
      case VatNok => var v := VatOn(sum); (sum, v, sum + v);
    var wht := if whtRate == 0 then 0 else Round((subtotal * whtRate) as real / SCALE6);
    DocumentTotals(computed, subtotal, vat, wht, grand)
  }

  /** A line is its quantity times its price, less its discount, rounded once. */
  lemma {:induction false} NetLineMeans(line: Line)
    ensures Nearest(line.qty * line.unitPrice - 1000000 * line.discount, 1000000, NetLine(line))
  {
    var gross, net := line.qty * line.unitPrice, line.qty * line.unitPrice - 1000000 * line.discount;
    assert gross as real / SCALE6 - line.discount as real == Quotient(net as real, SCALE6);
    RoundIsNearest(net, 1000000);
    hide Nearest, Round;
  }

  lemma {:induction false} VatMeans(amount: int)
    ensures Nearest(7 * amount, 100, VatOn(amount)) && Nearest(100 * amount, 107, VatBackOut(amount))
  {
    RoundIsNearest(7 * amount, 100);
    RoundIsNearest(100 * amount, 107);
    hide Nearest, Round;
  }

  lemma {:induction false} WithheldMeans(subtotal: int, rate: int)
    ensures Nearest(subtotal * rate, 1000000, if rate == 0 then 0 else Round((subtotal * rate) as real / SCALE6))
  {
    if rate != 0 {
      RoundIsNearest(subtotal * rate, 1000000);
      hide Nearest, Round;
    }
  }

  /**
   What a document's totals are: each line net of its discount; without VAT the subtotal is everything; on
   inclusive prices the subtotal is 100/107 of the grand total; on exclusive ones 7% of the subtotal comes on
   top; and withholding is always on the subtotal. Each is rounded once.
   */
  lemma {:induction false} ComputeMeans(lines: seq<Line>, mode: VatMode, whtRate: int)
    ensures var d := Compute(lines, mode, whtRate);
            && |d.lines| == |lines|
            && (forall i | 0 <= i < |lines| ::
                  Nearest(lines[i].qty * lines[i].unitPrice - 1000000 * lines[i].discount, 1000000, d.lines[i]))
            && (mode == NonVat ==> d.vat == 0 && d.subtotal == d.grand == Sum(d.lines))
            && (mode == VatNai ==>
                  d.grand == Sum(d.lines) && Nearest(100 * d.grand, 107, d.subtotal) && d.vat == d.grand - d.subtotal)
            && (mode == VatNok ==>
                  d.subtotal == Sum(d.lines) && Nearest(7 * d.subtotal, 100, d.vat) && d.grand == d.subtotal + d.vat)
            && Nearest(d.subtotal * whtRate, 1000000, d.wht)
  {
    var d := Compute(lines, mode, whtRate);
    forall i | 0 <= i < |lines|
      ensures Nearest(lines[i].qty * lines[i].unitPrice - 1000000 * lines[i].discount, 1000000, NetLine(lines[i]))
    {
      NetLineMeans(lines[i]);
    }
    VatMeans(Sum(d.lines));
    WithheldMeans(d.subtotal, whtRate);
    hide Nearest, Round, NetLine, VatOn, VatBackOut, Sum;
  }

  /** Backing VAT out of an exclusive document's grand total recovers its subtotal, always exactly. */
  lemma {:induction false} VatRoundTrip(subtotal: int)
    ensures VatBackOut(subtotal + VatOn(subtotal)) == subtotal
  {
  }

  /** In the other direction the grand total comes back within one unit. */
  lemma {:induction false} VatRoundTripInclusive(grand: int)
    ensures var s := VatBackOut(grand); -1 <= s + VatOn(s) - grand <= 1
  {
  }

  /** The integer inequalities the two roundings leave. */
  lemma {:induction false} BackOutAndOn(grand: nat) returns (s: nat, v: nat)
    ensures s == VatBackOut(grand) && v == VatOn(s)
    ensures 214 * s - 107 <= 200 * grand < 214 * s + 107
    ensures 200 * v - 100 <= 14 * s < 200 * v + 100
  {
    RoundIsMonotoneAndOdd(0.0, grand as real * 100.0 / 107.0);
    s := VatBackOut(grand);
    RoundIsMonotoneAndOdd(0.0, s as real * 7.0 / 100.0);
    v := VatOn(s);
  }

  /** The remainders modulo 107 whose unit is lost. */
  const LOST: set<int> := {8, 23, 38, 53, 69, 84, 99}

  lemma {:induction false} LostRemainders(k: nat, r: nat, s: int, v: int)
    requires r < 107
    requires 214 * s - 107 <= 200 * (107 * k + r) < 214 * s + 107
    requires 200 * v - 100 <= 14 * s < 200 * v + 100
    ensures s + v == 107 * k + r <==> r !in LOST
  {
    LostBelow107(r, s - 100 * k, v - 7 * k);
  }

  lemma {:induction false} LostBelow107(r: nat, s: int, v: int)
    requires r < 107
    requires 214 * s - 107 <= 200 * r < 214 * s + 107
    requires 200 * v - 100 <= 14 * s < 200 * v + 100
    ensures s + v == r <==> r !in LOST
  {
    var gap := r - s;
    assert gap in {0, 1, 2, 3, 4, 5, 6, 7} && v in {0, 1, 2, 3, 4, 5, 6, 7};
  }

  /** Both roundings are odd: a negative total is split like the positive one it mirrors. */
  lemma {:induction false} VatMirrors(amount: int)
    ensures VatBackOut(-amount) == -VatBackOut(amount) && VatOn(-amount) == -VatOn(amount)
  {
    var x := amount as real * 100.0 / 107.0;
    RoundIsMonotoneAndOdd(x, x);
    assert (-amount) as real * 100.0 / 107.0 == -x;
    var y := amount as real * 7.0 / 100.0;
    RoundIsMonotoneAndOdd(y, y);
    assert (-amount) as real * 7.0 / 100.0 == -y;
  }

  /** The VAT-inclusive round trip is exact for all grand totals but those in seven classes modulo 107. */
  lemma {:induction false} VatRoundTripExactlyWhen(grand: int)
    ensures var s := VatBackOut(grand);
            s + VatOn(s) == grand <==> (if grand >= 0 then grand else -grand) % 107 !in LOST
  {
    var size := if grand >= 0 then grand else -grand;
    var s, v := BackOutAndOn(size);
    LostRemainders(size / 107, size % 107, s, v);
    VatMirrors(size);
    VatMirrors(s);
    hide VatBackOut, VatOn;
  }

  /** The lost unit cannot be recovered: those grand totals are no subtotal plus its VAT at all. */
  lemma {:induction false} VatRoundTripGap(s: int)
    ensures var grand := s + VatOn(s); (if grand >= 0 then grand else -grand) % 107 !in LOST
  {
    VatRoundTrip(s);
    VatRoundTripExactlyWhen(s + VatOn(s));
  }

  /** Subtotal and VAT reconcile to the grand total in every mode. */
  lemma {:induction false} TotalsReconcile(lines: seq<Line>, mode: VatMode, rate: int)
    ensures var d := Compute(lines, mode, rate);
            && d.subtotal + d.vat == d.grand
            && (if mode == VatNok then d.subtotal else d.grand) == Sum(d.lines)
  {
  }

  /** An inclusive document with an exclusive document's grand total is split the same way. */
  lemma {:induction false} ModesAgree(lines: seq<Line>, inclusive: seq<Line>, rate: int)
    requires Compute(inclusive, VatNai, rate).grand == Compute(lines, VatNok, rate).grand
    ensures var a, b := Compute(lines, VatNok, rate), Compute(inclusive, VatNai, rate);
            a.subtotal == b.subtotal && a.vat == b.vat && a.wht == b.wht
  {
  }
}
