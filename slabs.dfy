/** Income-tax slabs as data: an ascending list of (lower limit, marginal rate) pairs. The tax on an
    income is the sum, over the slabs, of the rate times the part of the income that falls in that
    slab. Amounts are kept exact in hundredths of a rupee: a rate in whole percent times rupees. */
module Slabs {

  /** Income above `from` (up to the next slab's `from`) is taxed at `ratePct` percent. */
  datatype Slab = Slab(from: int, ratePct: nat)

  /** Each slab starts strictly above the one before it. */
  predicate Ascending(slabs: seq<Slab>) {
    forall i :: 0 < i < |slabs| ==> slabs[i - 1].from < slabs[i].from
  }

  function Max(a: int, b: int): int { if a < b then b else a }
  function Min(a: int, b: int): int { if a < b then a else b }

  /** The part of `income` that falls in the first slab. */
  function FirstSlabPortion(slabs: seq<Slab>, income: int): (p: nat)
    requires |slabs| > 0
  {
    if |slabs| == 1 then Max(0, income - slabs[0].from)
    else Max(0, Min(income, slabs[1].from) - slabs[0].from)
  }

  /** Tax in hundredths of a rupee under a marginal-rate schedule. */
  function SlabTax(slabs: seq<Slab>, income: int): (h: nat)
  {
    if |slabs| == 0 then 0
    else slabs[0].ratePct * FirstSlabPortion(slabs, income) + SlabTax(slabs[1..], income)
  }

  /** The marginal rate of the rupee from `income` to `income + 1`: that of the last slab starting
      at or below `income`, or 0 below the first slab. */
  function RateAt(slabs: seq<Slab>, income: int): (rate: nat)
  {
    if |slabs| == 0 || income < slabs[|slabs| - 1].from then
      (if |slabs| == 0 then 0 else RateAt(slabs[..|slabs| - 1], income))
    else slabs[|slabs| - 1].ratePct
  }

  /** No marginal rate exceeds a bound on all the slab rates. */
  lemma {:induction false} RateAtBounded(slabs: seq<Slab>, income: int, bound: nat)
    requires forall i :: 0 <= i < |slabs| ==> slabs[i].ratePct <= bound
    ensures RateAt(slabs, income) <= bound
    decreases |slabs|
  {
    if |slabs| > 0 && income < slabs[|slabs| - 1].from {
      var init := slabs[..|slabs| - 1];
      assert forall i :: 0 <= i < |init| ==> init[i] == slabs[i];
      RateAtBounded(init, income, bound);
    }
  }

  /** Rate of the first slab's portion for the one rupee above `income`. */
  lemma FirstPortionStep(slabs: seq<Slab>, income: int)
    requires |slabs| > 0 && Ascending(slabs)
    ensures FirstSlabPortion(slabs, income + 1) - FirstSlabPortion(slabs, income)
         == if slabs[0].from <= income && (|slabs| == 1 || income < slabs[1].from) then 1 else 0
  {
  }

  /** The rate that applies above `income` is the first slab's when `income` lies in it, and
      otherwise that of the remaining slabs. */
  lemma {:induction false} RateAtSplit(slabs: seq<Slab>, income: int)
    requires |slabs| > 0 && Ascending(slabs)
    ensures RateAt(slabs, income)
         == if income < slabs[0].from then 0
            else if |slabs| == 1 || income < slabs[1].from then slabs[0].ratePct
            else RateAt(slabs[1..], income)
    decreases |slabs|
  {
    var n := |slabs|;
    if n > 1 {
      var init := slabs[..n - 1];
      assert Ascending(init);
      if income < slabs[n - 1].from {
        RateAtSplit(init, income);
        assert init[0] == slabs[0];
        if n > 2 {
          assert init[1] == slabs[1];
          assert init[1..] == slabs[1..][..n - 2];
        }
        if 1 < n - 1 && slabs[1].from <= income {
          assert RateAt(slabs[1..], income) == RateAt(slabs[1..][..n - 2], income);
        }
      } else {
        assert slabs[1..][n - 2] == slabs[n - 1];
        AscendingFrom(slabs, 0, n - 2);
        if n > 2 {
          assert slabs[1].from <= slabs[n - 1].from by {
            AscendingFrom(slabs, 1, n - 1);
          }
        }
      }
    }
  }

  lemma {:induction false} AscendingFrom(slabs: seq<Slab>, i: nat, j: nat)
    requires Ascending(slabs) && i <= j < |slabs|
    ensures slabs[i].from <= slabs[j].from
    decreases j - i
  {
    if i < j {
      AscendingFrom(slabs, i, j - 1);
    }
  }

  /** No jumps: one more rupee of income adds exactly the marginal rate (in hundredths). */
  lemma {:induction false} SlabTaxStep(slabs: seq<Slab>, income: int)
    requires Ascending(slabs)
    ensures SlabTax(slabs, income + 1) - SlabTax(slabs, income) == RateAt(slabs, income)
    decreases |slabs|
  {
    if |slabs| > 0 {
      var rest := slabs[1..];
      assert Ascending(rest);
      SlabTaxStep(rest, income);
      FirstPortionStep(slabs, income);
      RateAtSplit(slabs, income);
      var p := FirstSlabPortion(slabs, income);
      ScaleStep(slabs[0].ratePct, p, FirstSlabPortion(slabs, income + 1) - p);
      if income < slabs[0].from && |rest| > 0 {
        RestBelow(slabs, income);
      }
      if |slabs| > 1 && slabs[1].from <= income {
        assert slabs[0].from <= income;
      }
      if income < slabs[0].from || |slabs| == 1 || income < slabs[1].from {
        if |rest| > 0 {
          assert income < rest[0].from;
          RestBelow(rest, income);
          RateAtSplit(rest, income);
        }
      }
    }
  }

  /** Above `income` and below every slab, nothing is owed and the rate is 0. */
  lemma {:induction false} RestBelow(slabs: seq<Slab>, income: int)
    requires |slabs| > 0 && Ascending(slabs) && income < slabs[0].from
    ensures RateAt(slabs, income) == 0 && SlabTax(slabs, income) == 0 && SlabTax(slabs, income + 1) == 0
    decreases |slabs|
  {
    RateAtSplit(slabs, income);
    if |slabs| > 1 {
      assert Ascending(slabs[1..]);
      RestBelow(slabs[1..], income);
    }
  }

  /** More income never means less tax. */
  lemma {:induction false} SlabTaxMonotone(slabs: seq<Slab>, x: int, y: int)
    requires x <= y
    ensures SlabTax(slabs, x) <= SlabTax(slabs, y)
    decreases |slabs|
  {
    if |slabs| > 0 {
      SlabTaxMonotone(slabs[1..], x, y);
      ScaleMonotone(slabs[0].ratePct, FirstSlabPortion(slabs, x), FirstSlabPortion(slabs, y));
    }
  }

  /** A larger portion at the same rate is more tax. */
  lemma {:induction false} ScaleMonotone(rate: nat, a: int, b: int)
    requires a <= b
    ensures rate * a <= rate * b
    decreases rate
  {
    if rate > 0 {
      ScaleMonotone(rate - 1, a, b);
      assert rate * a == (rate - 1) * a + a;
      assert rate * b == (rate - 1) * b + b;
    }
  }

  /** The tax on a portion grown by `d` grows by the rate times `d`. */
  lemma ScaleStep(rate: int, a: int, d: int)
    ensures rate * (a + d) == rate * a + rate * d
  {
  }

  /** Nothing is owed up to the first slab's lower limit. */
  lemma {:induction false} SlabTaxZeroBelow(slabs: seq<Slab>, income: int)
    requires |slabs| > 0 && Ascending(slabs) && income <= slabs[0].from
    ensures SlabTax(slabs, income) == 0
    decreases |slabs|
  {
    if |slabs| > 1 {
      assert Ascending(slabs[1..]);
      SlabTaxZeroBelow(slabs[1..], income);
    }
  }

  /** Something is owed on any income above the first limit when the first rate is positive. */
  lemma {:induction false} SlabTaxPositiveAbove(slabs: seq<Slab>, income: int)
    requires |slabs| > 0 && Ascending(slabs) && slabs[0].ratePct > 0 && slabs[0].from < income
    ensures SlabTax(slabs, income) > 0
  {
    assert FirstSlabPortion(slabs, income) > 0;
  }
}
