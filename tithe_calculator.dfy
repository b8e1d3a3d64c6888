/** The tithe calculator: a list of income amounts, their 10% tithes and the tithe total. */
module TitheCalculatorPage {
  import opened Wrappers

  /** One row of the calculation table. */
  datatype TitheCalculation = TitheCalculation(monto: real, diezmo: real, porcentaje: int)

  /** `calculateTithe(a)`: the tithe is a tenth of the amount. */
  function CalculateTithe(a: real): (c: TitheCalculation)
    ensures c.monto == a && c.porcentaje == 10
    ensures c.diezmo * 10.0 == a
  {
    TitheCalculation(a, a * 0.1, 10)
  }

  /** `calcs.reduce((sum, c) => sum + c.diezmo, 0)` */
  function TitheSum(calcs: seq<TitheCalculation>): real {
    if calcs == [] then 0.0 else TitheSum(calcs[..|calcs| - 1]) + calcs[|calcs| - 1].diezmo
  }

  function AmountSum(amounts: seq<real>): real {
    if amounts == [] then 0.0 else AmountSum(amounts[..|amounts| - 1]) + amounts[|amounts| - 1]
  }

  /** `calcs` is the row-by-row calculation of `amounts`. */
  predicate CalculatedFrom(calcs: seq<TitheCalculation>, amounts: seq<real>) {
    |calcs| == |amounts| && forall i :: 0 <= i < |amounts| ==> calcs[i] == CalculateTithe(amounts[i])
  }

  /** The total of the calculated tithes is a tenth of the total amount. */
  lemma {:induction false} TitheSumIsTenth(calcs: seq<TitheCalculation>, amounts: seq<real>)
    requires CalculatedFrom(calcs, amounts)
    ensures TitheSum(calcs) * 10.0 == AmountSum(amounts)
    decreases |amounts|
  {
    if amounts != [] {
      var n := |amounts| - 1;
      assert CalculatedFrom(calcs[..n], amounts[..n]);
      TitheSumIsTenth(calcs[..n], amounts[..n]);
    }
  }

  /** `amounts.map(calculateTithe)` */
  method CalculateAll(amounts: seq<real>) returns (calcs: seq<TitheCalculation>)
    ensures CalculatedFrom(calcs, amounts)
  {
    calcs := [];
    var i := 0;
    while i < |amounts|
      invariant 0 <= i <= |amounts|
      invariant CalculatedFrom(calcs, amounts[..i])
    {
      calcs := calcs + [CalculateTithe(amounts[i])];
      i := i + 1;
    }
    assert amounts[..i] == amounts;
  }

  /** The `reduce` that totals the tithes. */
  method TotalOf(calcs: seq<TitheCalculation>) returns (total: real)
    ensures total == TitheSum(calcs)
  {
    total := 0.0;
    var i := 0;
    while i < |calcs|
      invariant 0 <= i <= |calcs|
      invariant total == TitheSum(calcs[..i])
    {
      assert calcs[..i + 1][..i] == calcs[..i];
      total := total + calcs[i].diezmo;
      i := i + 1;
    }
    assert calcs[..i] == calcs;
  }

  /** `filter((_, i) => i !== index)`: drop position `index`, if there is one. */
  function RemoveAt(s: seq<real>, index: int): (r: seq<real>)
    ensures 0 <= index < |s| ==> |r| == |s| - 1 && (forall i :: 0 <= i < index ==> r[i] == s[i])
                                 && (forall i :: index <= i < |r| ==> r[i] == s[i + 1])
    ensures !(0 <= index < |s|) ==> r == s
  {
    if 0 <= index < |s| then s[..index] + s[index + 1..] else s
  }

  class TitheCalculator {
    var amounts: seq<real>
    var calculations: seq<TitheCalculation>
    var totalTithe: real

    /** The calculations and the total reflect the current amounts. */
    ghost predicate UpToDate()
      reads this
    {
      CalculatedFrom(calculations, amounts) && totalTithe == TitheSum(calculations)
    }

    /** The page starts with one zero amount and no calculations. */
    constructor()
      ensures amounts == [0.0] && calculations == [] && totalTithe == 0.0
    {
      amounts := [0.0];
      calculations := [];
      totalTithe := 0.0;
    }

    /** Recompute the table and the total from `newAmounts`, as the two handlers do. */
    method SetAmounts(newAmounts: seq<real>)
      modifies this
      ensures amounts == newAmounts && UpToDate()
      ensures totalTithe * 10.0 == AmountSum(amounts)
    {
      amounts := newAmounts;
      calculations := CalculateAll(newAmounts);
      totalTithe := TotalOf(calculations);
      TitheSumIsTenth(calculations, amounts);
    }

    /** `handleAmountChange(index, value)`: an unparsable or zero entry becomes 0. */
    method HandleAmountChange(index: nat, value: Option<real>)
      requires index < |amounts|
      modifies this
      ensures amounts == old(amounts)[index := value.GetOr(0.0)]
      ensures UpToDate() && totalTithe * 10.0 == AmountSum(amounts)
    {
      SetAmounts(amounts[index := value.GetOr(0.0)]);
    }

    /** `addAmount()`: one more zero entry; the table and the total are not recomputed. */
    method AddAmount()
      modifies this
      ensures amounts == old(amounts) + [0.0]
      ensures calculations == old(calculations) && totalTithe == old(totalTithe)
    {
      amounts := amounts + [0.0];
    }

    /** `removeAmount(index)`: only while more than one entry remains. */
    method RemoveAmount(index: int)
      modifies this
      ensures |old(amounts)| > 1 ==> amounts == RemoveAt(old(amounts), index) && UpToDate()
      ensures |old(amounts)| > 1 ==> totalTithe * 10.0 == AmountSum(amounts)
      ensures |old(amounts)| <= 1 ==> amounts == old(amounts) && calculations == old(calculations)
      ensures |old(amounts)| <= 1 ==> totalTithe == old(totalTithe)
      ensures |old(amounts)| >= 1 ==> |amounts| >= 1
    {
      if |amounts| > 1 {
        SetAmounts(RemoveAt(amounts, index));
      }
    }
  }

  /** Adding a zero entry does not change the amounts' total, so the stale total is still right. */
  lemma {:induction false} AddZeroKeepsSum(amounts: seq<real>)
    ensures AmountSum(amounts + [0.0]) == AmountSum(amounts)
  {
    assert (amounts + [0.0])[..|amounts|] == amounts;
  }
}
