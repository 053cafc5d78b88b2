/**
 * Each co-owner's share of bills and provisions, in proportion to their tantiemes.
 * Amounts are exact reals: the float64 rounding of the Go code is not modelled, and
 * a total of zero tantiemes (a division by zero there) is excluded by `requires`.
 */
module Persons {

  datatype Person = Person(name: string, tantieme: int)
  /** `labelText` is the bill's Label (`label` is a keyword in Dafny). */
  datatype Bill = Bill(labelText: string, amount: real)
  /** `labelText` is the provision's Label. */
  datatype Provision = Provision(labelText: string, amount: real)

  /** The fraction of every amount that falls to `p`. */
  function Share(p: Person, totalTantiemes: int): real
    requires totalTantiemes != 0
  {
    p.tantieme as real / totalTantiemes as real
  }

  /** What `p` owes of one bill. */
  function CalculateDue(p: Person, totalTantiemes: int, bill: Bill): (due: real)
    requires totalTantiemes != 0
    ensures due * totalTantiemes as real == p.tantieme as real * bill.amount
  {
    p.tantieme as real / totalTantiemes as real * bill.amount
  }

  /** What `p` is credited of one provision. */
  function CalculateProvision(p: Person, totalTantiemes: int, provision: Provision): (credit: real)
    requires totalTantiemes != 0
    ensures credit * totalTantiemes as real == p.tantieme as real * provision.amount
  {
    p.tantieme as real / totalTantiemes as real * provision.amount
  }

  /** The sum of the bills' amounts. */
  function BillsTotal(bills: seq<Bill>): real {
    if bills == [] then 0.0 else BillsTotal(bills[..|bills| - 1]) + bills[|bills| - 1].amount
  }

  /** The sum of the provisions' amounts. */
  function ProvisionsTotal(provisions: seq<Provision>): real {
    if provisions == [] then 0.0 else ProvisionsTotal(provisions[..|provisions| - 1]) + provisions[|provisions| - 1].amount
  }

  /** Σ CalculateDue over the bills, in order. */
  function Dues(p: Person, totalTantiemes: int, bills: seq<Bill>): real
    requires totalTantiemes != 0
  {
    if bills == [] then 0.0
    else Dues(p, totalTantiemes, bills[..|bills| - 1]) + CalculateDue(p, totalTantiemes, bills[|bills| - 1])
  }

  /** Σ CalculateProvision over the provisions, in order. */
  function Credits(p: Person, totalTantiemes: int, provisions: seq<Provision>): real
    requires totalTantiemes != 0
  {
    if provisions == [] then 0.0
    else Credits(p, totalTantiemes, provisions[..|provisions| - 1]) + CalculateProvision(p, totalTantiemes, provisions[|provisions| - 1])
  }

  /** A person's balance: credited provisions minus owed bills. */
  function Left(p: Person, totalTantiemes: int, bills: seq<Bill>, provisions: seq<Provision>): real
    requires totalTantiemes != 0
  {
    Credits(p, totalTantiemes, provisions) - Dues(p, totalTantiemes, bills)
  }

  /**
   * CalculateLeft: subtracts each bill's due, then adds each provision's credit. The
   * result is the person's share of (provisions minus bills).
   */
  method CalculateLeft(p: Person, totalTantiemes: int, bills: seq<Bill>, provisions: seq<Provision>) returns (balance: real)
    requires totalTantiemes != 0
    ensures balance == Left(p, totalTantiemes, bills, provisions)
    ensures balance == Share(p, totalTantiemes) * (ProvisionsTotal(provisions) - BillsTotal(bills))
  {
    balance := 0.0;
    for i := 0 to |bills|
      invariant balance == -Dues(p, totalTantiemes, bills[..i])
    {
      assert bills[..i + 1][..i] == bills[..i];
      balance := balance - CalculateDue(p, totalTantiemes, bills[i]);
    }
    assert bills[..|bills|] == bills;
    for j := 0 to |provisions|
      invariant balance == Credits(p, totalTantiemes, provisions[..j]) - Dues(p, totalTantiemes, bills)
    {
      assert provisions[..j + 1][..j] == provisions[..j];
      balance := balance + CalculateProvision(p, totalTantiemes, provisions[j]);
    }
    assert provisions[..|provisions|] == provisions;
    LeftIsProportional(p, totalTantiemes, bills, provisions);
  }

  lemma {:induction false} DuesAreProportional(p: Person, totalTantiemes: int, bills: seq<Bill>)
    requires totalTantiemes != 0
    ensures Dues(p, totalTantiemes, bills) == Share(p, totalTantiemes) * BillsTotal(bills)
    decreases |bills|
  {
    if bills != [] {
      DuesAreProportional(p, totalTantiemes, bills[..|bills| - 1]);
    }
  }

  lemma {:induction false} CreditsAreProportional(p: Person, totalTantiemes: int, provisions: seq<Provision>)
    requires totalTantiemes != 0
    ensures Credits(p, totalTantiemes, provisions) == Share(p, totalTantiemes) * ProvisionsTotal(provisions)
    decreases |provisions|
  {
    if provisions != [] {
      CreditsAreProportional(p, totalTantiemes, provisions[..|provisions| - 1]);
    }
  }

  /** In exact arithmetic the balance is tantieme × (Σ provisions − Σ bills) / total. */
  lemma LeftIsProportional(p: Person, totalTantiemes: int, bills: seq<Bill>, provisions: seq<Provision>)
    requires totalTantiemes != 0
    ensures Left(p, totalTantiemes, bills, provisions)
            == Share(p, totalTantiemes) * (ProvisionsTotal(provisions) - BillsTotal(bills))
  {
    DuesAreProportional(p, totalTantiemes, bills);
    CreditsAreProportional(p, totalTantiemes, provisions);
  }

  /** No bills and no provisions: nothing owed, nothing credited. */
  lemma NothingLeftOfNothing(p: Person, totalTantiemes: int)
    requires totalTantiemes != 0
    ensures Left(p, totalTantiemes, [], []) == 0.0
  {
  }

  function ScaleBills(bills: seq<Bill>, k: real): (r: seq<Bill>)
    ensures |r| == |bills| && forall i :: 0 <= i < |r| ==> r[i] == bills[i].(amount := k * bills[i].amount)
  {
    seq(|bills|, i requires 0 <= i < |bills| => bills[i].(amount := k * bills[i].amount))
  }

  function ScaleProvisions(provisions: seq<Provision>, k: real): (r: seq<Provision>)
    ensures |r| == |provisions| && forall i :: 0 <= i < |r| ==> r[i] == provisions[i].(amount := k * provisions[i].amount)
  {
    seq(|provisions|, i requires 0 <= i < |provisions| => provisions[i].(amount := k * provisions[i].amount))
  }

  lemma {:induction false} DuesAdd(p: Person, totalTantiemes: int, bills: seq<Bill>, more: seq<Bill>)
    requires totalTantiemes != 0
    ensures Dues(p, totalTantiemes, bills + more) == Dues(p, totalTantiemes, bills) + Dues(p, totalTantiemes, more)
    decreases |more|
  {
    if more == [] {
      assert bills + more == bills;
    } else {
      var init := more[..|more| - 1];
      assert (bills + more)[..|bills + more| - 1] == bills + init;
      DuesAdd(p, totalTantiemes, bills, init);
    }
  }

  lemma {:induction false} CreditsAdd(p: Person, totalTantiemes: int, provisions: seq<Provision>, more: seq<Provision>)
    requires totalTantiemes != 0
    ensures Credits(p, totalTantiemes, provisions + more) == Credits(p, totalTantiemes, provisions) + Credits(p, totalTantiemes, more)
    decreases |more|
  {
    if more == [] {
      assert provisions + more == provisions;
    } else {
      var init := more[..|more| - 1];
      assert (provisions + more)[..|provisions + more| - 1] == provisions + init;
      CreditsAdd(p, totalTantiemes, provisions, init);
    }
  }

  /** The balance is additive: over two batches of bills and provisions it is the sum of the two balances. */
  lemma LeftIsAdditive(p: Person, totalTantiemes: int, bills: seq<Bill>, provisions: seq<Provision>,
                       moreBills: seq<Bill>, moreProvisions: seq<Provision>)
    requires totalTantiemes != 0
    ensures Left(p, totalTantiemes, bills + moreBills, provisions + moreProvisions)
            == Left(p, totalTantiemes, bills, provisions) + Left(p, totalTantiemes, moreBills, moreProvisions)
  {
    DuesAdd(p, totalTantiemes, bills, moreBills);
    CreditsAdd(p, totalTantiemes, provisions, moreProvisions);
  }

  lemma {:induction false} DuesScale(p: Person, totalTantiemes: int, bills: seq<Bill>, k: real)
    requires totalTantiemes != 0
    ensures Dues(p, totalTantiemes, ScaleBills(bills, k)) == k * Dues(p, totalTantiemes, bills)
    decreases |bills|
  {
    if bills != [] {
      var init := bills[..|bills| - 1];
      var scaled, scaledInit := ScaleBills(bills, k), ScaleBills(init, k);
      forall i | 0 <= i < |init| ensures scaled[..|bills| - 1][i] == scaledInit[i] {
        assert init[i] == bills[i];
      }
      assert scaled[..|bills| - 1] == scaledInit;
      var last := bills[|bills| - 1];
      calc {
        Dues(p, totalTantiemes, scaled);
        Dues(p, totalTantiemes, scaledInit) + CalculateDue(p, totalTantiemes, scaled[|bills| - 1]);
        { DuesScale(p, totalTantiemes, init, k);
          DueScales(p, totalTantiemes, last, k); }
        k * Dues(p, totalTantiemes, init) + k * CalculateDue(p, totalTantiemes, last);
        k * (Dues(p, totalTantiemes, init) + CalculateDue(p, totalTantiemes, last));
        k * Dues(p, totalTantiemes, bills);
      }
    }
  }

  lemma {:induction false} CreditsScale(p: Person, totalTantiemes: int, provisions: seq<Provision>, k: real)
    requires totalTantiemes != 0
    ensures Credits(p, totalTantiemes, ScaleProvisions(provisions, k)) == k * Credits(p, totalTantiemes, provisions)
    decreases |provisions|
  {
    if provisions != [] {
      var init := provisions[..|provisions| - 1];
      var scaled, scaledInit := ScaleProvisions(provisions, k), ScaleProvisions(init, k);
      forall i | 0 <= i < |init| ensures scaled[..|provisions| - 1][i] == scaledInit[i] {
        assert init[i] == provisions[i];
      }
      assert scaled[..|provisions| - 1] == scaledInit;
      var last := provisions[|provisions| - 1];
      calc {
        Credits(p, totalTantiemes, scaled);
        Credits(p, totalTantiemes, scaledInit) + CalculateProvision(p, totalTantiemes, scaled[|provisions| - 1]);
        { CreditsScale(p, totalTantiemes, init, k);
          ProvisionScales(p, totalTantiemes, last, k); }
        k * Credits(p, totalTantiemes, init) + k * CalculateProvision(p, totalTantiemes, last);
        k * (Credits(p, totalTantiemes, init) + CalculateProvision(p, totalTantiemes, last));
        k * Credits(p, totalTantiemes, provisions);
      }
    }
  }

  /** Scaling one bill scales what is owed of it. */
  lemma DueScales(p: Person, totalTantiemes: int, bill: Bill, k: real)
    requires totalTantiemes != 0
    ensures CalculateDue(p, totalTantiemes, bill.(amount := k * bill.amount)) == k * CalculateDue(p, totalTantiemes, bill)
  {
  }

  /** Scaling one provision scales what is credited of it. */
  lemma ProvisionScales(p: Person, totalTantiemes: int, provision: Provision, k: real)
    requires totalTantiemes != 0
    ensures CalculateProvision(p, totalTantiemes, provision.(amount := k * provision.amount))
            == k * CalculateProvision(p, totalTantiemes, provision)
  {
  }

  /** The balance is linear in the amounts: scaling every bill and provision by k scales it by k. */
  lemma LeftIsLinear(p: Person, totalTantiemes: int, bills: seq<Bill>, provisions: seq<Provision>, k: real)
    requires totalTantiemes != 0
    ensures Left(p, totalTantiemes, ScaleBills(bills, k), ScaleProvisions(provisions, k))
            == k * Left(p, totalTantiemes, bills, provisions)
  {
    DuesScale(p, totalTantiemes, bills, k);
    CreditsScale(p, totalTantiemes, provisions, k);
    calc {
      Left(p, totalTantiemes, ScaleBills(bills, k), ScaleProvisions(provisions, k));
      Credits(p, totalTantiemes, ScaleProvisions(provisions, k)) - Dues(p, totalTantiemes, ScaleBills(bills, k));
      k * Credits(p, totalTantiemes, provisions) - k * Dues(p, totalTantiemes, bills);
      k * (Credits(p, totalTantiemes, provisions) - Dues(p, totalTantiemes, bills));
      k * Left(p, totalTantiemes, bills, provisions);
    }
  }

  /** 2 tantiemes out of 5 owe 400 of a bill of 1000, and are credited 400 of a provision of 1000. */
  lemma TwoFifthsOfAThousand()
    ensures CalculateDue(Person("John Doe", 2), 5, Bill("Electricity", 1000.0)) == 400.0
    ensures CalculateProvision(Person("John Doe", 2), 5, Provision("Trimestre 1 2025", 1000.0)) == 400.0
  {
  }

  /** Half the shares, bills 1800 and 2600, provisions 2000 and 2200: a balance of −100. */
  lemma HalfShareExample()
    ensures Left(Person("John Doe", 5), 10,
                 [Bill("Travaux 1 2025", 1800.0), Bill("Travaux 2 2025", 2600.0)],
                 [Provision("Trimestre 1 2025", 2000.0), Provision("Trimestre 2 2025", 2200.0)]) == -100.0
  {
    var bills := [Bill("Travaux 1 2025", 1800.0), Bill("Travaux 2 2025", 2600.0)];
    var provisions := [Provision("Trimestre 1 2025", 2000.0), Provision("Trimestre 2 2025", 2200.0)];
    LeftIsProportional(Person("John Doe", 5), 10, bills, provisions);
    assert bills[..1] == [bills[0]];
    assert provisions[..1] == [provisions[0]];
  }
}
