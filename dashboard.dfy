/**
 * The dashboard's aggregation: the owner's persons, bills and provisions read row by
 * row, the sum of tantiemes, the global balance and the premium flag. The database is
 * replaced by what each step returned: the connection error if any, each query's rows
 * or error, and the premium lookup's outcome.
 */
module Dashboard {
  import opened Wrappers
  import opened Persons

  /**
   * One query's result set as the loop sees it: each row scans to a value or fails,
   * and once the rows are exhausted the iteration may report an error of its own.
   */
  datatype Rows<T> = Rows(scans: seq<Result<T>>, iterationError: Option<string>)

  datatype DashboardData = DashboardData(
    persons: seq<Person>,
    bills: seq<Bill>,
    provisions: seq<Provision>,
    totalTantiemes: int,
    balance: real,
    isPremium: bool)

  /** The zero value returned beside every error. */
  const NoData := DashboardData([], [], [], 0, 0.0, false)

  // ---------------------------------------------------------------------------
  // Specification of the row loops
  // ---------------------------------------------------------------------------

  /** The error of the first row that fails to scan, if any. */
  function FirstScanError<T>(scans: seq<Result<T>>): (e: Option<string>)
    ensures e.None? <==> forall i :: 0 <= i < |scans| ==> scans[i].Ok?
  {
    if scans == [] then None
    else if FirstScanError(scans[..|scans| - 1]).Some? then FirstScanError(scans[..|scans| - 1])
    else if scans[|scans| - 1].Err? then Some(scans[|scans| - 1].error)
    else None
  }

  /** The scanned values in row order (every scan succeeded). */
  function Values<T>(scans: seq<Result<T>>): (vs: seq<T>)
    requires FirstScanError(scans).None?
    ensures |vs| == |scans| && forall i :: 0 <= i < |vs| ==> scans[i] == Ok(vs[i])
  {
    if scans == [] then [] else Values(scans[..|scans| - 1]) + [scans[|scans| - 1].value]
  }

  /** The error the loop over `rows` ends with: the first failing scan, else the iteration's. */
  function RowsError<T>(rows: Rows<T>): Option<string> {
    if FirstScanError(rows.scans).Some? then FirstScanError(rows.scans) else rows.iterationError
  }

  /** An error at row k, after k clean rows, is the first error of the whole sequence. */
  lemma {:induction false} FirstErrorAt<T>(scans: seq<Result<T>>, k: int)
    requires 0 <= k < |scans| && FirstScanError(scans[..k]).None? && scans[k].Err?
    ensures FirstScanError(scans) == Some(scans[k].error)
    decreases |scans|
  {
    if |scans| == k + 1 {
      assert scans[..|scans| - 1] == scans[..k];
    } else {
      var init := scans[..|scans| - 1];
      assert init[..k] == scans[..k];
      FirstErrorAt(init, k);
    }
  }

  lemma CleanPrefix<T>(scans: seq<Result<T>>, i: int)
    requires 0 <= i < |scans| && FirstScanError(scans[..i]).None? && scans[i].Ok?
    ensures FirstScanError(scans[..i + 1]).None?
    ensures Values(scans[..i + 1]) == Values(scans[..i]) + [scans[i].value]
  {
    assert scans[..i + 1][..i] == scans[..i];
  }

  /** The sum of the persons' tantiemes. */
  function TotalTantiemes(persons: seq<Person>): int {
    if persons == [] then 0 else TotalTantiemes(persons[..|persons| - 1]) + persons[|persons| - 1].tantieme
  }

  /** What getDashboardData fails with, in the order its steps run; None on success. */
  function DashboardError(connection: Option<string>, personRows: Result<Rows<Person>>,
                          billRows: Result<Rows<Bill>>, provisionRows: Result<Rows<Provision>>): Option<string>
  {
    if connection.Some? then connection
    else if personRows.Err? then Some(personRows.error)
    else if billRows.Err? then Some(billRows.error)
    else if provisionRows.Err? then Some(provisionRows.error)
    else if RowsError(personRows.value).Some? then RowsError(personRows.value)
    else if RowsError(billRows.value).Some? then RowsError(billRows.value)
    else RowsError(provisionRows.value)
  }

  // ---------------------------------------------------------------------------
  // getDashboardData
  // ---------------------------------------------------------------------------

  /** The persons loop: appends each scanned person and adds its tantiemes to the total. */
  method ReadPersons(rows: Rows<Person>) returns (persons: seq<Person>, totalTantiemes: int, err: Option<string>)
    ensures err == RowsError(rows)
    ensures err.None? ==> persons == Values(rows.scans) && totalTantiemes == TotalTantiemes(persons)
  {
    persons, totalTantiemes := [], 0;
    var scans := rows.scans;
    for i := 0 to |scans|
      invariant FirstScanError(scans[..i]).None?
      invariant persons == Values(scans[..i])
      invariant totalTantiemes == TotalTantiemes(persons)
    {
      if scans[i].Err? {
        FirstErrorAt(scans, i);
        return [], 0, Some(scans[i].error);
      }
      CleanPrefix(scans, i);
      var person := scans[i].value;
      assert (persons + [person])[..|persons|] == persons;
      persons := persons + [person];
      totalTantiemes := totalTantiemes + person.tantieme;
    }
    assert scans[..|scans|] == scans;
    err := rows.iterationError;
  }

  /** The bills loop: appends each scanned bill and subtracts its amount from `balance`. */
  method ReadBills(rows: Rows<Bill>, balance0: real) returns (bills: seq<Bill>, balance: real, err: Option<string>)
    ensures err == RowsError(rows)
    ensures err.None? ==> bills == Values(rows.scans) && balance == balance0 - BillsTotal(bills)
  {
    bills, balance := [], balance0;
    var scans := rows.scans;
    for i := 0 to |scans|
      invariant FirstScanError(scans[..i]).None?
      invariant bills == Values(scans[..i])
      invariant balance == balance0 - BillsTotal(bills)
    {
      if scans[i].Err? {
        FirstErrorAt(scans, i);
        return [], 0.0, Some(scans[i].error);
      }
      CleanPrefix(scans, i);
      var bill := scans[i].value;
      assert (bills + [bill])[..|bills|] == bills;
      balance := balance - bill.amount;
      bills := bills + [bill];
    }
    assert scans[..|scans|] == scans;
    err := rows.iterationError;
  }

  /** The provisions loop: appends each scanned provision and adds its amount to `balance`. */
  method ReadProvisions(rows: Rows<Provision>, balance0: real) returns (provisions: seq<Provision>, balance: real, err: Option<string>)
    ensures err == RowsError(rows)
    ensures err.None? ==> provisions == Values(rows.scans) && balance == balance0 + ProvisionsTotal(provisions)
  {
    provisions, balance := [], balance0;
    var scans := rows.scans;
    for i := 0 to |scans|
      invariant FirstScanError(scans[..i]).None?
      invariant provisions == Values(scans[..i])
      invariant balance == balance0 + ProvisionsTotal(provisions)
    {
      if scans[i].Err? {
        FirstErrorAt(scans, i);
        return [], 0.0, Some(scans[i].error);
      }
      CleanPrefix(scans, i);
      var provision := scans[i].value;
      assert (provisions + [provision])[..|provisions|] == provisions;
      balance := balance + provision.amount;
      provisions := provisions + [provision];
    }
    assert scans[..|scans|] == scans;
    err := rows.iterationError;
  }

  /**
   * getDashboardData. `connection` is the connection manager's error, the three
   * `…Rows` are the queries' outcomes and `premium` is IsUserPremium's. Any error but
   * the premium lookup's aborts with the zero value; a premium error only means "not
   * premium".
   */
  method GetDashboardData(connection: Option<string>, personRows: Result<Rows<Person>>,
                          billRows: Result<Rows<Bill>>, provisionRows: Result<Rows<Provision>>,
                          premium: Result<bool>)
    returns (data: DashboardData, err: Option<string>)
    ensures err == DashboardError(connection, personRows, billRows, provisionRows)
    ensures err.Some? ==> data == NoData
    ensures err.None? ==>
              && data.persons == Values(personRows.value.scans)
              && data.bills == Values(billRows.value.scans)
              && data.provisions == Values(provisionRows.value.scans)
              && data.totalTantiemes == TotalTantiemes(data.persons)
              && data.balance == ProvisionsTotal(data.provisions) - BillsTotal(data.bills)
              && data.isPremium == (premium.Ok? && premium.value)
  {
    if connection.Some? {
      return NoData, connection;
    }
    if personRows.Err? {
      return NoData, Some(personRows.error);
    }
    if billRows.Err? {
      return NoData, Some(billRows.error);
    }
    if provisionRows.Err? {
      return NoData, Some(provisionRows.error);
    }
    var persons, totalTantiemes, personsErr := ReadPersons(personRows.value);
    if personsErr.Some? {
      return NoData, personsErr;
    }
    var bills, balance, billsErr := ReadBills(billRows.value, 0.0);
    if billsErr.Some? {
      return NoData, billsErr;
    }
    var provisions, finalBalance, provisionsErr := ReadProvisions(provisionRows.value, balance);
    if provisionsErr.Some? {
      return NoData, provisionsErr;
    }
    var isPremium := if premium.Ok? then premium.value else false;
    data := DashboardData(persons, bills, provisions, totalTantiemes, finalBalance, isPremium);
    err := None;
  }

  // ---------------------------------------------------------------------------
  // Conservation: the owners' balances add up to the dashboard's balance
  // ---------------------------------------------------------------------------

  /** Σ over the persons of their CalculateLeft balance. */
  function SumOfLefts(persons: seq<Person>, totalTantiemes: int, bills: seq<Bill>, provisions: seq<Provision>): real
    requires totalTantiemes != 0
  {
    if persons == [] then 0.0
    else SumOfLefts(persons[..|persons| - 1], totalTantiemes, bills, provisions)
         + Left(persons[|persons| - 1], totalTantiemes, bills, provisions)
  }

  /** Σ over the persons of their share. */
  function SumOfShares(persons: seq<Person>, totalTantiemes: int): real
    requires totalTantiemes != 0
  {
    if persons == [] then 0.0
    else SumOfShares(persons[..|persons| - 1], totalTantiemes) + Share(persons[|persons| - 1], totalTantiemes)
  }

  /** The shares add up to Σ tantiemes / total. */
  lemma {:induction false} SharesAddUp(persons: seq<Person>, totalTantiemes: int)
    requires totalTantiemes != 0
    ensures SumOfShares(persons, totalTantiemes) == TotalTantiemes(persons) as real / totalTantiemes as real
    decreases |persons|
  {
    if persons != [] {
      var init := persons[..|persons| - 1];
      var last := persons[|persons| - 1];
      SharesAddUp(init, totalTantiemes);
      calc {
        SumOfShares(persons, totalTantiemes);
        SumOfShares(init, totalTantiemes) + Share(last, totalTantiemes);
        TotalTantiemes(init) as real / totalTantiemes as real + last.tantieme as real / totalTantiemes as real;
        (TotalTantiemes(init) as real + last.tantieme as real) / totalTantiemes as real;
        TotalTantiemes(persons) as real / totalTantiemes as real;
      }
    }
  }

  /** Every balance is its share of the same net amount, so their sum is the sum of shares times it. */
  lemma {:induction false} LeftsAddUp(persons: seq<Person>, totalTantiemes: int, bills: seq<Bill>, provisions: seq<Provision>)
    requires totalTantiemes != 0
    ensures SumOfLefts(persons, totalTantiemes, bills, provisions)
            == SumOfShares(persons, totalTantiemes) * (ProvisionsTotal(provisions) - BillsTotal(bills))
    decreases |persons|
  {
    if persons != [] {
      var init := persons[..|persons| - 1];
      var last := persons[|persons| - 1];
      calc {
        SumOfLefts(persons, totalTantiemes, bills, provisions);
        SumOfLefts(init, totalTantiemes, bills, provisions) + Left(last, totalTantiemes, bills, provisions);
        { LeftsAddUp(init, totalTantiemes, bills, provisions);
          LeftIsProportional(last, totalTantiemes, bills, provisions); }
        SumOfShares(init, totalTantiemes) * (ProvisionsTotal(provisions) - BillsTotal(bills))
          + Share(last, totalTantiemes) * (ProvisionsTotal(provisions) - BillsTotal(bills));
        (SumOfShares(init, totalTantiemes) + Share(last, totalTantiemes)) * (ProvisionsTotal(provisions) - BillsTotal(bills));
        SumOfShares(persons, totalTantiemes) * (ProvisionsTotal(provisions) - BillsTotal(bills));
      }
    }
  }

  /**
   * With a non-zero total, the per-person balances computed against the dashboard's own
   * total add up exactly to the dashboard's balance: nothing is lost or invented.
   */
  lemma BalanceIsConserved(persons: seq<Person>, bills: seq<Bill>, provisions: seq<Provision>)
    requires TotalTantiemes(persons) != 0
    ensures SumOfLefts(persons, TotalTantiemes(persons), bills, provisions) == ProvisionsTotal(provisions) - BillsTotal(bills)
  {
    LeftsAddUp(persons, TotalTantiemes(persons), bills, provisions);
    SharesOfTheWhole(persons);
    assert 1.0 * (ProvisionsTotal(provisions) - BillsTotal(bills)) == ProvisionsTotal(provisions) - BillsTotal(bills);
  }

  /** Against their own total, the shares add up to one. */
  lemma SharesOfTheWhole(persons: seq<Person>)
    requires TotalTantiemes(persons) != 0
    ensures SumOfShares(persons, TotalTantiemes(persons)) == 1.0
  {
    SharesAddUp(persons, TotalTantiemes(persons));
    assert TotalTantiemes(persons) as real / TotalTantiemes(persons) as real == 1.0;
  }

  /** The conservation law applied to what getDashboardData returns. */
  lemma DashboardBalanceIsConserved(data: DashboardData)
    requires data.totalTantiemes == TotalTantiemes(data.persons) && data.totalTantiemes != 0
    requires data.balance == ProvisionsTotal(data.provisions) - BillsTotal(data.bills)
    ensures SumOfLefts(data.persons, data.totalTantiemes, data.bills, data.provisions) == data.balance
  {
    BalanceIsConserved(data.persons, data.bills, data.provisions);
  }
}
