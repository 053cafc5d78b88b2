/**
 * The free-tier gate: a premium user may always create, a free user only while the
 * number of records of that kind is under the tier's limit. The two database lookups
 * (the user's premium flag and the record count) are inputs; the gate reports whether
 * it asked for the count.
 */
module PremiumLimiter {
  import opened Wrappers

  const FreeTierProvisionLimit := 10
  const FreeTierBillLimit := 5
  const FreeTierPersonLimit := 5

  /** The outcome of a single-row query: the scanned value, no row at all, or a failure. */
  datatype RowLookup<T> = Found(value: T) | NoRows | Failed(message: string)

  /** The kinds of record the free tier limits. */
  datatype Kind = Provisions | Bills | Persons

  /** A gate's answer: allowed or not, the error if any, and whether the count was queried. */
  datatype Gate = Gate(allowed: bool, err: Option<string>, countQueried: bool)

  function Limit(kind: Kind): int {
    match kind
    case Provisions => FreeTierProvisionLimit
    case Bills => FreeTierBillLimit
    case Persons => FreeTierPersonLimit
  }

  /** The noun used in the count error's message. */
  function Noun(kind: Kind): string {
    match kind
    case Provisions => "provision"
    case Bills => "bill"
    case Persons => "person"
  }

  /** IsUserPremium: the stored flag; a missing user and a failed query are errors. */
  function IsUserPremium(row: RowLookup<bool>): (r: Result<bool>)
    ensures r.Ok? <==> row.Found?
    ensures row.Found? ==> r.value == row.value
    ensures row.NoRows? ==> r == Err("user not found")
    ensures row.Failed? ==> r == Err("error checking premium status: " + row.message)
  {
    match row
    case Found(isPremium) => Ok(isPremium)
    case NoRows => Err("user not found")
    case Failed(message) => Err("error checking premium status: " + message)
  }

  /**
   * The common body of CanUserCreateProvision, CanUserCreateBill and CanUserCreatePerson.
   * `count` is the outcome of the count query, consulted only for a free user.
   */
  function CanUserCreate(kind: Kind, premiumRow: RowLookup<bool>, count: Result<int>): (g: Gate)
    ensures g.err.Some? ==> !g.allowed
    ensures g.countQueried <==> IsUserPremium(premiumRow) == Ok(false)
    ensures g.allowed <==> IsUserPremium(premiumRow) == Ok(true)
                           || (IsUserPremium(premiumRow) == Ok(false) && count.Ok? && count.value < Limit(kind))
    ensures g.err.Some? <==> IsUserPremium(premiumRow).Err? || (IsUserPremium(premiumRow) == Ok(false) && count.Err?)
    ensures IsUserPremium(premiumRow).Err? ==>
              g.err == Some("error checking premium status: " + IsUserPremium(premiumRow).error)
    ensures IsUserPremium(premiumRow) == Ok(false) && count.Err? ==>
              g.err == Some("error checking " + Noun(kind) + " count: " + count.error)
  {
    var premium := IsUserPremium(premiumRow);
    if premium.Err? then Gate(false, Some("error checking premium status: " + premium.error), false)
    else if premium.value then Gate(true, None, false)
    else if count.Err? then Gate(false, Some("error checking " + Noun(kind) + " count: " + count.error), true)
    else Gate(count.value < Limit(kind), None, true)
  }

  function CanUserCreateProvision(premiumRow: RowLookup<bool>, count: Result<int>): (g: Gate)
    ensures g.allowed <==> premiumRow == Found(true)
                           || (premiumRow == Found(false) && count.Ok? && count.value < FreeTierProvisionLimit)
  {
    CanUserCreate(Provisions, premiumRow, count)
  }

  function CanUserCreateBill(premiumRow: RowLookup<bool>, count: Result<int>): (g: Gate)
    ensures g.allowed <==> premiumRow == Found(true)
                           || (premiumRow == Found(false) && count.Ok? && count.value < FreeTierBillLimit)
  {
    CanUserCreate(Bills, premiumRow, count)
  }

  function CanUserCreatePerson(premiumRow: RowLookup<bool>, count: Result<int>): (g: Gate)
    ensures g.allowed <==> premiumRow == Found(true)
                           || (premiumRow == Found(false) && count.Ok? && count.value < FreeTierPersonLimit)
  {
    CanUserCreate(Persons, premiumRow, count)
  }

  /** A premium user is allowed without the count being queried, whatever it would say. */
  lemma PremiumAlwaysAllowed(kind: Kind, count1: Result<int>, count2: Result<int>)
    ensures CanUserCreate(kind, Found(true), count1) == CanUserCreate(kind, Found(true), count2) == Gate(true, None, false)
  {
  }

  /** A free user at or over the limit is refused; under it, allowed. */
  lemma FreeUserLimit(kind: Kind, count: int)
    ensures CanUserCreate(kind, Found(false), Ok(count)) == Gate(count < Limit(kind), None, true)
    ensures count == Limit(kind) ==> !CanUserCreate(kind, Found(false), Ok(count)).allowed
    ensures count == Limit(kind) - 1 ==> CanUserCreate(kind, Found(false), Ok(count)).allowed
  {
  }

  /** The gate is monotone: what is allowed at some count is allowed at every smaller one. */
  lemma GateIsMonotone(kind: Kind, premiumRow: RowLookup<bool>, count: int, smaller: int)
    requires smaller <= count
    requires CanUserCreate(kind, premiumRow, Ok(count)).allowed
    ensures CanUserCreate(kind, premiumRow, Ok(smaller)).allowed
  {
  }

  /**
   * A failed premium lookup refuses, with an error, without querying the count; a
   * missing user surfaces as "user not found" and a failed query is wrapped twice.
   */
  lemma PremiumLookupFailureRefuses(kind: Kind, premiumRow: RowLookup<bool>, count: Result<int>)
    requires !premiumRow.Found?
    ensures var g := CanUserCreate(kind, premiumRow, count);
            !g.allowed && !g.countQueried && g.err.Some?
    ensures premiumRow.NoRows? ==>
              CanUserCreate(kind, premiumRow, count).err == Some("error checking premium status: user not found")
    ensures premiumRow.Failed? ==>
              CanUserCreate(kind, premiumRow, count).err
              == Some("error checking premium status: error checking premium status: " + premiumRow.message)
  {
    var prefix := "error checking premium status: ";
    if premiumRow.NoRows? {
      assert prefix + "user not found" == "error checking premium status: user not found";
    } else {
      var m := premiumRow.message;
      assert prefix + (prefix + m) == (prefix + prefix) + m;
      assert prefix + prefix == "error checking premium status: error checking premium status: ";
    }
  }

  /** The free tier allows 10 provisions, 5 bills and 5 persons. */
  lemma FreeTierLimits()
    ensures Limit(Provisions) == 10 && Limit(Bills) == 5 && Limit(Persons) == 5
    ensures forall kind :: 0 < Limit(kind) <= 10
  {
  }
}
