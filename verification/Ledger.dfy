/** One journal entry on its own: its fields and what makes it acceptable. */
module Ledger {
  import opened Bytes

  /** An instant; 0 is Go's zero time. */
  type Time = int

  datatype Asset = Asset(chain: Str, token: Str)

  datatype Leg = Leg(account: Str, amount: int)

  datatype Kind = Hold | Post | Void | Other(name: Str) {
    function Name(): Str {
      match this
      case Hold => Text("hold")
      case Post => Text("post")
      case Void => Text("void")
      case Other(n) => n
    }
  }

  /** The half of an entry that the caller fills in; two of these are `Same` exactly
      when they are equal.  An amount of 0 stands for a missing amount as well. */
  datatype Entry = Entry(
    id: Str, ref: Digest, kind: Kind, holds: Str, asset: Asset, legs: seq<Leg>,
    actor: Str, at: Time, txHash: Str, memo: Str)

  datatype Error = InvalidEntry | Unbalanced | Conflict | NoSuchHold | AlreadyResolved

  function PayerAccount(addr: Str): Str { Text("payer:") + addr }

  function MerchantAccount(addr: Str): Str { Text("merchant:") + addr }

  // ---- one entry on its own ----

  function Total(legs: seq<Leg>): int {
    if legs == [] then 0 else Total(legs[..|legs| - 1]) + legs[|legs| - 1].amount
  }

  predicate WellShaped(legs: seq<Leg>) {
    && |legs| >= 2
    && (forall i :: 0 <= i < |legs| ==> legs[i].account != [] && legs[i].amount != 0)
    && (forall i, j :: 0 <= i < j < |legs| ==> legs[i].account != legs[j].account)
  }

  function LegsError(legs: seq<Leg>): Option<Error> {
    if !WellShaped(legs) then Some(InvalidEntry)
    else if Total(legs) != 0 then Some(Unbalanced)
    else None
  }

  method ValidateLegs(legs: seq<Leg>) returns (err: Option<Error>)
    ensures err == LegsError(legs)
  {
    if |legs| < 2 {
      return Some(InvalidEntry);
    }
    var sum := 0;
    var seen: set<Str> := {};
    for i := 0 to |legs|
      invariant sum == Total(legs[..i])
      invariant seen == set k | 0 <= k < i :: legs[k].account
      invariant forall k :: 0 <= k < i ==> legs[k].account != [] && legs[k].amount != 0
      invariant forall k, l :: 0 <= k < l < i ==> legs[k].account != legs[l].account
    {
      var l := legs[i];
      if l.account == [] || l.amount == 0 {
        return Some(InvalidEntry);
      }
      if l.account in seen {
        return Some(InvalidEntry);
      }
      seen := seen + {l.account};
      sum := sum + l.amount;
      assert legs[..i + 1][..i] == legs[..i];
    }
    assert legs[..|legs|] == legs;
    if sum != 0 {
      return Some(Unbalanced);
    }
    return None;
  }

  function EntryError(e: Entry): Option<Error> {
    if e.id == [] || e.ref == ZERO || e.asset.chain == [] || e.asset.token == [] || e.actor == [] || e.at == 0 then
      Some(InvalidEntry)
    else if e.kind.Other? || (e.kind == Hold) != (e.holds == []) then
      Some(InvalidEntry)
    else if e.kind == Void then
      if e.legs != [] then Some(InvalidEntry) else None
    else
      LegsError(e.legs)
  }

  method Validate(e: Entry) returns (err: Option<Error>)
    ensures err == EntryError(e)
  {
    if e.id == [] || e.ref == ZERO || e.asset.chain == [] || e.asset.token == [] || e.actor == [] || e.at == 0 {
      return Some(InvalidEntry);
    }
    match e.kind {
      case Hold =>
        if e.holds != [] {
          return Some(InvalidEntry);
        }
        err := ValidateLegs(e.legs);
      case Post =>
        if e.holds == [] {
          return Some(InvalidEntry);
        }
        err := ValidateLegs(e.legs);
      case Void =>
        err := if e.holds == [] || e.legs != [] then Some(InvalidEntry) else None;
      case Other(_) =>
        err := Some(InvalidEntry);
    }
  }
}
