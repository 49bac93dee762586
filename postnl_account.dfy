/**
 * `_postnl_carrier_account`: the search over `carrier.account` for the
 * picking's company, ordered by `company_id ASC` (PostgreSQL puts the unset
 * company last) and limited to one record.
 */
module PostnlAccount {
  import opened Wrappers
  import opened PostnlTypes

  /** The search domain: a PostNL account that is unscoped or belongs to the company. */
  predicate Matches(a: Account, companyId: nat) {
    a.deliveryType == Postnl && (a.company.None? || a.company == Some(companyId))
  }

  /** Sort position of an account: 0 company-scoped match, 1 unscoped match, 2 outside the domain. */
  function Rank(a: Account, companyId: nat): nat {
    if !Matches(a, companyId) then 2 else if a.company.Some? then 0 else 1
  }

  /** Account `i` comes first when sorted by rank, ties kept in sequence order. */
  predicate SortsFirst(accounts: seq<Account>, companyId: nat, i: nat)
    requires i < |accounts|
  {
    && (forall j :: 0 <= j < i ==> Rank(accounts[j], companyId) > Rank(accounts[i], companyId))
    && (forall j :: i < j < |accounts| ==> Rank(accounts[j], companyId) >= Rank(accounts[i], companyId))
  }

  /** The index of the first account of the given rank. */
  function FirstOfRank(accounts: seq<Account>, companyId: nat, rank: nat): (r: Option<nat>)
    ensures r.Some? ==> r.value < |accounts| && Rank(accounts[r.value], companyId) == rank
    ensures r.Some? ==> forall j :: 0 <= j < r.value ==> Rank(accounts[j], companyId) != rank
    ensures r.None? ==> forall j :: 0 <= j < |accounts| ==> Rank(accounts[j], companyId) != rank
    decreases |accounts|
  {
    if accounts == [] then None
    else if Rank(accounts[0], companyId) == rank then Some(0)
    else match FirstOfRank(accounts[1..], companyId, rank)
      case None => None
      case Some(k) => Some(k + 1)
  }

  /**
   * The account the search returns: the first record in (rank, position) order,
   * or a user error naming the company when the domain is empty.
   */
  function SelectAccount(accounts: seq<Account>, company: Company): (r: Result<Account, Error>)
    ensures r.Fail? <==> forall j :: 0 <= j < |accounts| ==> !Matches(accounts[j], company.id)
    ensures r.Fail? ==> r.error == NoAccount(CharText(company.name))
    ensures r.Ok? ==> Matches(r.value, company.id)
    ensures r.Ok? ==> exists i :: 0 <= i < |accounts| && accounts[i] == r.value && SortsFirst(accounts, company.id, i)
    ensures r.Ok? && (exists j :: 0 <= j < |accounts| && Rank(accounts[j], company.id) == 0) ==>
      r.value.company == Some(company.id)
  {
    match FirstOfRank(accounts, company.id, 0)
    case Some(i) => Ok(accounts[i])
    case None =>
      match FirstOfRank(accounts, company.id, 1)
      case Some(i) => Ok(accounts[i])
      case None => Fail(NoAccount(CharText(company.name)))
  }
}
