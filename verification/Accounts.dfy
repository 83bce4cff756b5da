/** Accounts and contacts of src/agent/state.py, and the search by id that both graphs step through a list with. */
module Accounts {
  import opened Options
  import IcpScore

  /** `retries` is the metadata entry enrichment_retries, 0 when missing. */
  datatype Account = Account(id: string, name: string, facts: IcpScore.Facts, retries: int)

  datatype Contact = Contact(id: string, accountId: string, email: string)

  /** The first position with this id, or -1. */
  function IndexOf(accounts: seq<Account>, id: string): (r: int)
    ensures -1 <= r < |accounts|
    ensures r >= 0 ==> accounts[r].id == id && forall j :: 0 <= j < r ==> accounts[j].id != id
    ensures r == -1 ==> forall j :: 0 <= j < |accounts| ==> accounts[j].id != id
  {
    if accounts == [] then -1
    else if accounts[0].id == id then 0
    else
      var r := IndexOf(accounts[1..], id);
      if r < 0 then -1 else r + 1
  }

  /** Where the search finds the current account; -1 when there is none. */
  function CurrentIndex(accounts: seq<Account>, current: Option<Account>): int {
    if current.None? then -1 else IndexOf(accounts, current.value.id)
  }

  lemma CurrentIndexAtLeast(accounts: seq<Account>, current: Option<Account>)
    ensures -1 <= CurrentIndex(accounts, current) < |accounts|
  {
  }

  predicate Distinct(accounts: seq<Account>) {
    forall i, j :: 0 <= i < j < |accounts| ==> accounts[i].id != accounts[j].id
  }

  /** The search never goes past the first account with an id. */
  lemma FirstMatch(accounts: seq<Account>, i: nat, j: nat)
    requires i <= j < |accounts| && accounts[i].id == accounts[j].id
    ensures 0 <= IndexOf(accounts, accounts[j].id) <= i
  {
  }

  /** With two equal ids, up to the second of them the search always finds something before it. */
  lemma SearchStaysBefore(accounts: seq<Account>, next: nat, i: nat, j: nat)
    requires next <= j < |accounts| && i < j && accounts[i].id == accounts[j].id
    ensures 0 <= CurrentIndex(accounts, Some(accounts[next])) < j
  {
    FirstMatch(accounts, next, next);
    FirstMatch(accounts, i, j);
  }

  lemma CurrentIsListed(accounts: seq<Account>, current: Option<Account>)
    requires CurrentIndex(accounts, current) >= 0
    ensures current.Some? && CurrentIndex(accounts, current) < |accounts|
    ensures accounts[CurrentIndex(accounts, current)].id == current.value.id
  {
  }
}
