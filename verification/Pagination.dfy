/** Listing all lending users page by page, each page starting after the last id of
    the page before. Ids stand for the account ids in their order; 0 stands for the
    empty id, which comes before all of them. */
module Pagination {
  import opened Wrappers

  predicate Increasing(ids: seq<nat>) {
    forall i, j :: 0 <= i < j < |ids| ==> ids[i] < ids[j]
  }

  function Ids(list: seq<nat>): (ids: set<nat>)
    ensures forall id :: id in ids <==> id in list
  {
    set id | id in list
  }

  /** What the query answers: the first ids after `last`, in order, at most `first` of them. */
  predicate IsPage(accounts: set<nat>, last: nat, first: nat, page: seq<nat>) {
    && Increasing(page) && |page| <= first
    && (forall id | id in page :: id in accounts && id > last)
    && (forall id | id in accounts && id > last ::
          id in page || (page != [] && |page| == first && id > page[|page| - 1]))
  }

  /** The subgraph; accounts appear at any time and never go away. */
  class Subgraph {
    var accounts: set<nat>
    var faults: seq<bool>    // which of the coming queries fail; none once it is empty
    const universe: set<nat> // the ids that may ever exist

    constructor (accounts: set<nat>, universe: set<nat>, faults: seq<bool>)
      requires accounts <= universe && 0 !in universe
      ensures Valid() && this.accounts == accounts && this.universe == universe && this.faults == faults
    {
      this.faults := faults;
      this.accounts := accounts;
      this.universe := universe;
    }

    predicate Valid()
      reads this
    {
      accounts <= universe && 0 !in universe
    }

    method Query(first: nat, last: nat) returns (r: Result<seq<nat>>)
      requires Valid() && first > 0
      modifies this
      ensures Valid() && old(accounts) <= accounts
      ensures faults == (if old(faults) == [] then [] else old(faults)[1..])
      ensures r.Success? <==> old(faults) == [] || !old(faults)[0]
      ensures r.Success? ==> IsPage(accounts, last, first, r.value)
    {
      var appeared: set<nat> :| appeared <= universe;
      accounts := accounts + appeared;
      assert accounts <= universe;
      if faults != [] {
        var fails := faults[0];
        faults := faults[1..];
        if fails {
          return Failure;
        }
      }
      var page := FirstIds(accounts, last, first);
      return Success(page);
    }
  }

  method FirstIds(accounts: set<nat>, last: nat, first: nat) returns (page: seq<nat>)
    requires first > 0
    ensures IsPage(accounts, last, first, page)
  {
    page := [];
    var rest := set id | id in accounts && id > last;
    while rest != {} && |page| < first
      invariant Increasing(page) && |page| <= first
      invariant forall id | id in rest :: id in accounts && id > last && (page == [] || page[|page| - 1] < id)
      invariant forall id | id in page :: id in accounts && id > last
      invariant forall id | id in accounts && id > last :: id in page || id in rest
    {
      var next := Least(rest);
      page := page + [next];
      rest := rest - {next};
    }
  }

  method Least(ids: set<nat>) returns (least: nat)
    requires ids != {}
    ensures least in ids && forall id | id in ids :: least <= id
  {
    least :| least in ids;
    var rest := ids - {least};
    while rest != {}
      invariant rest <= ids && least in ids
      invariant forall id | id in ids && id !in rest :: least <= id
      decreases rest
    {
      var id :| id in rest;
      if id < least {
        least := id;
      }
      rest := rest - {id};
    }
  }

  /** How many ids may still turn up after `last`. */
  function Ahead(universe: set<nat>, last: nat): set<nat> {
    set id | id in universe && id > last
  }

  /** The loop ends although accounts keep appearing, with an error exactly when the batch size
      is no positive number or one of the queries it makes fails; the result is strictly
      increasing, has every account that was there at the start, nothing that is not
      there at the end, and with no new account it is the whole set. */
  method GetAllLendingUserAddresses(graph: Subgraph, batchSize: int) returns (r: Result<seq<nat>>)
    requires graph.Valid()
    modifies graph
    ensures graph.Valid() && old(graph.accounts) <= graph.accounts
    ensures batchSize < 1 ==> r.Failure? && graph.accounts == old(graph.accounts)
    ensures var made := |old(graph.faults)| - |graph.faults|;
            && made >= 0 && graph.faults == old(graph.faults)[made..]
            && (r.Success? <==> batchSize >= 1 && forall k :: 0 <= k < made ==> !old(graph.faults)[k])
    ensures r.Success? ==>
              && Increasing(r.value)
              && old(graph.accounts) <= Ids(r.value) <= graph.accounts
              && (graph.accounts == old(graph.accounts) ==> Ids(r.value) == graph.accounts)
  {
    if batchSize < 1 {
      return Failure;
    }
    var lastId := 0;
    var allUsers: seq<nat> := [];
    while true
      invariant graph.Valid() && old(graph.accounts) <= graph.accounts
      invariant |graph.faults| <= |old(graph.faults)|
      invariant graph.faults == old(graph.faults)[|old(graph.faults)| - |graph.faults|..]
      invariant forall k :: 0 <= k < |old(graph.faults)| - |graph.faults| ==> !old(graph.faults)[k]
      invariant Increasing(allUsers)
      invariant forall id | id in allUsers :: id in graph.accounts && id <= lastId
      invariant forall id | id in old(graph.accounts) && id <= lastId :: id in allUsers
      decreases Ahead(graph.universe, lastId)
    {
      ghost var before := allUsers;
      ghost var made := |old(graph.faults)| - |graph.faults|;
      assert graph.faults != [] ==> graph.faults[0] == old(graph.faults)[made];
      var page :- graph.Query(batchSize, lastId);
      allUsers := allUsers + page;
      forall i, j | 0 <= i < j < |allUsers| ensures allUsers[i] < allUsers[j] {
        if i < |before| {
          assert before[i] in before;
        }
        if j >= |before| {
          assert page[j - |before|] in page;
        }
      }
      if |page| == 0 {
        break;
      }
      assert page[|page| - 1] in page && page[|page| - 1] in graph.accounts;
      assert page[|page| - 1] in Ahead(graph.universe, lastId);
      assert page[|page| - 1] !in Ahead(graph.universe, page[|page| - 1]);
      lastId := page[|page| - 1];
    }
    return Success(allUsers);
  }

  /** Increasing lists with the same ids are the same list, so the result with no new
      account is the sorted list of all accounts, whatever the batch size. */
  lemma {:induction false} IncreasingUnique(a: seq<nat>, b: seq<nat>)
    requires Increasing(a) && Increasing(b) && Ids(a) == Ids(b)
    ensures a == b
  {
    SomeId(a);
    SomeId(b);
    if a != [] {
      assert a[0] in Ids(b) && b[0] in Ids(a);
      assert a[0] == b[0];
      assert Ids(a[1..]) == Ids(b[1..]) by {
        forall id ensures id in Ids(a[1..]) <==> id in Ids(b[1..]) {
          TailMember(a, id);
          TailMember(b, id);
        }
      }
      IncreasingUnique(a[1..], b[1..]);
    }
  }

  lemma SomeId(list: seq<nat>)
    ensures list != [] <==> Ids(list) != {}
  {
    if list != [] {
      assert list[0] in Ids(list);
    }
  }

  lemma TailMember(a: seq<nat>, id: nat)
    requires a != [] && Increasing(a)
    ensures id in a[1..] <==> id in a && id != a[0]
  {
  }
}
