/** Which users the liquidator takes to be below the health factor threshold. */
module Pairing {
  import opened Wrappers
  import opened Lists

  datatype UserInfo = UserInfo(user: string, healthFactor: real)

  /** The fetched health factors with the failed fetches filtered out. */
  function Fetched(raw: seq<Option<real>>): (factors: seq<real>)
    ensures |factors| <= |raw|
  {
    if raw == [] then []
    else (if raw[0].Some? then [raw[0].value] else []) + Fetched(raw[1..])
  }

  /** Users paired by position with the factors that are left. */
  function Paired(users: seq<string>, factors: seq<real>, threshold: real): seq<UserInfo> {
    if users == [] || factors == [] then []
    else (if factors[0] < threshold then [UserInfo(users[0], factors[0])] else [])
         + Paired(users[1..], factors[1..], threshold)
  }

  predicate Risky(factor: Option<real>, threshold: real) {
    factor.Some? && factor.value < threshold
  }

  /** The specification: every user whose own factor was fetched and is below the threshold. */
  function BelowThreshold(users: seq<string>, raw: seq<Option<real>>, threshold: real): seq<UserInfo>
    requires |users| == |raw|
  {
    if users == [] then []
    else (if Risky(raw[0], threshold) then [UserInfo(users[0], raw[0].value)] else [])
         + BelowThreshold(users[1..], raw[1..], threshold)
  }

  /** A failed fetch comes before a factor below the threshold. */
  predicate GapBeforeRisk(raw: seq<Option<real>>, threshold: real) {
    exists i, j :: 0 <= i < j < |raw| && raw[i].None? && Risky(raw[j], threshold)
  }

  lemma PairedNext(users: seq<string>, factors: seq<real>, threshold: real, i: nat)
    requires i < |factors| <= |users|
    ensures Paired(users[i..], factors[i..], threshold)
         == (if factors[i] < threshold then [UserInfo(users[i], factors[i])] else [])
            + Paired(users[i + 1..], factors[i + 1..], threshold)
  {
  }

  method CollectLiquidatable(users: seq<string>, factors: seq<real>, threshold: real) returns (infos: seq<UserInfo>)
    requires |factors| <= |users|
    ensures infos == Paired(users, factors, threshold)
  {
    infos := [];
    assert users[0..] == users && factors[0..] == factors;
    for i := 0 to |users|
      invariant i <= |factors| ==>
                infos + Paired(users[i..], factors[i..], threshold) == Paired(users, factors, threshold)
      invariant i > |factors| ==> infos == Paired(users, factors, threshold)
    {
      if i < |factors| {
        PairedNext(users, factors, threshold, i);
        if factors[i] < threshold {
          infos := infos + [UserInfo(users[i], factors[i])];
        }
      }
    }
  }

  lemma {:induction false} PairedUsers(users: seq<string>, factors: seq<real>, threshold: real, k: nat)
    requires k < |Paired(users, factors, threshold)|
    ensures Paired(users, factors, threshold)[k].user in users
  {
    var head := if factors[0] < threshold then [UserInfo(users[0], factors[0])] else [];
    if k >= |head| {
      PairedUsers(users[1..], factors[1..], threshold, k - |head|);
    }
  }

  predicate DistinctUsers(infos: seq<UserInfo>) {
    forall i, j :: 0 <= i < j < |infos| ==> infos[i].user != infos[j].user
  }

  /** Each user is taken at most once. */
  lemma {:induction false} PairedDistinct(users: seq<string>, factors: seq<real>, threshold: real)
    requires NoDuplicates(users)
    ensures DistinctUsers(Paired(users, factors, threshold))
  {
    if users != [] && factors != [] {
      PairedDistinct(users[1..], factors[1..], threshold);
      var rest := Paired(users[1..], factors[1..], threshold);
      forall k | 0 <= k < |rest| ensures rest[k].user != users[0] {
        PairedUsers(users[1..], factors[1..], threshold, k);
        var i :| 0 <= i < |users[1..]| && users[1..][i] == rest[k].user;
        assert users[i + 1] != users[0];
      }
      if factors[0] < threshold {
        assert Paired(users, factors, threshold) == [UserInfo(users[0], factors[0])] + rest;
      } else {
        assert Paired(users, factors, threshold) == [] + rest == rest;
      }
    }
  }

  // ---------- when the pairing is right ----------

  lemma {:induction false} NoRiskNothing(users: seq<string>, raw: seq<Option<real>>, threshold: real)
    requires forall i :: 0 <= i < |raw| ==> !Risky(raw[i], threshold)
    ensures Paired(users, Fetched(raw), threshold) == []
    ensures |users| == |raw| ==> BelowThreshold(users, raw, threshold) == []
    decreases |raw|
  {
    if raw != [] {
      forall i | 0 <= i < |raw[1..]| ensures !Risky(raw[1..][i], threshold) {
        assert raw[1..][i] == raw[i + 1];
      }
      var us := if users == [] then [] else users[1..];
      NoRiskNothing(us, raw[1..], threshold);
      NoRiskNothing(users, raw[1..], threshold);
      if raw[0].Some? {
        assert Fetched(raw)[1..] == Fetched(raw[1..]);
      } else {
        assert Fetched(raw) == Fetched(raw[1..]);
      }
    }
  }

  /** The first user taken, and the first that should be: the position slips back by
      one for each failed fetch ahead of it. */
  lemma {:induction false} FirstTaken(users: seq<string>, own: seq<string>, raw: seq<Option<real>>, threshold: real)
    returns (taken: nat, meant: nat)
    requires |own| == |raw| && |raw| <= |users|
    requires exists i :: 0 <= i < |raw| && Risky(raw[i], threshold)
    ensures taken <= meant < |raw|
    ensures Paired(users, Fetched(raw), threshold) != []
    ensures Paired(users, Fetched(raw), threshold)[0].user == users[taken]
    ensures BelowThreshold(own, raw, threshold) != [] && BelowThreshold(own, raw, threshold)[0].user == own[meant]
    decreases |raw|
  {
    if Risky(raw[0], threshold) {
      return 0, 0;
    }
    RiskInTail(raw, threshold);
    if raw[0].Some? {
      assert Fetched(raw)[0] == raw[0].value && Fetched(raw)[1..] == Fetched(raw[1..]);
      taken, meant := FirstTaken(users[1..], own[1..], raw[1..], threshold);
      assert Paired(users, Fetched(raw), threshold) == [] + Paired(users[1..], Fetched(raw[1..]), threshold);
      taken, meant := taken + 1, meant + 1;
    } else {
      assert Fetched(raw) == Fetched(raw[1..]);
      taken, meant := FirstTaken(users, own[1..], raw[1..], threshold);
      meant := meant + 1;
    }
  }

  lemma RiskInTail(raw: seq<Option<real>>, threshold: real)
    requires raw != [] && !Risky(raw[0], threshold) && exists i :: 0 <= i < |raw| && Risky(raw[i], threshold)
    ensures exists i :: 0 <= i < |raw[1..]| && Risky(raw[1..][i], threshold)
  {
    var i :| 0 <= i < |raw| && Risky(raw[i], threshold);
    assert Risky(raw[1..][i - 1], threshold);
  }

  /** Exactly when the bot takes the right users with the right factors: if and only
      if no failed fetch comes before a factor below the threshold. */
  lemma {:induction false} PairedExactly(users: seq<string>, raw: seq<Option<real>>, threshold: real)
    requires |users| == |raw| && NoDuplicates(users)
    ensures Paired(users, Fetched(raw), threshold) == BelowThreshold(users, raw, threshold) <==>
            !GapBeforeRisk(raw, threshold)
    decreases |raw|
  {
    if raw != [] {
      var rest := raw[1..];
      if raw[0].Some? {
        assert Fetched(raw)[1..] == Fetched(rest);
        PairedExactly(users[1..], rest, threshold);
        GapInTail(raw, threshold);
        assert Fetched(raw)[0] == raw[0].value;
        var head := if Risky(raw[0], threshold) then [UserInfo(users[0], raw[0].value)] else [];
        var taken := Paired(users[1..], Fetched(rest), threshold);
        var meant := BelowThreshold(users[1..], rest, threshold);
        assert Paired(users, Fetched(raw), threshold) == head + taken && (head + taken)[|head|..] == taken;
        assert BelowThreshold(users, raw, threshold) == head + meant && (head + meant)[|head|..] == meant;
      } else {
        GapFirst(users, raw, threshold);
      }
    }
  }

  /** After a failed first fetch the pairing is right only when nobody is taken. */
  lemma GapFirst(users: seq<string>, raw: seq<Option<real>>, threshold: real)
    requires |users| == |raw| && NoDuplicates(users) && raw != [] && raw[0].None?
    ensures Paired(users, Fetched(raw), threshold) == BelowThreshold(users, raw, threshold) <==>
            !GapBeforeRisk(raw, threshold)
  {
    var rest := raw[1..];
    assert Fetched(raw) == Fetched(rest) &&
        BelowThreshold(users, raw, threshold) == BelowThreshold(users[1..], rest, threshold);
    if exists i :: 0 <= i < |rest| && Risky(rest[i], threshold) {
      var i :| 0 <= i < |rest| && Risky(rest[i], threshold);
      assert Risky(raw[i + 1], threshold);
      var taken, meant := FirstTaken(users, users[1..], rest, threshold);
      assert users[1..][meant] == users[meant + 1];
    } else {
      NoRiskNothing(users, rest, threshold);
      NoRiskNothing(users[1..], rest, threshold);
      forall j | 0 < j < |raw| ensures !Risky(raw[j], threshold) {
        assert raw[j] == rest[j - 1];
      }
    }
  }

  /** With every fetch successful the pairing is right, whether or not a user is listed twice. */
  lemma {:induction false} AllFetchedPaired(users: seq<string>, raw: seq<Option<real>>, threshold: real)
    requires |users| == |raw| && forall i :: 0 <= i < |raw| ==> raw[i].Some?
    ensures Paired(users, Fetched(raw), threshold) == BelowThreshold(users, raw, threshold)
    decreases |raw|
  {
    if raw != [] {
      assert Fetched(raw)[0] == raw[0].value && Fetched(raw)[1..] == Fetched(raw[1..]);
      AllFetchedPaired(users[1..], raw[1..], threshold);
    }
  }

  lemma GapInTail(raw: seq<Option<real>>, threshold: real)
    requires raw != [] && raw[0].Some?
    ensures GapBeforeRisk(raw, threshold) <==> GapBeforeRisk(raw[1..], threshold)
  {
  }

  /** A shifted pair: one failed fetch, and a healthy user is taken for a risky one. */
  lemma ShiftedWitness()
    ensures Paired(["a", "b"], Fetched([None, Some(0.5)]), 1.0) == [UserInfo("a", 0.5)]
    ensures BelowThreshold(["a", "b"], [None, Some(0.5)], 1.0) == [UserInfo("b", 0.5)]
  {
  }
}
