/** The IssuerV2 script (22_1) beside the upgrade (23_02) that retires its issuer. */
module Reissuance {
  import opened Wrappers
  import opened AccessControl
  import opened Script
  import opened RoleSafety
  import opened Completion
  import opened Plans
  import opened PlanOrder
  import opened UpgradeProofs
  import opened UpgradeGoal
  import I = IssuanceProofs
  import G = IssuanceGoal

  /** Both scripts are run by the same deployer for the same governance, on the same token. */
  predicate SameParties(c: Upgrade, d: Issuance) {
    c.deployer == d.deployer && c.governance == d.governance && c.token == d.token
  }

  /** The two scripts give minting to, and take it from, different issuers. */
  predicate Independent(c: Upgrade, d: Issuance) {
    && Legacy(c.legacyIssuer, c.issuer) != Some(d.issuer)
    && (d.oldIssuer != d.issuer ==> d.oldIssuer != c.issuer && Some(d.oldIssuer) != c.manager)
  }

  lemma IssuanceOperations(d: Issuance)
    requires I.Sane(d)
    ensures var ops := Operations(IssuancePlan(d));
            && PlanInUniverse(ops, IssuancePlan(d))
            && forall k | k in ops ::
                 || k == GrantRole(d.token, Minter, d.issuer)
                 || (d.oldIssuer != d.issuer && k == RevokeRole(d.token, Minter, d.oldIssuer))
                 || (k.to == d.issuer && k.role in [DefaultAdmin] + ISSUER_V2_OPERATIONAL
                     && ((k.GrantRole? && k.account == d.governance) || (k.RevokeRole? && k.account == d.deployer)))
  {
    var plan, roles := IssuancePlan(d), G.RolesOf(d);
    RolesOperations(d.issuer, ISSUER_V2_OPERATIONAL, d.deployer, d.governance);
    forall j | 0 <= j < |plan| ensures InUniverse(Operations(plan), plan[j]) {
      assert plan[j] in roles || plan[j].Ensure?;
      assert forall k | k in CallsOf(plan[j]) :: k in Operations(plan);
    }
    forall i, k | i in plan && k in CallsOf(i) ensures i in roles ==> k in Operations(roles) {
    }
  }

  lemma OpposedCalls(c: Upgrade, d: Issuance)
    requires SameParties(c, d) && !Independent(c, d)
    ensures !Harmonious(Operations(UpgradePlan(c)) + Operations(IssuancePlan(d)))
  {
    var upgrade, issuance := UpgradePlan(c), IssuancePlan(d);
    if Legacy(c.legacyIssuer, c.issuer) == Some(d.issuer) {
      var k := |c.collaterals| + 1;
      assert MinterPlan(c)[k] == upgrade[k] == Ensure(RevokeRole(c.token, Minter, d.issuer), true, MarkPending);
      assert RevokeRole(c.token, Minter, d.issuer) in CallsOf(upgrade[k]);
      assert GrantRole(d.token, Minter, d.issuer) in CallsOf(issuance[0]);
      assert Opposite(GrantRole(d.token, Minter, d.issuer), RevokeRole(c.token, Minter, d.issuer));
    } else {
      assert issuance[1] == OldMinterPlan(d)[0];
      assert RevokeRole(d.token, Minter, d.oldIssuer) in CallsOf(issuance[1]);
      var j := if d.oldIssuer == c.issuer then 0 else |MinterPlan(c)| + 2 * |ISSUER_OPERATIONAL| + 3 + 1;
      assert upgrade[j] == Ensure(GrantRole(c.token, Minter, d.oldIssuer), true, Propagate) by {
        if j > 0 {
          assert upgrade[j] == ManagerPlan(c, d.oldIssuer)[1];
        }
      }
      assert GrantRole(c.token, Minter, d.oldIssuer) in CallsOf(upgrade[j]);
      assert Opposite(GrantRole(c.token, Minter, d.oldIssuer), RevokeRole(d.token, Minter, d.oldIssuer));
    }
  }

  lemma IndependentHarmonious(c: Upgrade, d: Issuance)
    requires Sane(c) && I.Sane(d) && SameParties(c, d) && Independent(c, d)
    ensures Harmonious(Operations(UpgradePlan(c)) + Operations(IssuancePlan(d)))
  {
    var mine, theirs := Operations(UpgradePlan(c)), Operations(IssuancePlan(d));
    OperationsFit(c);
    forall a, b | a in mine + theirs && b in mine + theirs ensures !Opposite(a, b) {
      if a in mine && b in theirs {
        CrossCalls(c, d, a, b);
      } else if a in theirs && b in mine {
        CrossCalls(c, d, b, a);
      } else if a in theirs {
        OwnCalls(d, a, b);
      }
    }
  }

  lemma OwnCalls(d: Issuance, a: Call, b: Call)
    requires I.Sane(d) && a in Operations(IssuancePlan(d)) && b in Operations(IssuancePlan(d))
    ensures !Opposite(a, b)
  {
    IssuanceOperations(d);
  }

  lemma IndependentCalls(c: Upgrade, d: Issuance)
    requires Sane(c) && I.Sane(d) && SameParties(c, d) && Independent(c, d)
    ensures var ops := Operations(UpgradePlan(c)) + Operations(IssuancePlan(d));
            Harmonious(ops) && PlanInUniverse(ops, UpgradePlan(c)) && PlanInUniverse(ops, IssuancePlan(d))
  {
    IndependentHarmonious(c, d);
    OperationsFit(c);
    IssuanceOperations(d);
    MoreOperations(Operations(UpgradePlan(c)), Operations(IssuancePlan(d)), UpgradePlan(c));
    forall i | i in IssuancePlan(d) ensures !i.MirrorPause? {
      NoMirrors(d, i);
    }
  }

  /** A plan stays in a universe that gains no pauses. */
  lemma MoreOperations(ops: set<Call>, more: set<Call>, plan: seq<Instr>)
    requires PlanInUniverse(ops, plan) && forall k | k in more :: !k.PauseAsset?
    ensures PlanInUniverse(ops + more, plan)
  {
    forall j | 0 <= j < |plan| ensures InUniverse(ops + more, plan[j]) {
      assert InUniverse(ops, plan[j]);
    }
  }

  lemma NoMirrors(d: Issuance, i: Instr)
    requires i in IssuancePlan(d)
    ensures !i.MirrorPause?
  {
  }

  lemma CrossCalls(c: Upgrade, d: Issuance, a: Call, b: Call)
    requires Sane(c) && I.Sane(d) && SameParties(c, d) && Independent(c, d)
    requires PlanCall(c, a) && b in Operations(IssuancePlan(d))
    ensures !Opposite(a, b)
  {
    IssuanceOperations(d);
    if Removal(a).Some? {
      MembershipFacts(c, Removal(a).value);
    }
  }

  /** The two scripts do not undo one another if and only if they are independent. */
  lemma HarmoniousExactly(c: Upgrade, d: Issuance)
    requires Sane(c) && I.Sane(d) && SameParties(c, d)
    ensures Harmonious(Operations(UpgradePlan(c)) + Operations(IssuancePlan(d))) <==> Independent(c, d)
  {
    if Independent(c, d) {
      IndependentCalls(c, d);
    } else {
      OpposedCalls(c, d);
    }
  }

  /** Then the upgraded state, once 23_02 has reported completion, outlasts every run and
      every batch, however stale, of either script. */
  lemma UpgradeOutlastsIssuance(c: Upgrade, d: Issuance, useSafe: bool, run: seq<System>, events: seq<Event>, i: nat,
                                j: nat, k: nat)
    requires Sane(c) && I.Sane(d) && SameParties(c, d) && Independent(c, d)
    requires Behaviour(UpgradeRules(c, useSafe), {UpgradePlan(c), IssuancePlan(d)}, run, events)
    requires i < j <= k < |run| && events[i] == Restart(UpgradePlan(c), []) && Uninterrupted(events, i + 1, j)
    requires run[j].script.todo == [] && run[j].script.complete
    ensures Upgraded(c, run[j].script.chain) && Upgraded(c, run[k].script.chain)
  {
    IndependentCalls(c, d);
    UpgradeCompletionAmong(c, useSafe, Operations(UpgradePlan(c)) + Operations(IssuancePlan(d)),
                           {UpgradePlan(c), IssuancePlan(d)}, run, events, i, j, k);
  }

  /** Otherwise not: running 22_1 again for the issuer that 23_02 has retired makes it a minter
      again, exactly when the deployer may still grant minting. */
  lemma ReissuanceUndoesUpgrade(c: Upgrade, d: Issuance, useSafe: bool, chain: Chain)
    requires I.Sane(d) && SameParties(c, d) && Legacy(c.legacyIssuer, c.issuer) == Some(d.issuer)
    requires Upgraded(c, chain)
    ensures var after := Run(Parties(d.deployer, useSafe), Fresh(chain, IssuancePlan(d), [])).chain;
            && (after.Has(c.token, Minter, d.issuer) <==>
                chain.Has(c.token, chain.RoleAdmin(c.token, Minter), c.deployer))
            && (chain.Has(c.token, chain.RoleAdmin(c.token, Minter), c.deployer) ==> !Upgraded(c, after))
  {
    var m := Member(c.token, Minter, d.issuer);
    assert m in Moved(c) && m !in chain.members;
    G.IssuanceMintsExactly(d, useSafe, chain);
  }
}
