/** The RedeemerV2 script: the vault's withdrawer role moves from any number of
    legacy redeemers to the new one. */
module RedeemerProofs {
  import opened Wrappers
  import opened AccessControl
  import opened Script
  import opened RoleSafety
  import opened Plans
  import opened PlanOrder

  predicate Sane(c: Redemption) {
    && c.deployer != c.governance
    && c.redeemer != c.deployer
  }

  function Withdrawers(c: Redemption): set<Membership> {
    set legacy | legacy in c.legacies && Legacy(legacy, c.redeemer).Some? ::
      Member(c.vault, CollateralWithdrawer, legacy.value)
  }

  function DeployerRoles(c: Redemption): set<Membership> {
    set role | role in [DefaultAdmin] + REDEEMER_OPERATIONAL :: Member(c.redeemer, role, c.deployer)
  }

  function RedeemerRules(c: Redemption, useSafe: bool): Rules {
    Rules(Parties(c.deployer, useSafe), c.governance,
          map m | m in Withdrawers(c) + DeployerRoles(c) ::
            if m.role == CollateralWithdrawer then c.redeemer else c.governance,
          false)
  }

  lemma {:induction false} LegacyRevokesTake(c: Redemption, legacies: seq<Option<Address>>, i: Instr)
    requires (forall l | l in legacies :: l in c.legacies) && i in LegacyRevokes(c.vault, c.redeemer, legacies)
    ensures i.Ensure? && i.flagged && i.onThrow == Abandon
    ensures i.call.RevokeRole? && Removal(i.call).value in Withdrawers(c)
  {
    if Legacy(legacies[0], c.redeemer).Some?
       && i == Ensure(RevokeRole(c.vault, CollateralWithdrawer, legacies[0].value), true, Abandon) {
      assert legacies[0] in c.legacies;
    } else {
      LegacyRevokesTake(c, legacies[1..], i);
    }
  }

  lemma RedeemerPlanOk(c: Redemption, useSafe: bool)
    requires Sane(c)
    ensures PlanOk(RedeemerRules(c, useSafe), RedeemerPlan(c))
  {
    var r := RedeemerRules(c, useSafe);
    var plan := WithdrawerPlan(c);
    var grant := GrantRole(c.vault, CollateralWithdrawer, c.redeemer);
    forall j | 0 <= j < |plan| ensures PlanInstrOk(r, plan, j) {
      assert Sends(plan[0], grant);
      if j > 0 {
        assert plan[j] == LegacyRevokes(c.vault, c.redeemer, c.legacies)[j - 1];
        LegacyRevokesTake(c, c.legacies, plan[j]);
      }
    }
    forall role | role in [DefaultAdmin] + REDEEMER_OPERATIONAL ensures MoveOk(r, c.redeemer, role, c.governance) {
      assert Member(c.redeemer, role, c.deployer) in DeployerRoles(c);
    }
    RolesOrdered(r, c.redeemer, REDEEMER_OPERATIONAL, c.governance);
    PlanOkAppend(r, plan, RolesPlan(c.redeemer, REDEEMER_OPERATIONAL, c.deployer, c.governance));
  }

  /** Legacy hand-over, for any number of legacy redeemers and any interleaving with
      failures for want of authorisation only: when a legacy redeemer stops being a
      withdrawer, by a direct call or by a batch, the new redeemer is one. */
  lemma LegacyHandover(c: Redemption, useSafe: bool, run: seq<System>, events: seq<Event>, i: nat, legacy: Address)
    requires Sane(c) && Behaviour(RedeemerRules(c, useSafe), {RedeemerPlan(c)}, run, events) && i + 1 < |run|
    requires Some(legacy) in c.legacies && legacy != c.redeemer
    requires run[i].script.chain.Has(c.vault, CollateralWithdrawer, legacy)
    requires !run[i + 1].script.chain.Has(c.vault, CollateralWithdrawer, legacy)
    ensures run[i + 1].script.chain.Has(c.vault, CollateralWithdrawer, c.redeemer)
    ensures !events[i].SafeExecutes? ==> run[i].script.chain.Has(c.vault, CollateralWithdrawer, c.redeemer)
  {
    var r := RedeemerRules(c, useSafe);
    var m := Member(c.vault, CollateralWithdrawer, legacy);
    RedeemerPlanOk(c, useSafe);
    assert Legacy(Some(legacy), c.redeemer).Some? && m in Withdrawers(c);
    RemovalMeetsHeir(r, {RedeemerPlan(c)}, run, events, i, m);
  }

  /** The same inside a batch: when the Safe has executed the first n calls and the
      next one is the revocation, the new redeemer already is a withdrawer. */
  lemma LegacyHandoverMidBatch(c: Redemption, useSafe: bool, run: seq<System>, events: seq<Event>, i: nat,
                               legacy: Address, batch: seq<Call>, n: nat)
    requires Sane(c) && Behaviour(RedeemerRules(c, useSafe), {RedeemerPlan(c)}, run, events) && i < |run|
    requires Some(legacy) in c.legacies && legacy != c.redeemer
    requires batch in run[i].batches && n < |batch| && batch[n] == RevokeRole(c.vault, CollateralWithdrawer, legacy)
    requires ExecuteBatch(run[i].script.chain, c.governance, batch[..n]).Some?
    ensures var mid := ExecuteBatch(run[i].script.chain, c.governance, batch[..n]).value;
            mid.Has(c.vault, CollateralWithdrawer, c.redeemer)
  {
    var m := Member(c.vault, CollateralWithdrawer, legacy);
    RedeemerPlanOk(c, useSafe);
    assert Legacy(Some(legacy), c.redeemer).Some? && m in Withdrawers(c);
    MidBatchCover(RedeemerRules(c, useSafe), {RedeemerPlan(c)}, run, events, i, batch, n);
  }

  /** The redeemer's own roles are never lost to both: what the deployer or governance
      holds in some state, one of them holds in every later state. */
  lemma RedeemerRoleCover(c: Redemption, useSafe: bool, run: seq<System>, events: seq<Event>, i: nat, j: nat,
                          role: Role)
    requires Sane(c) && Behaviour(RedeemerRules(c, useSafe), {RedeemerPlan(c)}, run, events) && i <= j < |run|
    requires role in [DefaultAdmin] + REDEEMER_OPERATIONAL
    ensures var (before, after) := (run[i].script.chain, run[j].script.chain);
            && (before.Has(c.redeemer, role, c.deployer) || before.Has(c.redeemer, role, c.governance) ==>
                  after.Has(c.redeemer, role, c.deployer) || after.Has(c.redeemer, role, c.governance))
            && (before.Has(c.redeemer, role, c.governance) ==> after.Has(c.redeemer, role, c.governance))
  {
    var r := RedeemerRules(c, useSafe);
    var m := Member(c.redeemer, role, c.deployer);
    RedeemerPlanOk(c, useSafe);
    assert m in DeployerRoles(c) && m in r.heirs && r.heirs[m] == c.governance;
    RoleCover(r, {RedeemerPlan(c)}, run, events, i, j);
    assert Covered(r, run[i].script.chain, m) ==> Covered(r, run[j].script.chain, m);
    assert HeirHolds(r, run[i].script.chain, m) ==> HeirHolds(r, run[j].script.chain, m);
  }
}
