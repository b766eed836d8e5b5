/** What it means when the RedeemerV2 script (22_2) reports completion, and how it gets there. */
module RedeemerGoal {
  import opened Wrappers
  import opened AccessControl
  import opened Script
  import opened RoleSafety
  import opened Completion
  import opened Convergence
  import opened Plans
  import opened PlanOrder
  import opened RedeemerProofs

  // ---------- what the script sends ----------

  predicate RedeemerCall(c: Redemption, k: Call) {
    match k
    case GrantRole(to, role, account) =>
      || (to == c.vault && role == CollateralWithdrawer && account == c.redeemer)
      || (Member(to, role, c.deployer) in DeployerRoles(c) && account == c.governance)
    case RevokeRole(to, role, account) => Member(to, role, account) in Withdrawers(c) + DeployerRoles(c)
    case _ => false
  }

  lemma RedeemerOperations(c: Redemption)
    requires Sane(c)
    ensures var ops := Operations(RedeemerPlan(c));
            && (forall k | k in ops :: RedeemerCall(c, k))
            && Harmonious(ops) && PlanInUniverse(ops, RedeemerPlan(c))
  {
    var plan := RedeemerPlan(c);
    var ops := Operations(plan);
    var roles := RolesPlan(c.redeemer, REDEEMER_OPERATIONAL, c.deployer, c.governance);
    RolesOperations(c.redeemer, REDEEMER_OPERATIONAL, c.deployer, c.governance);
    forall i, k | i in plan && k in CallsOf(i) ensures RedeemerCall(c, k) {
      if i in roles {
        assert k in Operations(roles);
      } else if i in LegacyRevokes(c.vault, c.redeemer, c.legacies) {
        LegacyRevokesTake(c, c.legacies, i);
      }
    }
    forall a, b | a in ops && b in ops ensures !Opposite(a, b) {
      NoOpposites(c, a, b);
    }
    forall j | 0 <= j < |plan| ensures InUniverse(ops, plan[j]) {
      WithdrawersOrRoles(c, plan[j]);
      assert forall k | k in CallsOf(plan[j]) :: k in ops;
    }
  }

  lemma WithdrawersOrRoles(c: Redemption, i: Instr)
    requires i in RedeemerPlan(c)
    ensures (i.Ensure? && i.flagged) || i.KeepAdmin? || i.ConfirmAdmin?
  {
    if i in LegacyRevokes(c.vault, c.redeemer, c.legacies) {
      LegacyRevokesTake(c, c.legacies, i);
    }
  }

  lemma NoOpposites(c: Redemption, a: Call, b: Call)
    requires Sane(c) && RedeemerCall(c, a) && RedeemerCall(c, b)
    ensures !Opposite(a, b)
  {
  }

  lemma RedeemerAccountable(c: Redemption, p: Parties)
    requires p.signer == c.deployer
    ensures Accountable(p, RedeemerPlan(c))
  {
    forall j | 0 <= j < |WithdrawerPlan(c)| ensures AccountableAt(p, {}, WithdrawerPlan(c), j) {
      if j > 0 {
        assert WithdrawerPlan(c)[j] in LegacyRevokes(c.vault, c.redeemer, c.legacies);
        LegacyRevokesTake(c, c.legacies, WithdrawerPlan(c)[j]);
      }
    }
    RolesAccountable(p, c.redeemer, REDEEMER_OPERATIONAL, c.governance);
    AccountableAppend(p, {}, WithdrawerPlan(c), RolesPlan(c.redeemer, REDEEMER_OPERATIONAL, c.deployer, c.governance));
  }

  // ---------- the goal ----------

  /** The vault's withdrawer is the new redeemer and no legacy one. */
  predicate WithdrawerMoved(c: Redemption, chain: Chain) {
    && chain.Has(c.vault, CollateralWithdrawer, c.redeemer)
    && (forall m | m in Withdrawers(c) :: m !in chain.members)
  }

  /** The state the script is for, said without reference to the plan. */
  predicate Handed(c: Redemption, chain: Chain) {
    && WithdrawerMoved(c, chain)
    && (forall m | m in DeployerRoles(c) :: m !in chain.members && chain.Has(m.contract, m.role, c.governance))
  }

  lemma {:induction false} LegacyListed(c: Redemption, legacies: seq<Option<Address>>, legacy: Option<Address>)
    requires legacy in legacies && Legacy(legacy, c.redeemer).Some?
    ensures Ensure(RevokeRole(c.vault, CollateralWithdrawer, legacy.value), true, Abandon)
            in LegacyRevokes(c.vault, c.redeemer, legacies)
  {
    if legacies[0] != legacy {
      LegacyListed(c, legacies[1..], legacy);
    }
  }

  lemma WithdrawersMet(c: Redemption, chain: Chain)
    ensures AllMet(chain, WithdrawerPlan(c)) <==> WithdrawerMoved(c, chain)
  {
    var legacies := LegacyRevokes(c.vault, c.redeemer, c.legacies);
    if AllMet(chain, WithdrawerPlan(c)) {
      assert Met(chain, WithdrawerPlan(c)[0]);
      forall m | m in Withdrawers(c) ensures m !in chain.members {
        var legacy :| legacy in c.legacies && Legacy(legacy, c.redeemer).Some? &&
            m == Member(c.vault, CollateralWithdrawer, legacy.value);
        LegacyListed(c, c.legacies, legacy);
        assert Met(chain, Ensure(RevokeRole(c.vault, CollateralWithdrawer, legacy.value), true, Abandon));
      }
    }
    if WithdrawerMoved(c, chain) {
      forall i | i in WithdrawerPlan(c) ensures Met(chain, i) {
        if i in legacies {
          LegacyRevokesTake(c, c.legacies, i);
        }
      }
    }
  }

  lemma RolesHanded(c: Redemption, chain: Chain)
    requires AllMet(chain, RolesPlan(c.redeemer, REDEEMER_OPERATIONAL, c.deployer, c.governance))
    ensures forall m | m in DeployerRoles(c) :: m !in chain.members && chain.Has(m.contract, m.role, c.governance)
  {
    var plan := RolesPlan(c.redeemer, REDEEMER_OPERATIONAL, c.deployer, c.governance);
    assert Met(chain, plan[0]) && Met(chain, plan[1]) && Met(chain, plan[2]);
    assert Met(chain, plan[3]) && Met(chain, plan[4]) && Met(chain, plan[6]);
  }

  lemma MetIsHanded(c: Redemption, chain: Chain)
    requires AllMet(chain, RedeemerPlan(c))
    ensures Handed(c, chain)
  {
    assert forall i | i in WithdrawerPlan(c) :: i in RedeemerPlan(c);
    WithdrawersMet(c, chain);
    RolesHanded(c, chain);
  }

  /** Completion soundness, with calls failing only for want of authorisation and batches
      executed at any moment: completion means an empty queue and a finished hand-over. */
  lemma RedeemerCompletion(c: Redemption, useSafe: bool, run: seq<System>, events: seq<Event>, i: nat, j: nat, k: nat)
    requires Sane(c) && Behaviour(RedeemerRules(c, useSafe), {RedeemerPlan(c)}, run, events)
    requires i < j <= k < |run| && events[i] == Restart(RedeemerPlan(c), []) && Uninterrupted(events, i + 1, j)
    requires run[j].script.todo == [] && run[j].script.complete
    ensures run[j].script.queue == [] && Handed(c, run[j].script.chain) && Handed(c, run[k].script.chain)
  {
    var r, plan := RedeemerRules(c, useSafe), RedeemerPlan(c);
    RedeemerOperations(c);
    RedeemerAccountable(c, r.p);
    CompletionSound(r, Operations(plan), {plan}, plan, run, events, i, j);
    MetForever(r, Operations(plan), {plan}, run, events, j, k, plan);
    MetIsHanded(c, run[j].script.chain);
    MetIsHanded(c, run[k].script.chain);
  }

  /** Role by role: governance and no longer the deployer holds DefaultAdmin, RedemptionManager
      and Pauser, and of the redeemers only the new one may withdraw. */
  lemma RedeemerHandsRolesOver(c: Redemption, useSafe: bool, run: seq<System>, events: seq<Event>, i: nat, j: nat,
                               k: nat)
    requires Sane(c) && Behaviour(RedeemerRules(c, useSafe), {RedeemerPlan(c)}, run, events)
    requires i < j <= k < |run| && events[i] == Restart(RedeemerPlan(c), []) && Uninterrupted(events, i + 1, j)
    requires run[j].script.todo == [] && run[j].script.complete
    ensures var chain := run[k].script.chain;
            && (forall role | role in {DefaultAdmin, RedemptionManager, Pauser} ::
                  chain.Has(c.redeemer, role, c.governance) && !chain.Has(c.redeemer, role, c.deployer))
            && chain.Has(c.vault, CollateralWithdrawer, c.redeemer)
            && (forall legacy | legacy in c.legacies && legacy.Some? && legacy.value != c.redeemer ::
                  !chain.Has(c.vault, CollateralWithdrawer, legacy.value))
  {
    var chain := run[k].script.chain;
    RedeemerCompletion(c, useSafe, run, events, i, j, k);
    forall role | role in {DefaultAdmin, RedemptionManager, Pauser}
      ensures chain.Has(c.redeemer, role, c.governance) && !chain.Has(c.redeemer, role, c.deployer)
    {
      assert role in [DefaultAdmin] + REDEEMER_OPERATIONAL;
      var m := Member(c.redeemer, role, c.deployer);
      assert m in DeployerRoles(c);
    }
    forall legacy | legacy in c.legacies && legacy.Some? && legacy.value != c.redeemer
      ensures !chain.Has(c.vault, CollateralWithdrawer, legacy.value)
    {
      assert Legacy(legacy, c.redeemer).Some?;
      assert Member(c.vault, CollateralWithdrawer, legacy.value) in Withdrawers(c);
    }
  }

  // ---------- convergence ----------

  /** For each role the script needs, the deployer or governance holds it; the legacy
      redeemers are neither. */
  predicate Ready(c: Redemption, chain: Chain) {
    && OneHolds(c, chain, c.vault, chain.RoleAdmin(c.vault, CollateralWithdrawer))
    && OneHolds(c, chain, c.redeemer, DefaultAdmin)
    && (forall role | role in [DefaultAdmin] + REDEEMER_OPERATIONAL ::
          chain.RoleAdmin(c.redeemer, role) == DefaultAdmin)
    && (forall m | m in Withdrawers(c) :: m.account != c.governance && m.account != c.deployer)
  }

  predicate OneHolds(c: Redemption, chain: Chain, contract: Address, role: Role) {
    chain.Has(contract, role, c.deployer) || chain.Has(contract, role, c.governance)
  }

  lemma CallStaffed(c: Redemption, chain: Chain, k: Call)
    requires Sane(c) && Ready(c, chain) && RedeemerCall(c, k)
    ensures OneHolds(c, chain, k.to, RequiredRole(chain, k))
    ensures Removal(k).Some? ==> Removal(k).value.account != c.governance
    ensures Removal(k).Some? && Removal(k).value.account == c.deployer ==> Removal(k).value in DeployerRoles(c)
  {
  }

  lemma RedeemerStaffed(c: Redemption, chain: Chain)
    requires Sane(c) && Ready(c, chain)
    ensures var r, ops := RedeemerRules(c, true), Operations(RedeemerPlan(c));
            SafeInherits(r, ops) && AllStaffed(r, ops, chain)
  {
    RedeemerOperations(c);
    forall k | k in Operations(RedeemerPlan(c))
      ensures OneHolds(c, chain, k.to, RequiredRole(chain, k))
      ensures Removal(k).Some? ==> Removal(k).value.account != c.governance
      ensures Removal(k).Some? && Removal(k).value.account == c.deployer ==> Removal(k).value in DeployerRoles(c)
    {
      CallStaffed(c, chain, k);
    }
  }

  lemma RedeemerPermitted(c: Redemption, chain: Chain)
    requires Sane(c)
    ensures AllPermitted(chain, RedeemerPlan(c)) && AllowsDistinct(RedeemerPlan(c), [])
  {
    var plan := RedeemerPlan(c);
    RedeemerOperations(c);
    forall j | 0 <= j < |plan|
      ensures Permitted(chain, plan[j]) && (plan[j].Ensure? ==> !plan[j].call.AllowCollateral?)
    {
      WithdrawersOrRoles(c, plan[j]);
      assert forall k | k in CallsOf(plan[j]) :: k in Operations(plan);
    }
    forall i, j | 0 <= i < j < |plan| ensures !SameClaim(plan[j], plan[i]) {
      WithdrawersOrRoles(c, plan[j]);
    }
  }

  lemma RedeemerFits(c: Redemption, chain: Chain)
    requires Sane(c) && Ready(c, chain)
    ensures Fits(RedeemerRules(c, true), Operations(RedeemerPlan(c)), RedeemerPlan(c), chain)
  {
    var r, plan := RedeemerRules(c, true), RedeemerPlan(c);
    RedeemerPlanOk(c, true);
    RedeemerAccountable(c, r.p);
    RedeemerOperations(c);
    RedeemerStaffed(c, chain);
    RedeemerPermitted(c, chain);
    forall i | i in plan && (i.KeepAdmin? || i.ConfirmAdmin?)
      ensures i.h.keep == c.governance && chain.RoleAdmin(i.h.contract, DefaultAdmin) == DefaultAdmin
    {
      HandoversOf(c, i);
    }
    HandoversFit(r, plan, chain);
  }

  lemma HandoversOf(c: Redemption, i: Instr)
    requires i in RedeemerPlan(c) && (i.KeepAdmin? || i.ConfirmAdmin?)
    ensures i.h == Handover(c.redeemer, c.governance, c.deployer)
  {
    if i in LegacyRevokes(c.vault, c.redeemer, c.legacies) {
      LegacyRevokesTake(c, c.legacies, i);
    }
  }

  /** Run, sign the batch, and the hand-over is done: the batch does not revert, and any
      further run reports completion, queues nothing and changes nothing. */
  lemma RedeemerConverges(c: Redemption, chain: Chain)
    requires Sane(c) && Ready(c, chain)
    ensures var r := RedeemerRules(c, true);
            var plan := RedeemerPlan(c);
            var first := Run(r.p, Fresh(chain, plan, []));
            var goal := RunAndSign(r, plan, chain);
            && ExecuteBatch(first.chain, c.governance, first.queue).Some?
            && Handed(c, goal)
            && Run(r.p, Fresh(goal, plan, [])) == Fresh(goal, [], [])
  {
    RedeemerFits(c, chain);
    RedeemerPermitted(c, chain);
    Converges(RedeemerRules(c, true), Operations(RedeemerPlan(c)), RedeemerPlan(c), chain);
    MetIsHanded(c, RunAndSign(RedeemerRules(c, true), RedeemerPlan(c), chain));
  }
}
