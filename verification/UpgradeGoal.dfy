/** When the IssuerV2_2 upgrade script reports completion, and how it gets there. */
module UpgradeGoal {
  import opened Wrappers
  import opened AccessControl
  import opened Script
  import opened RoleSafety
  import opened Completion
  import opened Convergence
  import opened Rounds
  import opened Plans
  import opened PlanOrder
  import opened UpgradeProofs

  // ---------- the plan accounts for everything ----------

  lemma PlainAccountable(c: Upgrade, p: Parties, plan: seq<Instr>)
    requires forall i | i in plan :: PlanInstr(c, i) && !i.KeepAdmin? && !i.ConfirmAdmin?
    ensures Accountable(p, plan)
  {
    forall j | 0 <= j < |plan| ensures AccountableAt(p, {}, plan, j) {
      assert PlanInstr(c, plan[j]);
    }
  }

  lemma UpgradeAccountable(c: Upgrade, p: Parties)
    requires p.signer == c.deployer
    ensures Accountable(p, UpgradePlan(c))
  {
    UpgradeInstrs(c);
    var roles := RolesPlan(c.issuer, ISSUER_OPERATIONAL, c.deployer, c.governance);
    PlainAccountable(c, p, MinterPlan(c));
    RolesAccountable(p, c.issuer, ISSUER_OPERATIONAL, c.governance);
    OptionalAccountable(c, p);
    AccountableAppend(p, {}, MinterPlan(c), roles);
    AccountableAppend(p, {}, MinterPlan(c) + roles, OptionalManager(c));
    AccountableAppend(p, {}, MinterPlan(c) + roles + OptionalManager(c), OptionalDebtToken(c));
  }

  lemma OptionalAccountable(c: Upgrade, p: Parties)
    requires p.signer == c.deployer
    ensures Accountable(p, OptionalManager(c)) && Accountable(p, OptionalDebtToken(c))
  {
    UpgradeInstrs(c);
    if c.debtToken.Some? {
      var plan := OptionalDebtToken(c);
      PlainAccountable(c, p, plan[..1]);
      RolesAccountable(p, c.debtToken.value, [], c.governance);
      AccountableAppend(p, {}, plan[..1], RolesPlan(c.debtToken.value, [], c.deployer, c.governance));
      assert plan == plan[..1] + RolesPlan(c.debtToken.value, [], c.deployer, c.governance);
    }
    if c.manager.Some? {
      var plan := OptionalManager(c);
      var roles := RolesPlan(c.manager.value, MANAGER_OPERATIONAL, c.deployer, c.governance);
      var last := plan[2 + |roles|..];
      PlainAccountable(c, p, plan[..2]);
      RolesAccountable(p, c.manager.value, MANAGER_OPERATIONAL, c.governance);
      PlainAccountable(c, p, last);
      AccountableAppend(p, {}, plan[..2], roles);
      AccountableAppend(p, {}, plan[..2] + roles, last);
      assert plan == plan[..2] + roles + last;
    }
  }

  /** Completion soundness of the upgrade: a run that ends with its flag set, with the Safe
      executing any batches meanwhile, has nothing queued and leaves the upgraded state. Other
      scripts may run before and after it; the state lasts as long as none of them sends the
      opposite of a call of the upgrade. */
  lemma UpgradeCompletionAmong(c: Upgrade, useSafe: bool, ops: set<Call>, plans: set<seq<Instr>>,
                               run: seq<System>, events: seq<Event>, i: nat, j: nat, k: nat)
    requires Sane(c) && Behaviour(UpgradeRules(c, useSafe), plans, run, events)
    requires Harmonious(ops) && PlanInUniverse(ops, UpgradePlan(c))
    requires forall other | other in plans :: PlanInUniverse(ops, other)
    requires i < j <= k < |run| && events[i] == Restart(UpgradePlan(c), []) && Uninterrupted(events, i + 1, j)
    requires run[j].script.todo == [] && run[j].script.complete
    ensures run[j].script.queue == [] && Upgraded(c, run[j].script.chain) && Upgraded(c, run[k].script.chain)
  {
    var r := UpgradeRules(c, useSafe);
    var plan := UpgradePlan(c);
    UpgradeAccountable(c, r.p);
    CompletionSound(r, ops, plans, plan, run, events, i, j);
    MetForever(r, ops, plans, run, events, j, k, plan);
    MetIsUpgraded(c, run[j].script.chain);
    MetIsUpgraded(c, run[k].script.chain);
  }

  /** In particular the upgrade's own runs and batches never undo it. */
  lemma UpgradeCompletion(c: Upgrade, useSafe: bool, run: seq<System>, events: seq<Event>, i: nat, j: nat, k: nat)
    requires Sane(c) && Behaviour(UpgradeRules(c, useSafe), {UpgradePlan(c)}, run, events)
    requires i < j <= k < |run| && events[i] == Restart(UpgradePlan(c), []) && Uninterrupted(events, i + 1, j)
    requires run[j].script.todo == [] && run[j].script.complete
    ensures run[j].script.queue == [] && Upgraded(c, run[j].script.chain) && Upgraded(c, run[k].script.chain)
  {
    OperationsFit(c);
    UpgradeCompletionAmong(c, useSafe, Operations(UpgradePlan(c)), {UpgradePlan(c)}, run, events, i, j, k);
  }

  /** The upgraded state, role by role. */
  lemma UpgradedRoles(c: Upgrade, chain: Chain)
    requires Upgraded(c, chain)
    ensures forall role | role in {DefaultAdmin, IncentivesManager, Pauser} ::
              chain.Has(c.issuer, role, c.governance) && !chain.Has(c.issuer, role, c.deployer)
    ensures c.manager.Some? ==> forall role | role in {DefaultAdmin, AmoIncrease, AmoDecrease} ::
              chain.Has(c.manager.value, role, c.governance) && !chain.Has(c.manager.value, role, c.deployer)
    ensures c.debtToken.Some? ==>
              && chain.Has(c.debtToken.value, DefaultAdmin, c.governance)
              && !chain.Has(c.debtToken.value, DefaultAdmin, c.deployer)
    ensures chain.Has(c.token, Minter, c.issuer)
    ensures c.legacyIssuer.Some? && c.legacyIssuer.value != c.issuer ==>
              && !chain.Has(c.token, Minter, c.legacyIssuer.value)
              && forall asset | asset in c.collaterals && chain.IsPaused(c.legacyIssuer.value, asset) ::
                   chain.IsPaused(c.issuer, asset)
    ensures c.manager.Some? ==>
              && chain.Has(c.token, Minter, c.manager.value)
              && chain.Has(c.vault, CollateralWithdrawer, c.manager.value)
              && (c.legacyManager.Some? && c.legacyManager != c.manager ==>
                    !chain.Has(c.vault, CollateralWithdrawer, c.legacyManager.value))
    ensures c.debtToken.Some? ==> (c.vault, c.debtToken.value) in chain.collateral
  {
    if Legacy(c.legacyIssuer, c.issuer).Some? {
      assert Member(c.token, Minter, c.legacyIssuer.value) in Moved(c);
    }
    if c.manager.Some? && Legacy(c.legacyManager, c.manager.value).Some? {
      assert Member(c.vault, CollateralWithdrawer, c.legacyManager.value) in Moved(c);
    }
    forall role | role in {DefaultAdmin, IncentivesManager, Pauser}
      ensures chain.Has(c.issuer, role, c.governance) && !chain.Has(c.issuer, role, c.deployer)
    {
      assert role in [DefaultAdmin] + ISSUER_OPERATIONAL;
      var m := Member(c.issuer, role, c.deployer);
      assert m in Migrated(c);
    }
    if c.manager.Some? {
      forall role | role in {DefaultAdmin, AmoIncrease, AmoDecrease}
        ensures chain.Has(c.manager.value, role, c.governance) && !chain.Has(c.manager.value, role, c.deployer)
      {
        assert role in [DefaultAdmin] + MANAGER_OPERATIONAL;
        var m := Member(c.manager.value, role, c.deployer);
        assert m in Migrated(c);
      }
    }
    if c.debtToken.Some? {
      assert DefaultAdmin in [DefaultAdmin];
      assert Member(c.debtToken.value, DefaultAdmin, c.deployer) in Migrated(c);
    }
  }

  /** What reported completion means, spelled out, then and at any later time: governance and no
      longer the deployer holds DefaultAdmin, IncentivesManager and Pauser on the issuer, DefaultAdmin
      and both AMO roles on the manager, and DefaultAdmin on the debt token; the issuer and the
      manager mint, the manager withdraws, and no separate legacy contract does either; pauses are
      mirrored and the debt token is allowed. */
  lemma UpgradeHandsRolesOver(c: Upgrade, useSafe: bool, run: seq<System>, events: seq<Event>, i: nat, j: nat, k: nat)
    requires Sane(c) && Behaviour(UpgradeRules(c, useSafe), {UpgradePlan(c)}, run, events)
    requires i < j <= k < |run| && events[i] == Restart(UpgradePlan(c), []) && Uninterrupted(events, i + 1, j)
    requires run[j].script.todo == [] && run[j].script.complete
    ensures var chain := run[k].script.chain;
            && (forall role | role in {DefaultAdmin, IncentivesManager, Pauser} ::
                  chain.Has(c.issuer, role, c.governance) && !chain.Has(c.issuer, role, c.deployer))
            && (c.manager.Some? ==> forall role | role in {DefaultAdmin, AmoIncrease, AmoDecrease} ::
                  chain.Has(c.manager.value, role, c.governance) && !chain.Has(c.manager.value, role, c.deployer))
            && (c.debtToken.Some? ==>
                  && chain.Has(c.debtToken.value, DefaultAdmin, c.governance)
                  && !chain.Has(c.debtToken.value, DefaultAdmin, c.deployer))
            && chain.Has(c.token, Minter, c.issuer)
            && (c.legacyIssuer.Some? && c.legacyIssuer.value != c.issuer ==>
                  && !chain.Has(c.token, Minter, c.legacyIssuer.value)
                  && forall asset | asset in c.collaterals && chain.IsPaused(c.legacyIssuer.value, asset) ::
                       chain.IsPaused(c.issuer, asset))
            && (c.manager.Some? ==>
                  && chain.Has(c.token, Minter, c.manager.value)
                  && chain.Has(c.vault, CollateralWithdrawer, c.manager.value)
                  && (c.legacyManager.Some? && c.legacyManager != c.manager ==>
                        !chain.Has(c.vault, CollateralWithdrawer, c.legacyManager.value)))
            && (c.debtToken.Some? ==> (c.vault, c.debtToken.value) in chain.collateral)
  {
    UpgradeCompletion(c, useSafe, run, events, i, j, k);
    UpgradedRoles(c, run[k].script.chain);
  }

  // ---------- convergence ----------

  /** What the chain must offer before the first run: for each role the script
      needs, the deployer or governance holds it, and the contracts that are
      handed over administer their roles by DefaultAdmin. */
  predicate Ready(c: Upgrade, chain: Chain) {
    && OneHolds(c, chain, c.token, chain.RoleAdmin(c.token, Minter))
    && OneHolds(c, chain, c.vault, chain.RoleAdmin(c.vault, CollateralWithdrawer))
    && (c.debtToken.Some? ==> OneHolds(c, chain, c.vault, CollateralManager))
    && OneHolds(c, chain, c.issuer, Pauser)
    && (forall m | m in Migrated(c) ::
          chain.RoleAdmin(m.contract, m.role) == DefaultAdmin && OneHolds(c, chain, m.contract, DefaultAdmin))
  }

  predicate OneHolds(c: Upgrade, chain: Chain, contract: Address, role: Role) {
    chain.Has(contract, role, c.deployer) || chain.Has(contract, role, c.governance)
  }

  /** If its pause is still to be mirrored, the asset is one the issuer's vault supports. */
  predicate PauseSupported(c: Upgrade, chain: Chain, asset: Address) {
    Legacy(c.legacyIssuer, c.issuer).Some? && chain.IsPaused(c.legacyIssuer.value, asset) &&
        !chain.IsPaused(c.issuer, asset) ==>
      chain.Supports(c.issuer, asset)
  }

  predicate MirrorsSupported(c: Upgrade, chain: Chain) {
    forall asset | asset in c.collaterals :: PauseSupported(c, chain, asset)
  }

  /** If the debt token is still to be allowed as collateral, the vault's oracle prices it. */
  predicate DebtTokenPriced(c: Upgrade, chain: Chain) {
    c.debtToken.Some? && (c.vault, c.debtToken.value) !in chain.collateral ==>
        (c.vault, c.debtToken.value) in chain.priced
  }

  predicate GrantsMigrated(c: Upgrade, i: Instr) {
    i.Ensure? && i.call.GrantRole? && i.call.account == c.governance ==>
      Member(i.call.to, i.call.role, c.deployer) in Migrated(c)
  }

  lemma RolesGrantsMigrated(c: Upgrade, contract: Address, operational: seq<Role>)
    requires Held(contract, operational, c.deployer) <= Migrated(c)
    ensures forall i | i in RolesPlan(contract, operational, c.deployer, c.governance) :: GrantsMigrated(c, i)
  {
  }

  lemma UpgradeGrantsMigrated(c: Upgrade)
    requires Sane(c)
    ensures forall i | i in UpgradePlan(c) :: GrantsMigrated(c, i)
  {
    RolesGrantsMigrated(c, c.issuer, ISSUER_OPERATIONAL);
    if c.manager.Some? {
      RolesGrantsMigrated(c, c.manager.value, MANAGER_OPERATIONAL);
    }
    if c.debtToken.Some? {
      RolesGrantsMigrated(c, c.debtToken.value, []);
    }
    forall i | i in UpgradePlan(c) ensures GrantsMigrated(c, i) {
      if i in MinterPlan(c) {
        assert c.issuer in Contracts(c);
      } else if i in RolesPlan(c.issuer, ISSUER_OPERATIONAL, c.deployer, c.governance) {
      } else if i in OptionalManager(c) {
        assert c.manager.value in Contracts(c);
      } else {
        assert i in OptionalDebtToken(c);
      }
    }
  }

  lemma OperationsStaffed(c: Upgrade, r: Rules, chain: Chain)
    requires Sane(c) && RulesFit(c, r) && Ready(c, chain)
    ensures AllStaffed(r, Operations(UpgradePlan(c)), chain)
  {
    UpgradeInstrs(c);
    UpgradeGrantsMigrated(c);
    forall k | k in Operations(UpgradePlan(c)) ensures Staffed(r, chain, k.to, RequiredRole(chain, k)) {
      var i :| i in UpgradePlan(c) && k in CallsOf(i);
      assert PlanInstr(c, i) && GrantsMigrated(c, i);
      if Removal(k).Some? {
        MembershipFacts(c, Removal(k).value);
      }
    }
  }

  lemma OperationsInherited(c: Upgrade, useSafe: bool)
    requires Sane(c)
    ensures SafeInherits(UpgradeRules(c, useSafe), Operations(UpgradePlan(c)))
  {
    OperationsFit(c);
    forall k | k in Operations(UpgradePlan(c)) && Removal(k).Some?
      ensures Removal(k).value.account != c.governance
      ensures Removal(k).value.account == c.deployer ==> Removal(k).value in Migrated(c)
    {
      MembershipFacts(c, Removal(k).value);
    }
  }

  predicate AllowsNothing(plan: seq<Instr>) {
    forall i | i in plan && (i.Ensure? || i.Attempt?) :: !i.call.AllowCollateral?
  }

  lemma RolesAllowNothing(contract: Address, operational: seq<Role>, deployer: Address, governance: Address)
    ensures AllowsNothing(RolesPlan(contract, operational, deployer, governance))
  {
  }

  lemma ManagerAllowsNothing(c: Upgrade)
    ensures AllowsNothing(OptionalManager(c)) && AllowsNothing(MinterPlan(c))
  {
  }

  /** Only the debt token part allows collateral, and only once. */
  lemma UpgradeDistinct(c: Upgrade)
    ensures AllowsDistinct(UpgradePlan(c), [])
  {
    var plan, last := UpgradePlan(c), OptionalDebtToken(c);
    var roles := RolesPlan(c.issuer, ISSUER_OPERATIONAL, c.deployer, c.governance);
    var before := MinterPlan(c) + roles + OptionalManager(c);
    RolesAllowNothing(c.issuer, ISSUER_OPERATIONAL, c.deployer, c.governance);
    ManagerAllowsNothing(c);
    assert AllowsNothing(before);
    assert plan == before + last;
    if c.debtToken.Some? {
      RolesAllowNothing(c.debtToken.value, [], c.deployer, c.governance);
      assert last[1..] == RolesPlan(c.debtToken.value, [], c.deployer, c.governance);
    }
    DistinctAfter(before, last);
  }

  lemma DistinctAfter(before: seq<Instr>, last: seq<Instr>)
    requires AllowsNothing(before)
    requires last != [] ==> AllowsNothing(last[1..])
    ensures AllowsDistinct(before + last, [])
  {
  }

  lemma ReadyFits(c: Upgrade, chain: Chain)
    requires Sane(c) && Ready(c, chain)
    ensures Fits(UpgradeRules(c, true), Operations(UpgradePlan(c)), UpgradePlan(c), chain)
  {
    var r := UpgradeRules(c, true);
    BothRulesFit(c, true);
    UpgradePlanOk(c, r);
    UpgradeAccountable(c, r.p);
    OperationsFit(c);
    OperationsInherited(c, true);
    OperationsStaffed(c, r, chain);
    UpgradeDistinct(c);
    UpgradeInstrs(c);
    HandoversFit(r, UpgradePlan(c), chain);
  }

  /** The condition on the plan, read off the configuration and the chain. */
  lemma PermittedExactly(c: Upgrade, chain: Chain)
    ensures AllPermitted(chain, UpgradePlan(c)) <==> MirrorsSupported(c, chain) && DebtTokenPriced(c, chain)
  {
    var plan := UpgradePlan(c);
    UpgradeInstrs(c);
    if MirrorsSupported(c, chain) && DebtTokenPriced(c, chain) {
      forall j | 0 <= j < |plan| ensures Permitted(chain, plan[j]) {
        assert PlanInstr(c, plan[j]);
      }
    }
    if AllPermitted(chain, plan) {
      forall asset | asset in c.collaterals ensures PauseSupported(c, chain, asset) {
        if Legacy(c.legacyIssuer, c.issuer).Some? {
          var i :| 0 <= i < |c.collaterals| && c.collaterals[i] == asset;
          assert plan[i + 1] == MirrorPause(c.legacyIssuer.value, c.issuer, asset);
          assert Permitted(chain, plan[i + 1]);
        }
      }
      if c.debtToken.Some? {
        var k := |plan| - |OptionalDebtToken(c)|;
        assert plan[k] == OptionalDebtToken(c)[0] ==
            Ensure(AllowCollateral(c.vault, c.debtToken.value), true, Propagate);
        assert Permitted(chain, plan[k]);
      }
    }
  }

  /** Convergence of the upgrade: run, sign the batch, and the upgrade is done; any
      further run reports completion, queues nothing and changes nothing. */
  lemma UpgradeConverges(c: Upgrade, chain: Chain)
    requires Sane(c) && Ready(c, chain) && MirrorsSupported(c, chain) && DebtTokenPriced(c, chain)
    ensures var r := UpgradeRules(c, true);
            var plan := UpgradePlan(c);
            var first := Run(r.p, Fresh(chain, plan, []));
            var goal := RunAndSign(r, plan, chain);
            && ExecuteBatch(first.chain, c.governance, first.queue).Some?
            && Upgraded(c, goal)
            && Run(r.p, Fresh(goal, plan, [])) == Fresh(goal, [], [])
  {
    var r := UpgradeRules(c, true);
    ReadyFits(c, chain);
    PermittedExactly(c, chain);
    Converges(r, Operations(UpgradePlan(c)), UpgradePlan(c), chain);
    MetIsUpgraded(c, RunAndSign(r, UpgradePlan(c), chain));
  }

  // ---------- and exactly when it does ----------

  /** The asset is the debt token, which the run goes on to allow in the issuer's vault by
      a direct call of the deployer. */
  predicate AllowedLater(c: Upgrade, chain: Chain, asset: Address) {
    && c.debtToken == Some(asset)
    && c.issuer in chain.vaultOf && chain.vaultOf[c.issuer] == c.vault
    && chain.Has(c.vault, CollateralManager, c.deployer)
  }

  predicate Completable(c: Upgrade, chain: Chain) {
    && DebtTokenPriced(c, chain)
    && forall asset | asset in c.collaterals :: PauseSupported(c, chain, asset) || AllowedLater(c, chain, asset)
  }

  /** Where the debt token is allowed, and that nothing before allows anything. */
  lemma AllowsLast(c: Upgrade)
    ensures MirrorsFirst(UpgradePlan(c))
    ensures c.debtToken.Some? ==>
              Ensure(AllowCollateral(c.vault, c.debtToken.value), true, Propagate) in UpgradePlan(c)
  {
    var plan, last := UpgradePlan(c), OptionalDebtToken(c);
    var roles := RolesPlan(c.issuer, ISSUER_OPERATIONAL, c.deployer, c.governance);
    var before := MinterPlan(c) + roles + OptionalManager(c);
    RolesAllowNothing(c.issuer, ISSUER_OPERATIONAL, c.deployer, c.governance);
    ManagerAllowsNothing(c);
    assert AllowsNothing(before);
    assert plan == before + last;
    forall i, j | 0 <= i < j < |plan| && plan[j].MirrorPause?
      ensures !((plan[i].Ensure? || plan[i].Attempt?) && plan[i].call.AllowCollateral?)
    {
      assert j < |before| && plan[i] == before[i] && before[i] in before;
    }
    if c.debtToken.Some? {
      assert plan[|before|] == Ensure(AllowCollateral(c.vault, c.debtToken.value), true, Propagate);
    }
  }

  lemma RemovesNoCollateralManager(c: Upgrade, k: Call)
    requires PlanCall(c, k) && Removal(k).Some?
    ensures Removal(k).value.role != CollateralManager
  {
    var m := Removal(k).value;
    MembershipFacts(c, m);
    if m in Migrated(c) {
      var roles := [DefaultAdmin] + ISSUER_OPERATIONAL + MANAGER_OPERATIONAL;
      assert m.role in roles;
    }
  }

  lemma UpgradeRegular(c: Upgrade)
    requires Sane(c)
    ensures Regular(UpgradePlan(c))
  {
    var plan := UpgradePlan(c);
    AllowsLast(c);
    forall t | t in plan && t.Ensure? ensures !t.call.PauseAsset? {
      UpgradeInstrs(c);
      assert PlanInstr(c, t);
    }
    forall k | k in Operations(plan) && Removal(k).Some? ensures Removal(k).value.role != CollateralManager {
      OperationsFit(c);
      RemovesNoCollateralManager(c, k);
    }
  }

  /** The condition on the plan, read off the configuration and the chain. */
  lemma ClearableExactly(c: Upgrade, chain: Chain)
    ensures Clearable(UpgradeRules(c, true), UpgradePlan(c), chain) <==> Completable(c, chain)
  {
    var r, plan := UpgradeRules(c, true), UpgradePlan(c);
    UpgradeInstrs(c);
    AllowsLast(c);
    if Completable(c, chain) {
      forall t | t in plan ensures Permitted(chain, t) || Openable(r, plan, chain, t) {
        assert PlanInstr(c, t);
        if t.MirrorPause? && !PauseSupported(c, chain, t.asset) {
          AllowedLaterOpens(c, chain, t);
        }
      }
    }
    if Clearable(r, plan, chain) {
      forall asset | asset in c.collaterals ensures PauseSupported(c, chain, asset) || AllowedLater(c, chain, asset) {
        if Legacy(c.legacyIssuer, c.issuer).Some? {
          MirrorCleared(c, chain, asset);
        }
      }
      if c.debtToken.Some? {
        var t := Ensure(AllowCollateral(c.vault, c.debtToken.value), true, Propagate);
        assert Permitted(chain, t) || Openable(r, plan, chain, t);
      }
    }
  }

  lemma AllowedLaterOpens(c: Upgrade, chain: Chain, t: Instr)
    requires DebtTokenPriced(c, chain) && t.MirrorPause? && PlanInstr(c, t)
    requires !PauseSupported(c, chain, t.asset) && AllowedLater(c, chain, t.asset)
    ensures Openable(UpgradeRules(c, true), UpgradePlan(c), chain, t)
  {
    var plan := UpgradePlan(c);
    AllowsLast(c);
    var i :| 0 <= i < |plan| && plan[i] == Ensure(AllowCollateral(c.vault, t.asset), true, Propagate);
    assert Sends(plan[i], Opener(chain, t).value);
  }

  lemma MirrorCleared(c: Upgrade, chain: Chain, asset: Address)
    requires Legacy(c.legacyIssuer, c.issuer).Some? && asset in c.collaterals
    requires Clearable(UpgradeRules(c, true), UpgradePlan(c), chain)
    ensures PauseSupported(c, chain, asset) || AllowedLater(c, chain, asset)
  {
    var r, plan := UpgradeRules(c, true), UpgradePlan(c);
    UpgradeInstrs(c);
    var i :| 0 <= i < |c.collaterals| && c.collaterals[i] == asset;
    var t := MirrorPause(c.legacyIssuer.value, c.issuer, asset);
    assert plan[i + 1] == t && t in plan;
    if !Permitted(chain, t) {
      assert Openable(r, plan, chain, t);
      var j :| 0 <= j < |plan| && Sends(plan[j], Opener(chain, t).value);
      assert PlanInstr(c, plan[j]);
    }
  }

  /** The exact condition: a debt token still to be allowed has a price, and every pause still
      to be mirrored is on a supported asset or on the debt token, which the deployer goes on
      to allow by itself. Then two rounds of running and signing complete the upgrade;
      otherwise no number of rounds does, and every batch reverts as a whole. */
  lemma UpgradeConvergesExactly(c: Upgrade, chain: Chain)
    requires Sane(c) && Ready(c, chain)
    ensures var r := UpgradeRules(c, true);
            var plan := UpgradePlan(c);
            && (Completable(c, chain) ==> forall n: nat | n >= 2 ::
                  CompletesAfter(r, plan, chain, n) && Upgraded(c, AfterRounds(r, plan, chain, n)))
            && (!Completable(c, chain) ==> forall n: nat ::
                  !CompletesAfter(r, plan, chain, n) && BatchReverts(r, plan, AfterRounds(r, plan, chain, n)))
  {
    var r, plan := UpgradeRules(c, true), UpgradePlan(c);
    ReadyFits(c, chain);
    UpgradeRegular(c);
    ClearableExactly(c, chain);
    ConvergesExactly(r, plan, chain);
    if Completable(c, chain) {
      forall n: nat | n >= 2 ensures Upgraded(c, AfterRounds(r, plan, chain, n)) {
        MetIsUpgraded(c, AfterRounds(r, plan, chain, n));
      }
    }
  }

  // ---------- chains on which the upgrade gets stuck ----------

  /** Governance administers everything; nothing is supported as collateral. */
  function GovernedChain(c: Upgrade, paused: set<(Address, Address)>, priced: set<(Address, Address)>): Chain {
    var admins := set m | m in Migrated(c) :: Member(m.contract, DefaultAdmin, c.governance);
    var others := {Member(c.token, DefaultAdmin, c.governance), Member(c.vault, DefaultAdmin, c.governance),
                   Member(c.vault, CollateralManager, c.governance), Member(c.issuer, Pauser, c.governance)};
    Chain(admins + others, map[], paused, {}, priced, map[c.issuer := c.vault])
  }

  lemma GovernedIsReady(c: Upgrade, paused: set<(Address, Address)>, priced: set<(Address, Address)>)
    ensures Ready(c, GovernedChain(c, paused, priced))
  {
  }

  /** An asset that was paused on the legacy issuer while the vault supported it, and that the
      vault has stopped supporting since: the upgrade never completes. */
  lemma UnsupportedPauseWitness(c: Upgrade, asset: Address)
    requires Sane(c) && Legacy(c.legacyIssuer, c.issuer).Some? && asset in c.collaterals
    ensures var priced := if c.debtToken.Some? then {(c.vault, c.debtToken.value)} else {};
            var chain := GovernedChain(c, {(c.legacyIssuer.value, asset)}, priced);
            && Ready(c, chain) && DebtTokenPriced(c, chain)
            && forall n: nat :: !CompletesAfter(UpgradeRules(c, true), UpgradePlan(c), chain, n)
  {
    var priced := if c.debtToken.Some? then {(c.vault, c.debtToken.value)} else {};
    var chain := GovernedChain(c, {(c.legacyIssuer.value, asset)}, priced);
    GovernedIsReady(c, {(c.legacyIssuer.value, asset)}, priced);
    assert !PauseSupported(c, chain, asset) && !AllowedLater(c, chain, asset);
    UpgradeConvergesExactly(c, chain);
  }

  /** A debt token whose oracle is still waiting for the Safe: the upgrade does not complete
      until somebody else has the price set. */
  lemma UnpricedDebtTokenWitness(c: Upgrade)
    requires Sane(c) && c.debtToken.Some?
    ensures var chain := GovernedChain(c, {}, {});
            && Ready(c, chain) && MirrorsSupported(c, chain)
            && forall n: nat :: !CompletesAfter(UpgradeRules(c, true), UpgradePlan(c), chain, n)
  {
    GovernedIsReady(c, {}, {});
    UpgradeConvergesExactly(c, GovernedChain(c, {}, {}));
  }
}
