/** The IssuerV2_2 upgrade script is an instance of the general hand-over theorems. */
module UpgradeProofs {
  import opened Wrappers
  import opened AccessControl
  import opened Script
  import opened RoleSafety
  import opened Completion
  import opened Plans
  import opened PlanOrder

  /** The deployer is neither governance nor a contract, and no contract plays two parts. */
  predicate Sane(c: Upgrade) {
    && c.deployer != c.governance
    && (forall a | a in Contracts(c) :: a != c.deployer && a != c.governance)
    && (c.legacyIssuer.Some? ==> c.legacyIssuer != c.manager)
  }

  function Contracts(c: Upgrade): set<Address> {
    {c.issuer}
    + (if c.legacyIssuer.Some? then {c.legacyIssuer.value} else {})
    + (if c.manager.Some? then {c.manager.value} else {})
    + (if c.legacyManager.Some? then {c.legacyManager.value} else {})
  }

  function Held(contract: Address, operational: seq<Role>, account: Address): set<Membership> {
    set role | role in [DefaultAdmin] + operational :: Member(contract, role, account)
  }

  /** The deployer's memberships that the script migrates to governance. */
  function Migrated(c: Upgrade): set<Membership> {
    Held(c.issuer, ISSUER_OPERATIONAL, c.deployer)
    + (if c.manager.Some? then Held(c.manager.value, MANAGER_OPERATIONAL, c.deployer) else {})
    + (if c.debtToken.Some? then Held(c.debtToken.value, [], c.deployer) else {})
  }

  /** The legacy contracts' memberships that the script moves to their successors. */
  function Moved(c: Upgrade): set<Membership> {
    (if Legacy(c.legacyIssuer, c.issuer).Some? then {Member(c.token, Minter, c.legacyIssuer.value)} else {})
    + (if c.manager.Some? && Legacy(c.legacyManager, c.manager.value).Some?
       then {Member(c.vault, CollateralWithdrawer, c.legacyManager.value)} else {})
  }

  function HeirOf(c: Upgrade, m: Membership): Address {
    if m in Migrated(c) then c.governance
    else if m.role == Minter || c.manager.None? then c.issuer
    else c.manager.value
  }

  /** All the role moves of the script, under authorisation-only failures. */
  function UpgradeRules(c: Upgrade, useSafe: bool): Rules {
    Rules(Parties(c.deployer, useSafe), c.governance, map m | m in Migrated(c) + Moved(c) :: HeirOf(c, m), false)
  }

  /** Only the DefaultAdmin hand-overs, under arbitrary failures. */
  function AdminRules(c: Upgrade, useSafe: bool): Rules {
    Rules(Parties(c.deployer, useSafe), c.governance,
          map m | m in Migrated(c) && m.role == DefaultAdmin :: c.governance, true)
  }

  /** What the general lemmas need to know of either set of rules. */
  predicate RulesFit(c: Upgrade, r: Rules) {
    && r.p.signer == c.deployer && r.safe == c.governance
    && (forall m | m in r.heirs :: m in Migrated(c) + Moved(c) && r.heirs[m] == HeirOf(c, m))
    && (r.anyFault ==> forall m | m in r.heirs :: m.role == DefaultAdmin)
  }

  lemma BothRulesFit(c: Upgrade, useSafe: bool)
    ensures RulesFit(c, UpgradeRules(c, useSafe)) && RulesFit(c, AdminRules(c, useSafe))
  {
  }

  // ---------- the calls and instructions of the plan ----------

  predicate PlanCall(c: Upgrade, k: Call) {
    match k
    case GrantRole(to, role, account) =>
      || (account == c.governance && role != Minter && role != CollateralWithdrawer)
      || (to == c.token && role == Minter && (account == c.issuer || Some(account) == c.manager))
      || (to == c.vault && role == CollateralWithdrawer && Some(account) == c.manager)
    case RevokeRole(to, role, account) => Member(to, role, account) in Migrated(c) + Moved(c)
    case RenounceRole(_, _, _) => false
    case PauseAsset(to, _) => to == c.issuer
    case AllowCollateral(to, asset) => to == c.vault && Some(asset) == c.debtToken
  }

  predicate PlanHandover(c: Upgrade, h: Handover) {
    h.keep == c.governance && h.revoke == c.deployer && Member(h.contract, DefaultAdmin, c.deployer) in Migrated(c)
  }

  predicate PlanInstr(c: Upgrade, i: Instr) {
    match i
    case MirrorPause(legacy, issuer, asset) =>
      Legacy(c.legacyIssuer, c.issuer) == Some(legacy) && issuer == c.issuer && asset in c.collaterals
    case Ensure(call, flagged, onThrow) => PlanCall(c, call) && flagged && !call.PauseAsset?
    case KeepAdmin(h) => PlanHandover(c, h)
    case ConfirmAdmin(h) => PlanHandover(c, h)
    case _ => false
  }

  lemma RolesInstrs(c: Upgrade, contract: Address, operational: seq<Role>)
    requires Held(contract, operational, c.deployer) <= Migrated(c)
    requires forall role | role in operational :: role != Minter && role != CollateralWithdrawer
    ensures forall i | i in RolesPlan(contract, operational, c.deployer, c.governance) :: PlanInstr(c, i)
  {
    var roles := [DefaultAdmin] + operational;
    forall i | i in RolesPlan(contract, operational, c.deployer, c.governance) ensures PlanInstr(c, i) {
      assert Member(contract, DefaultAdmin, c.deployer) in Held(contract, operational, c.deployer);
      if i in EnsureAll(GrantCalls(contract, roles, c.governance)) {
        assert i.call.role in roles;
      } else if i in EnsureAll(RevokeCalls(contract, operational, c.deployer)) {
        assert i.call.role in roles;
        assert Member(contract, i.call.role, c.deployer) in Held(contract, operational, c.deployer);
      }
    }
  }

  lemma UpgradeInstrs(c: Upgrade)
    ensures forall i | i in UpgradePlan(c) :: PlanInstr(c, i)
  {
    RolesInstrs(c, c.issuer, ISSUER_OPERATIONAL);
    if c.manager.Some? {
      RolesInstrs(c, c.manager.value, MANAGER_OPERATIONAL);
    }
    if c.debtToken.Some? {
      RolesInstrs(c, c.debtToken.value, []);
    }
    forall i | i in UpgradePlan(c) ensures PlanInstr(c, i) {
      if i in MinterPlan(c) {
      } else if i in RolesPlan(c.issuer, ISSUER_OPERATIONAL, c.deployer, c.governance) {
      } else if i in OptionalManager(c) {
        if i !in RolesPlan(c.manager.value, MANAGER_OPERATIONAL, c.deployer, c.governance) {
          assert i.Ensure?;
        }
      } else {
        assert i in OptionalDebtToken(c);
      }
    }
  }

  /** Migrated memberships are the deployer's; moved ones are those of a legacy contract. */
  lemma MembershipFacts(c: Upgrade, m: Membership)
    ensures m in Migrated(c) ==> m.account == c.deployer && m.role != Minter && m.role != CollateralWithdrawer
    ensures m in Moved(c) ==> m.account in Contracts(c)
    ensures m in Moved(c) && m.role == Minter ==>
            m.contract == c.token && Some(m.account) == c.legacyIssuer && m.account != c.issuer
    ensures m in Moved(c) && m.role != Minter ==>
              && c.manager.Some? && m.contract == c.vault && m.role == CollateralWithdrawer
              && Some(m.account) == c.legacyManager && m.account != c.manager.value
  {
  }

  lemma PlanCallOk(c: Upgrade, r: Rules, k: Call)
    requires Sane(c) && RulesFit(c, r) && PlanCall(c, k)
    ensures CallOk(r, k)
  {
    assert k.GrantRole? ==> k.account == c.governance || k.account in Contracts(c);
    if Removal(k).Some? {
      MembershipFacts(c, Removal(k).value);
      forall m | m in r.heirs ensures Removal(k) != Some(Member(m.contract, m.role, r.heirs[m])) {
        MembershipFacts(c, m);
      }
    }
  }

  // ---------- the plan is well ordered ----------

  lemma PlanInstrFits(c: Upgrade, r: Rules, plan: seq<Instr>, j: nat)
    requires Sane(c) && RulesFit(c, r) && j < |plan| && PlanInstr(c, plan[j])
    requires Takes(plan[j]).Some? && Takes(plan[j]).value in r.heirs ==>
               !r.anyFault && SentBefore(plan, j, HeirGrant(r, Takes(plan[j]).value))
    ensures PlanInstrOk(r, plan, j)
  {
    match plan[j]
    case Ensure(call, _, _) => PlanCallOk(c, r, call);
    case KeepAdmin(h) => PlanHandoverOk(c, r, h);
    case ConfirmAdmin(h) => PlanHandoverOk(c, r, h);
    case _ =>
  }

  lemma PlanHandoverOk(c: Upgrade, r: Rules, h: Handover)
    requires Sane(c) && RulesFit(c, r) && PlanHandover(c, h)
    ensures HandoverOk(r, h)
  {
  }

  lemma RolesPlanOk(c: Upgrade, r: Rules, contract: Address, operational: seq<Role>)
    requires Sane(c) && RulesFit(c, r) && Held(contract, operational, c.deployer) <= Migrated(c)
    requires forall role | role in operational :: role != Minter && role != CollateralWithdrawer && role != DefaultAdmin
    ensures PlanOk(r, RolesPlan(contract, operational, c.deployer, c.governance))
  {
    forall role | role in [DefaultAdmin] + operational ensures MoveOk(r, contract, role, c.governance) {
      assert Member(contract, role, c.deployer) in Held(contract, operational, c.deployer);
      PlanCallOk(c, r, GrantRole(contract, role, c.governance));
      PlanCallOk(c, r, RevokeRole(contract, role, c.deployer));
    }
    RolesOrdered(r, contract, operational, c.governance);
  }

  /** A grant, anything that takes nothing away, then the removal it makes room for. */
  lemma SandwichOk(c: Upgrade, r: Rules, before: seq<Instr>, m: Membership, onThrow: OnThrow)
    requires Sane(c) && RulesFit(c, r) && PlanOk(r, before) && m in Moved(c)
    requires before != [] && Sends(before[0], GrantRole(m.contract, m.role, HeirOf(c, m)))
    ensures PlanOk(r, before + [Ensure(RevokeRole(m.contract, m.role, m.account), true, onThrow)])
  {
    var plan := before + [Ensure(RevokeRole(m.contract, m.role, m.account), true, onThrow)];
    MembershipFacts(c, m);
    forall j | 0 <= j < |plan| ensures PlanInstrOk(r, plan, j) {
      if j < |before| {
        assert PlanInstrOk(r, before, j);
        if Takes(plan[j]).Some? && Takes(plan[j]).value in r.heirs {
          var g := HeirGrant(r, Takes(plan[j]).value);
          var i :| 0 <= i < j && Sends(before[i], g);
          assert Sends(plan[i], g);
        }
      } else {
        assert plan[0] == before[0];
        PlanInstrFits(c, r, plan, j);
      }
    }
  }

  lemma PlanNothingTaken(c: Upgrade, r: Rules, plan: seq<Instr>)
    requires Sane(c) && RulesFit(c, r)
    requires forall i | i in plan :: PlanInstr(c, i) && Takes(i).None?
    ensures PlanOk(r, plan)
  {
    forall j | 0 <= j < |plan| ensures PlanInstrOk(r, plan, j) {
      PlanInstrFits(c, r, plan, j);
    }
  }

  lemma UpgradePlanOk(c: Upgrade, r: Rules)
    requires Sane(c) && RulesFit(c, r)
    ensures PlanOk(r, UpgradePlan(c))
  {
    UpgradeInstrs(c);
    var roles := RolesPlan(c.issuer, ISSUER_OPERATIONAL, c.deployer, c.governance);
    MinterPlanOk(c, r);
    RolesPlanOk(c, r, c.issuer, ISSUER_OPERATIONAL);
    OptionalPlanOk(c, r);
    PlanOkAppend(r, MinterPlan(c), roles);
    PlanOkAppend(r, MinterPlan(c) + roles, OptionalManager(c));
    PlanOkAppend(r, MinterPlan(c) + roles + OptionalManager(c), OptionalDebtToken(c));
  }

  lemma MinterPlanOk(c: Upgrade, r: Rules)
    requires Sane(c) && RulesFit(c, r)
    ensures PlanOk(r, MinterPlan(c))
  {
    var first := [Ensure(GrantRole(c.token, Minter, c.issuer), true, Propagate)];
    match Legacy(c.legacyIssuer, c.issuer)
    case None => PlanNothingTaken(c, r, first); assert MinterPlan(c) == first;
    case Some(legacy) =>
      var before := first + Mirrors(legacy, c.issuer, c.collaterals);
      var m := Member(c.token, Minter, legacy);
      PlanNothingTaken(c, r, before);
      MembershipFacts(c, m);
      SandwichOk(c, r, before, m, MarkPending);
      assert MinterPlan(c) == before + [Ensure(RevokeRole(c.token, Minter, legacy), true, MarkPending)];
  }

  lemma OptionalPlanOk(c: Upgrade, r: Rules)
    requires Sane(c) && RulesFit(c, r)
    ensures PlanOk(r, OptionalManager(c)) && PlanOk(r, OptionalDebtToken(c))
  {
    if c.debtToken.Some? {
      var first := [Ensure(AllowCollateral(c.vault, c.debtToken.value), true, Propagate)];
      PlanNothingTaken(c, r, first);
      RolesPlanOk(c, r, c.debtToken.value, []);
      PlanOkAppend(r, first, RolesPlan(c.debtToken.value, [], c.deployer, c.governance));
    }
    if c.manager.Some? {
      var manager := c.manager.value;
      var first := [Ensure(GrantRole(c.vault, CollateralWithdrawer, manager), true, Propagate),
                    Ensure(GrantRole(c.token, Minter, manager), true, Propagate)];
      var roles := RolesPlan(manager, MANAGER_OPERATIONAL, c.deployer, c.governance);
      PlanNothingTaken(c, r, first);
      RolesPlanOk(c, r, manager, MANAGER_OPERATIONAL);
      PlanOkAppend(r, first, roles);
      match Legacy(c.legacyManager, manager)
      case None => assert ManagerPlan(c, manager) == first + roles;
      case Some(legacy) =>
        var m := Member(c.vault, CollateralWithdrawer, legacy);
        MembershipFacts(c, m);
        SandwichOk(c, r, first + roles, m, MarkPending);
    }
  }

  // ---------- safety of the upgrade ----------

  /** Whatever happens between and during runs of the upgrade script, when requests
      fail only for want of authorisation: each role the deployer or governance
      holds is held by one of them at any later time, the legacy issuer and the
      legacy manager lose their role only to a successor that holds it, and
      governance never loses a role. */
  lemma UpgradeRoleCover(c: Upgrade, useSafe: bool, run: seq<System>, events: seq<Event>, i: nat, j: nat)
    requires Sane(c) && Behaviour(UpgradeRules(c, useSafe), {UpgradePlan(c)}, run, events) && i <= j < |run|
    ensures forall m | m in Migrated(c) + Moved(c) ::
              var before, after := run[i].script.chain, run[j].script.chain;
              && (m in before.members || before.Has(m.contract, m.role, HeirOf(c, m)) ==>
                    m in after.members || after.Has(m.contract, m.role, HeirOf(c, m)))
              && (before.Has(m.contract, m.role, HeirOf(c, m)) ==> after.Has(m.contract, m.role, HeirOf(c, m)))
  {
    var r := UpgradeRules(c, useSafe);
    BothRulesFit(c, useSafe);
    UpgradePlanOk(c, r);
    RoleCover(r, {UpgradePlan(c)}, run, events, i, j);
    forall m | m in Migrated(c) + Moved(c)
      ensures m in r.heirs && r.heirs[m] == HeirOf(c, m)
      ensures Covered(r, run[i].script.chain, m) ==> Covered(r, run[j].script.chain, m)
    {
    }
  }

  /** No lockout: with requests failing or getting lost in any pattern, the deployer
      stops being admin of a contract only in a state in which governance is, and
      governance never stops being admin. */
  lemma UpgradeNeverLocksOut(c: Upgrade, useSafe: bool, run: seq<System>, events: seq<Event>, i: nat, m: Membership)
    requires Sane(c) && Behaviour(AdminRules(c, useSafe), {UpgradePlan(c)}, run, events) && i + 1 < |run|
    requires m in Migrated(c) && m.role == DefaultAdmin
    ensures m in run[i].script.chain.members && m !in run[i + 1].script.chain.members ==>
              run[i + 1].script.chain.Has(m.contract, DefaultAdmin, c.governance)
    ensures run[i].script.chain.Has(m.contract, DefaultAdmin, c.governance) ==>
              run[i + 1].script.chain.Has(m.contract, DefaultAdmin, c.governance)
  {
    var r := AdminRules(c, useSafe);
    BothRulesFit(c, useSafe);
    UpgradePlanOk(c, r);
    RoleCover(r, {UpgradePlan(c)}, run, events, i, i + 1);
    if m in run[i].script.chain.members && m !in run[i + 1].script.chain.members {
      RemovalMeetsHeir(r, {UpgradePlan(c)}, run, events, i, m);
    }
  }

  // ---------- completion of the upgrade ----------

  lemma OperationsFit(c: Upgrade)
    requires Sane(c)
    ensures var ops := Operations(UpgradePlan(c));
            && (forall k | k in ops :: PlanCall(c, k))
            && Harmonious(ops) && PlanInUniverse(ops, UpgradePlan(c))
  {
    var plan := UpgradePlan(c);
    var ops := Operations(plan);
    UpgradeInstrs(c);
    forall k | k in ops ensures PlanCall(c, k) {
      var i :| i in plan && k in CallsOf(i);
      assert PlanInstr(c, i);
    }
    forall a, b | a in ops && b in ops ensures !Opposite(a, b) {
      NoOpposites(c, a, b);
    }
    forall j | 0 <= j < |plan| ensures InUniverse(ops, plan[j]) {
      assert PlanInstr(c, plan[j]);
      assert forall k | k in CallsOf(plan[j]) :: k in ops;
    }
  }

  lemma NoOpposites(c: Upgrade, a: Call, b: Call)
    requires Sane(c) && PlanCall(c, a) && PlanCall(c, b)
    ensures !Opposite(a, b)
  {
  }

  /** The state the upgrade is for, said without reference to the plan. */
  predicate Upgraded(c: Upgrade, chain: Chain) {
    && (forall m | m in Migrated(c) :: m !in chain.members && chain.Has(m.contract, m.role, c.governance))
    && (forall m | m in Moved(c) :: m !in chain.members && chain.Has(m.contract, m.role, HeirOf(c, m)))
    && chain.Has(c.token, Minter, c.issuer)
    && (c.manager.Some? ==>
          && chain.Has(c.vault, CollateralWithdrawer, c.manager.value)
          && chain.Has(c.token, Minter, c.manager.value))
    && (c.debtToken.Some? ==> (c.vault, c.debtToken.value) in chain.collateral)
    && (Legacy(c.legacyIssuer, c.issuer).Some? ==>
          forall asset | asset in c.collaterals ::
            chain.IsPaused(c.legacyIssuer.value, asset) ==> chain.IsPaused(c.issuer, asset))
  }

  lemma RolesMet(chain: Chain, contract: Address, operational: seq<Role>, deployer: Address, governance: Address,
                 m: Membership)
    requires AllMet(chain, RolesPlan(contract, operational, deployer, governance))
    requires m in Held(contract, operational, deployer)
    ensures m !in chain.members && chain.Has(contract, m.role, governance)
  {
    var plan := RolesPlan(contract, operational, deployer, governance);
    var roles := [DefaultAdmin] + operational;
    var i :| 0 <= i < |roles| && roles[i] == m.role;
    assert plan[i] == Ensure(GrantRole(contract, m.role, governance), true, Propagate);
    assert plan[i] in plan && Met(chain, plan[i]);
    if i == 0 {
      var last := plan[|plan| - 1];
      assert last == ConfirmAdmin(Handover(contract, governance, deployer)) && last in plan && Met(chain, last);
    } else {
      assert plan[|operational| + i] == Ensure(RevokeRole(contract, m.role, deployer), true, Propagate);
      assert plan[|operational| + i] in plan && Met(chain, plan[|operational| + i]);
    }
  }

  /** The requirements of the plan amount to the upgraded state. */
  lemma MetIsUpgraded(c: Upgrade, chain: Chain)
    requires AllMet(chain, UpgradePlan(c))
    ensures Upgraded(c, chain)
  {
    var plan := UpgradePlan(c);
    forall m | m in Migrated(c) ensures m !in chain.members && chain.Has(m.contract, m.role, c.governance) {
      if m in Held(c.issuer, ISSUER_OPERATIONAL, c.deployer) {
        RolesMet(chain, c.issuer, ISSUER_OPERATIONAL, c.deployer, c.governance, m);
      } else if c.manager.Some? && m in Held(c.manager.value, MANAGER_OPERATIONAL, c.deployer) {
        RolesMet(chain, c.manager.value, MANAGER_OPERATIONAL, c.deployer, c.governance, m);
      } else {
        RolesMet(chain, c.debtToken.value, [], c.deployer, c.governance, m);
      }
    }
    MinterMet(c, chain);
    WiringMet(c, chain);
  }

  lemma MinterMet(c: Upgrade, chain: Chain)
    requires AllMet(chain, MinterPlan(c))
    ensures chain.Has(c.token, Minter, c.issuer)
    ensures Legacy(c.legacyIssuer, c.issuer).Some? ==>
              && !chain.Has(c.token, Minter, c.legacyIssuer.value)
              && forall asset | asset in c.collaterals ::
                   chain.IsPaused(c.legacyIssuer.value, asset) ==> chain.IsPaused(c.issuer, asset)
  {
    var plan := MinterPlan(c);
    assert Met(chain, plan[0]);
    if Legacy(c.legacyIssuer, c.issuer).Some? {
      assert Met(chain, plan[|plan| - 1]);
      forall asset | asset in c.collaterals
        ensures chain.IsPaused(c.legacyIssuer.value, asset) ==> chain.IsPaused(c.issuer, asset)
      {
        var i :| 0 <= i < |c.collaterals| && c.collaterals[i] == asset;
        assert plan[i + 1] == MirrorPause(c.legacyIssuer.value, c.issuer, asset) && Met(chain, plan[i + 1]);
      }
    }
  }

  lemma WiringMet(c: Upgrade, chain: Chain)
    requires AllMet(chain, OptionalManager(c)) && AllMet(chain, OptionalDebtToken(c))
    ensures c.manager.Some? ==>
              && chain.Has(c.vault, CollateralWithdrawer, c.manager.value)
              && chain.Has(c.token, Minter, c.manager.value)
              && (Legacy(c.legacyManager, c.manager.value).Some? ==>
                    !chain.Has(c.vault, CollateralWithdrawer, c.legacyManager.value))
    ensures c.debtToken.Some? ==> (c.vault, c.debtToken.value) in chain.collateral
  {
    if c.debtToken.Some? {
      assert Met(chain, OptionalDebtToken(c)[0]);
    }
    if c.manager.Some? {
      var plan := OptionalManager(c);
      assert Met(chain, plan[0]) && Met(chain, plan[1]);
      if Legacy(c.legacyManager, c.manager.value).Some? {
        assert Met(chain, plan[|plan| - 1]);
      }
    }
  }
}
