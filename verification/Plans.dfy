/** The three upgrade scripts as plans, in the order in which they make their requests. */
module Plans {
  import opened Wrappers
  import opened AccessControl
  import opened Script

  function EnsureAll(calls: seq<Call>): (plan: seq<Instr>)
    ensures |plan| == |calls|
  {
    seq(|calls|, i requires 0 <= i < |calls| => Ensure(calls[i], true, Propagate))
  }

  function GrantCalls(contract: Address, roles: seq<Role>, account: Address): (calls: seq<Call>)
    ensures |calls| == |roles|
  {
    seq(|roles|, i requires 0 <= i < |roles| => GrantRole(contract, roles[i], account))
  }

  function RevokeCalls(contract: Address, roles: seq<Role>, account: Address): (calls: seq<Call>)
    ensures |calls| == |roles|
  {
    seq(|roles|, i requires 0 <= i < |roles| => RevokeRole(contract, roles[i], account))
  }

  /** Grant DefaultAdmin and every operational role to governance, revoke the
      operational ones from the deployer, then hand DefaultAdmin over. */
  function RolesPlan(contract: Address, operational: seq<Role>, deployer: Address, governance: Address): seq<Instr> {
    EnsureAll(GrantCalls(contract, [DefaultAdmin] + operational, governance))
    + EnsureAll(RevokeCalls(contract, operational, deployer))
    + HandoverPlan(Handover(contract, governance, deployer))
  }

  function Mirrors(legacy: Address, issuer: Address, assets: seq<Address>): (plan: seq<Instr>)
    ensures |plan| == |assets|
  {
    seq(|assets|, i requires 0 <= i < |assets| => MirrorPause(legacy, issuer, assets[i]))
  }

  /** The legacy contract, unless it is absent or the new contract itself. */
  function Legacy(legacy: Option<Address>, current: Address): Option<Address> {
    if legacy.Some? && legacy.value != current then legacy else None
  }

  // ---------- 23_02: IssuerV2_2 and AmoManagerV2 ----------

  const ISSUER_OPERATIONAL: seq<Role> := [IncentivesManager, Pauser]
  const MANAGER_OPERATIONAL: seq<Role> := [AmoIncrease, AmoDecrease]

  datatype Upgrade = Upgrade(
    deployer: Address,
    governance: Address,
    token: Address,
    vault: Address,
    issuer: Address,
    legacyIssuer: Option<Address>,
    manager: Option<Address>,
    legacyManager: Option<Address>,
    debtToken: Option<Address>,
    collaterals: seq<Address>) // what the vault enumerates, else what the configuration lists, else nothing

  function MinterPlan(c: Upgrade): seq<Instr> {
    [Ensure(GrantRole(c.token, Minter, c.issuer), true, Propagate)]
    + (match Legacy(c.legacyIssuer, c.issuer)
       case None => []
       case Some(legacy) =>
         Mirrors(legacy, c.issuer, c.collaterals) + [Ensure(RevokeRole(c.token, Minter, legacy), true, MarkPending)])
  }

  function ManagerPlan(c: Upgrade, manager: Address): seq<Instr> {
    [Ensure(GrantRole(c.vault, CollateralWithdrawer, manager), true, Propagate),
     Ensure(GrantRole(c.token, Minter, manager), true, Propagate)]
    + RolesPlan(manager, MANAGER_OPERATIONAL, c.deployer, c.governance)
    + (match Legacy(c.legacyManager, manager)
       case None => []
       case Some(legacy) => [Ensure(RevokeRole(c.vault, CollateralWithdrawer, legacy), true, MarkPending)])
  }

  function DebtTokenPlan(c: Upgrade, debtToken: Address): seq<Instr> {
    [Ensure(AllowCollateral(c.vault, debtToken), true, Propagate)]
    + RolesPlan(debtToken, [], c.deployer, c.governance)
  }

  function OptionalManager(c: Upgrade): seq<Instr> {
    if c.manager.Some? then ManagerPlan(c, c.manager.value) else []
  }

  function OptionalDebtToken(c: Upgrade): seq<Instr> {
    if c.debtToken.Some? then DebtTokenPlan(c, c.debtToken.value) else []
  }

  function UpgradePlan(c: Upgrade): seq<Instr> {
    MinterPlan(c)
    + RolesPlan(c.issuer, ISSUER_OPERATIONAL, c.deployer, c.governance)
    + OptionalManager(c)
    + OptionalDebtToken(c)
  }

  // ---------- 22_2: RedeemerV2 ----------

  const REDEEMER_OPERATIONAL: seq<Role> := [RedemptionManager, Pauser]

  datatype Redemption = Redemption(
    deployer: Address,
    governance: Address,
    vault: Address,
    redeemer: Address,
    legacies: seq<Option<Address>>)

  function LegacyRevokes(vault: Address, redeemer: Address, legacies: seq<Option<Address>>): seq<Instr> {
    if legacies == [] then []
    else
      (match Legacy(legacies[0], redeemer)
       case None => []
       case Some(legacy) => [Ensure(RevokeRole(vault, CollateralWithdrawer, legacy), true, Abandon)])
      + LegacyRevokes(vault, redeemer, legacies[1..])
  }

  /** An error in the section abandons all that is left of it. */
  lemma {:induction false} LegacySectionEnds(vault: Address, redeemer: Address, legacies: seq<Option<Address>>)
    ensures LeaveSection(LegacyRevokes(vault, redeemer, legacies)) == []
  {
    if legacies != [] {
      LegacySectionEnds(vault, redeemer, legacies[1..]);
      var rest := LegacyRevokes(vault, redeemer, legacies[1..]);
      if Legacy(legacies[0], redeemer).Some? {
        var first := Ensure(RevokeRole(vault, CollateralWithdrawer, legacies[0].value), true, Abandon);
        assert LegacyRevokes(vault, redeemer, legacies) == [first] + rest && ([first] + rest)[1..] == rest;
      } else {
        assert LegacyRevokes(vault, redeemer, legacies) == [] + rest == rest;
      }
    }
  }

  function WithdrawerPlan(c: Redemption): seq<Instr> {
    [Ensure(GrantRole(c.vault, CollateralWithdrawer, c.redeemer), true, Abandon)]
    + LegacyRevokes(c.vault, c.redeemer, c.legacies)
  }

  function RedeemerPlan(c: Redemption): seq<Instr> {
    WithdrawerPlan(c) + RolesPlan(c.redeemer, REDEEMER_OPERATIONAL, c.deployer, c.governance)
  }

  // ---------- 22_1: IssuerV2 ----------

  const ISSUER_V2_OPERATIONAL: seq<Role> := [AmoManager, IncentivesManager, Pauser]

  datatype Issuance = Issuance(
    deployer: Address,
    governance: Address,
    token: Address,
    issuer: Address,
    oldIssuer: Address)

  /** The revocation from the old issuer ignores its result and swallows errors. */
  function OldMinterPlan(c: Issuance): seq<Instr> {
    if c.oldIssuer == c.issuer then []
    else [Ensure(RevokeRole(c.token, Minter, c.oldIssuer), false, Abandon)]
  }

  function IssuancePlan(c: Issuance): seq<Instr> {
    [Ensure(GrantRole(c.token, Minter, c.issuer), true, Propagate)]
    + OldMinterPlan(c)
    + RolesPlan(c.issuer, ISSUER_V2_OPERATIONAL, c.deployer, c.governance)
  }
}
