/** The IssuerV2 script: minting moves from the old issuer to the new one, and the new
    issuer's four roles from the deployer to governance. */
module IssuanceProofs {
  import opened AccessControl
  import opened Script
  import opened RoleSafety
  import opened Plans
  import opened PlanOrder

  predicate Sane(c: Issuance) {
    && c.deployer != c.governance
    && c.issuer != c.deployer
  }

  function OldMinter(c: Issuance): set<Membership> {
    if c.oldIssuer == c.issuer then {} else {Member(c.token, Minter, c.oldIssuer)}
  }

  function DeployerRoles(c: Issuance): set<Membership> {
    set role | role in [DefaultAdmin] + ISSUER_V2_OPERATIONAL :: Member(c.issuer, role, c.deployer)
  }

  function IssuanceRules(c: Issuance, useSafe: bool): Rules {
    Rules(Parties(c.deployer, useSafe), c.governance,
          map m | m in OldMinter(c) + DeployerRoles(c) :: if m.role == Minter then c.issuer else c.governance,
          false)
  }

  lemma IssuancePlanOk(c: Issuance, useSafe: bool)
    requires Sane(c)
    ensures PlanOk(IssuanceRules(c, useSafe), IssuancePlan(c))
  {
    var r := IssuanceRules(c, useSafe);
    var minters := [Ensure(GrantRole(c.token, Minter, c.issuer), true, Propagate)] + OldMinterPlan(c);
    forall j | 0 <= j < |minters| ensures PlanInstrOk(r, minters, j) {
      assert Sends(minters[0], GrantRole(c.token, Minter, c.issuer));
    }
    forall role | role in [DefaultAdmin] + ISSUER_V2_OPERATIONAL ensures MoveOk(r, c.issuer, role, c.governance) {
      assert Member(c.issuer, role, c.deployer) in DeployerRoles(c);
    }
    RolesOrdered(r, c.issuer, ISSUER_V2_OPERATIONAL, c.governance);
    PlanOkAppend(r, minters, RolesPlan(c.issuer, ISSUER_V2_OPERATIONAL, c.deployer, c.governance));
  }

  /** With failures for want of authorisation only, whatever is interleaved: the old
      issuer stops being a minter only in a state in which the new one is. */
  lemma MinterHandover(c: Issuance, useSafe: bool, run: seq<System>, events: seq<Event>, i: nat)
    requires Sane(c) && Behaviour(IssuanceRules(c, useSafe), {IssuancePlan(c)}, run, events) && i + 1 < |run|
    requires c.oldIssuer != c.issuer && run[i].script.chain.Has(c.token, Minter, c.oldIssuer)
    requires !run[i + 1].script.chain.Has(c.token, Minter, c.oldIssuer)
    ensures run[i + 1].script.chain.Has(c.token, Minter, c.issuer)
    ensures !events[i].SafeExecutes? ==> run[i].script.chain.Has(c.token, Minter, c.issuer)
  {
    var m := Member(c.token, Minter, c.oldIssuer);
    IssuancePlanOk(c, useSafe);
    assert m in OldMinter(c);
    RemovalMeetsHeir(IssuanceRules(c, useSafe), {IssuancePlan(c)}, run, events, i, m);
  }

  /** The new issuer's own roles are never lost to both: what the deployer or governance
      holds in some state, one of them holds in every later state. */
  lemma IssuanceRoleCover(c: Issuance, useSafe: bool, run: seq<System>, events: seq<Event>, i: nat, j: nat, role: Role)
    requires Sane(c) && Behaviour(IssuanceRules(c, useSafe), {IssuancePlan(c)}, run, events) && i <= j < |run|
    requires role in [DefaultAdmin] + ISSUER_V2_OPERATIONAL
    ensures var (before, after) := (run[i].script.chain, run[j].script.chain);
            && (before.Has(c.issuer, role, c.deployer) || before.Has(c.issuer, role, c.governance) ==>
                  after.Has(c.issuer, role, c.deployer) || after.Has(c.issuer, role, c.governance))
            && (before.Has(c.issuer, role, c.governance) ==> after.Has(c.issuer, role, c.governance))
  {
    var r := IssuanceRules(c, useSafe);
    var m := Member(c.issuer, role, c.deployer);
    IssuancePlanOk(c, useSafe);
    assert m in DeployerRoles(c) && m in r.heirs && r.heirs[m] == c.governance;
    RoleCover(r, {IssuancePlan(c)}, run, events, i, j);
    assert Covered(r, run[i].script.chain, m) ==> Covered(r, run[j].script.chain, m);
    assert HeirHolds(r, run[i].script.chain, m) ==> HeirHolds(r, run[j].script.chain, m);
  }
}
