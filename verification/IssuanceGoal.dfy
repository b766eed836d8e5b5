/** What it means when the IssuerV2 script (22_1), which drops the result of the old
    issuer's revocation, reports completion. */
module IssuanceGoal {
  import opened AccessControl
  import opened Script
  import opened RoleSafety
  import opened Completion
  import opened Convergence
  import opened Runs
  import opened Plans
  import opened PlanOrder
  import opened RoleLoss
  import opened IssuanceProofs

  /** The old issuer is a minter, and the deployer may not change that. */
  predicate OldMinterOutOfReach(c: Issuance, chain: Chain) {
    && c.oldIssuer != c.issuer
    && chain.Has(c.token, Minter, c.oldIssuer)
    && !chain.Has(c.token, chain.RoleAdmin(c.token, Minter), c.deployer)
  }

  function RolesOf(c: Issuance): seq<Instr> {
    RolesPlan(c.issuer, ISSUER_V2_OPERATIONAL, c.deployer, c.governance)
  }

  lemma RolesSpareMinters(c: Issuance, m: Membership)
    requires m.role == Minter
    ensures AllSpare(RolesOf(c), m)
  {
    var plan := RolesOf(c);
    RolesOperations(c.issuer, ISSUER_V2_OPERATIONAL, c.deployer, c.governance);
    forall i | i in plan ensures Spares(i, m) {
      assert forall k | k in CallsOf(i) :: k in Operations(plan);
    }
  }

  lemma RolesHarmonious(c: Issuance)
    requires Sane(c)
    ensures Harmonious(Operations(RolesOf(c))) && PlanInUniverse(Operations(RolesOf(c)), RolesOf(c))
  {
    RolesOperations(c.issuer, ISSUER_V2_OPERATIONAL, c.deployer, c.governance);
  }

  /** Running the role migration with calls already queued and a flag already set or cleared. */
  lemma RolesReport(c: Issuance, useSafe: bool, s: State, m: Membership)
    requires Sane(c) && s.todo == RolesOf(c) && s.faults == [] && !s.threw && m.role == Minter
    ensures var t := Run(Parties(c.deployer, useSafe), s);
            && !t.threw
            && (t.complete ==> s.complete && t.queue == s.queue && AllMet(t.chain, RolesOf(c)))
            && (m in t.chain.members <==> m in s.chain.members)
  {
    var p := Parties(c.deployer, useSafe);
    RolesHarmonious(c);
    RolesAccountable(p, c.issuer, ISSUER_V2_OPERATIONAL, c.governance);
    RunReports(Operations(RolesOf(c)), p, RolesOf(c), s.chain);
    RunBeside(p, s);
    RolesSpareMinters(c, m);
    RunSpares(p, s, m);
  }

  /** The state in which the two minter requirements leave the script. */
  function MintersMoved(c: Issuance, useSafe: bool, chain: Chain): State {
    var p := Parties(c.deployer, useSafe);
    var granted := Ensured(p, Fresh(chain, [], []), GrantRole(c.token, Minter, c.issuer), true);
    if c.oldIssuer == c.issuer then granted
    else Ensured(p, granted, RevokeRole(c.token, Minter, c.oldIssuer), false)
  }

  lemma MintersRun(c: Issuance, useSafe: bool, chain: Chain)
    ensures var p := Parties(c.deployer, useSafe);
            Run(p, Fresh(chain, IssuancePlan(c), [])) == Run(p, MintersMoved(c, useSafe, chain).(todo := RolesOf(c)))
  {
    var p := Parties(c.deployer, useSafe);
    var grant := GrantRole(c.token, Minter, c.issuer);
    var rest := OldMinterPlan(c) + RolesOf(c);
    var s := Fresh(chain, IssuancePlan(c), []);
    assert s.todo == [Ensure(grant, true, Propagate)] + rest;
    RunRequirement(p, s, grant, true, Propagate, rest);
    var granted := Ensured(p, Fresh(chain, [], []), grant, true);
    assert Ensured(p, s, grant, true).(todo := rest) == granted.(todo := rest);
    OldMinterRun(c, p, granted);
  }

  lemma OldMinterRun(c: Issuance, p: Parties, s: State)
    requires s.faults == []
    ensures var revoked := Ensured(p, s, RevokeRole(c.token, Minter, c.oldIssuer), false);
            var t := if c.oldIssuer == c.issuer then s else revoked;
            Run(p, s.(todo := OldMinterPlan(c) + RolesOf(c))) == Run(p, t.(todo := RolesOf(c)))
  {
    var revoke := RevokeRole(c.token, Minter, c.oldIssuer);
    if c.oldIssuer == c.issuer {
      assert OldMinterPlan(c) + RolesOf(c) == RolesOf(c);
    } else {
      var at := s.(todo := OldMinterPlan(c) + RolesOf(c));
      RunRequirement(p, at, revoke, false, Abandon, RolesOf(c));
      assert Ensured(p, at, revoke, false).(todo := RolesOf(c)) == Ensured(p, s, revoke, false).(todo := RolesOf(c));
    }
  }

  lemma MintersOutcome(c: Issuance, useSafe: bool, chain: Chain)
    requires Sane(c)
    ensures var s := MintersMoved(c, useSafe, chain);
            && s.faults == [] && !s.threw
            && (s.complete ==>
                  && s.chain.Has(c.token, Minter, c.issuer)
                  && (s.queue != [] <==> useSafe && OldMinterOutOfReach(c, chain))
                  && (c.oldIssuer != c.issuer ==>
                        (s.chain.Has(c.token, Minter, c.oldIssuer) <==> OldMinterOutOfReach(c, chain))))
  {
  }

  /** From every chain, with calls failing only for want of authorisation: when 22_1 reports
      completion, the new issuer mints and the roles are migrated; but the old issuer still
      mints if and only if its revocation was out of the deployer's reach, and in Safe mode
      exactly then an operation is queued, which nothing flushes. */
  lemma IssuanceHidesPendingExactly(c: Issuance, useSafe: bool, chain: Chain)
    requires Sane(c)
    ensures var t := Run(Parties(c.deployer, useSafe), Fresh(chain, IssuancePlan(c), []));
            && !t.threw
            && (t.complete ==>
                  && t.chain.Has(c.token, Minter, c.issuer) && AllMet(t.chain, RolesOf(c))
                  && (t.queue != [] <==> useSafe && OldMinterOutOfReach(c, chain))
                  && (c.oldIssuer != c.issuer ==>
                        (t.chain.Has(c.token, Minter, c.oldIssuer) <==> OldMinterOutOfReach(c, chain))))
  {
    var s := MintersMoved(c, useSafe, chain).(todo := RolesOf(c));
    MintersRun(c, useSafe, chain);
    MintersOutcome(c, useSafe, chain);
    RolesReport(c, useSafe, s, Member(c.token, Minter, c.issuer));
    RolesReport(c, useSafe, s, Member(c.token, Minter, c.oldIssuer));
  }

  lemma NewMinterMoved(c: Issuance, useSafe: bool, chain: Chain)
    requires Sane(c)
    ensures var s := MintersMoved(c, useSafe, chain);
            && s.faults == [] && !s.threw
            && (s.chain.Has(c.token, Minter, c.issuer) <==>
                  || chain.Has(c.token, Minter, c.issuer)
                  || chain.Has(c.token, chain.RoleAdmin(c.token, Minter), c.deployer))
  {
  }

  /** One run makes the issuer a minter exactly when it was one or the deployer may grant it. */
  lemma IssuanceMintsExactly(c: Issuance, useSafe: bool, chain: Chain)
    requires Sane(c)
    ensures var after := Run(Parties(c.deployer, useSafe), Fresh(chain, IssuancePlan(c), [])).chain;
            after.Has(c.token, Minter, c.issuer) <==>
            chain.Has(c.token, Minter, c.issuer) || chain.Has(c.token, chain.RoleAdmin(c.token, Minter), c.deployer)
  {
    MintersRun(c, useSafe, chain);
    NewMinterMoved(c, useSafe, chain);
    RolesReport(c, useSafe, MintersMoved(c, useSafe, chain).(todo := RolesOf(c)), Member(c.token, Minter, c.issuer));
  }

  // ---------- whole behaviours ----------

  predicate IssuanceCall(c: Issuance, k: Call) {
    match k
    case GrantRole(to, role, account) =>
      || (to == c.token && role == Minter && account == c.issuer)
      || (Member(to, role, c.deployer) in DeployerRoles(c) && account == c.governance)
    case RevokeRole(to, role, account) => Member(to, role, account) in OldMinter(c) + DeployerRoles(c)
    case _ => false
  }

  lemma NoOpposites(c: Issuance, a: Call, b: Call)
    requires Sane(c) && IssuanceCall(c, a) && IssuanceCall(c, b)
    ensures !Opposite(a, b)
  {
  }

  lemma OperationsFit(c: Issuance, plan: seq<Instr>)
    requires Sane(c) && (plan == IssuancePlan(c) || plan == ReportingPlan(c))
    ensures var ops := Operations(plan);
            (forall k | k in ops :: IssuanceCall(c, k)) && Harmonious(ops) && PlanInUniverse(ops, plan)
  {
    var roles := RolesOf(c);
    RolesOperations(c.issuer, ISSUER_V2_OPERATIONAL, c.deployer, c.governance);
    forall i, k | i in plan && k in CallsOf(i) ensures IssuanceCall(c, k) {
      if i in roles {
        assert k in Operations(roles);
      }
    }
    forall a, b | a in Operations(plan) && b in Operations(plan) ensures !Opposite(a, b) {
      NoOpposites(c, a, b);
    }
    forall j | 0 <= j < |plan| ensures InUniverse(Operations(plan), plan[j]) {
      assert forall k | k in CallsOf(plan[j]) :: k in Operations(plan);
    }
  }

  function Unreported(c: Issuance): set<Call> {
    if c.oldIssuer == c.issuer then {} else {RevokeRole(c.token, Minter, c.oldIssuer)}
  }

  lemma IssuanceAccountable(c: Issuance, p: Parties)
    requires p.signer == c.deployer
    ensures AccountableBut(p, Unreported(c), IssuancePlan(c))
  {
    var minters := [Ensure(GrantRole(c.token, Minter, c.issuer), true, Propagate)] + OldMinterPlan(c);
    RolesAccountable(p, c.issuer, ISSUER_V2_OPERATIONAL, c.governance);
    forall j | 0 <= j < |minters| ensures AccountableAt(p, Unreported(c), minters, j) {
    }
    MoreSilent(p, Unreported(c), RolesOf(c));
    AccountableAppend(p, Unreported(c), minters, RolesOf(c));
  }

  lemma MoreSilent(p: Parties, silent: set<Call>, plan: seq<Instr>)
    requires Accountable(p, plan) && forall k | k in silent :: !k.GrantRole?
    ensures AccountableBut(p, silent, plan)
  {
    forall j | 0 <= j < |plan| ensures AccountableAt(p, silent, plan, j) {
      assert AccountableAt(p, {}, plan, j);
    }
  }

  lemma RolesHanded(c: Issuance, chain: Chain)
    requires AllMet(chain, RolesOf(c))
    ensures forall role | role in {DefaultAdmin, AmoManager, IncentivesManager, Pauser} ::
              chain.Has(c.issuer, role, c.governance) && !chain.Has(c.issuer, role, c.deployer)
  {
    var plan := RolesOf(c);
    assert Met(chain, plan[0]) && Met(chain, plan[1]) && Met(chain, plan[2]) && Met(chain, plan[3]);
    assert Met(chain, plan[4]) && Met(chain, plan[5]) && Met(chain, plan[6]) && Met(chain, plan[8]);
  }

  /** What the completion flag does account for. */
  function Reported(c: Issuance): seq<Instr> {
    [Ensure(GrantRole(c.token, Minter, c.issuer), true, Propagate)] + RolesOf(c)
  }

  lemma ReportedFits(c: Issuance)
    requires Sane(c)
    ensures forall t | t in Reported(c) :: t in IssuancePlan(c) && !Silent(Unreported(c), t)
    ensures PlanInUniverse(Operations(IssuancePlan(c)), Reported(c))
  {
    var ops := Operations(IssuancePlan(c));
    OperationsFit(c, IssuancePlan(c));
    forall t | t in Reported(c) ensures t in IssuancePlan(c) && !Silent(Unreported(c), t) {
      if t in RolesOf(c) {
        RolesOperations(c.issuer, ISSUER_V2_OPERATIONAL, c.deployer, c.governance);
        assert forall k | k in CallsOf(t) :: k in Operations(RolesOf(c));
        assert Minter !in [DefaultAdmin] + ISSUER_V2_OPERATIONAL;
      }
    }
    forall n | 0 <= n < |Reported(c)| ensures InUniverse(ops, Reported(c)[n]) {
      assert Reported(c)[n] in IssuancePlan(c);
    }
  }

  lemma ReportedMet(c: Issuance, chain: Chain)
    requires AllMet(chain, Reported(c))
    ensures chain.Has(c.token, Minter, c.issuer)
    ensures forall role | role in {DefaultAdmin, AmoManager, IncentivesManager, Pauser} ::
              chain.Has(c.issuer, role, c.governance) && !chain.Has(c.issuer, role, c.deployer)
  {
    assert Met(chain, Reported(c)[0]);
    RolesHanded(c, chain);
  }

  /** Whatever batches the Safe executes, calls failing only for want of authorisation: when 22_1
      reports completion, nothing is queued but, at most, the old issuer's revocation; and then
      and at any later time the new issuer mints, and governance and no longer the deployer holds
      DefaultAdmin, AmoManager, IncentivesManager and Pauser on it. */
  lemma IssuanceCompletion(c: Issuance, useSafe: bool, run: seq<System>, events: seq<Event>, i: nat, j: nat, k: nat)
    requires Sane(c) && Behaviour(IssuanceRules(c, useSafe), {IssuancePlan(c)}, run, events)
    requires i < j <= k < |run| && events[i] == Restart(IssuancePlan(c), []) && Uninterrupted(events, i + 1, j)
    requires run[j].script.todo == [] && run[j].script.complete
    ensures forall call | call in run[j].script.queue ::
              c.oldIssuer != c.issuer && call == RevokeRole(c.token, Minter, c.oldIssuer)
    ensures var chain := run[k].script.chain;
            && chain.Has(c.token, Minter, c.issuer)
            && (forall role | role in {DefaultAdmin, AmoManager, IncentivesManager, Pauser} ::
                  chain.Has(c.issuer, role, c.governance) && !chain.Has(c.issuer, role, c.deployer))
  {
    var r, plan, required := IssuanceRules(c, useSafe), IssuancePlan(c), Reported(c);
    OperationsFit(c, plan);
    IssuanceAccountable(c, r.p);
    ReportedFits(c);
    CompletionBut(r, Operations(plan), Unreported(c), {plan}, plan, run, events, i, j);
    forall t | t in required ensures Met(run[j].script.chain, t) {
      assert t in plan && !Silent(Unreported(c), t);
    }
    MetForever(r, Operations(plan), {plan}, run, events, j, k, required);
    ReportedMet(c, run[k].script.chain);
  }

  // ---------- such a chain ----------

  /** Governance alone administers the token and the migrated issuer; both issuers mint. */
  function HidingChain(c: Issuance): Chain {
    var roles := set role | role in [DefaultAdmin] + ISSUER_V2_OPERATIONAL :: Member(c.issuer, role, c.governance);
    Chain(roles + {Member(c.token, DefaultAdmin, c.governance), Member(c.token, Minter, c.issuer),
        Member(c.token, Minter, c.oldIssuer)},
          map[], {}, {}, {}, map[])
  }

  /** On it 22_1 reports completion at once, with the revocation in its queue. */
  lemma HiddenPendingWitness(c: Issuance)
    requires Sane(c) && c.oldIssuer != c.issuer
    ensures var t := Run(Parties(c.deployer, true), Fresh(HidingChain(c), IssuancePlan(c), []));
            t.complete && !t.threw && t.queue == [RevokeRole(c.token, Minter, c.oldIssuer)] && t.chain == HidingChain(c)
  {
    MintersRun(c, true, HidingChain(c));
    HidingRevoke(c);
    HidingRoles(c);
    MetRunIsQuiet(Parties(c.deployer, true), MintersMoved(c, true, HidingChain(c)).(todo := RolesOf(c)));
  }

  lemma HidingRevoke(c: Issuance)
    requires Sane(c) && c.oldIssuer != c.issuer
    ensures MintersMoved(c, true, HidingChain(c))
         == State(HidingChain(c), [RevokeRole(c.token, Minter, c.oldIssuer)], true, false, [], [])
  {
  }

  lemma HidingRoles(c: Issuance)
    requires Sane(c)
    ensures forall i | i in RolesOf(c) :: Met(HidingChain(c), i) && PlanForm(i)
  {
    var plan := RolesOf(c);
    RolesOperations(c.issuer, ISSUER_V2_OPERATIONAL, c.deployer, c.governance);
    forall i | i in plan ensures Met(HidingChain(c), i) && PlanForm(i) {
      forall k | k in CallsOf(i) ensures Done(HidingChain(c), k) {
        assert k in Operations(plan);
        HidingRole(c, k);
      }
      RolesForm(c, i);
    }
  }

  lemma HidingRole(c: Issuance, k: Call)
    requires Sane(c) && k.to == c.issuer
    requires (k.GrantRole? && k.account == c.governance) || (k.RevokeRole? && k.account == c.deployer)
    requires k.role in [DefaultAdmin] + ISSUER_V2_OPERATIONAL
    ensures Done(HidingChain(c), k)
  {
  }

  lemma RolesForm(c: Issuance, i: Instr)
    requires i in RolesOf(c)
    ensures PlanForm(i)
  {
  }

  // ---------- convergence ----------

  /** The script with the old issuer's revocation reported like any other requirement. */
  function ReportingPlan(c: Issuance): seq<Instr> {
    [Ensure(GrantRole(c.token, Minter, c.issuer), true, Propagate)]
    + (if c.oldIssuer == c.issuer then [] else [Ensure(RevokeRole(c.token, Minter, c.oldIssuer), true, Abandon)])
    + RolesOf(c)
  }

  /** Without failures it differs in the completion flag alone. */
  lemma ReportingRun(c: Issuance, useSafe: bool, chain: Chain)
    ensures var p := Parties(c.deployer, useSafe);
            var t, u := Run(p, Fresh(chain, IssuancePlan(c), [])), Run(p, Fresh(chain, ReportingPlan(c), []));
            t.(complete := true) == u.(complete := true)
  {
    var p := Parties(c.deployer, useSafe);
    var grant, revoke := GrantRole(c.token, Minter, c.issuer), RevokeRole(c.token, Minter, c.oldIssuer);
    if c.oldIssuer == c.issuer {
      assert IssuancePlan(c) == ReportingPlan(c);
    } else {
      var silent, loud := [Ensure(revoke, false, Abandon)] + RolesOf(c), [Ensure(revoke, true, Abandon)] + RolesOf(c);
      assert IssuancePlan(c) == [Ensure(grant, true, Propagate)] + silent;
      assert ReportingPlan(c) == [Ensure(grant, true, Propagate)] + loud;
      RunRequirement(p, Fresh(chain, IssuancePlan(c), []), grant, true, Propagate, silent);
      RunRequirement(p, Fresh(chain, ReportingPlan(c), []), grant, true, Propagate, loud);
      var s := Ensured(p, Fresh(chain, [], []), grant, true);
      SilentOrLoud(p, s, revoke, RolesOf(c));
      assert Ensured(p, Fresh(chain, IssuancePlan(c), []), grant, true).(todo := silent) == s.(todo := silent);
      assert Ensured(p, Fresh(chain, ReportingPlan(c), []), grant, true).(todo := loud) == s.(todo := loud);
    }
  }

  lemma SilentOrLoud(p: Parties, s: State, call: Call, rest: seq<Instr>)
    requires s.faults == []
    ensures Run(p, s.(todo := [Ensure(call, false, Abandon)] + rest)).(complete := true)
         == Run(p, s.(todo := [Ensure(call, true, Abandon)] + rest)).(complete := true)
  {
    RequirementAlone(p, s, call, false, rest);
    RequirementAlone(p, s, call, true, rest);
    RunAnd(p, Ensured(p, s, call, false).(todo := rest));
    RunAnd(p, Ensured(p, s, call, true).(todo := rest));
    FlagAlone(p, s, call, rest);
  }

  lemma FlagAlone(p: Parties, s: State, call: Call, rest: seq<Instr>)
    ensures Ensured(p, s, call, false).(todo := rest, complete := true) ==
            Ensured(p, s, call, true).(todo := rest, complete := true)
    ensures Ensured(p, s, call, false).(todo := rest).(complete := true) ==
            Ensured(p, s, call, true).(todo := rest).(complete := true)
  {
  }

  lemma RequirementAlone(p: Parties, s: State, call: Call, flagged: bool, rest: seq<Instr>)
    requires s.faults == []
    ensures Run(p, s.(todo := [Ensure(call, flagged, Abandon)] + rest)) ==
            Run(p, Ensured(p, s, call, flagged).(todo := rest))
  {
    var at := s.(todo := [Ensure(call, flagged, Abandon)] + rest);
    RunRequirement(p, at, call, flagged, Abandon, rest);
    assert Ensured(p, at, call, flagged).(todo := rest) == Ensured(p, s, call, flagged).(todo := rest);
  }

  /** For each role the script needs, the deployer or governance holds it; the old issuer is neither. */
  predicate Ready(c: Issuance, chain: Chain) {
    && OneHolds(c, chain, c.token, chain.RoleAdmin(c.token, Minter))
    && OneHolds(c, chain, c.issuer, DefaultAdmin)
    && (forall role | role in [DefaultAdmin] + ISSUER_V2_OPERATIONAL :: chain.RoleAdmin(c.issuer, role) == DefaultAdmin)
    && c.oldIssuer != c.governance && c.oldIssuer != c.deployer
  }

  predicate OneHolds(c: Issuance, chain: Chain, contract: Address, role: Role) {
    chain.Has(contract, role, c.deployer) || chain.Has(contract, role, c.governance)
  }

  lemma ReportingAccountable(c: Issuance, p: Parties)
    requires p.signer == c.deployer
    ensures Accountable(p, ReportingPlan(c))
  {
    var minters := ReportingPlan(c)[..|ReportingPlan(c)| - |RolesOf(c)|];
    RolesAccountable(p, c.issuer, ISSUER_V2_OPERATIONAL, c.governance);
    forall j | 0 <= j < |minters| ensures AccountableAt(p, {}, minters, j) {
    }
    AccountableAppend(p, {}, minters, RolesOf(c));
    assert ReportingPlan(c) == minters + RolesOf(c);
  }

  lemma ReportingPlanOk(c: Issuance)
    requires Sane(c)
    ensures PlanOk(IssuanceRules(c, true), ReportingPlan(c))
  {
    var r, plan, silent := IssuanceRules(c, true), ReportingPlan(c), IssuancePlan(c);
    IssuancePlanOk(c, true);
    assert |plan| == |silent|;
    assert forall j :: 0 <= j < |plan| ==> SameButFlag(plan[j], silent[j]);
    SameOrder(r, silent, plan);
  }

  predicate SameButFlag(a: Instr, b: Instr) {
    a == b || (a.Ensure? && b.Ensure? && a.call == b.call)
  }

  lemma SameOrder(r: Rules, silent: seq<Instr>, plan: seq<Instr>)
    requires PlanOk(r, silent) && |plan| == |silent|
    requires forall j :: 0 <= j < |plan| ==> SameButFlag(plan[j], silent[j])
    ensures PlanOk(r, plan)
  {
    forall j | 0 <= j < |plan| ensures PlanInstrOk(r, plan, j) {
      assert PlanInstrOk(r, silent, j) && SameButFlag(plan[j], silent[j]);
      if Takes(plan[j]).Some? && Takes(plan[j]).value in r.heirs {
        var g := HeirGrant(r, Takes(plan[j]).value);
        var i :| 0 <= i < j && Sends(silent[i], g);
        assert SameButFlag(plan[i], silent[i]) && Sends(plan[i], g);
      }
    }
  }

  lemma CallStaffed(c: Issuance, chain: Chain, k: Call)
    requires Sane(c) && Ready(c, chain) && IssuanceCall(c, k)
    ensures OneHolds(c, chain, k.to, RequiredRole(chain, k))
    ensures Removal(k).Some? ==> Removal(k).value.account != c.governance
    ensures Removal(k).Some? && Removal(k).value.account == c.deployer ==> Removal(k).value in DeployerRoles(c)
  {
  }

  lemma ReportingFits(c: Issuance, chain: Chain)
    requires Sane(c) && Ready(c, chain)
    ensures Fits(IssuanceRules(c, true), Operations(ReportingPlan(c)), ReportingPlan(c), chain)
    ensures AllPermitted(chain, ReportingPlan(c))
  {
    var r, plan := IssuanceRules(c, true), ReportingPlan(c);
    ReportingPlanOk(c);
    ReportingAccountable(c, r.p);
    OperationsFit(c, plan);
    forall k | k in Operations(plan)
      ensures OneHolds(c, chain, k.to, RequiredRole(chain, k))
      ensures Removal(k).Some? ==> Removal(k).value.account != c.governance
      ensures Removal(k).Some? && Removal(k).value.account == c.deployer ==> Removal(k).value in DeployerRoles(c)
    {
      CallStaffed(c, chain, k);
    }
    HandoversFit(r, plan, chain);
  }

  /** What 22_1 is for. */
  predicate Issued(c: Issuance, chain: Chain) {
    && chain.Has(c.token, Minter, c.issuer)
    && (c.oldIssuer != c.issuer ==> !chain.Has(c.token, Minter, c.oldIssuer))
    && AllMet(chain, RolesOf(c))
  }

  /** Convergence: once the Safe has executed what the first run queued, 22_1 has reached its
      goal, and further runs change nothing. The queue is flushed only when that run does not
      report completion; a run that does has something queued exactly when the old issuer is
      out of the deployer's reach. */
  lemma IssuanceConverges(c: Issuance, chain: Chain)
    requires Sane(c) && Ready(c, chain)
    ensures var r := IssuanceRules(c, true);
            var first := Run(r.p, Fresh(chain, IssuancePlan(c), []));
            var goal := RunAndSign(r, IssuancePlan(c), chain);
            && ExecuteBatch(first.chain, c.governance, first.queue).Some?
            && Issued(c, goal)
            && Run(r.p, Fresh(goal, IssuancePlan(c), [])) == Fresh(goal, [], [])
            && (first.complete ==> (first.queue != [] <==> OldMinterOutOfReach(c, chain)))
  {
    var r, plan := IssuanceRules(c, true), ReportingPlan(c);
    ReportingFits(c, chain);
    ReportingRun(c, true, chain);
    Converges(r, Operations(plan), plan, chain);
    var goal := RunAndSign(r, IssuancePlan(c), chain);
    assert goal == RunAndSign(r, plan, chain);
    IssuanceHidesPendingExactly(c, true, chain);
    MetIsIssued(c, goal);
    MetRunIsQuiet(r.p, Fresh(goal, IssuancePlan(c), []));
  }

  lemma MetIsIssued(c: Issuance, chain: Chain)
    requires AllMet(chain, ReportingPlan(c))
    ensures Issued(c, chain) && AllMet(chain, IssuancePlan(c)) && forall i | i in IssuancePlan(c) :: PlanForm(i)
  {
    assert Met(chain, ReportingPlan(c)[0]);
    if c.oldIssuer != c.issuer {
      assert Met(chain, ReportingPlan(c)[1]);
    }
    forall i | i in IssuancePlan(c) ensures Met(chain, i) && PlanForm(i) {
      assert i in RolesOf(c) ==> i in ReportingPlan(c);
    }
  }
}
