/** What errors in the vault section of the RedeemerV2 script (22_2) can hide. */
module RedeemerErrors {
  import opened Wrappers
  import opened AccessControl
  import opened Script
  import opened RoleSafety
  import opened Completion
  import opened Runs
  import opened Plans
  import opened PlanOrder
  import opened RoleLoss
  import opened Sections
  import opened RedeemerGoal

  function LegacyCalls(vault: Address, redeemer: Address, legacies: seq<Option<Address>>): seq<Call> {
    if legacies == [] then []
    else
      (match Legacy(legacies[0], redeemer)
       case None => []
       case Some(legacy) => [RevokeRole(vault, CollateralWithdrawer, legacy)])
      + LegacyCalls(vault, redeemer, legacies[1..])
  }

  /** What the vault section requires, in its order. */
  function WithdrawerCalls(c: Redemption): seq<Call> {
    [GrantRole(c.vault, CollateralWithdrawer, c.redeemer)] + LegacyCalls(c.vault, c.redeemer, c.legacies)
  }

  function RolesOf(c: Redemption): seq<Instr> {
    RolesPlan(c.redeemer, REDEEMER_OPERATIONAL, c.deployer, c.governance)
  }

  lemma {:induction false} LegacyIsSection(vault: Address, redeemer: Address, legacies: seq<Option<Address>>)
    ensures LegacyRevokes(vault, redeemer, legacies) == SectionPlan(LegacyCalls(vault, redeemer, legacies))
    ensures forall k | k in LegacyCalls(vault, redeemer, legacies) ::
              k.RevokeRole? && k.to == vault && k.role == CollateralWithdrawer && k.account != redeemer
  {
    if legacies != [] {
      LegacyIsSection(vault, redeemer, legacies[1..]);
    }
  }

  lemma WithdrawerIsSection(c: Redemption)
    ensures WithdrawerPlan(c) == SectionPlan(WithdrawerCalls(c))
    ensures Compatible(WithdrawerCalls(c))
    ensures forall k | k in WithdrawerCalls(c) ::
              (k.GrantRole? || k.RevokeRole?) && k.to == c.vault && k.role == CollateralWithdrawer
  {
    LegacyIsSection(c.vault, c.redeemer, c.legacies);
  }

  lemma MovedIsDone(c: Redemption, chain: Chain)
    ensures WithdrawerMoved(c, chain) <==> !SomeUndone(chain, WithdrawerCalls(c))
  {
    var calls, plan := WithdrawerCalls(c), WithdrawerPlan(c);
    WithdrawerIsSection(c);
    WithdrawersMet(c, chain);
    if AllMet(chain, plan) {
      forall k | k in calls ensures Done(chain, k) {
        var i :| 0 <= i < |calls| && calls[i] == k;
        assert Met(chain, plan[i]);
      }
    }
    if !SomeUndone(chain, calls) {
      forall t | t in plan ensures Met(chain, t) {
        var i :| 0 <= i < |plan| && plan[i] == t;
        assert calls[i] in calls;
      }
    }
  }

  /** The state in which the vault section leaves the script. */
  function SectionLeft(c: Redemption, p: Parties, chain: Chain, faults: seq<Fault>): State {
    SectionEnd(p, Fresh(chain, [], faults), WithdrawerCalls(c))
  }

  lemma SectionThenRoles(c: Redemption, p: Parties, chain: Chain, faults: seq<Fault>)
    ensures var v := SectionLeft(c, p, chain, faults);
            && !v.threw
            && Run(p, Fresh(chain, RedeemerPlan(c), faults)) == Run(p, v.(todo := RolesOf(c)))
            && Run(p, Fresh(chain, WithdrawerPlan(c), faults)) == v.(todo := [])
  {
    WithdrawerIsSection(c);
    var calls := WithdrawerCalls(c);
    var s := Fresh(chain, RedeemerPlan(c), faults);
    SectionRun(p, s, calls, RolesOf(c));
    TodoIrrelevant(p, Fresh(chain, [], faults), calls, s.todo, RolesOf(c));
    var alone := Fresh(chain, WithdrawerPlan(c), faults);
    assert alone.todo == SectionPlan(calls) + [];
    SectionRun(p, alone, calls, []);
    TodoIrrelevant(p, Fresh(chain, [], faults), calls, alone.todo, []);
  }

  /** The role migration leaves the withdrawers alone, whatever fails. */
  lemma RolesSpareWithdrawers(c: Redemption, p: Parties, s: State)
    requires s.todo == RolesOf(c)
    ensures WithdrawerMoved(c, Run(p, s).chain) <==> WithdrawerMoved(c, s.chain)
  {
    forall m: Membership | m.role == CollateralWithdrawer
      ensures m in Run(p, s).chain.members <==> m in s.chain.members
    {
      RolesOperations(c.redeemer, REDEEMER_OPERATIONAL, c.deployer, c.governance);
      forall i | i in s.todo ensures Spares(i, m) {
        assert forall k | k in CallsOf(i) :: k in Operations(s.todo);
      }
      RunSpares(p, s, m);
    }
  }

  /** The exact condition, for every chain and every pattern of failures: when 22_2 reports
      completion, the withdrawer hand-over is unfinished if and only if the first request of
      the vault section to fail was the read of a requirement, something from there on was not
      done, and everything sent before had succeeded. And it does report completion unfinished
      exactly when that is so and the role migration that follows completes. */
  lemma RedeemerHidesUnfinishedExactly(c: Redemption, useSafe: bool, chain: Chain, faults: seq<Fault>)
    ensures var p := Parties(c.deployer, useSafe);
            var t := Run(p, Fresh(chain, RedeemerPlan(c), faults));
            var section := Run(p, Fresh(chain, WithdrawerPlan(c), faults));
            var roles := Run(p, Fresh(section.chain, RolesOf(c), section.faults));
            && (t.complete && !t.threw ==>
                  (!WithdrawerMoved(c, t.chain) <==> Unnoticed(p, chain, WithdrawerCalls(c), faults)))
            && (t.complete && !t.threw && !WithdrawerMoved(c, t.chain) <==>
                  Unnoticed(p, chain, WithdrawerCalls(c), faults) && roles.complete && !roles.threw)
  {
    var p := Parties(c.deployer, useSafe);
    var v := SectionLeft(c, p, chain, faults);
    var s := v.(todo := RolesOf(c));
    SectionThenRoles(c, p, chain, faults);
    WithdrawerIsSection(c);
    SectionUnnoticedExactly(p, Fresh(chain, [], faults), WithdrawerCalls(c));
    MovedIsDone(c, v.chain);
    RolesSpareWithdrawers(c, p, s);
    RunBeside(p, s);
  }

  /** Such an error: the first read of the vault fails while a legacy redeemer is still a
      withdrawer and everything else is done. 22_2 reports completion and changes nothing. */
  lemma SwallowedErrorWitness(c: Redemption, useSafe: bool, chain: Chain, first: Fault)
    requires AllMet(chain, RolesOf(c)) && first != Works && !WithdrawerMoved(c, chain)
    ensures var p := Parties(c.deployer, useSafe);
            && Run(p, Fresh(chain, RedeemerPlan(c), [first])) == Fresh(chain, [], [])
            && Unnoticed(p, chain, WithdrawerCalls(c), [first])
  {
    var p := Parties(c.deployer, useSafe);
    FirstReadFails(c, p, chain, first);
    forall i | i in RolesOf(c) ensures PlanForm(i) {
    }
    MetRunIsQuiet(p, Fresh(chain, RolesOf(c), []));
    RedeemerHidesUnfinishedExactly(c, useSafe, chain, [first]);
  }

  lemma FirstReadFails(c: Redemption, p: Parties, chain: Chain, first: Fault)
    requires first != Works
    ensures Run(p, Fresh(chain, RedeemerPlan(c), [first])) == Run(p, Fresh(chain, RolesOf(c), []))
  {
    SectionThenRoles(c, p, chain, [first]);
    assert SectionLeft(c, p, chain, [first]) == Fresh(chain, [], []);
  }
}
