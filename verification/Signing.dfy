/** The scripts run again and again, each time from a fresh executor, with the Safe executing
    what it was handed: the convergence results, as results about the methods of Deployment.
    Calls fail only for want of authorisation. */
module Signing {
  import opened Wrappers
  import opened AccessControl
  import opened Script
  import opened RoleSafety
  import opened Completion
  import opened Convergence
  import opened Rounds
  import opened Plans
  import opened Deployment
  import I = IssuanceProofs
  import IG = IssuanceGoal
  import R = RedeemerProofs
  import RG = RedeemerGoal
  import U = UpgradeProofs
  import UG = UpgradeGoal

  function AfterBatches(chain: Chain, safe: Address, batches: seq<seq<Call>>): Chain {
    if batches == [] then chain
    else AfterBatch(AfterBatches(chain, safe, batches[..|batches| - 1]), safe, batches[|batches| - 1])
  }

  /** The Safe executes the batches it was handed, in order; one that reverts changes nothing. */
  method Sign(network: Network, safe: Address, batches: seq<seq<Call>>)
    modifies network`chain
    ensures network.chain == AfterBatches(old(network.chain), safe, batches)
  {
    for i := 0 to |batches|
      invariant network.chain == AfterBatches(old(network.chain), safe, batches[..i])
    {
      assert batches[..i + 1][..i] == batches[..i];
      network.chain := AfterBatch(network.chain, safe, batches[i]);
    }
    assert batches[..|batches|] == batches;
  }

  /** What a run hands over, and the Safe executes: the queue, when the run is not complete. */
  function SignedRun(r: Rules, plan: seq<Instr>, chain: Chain): Chain {
    var first := Run(r.p, Fresh(chain, plan, []));
    if first.complete then first.chain else AfterBatch(first.chain, r.safe, first.queue)
  }

  lemma HandedOver(chain: Chain, safe: Address, queue: seq<Call>)
    ensures AfterBatches(chain, safe, [queue]) == AfterBatch(chain, safe, queue)
    ensures AfterBatch(chain, safe, []) == chain && AfterBatches(chain, safe, []) == chain
  {
    assert [queue][..0] == [];
  }

  /** For a plan that accounts for everything a complete run leaves nothing to sign. */
  lemma SignedIsRunAndSign(ops: set<Call>, r: Rules, plan: seq<Instr>, chain: Chain)
    requires Harmonious(ops) && PlanInUniverse(ops, plan) && Accountable(r.p, plan)
    ensures SignedRun(r, plan, chain) == RunAndSign(r, plan, chain)
    ensures var first := Run(r.p, Fresh(chain, plan, [])); !first.threw && first.faults == []
  {
    RunReports(ops, r.p, plan, chain);
  }

  // ---------- 23_02 ----------

  method UpgradeRound(network: Network, c: Upgrade) returns (r: Result<bool>)
    requires U.Sane(c) && network.faults == []
    modifies network
    ensures network.faults == []
    ensures network.chain == RunAndSign(U.UpgradeRules(c, true), UpgradePlan(c), old(network.chain))
    ensures r == Success(CompletesAfter(U.UpgradeRules(c, true), UpgradePlan(c), old(network.chain), 0))
  {
    ghost var rules, plan := U.UpgradeRules(c, true), UpgradePlan(c);
    U.OperationsFit(c);
    UG.UpgradeAccountable(c, rules.p);
    SignedIsRunAndSign(Operations(plan), rules, plan, network.chain);
    var x := new GovernanceExecutor(network, Parties(c.deployer, true));
    assert x.View(plan, true) == Fresh(network.chain, plan, []);
    r := SetupIssuer(x, c, true);
    HandedOver(network.chain, c.governance, x.transactions);
    Sign(network, c.governance, x.batches);
  }

  /** Run 23_02 and sign what it hands over, as often as said, then run it once more: from two
      rounds on it returns true in the upgraded state, if the exact condition holds at the
      start; otherwise it never returns true. */
  method UpgradeInRounds(network: Network, c: Upgrade, rounds: nat) returns (r: Result<bool>)
    requires U.Sane(c) && UG.Ready(c, network.chain) && network.faults == []
    modifies network
    ensures UG.Completable(c, old(network.chain)) && rounds >= 2 ==>
              r == Success(true) && U.Upgraded(c, network.chain)
    ensures !UG.Completable(c, old(network.chain)) ==> r == Success(false)
  {
    ghost var rules, plan, start := U.UpgradeRules(c, true), UpgradePlan(c), network.chain;
    for i := 0 to rounds
      invariant network.faults == [] && network.chain == AfterRounds(rules, plan, start, i)
    {
      var _ := UpgradeRound(network, c);
    }
    UG.UpgradeConvergesExactly(c, start);
    assert CompletesAfter(rules, plan, start, rounds) == CompletesAfter(rules, plan, network.chain, 0);
    r := UpgradeRound(network, c);
    assert network.chain == AfterRounds(rules, plan, start, rounds + 1);
  }

  // ---------- 22_2 ----------

  method RedeemerRound(network: Network, c: Redemption) returns (r: Result<bool>)
    requires R.Sane(c) && network.faults == []
    modifies network
    ensures network.faults == []
    ensures network.chain == RunAndSign(R.RedeemerRules(c, true), RedeemerPlan(c), old(network.chain))
    ensures r == Success(Run(Parties(c.deployer, true), Fresh(old(network.chain), RedeemerPlan(c), [])).complete)
  {
    ghost var rules, plan := R.RedeemerRules(c, true), RedeemerPlan(c);
    RG.RedeemerOperations(c);
    RG.RedeemerAccountable(c, rules.p);
    SignedIsRunAndSign(Operations(plan), rules, plan, network.chain);
    var x := new GovernanceExecutor(network, Parties(c.deployer, true));
    assert x.View(plan, true) == Fresh(network.chain, plan, []);
    r := SetupRedeemer(x, c);
    HandedOver(network.chain, c.governance, x.transactions);
    Sign(network, c.governance, x.batches);
  }

  /** One round of 22_2 is enough; every later run returns true and changes nothing. */
  method RedeemerInRounds(network: Network, c: Redemption, rounds: nat) returns (r: Result<bool>)
    requires R.Sane(c) && RG.Ready(c, network.chain) && network.faults == [] && rounds >= 1
    modifies network
    ensures r == Success(true) && RG.Handed(c, network.chain)
  {
    ghost var goal := RunAndSign(R.RedeemerRules(c, true), RedeemerPlan(c), network.chain);
    RG.RedeemerConverges(c, network.chain);
    HandedOver(goal, c.governance, []);
    for i := 0 to rounds
      invariant network.faults == [] && network.chain == if i == 0 then old(network.chain) else goal
    {
      var _ := RedeemerRound(network, c);
    }
    r := RedeemerRound(network, c);
  }

  // ---------- 22_1 ----------

  method IssuanceRound(network: Network, c: Issuance) returns (r: Result<bool>)
    requires I.Sane(c) && network.faults == []
    modifies network
    ensures network.faults == []
    ensures network.chain == SignedRun(I.IssuanceRules(c, true), IssuancePlan(c), old(network.chain))
    ensures r == Success(Run(Parties(c.deployer, true), Fresh(old(network.chain), IssuancePlan(c), [])).complete)
  {
    ghost var rules, plan := I.IssuanceRules(c, true), IssuancePlan(c);
    IG.IssuanceHidesPendingExactly(c, true, network.chain);
    I.IssuancePlanOk(c, true);
    PlanStartsJustified(rules, network.chain, plan, []);
    RunKeepsInv(rules, Fresh(network.chain, plan, []));
    var x := new GovernanceExecutor(network, Parties(c.deployer, true));
    assert x.View(plan, true) == Fresh(network.chain, plan, []);
    r := SetupIssuerV2(x, c, true);
    HandedOver(network.chain, c.governance, x.transactions);
    Sign(network, c.governance, x.batches);
  }

  /** 22_1 has hidden the revocation: everything else is done, and the deployer cannot do it. */
  predicate Hidden(c: Issuance, chain: Chain) {
    IG.OldMinterOutOfReach(c, chain) && chain.Has(c.token, Minter, c.issuer) && AllMet(chain, IG.RolesOf(c))
  }

  lemma HiddenStays(c: Issuance, chain: Chain)
    requires I.Sane(c) && Hidden(c, chain)
    ensures SignedRun(I.IssuanceRules(c, true), IssuancePlan(c), chain) == chain
  {
    var p := Parties(c.deployer, true);
    IG.MintersRun(c, true, chain);
    var s := IG.MintersMoved(c, true, chain);
    assert s.chain == chain && s.complete && s.faults == [];
    forall t | t in IG.RolesOf(c) ensures PlanForm(t) {
      IG.RolesForm(c, t);
    }
    MetRunIsQuiet(p, s.(todo := IG.RolesOf(c)));
  }

  /** A first run that reports completion without having been able to revoke hides it. */
  lemma FirstRunHides(c: Issuance, chain: Chain)
    requires I.Sane(c) && IG.OldMinterOutOfReach(c, chain)
    requires Run(Parties(c.deployer, true), Fresh(chain, IssuancePlan(c), [])).complete
    ensures Hidden(c, SignedRun(I.IssuanceRules(c, true), IssuancePlan(c), chain))
  {
    var rules, plan := I.IssuanceRules(c, true), IssuancePlan(c);
    IG.IssuanceHidesPendingExactly(c, true, chain);
    I.IssuancePlanOk(c, true);
    PlanStartsJustified(rules, chain, plan, []);
    RunKeepsInv(rules, Fresh(chain, plan, []));
  }

  /** Any number of rounds of 22_1 reach the goal exactly when the first run did not return true
      with the old issuer out of the deployer's reach: what such a run queues is never handed
      over, by it or by any later one. */
  method IssuanceInRounds(network: Network, c: Issuance, rounds: nat) returns (first: Result<bool>)
    requires I.Sane(c) && IG.Ready(c, network.chain) && network.faults == [] && rounds >= 1
    modifies network
    ensures IG.Issued(c, network.chain) <==>
            !(first == Success(true) && IG.OldMinterOutOfReach(c, old(network.chain)))
  {
    ghost var start := network.chain;
    first := IssuanceRound(network, c);
    ghost var reached := network.chain;
    ghost var hides := first == Success(true) && IG.OldMinterOutOfReach(c, start);
    IG.IssuanceConverges(c, start);
    HandedOver(reached, c.governance, []);
    if hides {
      FirstRunHides(c, start);
      HiddenStays(c, reached);
    }
    for i := 1 to rounds
      invariant network.faults == [] && network.chain == reached
    {
      var _ := IssuanceRound(network, c);
    }
  }
}
