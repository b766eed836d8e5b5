/** When the role loops lose a role: they revoke without reading again what they granted. */
module RoleLoss {
  import opened Wrappers
  import opened AccessControl
  import opened Completion
  import opened Lists
  import opened Plans
  import opened Runs
  import opened Script

  // ---------- instructions that leave a membership alone ----------

  predicate Spares(i: Instr, m: Membership) {
    forall k | k in CallsOf(i) :: k != GrantRole(m.contract, m.role, m.account) && Removal(k) != Some(m)
  }

  predicate AllSpare(plan: seq<Instr>, m: Membership) {
    forall i | i in plan :: Spares(i, m)
  }

  lemma ActSpares(p: Parties, chain: Chain, i: Instr, fault: Fault, m: Membership)
    requires Spares(i, m)
    ensures m in Act(p, chain, i, fault).chain.members <==> m in chain.members
    ensures Act(p, chain, i, fault).next.Then? ==> Spares(Act(p, chain, i, fault).next.instr, m)
  {
    var next := Act(p, chain, i, fault).next;
    assert next.Then? ==> CallsOf(next.instr) <= CallsOf(i);
    match i
    case Attempt(call, _) => assert call in CallsOf(i);
    case GrantAdmin(h) => assert GrantOf(h) in CallsOf(i);
    case DropOld(h) => assert RevokeOf(h) in CallsOf(i);
    case _ =>
  }

  lemma StepSpares(p: Parties, s: State, m: Membership)
    requires s.todo != [] && AllSpare(s.todo, m)
    ensures AllSpare(Step(p, s).todo, m)
    ensures m in Step(p, s).chain.members <==> m in s.chain.members
  {
    var next := Act(p, s.chain, s.todo[0], NextFault(s.faults)).next;
    ActSpares(p, s.chain, s.todo[0], NextFault(s.faults), m);
    forall i | i in Step(p, s).todo ensures Spares(i, m) {
      if next.Leave? {
        LeaveSectionIsSuffix(s.todo[1..]);
        var n :| 0 <= n <= |s.todo[1..]| && LeaveSection(s.todo[1..]) == s.todo[1..][n..];
      }
      assert (next.Then? && i == next.instr) || i in s.todo;
    }
  }

  lemma {:induction false} RunSpares(p: Parties, s: State, m: Membership)
    requires AllSpare(s.todo, m)
    ensures m in Run(p, s).chain.members <==> m in s.chain.members
    decreases |s.todo|, if s.todo == [] then 0 else Weight(s.todo[0])
  {
    if s.todo != [] {
      StepShrinks(p, s);
      StepSpares(p, s, m);
      RunSpares(p, Step(p, s), m);
    }
  }

  // ---------- a role that is lost to both ----------

  /** At a requirement to which the run has come: it is read as missing, and its call, which
      is then sent, changes nothing. */
  predicate Rejected(p: Parties, s: State, call: Call) {
    NextFault(s.faults) == Works
    && (NextFault(LaterFaults(s.faults)) == Fails || Execute(s.chain, p.signer, call).None?)
  }

  /** It is read, and the call, which is then sent, takes effect. */
  predicate GetsThrough(p: Parties, s: State, call: Call) {
    NextFault(s.faults) == Works
    && NextFault(LaterFaults(s.faults)) != Fails && Execute(s.chain, p.signer, call).Some?
  }

  predicate NoSections(plan: seq<Instr>) {
    forall k :: 0 <= k < |plan| ==> !StartsSection(plan[k..])
  }

  /** The plan around the grant and the revocation of one operational role. */
  lemma RolesPlanAround(contract: Address, operational: seq<Role>, deployer: Address, governance: Address, k: nat)
    requires k < |operational|
    ensures var plan := RolesPlan(contract, operational, deployer, governance);
            var n := |operational|;
            && |plan| == 2 * n + 3
            && plan[k + 1] == Ensure(GrantRole(contract, operational[k], governance), true, Propagate)
            && plan[n + 1 + k] == Ensure(RevokeRole(contract, operational[k], deployer), true, Propagate)
            && NoSections(plan)
  {
  }

  /** Everything else in the plan leaves the role alone. */
  lemma OthersSpare(contract: Address, operational: seq<Role>, deployer: Address, governance: Address, k: nat, j: nat)
    requires NoDuplicates(operational) && DefaultAdmin !in operational && deployer != governance
    requires k < |operational| && j < |RolesPlan(contract, operational, deployer, governance)|
    ensures var i := RolesPlan(contract, operational, deployer, governance)[j];
            && (j != k + 1 ==> Spares(i, Member(contract, operational[k], governance)))
            && (j != |operational| + 1 + k ==> Spares(i, Member(contract, operational[k], deployer)))
  {
  }

  lemma AllOthersSpare(contract: Address, operational: seq<Role>, deployer: Address, governance: Address, k: nat)
    requires NoDuplicates(operational) && DefaultAdmin !in operational && deployer != governance && k < |operational|
    ensures var plan := RolesPlan(contract, operational, deployer, governance);
            && (forall j :: 0 <= j < |plan| && j != k + 1 ==>
                  Spares(plan[j], Member(contract, operational[k], governance)))
            && (forall j :: 0 <= j < |plan| && j != |operational| + 1 + k ==>
                  Spares(plan[j], Member(contract, operational[k], deployer)))
  {
    forall j | 0 <= j < |RolesPlan(contract, operational, deployer, governance)| {
      OthersSpare(contract, operational, deployer, governance, k, j);
    }
  }

  /** What a plain requirement, once reached, does. */
  lemma AtGrant(p: Parties, s: State, grant: Call)
    requires !s.threw && grant.GrantRole? && s.todo == [Ensure(grant, true, Propagate)]
    ensures var t := Run(p, s);
            && (t.threw <==> NextFault(s.faults) != Works)
            && (Done(t.chain, grant) <==> Done(s.chain, grant) || (!t.threw && !Rejected(p, s, grant)))
  {
    assert s.todo == [Ensure(grant, true, Propagate)] + [];
    RunRequirement(p, s, grant, true, Propagate, []);
  }

  lemma AtRevocation(p: Parties, s: State, revoke: Call)
    requires !s.threw && revoke.RevokeRole? && s.todo == [Ensure(revoke, true, Propagate)]
    ensures Done(Run(p, s).chain, revoke) <==> Done(s.chain, revoke) || GetsThrough(p, s, revoke)
  {
    assert s.todo == [Ensure(revoke, true, Propagate)] + [];
    RunRequirement(p, s, revoke, true, Propagate, []);
  }

  /** A run of the first j instructions is a run of the first i, and then of the others. */
  lemma RunPrefix(p: Parties, s: State, plan: seq<Instr>, i: nat, j: nat)
    requires i <= j <= |plan| && !s.threw && NoSections(plan)
    ensures var t := Run(p, s.(todo := plan[..i]));
            Run(p, s.(todo := plan[..j])) == if t.threw then t else Run(p, t.(todo := plan[i..j]))
  {
    assert plan[..j] == plan[..i] + plan[i..j];
    assert i < j ==> plan[i..j][0] == plan[i..][0];
    RunAppend(p, s.(todo := plan[..i]), plan[i..j]);
  }

  lemma PartSpares(plan: seq<Instr>, i: nat, j: nat, m: Membership, except: nat)
    requires i <= j <= |plan| && !(i <= except < j)
    requires forall k :: 0 <= k < |plan| && k != except ==> Spares(plan[k], m)
    ensures AllSpare(plan[i..j], m)
  {
    forall x | x in plan[i..j] ensures Spares(x, m) {
      var k :| 0 <= k < j - i && plan[i..j][k] == x;
      assert x == plan[i + k];
    }
  }

  /** The state in which the first i instructions of the plan leave the script. */
  function After(p: Parties, s: State, plan: seq<Instr>, i: nat): State
    requires i <= |plan|
  {
    Run(p, s.(todo := plan[..i]))
  }

  /** A stretch of the plan that leaves a membership alone. */
  lemma Stretch(p: Parties, s: State, plan: seq<Instr>, i: nat, j: nat, m: Membership, except: nat)
    requires i <= j <= |plan| && !(i <= except < j) && !s.threw
    requires NoSections(plan) && forall k :: 0 <= k < |plan| && k != except ==> Spares(plan[k], m)
    ensures m in After(p, s, plan, j).chain.members <==> m in After(p, s, plan, i).chain.members
    ensures After(p, s, plan, i).threw ==> After(p, s, plan, j) == After(p, s, plan, i)
  {
    RunPrefix(p, s, plan, i, j);
    PartSpares(plan, i, j, m, except);
    RunSpares(p, After(p, s, plan, i).(todo := plan[i..j]), m);
  }

  /** The instruction at which the plan does touch it. */
  lemma Next(p: Parties, s: State, plan: seq<Instr>, i: nat)
    requires i < |plan| && !s.threw && NoSections(plan)
    ensures var t := After(p, s, plan, i);
            After(p, s, plan, i + 1) == if t.threw then t else Run(p, t.(todo := [plan[i]]))
  {
    RunPrefix(p, s, plan, i, i + 1);
    assert plan[i..i + 1] == [plan[i]];
  }

  /** The heir holds the role at the end when it did at the start or its grant got through. */
  lemma GrantDecides(p: Parties, s: State, plan: seq<Instr>, g: nat, grant: Call)
    requires !s.threw && NoSections(plan) && g < |plan| && grant.GrantRole? && plan[g] == Ensure(grant, true, Propagate)
    requires forall k :: 0 <= k < |plan| && k != g ==> Spares(plan[k], Member(grant.to, grant.role, grant.account))
    ensures var t := After(p, s, plan, g);
            && (Done(After(p, s, plan, |plan|).chain, grant) <==>
                  Done(s.chain, grant) || (!After(p, s, plan, g + 1).threw && !Rejected(p, t, grant)))
            && (t.threw ==> After(p, s, plan, g + 1).threw)
  {
    var m := Member(grant.to, grant.role, grant.account);
    Stretch(p, s, plan, 0, g, m, g);
    Next(p, s, plan, g);
    if !After(p, s, plan, g).threw {
      AtGrant(p, After(p, s, plan, g).(todo := [plan[g]]), grant);
    }
    Stretch(p, s, plan, g + 1, |plan|, m, g);
  }

  /** The holder has lost the role at the end when it lacked it or its revocation got through. */
  lemma RevocationDecides(p: Parties, s: State, plan: seq<Instr>, r: nat, revoke: Call)
    requires !s.threw && NoSections(plan) && r < |plan| && revoke.RevokeRole?
    requires plan[r] == Ensure(revoke, true, Propagate)
    requires forall k :: 0 <= k < |plan| && k != r ==> Spares(plan[k], Member(revoke.to, revoke.role, revoke.account))
    ensures var t := After(p, s, plan, r);
            Done(After(p, s, plan, |plan|).chain, revoke) <==>
                Done(s.chain, revoke) || (!t.threw && GetsThrough(p, t, revoke))
  {
    var m := Member(revoke.to, revoke.role, revoke.account);
    Stretch(p, s, plan, 0, r, m, r);
    Next(p, s, plan, r);
    if !After(p, s, plan, r).threw {
      AtRevocation(p, After(p, s, plan, r).(todo := [plan[r]]), revoke);
    }
    Stretch(p, s, plan, r + 1, |plan|, m, r);
  }

  /** A run that got as far as position j had not ended before. */
  lemma NotEndedBefore(p: Parties, s: State, plan: seq<Instr>, i: nat, j: nat)
    requires i <= j <= |plan| && !s.threw && NoSections(plan)
    ensures After(p, s, plan, i).threw ==> After(p, s, plan, j).threw
  {
    RunPrefix(p, s, plan, i, j);
  }

  lemma WholeRun(p: Parties, s: State)
    ensures After(p, s, s.todo, |s.todo|) == Run(p, s)
  {
    assert s.todo[..|s.todo|] == s.todo && s.(todo := s.todo) == s;
  }

  /** The same for any plan in which only positions g and r touch the two memberships. */
  lemma LostExactly(p: Parties, s: State, g: nat, r: nat, grant: Call, revoke: Call)
    requires g < r < |s.todo| && NoSections(s.todo) && !s.threw && grant.GrantRole? && revoke.RevokeRole?
    requires s.todo[g] == Ensure(grant, true, Propagate) && s.todo[r] == Ensure(revoke, true, Propagate)
    requires forall j :: 0 <= j < |s.todo| && j != g ==>
                           Spares(s.todo[j], Member(grant.to, grant.role, grant.account))
    requires forall j :: 0 <= j < |s.todo| && j != r ==>
                           Spares(s.todo[j], Member(revoke.to, revoke.role, revoke.account))
    ensures var atGrant, atRevocation, end := After(p, s, s.todo, g), After(p, s, s.todo, r), Run(p, s).chain;
            (!Done(s.chain, revoke) || Done(s.chain, grant)) && Done(end, revoke) && !Done(end, grant) <==>
            && !Done(s.chain, revoke) && !Done(s.chain, grant)
            && Rejected(p, atGrant, grant) && !atRevocation.threw && GetsThrough(p, atRevocation, revoke)
  {
    GrantDecides(p, s, s.todo, g, grant);
    RevocationDecides(p, s, s.todo, r, revoke);
    NotEndedBefore(p, s, s.todo, g + 1, r);
    WholeRun(p, s);
  }

  /** The exact condition, for any contract, any list of operational roles and any pattern of
      failures, in whatever state a script comes to the loops: a role that the deployer or
      governance held is held by neither at the end if and only if only the deployer held it,
      governance's grant was rejected when its turn came, and the run got as far as the
      deployer's revocation, which got through. */
  lemma RoleLostExactly(p: Parties, s: State, contract: Address, operational: seq<Role>, governance: Address, k: nat)
    requires NoDuplicates(operational) && DefaultAdmin !in operational && governance != p.signer
    requires !s.threw && s.todo == RolesPlan(contract, operational, p.signer, governance) && k < |operational|
    ensures var role := operational[k];
            var atGrant := After(p, s, s.todo, k + 1);
            var atRevocation := After(p, s, s.todo, |operational| + 1 + k);
            var end := Run(p, s).chain;
            (s.chain.Has(contract, role, p.signer) || s.chain.Has(contract, role, governance))
            && !end.Has(contract, role, p.signer) && !end.Has(contract, role, governance) <==>
            && s.chain.Has(contract, role, p.signer) && !s.chain.Has(contract, role, governance)
            && Rejected(p, atGrant, GrantRole(contract, role, governance))
            && !atRevocation.threw && GetsThrough(p, atRevocation, RevokeRole(contract, role, p.signer))
  {
    RolesPlanAround(contract, operational, p.signer, governance, k);
    AllOthersSpare(contract, operational, p.signer, governance, k);
    LostExactly(p, s, k + 1, |operational| + 1 + k,
                GrantRole(contract, operational[k], governance), RevokeRole(contract, operational[k], p.signer));
  }

  /** A pattern that loses a role, on any contract the deployer alone administers: only the
      call that grants Pauser to governance fails. */
  lemma RoleLostWitness(p: Parties, chain: Chain, contract: Address, governance: Address)
    requires governance != p.signer
    requires chain.RoleAdmin(contract, Pauser) == chain.RoleAdmin(contract, DefaultAdmin) == DefaultAdmin
    requires chain.Has(contract, DefaultAdmin, p.signer) && chain.Has(contract, Pauser, p.signer)
    requires !chain.Has(contract, DefaultAdmin, governance) && !chain.Has(contract, Pauser, governance)
    ensures var s := State(chain, [], true, false, RolesPlan(contract, [Pauser], p.signer, governance),
                           [Works, Works, Works, Fails]);
            var end := Run(p, s).chain;
            !end.Has(contract, Pauser, p.signer) && !end.Has(contract, Pauser, governance)
  {
    var plan := RolesPlan(contract, [Pauser], p.signer, governance);
    RolesPlanAround(contract, [Pauser], p.signer, governance, 0);
    var s := State(chain, [], true, false, plan, [Works, Works, Works, Fails]);
    SecondRejected(p, s, plan, GrantRole(contract, DefaultAdmin, governance), GrantRole(contract, Pauser, governance));
    RoleLostExactly(p, s, contract, [Pauser], governance, 0);
  }

  lemma SecondRejected(p: Parties, s: State, plan: seq<Instr>, first: Call, second: Call)
    requires |plan| >= 2 && NoSections(plan) && !s.threw && s.faults == [Works, Works, Works, Fails]
    requires plan[0] == Ensure(first, true, Propagate) && plan[1] == Ensure(second, true, Propagate)
    requires !Done(s.chain, first) && Execute(s.chain, p.signer, first).Some? && !Done(Effect(s.chain, first), second)
    ensures Rejected(p, After(p, s, plan, 1), second)
    ensures var t := After(p, s, plan, 2); !t.threw && t.faults == [] && t.chain == Effect(s.chain, first)
  {
    assert After(p, s, plan, 0) == s.(todo := []);
    AfterRequirement(p, s, plan, 0, first);
    var t := After(p, s, plan, 1);
    assert t.faults == [Works, Fails] && t.chain == Effect(s.chain, first);
    AfterRequirement(p, s, plan, 1, second);
  }

  lemma AfterRequirement(p: Parties, s: State, plan: seq<Instr>, i: nat, call: Call)
    requires i < |plan| && NoSections(plan) && plan[i] == Ensure(call, true, Propagate)
    requires !s.threw && !After(p, s, plan, i).threw && NextFault(After(p, s, plan, i).faults) == Works
    ensures After(p, s, plan, i + 1) == Ensured(p, After(p, s, plan, i), call, true).(todo := [])
  {
    var t := After(p, s, plan, i);
    Next(p, s, plan, i);
    assert [plan[i]] == [plan[i]] + [];
    RunRequirement(p, t.(todo := [plan[i]]), call, true, Propagate, []);
  }
}
