/** Plans made of well-ordered parts are well ordered. */
module PlanOrder {
  import opened AccessControl
  import opened Script
  import opened RoleSafety
  import opened Completion
  import opened Plans

  lemma {:induction false} PlanOkAppend(r: Rules, a: seq<Instr>, b: seq<Instr>)
    requires PlanOk(r, a) && PlanOk(r, b)
    ensures PlanOk(r, a + b)
  {
    var plan := a + b;
    forall j | 0 <= j < |plan| ensures PlanInstrOk(r, plan, j) {
      if j < |a| {
        assert PlanInstrOk(r, a, j);
      } else {
        assert PlanInstrOk(r, b, j - |a|);
      }
      if Takes(plan[j]).Some? && Takes(plan[j]).value in r.heirs {
        var g := HeirGrant(r, Takes(plan[j]).value);
        if j < |a| {
          var i :| 0 <= i < j && Sends(a[i], g);
          assert Sends(plan[i], g);
        } else {
          var i :| 0 <= i < j - |a| && Sends(b[i], g);
          assert Sends(plan[|a| + i], g);
        }
      }
    }
  }

  /** The signer's `role` on `contract` may be moved to `governance`. */
  predicate MoveOk(r: Rules, contract: Address, role: Role, governance: Address) {
    var m := Member(contract, role, r.p.signer);
    && CallOk(r, GrantRole(contract, role, governance))
    && CallOk(r, RevokeRole(contract, role, r.p.signer))
    && (m in r.heirs ==> r.heirs[m] == governance && (r.anyFault ==> role == DefaultAdmin))
  }

  lemma RolesOrdered(r: Rules, contract: Address, operational: seq<Role>, governance: Address)
    requires DefaultAdmin !in operational
    requires forall role | role in [DefaultAdmin] + operational :: MoveOk(r, contract, role, governance)
    ensures PlanOk(r, RolesPlan(contract, operational, r.p.signer, governance))
  {
    var plan := RolesPlan(contract, operational, r.p.signer, governance);
    var roles := [DefaultAdmin] + operational;
    var n := |operational|;
    forall j | 0 <= j < |plan| ensures PlanInstrOk(r, plan, j) {
      if j < n + 1 {
        assert MoveOk(r, contract, roles[j], governance);
      } else if j < 2 * n + 1 {
        var role := operational[j - n - 1];
        assert MoveOk(r, contract, role, governance);
        assert plan[j] == Ensure(RevokeRole(contract, role, r.p.signer), true, Propagate);
        assert Sends(plan[j - n], GrantRole(contract, role, governance));
      } else {
        assert MoveOk(r, contract, DefaultAdmin, governance);
      }
    }
  }

  // ---------- plans that account for what they need ----------

  lemma {:induction false} AccountableAppend(p: Parties, silent: set<Call>, a: seq<Instr>, b: seq<Instr>)
    requires AccountableBut(p, silent, a) && AccountableBut(p, silent, b)
    ensures AccountableBut(p, silent, a + b)
  {
    var plan := a + b;
    forall j | 0 <= j < |plan| ensures AccountableAt(p, silent, plan, j) {
      if j < |a| {
        assert AccountableAt(p, silent, a, j);
      } else {
        assert AccountableAt(p, silent, b, j - |a|);
      }
      if plan[j].KeepAdmin? || plan[j].ConfirmAdmin? {
        var g := GrantOf(plan[j].h);
        if j < |a| {
          var i :| 0 <= i < j && FlagSends(a[i], g);
          assert FlagSends(plan[i], g);
        } else {
          var i :| 0 <= i < j - |a| && FlagSends(b[i], g);
          assert FlagSends(plan[|a| + i], g);
        }
      }
    }
  }

  lemma RolesAccountable(p: Parties, contract: Address, operational: seq<Role>, governance: Address)
    ensures Accountable(p, RolesPlan(contract, operational, p.signer, governance))
  {
    var plan := RolesPlan(contract, operational, p.signer, governance);
    var h := Handover(contract, governance, p.signer);
    assert plan[0] == Ensure(GrantOf(h), true, Propagate);
    assert FlagSends(plan[0], GrantOf(h));
    forall j | 0 <= j < |plan| ensures AccountableAt(p, {}, plan, j) {
    }
  }

  /** What moving the roles of a contract may send. */
  lemma RolesOperations(contract: Address, operational: seq<Role>, deployer: Address, governance: Address)
    ensures var plan := RolesPlan(contract, operational, deployer, governance);
            && PlanInUniverse(Operations(plan), plan)
            && forall k | k in Operations(plan) ::
                 && k.to == contract
                 && ((k.GrantRole? && k.account == governance) || (k.RevokeRole? && k.account == deployer))
                 && k.role in [DefaultAdmin] + operational
  {
    var plan := RolesPlan(contract, operational, deployer, governance);
    forall j | 0 <= j < |plan| ensures InUniverse(Operations(plan), plan[j]) {
      assert forall k | k in CallsOf(plan[j]) :: k in Operations(plan);
    }
  }
}
