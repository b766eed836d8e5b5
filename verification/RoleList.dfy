/** The dSTAKE role transfer: grant each listed role to its target and revoke it
    from the deployer, one role after another, in the order of the list. */
module RoleList {
  import opened Wrappers
  import opened AccessControl
  import opened Script
  import opened Deployment

  datatype Migration = Migration(role: Role, target: Address)

  /** One role: skipped when the deployer may not manage it. */
  function MigrateOne(chain: Chain, contract: Address, deployer: Address, m: Migration): Chain {
    if !chain.Has(contract, chain.RoleAdmin(contract, m.role), deployer) then chain
    else chain.(members := chain.members + {Member(contract, m.role, m.target)} - {Member(contract, m.role, deployer)})
  }

  function MigrateAll(chain: Chain, contract: Address, deployer: Address, roles: seq<Migration>): Chain
    decreases |roles|
  {
    if roles == [] then chain
    else MigrateAll(MigrateOne(chain, contract, deployer, roles[0]), contract, deployer, roles[1..])
  }

  /** Whoever held the role before, the deployer or the target holds it now. */
  predicate Covers(before: Chain, after: Chain, contract: Address, deployer: Address, m: Migration) {
    before.Has(contract, m.role, deployer) ==>
      after.Has(contract, m.role, deployer) || after.Has(contract, m.role, m.target)
  }

  /** No role of the list has two targets. */
  predicate Consistent(roles: seq<Migration>) {
    forall m, n | m in roles && n in roles && m.role == n.role :: m == n
  }

  predicate NoneKept(roles: seq<Migration>, deployer: Address) {
    forall m | m in roles :: m.target != deployer
  }

  /** What processing `m`, even when it breaks off, may do to the chain. */
  ghost predicate Moves(before: Chain, after: Chain, contract: Address, deployer: Address, m: Migration) {
    && before.members - {Member(contract, m.role, deployer)} <= after.members
    && after.members <= before.members + {Member(contract, m.role, m.target)}
    && (m.target != deployer ==> Covers(before, after, contract, deployer, m))
    && (m.target != deployer && before.Has(contract, m.role, m.target) ==> after.Has(contract, m.role, m.target))
  }

  /** One role of the list; the first failing request ends the script. */
  method MigrateRole(network: Network, contract: Address, m: Migration, deployer: Address) returns (r: Result<()>)
    modifies network
    ensures old(network.faults) == [] ==>
              r.Success? && network.faults == [] &&
                  network.chain == MigrateOne(old(network.chain), contract, deployer, m)
    ensures r.Success? ==> network.chain == MigrateOne(old(network.chain), contract, deployer, m)
    ensures Moves(old(network.chain), network.chain, contract, deployer, m)
  {
    ghost var calm := network.faults == [];
    var p := Parties(deployer, false);
    var adminRole :- network.GetRoleAdmin(contract, m.role);
    var signerIsAdmin :- network.HasRole(contract, adminRole, deployer);
    if !signerIsAdmin {
      return Success(());
    }
    var targetHas :- network.HasRole(contract, m.role, m.target);
    if !targetHas {
      var _ :- network.Send(p, GrantRole(contract, m.role, m.target));
    }
    var deployerHas :- network.HasRole(contract, m.role, deployer);
    if deployerHas {
      var _ :- network.Send(p, RevokeRole(contract, m.role, deployer));
    }
    assert network.chain.members == MigrateOne(old(network.chain), contract, deployer, m).members;
    return Success(());
  }

  lemma CoversOn(start: Chain, before: Chain, after: Chain, contract: Address, deployer: Address, m: Migration,
                 n: Migration)
    requires Covers(start, before, contract, deployer, n) && Moves(before, after, contract, deployer, m)
    requires m.target != deployer && n.target != deployer && (m.role == n.role ==> m == n)
    ensures Covers(start, after, contract, deployer, n)
  {
  }

  /** The transfer of one contract. Without failures it does what `MigrateAll` says;
      with failures it stops at the first one, and however it stops, no role that
      the deployer held has left both it and its target, provided they differ. */
  method MigrateRoles(network: Network, contract: Address, roles: seq<Migration>, deployer: Address)
    returns (r: Result<()>)
    modifies network
    ensures old(network.faults) == [] ==>
              r.Success? && network.chain == MigrateAll(old(network.chain), contract, deployer, roles)
    ensures r.Success? ==> network.chain == MigrateAll(old(network.chain), contract, deployer, roles)
    ensures Consistent(roles) && NoneKept(roles, deployer) ==>
              forall m | m in roles :: Covers(old(network.chain), network.chain, contract, deployer, m)
  {
    ghost var start := network.chain;
    ghost var calm := network.faults == [];
    assert roles[0..] == roles;
    for i := 0 to |roles|
      invariant calm ==> network.faults == []
      invariant MigrateAll(network.chain, contract, deployer, roles[i..]) ==
                MigrateAll(start, contract, deployer, roles)
      invariant Consistent(roles) && NoneKept(roles, deployer) ==>
                  forall m | m in roles :: Covers(start, network.chain, contract, deployer, m)
    {
      assert roles[i..][1..] == roles[i + 1..];
      ghost var before := network.chain;
      var done := MigrateRole(network, contract, roles[i], deployer);
      if Consistent(roles) && NoneKept(roles, deployer) {
        forall m | m in roles ensures Covers(start, network.chain, contract, deployer, m) {
          CoversOn(start, before, network.chain, contract, deployer, roles[i], m);
        }
      }
      if done.Failure? {
        return Failure;
      }
    }
    return Success(());
  }

  // ---------- when the order of the list is right, and when it is not ----------

  lemma {:induction false} MigrateSplit(chain: Chain, contract: Address, deployer: Address, a: seq<Migration>,
                                        b: seq<Migration>)
    ensures MigrateAll(chain, contract, deployer, a + b) ==
            MigrateAll(MigrateAll(chain, contract, deployer, a), contract, deployer, b)
    decreases |a|
  {
    if a == [] {
      assert a + b == b;
    } else {
      assert (a + b)[1..] == a[1..] + b;
      MigrateSplit(MigrateOne(chain, contract, deployer, a[0]), contract, deployer, a[1..], b);
    }
  }

  predicate PlainlyAdministered(chain: Chain, contract: Address, roles: seq<Migration>) {
    forall m | m in roles :: chain.RoleAdmin(contract, m.role) == DefaultAdmin
  }

  /** The list is done with `m`: the target holds the role, the deployer does not. */
  predicate Settled(chain: Chain, contract: Address, deployer: Address, m: Migration) {
    chain.Has(contract, m.role, m.target) && !chain.Has(contract, m.role, deployer)
  }

  /** While DefaultAdmin is not in the list the deployer stays admin: exactly the listed
      targets gain their roles, and the deployer loses exactly the listed roles. */
  lemma {:induction false} OperationalOutcome(chain: Chain, contract: Address, deployer: Address, roles: seq<Migration>,
                                              role: Role, account: Address)
    requires chain.Has(contract, DefaultAdmin, deployer) && PlainlyAdministered(chain, contract, roles)
    requires forall m | m in roles :: m.target != deployer && m.role != DefaultAdmin
    ensures var after := MigrateAll(chain, contract, deployer, roles);
            && after.roleAdmins == chain.roleAdmins
            && (after.Has(contract, role, deployer) <==>
                  chain.Has(contract, role, deployer) && forall m | m in roles :: m.role != role)
            && (account != deployer ==>
                  (after.Has(contract, role, account) <==>
                     chain.Has(contract, role, account) || Migration(role, account) in roles))
    decreases |roles|
  {
    if roles != [] {
      OperationalOutcome(MigrateOne(chain, contract, deployer, roles[0]), contract, deployer, roles[1..], role,
          account);
      assert roles == [roles[0]] + roles[1..];
    }
  }

  /** Once the deployer has given up DefaultAdmin, nothing that follows is done. */
  lemma {:induction false} WithoutAdminNothing(chain: Chain, contract: Address, deployer: Address,
                                               roles: seq<Migration>)
    requires !chain.Has(contract, DefaultAdmin, deployer) && PlainlyAdministered(chain, contract, roles)
    ensures MigrateAll(chain, contract, deployer, roles) == chain
    decreases |roles|
  {
    if roles != [] {
      assert MigrateOne(chain, contract, deployer, roles[0]) == chain;
      WithoutAdminNothing(chain, contract, deployer, roles[1..]);
    }
  }

  /** The outcome for every list: with `early` ahead of DefaultAdmin, exactly these and the
      admin role move; `late` is skipped, so the deployer keeps what is listed only there. */
  lemma TransferOutcome(chain: Chain, contract: Address, deployer: Address,
                        early: seq<Migration>, admin: Address, late: seq<Migration>, role: Role, account: Address)
    requires chain.Has(contract, DefaultAdmin, deployer) && admin != deployer
    requires var roles := early + [Migration(DefaultAdmin, admin)] + late;
             PlainlyAdministered(chain, contract, roles) && NoneKept(roles, deployer)
    requires forall m | m in early :: m.role != DefaultAdmin
    ensures var moved := early + [Migration(DefaultAdmin, admin)];
            var after := MigrateAll(chain, contract, deployer, moved + late);
            && (after.Has(contract, role, deployer) <==>
                  chain.Has(contract, role, deployer) && forall m | m in moved :: m.role != role)
            && (account != deployer ==>
                  (after.Has(contract, role, account) <==>
                     chain.Has(contract, role, account) || Migration(role, account) in moved))
  {
    var handover := Migration(DefaultAdmin, admin);
    var middle := MigrateAll(chain, contract, deployer, early);
    var given := MigrateOne(middle, contract, deployer, handover);
    assert handover in early + [handover] + late;
    OperationalOutcome(chain, contract, deployer, early, DefaultAdmin, account);
    OperationalOutcome(chain, contract, deployer, early, role, account);
    MigrateSplit(chain, contract, deployer, early, [handover]);
    assert MigrateAll(middle, contract, deployer, [handover]) == MigrateAll(given, contract, deployer, []);
    MigrateSplit(chain, contract, deployer, early + [handover], late);
    WithoutAdminNothing(given, contract, deployer, late);
  }

  /** A role listed after DefaultAdmin is left behind unless its target holds it, or
      comes to hold it, and the deployer does not, or loses it, before DefaultAdmin goes. */
  predicate LeftBehind(chain: Chain, contract: Address, deployer: Address, moved: seq<Migration>, m: Migration) {
    || !(chain.Has(contract, m.role, m.target) || m in moved)
    || (chain.Has(contract, m.role, deployer) && forall e | e in moved :: e.role != m.role)
  }

  /** The exact condition, on the chain before the transfer: the whole list is settled if
      and only if nothing listed after DefaultAdmin is left behind. In particular it is
      when DefaultAdmin comes last. */
  lemma TransferCompleteExactly(chain: Chain, contract: Address, deployer: Address,
                                early: seq<Migration>, admin: Address, late: seq<Migration>)
    requires chain.Has(contract, DefaultAdmin, deployer) && admin != deployer
    requires var roles := early + [Migration(DefaultAdmin, admin)] + late;
             PlainlyAdministered(chain, contract, roles) && NoneKept(roles, deployer)
    requires forall m | m in early :: m.role != DefaultAdmin
    ensures var moved := early + [Migration(DefaultAdmin, admin)];
            var after := MigrateAll(chain, contract, deployer, moved + late);
            (forall m | m in moved + late :: Settled(after, contract, deployer, m)) <==>
            (forall m | m in late :: !LeftBehind(chain, contract, deployer, moved, m))
  {
    var moved := early + [Migration(DefaultAdmin, admin)];
    var after := MigrateAll(chain, contract, deployer, moved + late);
    forall m | m in moved + late
      ensures m in moved ==> Settled(after, contract, deployer, m)
      ensures m in late ==> (Settled(after, contract, deployer, m) <==>
              !LeftBehind(chain, contract, deployer, moved, m))
    {
      TransferOutcome(chain, contract, deployer, early, admin, late, m.role, m.target);
      assert Migration(m.role, m.target) == m;
    }
    assert forall m | m in moved + late :: m in moved || m in late;
    assert forall m | m in late :: m in moved + late;
  }
}
