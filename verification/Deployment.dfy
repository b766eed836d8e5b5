/** The scripts as they run: an executor that tries calls and queues them, the
    admin hand-over helper and the three upgrade scripts, each proved to carry
    out exactly its plan. */
module Deployment {
  import opened Wrappers
  import opened AccessControl
  import opened Script
  import opened Runs
  import opened Plans

  /** The network as the scripts reach it: each request may fail as `faults` says. */
  class Network {
    var chain: Chain
    var faults: seq<Fault>

    constructor (chain: Chain, faults: seq<Fault>)
      ensures this.chain == chain && this.faults == faults
    {
      this.chain := chain;
      this.faults := faults;
    }

    method HasRole(contract: Address, role: Role, account: Address) returns (r: Result<bool>)
      modifies this`faults
      ensures faults == LaterFaults(old(faults))
      ensures r == if NextFault(old(faults)) == Works then Success(chain.Has(contract, role, account)) else Failure
    {
      r := if NextFault(faults) == Works then Success(chain.Has(contract, role, account)) else Failure;
      faults := LaterFaults(faults);
    }

    method GetRoleAdmin(contract: Address, role: Role) returns (r: Result<Role>)
      modifies this`faults
      ensures faults == LaterFaults(old(faults))
      ensures r == if NextFault(old(faults)) == Works then Success(chain.RoleAdmin(contract, role)) else Failure
    {
      r := if NextFault(faults) == Works then Success(chain.RoleAdmin(contract, role)) else Failure;
      faults := LaterFaults(faults);
    }

    method AssetMintingPaused(issuer: Address, asset: Address) returns (r: Result<bool>)
      modifies this`faults
      ensures faults == LaterFaults(old(faults))
      ensures r == if NextFault(old(faults)) == Works then Success(chain.IsPaused(issuer, asset)) else Failure
    {
      r := if NextFault(faults) == Works then Success(chain.IsPaused(issuer, asset)) else Failure;
      faults := LaterFaults(faults);
    }

    method IsCollateralSupported(vault: Address, asset: Address) returns (r: Result<bool>)
      modifies this`faults
      ensures faults == LaterFaults(old(faults))
      ensures r == if NextFault(old(faults)) == Works then Success((vault, asset) in chain.collateral) else Failure
    {
      r := if NextFault(faults) == Works then Success((vault, asset) in chain.collateral) else Failure;
      faults := LaterFaults(faults);
    }

    method Send(p: Parties, call: Call) returns (r: Result<()>)
      modifies this
      ensures faults == LaterFaults(old(faults))
      ensures chain == ChainAfter(p, old(chain), call, NextFault(old(faults)))
      ensures r.Success? <==> Succeeds(p, old(chain), call, NextFault(old(faults)))
      ensures var able := Execute(old(chain), p.signer, call).Some?;
              && chain == (if able && NextFault(old(faults)) != Fails then Effect(old(chain), call) else old(chain))
              && (r.Success? <==> able && NextFault(old(faults)) == Works)
    {
      var fault := NextFault(faults);
      faults := LaterFaults(faults);
      var result := Execute(chain, p.signer, call);
      if fault != Fails && result.Some? {
        chain := result.value;
      }
      r := if fault == Works && result.Some? then Success(()) else Failure;
    }
  }

  /** Executes calls directly or queues them as Safe transactions. */
  class GovernanceExecutor {
    const network: Network
    const p: Parties
    var transactions: seq<Call>
    var batches: seq<seq<Call>> // what was handed to the Safe

    constructor (network: Network, p: Parties)
      ensures this.network == network && this.p == p && transactions == [] && batches == []
    {
      this.network := network;
      this.p := p;
      transactions := [];
      batches := [];
    }

    /** The script state seen from here, with `todo` still to do. */
    ghost function View(todo: seq<Instr>, complete: bool): State
      reads this, network
    {
      State(network.chain, transactions, complete, false, todo, network.faults)
    }

    method TryOrQueue(call: Call) returns (complete: bool)
      modifies this`transactions, network
      ensures var fault := NextFault(old(network.faults));
              && network.chain == ChainAfter(p, old(network.chain), call, fault)
              && complete == Succeeds(p, old(network.chain), call, fault)
              && transactions == (if !complete && p.useSafe then old(transactions) + [call] else old(transactions))
              && network.faults == LaterFaults(old(network.faults))
    {
      var sent := network.Send(p, call);
      if sent.Success? {
        return true;
      }
      if p.useSafe {
        transactions := transactions + [call];
      }
      return false;
    }

    method Flush()
      modifies this`batches
      ensures batches == if p.useSafe && transactions != [] then old(batches) + [transactions] else old(batches)
    {
      if !p.useSafe || transactions == [] {
        return;
      }
      batches := batches + [transactions];
    }
  }

  /** `r` and the executor are what running the script state `s` to its end leaves. */
  ghost predicate Outcome(x: GovernanceExecutor, s: State, r: Result<bool>)
    reads x, x.network
  {
    && s.todo == [] && x.network.chain == s.chain && x.transactions == s.queue && x.network.faults == s.faults
    && (r.Failure? <==> s.threw)
    && (r.Success? ==> r.value == s.complete)
  }

  // ---------- utils/hardhat/access_control.ts ----------

  /** Runs exactly the instructions `plan`, none of which clears the completion flag. */
  twostate predicate CarriesOut(x: GovernanceExecutor, plan: seq<Instr>)
    reads x, x.network
  {
    Outcome(x, Run(x.p, old(x.View(plan, true))), Success(true))
  }

  method EnsureDefaultAdminExistsAndRevokeFrom(x: GovernanceExecutor, contract: Address, adminToKeep: Address,
                                               adminToRevoke: Address)
    modifies x`transactions, x.network
    ensures CarriesOut(x, HandoverPlan(Handover(contract, adminToKeep, adminToRevoke)))
    ensures var chain, first := old(x.network.chain), old(x.network.faults);
            var second, third := LaterFaults(first), LaterFaults(LaterFaults(first));
            var fourth := LaterFaults(third);
            var grant, revoke := GrantRole(contract, DefaultAdmin, adminToKeep),
                                 RevokeRole(contract, DefaultAdmin, adminToRevoke);
            var removal := if x.p.signer == adminToRevoke then RenounceRole(contract, DefaultAdmin, adminToRevoke)
                           else revoke;
            var granted, removed := ChainAfter(x.p, chain, grant, NextFault(second)),
                                    ChainAfter(x.p, chain, removal, NextFault(fourth));
            // a grant that reports an error is sent again, and queued when it fails again
            && (NextFault(first) == Works && !chain.Has(contract, DefaultAdmin, adminToKeep)
                && !Succeeds(x.p, chain, grant, NextFault(second))
                && !Succeeds(x.p, granted, grant, NextFault(third)) && x.p.useSafe ==>
                  old(x.transactions) + [grant] <= x.transactions)
            && (NextFault(first) == Works && !chain.Has(contract, DefaultAdmin, adminToKeep)
                && !Succeeds(x.p, chain, grant, NextFault(second))
                && !ChainAfter(x.p, granted, grant, NextFault(third)).Has(contract, DefaultAdmin, adminToKeep) ==>
                  x.network.chain == ChainAfter(x.p, granted, grant, NextFault(third)))
            // a removal that reports an error is followed by a revocation, queued when it fails too
            && (NextFault(first) == NextFault(second) == NextFault(third) == Works
                && chain.Has(contract, DefaultAdmin, adminToKeep) &&
                    chain.Has(contract, DefaultAdmin, adminToRevoke) ==>
                  if Succeeds(x.p, chain, removal, NextFault(fourth)) then
                    x.network.chain == removed && x.transactions == old(x.transactions)
                  else
                    var retry := NextFault(LaterFaults(fourth));
                    && x.network.chain == ChainAfter(x.p, removed, revoke, retry)
                    && x.transactions == old(x.transactions)
                       + (if Succeeds(x.p, removed, revoke, retry) || !x.p.useSafe then [] else [revoke]))
  {
    var h := Handover(contract, adminToKeep, adminToRevoke);
    ghost var start := x.View(HandoverPlan(h), true);
    assert HandoverPlan(h) == [KeepAdmin(h)] + [ConfirmAdmin(h)];
    RunThen(x.p, start, [KeepAdmin(h)], [ConfirmAdmin(h)]);
    EnsureKept(x, h);
    RemoveOld(x, h);
  }

  /** Phase 1: ensure the new admin; on any failure queue the grant. */
  method EnsureKept(x: GovernanceExecutor, h: Handover)
    modifies x`transactions, x.network
    ensures CarriesOut(x, [KeepAdmin(h)])
    ensures var chain, queue, faults := old(x.network.chain), old(x.transactions), old(x.network.faults);
            var grant := GrantRole(h.contract, DefaultAdmin, h.keep);
            var read, later := NextFault(faults) == Works, LaterFaults(faults);
            var sent := ChainAfter(x.p, chain, grant, NextFault(later));
            if read && chain.Has(h.contract, DefaultAdmin, h.keep) then
              x.network.chain == chain && x.transactions == queue && x.network.faults == later
            else if read && Succeeds(x.p, chain, grant, NextFault(later)) then
              x.network.chain == sent && x.transactions == queue && x.network.faults == LaterFaults(later)
            else
              var found, retry := if read then sent else chain, if read then LaterFaults(later) else later;
              && x.network.chain == ChainAfter(x.p, found, grant, NextFault(retry))
              && x.transactions == queue
                 + (if Succeeds(x.p, found, grant, NextFault(retry)) || !x.p.useSafe then [] else [grant])
              && x.network.faults == LaterFaults(retry)
  {
    assert [KeepAdmin(h)] == [KeepAdmin(h)] + [];
    RunHead(x.p, x.View([KeepAdmin(h)], true), KeepAdmin(h), []);
    var hasAdmin := x.network.HasRole(h.contract, DefaultAdmin, h.keep);
    if hasAdmin.Success? {
      if hasAdmin.value {
        return;
      }
      RunHead(x.p, x.View([GrantAdmin(h)] + [], true), GrantAdmin(h), []);
      var granted := x.network.Send(x.p, GrantOf(h));
      if granted.Success? {
        return;
      }
    }
    QueueSilently(x, GrantOf(h));
  }

  /** The helper ignores what tryOrQueue reports. */
  method QueueSilently(x: GovernanceExecutor, call: Call)
    modifies x`transactions, x.network
    ensures CarriesOut(x, [Attempt(call, false)] + [])
    ensures var chain, fault := old(x.network.chain), NextFault(old(x.network.faults));
            && x.network.chain == ChainAfter(x.p, chain, call, fault)
            && x.transactions == old(x.transactions)
               + (if Succeeds(x.p, chain, call, fault) || !x.p.useSafe then [] else [call])
            && x.network.faults == LaterFaults(old(x.network.faults))
  {
    RunHead(x.p, x.View([Attempt(call, false)] + [], true), Attempt(call, false), []);
    var _ := x.TryOrQueue(call);
  }

  /** Phases 2 and 3: confirm the new admin before removing the old one, which renounces when it is the caller. */
  method RemoveOld(x: GovernanceExecutor, h: Handover)
    modifies x`transactions, x.network
    ensures CarriesOut(x, [ConfirmAdmin(h)])
    ensures var chain, queue, faults := old(x.network.chain), old(x.transactions), old(x.network.faults);
            var later := LaterFaults(faults);
            if NextFault(faults) != Works || !chain.Has(h.contract, DefaultAdmin, h.keep) then
              x.network.chain == chain && x.transactions == queue && x.network.faults == later
            else if NextFault(later) != Works || !chain.Has(h.contract, DefaultAdmin, h.revoke) then
              x.network.chain == chain && x.transactions == queue && x.network.faults == LaterFaults(later)
            else
              var revoke, sent := RevokeRole(h.contract, DefaultAdmin, h.revoke), LaterFaults(later);
              var removal := if x.p.signer ==
                  h.revoke then RenounceRole(h.contract, DefaultAdmin, h.revoke) else revoke;
              var removed, retry := ChainAfter(x.p, chain, removal, NextFault(sent)), LaterFaults(sent);
              if Succeeds(x.p, chain, removal, NextFault(sent)) then
                x.network.chain == removed && x.transactions == queue && x.network.faults == retry
              else
                && x.network.chain == ChainAfter(x.p, removed, revoke, NextFault(retry))
                && x.transactions == queue
                   + (if Succeeds(x.p, removed, revoke, NextFault(retry)) || !x.p.useSafe then [] else [revoke])
                && x.network.faults == LaterFaults(retry)
  {
    assert [ConfirmAdmin(h)] == [ConfirmAdmin(h)] + [];
    RunHead(x.p, x.View([ConfirmAdmin(h)], true), ConfirmAdmin(h), []);
    var keepHasAdmin := x.network.HasRole(h.contract, DefaultAdmin, h.keep);
    if keepHasAdmin.Failure? || !keepHasAdmin.value {
      return;
    }
    RunHead(x.p, x.View([CheckOld(h)] + [], true), CheckOld(h), []);
    var revokeNeeded := x.network.HasRole(h.contract, DefaultAdmin, h.revoke);
    if revokeNeeded.Failure? || !revokeNeeded.value {
      return;
    }
    Drop(x, h);
  }

  method Drop(x: GovernanceExecutor, h: Handover)
    modifies x`transactions, x.network
    ensures CarriesOut(x, [DropOld(h)] + [])
    ensures var chain, queue, faults := old(x.network.chain), old(x.transactions), old(x.network.faults);
            var revoke := RevokeRole(h.contract, DefaultAdmin, h.revoke);
            var removal := if x.p.signer == h.revoke then RenounceRole(h.contract, DefaultAdmin, h.revoke) else revoke;
            var removed, retry := ChainAfter(x.p, chain, removal, NextFault(faults)), LaterFaults(faults);
            if Succeeds(x.p, chain, removal, NextFault(faults)) then
              x.network.chain == removed && x.transactions == queue && x.network.faults == retry
            else
              && x.network.chain == ChainAfter(x.p, removed, revoke, NextFault(retry))
              && x.transactions == queue
                 + (if Succeeds(x.p, removed, revoke, NextFault(retry)) || !x.p.useSafe then [] else [revoke])
              && x.network.faults == LaterFaults(retry)
  {
    RunHead(x.p, x.View([DropOld(h)] + [], true), DropOld(h), []);
    var removed;
    if x.p.signer == h.revoke {
      removed := x.network.Send(x.p, RenounceRole(h.contract, DefaultAdmin, h.revoke));
    } else {
      removed := x.network.Send(x.p, RevokeOf(h));
    }
    if removed.Failure? {
      QueueSilently(x, RevokeOf(h));
    }
  }

  // ---------- the pieces the upgrade scripts share ----------

  /** Reads the requirement that `call` establishes. */
  method Read(x: GovernanceExecutor, call: Call) returns (r: Result<bool>)
    requires !call.RenounceRole?
    modifies x.network`faults
    ensures x.network.faults == LaterFaults(old(x.network.faults))
    ensures r == if NextFault(old(x.network.faults)) == Works then Success(Done(x.network.chain, call)) else Failure
  {
    match call
    case GrantRole(to, role, account) => r := x.network.HasRole(to, role, account);
    case RevokeRole(to, role, account) =>
      var has :- x.network.HasRole(to, role, account);
      r := Success(!has);
    case PauseAsset(to, asset) => r := x.network.AssetMintingPaused(to, asset);
    case AllowCollateral(to, asset) => r := x.network.IsCollateralSupported(to, asset);
  }

  /** A requirement outside any try block: read it and, if it is missing, try or queue the call. */
  method Require(x: GovernanceExecutor, call: Call) returns (r: Result<bool>)
    requires !call.RenounceRole?
    modifies x`transactions, x.network
    ensures Outcome(x, Run(x.p, old(x.View([Ensure(call, true, Propagate)], true))), r)
    ensures var chain, queue, faults := old(x.network.chain), old(x.transactions), old(x.network.faults);
            var later := LaterFaults(faults);
            if NextFault(faults) != Works || Done(chain, call) then
              && x.network.chain == chain && x.transactions == queue && x.network.faults == later
              && r == (if NextFault(faults) == Works then Success(true) else Failure)
            else
              var sent := Succeeds(x.p, chain, call, NextFault(later));
              && x.network.chain == ChainAfter(x.p, chain, call, NextFault(later))
              && x.transactions == queue + (if sent || !x.p.useSafe then [] else [call])
              && x.network.faults == LaterFaults(later)
              && r == Success(sent)
  {
    assert [Ensure(call, true, Propagate)] == [Ensure(call, true, Propagate)] + [];
    RunHead(x.p, x.View([Ensure(call, true, Propagate)], true), Ensure(call, true, Propagate), []);
    var done :- Read(x, call);
    if done {
      return Success(true);
    }
    RunHead(x.p, x.View([Attempt(call, true)] + [], true), Attempt(call, true), []);
    var complete := x.TryOrQueue(call);
    return Success(complete);
  }

  lemma EnsureAllNext(calls: seq<Call>, i: nat)
    requires i < |calls|
    ensures EnsureAll(calls[i..]) == [Ensure(calls[i], true, Propagate)] + EnsureAll(calls[i + 1..])
  {
  }

  /** The role loops: every requirement in order, remembering whether all are complete. */
  method RequireAll(x: GovernanceExecutor, calls: seq<Call>) returns (r: Result<bool>)
    requires forall k | k in calls :: k.GrantRole? || k.RevokeRole?
    modifies x`transactions, x.network
    ensures Outcome(x, Run(x.p, old(x.View(EnsureAll(calls), true))), r)
  {
    var allComplete := true;
    ghost var goal := Run(x.p, x.View(EnsureAll(calls), true));
    assert calls[0..] == calls;
    for i := 0 to |calls|
      invariant Run(x.p, x.View(EnsureAll(calls[i..]), allComplete)) == goal
    {
      var first := [Ensure(calls[i], true, Propagate)];
      EnsureAllNext(calls, i);
      RunThen(x.p, x.View(EnsureAll(calls[i..]), allComplete), first, EnsureAll(calls[i + 1..]));
      var complete :- Require(x, calls[i]);
      allComplete := allComplete && complete;
    }
    return Success(allComplete);
  }

  /** migrateIssuerRolesIdempotent, migrateAmoManagerRoles, migrateAmoDebtTokenAdmin and
      migrateRedeemerRolesIdempotent: they differ in the contract and its operational roles. */
  method MigrateRoles(x: GovernanceExecutor, contract: Address, operational: seq<Role>, deployer: Address,
                      governance: Address)
    returns (r: Result<bool>)
    modifies x`transactions, x.network
    ensures Outcome(x, Run(x.p, old(x.View(RolesPlan(contract, operational, deployer, governance), true))), r)
  {
    var grants := GrantCalls(contract, [DefaultAdmin] + operational, governance);
    var revokes := RevokeCalls(contract, operational, deployer);
    ghost var handover := HandoverPlan(Handover(contract, governance, deployer));
    ghost var rest := EnsureAll(revokes) + handover;
    assert RolesPlan(contract, operational, deployer, governance) == EnsureAll(grants) + rest;
    Sequence(x.p, x.View(EnsureAll(grants) + rest, true), EnsureAll(grants), rest);
    var granted :- RequireAll(x, grants);
    Sequence(x.p, x.View(rest, true), EnsureAll(revokes), handover);
    var revoked :- RequireAll(x, revokes);
    EnsureDefaultAdminExistsAndRevokeFrom(x, contract, governance, deployer);
    return Success(granted && revoked);
  }

  // ---------- deploy/23_dusd_upgrade_v2_2/02_setup_issuer_v2_2.ts ----------

  method MirrorLegacyAssetPauses(x: GovernanceExecutor, legacy: Address, issuer: Address, collaterals: seq<Address>)
    returns (r: Result<bool>)
    modifies x`transactions, x.network
    ensures Outcome(x, Run(x.p, old(x.View(Mirrors(legacy, issuer, collaterals), true))), r)
  {
    var allComplete := true;
    ghost var goal := Run(x.p, x.View(Mirrors(legacy, issuer, collaterals), true));
    assert collaterals[0..] == collaterals;
    for i := 0 to |collaterals|
      invariant Run(x.p, x.View(Mirrors(legacy, issuer, collaterals[i..]), allComplete)) == goal
    {
      var first := [MirrorPause(legacy, issuer, collaterals[i])];
      ghost var rest := Mirrors(legacy, issuer, collaterals[i + 1..]);
      assert Mirrors(legacy, issuer, collaterals[i..]) == first + rest;
      RunThen(x.p, x.View(first + rest, allComplete), first, rest);
      var complete :- MirrorPauseOf(x, legacy, issuer, collaterals[i]);
      allComplete := allComplete && complete;
    }
    return Success(allComplete);
  }

  method MirrorPauseOf(x: GovernanceExecutor, legacy: Address, issuer: Address, asset: Address)
    returns (r: Result<bool>)
    modifies x`transactions, x.network
    ensures Outcome(x, Run(x.p, old(x.View([MirrorPause(legacy, issuer, asset)], true))), r)
    ensures var chain, faults := old(x.network.chain), old(x.network.faults);
            var second, third := LaterFaults(faults), LaterFaults(LaterFaults(faults));
            if NextFault(faults) != Works || !chain.IsPaused(legacy, asset) then
              && x.network.chain == chain && x.transactions == old(x.transactions) && x.network.faults == second
              && r == (if NextFault(faults) == Works then Success(true) else Failure)
            else if NextFault(second) != Works || chain.IsPaused(issuer, asset) then
              && x.network.chain == chain && x.transactions == old(x.transactions) && x.network.faults == third
              && r == (if NextFault(second) == Works then Success(true) else Failure)
            else
              var pause := PauseAsset(issuer, asset);
              var sent := Succeeds(x.p, chain, pause, NextFault(third));
              && x.network.chain == ChainAfter(x.p, chain, pause, NextFault(third))
              && x.transactions == old(x.transactions) + (if sent || !x.p.useSafe then [] else [pause])
              && x.network.faults == LaterFaults(third) && r == Success(sent)
  {
    var pause := PauseAsset(issuer, asset);
    assert [MirrorPause(legacy, issuer, asset)] == [MirrorPause(legacy, issuer, asset)] + [];
    RunHead(x.p, x.View([MirrorPause(legacy, issuer, asset)], true), MirrorPause(legacy, issuer, asset), []);
    var legacyPaused :- x.network.AssetMintingPaused(legacy, asset);
    if !legacyPaused {
      return Success(true);
    }
    assert [Ensure(pause, true, Propagate)] + [] == [Ensure(pause, true, Propagate)];
    r := Require(x, pause);
  }

  /** A requirement inside a try block whose catch marks the script as pending. */
  method RequireOrPending(x: GovernanceExecutor, call: Call) returns (complete: bool)
    requires !call.RenounceRole?
    modifies x`transactions, x.network
    ensures Outcome(x, Run(x.p, old(x.View([Ensure(call, true, MarkPending)], true))), Success(complete))
    ensures var chain, queue, faults := old(x.network.chain), old(x.transactions), old(x.network.faults);
            var later := LaterFaults(faults);
            if NextFault(faults) != Works || Done(chain, call) then
              && x.network.chain == chain && x.transactions == queue && x.network.faults == later
              && complete == (NextFault(faults) == Works)
            else
              var sent := Succeeds(x.p, chain, call, NextFault(later));
              && x.network.chain == ChainAfter(x.p, chain, call, NextFault(later))
              && x.transactions == queue + (if sent || !x.p.useSafe then [] else [call])
              && x.network.faults == LaterFaults(later)
              && complete == sent
  {
    RunEnsure(x.p, x.View([], true), call, true, MarkPending);
    var done := Require(x, call);
    return done.Success? && done.value;
  }

  /** Moves MINTER_ROLE from the legacy issuer to the new one, mirroring pauses in between. */
  method MoveMinter(x: GovernanceExecutor, c: Upgrade) returns (r: Result<bool>)
    modifies x`transactions, x.network
    ensures Outcome(x, Run(x.p, old(x.View(MinterPlan(c), true))), r)
  {
    var grant := GrantRole(c.token, Minter, c.issuer);
    ghost var first := [Ensure(grant, true, Propagate)];
    if c.legacyIssuer.None? || c.legacyIssuer.value == c.issuer {
      assert MinterPlan(c) == first;
      r := Require(x, grant);
      return;
    }
    var legacy := c.legacyIssuer.value;
    var revoke := RevokeRole(c.token, Minter, legacy);
    ghost var mirrors := Mirrors(legacy, c.issuer, c.collaterals);
    ghost var last := [Ensure(revoke, true, MarkPending)];
    assert MinterPlan(c) == first + (mirrors + last);
    Sequence(x.p, x.View(MinterPlan(c), true), first, mirrors + last);
    var minterComplete :- Require(x, grant);
    Sequence(x.p, x.View(mirrors + last, true), mirrors, last);
    var mirrorComplete :- MirrorLegacyAssetPauses(x, legacy, c.issuer, c.collaterals);
    var revoked := RequireOrPending(x, revoke);
    return Success(minterComplete && mirrorComplete && revoked);
  }

  method ConfigureManager(x: GovernanceExecutor, c: Upgrade, manager: Address) returns (r: Result<bool>)
    modifies x`transactions, x.network
    ensures Outcome(x, Run(x.p, old(x.View(ManagerPlan(c, manager), true))), r)
  {
    var wiring := [GrantRole(c.vault, CollateralWithdrawer, manager), GrantRole(c.token, Minter, manager)];
    ghost var roles := RolesPlan(manager, MANAGER_OPERATIONAL, c.deployer, c.governance);
    ghost var last := match Legacy(c.legacyManager, manager)
      case None => []
      case Some(legacy) => [Ensure(RevokeRole(c.vault, CollateralWithdrawer, legacy), true, MarkPending)];
    assert ManagerPlan(c, manager) == EnsureAll(wiring) + (roles + last);
    Sequence(x.p, x.View(ManagerPlan(c, manager), true), EnsureAll(wiring), roles + last);
    var wired :- RequireAll(x, wiring);
    Sequence(x.p, x.View(roles + last, true), roles, last);
    var migrated :- MigrateRoles(x, manager, MANAGER_OPERATIONAL, c.deployer, c.governance);
    var legacyRevoked := true;
    if c.legacyManager.Some? && c.legacyManager.value != manager {
      legacyRevoked := RequireOrPending(x, RevokeRole(c.vault, CollateralWithdrawer, c.legacyManager.value));
    }
    return Success(wired && migrated && legacyRevoked);
  }

  method ConfigureDebtToken(x: GovernanceExecutor, c: Upgrade, debtToken: Address) returns (r: Result<bool>)
    modifies x`transactions, x.network
    ensures Outcome(x, Run(x.p, old(x.View(DebtTokenPlan(c, debtToken), true))), r)
  {
    var allow := AllowCollateral(c.vault, debtToken);
    ghost var roles := RolesPlan(debtToken, [], c.deployer, c.governance);
    Sequence(x.p, x.View(DebtTokenPlan(c, debtToken), true), [Ensure(allow, true, Propagate)], roles);
    var collateralComplete :- Require(x, allow);
    var adminComplete :- MigrateRoles(x, debtToken, [], c.deployer, c.governance);
    return Success(collateralComplete && adminComplete);
  }

  /** The part of the script that depends on optional deployments. */
  method ConfigureOptional(x: GovernanceExecutor, c: Upgrade) returns (r: Result<bool>)
    modifies x`transactions, x.network
    ensures Outcome(x, Run(x.p, old(x.View(OptionalManager(c) + OptionalDebtToken(c), true))), r)
  {
    var managerComplete, debtComplete := true, true;
    Sequence(x.p, x.View(OptionalManager(c) + OptionalDebtToken(c), true), OptionalManager(c), OptionalDebtToken(c));
    if c.manager.Some? {
      managerComplete :- ConfigureManager(x, c, c.manager.value);
    }
    if c.debtToken.Some? {
      debtComplete :- ConfigureDebtToken(x, c, c.debtToken.value);
    }
    return Success(managerComplete && debtComplete);
  }

  /** The whole script; without an issuer deployment it does nothing and reports completion. */
  method SetupIssuer(x: GovernanceExecutor, c: Upgrade, deployed: bool) returns (r: Result<bool>)
    modifies x, x.network
    ensures !deployed ==> r == Success(true) && unchanged(x) && unchanged(x.network)
    ensures deployed ==> Outcome(x, Run(x.p, old(x.View(UpgradePlan(c), true))), r)
    ensures r == Success(false) && x.p.useSafe && x.transactions != [] ==>
              x.batches == old(x.batches) + [x.transactions]
    ensures r != Success(false) || !x.p.useSafe || x.transactions == [] ==> x.batches == old(x.batches)
  {
    if !deployed {
      return Success(true);
    }
    ghost var roles := RolesPlan(c.issuer, ISSUER_OPERATIONAL, c.deployer, c.governance);
    ghost var optional := OptionalManager(c) + OptionalDebtToken(c);
    assert UpgradePlan(c) == MinterPlan(c) + (roles + optional);
    Sequence(x.p, x.View(UpgradePlan(c), true), MinterPlan(c), roles + optional);
    var minterComplete :- MoveMinter(x, c);
    Sequence(x.p, x.View(roles + optional, true), roles, optional);
    var rolesComplete :- MigrateRoles(x, c.issuer, ISSUER_OPERATIONAL, c.deployer, c.governance);
    var optionalComplete :- ConfigureOptional(x, c);
    if !(minterComplete && rolesComplete && optionalComplete) {
      x.Flush();
      return Success(false);
    }
    return Success(true);
  }

  // ---------- deploy/22_issue_redeem_v2/2_setup_redeemerv2.ts ----------

  /** One requirement of the vault section: an error abandons what is left of it. */
  method RequireInSection(x: GovernanceExecutor, call: Call, ghost rest: seq<Instr>, ghost flag: bool)
    returns (abandoned: bool, complete: bool)
    requires (call.GrantRole? || call.RevokeRole?) && LeaveSection(rest) == []
    modifies x`transactions, x.network
    ensures Run(x.p, old(x.View([Ensure(call, true, Abandon)] + rest, flag))) ==
            Run(x.p, x.View(if abandoned then [] else rest, flag && complete))
    ensures abandoned ==> complete
    ensures var chain, queue, faults := old(x.network.chain), old(x.transactions), old(x.network.faults);
            var later := LaterFaults(faults);
            if NextFault(faults) != Works || Done(chain, call) then
              && x.network.chain == chain && x.transactions == queue && x.network.faults == later
              && complete && (abandoned <==> NextFault(faults) != Works)
            else
              var sent := Succeeds(x.p, chain, call, NextFault(later));
              && x.network.chain == ChainAfter(x.p, chain, call, NextFault(later))
              && x.transactions == queue + (if sent || !x.p.useSafe then [] else [call])
              && x.network.faults == LaterFaults(later)
              && complete == sent && !abandoned
  {
    var ensure := Ensure(call, true, Abandon);
    RunHead(x.p, x.View([ensure] + rest, flag), ensure, rest);
    var done := Read(x, call);
    if done.Failure? {
      return true, true;
    }
    if done.value {
      return false, true;
    }
    RunHead(x.p, x.View([Attempt(call, true)] + rest, flag), Attempt(call, true), rest);
    complete := x.TryOrQueue(call);
    return false, complete;
  }

  /** Grants the withdrawer role to the new redeemer, then takes it from every legacy one. */
  method HandOverWithdrawer(x: GovernanceExecutor, c: Redemption) returns (vaultOpsComplete: bool)
    modifies x`transactions, x.network
    ensures Outcome(x, Run(x.p, old(x.View(WithdrawerPlan(c), true))), Success(vaultOpsComplete))
  {
    ghost var goal := Run(x.p, x.View(WithdrawerPlan(c), true));
    LegacySectionEnds(c.vault, c.redeemer, c.legacies);
    var abandoned;
    abandoned, vaultOpsComplete := RequireInSection(x, GrantRole(c.vault, CollateralWithdrawer, c.redeemer),
                                                    LegacyRevokes(c.vault, c.redeemer, c.legacies), true);
    if abandoned {
      return;
    }
    assert c.legacies[0..] == c.legacies;
    for i := 0 to |c.legacies|
      invariant Run(x.p, x.View(LegacyRevokes(c.vault, c.redeemer, c.legacies[i..]), vaultOpsComplete)) == goal
    {
      var complete;
      abandoned, complete := RevokeLegacy(x, c, i, LegacyRevokes(c.vault, c.redeemer, c.legacies[i..]),
                                          LegacyRevokes(c.vault, c.redeemer, c.legacies[i + 1..]), vaultOpsComplete);
      vaultOpsComplete := vaultOpsComplete && complete;
      if abandoned {
        return;
      }
    }
  }

  /** One legacy redeemer of the list, if it is deployed and not the new one. */
  method RevokeLegacy(x: GovernanceExecutor, c: Redemption, i: nat, ghost plan: seq<Instr>, ghost rest: seq<Instr>,
                      ghost flag: bool)
    returns (abandoned: bool, complete: bool)
    requires i < |c.legacies| && plan == LegacyRevokes(c.vault, c.redeemer, c.legacies[i..])
    requires rest == LegacyRevokes(c.vault, c.redeemer, c.legacies[i + 1..])
    modifies x`transactions, x.network
    ensures Run(x.p, old(x.View(plan, flag))) == Run(x.p, x.View(if abandoned then [] else rest, flag && complete))
    ensures abandoned ==> complete
  {
    assert c.legacies[i..][1..] == c.legacies[i + 1..] && [] + rest == rest;
    LegacySectionEnds(c.vault, c.redeemer, c.legacies[i + 1..]);
    if c.legacies[i].Some? && c.legacies[i].value != c.redeemer {
      abandoned, complete := RequireInSection(x, RevokeRole(c.vault, CollateralWithdrawer, c.legacies[i].value),
          rest, flag);
    } else {
      abandoned, complete := false, true;
    }
  }

  method SetupRedeemer(x: GovernanceExecutor, c: Redemption) returns (r: Result<bool>)
    modifies x, x.network
    ensures Outcome(x, Run(x.p, old(x.View(RedeemerPlan(c), true))), r)
    ensures r == Success(false) && x.p.useSafe && x.transactions != [] ==>
              x.batches == old(x.batches) + [x.transactions]
    ensures r != Success(false) || !x.p.useSafe || x.transactions == [] ==> x.batches == old(x.batches)
  {
    ghost var roles := RolesPlan(c.redeemer, REDEEMER_OPERATIONAL, c.deployer, c.governance);
    Sequence(x.p, x.View(RedeemerPlan(c), true), WithdrawerPlan(c), roles);
    var vaultOpsComplete := HandOverWithdrawer(x, c);
    var rolesComplete :- MigrateRoles(x, c.redeemer, REDEEMER_OPERATIONAL, c.deployer, c.governance);
    if !(vaultOpsComplete && rolesComplete) {
      x.Flush();
      return Success(false);
    }
    return Success(true);
  }

  // ---------- deploy/22_issue_redeem_v2/1_setup_issuerv2.ts ----------

  /** Revokes MINTER_ROLE from the old issuer; neither a failure nor an error is reported. */
  method RevokeOldMinter(x: GovernanceExecutor, c: Issuance)
    modifies x`transactions, x.network
    ensures Outcome(x, Run(x.p, old(x.View(OldMinterPlan(c), true))), Success(true))
    ensures var chain, queue, faults := old(x.network.chain), old(x.transactions), old(x.network.faults);
            var revoke, later := RevokeRole(c.token, Minter, c.oldIssuer), LaterFaults(faults);
            if c.oldIssuer == c.issuer || NextFault(faults) != Works || !chain.Has(c.token, Minter, c.oldIssuer) then
              && x.network.chain == chain && x.transactions == queue
              && x.network.faults == if c.oldIssuer == c.issuer then faults else later
            else
              && x.network.chain == ChainAfter(x.p, chain, revoke, NextFault(later))
              && x.transactions == queue
                 + (if Succeeds(x.p, chain, revoke, NextFault(later)) || !x.p.useSafe then [] else [revoke])
              && x.network.faults == LaterFaults(later)
  {
    if c.oldIssuer != c.issuer {
      var revoke := RevokeRole(c.token, Minter, c.oldIssuer);
      RunEnsure(x.p, x.View([], true), revoke, false, Abandon);
      var _ := Require(x, revoke);
    }
  }

  /** The whole script; without a deployment of the old issuer it does nothing and reports completion. */
  method SetupIssuerV2(x: GovernanceExecutor, c: Issuance, oldDeployed: bool) returns (r: Result<bool>)
    modifies x, x.network
    ensures !oldDeployed ==> r == Success(true) && unchanged(x) && unchanged(x.network)
    ensures oldDeployed ==> Outcome(x, Run(x.p, old(x.View(IssuancePlan(c), true))), r)
    ensures r == Success(false) && x.p.useSafe && x.transactions != [] ==>
              x.batches == old(x.batches) + [x.transactions]
    ensures r != Success(false) || !x.p.useSafe || x.transactions == [] ==> x.batches == old(x.batches)
  {
    if !oldDeployed {
      return Success(true);
    }
    var grant := GrantRole(c.token, Minter, c.issuer);
    ghost var first := [Ensure(grant, true, Propagate)];
    ghost var roles := RolesPlan(c.issuer, ISSUER_V2_OPERATIONAL, c.deployer, c.governance);
    assert IssuancePlan(c) == first + OldMinterPlan(c) + roles;
    Sequence(x.p, x.View(first + OldMinterPlan(c) + roles, true), first + OldMinterPlan(c), roles);
    var minterComplete :- MoveOldMinter(x, c);
    var rolesComplete :- MigrateRoles(x, c.issuer, ISSUER_V2_OPERATIONAL, c.deployer, c.governance);
    if !(minterComplete && rolesComplete) {
      x.Flush();
      return Success(false);
    }
    return Success(true);
  }

  method MoveOldMinter(x: GovernanceExecutor, c: Issuance) returns (r: Result<bool>)
    modifies x`transactions, x.network
    ensures Outcome(x, Run(x.p,
            old(x.View([Ensure(GrantRole(c.token, Minter, c.issuer), true, Propagate)] + OldMinterPlan(c), true))), r)
  {
    var grant := GrantRole(c.token, Minter, c.issuer);
    ghost var s := x.View([Ensure(grant, true, Propagate)] + OldMinterPlan(c), true);
    EnsureThenOld(x.p, s, grant, OldMinterPlan(c));
    var minterComplete :- Require(x, grant);
    RunAnd(x.p, x.View(OldMinterPlan(c), minterComplete));
    RevokeOldMinter(x, c);
    return Success(minterComplete);
  }
}
