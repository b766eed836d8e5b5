/** The admin hand-over helper on its own, whoever calls it. */
module AdminHandover {
  import opened Wrappers
  import opened AccessControl
  import opened Script
  import opened RoleSafety
  import opened Runs

  function AdminOf(h: Handover): Membership {
    Member(h.contract, DefaultAdmin, h.revoke)
  }

  /** Only the admin to revoke is tracked, its heir is the admin to keep; anything may fail. */
  function HandoverRules(p: Parties, safe: Address, h: Handover): Rules {
    Rules(p, safe, map[AdminOf(h) := h.keep], true)
  }

  /** No lockout, for any caller, any Safe and any two different admins: over any pattern of
      failing reads, failing calls, lost replies, restarts and batch executions the admin to
      revoke loses DefaultAdmin only in a state in which the admin to keep holds it. */
  lemma NeverLocksOut(p: Parties, safe: Address, h: Handover, run: seq<System>, events: seq<Event>, i: nat)
    requires h.keep != h.revoke && Behaviour(HandoverRules(p, safe, h), {HandoverPlan(h)}, run, events) && i + 1 < |run|
    requires AdminOf(h) in run[i].script.chain.members && AdminOf(h) !in run[i + 1].script.chain.members
    ensures run[i + 1].script.chain.Has(h.contract, DefaultAdmin, h.keep)
    ensures !events[i].SafeExecutes? ==> run[i].script.chain.Has(h.contract, DefaultAdmin, h.keep)
  {
    RemovalMeetsHeir(HandoverRules(p, safe, h), {HandoverPlan(h)}, run, events, i, AdminOf(h));
  }

  /** And the admin to keep never loses it. */
  lemma KeptAdminStays(p: Parties, safe: Address, h: Handover, run: seq<System>, events: seq<Event>, i: nat, j: nat)
    requires h.keep != h.revoke && Behaviour(HandoverRules(p, safe, h), {HandoverPlan(h)}, run, events)
    requires i <= j < |run|
    requires run[i].script.chain.Has(h.contract, DefaultAdmin, h.keep)
    ensures run[j].script.chain.Has(h.contract, DefaultAdmin, h.keep)
  {
    var r := HandoverRules(p, safe, h);
    RoleCover(r, {HandoverPlan(h)}, run, events, i, j);
    assert AdminOf(h) in r.heirs && HeirHolds(r, run[i].script.chain, AdminOf(h));
  }

  /** The same inside a batch, however stale or often repeated: in every state it passes
      through one of the two is admin if one was at the start, and when the Safe reaches a
      removal of the admin to revoke, the admin to keep is in place. */
  lemma NeverLocksOutMidBatch(p: Parties, safe: Address, h: Handover, run: seq<System>, events: seq<Event>, i: nat,
                              batch: seq<Call>, n: nat)
    requires h.keep != h.revoke && Behaviour(HandoverRules(p, safe, h), {HandoverPlan(h)}, run, events) && i < |run|
    requires batch in run[i].batches && n <= |batch|
    requires ExecuteBatch(run[i].script.chain, safe, batch[..n]).Some?
    ensures var mid := ExecuteBatch(run[i].script.chain, safe, batch[..n]).value;
            && (n < |batch| && Removal(batch[n]) == Some(AdminOf(h)) ==> mid.Has(h.contract, DefaultAdmin, h.keep))
            && (AdminOf(h) in run[0].script.chain.members ||
                run[0].script.chain.Has(h.contract, DefaultAdmin, h.keep) ==>
                  AdminOf(h) in mid.members || mid.Has(h.contract, DefaultAdmin, h.keep))
  {
    var r := HandoverRules(p, safe, h);
    MidBatchCover(r, {HandoverPlan(h)}, run, events, i, batch, n);
    assert AdminOf(h) in r.heirs;
    assert HeirHolds(r, run[0].script.chain, AdminOf(h)) ==> Covered(r, run[0].script.chain, AdminOf(h));
  }

  /** Such batches do occur: when the first read and the call fail, the helper's silent push
      reaches the Safe, whose execution makes the admin to keep admin. */
  lemma PushReachesSafe(p: Parties, safe: Address, h: Handover, chain: Chain)
    returns (run: seq<System>, events: seq<Event>)
    requires p.useSafe && chain.Has(h.contract, chain.RoleAdmin(h.contract, DefaultAdmin), safe)
    ensures Behaviour(HandoverRules(p, safe, h), {HandoverPlan(h)}, run, events)
    ensures |events| == 5 && run[0].script.chain == chain && events[4] == SafeExecutes([GrantOf(h)])
    ensures run[4].script.chain == chain && run[5].script.chain == Effect(chain, GrantOf(h))
  {
    var r := HandoverRules(p, safe, h);
    var start := System(State(chain, [], true, false, [], []), {});
    events := [Restart(HandoverPlan(h), [Fails, Fails]), ScriptStep, ScriptStep, Flush, SafeExecutes([GrantOf(h)])];
    var begun := Next(r, start, events[0]);
    var tried := Next(r, begun, ScriptStep);
    var pushed := Next(r, tried, ScriptStep);
    var flushed := Next(r, pushed, Flush);
    assert pushed.script.queue == [GrantOf(h)];
    run := [start, begun, tried, pushed, flushed, Next(r, flushed, events[4])];
    assert ExecuteBatch(chain, safe, [GrantOf(h)]) == Some(Effect(chain, GrantOf(h)));
  }

  // ---------- handing over to oneself ----------

  /** Nothing in the hand-over helper guards against handing over to oneself: without
      failures, a signer that gives up DefaultAdmin leaves the keeper admin exactly
      when the keeper is somebody else. */
  lemma HandoverKeepsAdminExactly(p: Parties, chain: Chain, h: Handover)
    requires h.revoke == p.signer && chain.Has(h.contract, DefaultAdmin, p.signer)
    requires chain.RoleAdmin(h.contract, DefaultAdmin) == DefaultAdmin
    ensures var after := Run(p, Fresh(chain, HandoverPlan(h), [])).chain;
            && !after.Has(h.contract, DefaultAdmin, h.revoke)
            && (after.Has(h.contract, DefaultAdmin, h.keep) <==> h.keep != h.revoke)
  {
    KeeperGranted(p, chain, h);
    var kept := if Done(chain, GrantOf(h)) then chain else Effect(chain, GrantOf(h));
    SignerRenounces(p, Fresh(kept, [ConfirmAdmin(h)], []), h);
  }

  lemma KeeperGranted(p: Parties, chain: Chain, h: Handover)
    requires chain.Has(h.contract, DefaultAdmin, p.signer) && chain.RoleAdmin(h.contract, DefaultAdmin) == DefaultAdmin
    ensures var kept := if Done(chain, GrantOf(h)) then chain else Effect(chain, GrantOf(h));
            Run(p, Fresh(chain, HandoverPlan(h), [])) == Run(p, Fresh(kept, [ConfirmAdmin(h)], []))
  {
  }

  lemma SignerRenounces(p: Parties, s: State, h: Handover)
    requires s.todo == [ConfirmAdmin(h)] && s.faults == [] && h.revoke == p.signer
    requires Done(s.chain, GrantOf(h)) && !Done(s.chain, RevokeOf(h))
    ensures Run(p, s).chain == Effect(s.chain, RenounceRole(h.contract, DefaultAdmin, p.signer))
  {
    assert [ConfirmAdmin(h)] + [] == s.todo;
    RunHead(p, s, ConfirmAdmin(h), []);
    RunHead(p, s.(todo := [CheckOld(h)] + []), CheckOld(h), []);
    RunHead(p, s.(todo := [DropOld(h)] + []), DropOld(h), []);
  }
}
