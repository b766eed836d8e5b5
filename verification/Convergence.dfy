/** One run, one executed batch, one more run: the scripts reach their goal. */
module Convergence {
  import opened Wrappers
  import opened AccessControl
  import opened Script
  import opened RoleSafety
  import opened Completion

  /** The signer or the Safe holds the role. */
  predicate Staffed(r: Rules, chain: Chain, contract: Address, role: Role) {
    chain.Has(contract, role, r.p.signer) || chain.Has(contract, role, r.safe)
  }

  /** The only roles the calls of the universe take from the signer go to the
      Safe, and they take none from the Safe. */
  predicate SafeInherits(r: Rules, ops: set<Call>) {
    forall k | k in ops && Removal(k).Some? ::
      var m := Removal(k).value;
      && m.account != r.safe
      && (m.account == r.p.signer ==> m in r.heirs && r.heirs[m] == r.safe)
  }

  predicate AllStaffed(r: Rules, ops: set<Call>, chain: Chain) {
    forall k | k in ops :: Staffed(r, chain, k.to, RequiredRole(chain, k))
  }

  /** What the instruction is still to achieve the called contract permits: a pause on an
      asset the issuer's vault supports, collateral that the vault's oracle prices. */
  predicate Permitted(chain: Chain, i: Instr) {
    match i
    case MirrorPause(legacy, issuer, asset) =>
      chain.IsPaused(legacy, asset) && !chain.IsPaused(issuer, asset) ==> chain.Supports(issuer, asset)
    case Ensure(call, _, _) => Done(chain, call) || Admissible(chain, call)
    case Attempt(call, _) => Done(chain, call) || Admissible(chain, call)
    case _ => true
  }

  predicate Claims(i: Instr, k: Call) {
    Sends(i, k) && k.AllowCollateral?
  }

  predicate SameClaim(a: Instr, b: Instr) {
    (a.Ensure? || a.Attempt?) && Claims(b, a.call)
  }

  /** No two instructions, queued calls, or one of each, allow the same collateral. */
  predicate AllowsDistinct(todo: seq<Instr>, queue: seq<Call>) {
    && (forall i, j :: 0 <= i < j < |todo| ==> !SameClaim(todo[j], todo[i]))
    && (forall i, j :: 0 <= i < j < |queue| && queue[j].AllowCollateral? ==> queue[i] != queue[j])
    && (forall i, j :: 0 <= i < |queue| && 0 <= j < |todo| ==> !Claims(todo[j], queue[i]))
  }

  /** Hand-overs go from the signer to the Safe on contracts where DefaultAdmin
      administers itself, after a plain grant of DefaultAdmin to the Safe. */
  predicate HandoverToSafe(r: Rules, chain: Chain, todo: seq<Instr>, j: nat)
    requires j < |todo|
  {
    match todo[j]
    case KeepAdmin(h) => HandoverFits(r, chain, todo, j, h)
    case ConfirmAdmin(h) => HandoverFits(r, chain, todo, j, h)
    case CheckOld(h) => h.revoke == r.p.signer
    case DropOld(h) => h.revoke == r.p.signer
    case GrantAdmin(h) => false
    case Ensure(_, flagged, _) => flagged
    case Attempt(_, flagged) => flagged
    case MirrorPause(_, _, _) => true
  }

  predicate HandoverFits(r: Rules, chain: Chain, todo: seq<Instr>, j: nat, h: Handover)
    requires j < |todo|
  {
    && h.revoke == r.p.signer && h.keep == r.safe
    && chain.RoleAdmin(h.contract, DefaultAdmin) == DefaultAdmin
    && (Done(chain, GrantOf(h)) || SentBefore(todo, j, GrantOf(h)))
  }

  /** The Safe can execute the call: it holds the role and the contract accepts it. */
  predicate SafeReady(r: Rules, chain: Chain, k: Call) {
    !k.RenounceRole? && chain.Has(k.to, RequiredRole(chain, k), r.safe) && Admissible(chain, k)
  }

  predicate Queued(t: Instr, queue: seq<Call>) {
    match t
    case MirrorPause(_, issuer, asset) => PauseAsset(issuer, asset) in queue
    case Ensure(call, _, _) => call in queue
    case _ => false
  }

  /** What holds while a script runs undisturbed towards its goal. */
  predicate OnCourse(r: Rules, ops: set<Call>, plan: seq<Instr>, s: State) {
    && s.faults == [] && !r.anyFault && r.p.useSafe && !s.threw
    && ScriptInv(r, s)
    && PlanInUniverse(ops, s.todo) && CallsInUniverse(ops, s.queue)
    && AllStaffed(r, ops, s.chain)
    && AllowsDistinct(s.todo, s.queue)
    && (forall i :: 0 <= i < |s.queue| ==> SafeReady(r, s.chain, s.queue[i]))
    && (forall j :: 0 <= j < |s.todo| ==> Permitted(s.chain, s.todo[j]))
    && (forall j :: 0 < j < |s.todo| ==> PlanForm(s.todo[j]))
    && (s.todo != [] && s.todo[0].Attempt? ==> !Done(s.chain, s.todo[0].call))
    && (forall j :: 0 <= j < |s.todo| ==> HandoverToSafe(r, s.chain, s.todo, j))
    && (forall t | t in plan :: PlanForm(t) && (Met(s.chain, t) || Waiting(s.todo, t) || Queued(t, s.queue)))
  }

  // ---------- one step ----------

  /** What grows or never changes under any call. */
  predicate Grows(before: Chain, after: Chain) {
    && after.roleAdmins == before.roleAdmins && after.vaultOf == before.vaultOf && after.priced == before.priced
    && before.paused <= after.paused && before.collateral <= after.collateral
  }

  lemma StepChain(r: Rules, ops: set<Call>, s: State)
    requires ScriptInv(r, s) && s.todo != [] && PlanInUniverse(ops, s.todo) && SafeInherits(r, ops)
    ensures var t := Step(r.p, s);
            && Grows(s.chain, t.chain)
            && (forall c, role :: Staffed(r, s.chain, c, role) ==> Staffed(r, t.chain, c, role))
            && (forall c, role :: s.chain.Has(c, role, r.safe) ==> t.chain.Has(c, role, r.safe))
  {
    var t := Step(r.p, s);
    StepKeepsInv(r, s);
    assert InUniverse(ops, s.todo[0]);
    forall m | m in s.chain.members && m !in t.chain.members
      ensures m.account != r.safe && (m.account == r.p.signer ==> m in r.heirs && r.heirs[m] == r.safe)
    {
      StepRemovalListed(ops, r.p, s, m);
    }
    forall c, role | Staffed(r, s.chain, c, role) ensures Staffed(r, t.chain, c, role) {
      var m := Member(c, role, r.p.signer);
      if m in s.chain.members && m !in t.chain.members {
        assert HeirHolds(r, t.chain, m);
      }
    }
  }

  lemma StepRemovalListed(ops: set<Call>, p: Parties, s: State, m: Membership)
    requires s.todo != [] && InUniverse(ops, s.todo[0])
    requires m in s.chain.members && m !in Step(p, s).chain.members
    ensures exists k :: k in ops && Removal(k) == Some(m)
  {
    match s.todo[0]
    case Attempt(call, _) => assert Removal(call) == Some(m);
    case DropOld(h) => assert Removal(RevokeOf(h)) == Some(m);
    case _ =>
  }

  lemma StaffedStays(r: Rules, ops: set<Call>, s: State)
    requires ScriptInv(r, s) && s.todo != [] && PlanInUniverse(ops, s.todo) && SafeInherits(r, ops)
    requires AllStaffed(r, ops, s.chain)
    ensures AllStaffed(r, ops, Step(r.p, s).chain)
  {
    StepChain(r, ops, s);
    forall k | k in ops
      ensures Staffed(r, Step(r.p, s).chain, k.to, RequiredRole(Step(r.p, s).chain, k))
    {
      assert RequiredRole(Step(r.p, s).chain, k) == RequiredRole(s.chain, k);
    }
  }

  /** The steps of an undisturbed run: which instruction a position comes from. */
  lemma Shape(p: Parties, s: State)
    requires s.todo != [] && s.faults == []
    ensures var t := Step(p, s);
            var next := Act(p, s.chain, s.todo[0], Works).next;
            t.todo == if next.Then? then [next.instr] + s.todo[1..] else if next.Throw? then [] else s.todo[1..]
    ensures Step(p, s).faults == [] && !Act(p, s.chain, s.todo[0], Works).next.Throw?
  {
  }

  lemma StepDistinct(p: Parties, s: State)
    requires s.todo != [] && s.faults == [] && AllowsDistinct(s.todo, s.queue)
    ensures AllowsDistinct(Step(p, s).todo, Step(p, s).queue)
  {
    var t := Step(p, s);
    Shape(p, s);
    var shift := if Act(p, s.chain, s.todo[0], Works).next.Then? then 0 else 1;
    assert forall j :: (1 - shift) <= j < |t.todo| ==> t.todo[j] == s.todo[j + shift];
    assert forall k :: shift == 0 && Claims(t.todo[0], k) ==> Claims(s.todo[0], k);
    assert t.queue == s.queue || (s.todo[0].Attempt? && shift == 1 && t.queue == s.queue + [s.todo[0].call]);
    forall i, j | 0 <= i < j < |t.todo| ensures !SameClaim(t.todo[j], t.todo[i]) {
      assert !SameClaim(s.todo[j + shift], s.todo[i + shift]);
    }
    forall i, j | 0 <= i < |t.queue| && 0 <= j < |t.todo|
      ensures !Claims(t.todo[j], t.queue[i])
    {
      if i < |s.queue| {
        assert !Claims(s.todo[j + shift], s.queue[i]);
      } else {
        assert !SameClaim(s.todo[j + shift], s.todo[0]);
      }
    }
    forall i, j | 0 <= i < j < |t.queue| && t.queue[j].AllowCollateral?
      ensures t.queue[i] != t.queue[j]
    {
      if j == |s.queue| {
        assert !Claims(s.todo[0], s.queue[i]);
      }
    }
  }

  lemma StepQueueReady(r: Rules, ops: set<Call>, plan: seq<Instr>, s: State, i: nat)
    requires OnCourse(r, ops, plan, s) && s.todo != [] && SafeInherits(r, ops)
    requires i < |Step(r.p, s).queue|
    ensures SafeReady(r, Step(r.p, s).chain, Step(r.p, s).queue[i])
  {
    var t := Step(r.p, s);
    StepChain(r, ops, s);
    assert InUniverse(ops, s.todo[0]) && InstrOk(r, s.todo[0]) && Permitted(s.chain, s.todo[0]);
    if i < |s.queue| {
      assert SafeReady(r, s.chain, s.queue[i]);
      assert !Claims(s.todo[0], s.queue[i]);
    }
  }

  lemma StepTodoFits(r: Rules, ops: set<Call>, plan: seq<Instr>, s: State, k: nat)
    requires OnCourse(r, ops, plan, s) && s.todo != [] && SafeInherits(r, ops) && Harmonious(ops)
    requires k < |Step(r.p, s).todo|
    ensures var t := Step(r.p, s);
            && Permitted(t.chain, t.todo[k])
            && (t.todo[k].Attempt? ==> k == 0 && !Done(t.chain, t.todo[k].call))
            && (k > 0 ==> PlanForm(t.todo[k]))
            && HandoverToSafe(r, t.chain, t.todo, k)
  {
    var t := Step(r.p, s);
    Shape(r.p, s);
    StepChain(r, ops, s);
    StepStays(ops, r.p, s);
    var next := Act(r.p, s.chain, s.todo[0], Works).next;
    assert HandoverToSafe(r, s.chain, s.todo, 0) && Permitted(s.chain, s.todo[0]) && InUniverse(ops, s.todo[0]);
    assert forall call :: !SentBefore(s.todo, 0, call);
    if !(next.Then? && k == 0) {
      var j := if next.Then? then k else k + 1;
      assert t.todo[k] == s.todo[j];
      assert Permitted(s.chain, s.todo[j]) && InUniverse(ops, s.todo[j]) && HandoverToSafe(r, s.chain, s.todo, j);
      if s.todo[j].KeepAdmin? || s.todo[j].ConfirmAdmin? {
        GrantMoves(r, ops, plan, s, j, k, s.todo[j].h);
      }
    }
  }

  /** The grant ahead of a hand-over is sent directly: the signer is admin, or the Safe already is. */
  lemma GrantMoves(r: Rules, ops: set<Call>, plan: seq<Instr>, s: State, j: nat, k: nat, h: Handover)
    requires OnCourse(r, ops, plan, s) && s.todo != [] && Harmonious(ops)
    requires 0 < j < |s.todo| && HandoverFits(r, s.chain, s.todo, j, h) && GrantOf(h) in ops
    requires k < |Step(r.p, s).todo| && k == (if Act(r.p, s.chain, s.todo[0], Works).next.Then? then j else j - 1)
    ensures Done(Step(r.p, s).chain, GrantOf(h)) || SentBefore(Step(r.p, s).todo, k, GrantOf(h))
  {
    var t := Step(r.p, s);
    Shape(r.p, s);
    StepStays(ops, r.p, s);
    if !Done(s.chain, GrantOf(h)) {
      var i :| 0 <= i < j && Sends(s.todo[i], GrantOf(h));
      if i > 0 {
        assert t.todo[k - j + i] == s.todo[i];
      } else {
        assert Staffed(r, s.chain, h.contract, DefaultAdmin);
        GrantHead(r, s, h);
        if s.todo[0].Ensure? {
          assert t.todo[0] == Attempt(GrantOf(h), s.todo[0].flagged);
        }
      }
    }
  }

  lemma GrantHead(r: Rules, s: State, h: Handover)
    requires s.todo != [] && s.faults == [] && Sends(s.todo[0], GrantOf(h))
    requires h.keep == r.safe && !Done(s.chain, GrantOf(h))
    requires s.chain.RoleAdmin(h.contract, DefaultAdmin) == DefaultAdmin
    requires Staffed(r, s.chain, h.contract, DefaultAdmin)
    ensures s.todo[0].Ensure? || s.todo[0].Attempt?
    ensures s.todo[0].Ensure? ==> Step(r.p, s).todo == [Attempt(GrantOf(h), s.todo[0].flagged)] + s.todo[1..]
    ensures s.todo[0].Attempt? ==> Done(Step(r.p, s).chain, GrantOf(h))
  {
  }

  lemma StepAccounts(r: Rules, ops: set<Call>, plan: seq<Instr>, s: State, t: Instr)
    requires OnCourse(r, ops, plan, s) && s.todo != [] && Harmonious(ops) && PlanInUniverse(ops, plan) && t in plan
    ensures Met(Step(r.p, s).chain, t) || Waiting(Step(r.p, s).todo, t) || Queued(t, Step(r.p, s).queue)
  {
    Shape(r.p, s);
    StepStays(ops, r.p, s);
    if Met(s.chain, t) {
      MetStays(ops, s.chain, Step(r.p, s).chain, t);
    } else if Waiting(s.todo, t) {
      WaitingMoves(r, ops, plan, s, t);
    }
  }

  /** What is still to be done is done, moves up, or turns into its next half. */
  lemma WaitingMoves(r: Rules, ops: set<Call>, plan: seq<Instr>, s: State, t: Instr)
    requires OnCourse(r, ops, plan, s) && s.todo != [] && t in plan && Waiting(s.todo, t)
    ensures Met(Step(r.p, s).chain, t) || Waiting(Step(r.p, s).todo, t) || Queued(t, Step(r.p, s).queue)
  {
    var i :| 0 <= i < |s.todo| && Derives(t, s.todo[i]);
    if i == 0 {
      assert HandoverToSafe(r, s.chain, s.todo, 0);
      HeadMoves(r, s, t);
    } else {
      Shape(r.p, s);
      var next := Act(r.p, s.chain, s.todo[0], Works).next;
      assert Step(r.p, s).todo[if next.Then? then i else i - 1] == s.todo[i];
    }
  }

  lemma HeadMoves(r: Rules, s: State, t: Instr)
    requires s.todo != [] && s.faults == [] && r.p.useSafe && PlanForm(t)
    requires HandoverToSafe(r, s.chain, s.todo, 0) && Derives(t, s.todo[0])
    ensures Met(Step(r.p, s).chain, t) || Waiting(Step(r.p, s).todo, t) || Queued(t, Step(r.p, s).queue)
  {
    var u := Step(r.p, s);
    Shape(r.p, s);
    assert forall call :: !SentBefore(s.todo, 0, call);
    if Act(r.p, s.chain, s.todo[0], Works).next.Then? {
      assert Derives(t, u.todo[0]);
    }
  }

  lemma StepOnCourse(r: Rules, ops: set<Call>, plan: seq<Instr>, s: State)
    requires OnCourse(r, ops, plan, s) && s.todo != []
    requires SafeInherits(r, ops) && Harmonious(ops) && PlanInUniverse(ops, plan)
    ensures OnCourse(r, ops, plan, Step(r.p, s))
  {
    var t := Step(r.p, s);
    Shape(r.p, s);
    StepKeepsInv(r, s);
    StepInUniverse(ops, r.p, s);
    StaffedStays(r, ops, s);
    StepDistinct(r.p, s);
    forall i | 0 <= i < |t.queue| ensures SafeReady(r, t.chain, t.queue[i]) {
      StepQueueReady(r, ops, plan, s, i);
    }
    forall k | 0 <= k < |t.todo|
      ensures Permitted(t.chain, t.todo[k]) && HandoverToSafe(r, t.chain, t.todo, k)
      ensures k > 0 ==> PlanForm(t.todo[k])
      ensures t.todo[k].Attempt? ==> !Done(t.chain, t.todo[k].call)
    {
      StepTodoFits(r, ops, plan, s, k);
    }
    forall i | i in plan ensures Met(t.chain, i) || Waiting(t.todo, i) || Queued(i, t.queue) {
      StepAccounts(r, ops, plan, s, i);
    }
  }

  lemma {:induction false} RunOnCourse(r: Rules, ops: set<Call>, plan: seq<Instr>, s: State)
    requires OnCourse(r, ops, plan, s)
    requires SafeInherits(r, ops) && Harmonious(ops) && PlanInUniverse(ops, plan)
    ensures OnCourse(r, ops, plan, Run(r.p, s)) && Run(r.p, s).todo == []
    decreases |s.todo|, if s.todo == [] then 0 else Weight(s.todo[0])
  {
    if s.todo != [] {
      StepShrinks(r.p, s);
      StepOnCourse(r, ops, plan, s);
      RunOnCourse(r, ops, plan, Step(r.p, s));
    }
  }

  // ---------- the batch ----------

  /** In queue order, no call of the batch reverts. */
  lemma {:induction false} ReadyBatchExecutes(r: Rules, ops: set<Call>, chain: Chain, calls: seq<Call>)
    requires SafeInherits(r, ops) && CallsInUniverse(ops, calls) && AllowsDistinct([], calls)
    requires forall i :: 0 <= i < |calls| ==> SafeReady(r, chain, calls[i])
    ensures ExecuteBatch(chain, r.safe, calls).Some?
    decreases |calls|
  {
    if calls != [] {
      var next := Effect(chain, calls[0]);
      assert SafeReady(r, chain, calls[0]);
      forall i | 0 <= i < |calls[1..]| ensures SafeReady(r, next, calls[1..][i]) {
        assert SafeReady(r, chain, calls[i + 1]);
        assert calls[0].AllowCollateral? ==> calls[0] != calls[i + 1];
        if Removal(calls[0]).Some? {
          assert Removal(calls[0]).value.account != r.safe;
        }
      }
      ReadyBatchExecutes(r, ops, next, calls[1..]);
    }
  }

  // ---------- the theorem ----------

  /** What the hand-over needs at the start, all of it readable from the chain and the plan. */
  ghost predicate Fits(r: Rules, ops: set<Call>, plan: seq<Instr>, chain: Chain) {
    && !r.anyFault && r.p.useSafe
    && PlanOk(r, plan) && Accountable(r.p, plan)
    && Harmonious(ops) && PlanInUniverse(ops, plan) && SafeInherits(r, ops)
    && AllStaffed(r, ops, chain)
    && AllowsDistinct(plan, [])
    && (forall j :: 0 <= j < |plan| ==> HandoverToSafe(r, chain, plan, j))
  }

  predicate AllPermitted(chain: Chain, plan: seq<Instr>) {
    forall j :: 0 <= j < |plan| ==> Permitted(chain, plan[j])
  }

  /** Hand-overs from the signer to the Safe fit when the plan accounts for them. */
  lemma HandoversFit(r: Rules, plan: seq<Instr>, chain: Chain)
    requires Accountable(r.p, plan)
    requires forall i | i in plan && (i.KeepAdmin? || i.ConfirmAdmin?) ::
               i.h.keep == r.safe && chain.RoleAdmin(i.h.contract, DefaultAdmin) == DefaultAdmin
    ensures forall j :: 0 <= j < |plan| ==> HandoverToSafe(r, chain, plan, j)
  {
    forall j | 0 <= j < |plan| ensures HandoverToSafe(r, chain, plan, j) {
      assert AccountableAt(r.p, {}, plan, j);
      if plan[j].KeepAdmin? || plan[j].ConfirmAdmin? {
        assert plan[j] in plan;
        var i :| 0 <= i < j && FlagSends(plan[i], GrantOf(plan[j].h));
        assert Sends(plan[i], GrantOf(plan[j].h));
      }
    }
  }

  lemma FitsStartsOnCourse(r: Rules, ops: set<Call>, plan: seq<Instr>, chain: Chain)
    requires Fits(r, ops, plan, chain) && AllPermitted(chain, plan)
    ensures OnCourse(r, ops, plan, Fresh(chain, plan, []))
  {
    PlanStartsJustified(r, chain, plan, []);
    forall j | 0 <= j < |plan| ensures PlanForm(plan[j]) {
      assert PlanInstrOk(r, plan, j);
    }
    forall t | t in plan ensures Waiting(plan, t) {
      var j :| 0 <= j < |plan| && plan[j] == t;
      assert Derives(t, plan[j]);
    }
  }

  /** Run the script, then let the Safe execute what was queued. */
  function RunAndSign(r: Rules, plan: seq<Instr>, chain: Chain): Chain {
    var first := Run(r.p, Fresh(chain, plan, []));
    AfterBatch(first.chain, r.safe, first.queue)
  }

  /** Convergence and idempotence. From a chain that fits, with every pause that is to be
      mirrored supported and every collateral that is to be allowed priced: no call of the
      batch the first run queues reverts, every requirement of the plan then holds, and every
      further run reports completion, queues nothing and leaves the chain as it is. */
  lemma Converges(r: Rules, ops: set<Call>, plan: seq<Instr>, chain: Chain)
    requires Fits(r, ops, plan, chain) && AllPermitted(chain, plan)
    ensures var first := Run(r.p, Fresh(chain, plan, []));
            var goal := RunAndSign(r, plan, chain);
            && !first.threw
            && ExecuteBatch(first.chain, r.safe, first.queue).Some?
            && AllMet(goal, plan)
            && Run(r.p, Fresh(goal, plan, [])) == Fresh(goal, [], [])
  {
    var s := Fresh(chain, plan, []);
    var first := Run(r.p, s);
    FitsStartsOnCourse(r, ops, plan, chain);
    RunOnCourse(r, ops, plan, s);
    assert AllowsDistinct([], first.queue);
    ReadyBatchExecutes(r, ops, first.chain, first.queue);
    var goal := RunAndSign(r, plan, chain);
    BatchStays(ops, first.chain, r.safe, first.queue);
    forall t | t in plan ensures Met(goal, t) {
      if Met(first.chain, t) {
        MetStays(ops, first.chain, goal, t);
      }
    }
    MetRunIsQuiet(r.p, Fresh(goal, plan, []));
  }
}
