/** Round after round: a run of the script, then the execution of what it queued. A script
    that fits completes after two rounds, or never does, and which of the two can be read
    off the chain before the first. */
module Rounds {
  import opened Wrappers
  import opened AccessControl
  import opened Script
  import opened RoleSafety
  import opened Completion
  import opened Convergence

  function AfterRounds(r: Rules, plan: seq<Instr>, chain: Chain, n: nat): Chain {
    if n == 0 then chain else RunAndSign(r, plan, AfterRounds(r, plan, chain, n - 1))
  }

  predicate CompletesAfter(r: Rules, plan: seq<Instr>, chain: Chain, n: nat) {
    Run(r.p, Fresh(AfterRounds(r, plan, chain, n), plan, [])).complete
  }

  /** The Safe cannot execute what a run from the chain queues. */
  predicate BatchReverts(r: Rules, plan: seq<Instr>, chain: Chain) {
    var first := Run(r.p, Fresh(chain, plan, []));
    ExecuteBatch(first.chain, r.safe, first.queue).None?
  }

  // ---------- when everything pending can be cleared ----------

  /** The call after which the pause of a mirrored asset is accepted. */
  function Opener(chain: Chain, t: Instr): Option<Call> {
    if t.MirrorPause? && t.issuer in chain.vaultOf
    then Some(AllowCollateral(chain.vaultOf[t.issuer], t.asset))
    else None
  }

  /** The script itself allows the asset later on, and the signer's direct call gets through. */
  predicate Openable(r: Rules, plan: seq<Instr>, chain: Chain, t: Instr) {
    var opener := Opener(chain, t);
    opener.Some? && Execute(chain, r.p.signer, opener.value).Some? && SentBefore(plan, |plan|, opener.value)
  }

  predicate Clearable(r: Rules, plan: seq<Instr>, chain: Chain) {
    forall t | t in plan :: Permitted(chain, t) || Openable(r, plan, chain, t)
  }

  // ---------- a round leaves a chain that fits ----------

  /** What a round keeps: nothing shrinks, and no role loses both the signer and the Safe. */
  ghost predicate Advances(r: Rules, before: Chain, after: Chain) {
    && Grows(before, after)
    && (forall c, role :: Staffed(r, before, c, role) ==> Staffed(r, after, c, role))
    && (forall c, role :: before.Has(c, role, r.safe) ==> after.Has(c, role, r.safe))
  }

  lemma {:induction false} RunAdvances(r: Rules, ops: set<Call>, s: State)
    requires ScriptInv(r, s) && PlanInUniverse(ops, s.todo) && CallsInUniverse(ops, s.queue) && SafeInherits(r, ops)
    ensures var t := Run(r.p, s);
            Advances(r, s.chain, t.chain) && BatchOk(r, t.chain, t.queue) && CallsInUniverse(ops, t.queue)
    decreases |s.todo|, if s.todo == [] then 0 else Weight(s.todo[0])
  {
    if s.todo != [] {
      StepShrinks(r.p, s);
      StepKeepsInv(r, s);
      StepInUniverse(ops, r.p, s);
      StepChain(r, ops, s);
      RunAdvances(r, ops, Step(r.p, s));
    }
  }

  lemma {:induction false} BatchAdvances(r: Rules, ops: set<Call>, chain: Chain, calls: seq<Call>)
    requires BatchOk(r, chain, calls) && CallsInUniverse(ops, calls) && SafeInherits(r, ops)
    requires ExecuteBatch(chain, r.safe, calls).Some?
    ensures Advances(r, chain, ExecuteBatch(chain, r.safe, calls).value)
    decreases |calls|
  {
    if calls != [] {
      assert RemovalOk(r, chain, calls, 0) && calls[0] in ops;
      EffectKeeps(r, chain, calls[0]);
      EffectAdvances(r, ops, chain, calls[0]);
      BatchTail(r, chain, calls);
      BatchAdvances(r, ops, Effect(chain, calls[0]), calls[1..]);
    }
  }

  lemma EffectAdvances(r: Rules, ops: set<Call>, chain: Chain, call: Call)
    requires call in ops && SafeInherits(r, ops)
    requires Removal(call).Some? && Removal(call).value in r.heirs ==> HeirHolds(r, chain, Removal(call).value)
    ensures Advances(r, chain, Effect(chain, call))
  {
  }

  lemma RoundFits(r: Rules, ops: set<Call>, plan: seq<Instr>, chain: Chain)
    requires Fits(r, ops, plan, chain)
    ensures var first := Run(r.p, Fresh(chain, plan, []));
            var next := RunAndSign(r, plan, chain);
            Advances(r, chain, first.chain) && Advances(r, first.chain, next) && Fits(r, ops, plan, next)
  {
    var first := Run(r.p, Fresh(chain, plan, []));
    var next := RunAndSign(r, plan, chain);
    PlanStartsJustified(r, chain, plan, []);
    RunAdvances(r, ops, Fresh(chain, plan, []));
    if ExecuteBatch(first.chain, r.safe, first.queue).Some? {
      BatchAdvances(r, ops, first.chain, first.queue);
    }
    AdvancesFits(r, ops, plan, chain, next);
  }

  lemma AdvancesFits(r: Rules, ops: set<Call>, plan: seq<Instr>, before: Chain, after: Chain)
    requires Fits(r, ops, plan, before) && Advances(r, before, after)
    ensures Fits(r, ops, plan, after)
  {
    forall k | k in ops ensures Staffed(r, after, k.to, RequiredRole(after, k)) {
      assert RequiredRole(after, k) == RequiredRole(before, k);
    }
    forall j | 0 <= j < |plan| ensures HandoverToSafe(r, after, plan, j) {
      assert HandoverToSafe(r, before, plan, j);
    }
  }

  // ---------- two rounds are enough ----------

  /** A collateral the signer may allow is allowed when the run ends. */
  lemma {:induction false} RunAllows(r: Rules, ops: set<Call>, s: State, call: Call)
    requires ScriptInv(r, s) && PlanInUniverse(ops, s.todo) && SafeInherits(r, ops)
    requires s.faults == [] && call.AllowCollateral?
    requires forall k | k in ops && Removal(k).Some? :: Removal(k).value.role != CollateralManager
    requires Done(s.chain, call) ||
               (Execute(s.chain, r.p.signer, call).Some? && SentBefore(s.todo, |s.todo|, call))
    ensures Done(Run(r.p, s).chain, call)
    decreases |s.todo|, if s.todo == [] then 0 else Weight(s.todo[0])
  {
    if s.todo != [] {
      var t := Step(r.p, s);
      StepShrinks(r.p, s);
      StepKeepsInv(r, s);
      StepInUniverse(ops, r.p, s.(queue := []));
      StepChain(r, ops, s);
      if !Done(t.chain, call) {
        AllowMoves(r, ops, s, call);
      }
      RunAllows(r, ops, t, call);
    }
  }

  lemma AllowMoves(r: Rules, ops: set<Call>, s: State, call: Call)
    requires ScriptInv(r, s) && PlanInUniverse(ops, s.todo) && SafeInherits(r, ops) && s.todo != []
    requires s.faults == [] && call.AllowCollateral? && !Done(Step(r.p, s).chain, call)
    requires forall k | k in ops && Removal(k).Some? :: Removal(k).value.role != CollateralManager
    requires Execute(s.chain, r.p.signer, call).Some? && SentBefore(s.todo, |s.todo|, call)
    ensures var t := Step(r.p, s);
            Execute(t.chain, r.p.signer, call).Some? && SentBefore(t.todo, |t.todo|, call)
  {
    var t := Step(r.p, s);
    Shape(r.p, s);
    StepChain(r, ops, s);
    var m := Member(call.to, CollateralManager, r.p.signer);
    if m !in t.chain.members {
      assert InUniverse(ops, s.todo[0]);
      StepRemovalListed(ops, r.p, s, m);
    }
    var i :| 0 <= i < |s.todo| && Sends(s.todo[i], call);
    if i > 0 {
      var k := if Act(r.p, s.chain, s.todo[0], Works).next.Then? then i else i - 1;
      assert Sends(t.todo[k], call);
    } else {
      assert Sends(t.todo[0], call);
    }
  }

  lemma RoundPermits(r: Rules, ops: set<Call>, plan: seq<Instr>, chain: Chain, t: Instr)
    requires Fits(r, ops, plan, chain) && t in plan && (t.Ensure? ==> !t.call.PauseAsset?)
    requires forall k | k in ops && Removal(k).Some? :: Removal(k).value.role != CollateralManager
    requires Permitted(chain, t) || Openable(r, plan, chain, t)
    ensures Permitted(RunAndSign(r, plan, chain), t)
  {
    var s := Fresh(chain, plan, []);
    var next := RunAndSign(r, plan, chain);
    RoundFits(r, ops, plan, chain);
    PlanStartsJustified(r, chain, plan, []);
    var j :| 0 <= j < |plan| && plan[j] == t;
    assert PlanInstrOk(r, plan, j) && InUniverse(ops, t);
    if Openable(r, plan, chain, t) {
      RunAllows(r, ops, s, Opener(chain, t).value);
      assert next.Supports(t.issuer, t.asset);
    } else if t.MirrorPause? {
      LegacyPauseStays(r, ops, plan, chain, t);
    }
  }

  /** What is paused on a mirrored legacy issuer does not change in a round. */
  lemma LegacyPauseStays(r: Rules, ops: set<Call>, plan: seq<Instr>, chain: Chain, t: Instr)
    requires Fits(r, ops, plan, chain) && t.MirrorPause? && InUniverse(ops, t)
    ensures RunAndSign(r, plan, chain).IsPaused(t.legacy, t.asset) == chain.IsPaused(t.legacy, t.asset)
  {
    var first := Run(r.p, Fresh(chain, plan, []));
    RunReports(ops, r.p, plan, chain);
    PlanStartsJustified(r, chain, plan, []);
    RunAdvances(r, ops, Fresh(chain, plan, []));
    if ExecuteBatch(first.chain, r.safe, first.queue).Some? {
      BatchStays(ops, first.chain, r.safe, first.queue);
    }
  }

  // ---------- or no number of rounds is ----------

  /** A pause to be mirrored onto an asset that the issuer's vault does not support and the
      signer cannot have it support, or collateral to be allowed that has no price. */
  predicate Stuck(ops: set<Call>, p: Parties, chain: Chain, t: Instr) {
    && InUniverse(ops, t)
    && (forall k | k in ops :: k.GrantRole? ==> k.account != p.signer)
    && match t
       case MirrorPause(legacy, issuer, asset) =>
         && chain.IsPaused(legacy, asset) && !chain.IsPaused(issuer, asset)
         && !chain.Supports(issuer, asset)
         && (Opener(chain, t).Some? && Opener(chain, t).value in ops ==>
               Execute(chain, p.signer, Opener(chain, t).value).None?)
       case Ensure(call, flagged, _) =>
         flagged && call.AllowCollateral? && !Done(chain, call) && !Admissible(chain, call)
       case _ => false
  }

  /** The call that does not get through. */
  function StuckCall(t: Instr): Call
    requires t.MirrorPause? || t.Ensure?
  {
    if t.MirrorPause? then PauseAsset(t.issuer, t.asset) else t.call
  }

  /** Calls of the signer change nothing about it, nor do calls of the Safe other than the opener. */
  lemma EffectStuck(ops: set<Call>, p: Parties, chain: Chain, caller: Address, call: Call, t: Instr)
    requires Stuck(ops, p, chain, t) && (call in ops || call.RenounceRole?)
    requires caller == p.signer || Opener(chain, t) != Some(call)
    ensures Execute(chain, caller, StuckCall(t)).None?
    ensures Execute(chain, caller, call).Some? ==> Stuck(ops, p, Execute(chain, caller, call).value, t)
  {
  }

  lemma {:induction false} StuckBatchReverts(ops: set<Call>, p: Parties, chain: Chain, safe: Address, calls: seq<Call>,
                                             t: Instr, k: nat)
    requires CallsInUniverse(ops, calls) && Stuck(ops, p, chain, t)
    requires k < |calls| && calls[k] == StuckCall(t)
    requires forall i :: 0 <= i < k ==> Opener(chain, t) != Some(calls[i])
    ensures ExecuteBatch(chain, safe, calls).None?
    decreases k
  {
    if Execute(chain, safe, calls[0]).Some? {
      EffectStuck(ops, p, chain, safe, calls[0], t);
      var rest := calls[1..];
      assert forall i :: 0 <= i < k - 1 ==> rest[i] == calls[i + 1];
      StuckBatchReverts(ops, p, Effect(chain, calls[0]), safe, rest, t, k - 1);
    }
  }

  /** The instruction is still to come, and its opener neither ahead of it nor queued. */
  predicate WaitsAt(s: State, t: Instr, i: nat) {
    && i < |s.todo| && Derives(t, s.todo[i])
    && (Opener(s.chain, t).Some? ==>
          Opener(s.chain, t).value !in s.queue && !SentBefore(s.todo, i, Opener(s.chain, t).value))
  }

  /** It failed, and its call was queued ahead of its opener. */
  predicate QueuedAt(s: State, t: Instr, k: nat)
    requires t.MirrorPause? || t.Ensure?
  {
    && !s.complete && k < |s.queue| && s.queue[k] == StuckCall(t)
    && forall i :: 0 <= i < k ==> Opener(s.chain, t) != Some(s.queue[i])
  }

  ghost predicate StuckRunning(ops: set<Call>, p: Parties, s: State, t: Instr) {
    && p.useSafe && s.faults == []
    && PlanInUniverse(ops, s.todo) && CallsInUniverse(ops, s.queue)
    && Stuck(ops, p, s.chain, t)
    && ((exists i :: WaitsAt(s, t, i)) || (exists k :: QueuedAt(s, t, k)))
  }

  lemma StepKeepsStuck(ops: set<Call>, p: Parties, s: State, t: Instr)
    requires s.todo != [] && StuckRunning(ops, p, s, t)
    ensures Stuck(ops, p, Step(p, s).chain, t) && Opener(Step(p, s).chain, t) == Opener(s.chain, t)
  {
    assert InUniverse(ops, s.todo[0]);
    match s.todo[0] {
      case Attempt(call, _) => EffectStuck(ops, p, s.chain, p.signer, call, t);
      case GrantAdmin(h) => EffectStuck(ops, p, s.chain, p.signer, GrantOf(h), t);
      case DropOld(h) => EffectStuck(ops, p, s.chain, p.signer, DropCall(p, h), t);
      case _ =>
    }
  }

  lemma StepStuck(ops: set<Call>, p: Parties, s: State, t: Instr)
    requires s.todo != [] && StuckRunning(ops, p, s, t)
    ensures StuckRunning(ops, p, Step(p, s), t)
  {
    var u := Step(p, s);
    StepInUniverse(ops, p, s);
    StepKeepsStuck(ops, p, s, t);
    Shape(p, s);
    if i :| WaitsAt(s, t, i) {
      StuckMoves(ops, p, s, t, i);
    } else {
      var k :| QueuedAt(s, t, k);
      assert QueuedAt(u, t, k);
    }
  }

  lemma StuckMoves(ops: set<Call>, p: Parties, s: State, t: Instr, i: nat)
    requires s.todo != [] && StuckRunning(ops, p, s, t) && WaitsAt(s, t, i)
    ensures (exists k :: WaitsAt(Step(p, s), t, k)) || (exists k :: QueuedAt(Step(p, s), t, k))
  {
    var u := Step(p, s);
    StepKeepsStuck(ops, p, s, t);
    Shape(p, s);
    var next := Act(p, s.chain, s.todo[0], Works).next;
    if i > 0 {
      var k := if next.Then? then i else i - 1;
      assert u.todo[k] == s.todo[i];
      if Opener(s.chain, t).Some? {
        OpenerBehind(p, s, Opener(s.chain, t).value, i, k);
      }
      assert WaitsAt(u, t, k);
    } else if next.Then? {
      assert WaitsAt(u, t, 0);
    } else {
      EffectStuck(ops, p, s.chain, p.signer, StuckCall(t), t);
      assert QueuedAt(u, t, |s.queue|);
    }
  }

  lemma OpenerBehind(p: Parties, s: State, opener: Call, i: nat, k: nat)
    requires s.todo != [] && s.faults == [] && opener.AllowCollateral?
    requires 0 < i < |s.todo| && opener !in s.queue && !SentBefore(s.todo, i, opener)
    requires k == (if Act(p, s.chain, s.todo[0], Works).next.Then? then i else i - 1) && k <= |Step(p, s).todo|
    ensures opener !in Step(p, s).queue && !SentBefore(Step(p, s).todo, k, opener)
  {
    var u := Step(p, s);
    Shape(p, s);
    assert !Sends(s.todo[0], opener);
    forall j | 0 <= j < k ensures !Sends(u.todo[j], opener) {
      if j > 0 || k < i {
        assert u.todo[j] == s.todo[j + i - k];
      }
    }
  }

  lemma {:induction false} RunStuck(ops: set<Call>, p: Parties, s: State, t: Instr)
    requires StuckRunning(ops, p, s, t)
    ensures StuckRunning(ops, p, Run(p, s), t) && Run(p, s).todo == []
    decreases |s.todo|, if s.todo == [] then 0 else Weight(s.todo[0])
  {
    if s.todo != [] {
      StepShrinks(p, s);
      StepStuck(ops, p, s, t);
      RunStuck(ops, p, Step(p, s), t);
    }
  }

  /** One round of a stuck script: no completion, a batch that reverts, and stuck again. */
  lemma StuckRound(r: Rules, ops: set<Call>, plan: seq<Instr>, chain: Chain, j: nat)
    requires r.p.useSafe && PlanInUniverse(ops, plan) && j < |plan| && Stuck(ops, r.p, chain, plan[j])
    requires MirrorsFirst(plan)
    ensures var first := Run(r.p, Fresh(chain, plan, []));
            && !first.complete
            && BatchReverts(r, plan, chain)
            && Stuck(ops, r.p, RunAndSign(r, plan, chain), plan[j])
  {
    var t, s := plan[j], Fresh(chain, plan, []);
    assert WaitsAt(s, t, j);
    RunStuck(ops, r.p, s, t);
    var first := Run(r.p, s);
    var k :| QueuedAt(first, t, k);
    StuckBatchReverts(ops, r.p, first.chain, r.safe, first.queue, t, k);
  }

  lemma {:induction false} NeverCompletes(r: Rules, ops: set<Call>, plan: seq<Instr>, chain: Chain, j: nat, n: nat)
    requires r.p.useSafe && PlanInUniverse(ops, plan) && j < |plan| && Stuck(ops, r.p, chain, plan[j])
    requires MirrorsFirst(plan)
    ensures Stuck(ops, r.p, AfterRounds(r, plan, chain, n), plan[j])
    ensures !CompletesAfter(r, plan, chain, n) && BatchReverts(r, plan, AfterRounds(r, plan, chain, n))
  {
    if n > 0 {
      NeverCompletes(r, ops, plan, chain, j, n - 1);
      StuckRound(r, ops, plan, AfterRounds(r, plan, chain, n - 1), j);
    }
    StuckRound(r, ops, plan, AfterRounds(r, plan, chain, n), j);
  }

  // ---------- the theorem ----------

  /** The script mirrors pauses before it allows collateral. */
  predicate MirrorsFirst(plan: seq<Instr>) {
    forall i, j :: 0 <= i < j < |plan| && plan[j].MirrorPause? ==>
                     !((plan[i].Ensure? || plan[i].Attempt?) && plan[i].call.AllowCollateral?)
  }

  /** Pauses are only mirrored, and nobody's CollateralManager role is taken. */
  predicate Regular(plan: seq<Instr>) {
    && MirrorsFirst(plan)
    && (forall t | t in plan && t.Ensure? :: !t.call.PauseAsset?)
    && (forall k | k in Operations(plan) && Removal(k).Some? :: Removal(k).value.role != CollateralManager)
  }

  lemma NoGrantToSigner(r: Rules, plan: seq<Instr>)
    requires PlanOk(r, plan) && !r.anyFault
    ensures forall k | k in Operations(plan) :: k.GrantRole? ==> k.account != r.p.signer
  {
    forall k | k in Operations(plan) && k.GrantRole? ensures k.account != r.p.signer {
      var i :| i in plan && k in CallsOf(i);
      var j :| 0 <= j < |plan| && plan[j] == i;
      assert PlanInstrOk(r, plan, j);
    }
  }

  /** What can neither be done nor opened is stuck. */
  lemma UnclearedIsStuck(r: Rules, plan: seq<Instr>, chain: Chain, j: nat)
    requires Fits(r, Operations(plan), plan, chain) && Regular(plan)
    requires j < |plan| && !Permitted(chain, plan[j]) && !Openable(r, plan, chain, plan[j])
    ensures Stuck(Operations(plan), r.p, chain, plan[j])
  {
    var t := plan[j];
    NoGrantToSigner(r, plan);
    assert PlanInstrOk(r, plan, j) && InUniverse(Operations(plan), t) && AccountableAt(r.p, {}, plan, j);
    if t.MirrorPause? && Opener(chain, t).Some? && Opener(chain, t).value in Operations(plan) {
      var i :| i in plan && Opener(chain, t).value in CallsOf(i);
      var k :| 0 <= k < |plan| && plan[k] == i;
      assert Sends(plan[k], Opener(chain, t).value);
    }
  }

  lemma QuietRound(r: Rules, plan: seq<Instr>, chain: Chain)
    requires AllMet(chain, plan) && forall t | t in plan :: PlanForm(t)
    ensures RunAndSign(r, plan, chain) == chain && Run(r.p, Fresh(chain, plan, [])).complete
  {
    MetRunIsQuiet(r.p, Fresh(chain, plan, []));
  }

  /** A goal once reached stays reached: later rounds change nothing. */
  lemma {:induction false} Settled(r: Rules, plan: seq<Instr>, chain: Chain, m: nat, n: nat)
    requires m <= n && AllMet(AfterRounds(r, plan, chain, m), plan) && forall t | t in plan :: PlanForm(t)
    ensures AfterRounds(r, plan, chain, n) == AfterRounds(r, plan, chain, m) && CompletesAfter(r, plan, chain, n)
    decreases n
  {
    QuietRound(r, plan, AfterRounds(r, plan, chain, m));
    if m < n {
      Settled(r, plan, chain, m, n - 1);
    }
  }

  /** The exact condition. If every pause still to be mirrored is on an asset that the vault
      supports, or that the script goes on to allow by a direct call, and each collateral still
      to be allowed has a price, two rounds establish all the script is for. Otherwise it
      reports completion after no number of rounds, and every batch reverts as a whole. */
  lemma ConvergesExactly(r: Rules, plan: seq<Instr>, chain: Chain)
    requires Fits(r, Operations(plan), plan, chain) && Regular(plan)
    ensures Clearable(r, plan, chain) ==> forall n: nat | n >= 2 ::
              CompletesAfter(r, plan, chain, n) && AllMet(AfterRounds(r, plan, chain, n), plan)
    ensures !Clearable(r, plan, chain) ==> forall n: nat ::
              !CompletesAfter(r, plan, chain, n) && BatchReverts(r, plan, AfterRounds(r, plan, chain, n))
  {
    var ops := Operations(plan);
    if Clearable(r, plan, chain) {
      var next := RunAndSign(r, plan, chain);
      RoundFits(r, ops, plan, chain);
      forall j | 0 <= j < |plan| ensures Permitted(next, plan[j]) {
        RoundPermits(r, ops, plan, chain, plan[j]);
      }
      Converges(r, ops, plan, next);
      assert AfterRounds(r, plan, chain, 1) == next;
      assert AfterRounds(r, plan, chain, 2) == RunAndSign(r, plan, next);
      forall t | t in plan ensures PlanForm(t) {
        var j :| 0 <= j < |plan| && plan[j] == t;
        assert PlanInstrOk(r, plan, j);
      }
      forall n: nat | n >= 2
        ensures CompletesAfter(r, plan, chain, n) && AllMet(AfterRounds(r, plan, chain, n), plan)
      {
        Settled(r, plan, chain, 2, n);
      }
    } else {
      var t :| t in plan && !Permitted(chain, t) && !Openable(r, plan, chain, t);
      var j :| 0 <= j < |plan| && plan[j] == t;
      UnclearedIsStuck(r, plan, chain, j);
      forall n: nat
        ensures !CompletesAfter(r, plan, chain, n) && BatchReverts(r, plan, AfterRounds(r, plan, chain, n))
      {
        NeverCompletes(r, ops, plan, chain, j, n);
      }
    }
  }
}
