/** What it means for a script to report completion, with the Safe executing
    batches at any moment and direct calls failing only for want of authorisation. */
module Completion {
  import opened AccessControl
  import opened Script
  import opened RoleSafety

  /** The requirement an instruction of a plan stands for. */
  predicate Met(chain: Chain, t: Instr) {
    match t
    case MirrorPause(legacy, issuer, asset) => chain.IsPaused(legacy, asset) ==> chain.IsPaused(issuer, asset)
    case Ensure(call, _, _) => Done(chain, call)
    case Attempt(call, _) => Done(chain, call)
    case KeepAdmin(h) => Done(chain, GrantOf(h))
    case GrantAdmin(h) => Done(chain, GrantOf(h))
    case ConfirmAdmin(h) => Done(chain, RevokeOf(h))
    case CheckOld(h) => Done(chain, RevokeOf(h))
    case DropOld(h) => Done(chain, RevokeOf(h))
  }

  predicate AllMet(chain: Chain, plan: seq<Instr>) {
    forall t | t in plan :: Met(chain, t)
  }

  // ---------- a universe of calls that do not undo one another ----------

  predicate Harmonious(ops: set<Call>) {
    forall a, b | a in ops && b in ops :: !Opposite(a, b)
  }

  /** The calls an instruction may send belong to the universe; no call of the
      universe pauses an asset on a legacy issuer that is being mirrored. */
  predicate InUniverse(ops: set<Call>, i: Instr) {
    match i
    case MirrorPause(legacy, issuer, asset) =>
      PauseAsset(issuer, asset) in ops && (forall k | k in ops :: k.PauseAsset? ==> k.to != legacy)
    case Ensure(call, _, _) => call in ops
    case Attempt(call, _) => call in ops
    case KeepAdmin(h) => GrantOf(h) in ops && RevokeOf(h) in ops
    case GrantAdmin(h) => GrantOf(h) in ops && RevokeOf(h) in ops
    case ConfirmAdmin(h) => GrantOf(h) in ops && RevokeOf(h) in ops
    case CheckOld(h) => GrantOf(h) in ops && RevokeOf(h) in ops
    case DropOld(h) => GrantOf(h) in ops && RevokeOf(h) in ops
  }

  predicate PlanInUniverse(ops: set<Call>, plan: seq<Instr>) {
    forall j :: 0 <= j < |plan| ==> InUniverse(ops, plan[j])
  }

  function CallsOf(i: Instr): set<Call> {
    match i
    case MirrorPause(_, issuer, asset) => {PauseAsset(issuer, asset)}
    case Ensure(call, _, _) => {call}
    case Attempt(call, _) => {call}
    case KeepAdmin(h) => {GrantOf(h), RevokeOf(h)}
    case GrantAdmin(h) => {GrantOf(h), RevokeOf(h)}
    case ConfirmAdmin(h) => {GrantOf(h), RevokeOf(h)}
    case CheckOld(h) => {GrantOf(h), RevokeOf(h)}
    case DropOld(h) => {GrantOf(h), RevokeOf(h)}
  }

  /** Every call the plan may send. */
  function Operations(plan: seq<Instr>): set<Call> {
    set i, k | i in plan && k in CallsOf(i) :: k
  }

  predicate CallsInUniverse(ops: set<Call>, calls: seq<Call>) {
    forall j :: 0 <= j < |calls| ==> calls[j] in ops
  }

  /** Requirements of the universe that hold stay, and mirrored legacy issuers do not change. */
  ghost predicate Stays(ops: set<Call>, before: Chain, after: Chain) {
    && (forall k | k in ops :: Done(before, k) ==> Done(after, k))
    && (forall issuer: Address, asset: Address :: (forall k | k in ops :: k.PauseAsset? ==> k.to != issuer) ==>
          before.IsPaused(issuer, asset) == after.IsPaused(issuer, asset))
  }

  lemma EffectStays(ops: set<Call>, chain: Chain, call: Call, listed: Call)
    requires Harmonious(ops) && listed in ops
    requires call == listed || (call.RenounceRole? && Removal(call) == Removal(listed))
    ensures Stays(ops, chain, Effect(chain, call))
  {
  }

  lemma MetStays(ops: set<Call>, before: Chain, after: Chain, t: Instr)
    requires InUniverse(ops, t) && Stays(ops, before, after) && Met(before, t)
    ensures Met(after, t)
  {
  }

  lemma AllMetStays(ops: set<Call>, before: Chain, after: Chain, plan: seq<Instr>)
    requires PlanInUniverse(ops, plan) && Stays(ops, before, after) && AllMet(before, plan)
    ensures AllMet(after, plan)
  {
  }

  lemma {:induction false} BatchStays(ops: set<Call>, chain: Chain, safe: Address, calls: seq<Call>)
    requires Harmonious(ops) && CallsInUniverse(ops, calls)
    requires ExecuteBatch(chain, safe, calls).Some?
    ensures Stays(ops, chain, ExecuteBatch(chain, safe, calls).value)
    ensures forall k | k in calls :: Done(ExecuteBatch(chain, safe, calls).value, k)
    decreases |calls|
  {
    if calls != [] {
      var next := Execute(chain, safe, calls[0]).value;
      EffectStays(ops, chain, calls[0], calls[0]);
      EffectEstablishes(chain, calls[0], calls[0]);
      BatchStays(ops, next, safe, calls[1..]);
    }
  }

  lemma StepStays(ops: set<Call>, p: Parties, s: State)
    requires Harmonious(ops) && s.todo != [] && PlanInUniverse(ops, s.todo)
    ensures Stays(ops, s.chain, Step(p, s).chain)
  {
    assert InUniverse(ops, s.todo[0]);
    match s.todo[0]
    case Attempt(call, _) => EffectStays(ops, s.chain, call, call);
    case GrantAdmin(h) => EffectStays(ops, s.chain, GrantOf(h), GrantOf(h));
    case DropOld(h) => EffectStays(ops, s.chain, DropCall(p, h), RevokeOf(h));
    case _ =>
  }

  lemma StepInUniverse(ops: set<Call>, p: Parties, s: State)
    requires s.todo != [] && PlanInUniverse(ops, s.todo) && CallsInUniverse(ops, s.queue)
    ensures PlanInUniverse(ops, Step(p, s).todo) && CallsInUniverse(ops, Step(p, s).queue)
  {
    var t := Step(p, s);
    assert InUniverse(ops, s.todo[0]);
    var next := Act(p, s.chain, s.todo[0], NextFault(s.faults)).next;
    forall k | 0 <= k < |t.todo| ensures InUniverse(ops, t.todo[k]) {
      if !(k == 0 && next.Then?) {
        var i := WaitingIndex(next, s.todo[1..], k);
        assert t.todo[k] == t.todo[k..][0] == s.todo[1..][i..][0] == s.todo[i + 1];
      }
    }
  }

  // ---------- soundness of the completion flag ----------

  predicate FlaggedBefore(todo: seq<Instr>, j: nat, call: Call)
    requires j <= |todo|
  {
    exists i :: 0 <= i < j && FlagSends(todo[i], call)
  }

  predicate FlagSends(i: Instr, call: Call) {
    Sends(i, call) && i.flagged
  }

  /** A plan that accounts for everything it needs but the calls in `silent`, which are no grants:
      every other plain requirement clears the flag when it fails, and a hand-over from the signer itself follows a
      flagged grant of DefaultAdmin to the account that keeps it. */
  predicate AccountableBut(p: Parties, silent: set<Call>, plan: seq<Instr>) {
    (forall k | k in silent :: !k.GrantRole?) && forall j :: 0 <= j < |plan| ==> AccountableAt(p, silent, plan, j)
  }

  predicate Accountable(p: Parties, plan: seq<Instr>) {
    AccountableBut(p, {}, plan)
  }

  predicate AccountableAt(p: Parties, silent: set<Call>, plan: seq<Instr>, j: nat)
    requires j < |plan|
  {
    match plan[j]
    case MirrorPause(_, _, _) => true
    case Ensure(call, flagged, _) => flagged || call in silent
    case KeepAdmin(h) => h.revoke == p.signer && FlaggedBefore(plan, j, GrantOf(h))
    case ConfirmAdmin(h) => h.revoke == p.signer && FlaggedBefore(plan, j, GrantOf(h))
    case _ => false
  }

  /** `i` is the plan instruction `t` or one of the steps it turns into. */
  predicate Derives(t: Instr, i: Instr) {
    || i == t
    || (match t
        case MirrorPause(_, issuer, asset) =>
          Sends(i, PauseAsset(issuer, asset)) && i.flagged
        case Ensure(call, flagged, _) => i == Attempt(call, flagged)
        case KeepAdmin(h) => i == GrantAdmin(h) || i == Attempt(GrantOf(h), false)
        case ConfirmAdmin(h) => i == CheckOld(h) || i == DropOld(h)
        case _ => false)
  }

  predicate Waiting(todo: seq<Instr>, t: Instr) {
    exists i :: 0 <= i < |todo| && Derives(t, todo[i])
  }

  /** The silent pushes of the hand-over helper happen only after the flag was cleared. */
  predicate FlagSafe(p: Parties, silent: set<Call>, s: State, j: nat)
    requires j < |s.todo|
  {
    match s.todo[j]
    case MirrorPause(_, _, _) => true
    case Ensure(call, flagged, _) => flagged || call in silent
    case Attempt(call, flagged) => flagged || call in silent || !s.complete
    case GrantAdmin(h) => !s.complete
    case KeepAdmin(h) =>
      h.revoke == p.signer && (Done(s.chain, GrantOf(h)) || !s.complete || FlaggedBefore(s.todo, j, GrantOf(h)))
    case ConfirmAdmin(h) =>
      h.revoke == p.signer && (Done(s.chain, GrantOf(h)) || !s.complete || FlaggedBefore(s.todo, j, GrantOf(h)))
    case CheckOld(h) => h.revoke == p.signer
    case DropOld(h) => h.revoke == p.signer
  }

  /** Nothing outside `silent` is left undone or queued behind a flag that is still set. */
  predicate Sound(p: Parties, silent: set<Call>, plan: seq<Instr>, s: State) {
    && s.faults == [] && !s.threw && (forall t | t in plan :: PlanForm(t))
    && (forall k | k in silent :: !k.GrantRole?)
    && (s.complete ==> CallsInUniverse(silent, s.queue))
    && (forall j :: 0 <= j < |s.todo| ==> FlagSafe(p, silent, s, j))
    && (forall t | t in plan :: Met(s.chain, t) || !s.complete || Waiting(s.todo, t) || Silent(silent, t))
  }

  predicate Silent(silent: set<Call>, t: Instr) {
    t.Ensure? && t.call in silent
  }

  lemma StepFlagSafe(ops: set<Call>, p: Parties, silent: set<Call>, plan: seq<Instr>, s: State, k: nat)
    requires Harmonious(ops) && PlanInUniverse(ops, s.todo)
    requires Sound(p, silent, plan, s) && s.todo != [] && k < |Step(p, s).todo|
    ensures FlagSafe(p, silent, Step(p, s), k)
  {
    var next := Act(p, s.chain, s.todo[0], Works).next;
    if k == 0 && next.Then? {
      assert FlagSafe(p, silent, s, 0);
      assert forall call :: !FlaggedBefore(s.todo, 0, call);
    } else {
      var i := WaitingIndex(next, s.todo[1..], k);
      assert s.todo[1..][i..] == s.todo[i + 1..];
      WaitingFlagSafe(ops, p, silent, plan, s, i + 1, k);
    }
  }

  lemma WaitingFlagSafe(ops: set<Call>, p: Parties, silent: set<Call>, plan: seq<Instr>, s: State, j: nat, k: nat)
    requires Harmonious(ops) && PlanInUniverse(ops, s.todo)
    requires Sound(p, silent, plan, s) && 0 < j < |s.todo| && k < |Step(p, s).todo|
    requires Step(p, s).todo[k..] == s.todo[j..]
    ensures FlagSafe(p, silent, Step(p, s), k)
  {
    var t := Step(p, s);
    StepStays(ops, p, s);
    assert t.todo[k] == t.todo[k..][0] == s.todo[j];
    assert FlagSafe(p, silent, s, j) && InUniverse(ops, s.todo[j]);
    if (s.todo[j].KeepAdmin? || s.todo[j].ConfirmAdmin?) && FlaggedBefore(s.todo, j, GrantOf(s.todo[j].h)) {
      FlagMoves(p, s, j, k, GrantOf(s.todo[j].h));
    }
  }

  /** A flagged grant ahead of position j is still ahead, or done, or has cleared the flag. */
  lemma FlagMoves(p: Parties, s: State, j: nat, k: nat, g: Call)
    requires s.todo != [] && s.faults == [] && 0 < j < |s.todo| && g.GrantRole?
    requires k < |Step(p, s).todo| && Step(p, s).todo[k..] == s.todo[j..]
    requires FlaggedBefore(s.todo, j, g)
    ensures Done(Step(p, s).chain, g) || !Step(p, s).complete || FlaggedBefore(Step(p, s).todo, k, g)
  {
    var t := Step(p, s);
    var i :| 0 <= i < j && FlagSends(s.todo[i], g);
    if i == 0 {
      if t.todo != s.todo[1..] {
        assert s.todo[0].Ensure? ==> t.todo == [Attempt(g, true)] + s.todo[1..];
        assert FlagSends(t.todo[0], g);
      }
    } else {
      assert |t.todo| - k == |s.todo| - j;
      assert t.todo[k - j + i] == s.todo[i];
    }
  }

  lemma StepWaits(p: Parties, silent: set<Call>, plan: seq<Instr>, s: State, t: Instr)
    requires Sound(p, silent, plan, s) && s.todo != [] && PlanForm(t) && Waiting(s.todo, t) && !Silent(silent, t)
    ensures Met(Step(p, s).chain, t) || !Step(p, s).complete || Waiting(Step(p, s).todo, t)
  {
    var u := Step(p, s);
    var i :| 0 <= i < |s.todo| && Derives(t, s.todo[i]);
    assert FlagSafe(p, silent, s, 0);
    var next := Act(p, s.chain, s.todo[0], Works).next;
    if i == 0 {
      assert forall call :: !FlaggedBefore(s.todo, 0, call);
      if next.Then? {
        assert Derives(t, u.todo[0]);
      }
    } else {
      var k := if next.Then? then i else i - 1;
      assert u.todo[k] == s.todo[i];
    }
  }

  lemma StepSound(ops: set<Call>, p: Parties, silent: set<Call>, plan: seq<Instr>, s: State)
    requires Harmonious(ops) && PlanInUniverse(ops, s.todo) && PlanInUniverse(ops, plan)
    requires Sound(p, silent, plan, s) && s.todo != []
    ensures Sound(p, silent, plan, Step(p, s))
  {
    var u := Step(p, s);
    assert FlagSafe(p, silent, s, 0);
    StepStays(ops, p, s);
    forall k | 0 <= k < |u.todo| ensures FlagSafe(p, silent, u, k) {
      StepFlagSafe(ops, p, silent, plan, s, k);
    }
    forall t | t in plan ensures Met(u.chain, t) || !u.complete || Waiting(u.todo, t) || Silent(silent, t) {
      if Met(s.chain, t) {
        MetStays(ops, s.chain, u.chain, t);
      } else if s.complete && !Silent(silent, t) {
        StepWaits(p, silent, plan, s, t);
      }
    }
  }

  lemma {:induction false} RunSound(ops: set<Call>, p: Parties, silent: set<Call>, plan: seq<Instr>, s: State)
    requires Harmonious(ops) && PlanInUniverse(ops, s.todo) && CallsInUniverse(ops, s.queue)
    requires PlanInUniverse(ops, plan)
    requires Sound(p, silent, plan, s)
    ensures Sound(p, silent, plan, Run(p, s)) && Run(p, s).todo == []
    ensures Stays(ops, s.chain, Run(p, s).chain)
    decreases |s.todo|, if s.todo == [] then 0 else Weight(s.todo[0])
  {
    if s.todo != [] {
      StepShrinks(p, s);
      StepSound(ops, p, silent, plan, s);
      StepInUniverse(ops, p, s);
      StepStays(ops, p, s);
      RunSound(ops, p, silent, plan, Step(p, s));
    }
  }

  lemma NothingSilent(s: State)
    ensures CallsInUniverse({}, s.queue) <==> s.queue == []
    ensures (forall k | k in s.queue :: k in {}) <==> s.queue == []
  {
    if s.queue != [] {
      assert s.queue[0] in s.queue;
    }
  }

  /** A whole run, from any chain: when it reports completion nothing is queued and
      every requirement of the plan holds. */
  lemma RunReports(ops: set<Call>, p: Parties, plan: seq<Instr>, chain: Chain)
    requires Harmonious(ops) && PlanInUniverse(ops, plan) && Accountable(p, plan)
    ensures var t := Run(p, Fresh(chain, plan, []));
            && !t.threw && t.todo == [] && t.faults == []
            && (t.complete ==> t.queue == [] && AllMet(t.chain, plan))
            && Stays(ops, chain, t.chain)
  {
    FreshSound(p, {}, plan, chain);
    RunSound(ops, p, {}, plan, Fresh(chain, plan, []));
    NothingSilent(Run(p, Fresh(chain, plan, [])));
  }

  // ---------- whole behaviours ----------

  ghost predicate SystemInUniverse(ops: set<Call>, s: System) {
    && PlanInUniverse(ops, s.script.todo)
    && CallsInUniverse(ops, s.script.queue)
    && (forall b | b in s.batches :: CallsInUniverse(ops, b))
  }

  lemma EventStays(r: Rules, ops: set<Call>, plans: set<seq<Instr>>, s: System, e: Event)
    requires Harmonious(ops) && SystemInUniverse(ops, s) && Enabled(r, plans, s, e)
    requires forall plan | plan in plans :: PlanInUniverse(ops, plan)
    ensures SystemInUniverse(ops, Next(r, s, e))
    ensures Stays(ops, s.script.chain, Next(r, s, e).script.chain)
  {
    match e
    case ScriptStep =>
      StepStays(ops, r.p, s.script);
      StepInUniverse(ops, r.p, s.script);
    case SafeExecutes(batch) =>
      if ExecuteBatch(s.script.chain, r.safe, batch).Some? {
        BatchStays(ops, s.script.chain, r.safe, batch);
      }
    case _ =>
  }

  /** A met requirement of the universe stays met along every behaviour. */
  lemma {:induction false} MetForever(r: Rules, ops: set<Call>, plans: set<seq<Instr>>, run: seq<System>,
                                      events: seq<Event>,
                                      i: nat, j: nat, plan: seq<Instr>)
    requires Behaviour(r, plans, run, events) && i <= j < |run|
    requires Harmonious(ops) && PlanInUniverse(ops, plan)
    requires forall other | other in plans :: PlanInUniverse(ops, other)
    ensures SystemInUniverse(ops, run[j])
    ensures AllMet(run[i].script.chain, plan) ==> AllMet(run[j].script.chain, plan)
    decreases j
  {
    if j > 0 {
      MetForever(r, ops, plans, run, events, if i < j then i else i - 1, j - 1, plan);
      assert Enabled(r, plans, run[j - 1], events[j - 1]) && run[j] == Next(r, run[j - 1], events[j - 1]);
      EventStays(r, ops, plans, run[j - 1], events[j - 1]);
      if i < j && AllMet(run[j - 1].script.chain, plan) {
        AllMetStays(ops, run[j - 1].script.chain, run[j].script.chain, plan);
      }
    }
  }

  lemma SoundStays(ops: set<Call>, p: Parties, silent: set<Call>, plan: seq<Instr>, s: State, after: Chain)
    requires PlanInUniverse(ops, s.todo) && PlanInUniverse(ops, plan)
    requires Stays(ops, s.chain, after) && Sound(p, silent, plan, s)
    ensures Sound(p, silent, plan, s.(chain := after))
  {
    forall j | 0 <= j < |s.todo| ensures FlagSafe(p, silent, s.(chain := after), j) {
      assert FlagSafe(p, silent, s, j) && InUniverse(ops, s.todo[j]);
    }
    forall t | t in plan ensures Met(after, t) || !s.complete || Waiting(s.todo, t) || Silent(silent, t) {
      if Met(s.chain, t) {
        MetStays(ops, s.chain, after, t);
      }
    }
  }

  lemma FreshSound(p: Parties, silent: set<Call>, plan: seq<Instr>, chain: Chain)
    requires AccountableBut(p, silent, plan)
    ensures Sound(p, silent, plan, Fresh(chain, plan, []))
  {
    var s := Fresh(chain, plan, []);
    forall j | 0 <= j < |plan| ensures FlagSafe(p, silent, s, j) {
      assert AccountableAt(p, silent, plan, j);
    }
    forall t | t in plan ensures PlanForm(t) && Waiting(plan, t) {
      var j :| 0 <= j < |plan| && plan[j] == t;
      assert AccountableAt(p, silent, plan, j);
      assert Derives(t, plan[j]);
    }
  }

  /** Nothing restarts the script between positions i and j of a behaviour. */
  predicate Uninterrupted(events: seq<Event>, i: nat, j: nat)
    requires j <= |events|
  {
    forall k :: i <= k < j ==> !events[k].Restart?
  }

  /** Whatever batches the Safe executes while the script runs: when a run that started with
      `plan` ends with its flag still set, only silent calls are queued and every requirement
      of the plan but theirs holds on chain. */
  lemma {:induction false} CompletionBut(r: Rules, ops: set<Call>, silent: set<Call>, plans: set<seq<Instr>>,
                                         plan: seq<Instr>, run: seq<System>, events: seq<Event>, i: nat, j: nat)
    requires Behaviour(r, plans, run, events) && !r.anyFault && Harmonious(ops)
    requires forall other | other in plans :: PlanInUniverse(ops, other)
    requires i < j < |run| && events[i] == Restart(plan, []) && Uninterrupted(events, i + 1, j)
    requires AccountableBut(r.p, silent, plan)
    ensures Sound(r.p, silent, plan, run[j].script)
    ensures run[j].script.todo == [] && run[j].script.complete ==>
              && (forall k | k in run[j].script.queue :: k in silent)
              && (forall t | t in plan :: Met(run[j].script.chain, t) || Silent(silent, t))
    decreases j
  {
    assert Enabled(r, plans, run[j - 1], events[j - 1]) && run[j] == Next(r, run[j - 1], events[j - 1]);
    assert Enabled(r, plans, run[i], events[i]);
    MetForever(r, ops, plans, run, events, 0, j - 1, plan);
    if j == i + 1 {
      FreshSound(r.p, silent, plan, run[i].script.chain);
    } else {
      CompletionBut(r, ops, silent, plans, plan, run, events, i, j - 1);
      EventStays(r, ops, plans, run[j - 1], events[j - 1]);
      match events[j - 1]
      case ScriptStep => StepSound(ops, r.p, silent, plan, run[j - 1].script);
      case SafeExecutes(batch) =>
        SoundStays(ops, r.p, silent, plan, run[j - 1].script, run[j].script.chain);
      case _ =>
    }
  }

  /** Completion soundness: when no call is silent, nothing is queued and everything holds. */
  lemma CompletionSound(r: Rules, ops: set<Call>, plans: set<seq<Instr>>, plan: seq<Instr>, run: seq<System>,
                        events: seq<Event>, i: nat, j: nat)
    requires Behaviour(r, plans, run, events) && !r.anyFault && Harmonious(ops)
    requires forall other | other in plans :: PlanInUniverse(ops, other)
    requires i < j < |run| && events[i] == Restart(plan, []) && Uninterrupted(events, i + 1, j)
    requires Accountable(r.p, plan)
    ensures run[j].script.todo == [] && run[j].script.complete ==>
              run[j].script.queue == [] && AllMet(run[j].script.chain, plan)
  {
    CompletionBut(r, ops, {}, plans, plan, run, events, i, j);
    NothingSilent(run[j].script);
  }

  // ---------- the converse: met requirements leave nothing to do ----------

  /** From a chain on which every requirement of the plan holds, the script sends
      nothing, queues nothing and reports completion. */
  lemma {:induction false} MetRunIsQuiet(p: Parties, s: State)
    requires s.faults == [] && AllMet(s.chain, s.todo) && (forall t | t in s.todo :: PlanForm(t) || t.CheckOld?)
    ensures Run(p, s) == s.(todo := [])
    decreases |s.todo|, if s.todo == [] then 0 else Weight(s.todo[0])
  {
    if s.todo != [] {
      var t := Step(p, s);
      assert Met(s.chain, s.todo[0]) && s.todo[0] in s.todo;
      StepShrinks(p, s);
      if s.todo[0].MirrorPause? && s.chain.IsPaused(s.todo[0].legacy, s.todo[0].asset) {
        assert t == s.(todo := [Ensure(PauseAsset(s.todo[0].issuer, s.todo[0].asset), true, Propagate)] + s.todo[1..]);
      }
      MetRunIsQuiet(p, t);
    }
  }
}
