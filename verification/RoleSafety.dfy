/** Safety of role hand-overs over every interleaving: a direct call by the
    signer, a push, a flush, an atomic batch executed by the Safe (once, twice or
    never), a crash and a restart may follow one another in any order. */
module RoleSafety {
  import opened Wrappers
  import opened AccessControl
  import opened Script

  /** Who may act, and who must hold a membership's role before the scripts may
      take that membership away. With `anyFault` every request may fail or be
      lost; without it requests fail only for want of authorisation. */
  datatype Rules = Rules(p: Parties, safe: Address, heirs: map<Membership, Address>, anyFault: bool)

  function HeirGrant(r: Rules, m: Membership): Call
    requires m in r.heirs
  {
    GrantRole(m.contract, m.role, r.heirs[m])
  }

  predicate HeirHolds(r: Rules, chain: Chain, m: Membership)
    requires m in r.heirs
  {
    chain.Has(m.contract, m.role, r.heirs[m])
  }

  /** The calls the theorems allow in a plan: none takes an heir's role, and without
      arbitrary failures none gives the signer a role. */
  predicate CallOk(r: Rules, call: Call) {
    && (call.GrantRole? && !r.anyFault ==> call.account != r.p.signer)
    && (forall m | m in r.heirs :: Removal(call) != Some(Member(m.contract, m.role, r.heirs[m])))
  }

  predicate HandoverOk(r: Rules, h: Handover) {
    var m := Member(h.contract, DefaultAdmin, h.revoke);
    && CallOk(r, GrantOf(h))
    && CallOk(r, RevokeOf(h))
    && (m in r.heirs ==> r.heirs[m] == h.keep)
  }

  predicate InstrOk(r: Rules, i: Instr) {
    match i
    case MirrorPause(_, _, _) => true
    case Ensure(call, _, _) => CallOk(r, call) && !call.RenounceRole?
    case Attempt(call, _) => CallOk(r, call) && !call.RenounceRole?
    case KeepAdmin(h) => HandoverOk(r, h)
    case GrantAdmin(h) => HandoverOk(r, h)
    case ConfirmAdmin(h) => HandoverOk(r, h)
    case CheckOld(h) => HandoverOk(r, h)
    case DropOld(h) => HandoverOk(r, h)
  }

  /** The membership an instruction may take away without first reading the heir's. */
  function Takes(i: Instr): Option<Membership> {
    match i
    case Ensure(call, _, _) => Removal(call)
    case Attempt(call, _) => Removal(call)
    case CheckOld(h) => Some(Member(h.contract, DefaultAdmin, h.revoke))
    case DropOld(h) => Some(Member(h.contract, DefaultAdmin, h.revoke))
    case _ => None
  }

  predicate Sends(i: Instr, call: Call) {
    (i.Ensure? || i.Attempt?) && i.call == call
  }

  predicate SentBefore(todo: seq<Instr>, j: nat, call: Call)
    requires j <= |todo|
  {
    exists i :: 0 <= i < j && Sends(todo[i], call)
  }

  /** A plan as a script starts with it: hand-overs in their first form, and every
      plain removal of a tracked membership after the grant to its heir. */
  predicate PlanOk(r: Rules, plan: seq<Instr>) {
    forall j :: 0 <= j < |plan| ==> PlanInstrOk(r, plan, j)
  }

  predicate PlanInstrOk(r: Rules, plan: seq<Instr>, j: nat)
    requires j < |plan|
  {
    && PlanForm(plan[j])
    && InstrOk(r, plan[j])
    && (Takes(plan[j]).Some? && Takes(plan[j]).value in r.heirs ==>
          !r.anyFault && SentBefore(plan, j, HeirGrant(r, Takes(plan[j]).value)))
  }

  // ---------- the invariant ----------

  /** The heir's grant could not be sent directly and waits in the queue; the
      removal will meet the same lack of authorisation. */
  predicate Deferred(r: Rules, s: State, m: Membership)
    requires m in r.heirs
  {
    && (r.p.useSafe ==> HeirGrant(r, m) in s.queue)
    && !s.chain.Has(m.contract, s.chain.RoleAdmin(m.contract, m.role), r.p.signer)
  }

  predicate Justified(r: Rules, s: State, j: nat)
    requires j < |s.todo|
  {
    Takes(s.todo[j]).Some? && Takes(s.todo[j]).value in r.heirs ==>
      var m := Takes(s.todo[j]).value;
      || HeirHolds(r, s.chain, m)
      || (!r.anyFault && !s.todo[j].CheckOld? && !s.todo[j].DropOld?
          && (SentBefore(s.todo, j, HeirGrant(r, m)) || Deferred(r, s, m)))
  }

  predicate RemovalOk(r: Rules, chain: Chain, calls: seq<Call>, j: nat)
    requires j < |calls|
  {
    && CallOk(r, calls[j])
    && !calls[j].RenounceRole?
    && (Removal(calls[j]).Some? && Removal(calls[j]).value in r.heirs ==>
          || HeirHolds(r, chain, Removal(calls[j]).value)
          || HeirGrant(r, Removal(calls[j]).value) in calls[..j])
  }

  predicate BatchOk(r: Rules, chain: Chain, calls: seq<Call>) {
    forall j :: 0 <= j < |calls| ==> RemovalOk(r, chain, calls, j)
  }

  predicate ScriptInv(r: Rules, s: State) {
    && (!r.anyFault ==> s.faults == [])
    && (forall j :: 0 <= j < |s.todo| ==> InstrOk(r, s.todo[j]))
    && (forall j :: 0 <= j < |s.todo| ==> Justified(r, s, j))
    && BatchOk(r, s.chain, s.queue)
  }

  // ---------- what one transaction can do ----------

  /** What every allowed transaction keeps: heirs lose nothing, a tracked membership
      goes only while its heir holds the role, and without arbitrary failures the
      signer gains nothing. */
  ghost predicate Keeps(r: Rules, before: Chain, after: Chain) {
    && after.roleAdmins == before.roleAdmins
    && (forall m | m in r.heirs :: HeirHolds(r, before, m) ==> HeirHolds(r, after, m))
    && (forall m | m in r.heirs :: m in before.members && m !in after.members ==> HeirHolds(r, after, m))
    && (!r.anyFault ==> forall m: Membership :: m.account == r.p.signer && m in after.members ==> m in before.members)
  }

  lemma KeepsTransitive(r: Rules, a: Chain, b: Chain, c: Chain)
    requires Keeps(r, a, b) && Keeps(r, b, c)
    ensures Keeps(r, a, c)
  {
  }

  lemma EffectKeeps(r: Rules, chain: Chain, call: Call)
    requires CallOk(r, call)
    requires Removal(call).Some? && Removal(call).value in r.heirs ==> HeirHolds(r, chain, Removal(call).value)
    ensures Keeps(r, chain, Effect(chain, call))
  {
  }

  lemma BatchOkStays(r: Rules, before: Chain, after: Chain, calls: seq<Call>)
    requires BatchOk(r, before, calls) && Keeps(r, before, after)
    ensures BatchOk(r, after, calls)
  {
    forall j | 0 <= j < |calls| ensures RemovalOk(r, after, calls, j) {
      assert RemovalOk(r, before, calls, j);
    }
  }

  /** Every prefix of a justified batch keeps what single transactions keep, and
      each removal inside it meets a state in which the heir already holds the role. */
  lemma {:induction false} BatchKeeps(r: Rules, chain: Chain, calls: seq<Call>)
    requires BatchOk(r, chain, calls)
    requires ExecuteBatch(chain, r.safe, calls).Some?
    ensures Keeps(r, chain, ExecuteBatch(chain, r.safe, calls).value)
    decreases |calls|
  {
    if calls != [] {
      var next := Execute(chain, r.safe, calls[0]).value;
      assert RemovalOk(r, chain, calls, 0);
      EffectKeeps(r, chain, calls[0]);
      BatchTail(r, chain, calls);
      BatchKeeps(r, next, calls[1..]);
      KeepsTransitive(r, chain, next, ExecuteBatch(chain, r.safe, calls).value);
    }
  }

  lemma BatchTail(r: Rules, chain: Chain, calls: seq<Call>)
    requires calls != [] && BatchOk(r, chain, calls)
    ensures BatchOk(r, Effect(chain, calls[0]), calls[1..])
  {
    var next := Effect(chain, calls[0]);
    assert RemovalOk(r, chain, calls, 0);
    EffectKeeps(r, chain, calls[0]);
    forall j | 0 <= j < |calls[1..]| ensures RemovalOk(r, next, calls[1..], j) {
      assert RemovalOk(r, chain, calls, j + 1);
      assert calls[1..][j] == calls[j + 1];
      assert calls[..j + 1] == [calls[0]] + calls[1..][..j];
    }
  }

  lemma {:induction false} BatchPrefixOk(r: Rules, chain: Chain, calls: seq<Call>, n: nat)
    requires n <= |calls| && BatchOk(r, chain, calls)
    ensures BatchOk(r, chain, calls[..n])
  {
    forall j | 0 <= j < n ensures RemovalOk(r, chain, calls[..n], j) {
      assert RemovalOk(r, chain, calls, j);
      assert calls[..n][..j] == calls[..j];
    }
  }

  /** Mid-batch: when the Safe reaches the removal at position n, the heir holds the role. */
  lemma {:induction false} BatchRemovalMeetsHeir(r: Rules, chain: Chain, calls: seq<Call>, n: nat)
    requires BatchOk(r, chain, calls) && n < |calls|
    requires Removal(calls[n]).Some? && Removal(calls[n]).value in r.heirs
    requires ExecuteBatch(chain, r.safe, calls[..n]).Some?
    ensures HeirHolds(r, ExecuteBatch(chain, r.safe, calls[..n]).value, Removal(calls[n]).value)
    decreases n
  {
    assert RemovalOk(r, chain, calls, n);
    if n > 0 {
      BatchTail(r, chain, calls);
      assert calls[..n][1..] == calls[1..][..n - 1];
      BatchRemovalMeetsHeir(r, Effect(chain, calls[0]), calls[1..], n - 1);
    }
  }

  // ---------- one step of the script ----------

  lemma ChainAfterKeeps(r: Rules, s: State, call: Call)
    requires ScriptInv(r, s) && s.todo != [] && CallOk(r, call)
    requires match s.todo[0] {
               case Attempt(c, _) => call == c
               case DropOld(h) => call == DropCall(r.p, h)
               case _ => false
             }
    ensures Keeps(r, s.chain, ChainAfter(r.p, s.chain, call, NextFault(s.faults)))
  {
    assert Justified(r, s, 0) && InstrOk(r, s.todo[0]);
    if Execute(s.chain, r.p.signer, call).Some? {
      if Removal(call).Some? && Removal(call).value in r.heirs {
        var m := Removal(call).value;
        assert !SentBefore(s.todo, 0, HeirGrant(r, m));
        // Had the grant been deferred, the signer could not send the removal either.
        assert HeirHolds(r, s.chain, m);
      }
      EffectKeeps(r, s.chain, call);
    }
  }

  lemma ActKeeps(r: Rules, s: State)
    requires ScriptInv(r, s) && s.todo != []
    ensures Keeps(r, s.chain, Step(r.p, s).chain)
  {
    match s.todo[0]
    case Attempt(call, _) => ChainAfterKeeps(r, s, call);
    case GrantAdmin(h) =>
      if Execute(s.chain, r.p.signer, GrantOf(h)).Some? {
        EffectKeeps(r, s.chain, GrantOf(h));
      }
    case DropOld(h) => ChainAfterKeeps(r, s, DropCall(r.p, h));
    case _ =>
  }

  /** What the script pushes is justified where it lands in the queue. */
  lemma PushKeeps(r: Rules, s: State)
    requires ScriptInv(r, s) && s.todo != []
    ensures BatchOk(r, Step(r.p, s).chain, Step(r.p, s).queue)
  {
    var t := Step(r.p, s);
    ActKeeps(r, s);
    BatchOkStays(r, s.chain, t.chain, s.queue);
    forall j | 0 <= j < |t.queue| ensures RemovalOk(r, t.chain, t.queue, j) {
      if j < |s.queue| {
        assert RemovalOk(r, t.chain, s.queue, j);
        assert t.queue[..j] == s.queue[..j];
      } else {
        assert s.todo[0].Attempt? && t.queue == s.queue + [s.todo[0].call];
        assert InstrOk(r, s.todo[0]) && Justified(r, s, 0);
        assert t.queue[..j] == s.queue;
      }
    }
  }

  /** An instruction that was already waiting stays justified. */
  lemma WaitingStaysJustified(r: Rules, s: State, j: nat, k: nat)
    requires ScriptInv(r, s) && 0 < j < |s.todo|
    requires var t := Step(r.p, s); k < |t.todo| && t.todo[k..] == s.todo[j..]
    requires |s.todo| - j == |Step(r.p, s).todo| - k
    requires Act(r.p, s.chain, s.todo[0], NextFault(s.faults)).next.Leave? ==> r.anyFault
    ensures Justified(r, Step(r.p, s), k)
  {
    var t := Step(r.p, s);
    ActKeeps(r, s);
    assert Justified(r, s, j) && t.todo[k] == s.todo[j];
    if Takes(s.todo[j]).Some? && Takes(s.todo[j]).value in r.heirs {
      var m := Takes(s.todo[j]).value;
      var g := HeirGrant(r, m);
      if !HeirHolds(r, s.chain, m) && SentBefore(s.todo, j, g) {
        var i :| 0 <= i < j && Sends(s.todo[i], g);
        if i == 0 {
          HeadGrant(r, s, m);
          if t.todo != s.todo[1..] && t.todo != [] && Sends(t.todo[0], g) {
            assert SentBefore(t.todo, k, g);
          }
        } else {
          assert Sends(t.todo[k - j + i], g);
          assert SentBefore(t.todo, k, g);
        }
      }
    }
  }

  /** The heir's grant at the head: it holds, or it is about to be sent, or it is queued. */
  lemma HeadGrant(r: Rules, s: State, m: Membership)
    requires ScriptInv(r, s) && s.todo != [] && !r.anyFault
    requires m in r.heirs && Sends(s.todo[0], HeirGrant(r, m))
    ensures var t := Step(r.p, s);
            || HeirHolds(r, t.chain, m)
            || Deferred(r, t, m)
            || (s.todo[0].Ensure? && t.todo == [Attempt(HeirGrant(r, m), s.todo[0].flagged)] + s.todo[1..])
  {
  }

  /** What takes the head's place is justified too. */
  lemma FollowUpJustified(r: Rules, s: State)
    requires ScriptInv(r, s) && s.todo != []
    requires Act(r.p, s.chain, s.todo[0], NextFault(s.faults)).next.Then?
    ensures InstrOk(r, Step(r.p, s).todo[0]) && Justified(r, Step(r.p, s), 0)
  {
    ActKeeps(r, s);
    assert InstrOk(r, s.todo[0]) && Justified(r, s, 0);
    assert forall call :: !SentBefore(s.todo, 0, call);
  }

  lemma StepJustifies(r: Rules, s: State, k: nat)
    requires ScriptInv(r, s) && s.todo != [] && k < |Step(r.p, s).todo|
    ensures InstrOk(r, Step(r.p, s).todo[k]) && Justified(r, Step(r.p, s), k)
  {
    var t := Step(r.p, s);
    var next := Act(r.p, s.chain, s.todo[0], NextFault(s.faults)).next;
    if k == 0 && next.Then? {
      FollowUpJustified(r, s);
    } else {
      var i := WaitingIndex(next, s.todo[1..], k);
      assert s.todo[1..][i..] == s.todo[i + 1..];
      assert t.todo[k] == t.todo[k..][0] == s.todo[i + 1];
      assert InstrOk(r, s.todo[i + 1]);
      WaitingStaysJustified(r, s, i + 1, k);
    }
  }

  lemma StepKeepsInv(r: Rules, s: State)
    requires ScriptInv(r, s) && s.todo != []
    ensures ScriptInv(r, Step(r.p, s))
    ensures Keeps(r, s.chain, Step(r.p, s).chain)
  {
    ActKeeps(r, s);
    PushKeeps(r, s);
    forall k | 0 <= k < |Step(r.p, s).todo|
      ensures InstrOk(r, Step(r.p, s).todo[k]) && Justified(r, Step(r.p, s), k)
    {
      StepJustifies(r, s, k);
    }
  }

  /** An undisturbed run, as the scripts of module Deployment carry it out, is safe too. */
  lemma {:induction false} RunKeepsInv(r: Rules, s: State)
    requires ScriptInv(r, s)
    ensures ScriptInv(r, Run(r.p, s)) && Keeps(r, s.chain, Run(r.p, s).chain)
    decreases |s.todo|, if s.todo == [] then 0 else Weight(s.todo[0])
  {
    if s.todo != [] {
      StepShrinks(r.p, s);
      StepKeepsInv(r, s);
      RunKeepsInv(r, Step(r.p, s));
      KeepsTransitive(r, s.chain, Step(r.p, s).chain, Run(r.p, s).chain);
    }
  }

  // ---------- the transition system ----------

  /** The deployer's side and the Safe's: a script run and the batches handed to the Safe so far. */
  datatype System = System(script: State, batches: set<seq<Call>>)

  datatype Event =
    | ScriptStep
    | Flush
    | SafeExecutes(batch: seq<Call>)
    | Restart(plan: seq<Instr>, faults: seq<Fault>)

  function Fresh(chain: Chain, plan: seq<Instr>, faults: seq<Fault>): State {
    State(chain, [], true, false, plan, faults)
  }

  /** The Safe executes a batch atomically: a batch with a reverting call changes nothing. */
  function AfterBatch(chain: Chain, safe: Address, batch: seq<Call>): Chain {
    var result := ExecuteBatch(chain, safe, batch);
    if result.None? then chain else result.value
  }

  predicate Enabled(r: Rules, plans: set<seq<Instr>>, s: System, e: Event) {
    match e
    case ScriptStep => s.script.todo != []
    case Flush => r.p.useSafe && s.script.queue != []
    case SafeExecutes(batch) => batch in s.batches
    case Restart(plan, faults) => plan in plans && (!r.anyFault ==> faults == [])
  }

  function Next(r: Rules, s: System, e: Event): System
    requires e.ScriptStep? ==> s.script.todo != []
  {
    match e
    case ScriptStep => s.(script := Step(r.p, s.script))
    case Flush => s.(batches := s.batches + {s.script.queue})
    case SafeExecutes(batch) => s.(script := s.script.(chain := AfterBatch(s.script.chain, r.safe, batch)))
    case Restart(plan, faults) => s.(script := Fresh(s.script.chain, plan, faults))
  }

  ghost predicate Inv(r: Rules, s: System) {
    && ScriptInv(r, s.script)
    && (forall b | b in s.batches :: BatchOk(r, s.script.chain, b))
  }

  lemma PlanStartsJustified(r: Rules, chain: Chain, plan: seq<Instr>, faults: seq<Fault>)
    requires PlanOk(r, plan) && (!r.anyFault ==> faults == [])
    ensures ScriptInv(r, Fresh(chain, plan, faults))
  {
    var s := Fresh(chain, plan, faults);
    forall j | 0 <= j < |s.todo| ensures InstrOk(r, s.todo[j]) && Justified(r, s, j) {
      assert PlanInstrOk(r, plan, j);
    }
  }

  lemma BatchEventKeeps(r: Rules, s: System, batch: seq<Call>)
    requires Inv(r, s) && batch in s.batches
    ensures var after := AfterBatch(s.script.chain, r.safe, batch);
            Keeps(r, s.script.chain, after) && ScriptInv(r, s.script.(chain := after))
  {
    var before := s.script.chain;
    var after := AfterBatch(before, r.safe, batch);
    if ExecuteBatch(before, r.safe, batch).Some? {
      BatchKeeps(r, before, batch);
    }
    var t := s.script.(chain := after);
    BatchOkStays(r, before, after, t.queue);
    forall j | 0 <= j < |t.todo| ensures InstrOk(r, t.todo[j]) && Justified(r, t, j) {
      assert InstrOk(r, s.script.todo[j]) && Justified(r, s.script, j);
    }
  }

  /** Every event keeps the invariant, and takes a tracked membership away only
      into a state in which the heir holds the role. */
  lemma EventKeepsInv(r: Rules, plans: set<seq<Instr>>, s: System, e: Event)
    requires Inv(r, s) && Enabled(r, plans, s, e)
    requires forall plan | plan in plans :: PlanOk(r, plan)
    ensures Inv(r, Next(r, s, e))
    ensures Keeps(r, s.script.chain, Next(r, s, e).script.chain)
  {
    var t := Next(r, s, e);
    match e {
      case ScriptStep => StepKeepsInv(r, s.script);
      case Flush =>
      case SafeExecutes(batch) => BatchEventKeeps(r, s, batch);
      case Restart(plan, faults) => PlanStartsJustified(r, s.script.chain, plan, faults);
    }
    forall b | b in t.batches ensures BatchOk(r, t.script.chain, b) {
      if b in s.batches {
        BatchOkStays(r, s.script.chain, t.script.chain, b);
      }
    }
  }

  /** Nothing is running, queued or with the Safe yet. */
  predicate Initial(s: System) {
    s.script.todo == [] && s.script.queue == [] && s.script.faults == [] && s.batches == {}
  }

  /** A finite run of the system: `run[i + 1]` follows `run[i]` by `events[i]`. */
  ghost predicate Behaviour(r: Rules, plans: set<seq<Instr>>, run: seq<System>, events: seq<Event>) {
    && |run| == |events| + 1
    && Initial(run[0])
    && (forall i :: 0 <= i < |events| ==>
        Enabled(r, plans, run[i], events[i]) && run[i + 1] == Next(r, run[i], events[i]))
  }

  ghost predicate Covered(r: Rules, chain: Chain, m: Membership)
    requires m in r.heirs
  {
    m in chain.members || HeirHolds(r, chain, m)
  }

  /** Main safety theorem. Along every behaviour of any set of well-ordered plans:
      a tracked role that its holder or its heir holds at the start is held by one
      of them in every state, and an heir that holds a role never loses it. */
  lemma {:induction false} RoleCover(r: Rules, plans: set<seq<Instr>>, run: seq<System>, events: seq<Event>, i: nat,
                                     j: nat)
    requires Behaviour(r, plans, run, events) && i <= j < |run|
    requires forall plan | plan in plans :: PlanOk(r, plan)
    ensures Inv(r, run[j])
    ensures forall m | m in r.heirs :: Covered(r, run[i].script.chain, m) ==> Covered(r, run[j].script.chain, m)
    ensures forall m | m in r.heirs :: HeirHolds(r, run[i].script.chain, m) ==> HeirHolds(r, run[j].script.chain, m)
    decreases j
  {
    if j > 0 {
      RoleCover(r, plans, run, events, if i < j then i else i - 1, j - 1);
      assert Enabled(r, plans, run[j - 1], events[j - 1]) && run[j] == Next(r, run[j - 1], events[j - 1]);
      EventKeepsInv(r, plans, run[j - 1], events[j - 1]);
    }
  }

  /** No lockout: in every behaviour the membership of `m` ends only in a state in
      which its heir holds the role, whatever requests failed or were lost before. */
  lemma {:induction false} RemovalMeetsHeir(r: Rules, plans: set<seq<Instr>>, run: seq<System>, events: seq<Event>,
                                            i: nat, m: Membership)
    requires Behaviour(r, plans, run, events) && i + 1 < |run|
    requires forall plan | plan in plans :: PlanOk(r, plan)
    requires m in r.heirs && m in run[i].script.chain.members && m !in run[i + 1].script.chain.members
    ensures HeirHolds(r, run[i + 1].script.chain, m)
    ensures !events[i].SafeExecutes? ==> HeirHolds(r, run[i].script.chain, m)
  {
    RoleCover(r, plans, run, events, 0, i);
    assert Enabled(r, plans, run[i], events[i]) && run[i + 1] == Next(r, run[i], events[i]);
    EventKeepsInv(r, plans, run[i], events[i]);
    if !events[i].SafeExecutes? {
      StepRemovalMeetsHeir(r, run[i].script, m);
    }
  }

  lemma StepRemovalMeetsHeir(r: Rules, s: State, m: Membership)
    requires ScriptInv(r, s) && s.todo != [] && m in r.heirs
    requires m in s.chain.members && m !in Step(r.p, s).chain.members
    ensures HeirHolds(r, s.chain, m)
  {
    assert Justified(r, s, 0) && InstrOk(r, s.todo[0]);
    assert !SentBefore(s.todo, 0, HeirGrant(r, m));
    StepKeepsInv(r, s);
  }

  /** Inside a batch the Safe is executing: every state the batch passes through
      is covered, and each removal in it finds the heir in place. */
  lemma {:induction false} MidBatchCover(r: Rules, plans: set<seq<Instr>>, run: seq<System>, events: seq<Event>,
                                         i: nat, batch: seq<Call>, n: nat)
    requires Behaviour(r, plans, run, events) && i < |run| && batch in run[i].batches && n <= |batch|
    requires forall plan | plan in plans :: PlanOk(r, plan)
    requires ExecuteBatch(run[i].script.chain, r.safe, batch[..n]).Some?
    ensures var mid := ExecuteBatch(run[i].script.chain, r.safe, batch[..n]).value;
            && (forall m | m in r.heirs :: Covered(r, run[0].script.chain, m) ==> Covered(r, mid, m))
            && (n < |batch| && Removal(batch[n]).Some? && Removal(batch[n]).value in r.heirs ==>
                  HeirHolds(r, mid, Removal(batch[n]).value))
  {
    RoleCover(r, plans, run, events, 0, i);
    BatchPrefixOk(r, run[i].script.chain, batch, n);
    BatchKeeps(r, run[i].script.chain, batch[..n]);
    if n < |batch| && Removal(batch[n]).Some? && Removal(batch[n]).value in r.heirs {
      BatchRemovalMeetsHeir(r, run[i].script.chain, batch, n);
    }
  }
}
