/** The deployment scripts as instruction lists. One step performs exactly one
    awaited network request, so that anything may happen between two steps. */
module Script {
  import opened AccessControl

  /** How the network treats one request. A lost transaction takes effect
      although the script sees an error. */
  datatype Fault = Works | Fails | Lost

  /** What an error while reading a requirement does to the script. */
  datatype OnThrow =
    | Propagate   // no try block: the script ends with the error
    | MarkPending // the catch block clears the completion flag
    | Abandon     // the catch block gives up the rest of the enclosing section

  datatype Handover = Handover(contract: Address, keep: Address, revoke: Address)

  datatype Instr =
    | MirrorPause(legacy: Address, issuer: Address, asset: Address)
    | Ensure(call: Call, flagged: bool, onThrow: OnThrow)
    | Attempt(call: Call, flagged: bool)
    | KeepAdmin(h: Handover)
    | GrantAdmin(h: Handover)
    | ConfirmAdmin(h: Handover)
    | CheckOld(h: Handover)
    | DropOld(h: Handover)

  /** The instructions plans are written in; the others only arise while one of these is carried out. */
  predicate PlanForm(i: Instr) {
    i.MirrorPause? || i.Ensure? || i.KeepAdmin? || i.ConfirmAdmin?
  }

  /** Who signs direct calls, and whether failed ones are queued for the Safe. */
  datatype Parties = Parties(signer: Address, useSafe: bool)

  /** A running script: the chain it sees, its executor's queue, its completion
      flag, what is left to do, and the faults still to come. */
  datatype State = State(
    chain: Chain,
    queue: seq<Call>,
    complete: bool,
    threw: bool,
    todo: seq<Instr>,
    faults: seq<Fault>)

  function NextFault(faults: seq<Fault>): Fault {
    if faults == [] then Works else faults[0]
  }

  function LaterFaults(faults: seq<Fault>): seq<Fault> {
    if faults == [] then [] else faults[1..]
  }

  function GrantOf(h: Handover): Call {
    GrantRole(h.contract, DefaultAdmin, h.keep)
  }

  function RevokeOf(h: Handover): Call {
    RevokeRole(h.contract, DefaultAdmin, h.revoke)
  }

  /** The transaction that removes the old admin: a caller removing itself renounces. */
  function DropCall(p: Parties, h: Handover): Call {
    if p.signer == h.revoke then RenounceRole(h.contract, DefaultAdmin, h.revoke) else RevokeOf(h)
  }

  /** A direct call by the signer: the chain afterwards. */
  function ChainAfter(p: Parties, chain: Chain, call: Call, fault: Fault): Chain {
    var result := Execute(chain, p.signer, call);
    if fault == Fails || result.None? then chain else result.value
  }

  /** A direct call by the signer: did it report success? */
  predicate Succeeds(p: Parties, chain: Chain, call: Call, fault: Fault) {
    fault == Works && Execute(chain, p.signer, call).Some?
  }

  /** Leaves the section an abandoned instruction belongs to. */
  function LeaveSection(todo: seq<Instr>): seq<Instr> {
    if todo != [] && todo[0].Ensure? && todo[0].onThrow == Abandon then LeaveSection(todo[1..]) else todo
  }

  lemma {:induction false} LeaveSectionIsSuffix(todo: seq<Instr>)
    ensures exists n :: 0 <= n <= |todo| && LeaveSection(todo) == todo[n..]
  {
    if todo != [] && todo[0].Ensure? && todo[0].onThrow == Abandon {
      LeaveSectionIsSuffix(todo[1..]);
      var n :| 0 <= n <= |todo[1..]| && LeaveSection(todo[1..]) == todo[1..][n..];
      assert todo[1..][n..] == todo[n + 1..];
    } else {
      assert todo[0..] == todo;
    }
  }

  datatype Control = Go | Then(instr: Instr) | Throw | Leave

  /** What one request of one instruction does: the chain afterwards, what is
      pushed to the queue, whether the completion flag is cleared, and what
      takes the instruction's place. */
  datatype Reaction = Reaction(chain: Chain, queued: seq<Call>, clears: bool, next: Control)

  /** A direct call whose error handler is the instruction `otherwise`. */
  function React(p: Parties, chain: Chain, call: Call, fault: Fault, otherwise: Instr): Reaction {
    Reaction(ChainAfter(p, chain, call, fault), [], false,
             if Succeeds(p, chain, call, fault) then Go else Then(otherwise))
  }

  function Act(p: Parties, chain: Chain, instr: Instr, fault: Fault): Reaction {
    match instr
    case MirrorPause(legacy, issuer, asset) =>
      Reaction(chain, [], false,
               if fault != Works then Throw
               else if chain.IsPaused(legacy, asset) then Then(Ensure(PauseAsset(issuer, asset), true, Propagate))
               else Go)
    case Ensure(call, flagged, onThrow) =>
      Reaction(chain, [], fault != Works && onThrow == MarkPending,
               if fault != Works then
                 (match onThrow case Propagate => Throw case MarkPending => Go case Abandon => Leave)
               else if Done(chain, call) then Go
               else Then(Attempt(call, flagged)))
    case Attempt(call, flagged) =>
      var failed := !Succeeds(p, chain, call, fault);
      Reaction(ChainAfter(p, chain, call, fault), if failed && p.useSafe then [call] else [], failed && flagged, Go)
    case KeepAdmin(h) =>
      Reaction(chain, [], false,
               if fault != Works then Then(Attempt(GrantOf(h), false))
               else if Done(chain, GrantOf(h)) then Go
               else Then(GrantAdmin(h)))
    case GrantAdmin(h) =>
      React(p, chain, GrantOf(h), fault, Attempt(GrantOf(h), false))
    case ConfirmAdmin(h) =>
      Reaction(chain, [], false, if fault == Works && Done(chain, GrantOf(h)) then Then(CheckOld(h)) else Go)
    case CheckOld(h) =>
      Reaction(chain, [], false, if fault == Works && !Done(chain, RevokeOf(h)) then Then(DropOld(h)) else Go)
    case DropOld(h) =>
      React(p, chain, DropCall(p, h), fault, Attempt(RevokeOf(h), false))
  }

  function Continue(next: Control, rest: seq<Instr>): seq<Instr> {
    match next
    case Go => rest
    case Then(instr) => [instr] + rest
    case Throw => []
    case Leave => LeaveSection(rest)
  }

  function Step(p: Parties, s: State): State
    requires s.todo != []
  {
    var r := Act(p, s.chain, s.todo[0], NextFault(s.faults));
    State(r.chain, s.queue + r.queued, s.complete && !r.clears, s.threw || r.next.Throw?,
          Continue(r.next, s.todo[1..]), LaterFaults(s.faults))
  }

  /** Where an instruction that is still waiting after a step was waiting before it. */
  lemma WaitingIndex(next: Control, rest: seq<Instr>, k: nat) returns (j: nat)
    requires k < |Continue(next, rest)| && (next.Then? ==> k > 0)
    ensures j < |rest| && rest[j..] == Continue(next, rest)[k..]
  {
    match next {
      case Then(instr) => j := k - 1;
      case Leave =>
        LeaveSectionIsSuffix(rest);
        var n: nat :| n <= |rest| && LeaveSection(rest) == rest[n..];
        j := n + k;
        assert rest[n..][k..] == rest[n + k..];
      case _ => j := k;
    }
  }

  function Weight(i: Instr): nat {
    match i
    case MirrorPause(_, _, _) => 3
    case Ensure(_, _, _) => 2
    case Attempt(_, _) => 1
    case KeepAdmin(_) => 3
    case GrantAdmin(_) => 2
    case ConfirmAdmin(_) => 4
    case CheckOld(_) => 3
    case DropOld(_) => 2
  }

  lemma StepShrinks(p: Parties, s: State)
    requires s.todo != []
    ensures var t := Step(p, s);
            |t.todo| < |s.todo| || (|t.todo| == |s.todo| && t.todo[1..] == s.todo[1..] &&
                Weight(t.todo[0]) < Weight(s.todo[0]))
  {
    LeaveSectionIsSuffix(s.todo[1..]);
  }

  /** Runs the script to its end with nobody else acting on the chain. */
  function Run(p: Parties, s: State): State
    decreases |s.todo|, if s.todo == [] then 0 else Weight(s.todo[0])
  {
    if s.todo == [] then s
    else
      StepShrinks(p, s);
      Run(p, Step(p, s))
  }

  /** The sub-script that hands DefaultAdmin over (ensureDefaultAdminExistsAndRevokeFrom). */
  function HandoverPlan(h: Handover): seq<Instr> {
    [KeepAdmin(h), ConfirmAdmin(h)]
  }

  predicate StartsSection(todo: seq<Instr>) {
    todo != [] && todo[0].Ensure? && todo[0].onThrow == Abandon
  }

  lemma {:induction false} LeaveSectionAppend(a: seq<Instr>, b: seq<Instr>)
    requires !StartsSection(b)
    ensures LeaveSection(a + b) == LeaveSection(a) + b
  {
    if a == [] {
      assert a + b == b;
    } else {
      assert (a + b)[1..] == a[1..] + b;
      if StartsSection(a) {
        LeaveSectionAppend(a[1..], b);
      }
    }
  }

  lemma StepAppend(p: Parties, s: State, more: seq<Instr>)
    requires s.todo != [] && !s.threw && !StartsSection(more)
    ensures var t := Step(p, s);
            Step(p, s.(todo := s.todo + more)) == if t.threw then t else t.(todo := t.todo + more)
  {
    var rest := s.todo[1..];
    var next := Act(p, s.chain, s.todo[0], NextFault(s.faults)).next;
    assert (s.todo + more)[1..] == rest + more;
    LeaveSectionAppend(rest, more);
    if next.Then? {
      assert [next.instr] + rest + more == [next.instr] + (rest + more);
    }
  }

  /** Running one list of instructions after another. An error in the first skips the second. */
  lemma {:induction false} RunAppend(p: Parties, s: State, more: seq<Instr>)
    requires !s.threw && !StartsSection(more)
    ensures var t := Run(p, s);
            Run(p, s.(todo := s.todo + more)) == if t.threw then t else Run(p, t.(todo := more))
    decreases |s.todo|, if s.todo == [] then 0 else Weight(s.todo[0])
  {
    if s.todo == [] {
      assert s.todo + more == more;
    } else {
      StepShrinks(p, s);
      StepAppend(p, s, more);
      if !Step(p, s).threw {
        RunAppend(p, Step(p, s), more);
      }
    }
  }

  /** The completion flag is only ever cleared, and nothing depends on it. */
  lemma {:induction false} RunFlag(p: Parties, s: State)
    ensures Run(p, s.(complete := false)) == Run(p, s.(complete := true)).(complete := false)
    ensures s.todo == [] ==> Run(p, s) == s
    decreases |s.todo|, if s.todo == [] then 0 else Weight(s.todo[0])
  {
    if s.todo != [] {
      var a, b := s.(complete := false), s.(complete := true);
      StepShrinks(p, s);
      assert Step(p, a) == Step(p, b).(complete := false);
      RunFlag(p, Step(p, b));
    }
  }

  /** The queue is only ever appended to, and nothing depends on it. */
  lemma {:induction false} RunQueue(p: Parties, s: State, earlier: seq<Call>)
    ensures Run(p, s.(queue := earlier + s.queue)) == Run(p, s).(queue := earlier + Run(p, s).queue)
    decreases |s.todo|, if s.todo == [] then 0 else Weight(s.todo[0])
  {
    if s.todo != [] {
      var t := Step(p, s);
      StepShrinks(p, s);
      assert Step(p, s.(queue := earlier + s.queue)) == t.(queue := earlier + t.queue);
      RunQueue(p, t, earlier);
    }
  }
}
