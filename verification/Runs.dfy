/** How the run of a plan is made up of the runs of its parts. */
module Runs {
  import opened AccessControl
  import opened Script

  /** A helper's run, as part of its caller's. */
  lemma RunThen(p: Parties, s: State, first: seq<Instr>, rest: seq<Instr>)
    requires s.todo == first + rest && !s.threw && !StartsSection(rest)
    ensures var t := Run(p, s.(todo := first, complete := true));
            var u := t.(complete := t.complete && s.complete);
            Run(p, s) == if t.threw then u else Run(p, u.(todo := rest))
  {
    var b := s.(todo := first);
    RunAppend(p, b, rest);
    RunFlag(p, b);
    assert b.(todo := b.todo + rest) == s;
    assert b.(complete := true) == s.(todo := first, complete := true);
  }

  /** Running a list is carrying out its head, then the rest. */
  lemma RunHead(p: Parties, s: State, head: Instr, rest: seq<Instr>)
    requires s.todo == [head] + rest
    ensures var r := Act(p, s.chain, head, NextFault(s.faults));
            var queue := if r.queued == [] then s.queue else s.queue + r.queued;
            Run(p, s) == Run(p, State(r.chain, queue, s.complete && !r.clears, s.threw || r.next.Throw?,
                                      Continue(r.next, rest), LaterFaults(s.faults)))
  {
    StepShrinks(p, s);
    assert s.todo[0] == head && s.todo[1..] == rest && s.queue + [] == s.queue;
  }

  /** A run that starts with the flag already cleared reports the same, but for the flag. */
  lemma RunAnd(p: Parties, s: State)
    ensures var t := Run(p, s.(complete := true));
            Run(p, s) == t.(complete := t.complete && s.complete)
  {
    RunFlag(p, s);
    assert s == s.(complete := s.complete);
  }

  /** A run beside what is already queued and flagged is a run of its own. */
  lemma RunBeside(p: Parties, s: State)
    ensures var alone := State(s.chain, [], true, s.threw, s.todo, s.faults);
            var t := Run(p, alone);
            Run(p, s) == t.(queue := s.queue + t.queue, complete := t.complete && s.complete)
  {
    var alone := State(s.chain, [], true, s.threw, s.todo, s.faults);
    RunAnd(p, s);
    RunQueue(p, alone, s.queue);
    assert s.queue + [] == s.queue && alone.(queue := s.queue + alone.queue) == s.(complete := true);
  }

  /** What the three kinds of try block make of the same requirement. */
  lemma RunEnsure(p: Parties, s: State, call: Call, flagged: bool, onThrow: OnThrow)
    requires !s.threw && s.complete
    ensures var t := Run(p, s.(todo := [Ensure(call, true, Propagate)]));
            Run(p, s.(todo := [Ensure(call, flagged, onThrow)])) ==
            if t.threw then t.(threw := onThrow == Propagate, complete := onThrow != MarkPending)
            else t.(complete := t.complete || !flagged)
    ensures Run(p, s.(todo := [Ensure(call, true, Propagate)])).threw ==>
              Run(p, s.(todo := [Ensure(call, true, Propagate)])).complete
  {
    RunHead(p, s.(todo := [Ensure(call, true, Propagate)] + []), Ensure(call, true, Propagate), []);
    RunHead(p, s.(todo := [Ensure(call, flagged, onThrow)] + []), Ensure(call, flagged, onThrow), []);
    var t := s.(faults := LaterFaults(s.faults));
    RunHead(p, t.(todo := [Attempt(call, true)] + []), Attempt(call, true), []);
    RunHead(p, t.(todo := [Attempt(call, flagged)] + []), Attempt(call, flagged), []);
  }

  /** Two parts of a script, one after the other: an error in the first ends the script. */
  lemma Sequence(p: Parties, s: State, first: seq<Instr>, rest: seq<Instr>)
    requires s.todo == first + rest && !s.threw && s.complete && !StartsSection(rest)
    ensures var t := Run(p, s.(todo := first));
            Run(p, s) ==
            if t.threw then t
            else var u := Run(p, t.(todo := rest, complete := true)); u.(complete := u.complete && t.complete)
  {
    RunThen(p, s, first, rest);
    var t := Run(p, s.(todo := first));
    assert s.(todo := first, complete := true) == s.(todo := first);
    RunAnd(p, t.(todo := rest));
    assert t.(todo := rest).(complete := true) == t.(todo := rest, complete := true);
  }

  /** A propagating requirement leaves nothing to abandon, so any section may follow it. */
  lemma EnsureThenOld(p: Parties, s: State, call: Call, rest: seq<Instr>)
    requires s.todo == [Ensure(call, true, Propagate)] + rest && !s.threw && s.complete
    ensures var t := Run(p, s.(todo := [Ensure(call, true, Propagate)]));
            Run(p, s) == if t.threw then t else Run(p, t.(todo := rest))
  {
    var one := s.(todo := [Ensure(call, true, Propagate)] + []);
    assert one == s.(todo := [Ensure(call, true, Propagate)]);
    RunHead(p, s, Ensure(call, true, Propagate), rest);
    RunHead(p, one, Ensure(call, true, Propagate), []);
    var t := s.(faults := LaterFaults(s.faults));
    RunHead(p, t.(todo := [Attempt(call, true)] + rest), Attempt(call, true), rest);
    RunHead(p, t.(todo := [Attempt(call, true)] + []), Attempt(call, true), []);
  }

  /** The state in which a plain requirement leaves the script when its reading works. */
  function Ensured(p: Parties, s: State, call: Call, flagged: bool): State {
    var t := s.(faults := LaterFaults(s.faults));
    if Done(s.chain, call) then t
    else
      var fault := NextFault(t.faults);
      var sent := Succeeds(p, s.chain, call, fault);
      t.(chain := ChainAfter(p, s.chain, call, fault), faults := LaterFaults(t.faults),
         queue := if sent || !p.useSafe then s.queue else s.queue + [call],
         complete := s.complete && (sent || !flagged))
  }

  lemma RunRequirement(p: Parties, s: State, call: Call, flagged: bool, onThrow: OnThrow, rest: seq<Instr>)
    requires s.todo == [Ensure(call, flagged, onThrow)] + rest
    ensures NextFault(s.faults) == Works ==> Run(p, s) == Run(p, Ensured(p, s, call, flagged).(todo := rest))
    ensures NextFault(s.faults) != Works && onThrow == Propagate ==>
              Run(p, s) == s.(faults := LaterFaults(s.faults), threw := true, todo := [])
  {
    RunHead(p, s, Ensure(call, flagged, onThrow), rest);
    if NextFault(s.faults) == Works {
      var t := s.(faults := LaterFaults(s.faults), todo := [Attempt(call, flagged)] + rest);
      RunHead(p, t, Attempt(call, flagged), rest);
    }
  }
}
