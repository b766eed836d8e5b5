/** A section of requirements in one try block whose catch block only logs: an error while
    reading abandons the rest, and nothing reports it. */
module Sections {
  import opened AccessControl
  import opened Script
  import opened Runs

  function SectionPlan(calls: seq<Call>): (plan: seq<Instr>)
    ensures |plan| == |calls|
  {
    seq(|calls|, i requires 0 <= i < |calls| => Ensure(calls[i], true, Abandon))
  }

  /** The state in which a section leaves the script. */
  function SectionEnd(p: Parties, s: State, calls: seq<Call>): State
    decreases |calls|
  {
    if calls == [] then s
    else if NextFault(s.faults) != Works then s.(faults := LaterFaults(s.faults))
    else SectionEnd(p, Ensured(p, s, calls[0], true), calls[1..])
  }

  lemma {:induction false} SectionAbandoned(calls: seq<Call>, rest: seq<Instr>)
    requires !StartsSection(rest)
    ensures LeaveSection(SectionPlan(calls) + rest) == rest
    decreases |calls|
  {
    if calls == [] {
      assert SectionPlan(calls) + rest == rest;
    } else {
      assert (SectionPlan(calls) + rest)[1..] == SectionPlan(calls[1..]) + rest;
      SectionAbandoned(calls[1..], rest);
    }
  }

  lemma {:induction false} SectionRun(p: Parties, s: State, calls: seq<Call>, rest: seq<Instr>)
    requires s.todo == SectionPlan(calls) + rest && !StartsSection(rest)
    ensures Run(p, s) == Run(p, SectionEnd(p, s, calls).(todo := rest))
    ensures SectionEnd(p, s, calls).threw == s.threw
    decreases |calls|
  {
    if calls == [] {
      assert s.todo == rest;
    } else {
      var head, others := Ensure(calls[0], true, Abandon), SectionPlan(calls[1..]) + rest;
      assert s.todo == [head] + others;
      if NextFault(s.faults) != Works {
        RunHead(p, s, head, others);
        SectionAbandoned(calls[1..], rest);
      } else {
        RunRequirement(p, s, calls[0], true, Abandon, others);
        var t := Ensured(p, s, calls[0], true);
        SectionRun(p, t.(todo := others), calls[1..], rest);
        TodoIrrelevant(p, t, calls[1..], others, rest);
      }
    }
  }

  lemma {:induction false} TodoIrrelevant(p: Parties, s: State, calls: seq<Call>, a: seq<Instr>, b: seq<Instr>)
    ensures SectionEnd(p, s.(todo := a), calls).(todo := b) == SectionEnd(p, s, calls).(todo := b)
    decreases |calls|
  {
    if calls != [] && NextFault(s.faults) == Works {
      assert Ensured(p, s.(todo := a), calls[0], true) == Ensured(p, s, calls[0], true).(todo := a);
      TodoIrrelevant(p, Ensured(p, s, calls[0], true), calls[1..], a, b);
    }
  }

  // ---------- when a section ends unfinished and unnoticed ----------

  function FaultAt(faults: seq<Fault>, i: nat): Fault {
    if i < |faults| then faults[i] else Works
  }

  /** The chain once all the calls have been sent; sending one that is done changes nothing. */
  function Sent(chain: Chain, calls: seq<Call>): Chain
    decreases |calls|
  {
    if calls == [] then chain else Sent(Effect(chain, calls[0]), calls[1..])
  }

  /** How many requests that takes: a read for each call, and the call if it is not done. */
  function Requests(chain: Chain, calls: seq<Call>): nat
    decreases |calls|
  {
    if calls == [] then 0
    else (if Done(chain, calls[0]) then 1 else 2) + Requests(Effect(chain, calls[0]), calls[1..])
  }

  predicate FirstFaultAt(faults: seq<Fault>, r: nat) {
    (forall i :: 0 <= i < r ==> FaultAt(faults, i) == Works) && FaultAt(faults, r) != Works
  }

  /** None of the first n calls is rejected when its turn comes. */
  predicate Sendable(p: Parties, chain: Chain, calls: seq<Call>, n: nat)
    requires n <= |calls|
  {
    forall i :: 0 <= i < n ==>
      Done(Sent(chain, calls[..i]), calls[i]) || Execute(Sent(chain, calls[..i]), p.signer, calls[i]).Some?
  }

  predicate SomeUndone(chain: Chain, calls: seq<Call>) {
    exists k :: k in calls && !Done(chain, k)
  }

  /** The first request to fail is the read of requirement n, nothing before it was
      rejected, and from n on something is not done. */
  predicate UnnoticedAt(p: Parties, chain: Chain, calls: seq<Call>, faults: seq<Fault>, n: nat)
    requires n <= |calls|
  {
    && FirstFaultAt(faults, Requests(chain, calls[..n]))
    && Sendable(p, chain, calls, n)
    && SomeUndone(Sent(chain, calls[..n]), calls[n..])
  }

  predicate Unnoticed(p: Parties, chain: Chain, calls: seq<Call>, faults: seq<Fault>) {
    exists n :: 0 <= n < |calls| && UnnoticedAt(p, chain, calls, faults, n)
  }

  /** The same, call by call. */
  predicate Skips(p: Parties, chain: Chain, calls: seq<Call>, faults: seq<Fault>)
    decreases |calls|
  {
    calls != [] &&
    if NextFault(faults) != Works then SomeUndone(chain, calls)
    else
      HeadSent(p, chain, calls[0], faults) &&
          Skips(p, Effect(chain, calls[0]), calls[1..], Consumed(chain, calls[0], faults))
  }

  predicate HeadSent(p: Parties, chain: Chain, call: Call, faults: seq<Fault>) {
    Done(chain, call) || Succeeds(p, chain, call, NextFault(LaterFaults(faults)))
  }

  function Consumed(chain: Chain, call: Call, faults: seq<Fault>): seq<Fault> {
    if Done(chain, call) then LaterFaults(faults) else LaterFaults(LaterFaults(faults))
  }

  lemma ConsumedAt(chain: Chain, call: Call, faults: seq<Fault>, i: nat)
    ensures FaultAt(Consumed(chain, call, faults), i) == FaultAt(faults, i + if Done(chain, call) then 1 else 2)
    ensures NextFault(faults) == FaultAt(faults, 0) && NextFault(LaterFaults(faults)) == FaultAt(faults, 1)
  {
  }

  lemma FirstFaultShift(chain: Chain, call: Call, faults: seq<Fault>, r: nat)
    ensures FirstFaultAt(faults, r + if Done(chain, call) then 1 else 2) <==>
            && NextFault(faults) == Works && (Done(chain, call) || NextFault(LaterFaults(faults)) == Works)
            && FirstFaultAt(Consumed(chain, call, faults), r)
  {
    var w := if Done(chain, call) then 1 else 2;
    var later := Consumed(chain, call, faults);
    ConsumedAt(chain, call, faults, r);
    if FirstFaultAt(faults, r + w) {
      forall i | 0 <= i < r ensures FaultAt(later, i) == Works {
        ConsumedAt(chain, call, faults, i);
      }
    }
    if NextFault(faults) == Works && (w == 1 || NextFault(LaterFaults(faults)) == Works) && FirstFaultAt(later, r) {
      forall i | 0 <= i < r + w ensures FaultAt(faults, i) == Works {
        if i >= w {
          ConsumedAt(chain, call, faults, i - w);
          assert FaultAt(later, i - w) == Works;
        }
      }
    }
  }

  lemma SendableHead(p: Parties, chain: Chain, calls: seq<Call>, n: nat)
    requires 0 < n <= |calls|
    ensures Sendable(p, chain, calls, n) <==>
            && (Done(chain, calls[0]) || Execute(chain, p.signer, calls[0]).Some?)
            && Sendable(p, Effect(chain, calls[0]), calls[1..], n - 1)
  {
    var next, rest := Effect(chain, calls[0]), calls[1..];
    assert calls[..0] == [] && Sent(chain, calls[..0]) == chain;
    forall i | 0 < i < n ensures Sent(chain, calls[..i]) == Sent(next, rest[..i - 1]) && calls[i] == rest[i - 1] {
      assert calls[..i][1..] == rest[..i - 1];
    }
    if Sendable(p, chain, calls, n) {
      forall i | 0 <= i < n - 1
        ensures Done(Sent(next, rest[..i]), rest[i]) || Execute(Sent(next, rest[..i]), p.signer, rest[i]).Some?
      {
        assert Sent(chain, calls[..i + 1]) == Sent(next, rest[..i]) && calls[i + 1] == rest[i];
      }
    }
  }

  lemma UnnoticedHead(p: Parties, chain: Chain, calls: seq<Call>, faults: seq<Fault>, n: nat)
    requires 0 < n < |calls|
    ensures UnnoticedAt(p, chain, calls, faults, n) <==>
            && NextFault(faults) == Works && HeadSent(p, chain, calls[0], faults)
            && UnnoticedAt(p, Effect(chain, calls[0]), calls[1..], Consumed(chain, calls[0], faults), n - 1)
  {
    var rest := calls[1..];
    assert calls[..n][1..] == rest[..n - 1] && rest[n - 1..] == calls[n..];
    FirstFaultShift(chain, calls[0], faults, Requests(Effect(chain, calls[0]), rest[..n - 1]));
    SendableHead(p, chain, calls, n);
  }

  lemma {:induction false} SkipsGoUnnoticed(p: Parties, chain: Chain, calls: seq<Call>, faults: seq<Fault>)
    requires Skips(p, chain, calls, faults)
    ensures Unnoticed(p, chain, calls, faults)
    decreases |calls|
  {
    if NextFault(faults) != Works {
      assert calls[..0] == [] && calls[0..] == calls;
      assert UnnoticedAt(p, chain, calls, faults, 0);
    } else {
      var next, rest, later := Effect(chain, calls[0]), calls[1..], Consumed(chain, calls[0], faults);
      SkipsGoUnnoticed(p, next, rest, later);
      var n :| 0 <= n < |rest| && UnnoticedAt(p, next, rest, later, n);
      UnnoticedHead(p, chain, calls, faults, n + 1);
    }
  }

  lemma {:induction false} UnnoticedIsSkipped(p: Parties, chain: Chain, calls: seq<Call>, faults: seq<Fault>, n: nat)
    requires n < |calls| && UnnoticedAt(p, chain, calls, faults, n)
    ensures Skips(p, chain, calls, faults)
    decreases |calls|
  {
    if n == 0 {
      assert calls[..0] == [] && calls[0..] == calls;
    } else {
      UnnoticedHead(p, chain, calls, faults, n);
      UnnoticedIsSkipped(p, Effect(chain, calls[0]), calls[1..], Consumed(chain, calls[0], faults), n - 1);
    }
  }

  lemma SkipsIsUnnoticed(p: Parties, chain: Chain, calls: seq<Call>, faults: seq<Fault>)
    ensures Skips(p, chain, calls, faults) <==> Unnoticed(p, chain, calls, faults)
  {
    if Skips(p, chain, calls, faults) {
      SkipsGoUnnoticed(p, chain, calls, faults);
    } else if Unnoticed(p, chain, calls, faults) {
      var n :| 0 <= n < |calls| && UnnoticedAt(p, chain, calls, faults, n);
      UnnoticedIsSkipped(p, chain, calls, faults, n);
    }
  }

  // ---------- the exact condition ----------

  predicate Compatible(calls: seq<Call>) {
    forall a, b | a in calls && b in calls :: !Opposite(a, b)
  }

  lemma {:induction false} DoneStays(p: Parties, s: State, calls: seq<Call>, k: Call)
    requires Done(s.chain, k) && forall a | a in calls :: !Opposite(a, k)
    ensures Done(SectionEnd(p, s, calls).chain, k)
    decreases |calls|
  {
    if calls != [] && NextFault(s.faults) == Works {
      EffectEstablishes(s.chain, calls[0], k);
      DoneStays(p, Ensured(p, s, calls[0], true), calls[1..], k);
    }
  }

  lemma {:induction false} FlagStaysCleared(p: Parties, s: State, calls: seq<Call>)
    requires !s.complete
    ensures !SectionEnd(p, s, calls).complete
    decreases |calls|
  {
    if calls != [] && NextFault(s.faults) == Works {
      FlagStaysCleared(p, Ensured(p, s, calls[0], true), calls[1..]);
    }
  }

  /** A section leaves the flag set with something not done exactly when its first failing
      request is a read ahead of something not done, and nothing before was rejected. */
  lemma {:induction false} SectionUnnoticedExactly(p: Parties, s: State, calls: seq<Call>)
    requires s.complete && Compatible(calls)
    ensures var e := SectionEnd(p, s, calls);
            e.complete && SomeUndone(e.chain, calls) <==> Unnoticed(p, s.chain, calls, s.faults)
    decreases |calls|
  {
    SkipsIsUnnoticed(p, s.chain, calls, s.faults);
    if calls != [] && NextFault(s.faults) == Works {
      var head, rest, t := calls[0], calls[1..], Ensured(p, s, calls[0], true);
      assert forall k | k in rest :: k in calls;
      if HeadSent(p, s.chain, head, s.faults) {
        EffectEstablishes(s.chain, head, head);
        assert Done(s.chain, head) ==> Effect(s.chain, head) == s.chain;
        SectionUnnoticedExactly(p, t, rest);
        SkipsIsUnnoticed(p, t.chain, rest, t.faults);
        DoneStays(p, t, rest, head);
        assert calls == [head] + rest;
        var e := SectionEnd(p, s, calls);
        assert SomeUndone(e.chain, calls) <==> SomeUndone(e.chain, rest);
      } else {
        FlagStaysCleared(p, t, rest);
      }
    }
  }
}
