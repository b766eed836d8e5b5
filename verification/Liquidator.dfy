/** The Curve liquidator bot: filter the ignored users, batch the rest, try each
    liquidatable user and put the unprofitable ones into the ignore memory. */
module Liquidator {
  import opened Wrappers
  import opened Batches
  import opened Lists
  import opened Pairing
  import opened IgnoreMemory

  /** A clock that does not go back. */
  class Clock {
    var now: nat

    constructor ()
    {
      now := 0;
    }

    method Now() returns (t: nat)
      modifies this
      ensures old(now) <= now == t
    {
      var passed: int := *;
      now := now + (if passed > 0 then passed else 0);
      t := now;
    }
  }

  // ---------- one user ----------

  // a Malformed error makes the handler itself throw
  datatype Error = NotProfitable | NoDefinedPools | OtherError | Malformed

  /** How the outside answers while one user is tried. */
  datatype Trial = Trial(
    nothingToLiquidate: Result<bool>, // liquidation parameters: is the amount zero?
    profitInUSD: Result<real>,
    liquidated: bool,                 // does the liquidation go through?
    announced: bool,                  // is the success message built?
    error: Error,                     // what any thrown error looks like
    saved: bool)                      // is the user's state written?

  predicate CallsLiquidation(t: Trial, threshold: real) {
    t.nothingToLiquidate == Success(false) && t.profitInUSD.Success? && t.profitInUSD.value >= threshold
  }

  /** An error reaches the catch block. */
  predicate Throws(t: Trial, threshold: real) {
    || t.nothingToLiquidate.Failure?
    || (t.nothingToLiquidate == Success(false) && t.profitInUSD.Failure?)
    || (CallsLiquidation(t, threshold) && !(t.liquidated && t.announced))
  }

  predicate HandlerThrows(t: Trial, threshold: real) {
    Throws(t, threshold) && t.error == Malformed
  }

  predicate Succeeds(t: Trial, threshold: real) {
    CallsLiquidation(t, threshold) && t.liquidated && t.announced
  }

  /** The user goes into the ignore memory. */
  predicate Records(t: Trial, threshold: real) {
    !Succeeds(t, threshold) && !HandlerThrows(t, threshold)
  }

  datatype Event =
    | Tried(user: string, at: nat)
    | Liquidation(user: string)
    | Recorded(user: string, at: nat)
    | Saved(user: string, success: bool)

  function RecordPart(user: string, recorded: bool, end: nat): seq<Event> {
    if recorded then [Recorded(user, end)] else []
  }

  /** What the try block leaves in the log. */
  function BlockPart(user: string, t: Trial, threshold: real, start: nat, end: nat): seq<Event> {
    if CallsLiquidation(t, threshold) then [Tried(user, start), Liquidation(user)]
    else if Throws(t, threshold) then [Tried(user, start)]
    else [Tried(user, start), Recorded(user, end)]
  }

  /** What trying a user leaves in the log. */
  function Trace(user: string, t: Trial, threshold: real, start: nat, end: nat): seq<Event> {
    [Tried(user, start)]
    + (if CallsLiquidation(t, threshold) then [Liquidation(user)] else [])
    + RecordPart(user, Records(t, threshold), end)
    + (if !HandlerThrows(t, threshold) && t.saved then [Saved(user, Succeeds(t, threshold))] else [])
  }

  /** The try block, spelled out: when it throws, and what it leaves in the log. */
  lemma BlockMeans(user: string, t: Trial, threshold: real, start: nat, end: nat)
    ensures var worth := t.nothingToLiquidate == Success(false);
            var pays := worth && t.profitInUSD.Success? && t.profitInUSD.value >= threshold;
            var success := pays && t.liquidated && t.announced;
            var threw := t.nothingToLiquidate.Failure? || (worth && t.profitInUSD.Failure?) || (pays && !success);
            && (Succeeds(t, threshold) <==> success) && (Throws(t, threshold) <==> threw)
            && BlockPart(user, t, threshold, start, end) ==
               [Tried(user, start)] + if pays then [Liquidation(user)] else if threw then [] else [Recorded(user, end)]
  {
  }

  /** The trace is what the try block leaves, then what its handler does, then what is saved. */
  lemma TraceParts(user: string, t: Trial, threshold: real, start: nat, blockEnd: nat, end: nat)
    requires !Throws(t, threshold) ==> end == blockEnd
    ensures Trace(user, t, threshold, start, end) ==
              BlockPart(user, t, threshold, start, blockEnd)
              + (if Throws(t, threshold) && !HandlerThrows(t, threshold) then [Recorded(user, end)] else [])
              + (if !HandlerThrows(t, threshold) && t.saved then [Saved(user, Succeeds(t, threshold))] else [])
  {
  }

  lemma LogParts(log: seq<Event>, a: seq<Event>, b: seq<Event>, c: seq<Event>)
    ensures log + a + b + c == log + (a + b + c)
    ensures b == [] ==> log + a + b == log + a
    ensures c == [] ==> log + a + b + c == log + a + b
  {
  }

  /** The trace, spelled out. */
  lemma TraceMeans(user: string, t: Trial, threshold: real, start: nat, end: nat)
    ensures var worth := t.nothingToLiquidate == Success(false);
            var pays := worth && t.profitInUSD.Success? && t.profitInUSD.value >= threshold;
            var success := pays && t.liquidated && t.announced;
            var threw := t.nothingToLiquidate.Failure? || (worth && t.profitInUSD.Failure?) || (pays && !success);
            var broken := threw && t.error == Malformed;
            && (GoesOn(t, threshold) <==> !broken && t.saved)
            && Trace(user, t, threshold, start, end) ==
               [Tried(user, start)]
               + (if pays then [Liquidation(user)] else [])
               + (if success || broken then [] else [Recorded(user, end)])
               + (if broken || !t.saved then [] else [Saved(user, success)])
  {
  }

  /** What becomes of a user, by the answers of the outside. Liquidation is called exactly when
      there is something to liquidate and the profit reaches the threshold. Unless the catch
      handler itself throws, the user is recorded exactly when it is not both liquidated and
      announced, and saved as successful exactly when it is. */
  lemma OutcomeExactly(user: string, t: Trial, threshold: real, start: nat, end: nat)
    ensures var trace := Trace(user, t, threshold, start, end);
            var pays := t.nothingToLiquidate == Success(false) && t.profitInUSD.Success?
                        && t.profitInUSD.value >= threshold;
            && (Liquidation(user) in trace <==> pays)
            && (pays && t.liquidated && t.announced ==>
                  trace == [Tried(user, start), Liquidation(user)] + if t.saved then [Saved(user, true)] else [])
            && (t.error != Malformed && !(pays && t.liquidated && t.announced) ==>
                  trace == [Tried(user, start)] + (if pays then [Liquidation(user)] else [])
                           + [Recorded(user, end)] + if t.saved then [Saved(user, false)] else [])
            && (t.nothingToLiquidate == Success(true)
                || (t.nothingToLiquidate == Success(false) && t.profitInUSD.Success? && !pays) ==>
                  trace == [Tried(user, start), Recorded(user, end)] + if t.saved then [Saved(user, false)] else [])
  {
  }

  // ---------- the back-off property ----------

  /** Every try comes at least `duration` after every earlier record of the same user. */
  predicate BackedOff(log: seq<Event>, duration: int) {
    forall i, j :: 0 <= i < j < |log| && log[i].Recorded? && log[j].Tried? && log[i].user == log[j].user ==>
      log[i].at + duration <= log[j].at
  }

  /** The user was recorded long enough before `now`, if ever. */
  predicate FreeToTry(log: seq<Event>, duration: int, user: string, now: nat) {
    forall i :: 0 <= i < |log| && log[i].Recorded? && log[i].user == user ==> log[i].at + duration <= now
  }

  function TriedUsers(log: seq<Event>): seq<string> {
    if log == [] then []
    else (if log[0].Tried? then [log[0].user] else []) + TriedUsers(log[1..])
  }

  lemma {:induction false} TriedAppend(a: seq<Event>, b: seq<Event>)
    ensures TriedUsers(a + b) == TriedUsers(a) + TriedUsers(b)
  {
    if a == [] {
      assert a + b == b;
    } else {
      assert (a + b)[1..] == a[1..] + b;
      TriedAppend(a[1..], b);
    }
  }

  lemma TraceTries(user: string, t: Trial, threshold: real, start: nat, end: nat)
    ensures TriedUsers(Trace(user, t, threshold, start, end)) == [user]
  {
    var trace := Trace(user, t, threshold, start, end);
    forall i | 0 < i < |trace| ensures !trace[i].Tried? {
    }
    NoneTried(trace[1..]);
  }

  lemma {:induction false} NoneTried(log: seq<Event>)
    requires forall i :: 0 <= i < |log| ==> !log[i].Tried?
    ensures TriedUsers(log) == []
  {
    if log != [] {
      NoneTried(log[1..]);
    }
  }

  /** Trying a user who is free keeps the property. */
  lemma TraceBacksOff(log: seq<Event>, duration: int, user: string, t: Trial, threshold: real, start: nat, end: nat)
    requires BackedOff(log, duration) && FreeToTry(log, duration, user, start)
    ensures BackedOff(log + Trace(user, t, threshold, start, end), duration)
  {
  }

  /** Trying one user leaves the others free. */
  lemma OthersStayFree(log: seq<Event>, duration: int, user: string, other: string, t: Trial, threshold: real,
                       start: nat, end: nat, now: nat, later: nat)
    requires user != other && now <= later && FreeToTry(log, duration, other, now)
    ensures FreeToTry(log + Trace(user, t, threshold, start, end), duration, other, later)
  {
  }

  /** Whoever is not among the users and was free stays free. */
  ghost predicate LeavesFree(users: seq<string>, duration: int, before: seq<Event>, now: nat, after: seq<Event>,
                             later: nat) {
    forall u | u !in users && FreeToTry(before, duration, u, now) :: FreeToTry(after, duration, u, later)
  }

  lemma LeavesFreeAfter(users: seq<string>, user: string, duration: int, a: seq<Event>, t: nat, b: seq<Event>, u: nat,
                        c: seq<Event>, v: nat)
    requires LeavesFree(users, duration, a, t, b, u) && LeavesFree([user], duration, b, u, c, v) && user in users
    ensures LeavesFree(users, duration, a, t, c, v)
  {
  }

  predicate AllFree(log: seq<Event>, duration: int, users: seq<string>, now: nat) {
    forall k :: 0 <= k < |users| ==> FreeToTry(log, duration, users[k], now)
  }

  lemma RestStaysFree(infos: seq<UserInfo>, i: nat, log: seq<Event>, duration: int, t: Trial, threshold: real,
                      start: nat, end: nat, now: nat, later: nat)
    requires i < |infos| && DistinctUsers(infos) && now <= later
    requires AllFree(log, duration, UsersOf(infos)[i..], now)
    ensures AllFree(log + Trace(infos[i].user, t, threshold, start, end), duration, UsersOf(infos)[i + 1..], later)
  {
  }

  // ---------- the log goes on ----------

  predicate Since(e: Event, now: nat) {
    (e.Tried? || e.Recorded?) ==> now <= e.at
  }

  predicate Until(e: Event, now: nat) {
    (e.Tried? || e.Recorded?) ==> e.at <= now
  }

  /** The history is that of the log: the latest record of each user, none later than `now`. */
  ghost predicate Recalls(log: seq<Event>, lastPut: map<string, nat>, now: nat) {
    && (forall k :: 0 <= k < |log| ==> Until(log[k], now))
    && (forall k :: 0 <= k < |log| && log[k].Recorded? ==>
          log[k].user in lastPut && log[k].at <= lastPut[log[k].user])
    && (forall v | v in lastPut :: lastPut[v] <= now && Recorded(v, lastPut[v]) in log)
  }

  lemma RecallsLater(log: seq<Event>, lastPut: map<string, nat>, now: nat, later: nat)
    requires Recalls(log, lastPut, now) && now <= later
    ensures Recalls(log, lastPut, later)
  {
    forall k | 0 <= k < |log| ensures Until(log[k], later) {
      assert Until(log[k], now);
    }
  }

  lemma RecallsNote(log: seq<Event>, lastPut: map<string, nat>, now: nat, event: Event)
    requires Recalls(log, lastPut, now) && !event.Recorded? && Until(event, now)
    ensures Recalls(log + [event], lastPut, now)
  {
  }

  lemma RecallsRecord(log: seq<Event>, lastPut: map<string, nat>, now: nat, user: string, at: nat)
    requires Recalls(log, lastPut, now) && now <= at
    ensures Recalls(log + [Recorded(user, at)], lastPut[user := at], at)
  {
    RecallsLater(log, lastPut, now, at);
    var after, history := log + [Recorded(user, at)], lastPut[user := at];
    assert after[|log|] == Recorded(user, at);
    forall v | v in history ensures history[v] <= at && Recorded(v, history[v]) in after {
      if v != user {
        assert Recorded(v, lastPut[v]) in log;
      }
    }
  }

  /** Entries are only added, and the new ones carry times from `now` on. */
  predicate Continues(before: seq<Event>, now: nat, after: seq<Event>) {
    before <= after && forall k :: |before| <= k < |after| ==> Since(after[k], now)
  }

  lemma ContinuesOn(a: seq<Event>, now: nat, b: seq<Event>, later: nat, c: seq<Event>)
    requires Continues(a, now, b) && Continues(b, later, c) && now <= later
    ensures Continues(a, now, c)
  {
    forall k | |a| <= k < |c| ensures Since(c[k], now) {
      if k < |b| {
        assert c[k] == b[k];
      } else {
        assert Since(c[k], later);
      }
    }
  }

  lemma ContinuesEarlier(before: seq<Event>, now: nat, later: nat, after: seq<Event>)
    requires Continues(before, later, after) && now <= later
    ensures Continues(before, now, after)
  {
    ContinuesOn(before, now, before, later, after);
  }

  lemma TraceContinues(before: seq<Event>, now: nat, user: string, t: Trial, threshold: real, start: nat, end: nat)
    requires now <= start <= end
    ensures Continues(before, now, before + Trace(user, t, threshold, start, end))
  {
  }

  // ---------- who is tried ----------

  /** The handler does not throw and the state is written, so the batch goes on. */
  predicate GoesOn(t: Trial, threshold: real) {
    !HandlerThrows(t, threshold) && t.saved
  }

  /** How the outside answers during a run, user by user. */
  datatype Outside = Outside(healthFactors: string -> Option<real>, trials: string -> Trial)

  datatype Thresholds = Thresholds(healthFactor: real, profit: real)

  /** How many of the users are reached: up to and including the first one that stops the batch. */
  function Reached(infos: seq<UserInfo>, trials: string -> Trial, threshold: real): (n: nat)
    ensures n <= |infos|
  {
    if infos == [] then 0
    else if GoesOn(trials(infos[0].user), threshold) then 1 + Reached(infos[1..], trials, threshold)
    else 1
  }

  /** The users one batch tries, in order. */
  function BatchTries(users: seq<string>, outside: Outside, at: Thresholds): seq<string> {
    var infos := Paired(users, Fetched(Mapped(outside.healthFactors, users)), at.healthFactor);
    UsersOf(infos[..Reached(infos, outside.trials, at.profit)])
  }

  function RunTries(batches: seq<seq<string>>, outside: Outside, at: Thresholds): seq<string> {
    if batches == [] then [] else BatchTries(batches[0], outside, at) + RunTries(batches[1..], outside, at)
  }

  lemma {:induction false} ReachedAll(infos: seq<UserInfo>, trials: string -> Trial, threshold: real)
    requires forall k :: 0 <= k < |infos| ==> GoesOn(trials(infos[k].user), threshold)
    ensures Reached(infos, trials, threshold) == |infos|
  {
    if infos != [] {
      ReachedAll(infos[1..], trials, threshold);
    }
  }

  lemma ReachedNext(infos: seq<UserInfo>, trials: string -> Trial, threshold: real, i: nat)
    requires i < |infos|
    ensures Reached(infos[i..], trials, threshold)
         == if GoesOn(trials(infos[i].user), threshold) then 1 + Reached(infos[i + 1..], trials, threshold) else 1
  {
  }

  /** When every health factor is fetched and no user stops the batch, the users tried
      are exactly those below the threshold, in order. */
  lemma BatchTriesExactly(users: seq<string>, outside: Outside, at: Thresholds)
    requires NoDuplicates(users)
    requires forall u | u in users :: outside.healthFactors(u).Some? && GoesOn(outside.trials(u), at.profit)
    ensures BatchTries(users, outside, at) ==
            UsersOf(BelowThreshold(users, Mapped(outside.healthFactors, users), at.healthFactor))
  {
    var raw := Mapped(outside.healthFactors, users);
    NoGap(users, outside, at.healthFactor);
    PairedExactly(users, raw, at.healthFactor);
    AllReached(users, Paired(users, Fetched(raw), at.healthFactor), outside, at);
  }

  lemma NoGap(users: seq<string>, outside: Outside, threshold: real)
    requires forall u | u in users :: outside.healthFactors(u).Some?
    ensures !GapBeforeRisk(Mapped(outside.healthFactors, users), threshold)
  {
  }

  lemma AllReached(users: seq<string>, infos: seq<UserInfo>, outside: Outside, at: Thresholds)
    requires infos == Paired(users, Fetched(Mapped(outside.healthFactors, users)), at.healthFactor)
    requires forall u | u in users :: GoesOn(outside.trials(u), at.profit)
    ensures infos[..Reached(infos, outside.trials, at.profit)] == infos
  {
    forall k | 0 <= k < |infos| ensures GoesOn(outside.trials(infos[k].user), at.profit) {
      PairedUsers(users, Fetched(Mapped(outside.healthFactors, users)), at.healthFactor, k);
    }
    ReachedAll(infos, outside.trials, at.profit);
  }

  // ---------- who is tried, user by user ----------

  predicate AllFetched(users: seq<string>, outside: Outside) {
    forall u | u in users :: outside.healthFactors(u).Some?
  }

  predicate AllGoOn(users: seq<string>, outside: Outside, threshold: real) {
    forall u | u in users :: GoesOn(outside.trials(u), threshold)
  }

  /** How often the user should be tried: as often as listed, if its own factor is below the threshold. */
  function Due(users: seq<string>, outside: Outside, threshold: real, user: string): nat
    requires AllFetched(users, outside)
  {
    if user in users && outside.healthFactors(user).value < threshold then multiset(users)[user] else 0
  }

  lemma UsersAppend(a: seq<UserInfo>, b: seq<UserInfo>)
    ensures UsersOf(a + b) == UsersOf(a) + UsersOf(b)
  {
  }

  lemma DueNext(users: seq<string>, outside: Outside, threshold: real, user: string)
    requires users != [] && AllFetched(users, outside)
    ensures AllFetched(users[1..], outside)
    ensures Due(users, outside, threshold, user) == Due(users[1..], outside, threshold, user) +
              if user == users[0] && outside.healthFactors(user).value < threshold then 1 else 0
  {
    assert users == [users[0]] + users[1..];
  }

  lemma {:induction false} BelowCounts(users: seq<string>, outside: Outside, threshold: real, user: string)
    requires AllFetched(users, outside)
    ensures var below := UsersOf(BelowThreshold(users, Mapped(outside.healthFactors, users), threshold));
            multiset(below)[user] == Due(users, outside, threshold, user)
  {
    if users != [] {
      var rest, raw := users[1..], Mapped(outside.healthFactors, users);
      assert raw[1..] == Mapped(outside.healthFactors, rest);
      DueNext(users, outside, threshold, user);
      BelowCounts(rest, outside, threshold, user);
      var infos := BelowThreshold(rest, raw[1..], threshold);
      var head := if Risky(raw[0], threshold) then [UserInfo(users[0], raw[0].value)] else [];
      UsersAppend(head, infos);
      assert UsersOf(head) == if Risky(raw[0], threshold) then [users[0]] else [];
    }
  }

  lemma {:induction false} ReachedStops(infos: seq<UserInfo>, trials: string -> Trial, threshold: real)
    ensures var n := Reached(infos, trials, threshold);
            && (forall k :: 0 <= k < n - 1 ==> GoesOn(trials(infos[k].user), threshold))
            && (n < |infos| ==> n > 0 && !GoesOn(trials(infos[n - 1].user), threshold))
  {
    if infos != [] && GoesOn(trials(infos[0].user), threshold) {
      ReachedStops(infos[1..], trials, threshold);
    }
  }

  lemma BelowMembers(users: seq<string>, outside: Outside, threshold: real)
    requires AllFetched(users, outside)
    ensures var below := UsersOf(BelowThreshold(users, Mapped(outside.healthFactors, users), threshold));
            forall u :: u in below <==> u in users && outside.healthFactors(u).value < threshold
  {
    var below := UsersOf(BelowThreshold(users, Mapped(outside.healthFactors, users), threshold));
    forall u ensures u in below <==> u in users && outside.healthFactors(u).value < threshold {
      BelowCounts(users, outside, threshold, u);
      assert u in below <==> multiset(below)[u] > 0;
      assert u in users <==> multiset(users)[u] > 0;
    }
  }

  lemma BatchIsPrefix(users: seq<string>, outside: Outside, at: Thresholds) returns (n: nat)
    requires AllFetched(users, outside)
    ensures var below := UsersOf(BelowThreshold(users, Mapped(outside.healthFactors, users), at.healthFactor));
            && n <= |below| && BatchTries(users, outside, at) == below[..n]
            && (forall k :: 0 <= k < n - 1 ==> GoesOn(outside.trials(below[k]), at.profit))
            && (n < |below| ==> n > 0 && !GoesOn(outside.trials(below[n - 1]), at.profit))
  {
    var raw := Mapped(outside.healthFactors, users);
    var infos := Paired(users, Fetched(raw), at.healthFactor);
    AllFetchedPaired(users, raw, at.healthFactor);
    ReachedStops(infos, outside.trials, at.profit);
    n := Reached(infos, outside.trials, at.profit);
    assert UsersOf(infos[..n]) == UsersOf(infos)[..n];
  }

  /** What one batch contributes when its factors are fetched: users below the threshold, all
      of them unless one that stops the batch comes first. */
  lemma BatchContributes(users: seq<string>, outside: Outside, at: Thresholds)
    requires AllFetched(users, outside)
    ensures var tries := BatchTries(users, outside, at);
            && (forall u | u in tries :: u in users && outside.healthFactors(u).value < at.healthFactor)
            && (forall u | u in users && outside.healthFactors(u).value < at.healthFactor ::
                  u in tries || (tries != [] && !GoesOn(outside.trials(tries[|tries| - 1]), at.profit)))
            && (forall k :: 0 <= k < |tries| - 1 ==> GoesOn(outside.trials(tries[k]), at.profit))
  {
    var below := UsersOf(BelowThreshold(users, Mapped(outside.healthFactors, users), at.healthFactor));
    var n := BatchIsPrefix(users, outside, at);
    BelowMembers(users, outside, at.healthFactor);
    assert forall u | u in below[..n] :: u in below;
    assert n == |below| ==> below[..n] == below;
  }

  /** When no user stops a batch, each is tried exactly as often as it should. */
  lemma BatchCounts(users: seq<string>, outside: Outside, at: Thresholds, user: string)
    requires AllFetched(users, outside) && AllGoOn(users, outside, at.profit)
    ensures multiset(BatchTries(users, outside, at))[user] == Due(users, outside, at.healthFactor, user)
  {
    var raw := Mapped(outside.healthFactors, users);
    AllFetchedPaired(users, raw, at.healthFactor);
    AllReached(users, Paired(users, Fetched(raw), at.healthFactor), outside, at);
    BelowCounts(users, outside, at.healthFactor, user);
  }

  lemma {:induction false} RunCounts(batches: seq<seq<string>>, outside: Outside, at: Thresholds, user: string)
    requires AllFetched(Flatten(batches), outside) && AllGoOn(Flatten(batches), outside, at.profit)
    ensures multiset(RunTries(batches, outside, at))[user] == Due(Flatten(batches), outside, at.healthFactor, user)
  {
    if batches != [] {
      var rest := Flatten(batches[1..]);
      assert Flatten(batches) == batches[0] + rest;
      assert forall u | u in batches[0] || u in rest :: u in Flatten(batches);
      BatchCounts(batches[0], outside, at, user);
      RunCounts(batches[1..], outside, at, user);
    }
  }

  /** Batch by batch. */
  function TriesByBatch(batches: seq<seq<string>>, outside: Outside, at: Thresholds): (tries: seq<seq<string>>)
    ensures |tries| == |batches|
  {
    seq(|batches|, i requires 0 <= i < |batches| => BatchTries(batches[i], outside, at))
  }

  lemma {:induction false} RunTriesByBatch(batches: seq<seq<string>>, outside: Outside, at: Thresholds)
    ensures RunTries(batches, outside, at) == Flatten(TriesByBatch(batches, outside, at))
  {
    if batches != [] {
      RunTriesByBatch(batches[1..], outside, at);
      assert TriesByBatch(batches, outside, at)[1..] == TriesByBatch(batches[1..], outside, at);
    }
  }

  /** Every batch contributes its own tries, even when an earlier one was stopped: a run's tries
      are those of its batches one after another, and a batch whose factors are fetched tries its
      users below the threshold, all of them unless one that stops it comes first. */
  lemma EveryBatchContributes(batches: seq<seq<string>>, outside: Outside, at: Thresholds)
    returns (tries: seq<seq<string>>)
    ensures |tries| == |batches| && RunTries(batches, outside, at) == Flatten(tries)
    ensures forall i :: 0 <= i < |batches| && (forall u | u in batches[i] :: outside.healthFactors(u).Some?) ==>
              && (forall u | u in tries[i] :: u in batches[i] && outside.healthFactors(u).value < at.healthFactor)
              && (forall u | u in batches[i] && outside.healthFactors(u).value < at.healthFactor ::
                    u in tries[i] || (tries[i] != [] && !GoesOn(outside.trials(tries[i][|tries[i]| - 1]), at.profit)))
              && (forall k :: 0 <= k < |tries[i]| - 1 ==> GoesOn(outside.trials(tries[i][k]), at.profit))
  {
    tries := TriesByBatch(batches, outside, at);
    RunTriesByBatch(batches, outside, at);
    forall i | 0 <= i < |batches| && forall u | u in batches[i] :: outside.healthFactors(u).Some?
      ensures && (forall u | u in tries[i] :: u in batches[i] && outside.healthFactors(u).value < at.healthFactor)
              && (forall u | u in batches[i] && outside.healthFactors(u).value < at.healthFactor ::
                    u in tries[i] || (tries[i] != [] && !GoesOn(outside.trials(tries[i][|tries[i]| - 1]), at.profit)))
              && (forall k :: 0 <= k < |tries[i]| - 1 ==> GoesOn(outside.trials(tries[i][k]), at.profit))
    {
      BatchContributes(batches[i], outside, at);
    }
  }

  // ---------- keeping the back-off property ----------

  /** Trying the next of the distinct users who are free. */
  lemma TryBacksOff(infos: seq<UserInfo>, i: nat, log: seq<Event>, duration: int, t: Trial, threshold: real,
                    start: nat, end: nat, now: nat, later: nat)
    requires i < |infos| && DistinctUsers(infos) && now <= start && now <= later
    requires BackedOff(log, duration) && AllFree(log, duration, UsersOf(infos)[i..], now)
    ensures var after := log + Trace(infos[i].user, t, threshold, start, end);
            BackedOff(after, duration) && AllFree(after, duration, UsersOf(infos)[i + 1..], later)
  {
    assert UsersOf(infos)[i..][0] == infos[i].user;
    FreeLater(log, duration, infos[i].user, now, start);
    TraceBacksOff(log, duration, infos[i].user, t, threshold, start, end);
    RestStaysFree(infos, i, log, duration, t, threshold, start, end, now, later);
  }

  // ---------- the bot ----------

  class CurveBot {
    const memory: ShortTermIgnoreMemory
    const clock: Clock
    var log: seq<Event>
    ghost var lastPut: map<string, nat> // the history the memory refines

    constructor (memory: ShortTermIgnoreMemory, clock: Clock)
      requires memory.Valid() && memory.Contents() == map[]
      ensures Valid() && this.memory == memory && this.clock == clock && log == []
    {
      this.memory := memory;
      this.clock := clock;
      log := [];
      lastPut := map[];
    }

    /** A new process after a crash: it reads the memory back from the file. */
    constructor Resume(previous: CurveBot, seconds: int)
      requires previous.Valid() && previous.memory.Loadable() && previous.memory.disk != null
      requires previous.memory.ignoreDuration == seconds * 1000
      ensures Valid() && log == previous.log && lastPut == previous.lastPut && memory.Loadable()
      ensures memory.ignoreDuration == previous.memory.ignoreDuration && clock == previous.clock
      ensures fresh(memory) && memory.disk == previous.memory.disk
    {
      var reloaded := CrashAndReload(previous.memory, seconds);
      memory := reloaded;
      clock := previous.clock;
      log := previous.log;
      lastPut := previous.lastPut;
    }

    ghost predicate Valid()
      reads this, memory, memory.disk, clock
    {
      && memory.Valid()
      && Refines(memory.Contents(), lastPut, memory.ignoreDuration, clock.now)
      && Recalls(log, lastPut, clock.now)
    }

    /** Is the user ignored now? A user who is not is free to be tried from now on. */
    method IsIgnored(user: string) returns (ok: bool, ignored: bool)
      requires Valid()
      modifies memory, memory.disk, clock
      ensures Valid() && old(clock.now) <= clock.now
      ensures ok == old(memory.Loadable()) && (ok ==> memory.Loadable())
      ensures ok && !ignored ==> FreeToTry(log, memory.ignoreDuration, user, clock.now)
      ensures ok ==> (ignored <==> user in lastPut && clock.now < lastPut[user] + memory.ignoreDuration)
    {
      ghost var before := clock.now;
      var now := clock.Now();
      RecallsLater(log, lastPut, before, now);
      RefinesAnswers(memory.Contents(), lastPut, memory.ignoreDuration, now, user);
      ok, ignored := memory.IsIgnored(user, now);
    }

    method Record(user: string) returns (at: nat)
      requires Valid() && memory.Loadable()
      modifies this, memory, memory.disk, clock
      ensures Valid() && memory.Loadable() && old(clock.now) <= clock.now == at
      ensures log == old(log) + [Recorded(user, at)] && lastPut == old(lastPut)[user := at]
    {
      ghost var before := clock.now;
      at := clock.Now();
      RecallsRecord(log, lastPut, before, user, at);
      RefinesAnswers(memory.Contents(), lastPut, memory.ignoreDuration, at, user);
      var _ := memory.Put(user, at);
      lastPut := lastPut[user := at];
      log := log + [Recorded(user, at)];
    }

    /** Logs anything but a record. */
    method Note(event: Event)
      requires Valid() && !event.Recorded? && Until(event, clock.now)
      modifies this`log
      ensures Valid() && log == old(log) + [event]
    {
      RecallsNote(log, lastPut, clock.now, event);
      log := log + [event];
    }

    /** The try block: liquidate, or record a user not worth it, or throw. */
    method TryBlock(user: string, t: Trial, threshold: real)
      returns (threw: bool, success: bool, ghost start: nat, ghost end: nat)
      requires Valid() && memory.Loadable()
      modifies this, memory, memory.disk, clock
      ensures Valid() && memory.Loadable()
      ensures old(clock.now) <= start <= end <= clock.now
      ensures threw == Throws(t, threshold) && success == Succeeds(t, threshold)
      ensures log == old(log) + BlockPart(user, t, threshold, start, end)
    {
      ghost var before := clock.now;
      var begun := clock.Now();
      RecallsLater(log, lastPut, before, begun);
      start, end := begun, begun;
      Note(Tried(user, begun));
      if t.nothingToLiquidate.Failure? {
        return true, false, start, end;
      }
      if t.nothingToLiquidate.value {
        end := Record(user);
        return false, false, start, end;
      }
      if t.profitInUSD.Failure? {
        return true, false, start, end;
      }
      if t.profitInUSD.value >= threshold {
        Note(Liquidation(user));
        return !(t.liquidated && t.announced), t.liquidated && t.announced, start, end;
      }
      end := Record(user);
      return false, false, start, end;
    }

    /** One user of the liquidatable list; the result is whether the batch goes on. */
    method TryUser(user: string, t: Trial, threshold: real) returns (goesOn: bool, ghost start: nat, ghost end: nat)
      requires Valid() && memory.Loadable()
      modifies this, memory, memory.disk, clock
      ensures Valid() && memory.Loadable()
      ensures old(clock.now) <= start <= end <= clock.now
      ensures log == old(log) + Trace(user, t, threshold, start, end)
      ensures goesOn <==> GoesOn(t, threshold)
    {
      ghost var before := log;
      var threw, success;
      threw, success, start, end := TryBlock(user, t, threshold);
      ghost var block, handled, saved := BlockPart(user, t, threshold, start, end), [], [];
      ghost var blockEnd := end;
      if threw && t.error == Malformed {
        TraceParts(user, t, threshold, start, blockEnd, end);
        LogParts(before, block, handled, saved);
        return false, start, end;
      }
      if threw {
        end := Record(user);
        handled := [Recorded(user, end)];
      }
      if t.saved {
        Note(Saved(user, success));
        saved := [Saved(user, success)];
      }
      TraceParts(user, t, threshold, start, blockEnd, end);
      LogParts(before, block, handled, saved);
      return t.saved, start, end;
    }

    /** The next of the collected users. */
    method TryNext(infos: seq<UserInfo>, i: nat, t: Trial, threshold: real) returns (goesOn: bool)
      requires Valid() && memory.Loadable() && i < |infos|
      modifies this, memory, memory.disk, clock
      ensures Valid() && memory.Loadable() && old(clock.now) <= clock.now
      ensures TriedUsers(log) == old(TriedUsers(log)) + [infos[i].user]
      ensures goesOn <==> GoesOn(t, threshold)
      ensures DistinctUsers(infos) && old(BackedOff(log, memory.ignoreDuration))
              && old(AllFree(log, memory.ignoreDuration, UsersOf(infos)[i..], clock.now))
              ==> BackedOff(log, memory.ignoreDuration) &&
                  AllFree(log, memory.ignoreDuration, UsersOf(infos)[i + 1..], clock.now)
      ensures LeavesFree([infos[i].user], memory.ignoreDuration, old(log), old(clock.now), log, clock.now)
      ensures Continues(old(log), old(clock.now), log)
    {
      ghost var before, since, duration := log, clock.now, memory.ignoreDuration;
      var user := infos[i].user;
      ghost var start, end;
      goesOn, start, end := TryUser(user, t, threshold);
      TraceContinues(before, since, user, t, threshold, start, end);
      TriedAppend(before, Trace(user, t, threshold, start, end));
      TraceTries(user, t, threshold, start, end);
      if DistinctUsers(infos) && BackedOff(before, duration) && AllFree(before, duration, UsersOf(infos)[i..], since) {
        TryBacksOff(infos, i, before, duration, t, threshold, start, end, since, clock.now);
      }
      forall u | u != user && FreeToTry(before, duration, u, since) ensures FreeToTry(log, duration, u, clock.now) {
        OthersStayFree(before, duration, user, u, t, threshold, start, end, since, clock.now);
      }
    }

    /** Tries the collected users in order, up to the first one whose handler throws
        or whose state cannot be written. Distinct free users are backed off. */
    method TryAll(infos: seq<UserInfo>, trials: string -> Trial, threshold: real)
      requires Valid() && memory.Loadable()
      modifies this, memory, memory.disk, clock
      ensures Valid() && memory.Loadable() && old(clock.now) <= clock.now
      ensures TriedUsers(log) == old(TriedUsers(log)) + UsersOf(infos[..Reached(infos, trials, threshold)])
      ensures DistinctUsers(infos) && old(BackedOff(log, memory.ignoreDuration))
              && old(AllFree(log, memory.ignoreDuration, UsersOf(infos), clock.now))
              ==> BackedOff(log, memory.ignoreDuration)
      ensures LeavesFree(UsersOf(infos), memory.ignoreDuration, old(log), old(clock.now), log, clock.now)
      ensures Continues(old(log), old(clock.now), log)
    {
      ghost var duration := memory.ignoreDuration;
      ghost var users := UsersOf(infos);
      ghost var free := DistinctUsers(infos) && BackedOff(log, duration) && AllFree(log, duration, users, clock.now);
      assert infos[..0] == [] && infos[0..] == infos && users[0..] == users;
      for i := 0 to |infos|
        invariant Reached(infos, trials, threshold) == i + Reached(infos[i..], trials, threshold)
        invariant Valid() && memory.Loadable() && old(clock.now) <= clock.now
        invariant TriedUsers(log) == old(TriedUsers(log)) + UsersOf(infos[..i])
        invariant free ==> BackedOff(log, duration) && AllFree(log, duration, users[i..], clock.now)
        invariant LeavesFree(users, duration, old(log), old(clock.now), log, clock.now)
        invariant Continues(old(log), old(clock.now), log)
      {
        ghost var before, since := log, clock.now;
        var goesOn := TryNext(infos, i, trials(infos[i].user), threshold);
        ContinuesOn(old(log), old(clock.now), before, since, log);
        UsersOfNext(infos, i);
        Regroup(old(TriedUsers(log)), UsersOf(infos[..i]), [infos[i].user]);
        LeavesFreeAfter(users, users[i], duration, old(log), old(clock.now), before, since, log, clock.now);
        ReachedNext(infos, trials, threshold, i);
        if !goesOn {
          assert Reached(infos, trials, threshold) == i + 1;
          return;
        }
      }
      assert Reached(infos, trials, threshold) == |infos|;
    }

    /** One batch: the users tried are those paired with a factor below the threshold,
        in order; distinct users that are free are backed off, and users outside the
        batch that are free stay free. */
    method RunBotBatch(users: seq<string>, batchSize: nat, outside: Outside, at: Thresholds)
      requires Valid() && memory.Loadable() && batchSize > 0
      modifies this, memory, memory.disk, clock
      ensures Valid() && memory.Loadable() && old(clock.now) <= clock.now
      ensures TriedUsers(log) == old(TriedUsers(log)) + BatchTries(users, outside, at)
      ensures NoDuplicates(users) && old(BackedOff(log, memory.ignoreDuration))
              && old(AllFree(log, memory.ignoreDuration, users, clock.now))
              ==> BackedOff(log, memory.ignoreDuration)
      ensures LeavesFree(users, memory.ignoreDuration, old(log), old(clock.now), log, clock.now)
      ensures Continues(old(log), old(clock.now), log)
    {
      var fetched := BatchProcessing(users, batchSize, user => Success(outside.healthFactors(user)));
      var raw := fetched.value;
      assert raw == Mapped(outside.healthFactors, users);
      var factors := Fetched(raw);
      if |factors| == 0 {
        return;
      }
      var infos := CollectLiquidatable(users, factors, at.healthFactor);
      PairedAmong(users, factors, at.healthFactor);
      AmongFree(log, memory.ignoreDuration, users, UsersOf(infos), clock.now);
      ghost var before, since := log, clock.now;
      TryAll(infos, outside.trials, at.profit);
      AmongLeavesFree(users, UsersOf(infos), memory.ignoreDuration, before, since, log, clock.now);
    }

    /** Drops the users that are ignored; the others are free to be tried. */
    method FilterIgnored(users: seq<string>) returns (ok: bool, kept: seq<string>)
      requires Valid()
      modifies memory, memory.disk, clock
      ensures Valid() && old(clock.now) <= clock.now
      ensures ok <==> users == [] || old(memory.Loadable())
      ensures ok && (users != [] || old(memory.Loadable())) ==> memory.Loadable()
      ensures AllFree(log, memory.ignoreDuration, kept, clock.now)
      ensures ok ==> OnlyIgnoredDropped(users, kept, lastPut, memory.ignoreDuration, old(clock.now))
      ensures |kept| <= |users| && multiset(kept) <= multiset(users)
    {
      kept := [];
      for i := 0 to |users|
        invariant Valid() && old(clock.now) <= clock.now
        invariant i > 0 ==> old(memory.Loadable()) && memory.Loadable()
        invariant i == 0 ==> old(memory.Loadable()) == memory.Loadable()
        invariant AllFree(log, memory.ignoreDuration, kept, clock.now)
        invariant OnlyIgnoredDropped(users[..i], kept, lastPut, memory.ignoreDuration, old(clock.now))
        invariant |kept| <= i && multiset(kept) <= multiset(users[..i])
      {
        OneMore(users, kept, i);
        OneMoreSeen(users, i, kept, lastPut, memory.ignoreDuration, old(clock.now));
        ghost var before := clock.now;
        var ignored;
        ok, ignored := IsIgnored(users[i]);
        KeptStayFree(log, memory.ignoreDuration, kept, users[i], before, clock.now);
        if !ok {
          return false, kept;
        }
        if !ignored {
          kept := kept + [users[i]];
        }
      }
      assert users[..|users|] == users;
      return true, kept;
    }

    /** Callers know only that the order changes. */
    method Shuffle(users: seq<string>) returns (shuffled: seq<string>)
      ensures multiset(shuffled) == multiset(users)
    {
      shuffled := users;
      if |users| > 1 {
        var i: nat :| i < |users|;
        shuffled := [users[i]] + users[..i] + users[i + 1..];
        assert users == users[..i] + [users[i]] + users[i + 1..];
      }
    }

    method ShuffleAndSplit(users: seq<string>, size: nat) returns (batches: seq<seq<string>>)
      requires size > 0
      ensures multiset(Flatten(batches)) == multiset(users) && (users == [] ==> batches == [])
      ensures forall i :: 0 <= i < |batches| ==> 0 < |batches[i]| <= size
    {
      var shuffled := Shuffle(users);
      batches := SplitToBatches(shuffled, size);
      BatchesPartition(shuffled, size);
      assert |shuffled| == |multiset(users)|;
    }

    /** The batches one after another; an error in one does not stop the next. */
    method RunBatches(batches: seq<seq<string>>, batchSize: nat, outside: Outside, at: Thresholds)
      requires Valid() && batchSize > 0 && (batches != [] ==> memory.Loadable())
      modifies this, memory, memory.disk, clock
      ensures Valid() && old(clock.now) <= clock.now && (old(memory.Loadable()) ==> memory.Loadable())
      ensures Continues(old(log), old(clock.now), log)
      ensures TriedUsers(log) == old(TriedUsers(log)) + RunTries(batches, outside, at)
      ensures NoDuplicates(Flatten(batches)) && old(BackedOff(log, memory.ignoreDuration))
              && old(AllFree(log, memory.ignoreDuration, Flatten(batches), clock.now))
              ==> BackedOff(log, memory.ignoreDuration)
    {
      ghost var duration := memory.ignoreDuration;
      ghost var free := NoDuplicates(Flatten(batches)) && BackedOff(log, duration)
                        && AllFree(log, duration, Flatten(batches), clock.now);
      assert batches[0..] == batches;
      for i := 0 to |batches|
        invariant Continues(old(log), old(clock.now), log)
        invariant Valid() && old(clock.now) <= clock.now
        invariant batches != [] || old(memory.Loadable()) ==> memory.Loadable()
        invariant TriedUsers(log) + RunTries(batches[i..], outside, at) ==
                  old(TriedUsers(log)) + RunTries(batches, outside, at)
        invariant free ==> NoDuplicates(Flatten(batches[i..])) && BackedOff(log, duration)
        invariant free ==> AllFree(log, duration, Flatten(batches[i..]), clock.now)
      {
        ghost var before, since := log, clock.now;
        ghost var rest := Flatten(batches[i + 1..]);
        assert batches[i..][1..] == batches[i + 1..] && Flatten(batches[i..]) == batches[i] + rest;
        if free {
          DistinctParts(batches[i], rest);
          FreeParts(log, duration, batches[i], rest, clock.now);
        }
        Regroup(TriedUsers(log), BatchTries(batches[i], outside, at), RunTries(batches[i + 1..], outside, at));
        RunBotBatch(batches[i], batchSize, outside, at);
        ContinuesOn(old(log), old(clock.now), before, since, log);
        if free {
          RestFree(batches[i], rest, duration, before, since, log, clock.now);
        }
      }
    }

    /** The users that are not ignored, in batches and in some order. */
    method TryKept(kept: seq<string>, liquidatingBatchSize: nat, healthFactorBatchSize: nat, outside: Outside,
                   at: Thresholds)
      returns (ghost batches: seq<seq<string>>)
      requires Valid() && liquidatingBatchSize > 0 && healthFactorBatchSize > 0
      requires kept != [] ==> memory.Loadable()
      modifies this, memory, memory.disk, clock
      ensures Valid() && old(clock.now) <= clock.now && (old(memory.Loadable()) ==> memory.Loadable())
      ensures Continues(old(log), old(clock.now), log)
      ensures multiset(Flatten(batches)) == multiset(kept)
      ensures forall i :: 0 <= i < |batches| ==> |batches[i]| <= liquidatingBatchSize
      ensures TriedUsers(log) == old(TriedUsers(log)) + RunTries(batches, outside, at)
      ensures NoDuplicates(kept) && old(BackedOff(log, memory.ignoreDuration))
              && old(AllFree(log, memory.ignoreDuration, kept, clock.now))
              ==> BackedOff(log, memory.ignoreDuration)
    {
      var split := ShuffleAndSplit(kept, liquidatingBatchSize);
      batches := split;
      ShuffledFit(log, memory.ignoreDuration, kept, Flatten(split), clock.now);
      RunBatches(split, healthFactorBatchSize, outside, at);
    }

    /** Filters the ignored users out and tries the others. */
    method FilterAndTry(users: seq<string>, liquidatingBatchSize: nat, healthFactorBatchSize: nat, outside: Outside,
                        at: Thresholds)
      returns (ok: bool, ghost kept: seq<string>, ghost batches: seq<seq<string>>)
      requires Valid() && liquidatingBatchSize > 0 && healthFactorBatchSize > 0
      modifies this, memory, memory.disk, clock
      ensures Valid() && old(clock.now) <= clock.now
      ensures ok <==> users == [] || old(memory.Loadable())
      ensures old(memory.Loadable()) ==> memory.Loadable()
      ensures !ok ==> log == old(log)
      ensures Continues(old(log), old(clock.now), log)
      ensures ok ==> OnlyIgnoredDropped(users, kept, old(lastPut), memory.ignoreDuration, old(clock.now))
      ensures multiset(kept) <= multiset(users)
      ensures ok ==> multiset(Flatten(batches)) == multiset(kept)
      ensures ok ==> forall i :: 0 <= i < |batches| ==> |batches[i]| <= liquidatingBatchSize
      ensures ok ==> TriedUsers(log) == old(TriedUsers(log)) + RunTries(batches, outside, at)
      ensures NoDuplicates(users) && old(BackedOff(log, memory.ignoreDuration)) ==>
              BackedOff(log, memory.ignoreDuration)
    {
      var filtered;
      ok, filtered := FilterIgnored(users);
      kept, batches := filtered, [];
      if !ok {
        return;
      }
      if NoDuplicates(users) {
        SubMultisetDistinct(users, kept);
      }
      ghost var before, since := log, clock.now;
      batches := TryKept(filtered, liquidatingBatchSize, healthFactorBatchSize, outside, at);
      ContinuesEarlier(before, old(clock.now), since, log);
    }

    /** One run over all users, batch by batch. Only users that are ignored are left
        out; the others are dealt with in batches, in some order. Over a list without
        duplicates every try is backed off from every record, in this run and before. */
    method RunCurveBot(users: seq<string>, liquidatingBatchSize: nat, healthFactorBatchSize: nat,
                       outside: Outside, at: Thresholds)
      returns (ok: bool, ghost kept: seq<string>, ghost batches: seq<seq<string>>)
      requires Valid() && liquidatingBatchSize > 0 && healthFactorBatchSize > 0
      modifies this, memory, memory.disk, clock
      ensures Valid() && old(clock.now) <= clock.now
      ensures ok <==> users == [] || old(memory.Loadable())
      ensures old(memory.Loadable()) ==> memory.Loadable()
      ensures !ok ==> log == old(log)
      ensures Continues(old(log), old(clock.now), log)
      ensures ok ==> forall u | u in users && u !in kept ::
                exists t: nat :: Recorded(u, t) in old(log) && old(clock.now) < t + memory.ignoreDuration
      ensures ok && (forall u | u in kept :: outside.healthFactors(u).Some?
                       && outside.trials(u).error != Malformed && outside.trials(u).saved) ==>
                forall u :: multiset(TriedUsers(log))[u] == old(multiset(TriedUsers(log)))[u] +
                  if u in kept && outside.healthFactors(u).value < at.healthFactor then multiset(kept)[u] else 0
      ensures ok ==> multiset(Flatten(batches)) == multiset(kept) <= multiset(users)
                     && (forall i :: 0 <= i < |batches| ==> |batches[i]| <= liquidatingBatchSize)
                     && TriedUsers(log) == old(TriedUsers(log)) + RunTries(batches, outside, at)
      ensures NoDuplicates(users) && old(BackedOff(log, memory.ignoreDuration)) ==>
              BackedOff(log, memory.ignoreDuration)
    {
      ghost var before, since, history := log, clock.now, lastPut;
      ok, kept, batches := FilterAndTry(users, liquidatingBatchSize, healthFactorBatchSize, outside, at);
      if ok {
        DroppedRecorded(before, history, since, users, kept, memory.ignoreDuration, since);
        KeptCounts(before, log, kept, batches, outside, at);
      }
    }
  }

  /** Whoever was dropped has a record in the log that is less than the duration old. */
  lemma DroppedRecorded(log: seq<Event>, lastPut: map<string, nat>, now: nat, users: seq<string>, kept: seq<string>,
                        duration: int, start: nat)
    requires Recalls(log, lastPut, now) && OnlyIgnoredDropped(users, kept, lastPut, duration, start)
    ensures forall u | u in users && u !in kept :: exists t: nat :: Recorded(u, t) in log && start < t + duration
  {
    forall u | u in users && u !in kept ensures exists t: nat :: Recorded(u, t) in log && start < t + duration {
      assert Recorded(u, lastPut[u]) in log;
    }
  }

  /** When no user stops a batch, a run tries each kept user exactly as often as it should. */
  lemma KeptCounts(before: seq<Event>, after: seq<Event>, kept: seq<string>, batches: seq<seq<string>>,
                   outside: Outside, at: Thresholds)
    requires multiset(Flatten(batches)) == multiset(kept)
    requires TriedUsers(after) == TriedUsers(before) + RunTries(batches, outside, at)
    ensures (forall u | u in kept :: outside.healthFactors(u).Some?
               && outside.trials(u).error != Malformed && outside.trials(u).saved) ==>
              forall u :: multiset(TriedUsers(after))[u] == multiset(TriedUsers(before))[u] +
                if u in kept && outside.healthFactors(u).value < at.healthFactor then multiset(kept)[u] else 0
  {
    if forall u | u in kept :: outside.healthFactors(u).Some? && outside.trials(u).error != Malformed
                               && outside.trials(u).saved {
      SameMembers(Flatten(batches), kept);
      forall u
        ensures multiset(TriedUsers(after))[u] == multiset(TriedUsers(before))[u] +
          if u in kept && outside.healthFactors(u).value < at.healthFactor then multiset(kept)[u] else 0
      {
        RunCounts(batches, outside, at, u);
      }
    }
  }

  lemma SameMembers(a: seq<string>, b: seq<string>)
    requires multiset(a) == multiset(b)
    ensures forall u :: u in a <==> u in b
  {
    forall u ensures u in a <==> u in b {
      assert u in a <==> multiset(a)[u] > 0;
      assert u in b <==> multiset(b)[u] > 0;
    }
  }

  // ---------- any number of runs ----------

  /** One run: the users listed, how the outside answers, and whether a crash comes before. */
  datatype Round = Round(users: seq<string>, liquidatingBatchSize: nat, healthFactorBatchSize: nat,
                         outside: Outside, at: Thresholds, crashBefore: bool)

  /** The entries from position `from` to `to` are those of one run that began at time `start`:
      who was tried in it, and that whoever was left out of its batches had been recorded less
      than the duration before. */
  predicate RunAt(log: seq<Event>, r: Round, batches: seq<seq<string>>, from: nat, to: nat, start: nat, duration: int) {
    && from <= to <= |log|
    && TriedUsers(log[..to]) == TriedUsers(log[..from]) + RunTries(batches, r.outside, r.at)
    && multiset(Flatten(batches)) <= multiset(r.users)
    && (forall u | u in r.users && u !in Flatten(batches) ::
          exists k :: 0 <= k < from && log[k].Recorded? && log[k].user == u && start < log[k].at + duration)
    && (forall k :: 0 <= k < from ==> Until(log[k], start))
    && (forall k :: from <= k < |log| ==> Since(log[k], start))
  }

  lemma RunStays(before: seq<Event>, now: nat, after: seq<Event>, r: Round, batches: seq<seq<string>>, from: nat,
                 to: nat, start: nat, duration: int)
    requires RunAt(before, r, batches, from, to, start, duration) && Continues(before, now, after) && start <= now
    ensures RunAt(after, r, batches, from, to, start, duration)
  {
    assert after[..to] == before[..to] && after[..from] == before[..from];
    forall u | u in r.users && u !in Flatten(batches)
      ensures exists k :: 0 <= k < from && after[k].Recorded? && after[k].user == u && start < after[k].at + duration
    {
      var k :| 0 <= k < from && before[k].Recorded? && before[k].user == u && start < before[k].at + duration;
      assert after[k] == before[k];
    }
    forall k | from <= k < |after| ensures Since(after[k], start) {
      if k < |before| {
        assert after[k] == before[k];
      } else {
        assert Since(after[k], now);
      }
    }
  }

  /** A crash, perhaps, and one more run. */
  method NextRound(previous: CurveBot, r: Round, seconds: int) returns (bot: CurveBot, ghost batches: seq<seq<string>>)
    requires previous.Valid() && previous.memory.Loadable() && previous.memory.disk != null
    requires previous.memory.ignoreDuration == seconds * 1000
    requires NoDuplicates(r.users) && r.liquidatingBatchSize > 0 && r.healthFactorBatchSize > 0
    requires BackedOff(previous.log, seconds * 1000)
    modifies previous, previous.memory, previous.memory.disk, previous.clock
    ensures (bot == previous || fresh(bot)) && (bot.memory == previous.memory || fresh(bot.memory))
    ensures bot.memory.disk == previous.memory.disk && bot.clock == previous.clock
    ensures old(previous.clock.now) <= bot.clock.now
    ensures bot.Valid() && bot.memory.Loadable() && bot.memory.ignoreDuration == seconds * 1000
    ensures BackedOff(bot.log, seconds * 1000) && Continues(old(previous.log), old(previous.clock.now), bot.log)
    ensures RunAt(bot.log, r, batches, |old(previous.log)|, |bot.log|, old(previous.clock.now), seconds * 1000)
  {
    ghost var before, now := previous.log, previous.clock.now;
    bot := previous;
    if r.crashBefore {
      bot := new CurveBot.Resume(previous, seconds);
    }
    assert forall k :: 0 <= k < |before| ==> Until(before[k], now);
    var ok;
    ghost var kept;
    ok, kept, batches := bot.RunCurveBot(r.users, r.liquidatingBatchSize, r.healthFactorBatchSize, r.outside, r.at);
    RunRecorded(before, now, bot.log, r, kept, batches, seconds * 1000);
  }

  lemma RunRecorded(before: seq<Event>, now: nat, after: seq<Event>, r: Round, kept: seq<string>,
                    batches: seq<seq<string>>, duration: int)
    requires Continues(before, now, after) && forall k :: 0 <= k < |before| ==> Until(before[k], now)
    requires TriedUsers(after) == TriedUsers(before) + RunTries(batches, r.outside, r.at)
    requires multiset(Flatten(batches)) == multiset(kept) <= multiset(r.users)
    requires forall u | u in r.users && u !in kept :: exists t: nat :: Recorded(u, t) in before && now < t + duration
    ensures RunAt(after, r, batches, |before|, |after|, now, duration)
  {
    assert after[..|after|] == after && after[..|before|] == before;
    forall u | u in r.users && u !in Flatten(batches)
      ensures exists k :: 0 <= k < |before| && after[k].Recorded? && after[k].user == u && now < after[k].at + duration
    {
      assert u !in multiset(kept);
      var t: nat :| Recorded(u, t) in before && now < t + duration;
      var k :| 0 <= k < |before| && before[k] == Recorded(u, t);
      assert after[k] == before[k];
    }
    forall k | 0 <= k < |before| ensures Until(after[k], now) {
      assert after[k] == before[k];
    }
  }

  /** The log is made up of the runs so far, one after another. */
  predicate RunsAt(log: seq<Event>, rounds: seq<Round>, batches: seq<seq<seq<string>>>, marks: seq<nat>,
                   starts: seq<nat>, duration: int, now: nat) {
    && |batches| == |starts| == |rounds| && |marks| == |rounds| + 1 && marks[0] == 0 && marks[|rounds|] == |log|
    && forall j :: 0 <= j < |rounds| ==>
         RunAt(log, rounds[j], batches[j], marks[j], marks[j + 1], starts[j], duration) && starts[j] <= now
  }

  lemma RunsNext(before: seq<Event>, now: nat, after: seq<Event>, rounds: seq<Round>, i: nat,
                 batches: seq<seq<seq<string>>>, marks: seq<nat>, starts: seq<nat>, next: seq<seq<string>>,
                 duration: int, later: nat)
    requires i < |rounds| && RunsAt(before, rounds[..i], batches, marks, starts, duration, now)
    requires Continues(before, now, after) && now <= later
    requires RunAt(after, rounds[i], next, |before|, |after|, now, duration)
    ensures RunsAt(after, rounds[..i + 1], batches + [next], marks + [|after|], starts + [now], duration, later)
  {
    forall j | 0 <= j < i ensures RunAt(after, rounds[j], batches[j], marks[j], marks[j + 1], starts[j], duration) {
      assert rounds[..i][j] == rounds[j];
      RunStays(before, now, after, rounds[j], batches[j], marks[j], marks[j + 1], starts[j], duration);
    }
  }

  /** What that means for one user of a run whose factors are fetched and whose batches no user
      stops: below the threshold the user is tried exactly once, unless recorded less than the
      duration before; otherwise not at all. */
  lemma RunTriesExactly(log: seq<Event>, r: Round, batches: seq<seq<string>>, from: nat, to: nat, start: nat,
                        duration: int, user: string)
    requires RunAt(log, r, batches, from, to, start, duration) && NoDuplicates(r.users)
    requires forall u | u in r.users :: r.outside.healthFactors(u).Some? && r.outside.trials(u).error != Malformed
                                        && r.outside.trials(u).saved
    ensures from <= to <= |log| && forall k :: from <= k < to && log[k].Tried? ==> start <= log[k].at
    ensures var tries := multiset(TriedUsers(log[..to]))[user] - multiset(TriedUsers(log[..from]))[user];
            var risky := user in r.users && r.outside.healthFactors(user).value < r.at.healthFactor;
            var recorded := exists k :: 0 <= k < from && log[k].Recorded? && log[k].user == user
                                        && start < log[k].at + duration;
            0 <= tries <= 1 && (tries == 1 ==> risky) && (risky && !recorded ==> tries == 1)
  {
    var dealt := Flatten(batches);
    forall u ensures u in dealt ==> u in r.users {
      assert u in dealt ==> u in multiset(dealt);
    }
    RunCounts(batches, r.outside, r.at, user);
    DistinctCounts(r.users);
    assert multiset(dealt)[user] <= multiset(r.users)[user] <= 1;
    assert user in dealt <==> multiset(dealt)[user] > 0;
    forall k | from <= k < to && log[k].Tried? ensures start <= log[k].at {
      assert Since(log[k], start);
    }
  }

  /** Any number of runs on one state directory, with crashes between them: a user who was
      recorded in any run is not tried before the duration has passed, each run tries the users
      its batches prescribe, and nobody is left out of them without a record that recent. */
  method RunRounds(rounds: seq<Round>, disk: Disk, clock: Clock, seconds: int)
    returns (bot: CurveBot, ghost batches: seq<seq<seq<string>>>, ghost marks: seq<nat>, ghost starts: seq<nat>)
    requires disk.file == Missing
    requires forall r | r in rounds ::
               NoDuplicates(r.users) && r.liquidatingBatchSize > 0 && r.healthFactorBatchSize > 0
    modifies disk, clock
    ensures bot.Valid() && BackedOff(bot.log, seconds * 1000)
    ensures |batches| == |starts| == |rounds| && |marks| == |rounds| + 1 && marks[0] == 0
    ensures marks[|rounds|] == |bot.log|
    ensures forall i :: 0 <= i < |rounds| ==>
              RunAt(bot.log, rounds[i], batches[i], marks[i], marks[i + 1], starts[i], seconds * 1000)
  {
    var memory := new ShortTermIgnoreMemory(seconds, disk);
    bot := new CurveBot(memory, clock);
    batches, marks, starts := [], [0], [];
    for i := 0 to |rounds|
      invariant fresh(bot) && fresh(bot.memory) && bot.memory.disk == disk && bot.clock == clock
      invariant bot.Valid() && bot.memory.Loadable() && bot.memory.ignoreDuration == seconds * 1000
      invariant BackedOff(bot.log, seconds * 1000)
      invariant RunsAt(bot.log, rounds[..i], batches, marks, starts, seconds * 1000, clock.now)
    {
      ghost var before, now, next := bot.log, clock.now, [];
      bot, next := NextRound(bot, rounds[i], seconds);
      RunsNext(before, now, bot.log, rounds, i, batches, marks, starts, next, seconds * 1000, clock.now);
      batches, marks, starts := batches + [next], marks + [|bot.log|], starts + [now];
    }
    assert rounds[..|rounds|] == rounds;
  }

  lemma UsersOfNext(infos: seq<UserInfo>, i: nat)
    requires i < |infos|
    ensures UsersOf(infos)[i] == infos[i].user
    ensures UsersOf(infos[..i + 1]) == UsersOf(infos[..i]) + [infos[i].user]
  {
  }

  lemma PairedAmong(users: seq<string>, factors: seq<real>, threshold: real)
    ensures forall u | u in UsersOf(Paired(users, factors, threshold)) :: u in users
    ensures NoDuplicates(users) ==> DistinctUsers(Paired(users, factors, threshold))
  {
    var infos := Paired(users, factors, threshold);
    forall k | 0 <= k < |infos| ensures UsersOf(infos)[k] in users {
      PairedUsers(users, factors, threshold, k);
    }
    if NoDuplicates(users) {
      PairedDistinct(users, factors, threshold);
    }
  }

  lemma AmongFree(log: seq<Event>, duration: int, users: seq<string>, some: seq<string>, now: nat)
    requires forall u | u in some :: u in users
    ensures AllFree(log, duration, users, now) ==> AllFree(log, duration, some, now)
  {
    if AllFree(log, duration, users, now) {
      forall k | 0 <= k < |some| ensures FreeToTry(log, duration, some[k], now) {
        assert some[k] in users;
      }
    }
  }

  lemma AmongLeavesFree(users: seq<string>, some: seq<string>, duration: int, before: seq<Event>, now: nat,
                        after: seq<Event>, later: nat)
    requires LeavesFree(some, duration, before, now, after, later) && forall u | u in some :: u in users
    ensures LeavesFree(users, duration, before, now, after, later)
  {
  }

  lemma RestFree(done: seq<string>, rest: seq<string>, duration: int, before: seq<Event>, now: nat,
                 after: seq<Event>, later: nat)
    requires LeavesFree(done, duration, before, now, after, later) && AllFree(before, duration, rest, now)
    requires forall u | u in rest :: u !in done
    ensures AllFree(after, duration, rest, later)
  {
    forall k | 0 <= k < |rest| ensures FreeToTry(after, duration, rest[k], later) {
      assert FreeToTry(before, duration, rest[k], now) && rest[k] !in done;
    }
  }

  lemma ShuffledFit(log: seq<Event>, duration: int, users: seq<string>, shuffled: seq<string>, now: nat)
    requires multiset(shuffled) == multiset(users)
    ensures NoDuplicates(users) ==> NoDuplicates(shuffled)
    ensures AllFree(log, duration, users, now) ==> AllFree(log, duration, shuffled, now)
  {
    if NoDuplicates(users) {
      SubMultisetDistinct(users, shuffled);
    }
    if AllFree(log, duration, users, now) {
      ShuffledFree(log, duration, users, shuffled, now);
    }
  }

  lemma ShuffledFree(log: seq<Event>, duration: int, users: seq<string>, shuffled: seq<string>, now: nat)
    requires AllFree(log, duration, users, now) && multiset(shuffled) == multiset(users)
    ensures AllFree(log, duration, shuffled, now)
  {
    forall k | 0 <= k < |shuffled| ensures FreeToTry(log, duration, shuffled[k], now) {
      assert shuffled[k] in multiset(users);
    }
  }

  lemma FreeParts(log: seq<Event>, duration: int, a: seq<string>, b: seq<string>, now: nat)
    requires AllFree(log, duration, a + b, now)
    ensures AllFree(log, duration, a, now) && AllFree(log, duration, b, now)
  {
    assert forall k :: 0 <= k < |a| ==> a[k] == (a + b)[k];
    assert forall k :: 0 <= k < |b| ==> b[k] == (a + b)[|a| + k];
  }

  function UsersOf(infos: seq<UserInfo>): (users: seq<string>)
    ensures |users| == |infos|
  {
    seq(|infos|, i requires 0 <= i < |infos| => infos[i].user)
  }

  /** Whoever was dropped was ignored at that time, and so already at the start. */
  predicate OnlyIgnoredDropped(users: seq<string>, kept: seq<string>, lastPut: map<string, nat>, duration: int,
                               start: nat) {
    forall u | u in users && u !in kept :: u in lastPut && start < lastPut[u] + duration
  }

  lemma OneMoreSeen(users: seq<string>, i: nat, kept: seq<string>, lastPut: map<string, nat>, duration: int, start: nat)
    requires i < |users| && OnlyIgnoredDropped(users[..i], kept, lastPut, duration, start)
    ensures OnlyIgnoredDropped(users[..i + 1], kept + [users[i]], lastPut, duration, start)
    ensures users[i] in lastPut && start < lastPut[users[i]] + duration ==>
              OnlyIgnoredDropped(users[..i + 1], kept, lastPut, duration, start)
  {
  }

  lemma KeptStayFree(log: seq<Event>, duration: int, kept: seq<string>, user: string, now: nat, later: nat)
    requires AllFree(log, duration, kept, now) && now <= later
    ensures AllFree(log, duration, kept, later)
    ensures FreeToTry(log, duration, user, later) ==> AllFree(log, duration, kept + [user], later)
  {
  }

  lemma OneMore(users: seq<string>, kept: seq<string>, i: nat)
    requires i < |users| && |kept| <= i && multiset(kept) <= multiset(users[..i])
    ensures multiset(kept) <= multiset(users[..i + 1]) && multiset(kept + [users[i]]) <= multiset(users[..i + 1])
    ensures multiset(kept) <= multiset(users)
  {
    assert users[..i + 1] == users[..i] + [users[i]];
    assert users == users[..i] + users[i..];
  }

  lemma FreeLater(log: seq<Event>, duration: int, user: string, now: nat, later: nat)
    requires FreeToTry(log, duration, user, now) && now <= later
    ensures FreeToTry(log, duration, user, later)
  {
  }
}
