/** Initialising lending reserves: parallel arrays are built, cut into chunks and sent. */
module ReserveInit {
  import opened Wrappers
  import opened Batches
  import opened Lists

  datatype ATokenKind = AToken | DelegationAwareAToken | AnotherToken

  datatype Params = Params(strategy: string, aTokenImpl: ATokenKind, decimals: string)

  /** One entry of the market configuration. */
  datatype Reserve = Reserve(symbol: string, params: Params)

  /** Addresses by token symbol and by strategy name, and the implementations to use. */
  datatype Market = Market(tokens: map<string, string>, strategies: map<string, string>,
                           aTokenImpl: string, delegationAwareImpl: Option<string>)

  datatype Input = Input(symbol: string, asset: string, decimals: string, strategy: string, aTokenImpl: string)

  const CHUNK: nat := 3

  function AddressOf(r: Reserve, market: Market): string {
    if r.symbol in market.tokens then market.tokens[r.symbol] else ""
  }

  predicate NeedsDelegation(reserves: seq<Reserve>) {
    exists r :: r in reserves && r.params.aTokenImpl == DelegationAwareAToken
  }

  /** Configured with a known kind of token, addressed, and not initialised yet. */
  predicate Due(r: Reserve, market: Market, initialised: map<string, Input>) {
    !r.params.aTokenImpl.AnotherToken? && AddressOf(r, market) != "" && AddressOf(r, market) !in initialised
  }

  function DueReserves(reserves: seq<Reserve>, market: Market, initialised: map<string, Input>): seq<Reserve> {
    if reserves == [] then []
    else (if Due(reserves[0], market, initialised) then [reserves[0]] else [])
         + DueReserves(reserves[1..], market, initialised)
  }

  /** What a reserve is to be initialised with. */
  function InputOf(r: Reserve, market: Market): Input
    requires r.params.strategy in market.strategies
    requires r.params.aTokenImpl.DelegationAwareAToken? ==> market.delegationAwareImpl.Some?
  {
    Input(r.symbol, AddressOf(r, market), r.params.decimals, market.strategies[r.params.strategy],
          if r.params.aTokenImpl.AToken? then market.aTokenImpl
          else if market.delegationAwareImpl.Some? then market.delegationAwareImpl.value else "")
  }

  predicate Ready(due: seq<Reserve>, market: Market) {
    && (forall r :: r in due ==> r.params.strategy in market.strategies)
    && (NeedsDelegation(due) ==> market.delegationAwareImpl.Some?)
  }

  function Inputs(due: seq<Reserve>, market: Market): (inputs: seq<Input>)
    requires Ready(due, market)
    ensures |inputs| == |due|
  {
    seq(|due|, i requires 0 <= i < |due| => InputOf(due[i], market))
  }

  /** All that is to be sent. A strategy that is not deployed is an error, and so is a missing
      delegation-aware implementation, even when the reserves that need it are skipped. */
  function InputsToSend(reserves: seq<Reserve>, market: Market, initialised: map<string, Input>): Result<seq<Input>> {
    var due := DueReserves(reserves, market, initialised);
    if NeedsDelegation(reserves) && market.delegationAwareImpl.None? then Failure
    else if !Ready(due, market) then Failure
    else Success(Inputs(due, market))
  }

  function Assets(inputs: seq<Input>): seq<string> {
    Mapped((input: Input) => input.asset, inputs)
  }

  function Names(inputs: seq<Input>): seq<string> {
    Mapped((input: Input) => input.symbol, inputs)
  }

  /** The symbols are the keys of an object, so none occurs twice. */
  predicate DistinctSymbols(reserves: seq<Reserve>) {
    forall i, j :: 0 <= i < j < |reserves| ==> reserves[i].symbol != reserves[j].symbol
  }

  // ---------- the pool ----------

  function Added(initialised: map<string, Input>, inputs: seq<Input>): map<string, Input>
    decreases |inputs|
  {
    if inputs == [] then initialised
    else Added(initialised[inputs[0].asset := inputs[0]], inputs[1..])
  }

  /** A transaction reverts when it names an asset twice or one that is initialised. */
  predicate Accepts(initialised: map<string, Input>, inputs: seq<Input>) {
    NoDuplicates(Assets(inputs)) && forall i :: 0 <= i < |inputs| ==> inputs[i].asset !in initialised
  }

  /** Sends the chunks from position i on, until one fails: what is then initialised,
      and how many chunks have gone through. */
  function Sent(initialised: map<string, Input>, chunks: seq<seq<Input>>, i: nat, faulty: nat -> bool)
    : (map<string, Input>, nat)
    requires i <= |chunks|
    decreases |chunks| - i
  {
    if i == |chunks| || faulty(i) || !Accepts(initialised, chunks[i]) then (initialised, i)
    else Sent(Added(initialised, chunks[i]), chunks, i + 1, faulty)
  }

  /** The pool configurator. Any transaction can also fail for reasons of its own. */
  class PoolConfigurator {
    var initialised: map<string, Input>

    constructor ()
      ensures initialised == map[]
    {
      initialised := map[];
    }

    method InitReserves(inputs: seq<Input>, fault: bool) returns (ok: bool)
      modifies this
      ensures ok == (!fault && Accepts(old(initialised), inputs))
      ensures initialised == if ok then Added(old(initialised), inputs) else old(initialised)
    {
      ok := !fault && Accepts(initialised, inputs);
      if ok {
        var i := 0;
        while i < |inputs|
          invariant i <= |inputs|
          invariant Added(initialised, inputs[i..]) == Added(old(initialised), inputs)
        {
          initialised := initialised[inputs[i].asset := inputs[i]];
          i := i + 1;
        }
      }
    }
  }

  // ---------- collecting ----------

  lemma {:induction false} DueAppend(a: seq<Reserve>, b: seq<Reserve>, market: Market, initialised: map<string, Input>)
    ensures DueReserves(a + b, market, initialised)
         == DueReserves(a, market, initialised) + DueReserves(b, market, initialised)
  {
    if a == [] {
      assert a + b == b;
    } else {
      assert (a + b)[1..] == a[1..] + b;
      DueAppend(a[1..], b, market, initialised);
    }
  }

  lemma {:induction false} DueMembers(reserves: seq<Reserve>, market: Market, initialised: map<string, Input>,
                                      r: Reserve)
    ensures r in DueReserves(reserves, market, initialised) <==> r in reserves && Due(r, market, initialised)
  {
    if reserves != [] {
      DueMembers(reserves[1..], market, initialised, r);
    }
  }

  /** The arrays and records filled by the first loop, for the reserves that are due. */
  predicate Parallel(due: seq<Reserve>, market: Market, symbols: seq<string>, tokens: seq<string>,
                     decimals: seq<string>,
                     strategyOf: map<string, string>, kindOf: map<string, ATokenKind>)
  {
    && |symbols| == |tokens| == |decimals| == |due|
    && forall k :: 0 <= k < |due| ==>
         && due[k].params.strategy in market.strategies
         && symbols[k] == due[k].symbol
         && tokens[k] == AddressOf(due[k], market)
         && decimals[k] == due[k].params.decimals
         && symbols[k] in strategyOf && strategyOf[symbols[k]] == market.strategies[due[k].params.strategy]
         && symbols[k] in kindOf && kindOf[symbols[k]] == due[k].params.aTokenImpl
  }

  method CollectReserves(reserves: seq<Reserve>, market: Market, initialised: map<string, Input>)
    returns (ok: bool, symbols: seq<string>, tokens: seq<string>, decimals: seq<string>,
             strategyOf: map<string, string>, kindOf: map<string, ATokenKind>)
    requires DistinctSymbols(reserves)
    ensures ok <==> forall r :: r in DueReserves(reserves, market, initialised) ==>
            r.params.strategy in market.strategies
    ensures ok ==> Parallel(DueReserves(reserves, market, initialised), market, symbols, tokens, decimals,
            strategyOf, kindOf)
  {
    ok, symbols, tokens, decimals, strategyOf, kindOf := true, [], [], [], map[], map[];
    for i := 0 to |reserves|
      invariant Parallel(DueReserves(reserves[..i], market, initialised), market, symbols, tokens, decimals,
                strategyOf, kindOf)
    {
      var r := reserves[i];
      ghost var before := DueReserves(reserves[..i], market, initialised);
      assert reserves[..i + 1] == reserves[..i] + [r];
      DueAppend(reserves[..i], [r], market, initialised);
      if !r.params.aTokenImpl.AnotherToken? && AddressOf(r, market) != "" && AddressOf(r, market) !in initialised {
        if r.params.strategy !in market.strategies {
          DueMembers(reserves, market, initialised, r);
          ok := false;
          return;
        }
        forall k | 0 <= k < |before| ensures before[k].symbol != r.symbol {
          DueMembers(reserves[..i], market, initialised, before[k]);
        }
        strategyOf := strategyOf[r.symbol := market.strategies[r.params.strategy]];
        kindOf := kindOf[r.symbol := r.params.aTokenImpl];
        decimals := decimals + [r.params.decimals];
        tokens := tokens + [AddressOf(r, market)];
        symbols := symbols + [r.symbol];
      }
    }
    assert reserves[..|reserves|] == reserves;
  }

  method BuildInputs(market: Market, symbols: seq<string>, tokens: seq<string>, decimals: seq<string>,
                     strategyOf: map<string, string>, kindOf: map<string, ATokenKind>, ghost due: seq<Reserve>)
    returns (inputs: seq<Input>)
    requires Parallel(due, market, symbols, tokens, decimals, strategyOf, kindOf) && Ready(due, market)
    ensures inputs == Inputs(due, market)
  {
    var delegationAware := if market.delegationAwareImpl.Some? then market.delegationAwareImpl.value else "";
    inputs := [];
    for i := 0 to |symbols|
      invariant inputs == Inputs(due, market)[..i]
    {
      var aTokenToUse := if kindOf[symbols[i]] == AToken then market.aTokenImpl else delegationAware;
      inputs := inputs + [Input(symbols[i], tokens[i], decimals[i], strategyOf[symbols[i]], aTokenToUse)];
    }
  }

  // ---------- the whole run ----------

  /** Collects, builds and sends in chunks of three. Says which reserves went through, by symbol. */
  method InitReservesByHelper(reserves: seq<Reserve>, market: Market, pool: PoolConfigurator, faulty: nat -> bool)
    returns (ok: bool, done: seq<seq<string>>)
    requires DistinctSymbols(reserves)
    modifies pool
    ensures var toSend := InputsToSend(reserves, market, old(pool.initialised));
            if toSend.Failure? then !ok && pool.initialised == old(pool.initialised) && done == []
            else
              var chunks := InBatches(toSend.value, CHUNK);
              var (initialised, sent) := Sent(old(pool.initialised), chunks, 0, faulty);
              && (ok <==> sent == |chunks|)
              && pool.initialised == initialised
              && sent <= |chunks| && done == Mapped(Names, chunks[..sent])
  {
    ok, done := false, [];
    if (exists r :: r in reserves && r.params.aTokenImpl == DelegationAwareAToken) && market.delegationAwareImpl.None? {
      return;
    }
    ghost var due := DueReserves(reserves, market, pool.initialised);
    var collected, symbols, tokens, decimals, strategyOf, kindOf := CollectReserves(reserves, market, pool.initialised);
    if !collected {
      return;
    }
    forall r | r in due ensures r in reserves {
      DueMembers(reserves, market, pool.initialised, r);
    }
    var inputs := BuildInputs(market, symbols, tokens, decimals, strategyOf, kindOf, due);
    assert symbols == Names(inputs);
    var chunkedSymbols, chunkedInputs := Chunk(symbols, CHUNK), Chunk(inputs, CHUNK);
    ChunkIsSplit(symbols, CHUNK);
    ChunkIsSplit(inputs, CHUNK);
    BatchesAligned((input: Input) => input.symbol, inputs, CHUNK);
    ok, done := SendChunks(chunkedSymbols, chunkedInputs, pool, faulty);
  }

  method SendChunks(symbols: seq<seq<string>>, chunks: seq<seq<Input>>, pool: PoolConfigurator, faulty: nat -> bool)
    returns (ok: bool, done: seq<seq<string>>)
    requires |symbols| == |chunks| && forall i :: 0 <= i < |chunks| ==> symbols[i] == Names(chunks[i])
    modifies pool
    ensures var (initialised, sent) := Sent(old(pool.initialised), chunks, 0, faulty);
            && (ok <==> sent == |chunks|)
            && pool.initialised == initialised
            && sent <= |chunks| && done == Mapped(Names, chunks[..sent])
  {
    done := [];
    for i := 0 to |chunks|
      invariant Sent(pool.initialised, chunks, i, faulty) == Sent(old(pool.initialised), chunks, 0, faulty)
      invariant done == Mapped(Names, chunks[..i])
    {
      ok := pool.InitReserves(chunks[i], faulty(i));
      if !ok {
        return;
      }
      done := done + [symbols[i]];
    }
    ok := true;
  }

  // ---------- what has been initialised ----------

  lemma {:induction false} AddedAppend(initialised: map<string, Input>, a: seq<Input>, b: seq<Input>)
    ensures Added(initialised, a + b) == Added(Added(initialised, a), b)
    decreases |a|
  {
    if a == [] {
      assert a + b == b;
    } else {
      assert (a + b)[1..] == a[1..] + b;
      AddedAppend(initialised[a[0].asset := a[0]], a[1..], b);
    }
  }

  /** Adding distinct assets adds exactly these, each with its own input. */
  lemma {:induction false} AddedExactly(initialised: map<string, Input>, inputs: seq<Input>)
    requires NoDuplicates(Assets(inputs))
    ensures forall a :: a in Added(initialised, inputs) <==> a in initialised || a in Assets(inputs)
    ensures forall k :: 0 <= k < |inputs| ==>
              inputs[k].asset in Added(initialised, inputs) && Added(initialised, inputs)[inputs[k].asset] == inputs[k]
    ensures forall a :: a in initialised && a !in Assets(inputs) ==> Added(initialised, inputs)[a] == initialised[a]
    decreases |inputs|
  {
    if inputs != [] {
      var first, rest := inputs[0], inputs[1..];
      assert Assets(inputs) == [first.asset] + Assets(rest);
      DistinctParts([first.asset], Assets(rest));
      AddedExactly(initialised[first.asset := first], rest);
      assert first.asset in [first.asset];
    }
  }

  function FirstFault(i: nat, n: nat, faulty: nat -> bool): (k: nat)
    requires i <= n
    ensures i <= k <= n && (forall j :: i <= j < k ==> !faulty(j)) && (k < n ==> faulty(k))
    decreases n - i
  {
    if i == n || faulty(i) then i else FirstFault(i + 1, n, faulty)
  }

  /** Fresh and distinct assets: no chunk is refused, so sending stops at the first
      transaction that fails for another reason, and what went through is a prefix. */
  lemma {:induction false} SentUpToFault(initialised: map<string, Input>, chunks: seq<seq<Input>>, i: nat,
                                         faulty: nat -> bool)
    requires i <= |chunks| && Accepts(initialised, Flatten(chunks))
    ensures var k := FirstFault(i, |chunks|, faulty);
            Sent(Added(initialised, Flatten(chunks[..i])), chunks, i, faulty) ==
                (Added(initialised, Flatten(chunks[..k])), k)
    decreases |chunks| - i
  {
    if i < |chunks| && !faulty(i) {
      SentUpToFault(initialised, chunks, i + 1, faulty);
      NextChunkAccepted(initialised, chunks, i);
    }
  }

  lemma NextChunkAccepted(initialised: map<string, Input>, chunks: seq<seq<Input>>, i: nat)
    requires i < |chunks| && Accepts(initialised, Flatten(chunks))
    ensures var before := Added(initialised, Flatten(chunks[..i]));
            Accepts(before, chunks[i]) && Added(before, chunks[i]) == Added(initialised, Flatten(chunks[..i + 1]))
  {
    var before, chunk, after := Flatten(chunks[..i]), chunks[i], Flatten(chunks[i + 1..]);
    FlattenNext(chunks, i);
    FlattenSplit(chunks, i + 1);
    assert Assets(Flatten(chunks)) == Assets(before) + Assets(chunk) + Assets(after);
    DistinctParts(Assets(before) + Assets(chunk), Assets(after));
    DistinctParts(Assets(before), Assets(chunk));
    AddedExactly(initialised, before);
    AddedAppend(initialised, before, chunk);
    forall k | 0 <= k < |chunk| ensures chunk[k].asset !in Added(initialised, before) {
      assert Assets(chunk)[k] == chunk[k].asset;
      assert Flatten(chunks)[|before| + k] == chunk[k];
    }
  }

  // ---------- every reserve, once ----------

  predicate DistinctAddresses(reserves: seq<Reserve>, market: Market) {
    forall i, j :: 0 <= i < j < |reserves| && AddressOf(reserves[i], market) != "" ==>
      AddressOf(reserves[i], market) != AddressOf(reserves[j], market)
  }

  lemma {:induction false} DueDistinct(reserves: seq<Reserve>, market: Market, initialised: map<string, Input>)
    requires DistinctAddresses(reserves, market)
    ensures DistinctAddresses(DueReserves(reserves, market, initialised), market)
  {
    if reserves != [] {
      var rest := DueReserves(reserves[1..], market, initialised);
      DueDistinct(reserves[1..], market, initialised);
      forall k | 0 <= k < |rest| && AddressOf(reserves[0], market) != ""
        ensures AddressOf(rest[k], market) != AddressOf(reserves[0], market)
      {
        DueMembers(reserves[1..], market, initialised, rest[k]);
      }
    }
  }

  /** Nothing is sent exactly when some reserve of the configuration needs a delegation-aware
      implementation that is missing, or one that is due names a strategy that is not deployed. */
  lemma InputsFailExactly(reserves: seq<Reserve>, market: Market, initialised: map<string, Input>)
    ensures InputsToSend(reserves, market, initialised).Failure? <==>
              || (market.delegationAwareImpl.None?
                  && exists r :: r in reserves && r.params.aTokenImpl == DelegationAwareAToken)
              || (exists r :: r in reserves && Due(r, market, initialised)
                              && r.params.strategy !in market.strategies)
  {
    var due := DueReserves(reserves, market, initialised);
    forall r ensures r in due <==> r in reserves && Due(r, market, initialised) {
      DueMembers(reserves, market, initialised, r);
    }
  }

  lemma InputsAccepted(reserves: seq<Reserve>, market: Market, initialised: map<string, Input>)
    requires DistinctAddresses(reserves, market) && InputsToSend(reserves, market, initialised).Success?
    ensures Accepts(initialised, InputsToSend(reserves, market, initialised).value)
  {
    var due := DueReserves(reserves, market, initialised);
    DueDistinct(reserves, market, initialised);
    forall k | 0 <= k < |due| ensures Due(due[k], market, initialised) {
      DueMembers(reserves, market, initialised, due[k]);
    }
  }

  /** The input carries what the configuration says about this very reserve. */
  predicate SentFor(r: Reserve, market: Market, input: Input) {
    && input.symbol == r.symbol && input.asset == AddressOf(r, market) && input.decimals == r.params.decimals
    && r.params.strategy in market.strategies && input.strategy == market.strategies[r.params.strategy]
    && (if r.params.aTokenImpl.AToken? then input.aTokenImpl == market.aTokenImpl
        else market.delegationAwareImpl == Some(input.aTokenImpl))
  }

  predicate IsSent(r: Reserve, market: Market, inputs: seq<Input>) {
    exists k :: 0 <= k < |inputs| && SentFor(r, market, inputs[k])
  }

  predicate IsWanted(input: Input, reserves: seq<Reserve>, market: Market, initialised: map<string, Input>) {
    exists r :: r in reserves && Due(r, market, initialised) && SentFor(r, market, input)
  }

  /** With distinct token addresses each reserve that is configured, addressed and not
      initialised is sent exactly once with its own parameters, in chunks of at most three
      that concatenate to the whole list; nothing else is sent. */
  lemma SubmittedExactlyOnce(reserves: seq<Reserve>, market: Market, initialised: map<string, Input>)
    requires DistinctAddresses(reserves, market) && InputsToSend(reserves, market, initialised).Success?
    ensures var inputs := InputsToSend(reserves, market, initialised).value;
            && Flatten(InBatches(inputs, CHUNK)) == inputs
            && (forall chunk :: chunk in InBatches(inputs, CHUNK) ==> 0 < |chunk| <= 3)
            && NoDuplicates(Assets(inputs))
            && (forall r :: r in reserves && Due(r, market, initialised) ==> IsSent(r, market, inputs))
            && (forall input :: input in inputs ==> IsWanted(input, reserves, market, initialised))
            && (forall i :: 0 <= i < |InBatches(inputs, CHUNK)| - 1 ==> |InBatches(inputs, CHUNK)[i]| == 3)
    ensures forall r | r in reserves && r.params.aTokenImpl in {AToken, DelegationAwareAToken}
                       && r.symbol in market.tokens && market.tokens[r.symbol] != ""
                       && market.tokens[r.symbol] !in initialised ::
              && r.params.strategy in market.strategies
              && (r.params.aTokenImpl == DelegationAwareAToken ==> market.delegationAwareImpl.Some?)
              && Input(r.symbol, market.tokens[r.symbol], r.params.decimals, market.strategies[r.params.strategy],
                       if r.params.aTokenImpl == AToken then market.aTokenImpl else market.delegationAwareImpl.value)
                 in InputsToSend(reserves, market, initialised).value
    ensures forall input | input in InputsToSend(reserves, market, initialised).value :: exists r ::
              && r in reserves && r.symbol == input.symbol
              && r.params.aTokenImpl in {AToken, DelegationAwareAToken}
              && r.symbol in market.tokens && market.tokens[r.symbol] == input.asset != ""
              && input.asset !in initialised
  {
    var due, inputs := DueReserves(reserves, market, initialised), InputsToSend(reserves, market, initialised).value;
    InputsAccepted(reserves, market, initialised);
    BatchesPartition(inputs, CHUNK);
    forall r | r in reserves && Due(r, market, initialised) ensures IsSent(r, market, inputs) {
      DueMembers(reserves, market, initialised, r);
      var k :| 0 <= k < |due| && due[k] == r;
      assert SentFor(r, market, inputs[k]);
    }
    forall input | input in inputs ensures IsWanted(input, reserves, market, initialised) {
      var k :| 0 <= k < |inputs| && inputs[k] == input;
      DueMembers(reserves, market, initialised, due[k]);
      assert SentFor(due[k], market, input);
    }
    forall r | r in reserves && r.params.aTokenImpl in {AToken, DelegationAwareAToken}
               && r.symbol in market.tokens && market.tokens[r.symbol] != ""
               && market.tokens[r.symbol] !in initialised
      ensures r in due
    {
      DueMembers(reserves, market, initialised, r);
    }
    forall r | r in due ensures InputOf(r, market) in inputs {
      var k :| 0 <= k < |due| && due[k] == r;
      assert inputs[k] == InputOf(r, market);
    }
    forall input | input in inputs
      ensures exists r :: r in reserves && r.symbol == input.symbol
                && r.params.aTokenImpl in {AToken, DelegationAwareAToken}
                && r.symbol in market.tokens && market.tokens[r.symbol] == input.asset != ""
                && input.asset !in initialised
    {
      assert IsWanted(input, reserves, market, initialised);
    }
  }

  // ---------- the next run ----------

  /** When more has been initialised, what is due is looked for among what was due. */
  lemma {:induction false} DueAgain(reserves: seq<Reserve>, market: Market, before: map<string, Input>,
                                    after: map<string, Input>)
    requires forall a :: a in before ==> a in after
    ensures DueReserves(reserves, market, after) == DueReserves(DueReserves(reserves, market, before), market, after)
  {
    if reserves != [] {
      DueAgain(reserves[1..], market, before, after);
      var head := if Due(reserves[0], market, before) then [reserves[0]] else [];
      DueAppend(head, DueReserves(reserves[1..], market, before), market, after);
      assert head != [] ==> head[0] == reserves[0] && head[1..] == [];
    }
  }

  lemma {:induction false} AllDue(reserves: seq<Reserve>, market: Market, initialised: map<string, Input>)
    requires forall i :: 0 <= i < |reserves| ==> Due(reserves[i], market, initialised)
    ensures DueReserves(reserves, market, initialised) == reserves
  {
    if reserves != [] {
      AllDue(reserves[1..], market, initialised);
      assert reserves == [reserves[0]] + reserves[1..];
    }
  }

  lemma {:induction false} NoneDue(reserves: seq<Reserve>, market: Market, initialised: map<string, Input>)
    requires forall i :: 0 <= i < |reserves| ==> !Due(reserves[i], market, initialised)
    ensures DueReserves(reserves, market, initialised) == []
  {
    if reserves != [] {
      NoneDue(reserves[1..], market, initialised);
    }
  }

  lemma PrefixSettles(due: seq<Reserve>, market: Market, initialised: map<string, Input>, k: nat)
    requires k <= |due| && Ready(due, market) && Accepts(initialised, Inputs(due, market))
    requires forall r :: r in due ==> Due(r, market, initialised)
    ensures var after := Added(initialised, Inputs(due, market)[..k]);
            && (forall a :: a in initialised ==> a in after)
            && (forall i :: 0 <= i < |due| ==> (Due(due[i], market, after) <==> i >= k))
  {
    var inputs := Inputs(due, market);
    var after := Added(initialised, inputs[..k]);
    assert Assets(inputs) == Assets(inputs[..k]) + Assets(inputs[k..]);
    DistinctParts(Assets(inputs[..k]), Assets(inputs[k..]));
    AddedExactly(initialised, inputs[..k]);
    forall i | 0 <= i < |due| ensures Due(due[i], market, after) <==> i >= k {
      assert inputs[i].asset == AddressOf(due[i], market) && Due(due[i], market, initialised);
      if i < k {
        assert inputs[..k][i].asset in after;
      } else {
        assert Assets(inputs[k..])[i - k] == inputs[i].asset;
      }
    }
  }

  /** After the first k inputs have gone through, exactly the others are due. */
  lemma DueAfterPrefix(reserves: seq<Reserve>, market: Market, initialised: map<string, Input>, k: nat)
    requires DistinctAddresses(reserves, market) && InputsToSend(reserves, market, initialised).Success?
    requires k <= |InputsToSend(reserves, market, initialised).value|
    ensures var inputs := InputsToSend(reserves, market, initialised).value;
            InputsToSend(reserves, market, Added(initialised, inputs[..k])) == Success(inputs[k..])
  {
    var due, inputs := DueReserves(reserves, market, initialised), InputsToSend(reserves, market, initialised).value;
    var after := Added(initialised, inputs[..k]);
    InputsAccepted(reserves, market, initialised);
    forall r | r in due ensures Due(r, market, initialised) {
      DueMembers(reserves, market, initialised, r);
    }
    PrefixSettles(due, market, initialised, k);
    DueAgain(reserves, market, initialised, after);
    SettledPrefix(due, market, after, k);
    RestReady(due, market, k);
  }

  lemma SettledPrefix(due: seq<Reserve>, market: Market, after: map<string, Input>, k: nat)
    requires k <= |due| && forall i :: 0 <= i < |due| ==> (Due(due[i], market, after) <==> i >= k)
    ensures DueReserves(due, market, after) == due[k..]
  {
    NoneDue(due[..k], market, after);
    AllDue(due[k..], market, after);
    assert due == due[..k] + due[k..];
    DueAppend(due[..k], due[k..], market, after);
  }

  lemma RestReady(due: seq<Reserve>, market: Market, k: nat)
    requires k <= |due| && Ready(due, market)
    ensures Ready(due[k..], market) && Inputs(due[k..], market) == Inputs(due, market)[k..]
  {
  }

  /** Wherever a run stops, the next one sends exactly what is missing; after a complete
      run every due reserve is initialised with its own input, and nothing is sent again. */
  lemma NextRunSendsTheRest(reserves: seq<Reserve>, market: Market, initialised: map<string, Input>,
                            faulty: nat -> bool)
    requires DistinctAddresses(reserves, market) && InputsToSend(reserves, market, initialised).Success?
    ensures var inputs := InputsToSend(reserves, market, initialised).value;
            var chunks := InBatches(inputs, CHUNK);
            var (after, sent) := Sent(initialised, chunks, 0, faulty);
            && sent == FirstFault(0, |chunks|, faulty)
            && InputsToSend(reserves, market, after) == Success(Flatten(chunks[sent..]))
            && (sent == |chunks| ==>
                  && InputsToSend(reserves, market, after) == Success([])
                  && forall k :: 0 <= k < |inputs| ==> inputs[k].asset in after && after[inputs[k].asset] == inputs[k])
  {
    var inputs := InputsToSend(reserves, market, initialised).value;
    var chunks := InBatches(inputs, CHUNK);
    BatchesPartition(inputs, CHUNK);
    InputsAccepted(reserves, market, initialised);
    assert Flatten(chunks[..0]) == [];
    SentUpToFault(initialised, chunks, 0, faulty);
    var sent := FirstFault(0, |chunks|, faulty);
    var prefix := Flatten(chunks[..sent]);
    FlattenSplit(chunks, sent);
    assert inputs[..|prefix|] == prefix && inputs[|prefix|..] == Flatten(chunks[sent..]);
    DueAfterPrefix(reserves, market, initialised, |prefix|);
    AddedExactly(initialised, inputs);
    if sent == |chunks| {
      assert prefix == inputs;
    }
  }
}
