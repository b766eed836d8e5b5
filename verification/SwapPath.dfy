/** The packed route of a multi-hop swap. */
module SwapPath {
  import opened Wrappers
  import opened Arithmetic

  newtype byte = x: int | 0 <= x < 256

  const ADDRESS_BYTES: nat := 20
  const FEE_BYTES: nat := 3
  const FEE_LIMIT: int := 0x100_0000

  type Token = seq<byte>

  datatype Kind = AddressKind | Uint24Kind
  datatype Value = TokenValue(token: Token) | FeeValue(fee: int)

  /** A route between tokens, with one fee for each hop. */
  datatype Route = Route(tokens: seq<Token>, fees: seq<int>)

  function Reverse<T>(xs: seq<T>): seq<T> {
    seq(|xs|, i requires 0 <= i < |xs| => xs[|xs| - 1 - i])
  }

  // ---------- packing, Solidity Contract ABI Specification, section "Non-standard Packed Mode" ----------

  /** A 24-bit number, most significant byte first. */
  function Uint24(x: int): seq<byte>
    requires 0 <= x < FEE_LIMIT
  {
    [(x / 0x1_0000) as byte, (x / 0x100 % 0x100) as byte, (x % 0x100) as byte]
  }

  function PackOne(kind: Kind, value: Value): Result<seq<byte>> {
    match (kind, value)
    case (AddressKind, TokenValue(token)) => if |token| == ADDRESS_BYTES then Success(token) else Failure
    case (Uint24Kind, FeeValue(fee)) => if 0 <= fee < FEE_LIMIT then Success(Uint24(fee)) else Failure
    case _ => Failure
  }

  /** Packs value after value; kinds and values have to go together. */
  function Pack(kinds: seq<Kind>, values: seq<Value>): Result<seq<byte>> {
    if |kinds| != |values| then Failure
    else if kinds == [] then Success([])
    else
      var first :- PackOne(kinds[0], values[0]);
      var rest :- Pack(kinds[1..], values[1..]);
      Success(first + rest)
  }

  // ---------- the route ----------

  predicate WellFormed(route: Route) {
    |route.tokens| >= 2 && |route.tokens| == |route.fees| + 1
  }

  predicate Encodable(route: Route) {
    && (forall i :: 0 <= i < |route.tokens| ==> |route.tokens[i]| == ADDRESS_BYTES)
    && (forall i :: 0 <= i < |route.fees| ==> 0 <= route.fees[i] < FEE_LIMIT)
  }

  function Reversed(route: Route): Route {
    Route(Reverse(route.tokens), Reverse(route.fees))
  }

  function Tail(route: Route): Route
    requires |route.tokens| == |route.fees| + 1 && |route.tokens| >= 2
  {
    Route(route.tokens[1..], route.fees[1..])
  }

  function Kinds(tokens: nat): seq<Kind>
    requires tokens >= 1
  {
    seq(2 * tokens - 1, i => if i % 2 == 0 then AddressKind else Uint24Kind)
  }

  function Values(route: Route): seq<Value>
    requires |route.tokens| == |route.fees| + 1
  {
    seq(2 * |route.tokens| - 1, i requires 0 <= i < 2 * |route.tokens| - 1 =>
      if i % 2 == 0 then TokenValue(route.tokens[i / 2]) else FeeValue(route.fees[i / 2]))
  }

  /** What convertToSwapPath computes. */
  function PathOf(route: Route, exactInput: bool): Result<seq<byte>> {
    if !WellFormed(route) then Failure
    else if exactInput then Pack(Kinds(|route.tokens|), Values(route))
    else Pack(Reverse(Kinds(|route.tokens|)), Reverse(Values(route)))
  }

  method ConvertToSwapPath(tokens: seq<Token>, fees: seq<int>, exactInput: bool) returns (path: Result<seq<byte>>)
    ensures path == PathOf(Route(tokens, fees), exactInput)
  {
    if |tokens| < 2 {
      return Failure;
    }
    if |tokens| != |fees| + 1 {
      return Failure;
    }
    var kinds := [AddressKind];
    for i := 1 to |tokens|
      invariant kinds == Kinds(i)
    {
      kinds := kinds + [Uint24Kind, AddressKind];
    }
    var values := [TokenValue(tokens[0])];
    for i := 1 to |tokens|
      invariant values == Values(Route(tokens[..i], fees[..i - 1]))
    {
      values := values + [FeeValue(fees[i - 1])];
      values := values + [TokenValue(tokens[i])];
    }
    assert Route(tokens[..|tokens|], fees[..|tokens| - 1]) == Route(tokens, fees);
    if !exactInput {
      values := Reverse(values);
      kinds := Reverse(kinds);
    }
    path := Pack(kinds, values);
  }

  // ---------- exact output ----------

  lemma ReversedValues(route: Route)
    requires |route.tokens| == |route.fees| + 1
    ensures Reverse(Values(route)) == Values(Reversed(route))
    ensures Reverse(Kinds(|route.tokens|)) == Kinds(|route.tokens|)
  {
  }

  /** The path for an exact output is the path of the reversed route for an exact input. */
  lemma ExactOutputReverses(route: Route)
    ensures PathOf(route, false) == PathOf(Reversed(route), true)
  {
    if WellFormed(route) {
      ReversedValues(route);
    }
  }

  // ---------- the codec ----------

  /** Token, fee, token, and so on, without a gap. */
  function Bytes(route: Route): seq<byte>
    requires |route.tokens| == |route.fees| + 1 && Encodable(route)
    decreases |route.tokens|
  {
    if |route.tokens| == 1 then route.tokens[0]
    else route.tokens[0] + Uint24(route.fees[0]) + Bytes(Tail(route))
  }

  /** Packing succeeds exactly on addresses and 24-bit fees. */
  lemma {:induction false} PackRoute(route: Route)
    requires |route.tokens| == |route.fees| + 1
    ensures Pack(Kinds(|route.tokens|), Values(route)) == if Encodable(route) then Success(Bytes(route)) else Failure
    decreases |route.tokens|
  {
    if |route.tokens| == 1 {
      PackToken(route.tokens[0]);
      assert Values(route) == [TokenValue(route.tokens[0])];
      assert Encodable(route) <==> |route.tokens[0]| == ADDRESS_BYTES;
    } else {
      PackRoute(Tail(route));
      EncodableTail(route);
      KindsAndValues(route);
      PackHop(route.tokens[0], route.fees[0], Kinds(|route.tokens| - 1), Values(Tail(route)));
    }
  }

  lemma PackToken(token: Token)
    ensures Pack(Kinds(1), [TokenValue(token)]) == if |token| == ADDRESS_BYTES then Success(token) else Failure
  {
    assert Kinds(1) == [AddressKind];
    assert token + [] == token;
  }

  lemma KindsAndValues(route: Route)
    requires |route.tokens| == |route.fees| + 1 && |route.tokens| >= 2
    ensures Kinds(|route.tokens|) == [AddressKind, Uint24Kind] + Kinds(|route.tokens| - 1)
    ensures Values(route) == [TokenValue(route.tokens[0]), FeeValue(route.fees[0])] + Values(Tail(route))
  {
  }

  lemma PackHop(token: Token, fee: int, kinds: seq<Kind>, values: seq<Value>)
    ensures Pack([AddressKind, Uint24Kind] + kinds, [TokenValue(token), FeeValue(fee)] + values)
         == if |token| == ADDRESS_BYTES && 0 <= fee < FEE_LIMIT && Pack(kinds, values).Success?
            then Success(token + Uint24(fee) + Pack(kinds, values).value) else Failure
  {
    var allKinds, allValues := [AddressKind, Uint24Kind] + kinds, [TokenValue(token), FeeValue(fee)] + values;
    assert allKinds[1..] == [Uint24Kind] + kinds && allValues[1..] == [FeeValue(fee)] + values;
    assert allKinds[1..][1..] == kinds && allValues[1..][1..] == values;
    if 0 <= fee < FEE_LIMIT && Pack(kinds, values).Success? {
      assert token + (Uint24(fee) + Pack(kinds, values).value) == token + Uint24(fee) + Pack(kinds, values).value;
    }
  }

  lemma EncodableTail(route: Route)
    requires |route.tokens| == |route.fees| + 1 && |route.tokens| >= 2
    ensures Encodable(route) <==>
            |route.tokens[0]| == ADDRESS_BYTES && 0 <= route.fees[0] < FEE_LIMIT && Encodable(Tail(route))
  {
  }

  /** Reads a route back from its bytes. */
  function Decode(path: seq<byte>): Result<Route> {
    if |path| == ADDRESS_BYTES then Success(Route([path], []))
    else if |path| < 2 * ADDRESS_BYTES + FEE_BYTES then Failure
    else
      var rest :- Decode(path[ADDRESS_BYTES + FEE_BYTES..]);
      Success(Route([path[..ADDRESS_BYTES]] + rest.tokens,
                    [Fee(path[ADDRESS_BYTES..ADDRESS_BYTES + FEE_BYTES])] + rest.fees))
  }

  function Fee(bytes: seq<byte>): int
    requires |bytes| == FEE_BYTES
  {
    bytes[0] as int * 0x1_0000 + bytes[1] as int * 0x100 + bytes[2] as int
  }

  lemma FeeRoundTrip(x: int)
    requires 0 <= x < FEE_LIMIT
    ensures Fee(Uint24(x)) == x
  {
  }

  lemma FeeBytes(bytes: seq<byte>)
    requires |bytes| == FEE_BYTES
    ensures 0 <= Fee(bytes) < FEE_LIMIT && Uint24(Fee(bytes)) == bytes
  {
    Digits(bytes[0] as int, bytes[1] as int, bytes[2] as int);
  }

  lemma Digits(a: int, b: int, c: int)
    requires 0 <= a < 0x100 && 0 <= b < 0x100 && 0 <= c < 0x100
    ensures var x := a * 0x1_0000 + b * 0x100 + c;
            0 <= x < FEE_LIMIT && x / 0x1_0000 == a && x / 0x100 % 0x100 == b && x % 0x100 == c
  {
    var x := a * 0x1_0000 + b * 0x100 + c;
    DivModUnique(x, 0x1_0000, a, b * 0x100 + c);
    DivModUnique(x, 0x100, a * 0x100 + b, c);
  }

  lemma DecodeHop(token: Token, fee: int, rest: seq<byte>)
    requires |token| == ADDRESS_BYTES && 0 <= fee < FEE_LIMIT && |rest| >= ADDRESS_BYTES && Decode(rest).Success?
    ensures var route := Decode(rest).value;
            Decode(token + Uint24(fee) + rest) == Success(Route([token] + route.tokens, [fee] + route.fees))
  {
    var path := token + Uint24(fee) + rest;
    assert path[ADDRESS_BYTES + FEE_BYTES..] == rest;
    assert path[..ADDRESS_BYTES] == token;
    assert path[ADDRESS_BYTES..ADDRESS_BYTES + FEE_BYTES] == Uint24(fee);
    FeeRoundTrip(fee);
  }

  lemma HeadAndTail(route: Route)
    requires |route.tokens| == |route.fees| + 1 && |route.tokens| >= 2
    ensures route == Route([route.tokens[0]] + Tail(route).tokens, [route.fees[0]] + Tail(route).fees)
  {
  }

  lemma {:induction false} BytesLength(route: Route)
    requires |route.tokens| == |route.fees| + 1 && Encodable(route)
    ensures |Bytes(route)| == ADDRESS_BYTES + (ADDRESS_BYTES + FEE_BYTES) * |route.fees|
    decreases |route.tokens|
  {
    if |route.tokens| > 1 {
      BytesLength(Tail(route));
    }
  }

  lemma {:induction false} BytesRoundTrip(route: Route)
    requires |route.tokens| == |route.fees| + 1 && Encodable(route)
    ensures Decode(Bytes(route)) == Success(route)
    decreases |route.tokens|
  {
    if |route.tokens| == 1 {
      assert route == Route([route.tokens[0]], []);
    } else {
      var tail := Tail(route);
      BytesRoundTrip(tail);
      BytesLength(tail);
      EncodableTail(route);
      DecodeHop(route.tokens[0], route.fees[0], Bytes(tail));
      HeadAndTail(route);
    }
  }

  /** Encoding succeeds on exactly the routes that fit, takes 20 + 23 * (n - 1) bytes,
      and loses nothing; for an exact output the route comes back reversed. */
  lemma PathRoundTrip(route: Route, exactInput: bool)
    ensures var path := PathOf(route, exactInput);
            && (path.Success? <==>
                  && |route.tokens| >= 2 && |route.tokens| == |route.fees| + 1
                  && (forall i :: 0 <= i < |route.tokens| ==> |route.tokens[i]| == 20)
                  && (forall i :: 0 <= i < |route.fees| ==> 0 <= route.fees[i] < 0x100_0000))
            && (path.Success? ==>
                && |path.value| == 20 + 23 * (|route.tokens| - 1)
                && Decode(path.value) == Success(if exactInput then route else Reversed(route)))
  {
    if WellFormed(route) {
      EncodableReversed(route);
      var read := if exactInput then route else Reversed(route);
      ExactOutputReverses(route);
      PackRoute(read);
      if Encodable(read) {
        BytesLength(read);
        BytesRoundTrip(read);
      }
    }
  }

  /** Byte by byte: token k starts at 23 * k, and its fee follows with the most significant byte first. */
  lemma {:induction false} BytesLayout(route: Route)
    requires |route.tokens| == |route.fees| + 1 && Encodable(route)
    ensures |Bytes(route)| == 20 + 23 * |route.fees|
    ensures forall k :: 0 <= k < |route.tokens| ==> Bytes(route)[23 * k..23 * k + 20] == route.tokens[k]
    ensures forall k :: 0 <= k < |route.fees| ==>
              var x, at := route.fees[k], 23 * k + 20;
              && Bytes(route)[at] as int == x / 65536
              && Bytes(route)[at + 1] as int == x / 256 % 256
              && Bytes(route)[at + 2] as int == x % 256
    decreases |route.tokens|
  {
    BytesLength(route);
    if |route.tokens| > 1 {
      var tail, head := Tail(route), route.tokens[0] + Uint24(route.fees[0]);
      BytesLayout(tail);
      assert Bytes(route) == head + Bytes(tail) && |head| == 23;
      forall k | 0 < k < |route.tokens| ensures Bytes(route)[23 * k..23 * k + 20] == route.tokens[k] {
        assert tail.tokens[k - 1] == route.tokens[k];
        assert Bytes(route)[23 * k..23 * k + 20] == Bytes(tail)[23 * (k - 1)..23 * (k - 1) + 20];
      }
      forall k | 0 < k < |route.fees|
        ensures var x, at := route.fees[k], 23 * k + 20;
                && Bytes(route)[at] as int == x / 65536
                && Bytes(route)[at + 1] as int == x / 256 % 256
                && Bytes(route)[at + 2] as int == x % 256
      {
        assert tail.fees[k - 1] == route.fees[k];
      }
    }
  }

  /** The packed path of a route, for an exact input: its tokens and fees, in the stated bytes. */
  lemma PathLayout(route: Route)
    requires PathOf(route, true).Success?
    ensures var path := PathOf(route, true).value;
            && |path| == 20 + 23 * |route.fees|
            && (forall k :: 0 <= k < |route.tokens| ==> path[23 * k..23 * k + 20] == route.tokens[k])
            && (forall k :: 0 <= k < |route.fees| ==>
                  && path[23 * k + 20] as int == route.fees[k] / 65536
                  && path[23 * k + 21] as int == route.fees[k] / 256 % 256
                  && path[23 * k + 22] as int == route.fees[k] % 256)
  {
    PackRoute(route);
    BytesLayout(route);
  }

  lemma EncodableReversed(route: Route)
    ensures Encodable(Reversed(route)) <==> Encodable(route)
  {
    var reversed := Reversed(route);
    assert forall i :: 0 <= i < |route.tokens| ==> route.tokens[i] == reversed.tokens[|route.tokens| - 1 - i];
    assert forall i :: 0 <= i < |route.fees| ==> route.fees[i] == reversed.fees[|route.fees| - 1 - i];
  }

  /** Exactly the lengths 20, 43, 66 and so on can be read as a route. */
  lemma {:induction false} DecodeSucceeds(path: seq<byte>)
    ensures Decode(path).Success? <==> |path| >= 20 && (|path| - 20) % 23 == 0
    decreases |path|
  {
    if |path| >= 2 * ADDRESS_BYTES + FEE_BYTES {
      DecodeSucceeds(path[ADDRESS_BYTES + FEE_BYTES..]);
    }
  }

  /** The other way: what is read as a route consists of that route's bytes. */
  lemma {:induction false} DecodeRoundTrip(path: seq<byte>)
    requires Decode(path).Success?
    ensures var route := Decode(path).value;
            |route.tokens| == |route.fees| + 1 && Encodable(route) && Bytes(route) == path
    decreases |path|
  {
    if |path| > ADDRESS_BYTES {
      var rest := path[ADDRESS_BYTES + FEE_BYTES..];
      DecodeRoundTrip(rest);
      var route, fee := Decode(path).value, path[ADDRESS_BYTES..ADDRESS_BYTES + FEE_BYTES];
      assert Tail(route) == Decode(rest).value;
      EncodableTail(route);
      FeeBytes(fee);
      assert path == path[..ADDRESS_BYTES] + fee + rest;
    }
  }

  /** So every byte string of such a length, from two tokens on, is the path of one route. */
  lemma PathOfDecoded(path: seq<byte>)
    requires |path| >= 43 && (|path| - 20) % 23 == 0
    ensures Decode(path).Success? && PathOf(Decode(path).value, true) == Success(path)
  {
    DecodeSucceeds(path);
    DecodeRoundTrip(path);
    PackRoute(Decode(path).value);
  }
}
