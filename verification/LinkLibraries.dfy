/** Splicing library addresses into the hexadecimal text of unlinked bytecode. */
module LinkLibraries {
  import opened Wrappers

  /** Where a contract expects an address, in bytes. */
  datatype Reference = Reference(start: nat, length: nat)

  datatype Contract = Contract(name: string, references: seq<Reference>)

  type File = seq<Contract>

  const ADDRESS_DIGITS: nat := 40

  /** An address in lower case, without its prefix. */
  type Digits = s: string | |s| == ADDRESS_DIGITS witness seq(ADDRESS_DIGITS, _ => '0')

  /** The text given for each library; None when it is not an address. */
  type Libraries = map<string, Option<Digits>>

  /** One replacement: a reference, and the address to put there. */
  datatype Splice = Splice(reference: Reference, digits: Digits) {
    function First(): nat {
      2 + 2 * reference.start
    }

    predicate Covers(i: int) {
      First() <= i < First() + ADDRESS_DIGITS
    }

    /** The reference is 20 bytes long and lies in the code. */
    predicate Fits(code: string) {
      2 * reference.length == ADDRESS_DIGITS && First() + ADDRESS_DIGITS <= |code|
    }

    predicate Apart(other: Splice) {
      First() + ADDRESS_DIGITS <= other.First() || other.First() + ADDRESS_DIGITS <= First()
    }
  }

  // Slicing beyond the end of a string stops at its end.
  function Take(s: string, n: nat): string {
    if n <= |s| then s[..n] else s
  }

  function Drop(s: string, n: nat): string {
    if n <= |s| then s[n..] else ""
  }

  function Apply(code: string, splice: Splice): string {
    Take(code, splice.First()) + splice.digits + Drop(code, splice.First() + 2 * splice.reference.length)
  }

  function ApplyAll(code: string, splices: seq<Splice>): string {
    if splices == [] then code
    else Apply(ApplyAll(code, splices[..|splices| - 1]), splices[|splices| - 1])
  }

  function SplicesAt(references: seq<Reference>, digits: Digits): seq<Splice> {
    seq(|references|, i requires 0 <= i < |references| => Splice(references[i], digits))
  }

  /** All replacements in order; a library that is missing or no address is an error. */
  function Resolve(contracts: seq<Contract>, libraries: Libraries): Result<seq<Splice>> {
    if contracts == [] then Success([])
    else if contracts[0].name !in libraries || libraries[contracts[0].name].None? then Failure
    else
      var rest :- Resolve(contracts[1..], libraries);
      Success(SplicesAt(contracts[0].references, libraries[contracts[0].name].value) + rest)
  }

  function ContractsOf(files: seq<File>): seq<Contract> {
    if files == [] then [] else files[0] + ContractsOf(files[1..])
  }

  /** What linkLibraries computes. */
  function Linked(code: string, contracts: seq<Contract>, libraries: Libraries): Result<string> {
    var splices :- Resolve(contracts, libraries);
    Success(ApplyAll(code, splices))
  }

  lemma {:induction false} ResolveAppend(a: seq<Contract>, b: seq<Contract>, libraries: Libraries)
    ensures Resolve(a + b, libraries) ==
            if Resolve(a, libraries).Success? && Resolve(b, libraries).Success?
            then Success(Resolve(a, libraries).value + Resolve(b, libraries).value) else Failure
  {
    if a == [] {
      assert a + b == b;
      if Resolve(b, libraries).Success? {
        assert [] + Resolve(b, libraries).value == Resolve(b, libraries).value;
      }
    } else {
      assert (a + b)[1..] == a[1..] + b;
      ResolveAppend(a[1..], b, libraries);
      if Resolve(a, libraries).Success? && Resolve(b, libraries).Success? {
        var first := SplicesAt(a[0].references, libraries[a[0].name].value);
        assert first + (Resolve(a[1..], libraries).value + Resolve(b, libraries).value)
            == first + Resolve(a[1..], libraries).value + Resolve(b, libraries).value;
      }
    }
  }

  lemma {:induction false} ContractsAppend(files: seq<File>, i: nat)
    requires i < |files|
    ensures ContractsOf(files[..i + 1]) == ContractsOf(files[..i]) + files[i]
    decreases i
  {
    if i == 0 {
      assert files[..1] == [files[0]];
      assert ContractsOf([files[0]]) == files[0] + [];
    } else {
      assert files[..i + 1][1..] == files[1..][..i] && files[..i][1..] == files[1..][..i - 1];
      ContractsAppend(files[1..], i - 1);
    }
  }

  /** The contracts visited before contract j of file i. */
  function VisitedBefore(files: seq<File>, i: nat, j: nat): seq<Contract>
    requires i < |files| && j <= |files[i]|
  {
    ContractsOf(files[..i]) + files[i][..j]
  }

  lemma Visiting(files: seq<File>, i: nat, j: nat)
    requires i < |files| && j <= |files[i]|
    ensures VisitedBefore(files, i, 0) == ContractsOf(files[..i])
    ensures j < |files[i]| ==> VisitedBefore(files, i, j + 1) == VisitedBefore(files, i, j) + [files[i][j]]
    ensures j == |files[i]| ==> VisitedBefore(files, i, j) == ContractsOf(files[..i + 1])
  {
    ContractsAppend(files, i);
    assert files[i][..|files[i]|] == files[i];
  }

  lemma {:induction false} ContractsContain(files: seq<File>, i: nat, j: nat)
    requires i < |files| && j < |files[i]|
    ensures files[i][j] in ContractsOf(files)
  {
    if i > 0 {
      ContractsContain(files[1..], i - 1, j);
    }
  }

  predicate Available(contract: Contract, libraries: Libraries) {
    contract.name in libraries && libraries[contract.name].Some?
  }

  /** Some contract of the table calls for this replacement. */
  predicate Wanted(splice: Splice, contracts: seq<Contract>, libraries: Libraries) {
    exists c :: c in contracts && splice.reference in c.references
             && c.name in libraries && libraries[c.name] == Some(splice.digits)
  }

  /** Linking fails exactly when a library is not available, even one nothing refers to. */
  lemma {:induction false} ResolvesExactly(contracts: seq<Contract>, libraries: Libraries)
    ensures Resolve(contracts, libraries).Success? <==> forall c :: c in contracts ==> Available(c, libraries)
  {
    if contracts != [] {
      ResolvesExactly(contracts[1..], libraries);
      assert contracts == [contracts[0]] + contracts[1..];
      if Resolve(contracts, libraries).Success? {
        assert Available(contracts[0], libraries);
      } else if Available(contracts[0], libraries) {
        var c :| c in contracts[1..] && !Available(c, libraries);
        assert c in contracts;
      } else {
        assert contracts[0] in contracts;
      }
    }
  }

  /** Each contract is given its own library, at each of its references and nowhere else. */
  lemma {:induction false} ResolvesToWanted(contracts: seq<Contract>, libraries: Libraries, s: Splice)
    requires Resolve(contracts, libraries).Success?
    ensures s in Resolve(contracts, libraries).value <==> Wanted(s, contracts, libraries)
  {
    if contracts != [] {
      var head, tail := contracts[0], contracts[1..];
      ResolvesToWanted(tail, libraries, s);
      HeadWants(s, head, libraries);
      assert contracts == [head] + tail;
      assert Wanted(s, contracts, libraries) <==> Wanted(s, [head], libraries) || Wanted(s, tail, libraries);
    }
  }

  lemma HeadWants(s: Splice, head: Contract, libraries: Libraries)
    requires Available(head, libraries)
    ensures s in SplicesAt(head.references, libraries[head.name].value) <==> Wanted(s, [head], libraries)
  {
    var first := SplicesAt(head.references, libraries[head.name].value);
    if Wanted(s, [head], libraries) {
      var k :| 0 <= k < |head.references| && head.references[k] == s.reference;
      assert first[k] == s;
    }
    if s in first {
      assert head in [head];
    }
  }

  lemma {:induction false} ApplyAllAppend(code: string, a: seq<Splice>, b: seq<Splice>)
    ensures ApplyAll(code, a + b) == ApplyAll(ApplyAll(code, a), b)
    decreases |b|
  {
    if b == [] {
      assert a + b == a;
    } else {
      assert (a + b)[..|a + b| - 1] == a + b[..|b| - 1];
      ApplyAllAppend(code, a, b[..|b| - 1]);
    }
  }

  lemma LinkedNext(code: string, contracts: seq<Contract>, next: Contract, libraries: Libraries)
    requires Linked(code, contracts, libraries).Success? && Available(next, libraries)
    ensures Linked(code, contracts + [next], libraries)
         == Success(ApplyAll(Linked(code, contracts, libraries).value,
                             SplicesAt(next.references, libraries[next.name].value)))
  {
    var more := SplicesAt(next.references, libraries[next.name].value);
    ResolveAppend(contracts, [next], libraries);
    assert Resolve([next], libraries) == Success(more + []);
    assert more + [] == more;
    ApplyAllAppend(code, Resolve(contracts, libraries).value, more);
  }

  lemma ApplyNext(code: string, references: seq<Reference>, digits: Digits, k: nat)
    requires k < |references|
    ensures ApplyAll(code, SplicesAt(references[..k + 1], digits))
         == Apply(ApplyAll(code, SplicesAt(references[..k], digits)), Splice(references[k], digits))
  {
    assert SplicesAt(references[..k + 1], digits)[..k] == SplicesAt(references[..k], digits);
  }

  /** Puts one address at each of the references to its library. */
  method LinkContract(bytecode: string, references: seq<Reference>, address: Digits) returns (code: string)
    ensures code == ApplyAll(bytecode, SplicesAt(references, address))
  {
    code := bytecode;
    for k := 0 to |references|
      invariant code == ApplyAll(bytecode, SplicesAt(references[..k], address))
    {
      ApplyNext(bytecode, references, address, k);
      code := Apply(code, Splice(references[k], address));
    }
    assert references[..|references|] == references;
  }

  lemma LinkingFails(files: seq<File>, i: nat, j: nat, libraries: Libraries)
    requires i < |files| && j < |files[i]| && !Available(files[i][j], libraries)
    ensures Resolve(ContractsOf(files), libraries) == Failure
  {
    ContractsContain(files, i, j);
    ResolvesExactly(ContractsOf(files), libraries);
  }

  method Link(bytecode: string, files: seq<File>, libraries: Libraries) returns (linked: Result<string>)
    ensures linked == Linked(bytecode, ContractsOf(files), libraries)
  {
    var code := bytecode;
    for i := 0 to |files|
      invariant Linked(bytecode, ContractsOf(files[..i]), libraries) == Success(code)
    {
      Visiting(files, i, 0);
      for j := 0 to |files[i]|
        invariant Linked(bytecode, VisitedBefore(files, i, j), libraries) == Success(code)
      {
        var contract := files[i][j];
        if contract.name !in libraries || libraries[contract.name].None? {
          LinkingFails(files, i, j, libraries);
          return Failure;
        }
        Visiting(files, i, j);
        LinkedNext(bytecode, VisitedBefore(files, i, j), contract, libraries);
        code := LinkContract(code, contract.references, libraries[contract.name].value);
      }
      Visiting(files, i, |files[i]|);
    }
    assert files[..|files|] == files;
    linked := Success(code);
  }

  // ---------- the linked code ----------

  /** The code is as long as before, holds every address, and is otherwise untouched. */
  ghost predicate IsLinked(code: string, splices: seq<Splice>, linked: string) {
    && |linked| == |code|
    && (forall s :: s in splices ==> s.Fits(code) && linked[s.First()..s.First() + ADDRESS_DIGITS] == s.digits)
    && (forall i :: 0 <= i < |code| && (forall s :: s in splices ==> !s.Covers(i)) ==> linked[i] == code[i])
  }

  /** Every replacement is 20 bytes of the code, and any two are the same or apart. */
  predicate Compatible(code: string, splices: seq<Splice>) {
    && (forall s :: s in splices ==> s.Fits(code))
    && (forall s, t :: s in splices && t in splices ==> s == t || s.Apart(t))
  }

  lemma ApplyKeeps(code: string, splice: Splice)
    requires splice.Fits(code)
    ensures var r := Apply(code, splice);
            && |r| == |code|
            && r[splice.First()..splice.First() + ADDRESS_DIGITS] == splice.digits
            && (forall i :: 0 <= i < |code| && !splice.Covers(i) ==> r[i] == code[i])
  {
  }

  lemma ApplyElsewhere(code: string, splice: Splice, s: Splice)
    requires splice.Fits(code) && s.Fits(code) && s.Apart(splice)
    ensures |Apply(code, splice)| == |code|
    ensures Apply(code, splice)[s.First()..s.First() + ADDRESS_DIGITS] == code[s.First()..s.First() + ADDRESS_DIGITS]
  {
  }

  lemma LinkOneMore(code: string, splices: seq<Splice>, linked: string, next: Splice)
    requires IsLinked(code, splices, linked) && next.Fits(code)
    requires forall s :: s in splices ==> s == next || s.Apart(next)
    ensures IsLinked(code, splices + [next], Apply(linked, next))
  {
    var after := Apply(linked, next);
    ApplyKeeps(linked, next);
    forall s | s in splices + [next]
      ensures s.Fits(code) && after[s.First()..s.First() + ADDRESS_DIGITS] == s.digits
    {
      if s != next {
        ApplyElsewhere(linked, next, s);
      }
    }
    forall i | 0 <= i < |code| && forall s :: s in splices + [next] ==> !s.Covers(i)
      ensures after[i] == code[i]
    {
      assert next in splices + [next] && !next.Covers(i);
      assert forall s :: s in splices ==> s in splices + [next];
    }
  }

  lemma {:induction false} AppliedIsLinked(code: string, splices: seq<Splice>)
    requires Compatible(code, splices)
    ensures IsLinked(code, splices, ApplyAll(code, splices))
    decreases |splices|
  {
    if splices != [] {
      var init, last := splices[..|splices| - 1], splices[|splices| - 1];
      assert splices == init + [last] && last in splices;
      AppliedIsLinked(code, init);
      LinkOneMore(code, init, ApplyAll(code, init), last);
    }
  }

  lemma LinkedIsUnique(code: string, some: seq<Splice>, same: seq<Splice>, a: string, b: string)
    requires IsLinked(code, some, a) && IsLinked(code, same, b)
    requires forall s :: s in some <==> s in same
    ensures a == b
  {
    forall i | 0 <= i < |code| ensures a[i] == b[i] {
      if s :| s in some && s.Covers(i) {
        assert s in same;
        assert a[i] == a[s.First()..s.First() + ADDRESS_DIGITS][i - s.First()] == s.digits[i - s.First()];
        assert b[i] == b[s.First()..s.First() + ADDRESS_DIGITS][i - s.First()] == s.digits[i - s.First()];
      }
    }
  }

  /** What linking a table of compatible references yields, when every library is there. */
  lemma LinkingIsExact(code: string, contracts: seq<Contract>, libraries: Libraries)
    requires forall c :: c in contracts ==> Available(c, libraries)
    requires Resolve(contracts, libraries).Success? ==> Compatible(code, Resolve(contracts, libraries).value)
    ensures Resolve(contracts, libraries).Success?
    ensures Linked(code, contracts, libraries).Success?
    ensures IsLinked(code, Resolve(contracts, libraries).value, Linked(code, contracts, libraries).value)
    ensures var linked := Linked(code, contracts, libraries).value;
            && |linked| == |code|
            && (forall c, r :: c in contracts && r in c.references ==>
                  Available(c, libraries) && 42 + 2 * r.start <= |code| &&
                      linked[2 + 2 * r.start..42 + 2 * r.start] == libraries[c.name].value)
            && (forall i :: 0 <= i < |code| && linked[i] != code[i] ==> exists c, r ::
                  c in contracts && r in c.references && 2 + 2 * r.start <= i < 42 + 2 * r.start)
  {
    ResolvesExactly(contracts, libraries);
    var linked := Linked(code, contracts, libraries).value;
    AppliedIsLinked(code, Resolve(contracts, libraries).value);
    EveryReferenceLinked(code, contracts, libraries, linked);
    OnlyReferencesLinked(code, contracts, libraries, linked);
  }

  lemma EveryReferenceLinked(code: string, contracts: seq<Contract>, libraries: Libraries, linked: string)
    requires Resolve(contracts, libraries).Success?
    requires IsLinked(code, Resolve(contracts, libraries).value, linked)
    ensures forall c, r :: c in contracts && r in c.references ==>
              Available(c, libraries) && 42 + 2 * r.start <= |code| &&
                  linked[2 + 2 * r.start..42 + 2 * r.start] == libraries[c.name].value
  {
    ResolvesExactly(contracts, libraries);
    forall c, r | c in contracts && r in c.references
      ensures Available(c, libraries) && 42 + 2 * r.start <= |code|
      ensures linked[2 + 2 * r.start..42 + 2 * r.start] == libraries[c.name].value
    {
      assert Available(c, libraries);
      var s := Splice(r, libraries[c.name].value);
      ResolvesToWanted(contracts, libraries, s);
      assert Wanted(s, contracts, libraries) && s in Resolve(contracts, libraries).value;
    }
  }

  lemma OnlyReferencesLinked(code: string, contracts: seq<Contract>, libraries: Libraries, linked: string)
    requires Resolve(contracts, libraries).Success?
    requires IsLinked(code, Resolve(contracts, libraries).value, linked)
    ensures forall i :: 0 <= i < |code| && linked[i] != code[i] ==> exists c, r ::
              c in contracts && r in c.references && 2 + 2 * r.start <= i < 42 + 2 * r.start
  {
    forall i | 0 <= i < |code| && linked[i] != code[i]
      ensures exists c, r :: c in contracts && r in c.references && 2 + 2 * r.start <= i < 42 + 2 * r.start
    {
      var s :| s in Resolve(contracts, libraries).value && s.Covers(i);
      ResolvesToWanted(contracts, libraries, s);
      var c :| c in contracts && s.reference in c.references;
    }
  }

  /** The order in which files, contracts and references are visited does not matter,
      neither for the linked code nor for whether linking fails. */
  lemma OrderIsIrrelevant(code: string, contracts: seq<Contract>, reordered: seq<Contract>, libraries: Libraries)
    requires forall c :: c in contracts <==> c in reordered
    requires Resolve(contracts, libraries).Success? ==> Compatible(code, Resolve(contracts, libraries).value)
    ensures Linked(code, contracts, libraries) == Linked(code, reordered, libraries)
  {
    ResolvesExactly(contracts, libraries);
    ResolvesExactly(reordered, libraries);
    if Resolve(contracts, libraries).Success? {
      var some, same := Resolve(contracts, libraries).value, Resolve(reordered, libraries).value;
      forall s: Splice ensures s in some <==> s in same {
        ResolvesToWanted(contracts, libraries, s);
        ResolvesToWanted(reordered, libraries, s);
        assert Wanted(s, contracts, libraries) <==> Wanted(s, reordered, libraries);
      }
      AppliedIsLinked(code, some);
      AppliedIsLinked(code, same);
      LinkedIsUnique(code, some, same, ApplyAll(code, some), ApplyAll(code, same));
    }
  }

  /** A reference of any other length moves the rest of the code. */
  lemma LengthKeptExactly(code: string, splice: Splice)
    requires splice.First() + 2 * splice.reference.length <= |code|
    ensures |Apply(code, splice)| == |code| <==> splice.reference.length == 20
  {
  }
}
