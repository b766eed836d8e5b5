/** Lists of lists, and lists without duplicates. */
module Lists {

  function Min(a: nat, b: nat): nat {
    if a < b then a else b
  }

  function Flatten<T>(parts: seq<seq<T>>): seq<T> {
    if parts == [] then [] else parts[0] + Flatten(parts[1..])
  }

  lemma {:induction false} FlattenAppend<T>(a: seq<seq<T>>, b: seq<seq<T>>)
    ensures Flatten(a + b) == Flatten(a) + Flatten(b)
  {
    if a == [] {
      assert a + b == b;
    } else {
      assert (a + b)[1..] == a[1..] + b;
      FlattenAppend(a[1..], b);
    }
  }

  lemma FlattenOne<T>(part: seq<T>)
    ensures Flatten([part]) == part
  {
    assert [part][1..] == [];
  }

  lemma FlattenNext<T>(parts: seq<seq<T>>, i: nat)
    requires i < |parts|
    ensures Flatten(parts[..i + 1]) == Flatten(parts[..i]) + parts[i]
  {
    assert parts[..i + 1] == parts[..i] + [parts[i]];
    FlattenAppend(parts[..i], [parts[i]]);
    FlattenOne(parts[i]);
  }

  lemma FlattenSplit<T>(parts: seq<seq<T>>, i: nat)
    requires i <= |parts|
    ensures Flatten(parts) == Flatten(parts[..i]) + Flatten(parts[i..])
  {
    assert parts == parts[..i] + parts[i..];
    FlattenAppend(parts[..i], parts[i..]);
  }

  lemma Regroup<T>(a: seq<T>, b: seq<T>, c: seq<T>)
    ensures a + b + c == a + (b + c)
  {
  }

  predicate NoDuplicates<T(==)>(items: seq<T>) {
    forall i, j :: 0 <= i < j < |items| ==> items[i] != items[j]
  }

  lemma DistinctParts<T>(a: seq<T>, b: seq<T>)
    requires NoDuplicates(a + b)
    ensures NoDuplicates(a) && NoDuplicates(b) && (forall x | x in b :: x !in a)
  {
    assert forall k :: 0 <= k < |a| ==> a[k] == (a + b)[k];
    assert forall k :: 0 <= k < |b| ==> b[k] == (a + b)[|a| + k];
  }

  lemma {:induction false} DistinctCounts<T>(items: seq<T>)
    requires NoDuplicates(items)
    ensures forall x :: multiset(items)[x] <= 1
  {
    if items != [] {
      DistinctCounts(items[1..]);
      assert items == [items[0]] + items[1..];
      assert items[0] !in items[1..];
    }
  }

  /** Any choice and any order of distinct items is distinct. */
  lemma SubMultisetDistinct<T>(items: seq<T>, some: seq<T>)
    requires NoDuplicates(items) && multiset(some) <= multiset(items)
    ensures NoDuplicates(some)
  {
    DistinctCounts(items);
    forall i, j | 0 <= i < j < |some| ensures some[i] != some[j] {
      assert some == some[..i] + [some[i]] + some[i + 1..j] + [some[j]] + some[j + 1..];
      assert multiset(some)[some[i]] >= if some[i] == some[j] then 2 else 1;
    }
  }
}
