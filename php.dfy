/** The few pieces of PHP's value semantics that the theme's template gate relies on:
    scalar values and their truthiness, and ordered arrays whose entries keep their keys. */
module Php {

  /** A scalar value as PHP may hold it in a stored setting. */
  datatype Value = Bool(b: bool) | Int(i: int) | Str(s: string)

  /** PHP's `(bool)` cast. The falsy scalars are `false`, `0`, `""` and `"0"`;
      every other scalar is truthy. */
  function ToBool(v: Value): (r: bool)
    ensures v.Bool? ==> r == v.b
    ensures !r <==> v == Bool(false) || v == Int(0) || v == Str("") || v == Str("0")
  {
    match v
    case Bool(b) => b
    case Int(i) => i != 0
    case Str(s) => s != "" && s != "0"
  }

  /** A PHP array key: an integer or a string. */
  datatype Key = IntKey(n: int) | StrKey(s: string)

  /** One key => value pair of a PHP array. */
  datatype Entry<T> = Entry(key: Key, value: T)

  /** A PHP array: an ordered sequence of entries. In a real PHP array no two entries
      share a key; see DistinctKeys. */
  type PhpArray<T> = seq<Entry<T>>

  ghost predicate DistinctKeys<T>(a: PhpArray<T>) {
    forall i, j :: 0 <= i < |a| && 0 <= j < |a| && i != j ==> a[i].key != a[j].key
  }

  /** No entry of `a` has key `k`. */
  ghost predicate KeyFree<T>(a: PhpArray<T>, k: Key) {
    forall i :: 0 <= i < |a| ==> a[i].key != k
  }

  /** `unset($a[$k])`: removes the entry with key `k`, keeping every other entry,
      with its key, in its place; a missing key changes nothing. */
  function Unset<T(==,!new)>(a: PhpArray<T>, k: Key): (r: PhpArray<T>)
    ensures |r| <= |a|
    ensures KeyFree(r, k)
    ensures forall e :: e in r <==> e in a && e.key != k
  {
    if a == [] then []
    else (if a[0].key == k then [] else [a[0]]) + Unset(a[1..], k)
  }

  lemma {:induction false} UnsetAppend<T(!new)>(a: PhpArray<T>, b: PhpArray<T>, k: Key)
    ensures Unset(a + b, k) == Unset(a, k) + Unset(b, k)
  {
    if a == [] {
      assert a + b == b;
    } else {
      assert (a + b)[0] == a[0];
      assert (a + b)[1..] == a[1..] + b;
      UnsetAppend(a[1..], b, k);
    }
  }

  /** Unsetting a key the array does not hold leaves it as it was. */
  lemma {:induction false} UnsetAbsent<T(!new)>(a: PhpArray<T>, k: Key)
    requires KeyFree(a, k)
    ensures Unset(a, k) == a
  {
    if a != [] {
      assert KeyFree(a[1..], k) by {
        forall i | 0 <= i < |a[1..]| ensures a[1..][i].key != k {
          assert a[1..][i] == a[i + 1];
        }
      }
      UnsetAbsent(a[1..], k);
    }
  }

  /** Unsetting the key of the one entry of a singleton array empties it. */
  lemma UnsetSingleton<T(!new)>(e: Entry<T>)
    ensures Unset([e], e.key) == []
  {
  }

  /** Unsetting the key of an entry that no other entry carries removes that entry alone. */
  lemma UnsetBetween<T(!new)>(before: PhpArray<T>, e: Entry<T>, after: PhpArray<T>)
    requires KeyFree(before, e.key) && KeyFree(after, e.key)
    ensures Unset(before + ([e] + after), e.key) == before + after
  {
    var k := e.key;
    calc {
      Unset(before + ([e] + after), k);
      { UnsetAppend(before, [e] + after, k); }
      Unset(before, k) + Unset([e] + after, k);
      { UnsetAppend([e], after, k); }
      Unset(before, k) + (Unset([e], k) + Unset(after, k));
      { UnsetAbsent(before, k); UnsetAbsent(after, k); UnsetSingleton(e); }
      before + ([] + after);
      { assert [] + after == after; }
      before + after;
    }
  }

  /** `r` keeps some of the elements of `a`, in the order `a` has them. */
  ghost predicate IsSubsequence<T>(r: seq<T>, a: seq<T>)
    decreases |a|
  {
    if r == [] then true
    else if a == [] then false
    else (r[0] == a[0] && IsSubsequence(r[1..], a[1..])) || IsSubsequence(r, a[1..])
  }
}
