/**
 * The list idioms every store uses on its collections of records with an `id`:
 * `find` of the first match (and its position), `filter` on a differing id, and
 * `map` that patches exactly the matching records.  Each operation is
 * parameterised by the record's id accessor.
 */
module ById {
  import opened Wrappers

  /** True when some element of `s` carries `id`. */
  predicate HasId<T>(s: seq<T>, id: string, idOf: T -> string)
  {
    exists i :: 0 <= i < |s| && idOf(s[i]) == id
  }

  /** Position of the first element whose id is `id`: the element `find` returns. */
  function IndexOfId<T>(s: seq<T>, id: string, idOf: T -> string): (r: Option<nat>)
    ensures r.Some? ==> r.value < |s| && idOf(s[r.value]) == id
    ensures r.Some? ==> forall j :: 0 <= j < r.value ==> idOf(s[j]) != id
    ensures r.None? <==> !HasId(s, id, idOf)
  {
    if s == [] then None
    else if idOf(s[0]) == id then Some(0)
    else
      match IndexOfId(s[1..], id, idOf)
      case None =>
        assert forall j :: 1 <= j < |s| ==> s[j] == s[1..][j - 1];
        None
      case Some(k) =>
        assert forall j :: 1 <= j < k + 1 ==> s[j] == s[1..][j - 1];
        Some(k + 1)
  }

  /** The first element whose id is `id` (`Array.prototype.find`), or none. */
  function FindById<T>(s: seq<T>, id: string, idOf: T -> string): (r: Option<T>)
    ensures r.None? <==> !HasId(s, id, idOf)
    ensures r.Some? ==> idOf(r.value) == id && r.value in s
    ensures r.Some? ==> exists i :: 0 <= i < |s| && s[i] == r.value
                                    && forall j :: 0 <= j < i ==> idOf(s[j]) != id
  {
    match IndexOfId(s, id, idOf)
    case None => None
    case Some(i) => Some(s[i])
  }

  /** The elements whose id differs from `id`, in their original order (`filter`). */
  function RemoveById<T>(s: seq<T>, id: string, idOf: T -> string): (r: seq<T>)
    ensures |r| <= |s|
    ensures forall x :: x in r ==> x in s && idOf(x) != id
    ensures forall x :: x in s && idOf(x) != id ==> x in r
    ensures !HasId(r, id, idOf)
  {
    if s == [] then []
    else if idOf(s[0]) == id then RemoveById(s[1..], id, idOf)
    else [s[0]] + RemoveById(s[1..], id, idOf)
  }

  /**
   * Every element whose id is `id` is replaced by `merge(element, patch)`;
   * every other element stays where it is, unchanged (`map` with a ternary).
   */
  function UpdateById<T, P>(s: seq<T>, id: string, idOf: T -> string, merge: (T, P) -> T, patch: P): (r: seq<T>)
    ensures |r| == |s|
    ensures forall i :: 0 <= i < |s| && idOf(s[i]) == id ==> r[i] == merge(s[i], patch)
    ensures forall i :: 0 <= i < |s| && idOf(s[i]) != id ==> r[i] == s[i]
  {
    if s == [] then []
    else
      var rest := UpdateById(s[1..], id, idOf, merge, patch);
      var head := if idOf(s[0]) == id then merge(s[0], patch) else s[0];
      assert forall i :: 1 <= i < |s| ==> s[i] == s[1..][i - 1];
      [head] + rest
  }

  /** Filtering distributes over concatenation, so relative order is kept. */
  lemma {:induction false} RemoveByIdAppend<T>(a: seq<T>, b: seq<T>, id: string, idOf: T -> string)
    ensures RemoveById(a + b, id, idOf) == RemoveById(a, id, idOf) + RemoveById(b, id, idOf)
  {
    if a == [] {
      assert a + b == b;
    } else {
      assert (a + b)[1..] == a[1..] + b;
      RemoveByIdAppend(a[1..], b, id, idOf);
    }
  }

  /** Removing an id nobody carries changes nothing. */
  lemma {:induction false} RemoveByIdAbsent<T>(s: seq<T>, id: string, idOf: T -> string)
    requires !HasId(s, id, idOf)
    ensures RemoveById(s, id, idOf) == s
  {
    if s != [] {
      assert !HasId(s[1..], id, idOf) by {
        forall j | 0 <= j < |s[1..]| ensures idOf(s[1..][j]) != id {
          assert s[1..][j] == s[j + 1];
        }
      }
      RemoveByIdAbsent(s[1..], id, idOf);
      assert [s[0]] + s[1..] == s;
    }
  }

  /** Removing twice is removing once. */
  lemma RemoveByIdIdempotent<T>(s: seq<T>, id: string, idOf: T -> string)
    ensures RemoveById(RemoveById(s, id, idOf), id, idOf) == RemoveById(s, id, idOf)
  {
    RemoveByIdAbsent(RemoveById(s, id, idOf), id, idOf);
  }

  /** Updating an id nobody carries changes nothing. */
  lemma UpdateByIdAbsent<T, P>(s: seq<T>, id: string, idOf: T -> string, merge: (T, P) -> T, patch: P)
    requires !HasId(s, id, idOf)
    ensures UpdateById(s, id, idOf, merge, patch) == s
  {
    var r := UpdateById(s, id, idOf, merge, patch);
    assert forall i :: 0 <= i < |s| ==> r[i] == s[i];
  }

  /** Lists that carry the same ids position by position have the same first match. */
  lemma {:induction false} IndexOfIdSameIds<T>(s: seq<T>, r: seq<T>, id: string, idOf: T -> string)
    requires |r| == |s|
    requires forall i :: 0 <= i < |s| ==> idOf(r[i]) == idOf(s[i])
    ensures IndexOfId(r, id, idOf) == IndexOfId(s, id, idOf)
  {
    if s != [] && idOf(s[0]) != id {
      assert forall i :: 0 <= i < |s[1..]| ==> idOf(r[1..][i]) == idOf(s[1..][i]) by {
        forall i | 0 <= i < |s[1..]| ensures idOf(r[1..][i]) == idOf(s[1..][i]) {
          assert r[1..][i] == r[i + 1] && s[1..][i] == s[i + 1];
        }
      }
      IndexOfIdSameIds(s[1..], r[1..], id, idOf);
    }
  }
}
