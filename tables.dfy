/** Rows kept in a list and looked up by an integer id, as the in-memory store and the tables keep them. */
module Tables {

  import opened Wrappers

  /** The position of the first row whose id is `id` (the `for i, row in enumerate(rows)` search). */
  function IndexOf<T>(s: seq<T>, key: T -> int, id: int): (r: Option<nat>)
    ensures r.Some? ==> r.value < |s| && key(s[r.value]) == id
    ensures r.Some? ==> forall j :: 0 <= j < r.value ==> key(s[j]) != id
    ensures r.None? <==> forall j :: 0 <= j < |s| ==> key(s[j]) != id
  {
    if s == [] then None
    else if key(s[0]) == id then Some(0)
    else
      match IndexOf(s[1..], key, id)
      case None => None
      case Some(i) => Some(i + 1)
  }

  /** `rows.pop(k)` */
  function RemoveAt<T>(s: seq<T>, k: nat): (r: seq<T>)
    requires k < |s|
    ensures |r| == |s| - 1
    ensures forall j :: 0 <= j < k ==> r[j] == s[j]
    ensures forall j :: k <= j < |r| ==> r[j] == s[j + 1]
  {
    s[..k] + s[k + 1..]
  }

  /** Ids strictly increase along the list, so no id occurs twice. */
  ghost predicate Increasing<T>(s: seq<T>, key: T -> int)
  {
    forall i, j :: 0 <= i < j < |s| ==> key(s[i]) < key(s[j])
  }

  /** Every id is below the next one the counter hands out. */
  ghost predicate Below<T>(s: seq<T>, key: T -> int, bound: int)
  {
    forall i :: 0 <= i < |s| ==> key(s[i]) < bound
  }

  /** Appending a row with the counter's id keeps the ids increasing and below the bumped counter. */
  lemma AppendFresh<T>(s: seq<T>, key: T -> int, bound: int, x: T)
    requires Increasing(s, key) && Below(s, key, bound) && key(x) == bound
    ensures Increasing(s + [x], key) && Below(s + [x], key, bound + 1)
  {
  }

  /** Removing a row keeps the remaining ids increasing and below the counter. */
  lemma RemoveKeepsIncreasing<T>(s: seq<T>, key: T -> int, bound: int, k: nat)
    requires k < |s| && Increasing(s, key) && Below(s, key, bound)
    ensures Increasing(RemoveAt(s, k), key) && Below(RemoveAt(s, k), key, bound)
  {
    var r := RemoveAt(s, k);
    forall i, j | 0 <= i < j < |r| ensures key(r[i]) < key(r[j]) {
      var i', j' := if i < k then i else i + 1, if j < k then j else j + 1;
      assert r[i] == s[i'] && r[j] == s[j'];
    }
  }

  /** With increasing ids, at most one row has a given id. */
  lemma IncreasingUnique<T>(s: seq<T>, key: T -> int, i: nat, j: nat)
    requires Increasing(s, key) && i < |s| && j < |s| && key(s[i]) == key(s[j])
    ensures i == j
  {
  }

  /** No id occurs twice: the primary-key constraint of a table. */
  ghost predicate Unique<T>(s: seq<T>, key: T -> int)
  {
    forall i, j :: 0 <= i < j < |s| ==> key(s[i]) != key(s[j])
  }

  /**
    * The id a new row is assumed to get when none is supplied: 1 in an empty
    * table, otherwise one more than the largest id. This is an assumption
    * about the database engine, which is not part of this model.
    */
  function NextRowId<T>(s: seq<T>, key: T -> int): (n: int)
    ensures forall i :: 0 <= i < |s| ==> key(s[i]) < n
    ensures s == [] ==> n == 1
    ensures s != [] ==> exists i :: 0 <= i < |s| && n == key(s[i]) + 1
  {
    if s == [] then 1
    else if |s| == 1 then key(s[0]) + 1
    else
      var n := NextRowId(s[..|s| - 1], key);
      if key(s[|s| - 1]) + 1 > n then key(s[|s| - 1]) + 1 else n
  }

  /** A row whose id no other row has can be appended without breaking uniqueness. */
  lemma AppendUnique<T>(s: seq<T>, key: T -> int, x: T)
    requires Unique(s, key) && forall i :: 0 <= i < |s| ==> key(s[i]) != key(x)
    ensures Unique(s + [x], key)
  {
  }

  /** Removing a row keeps the ids unique. */
  lemma RemoveUnique<T>(s: seq<T>, key: T -> int, k: nat)
    requires k < |s| && Unique(s, key)
    ensures Unique(RemoveAt(s, k), key)
  {
    var r := RemoveAt(s, k);
    forall i, j | 0 <= i < j < |r| ensures key(r[i]) != key(r[j]) {
      var i', j' := if i < k then i else i + 1, if j < k then j else j + 1;
      assert r[i] == s[i'] && r[j] == s[j'];
    }
  }

  /** With unique ids, the first row with an id is the only one. */
  lemma UniqueIndexOf<T>(s: seq<T>, key: T -> int, j: nat)
    requires Unique(s, key) && j < |s|
    ensures IndexOf(s, key, key(s[j])) == Some(j)
  {
  }
}
