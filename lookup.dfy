/**
 * Read-only scans over the store's lists and relation tables: the Java
 * stream pipelines `filter(..).findFirst()`, `filter(..).collect(toList())`
 * and `max(comparingInt(..))`, and the entry-set scans of `likeSong`.
 * Entities are identified by their index in the list they were added to.
 */
module Lookup {

  datatype Option<T> = None | Some(value: T)

  /** The ids in r are strictly ascending (hence pairwise distinct). */
  predicate Increasing(r: seq<nat>) {
    forall i, j :: 0 <= i < j < |r| ==> r[i] < r[j]
  }

  /** No element of s occurs twice. */
  predicate NoDuplicates<T(==)>(s: seq<T>) {
    forall i, j :: 0 <= i < j < |s| ==> s[i] != s[j]
  }

  /** The list stored under key k, or the empty list when k has no entry. */
  function ListAt(m: map<nat, seq<nat>>, k: nat): seq<nat> {
    if k in m then m[k] else []
  }

  /**
   * `filter(p).findFirst()`: the index of the first element of s, in list
   * order, that satisfies p; None when no element does.
   */
  function FirstMatch<T>(s: seq<T>, p: T -> bool): (r: Option<nat>)
    ensures r.Some? ==> r.value < |s| && p(s[r.value])
    ensures r.Some? ==> forall j :: 0 <= j < r.value ==> !p(s[j])
    ensures r.None? <==> forall j :: 0 <= j < |s| ==> !p(s[j])
  {
    if |s| == 0 then None
    else if p(s[0]) then Some(0)
    else
      match FirstMatch(s[1..], p)
      case None => None
      case Some(k) => Some(k + 1)
  }

  /**
   * `filter(p).collect(toList())` over a list of entities, as the ids of
   * the elements kept: exactly the indices whose element satisfies p, in
   * list order.
   */
  function Filter<T>(s: seq<T>, p: T -> bool): (r: seq<nat>)
    ensures Increasing(r)
    ensures forall k :: 0 <= k < |r| ==> r[k] < |s| && p(s[r[k]])
    ensures forall i :: 0 <= i < |s| && p(s[i]) ==> i in r
  {
    if |s| == 0 then []
    else
      var n := |s| - 1;
      Filter(s[..n], p) + (if p(s[n]) then [n] else [])
  }

  /**
   * `max(comparingInt(key))` on a non-empty list, as a left fold that keeps
   * the accumulated element unless the next one is strictly larger (the
   * `compare(a, b) >= 0 ? a : b` step of `BinaryOperator.maxBy`): the index
   * of the first element whose key is maximal.
   */
  function FirstMax<T>(s: seq<T>, key: T -> int): (r: nat)
    requires |s| > 0
    ensures r < |s|
    ensures forall j :: 0 <= j < |s| ==> key(s[j]) <= key(s[r])
    ensures forall j :: 0 <= j < r ==> key(s[j]) < key(s[r])
  {
    if |s| == 1 then 0
    else
      var n := |s| - 1;
      var k := FirstMax(s[..n], key);
      if key(s[k]) >= key(s[n]) then k else n
  }

  /**
   * Scan of a relation table `m` (owner id -> list of item ids) for an owner
   * whose list holds x; owners are visited in ascending id below n.
   */
  function FirstKeyContaining(m: map<nat, seq<nat>>, n: nat, x: nat): (r: Option<nat>)
    ensures r.Some? ==> r.value < n && r.value in m && x in m[r.value]
    ensures r.Some? ==> forall k :: 0 <= k < r.value && k in m ==> x !in m[k]
    ensures r.None? <==> forall k :: 0 <= k < n && k in m ==> x !in m[k]
  {
    if n == 0 then None
    else
      match FirstKeyContaining(m, n - 1, x)
      case Some(k) => Some(k)
      case None => if n - 1 in m && x in m[n - 1] then Some(n - 1) else None
  }

  /**
   * The relation table m files each item x < |owner| under its owner
   * owner[x] and under no other key; every list is ascending; every key and
   * every owner is an id below `keys`.
   */
  ghost predicate Partition(m: map<nat, seq<nat>>, owner: seq<nat>, keys: nat) {
    && (forall k :: k in m ==> k < keys && Increasing(m[k]))
    && (forall k, x {:trigger x in m[k]} :: k in m && x in m[k] ==> x < |owner| && owner[x] == k)
    && (forall x :: 0 <= x < |owner| ==> owner[x] < keys && owner[x] in m && x in m[owner[x]])
  }

  /** Filing a new item (id |owner|) under key k keeps the table a partition. */
  lemma PartitionAppend(m: map<nat, seq<nat>>, owner: seq<nat>, keys: nat, k: nat)
    requires Partition(m, owner, keys) && k < keys
    ensures Partition(m[k := ListAt(m, k) + [|owner|]], owner + [k], keys)
  {
    var x := |owner|;
    var m' := m[k := ListAt(m, k) + [x]];
    var owner' := owner + [k];
    forall j | j in m'
      ensures j < keys && Increasing(m'[j])
    {
      if j == k && k in m {
        forall a | 0 <= a < |m[k]| ensures m[k][a] < x {
          assert m[k][a] in m[k];
        }
      }
    }
    forall j, y | j in m' && y in m'[j]
      ensures y < |owner'| && owner'[y] == j
    {
      if j != k {
        assert j in m && y in m[j];
      } else if k in m && y in m[k] {
        assert owner'[y] == owner[y];
      } else {
        assert y == x;
      }
    }
    forall y | 0 <= y < |owner'|
      ensures owner'[y] < keys && owner'[y] in m' && y in m'[owner'[y]]
    {
      if y < x {
        assert owner'[y] == owner[y];
        assert owner[y] in m && y in m[owner[y]];
      }
    }
  }

  /** Allowing more keys keeps a partition a partition. */
  lemma PartitionWiden(m: map<nat, seq<nat>>, owner: seq<nat>, keys: nat, keys': nat)
    requires Partition(m, owner, keys) && keys <= keys'
    ensures Partition(m, owner, keys')
  {
  }

  /**
   * In a partition, the owner scan finds the item's one owner, whatever the
   * order in which the keys are visited: no other key holds the item.
   */
  lemma PartitionFind(m: map<nat, seq<nat>>, owner: seq<nat>, keys: nat, x: nat)
    requires Partition(m, owner, keys) && x < |owner|
    ensures FirstKeyContaining(m, keys, x) == Some(owner[x])
    ensures forall k :: k in m && x in m[k] ==> k == owner[x]
  {
    assert owner[x] in m && x in m[owner[x]];
  }
}
