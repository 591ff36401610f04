/**
 * The "look the key up, then `Updates` or `Create`" pattern of the CSV imports
 * (`internal/service/client_service.go`, `internal/service/product_service.go`).
 *
 * GORM's `Updates` with a struct writes only the fields that are not the zero
 * value of their type, and `Create` writes every field. Both are captured by one
 * `merge(stored, incoming)` function over records, where `blank` is the record
 * with every field zero: creating is merging into `blank`. Every such merge is
 * an "override" (associative, idempotent, with `blank` as identity), and from
 * that alone follows that replaying an import over its own result changes nothing.
 */
module Upsert {

  /** The stored record under `k`, or the all-zero record when there is none. */
  function Get<T>(m: map<string, T>, k: string, blank: T): T
  {
    if k in m then m[k] else blank
  }

  /** The laws of a field-by-field "take the incoming field unless it is zero" merge. */
  ghost predicate IsOverride<T(!new)>(merge: (T, T) -> T, blank: T)
  {
    && (forall a, b, c :: merge(merge(a, b), c) == merge(a, merge(b, c)))
    && (forall a :: merge(a, a) == a)
    && (forall a :: merge(a, blank) == a)
    && (forall a :: merge(blank, a) == a)
  }

  /** The keys of a list of keyed records. */
  function KeysOf<T>(items: seq<(string, T)>): (r: set<string>)
    ensures forall i :: 0 <= i < |items| ==> items[i].0 in r
    ensures forall k :: k in r ==> exists i :: 0 <= i < |items| && items[i].0 == k
  {
    if items == [] then {}
    else
      var r := KeysOf(items[..|items| - 1]);
      assert forall i :: 0 <= i < |items| - 1 ==> items[..|items| - 1][i] == items[i];
      r + {items[|items| - 1].0}
  }

  /** The upserts one after the other, each reading what the previous ones wrote. */
  function Apply<T>(m: map<string, T>, items: seq<(string, T)>, merge: (T, T) -> T, blank: T): (r: map<string, T>)
    ensures r.Keys == m.Keys + KeysOf(items)
    ensures forall k :: k in m && k !in KeysOf(items) ==> r[k] == m[k]
  {
    if items == [] then m
    else
      var prev := Apply(m, items[..|items| - 1], merge, blank);
      var (k, v) := items[|items| - 1];
      prev[k := merge(Get(prev, k, blank), v)]
  }

  lemma ApplyStep<T>(m: map<string, T>, items: seq<(string, T)>, merge: (T, T) -> T, blank: T, k: string, v: T)
    ensures var prev := Apply(m, items, merge, blank);
      Apply(m, items + [(k, v)], merge, blank) == prev[k := merge(Get(prev, k, blank), v)]
  {
    assert (items + [(k, v)])[..|items|] == items;
  }

  /** One merge per key of `patch`; the keys it lacks keep their record. */
  function PatchMap<T>(m: map<string, T>, patch: map<string, T>, merge: (T, T) -> T, blank: T): (r: map<string, T>)
    ensures r.Keys == m.Keys + patch.Keys
  {
    map k | k in m.Keys + patch.Keys :: if k in patch then merge(Get(m, k, blank), patch[k]) else m[k]
  }

  lemma GetPatch<T(!new)>(m: map<string, T>, patch: map<string, T>, merge: (T, T) -> T, blank: T, k: string)
    requires IsOverride(merge, blank)
    ensures Get(PatchMap(m, patch, merge, blank), k, blank) == merge(Get(m, k, blank), Get(patch, k, blank))
  {
  }

  /** One more upsert after a patch is the patch with that key's combined record extended. */
  lemma PatchStep<T(!new)>(m: map<string, T>, p: map<string, T>, merge: (T, T) -> T, blank: T, k: string, v: T)
    requires IsOverride(merge, blank)
    ensures var prev := PatchMap(m, p, merge, blank);
      prev[k := merge(Get(prev, k, blank), v)] == PatchMap(m, p[k := merge(Get(p, k, blank), v)], merge, blank)
  {
    var prev := PatchMap(m, p, merge, blank);
    GetPatch(m, p, merge, blank, k);
    var left := prev[k := merge(Get(prev, k, blank), v)];
    var right := PatchMap(m, p[k := merge(Get(p, k, blank), v)], merge, blank);
    assert merge(merge(Get(m, k, blank), Get(p, k, blank)), v) == merge(Get(m, k, blank), merge(Get(p, k, blank), v));
    assert forall j :: j in left ==> left[j] == right[j];
  }

  /**
   * A run of upserts over any database is the same as one merge per key of the
   * run's own outcome over an empty database: the combined record of each key.
   */
  lemma {:induction false} ApplyIsPatch<T(!new)>(m: map<string, T>, items: seq<(string, T)>, merge: (T, T) -> T, blank: T)
    requires IsOverride(merge, blank)
    ensures Apply(m, items, merge, blank) == PatchMap(m, Apply(map[], items, merge, blank), merge, blank)
  {
    if items != [] {
      var init := items[..|items| - 1];
      var (k, v) := items[|items| - 1];
      ApplyIsPatch(m, init, merge, blank);
      PatchStep(m, Apply(map[], init, merge, blank), merge, blank, k, v);
    }
  }

  /** Merging the same patch a second time changes nothing. */
  lemma PatchTwice<T(!new)>(m: map<string, T>, patch: map<string, T>, merge: (T, T) -> T, blank: T)
    requires IsOverride(merge, blank)
    ensures PatchMap(PatchMap(m, patch, merge, blank), patch, merge, blank) == PatchMap(m, patch, merge, blank)
  {
    var once := PatchMap(m, patch, merge, blank);
    var twice := PatchMap(once, patch, merge, blank);
    forall k | k in twice
      ensures twice[k] == once[k]
    {
      if k in patch {
        GetPatch(m, patch, merge, blank, k);
        assert merge(merge(Get(m, k, blank), patch[k]), patch[k]) == merge(Get(m, k, blank), merge(patch[k], patch[k]));
      }
    }
  }

  /** Replaying the same upserts over their own result leaves the database as it is. */
  lemma Reapply<T(!new)>(m: map<string, T>, items: seq<(string, T)>, merge: (T, T) -> T, blank: T)
    requires IsOverride(merge, blank)
    ensures Apply(Apply(m, items, merge, blank), items, merge, blank) == Apply(m, items, merge, blank)
  {
    var p := Apply(map[], items, merge, blank);
    ApplyIsPatch(m, items, merge, blank);
    ApplyIsPatch(Apply(m, items, merge, blank), items, merge, blank);
    PatchTwice(m, p, merge, blank);
  }
}
