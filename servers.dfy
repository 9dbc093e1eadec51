/**
  The filter and sort engine shared by both front ends: the scanned servers
  are narrowed to the selected region and the (animated) ping ceiling, then
  ordered on one numeric field with records missing that field placed last
  and the direction inverted for the `playing` count.
 */
module Servers {
  import opened Wrappers

  /**
    A scanned server: its id, the region name geolocation gave it and its
    numeric fields (`ping`, `playing`, ...); a field that is `undefined` or
    `null` is simply absent from the map.
   */
  datatype Server = Server(id: string, regionName: string, fields: map<string, int>)

  /** `s[by]`, when it holds a value. */
  function Field(s: Server, field: string): Option<int> {
    if field in s.fields then Some(s.fields[field]) else None
  }

  /** `s.ping || 0`: a missing ping counts as zero. */
  function PingOrZero(s: Server): int {
    if "ping" in s.fields then s.fields["ping"] else 0
  }

  // ---------------------------------------------------------------------------
  // Filtering
  // ---------------------------------------------------------------------------

  /** `Array.prototype.filter`: the elements that pass, in their order. */
  function Filter<T(!new)>(xs: seq<T>, p: T -> bool): (r: seq<T>)
    ensures |r| <= |xs|
    ensures forall i :: 0 <= i < |r| ==> p(r[i])
    ensures forall x {:trigger multiset(r)[x]} :: multiset(r)[x] == if p(x) then multiset(xs)[x] else 0
    decreases |xs|
  {
    if xs == [] then []
    else
      var init := xs[..|xs| - 1];
      var last := xs[|xs| - 1];
      assert xs == init + [last];
      Filter(init, p) + (if p(last) then [last] else [])
  }

  /** Filtering works piece by piece, so the kept elements stay in their order. */
  lemma {:induction false} FilterAppend<T(!new)>(a: seq<T>, b: seq<T>, p: T -> bool)
    ensures Filter(a + b, p) == Filter(a, p) + Filter(b, p)
    decreases |b|
  {
    if b == [] {
      assert a + b == a;
    } else {
      var init := b[..|b| - 1];
      var last := b[|b| - 1];
      assert (a + b)[..|a + b| - 1] == a + init;
      assert (a + b)[|a + b| - 1] == last;
      FilterAppend(a, init, p);
    }
  }

  /** The test the two filter steps apply together. */
  predicate Visible(s: Server, region: string, maxPing: int) {
    (region == "all" || s.regionName == region) && PingOrZero(s) <= maxPing
  }

  /**
    The filter half of `applyFiltersAndRender`: the region filter (skipped for
    `"all"`), then the ping filter against the animated ceiling. A server is
    kept, as often as it occurs, exactly when it is visible.
   */
  function VisibleServers(all: seq<Server>, region: string, maxPing: int): (r: seq<Server>)
    ensures |r| <= |all|
    ensures forall i :: 0 <= i < |r| ==> Visible(r[i], region, maxPing)
    ensures forall x {:trigger multiset(r)[x]} :: multiset(r)[x] == if Visible(x, region, maxPing) then multiset(all)[x] else 0
  {
    var byRegion := if region != "all" then Filter(all, (s: Server) => s.regionName == region) else all;
    var r := Filter(byRegion, (s: Server) => PingOrZero(s) <= maxPing);
    assert forall i :: 0 <= i < |r| ==> Visible(r[i], region, maxPing) by {
      forall i | 0 <= i < |r| ensures Visible(r[i], region, maxPing) {
        assert multiset(r)[r[i]] > 0;
        assert multiset(byRegion)[r[i]] > 0;
      }
    }
    r
  }

  /** The visible servers of a concatenation are those of each part, in order. */
  lemma VisibleServersAppend(a: seq<Server>, b: seq<Server>, region: string, maxPing: int)
    ensures VisibleServers(a + b, region, maxPing) == VisibleServers(a, region, maxPing) + VisibleServers(b, region, maxPing)
  {
    var inRegion := (s: Server) => s.regionName == region;
    var withinPing := (s: Server) => PingOrZero(s) <= maxPing;
    if region != "all" {
      FilterAppend(a, b, inRegion);
      FilterAppend(Filter(a, inRegion), Filter(b, inRegion), withinPing);
    } else {
      FilterAppend(a, b, withinPing);
    }
  }

  // ---------------------------------------------------------------------------
  // The comparator
  // ---------------------------------------------------------------------------

  /** `state.currentSort`: the field sorted on and `"asc"` or `"desc"`. */
  datatype SortSpec = SortSpec(sortBy: string, order: string)

  /** What the comparator looks at in a record: the sort field's value, or its absence. */
  datatype SortKey = Missing | Present(v: int)

  function KeyOf(s: Server, field: string): (k: SortKey)
    ensures k.Missing? <==> Field(s, field).None?
    ensures k.Present? ==> k.v == Field(s, field).value
  {
    if field in s.fields then Present(s.fields[field]) else Missing
  }

  /** Whether smaller values come first: `"asc"` does so, except on `playing`, where it is inverted. */
  predicate Ascending(spec: SortSpec) {
    (spec.order == "asc") != (spec.sortBy == "playing")
  }

  /**
    The comparator as written: a record missing the field compares greater
    than anything, including another record missing the field.
   */
  function CompareAsWritten(a: Server, b: Server, spec: SortSpec): (r: int)
    ensures r == -1 || r == 0 || r == 1
    ensures Field(a, spec.sortBy).None? ==> r == 1
    ensures Field(a, spec.sortBy).Some? && Field(b, spec.sortBy).None? ==> r == -1
    ensures Field(a, spec.sortBy).Some? && Field(b, spec.sortBy).Some? ==>
      var x, y := Field(a, spec.sortBy).value, Field(b, spec.sortBy).value;
      && (r == 0 <==> x == y)
      && (Ascending(spec) ==> (r < 0 <==> x < y))
      && (!Ascending(spec) ==> (r < 0 <==> x > y))
  {
    var valA := Field(a, spec.sortBy);
    var valB := Field(b, spec.sortBy);
    if valA.None? then 1
    else if valB.None? then -1
    else
      var modifier := if spec.sortBy == "playing" then -1 else 1;
      if valA.value < valB.value then (if spec.order == "asc" then -1 * modifier else 1 * modifier)
      else if valA.value > valB.value then (if spec.order == "asc" then 1 * modifier else -1 * modifier)
      else 0
  }

  /**
    Two records both missing the field each compare greater than the other:
    the comparator is inconsistent, so the order `Array.prototype.sort` gives
    such records is implementation-defined.
   */
  lemma AsWrittenInconsistent(a: Server, b: Server, spec: SortSpec)
    requires Field(a, spec.sortBy).None? && Field(b, spec.sortBy).None?
    ensures CompareAsWritten(a, b, spec) > 0 && CompareAsWritten(b, a, spec) > 0
  {
  }

  /**
    The intended comparator, on keys: two missing values are equal, a missing
    value sorts after a present one, and present values follow the direction.
   */
  function CompareKeys(ka: SortKey, kb: SortKey, spec: SortSpec): (c: int)
    ensures c == 0 <==> ka == kb
    ensures ka.Missing? && kb.Present? ==> c > 0
    ensures ka.Present? && kb.Missing? ==> c < 0
    ensures ka.Present? && kb.Present? ==>
      (c < 0 <==> if Ascending(spec) then ka.v < kb.v else ka.v > kb.v)
  {
    if ka.Missing? && kb.Missing? then 0
    else if ka.Missing? then 1
    else if kb.Missing? then -1
    else
      var modifier := if spec.sortBy == "playing" then -1 else 1;
      if ka.v < kb.v then (if spec.order == "asc" then -1 * modifier else 1 * modifier)
      else if ka.v > kb.v then (if spec.order == "asc" then 1 * modifier else -1 * modifier)
      else 0
  }

  function Compare(a: Server, b: Server, spec: SortSpec): int {
    CompareKeys(KeyOf(a, spec.sortBy), KeyOf(b, spec.sortBy), spec)
  }

  /** The intended comparator is consistent: swapping the operands negates the result. */
  lemma CompareAntisymmetric(a: Server, b: Server, spec: SortSpec)
    ensures Compare(a, b, spec) == -Compare(b, a, spec)
  {
  }

  /** The intended comparator differs from the written one only when both records miss the field. */
  lemma CompareMatchesAsWritten(a: Server, b: Server, spec: SortSpec)
    ensures Field(a, spec.sortBy).Some? || Field(b, spec.sortBy).Some? ==>
      Compare(a, b, spec) == CompareAsWritten(a, b, spec)
    ensures Field(a, spec.sortBy).None? && Field(b, spec.sortBy).None? ==> Compare(a, b, spec) == 0
  {
  }

  /** `a` may precede `b`. */
  predicate KeyLe(ka: SortKey, kb: SortKey, spec: SortSpec) {
    CompareKeys(ka, kb, spec) <= 0
  }

  /** `KeyLe` is a total order on keys. */
  lemma KeyLeTotalOrder(ka: SortKey, kb: SortKey, kc: SortKey, spec: SortSpec)
    ensures KeyLe(ka, kb, spec) || KeyLe(kb, ka, spec)
    ensures KeyLe(ka, kb, spec) && KeyLe(kb, ka, spec) ==> ka == kb
    ensures KeyLe(ka, kb, spec) && KeyLe(kb, kc, spec) ==> KeyLe(ka, kc, spec)
  {
  }

  // ---------------------------------------------------------------------------
  // Sorting
  // ---------------------------------------------------------------------------

  predicate Sorted(r: seq<Server>, spec: SortSpec) {
    forall i, j :: 0 <= i < j < |r| ==> KeyLe(KeyOf(r[i], spec.sortBy), KeyOf(r[j], spec.sortBy), spec)
  }

  /** Places `x` after the last element of `s` that may precede it. */
  function Insert(s: seq<Server>, x: Server, spec: SortSpec): (r: seq<Server>)
    ensures |r| == |s| + 1
    ensures multiset(r) == multiset(s) + multiset{x}
    decreases |s|
  {
    if s == [] then [x]
    else
      var init := s[..|s| - 1];
      var last := s[|s| - 1];
      assert s == init + [last];
      if KeyLe(KeyOf(last, spec.sortBy), KeyOf(x, spec.sortBy), spec) then s + [x]
      else Insert(init, x, spec) + [last]
  }

  lemma {:induction false} InsertKeepsSorted(s: seq<Server>, x: Server, spec: SortSpec)
    requires Sorted(s, spec)
    ensures Sorted(Insert(s, x, spec), spec)
    decreases |s|
  {
    if s != [] {
      var init := s[..|s| - 1];
      var last := s[|s| - 1];
      var kx := KeyOf(x, spec.sortBy);
      var kl := KeyOf(last, spec.sortBy);
      if KeyLe(kl, kx, spec) {
        var r := s + [x];
        forall i, j | 0 <= i < j < |r| ensures KeyLe(KeyOf(r[i], spec.sortBy), KeyOf(r[j], spec.sortBy), spec) {
          if j == |s| && i < |s| - 1 {
            KeyLeTotalOrder(KeyOf(r[i], spec.sortBy), kl, kx, spec);
          }
        }
      } else {
        assert Sorted(init, spec);
        InsertKeepsSorted(init, x, spec);
        var m := Insert(init, x, spec);
        KeyLeTotalOrder(kl, kx, kx, spec);
        // every element of `m` is `x` or an element of `init`, and each may precede `last`
        forall i | 0 <= i < |m| ensures KeyLe(KeyOf(m[i], spec.sortBy), kl, spec) {
          assert m[i] in multiset(m);
          if m[i] != x {
            assert m[i] in multiset(init);
            var j :| 0 <= j < |init| && init[j] == m[i];
            assert s[j] == m[i];
          }
        }
        assert Insert(s, x, spec) == m + [last];
      }
    }
  }

  /**
    `sortServers`: a sorted copy (the input is a value and stays as it was),
    holding the same records, as an insertion sort that keeps equal keys in
    their input order, like the stable `Array.prototype.sort`.
   */
  function SortServers(xs: seq<Server>, spec: SortSpec): (r: seq<Server>)
    ensures multiset(r) == multiset(xs)
    ensures Sorted(r, spec)
    decreases |xs|
  {
    if xs == [] then []
    else
      var init := xs[..|xs| - 1];
      assert xs == init + [xs[|xs| - 1]];
      var sorted := SortServers(init, spec);
      InsertKeepsSorted(sorted, xs[|xs| - 1], spec);
      Insert(sorted, xs[|xs| - 1], spec)
  }

  /**
    The order a sorted list promises: records missing the field come after
    all others; present values are non-decreasing when the direction is
    ascending (`"asc"` on any field but `playing`, `"desc"` on `playing`)
    and non-increasing otherwise.
   */
  lemma SortedOrder(r: seq<Server>, spec: SortSpec)
    requires Sorted(r, spec)
    ensures forall i, j :: 0 <= i < j < |r| && Field(r[i], spec.sortBy).None? ==> Field(r[j], spec.sortBy).None?
    ensures forall i, j :: 0 <= i < j < |r| && Field(r[i], spec.sortBy).Some? && Field(r[j], spec.sortBy).Some? ==>
      if Ascending(spec) then Field(r[i], spec.sortBy).value <= Field(r[j], spec.sortBy).value
      else Field(r[i], spec.sortBy).value >= Field(r[j], spec.sortBy).value
  {
    forall i, j | 0 <= i < j < |r|
      ensures Field(r[i], spec.sortBy).None? ==> Field(r[j], spec.sortBy).None?
    {
      assert KeyLe(KeyOf(r[i], spec.sortBy), KeyOf(r[j], spec.sortBy), spec);
    }
  }

  /** The records of `xs` with key `k`, in order. */
  function WithKey(xs: seq<Server>, field: string, k: SortKey): seq<Server>
    decreases |xs|
  {
    if xs == [] then []
    else WithKey(xs[..|xs| - 1], field, k) + (if KeyOf(xs[|xs| - 1], field) == k then [xs[|xs| - 1]] else [])
  }

  lemma WithKeySnoc(xs: seq<Server>, y: Server, field: string, k: SortKey)
    ensures WithKey(xs + [y], field, k) == WithKey(xs, field, k) + (if KeyOf(y, field) == k then [y] else [])
  {
    assert (xs + [y])[..|xs|] == xs;
  }

  lemma {:induction false} InsertWithKey(s: seq<Server>, x: Server, spec: SortSpec, k: SortKey)
    ensures WithKey(Insert(s, x, spec), spec.sortBy, k)
         == WithKey(s, spec.sortBy, k) + (if KeyOf(x, spec.sortBy) == k then [x] else [])
    decreases |s|
  {
    var field := spec.sortBy;
    if s == [] {
      WithKeySnoc([], x, field, k);
      assert [] + [x] == [x];
    } else {
      var init := s[..|s| - 1];
      var last := s[|s| - 1];
      assert s == init + [last];
      if KeyLe(KeyOf(last, field), KeyOf(x, field), spec) {
        assert Insert(s, x, spec) == s + [x];
        WithKeySnoc(s, x, field, k);
      } else {
        var m := Insert(init, x, spec);
        assert Insert(s, x, spec) == m + [last];
        InsertWithKey(init, x, spec, k);
        // `last` sorts strictly after `x`, so the two never share a key
        assert KeyOf(last, field) != KeyOf(x, field);
        WithKeyMovesPast(init, m, last, x, field, k);
      }
    }
  }

  /** Appending `last` after `x` where the two keys differ: the order of the two parts does not matter. */
  lemma WithKeyMovesPast(init: seq<Server>, m: seq<Server>, last: Server, x: Server, field: string, k: SortKey)
    requires KeyOf(last, field) != KeyOf(x, field)
    requires WithKey(m, field, k) == WithKey(init, field, k) + (if KeyOf(x, field) == k then [x] else [])
    ensures WithKey(m + [last], field, k) == WithKey(init + [last], field, k) + (if KeyOf(x, field) == k then [x] else [])
  {
    WithKeySnoc(m, last, field, k);
    WithKeySnoc(init, last, field, k);
    ConcatSwap(WithKey(init, field, k), if KeyOf(x, field) == k then [x] else [],
               if KeyOf(last, field) == k then [last] else []);
  }

  lemma ConcatSwap<T>(before: seq<T>, a: seq<T>, b: seq<T>)
    requires a == [] || b == []
    ensures (before + a) + b == (before + b) + a
  {
    if a == [] {
      assert before + a == before;
      assert (before + b) + a == before + b;
    } else {
      assert before + b == before;
      assert (before + a) + b == before + a;
    }
  }

  /**
    The sort is stable: records with the same value of the sort field keep
    their input order. Nothing is claimed for records missing the field.
   */
  lemma {:induction false} SortStable(xs: seq<Server>, spec: SortSpec, k: SortKey)
    requires k.Present?
    ensures WithKey(SortServers(xs, spec), spec.sortBy, k) == WithKey(xs, spec.sortBy, k)
    decreases |xs|
  {
    if xs != [] {
      var init := xs[..|xs| - 1];
      SortStable(init, spec, k);
      InsertWithKey(SortServers(init, spec), xs[|xs| - 1], spec, k);
    }
  }

  /** The sort reads nothing of a record but its key. */
  lemma SortDependsOnlyOnKeys(a: Server, b: Server, c: Server, spec: SortSpec)
    requires KeyOf(a, spec.sortBy) == KeyOf(b, spec.sortBy)
    ensures Compare(a, c, spec) == Compare(b, c, spec) && Compare(c, a, spec) == Compare(c, b, spec)
  {
  }

  // ---------------------------------------------------------------------------
  // The sort-order toggle
  // ---------------------------------------------------------------------------

  /** The sort-order button: `"asc"` becomes `"desc"`, anything else `"asc"`. */
  function ToggleOrder(order: string): (r: string)
    ensures order == "asc" ==> r == "desc"
    ensures order != "asc" ==> r == "asc"
    ensures r != order
  {
    if order == "asc" then "desc" else "asc"
  }

  /** Two toggles restore `"asc"` or `"desc"`, and each toggle flips the direction of the sort. */
  lemma ToggleTwice(field: string, order: string)
    requires order == "asc" || order == "desc"
    ensures ToggleOrder(ToggleOrder(order)) == order
    ensures Ascending(SortSpec(field, ToggleOrder(order))) == !Ascending(SortSpec(field, order))
  {
  }
}
