/** The in-memory "tables" behind every router: a Python list of dicts, each
    with an integer id field. This module holds what the five routers share:
    list comprehensions (`Filter`), `next(...)` lookups by id (`IndexOfKey`),
    the `max(id) + 1` rule for new ids (`NewKey`), and, for the two header/detail
    aggregates (inbound orders, requisitions), the facts about replacing and
    cascading detail rows. A record type is paired with a `key` function that
    reads its id field. */
module Tables {
  import opened Common

  // ---------------------------------------------------------------------------
  // List comprehensions: [x for x in s if p(x)]
  // ---------------------------------------------------------------------------

  function Filter<T>(s: seq<T>, p: T -> bool): (r: seq<T>)
    ensures |r| <= |s|
    ensures forall x :: x in r ==> x in s && p(x)
  {
    if s == [] then []
    else (if p(s[0]) then [s[0]] else []) + Filter(s[1..], p)
  }

  /** Exactly the entries of `s` that satisfy `p` survive a comprehension. */
  lemma {:induction false} FilterMembership<T>(s: seq<T>, p: T -> bool, x: T)
    ensures x in Filter(s, p) <==> x in s && p(x)
  {
    if s != [] {
      FilterMembership(s[1..], p, x);
      assert s == [s[0]] + s[1..];
    }
  }

  /** A comprehension keeps stored order: filtering a concatenation is the
      concatenation of the filtered parts. */
  lemma {:induction false} FilterConcat<T>(a: seq<T>, b: seq<T>, p: T -> bool)
    ensures Filter(a + b, p) == Filter(a, p) + Filter(b, p)
  {
    if a == [] {
      assert a + b == b;
    } else {
      assert (a + b)[0] == a[0];
      assert (a + b)[1..] == a[1..] + b;
      FilterConcat(a[1..], b, p);
    }
  }

  lemma {:induction false} FilterAll<T>(s: seq<T>, p: T -> bool)
    requires forall i | 0 <= i < |s| :: p(s[i])
    ensures Filter(s, p) == s
  {
    if s != [] {
      FilterAll(s[1..], p);
    }
  }

  lemma {:induction false} FilterNone<T>(s: seq<T>, p: T -> bool)
    requires forall i | 0 <= i < |s| :: !p(s[i])
    ensures Filter(s, p) == []
  {
    if s != [] {
      FilterNone(s[1..], p);
    }
  }

  /** A comprehension keeps the length of the list exactly when it keeps every entry. */
  lemma {:induction false} FilterLength<T>(s: seq<T>, p: T -> bool)
    ensures |Filter(s, p)| == |s| <==> forall i | 0 <= i < |s| :: p(s[i])
  {
    if s != [] {
      FilterLength(s[1..], p);
      if !p(s[0]) {
        assert |Filter(s, p)| < |s|;
      } else if |Filter(s, p)| == |s| {
        forall i | 0 <= i < |s| ensures p(s[i]) {
          if i > 0 { assert s[i] == s[1..][i - 1]; }
        }
      }
    } else {
      assert Filter(s, p) == [];
    }
  }

  /** Appending one entry to the input appends it to the comprehension exactly
      when it satisfies the condition. */
  lemma FilterAppendOne<T>(s: seq<T>, p: T -> bool, x: T)
    ensures Filter(s + [x], p) == Filter(s, p) + (if p(x) then [x] else [])
  {
    FilterConcat(s, [x], p);
    assert [x][1..] == [];
  }

  /** Filtering twice by the same condition is filtering once. */
  lemma FilterIdempotent<T>(s: seq<T>, p: T -> bool)
    ensures Filter(Filter(s, p), p) == Filter(s, p)
  {
    var r := Filter(s, p);
    forall i | 0 <= i < |r| ensures p(r[i]) {
      assert r[i] in r;
    }
    FilterAll(r, p);
  }

  /** When every entry kept by `q` also satisfies `p`, filtering by `p` first
      changes nothing of what `q` keeps. */
  lemma {:induction false} FilterImplied<T>(s: seq<T>, p: T -> bool, q: T -> bool)
    requires forall x :: q(x) ==> p(x)
    ensures Filter(Filter(s, p), q) == Filter(s, q)
  {
    if s != [] {
      FilterImplied(s[1..], p, q);
      var head := if p(s[0]) then [s[0]] else [];
      FilterConcat(head, Filter(s[1..], p), q);
      if !p(s[0]) {
        assert Filter(head, q) == [];
        assert !q(s[0]);
      } else {
        assert head == [s[0]];
        assert Filter([s[0]], q) == (if q(s[0]) then [s[0]] else []) + Filter([], q);
      }
    }
  }

  function KeyIs<T>(key: T -> int, id: int): T -> bool
  {
    x => key(x) == id
  }

  function KeyIsNot<T>(key: T -> int, id: int): T -> bool
  {
    x => key(x) != id
  }

  // ---------------------------------------------------------------------------
  // Ids
  // ---------------------------------------------------------------------------

  /** `any(r[id_field] == id for r in s)` */
  predicate HasKey<T>(s: seq<T>, key: T -> int, id: int)
  {
    exists i | 0 <= i < |s| :: key(s[i]) == id
  }

  ghost predicate UniqueKeys<T>(s: seq<T>, key: T -> int)
  {
    forall i, j | 0 <= i < j < |s| :: key(s[i]) != key(s[j])
  }

  /** `[r[id_field] for r in s]` */
  function Keys<T>(s: seq<T>, key: T -> int): seq<int>
  {
    seq(|s|, i requires 0 <= i < |s| => key(s[i]))
  }

  /** `next((i for i, r in enumerate(s) if r[id_field] == id), None)`: the first
      position holding the id, or None. */
  function IndexOfKey<T>(s: seq<T>, key: T -> int, id: int): (r: Option<nat>)
    ensures r.None? <==> !HasKey(s, key, id)
    ensures r.Some? ==> r.value < |s| && key(s[r.value]) == id
    ensures r.Some? ==> forall j | 0 <= j < r.value :: key(s[j]) != id
  {
    if s == [] then None
    else if key(s[0]) == id then Some(0)
    else
      match IndexOfKey(s[1..], key, id)
      case None =>
        assert forall j | 1 <= j < |s| :: s[j] == s[1..][j - 1];
        None
      case Some(k) =>
        assert s[k + 1] == s[1..][k];
        assert forall j | 1 <= j < k + 1 :: s[j] == s[1..][j - 1];
        Some(k + 1)
  }

  /** With unique ids, the first position holding an id is the only one. */
  lemma IndexOfUniqueKey<T>(s: seq<T>, key: T -> int, i: nat)
    requires UniqueKeys(s, key) && i < |s|
    ensures IndexOfKey(s, key, key(s[i])) == Some(i)
  {
  }

  /** `max([r[id_field] for r in s]) + 1 if s else first`: one more than the
      largest stored id, or `first` for an empty table. The result is fresh. */
  function NewKey<T>(s: seq<T>, key: T -> int, first: int): (r: int)
    ensures s == [] ==> r == first
    ensures s != [] ==> HasKey(s, key, r - 1)
    ensures forall i | 0 <= i < |s| :: key(s[i]) < r
    ensures !HasKey(s, key, r)
  {
    if s != [] then
      var ks := Keys(s, key);
      var m := MaxOf(ks);
      assert forall i | 0 <= i < |s| :: key(s[i]) == ks[i] && ks[i] in ks;
      m + 1
    else first
  }

  // ---------------------------------------------------------------------------
  // Single tables: append, overwrite in place, remove by id
  // ---------------------------------------------------------------------------

  /** Appending a record with a fresh id keeps ids unique. */
  lemma AppendFresh<T>(s: seq<T>, key: T -> int, x: T)
    requires UniqueKeys(s, key) && !HasKey(s, key, key(x))
    ensures UniqueKeys(s + [x], key)
    ensures HasKey(s + [x], key, key(x))
    ensures forall id | HasKey(s, key, id) :: HasKey(s + [x], key, id)
  {
    var s' := s + [x];
    assert key(s'[|s|]) == key(x);
    forall id | HasKey(s, key, id) ensures HasKey(s', key, id) {
      var i :| 0 <= i < |s| && key(s[i]) == id;
      assert s'[i] == s[i];
    }
  }

  /** Overwriting one record in place by one with the same id changes no id. */
  lemma OverwriteKeepsKeys<T>(s: seq<T>, key: T -> int, i: nat, x: T)
    requires i < |s| && key(x) == key(s[i])
    ensures UniqueKeys(s, key) ==> UniqueKeys(s[i := x], key)
    ensures forall id :: HasKey(s[i := x], key, id) <==> HasKey(s, key, id)
  {
    assert forall j | 0 <= j < |s| :: key(s[i := x][j]) == key(s[j]);
  }

  /** Overwriting one record in place by one with the same id moves no lookup:
      every id is found at the position it was found before. */
  lemma OverwriteLookup<T>(s: seq<T>, key: T -> int, i: nat, x: T, id: int)
    requires i < |s| && key(x) == key(s[i])
    ensures IndexOfKey(s[i := x], key, id) == IndexOfKey(s, key, id)
  {
    OverwriteKeepsKeys(s, key, i, x);
    assert forall j | 0 <= j < |s| :: key(s[i := x][j]) == key(s[j]);
  }

  /** Removing every record with an id (`[r for r in s if r[id_field] != id]`)
      leaves none with it, keeps every other id and keeps ids unique. */
  lemma RemoveKey<T>(s: seq<T>, key: T -> int, id: int)
    ensures !HasKey(Filter(s, KeyIsNot(key, id)), key, id)
    ensures forall other | other != id :: HasKey(Filter(s, KeyIsNot(key, id)), key, other) <==> HasKey(s, key, other)
    ensures UniqueKeys(s, key) ==> UniqueKeys(Filter(s, KeyIsNot(key, id)), key)
  {
    var r := Filter(s, KeyIsNot(key, id));
    forall other | other != id ensures HasKey(r, key, other) <==> HasKey(s, key, other) {
      if HasKey(s, key, other) {
        var i :| 0 <= i < |s| && key(s[i]) == other;
        FilterMembership(s, KeyIsNot(key, id), s[i]);
        var j :| 0 <= j < |r| && r[j] == s[i];
      }
      if HasKey(r, key, other) {
        var j :| 0 <= j < |r| && key(r[j]) == other;
        assert r[j] in r;
      }
    }
    if UniqueKeys(s, key) {
      FilterKeepsUniqueKeys(s, key, KeyIsNot(key, id));
    }
  }

  /** Removing an id that no record has leaves the table as it was; in
      particular removing twice is removing once. */
  lemma RemoveAbsentKey<T>(s: seq<T>, key: T -> int, id: int)
    requires !HasKey(s, key, id)
    ensures Filter(s, KeyIsNot(key, id)) == s
  {
    FilterAll(s, KeyIsNot(key, id));
  }

  /** The table shrinks under removal exactly when some record had the id. */
  lemma RemoveShrinks<T>(s: seq<T>, key: T -> int, id: int)
    ensures |Filter(s, KeyIsNot(key, id))| == |s| <==> !HasKey(s, key, id)
  {
    FilterLength(s, KeyIsNot(key, id));
  }

  lemma {:induction false} FilterKeepsUniqueKeys<T>(s: seq<T>, key: T -> int, p: T -> bool)
    requires UniqueKeys(s, key)
    ensures UniqueKeys(Filter(s, p), key)
  {
    if s != [] {
      var tail := s[1..];
      assert UniqueKeys(tail, key) by {
        forall i, j | 0 <= i < j < |tail| ensures key(tail[i]) != key(tail[j]) {
          assert tail[i] == s[i + 1] && tail[j] == s[j + 1];
        }
      }
      FilterKeepsUniqueKeys(tail, key, p);
      var ft := Filter(tail, p);
      if p(s[0]) {
        var r := [s[0]] + ft;
        assert Filter(s, p) == r;
        forall k | 0 <= k < |ft| ensures key(ft[k]) != key(s[0]) {
          assert ft[k] in tail;
          var m :| 0 <= m < |tail| && tail[m] == ft[k];
          assert tail[m] == s[m + 1];
        }
        forall i, j | 0 <= i < j < |r| ensures key(r[i]) != key(r[j]) {
          if i == 0 {
            assert r[j] == ft[j - 1];
          } else {
            assert r[i] == ft[i - 1] && r[j] == ft[j - 1];
          }
        }
      } else {
        assert Filter(s, p) == ft;
      }
    }
  }

  // ---------------------------------------------------------------------------
  // Header/detail aggregates
  // ---------------------------------------------------------------------------

  /** `[d for d in details if d[id_field] == id]`: the detail rows of one header, in stored order. */
  function RowsOf<D>(ds: seq<D>, dkey: D -> int, id: int): seq<D>
  {
    Filter(ds, KeyIs(dkey, id))
  }

  /** Every detail row names an existing header. */
  ghost predicate NoOrphans<H, D>(hs: seq<H>, hkey: H -> int, ds: seq<D>, dkey: D -> int)
  {
    forall k | 0 <= k < |ds| :: HasKey(hs, hkey, dkey(ds[k]))
  }

  ghost predicate AllTagged<D>(rows: seq<D>, dkey: D -> int, id: int)
  {
    forall k | 0 <= k < |rows| :: dkey(rows[k]) == id
  }

  /** The rows of a list all tagged with `id` are the whole list; those of any other id are none. */
  lemma RowsOfTagged<D>(rows: seq<D>, dkey: D -> int, id: int)
    requires AllTagged(rows, dkey, id)
    ensures RowsOf(rows, dkey, id) == rows
    ensures forall other | other != id :: RowsOf(rows, dkey, other) == []
  {
    FilterAll(rows, KeyIs(dkey, id));
    forall other | other != id ensures RowsOf(rows, dkey, other) == [] {
      FilterNone(rows, KeyIs(dkey, other));
    }
  }

  /** With no orphans, an id that no header has has no detail rows. */
  lemma NoRowsForAbsentHeader<H, D>(hs: seq<H>, hkey: H -> int, ds: seq<D>, dkey: D -> int, id: int)
    requires NoOrphans(hs, hkey, ds, dkey) && !HasKey(hs, hkey, id)
    ensures RowsOf(ds, dkey, id) == []
  {
    FilterNone(ds, KeyIs(dkey, id));
  }

  /** Create, the invariant: appending a header with a fresh id and rows
      tagged with that id keeps ids unique and every row owned. */
  lemma CreateKeepsInvariant<H, D>(hs: seq<H>, hkey: H -> int, ds: seq<D>, dkey: D -> int, h: H, rows: seq<D>)
    requires UniqueKeys(hs, hkey) && NoOrphans(hs, hkey, ds, dkey)
    requires !HasKey(hs, hkey, hkey(h)) && AllTagged(rows, dkey, hkey(h))
    ensures UniqueKeys(hs + [h], hkey) && NoOrphans(hs + [h], hkey, ds + rows, dkey)
  {
    AppendFresh(hs, hkey, h);
    var ds' := ds + rows;
    forall k | 0 <= k < |ds'| ensures HasKey(hs + [h], hkey, dkey(ds'[k])) {
      if k < |ds| {
        assert ds'[k] == ds[k];
      } else {
        assert ds'[k] == rows[k - |ds|];
      }
    }
  }

  /** Create, the rows: the new header's rows are exactly the appended ones,
      in order, and every other header keeps its rows. */
  lemma CreateRows<H, D>(hs: seq<H>, hkey: H -> int, ds: seq<D>, dkey: D -> int, id: int, rows: seq<D>)
    requires NoOrphans(hs, hkey, ds, dkey)
    requires !HasKey(hs, hkey, id) && AllTagged(rows, dkey, id)
    ensures RowsOf(ds + rows, dkey, id) == rows
    ensures forall other | other != id :: RowsOf(ds + rows, dkey, other) == RowsOf(ds, dkey, other)
  {
    FilterConcat(ds, rows, KeyIs(dkey, id));
    NoRowsForAbsentHeader(hs, hkey, ds, dkey, id);
    RowsOfTagged(rows, dkey, id);
    forall other | other != id ensures RowsOf(ds + rows, dkey, other) == RowsOf(ds, dkey, other) {
      FilterConcat(ds, rows, KeyIs(dkey, other));
      assert RowsOf(rows, dkey, other) == [];
      assert RowsOf(ds + rows, dkey, other) == RowsOf(ds, dkey, other) + [];
    }
  }

  /** Update: dropping every row of `id` and appending new rows tagged `id`
      makes the new rows exactly the rows of `id` (full replace, no merge), and
      leaves every other header's rows as they were. */
  lemma ReplaceRows<D>(ds: seq<D>, dkey: D -> int, id: int, rows: seq<D>)
    requires AllTagged(rows, dkey, id)
    ensures RowsOf(Filter(ds, KeyIsNot(dkey, id)) + rows, dkey, id) == rows
    ensures forall other | other != id ::
      RowsOf(Filter(ds, KeyIsNot(dkey, id)) + rows, dkey, other) == RowsOf(ds, dkey, other)
  {
    var kept := Filter(ds, KeyIsNot(dkey, id));
    FilterConcat(kept, rows, KeyIs(dkey, id));
    forall i | 0 <= i < |kept| ensures !KeyIs(dkey, id)(kept[i]) {
      assert kept[i] in kept;
    }
    FilterNone(kept, KeyIs(dkey, id));
    RowsOfTagged(rows, dkey, id);
    forall other | other != id ensures RowsOf(kept + rows, dkey, other) == RowsOf(ds, dkey, other) {
      FilterConcat(kept, rows, KeyIs(dkey, other));
      assert forall x :: KeyIs(dkey, other)(x) ==> KeyIsNot(dkey, id)(x);
      FilterImplied(ds, KeyIsNot(dkey, id), KeyIs(dkey, other));
      assert RowsOf(rows, dkey, other) == [];
      assert RowsOf(kept + rows, dkey, other) == RowsOf(kept, dkey, other) + [];
    }
  }

  /** Update keeps the aggregate invariant: the header is overwritten in place
      under its own id and its rows are replaced by rows tagged with that id. */
  lemma UpdateAggregate<H, D>(hs: seq<H>, hkey: H -> int, ds: seq<D>, dkey: D -> int, i: nat, h: H, rows: seq<D>)
    requires UniqueKeys(hs, hkey) && NoOrphans(hs, hkey, ds, dkey)
    requires i < |hs| && hkey(h) == hkey(hs[i]) && AllTagged(rows, dkey, hkey(h))
    ensures UniqueKeys(hs[i := h], hkey)
    ensures NoOrphans(hs[i := h], hkey, Filter(ds, KeyIsNot(dkey, hkey(h))) + rows, dkey)
  {
    var id := hkey(h);
    OverwriteKeepsKeys(hs, hkey, i, h);
    var kept := Filter(ds, KeyIsNot(dkey, id));
    var ds' := kept + rows;
    assert HasKey(hs, hkey, id) by { assert hkey(hs[i]) == id; }
    forall k | 0 <= k < |ds'| ensures HasKey(hs[i := h], hkey, dkey(ds'[k])) {
      if k < |kept| {
        assert ds'[k] == kept[k] && kept[k] in kept;
        var m :| 0 <= m < |ds| && ds[m] == kept[k];
      } else {
        assert ds'[k] == rows[k - |kept|];
      }
    }
  }

  /** Delete: removing the header and all its rows (cascade) keeps the
      invariant, leaves neither the header nor any row of it, and keeps every
      other header and its rows. */
  lemma DeleteAggregate<H, D>(hs: seq<H>, hkey: H -> int, ds: seq<D>, dkey: D -> int, id: int)
    requires UniqueKeys(hs, hkey) && NoOrphans(hs, hkey, ds, dkey)
    ensures var hs', ds' := Filter(hs, KeyIsNot(hkey, id)), Filter(ds, KeyIsNot(dkey, id));
      && UniqueKeys(hs', hkey) && NoOrphans(hs', hkey, ds', dkey)
      && !HasKey(hs', hkey, id) && RowsOf(ds', dkey, id) == []
    ensures forall other | other != id ::
      && (HasKey(Filter(hs, KeyIsNot(hkey, id)), hkey, other) <==> HasKey(hs, hkey, other))
      && RowsOf(Filter(ds, KeyIsNot(dkey, id)), dkey, other) == RowsOf(ds, dkey, other)
  {
    var hs', ds' := Filter(hs, KeyIsNot(hkey, id)), Filter(ds, KeyIsNot(dkey, id));
    RemoveKey(hs, hkey, id);
    forall k | 0 <= k < |ds'| ensures HasKey(hs', hkey, dkey(ds'[k])) {
      assert ds'[k] in ds';
      var m :| 0 <= m < |ds| && ds[m] == ds'[k];
    }
    ReplaceRows(ds, dkey, id, []);
    assert ds' + [] == ds';
  }
}
