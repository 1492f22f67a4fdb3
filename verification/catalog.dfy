/**
  Catalogue records and the combined view: cloud rows followed by the
  session's AI rows, stably sorted by `model`, with no deduplication.
 */
module Catalog {
  import opened Wrappers
  import opened JsText

  /** Where a record came from: the cloud table or an in-session AI lookup. */
  datatype Source = Cloud | Ai

  /** One row of the `cdp_models` table as the store returns it. */
  datatype Row = Row(id: Option<string>, model: string, dac: Option<string>, laser: Option<string>)

  /** A displayed record: the row's fields plus provenance. */
  datatype Record = Record(
    id: Option<string>,
    model: string,
    dac: Option<string>,
    laser: Option<string>,
    source: Source,
    isAiGenerated: bool)

  /** `{ ...r, source: 'cloud' }`: a row keeps every field and is tagged as coming from the cloud. */
  function FromRow(r: Row): Record {
    Record(r.id, r.model, r.dac, r.laser, Cloud, false)
  }

  /** Tags every row of a page, in order. */
  function TagCloud(rows: seq<Row>): (r: seq<Record>)
    ensures |r| == |rows|
    ensures forall i :: 0 <= i < |rows| ==> r[i] == FromRow(rows[i])
  {
    if rows == [] then [] else [FromRow(rows[0])] + TagCloud(rows[1..])
  }

  /** Tagging a concatenation tags each part. */
  lemma TagCloudConcat(a: seq<Row>, b: seq<Row>)
    ensures TagCloud(a + b) == TagCloud(a) + TagCloud(b)
  {
  }

  /** Every pair of records is in `model` order. */
  predicate SortedByModel(s: seq<Record>) {
    forall i, j :: 0 <= i < j < |s| ==> LexLessEq(s[i].model, s[j].model)
  }

  /** The records whose label is exactly `k`, in their original order. */
  function WithModel(s: seq<Record>, k: string): seq<Record> {
    if s == [] then []
    else (if s[0].model == k then [s[0]] else []) + WithModel(s[1..], k)
  }

  lemma {:induction false} WithModelConcat(a: seq<Record>, b: seq<Record>, k: string)
    ensures WithModel(a + b, k) == WithModel(a, k) + WithModel(b, k)
    decreases |a|
  {
    if a == [] {
      assert a + b == b;
    } else {
      assert (a + b)[0] == a[0];
      assert (a + b)[1..] == a[1..] + b;
      WithModelConcat(a[1..], b, k);
    }
  }

  /**
    Places `x` before the first record it does not sort after, so that it
    precedes records with an equal label (it came earlier in the input).
   */
  function Insert(x: Record, s: seq<Record>): (r: seq<Record>)
    ensures multiset(r) == multiset(s) + multiset{x}
  {
    if s == [] then [x]
    else if LexLessEq(x.model, s[0].model) then [x] + s
    else
      assert s == [s[0]] + s[1..];
      [s[0]] + Insert(x, s[1..])
  }

  /** Stable insertion sort by `model`: a permutation of its input. */
  function SortByModel(s: seq<Record>): (r: seq<Record>)
    ensures multiset(r) == multiset(s)
  {
    if s == [] then []
    else
      assert s == [s[0]] + s[1..];
      Insert(s[0], SortByModel(s[1..]))
  }

  lemma {:induction false} InsertSorted(x: Record, s: seq<Record>)
    requires SortedByModel(s)
    ensures SortedByModel(Insert(x, s))
    decreases |s|
  {
    if s == [] {
    } else if LexLessEq(x.model, s[0].model) {
      forall j | 0 <= j < |s|
        ensures LexLessEq(x.model, s[j].model)
      {
        if j > 0 {
          LexTransitive(x.model, s[0].model, s[j].model);
        }
      }
    } else {
      var t := Insert(x, s[1..]);
      InsertSorted(x, s[1..]);
      LexTotal(x.model, s[0].model);
      forall k | 0 <= k < |t|
        ensures LexLessEq(s[0].model, t[k].model)
      {
        assert t[k] in multiset(t);
        if t[k] != x {
          assert t[k] in multiset(s[1..]);
          var j :| 0 <= j < |s[1..]| && s[1..][j] == t[k];
          assert s[j + 1] == t[k];
        }
      }
      assert Insert(x, s) == [s[0]] + t;
    }
  }

  lemma {:induction false} InsertStable(x: Record, s: seq<Record>, k: string)
    requires SortedByModel(s)
    ensures WithModel(Insert(x, s), k) == WithModel([x] + s, k)
    decreases |s|
  {
    if s != [] && !LexLessEq(x.model, s[0].model) {
      InsertStable(x, s[1..], k);
      LexReflexive(x.model);
      assert x.model != s[0].model;
      var t := Insert(x, s[1..]);
      assert Insert(x, s) == [s[0]] + t;
      WithModelConcat([s[0]], t, k);
      WithModelConcat([x], s[1..], k);
      WithModelConcat([s[0]], s[1..], k);
      WithModelConcat([x], s, k);
      assert s == [s[0]] + s[1..];
    }
  }

  /** The sort orders the records by label. */
  lemma {:induction false} SortSorted(s: seq<Record>)
    ensures SortedByModel(SortByModel(s))
    decreases |s|
  {
    if s != [] {
      SortSorted(s[1..]);
      InsertSorted(s[0], SortByModel(s[1..]));
    }
  }

  /** The sort is stable: records sharing a label keep their input order. */
  lemma {:induction false} SortStable(s: seq<Record>, k: string)
    ensures WithModel(SortByModel(s), k) == WithModel(s, k)
    decreases |s|
  {
    if s != [] {
      SortSorted(s[1..]);
      SortStable(s[1..], k);
      InsertStable(s[0], SortByModel(s[1..]), k);
      WithModelConcat([s[0]], SortByModel(s[1..]), k);
      WithModelConcat([s[0]], s[1..], k);
      assert s == [s[0]] + s[1..];
    }
  }

  /**
    `combinedData`: every cloud record and every session AI record, nothing
    dropped or merged, ordered by label; among records with the same label the
    cloud ones come first, each group in its own order.
   */
  function CombinedData(cloud: seq<Record>, session: seq<Record>): (r: seq<Record>)
    ensures multiset(r) == multiset(cloud) + multiset(session)
    ensures |r| == |cloud| + |session|
    ensures SortedByModel(r)
    ensures forall k :: WithModel(r, k) == WithModel(cloud, k) + WithModel(session, k)
  {
    var all := cloud + session;
    SortSorted(all);
    assert |SortByModel(all)| == |multiset(SortByModel(all))| == |multiset(all)| == |all|;
    forall k ensures WithModel(SortByModel(all), k) == WithModel(cloud, k) + WithModel(session, k) {
      SortStable(all, k);
      WithModelConcat(cloud, session, k);
    }
    SortByModel(all)
  }

  /** The records `WithModel` picks out are exactly the members carrying that label. */
  lemma {:induction false} WithModelMembers(s: seq<Record>, k: string, x: Record)
    ensures x in WithModel(s, k) <==> x in s && x.model == k
    decreases |s|
  {
    if s != [] {
      WithModelMembers(s[1..], k, x);
      assert s == [s[0]] + s[1..];
    }
  }

  /** Dropping a first record whose label is not `k` leaves the `k`-records alone. */
  lemma WithModelTail(s: seq<Record>, k: string)
    requires s != [] && s[0].model != k
    ensures WithModel(s[1..], k) == WithModel(s, k)
  {
  }

  /** In a sorted non-empty sequence the first label sorts no later than any member's label. */
  lemma SortedHead(s: seq<Record>, x: Record)
    requires SortedByModel(s) && x in s
    ensures LexLessEq(s[0].model, x.model)
  {
    var j :| 0 <= j < |s| && s[j] == x;
    if j == 0 {
      LexReflexive(x.model);
    }
  }

  /**
    Two sequences sorted by label that hold the same records under every
    label, in the same order, are equal: label order plus per-label order
    determine the whole sequence.
   */
  lemma {:induction false} SortedUnique(a: seq<Record>, b: seq<Record>)
    requires SortedByModel(a) && SortedByModel(b)
    requires forall k :: WithModel(a, k) == WithModel(b, k)
    ensures a == b
    decreases |a| + |b|
  {
    if a == [] && b == [] {
    } else if a == [] {
      WithModelMembers(b, b[0].model, b[0]);
    } else if b == [] {
      WithModelMembers(a, a[0].model, a[0]);
    } else {
      var ka := a[0].model;
      var kb := b[0].model;
      assert WithModel(a, ka) == [a[0]] + WithModel(a[1..], ka);
      WithModelMembers(b, ka, a[0]);
      SortedHead(b, a[0]);
      assert WithModel(b, kb) == [b[0]] + WithModel(b[1..], kb);
      WithModelMembers(a, kb, b[0]);
      SortedHead(a, b[0]);
      LexAntisymmetric(ka, kb);
      assert WithModel(a, ka) == WithModel(b, kb);
      assert a[0] == WithModel(a, ka)[0] == WithModel(b, kb)[0] == b[0];
      forall k
        ensures WithModel(a[1..], k) == WithModel(b[1..], k)
      {
        if k != ka {
          WithModelTail(a, k);
          WithModelTail(b, k);
        } else {
          assert WithModel(a, ka) == WithModel(b, ka);
          assert WithModel(a[1..], k) == WithModel(a, ka)[1..];
          assert WithModel(b[1..], k) == WithModel(b, ka)[1..];
        }
      }
      SortedUnique(a[1..], b[1..]);
      assert a == [a[0]] + a[1..] && b == [b[0]] + b[1..];
    }
  }

  /**
    `combinedData` is the only sequence that is sorted by label and lists,
    under every label, the cloud records and then the session records in
    their own order.
   */
  lemma CombinedDataUnique(cloud: seq<Record>, session: seq<Record>, r: seq<Record>)
    requires SortedByModel(r)
    requires forall k :: WithModel(r, k) == WithModel(cloud, k) + WithModel(session, k)
    ensures r == CombinedData(cloud, session)
  {
    SortedUnique(r, CombinedData(cloud, session));
  }

  /** Input order does not matter: two cloud rows given out of order come back in label order. */
  lemma SortsOutOfOrderPair(a: Record, b: Record)
    requires !LexLessEq(a.model, b.model)
    ensures CombinedData([a, b], []) == [b, a]
  {
    assert [a, b] + [] == [a, b];
    assert [a, b][1..] == [b];
    LexTotal(a.model, b.model);
  }
}
