/**
  `fetchAllCloudData`'s paging loop: windows of 1000 rows, requested one after
  another from offset 0, until a page is empty or short. The store is an
  in-memory sequence of rows plus the offsets at which a page request fails.
 */
module CloudLoader {
  import opened Catalog

  /** Rows per request: `.range(from, from + 999)` asks for 1000 rows. */
  const PageSize: nat := 1000

  /** The `cdp_models` table, already in ascending `model` order, and the offsets whose request errors. */
  datatype Backend = Backend(rows: seq<Row>, failingOffsets: set<nat>)

  /** `{ data, error }` of one request. */
  datatype PageReply = PageError | PageData(data: seq<Row>)

  /** The outcome of a whole load: every row, or a failure that keeps nothing. */
  datatype LoadResult = Loaded(records: seq<Record>) | LoadFailed

  /**
    `.range(from, to)`: both bounds inclusive; a window reaching past the end
    returns only the rows that exist.
   */
  function RangeQuery(b: Backend, from: nat, to: nat): (r: PageReply)
    ensures r.PageError? <==> from in b.failingOffsets
    ensures r.PageData? && from <= to && from <= |b.rows| ==>
      && |r.data| <= to + 1 - from
      && from + |r.data| <= |b.rows|
      && r.data == b.rows[from..from + |r.data|]
      && (|r.data| < to + 1 - from ==> from + |r.data| == |b.rows|)
  {
    if from in b.failingOffsets then PageError
    else if to < from || from >= |b.rows| then PageData([])
    else PageData(b.rows[from..if to + 1 < |b.rows| then to + 1 else |b.rows|])
  }

  /** The page request number `k` (at offset `k * 1000`) fails. */
  predicate FailsAtPage(b: Backend, k: nat) {
    k * PageSize in b.failingOffsets
  }

  /** How many requests a store of `n` rows needs when none fails: the last one is short or empty. */
  function RequestCount(n: nat): nat {
    n / PageSize + 1
  }

  /** The request at offset `k * 1000` is the last one exactly when it sees fewer than 1000 rows. */
  lemma LastRequest(k: nat, n: nat)
    requires k * PageSize <= n < k * PageSize + PageSize
    ensures RequestCount(n) == k + 1
  {
  }

  /** While the window at offset `k * 1000` still starts inside the store, more requests are due. */
  lemma NotLastRequest(k: nat, n: nat)
    requires k * PageSize <= n
    ensures k < RequestCount(n)
  {
  }

  /** The offsets 0, 1000, 2000, … of the first `k` requests. */
  function Offsets(k: nat): (r: seq<nat>)
    ensures |r| == k
    ensures forall i :: 0 <= i < k ==> r[i] == i * PageSize
  {
    seq(k, i requires 0 <= i => i * PageSize)
  }

  /**
    The paging loop. On success the records are every row, in store order,
    tagged as cloud rows, fetched with exactly `n / 1000 + 1` requests at
    offsets 0, 1000, …; on failure the loop stopped at the first failing
    request and nothing is returned.
   */
  method FetchAllPages(b: Backend) returns (r: LoadResult, requests: seq<nat>)
    ensures r.Loaded? <==> forall k :: 0 <= k < RequestCount(|b.rows|) ==> !FailsAtPage(b, k)
    ensures r.Loaded? ==>
      && r.records == TagCloud(b.rows)
      && requests == Offsets(RequestCount(|b.rows|))
    ensures r.LoadFailed? ==> exists k ::
      && 0 <= k < RequestCount(|b.rows|)
      && FailsAtPage(b, k)
      && (forall j :: 0 <= j < k ==> !FailsAtPage(b, j))
      && requests == Offsets(k + 1)
  {
    var allResults: seq<Record> := [];
    var from: nat := 0;
    var hasMore := true;
    requests := [];
    while hasMore
      invariant hasMore ==> from == |requests| * PageSize
      invariant requests == Offsets(|requests|)
      invariant forall j :: 0 <= j < |requests| ==> !FailsAtPage(b, j)
      invariant hasMore ==> from <= |b.rows| && allResults == TagCloud(b.rows[..from])
      invariant !hasMore ==> allResults == TagCloud(b.rows) && |requests| == RequestCount(|b.rows|)
      decreases if hasMore then |b.rows| - from + 1 else 0
    {
      var k := |requests|;
      NotLastRequest(k, |b.rows|);
      var reply := RangeQuery(b, from, from + PageSize - 1);
      requests := requests + [from];
      assert requests == Offsets(k + 1);
      match reply
      case PageError =>
        assert FailsAtPage(b, k);
        return LoadFailed, requests;
      case PageData(data) =>
        var upTo := from + |data|;
        assert b.rows[..upTo] == b.rows[..from] + data;
        TagCloudConcat(b.rows[..from], data);
        if |data| > 0 {
          allResults := allResults + TagCloud(data);
          if |data| < PageSize {
            assert b.rows[..upTo] == b.rows;
            LastRequest(k, |b.rows|);
            hasMore := false;
          } else {
            from := from + PageSize;
          }
        } else {
          assert b.rows[..from] == b.rows;
          LastRequest(k, |b.rows|);
          hasMore := false;
        }
    }
    r := Loaded(allResults);
    forall k | 0 <= k < RequestCount(|b.rows|)
      ensures !FailsAtPage(b, k)
    {
    }
  }

  /** A store of 2500 rows takes three requests; one of exactly 1000 rows takes two. */
  lemma RequestCountExamples()
    ensures RequestCount(2500) == 3
    ensures RequestCount(1000) == 2
    ensures RequestCount(0) == 1
  {
  }
}
