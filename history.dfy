/** `GET /api/history` of backend/server.js: one page of archived backtests,
    newest first, cut out with JavaScript's `Array.prototype.slice` and with
    the per-candle rows stripped unless the caller asks for them. The archive
    listing and parsing are inputs: `docs` is the archive in the order the
    handler sorts it. */
module History {
  import opened Common
  import Simulation

  /** One archived backtest; `trades` is `None` once stripped. */
  datatype ArchivedDoc = ArchivedDoc(summary: Simulation.BacktestSummary, trades: Option<seq<Simulation.BacktestTrade>>)

  const DefaultLimit: int := 20
  const DefaultOffset: int := 0
  const DefaultIncludeTrades: string := "false"

  /** How `slice` reads one of its indices against a length: negative counts
      from the end, and both ends are clamped to 0..len. */
  function ClampIndex(k: int, len: nat): (r: nat)
    ensures r <= len
    ensures k >= 0 ==> r == if k < len then k else len
    ensures k < 0 ==> r == if len + k > 0 then len + k else 0
  {
    if k < 0 then (if len + k > 0 then len + k else 0)
    else if k < len then k else len
  }

  /** `s.slice(start, end)` */
  function Slice<T>(s: seq<T>, start: int, end: int): (r: seq<T>)
    ensures |r| <= |s|
    ensures ClampIndex(end, |s|) <= ClampIndex(start, |s|) ==> r == []
    ensures ClampIndex(start, |s|) < ClampIndex(end, |s|) ==>
              |r| == ClampIndex(end, |s|) - ClampIndex(start, |s|)
              && forall k :: 0 <= k < |r| ==> r[k] == s[ClampIndex(start, |s|) + k]
  {
    var a := ClampIndex(start, |s|);
    var b := ClampIndex(end, |s|);
    if b <= a then [] else s[a..b]
  }

  /** `String(includeTrades).toLowerCase() === 'true'` */
  predicate WantsTrades(includeTrades: string)
  {
    Lower(includeTrades) == "true"
  }

  /** The destructuring `({ trades, ...rest }) => rest`. */
  function Strip(d: ArchivedDoc): (r: ArchivedDoc)
    ensures r.summary == d.summary && r.trades.None?
  {
    ArchivedDoc(d.summary, None)
  }

  function Present(d: ArchivedDoc, wantTrades: bool): (r: ArchivedDoc)
    ensures r.summary == d.summary
    ensures r.trades == if wantTrades then d.trades else None
  {
    if wantTrades then d else Strip(d)
  }

  datatype HistoryPage = HistoryPage(count: nat, limit: int, offset: int, results: seq<ArchivedDoc>)

  function OrDefault<T>(given: Option<T>, default: T): T
  {
    if given.Some? then given.value else default
  }

  /** A non-negative limit caps the size of the slice. */
  lemma SliceWithinLimit<T>(s: seq<T>, offset: int, limit: int)
    ensures limit >= 0 ==> |Slice(s, offset, offset + limit)| <= limit
  {
  }

  /** The handler's response for the given (possibly absent) query values:
      the archive size, the limit and offset it used, and the documents from
      the offset on, at most `limit` of them, in archive order; each keeps its
      summary and keeps its rows only when they were asked for. */
  function Page(docs: seq<ArchivedDoc>, limit: Option<int>, offset: Option<int>, includeTrades: Option<string>): (p: HistoryPage)
    ensures p.count == |docs|
    ensures p.limit == OrDefault(limit, DefaultLimit) && p.offset == OrDefault(offset, DefaultOffset)
    ensures |p.results| <= |docs| && (p.limit >= 0 ==> |p.results| <= p.limit)
    ensures var a, b := ClampIndex(p.offset, |docs|), ClampIndex(p.offset + p.limit, |docs|);
            |p.results| == if b <= a then 0 else b - a
    ensures forall k :: 0 <= k < |p.results| ==>
              ClampIndex(p.offset, |docs|) + k < |docs|
              && p.results[k].summary == docs[ClampIndex(p.offset, |docs|) + k].summary
              && p.results[k].trades ==
                   if WantsTrades(OrDefault(includeTrades, DefaultIncludeTrades))
                   then docs[ClampIndex(p.offset, |docs|) + k].trades else None
  {
    var l := OrDefault(limit, DefaultLimit);
    var o := OrDefault(offset, DefaultOffset);
    var wantTrades := WantsTrades(OrDefault(includeTrades, DefaultIncludeTrades));
    var sliced := Slice(docs, o, o + l);
    SliceWithinLimit(docs, o, l);
    HistoryPage(|docs|, l, o, seq(|sliced|, k requires 0 <= k < |sliced| => Present(sliced[k], wantTrades)))
  }

  /** For a non-negative offset and limit the page is the documents
      offset..offset+limit−1 that exist. */
  lemma WindowOfNonNegativeQuery<T>(s: seq<T>, offset: int, limit: int)
    requires offset >= 0 && limit >= 0
    ensures offset >= |s| ==> Slice(s, offset, offset + limit) == []
    ensures offset < |s| <= offset + limit ==> Slice(s, offset, offset + limit) == s[offset..]
    ensures offset + limit < |s| ==> Slice(s, offset, offset + limit) == s[offset..offset + limit]
  {
  }

  /** A window lying wholly before the end counts back from the end. */
  lemma NegativeWindowCountsFromEnd<T>(s: seq<T>, offset: int, limit: int)
    requires limit >= 0 && offset + limit < 0 && |s| + offset >= 0
    ensures Slice(s, offset, offset + limit) == s[|s| + offset..|s| + offset + limit]
  {
  }

  /** A negative offset whose end index is not negative makes the end land
      before the start unless the limit reaches the list's length: such pages
      are empty. */
  lemma NegativeOffsetShortLimitIsEmpty<T>(s: seq<T>, offset: int, limit: int)
    requires offset < 0 <= offset + limit && limit < |s|
    ensures Slice(s, offset, offset + limit) == []
  {
  }

  /** Two consecutive pages are the page of their combined limit. */
  lemma PagesTile<T>(s: seq<T>, offset: int, first: int, second: int)
    requires offset >= 0 && first >= 0 && second >= 0
    ensures Slice(s, offset, offset + first) + Slice(s, offset + first, offset + first + second)
            == Slice(s, offset, offset + first + second)
  {
    var a := ClampIndex(offset, |s|);
    var b := ClampIndex(offset + first, |s|);
    var c := ClampIndex(offset + first + second, |s|);
    if a < b && b < c {
      assert s[a..b] + s[b..c] == s[a..c];
    }
  }

  /** Without a query the page holds the twenty newest backtests, stripped of
      their rows. */
  lemma DefaultPageIsNewestTwenty(docs: seq<ArchivedDoc>)
    ensures |Page(docs, None, None, None).results| == if |docs| < 20 then |docs| else 20
    ensures forall k :: 0 <= k < |Page(docs, None, None, None).results| ==>
              Page(docs, None, None, None).results[k] == Strip(docs[k])
  {
    assert !WantsTrades(DefaultIncludeTrades) by {
      assert Lower(DefaultIncludeTrades)[0] == 'f';
    }
  }

  /** The rows are kept for every spelling of "true" and only for it. */
  lemma TrueInAnyCase(includeTrades: string)
    ensures WantsTrades(includeTrades) <==>
              |includeTrades| == 4
              && LowerChar(includeTrades[0]) == 't' && LowerChar(includeTrades[1]) == 'r'
              && LowerChar(includeTrades[2]) == 'u' && LowerChar(includeTrades[3]) == 'e'
  {
    if |includeTrades| == 4
       && LowerChar(includeTrades[0]) == 't' && LowerChar(includeTrades[1]) == 'r'
       && LowerChar(includeTrades[2]) == 'u' && LowerChar(includeTrades[3]) == 'e' {
      assert Lower(includeTrades) == "true";
    }
  }

  lemma RowsKeptOnlyForTrue(docs: seq<ArchivedDoc>, limit: Option<int>, offset: Option<int>, includeTrades: string)
    requires !WantsTrades(includeTrades)
    ensures forall k :: 0 <= k < |Page(docs, limit, offset, Some(includeTrades)).results| ==>
              Page(docs, limit, offset, Some(includeTrades)).results[k].trades.None?
  {
  }
}
