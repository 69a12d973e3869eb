/** backend/services/arbitrageScanner.js: the fee table, the per-venue pair
    formatting, and `scanArbitrage`, which sorts the outcomes of the five
    price lookups into prices and errors, builds one fee-aware opportunity per
    ordered pair of distinct venues, ranks them by net spread and reports the
    best one and the top ten. The concurrent lookups are an input: the
    settlements in the order the lookups finished. */
module ArbitrageScanner {
  import opened Common

  datatype Venue = Binance | Kraken | Coinbase | Bitstamp | Kucoin

  /** `FEES[venue].taker`, as a fraction of the traded amount. */
  function TakerFee(v: Venue): (fee: real)
    ensures 0.0 < fee < 0.01
  {
    match v
    case Binance => 0.0010
    case Kraken => 0.0026
    case Coinbase => 0.0060
    case Bitstamp => 0.0050
    case Kucoin => 0.0010
  }

  datatype Pair = Pair(symbol: string, quote: string)

  /** `toPair`: both parts upper-cased. */
  function ToPair(symbol: string, quote: string): (p: Pair)
    ensures |p.symbol| == |symbol| && |p.quote| == |quote|
    ensures NoLowerLetters(p.symbol) && NoLowerLetters(p.quote)
  {
    UpperIsIdempotent(symbol);
    UpperIsIdempotent(quote);
    Pair(Upper(symbol), Upper(quote))
  }

  /** Normalising an already normalised pair changes nothing. */
  lemma ToPairIsIdempotent(symbol: string, quote: string)
    ensures ToPair(ToPair(symbol, quote).symbol, ToPair(symbol, quote).quote) == ToPair(symbol, quote)
  {
    UpperIsIdempotent(symbol);
    UpperIsIdempotent(quote);
  }

  /** The market name each venue's lookup asks for. Kraken's
      `quote === 'USD' ? 'USD' : quote` leaves the quote as it is. Given the
      upper-cased pair the scan passes, every venue but Bitstamp asks in upper
      case, and Bitstamp always asks in lower case. */
  function VenuePair(v: Venue, s: string, q: string): (r: string)
    ensures v != Bitstamp && NoLowerLetters(s) && NoLowerLetters(q) ==> NoLowerLetters(r)
    ensures v == Bitstamp ==> NoUpperLetters(r)
  {
    LowerIsIdempotent(s + q);
    match v
    case Binance => s + q
    case Kraken => (if s == "BTC" then "XBT" else s) + q
    case Coinbase => s + "-" + q
    case Bitstamp => Lower(s + q)
    case Kucoin => s + "-" + q
  }

  /** Kraken differs from Binance only by calling bitcoin XBT. */
  lemma KrakenRenamesBitcoin(s: string, q: string)
    ensures s == "BTC" ==> VenuePair(Kraken, s, q) == "XBT" + q
    ensures s != "BTC" ==> VenuePair(Kraken, s, q) == VenuePair(Binance, s, q)
  {
  }

  /** Bitstamp's name is Binance's, lower-cased. */
  lemma BitstampLowerCasesBinance(s: string, q: string)
    ensures VenuePair(Bitstamp, s, q) == Lower(VenuePair(Binance, s, q))
    ensures VenuePair(Bitstamp, s, q) == Lower(s) + Lower(q)
  {
    LowerOfConcat(s, q);
  }

  /** Coinbase and KuCoin both hyphenate: the dash sits right after the symbol. */
  lemma HyphenatedVenuesAgree(s: string, q: string)
    ensures VenuePair(Coinbase, s, q) == VenuePair(Kucoin, s, q)
    ensures |VenuePair(Coinbase, s, q)| == |s| + 1 + |q|
    ensures VenuePair(Coinbase, s, q)[|s|] == '-'
    ensures VenuePair(Coinbase, s, q)[..|s|] == s && VenuePair(Coinbase, s, q)[|s| + 1..] == q
  {
  }

  /** What one price lookup produced. */
  datatype VenueOutcome = Priced(price: real) | Failed(message: string)

  datatype Settlement = Settlement(venue: Venue, outcome: VenueOutcome)

  /** Every lookup settles once: no venue appears twice. */
  predicate DistinctVenues(settled: seq<Settlement>)
  {
    forall i, j :: 0 <= i < j < |settled| ==> settled[i].venue != settled[j].venue
  }

  /** `Object.keys(prices)`: the priced venues in settlement order. */
  function PricedVenues(settled: seq<Settlement>): seq<Venue>
    decreases |settled|
  {
    if settled == [] then []
    else
      var last := settled[|settled| - 1];
      PricedVenues(settled[..|settled| - 1]) + (if last.outcome.Priced? then [last.venue] else [])
  }

  function PriceMap(settled: seq<Settlement>): map<Venue, real>
    decreases |settled|
  {
    if settled == [] then map[]
    else
      var last := settled[|settled| - 1];
      var m := PriceMap(settled[..|settled| - 1]);
      if last.outcome.Priced? then m[last.venue := last.outcome.price] else m
  }

  /** `feeMap`: each priced venue's own taker fee, so every fee is positive. */
  function FeeMap(settled: seq<Settlement>): (r: map<Venue, real>)
    ensures forall v :: v in r ==> r[v] == TakerFee(v)
    ensures FeesPositive(r)
    decreases |settled|
  {
    if settled == [] then map[]
    else
      var last := settled[|settled| - 1];
      var m := FeeMap(settled[..|settled| - 1]);
      if last.outcome.Priced? then m[last.venue := TakerFee(last.venue)] else m
  }

  function ErrorMap(settled: seq<Settlement>): map<Venue, string>
    decreases |settled|
  {
    if settled == [] then map[]
    else
      var last := settled[|settled| - 1];
      var m := ErrorMap(settled[..|settled| - 1]);
      if last.outcome.Failed? then m[last.venue := last.outcome.message] else m
  }

  /** The settlement callbacks filling `prices`, `feeMap` and `errors` in place. */
  method Collect(settled: seq<Settlement>)
    returns (venues: seq<Venue>, prices: map<Venue, real>, fees: map<Venue, real>, errors: map<Venue, string>)
    ensures venues == PricedVenues(settled)
    ensures prices == PriceMap(settled) && fees == FeeMap(settled) && errors == ErrorMap(settled)
  {
    venues, prices, fees, errors := [], map[], map[], map[];
    for k := 0 to |settled|
      invariant venues == PricedVenues(settled[..k])
      invariant prices == PriceMap(settled[..k]) && fees == FeeMap(settled[..k])
      invariant errors == ErrorMap(settled[..k])
    {
      assert settled[..k + 1][..k] == settled[..k];
      match settled[k].outcome
      case Priced(price) =>
        prices := prices[settled[k].venue := price];
        fees := fees[settled[k].venue := TakerFee(settled[k].venue)];
        venues := venues + [settled[k].venue];
      case Failed(message) =>
        errors := errors[settled[k].venue := message];
    }
    assert settled[..|settled|] == settled;
  }

  /** Every venue lands in exactly one of `prices` (with its fee) or `errors`. */
  lemma {:induction false} SettlementsPartition(settled: seq<Settlement>)
    requires DistinctVenues(settled)
    ensures PriceMap(settled).Keys == FeeMap(settled).Keys
    ensures PriceMap(settled).Keys !! ErrorMap(settled).Keys
    ensures forall k :: 0 <= k < |settled| && settled[k].outcome.Priced? ==>
              settled[k].venue in PriceMap(settled)
              && PriceMap(settled)[settled[k].venue] == settled[k].outcome.price
              && FeeMap(settled)[settled[k].venue] == TakerFee(settled[k].venue)
    ensures forall k :: 0 <= k < |settled| && settled[k].outcome.Failed? ==>
              settled[k].venue in ErrorMap(settled)
              && ErrorMap(settled)[settled[k].venue] == settled[k].outcome.message
    ensures forall v :: v in PriceMap(settled) || v in ErrorMap(settled) ==>
              exists k :: 0 <= k < |settled| && settled[k].venue == v
    ensures forall k :: 0 <= k < |PricedVenues(settled)| ==> PricedVenues(settled)[k] in PriceMap(settled)
  {
    if settled != [] {
      var front := settled[..|settled| - 1];
      assert forall k :: 0 <= k < |front| ==> front[k] == settled[k];
      SettlementsPartition(front);
      var last := settled[|settled| - 1];
      assert forall k :: 0 <= k < |front| ==> front[k].venue != last.venue;
      var pv := PricedVenues(settled);
      forall k | 0 <= k < |pv|
        ensures pv[k] in PriceMap(settled)
      {
        if k < |PricedVenues(front)| {
          assert pv[k] == PricedVenues(front)[k];
        }
      }
    }
  }

  lemma {:induction false} PricedVenuesAreDistinct(settled: seq<Settlement>)
    requires DistinctVenues(settled)
    ensures forall a, b :: 0 <= a < b < |PricedVenues(settled)| ==> PricedVenues(settled)[a] != PricedVenues(settled)[b]
    ensures forall k :: 0 <= k < |PricedVenues(settled)| ==>
              exists j :: 0 <= j < |settled| && settled[j].venue == PricedVenues(settled)[k]
  {
    if settled != [] {
      var front := settled[..|settled| - 1];
      assert forall k :: 0 <= k < |front| ==> front[k] == settled[k];
      PricedVenuesAreDistinct(front);
      var pv := PricedVenues(settled);
      forall k | 0 <= k < |pv|
        ensures exists j :: 0 <= j < |settled| && settled[j].venue == pv[k]
      {
        if k < |PricedVenues(front)| {
          var j :| 0 <= j < |front| && front[j].venue == PricedVenues(front)[k];
          assert settled[j].venue == pv[k];
        } else {
          assert settled[|settled| - 1].venue == pv[k];
        }
      }
    } else {
      assert PricedVenues(settled) == [];
    }
  }

  datatype Path = Path(buy: Venue, sell: Venue)

  datatype Opportunity = Opportunity(path: Path, buyPrice: real, sellPrice: real,
                                     grossPct: real, estFeesPct: real, netPct: real)

  /** One opportunity, in percent, before `toFixed(4)`. */
  function MakeOpportunity(buyEx: Venue, sellEx: Venue, buy: real, sell: real, buyFee: real, sellFee: real): (o: Opportunity)
    requires buy != 0.0
    ensures o.path == Path(buyEx, sellEx) && o.buyPrice == buy && o.sellPrice == sell
    ensures o.grossPct == (sell - buy) / buy * 100.0
    ensures o.estFeesPct == (buyFee + sellFee) * 100.0
    ensures o.netPct == o.grossPct - o.estFeesPct
  {
    var grossPct := (sell - buy) / buy;
    var estFees := buyFee + sellFee;
    var netPct := grossPct - estFees;
    Opportunity(Path(buyEx, sellEx), buy, sell, grossPct * 100.0, estFees * 100.0, netPct * 100.0)
  }

  /** Every venue of the list has a price and a fee. */
  predicate Covered(venues: seq<Venue>, prices: map<Venue, real>, fees: map<Venue, real>)
  {
    forall k :: 0 <= k < |venues| ==> venues[k] in prices && venues[k] in fees
  }

  /** The venues at positions i and j are listed and have a price and a fee. */
  predicate Known(venues: seq<Venue>, prices: map<Venue, real>, fees: map<Venue, real>, i: nat, j: nat)
  {
    i < |venues| && j < |venues|
    && venues[i] in prices && venues[j] in prices && venues[i] in fees && venues[j] in fees
  }

  /** What the body of the nested loop pushes for the indices (i, j). */
  function Cell(venues: seq<Venue>, prices: map<Venue, real>, fees: map<Venue, real>, i: nat, j: nat): seq<Opportunity>
  {
    if !Known(venues, prices, fees, i, j) || i == j then []
    else
      var buyEx := venues[i];
      var sellEx := venues[j];
      if prices[buyEx] == 0.0 || prices[sellEx] == 0.0 then []
      else [MakeOpportunity(buyEx, sellEx, prices[buyEx], prices[sellEx], fees[buyEx], fees[sellEx])]
  }

  /** The loop body as a function of the indices. */
  function Pushes(venues: seq<Venue>, prices: map<Venue, real>, fees: map<Venue, real>): (nat, nat) -> seq<Opportunity>
  {
    (i: nat, j: nat) => Cell(venues, prices, fees, i, j)
  }

  /** What a nested loop whose body pushes `cell(i, j)` has pushed in row i
      after the columns 0..j-1. */
  function RowOf<T>(cell: (nat, nat) -> seq<T>, i: nat, j: nat): seq<T>
    decreases j
  {
    if j == 0 then [] else RowOf(cell, i, j - 1) + cell(i, j - 1)
  }

  /** What that loop has pushed after the rows 0..i-1 of n columns each. */
  function RowsOf<T>(cell: (nat, nat) -> seq<T>, n: nat, i: nat): seq<T>
    decreases i
  {
    if i == 0 then [] else RowsOf(cell, n, i - 1) + RowOf(cell, i - 1, n)
  }

  lemma {:induction false} RowOfMembers<T>(cell: (nat, nat) -> seq<T>, i: nat, j: nat, x: T)
    ensures x in RowOf(cell, i, j) <==> exists c :: 0 <= c < j && x in cell(i, c)
    decreases j
  {
    if j > 0 {
      RowOfMembers(cell, i, j - 1, x);
    }
  }

  lemma ConcatMember<T>(a: seq<T>, b: seq<T>, x: T)
    ensures x in a + b <==> x in a || x in b
  {
  }

  /** An element was pushed exactly when some cell of the rows pushed it. */
  lemma {:induction false} RowsOfMembers<T>(cell: (nat, nat) -> seq<T>, n: nat, i: nat, x: T)
    ensures x in RowsOf(cell, n, i) <==> exists r, c :: 0 <= r < i && 0 <= c < n && x in cell(r, c)
    decreases i
  {
    if i > 0 {
      var front := RowsOf(cell, n, i - 1);
      var last := RowOf(cell, i - 1, n);
      assert RowsOf(cell, n, i) == front + last;
      ConcatMember(front, last, x);
      RowsOfMembers(cell, n, i - 1, x);
      RowOfMembers(cell, i - 1, n, x);
      if x in front {
        var r, c :| 0 <= r < i - 1 && 0 <= c < n && x in cell(r, c);
        assert 0 <= r < i;
      } else if x in last {
        var c :| 0 <= c < n && x in cell(i - 1, c);
        assert 0 <= i - 1 < i;
      }
      if exists r, c :: 0 <= r < i && 0 <= c < n && x in cell(r, c) {
        var r, c :| 0 <= r < i && 0 <= c < n && x in cell(r, c);
        if r < i - 1 {
          assert x in front;
        } else {
          assert x in last;
        }
      }
    }
  }

  /** `opportunities` before the sort. */
  function Opportunities(venues: seq<Venue>, prices: map<Venue, real>, fees: map<Venue, real>): seq<Opportunity>
  {
    RowsOf(Pushes(venues, prices, fees), |venues|, |venues|)
  }

  /** The nested loop pushing onto `opportunities`. */
  method PairUp(venues: seq<Venue>, prices: map<Venue, real>, fees: map<Venue, real>) returns (opportunities: seq<Opportunity>)
    requires Covered(venues, prices, fees)
    ensures opportunities == Opportunities(venues, prices, fees)
  {
    opportunities := [];
    for i := 0 to |venues|
      invariant opportunities == RowsOf(Pushes(venues, prices, fees), |venues|, i)
    {
      for j := 0 to |venues|
        invariant opportunities == RowsOf(Pushes(venues, prices, fees), |venues|, i) + RowOf(Pushes(venues, prices, fees), i, j)
      {
        assert Pushes(venues, prices, fees)(i, j) == Cell(venues, prices, fees, i, j);
        if i == j {
          continue;
        }
        var buyEx := venues[i];
        var sellEx := venues[j];
        var buy := prices[buyEx];
        var sell := prices[sellEx];
        if buy == 0.0 || sell == 0.0 {
          continue;
        }
        var grossPct := (sell - buy) / buy;
        var estFees := fees[buyEx] + fees[sellEx];
        var netPct := grossPct - estFees;
        opportunities := opportunities + [Opportunity(Path(buyEx, sellEx), buy, sell,
                                                        grossPct * 100.0, estFees * 100.0, netPct * 100.0)];
      }
    }
  }

  /** An opportunity is in the list exactly when some cell (i, j) pushed it. */
  lemma OpportunityMembers(venues: seq<Venue>, prices: map<Venue, real>, fees: map<Venue, real>, o: Opportunity)
    ensures o in Opportunities(venues, prices, fees) <==>
            exists i, j :: 0 <= i < |venues| && 0 <= j < |venues| && o in Cell(venues, prices, fees, i, j)
  {
    var cell := Pushes(venues, prices, fees);
    RowsOfMembers(cell, |venues|, |venues|, o);
    forall i, j
      ensures cell(i, j) == Cell(venues, prices, fees, i, j)
    {
    }
  }

  /** Every ordered pair of distinct venues with non-zero prices is present. */
  lemma EveryTradablePairListed(venues: seq<Venue>, prices: map<Venue, real>, fees: map<Venue, real>, i: nat, j: nat)
    requires Covered(venues, prices, fees) && i < |venues| && j < |venues| && i != j
    requires prices[venues[i]] != 0.0 && prices[venues[j]] != 0.0
    ensures MakeOpportunity(venues[i], venues[j], prices[venues[i]], prices[venues[j]], fees[venues[i]], fees[venues[j]])
            in Opportunities(venues, prices, fees)
  {
    var o := MakeOpportunity(venues[i], venues[j], prices[venues[i]], prices[venues[j]], fees[venues[i]], fees[venues[j]]);
    assert o in Cell(venues, prices, fees, i, j);
    OpportunityMembers(venues, prices, fees, o);
  }

  /** Each listed opportunity pairs two different venues of the list, both with
      non-zero prices, and carries their prices and fees. */
  lemma ListedOpportunity(venues: seq<Venue>, prices: map<Venue, real>, fees: map<Venue, real>, o: Opportunity)
    requires forall a, b :: 0 <= a < b < |venues| ==> venues[a] != venues[b]
    requires o in Opportunities(venues, prices, fees)
    ensures o.path.buy != o.path.sell
    ensures o.path.buy in prices && o.path.sell in prices && o.path.buy in fees && o.path.sell in fees
    ensures o.buyPrice == prices[o.path.buy] != 0.0 && o.sellPrice == prices[o.path.sell] != 0.0
    ensures o == MakeOpportunity(o.path.buy, o.path.sell, o.buyPrice, o.sellPrice, fees[o.path.buy], fees[o.path.sell])
  {
    OpportunityMembers(venues, prices, fees, o);
    var i, j :| 0 <= i < |venues| && 0 <= j < |venues| && o in Cell(venues, prices, fees, i, j);
  }

  predicate FeesPositive(fees: map<Venue, real>)
  {
    forall v :: v in fees ==> fees[v] > 0.0
  }

  /** Positive taker fees make every net spread smaller than its gross spread,
      and the two directions between the same venues carry the same fees. */
  lemma FeesCostSomething(venues: seq<Venue>, prices: map<Venue, real>, fees: map<Venue, real>, o: Opportunity, back: Opportunity)
    requires FeesPositive(fees)
    requires forall a, b :: 0 <= a < b < |venues| ==> venues[a] != venues[b]
    requires o in Opportunities(venues, prices, fees) && back in Opportunities(venues, prices, fees)
    requires back.path == Path(o.path.sell, o.path.buy)
    ensures o.netPct < o.grossPct
    ensures back.estFeesPct == o.estFeesPct
  {
    ListedOpportunity(venues, prices, fees, o);
    ListedOpportunity(venues, prices, fees, back);
  }

  predicate AllTradable(venues: seq<Venue>, prices: map<Venue, real>)
  {
    forall k :: 0 <= k < |venues| ==> venues[k] in prices && prices[venues[k]] != 0.0
  }

  lemma {:induction false} RowLength(venues: seq<Venue>, prices: map<Venue, real>, fees: map<Venue, real>, i: nat, j: nat)
    requires Covered(venues, prices, fees) && AllTradable(venues, prices) && i < |venues| && j <= |venues|
    ensures |RowOf(Pushes(venues, prices, fees), i, j)| == if i < j then j - 1 else j
    decreases j
  {
    if j > 0 {
      RowLength(venues, prices, fees, i, j - 1);
      assert Pushes(venues, prices, fees)(i, j - 1) == Cell(venues, prices, fees, i, j - 1);
    }
  }

  lemma {:induction false} RowsLength(venues: seq<Venue>, prices: map<Venue, real>, fees: map<Venue, real>, i: nat)
    requires Covered(venues, prices, fees) && AllTradable(venues, prices) && 0 < |venues| && i <= |venues|
    ensures |RowsOf(Pushes(venues, prices, fees), |venues|, i)| == i * (|venues| - 1)
    decreases i
  {
    if i > 0 {
      RowsLength(venues, prices, fees, i - 1);
      RowLength(venues, prices, fees, i - 1, |venues|);
      assert (i - 1) * (|venues| - 1) + (|venues| - 1) == i * (|venues| - 1);
    }
  }

  /** With V venues all priced, there are V·(V−1) opportunities. */
  lemma OpportunityCount(venues: seq<Venue>, prices: map<Venue, real>, fees: map<Venue, real>)
    requires Covered(venues, prices, fees) && AllTradable(venues, prices)
    ensures |Opportunities(venues, prices, fees)| == |venues| * (|venues| - 1)
  {
    if |venues| > 0 {
      RowsLength(venues, prices, fees, |venues|);
    }
  }

  predicate SortedByNetDesc(s: seq<Opportunity>)
  {
    forall a, b :: 0 <= a < b < |s| ==> s[a].netPct >= s[b].netPct
  }

  /** The prefix 0..i is in order except possibly at position j. */
  predicate SortedAround(s: seq<Opportunity>, i: nat, j: nat)
    requires j <= i < |s|
  {
    forall x, y :: 0 <= x < y <= i && x != j && y != j ==> s[x].netPct >= s[y].netPct
  }

  /** The element at j beats everything it has moved past. */
  predicate BeatsFollowers(s: seq<Opportunity>, i: nat, j: nat)
    requires j <= i < |s|
  {
    forall y :: j < y <= i ==> s[j].netPct > s[y].netPct
  }

  function SwapDown(s: seq<Opportunity>, j: nat): (t: seq<Opportunity>)
    requires 0 < j < |s|
    ensures |t| == |s| && multiset(t) == multiset(s)
    ensures forall k :: j < k < |s| ==> t[k] == s[k]
  {
    s[j - 1 := s[j]][j := s[j - 1]]
  }

  lemma InsertStep(s: seq<Opportunity>, i: nat, j: nat)
    requires 0 < j <= i < |s|
    requires SortedAround(s, i, j) && BeatsFollowers(s, i, j)
    requires s[j - 1].netPct < s[j].netPct
    ensures SortedAround(SwapDown(s, j), i, j - 1) && BeatsFollowers(SwapDown(s, j), i, j - 1)
  {
  }

  lemma InsertDone(s: seq<Opportunity>, i: nat, j: nat)
    requires j <= i < |s|
    requires SortedAround(s, i, j) && BeatsFollowers(s, i, j)
    requires j == 0 || s[j - 1].netPct >= s[j].netPct
    ensures SortedByNetDesc(s[..i + 1])
  {
    forall x, y | 0 <= x < y <= i
      ensures s[x].netPct >= s[y].netPct
    {
      if y == j && x < j - 1 {
        assert s[x].netPct >= s[j - 1].netPct;
      }
    }
  }

  /** One pass of the insertion sort: moves a[i] down into the ordered
      prefix a[..i]. */
  method InsertDown(a: array<Opportunity>, i: nat)
    requires 0 < i < a.Length && SortedByNetDesc(a[..i])
    modifies a
    ensures SortedByNetDesc(a[..i + 1])
    ensures multiset(a[..]) == old(multiset(a[..]))
    ensures forall k :: i < k < a.Length ==> a[k] == old(a[k])
  {
    var j := i;
    assert SortedAround(a[..], i, j) by {
      assert forall x :: 0 <= x < i ==> a[..][x] == a[..i][x];
    }
    while j > 0 && a[j - 1].netPct < a[j].netPct
      invariant 0 <= j <= i
      invariant SortedAround(a[..], i, j) && BeatsFollowers(a[..], i, j)
      invariant multiset(a[..]) == old(multiset(a[..]))
      invariant forall k :: i < k < a.Length ==> a[k] == old(a[k])
    {
      ghost var before := a[..];
      InsertStep(before, i, j);
      a[j - 1], a[j] := a[j], a[j - 1];
      assert a[..] == SwapDown(before, j);
      assert forall k :: i < k < a.Length ==> a[k] == before[k];
      j := j - 1;
    }
    InsertDone(a[..], i, j);
  }

  /** `opportunities.sort((a, b) => b.netPct - a.netPct)`, as an insertion sort
      in place. */
  method SortByNetDesc(a: array<Opportunity>)
    modifies a
    ensures SortedByNetDesc(a[..])
    ensures multiset(a[..]) == old(multiset(a[..]))
  {
    if a.Length == 0 {
      return;
    }
    var i := 1;
    while i < a.Length
      invariant 1 <= i <= a.Length
      invariant SortedByNetDesc(a[..i])
      invariant multiset(a[..]) == old(multiset(a[..]))
    {
      InsertDown(a, i);
      i := i + 1;
    }
    assert a[..] == a[..a.Length];
  }

  datatype ScanResult = ScanResult(symbol: string, quote: string,
                                   prices: map<Venue, real>, fees: map<Venue, real>,
                                   best: Option<Opportunity>, top: seq<Opportunity>,
                                   errors: map<Venue, string>)

  const TopCount: nat := 10

  /** `scanArbitrage({symbol, quote})` over the given settlements. The sorted
      list, local to the source, is returned beside the result. */
  method ScanArbitrage(symbol: string, quote: string, settled: seq<Settlement>)
    returns (r: ScanResult, ranked: seq<Opportunity>)
    requires DistinctVenues(settled)
    ensures r.symbol == ToPair(symbol, quote).symbol && r.quote == ToPair(symbol, quote).quote
    ensures r.prices == PriceMap(settled) && r.fees == FeeMap(settled) && r.errors == ErrorMap(settled)
    ensures Covered(PricedVenues(settled), r.prices, r.fees) && FeesPositive(r.fees)
    ensures multiset(ranked) == multiset(Opportunities(PricedVenues(settled), r.prices, r.fees))
    ensures SortedByNetDesc(ranked)
    ensures r.best == if ranked == [] then None else Some(ranked[0])
    ensures r.top == ranked[..if |ranked| < TopCount then |ranked| else TopCount]
  {
    var pair := ToPair(symbol, quote);
    var venues, prices, fees, errors := Collect(settled);
    SettlementsPartition(settled);
    var opportunities := PairUp(venues, prices, fees);
    var a := new Opportunity[|opportunities|](k requires 0 <= k < |opportunities| => opportunities[k]);
    assert a[..] == opportunities;
    SortByNetDesc(a);
    ranked := a[..];
    var best := if |ranked| > 0 then Some(ranked[0]) else None;
    var top := ranked[..if |ranked| < TopCount then |ranked| else TopCount];
    r := ScanResult(pair.symbol, pair.quote, prices, fees, best, top, errors);
  }

  /** `best` beats or ties every opportunity of the scan. */
  lemma BestIsMaximal(ranked: seq<Opportunity>, opportunities: seq<Opportunity>, o: Opportunity)
    requires SortedByNetDesc(ranked) && multiset(ranked) == multiset(opportunities)
    requires o in opportunities
    ensures ranked != [] && o.netPct <= ranked[0].netPct
  {
    assert o in multiset(opportunities);
    assert o in ranked;
    var k :| 0 <= k < |ranked| && ranked[k] == o;
  }

  lemma ProductOfLargeIsLarge(a: int, b: int)
    requires a >= 2 && b >= 1
    ensures a * b >= 2
  {
  }

  /** With every listed venue priced, `best` is absent exactly when fewer than
      two venues answered. */
  lemma BestAbsentIffFewerThanTwoVenues(venues: seq<Venue>, prices: map<Venue, real>, fees: map<Venue, real>, ranked: seq<Opportunity>)
    requires Covered(venues, prices, fees) && AllTradable(venues, prices)
    requires multiset(ranked) == multiset(Opportunities(venues, prices, fees))
    ensures ranked == [] <==> |venues| < 2
  {
    OpportunityCount(venues, prices, fees);
    var n := |venues|;
    assert |ranked| == |multiset(ranked)|;
    assert |Opportunities(venues, prices, fees)| == |multiset(Opportunities(venues, prices, fees))|;
    assert |ranked| == n * (n - 1);
    if n >= 2 {
      ProductOfLargeIsLarge(n, n - 1);
    } else {
      assert n == 0 || n == 1;
    }
  }
}
