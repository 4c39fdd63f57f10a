/**
 Usage cost and its split over token classes (internal/aigateway: cost.go, usage_metrics_split.go, recorder.go and the
 emit of service.go), over exact reals: the cost of a sample is decided once, and the counters of the four classes
 add up to it.
 */
module CostSplit {
  import opened Common

  /** Catalog prices, in USD per million tokens. */
  datatype ModelCost = ModelCost(input: real, output: real, cacheRead: real, cacheWrite: real)

  datatype Usage = Usage(prompt: int, cacheRead: int, cacheWrite: int, completion: int, reasoning: int, costUSD: real)

  datatype Row = Row(usage: Usage, totalTokens: int, costUSD: real)

  const PER_MILLION := 1000000.0

  function Priced(tokens: int, price: real): real {
    tokens as real * price
  }

  function UsageCostFromCatalog(u: Usage, cost: Option<ModelCost>): Option<real> {
    match cost
    case None => None
    case Some(c) =>
      Some((Priced(u.prompt, c.input) + Priced(u.cacheRead, c.cacheRead) + Priced(u.cacheWrite, c.cacheWrite)
            + Priced(u.completion, c.output)) / PER_MILLION)
  }

  /** The token classes: prompt, cache read, cache write, completion. Reasoning is part of completion. */
  function BucketTokens(u: Usage): (t: seq<int>)
    ensures |t| == 4
  {
    [u.prompt, u.cacheRead, u.cacheWrite, u.completion]
  }

  function BucketPrices(cost: Option<ModelCost>): (p: seq<real>)
    ensures |p| == 4
  {
    match cost
    case Some(c) =>
      [c.input / PER_MILLION, c.cacheRead / PER_MILLION, c.cacheWrite / PER_MILLION, c.output / PER_MILLION]
    case None => [1.0, 0.1, 1.25, 4.0]
  }

  // ---------------------------------------------------------------- sums

  function Sum(xs: seq<real>): real {
    if xs == [] then 0.0 else Sum(xs[..|xs| - 1]) + xs[|xs| - 1]
  }

  function Total(xs: seq<int>): int {
    if xs == [] then 0 else Total(xs[..|xs| - 1]) + xs[|xs| - 1]
  }

  function Weights(tokens: seq<int>, prices: seq<real>): (ws: seq<real>)
    requires |tokens| == |prices|
    ensures |ws| == |tokens|
  {
    seq(|tokens|, i requires 0 <= i < |tokens| => Priced(tokens[i], prices[i]))
  }

  lemma {:induction false} SumUpdate(xs: seq<real>, i: nat, x: real)
    requires i < |xs|
    ensures Sum(xs[i := x]) == Sum(xs) - xs[i] + x
  {
    var n := |xs| - 1;
    if i < n {
      assert xs[i := x][..n] == xs[..n][i := x];
      SumUpdate(xs[..n], i, x);
    } else {
      assert xs[i := x][..n] == xs[..n];
    }
  }

  lemma {:induction false} SumScaled(xs: seq<real>, ws: seq<real>, a: real, b: real)
    requires |xs| == |ws| && forall i :: 0 <= i < |xs| ==> xs[i] * b == a * ws[i]
    ensures Sum(xs) * b == a * Sum(ws)
  {
    if xs != [] {
      var n := |xs| - 1;
      SumScaled(xs[..n], ws[..n], a, b);
      assert Sum(xs) * b == Sum(xs[..n]) * b + xs[n] * b;
      assert a * Sum(ws) == a * Sum(ws[..n]) + a * ws[n];
    }
  }

  lemma {:induction false} SumZeros(xs: seq<real>)
    requires forall i :: 0 <= i < |xs| ==> xs[i] == 0.0
    ensures Sum(xs) == 0.0
  {
    if xs != [] {
      SumZeros(xs[..|xs| - 1]);
    }
  }

  lemma {:induction false} SumNonNegative(xs: seq<real>)
    requires forall i :: 0 <= i < |xs| ==> xs[i] >= 0.0
    ensures Sum(xs) >= 0.0
    ensures Sum(xs) == 0.0 ==> forall i :: 0 <= i < |xs| ==> xs[i] == 0.0
  {
    if xs != [] {
      SumNonNegative(xs[..|xs| - 1]);
    }
  }

  // ---------------------------------------------------------------- the split

  /** One share per bucket, the shares add up to the total, and each stands to the total as its weight to all weights.
      Without any weight the first bucket takes the total, so that no cost is dropped. */
  predicate IsSplit(shares: seq<real>, total: real, weights: seq<real>) {
    && |shares| == |weights|
    && (shares != [] ==> Sum(shares) == total)
    && (Sum(weights) != 0.0 ==> Proportional(shares, total, weights, Sum(weights)))
    && (Sum(weights) == 0.0 ==> forall i :: 0 <= i < |shares| ==> shares[i] == if i == 0 then total else 0.0)
  }

  predicate Proportional(shares: seq<real>, total: real, weights: seq<real>, wsum: real)
    requires |shares| == |weights|
  {
    forall i :: 0 <= i < |shares| ==> InProportion(shares[i], total, weights[i], wsum)
  }

  predicate InProportion(share: real, total: real, weight: real, wsum: real) {
    share * wsum == total * weight
  }

  function Share(total: real, weight: real, wsum: real): real
    requires wsum != 0.0
  {
    total * weight / wsum
  }

  lemma ShareInProportion(total: real, w: real, wsum: real)
    requires wsum != 0.0
    ensures InProportion(Share(total, w, wsum), total, w, wsum)
  {
  }

  method Weigh(tokens: seq<int>, prices: seq<real>) returns (weights: array<real>, wsum: real)
    requires |tokens| == |prices|
    ensures weights[..] == Weights(tokens, prices) && wsum == Sum(Weights(tokens, prices)) && fresh(weights)
  {
    var n := |tokens|;
    weights := new real[n](_ => 0.0);
    wsum := 0.0;
    ghost var ws := Weights(tokens, prices);
    for i := 0 to n
      invariant forall j :: 0 <= j < i ==> weights[j] == ws[j]
      invariant wsum == Sum(ws[..i])
    {
      var w := Priced(tokens[i], prices[i]);
      assert ws[..i + 1][..i] == ws[..i] && ws[i] == w;
      weights[i] := w;
      wsum := wsum + w;
    }
    assert ws[..n] == ws;
  }

  method SplitCostByWeight(total: real, tokens: seq<int>, prices: seq<real>) returns (out: seq<real>)
    requires |tokens| == |prices|
    ensures IsSplit(out, total, Weights(tokens, prices))
  {
    hide InProportion, Share, Sum, Weights;
    var n := |tokens|;
    var shares := new real[n](_ => 0.0);
    ghost var ws := Weights(tokens, prices);
    SumZeros(shares[..]);
    if n == 0 {
      NothingToSplit(total, ws);
      return [];
    }
    var weights, wsum := Weigh(tokens, prices);
    if wsum == 0.0 || total == 0.0 {
      if total != 0.0 {
        SumUpdate(shares[..], 0, total);
        ghost var before := shares[..];
        shares[0] := total;
        assert shares[..] == before[0 := total];
      }
      ZerosSplit(shares[..], total, ws);
      return shares[..];
    }
    var maxIdx := 0;
    for i := 1 to n
      invariant 0 <= maxIdx < n
    {
      if weights[i] > weights[maxIdx] {
        maxIdx := i;
      }
    }
    var alloc := 0.0;
    for i := 0 to n
      invariant weights[..] == ws
      invariant forall j :: i <= j < n ==> shares[j] == 0.0
      invariant shares[maxIdx] == 0.0
      invariant forall j :: 0 <= j < i && j != maxIdx ==> InProportion(shares[j], total, ws[j], wsum)
      invariant alloc == Sum(shares[..])
    {
      if i == maxIdx {
        continue;
      }
      ghost var before := shares[..];
      assert weights[i] == ws[i];
      shares[i] := Share(total, weights[i], wsum);
      ShareInProportion(total, ws[i], wsum);
      SumUpdate(before, i, shares[i]);
      assert shares[..] == before[i := shares[i]];
      alloc := alloc + shares[i];
    }
    ghost var before := shares[..];
    SumUpdate(before, maxIdx, total - alloc);
    shares[maxIdx] := total - alloc;
    assert shares[..] == before[maxIdx := total - alloc];
    out := shares[..];
    ResidualIsShare(out, ws, total, maxIdx);
  }

  lemma NothingToSplit(total: real, ws: seq<real>)
    requires ws == []
    ensures IsSplit([], total, ws)
  {
  }

  lemma ZerosSplit(shares: seq<real>, total: real, ws: seq<real>)
    requires |shares| == |ws| > 0 && Sum(shares) == total && (Sum(ws) == 0.0 || total == 0.0)
    requires forall i :: 0 <= i < |shares| ==> shares[i] == if i == 0 then total else 0.0
    ensures IsSplit(shares, total, ws)
  {
    hide Sum;
  }

  lemma Residue(total: real, s: real, wsum: real, w: real)
    requires (total - s) * wsum == total * (wsum - w)
    ensures InProportion(s, total, w, wsum)
  {
  }

  /** The bucket that takes the residual gets its exact share, when nothing is rounded. */
  lemma ResidualIsShare(shares: seq<real>, ws: seq<real>, total: real, m: nat)
    requires |shares| == |ws| && m < |ws| && Sum(shares) == total
    requires forall j :: 0 <= j < |ws| && j != m ==> InProportion(shares[j], total, ws[j], Sum(ws))
    ensures InProportion(shares[m], total, ws[m], Sum(ws))
  {
    hide Sum;
    var zs, vs := shares[m := 0.0], ws[m := 0.0];
    forall j | 0 <= j < |zs| ensures zs[j] * Sum(ws) == total * vs[j] {
      assert j != m ==> InProportion(shares[j], total, ws[j], Sum(ws));
    }
    SumScaled(zs, vs, total, Sum(ws));
    SumUpdate(shares, m, 0.0);
    SumUpdate(ws, m, 0.0);
    Residue(total, shares[m], Sum(ws), ws[m]);
  }

  /** There is only one way to split: the three promises determine every share. */
  lemma SplitIsUnique(a: seq<real>, b: seq<real>, total: real, ws: seq<real>)
    requires IsSplit(a, total, ws) && IsSplit(b, total, ws)
    ensures a == b
  {
    hide Sum;
    forall i | 0 <= i < |a| ensures a[i] == b[i] {
      if Sum(ws) != 0.0 {
        assert InProportion(a[i], total, ws[i], Sum(ws)) && InProportion(b[i], total, ws[i], Sum(ws));
        SameShare(a[i], b[i], Sum(ws));
      }
    }
  }

  lemma SameShare(x: real, y: real, wsum: real)
    requires wsum != 0.0 && x * wsum == y * wsum
    ensures x == y
  {
  }

  // ---------------------------------------------------------------- what a share is

  predicate NonNegative(xs: seq<real>) {
    forall i :: 0 <= i < |xs| ==> xs[i] >= 0.0
  }

  lemma ShareNonNegative(s: real, total: real, w: real, wsum: real)
    requires total >= 0.0 && w >= 0.0 && wsum > 0.0 && InProportion(s, total, w, wsum)
    ensures s >= 0.0 && (w == 0.0 ==> s == 0.0)
  {
  }

  /** Of non-negative inputs no share is negative, and a bucket without weight gets none unless no bucket has any. */
  lemma SharesNonNegative(shares: seq<real>, total: real, ws: seq<real>)
    requires IsSplit(shares, total, ws) && total >= 0.0 && NonNegative(ws)
    ensures NonNegative(shares)
    ensures Sum(ws) != 0.0 ==> forall i :: 0 <= i < |ws| && ws[i] == 0.0 ==> shares[i] == 0.0
  {
    SumNonNegative(ws);
    hide Sum;
    forall i | 0 <= i < |shares| && Sum(ws) != 0.0 ensures shares[i] >= 0.0 && (ws[i] == 0.0 ==> shares[i] == 0.0) {
      ShareNonNegative(shares[i], total, ws[i], Sum(ws));
    }
  }

  predicate UsageOk(u: Usage) {
    u.prompt >= 0 && u.cacheRead >= 0 && u.cacheWrite >= 0 && u.completion >= 0
  }

  predicate PricesOk(c: ModelCost) {
    c.input >= 0.0 && c.output >= 0.0 && c.cacheRead >= 0.0 && c.cacheWrite >= 0.0
  }

  lemma SumOfFour(a: real, b: real, c: real, d: real)
    ensures Sum([a, b, c, d]) == a + b + c + d
  {
    assert [a, b, c, d] == [] + [a] + [b] + [c] + [d];
    SumSnoc([], a);
    SumSnoc([] + [a], b);
    SumSnoc([] + [a] + [b], c);
    SumSnoc([] + [a] + [b] + [c], d);
  }

  lemma SumSnoc(xs: seq<real>, x: real)
    ensures Sum(xs + [x]) == Sum(xs) + x
  {
    assert (xs + [x])[..|xs|] == xs;
  }

  lemma PerMillion(a: real, b: real, c: real, d: real)
    ensures (a + b + c + d) / PER_MILLION == a / PER_MILLION + b / PER_MILLION + c / PER_MILLION + d / PER_MILLION
  {
  }

  lemma ScaledPrice(n: int, price: real)
    ensures Priced(n, price / PER_MILLION) == Priced(n, price) / PER_MILLION
  {
  }

  /** The catalog cost of a sample is the sum of what its buckets weigh at catalog prices. */
  lemma CatalogCostIsWeight(u: Usage, c: ModelCost)
    ensures UsageCostFromCatalog(u, Some(c)) == Some(Sum(Weights(BucketTokens(u), BucketPrices(Some(c)))))
  {
    ScaledPrice(u.prompt, c.input);
    ScaledPrice(u.cacheRead, c.cacheRead);
    ScaledPrice(u.cacheWrite, c.cacheWrite);
    ScaledPrice(u.completion, c.output);
    hide Priced;
    var (a, b) := (Priced(u.prompt, c.input), Priced(u.cacheRead, c.cacheRead));
    var (d, e) := (Priced(u.cacheWrite, c.cacheWrite), Priced(u.completion, c.output));
    PerMillion(a, b, d, e);
    var (p, q, r, s) := (a / PER_MILLION, b / PER_MILLION, d / PER_MILLION, e / PER_MILLION);
    SumOfFour(p, q, r, s);
    assert Weights(BucketTokens(u), BucketPrices(Some(c))) == [p, q, r, s];
  }

  /** When the total is the catalog cost, the split is direct pricing: each class gets its own tokens at its own
      price. */
  lemma CatalogSplitIsDirectPricing(u: Usage, c: ModelCost, shares: seq<real>)
    requires UsageOk(u) && PricesOk(c)
    requires IsSplit(shares, UsageCostFromCatalog(u, Some(c)).value, Weights(BucketTokens(u), BucketPrices(Some(c))))
    ensures shares == Weights(BucketTokens(u), BucketPrices(Some(c)))
  {
    var ws := Weights(BucketTokens(u), BucketPrices(Some(c)));
    CatalogCostIsWeight(u, c);
    WeightsNonNegative(u, Some(c));
    SumNonNegative(ws);
    hide Sum, Weights;
    forall i | 0 <= i < |ws| && Sum(ws) != 0.0 ensures InProportion(ws[i], Sum(ws), ws[i], Sum(ws)) {
    }
    SplitIsUnique(shares, ws, Sum(ws), ws);
  }

  lemma ScaleNonNegative(n: int, price: real)
    requires n >= 0 && price >= 0.0
    ensures Priced(n, price) >= 0.0
  {
  }

  lemma WeightsNonNegative(u: Usage, c: Option<ModelCost>)
    requires UsageOk(u) && (c.Some? ==> PricesOk(c.value))
    ensures NonNegative(Weights(BucketTokens(u), BucketPrices(c)))
  {
    var (ts, ps) := (BucketTokens(u), BucketPrices(c));
    forall i | 0 <= i < 4 ensures Weights(ts, ps)[i] >= 0.0 {
      ScaleNonNegative(ts[i], ps[i]);
    }
  }

  // ---------------------------------------------------------------- recording

  /** The catalog is the authority on cost wherever it has a price, a price of zero included; else the adapter is. */
  function CostOf(u: Usage, catalog: Option<ModelCost>): real {
    match UsageCostFromCatalog(u, catalog)
    case Some(usd) => usd
    case None => u.costUSD
  }

  function Recorded(u: Usage, catalog: Option<ModelCost>): Row {
    Row(u.(costUSD := CostOf(u, catalog)), u.prompt + u.cacheRead + u.cacheWrite + u.completion, CostOf(u, catalog))
  }

  /** What the counters of the four classes have counted, and the rows of the usage table. */
  class UsageRecorder {
    var rows: seq<Row>
    var tokens: seq<int>
    var costs: seq<real>

    ghost predicate Valid()
      reads this
    {
      |tokens| == 4 && |costs| == 4
    }

    constructor ()
      ensures Valid() && rows == [] && tokens == [0, 0, 0, 0] && costs == [0.0, 0.0, 0.0, 0.0]
    {
      rows, tokens, costs := [], [0, 0, 0, 0], [0.0, 0.0, 0.0, 0.0];
    }

    /** Counters only grow: a class without tokens, or without a positive share, is not counted. */
    method Emit(row: Row, catalog: Option<ModelCost>) returns (ghost shares: seq<real>)
      requires Valid()
      modifies this
      ensures Valid() && rows == old(rows)
      ensures IsSplit(shares, row.costUSD, Weights(BucketTokens(row.usage), BucketPrices(catalog)))
      ensures forall i :: 0 <= i < 4 ==> tokens[i] == old(tokens)[i] + Positive(BucketTokens(row.usage)[i])
      ensures forall i :: 0 <= i < 4 ==> costs[i] == old(costs)[i] + if shares[i] > 0.0 then shares[i] else 0.0
    {
      hide IsSplit, Weights, BucketTokens, BucketPrices;
      var ts := BucketTokens(row.usage);
      for i := 0 to 4
        invariant |tokens| == 4 && |costs| == 4 && rows == old(rows) && costs == old(costs)
        invariant forall j :: 0 <= j < 4 ==> tokens[j] == old(tokens)[j] + if j < i then Positive(ts[j]) else 0
      {
        if ts[i] <= 0 {
          continue;
        }
        tokens := tokens[i := tokens[i] + ts[i]];
      }
      var split := SplitCostByWeight(row.costUSD, ts, BucketPrices(catalog));
      shares := split;
      SplitLength(split, row.costUSD, Weights(ts, BucketPrices(catalog)));
      ghost var counted := tokens;
      for i := 0 to 4
        invariant |tokens| == 4 && |costs| == 4 && rows == old(rows) && tokens == counted
        invariant forall j :: 0 <= j < 4 ==>
                    costs[j] == old(costs)[j] + if j < i && split[j] > 0.0 then split[j] else 0.0
      {
        if split[i] <= 0.0 {
          continue;
        }
        costs := costs[i := costs[i] + split[i]];
      }
    }

    /** For a sample of non-negative counts and prices, the four token counters together grow by the row's total and
        the four cost counters by the row's cost; a sample the catalog prices is counted at its prices, class by
        class, whatever the adapter reported. */
    method Record(u: Usage, catalog: Option<ModelCost>) returns (row: Row)
      requires Valid()
      modifies this
      ensures Valid() && row == Recorded(u, catalog) && rows == old(rows) + [row]
      ensures UsageOk(u) ==> Total(tokens) == old(Total(tokens)) + row.totalTokens
      ensures SampleOk(u, catalog) ==> Sum(costs) == old(Sum(costs)) + row.costUSD
      ensures UsageOk(u) ==>
                tokens == [old(tokens)[0] + u.prompt, old(tokens)[1] + u.cacheRead,
                           old(tokens)[2] + u.cacheWrite, old(tokens)[3] + u.completion]
      ensures SampleOk(u, catalog) ==>
                match catalog
                case Some(c) => AtCatalogPrices(u, c, Grown(old(costs), costs))
                case None => AtFallbackWeights(u, u.costUSD, Grown(old(costs), costs))
    {
      hide IsSplit, Sum, Total, Weights, UsageCostFromCatalog;
      row := Row(u, u.prompt + u.cacheRead + u.cacheWrite + u.completion, u.costUSD);
      var usd := UsageCostFromCatalog(u, catalog);
      if usd.Some? {
        row := row.(usage := u.(costUSD := usd.value), costUSD := usd.value);
      }
      rows := rows + [row];
      ghost var shares := Emit(row, catalog);
      assert BucketTokens(row.usage) == BucketTokens(u);
      if UsageOk(u) {
        ClassesOf(u);
        FourTotals(old(tokens), BucketTokens(u), tokens);
        TotalIsFour(u);
      }
      if SampleOk(u, catalog) {
        EmittedShares(u, catalog, shares);
        FourSums(old(costs), shares, costs);
        assert Grown(old(costs), costs) == shares;
        if catalog.Some? {
          CatalogPriced(u, catalog.value);
          SharesAtCatalogPrices(u, catalog.value, shares);
        } else {
          NotPriced(u);
          SharesAtFallbackWeights(u, u.costUSD, shares);
        }
      }
    }
  }

  /** What each counter grew by. */
  function Grown(before: seq<real>, after: seq<real>): (g: seq<real>)
    requires |before| == |after|
    ensures |g| == |after| && forall i :: 0 <= i < |g| ==> g[i] == after[i] - before[i]
  {
    seq(|after|, i requires 0 <= i < |after| => after[i] - before[i])
  }

  lemma ClassesOf(u: Usage)
    ensures var t := BucketTokens(u);
            t[0] == u.prompt && t[1] == u.cacheRead && t[2] == u.cacheWrite && t[3] == u.completion
  {
  }

  lemma NotPriced(u: Usage)
    ensures CostOf(u, None) == u.costUSD
  {
  }

  /** Prices are per million tokens. */
  lemma CatalogCostIs(u: Usage, c: ModelCost)
    ensures UsageCostFromCatalog(u, None) == None && UsageCostFromCatalog(u, Some(c)).Some?
    ensures UsageCostFromCatalog(u, Some(c)).value * 1000000.0 ==
            u.prompt as real * c.input + u.cacheRead as real * c.cacheRead
            + u.cacheWrite as real * c.cacheWrite + u.completion as real * c.output
  {
  }

  /** Each class costs its own tokens at its own price. */
  predicate AtCatalogPrices(u: Usage, c: ModelCost, shares: seq<real>) {
    && |shares| == 4
    && shares[0] * 1000000.0 == u.prompt as real * c.input
    && shares[1] * 1000000.0 == u.cacheRead as real * c.cacheRead
    && shares[2] * 1000000.0 == u.cacheWrite as real * c.cacheWrite
    && shares[3] * 1000000.0 == u.completion as real * c.output
  }

  /** Four shares in the ratio of four weights, or all for the first. */
  predicate InRatio(shares: seq<real>, total: real, p: real, r: real, w: real, c: real) {
    var all := p + r + w + c;
    && |shares| == 4
    && if all == 0.0 then shares == [total, 0.0, 0.0, 0.0]
       else InProportion(shares[0], total, p, all) && InProportion(shares[1], total, r, all)
            && InProportion(shares[2], total, w, all) && InProportion(shares[3], total, c, all)
  }

  /** A cost that the catalog does not explain is shared out in the ratio 1 : 0.1 : 1.25 : 4 per token, and goes to the
      prompt when there are no tokens. */
  predicate AtFallbackWeights(u: Usage, total: real, shares: seq<real>) {
    InRatio(shares, total, u.prompt as real, u.cacheRead as real * 0.1, u.cacheWrite as real * 1.25,
            u.completion as real * 4.0)
  }

  lemma PerMillionTokens(n: int, price: real)
    ensures Priced(n, price / PER_MILLION) * 1000000.0 == n as real * price
  {
  }

  lemma SharesAtCatalogPrices(u: Usage, c: ModelCost, shares: seq<real>)
    requires UsageOk(u) && PricesOk(c)
    requires IsSplit(shares, UsageCostFromCatalog(u, Some(c)).value, Weights(BucketTokens(u), BucketPrices(Some(c))))
    ensures AtCatalogPrices(u, c, shares)
  {
    CatalogSplitIsDirectPricing(u, c, shares);
    PerMillionTokens(u.prompt, c.input);
    PerMillionTokens(u.cacheRead, c.cacheRead);
    PerMillionTokens(u.cacheWrite, c.cacheWrite);
    PerMillionTokens(u.completion, c.output);
    hide Priced, IsSplit, UsageCostFromCatalog;
  }

  lemma FourShares(shares: seq<real>, total: real, p: real, r: real, w: real, c: real)
    requires IsSplit(shares, total, [p, r, w, c])
    ensures InRatio(shares, total, p, r, w, c)
  {
    SumOfFour(p, r, w, c);
    hide Sum, InProportion;
    var ws := [p, r, w, c];
    if Sum(ws) != 0.0 {
      assert forall i :: 0 <= i < 4 ==> InProportion(shares[i], total, ws[i], Sum(ws));
    }
  }

  lemma FallbackWeights(u: Usage)
    ensures Weights(BucketTokens(u), BucketPrices(None)) ==
            [u.prompt as real, u.cacheRead as real * 0.1, u.cacheWrite as real * 1.25, u.completion as real * 4.0]
  {
  }

  lemma SharesAtFallbackWeights(u: Usage, total: real, shares: seq<real>)
    requires IsSplit(shares, total, Weights(BucketTokens(u), BucketPrices(None)))
    ensures AtFallbackWeights(u, total, shares)
  {
    FallbackWeights(u);
    hide Weights, IsSplit, InRatio;
    FourShares(shares, total, u.prompt as real, u.cacheRead as real * 0.1, u.cacheWrite as real * 1.25,
               u.completion as real * 4.0);
  }

  function Positive(n: int): int {
    if n > 0 then n else 0
  }

  predicate SampleOk(u: Usage, catalog: Option<ModelCost>) {
    UsageOk(u) && u.costUSD >= 0.0 && (catalog.Some? ==> PricesOk(catalog.value))
  }

  lemma SplitLength(shares: seq<real>, total: real, ws: seq<real>)
    requires IsSplit(shares, total, ws)
    ensures |shares| == |ws|
  {
  }

  lemma CatalogPriced(u: Usage, c: ModelCost)
    ensures UsageCostFromCatalog(u, Some(c)) == Some(CostOf(u, Some(c)))
  {
  }

  lemma EmittedShares(u: Usage, catalog: Option<ModelCost>, shares: seq<real>)
    requires SampleOk(u, catalog)
             && IsSplit(shares, CostOf(u, catalog), Weights(BucketTokens(u), BucketPrices(catalog)))
    ensures NonNegative(shares) && |shares| == 4 && Sum(shares) == CostOf(u, catalog)
  {
    WeightsNonNegative(u, catalog);
    if catalog.Some? {
      CatalogCostIsWeight(u, catalog.value);
      SumNonNegative(Weights(BucketTokens(u), BucketPrices(catalog)));
    }
    hide Sum, Weights;
    SharesNonNegative(shares, CostOf(u, catalog), Weights(BucketTokens(u), BucketPrices(catalog)));
  }

  lemma FourSums(before: seq<real>, shares: seq<real>, after: seq<real>)
    requires |before| == |shares| == |after| == 4 && NonNegative(shares)
    requires forall i :: 0 <= i < 4 ==> after[i] == before[i] + if shares[i] > 0.0 then shares[i] else 0.0
    ensures Sum(after) == Sum(before) + Sum(shares)
    ensures forall i :: 0 <= i < 4 ==> after[i] == before[i] + shares[i]
  {
    SumOfFour(before[0], before[1], before[2], before[3]);
    SumOfFour(shares[0], shares[1], shares[2], shares[3]);
    SumOfFour(after[0], after[1], after[2], after[3]);
    assert before == [before[0], before[1], before[2], before[3]]
        && shares == [shares[0], shares[1], shares[2], shares[3]];
    assert after == [after[0], after[1], after[2], after[3]];
  }

  lemma {:induction false} FourTotals(before: seq<int>, ts: seq<int>, after: seq<int>)
    requires |before| == |ts| == |after|
    requires forall i :: 0 <= i < |ts| ==> ts[i] >= 0 && after[i] == before[i] + Positive(ts[i])
    ensures Total(after) == Total(before) + Total(ts)
  {
    if ts != [] {
      var n := |ts| - 1;
      FourTotals(before[..n], ts[..n], after[..n]);
    }
  }

  /** The classes partition the row's total: reasoning, being part of completion, is not counted again. */
  lemma TotalIsFour(u: Usage)
    ensures Total(BucketTokens(u)) == u.prompt + u.cacheRead + u.cacheWrite + u.completion
  {
    var (a, b, c, d) := (u.prompt, u.cacheRead, u.cacheWrite, u.completion);
    assert BucketTokens(u) == [] + [a] + [b] + [c] + [d];
    TotalSnoc([], a);
    TotalSnoc([] + [a], b);
    TotalSnoc([] + [a] + [b], c);
    TotalSnoc([] + [a] + [b] + [c], d);
  }

  lemma TotalSnoc(xs: seq<int>, x: int)
    ensures Total(xs + [x]) == Total(xs) + x
  {
    assert (xs + [x])[..|xs|] == xs;
  }
}
