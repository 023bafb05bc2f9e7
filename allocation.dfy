/**
 * The allocation aggregator of `calcular`: a sparse weight map over the asset
 * catalogue becomes normalised shares, a blended gross return, cost and risk,
 * and the list of assets used; an all-zero map falls back to idle cash.
 */
module Allocation {
  import opened Wrappers

  /** Which figure of an asset a blend averages. */
  datatype Field = Gross | Cost | Risk

  /** A catalogue instrument: annual gross return and annual cost, in percent, and its risk score. */
  datatype Asset = Asset(gross: real, cost: real, risk: real)
  {
    function Value(f: Field): real
    {
      match f
      case Gross => gross
      case Cost => cost
      case Risk => risk
    }
  }

  /** The catalogue, keyed by instrument name. */
  type Catalogue = map<string, Asset>

  /** One entry of a weight map. */
  datatype Entry = Entry(name: string, weight: real)

  /** A weight map, as its entries in iteration order. */
  type Weights = seq<Entry>

  /** An asset the blend uses, with its share of the portfolio in percent. */
  datatype Share = Share(name: string, percent: real)

  /** The blended profile: gross return, cost, risk, the assets used and the idle-cash flag. */
  datatype Blend = Blend(gross: real, cost: real, risk: real, used: seq<Share>, idle: bool)
  {
    /** The blended net annual return, in percent. */
    function NetReturn(): real
    {
      gross - cost
    }

    function Value(f: Field): real
    {
      match f
      case Gross => gross
      case Cost => cost
      case Risk => risk
    }
  }

  /** Annual rate of the savings account, in percent. */
  const SavingsRate: real := 6.17

  /** Risk score given to idle cash. */
  const IdleRisk: real := 0.5

  const IdleName: string := "Dinheiro Parado (Poupança)"

  /** The idle-cash profile: money left in the savings account. */
  const IdleBlend: Blend := Blend(SavingsRate, 0.0, IdleRisk, [Share(IdleName, 100.0)], true)

  /** The sum of all weights, positive or not. */
  function Total(ws: Weights): real
  {
    if ws == [] then 0.0 else Total(ws[..|ws| - 1]) + ws[|ws| - 1].weight
  }

  /** The normalised weight of an entry; entries without a positive weight take no part. */
  function Part(e: Entry, total: real): real
    requires total != 0.0
  {
    if e.weight > 0.0 then e.weight / total else 0.0
  }

  /** What one entry adds to a blended figure: the figure times the entry's normalised weight. */
  function Term(e: Entry, cat: Catalogue, total: real, f: Field): real
    requires total != 0.0
  {
    if e.name in cat then cat[e.name].Value(f) * Part(e, total) else 0.0
  }

  /** A blended figure accumulated over the entries. */
  function Weighted(ws: Weights, cat: Catalogue, total: real, f: Field): real
    requires total != 0.0
  {
    if ws == [] then 0.0 else Weighted(ws[..|ws| - 1], cat, total, f) + Term(ws[|ws| - 1], cat, total, f)
  }

  /** The assets with a positive weight, each with its percentage share. */
  function Shares(ws: Weights, total: real): seq<Share>
    requires total != 0.0
  {
    if ws == [] then []
    else
      var e := ws[|ws| - 1];
      Shares(ws[..|ws| - 1], total) + (if e.weight > 0.0 then [Share(e.name, e.weight / total * 100.0)] else [])
  }

  /** The first positive-weight name that is not in the catalogue, if any. */
  function FirstMissing(ws: Weights, cat: Catalogue): Option<string>
  {
    if ws == [] then None
    else
      var e := ws[|ws| - 1];
      var before := FirstMissing(ws[..|ws| - 1], cat);
      if before.Some? then before
      else if e.weight > 0.0 && e.name !in cat then Some(e.name)
      else None
  }

  /** The result of aggregating a weight map: the idle-cash profile, a lookup failure, or the blend. */
  function Aggregation(ws: Weights, cat: Catalogue): Result<Blend, string>
  {
    var total := Total(ws);
    if total == 0.0 then Success(IdleBlend)
    else
      match FirstMissing(ws, cat)
      case Some(name) => Failure(name)
      case None =>
        Success(Blend(Weighted(ws, cat, total, Gross), Weighted(ws, cat, total, Cost),
                      Weighted(ws, cat, total, Risk), Shares(ws, total), false))
  }

  /** The aggregation loop of `calcular`, failing on the first positive-weight name missing from the catalogue. */
  method Aggregate(ws: Weights, cat: Catalogue) returns (r: Result<Blend, string>)
    ensures r == Aggregation(ws, cat)
  {
    var total := Total(ws);
    if total == 0.0 {
      return Success(IdleBlend);
    }
    var gross, cost, risk := 0.0, 0.0, 0.0;
    var used: seq<Share> := [];
    for i := 0 to |ws|
      invariant FirstMissing(ws[..i], cat) == None
      invariant gross == Weighted(ws[..i], cat, total, Gross)
      invariant cost == Weighted(ws[..i], cat, total, Cost)
      invariant risk == Weighted(ws[..i], cat, total, Risk)
      invariant used == Shares(ws[..i], total)
    {
      var e := ws[i];
      assert ws[..i + 1][..i] == ws[..i];
      if e.weight > 0.0 {
        if e.name !in cat {
          FirstMissingPrefix(ws, i + 1, cat);
          return Failure(e.name);
        }
        var info := cat[e.name];
        var share := e.weight / total;
        gross := gross + info.gross * share;
        cost := cost + info.cost * share;
        risk := risk + info.risk * share;
        used := used + [Share(e.name, share * 100.0)];
      }
    }
    assert ws[..|ws|] == ws;
    r := Success(Blend(gross, cost, risk, used, false));
  }

  /** A lookup failure found in a prefix is the failure of the whole map. */
  lemma {:induction false} FirstMissingPrefix(ws: Weights, k: nat, cat: Catalogue)
    requires k <= |ws| && FirstMissing(ws[..k], cat).Some?
    ensures FirstMissing(ws, cat) == FirstMissing(ws[..k], cat)
  {
    if k < |ws| {
      var p := ws[..|ws| - 1];
      assert p[..k] == ws[..k];
      FirstMissingPrefix(p, k, cat);
    } else {
      assert ws[..k] == ws;
    }
  }

  /** The lookup fails exactly when some positive weight names an asset missing from the catalogue, and then names the first one. */
  lemma {:induction false} FirstMissingIsFirst(ws: Weights, cat: Catalogue)
    ensures FirstMissing(ws, cat) == None <==>
            forall i :: 0 <= i < |ws| && ws[i].weight > 0.0 ==> ws[i].name in cat
    ensures FirstMissing(ws, cat).Some? ==>
            exists i :: 0 <= i < |ws| && ws[i].weight > 0.0 && ws[i].name !in cat
                        && ws[i].name == FirstMissing(ws, cat).value
                        && forall j :: 0 <= j < i && ws[j].weight > 0.0 ==> ws[j].name in cat
  {
    if ws != [] {
      var p := ws[..|ws| - 1];
      FirstMissingIsFirst(p, cat);
      assert forall i :: 0 <= i < |p| ==> p[i] == ws[i];
      if FirstMissing(p, cat).Some? {
        var i :| 0 <= i < |p| && p[i].weight > 0.0 && p[i].name !in cat
                 && p[i].name == FirstMissing(p, cat).value
                 && forall j :: 0 <= j < i && p[j].weight > 0.0 ==> p[j].name in cat;
        assert ws[i] == p[i];
      } else if FirstMissing(ws, cat).Some? {
        assert ws[|ws| - 1].weight > 0.0 && ws[|ws| - 1].name !in cat;
      }
    }
  }

  /** The fallback is taken exactly when the weights sum to zero, and is then the idle-cash profile. */
  lemma IdleFallback(ws: Weights, cat: Catalogue)
    ensures Total(ws) == 0.0 ==> Aggregation(ws, cat) == Success(IdleBlend)
    ensures (Aggregation(ws, cat).Success? && Aggregation(ws, cat).value.idle) <==> Total(ws) == 0.0
    ensures IdleBlend.gross == SavingsRate && IdleBlend.cost == 0.0 && IdleBlend.risk == IdleRisk
    ensures |IdleBlend.used| == 1 && IdleBlend.used[0].percent == 100.0
  {
  }

  /** A zero-weight entry anywhere in the map adds nothing to the total and triggers no lookup. */
  lemma {:induction false} ZeroEntryTotals(ws1: Weights, name: string, ws2: Weights, cat: Catalogue)
    ensures Total(ws1 + [Entry(name, 0.0)] + ws2) == Total(ws1 + ws2)
    ensures FirstMissing(ws1 + [Entry(name, 0.0)] + ws2, cat) == FirstMissing(ws1 + ws2, cat)
  {
    var a, b := ws1 + [Entry(name, 0.0)] + ws2, ws1 + ws2;
    if ws2 == [] {
      assert b == ws1 && a[..|a| - 1] == ws1;
    } else {
      var p, e := ws2[..|ws2| - 1], ws2[|ws2| - 1];
      ZeroEntryTotals(ws1, name, p, cat);
      assert a[..|a| - 1] == ws1 + [Entry(name, 0.0)] + p && a[|a| - 1] == e;
      assert b[..|b| - 1] == ws1 + p && b[|b| - 1] == e;
    }
  }

  /** A zero-weight entry anywhere in the map adds nothing to a blended figure and records no share. */
  lemma {:induction false} ZeroEntryFigures(ws1: Weights, name: string, ws2: Weights, cat: Catalogue, t: real, f: Field)
    requires t != 0.0
    ensures Weighted(ws1 + [Entry(name, 0.0)] + ws2, cat, t, f) == Weighted(ws1 + ws2, cat, t, f)
    ensures Shares(ws1 + [Entry(name, 0.0)] + ws2, t) == Shares(ws1 + ws2, t)
  {
    var a, b := ws1 + [Entry(name, 0.0)] + ws2, ws1 + ws2;
    if ws2 == [] {
      assert b == ws1 && a[..|a| - 1] == ws1;
      assert Term(a[|a| - 1], cat, t, f) == 0.0;
    } else {
      var p, e := ws2[..|ws2| - 1], ws2[|ws2| - 1];
      ZeroEntryFigures(ws1, name, p, cat, t, f);
      assert a[..|a| - 1] == ws1 + [Entry(name, 0.0)] + p && a[|a| - 1] == e;
      assert b[..|b| - 1] == ws1 + p && b[|b| - 1] == e;
    }
  }

  /** An entry of weight zero, wherever it sits in the map, is the same as no entry at all. */
  lemma ZeroWeightIsAbsence(ws1: Weights, name: string, ws2: Weights, cat: Catalogue)
    ensures Aggregation(ws1 + [Entry(name, 0.0)] + ws2, cat) == Aggregation(ws1 + ws2, cat)
  {
    ZeroEntryTotals(ws1, name, ws2, cat);
    var t := Total(ws1 + ws2);
    if t != 0.0 {
      ZeroEntryFigures(ws1, name, ws2, cat, t, Gross);
      ZeroEntryFigures(ws1, name, ws2, cat, t, Cost);
      ZeroEntryFigures(ws1, name, ws2, cat, t, Risk);
    }
  }

  predicate NonNegative(ws: Weights)
  {
    forall i :: 0 <= i < |ws| ==> ws[i].weight >= 0.0
  }

  lemma {:induction false} TotalNonNegative(ws: Weights)
    requires NonNegative(ws)
    ensures Total(ws) >= 0.0
  {
    if ws != [] {
      TotalNonNegative(ws[..|ws| - 1]);
    }
  }

  /** The sum of the percentages of a list of shares. */
  function SumPercent(s: seq<Share>): real
  {
    if s == [] then 0.0 else SumPercent(s[..|s| - 1]) + s[|s| - 1].percent
  }

  lemma SumPercentAppend(s: seq<Share>, x: Share)
    ensures SumPercent(s + [x]) == SumPercent(s) + x.percent
  {
    assert (s + [x])[..|s|] == s;
  }

  /** With non-negative weights the recorded shares add up to the weights' sum over the normaliser. */
  lemma {:induction false} SharesSum(ws: Weights, total: real)
    requires total != 0.0 && NonNegative(ws)
    ensures SumPercent(Shares(ws, total)) == Total(ws) / total * 100.0
  {
    if ws != [] {
      var p := ws[..|ws| - 1];
      var e := ws[|ws| - 1];
      SharesSum(p, total);
      SplitQuotient(Total(p), e.weight, total);
      assert Total(ws) == Total(p) + e.weight;
      if e.weight > 0.0 {
        var x := Share(e.name, e.weight / total * 100.0);
        assert Shares(ws, total) == Shares(p, total) + [x];
        SumPercentAppend(Shares(p, total), x);
      } else {
        assert e.weight == 0.0;
        assert Shares(ws, total) == Shares(p, total);
      }
    }
  }

  lemma SplitQuotient(a: real, w: real, t: real)
    requires t != 0.0
    ensures (a + w) / t * 100.0 == a / t * 100.0 + w / t * 100.0
    ensures (a + w) / t == a / t + w / t
  {
  }

  /** With non-negative weights the assets used always add up to 100 percent, in the fallback too. */
  lemma UsedSharesSumTo100(ws: Weights, cat: Catalogue)
    requires NonNegative(ws)
    ensures Aggregation(ws, cat).Success? ==> SumPercent(Aggregation(ws, cat).value.used) == 100.0
  {
    if Total(ws) != 0.0 {
      SharesSum(ws, Total(ws));
      SelfQuotient(Total(ws));
    } else {
      assert SumPercent([Share(IdleName, 100.0)]) == SumPercent([]) + 100.0;
    }
  }

  lemma SelfQuotient(t: real)
    requires t != 0.0
    ensures t / t * 100.0 == 100.0
  {
  }

  /** vs is ws with every weight multiplied by the factor c. */
  predicate Scaled(vs: Weights, ws: Weights, c: real)
  {
    |vs| == |ws| && forall i :: 0 <= i < |ws| ==> vs[i] == Entry(ws[i].name, c * ws[i].weight)
  }

  lemma ScaledPrefix(vs: Weights, ws: Weights, c: real)
    requires ws != [] && Scaled(vs, ws, c)
    ensures Scaled(vs[..|vs| - 1], ws[..|ws| - 1], c)
  {
    var n := |ws| - 1;
    assert forall i :: 0 <= i < n ==> vs[..n][i] == vs[i] && ws[..n][i] == ws[i];
  }

  lemma Cancel(c: real, w: real, t: real)
    requires c != 0.0 && t != 0.0
    ensures (c * w) / (c * t) == w / t
  {
  }

  lemma {:induction false} ScaledTotal(vs: Weights, ws: Weights, c: real)
    requires Scaled(vs, ws, c)
    ensures Total(vs) == c * Total(ws)
  {
    if ws != [] {
      ScaledPrefix(vs, ws, c);
      ScaledTotal(vs[..|vs| - 1], ws[..|ws| - 1], c);
      Distribute(c, Total(ws[..|ws| - 1]), ws[|ws| - 1].weight);
    }
  }

  lemma NonZeroProduct(c: real, t: real)
    requires c > 0.0
    ensures (c * t == 0.0) == (t == 0.0)
  {
  }

  lemma Distribute(c: real, a: real, b: real)
    ensures c * (a + b) == c * a + c * b
  {
  }

  /**
   * Two weight maps that name the same assets in the same order, use the same
   * ones and give each the same normalised weight.
   */
  predicate Alike(vs: Weights, u: real, ws: Weights, t: real)
  {
    u != 0.0 && t != 0.0 && |vs| == |ws| &&
    forall i :: 0 <= i < |ws| ==>
      vs[i].name == ws[i].name && (vs[i].weight > 0.0) == (ws[i].weight > 0.0) &&
      vs[i].weight / u == ws[i].weight / t
  }

  lemma AlikePrefix(vs: Weights, u: real, ws: Weights, t: real)
    requires ws != [] && Alike(vs, u, ws, t)
    ensures Alike(vs[..|vs| - 1], u, ws[..|ws| - 1], t)
    ensures vs[|vs| - 1].name == ws[|ws| - 1].name
    ensures (vs[|vs| - 1].weight > 0.0) == (ws[|ws| - 1].weight > 0.0)
    ensures vs[|vs| - 1].weight / u == ws[|ws| - 1].weight / t
  {
    var n := |ws| - 1;
    assert forall i :: 0 <= i < n ==> vs[..n][i] == vs[i] && ws[..n][i] == ws[i];
  }

  lemma {:induction false} AlikeMissing(vs: Weights, u: real, ws: Weights, t: real, cat: Catalogue)
    requires Alike(vs, u, ws, t)
    ensures FirstMissing(vs, cat) == FirstMissing(ws, cat)
  {
    if ws != [] {
      AlikePrefix(vs, u, ws, t);
      AlikeMissing(vs[..|vs| - 1], u, ws[..|ws| - 1], t, cat);
    }
  }

  lemma {:induction false} AlikeShares(vs: Weights, u: real, ws: Weights, t: real)
    requires Alike(vs, u, ws, t)
    ensures Shares(vs, u) == Shares(ws, t)
  {
    if ws != [] {
      AlikePrefix(vs, u, ws, t);
      AlikeShares(vs[..|vs| - 1], u, ws[..|ws| - 1], t);
    }
  }

  lemma {:induction false} AlikeWeighted(vs: Weights, u: real, ws: Weights, t: real, cat: Catalogue, f: Field)
    requires Alike(vs, u, ws, t)
    ensures Weighted(vs, cat, u, f) == Weighted(ws, cat, t, f)
  {
    if ws != [] {
      AlikePrefix(vs, u, ws, t);
      AlikeWeighted(vs[..|vs| - 1], u, ws[..|ws| - 1], t, cat, f);
      assert Part(vs[|vs| - 1], u) == Part(ws[|ws| - 1], t);
    }
  }

  /** Scaling an entry and the normaliser by the same positive factor keeps its normalised weight. */
  lemma ScaledEntry(w: real, c: real, t: real)
    requires c > 0.0 && t != 0.0
    ensures (c * w > 0.0) == (w > 0.0)
    ensures (c * w) / (c * t) == w / t
  {
    Cancel(c, w, t);
  }

  lemma ScaledAlike(vs: Weights, ws: Weights, c: real, t: real)
    requires c > 0.0 && t != 0.0 && Scaled(vs, ws, c)
    ensures Alike(vs, c * t, ws, t)
  {
    NonZeroProduct(c, t);
    forall i | 0 <= i < |ws|
      ensures (vs[i].weight > 0.0) == (ws[i].weight > 0.0) && vs[i].weight / (c * t) == ws[i].weight / t
    {
      ScaledEntry(ws[i].weight, c, t);
    }
  }

  /** Multiplying every weight by the same positive factor leaves the whole aggregation unchanged. */
  lemma ScaleInvariance(vs: Weights, ws: Weights, cat: Catalogue, c: real)
    requires c > 0.0 && Scaled(vs, ws, c)
    ensures Aggregation(vs, cat) == Aggregation(ws, cat)
  {
    var t := Total(ws);
    ScaledTotal(vs, ws, c);
    NonZeroProduct(c, t);
    if t == 0.0 {
      assert Total(vs) == 0.0;
    } else {
      var u := c * t;
      ScaledAlike(vs, ws, c, t);
      AlikeAggregation(vs, u, ws, t, cat);
    }
  }

  /** Weight maps alike under their own totals aggregate to the same result. */
  lemma AlikeAggregation(vs: Weights, u: real, ws: Weights, t: real, cat: Catalogue)
    requires u == Total(vs) && t == Total(ws) && Alike(vs, u, ws, t)
    ensures Aggregation(vs, cat) == Aggregation(ws, cat)
  {
    AlikeMissing(vs, u, ws, t, cat);
    AlikeShares(vs, u, ws, t);
    AlikeWeighted(vs, u, ws, t, cat, Gross);
    AlikeWeighted(vs, u, ws, t, cat, Cost);
    AlikeWeighted(vs, u, ws, t, cat, Risk);
  }

  /** Every positive-weight asset is in the catalogue with its figure between lo and hi. */
  predicate FigureWithin(ws: Weights, cat: Catalogue, f: Field, lo: real, hi: real)
  {
    forall i :: 0 <= i < |ws| && ws[i].weight > 0.0 ==>
      ws[i].name in cat && lo <= cat[ws[i].name].Value(f) <= hi
  }

  /** The normalised weights, entry by entry. */
  function Parts(ws: Weights, t: real): (r: seq<real>)
    requires t != 0.0
    ensures |r| == |ws|
  {
    if ws == [] then [] else Parts(ws[..|ws| - 1], t) + [Part(ws[|ws| - 1], t)]
  }

  /**
   * The figure of each asset used; an entry that takes no part, or lies outside
   * the catalogue, stands in with the figure k.
   */
  function Figures(ws: Weights, cat: Catalogue, f: Field, k: real): (r: seq<real>)
    ensures |r| == |ws|
  {
    if ws == [] then []
    else
      Figures(ws[..|ws| - 1], cat, f, k) + [Figure(ws[|ws| - 1], cat, f, k)]
  }

  function Figure(e: Entry, cat: Catalogue, f: Field, k: real): real
  {
    if e.weight > 0.0 && e.name in cat then cat[e.name].Value(f) else k
  }

  function Sum(s: seq<real>): real
  {
    if s == [] then 0.0 else Sum(s[..|s| - 1]) + s[|s| - 1]
  }

  /** The sum of the pairwise products of two sequences of the same length. */
  function Dot(xs: seq<real>, ys: seq<real>): real
    requires |xs| == |ys|
  {
    if xs == [] then 0.0 else Dot(xs[..|xs| - 1], ys[..|ys| - 1]) + ys[|ys| - 1] * xs[|xs| - 1]
  }

  /** With non-negative weights the normalised weights add up to the weights' sum over the normaliser. */
  lemma {:induction false} PartsSum(ws: Weights, t: real)
    requires t != 0.0 && NonNegative(ws)
    ensures Sum(Parts(ws, t)) == Total(ws) / t
  {
    if ws != [] {
      var p := ws[..|ws| - 1];
      assert NonNegative(p) by {
        assert forall i :: 0 <= i < |p| ==> p[i] == ws[i];
      }
      PartsSum(p, t);
      var ps := Parts(ws, t);
      assert ps[..|ps| - 1] == Parts(p, t);
      var e := ws[|ws| - 1];
      assert Sum(ps) == Sum(Parts(p, t)) + Part(e, t);
      PartOfNonNegative(e, t);
      SplitQuotient(Total(p), e.weight, t);
    }
  }

  lemma TermAsProduct(e: Entry, cat: Catalogue, t: real, f: Field, k: real)
    requires t != 0.0 && (e.weight > 0.0 ==> e.name in cat)
    ensures Term(e, cat, t, f) == Figure(e, cat, f, k) * Part(e, t)
  {
    if e.weight > 0.0 {
      assert Term(e, cat, t, f) == cat[e.name].Value(f) * Part(e, t);
    } else {
      assert Part(e, t) == 0.0;
      assert Term(e, cat, t, f) == 0.0;
    }
  }

  lemma DotAppend(xs: seq<real>, ys: seq<real>, x: real, y: real)
    requires |xs| == |ys|
    ensures Dot(xs + [x], ys + [y]) == Dot(xs, ys) + y * x
  {
    var xs', ys' := xs + [x], ys + [y];
    assert xs'[..|xs'| - 1] == xs && ys'[..|ys'| - 1] == ys;
    assert xs'[|xs'| - 1] == x && ys'[|ys'| - 1] == y;
  }

  lemma FirstMissingNonePrefix(ws: Weights, cat: Catalogue)
    requires ws != [] && FirstMissing(ws, cat) == None
    ensures FirstMissing(ws[..|ws| - 1], cat) == None
    ensures ws[|ws| - 1].weight > 0.0 ==> ws[|ws| - 1].name in cat
  {
  }

  /** Once every positive-weight name is known, a blended figure is the figures dotted with the parts. */
  lemma {:induction false} WeightedAsDot(ws: Weights, cat: Catalogue, t: real, f: Field, k: real)
    requires t != 0.0 && FirstMissing(ws, cat) == None
    ensures Weighted(ws, cat, t, f) == Dot(Parts(ws, t), Figures(ws, cat, f, k))
  {
    if ws != [] {
      var p, e := ws[..|ws| - 1], ws[|ws| - 1];
      FirstMissingNonePrefix(ws, cat);
      WeightedAsDot(p, cat, t, f, k);
      calc {
        Weighted(ws, cat, t, f);
        Weighted(p, cat, t, f) + Term(e, cat, t, f);
        { TermAsProduct(e, cat, t, f, k); }
        Dot(Parts(p, t), Figures(p, cat, f, k)) + Figure(e, cat, f, k) * Part(e, t);
        { DotAppend(Parts(p, t), Figures(p, cat, f, k), Part(e, t), Figure(e, cat, f, k)); }
        Dot(Parts(p, t) + [Part(e, t)], Figures(p, cat, f, k) + [Figure(e, cat, f, k)]);
        { assert Parts(ws, t) == Parts(p, t) + [Part(e, t)];
          assert Figures(ws, cat, f, k) == Figures(p, cat, f, k) + [Figure(e, cat, f, k)]; }
        Dot(Parts(ws, t), Figures(ws, cat, f, k));
      }
    }
  }

  lemma {:induction false} PartsNonNegative(ws: Weights, t: real)
    requires t > 0.0
    ensures forall i :: 0 <= i < |ws| ==> Parts(ws, t)[i] >= 0.0
  {
    if ws != [] {
      var p := ws[..|ws| - 1];
      PartsNonNegative(p, t);
      var ps := Parts(ws, t);
      assert ps[..|ps| - 1] == Parts(p, t);
    }
  }

  lemma {:induction false} FiguresWithin(ws: Weights, cat: Catalogue, f: Field, lo: real, hi: real)
    requires FigureWithin(ws, cat, f, lo, hi)
    ensures forall i :: 0 <= i < |ws| ==> lo <= Figures(ws, cat, f, lo)[i]
    ensures forall i :: 0 <= i < |ws| ==> Figures(ws, cat, f, hi)[i] <= hi
  {
    if ws != [] {
      var p := ws[..|ws| - 1];
      assert FigureWithin(p, cat, f, lo, hi) by {
        assert forall i :: 0 <= i < |p| ==> p[i] == ws[i];
      }
      FiguresWithin(p, cat, f, lo, hi);
      var fl, fh := Figures(ws, cat, f, lo), Figures(ws, cat, f, hi);
      assert fl[..|fl| - 1] == Figures(p, cat, f, lo);
      assert fh[..|fh| - 1] == Figures(p, cat, f, hi);
    }
  }

  lemma {:induction false} DotAbove(xs: seq<real>, ys: seq<real>, lo: real)
    requires |xs| == |ys|
    requires forall i :: 0 <= i < |xs| ==> xs[i] >= 0.0 && lo <= ys[i]
    ensures lo * Sum(xs) <= Dot(xs, ys)
  {
    if xs != [] {
      var p, q := xs[..|xs| - 1], ys[..|ys| - 1];
      DotAbove(p, q, lo);
      var x, y := xs[|xs| - 1], ys[|ys| - 1];
      assert lo * x <= y * x;
      assert lo * (Sum(p) + x) == lo * Sum(p) + lo * x;
    }
  }

  lemma {:induction false} DotBelow(xs: seq<real>, ys: seq<real>, hi: real)
    requires |xs| == |ys|
    requires forall i :: 0 <= i < |xs| ==> xs[i] >= 0.0 && ys[i] <= hi
    ensures Dot(xs, ys) <= hi * Sum(xs)
  {
    if xs != [] {
      var p, q := xs[..|xs| - 1], ys[..|ys| - 1];
      DotBelow(p, q, hi);
      var x, y := xs[|xs| - 1], ys[|ys| - 1];
      assert y * x <= hi * x;
      assert hi * (Sum(p) + x) == hi * Sum(p) + hi * x;
    }
  }

  lemma PartOfNonNegative(e: Entry, t: real)
    requires t != 0.0 && e.weight >= 0.0
    ensures Part(e, t) == e.weight / t
  {
    if e.weight == 0.0 {
      assert 0.0 / t == 0.0;
    }
  }

  lemma UnitQuotientOf(t: real)
    requires t != 0.0
    ensures t / t == 1.0
  {
  }

  /** With non-negative weights the normalised weights add up to one. */
  lemma PartsSumToOne(ws: Weights)
    requires NonNegative(ws) && Total(ws) != 0.0
    ensures Sum(Parts(ws, Total(ws))) == 1.0
  {
    PartsSum(ws, Total(ws));
    UnitQuotientOf(Total(ws));
  }

  lemma WeightedAbove(ws: Weights, cat: Catalogue, f: Field, lo: real, hi: real)
    requires NonNegative(ws) && Total(ws) > 0.0 && FigureWithin(ws, cat, f, lo, hi)
    requires FirstMissing(ws, cat) == None
    ensures lo <= Weighted(ws, cat, Total(ws), f)
  {
    var t := Total(ws);
    var ps, fs := Parts(ws, t), Figures(ws, cat, f, lo);
    PartsSumToOne(ws);
    PartsNonNegative(ws, t);
    FiguresWithin(ws, cat, f, lo, hi);
    WeightedAsDot(ws, cat, t, f, lo);
    DotAbove(ps, fs, lo);
  }

  lemma WeightedBelow(ws: Weights, cat: Catalogue, f: Field, lo: real, hi: real)
    requires NonNegative(ws) && Total(ws) > 0.0 && FigureWithin(ws, cat, f, lo, hi)
    requires FirstMissing(ws, cat) == None
    ensures Weighted(ws, cat, Total(ws), f) <= hi
  {
    var t := Total(ws);
    var ps, fs := Parts(ws, t), Figures(ws, cat, f, hi);
    PartsSumToOne(ws);
    PartsNonNegative(ws, t);
    FiguresWithin(ws, cat, f, lo, hi);
    WeightedAsDot(ws, cat, t, f, hi);
    DotBelow(ps, fs, hi);
  }

  /**
   * With non-negative weights, a blended figure (gross return, cost or risk) lies
   * between any lower and upper bound of that figure over the assets used.
   */
  lemma BlendWithinBounds(ws: Weights, cat: Catalogue, f: Field, lo: real, hi: real)
    requires NonNegative(ws) && Total(ws) != 0.0 && FigureWithin(ws, cat, f, lo, hi)
    ensures Aggregation(ws, cat).Success?
    ensures lo <= Aggregation(ws, cat).value.Value(f) <= hi
  {
    FirstMissingIsFirst(ws, cat);
    TotalNonNegative(ws);
    WeightedAbove(ws, cat, f, lo, hi);
    WeightedBelow(ws, cat, f, lo, hi);
  }
}
