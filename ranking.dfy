/**
 * The list-processing helpers every support/resistance rule feeds into:
 * ranking candidates with price constraints (`_rank_levels`), the greedy
 * tolerance merge with backfill (`_merge_nearby_levels`) and the simple
 * extremes fallback (`_fallback_extremes`).
 */
module LevelRanking {
  import opened Wrappers
  import opened Seqs
  import opened Ohlc

  /** A candidate level: its price and the timestamp of the bar it came from. */
  datatype Candidate = Candidate(price: int, ts: int)

  /** `mode="distance"` or `mode="structure_first"`. */
  datatype RankMode = Distance | StructureFirst

  function Prices(cs: seq<Candidate>): (r: seq<int>)
    ensures |r| == |cs| && forall k :: 0 <= k < |cs| ==> r[k] == cs[k].price
  {
    seq(|cs|, k requires 0 <= k < |cs| => cs[k].price)
  }

  /** The first candidate carrying price `p`, if any. */
  function FirstWithPrice(cs: seq<Candidate>, p: int): Option<Candidate> {
    if cs == [] then None else if cs[0].price == p then Some(cs[0]) else FirstWithPrice(cs[1..], p)
  }

  lemma {:induction false} FirstWithPriceSnoc(cs: seq<Candidate>, c: Candidate, p: int)
    ensures FirstWithPrice(cs + [c], p) ==
      if FirstWithPrice(cs, p).Some? then FirstWithPrice(cs, p)
      else if c.price == p then Some(c) else None
  {
    if cs != [] {
      assert (cs + [c])[1..] == cs[1..] + [c];
      FirstWithPriceSnoc(cs[1..], c, p);
    }
  }

  lemma {:induction false} FirstWithPriceFound(cs: seq<Candidate>, p: int)
    ensures FirstWithPrice(cs, p).Some? <==> p in Prices(cs)
  {
    if cs != [] {
      FirstWithPriceFound(cs[1..], p);
      assert Prices(cs) == [cs[0].price] + Prices(cs[1..]);
    }
  }

  /**
   * The de-duplication loop of `_rank_levels`: one candidate per distinct
   * price, the first one met, in the order met.
   */
  function DedupeByPrice(cs: seq<Candidate>): (u: seq<Candidate>)
    ensures |u| <= |cs|
    ensures Distinct(Prices(u))
    ensures forall p :: p in Prices(u) <==> p in Prices(cs)
    ensures forall c :: c in u ==> c in cs && FirstWithPrice(cs, c.price) == Some(c)
    ensures cs != [] ==> u != [] && u[0] == cs[0]
  {
    if cs == [] then []
    else
      var init := cs[..|cs| - 1];
      var c := cs[|cs| - 1];
      var d := DedupeByPrice(init);
      assert cs == init + [c];
      assert Prices(cs) == Prices(init) + [c.price];
      assert forall x :: x in d ==> FirstWithPrice(cs, x.price) == Some(x) by {
        forall x | x in d ensures FirstWithPrice(cs, x.price) == Some(x) {
          FirstWithPriceSnoc(init, c, x.price);
        }
      }
      if c.price in Prices(d) then d
      else
        assert Prices(d + [c]) == Prices(d) + [c.price];
        FirstWithPriceSnoc(init, c, c.price);
        FirstWithPriceFound(init, c.price);
        d + [c]
  }

  /** The price constraints `min_price` (resistances) and `max_price` (supports). */
  predicate InBounds(p: int, minPrice: Option<int>, maxPrice: Option<int>) {
    (minPrice.None? || p >= minPrice.value) && (maxPrice.None? || p <= maxPrice.value)
  }

  /** The candidates that pass the constraints, or the first distinct one when none does. */
  function Eligible(u: seq<Candidate>, minPrice: Option<int>, maxPrice: Option<int>): seq<Candidate> {
    var f := Filter(u, (c: Candidate) => InBounds(c.price, minPrice, maxPrice));
    if f == [] && u != [] then u[..1] else f
  }

  /** Distance mode's key `(|price - last_close|, -timestamp)`: nearer first, then newer. */
  predicate NearerFirst(a: Candidate, b: Candidate, lastClose: int) {
    Abs(a.price - lastClose) < Abs(b.price - lastClose)
    || (Abs(a.price - lastClose) == Abs(b.price - lastClose) && a.ts >= b.ts)
  }

  /** Structure-first mode's key `(timestamp, |price - last_close|)`: older first, then nearer. */
  predicate OlderFirst(a: Candidate, b: Candidate, lastClose: int) {
    a.ts < b.ts || (a.ts == b.ts && Abs(a.price - lastClose) <= Abs(b.price - lastClose))
  }

  function RankOrder(mode: RankMode, lastClose: int): (Candidate, Candidate) -> bool {
    match mode
    case Distance => (a: Candidate, b: Candidate) => NearerFirst(a, b, lastClose)
    case StructureFirst => (a: Candidate, b: Candidate) => OlderFirst(a, b, lastClose)
  }

  lemma RankOrderTotal(mode: RankMode, lastClose: int)
    ensures TotalPreorder(RankOrder(mode, lastClose))
  {
  }

  function Ranked(cs: seq<Candidate>, lastClose: int, mode: RankMode, minPrice: Option<int>, maxPrice: Option<int>): seq<Candidate> {
    SortBy(Eligible(DedupeByPrice(cs), minPrice, maxPrice), RankOrder(mode, lastClose))
  }

  /** `ranked[:max_levels]`. */
  function Selected(cs: seq<Candidate>, lastClose: int, maxLevels: int, mode: RankMode,
                    minPrice: Option<int>, maxPrice: Option<int>): seq<Candidate> {
    PyTake(Ranked(cs, lastClose, mode, minPrice, maxPrice), maxLevels)
  }

  /** The ranked candidates that did not make the cut. */
  function Rejected(cs: seq<Candidate>, lastClose: int, maxLevels: int, mode: RankMode,
                    minPrice: Option<int>, maxPrice: Option<int>): seq<Candidate> {
    var t := Ranked(cs, lastClose, mode, minPrice, maxPrice);
    t[|PyTake(t, maxLevels)|..]
  }

  /** `_rank_levels`: the selected prices, ascending for supports, descending for resistances. */
  function RankedLevels(cs: seq<Candidate>, lastClose: int, maxLevels: int, desc: bool, mode: RankMode,
                        minPrice: Option<int>, maxPrice: Option<int>): (r: seq<int>)
    ensures desc ==> Descending(r)
    ensures !desc ==> Ascending(r)
    ensures maxLevels >= 0 ==> |r| <= maxLevels
    ensures |r| <= |DedupeByPrice(cs)|
  {
    if cs == [] then []
    else SortInts(Prices(Selected(cs, lastClose, maxLevels, mode, minPrice, maxPrice)), desc)
  }

  /** Distinct candidates that never share a price. */
  ghost predicate PriceKeyed(cs: seq<Candidate>) {
    Distinct(cs) && forall x, y :: x in cs && y in cs && x.price == y.price ==> x == y
  }

  lemma PriceKeyedFromPrices(cs: seq<Candidate>)
    requires Distinct(Prices(cs))
    ensures PriceKeyed(cs)
  {
    forall x, y | x in cs && y in cs && x.price == y.price ensures x == y {
      var i :| 0 <= i < |cs| && cs[i] == x;
      var j :| 0 <= j < |cs| && cs[j] == y;
      assert Prices(cs)[i] == Prices(cs)[j];
    }
    forall i, j | 0 <= i < j < |cs| ensures cs[i] != cs[j] {
      assert Prices(cs)[i] != Prices(cs)[j];
    }
  }

  lemma PricesOfPriceKeyed(cs: seq<Candidate>)
    requires PriceKeyed(cs)
    ensures Distinct(Prices(cs))
  {
    forall i, j | 0 <= i < j < |cs| ensures Prices(cs)[i] != Prices(cs)[j] {
      assert cs[i] in cs && cs[j] in cs;
    }
  }

  lemma EligibleKeyed(u: seq<Candidate>, minPrice: Option<int>, maxPrice: Option<int>)
    requires PriceKeyed(u)
    ensures PriceKeyed(Eligible(u, minPrice, maxPrice))
    ensures forall c :: c in Eligible(u, minPrice, maxPrice) ==> c in u
  {
    var p := (c: Candidate) => InBounds(c.price, minPrice, maxPrice);
    FilterDistinct(u, p);
    var f := Filter(u, p);
    if f == [] && u != [] {
      assert Eligible(u, minPrice, maxPrice) == [u[0]];
    }
  }

  lemma PrefixKeyed(t: seq<Candidate>, k: nat)
    requires PriceKeyed(t) && k <= |t|
    ensures PriceKeyed(t[..k])
  {
    var s := t[..k];
    forall i, j | 0 <= i < j < |s| ensures s[i] != s[j] { assert s[i] == t[i] && s[j] == t[j]; }
  }

  /** The number of distinct candidate prices is the length of `DedupeByPrice`. */
  lemma DedupeByPriceCount(cs: seq<Candidate>)
    ensures |DedupeByPrice(cs)| == |set c | c in cs :: c.price|
  {
    var u := DedupeByPrice(cs);
    DistinctCardinality(Prices(u));
    forall x | x in (set c | c in cs :: c.price) ensures x in Prices(u) {
      var c :| c in cs && c.price == x;
      var i :| 0 <= i < |cs| && cs[i] == c;
      assert Prices(cs)[i] == x;
    }
    assert (set x | x in Prices(u)) == (set c | c in cs :: c.price);
  }

  lemma SelectedKeyed(cs: seq<Candidate>, lastClose: int, maxLevels: int, mode: RankMode,
                      minPrice: Option<int>, maxPrice: Option<int>)
    ensures Distinct(Prices(Selected(cs, lastClose, maxLevels, mode, minPrice, maxPrice)))
  {
    var u := DedupeByPrice(cs);
    PriceKeyedFromPrices(u);
    var e := Eligible(u, minPrice, maxPrice);
    EligibleKeyed(u, minPrice, maxPrice);
    var t := Ranked(cs, lastClose, mode, minPrice, maxPrice);
    assert multiset(t) == multiset(e);
    DistinctPermutation(e, t);
    forall x | x in t ensures x in e { assert x in multiset(t); }
    assert PriceKeyed(t);
    var sel := Selected(cs, lastClose, maxLevels, mode, minPrice, maxPrice);
    assert sel == t[..|sel|];
    PrefixKeyed(t, |sel|);
    PricesOfPriceKeyed(sel);
  }

  /**
   * Output prices are distinct, and there are at most as many of them as
   * distinct candidate prices.
   */
  lemma RankedLevelsDistinct(cs: seq<Candidate>, lastClose: int, maxLevels: int, desc: bool, mode: RankMode,
                             minPrice: Option<int>, maxPrice: Option<int>)
    ensures var r := RankedLevels(cs, lastClose, maxLevels, desc, mode, minPrice, maxPrice);
      Distinct(r) && |r| <= |set c | c in cs :: c.price|
  {
    DedupeByPriceCount(cs);
    if cs != [] {
      var sel := Selected(cs, lastClose, maxLevels, mode, minPrice, maxPrice);
      SelectedKeyed(cs, lastClose, maxLevels, mode, minPrice, maxPrice);
      DistinctPermutation(Prices(sel), RankedLevels(cs, lastClose, maxLevels, desc, mode, minPrice, maxPrice));
    }
  }

  /** Every price that comes out is the price of a selected candidate. */
  lemma RankedLevelsFromSelected(cs: seq<Candidate>, lastClose: int, maxLevels: int, desc: bool, mode: RankMode,
                                 minPrice: Option<int>, maxPrice: Option<int>)
    ensures forall p :: p in RankedLevels(cs, lastClose, maxLevels, desc, mode, minPrice, maxPrice) ==>
      exists c :: c in Selected(cs, lastClose, maxLevels, mode, minPrice, maxPrice) && c.price == p
    ensures forall c :: c in Selected(cs, lastClose, maxLevels, mode, minPrice, maxPrice) ==>
      c in Eligible(DedupeByPrice(cs), minPrice, maxPrice)
  {
    var r := RankedLevels(cs, lastClose, maxLevels, desc, mode, minPrice, maxPrice);
    var sel := Selected(cs, lastClose, maxLevels, mode, minPrice, maxPrice);
    var t := Ranked(cs, lastClose, mode, minPrice, maxPrice);
    var e := Eligible(DedupeByPrice(cs), minPrice, maxPrice);
    forall p | p in r ensures exists c :: c in sel && c.price == p {
      assert p in multiset(Prices(sel));
      var k :| 0 <= k < |sel| && Prices(sel)[k] == p;
      assert sel[k] in sel;
    }
    forall c | c in sel ensures c in e {
      assert sel == t[..|sel|];
      assert c in t;
      assert c in multiset(t);
    }
  }

  /** When some candidate satisfies the price constraints, every output price does. */
  lemma RankedLevelsWithinBounds(cs: seq<Candidate>, lastClose: int, maxLevels: int, desc: bool, mode: RankMode,
                                 minPrice: Option<int>, maxPrice: Option<int>)
    requires exists c :: c in cs && InBounds(c.price, minPrice, maxPrice)
    ensures forall p :: p in RankedLevels(cs, lastClose, maxLevels, desc, mode, minPrice, maxPrice) ==>
      InBounds(p, minPrice, maxPrice)
  {
    EligibleInBounds(cs, minPrice, maxPrice);
    RankedLevelsFromSelected(cs, lastClose, maxLevels, desc, mode, minPrice, maxPrice);
  }

  /** With some candidate in bounds the fallback is not taken, so every eligible candidate is in bounds. */
  lemma EligibleInBounds(cs: seq<Candidate>, minPrice: Option<int>, maxPrice: Option<int>)
    requires exists c :: c in cs && InBounds(c.price, minPrice, maxPrice)
    ensures forall c :: c in Eligible(DedupeByPrice(cs), minPrice, maxPrice) ==> InBounds(c.price, minPrice, maxPrice)
  {
    var u := DedupeByPrice(cs);
    var f := Filter(u, (c: Candidate) => InBounds(c.price, minPrice, maxPrice));
    var sample :| sample in cs && InBounds(sample.price, minPrice, maxPrice);
    var i :| 0 <= i < |cs| && cs[i] == sample;
    assert Prices(cs)[i] == sample.price;
    assert sample.price in Prices(u);
    var j :| 0 <= j < |u| && Prices(u)[j] == sample.price;
    assert u[j] in f;
    assert Eligible(u, minPrice, maxPrice) == f;
  }

  /** When no candidate satisfies the constraints, only the first candidate's price comes out. */
  lemma RankedLevelsFallbackFirst(cs: seq<Candidate>, lastClose: int, maxLevels: int, desc: bool, mode: RankMode,
                                  minPrice: Option<int>, maxPrice: Option<int>)
    requires cs != []
    requires forall c :: c in cs ==> !InBounds(c.price, minPrice, maxPrice)
    ensures RankedLevels(cs, lastClose, maxLevels, desc, mode, minPrice, maxPrice) == PyTake([cs[0].price], maxLevels)
  {
    FallbackSelected(cs, lastClose, maxLevels, mode, minPrice, maxPrice);
    var ps := Prices(Selected(cs, lastClose, maxLevels, mode, minPrice, maxPrice));
    assert ps == PyTake([cs[0].price], maxLevels);
    SortIntsShort(ps, desc);
  }

  lemma FallbackSelected(cs: seq<Candidate>, lastClose: int, maxLevels: int, mode: RankMode,
                         minPrice: Option<int>, maxPrice: Option<int>)
    requires cs != []
    requires forall c :: c in cs ==> !InBounds(c.price, minPrice, maxPrice)
    ensures Selected(cs, lastClose, maxLevels, mode, minPrice, maxPrice) == PyTake([cs[0]], maxLevels)
  {
    var u := DedupeByPrice(cs);
    var pred := (c: Candidate) => InBounds(c.price, minPrice, maxPrice);
    FilterNone(u, pred);
    assert Eligible(u, minPrice, maxPrice) == [cs[0]];
    var ord := RankOrder(mode, lastClose);
    assert SortBy([cs[0]], ord) == Insert(cs[0], SortBy([], ord), ord);
    assert Ranked(cs, lastClose, mode, minPrice, maxPrice) == [cs[0]];
  }

  /** Sorting at most one price leaves it as it is. */
  lemma SortIntsShort(s: seq<int>, desc: bool)
    requires |s| <= 1
    ensures SortInts(s, desc) == s
  {
    if |s| == 1 {
      var r := SortInts(s, desc);
      assert r[0] in multiset(r);
    }
  }

  lemma SelectedBeforeRejected(cs: seq<Candidate>, lastClose: int, maxLevels: int, mode: RankMode,
                               minPrice: Option<int>, maxPrice: Option<int>)
    ensures var sel := Selected(cs, lastClose, maxLevels, mode, minPrice, maxPrice);
      var rest := Rejected(cs, lastClose, maxLevels, mode, minPrice, maxPrice);
      && multiset(sel) + multiset(rest) == multiset(Eligible(DedupeByPrice(cs), minPrice, maxPrice))
      && forall x, y :: x in sel && y in rest ==> RankOrder(mode, lastClose)(x, y)
  {
    var e := Eligible(DedupeByPrice(cs), minPrice, maxPrice);
    var t := Ranked(cs, lastClose, mode, minPrice, maxPrice);
    var sel := Selected(cs, lastClose, maxLevels, mode, minPrice, maxPrice);
    RankOrderTotal(mode, lastClose);
    SortedPrefixDominates(e, |sel|, RankOrder(mode, lastClose));
    assert sel == t[..|sel|];
  }

  /**
   * The selected candidates outrank every rejected one: in distance mode
   * they are nearer the last close (ties to the newer bar); in
   * structure-first mode they are older (ties to the nearer price). The
   * output is exactly the selected candidates' prices.
   */
  lemma RankedLevelsSelection(cs: seq<Candidate>, lastClose: int, maxLevels: int, desc: bool, mode: RankMode,
                              minPrice: Option<int>, maxPrice: Option<int>)
    ensures var sel := Selected(cs, lastClose, maxLevels, mode, minPrice, maxPrice);
      var rest := Rejected(cs, lastClose, maxLevels, mode, minPrice, maxPrice);
      && multiset(sel) + multiset(rest) == multiset(Eligible(DedupeByPrice(cs), minPrice, maxPrice))
      && (cs != [] ==> multiset(RankedLevels(cs, lastClose, maxLevels, desc, mode, minPrice, maxPrice)) == multiset(Prices(sel)))
      && (mode == Distance ==> forall x, y :: x in sel && y in rest ==> NearerFirst(x, y, lastClose))
      && (mode == StructureFirst ==> forall x, y :: x in sel && y in rest ==> OlderFirst(x, y, lastClose))
  {
    var sel := Selected(cs, lastClose, maxLevels, mode, minPrice, maxPrice);
    var rest := Rejected(cs, lastClose, maxLevels, mode, minPrice, maxPrice);
    var le := RankOrder(mode, lastClose);
    SelectedBeforeRejected(cs, lastClose, maxLevels, mode, minPrice, maxPrice);
    if mode == Distance {
      forall x, y | x in sel && y in rest ensures NearerFirst(x, y, lastClose) {
        assert le(x, y);
      }
    } else {
      forall x, y | x in sel && y in rest ensures OlderFirst(x, y, lastClose) {
        assert le(x, y);
      }
    }
  }

  /** `_rank_levels` with its de-duplication loop over `seen` / `unique`. */
  method RankLevels(cs: seq<Candidate>, lastClose: int, maxLevels: int, desc: bool, mode: RankMode,
                    minPrice: Option<int>, maxPrice: Option<int>) returns (levels: seq<int>)
    ensures levels == RankedLevels(cs, lastClose, maxLevels, desc, mode, minPrice, maxPrice)
  {
    if |cs| == 0 {
      return [];
    }
    var seen: set<int> := {};
    var unique: seq<Candidate> := [];
    var i := 0;
    while i < |cs|
      invariant 0 <= i <= |cs|
      invariant unique == DedupeByPrice(cs[..i])
      invariant forall p :: p in seen <==> p in Prices(unique)
    {
      var c := cs[i];
      assert cs[..i + 1][..i] == cs[..i];
      if c.price !in seen {
        seen := seen + {c.price};
        assert Prices(unique + [c]) == Prices(unique) + [c.price];
        unique := unique + [c];
      }
      i := i + 1;
    }
    assert cs[..|cs|] == cs;
    var filtered := Eligible(unique, minPrice, maxPrice);
    var ranked := SortBy(filtered, RankOrder(mode, lastClose));
    var selected := Prices(PyTake(ranked, maxLevels));
    levels := SortInts(selected, desc);
  }

  /** No level already kept lies closer than `tol` to `x` (the negation of `too_close`). */
  predicate Far(x: int, kept: seq<int>, tol: int) {
    forall k :: 0 <= k < |kept| ==> Abs(x - kept[k]) >= tol
  }

  /** The first loop of `_merge_nearby_levels`: keep each candidate far from all kept so far. */
  function KeepDistant(cands: seq<int>, kept: seq<int>, tol: int): seq<int>
    decreases |cands|
  {
    if cands == [] then kept
    else KeepDistant(cands[1..], if Far(cands[0], kept, tol) then kept + [cands[0]] else kept, tol)
  }

  /** The second loop: add far alternatives until `target` levels are kept. */
  function Backfill(alts: seq<int>, kept: seq<int>, target: nat, tol: int): seq<int>
    decreases |alts|
  {
    if alts == [] || |kept| >= target then kept
    else Backfill(alts[1..], if Far(alts[0], kept, tol) then kept + [alts[0]] else kept, target, tol)
  }

  /** `_merge_nearby_levels(levels, values, tol, is_support)`. */
  function MergedLevels(levels: seq<int>, values: seq<int>, tol: int, isSupport: bool): seq<int> {
    if |levels| < 2 then levels
    else
      var kept := KeepDistant(levels[1..], [levels[0]], tol);
      var filled := if |kept| < |levels| then Backfill(SortInts(Dedupe(values), !isSupport), kept, |levels|, tol) else kept;
      SortInts(filled, !isSupport)
  }

  /** Distinct values, each pair at least `tol` apart (for a positive `tol`). */
  ghost predicate Spread(s: seq<int>, tol: int) {
    Distinct(s) && forall x, y :: x in s && y in s && x != y ==> Abs(x - y) >= tol
  }

  lemma SpreadAppend(kept: seq<int>, x: int, tol: int)
    requires tol > 0 && Spread(kept, tol) && Far(x, kept, tol)
    ensures Spread(kept + [x], tol)
  {
    var s := kept + [x];
    forall k | 0 <= k < |kept| ensures kept[k] != x { assert Abs(x - kept[k]) >= tol; }
    forall i, j | 0 <= i < j < |s| ensures s[i] != s[j] {
      if j < |kept| { assert s[i] == kept[i] && s[j] == kept[j]; } else { assert s[i] == kept[i]; }
    }
    forall a, b | a in s && b in s && a != b ensures Abs(a - b) >= tol {
      if a == x {
        var k :| 0 <= k < |kept| && kept[k] == b;
      } else if b == x {
        var k :| 0 <= k < |kept| && kept[k] == a;
      }
    }
  }

  lemma {:induction false} KeepDistantProps(cands: seq<int>, kept: seq<int>, tol: int)
    requires tol > 0 && Spread(kept, tol)
    ensures var r := KeepDistant(cands, kept, tol);
      && Spread(r, tol) && |r| <= |kept| + |cands|
      && kept <= r
      && forall x :: x in r ==> x in kept || x in cands
  {
    if cands != [] {
      var next := if Far(cands[0], kept, tol) then kept + [cands[0]] else kept;
      if Far(cands[0], kept, tol) { SpreadAppend(kept, cands[0], tol); }
      KeepDistantProps(cands[1..], next, tol);
    }
  }

  lemma {:induction false} BackfillProps(alts: seq<int>, kept: seq<int>, target: nat, tol: int)
    requires tol > 0 && Spread(kept, tol)
    ensures var r := Backfill(alts, kept, target, tol);
      && Spread(r, tol)
      && |r| <= (if |kept| > target then |kept| else target)
      && kept <= r
      && forall x :: x in r ==> x in kept || x in alts
  {
    if alts != [] && |kept| < target {
      var next := if Far(alts[0], kept, tol) then kept + [alts[0]] else kept;
      if Far(alts[0], kept, tol) { SpreadAppend(kept, alts[0], tol); }
      BackfillProps(alts[1..], next, target, tol);
    }
  }

  lemma SpreadPermutation(a: seq<int>, b: seq<int>, tol: int)
    requires Spread(a, tol) && multiset(a) == multiset(b)
    ensures Spread(b, tol)
  {
    DistinctPermutation(a, b);
    forall x | x in b ensures x in a { assert x in multiset(b); }
  }

  /** The list both loops of `_merge_nearby_levels` leave behind, before the final sort. */
  function MergeFilled(levels: seq<int>, values: seq<int>, tol: int, isSupport: bool): seq<int>
    requires |levels| >= 1
  {
    var kept := KeepDistant(levels[1..], [levels[0]], tol);
    if |kept| < |levels| then Backfill(SortInts(Dedupe(values), !isSupport), kept, |levels|, tol) else kept
  }

  lemma MergeFilledProps(levels: seq<int>, values: seq<int>, tol: int, isSupport: bool)
    requires |levels| >= 1 && tol > 0
    ensures var f := MergeFilled(levels, values, tol, isSupport);
      && Spread(f, tol) && |f| <= |levels| && [levels[0]] <= f
      && forall x :: x in f ==> x in levels || x in values
  {
    var kept := KeepDistant(levels[1..], [levels[0]], tol);
    KeepDistantProps(levels[1..], [levels[0]], tol);
    if |kept| < |levels| {
      var alts := SortInts(Dedupe(values), !isSupport);
      BackfillProps(alts, kept, |levels|, tol);
      forall x | x in alts ensures x in values { assert x in multiset(alts); }
    }
    forall x | x in levels[1..] ensures x in levels { }
  }

  /**
   * `_merge_nearby_levels` on at least two levels keeps the first level,
   * never grows the list, leaves every pair at least `tol` apart and sorts
   * supports ascending and resistances descending; each value comes from
   * the input levels or the alternatives.
   */
  lemma MergedLevelsProps(levels: seq<int>, values: seq<int>, tol: int, isSupport: bool)
    requires |levels| >= 2 && tol > 0
    ensures var r := MergedLevels(levels, values, tol, isSupport);
      && levels[0] in r
      && |r| <= |levels|
      && (forall i, j :: 0 <= i < j < |r| ==> Abs(r[i] - r[j]) >= tol)
      && (isSupport ==> Ascending(r))
      && (!isSupport ==> Descending(r))
      && forall x :: x in r ==> x in levels || x in values
  {
    var f := MergeFilled(levels, values, tol, isSupport);
    MergeFilledProps(levels, values, tol, isSupport);
    var r := MergedLevels(levels, values, tol, isSupport);
    assert r == SortInts(f, !isSupport);
    assert f[0] == levels[0];
    assert levels[0] in multiset(r);
    SpreadPermutation(f, r, tol);
    forall i, j | 0 <= i < j < |r| ensures Abs(r[i] - r[j]) >= tol {
      assert r[i] != r[j];
      assert r[i] in r && r[j] in r;
    }
    forall x | x in r ensures x in levels || x in values {
      assert x in multiset(f);
    }
  }

  /** `_merge_nearby_levels` with its two loops and the early `break`. */
  method MergeNearbyLevels(levels: seq<int>, values: seq<int>, tol: int, isSupport: bool) returns (merged: seq<int>)
    ensures merged == MergedLevels(levels, values, tol, isSupport)
  {
    if |levels| < 2 {
      return levels;
    }
    var result := [levels[0]];
    var i := 1;
    while i < |levels|
      invariant 1 <= i <= |levels|
      invariant KeepDistant(levels[i..], result, tol) == KeepDistant(levels[1..], [levels[0]], tol)
    {
      var tooClose := !Far(levels[i], result, tol);
      assert levels[i..][1..] == levels[i + 1..];
      if !tooClose {
        result := result + [levels[i]];
      }
      i := i + 1;
    }
    ghost var kept := result;
    if |result| < |levels| {
      var alts := SortInts(Dedupe(values), !isSupport);
      var j := 0;
      while j < |alts|
        invariant 0 <= j <= |alts|
        invariant Backfill(alts[j..], result, |levels|, tol) == Backfill(alts, kept, |levels|, tol)
      {
        if |result| >= |levels| {
          break;
        }
        assert alts[j..][1..] == alts[j + 1..];
        if Far(alts[j], result, tol) {
          result := result + [alts[j]];
        }
        j := j + 1;
      }
    }
    merged := SortInts(result, !isSupport);
  }

  /** `lows.nsmallest(n)`: the `n` smallest values, duplicates kept; empty for `n <= 0`. */
  function NSmallest(s: seq<int>, n: int): seq<int> {
    if n <= 0 then [] else Take(SortInts(s, false), n)
  }

  /** `highs.nlargest(n)`. */
  function NLargest(s: seq<int>, n: int): seq<int> {
    if n <= 0 then [] else Take(SortInts(s, true), n)
  }

  /** The support half of `_fallback_extremes`: the `n` lowest lows, ascending. */
  function FallbackSupports(w: seq<Bar>, n: int): (r: seq<int>)
    ensures |r| == if n <= 0 then 0 else if n < |w| then n else |w|
    ensures Ascending(r)
  {
    SortInts(NSmallest(Lows(w), n), false)
  }

  /** The resistance half of `_fallback_extremes`: the `n` highest highs, descending. */
  function FallbackResistances(w: seq<Bar>, n: int): (r: seq<int>)
    ensures |r| == if n <= 0 then 0 else if n < |w| then n else |w|
    ensures Descending(r)
  {
    SortInts(NLargest(Highs(w), n), true)
  }

  /** The fallback supports are lows of the frame, and no low left out is lower. */
  lemma FallbackSupportsLowest(w: seq<Bar>, n: int)
    ensures var r := FallbackSupports(w, n);
      && multiset(r) <= multiset(Lows(w))
      && forall x, y :: x in r && y in multiset(Lows(w)) - multiset(r) ==> x <= y
  {
    var s := Lows(w);
    if n > 0 {
      var t := SortInts(s, false);
      var k := |Take(t, n)|;
      IntOrderTotal(false);
      SortedPrefixDominates(s, k, IntOrder(false));
      var r := FallbackSupports(w, n);
      assert multiset(r) == multiset(t[..k]);
      forall x, y | x in r && y in multiset(s) - multiset(r) ensures x <= y {
        assert x in multiset(t[..k]);
        assert y in multiset(t[k..]);
        assert IntOrder(false)(x, y);
      }
    }
  }

  /** The fallback resistances are highs of the frame, and no high left out is higher. */
  lemma FallbackResistancesHighest(w: seq<Bar>, n: int)
    ensures var r := FallbackResistances(w, n);
      && multiset(r) <= multiset(Highs(w))
      && forall x, y :: x in r && y in multiset(Highs(w)) - multiset(r) ==> x >= y
  {
    var s := Highs(w);
    if n > 0 {
      var t := SortInts(s, true);
      var k := |Take(t, n)|;
      IntOrderTotal(true);
      SortedPrefixDominates(s, k, IntOrder(true));
      var r := FallbackResistances(w, n);
      assert multiset(r) == multiset(t[..k]);
      forall x, y | x in r && y in multiset(s) - multiset(r) ensures x >= y {
        assert x in multiset(t[..k]);
        assert y in multiset(t[k..]);
        assert IntOrder(true)(x, y);
      }
    }
  }
}
