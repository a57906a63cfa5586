/** GET `/` of server/routes/assets.js: the stored assets matching the
    supplied filters, newest first, one page at a time. */
module AssetsRoute {
  import opened Common
  import opened Http
  import opened AssetModel
  import opened Persistence

  /** The query parameters; `page` and `limit` already parsed (absent means
      the handler's default). */
  datatype ListQuery = ListQuery(
    userId: Option<string>, kind: Option<string>, promoName: Option<string>,
    page: Option<int>, limit: Option<int>)

  /** `pages` is `Math.ceil(total / limit)`, which is not finite for a zero
      limit and is then sent as `null`. */
  datatype ListPayload = ListPayload(assets: seq<Asset>, total: nat, page: int, pages: Option<int>)

  // ---------------------------------------------------------------------
  // The filter.

  /** What the filter asks of an asset: each supplied (truthy) parameter
      must equal the asset's field. */
  predicate Wanted(a: Asset, q: ListQuery)
  {
    && (Truthy(q.userId) ==> a.userId == q.userId.value)
    && (Truthy(q.kind) ==> a.kind == q.kind.value)
    && (Truthy(q.promoName) ==> a.promoName == q.promoName.value)
  }

  /** The field a filter key names. */
  function Field(a: Asset, key: string): Option<string>
  {
    if key == "userId" then Some(a.userId)
    else if key == "type" then Some(a.kind)
    else if key == "promoName" then Some(a.promoName)
    else None
  }

  /** `Asset.find(filter)` on one asset: every key of the filter matches. */
  predicate Matches(a: Asset, filter: map<string, string>)
  {
    forall key :: key in filter ==> Field(a, key) == Some(filter[key])
  }

  /** The filter the handler builds: a key for each supplied parameter, and no other key. */
  predicate IsFilterFor(filter: map<string, string>, q: ListQuery)
  {
    && filter.Keys <= {"userId", "type", "promoName"}
    && ("userId" in filter <==> Truthy(q.userId))
    && ("type" in filter <==> Truthy(q.kind))
    && ("promoName" in filter <==> Truthy(q.promoName))
    && ("userId" in filter ==> filter["userId"] == q.userId.value)
    && ("type" in filter ==> filter["type"] == q.kind.value)
    && ("promoName" in filter ==> filter["promoName"] == q.promoName.value)
  }

  /** `const query = {}` and one conditional assignment per parameter. */
  method BuildFilter(q: ListQuery) returns (filter: map<string, string>)
    ensures IsFilterFor(filter, q)
  {
    filter := map[];
    if Truthy(q.userId) {
      filter := filter["userId" := q.userId.value];
    }
    if Truthy(q.kind) {
      filter := filter["type" := q.kind.value];
    }
    if Truthy(q.promoName) {
      filter := filter["promoName" := q.promoName.value];
    }
  }

  /** Any filter built for the parameters selects exactly the wanted assets. */
  lemma FilterSelectsWanted(filter: map<string, string>, q: ListQuery, a: Asset)
    requires IsFilterFor(filter, q)
    ensures Matches(a, filter) <==> Wanted(a, q)
  {
    if Matches(a, filter) {
      if Truthy(q.userId) { assert Field(a, "userId") == Some(filter["userId"]); }
      if Truthy(q.kind) { assert Field(a, "type") == Some(filter["type"]); }
      if Truthy(q.promoName) { assert Field(a, "promoName") == Some(filter["promoName"]); }
    }
  }

  /** The wanted assets, in stored order. */
  function Select(assets: seq<Asset>, q: ListQuery): (r: seq<Asset>)
    ensures |r| <= |assets|
    ensures forall i :: 0 <= i < |r| ==> Wanted(r[i], q)
    ensures forall a :: a in assets && Wanted(a, q) <==> a in r
    ensures multiset(r) <= multiset(assets)
  {
    if assets == [] then []
    else
      var rest := Select(assets[1..], q);
      assert assets == [assets[0]] + assets[1..];
      assert multiset(assets) == multiset{assets[0]} + multiset(assets[1..]);
      if Wanted(assets[0], q) then [assets[0]] + rest else rest
  }

  /** Selecting from a collection that starts with `x`. */
  lemma SelectCons(x: Asset, t: seq<Asset>, q: ListQuery)
    ensures Select([x] + t, q) == (if Wanted(x, q) then [x] else []) + Select(t, q)
  {
    assert ([x] + t)[0] == x && ([x] + t)[1..] == t;
  }

  /** The selection keeps the stored order: selecting from two stretches
      of the collection gives the first stretch's matches, then the second's. */
  lemma {:induction false} SelectAppend(s: seq<Asset>, t: seq<Asset>, q: ListQuery)
    ensures Select(s + t, q) == Select(s, q) + Select(t, q)
  {
    if s == [] {
      assert s + t == t;
    } else {
      var x, u := s[0], s[1..];
      var head := if Wanted(x, q) then [x] else [];
      assert s + t == [x] + (u + t) && s == [x] + u;
      calc {
        Select(s + t, q);
        { SelectCons(x, u + t, q); }
        head + Select(u + t, q);
        { SelectAppend(u, t, q); }
        head + (Select(u, q) + Select(t, q));
        { ConcatAssoc(head, Select(u, q), Select(t, q)); }
        (head + Select(u, q)) + Select(t, q);
        { SelectCons(x, u, q); }
        Select(s, q) + Select(t, q);
      }
    }
  }

  /** Every wanted asset is selected as many times as it is stored, and no
      other asset is selected: `total` counts duplicates too. */
  lemma {:induction false} SelectCounts(assets: seq<Asset>, q: ListQuery)
    ensures forall a :: multiset(Select(assets, q))[a] == if Wanted(a, q) then multiset(assets)[a] else 0
  {
    if assets != [] {
      var x, u := assets[0], assets[1..];
      assert assets == [x] + u;
      SelectCounts(u, q);
      SelectCons(x, u, q);
      assert multiset(assets) == multiset{x} + multiset(u);
    }
  }

  // ---------------------------------------------------------------------
  // `.sort({ createdAt: -1 })`.

  predicate NewestFirst(s: seq<Asset>)
  {
    forall i, j :: 0 <= i < j < |s| ==> s[i].createdAt >= s[j].createdAt
  }

  /** Puts `a` before the first asset that is not newer than it. */
  function Insert(a: Asset, s: seq<Asset>): (r: seq<Asset>)
    requires NewestFirst(s)
    ensures NewestFirst(r)
    ensures multiset(r) == multiset(s) + multiset{a}
    ensures r[0] == a || (s != [] && r[0] == s[0])
  {
    if s == [] || s[0].createdAt <= a.createdAt then
      ConsNewestFirst(a, s);
      [a] + s
    else
      var rest := Insert(a, s[1..]);
      assert s == [s[0]] + s[1..];
      ConsNewestFirst(s[0], rest);
      [s[0]] + rest
  }

  /** A newest-first sequence stays so when an asset at least as new as its
      head is put in front. */
  lemma ConsNewestFirst(x: Asset, t: seq<Asset>)
    requires NewestFirst(t)
    requires t == [] || t[0].createdAt <= x.createdAt
    ensures NewestFirst([x] + t)
  {
    var r := [x] + t;
    forall i, j | 0 <= i < j < |r|
      ensures r[i].createdAt >= r[j].createdAt
    {
      if i == 0 && j > 1 {
        assert t[0].createdAt >= t[j - 1].createdAt;
      }
    }
  }

  /** Insertion sort, newest first: a permutation of its input. */
  function SortNewestFirst(s: seq<Asset>): (r: seq<Asset>)
    ensures NewestFirst(r)
    ensures multiset(r) == multiset(s)
  {
    if s == [] then []
    else
      assert s == [s[0]] + s[1..];
      Insert(s[0], SortNewestFirst(s[1..]))
  }

  // ---------------------------------------------------------------------
  // `.skip(skip).limit(limit)` and the page count.

  /** Skips `skip` assets, then keeps `limit` of them; a zero limit keeps
      all, a negative one keeps as many as its magnitude. */
  function Window(s: seq<Asset>, skip: nat, limit: int): (r: seq<Asset>)
  {
    var rest := if skip <= |s| then s[skip..] else [];
    var n := if limit < 0 then -limit else limit;
    if limit == 0 || n >= |rest| then rest else rest[..n]
  }

  /** `Math.ceil(total / limit)` for a non-zero limit. */
  function CeilDiv(total: nat, limit: int): (r: int)
    requires limit != 0
  {
    if limit > 0 then (total + limit - 1) / limit else -(total / -limit)
  }

  /** CeilDiv is the least integer at or above `total / limit`. */
  lemma CeilDivIsCeiling(total: nat, limit: int)
    requires limit != 0
    ensures var r := CeilDiv(total, limit);
            r as real >= total as real / limit as real && (r - 1) as real < total as real / limit as real
  {
    var r := CeilDiv(total, limit);
    var x := total as real / limit as real;
    if limit > 0 {
      assert (r - 1) * limit < total <= r * limit;
      assert x * limit as real == total as real;
    } else {
      var m := -limit;
      var q := total / m;
      assert q * m <= total < (q + 1) * m;
      assert x * m as real == -(total as real);
    }
  }

  /** The page asked for, 1 by default. */
  function PageOf(q: ListQuery): int
  {
    if q.page.Some? then q.page.value else 1
  }

  /** The page size asked for, 10 by default. */
  function LimitOf(q: ListQuery): int
  {
    if q.limit.Some? then q.limit.value else 10
  }

  /** `(page - 1) * limit`. */
  function SkipOf(q: ListQuery): int
  {
    (PageOf(q) - 1) * LimitOf(q)
  }

  /** How many assets `.limit(limit)` lets through, for a non-zero limit. */
  function Magnitude(limit: int): nat
  {
    if limit < 0 then -limit else limit
  }

  /** The wanted assets, newest first, before paging. */
  function Listed(assets: seq<Asset>, q: ListQuery): seq<Asset>
  {
    SortNewestFirst(Select(assets, q))
  }

  function ListSpec(assets: seq<Asset>, q: ListQuery): Response<ListPayload>
  {
    if SkipOf(q) < 0 then Error(500, "Failed to fetch assets")
    else
      var total := |Select(assets, q)|;
      Ok(ListPayload(Window(Listed(assets, q), SkipOf(q), LimitOf(q)), total, PageOf(q),
                     if LimitOf(q) == 0 then None else Some(CeilDiv(total, LimitOf(q)))))
  }

  /** The handler, on the store's asset collection. */
  method ListAssets(store: Store, q: ListQuery) returns (resp: Response<ListPayload>)
    ensures resp == ListSpec(store.assets, q)
  {
    var filter := BuildFilter(q);
    var page := if q.page.Some? then q.page.value else 1;
    var limit := if q.limit.Some? then q.limit.value else 10;
    var skip := (page - 1) * limit;
    assert page == PageOf(q) && limit == LimitOf(q) && skip == SkipOf(q);
    if skip < 0 {
      return Error(500, "Failed to fetch assets");
    }
    var matching := FindMatching(store.assets, filter, q);
    var total := |matching|;
    var pages := if limit == 0 then None else Some(CeilDiv(total, limit));
    resp := Ok(ListPayload(Window(SortNewestFirst(matching), skip, limit), total, page, pages));
  }

  /** `Asset.find(filter)`, by a scan in stored order. */
  method FindMatching(assets: seq<Asset>, filter: map<string, string>, q: ListQuery) returns (r: seq<Asset>)
    requires IsFilterFor(filter, q)
    ensures r == Select(assets, q)
  {
    r := [];
    var i := |assets|;
    while i > 0
      invariant 0 <= i <= |assets|
      invariant r == Select(assets[i..], q)
    {
      i := i - 1;
      FilterSelectsWanted(filter, q, assets[i]);
      assert assets[i..][1..] == assets[i + 1..];
      if Matches(assets[i], filter) {
        r := [assets[i]] + r;
      }
    }
    assert assets[0..] == assets;
  }

  // ---------------------------------------------------------------------
  // Properties of the listing.

  /** A successful listing is the window at `skip` over the wanted assets
      sorted newest first. */
  lemma ListSpecUnfolds(assets: seq<Asset>, q: ListQuery)
    requires ListSpec(assets, q).Ok?
    ensures var p := ListSpec(assets, q).payload;
            && SkipOf(q) >= 0
            && p.assets == Window(Listed(assets, q), SkipOf(q), LimitOf(q))
            && p.total == |Select(assets, q)| == |Listed(assets, q)|
            && p.pages == (if LimitOf(q) == 0 then None else Some(CeilDiv(p.total, LimitOf(q))))
  {
    assert |multiset(Listed(assets, q))| == |multiset(Select(assets, q))|;
  }

  /** A page is newest first, holds only wanted assets, and never more than
      the limit's magnitude; `total` counts every wanted asset. */
  lemma ListPageFacts(assets: seq<Asset>, q: ListQuery)
    requires ListSpec(assets, q).Ok?
    ensures var p := ListSpec(assets, q).payload;
            && NewestFirst(p.assets)
            && (forall i :: 0 <= i < |p.assets| ==> Wanted(p.assets[i], q) && p.assets[i] in assets)
            && (LimitOf(q) != 0 ==> |p.assets| <= Magnitude(LimitOf(q)))
            && p.total == |Select(assets, q)|
  {
    ListSpecUnfolds(assets, q);
    var sorted := Listed(assets, q);
    var p := ListSpec(assets, q).payload;
    WindowIsSlice(sorted, SkipOf(q), LimitOf(q));
    forall i | 0 <= i < |p.assets|
      ensures Wanted(p.assets[i], q) && p.assets[i] in assets
    {
      assert p.assets[i] in sorted;
      assert p.assets[i] in multiset(sorted);
      assert p.assets[i] in multiset(Select(assets, q));
    }
  }

  /** A window is a contiguous run of its input starting at `skip`, of the
      limit's magnitude unless the input runs out first. */
  lemma WindowIsSlice(s: seq<Asset>, skip: nat, limit: int)
    ensures var r := Window(s, skip, limit);
            && (skip <= |s| ==> skip + |r| <= |s| && r == s[skip..skip + |r|])
            && (skip >= |s| ==> r == [])
            && (limit != 0 ==> |r| <= Magnitude(limit))
            && (limit != 0 && skip <= |s| ==>
                  |r| == if Magnitude(limit) < |s| - skip then Magnitude(limit) else |s| - skip)
            && (limit == 0 && skip <= |s| ==> r == s[skip..])
            && (limit != 0 && skip < |s| ==> |r| > 0)
            && (NewestFirst(s) ==> NewestFirst(r))
  {
    var r := Window(s, skip, limit);
    if skip <= |s| {
      assert r == s[skip..skip + |r|];
    }
  }

  /** `(pages - 1) * limit < total <= pages * limit` for a positive limit. */
  lemma CeilDivBounds(total: nat, limit: int)
    requires limit > 0
    ensures (CeilDiv(total, limit) - 1) * limit < total <= CeilDiv(total, limit) * limit
  {
  }

  /** With a positive limit, the pages cover the wanted assets: page `p` is
      non-empty exactly when `1 <= p <= pages`. */
  lemma PagesCoverMatches(assets: seq<Asset>, q: ListQuery)
    requires LimitOf(q) > 0 && PageOf(q) >= 1
    ensures var p := ListSpec(assets, q).payload;
            ListSpec(assets, q).Ok? && p.pages.Some? &&
            (|p.assets| > 0 <==> PageOf(q) <= p.pages.value)
  {
    SkipSign(q);
    ListSpecUnfolds(assets, q);
    SkipWithinTotal(|Select(assets, q)|, q);
    WindowIsSlice(Listed(assets, q), SkipOf(q), LimitOf(q));
  }

  /** The sign of `skip` for a positive limit follows the page. */
  lemma SkipSign(q: ListQuery)
    ensures PageOf(q) >= 1 && LimitOf(q) >= 0 ==> SkipOf(q) >= 0
    ensures PageOf(q) < 1 && LimitOf(q) > 0 ==> SkipOf(q) < 0
  {
    if PageOf(q) >= 1 && LimitOf(q) >= 0 {
      MulNonNegative(PageOf(q) - 1, LimitOf(q));
    }
    if PageOf(q) < 1 && LimitOf(q) > 0 {
      MulMonotone(PageOf(q) - 1, -1, LimitOf(q));
    }
  }

  /** Page `page` starts inside the `total` assets exactly when it is one
      of the `ceil(total / limit)` pages. */
  lemma SkipWithinTotal(total: nat, q: ListQuery)
    requires LimitOf(q) > 0 && PageOf(q) >= 1
    ensures SkipOf(q) < total <==> PageOf(q) <= CeilDiv(total, LimitOf(q))
  {
    var page, limit := PageOf(q), LimitOf(q);
    var pages := CeilDiv(total, limit);
    CeilDivBounds(total, limit);
    if page <= pages {
      MulMonotone(page - 1, pages - 1, limit);
    } else {
      MulMonotone(pages, page - 1, limit);
    }
  }

  lemma MulNonNegative(a: int, b: int)
    requires a >= 0 && b >= 0
    ensures a * b >= 0
  {
  }

  lemma MulMonotone(a: int, b: int, c: int)
    requires a <= b && c > 0
    ensures a * c <= b * c
  {
  }

  /** `total` and `pages` do not depend on the page asked for. */
  lemma TotalIgnoresPage(assets: seq<Asset>, q: ListQuery, page: int)
    requires ListSpec(assets, q).Ok? && ListSpec(assets, q.(page := Some(page))).Ok?
    ensures ListSpec(assets, q.(page := Some(page))).payload.total == ListSpec(assets, q).payload.total
    ensures ListSpec(assets, q.(page := Some(page))).payload.pages == ListSpec(assets, q).payload.pages
  {
    SelectIgnoresPaging(assets, q, q.(page := Some(page)));
  }

  lemma {:induction false} SelectIgnoresPaging(assets: seq<Asset>, q: ListQuery, q': ListQuery)
    requires q.userId == q'.userId && q.kind == q'.kind && q.promoName == q'.promoName
    ensures Select(assets, q) == Select(assets, q')
  {
    if assets != [] {
      SelectIgnoresPaging(assets[1..], q, q');
    }
  }

  /** A skip below zero (a page below 1 with a positive limit) is refused by
      the database, and the handler answers 500. */
  lemma NegativeSkipFails(assets: seq<Asset>, q: ListQuery)
    requires q.page.Some? && q.page.value < 1
    requires q.limit.None? || q.limit.value > 0
    ensures ListSpec(assets, q) == Error(500, "Failed to fetch assets")
  {
    SkipSign(q);
  }

  /** With no paging parameters, the first ten wanted assets, newest first. */
  lemma DefaultPaging(assets: seq<Asset>, q: ListQuery)
    requires q.page.None? && q.limit.None?
    ensures var r := ListSpec(assets, q);
            var sorted := Listed(assets, q);
            && r.Ok? && r.payload.page == 1
            && r.payload.assets == (if |sorted| <= 10 then sorted else sorted[..10])
  {
    assert Listed(assets, q)[0..] == Listed(assets, q);
  }
}
