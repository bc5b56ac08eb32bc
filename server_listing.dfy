/** `ServerListDetail.list_ext`: marker/limit pagination over the server
    list. Each response is one page; after a page the loop either stops or
    asks for the next page with the limit set to this page's item count and
    the marker set to the page's last id (or to the marker the response
    metadata gives). The server is a finite sequence of pages; a request past
    its end gets an empty page. */
module ServerListing {
  import opened Json

  /** `query_limit_key` and `query_marker_key`. The loop tests
      `query_limit_key` but reads the literal `"limit"`; both are `"limit"`. */
  const LimitKey := "limit"
  const MarkerKey := "marker"
  /** The transient link entry removed from every listed item. */
  const SelfKey := "self"
  /** The body key `existing(**data).id` is read from. */
  const IdKey := "id"

  /** The query parameters after transposition. */
  type Params = map<string, Value>

  /** One response: the listed items, and what `get_next_marker` returns for
      it (`Null` for `None`). */
  datatype Page = Page(items: seq<Record>, nextMarker: Value)

  /** Why a listing stopped. */
  datatype Stop =
    | NoMarker        // `if not new_marker: return`
    | NotPaginated    // `if not paginated: return`
    | ShortPage       // fewer items than the requested limit
    | LimitTypeError  // `yielded < query_params["limit"]` raised `TypeError`
    | EmptyPage       // `more_data` became false: the page had no items

  /** The whole observable run: items yielded, query of every GET, stop reason. */
  datatype Listing = Listing(items: seq<Record>, requests: seq<Params>, stop: Stop)

  /** What happens after one page. */
  datatype Step = Halt(reason: Stop) | Next(params: Params)

  /** The response to the `i`-th request. */
  function PageAt(pages: seq<Page>, i: nat): Page
  {
    if i < |pages| then pages[i] else Page([], Null)
  }

  /** `data.pop("self", None)`: the item as it is yielded. */
  function Strip(r: Record): (s: Record)
    ensures SelfKey !in s
    ensures forall key :: key != SelfKey ==> (key in s <==> key in r)
    ensures forall key :: key in s ==> s[key] == r[key]
  {
    r - {SelfKey}
  }

  /** The yielded items of one page, in the page's order. */
  function StripAll(items: seq<Record>): (r: seq<Record>)
    ensures |r| == |items|
    ensures forall k {:trigger r[k]} :: 0 <= k < |items| ==> r[k] == Strip(items[k])
  {
    seq(|items|, k requires 0 <= k < |items| => Strip(items[k]))
  }

  /** `value.id` of an item (`None` when the item has no id). */
  function IdOf(r: Record): Value
  {
    if IdKey in r then r[IdKey] else Null
  }

  /** The marker after a page: the id of the last yielded item, unless the
      metadata marker is truthy, in which case it wins, and `-1` means none. */
  function MarkerAfter(page: Page): (m: Value)
    ensures Truthy(page.nextMarker) && page.nextMarker != Int(-1) ==> m == page.nextMarker
    ensures page.nextMarker == Int(-1) ==> m == Null
    ensures !Truthy(page.nextMarker) && page.items != [] ==> m == IdOf(page.items[|page.items| - 1])
    ensures !Truthy(page.nextMarker) && page.items == [] ==> m == Null
  {
    var candidate := if page.items == [] then Null else IdOf(Strip(page.items[|page.items| - 1]));
    if Truthy(page.nextMarker) then (if page.nextMarker != Int(-1) then page.nextMarker else Null)
    else candidate
  }

  /** The decisions after the items of a page have been yielded
      (the code after the `for` loop, and the `while more_data` test). */
  function PageStep(params: Params, page: Page, paginated: bool): (s: Step)
    ensures s.Next? ==> page.items != [] && paginated && Truthy(MarkerAfter(page))
    ensures s.Next? ==> LimitKey in params ==> LessThan(|page.items|, params[LimitKey]) == Some(false)
    ensures s == Halt(NoMarker) <==> !Truthy(MarkerAfter(page))
    ensures s == Halt(NotPaginated) <==> Truthy(MarkerAfter(page)) && !paginated
    ensures s == Halt(LimitTypeError) ==> LimitKey in params && LessThan(|page.items|, params[LimitKey]).None?
    ensures s == Halt(ShortPage) ==> LimitKey in params && LessThan(|page.items|, params[LimitKey]) == Some(true)
    ensures s == Halt(EmptyPage) ==>
      page.items == [] && (LimitKey in params ==> LessThan(0, params[LimitKey]) == Some(false))
    ensures s.Next? ==> s.params == params[LimitKey := Int(|page.items|)][MarkerKey := MarkerAfter(page)]
  {
    var yielded := |page.items|;
    var marker := MarkerAfter(page);
    if !Truthy(marker) then Halt(NoMarker)
    else if !paginated then Halt(NotPaginated)
    else if LimitKey in params && LessThan(yielded, params[LimitKey]).None? then Halt(LimitTypeError)
    else if LimitKey in params && LessThan(yielded, params[LimitKey]) == Some(true) then Halt(ShortPage)
    else if page.items == [] then Halt(EmptyPage)
    else Next(params[LimitKey := Int(yielded)][MarkerKey := marker])
  }

  /** The listing from the `i`-th request on, with query `params`. */
  function Run(pages: seq<Page>, i: nat, params: Params, paginated: bool): (r: Listing)
    ensures |r.requests| >= 1 && r.requests[0] == params
    decreases |pages| - i
  {
    var page := PageAt(pages, i);
    match PageStep(params, page, paginated)
    case Halt(reason) => Listing(StripAll(page.items), [params], reason)
    case Next(next) =>
      var rest := Run(pages, i + 1, next, paginated);
      Listing(StripAll(page.items) + rest.items, [params] + rest.requests, rest.stop)
  }

  /** The listing so far followed by the run still to come. */
  function Glue(items: seq<Record>, requests: seq<Params>, rest: Listing): Listing
  {
    Listing(items + rest.items, requests + rest.requests, rest.stop)
  }

  /** When the next page halts, the listing so far plus that page's items is
      the whole run. */
  lemma HaltCloses(pages: seq<Page>, i: nat, params: Params, paginated: bool, reason: Stop,
                   total: Listing, items: seq<Record>, requests: seq<Params>, pageItems: seq<Record>)
    requires PageStep(params, PageAt(pages, i), paginated) == Halt(reason)
    requires total == Glue(items, requests, Run(pages, i, params, paginated))
    requires pageItems == StripAll(PageAt(pages, i).items)
    ensures total == Listing(items + pageItems, requests + [params], reason)
  {
  }

  /** When the next page is followed, the listing so far plus that page's
      items is glued to the run from the following request on. */
  lemma NextCarries(pages: seq<Page>, i: nat, params: Params, paginated: bool, next: Params,
                    total: Listing, items: seq<Record>, requests: seq<Params>, pageItems: seq<Record>)
    requires PageStep(params, PageAt(pages, i), paginated) == Next(next)
    requires total == Glue(items, requests, Run(pages, i, params, paginated))
    requires pageItems == StripAll(PageAt(pages, i).items)
    ensures i < |pages|
    ensures total == Glue(items + pageItems, requests + [params], Run(pages, i + 1, next, paginated))
  {
    var rest := Run(pages, i + 1, next, paginated);
    ConcatAssoc(items, pageItems, rest.items);
    ConcatAssoc(requests, [params], rest.requests);
  }

  lemma ConcatAssoc<T>(a: seq<T>, b: seq<T>, c: seq<T>)
    ensures a + (b + c) == (a + b) + c
  {
  }

  /** The `for data in resources` loop: strips and yields each item in order,
      counting them and remembering the last id as the candidate marker. */
  method YieldPage(resources: seq<Record>) returns (out: seq<Record>, yielded: nat, newMarker: Value)
    ensures out == StripAll(resources)
    ensures yielded == |resources|
    ensures newMarker == if resources == [] then Null else IdOf(Strip(resources[|resources| - 1]))
  {
    out, yielded, newMarker := [], 0, Null;
    for k := 0 to |resources|
      invariant yielded == k
      invariant newMarker == if k == 0 then Null else IdOf(Strip(resources[k - 1]))
      invariant out == StripAll(resources[..k])
    {
      var data := Strip(resources[k]);
      newMarker := IdOf(data);
      yielded := yielded + 1;
      assert resources[..k + 1] == resources[..k] + [resources[k]];
      out := out + [data];
    }
    assert resources[..|resources|] == resources;
  }

  /** The code after the `for` loop: the metadata marker override, the three
      early returns and the update of the query. `halt` is the reason of an
      early return; otherwise `next` is the updated query. The loop's own
      `more_data` test (an empty page) is left to the caller. `page` is the
      response the other arguments were read from. */
  method AfterPage(queryParams: Params, yielded: nat, candidate: Value, nextMarker: Value,
                   paginated: bool, ghost page: Page)
    returns (halt: Option<Stop>, next: Params)
    requires yielded == |page.items| && nextMarker == page.nextMarker
    requires candidate == if page.items == [] then Null else IdOf(Strip(page.items[|page.items| - 1]))
    ensures halt.Some? ==> PageStep(queryParams, page, paginated) == Halt(halt.value)
    ensures halt.None? <==>
      (PageStep(queryParams, page, paginated) == Next(next) || PageStep(queryParams, page, paginated) == Halt(EmptyPage))
  {
    var newMarker := candidate;
    if Truthy(nextMarker) {
      newMarker := if nextMarker != Int(-1) then nextMarker else Null;
    }
    assert newMarker == MarkerAfter(page);
    next := queryParams;
    if !Truthy(newMarker) {
      return Some(NoMarker), next;
    }
    if !paginated {
      return Some(NotPaginated), next;
    }
    if LimitKey in queryParams {
      var shorter := LessThan(yielded, queryParams[LimitKey]);
      if shorter.None? {
        return Some(LimitTypeError), next;
      }
      if shorter.value {
        return Some(ShortPage), next;
      }
    }
    next := next[LimitKey := Int(yielded)];
    next := next[MarkerKey := newMarker];
    halt := None;
  }

  /** `list_ext`, consumed to the end. `query` is the transposed parameters
      (`_query_mapping._transpose(params)`, which is not part of this model);
      `pages` are the server's responses in order. `paginated` defaults to
      `False` in the source, so a bare `list_ext(session)` fetches exactly one
      page (`ListingNotPaginated`). */
  method ListExt(pages: seq<Page>, query: Params, paginated: bool)
    returns (items: seq<Record>, requests: seq<Params>, stop: Stop)
    ensures Listing(items, requests, stop) == Run(pages, 0, query, paginated)
  {
    ghost var total := Run(pages, 0, query, paginated);
    var moreData := true;
    var queryParams := query;
    var i: nat := 0;
    items, requests := [], [];
    while moreData
      invariant i <= |pages| + 1
      invariant moreData ==> i <= |pages|
      invariant moreData ==> total == Glue(items, requests, Run(pages, i, queryParams, paginated))
      invariant !moreData ==> total == Listing(items, requests, EmptyPage)
      decreases |pages| + 1 - i
    {
      ghost var itemsBefore, requestsBefore := items, requests;
      var page := PageAt(pages, i);
      requests := requests + [queryParams];
      var resources := page.items;
      if resources == [] {
        moreData := false;
      }
      var pageItems, yielded, newMarker := YieldPage(resources);
      items := items + pageItems;
      var halt, nextParams := AfterPage(queryParams, yielded, newMarker, page.nextMarker, paginated, page);
      if halt.Some? {
        stop := halt.value;
        HaltCloses(pages, i, queryParams, paginated, stop, total, itemsBefore, requestsBefore, pageItems);
        return;
      }
      if moreData {
        NextCarries(pages, i, queryParams, paginated, nextParams, total, itemsBefore, requestsBefore, pageItems);
      } else {
        HaltCloses(pages, i, queryParams, paginated, EmptyPage, total, itemsBefore, requestsBefore, pageItems);
      }
      queryParams := nextParams;
      i := i + 1;
    }
    stop := EmptyPage;
  }

  /** The items of `count` consecutive pages from `from` on, as yielded. */
  function Yielded(pages: seq<Page>, from: nat, count: nat): seq<Record>
    decreases count
  {
    if count == 0 then [] else StripAll(PageAt(pages, from).items) + Yielded(pages, from + 1, count - 1)
  }

  /** The items of a run are those of its requested pages, in order. */
  lemma {:induction false} RunItems(pages: seq<Page>, i: nat, params: Params, paginated: bool)
    ensures var r := Run(pages, i, params, paginated);
      r.items == Yielded(pages, i, |r.requests|)
    decreases |pages| - i
  {
    var page := PageAt(pages, i);
    match PageStep(params, page, paginated)
    case Halt(reason) =>
      assert Yielded(pages, i, 1) == StripAll(page.items) + [];
    case Next(next) =>
      RunItems(pages, i + 1, next, paginated);
  }

  /** The `j`-th request of a run is followed by the step after the `j`-th page. */
  lemma {:induction false} RunChainAt(pages: seq<Page>, i: nat, params: Params, paginated: bool, j: nat)
    requires j + 1 < |Run(pages, i, params, paginated).requests|
    ensures var r := Run(pages, i, params, paginated);
      PageStep(r.requests[j], PageAt(pages, i + j), paginated) == Next(r.requests[j + 1])
    decreases j
  {
    var r := Run(pages, i, params, paginated);
    match PageStep(params, PageAt(pages, i), paginated)
    case Halt(reason) =>
      assert false;
    case Next(next) =>
      var rest := Run(pages, i + 1, next, paginated);
      assert r.requests == [params] + rest.requests;
      if j == 0 {
        assert r.requests[0] == params && r.requests[1] == next;
        assert PageAt(pages, i + 0) == PageAt(pages, i);
      } else {
        RunChainAt(pages, i + 1, next, paginated, j - 1);
        assert r.requests[j] == rest.requests[j - 1] && r.requests[j + 1] == rest.requests[j - 1 + 1];
        assert i + j == (i + 1) + (j - 1);
      }
  }

  /** Each request of a run after the first is the step after the page before it. */
  lemma RunChain(pages: seq<Page>, i: nat, params: Params, paginated: bool)
    ensures var r := Run(pages, i, params, paginated);
      forall j :: 0 <= j < |r.requests| - 1 ==>
        PageStep(r.requests[j], PageAt(pages, i + j), paginated) == Next(r.requests[j + 1])
  {
    var r := Run(pages, i, params, paginated);
    forall j | 0 <= j < |r.requests| - 1
      ensures PageStep(r.requests[j], PageAt(pages, i + j), paginated) == Next(r.requests[j + 1])
    {
      RunChainAt(pages, i, params, paginated, j);
    }
  }

  /** The step after a run's last requested page is its stop. */
  lemma {:induction false} RunLast(pages: seq<Page>, i: nat, params: Params, paginated: bool)
    ensures var r := Run(pages, i, params, paginated);
      var n := |r.requests|;
      n >= 1 && PageStep(r.requests[n - 1], PageAt(pages, i + n - 1), paginated) == Halt(r.stop)
    decreases |pages| - i
  {
    var page := PageAt(pages, i);
    match PageStep(params, page, paginated)
    case Halt(reason) =>
    case Next(next) =>
      var r := Run(pages, i, params, paginated);
      var rest := Run(pages, i + 1, next, paginated);
      RunLast(pages, i + 1, next, paginated);
      assert r.requests == [params] + rest.requests;
      var n := |r.requests|;
      assert r.requests[n - 1] == rest.requests[|rest.requests| - 1];
      assert i + n - 1 == (i + 1) + |rest.requests| - 1;
  }

  /** A run requests at most one page past the server's last. */
  lemma {:induction false} RunBound(pages: seq<Page>, i: nat, params: Params, paginated: bool)
    ensures |Run(pages, i, params, paginated).requests| <= (if i <= |pages| then |pages| - i + 1 else 1)
    decreases |pages| - i
  {
    match PageStep(params, PageAt(pages, i), paginated)
    case Halt(reason) =>
    case Next(next) =>
      assert i < |pages|;
      RunBound(pages, i + 1, next, paginated);
  }

  /** The shape of every run: the first request uses the given query; the
      items are those of the requested pages, in order; each request after
      the first is the step taken after the page before it; the last page's
      step is the stop; and at most one request goes past the server's pages. */
  lemma RunShape(pages: seq<Page>, i: nat, params: Params, paginated: bool)
    ensures var r := Run(pages, i, params, paginated);
      var n := |r.requests|;
      && n >= 1 && r.requests[0] == params
      && r.items == Yielded(pages, i, n)
      && (forall j :: 0 <= j < n - 1 ==> PageStep(r.requests[j], PageAt(pages, i + j), paginated) == Next(r.requests[j + 1]))
      && PageStep(r.requests[n - 1], PageAt(pages, i + n - 1), paginated) == Halt(r.stop)
      && n <= (if i <= |pages| then |pages| - i + 1 else 1)
  {
    RunItems(pages, i, params, paginated);
    RunChain(pages, i, params, paginated);
    RunLast(pages, i, params, paginated);
    RunBound(pages, i, params, paginated);
  }

  /** Termination: the client stops at the first empty response, so against
      a finite server a listing makes at most one request more than the
      server has pages, and at least one. This is `RunBound` and the
      contract of `Run` for a listing from its first request. */
  lemma ListingTerminates(pages: seq<Page>, query: Params, paginated: bool)
    ensures 1 <= |Run(pages, 0, query, paginated).requests| <= |pages| + 1
  {
    RunShape(pages, 0, query, paginated);
  }

  /** Ordering: the yielded items are the pages' items in the order the
      responses list them, each with its `"self"` entry removed. This is
      `RunItems` for a listing from its first request. */
  lemma ListingYieldsPagesInOrder(pages: seq<Page>, query: Params, paginated: bool)
    ensures var r := Run(pages, 0, query, paginated);
      r.items == Yielded(pages, 0, |r.requests|)
  {
    RunShape(pages, 0, query, paginated);
  }

  /** With `paginated=False` exactly one page is requested, with the given
      query, and only its items are yielded. */
  lemma ListingNotPaginated(pages: seq<Page>, query: Params)
    ensures var r := Run(pages, 0, query, false);
      && r.requests == [query]
      && r.items == StripAll(PageAt(pages, 0).items)
  {
  }

  /** Continuation: every request after the first is a copy of the previous
      query with the limit set to the previous page's item count and the
      marker set to that page's marker; no other parameter changes. A page is
      only followed by another when it was non-empty and had a marker.
      `get_next_marker` is taken not to change the `query_params` dict it is
      given (`server.py:470-473`); "no other parameter changes" rests on this. */
  lemma ListingContinuation(pages: seq<Page>, query: Params, paginated: bool, j: nat)
    requires j + 1 < |Run(pages, 0, query, paginated).requests|
    ensures var r := Run(pages, 0, query, paginated);
      var page := PageAt(pages, j);
      && paginated && page.items != [] && Truthy(MarkerAfter(page))
      && r.requests[j + 1] == r.requests[j][LimitKey := Int(|page.items|)][MarkerKey := MarkerAfter(page)]
      && (forall k :: k != LimitKey && k != MarkerKey ==> (k in r.requests[j + 1] <==> k in r.requests[j]))
      && (forall k :: k != LimitKey && k != MarkerKey && k in r.requests[j] ==> r.requests[j + 1][k] == r.requests[j][k])
  {
    RunShape(pages, 0, query, paginated);
    var r := Run(pages, 0, query, paginated);
    assert PageStep(r.requests[j], PageAt(pages, 0 + j), paginated) == Next(r.requests[j + 1]);
  }

  /** The stop rules: after an empty page, a page without a marker (the
      metadata sentinel `-1` among them) or a page shorter than the requested
      limit, no further request is made. */
  lemma ListingStopRules(pages: seq<Page>, query: Params, paginated: bool, j: nat)
    requires j < |Run(pages, 0, query, paginated).requests|
    ensures var r := Run(pages, 0, query, paginated);
      var page := PageAt(pages, j);
      var last := j == |r.requests| - 1;
      && (page.items == [] ==> last)
      && (!Truthy(MarkerAfter(page)) ==> last && r.stop == NoMarker)
      && (page.nextMarker == Int(-1) ==> last && r.stop == NoMarker)
      && (LimitKey in r.requests[j] && r.requests[j][LimitKey].Int? && |page.items| < r.requests[j][LimitKey].i ==> last)
  {
    RunShape(pages, 0, query, paginated);
    var r := Run(pages, 0, query, paginated);
    if j < |r.requests| - 1 {
      assert PageStep(r.requests[j], PageAt(pages, 0 + j), paginated) == Next(r.requests[j + 1]);
    }
  }

  /** The stop reason is the step after the last requested page. */
  lemma ListingStopReason(pages: seq<Page>, query: Params, paginated: bool)
    ensures var r := Run(pages, 0, query, paginated);
      var n := |r.requests|;
      var page := PageAt(pages, n - 1);
      && (r.stop == NoMarker <==> !Truthy(MarkerAfter(page)))
      && (r.stop == NotPaginated <==> Truthy(MarkerAfter(page)) && !paginated)
      && (r.stop == EmptyPage ==>
            page.items == [] && (LimitKey in r.requests[n - 1] ==> LessThan(0, r.requests[n - 1][LimitKey]) == Some(false)))
      && (r.stop == ShortPage ==>
            LimitKey in r.requests[n - 1] && LessThan(|page.items|, r.requests[n - 1][LimitKey]) == Some(true))
      && (r.stop == LimitTypeError ==>
            LimitKey in r.requests[n - 1] && !(r.requests[n - 1][LimitKey].Int? || r.requests[n - 1][LimitKey].Bool?))
  {
    RunShape(pages, 0, query, paginated);
  }

  /** A record `{"id": n}`. */
  function Item(n: int): Record
  {
    map[IdKey := Int(n)]
  }

  lemma StripItem(n: int)
    ensures Strip(Item(n)) == Item(n)
  {
    assert SelfKey !in Item(n);
    assert Strip(Item(n)).Keys == Item(n).Keys;
  }

  /** Limit 2, pages `[{id:1},{id:2}]` and `[{id:3}]`: items 1, 2, 3 in two
      requests, the second short page ending the listing. */
  lemma ShortLastPageExample()
    ensures var r := Run([Page([Item(1), Item(2)], Null), Page([Item(3)], Null)],
                         0, map[LimitKey := Int(2)], true);
      && r.items == [Item(1), Item(2), Item(3)]
      && r.requests == [map[LimitKey := Int(2)], map[LimitKey := Int(2), MarkerKey := Int(2)]]
      && r.stop == ShortPage
  {
    var pages := [Page([Item(1), Item(2)], Null), Page([Item(3)], Null)];
    var q0: Params := map[LimitKey := Int(2)];
    var q1: Params := map[LimitKey := Int(2), MarkerKey := Int(2)];
    assert MarkerAfter(pages[0]) == Int(2);
    assert PageStep(q0, pages[0], true) == Next(q1);
    assert MarkerAfter(pages[1]) == Int(3);
    assert PageStep(q1, pages[1], true) == Halt(ShortPage);
    StripItem(1); StripItem(2); StripItem(3);
    assert StripAll([Item(1), Item(2)]) == [Item(1), Item(2)];
    assert StripAll([Item(3)]) == [Item(3)];
  }

  /** Limit 2 and a full second page whose response carries the end marker
      `-1`: the listing stops after two requests, with no third one. */
  lemma EndMarkerExample()
    ensures var r := Run([Page([Item(1), Item(2)], Null), Page([Item(3), Item(4)], Int(-1))],
                         0, map[LimitKey := Int(2)], true);
      && r.items == [Item(1), Item(2), Item(3), Item(4)]
      && r.requests == [map[LimitKey := Int(2)], map[LimitKey := Int(2), MarkerKey := Int(2)]]
      && r.stop == NoMarker
  {
    var pages := [Page([Item(1), Item(2)], Null), Page([Item(3), Item(4)], Int(-1))];
    var q0: Params := map[LimitKey := Int(2)];
    var q1: Params := map[LimitKey := Int(2), MarkerKey := Int(2)];
    assert MarkerAfter(pages[0]) == Int(2);
    assert PageStep(q0, pages[0], true) == Next(q1);
    assert MarkerAfter(pages[1]) == Null;
    assert PageStep(q1, pages[1], true) == Halt(NoMarker);
    StripItem(1); StripItem(2); StripItem(3); StripItem(4);
    assert StripAll([Item(1), Item(2)]) == [Item(1), Item(2)];
    assert StripAll([Item(3), Item(4)]) == [Item(3), Item(4)];
  }

  /** Limit 2 and four items in two full pages: the loop cannot tell the
      second page was the last, so a third request is made, and its empty
      response ends the listing: three requests where `ceil(4/2)` is two. */
  lemma FullLastPageExample()
    ensures var r := Run([Page([Item(1), Item(2)], Null), Page([Item(3), Item(4)], Null)],
                         0, map[LimitKey := Int(2)], true);
      && r.items == [Item(1), Item(2), Item(3), Item(4)]
      && |r.requests| == 3
      && r.stop == NoMarker
  {
    var pages := [Page([Item(1), Item(2)], Null), Page([Item(3), Item(4)], Null)];
    var q0: Params := map[LimitKey := Int(2)];
    var q1: Params := map[LimitKey := Int(2), MarkerKey := Int(2)];
    var q2: Params := map[LimitKey := Int(2), MarkerKey := Int(4)];
    assert MarkerAfter(pages[0]) == Int(2);
    assert PageStep(q0, pages[0], true) == Next(q1);
    assert MarkerAfter(pages[1]) == Int(4);
    assert PageStep(q1, pages[1], true) == Next(q2);
    assert PageAt(pages, 2) == Page([], Null);
    assert PageStep(q2, PageAt(pages, 2), true) == Halt(NoMarker);
    StripItem(1); StripItem(2); StripItem(3); StripItem(4);
    assert StripAll([Item(1), Item(2)]) == [Item(1), Item(2)];
    assert StripAll([Item(3), Item(4)]) == [Item(3), Item(4)];
    assert StripAll([]) == [];
  }
}
