/**
 Reading a paged route to the end: the client's loop over the server's window,
 for a list that does not change while it is read.
 */
module Pages {
  import opened Values

  const MAX_LIMIT: nat := 200
  const MAX_PAGE_SIZE: nat := 200
  const MAX_LOADED_ITEMS: nat := 2000

  function Min(a: int, b: int): int {
    if a <= b then a else b
  }

  /** `items[offset : offset + limit]`. */
  function Slice<T>(items: seq<T>, offset: nat, limit: nat): seq<T> {
    if offset >= |items| then []
    else if offset + limit <= |items| then items[offset..offset + limit]
    else items[offset..]
  }

  /** One page as the route answered it, with the total when it has the header. */
  datatype Page<T> = Page(items: seq<T>, total: Option<nat>)

  /** A route that answers a window of `items`. */
  datatype Route<T> = Route(items: seq<T>, reportsTotal: bool)
  {
    /** `window`, behind the bounds of `window_params`: None is a refused query. */
    function Window(limit: int, offset: int): Option<Page<T>> {
      if limit < 1 || limit > MAX_LIMIT || offset < 0 then None
      else Some(Page(Slice(items, offset, limit), if reportsTotal then Some(|items|) else None))
    }
  }

  datatype Loaded<T> = Loaded(items: seq<T>, total: Option<nat>, truncated: bool)

  /** `loadAllPages`; None when a query is refused. With a total, it returns
      exactly the first items of the list, up to the ceiling, and says that some
      are missing exactly when some are. Without one it stops after one page,
      and says that a full page may not be everything. */
  method LoadAllPages<T>(route: Route<T>, maxItems: int := MAX_LOADED_ITEMS) returns (r: Option<Loaded<T>>)
    ensures r.None? <==> maxItems < 1
    ensures r.Some? && route.reportsTotal ==>
              && r.value.items == route.items[..Min(|route.items|, maxItems)]
              && r.value.total == Some(|route.items|)
              && (r.value.truncated <==> |route.items| > maxItems)
    ensures r.Some? && !route.reportsTotal ==>
              var limit := Min(200, maxItems);
              && r.value.items == route.items[..Min(|route.items|, limit)]
              && r.value.total.None?
              && (r.value.truncated <==> |route.items| >= limit)
  {
    var items: seq<T> := [];
    while true
      invariant |items| <= |route.items| && items == route.items[..|items|]
      invariant items == [] || |items| < maxItems
      invariant !route.reportsTotal ==> items == []
      decreases |route.items| - |items|
    {
      var limit := Min(MAX_PAGE_SIZE, maxItems - |items|);
      var answer := route.Window(limit, |items|);
      if answer.None? {
        return None;
      }
      var page := answer.value;
      assert page.items == route.items[|items|..Min(|route.items|, |items| + limit)];
      items := items + page.items;
      var pageWasFull := |page.items| >= limit;
      if page.total.None? {
        return Some(Loaded(items, None, pageWasFull));
      }
      if !pageWasFull || |items| >= page.total.value || |items| >= maxItems {
        return Some(Loaded(items, page.total, |items| < page.total.value));
      }
    }
  }
}
