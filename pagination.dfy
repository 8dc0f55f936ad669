/**
 The pagination engine of up/client.go (`Client.paginate`): fetch a page, take
 it whole if it is the first, otherwise append its items, and follow the `Next`
 link of the page just fetched until that link is empty or the page shape has
 no links at all.

 The reflection over "Data" and "Links" fields becomes the generic `Page`: a
 field the shape does not have is None. The server is an oracle from request to
 outcome. The Go loop has no bound; the specification function `Walk` takes a
 fuel bound and is None when the chain is longer, and `Paginate` requires a bound
 that suffices (on a chain that never ends the Go loop does not return).
 */
module Pagination {
  import opened Wrappers
  import opened UpClient

  /** A list response: its item array and its links, each None when the shape lacks that field. */
  datatype Page<T> = Page(data: Option<seq<T>>, links: Option<Links>)

  /** The continuation the loop reads from a page; empty means stop. */
  function NextLink<T>(p: Page<T>): (u: string)
    ensures p.links.None? ==> u == ""
    ensures p.links.Some? ==> u == p.links.value.next
  {
    if p.links.Some? then p.links.value.next else ""
  }

  /** A later page's contribution: its items are appended, and only when both shapes have items. */
  function Append<T>(acc: Page<T>, p: Page<T>): (r: Page<T>)
    ensures r.links == acc.links
    ensures r.data == if acc.data.Some? && p.data.Some? then Some(acc.data.value + p.data.value) else acc.data
  {
    if acc.data.Some? && p.data.Some? then acc.(data := Some(acc.data.value + p.data.value)) else acc
  }

  /** The value the result holds after the given pages were fetched in order: the first whole, then appends. */
  function Merge<T>(pages: seq<Page<T>>): (r: Page<T>)
    requires |pages| > 0
    ensures r.links == pages[0].links
    ensures pages[0].data.None? ==> r.data.None?
    ensures |pages| == 1 ==> r == pages[0]
  {
    if |pages| == 1 then pages[0] else Append(Merge(pages[..|pages| - 1]), pages[|pages| - 1])
  }

  /** The result value after `pages` were fetched into a result that held `init`. */
  function Accumulated<T>(init: Page<T>, pages: seq<Page<T>>): (r: Page<T>)
    ensures pages == [] ==> r == init
    ensures pages != [] ==> r.links == pages[0].links
  {
    if pages == [] then init else Merge(pages)
  }

  /** The items of the pages, concatenated in order; a page without an item field contributes none. */
  function Items<T>(pages: seq<Page<T>>): seq<T> {
    if pages == [] then [] else (if pages[0].data.Some? then pages[0].data.value else []) + Items(pages[1..])
  }

  lemma {:induction false} ItemsAppend<T>(pages: seq<Page<T>>, p: Page<T>)
    ensures Items(pages + [p]) == Items(pages) + (if p.data.Some? then p.data.value else [])
  {
    if pages != [] {
      assert (pages + [p])[1..] == pages[1..] + [p];
      ItemsAppend(pages[1..], p);
    }
  }

  /**
   The merged result keeps the first page's links, and its items are the
   concatenation of every page's items in fetch order, provided the shape has
   an item field at all.
   */
  lemma {:induction false} MergeContents<T>(pages: seq<Page<T>>)
    requires |pages| > 0
    ensures Merge(pages).links == pages[0].links
    ensures pages[0].data.None? ==> Merge(pages).data.None?
    ensures pages[0].data.Some? ==> Merge(pages).data == Some(Items(pages))
  {
    if |pages| == 1 {
      assert pages[1..] == [];
      assert Merge(pages) == pages[0];
      if pages[0].data.Some? {
        assert Items(pages) == pages[0].data.value + Items(pages[1..]);
        assert Items(pages) == pages[0].data.value;
      }
    } else {
      var init, last := pages[..|pages| - 1], pages[|pages| - 1];
      assert init + [last] == pages && init[0] == pages[0];
      MergeContents(init);
      ItemsAppend(init, last);
      assert Merge(pages) == Append(Merge(init), last);
      if pages[0].data.Some? && last.data.None? {
        assert Items(init) + [] == Items(init);
      }
    }
  }

  /** The GET request paginate builds for a page URL. */
  function GetRequest(c: Client, url: string): Result<Request, Error> {
    NewRequestWithoutBody(c, "GET", url)
  }

  /** An aborted walk: the response (if one arrived) and the error paginate returns. */
  datatype Failed = Failed(resp: Option<Response>, error: Error)

  /** What a walk did: the requests sent to the server, the pages decoded, and how it ended. */
  datatype Trace<T> = Trace(sent: seq<Request>, pages: seq<Page<T>>, failure: Option<Failed>)

  function Prepend<T>(req: Request, page: Page<T>, rest: Option<Trace<T>>): Option<Trace<T>> {
    match rest
    case None => None
    case Some(t) => Some(Trace([req] + t.sent, [page] + t.pages, t.failure))
  }

  /**
   The loop of paginate from `url` on, with at most `fuel` fetches: an empty URL
   ends it at once; a request that cannot be built, or a reply that is an error,
   aborts it; a decoded page is recorded and its own Next link is followed.
   */
  function Walk<T>(c: Client, server: Request -> Outcome<Page<T>>, url: string, fuel: nat): (w: Option<Trace<T>>)
    ensures url == "" ==> w == Some(Trace([], [], None))
    ensures url != "" && fuel == 0 ==> w.None?
    ensures w.Some? ==> |w.value.sent| <= fuel
    decreases fuel
  {
    if url == "" then Some(Trace([], [], None))
    else if fuel == 0 then None
    else match GetRequest(c, url)
      case Failure(e) => Some(Trace([], [], Some(Failed(None, e))))
      case Success(req) =>
        var x := Do(server(req), true);
        match x.result
        case Failure(e) => Some(Trace([req], [], Some(Failed(x.resp, e))))
        case Success(decoded) =>
          var page := decoded.value;
          Prepend(req, page, Walk(c, server, NextLink(page), fuel - 1))
  }

  /** One step of a walk from a non-empty URL, unfolded. */
  lemma WalkUnfold<T>(c: Client, server: Request -> Outcome<Page<T>>, url: string, fuel: nat)
    requires url != "" && Walk(c, server, url, fuel).Some?
    ensures fuel > 0
    ensures GetRequest(c, url).Failure? ==>
              Walk(c, server, url, fuel) == Some(Trace([], [], Some(Failed(None, GetRequest(c, url).error))))
    ensures GetRequest(c, url).Success? ==>
              var req := GetRequest(c, url).value;
              var x := Do(server(req), true);
              && (x.result.Failure? ==> Walk(c, server, url, fuel) == Some(Trace([req], [], Some(Failed(x.resp, x.result.error)))))
              && (x.result.Success? ==>
                    && x.result.value.Some?
                    && var page := x.result.value.value;
                       && Walk(c, server, NextLink(page), fuel - 1).Some?
                       && var t := Walk(c, server, NextLink(page), fuel - 1).value;
                          Walk(c, server, url, fuel) == Some(Trace([req] + t.sent, [page] + t.pages, t.failure)))
  {
  }

  lemma AccumulatedStep<T>(init: Page<T>, pages: seq<Page<T>>, p: Page<T>)
    ensures Accumulated(init, pages + [p]) == if pages == [] then p else Append(Accumulated(init, pages), p)
  {
  }

  /** More fuel than a walk needs changes nothing: the bound is not part of the behaviour. */
  lemma {:induction false} WalkFuelIrrelevant<T>(c: Client, server: Request -> Outcome<Page<T>>, url: string,
                                                 fuel: nat, more: nat)
    requires Walk(c, server, url, fuel).Some? && fuel <= more
    ensures Walk(c, server, url, more) == Walk(c, server, url, fuel)
    decreases fuel
  {
    if url != "" && GetRequest(c, url).Success? {
      var req := GetRequest(c, url).value;
      var x := Do(server(req), true);
      if x.result.Success? {
        WalkFuelIrrelevant(c, server, NextLink(x.result.value.value), fuel - 1, more - 1);
      }
    }
  }

  /**
   Counting fetches: every decoded page came from a request sent; at most one
   request more than pages was sent, and only when the walk was aborted by the
   reply to it; a walk that was not aborted sent exactly one request per page.
   */
  lemma {:induction false} WalkCounts<T>(c: Client, server: Request -> Outcome<Page<T>>, url: string, fuel: nat)
    requires Walk(c, server, url, fuel).Some?
    ensures var w := Walk(c, server, url, fuel).value;
      && |w.pages| <= |w.sent| <= |w.pages| + 1
      && (w.failure.None? ==> |w.sent| == |w.pages|)
      && (|w.sent| == |w.pages| + 1 ==> w.failure.Some?)
      && (url != "" && w.failure.None? ==> |w.pages| > 0)
    decreases fuel
  {
    if url != "" && GetRequest(c, url).Success? {
      var req := GetRequest(c, url).value;
      var x := Do(server(req), true);
      if x.result.Success? {
        WalkCounts(c, server, NextLink(x.result.value.value), fuel - 1);
      }
    }
  }

  /** The first request of a walk is the GET for its starting URL. */
  lemma WalkStartsAt<T>(c: Client, server: Request -> Outcome<Page<T>>, url: string, fuel: nat)
    requires Walk(c, server, url, fuel).Some?
    ensures var w := Walk(c, server, url, fuel).value;
      |w.sent| > 0 ==> url != "" && GetRequest(c, url) == Success(w.sent[0])
  {
  }

  /** The reply to `req` is a success whose decoded target is `page`. */
  ghost predicate DecodedTo<T>(server: Request -> Outcome<Page<T>>, req: Request, page: Page<T>) {
    Do(server(req), true).result == Success(Some(page))
  }

  /** Page i of a walk is what the reply to request i decoded to. */
  lemma {:induction false} WalkPagesAreReplies<T>(c: Client, server: Request -> Outcome<Page<T>>, url: string, fuel: nat,
                                                  w: Trace<T>)
    requires Walk(c, server, url, fuel) == Some(w)
    ensures |w.pages| <= |w.sent|
    ensures forall i :: 0 <= i < |w.pages| ==> DecodedTo(server, w.sent[i], w.pages[i])
    decreases fuel
  {
    if url != "" && GetRequest(c, url).Success? {
      var req := GetRequest(c, url).value;
      var x := Do(server(req), true);
      if x.result.Success? {
        var next := NextLink(x.result.value.value);
        var t := Walk(c, server, next, fuel - 1).value;
        WalkPagesAreReplies(c, server, next, fuel - 1, t);
        forall i | 0 <= i < |w.pages|
          ensures DecodedTo(server, w.sent[i], w.pages[i])
        {
          if i > 0 {
            assert w.pages[i] == t.pages[i - 1] && w.sent[i] == t.sent[i - 1];
          }
        }
      }
    }
  }

  /**
   Continuation is read from the page just fetched: every page but the last of a
   walk has a non-empty Next link, and the request after page i is the GET for it.
   */
  lemma {:induction false} WalkFollowsLinks<T>(c: Client, server: Request -> Outcome<Page<T>>, url: string, fuel: nat,
                                               w: Trace<T>)
    requires Walk(c, server, url, fuel) == Some(w)
    ensures forall i :: 0 <= i < |w.pages| - 1 ==> NextLink(w.pages[i]) != ""
    ensures forall i :: 0 <= i < |w.sent| - 1 ==> i < |w.pages| && GetRequest(c, NextLink(w.pages[i])) == Success(w.sent[i + 1])
    decreases fuel
  {
    if url != "" && GetRequest(c, url).Success? {
      var req := GetRequest(c, url).value;
      var x := Do(server(req), true);
      if x.result.Success? {
        var page := x.result.value.value;
        var next := NextLink(page);
        var t := Walk(c, server, next, fuel - 1).value;
        WalkFollowsLinks(c, server, next, fuel - 1, t);
        WalkCounts(c, server, next, fuel - 1);
        WalkStartsAt(c, server, next, fuel - 1);
        assert w.sent == [req] + t.sent && w.pages == [page] + t.pages;
        forall i | 0 <= i < |w.sent| - 1
          ensures i < |w.pages| && GetRequest(c, NextLink(w.pages[i])) == Success(w.sent[i + 1])
        {
          if i > 0 {
            assert w.pages[i] == t.pages[i - 1] && w.sent[i + 1] == t.sent[i];
          }
        }
        forall i | 0 <= i < |w.pages| - 1
          ensures NextLink(w.pages[i]) != ""
        {
          if i > 0 {
            assert w.pages[i] == t.pages[i - 1];
          } else {
            assert |t.pages| > 0;
          }
        }
      }
    }
  }

  /**
   How a walk ends: one that was not aborted stops on a page whose Next link is
   empty; an aborted one ends on a page whose non-empty link it was following.
   */
  lemma {:induction false} WalkStops<T>(c: Client, server: Request -> Outcome<Page<T>>, url: string, fuel: nat)
    requires Walk(c, server, url, fuel).Some?
    ensures var w := Walk(c, server, url, fuel).value;
      |w.pages| > 0 ==> (NextLink(w.pages[|w.pages| - 1]) == "" <==> w.failure.None?)
    decreases fuel
  {
    if url != "" && GetRequest(c, url).Success? {
      var req := GetRequest(c, url).value;
      var x := Do(server(req), true);
      if x.result.Success? {
        var page := x.result.value.value;
        var next := NextLink(page);
        WalkStops(c, server, next, fuel - 1);
        WalkCounts(c, server, next, fuel - 1);
        var w := Walk(c, server, url, fuel).value;
        var t := Walk(c, server, next, fuel - 1).value;
        assert w.pages == [page] + t.pages;
        if |t.pages| > 0 {
          assert w.pages[|w.pages| - 1] == t.pages[|t.pages| - 1];
        }
      }
    }
  }

  /**
   A finite chain of pages served from `url`: each page is what a successful
   reply to its GET decodes to; every page but the last has a non-empty Next link
   naming the following page's URL, and the last page's Next link is empty.
   */
  ghost predicate Chain<T>(c: Client, server: Request -> Outcome<Page<T>>, url: string, pages: seq<Page<T>>)
    decreases |pages|
  {
    && |pages| > 0
    && url != ""
    && GetRequest(c, url).Success?
    && Serves(server(GetRequest(c, url).value), pages[0])
    && (if |pages| == 1 then NextLink(pages[0]) == ""
        else NextLink(pages[0]) != "" && Chain(c, server, NextLink(pages[0]), pages[1..]))
  }

  /** The server answered with a success status and a body that decodes to `p`. */
  ghost predicate Serves<T>(o: Outcome<Page<T>>, p: Page<T>) {
    o.Responded? && o.status < 400 && o.targetBody == Success(p)
  }

  /**
   On a chain of N pages the walk makes exactly N fetches, one per page, ends
   without error, and records the pages in chain order.
   */
  lemma {:induction false} ChainWalk<T>(c: Client, server: Request -> Outcome<Page<T>>, url: string, pages: seq<Page<T>>)
    requires Chain(c, server, url, pages)
    ensures Walk(c, server, url, |pages|).Some?
    ensures var w := Walk(c, server, url, |pages|).value;
      w.pages == pages && |w.sent| == |pages| && w.failure.None?
    decreases |pages|
  {
    var req := GetRequest(c, url).value;
    assert Do(server(req), true).result == Success(Some(pages[0]));
    if |pages| > 1 {
      ChainWalk(c, server, NextLink(pages[0]), pages[1..]);
      assert [pages[0]] + pages[1..] == pages;
    }
  }

  /**
   What a chain leaves in the result: the first page's links (later pages'
   links are never copied) and, when the shape has items, all the pages' items
   in fetch order.
   */
  lemma ChainResult<T>(c: Client, server: Request -> Outcome<Page<T>>, url: string, pages: seq<Page<T>>, init: Page<T>)
    requires Chain(c, server, url, pages)
    ensures Walk(c, server, url, |pages|).Some?
    ensures var r := Accumulated(init, Walk(c, server, url, |pages|).value.pages);
      && r.links == pages[0].links
      && (pages[0].data.Some? ==> r.data == Some(Items(pages)))
      && (pages[0].data.None? ==> r.data.None?)
      && (|pages| == 1 ==> r == pages[0])
  {
    ChainWalk(c, server, url, pages);
    MergeContents(pages);
  }

  /**
   A shape without links (CategoryListResponse has none) never continues: at
   most one page is fetched, whatever the server sends.
   */
  lemma NoLinksOnePage<T>(c: Client, server: Request -> Outcome<Page<T>>, url: string, fuel: nat)
    requires forall r :: server(r).Responded? && server(r).targetBody.Success? ==> server(r).targetBody.value.links.None?
    requires fuel > 0
    ensures Walk(c, server, url, fuel).Some?
    ensures |Walk(c, server, url, fuel).value.sent| <= 1 && |Walk(c, server, url, fuel).value.pages| <= 1
  {
  }

  /** The `*result` paginate writes through: a reference to a page value. */
  class PageRef<T> {
    var page: Page<T>

    constructor (init: Page<T>)
      ensures page == init
    {
      page := init;
    }

    /** `resultValue.Set(pageValue)`: the first page is copied whole. */
    method Set(p: Page<T>)
      modifies this
      ensures page == p
    {
      page := p;
    }

    /** The append of a later page: only the item field changes, and only when both pages have one. */
    method AppendData(p: Page<T>)
      modifies this
      ensures page == Append(old(page), p)
    {
      if page.data.Some? && p.data.Some? {
        page := page.(data := Some(page.data.value + p.data.value));
      }
    }
  }

  /**
   The bookkeeping of one turn of paginate's loop: `whole` is split into what
   has been sent and decoded so far and the walk `ahead` from the current URL.
   */
  ghost predicate SplitAt<T>(whole: Trace<T>, sent: seq<Request>, pages: seq<Page<T>>, ahead: Trace<T>) {
    whole == Trace(sent + ahead.sent, pages + ahead.pages, ahead.failure)
  }

  /** A request that cannot be built ends the walk with nothing more sent or decoded. */
  lemma WalkAbortsOnRequest<T>(c: Client, server: Request -> Outcome<Page<T>>, url: string, fuel: nat,
                               whole: Trace<T>, sent: seq<Request>, pages: seq<Page<T>>, ahead: Trace<T>)
    requires url != "" && Walk(c, server, url, fuel) == Some(ahead) && SplitAt(whole, sent, pages, ahead)
    requires GetRequest(c, url).Failure?
    ensures whole == Trace(sent, pages, Some(Failed(None, GetRequest(c, url).error)))
  {
  }

  /** An error reply ends the walk after its request, with no page decoded from it. */
  lemma WalkAbortsOnReply<T>(c: Client, server: Request -> Outcome<Page<T>>, url: string, fuel: nat,
                             whole: Trace<T>, sent: seq<Request>, pages: seq<Page<T>>, ahead: Trace<T>, req: Request)
    requires url != "" && Walk(c, server, url, fuel) == Some(ahead) && SplitAt(whole, sent, pages, ahead)
    requires GetRequest(c, url) == Success(req) && Do(server(req), true).result.Failure?
    ensures var x := Do(server(req), true);
      whole == Trace(sent + [req], pages, Some(Failed(x.resp, x.result.error)))
  {
  }

  /** A decoded page moves the split one step along, to the walk from the page's Next link. */
  lemma WalkAdvance<T>(c: Client, server: Request -> Outcome<Page<T>>, url: string, fuel: nat,
                       whole: Trace<T>, sent: seq<Request>, pages: seq<Page<T>>, ahead: Trace<T>, req: Request)
    requires url != "" && Walk(c, server, url, fuel) == Some(ahead) && SplitAt(whole, sent, pages, ahead)
    requires GetRequest(c, url) == Success(req) && Do(server(req), true).result.Success?
    ensures fuel > 0 && Do(server(req), true).result.value.Some?
    ensures var page := Do(server(req), true).result.value.value;
      && Walk(c, server, NextLink(page), fuel - 1).Some?
      && SplitAt(whole, sent + [req], pages + [page], Walk(c, server, NextLink(page), fuel - 1).value)
  {
  }

  /** The loop stops at an empty URL: nothing is ahead, so everything has been sent and decoded. */
  lemma WalkEnds<T>(c: Client, server: Request -> Outcome<Page<T>>, fuel: nat,
                    whole: Trace<T>, sent: seq<Request>, pages: seq<Page<T>>, ahead: Trace<T>)
    requires Walk(c, server, "", fuel) == Some(ahead) && SplitAt(whole, sent, pages, ahead)
    ensures whole == Trace(sent, pages, None)
  {
  }

  /**
   paginate: walk the chain from `initialURL`, writing the first page and then
   the appended items through `result`. On an error it returns the reply's
   response (nil when the request could not be built) and the error, leaving in
   `result` whatever the pages fetched so far put there; on success both are nil.
   `sent` records the requests given to the server, in order.
   */
  method Paginate<T>(c: Client, server: Request -> Outcome<Page<T>>, initialURL: string, result: PageRef<T>, ghost fuel: nat)
    returns (resp: Option<Response>, err: Option<Error>, ghost sent: seq<Request>)
    requires Walk(c, server, initialURL, fuel).Some?
    modifies result
    ensures var w := Walk(c, server, initialURL, fuel).value;
      && sent == w.sent
      && resp == (if w.failure.Some? then w.failure.value.resp else None)
      && err == (if w.failure.Some? then Some(w.failure.value.error) else None)
      && result.page == Accumulated(old(result.page), w.pages)
  {
    ghost var whole := Walk(c, server, initialURL, fuel).value;
    ghost var pages: seq<Page<T>> := [];
    ghost var rest := fuel;
    ghost var ahead := whole;
    assert SplitAt(whole, [], [], ahead) by {
      assert ahead.sent == [] + ahead.sent && ahead.pages == [] + ahead.pages;
    }
    sent := [];
    var nextPageURL := initialURL;
    var firstPage := true;
    while nextPageURL != ""
      invariant Walk(c, server, nextPageURL, rest) == Some(ahead)
      invariant SplitAt(whole, sent, pages, ahead)
      invariant firstPage <==> pages == []
      invariant result.page == Accumulated(old(result.page), pages)
      decreases rest
    {
      var req := GetRequest(c, nextPageURL);
      if req.Failure? {
        WalkAbortsOnRequest(c, server, nextPageURL, rest, whole, sent, pages, ahead);
        resp, err := None, Some(req.error);
        return;
      }
      var x := Do(server(req.value), true);
      if x.result.Failure? {
        WalkAbortsOnReply(c, server, nextPageURL, rest, whole, sent, pages, ahead, req.value);
        sent := sent + [req.value];
        resp, err := x.resp, Some(x.result.error);
        return;
      }
      WalkAdvance(c, server, nextPageURL, rest, whole, sent, pages, ahead, req.value);
      var page := x.result.value.value;
      AccumulatedStep(old(result.page), pages, page);
      sent := sent + [req.value];
      pages := pages + [page];
      ahead := Walk(c, server, NextLink(page), rest - 1).value;
      rest := rest - 1;
      if firstPage {
        result.Set(page);
        firstPage := false;
      } else {
        result.AppendData(page);
      }
      if page.links.None? {
        break;
      }
      if page.links.value.next == "" {
        break;
      }
      nextPageURL := page.links.value.next;
    }
    WalkEnds(c, server, rest, whole, sent, pages, ahead);
    resp, err := None, None;
  }
}
