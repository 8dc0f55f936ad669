/**
 The account calls of up/account_service.go: List, the one caller of the
 pagination engine, and Get, a single request.
 */
module AccountsService {
  import opened Wrappers
  import opened UpClient
  import opened Pagination

  /** An account resource; only its type and id are modelled. */
  datatype Account = Account(resourceType: string, id: string)

  /** AccountListResponse has both an item field and a links field. */
  type AccountListResponse = Page<Account>

  datatype AccountGetResponse = AccountGetResponse(data: Account)

  /** The filters of the list call, beside the shared list options. */
  datatype ListAccountsOptions = ListAccountsOptions(list: ListOptions, accountType: string, ownershipType: string)

  /** The zero value `var accounts AccountListResponse` that List hands to paginate. */
  const EmptyAccountList: AccountListResponse := Page(Some([]), Some(Links("", "")))

  const AccountsPath: string := "accounts"

  /** The path List paginates from: "accounts", with the options' query when there are options. */
  function ListPath(opts: Option<ListAccountsOptions>,
                    encodeQuery: (string, ListAccountsOptions) -> Result<string, string>): (r: Result<string, Error>)
    ensures opts.None? ==> r == Success(AccountsPath)
  {
    AddOptions(AccountsPath, opts, encodeQuery)
  }

  /**
   List: build the path, paginate into a fresh zero value, and hand the result
   back only when pagination succeeded. An options error returns before any
   request is sent; a pagination error returns the error and the reply's
   response but never the partly filled result.
   */
  method List(c: Client, server: Request -> Outcome<AccountListResponse>, opts: Option<ListAccountsOptions>,
              encodeQuery: (string, ListAccountsOptions) -> Result<string, string>, ghost fuel: nat)
    returns (accounts: Option<AccountListResponse>, resp: Option<Response>, err: Option<Error>, ghost sent: seq<Request>)
    requires ListPath(opts, encodeQuery).Success? ==> Walk(c, server, ListPath(opts, encodeQuery).value, fuel).Some?
    ensures accounts.None? <==> err.Some?
    ensures ListPath(opts, encodeQuery).Failure? ==>
              accounts.None? && resp.None? && err == Some(ListPath(opts, encodeQuery).error) && sent == []
    ensures ListPath(opts, encodeQuery).Success? ==>
              var w := Walk(c, server, ListPath(opts, encodeQuery).value, fuel).value;
              && sent == w.sent
              && (w.failure.Some? ==> resp == w.failure.value.resp && err == Some(w.failure.value.error))
              && (w.failure.None? ==> accounts == Some(Accumulated(EmptyAccountList, w.pages)) && resp.None?)
  {
    var u := AccountsPath;
    if opts.Some? {
      var r := AddOptions(u, opts, encodeQuery);
      if r.Failure? {
        accounts, resp, err, sent := None, None, Some(r.error), [];
        return;
      }
      u := r.value;
    }
    var result := new PageRef(EmptyAccountList);
    resp, err, sent := Paginate(c, server, u, result, fuel);
    if err.Some? {
      accounts := None;
      return;
    }
    accounts := Some(result.page);
  }

  /**
   On a finite chain of account pages served from the list path, List makes one
   request per page and returns every account in fetch order under the first
   page's links.
   */
  lemma ListOverChain(c: Client, server: Request -> Outcome<AccountListResponse>, opts: Option<ListAccountsOptions>,
                      encodeQuery: (string, ListAccountsOptions) -> Result<string, string>, pages: seq<AccountListResponse>)
    requires ListPath(opts, encodeQuery).Success?
    requires Chain(c, server, ListPath(opts, encodeQuery).value, pages)
    requires forall i :: 0 <= i < |pages| ==> pages[i].data.Some?
    ensures var w := Walk(c, server, ListPath(opts, encodeQuery).value, |pages|);
      && w.Some? && w.value.failure.None? && |w.value.sent| == |pages|
      && Accumulated(EmptyAccountList, w.value.pages) == Page(Some(Items(pages)), pages[0].links)
  {
    ChainWalk(c, server, ListPath(opts, encodeQuery).value, pages);
    MergeContents(pages);
  }

  /** The path Get fetches: "accounts/" followed by the ID as it is. */
  function AccountPath(accountID: string): (p: string)
    ensures |p| == |AccountsPath| + 1 + |accountID|
    ensures p[..|AccountsPath| + 1] == "accounts/"
    ensures p[|AccountsPath| + 1..] == accountID
  {
    AccountsPath + "/" + accountID
  }

  /**
   Get: one GET of "accounts/<id>"; on success the account is the decoded
   response's data, on failure there is no account.
   */
  function Get(c: Client, server: Request -> Outcome<AccountGetResponse>, accountID: string): (r: Answer<Account>)
    ensures r.value.None? <==> r.err.Some?
    ensures NewRequestWithoutBody(c, "GET", AccountPath(accountID)).Failure? ==>
              r == Answer(None, None, Some(NewRequestWithoutBody(c, "GET", AccountPath(accountID)).error))
    ensures NewRequestWithoutBody(c, "GET", AccountPath(accountID)).Success? ==>
              var o := server(NewRequestWithoutBody(c, "GET", AccountPath(accountID)).value);
              && r.resp == (if o.Responded? then Some(Response(o.status)) else None)
              && (r.value.Some? <==> o.Responded? && o.status < 400 && o.targetBody.Success?)
              && (r.value.Some? ==> r.value.value == o.targetBody.value.data)
              && (r.err.Some? ==> r.err.value == Do(o, true).result.error)
  {
    match NewRequestWithoutBody(c, "GET", AccountPath(accountID))
    case Failure(e) => Answer(None, None, Some(e))
    case Success(req) =>
      var x := Do(server(req), true);
      match x.result
      case Failure(e) => Answer(None, x.resp, Some(e))
      case Success(decoded) => Answer(Some(decoded.value.data), x.resp, None)
  }

  /**
   The one request Get sends: a bodiless GET of the resolved "accounts/<id>"
   with the fixed headers; it can only fail to be built when the path does not resolve.
   */
  lemma GetRequestShape(c: Client, accountID: string)
    ensures NewRequestWithoutBody(c, "GET", AccountPath(accountID)).Success? <==> c.resolve("accounts/" + accountID).Success?
    ensures c.resolve("accounts/" + accountID).Success? ==>
              NewRequestWithoutBody(c, "GET", AccountPath(accountID)) ==
              Success(Request("GET", c.resolve("accounts/" + accountID).value, Headers(c.token, false), None))
  {
    assert AccountPath(accountID) == "accounts/" + accountID;
  }
}
