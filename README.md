# up-client core in Dafny

This project models the request/response core of the Go client for the Up
banking API (`up/client.go`) and the two services built on it that show every
pattern the other services repeat (`up/account_service.go`, `up/tag_service.go`).

- **UpClient** (`client.dfy`) holds the shared pieces:
  - the client configuration and the constants (base URL, user agent, JSON media type);
  - `newRequest`, with its fixed header rules;
  - `do`, which classifies a finished exchange into a decoded value or one of the client's errors;
  - the text of `ErrorResponse.Error` and of the "failed to decode error response" error;
  - the nil-options short-circuit of `addOptions`.
- **Text** (`text.dfy`) models the `%d` rendering of a status code that goes into that error text.
- **Pagination** (`pagination.dfy`) models `Client.paginate`:
  - the loop fetches a page;
  - it copies the first page whole into `*result` (a `PageRef`);
  - it appends the items of every later page;
  - it follows the `Next` link of the page it just fetched.

  `Paginate` is an imperative method. It is proved against the specification function `Walk`, and lemmas about `Walk` state the properties of the loop: fetch counts, stop conditions, link following and the concatenation of items.
- **AccountsService** (`accounts.dfy`) models two calls:
  - `List`, the only caller of pagination, which hides a partly filled result on error;
  - `Get`, a single GET.
- **TagsService** (`tags.dfy`) models three calls:
  - `AddToTransaction` / `RemoveFromTransaction`. They fill an array of `{type: "tags", id}` entries in a loop and send it with POST or DELETE, decoding nothing.
  - `List`, a single GET that does not paginate.

I/O is given as parameters:
- `Client.resolve` stands for `url.Parse`, resolution against the base URL and `http.NewRequest`, together with their failure message.
- `encode` stands for JSON encoding of a request body.
- `server` maps a request to an `Outcome`. That is either a transport failure, together with whether the context then had an error, or a status with what the body decodes to as an `ErrorResponse` and as the target.
- `encodeQuery` stands for the query-string library inside `addOptions`.

The Go pagination loop has no bound; only a failing fetch, such as one cancelled by the context, ends a chain that never reaches an empty link. `Walk` takes a fuel bound and returns None when the chain is longer than the bound. `Paginate` requires a bound that suffices. `WalkFuelIrrelevant` shows that any sufficient bound gives the same walk.

The code keeps the links of the **first** page. Later pages only append to the item field. So after pagination, the result's `Links` are those of the first page, not the last (`Pagination.ChainResult`). `Paginate` itself leaves `*result` partly filled when a later page fails. `AccountsService.List` then returns no value, so the caller never sees that partial result.

## Model

| member | source | states |
|---|---|---|
| UpClient.Headers | up/client.go:95-100 | Accept and User-Agent are always set to application/json and up-go-client/1.0. Authorization is "Bearer " + token. Content-Type: application/json is present exactly when there is a body, and no other header exists |
| UpClient.BodyAddsOnlyContentType | up/client.go:95-97 | a request without a body has no Content-Type; a body changes the headers only by adding the JSON Content-Type |
| UpClient.NewRequest | up/client.go:73-103 | A path that does not resolve fails with its URL error before the body is looked at. A body that does not encode fails with its encode error. Otherwise the request has the given method, the resolved URL, the header rules above and the encoded body (none without a body). It succeeds exactly in that case |
| UpClient.Do | up/client.go:106-135 | A transport failure gives no response, and the context's error when there is one, otherwise the transport error. Status >= 400 is always an error, the decoded ErrorResponse or the status-decode error. Success happens exactly for an arriving response below 400 whose body decodes when there is a target. A target decode failure comes back unwrapped |
| UpClient.StatusPriority | up/client.go:120-126 | with status >= 400, neither the target body nor whether a target exists changes the reply, and it is an error |
| UpClient.NoTargetIgnoresBody | up/client.go:128-134 | without a target an arriving response succeeds exactly below 400, and the body's decodability as a target makes no difference |
| UpClient.ErrorMessage | up/client.go:176-181 | no entries give "unknown error"; otherwise the text is the first entry's title, ": ", then its detail |
| UpClient.UnknownErrorIffNoEntries | up/client.go:176-181 | the text is "unknown error" if and only if the response has no entries |
| UpClient.StatusDecodeMessage | up/client.go:123 | the text is "http status ", the `%d` rendering of the code, then ": failed to decode error response" |
| UpClient.StatusDecodeMessageInjective | up/client.go:122-123 | the "http status <code>: failed to decode error response" text determines the status code |
| UpClient.ErrorText | up/client.go:120-126 | the error of a decodable failure body prints as ErrorResponse.Error; the status-decode error prints its fixed text with the code |
| UpClient.AddOptions | up/client.go:138-156 | nil options return the path unchanged without calling the query library; otherwise the library's path is returned, or its failure as a query error, and no other error can come out |
| Text.IntText | up/client.go:123 | `%d` of a non-negative code is its numeral; of a negative one, "-" before the numeral of its magnitude |
| Text.Decimal | up/client.go:123 | the `%d` numeral is non-empty, all digits, and has no leading zero |
| Text.DecimalRoundTrip | up/client.go:123 | reading the numeral back gives the number |
| Text.IntTextInjective | up/client.go:123 | different codes render differently, sign included |
| Pagination.NextLink | up/client.go:243-253 | the link the loop continues with is the page's Next link, and empty when the shape has no links |
| Pagination.Merge | up/client.go:228-240 | the result after a non-empty run of pages keeps the first page's links, has no items when the first page's shape has none, and is the page itself for a single page |
| Pagination.Accumulated | up/client.go:206-240 | no page leaves the result holding its initial value; otherwise it carries the first page's links |
| Pagination.Walk | up/client.go:211-256 | The reference definition of the loop. An empty URL ends with nothing sent and no error. A non-empty URL with no fuel left is None. A defined walk sends at most `fuel` requests. One step is as WalkUnfold states |
| Pagination.Append | up/client.go:234-239 | A later page keeps the accumulated links. It appends its items only when both shapes have an item field; otherwise the item field is left as it was |
| Pagination.ItemsAppend | up/client.go:238 | the concatenated items of pages plus one more page are the old items followed by that page's items |
| Pagination.MergeContents | up/client.go:228-240 | The accumulated page keeps the first page's links. When the shape has items, they are every page's items concatenated in fetch order; when it has none, there are none |
| Pagination.AccumulatedStep | up/client.go:228-240 | one more page either becomes the result (first page) or is appended to it |
| Pagination.WalkUnfold | up/client.go:211-253 | One step of the loop from a non-empty URL. A request that cannot be built aborts with no response. An error reply aborts with its response. A decoded page is recorded and the walk continues from its own Next link |
| Pagination.WalkFuelIrrelevant | up/client.go:211 | any sufficient iteration bound gives the same walk |
| Pagination.WalkCounts | up/client.go:211-223 | Every decoded page came from a sent request. At most one request more than pages is sent, and only when the walk aborted. A walk that did not abort sends exactly one request per page, and from a non-empty URL it decodes at least one page |
| Pagination.WalkStartsAt | up/client.go:203-212 | the first request sent is the GET for the initial URL |
| Pagination.WalkPagesAreReplies | up/client.go:218-226 | page i is what the successful reply to request i decoded to |
| Pagination.WalkFollowsLinks | up/client.go:242-253 | every page but the last has a non-empty Next link, and request i+1 is the GET for page i's Next link, not one read from the accumulated result |
| Pagination.WalkStops | up/client.go:242-251 | the last page's Next link is empty exactly when the walk did not abort |
| Pagination.ChainWalk | up/client.go:211-254 | on a chain of N linked pages ending in an empty link, the walk makes exactly N fetches, succeeds and records the pages in chain order |
| Pagination.ChainResult | up/client.go:228-240 | On a chain, the result's links are the first page's. Its items are all pages' items in fetch order when the shape has items. A single page is returned verbatim |
| Pagination.NoLinksOnePage | up/client.go:243-246 | a shape without a links field stops after at most one fetch, whatever the server sends |
| Pagination.PageRef.constructor | up/account_service.go:83 | the result starts out holding the given zero value |
| Pagination.PageRef.Set | up/client.go:228-231 | the first page replaces the whole result |
| Pagination.PageRef.AppendData | up/client.go:234-239 | a later page changes the result exactly as Append says |
| Pagination.WalkAbortsOnRequest | up/client.go:212-215 | a request that cannot be built ends the walk with its error, no response, and nothing further sent or decoded |
| Pagination.WalkAbortsOnReply | up/client.go:220-223 | an error reply ends the walk after its request, returning its response and error, with no page from it |
| Pagination.WalkAdvance | up/client.go:225-253 | a decoded page moves the loop on to the walk from that page's Next link |
| Pagination.WalkEnds | up/client.go:254-256 | an empty URL ends the walk without error, having sent and decoded everything |
| Pagination.Paginate | up/client.go:202-257 | The method sends exactly the walk's requests. It returns the aborting reply's response and error, or no response and no error on success. It leaves the result as the first page followed by the appends of the later decoded pages, including when it aborts after some pages |
| AccountsService.ListPath | up/account_service.go:74-81 | nil options paginate from exactly "accounts" |
| AccountsService.List | up/account_service.go:73-90 | An options error returns no value, no response and that error, before any request. Otherwise the requests and the error are pagination's. Success returns the accumulated value with no response. A pagination error returns no value, so a partial result is never seen. There is a value exactly when there is no error |
| AccountsService.ListOverChain | up/account_service.go:83-89 | on a chain of account pages, List makes one request per page and returns every account in fetch order under the first page's links |
| AccountsService.AccountPath | up/account_service.go:94 | the path is "accounts/" followed by the account ID unchanged |
| AccountsService.Get | up/account_service.go:93-107 | A request that cannot be built gives no value, no response and its error. Otherwise the response is the reply's. There is an account exactly when the reply is below 400 and decodes, and it is the decoded data field. Otherwise the error is do's |
| AccountsService.GetRequestShape | up/account_service.go:94-95 | Get sends a bodiless GET of the resolved "accounts/<id>" with the fixed headers, and fails to build it only when that path does not resolve |
| TagsService.TransactionTagsPath | up/tag_service.go:70 | the path is "transactions/", the transaction ID, then "/relationships/tags" |
| TagsService.TransactionTagsPathInjective | up/tag_service.go:70 | different transactions get different paths |
| TagsService.TagInputs | up/tag_service.go:72-78 | one entry per tag ID, none for no IDs; entry i has type "tags" and ID tagIDs[i] |
| TagsService.TagIDsRoundTrip | up/tag_service.go:73-78 | the IDs read back from the entries are the IDs given, in order |
| TagsService.TagInputsInjective | up/tag_service.go:72-78 | the body's entries determine the ID list |
| TagsService.BuildTagInputs | up/tag_service.go:72-78 | the array has len(tagIDs) entries and equals TagInputs of the IDs |
| TagsService.UpdateRequest | up/tag_service.go:80-83 | The request is built exactly when the transaction tag path resolves and the body of TagInputs encodes. Otherwise it fails with the URL error or the encode error |
| TagsService.UpdateTags | up/tag_service.go:80-85 | A path that does not resolve or a body that does not encode fails with no response. Otherwise the response is the reply's, and the call succeeds exactly when a response arrived below status 400. A failure's error is the one do returns without a target. A success always carries a response |
| TagsService.UpdateRequestShape | up/tag_service.go:80 | the request has the given method, the resolved transaction tag path, the JSON content type and the encoded body of TagInputs |
| TagsService.AddAndRemoveDifferOnlyInMethod | up/tag_service.go:69-106 | Add and Remove build the same request, including the body, except for POST versus DELETE, and one is built exactly when the other is |
| TagsService.UpdateIgnoresResponseBody | up/tag_service.go:85 | with a nil target only the status matters: replies with the same status below 400 give the same result |
| TagsService.SendTagUpdate | up/tag_service.go:70-85 | filling the array, building the request and sending it without a target returns UpdateTags |
| TagsService.AddToTransaction | up/tag_service.go:69-86 | returns UpdateTags with POST |
| TagsService.RemoveFromTransaction | up/tag_service.go:89-106 | returns UpdateTags with DELETE |
| TagsService.ListPath | up/tag_service.go:45-52 | nil options request exactly "tags" |
| TagsService.List | up/tag_service.go:44-66 | An options error or a request that cannot be built gives no value and no response. Otherwise the response is the reply's. There is a value exactly when the reply is below 400 and decodes, and it is the decoded page. Otherwise the error is do's |
| TagsService.ListIsFirstPage | up/tag_service.go:54-65 | List does not paginate: its value is the first page the pagination loop would fetch from the same path, Next link included |

## Left out

- Transport: `http.Client.Do`, TLS, timeouts and closing the body are the `Outcome` oracle. The model has only the fact that the context had an error by the time the transport failed, not cancellation timing.
- JSON encoding and decoding, and the reflection that finds the `Data` and `Links` fields. Encoding is the `encode` oracle, decoding is part of `Outcome`, and the field lookup is the generic `Page` with optional fields.
- `url.Parse`, `ResolveReference` (section 5.2 of RFC 3986) and `http.NewRequest`. These are the `Client.resolve` oracle. A failure of `http.NewRequest` is reported like a URL failure, because only the error value differs.
- `query.Values` and `url.Values.Encode` inside `addOptions`: the `encodeQuery` oracle. The model states the nil short-circuit, that the library's path is passed through, and that its failure comes back as a query error with the library's message.
- `NewClient`: the default `http.Client` with its 30-second timeout, the parsed default base URL and the service wiring. The base URL's only role is inside `resolve`.
- UpClient.ErrorText: errors that come from libraries print their library message, which is not modelled beyond being carried through.
- Resource schema fields: account attributes, tag relationships, money and time values. They are data shapes without logic. `Account` and `Tag` keep only their type and ID.
- The webhook, transaction, category and utility services. Each formats a path and calls `newRequest` and `do` like `AccountsService.Get`.
- The example programs. They read environment variables and print.
- Pagination.Paginate: the model requires a fuel bound within which the walk ends. A chain of Next links that never ends makes the Go loop fetch until the context's deadline or cancellation makes a fetch fail (`do` then returns the context's error). That end appears in the model only as a server whose answer to some URL is a transport failure with the context's error. A run without a deadline never ends and is not described.
- Pagination.Paginate: `server` is a function of the request, and every GET of one URL is the same request. So a repeated fetch of one URL always gets the same answer. A cycle of links is therefore never defined, and neither is a cycle that the context's error ends. A server whose answer to a URL changes between fetches is not described.
