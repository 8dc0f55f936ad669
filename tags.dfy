/**
 The tag calls of up/tag_service.go: List, a single request that does not
 paginate, and AddToTransaction / RemoveFromTransaction, which build the same
 JSON body from a list of tag IDs and send it with POST or DELETE.
 */
module TagsService {
  import opened Wrappers
  import opened UpClient
  import opened Pagination

  /** A tag resource; its transactions relationship is not modelled. */
  datatype Tag = Tag(resourceType: string, id: string)

  /** TagListResponse has both an item field and a links field. */
  type TagListResponse = Page<Tag>

  /** One entry of the body of a tag update: a resource type and a tag ID. */
  datatype TagInputResource = TagInputResource(resourceType: string, id: string)

  /** The body of a tag update. */
  datatype UpdateTransactionTagsRequest = UpdateTransactionTagsRequest(data: seq<TagInputResource>)

  /** The resource type every entry of a tag update carries. */
  const TagsType: string := "tags"

  const TagsPath: string := "tags"

  const TransactionsPrefix: string := "transactions/"
  const RelationshipSuffix: string := "/relationships/tags"

  /** The path both tag updates use: "transactions/<id>/relationships/tags". */
  function TransactionTagsPath(transactionID: string): (p: string)
    ensures |p| == |TransactionsPrefix| + |transactionID| + |RelationshipSuffix|
    ensures p[..|TransactionsPrefix|] == TransactionsPrefix
    ensures p[|TransactionsPrefix|..|p| - |RelationshipSuffix|] == transactionID
    ensures p[|p| - |RelationshipSuffix|..] == RelationshipSuffix
  {
    TransactionsPrefix + transactionID + RelationshipSuffix
  }

  /** Different transactions are never sent to the same path. */
  lemma TransactionTagsPathInjective(a: string, b: string)
    ensures TransactionTagsPath(a) == TransactionTagsPath(b) ==> a == b
  {
  }

  /** The entries the loop writes: one per tag ID, in order, each of type "tags". */
  function TagInputs(tagIDs: seq<string>): (r: seq<TagInputResource>)
    ensures |r| == |tagIDs|
    ensures forall i :: 0 <= i < |r| ==> r[i].resourceType == TagsType && r[i].id == tagIDs[i]
  {
    if tagIDs == [] then [] else [TagInputResource(TagsType, tagIDs[0])] + TagInputs(tagIDs[1..])
  }

  /** The tag IDs a body names, in order. */
  function TagIDs(inputs: seq<TagInputResource>): (ids: seq<string>)
    ensures |ids| == |inputs|
  {
    if inputs == [] then [] else [inputs[0].id] + TagIDs(inputs[1..])
  }

  /** Building the entries loses nothing: the IDs read back are the IDs given. */
  lemma {:induction false} TagIDsRoundTrip(tagIDs: seq<string>)
    ensures TagIDs(TagInputs(tagIDs)) == tagIDs
  {
    if tagIDs != [] {
      var r := TagInputs(tagIDs);
      assert r[1..] == TagInputs(tagIDs[1..]);
      TagIDsRoundTrip(tagIDs[1..]);
      assert tagIDs == [tagIDs[0]] + tagIDs[1..];
    }
  }

  /** Entries built from different ID lists differ: the body determines the IDs. */
  lemma TagInputsInjective(a: seq<string>, b: seq<string>)
    ensures TagInputs(a) == TagInputs(b) ==> a == b
  {
  }

  /** The loop of both tag updates: a slice of len(tagIDs) entries filled in index order. */
  method BuildTagInputs(tagIDs: seq<string>) returns (tags: array<TagInputResource>)
    ensures tags.Length == |tagIDs|
    ensures tags[..] == TagInputs(tagIDs)
  {
    tags := new TagInputResource[|tagIDs|];
    for i := 0 to |tagIDs|
      invariant forall j :: 0 <= j < i ==> tags[j] == TagInputResource(TagsType, tagIDs[j])
    {
      tags[i] := TagInputResource(TagsType, tagIDs[i]);
    }
  }

  /** The request a tag update sends, before the server is asked. */
  function UpdateRequest(c: Client, httpMethod: string, transactionID: string, tagIDs: seq<string>,
                         encode: UpdateTransactionTagsRequest -> Result<Bytes, string>): (r: Result<Request, Error>)
    ensures var body := UpdateTransactionTagsRequest(TagInputs(tagIDs));
      var resolved := c.resolve(TransactionTagsPath(transactionID));
      && (r.Success? <==> resolved.Success? && encode(body).Success?)
      && (resolved.Failure? ==> r == Failure(UrlError(resolved.error)))
      && (resolved.Success? && encode(body).Failure? ==> r == Failure(EncodeError(encode(body).error)))
  {
    NewRequest(c, httpMethod, TransactionTagsPath(transactionID),
               Some(UpdateTransactionTagsRequest(TagInputs(tagIDs))), encode)
  }

  /**
   The (response, error) pair a tag update returns. The body is always there,
   so a path that does not resolve or a body that does not encode fails before
   any request is sent; otherwise the call succeeds exactly when a response
   arrived with a status below 400, whatever its body holds.
   */
  function UpdateTags(c: Client, server: Request -> Outcome<()>, httpMethod: string, transactionID: string,
                      tagIDs: seq<string>, encode: UpdateTransactionTagsRequest -> Result<Bytes, string>)
    : (r: (Option<Response>, Option<Error>))
    ensures var body := UpdateTransactionTagsRequest(TagInputs(tagIDs));
      var resolved := c.resolve(TransactionTagsPath(transactionID));
      && (resolved.Failure? ==> r == (None, Some(UrlError(resolved.error))))
      && (resolved.Success? && encode(body).Failure? ==> r == (None, Some(EncodeError(encode(body).error))))
    ensures UpdateRequest(c, httpMethod, transactionID, tagIDs, encode).Success? ==>
              var o := server(UpdateRequest(c, httpMethod, transactionID, tagIDs, encode).value);
              && r.0 == (if o.Responded? then Some(Response(o.status)) else None)
              && (r.1.None? <==> o.Responded? && o.status < 400)
              && (r.1.Some? ==> r.1.value == Do(o, false).result.error)
    ensures r.1.None? ==> r.0.Some?
  {
    match UpdateRequest(c, httpMethod, transactionID, tagIDs, encode)
    case Failure(e) => (None, Some(e))
    case Success(req) =>
      var x := Do(server(req), false);
      (x.resp, if x.result.Failure? then Some(x.result.error) else None)
  }

  /** The request of a tag update: to the transaction's tag path, with the JSON body naming the given tags. */
  lemma UpdateRequestShape(c: Client, httpMethod: string, transactionID: string, tagIDs: seq<string>,
                           encode: UpdateTransactionTagsRequest -> Result<Bytes, string>)
    requires UpdateRequest(c, httpMethod, transactionID, tagIDs, encode).Success?
    ensures var req := UpdateRequest(c, httpMethod, transactionID, tagIDs, encode).value;
      && req.httpMethod == httpMethod
      && req.url == c.resolve(TransactionTagsPath(transactionID)).value
      && req.header["Content-Type"] == JsonMediaType
      && req.body == Some(encode(UpdateTransactionTagsRequest(TagInputs(tagIDs))).value)
  {
  }

  /** Adding and removing the same tags send the same request but for its method. */
  lemma AddAndRemoveDifferOnlyInMethod(c: Client, transactionID: string, tagIDs: seq<string>,
                                       encode: UpdateTransactionTagsRequest -> Result<Bytes, string>)
    ensures UpdateRequest(c, "POST", transactionID, tagIDs, encode).Success? <==>
            UpdateRequest(c, "DELETE", transactionID, tagIDs, encode).Success?
    ensures UpdateRequest(c, "POST", transactionID, tagIDs, encode).Success? ==>
              UpdateRequest(c, "DELETE", transactionID, tagIDs, encode).value ==
              UpdateRequest(c, "POST", transactionID, tagIDs, encode).value.(httpMethod := "DELETE")
  {
  }

  /** A tag update never reads the response body: servers answering with the same status give the same result. */
  lemma UpdateIgnoresResponseBody(c: Client, s1: Request -> Outcome<()>, s2: Request -> Outcome<()>, httpMethod: string,
                                  transactionID: string, tagIDs: seq<string>,
                                  encode: UpdateTransactionTagsRequest -> Result<Bytes, string>)
    requires UpdateRequest(c, httpMethod, transactionID, tagIDs, encode).Success?
    requires var req := UpdateRequest(c, httpMethod, transactionID, tagIDs, encode).value;
      s1(req).Responded? && s2(req).Responded? && s1(req).status == s2(req).status && s1(req).status < 400
    ensures UpdateTags(c, s1, httpMethod, transactionID, tagIDs, encode) ==
            UpdateTags(c, s2, httpMethod, transactionID, tagIDs, encode)
  {
  }

  /** The steps both tag updates share: fill the entries, build the request, send it without a target. */
  method SendTagUpdate(c: Client, server: Request -> Outcome<()>, httpMethod: string, transactionID: string,
                       tagIDs: seq<string>, encode: UpdateTransactionTagsRequest -> Result<Bytes, string>)
    returns (resp: Option<Response>, err: Option<Error>)
    ensures (resp, err) == UpdateTags(c, server, httpMethod, transactionID, tagIDs, encode)
  {
    var u := TransactionTagsPath(transactionID);
    var tags := BuildTagInputs(tagIDs);
    var req := NewRequest(c, httpMethod, u, Some(UpdateTransactionTagsRequest(tags[..])), encode);
    if req.Failure? {
      resp, err := None, Some(req.error);
      return;
    }
    var x := Do(server(req.value), false);
    resp := x.resp;
    err := if x.result.Failure? then Some(x.result.error) else None;
  }

  /** AddToTransaction: POST the tags to the transaction. */
  method AddToTransaction(c: Client, server: Request -> Outcome<()>, transactionID: string, tagIDs: seq<string>,
                          encode: UpdateTransactionTagsRequest -> Result<Bytes, string>)
    returns (resp: Option<Response>, err: Option<Error>)
    ensures (resp, err) == UpdateTags(c, server, "POST", transactionID, tagIDs, encode)
  {
    resp, err := SendTagUpdate(c, server, "POST", transactionID, tagIDs, encode);
  }

  /** RemoveFromTransaction: DELETE the tags from the transaction. */
  method RemoveFromTransaction(c: Client, server: Request -> Outcome<()>, transactionID: string, tagIDs: seq<string>,
                               encode: UpdateTransactionTagsRequest -> Result<Bytes, string>)
    returns (resp: Option<Response>, err: Option<Error>)
    ensures (resp, err) == UpdateTags(c, server, "DELETE", transactionID, tagIDs, encode)
  {
    resp, err := SendTagUpdate(c, server, "DELETE", transactionID, tagIDs, encode);
  }

  /** The path List fetches: "tags", with the options' query when there are options. */
  function ListPath(opts: Option<ListOptions>, encodeQuery: (string, ListOptions) -> Result<string, string>)
    : (r: Result<string, Error>)
    ensures opts.None? ==> r == Success(TagsPath)
  {
    AddOptions(TagsPath, opts, encodeQuery)
  }

  /**
   List: one GET of the list path. An options error or a request that cannot
   be built returns no response; otherwise the decoded page is returned with
   the response, or the error with the response.
   */
  function List(c: Client, server: Request -> Outcome<TagListResponse>, opts: Option<ListOptions>,
                encodeQuery: (string, ListOptions) -> Result<string, string>): (r: Answer<TagListResponse>)
    ensures r.value.None? <==> r.err.Some?
    ensures ListPath(opts, encodeQuery).Failure? ==> r == Answer(None, None, Some(ListPath(opts, encodeQuery).error))
    ensures ListPath(opts, encodeQuery).Success? && GetRequest(c, ListPath(opts, encodeQuery).value).Failure? ==>
              r == Answer(None, None, Some(GetRequest(c, ListPath(opts, encodeQuery).value).error))
    ensures ListPath(opts, encodeQuery).Success? && GetRequest(c, ListPath(opts, encodeQuery).value).Success? ==>
              var o := server(GetRequest(c, ListPath(opts, encodeQuery).value).value);
              && r.resp == (if o.Responded? then Some(Response(o.status)) else None)
              && (r.value.Some? <==> o.Responded? && o.status < 400 && o.targetBody.Success?)
              && (r.value.Some? ==> r.value.value == o.targetBody.value)
              && (r.err.Some? ==> r.err.value == Do(o, true).result.error)
  {
    match ListPath(opts, encodeQuery)
    case Failure(e) => Answer(None, None, Some(e))
    case Success(u) =>
      match GetRequest(c, u)
      case Failure(e) => Answer(None, None, Some(e))
      case Success(req) =>
        var x := Do(server(req), true);
        match x.result
        case Failure(e) => Answer(None, x.resp, Some(e))
        case Success(decoded) => Answer(Some(decoded.value), x.resp, None)
  }

  /**
   List does not paginate: what it returns is the first page the pagination
   loop would fetch from the same path, Next link included, however many pages follow.
   */
  lemma ListIsFirstPage(c: Client, server: Request -> Outcome<TagListResponse>, opts: Option<ListOptions>,
                        encodeQuery: (string, ListOptions) -> Result<string, string>, fuel: nat)
    requires ListPath(opts, encodeQuery).Success? && ListPath(opts, encodeQuery).value != ""
    requires Walk(c, server, ListPath(opts, encodeQuery).value, fuel).Some?
    requires List(c, server, opts, encodeQuery).value.Some?
    ensures var w := Walk(c, server, ListPath(opts, encodeQuery).value, fuel).value;
      |w.pages| > 0 && w.pages[0] == List(c, server, opts, encodeQuery).value.value
  {
  }
}
