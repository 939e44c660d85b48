/** The wallet-activity proxy: a serverless handler and a development
    middleware that validate a request, issue six asset-transfer queries to
    the indexing API (outgoing and incoming, for plain transfers, ERC-20
    tokens and NFTs) and answer with three summed counts.

    The indexing API's answers are an input: `upstream` maps each query to
    what its request resolved to (or that it was rejected). */
module WalletActivity {
  import opened Common

  const DefaultNetworkUrl := "https://arb-mainnet.g.alchemy.com/v2"

  datatype Category = External | Erc20 | Erc721 | Erc1155

  /** One `alchemy_getAssetTransfers` request. */
  datatype Query = Query(url: string, fromAddress: Option<string>, toAddress: Option<string>, category: seq<Category>)

  /** The `result.transfers` member of a reply. */
  datatype Transfers = Missing | NotAnArray | TransferList(length: nat)

  /** A request either rejects (network failure, unparsable reply) or
      resolves to a reply. */
  datatype Upstream = Rejected | Resolved(transfers: Transfers)

  datatype Body = NoBody | ErrorBody(error: string) | CountsBody(transactions: nat, erc20: nat, nft: nat)

  datatype Response = Response(status: nat, headers: map<string, string>, body: Body)

  /** The response together with the queries issued to produce it. */
  datatype Handled = Handled(response: Response, queries: seq<Query>)

  const CorsHeaders: map<string, string> := map[
    "Access-Control-Allow-Origin" := "*",
    "Access-Control-Allow-Methods" := "POST, OPTIONS",
    "Access-Control-Allow-Headers" := "Content-Type"]

  /** A key of a query's `params[0]` object. */
  datatype ParamKey = FromAddressKey | ToAddressKey | CategoryKey | WithMetadataKey

  /** The keys of a query's `params[0]` object; the address keys appear only
      when that address is given. */
  function ParamKeys(q: Query): (keys: seq<ParamKey>)
    ensures FromAddressKey in keys <==> Truthy(q.fromAddress)
    ensures ToAddressKey in keys <==> Truthy(q.toAddress)
    ensures |keys| >= 2 && keys[|keys| - 2..] == [CategoryKey, WithMetadataKey]
  {
    var tail := [CategoryKey, WithMetadataKey];
    match (Truthy(q.fromAddress), Truthy(q.toAddress))
    case (true, true) => [FromAddressKey, ToAddressKey] + tail
    case (true, false) => [FromAddressKey] + tail
    case (false, true) => [ToAddressKey] + tail
    case (false, false) => tail
  }

  /** The six queries, in the order the handler awaits them. */
  function Queries(url: string, address: string): (qs: seq<Query>)
    ensures |qs| == 6
  {
    [ Query(url, Some(address), None, [External]),
      Query(url, None, Some(address), [External]),
      Query(url, Some(address), None, [Erc20]),
      Query(url, None, Some(address), [Erc20]),
      Query(url, Some(address), None, [Erc721, Erc1155]),
      Query(url, None, Some(address), [Erc721, Erc1155]) ]
  }

  /** `getCount`: the length of `result.transfers` when it is an array. */
  function Count(u: Upstream): (n: nat)
    ensures n > 0 ==> u.Resolved? && u.transfers.TransferList?
    ensures u.Rejected? || (u.Resolved? && !u.transfers.TransferList?) ==> n == 0
  {
    if u.Resolved? && u.transfers.TransferList? then u.transfers.length else 0
  }

  /** `Promise.all` over the six requests, then the three sums; 502 if any
      request rejected. */
  function Aggregate(qs: seq<Query>, upstream: Query -> Upstream): (b: Result<Body, string>)
    requires |qs| == 6
    ensures b.Err? <==> exists i :: 0 <= i < 6 && upstream(qs[i]).Rejected?
    ensures b.Ok? ==> b.value == CountsBody(Count(upstream(qs[0])) + Count(upstream(qs[1])),
                                            Count(upstream(qs[2])) + Count(upstream(qs[3])),
                                            Count(upstream(qs[4])) + Count(upstream(qs[5])))
  {
    if exists i :: 0 <= i < 6 && upstream(qs[i]).Rejected? then Err("Alchemy API request failed")
    else Ok(CountsBody(Count(upstream(qs[0])) + Count(upstream(qs[1])),
                       Count(upstream(qs[2])) + Count(upstream(qs[3])),
                       Count(upstream(qs[4])) + Count(upstream(qs[5]))))
  }

  /** The endpoint URL: the configured network URL (or the default) and the
      API key. */
  function EndpointUrl(networkUrl: Option<string>, apiKey: string): (url: string)
    ensures Truthy(networkUrl) ==> StartsWith(url, networkUrl.value + "/")
    ensures !Truthy(networkUrl) ==> StartsWith(url, DefaultNetworkUrl + "/")
    ensures |url| > |apiKey| && url[|url| - |apiKey|..] == apiKey && url[|url| - |apiKey| - 1] == '/'
  {
    var base := if Truthy(networkUrl) then networkUrl.value else DefaultNetworkUrl;
    assert (base + "/" + apiKey)[..|base + "/"|] == base + "/";
    base + "/" + apiKey
  }

  // ------------------------------------------------------------ serverless

  /** The serverless handler. `address` is the `address` member of the
      parsed body (`None` when the body or the member is missing); the CORS
      headers go on every response. */
  function Handle(verb: string, apiKey: Option<string>, networkUrl: Option<string>,
                  address: Option<string>, upstream: Query -> Upstream): (h: Handled)
    ensures h.response.headers == CorsHeaders
    ensures h.response.status in {200, 400, 405, 500, 502}
    ensures h.queries != [] ==> && apiKey.Some? && address.Some?
                                && h.queries == Queries(EndpointUrl(networkUrl, apiKey.value), address.value)
    ensures h.response.status == 200 && verb != "OPTIONS" ==> h.response.body.CountsBody?
  {
    if verb == "OPTIONS" then Handled(Response(200, CorsHeaders, NoBody), [])
    else if verb != "POST" then Handled(Response(405, CorsHeaders, ErrorBody("Method not allowed")), [])
    else if !Truthy(apiKey) then Handled(Response(500, CorsHeaders, ErrorBody("ALCHEMY_API_KEY not configured")), [])
    else if !Truthy(address) || !AddressPattern(address.value) then
      Handled(Response(400, CorsHeaders, ErrorBody("Invalid address")), [])
    else
      var qs := Queries(EndpointUrl(networkUrl, apiKey.value), address.value);
      match Aggregate(qs, upstream)
      case Ok(body) => Handled(Response(200, CorsHeaders, body), qs)
      case Err(msg) => Handled(Response(502, CorsHeaders, ErrorBody(msg)), qs)
  }

  /** The status ladder: OPTIONS, then the method, the key, the address;
      only a request past all four issues queries, and it answers 200 with
      counts or 502. */
  lemma StatusLadder(verb: string, apiKey: Option<string>, networkUrl: Option<string>,
                     address: Option<string>, upstream: Query -> Upstream)
    ensures var h := Handle(verb, apiKey, networkUrl, address, upstream);
            && (verb == "OPTIONS" <==> h.response.status == 200 && h.response.body == NoBody)
            && (h.response.status == 405 <==> verb != "OPTIONS" && verb != "POST")
            && (h.response.status == 500 <==> verb == "POST" && !Truthy(apiKey))
            && (h.response.status == 400 <==>
                  verb == "POST" && Truthy(apiKey) && !(Truthy(address) && AddressPattern(address.value)))
            && (h.queries != [] <==>
                  verb == "POST" && Truthy(apiKey) && Truthy(address) && AddressPattern(address.value))
            && (h.queries != [] ==> h.response.status == 200 || h.response.status == 502)
  {
  }

  /** Every response of the serverless handler, errors included, carries
      the CORS headers. */
  lemma CorsOnEveryResponse(verb: string, apiKey: Option<string>, networkUrl: Option<string>,
                            address: Option<string>, upstream: Query -> Upstream)
    ensures Handle(verb, apiKey, networkUrl, address, upstream).response.headers == CorsHeaders
  {
  }

  /** Which way a query looks: transfers sent by, or received by, the
      address. */
  datatype Direction = Outgoing | Incoming

  function DirectionOf(q: Query): Option<Direction>
  {
    if q.fromAddress.Some? && q.toAddress.None? then Some(Outgoing)
    else if q.fromAddress.None? && q.toAddress.Some? then Some(Incoming)
    else None
  }

  /** The query matrix: the even queries look outgoing and the odd ones
      incoming, each naming the address on its own side only and sending
      only that address key. */
  lemma QueryDirections(url: string, address: string)
    requires address != ""
    ensures var qs := Queries(url, address);
            forall i :: 0 <= i < 6 ==>
              && qs[i].url == url
              && DirectionOf(qs[i]) == Some(if i % 2 == 0 then Outgoing else Incoming)
              && (if i % 2 == 0 then qs[i].fromAddress else qs[i].toAddress) == Some(address)
              && ParamKeys(qs[i]) == [if i % 2 == 0 then FromAddressKey else ToAddressKey, CategoryKey, WithMetadataKey]
  {
  }

  /** Each pair of queries shares a category group, and the three groups
      are plain transfers, ERC-20 tokens, and NFTs of both standards; so
      the six queries are pairwise distinct. */
  lemma QueryCategories(url: string, address: string)
    requires address != ""
    ensures var qs := Queries(url, address);
            && qs[0].category == qs[1].category == [External]
            && qs[2].category == qs[3].category == [Erc20]
            && qs[4].category == qs[5].category == [Erc721, Erc1155]
            && (forall i, j :: 0 <= i < j < 6 ==> qs[i] != qs[j])
  {
    var qs := Queries(url, address);
    forall i, j | 0 <= i < j < 6
      ensures qs[i] != qs[j]
    {
      if i / 2 == j / 2 {
        assert DirectionOf(qs[i]) != DirectionOf(qs[j]);
      } else {
        assert qs[i].category != qs[j].category;
      }
    }
  }

  /** A 200 answer sums out+in per category group, one count per query. */
  lemma CountsAreSums(verb: string, apiKey: Option<string>, networkUrl: Option<string>,
                      address: Option<string>, upstream: Query -> Upstream)
    requires Handle(verb, apiKey, networkUrl, address, upstream).response.status == 200
    requires verb == "POST"
    ensures var h := Handle(verb, apiKey, networkUrl, address, upstream);
            && |h.queries| == 6
            && (forall i :: 0 <= i < 6 ==> upstream(h.queries[i]).Resolved?)
            && h.response.body == CountsBody(Count(upstream(h.queries[0])) + Count(upstream(h.queries[1])),
                                             Count(upstream(h.queries[2])) + Count(upstream(h.queries[3])),
                                             Count(upstream(h.queries[4])) + Count(upstream(h.queries[5])))
  {
  }

  /** A reply without a transfer array counts as no transfers. */
  lemma CountIgnoresMalformedReplies(u: Upstream)
    ensures u.Resolved? && !u.transfers.TransferList? ==> Count(u) == 0
    ensures u.Resolved? && u.transfers.TransferList? ==> Count(u) == u.transfers.length
  {
  }

  // ----------------------------------------------------------- dev server

  /** What `JSON.parse` makes of the raw request body. */
  datatype ParsedBody = ParsedObject(address: Option<string>) | Malformed

  /** The development middleware either answers or, on a body that does
      not parse, throws before answering. */
  datatype DevOutcome = Answered(handled: Handled) | Crashed

  const JsonHeader: map<string, string> := map["Content-Type" := "application/json"]

  /** The development middleware over the raw body; `parse` stands for
      `JSON.parse`, and an empty body is parsed as `{}`. */
  function HandleDev(verb: string, apiKey: Option<string>, networkUrl: Option<string>,
                     rawBody: string, parse: string -> ParsedBody, upstream: Query -> Upstream): (o: DevOutcome)
    ensures o.Crashed? <==> verb == "POST" && Truthy(apiKey) && parse(if rawBody == "" then "{}" else rawBody).Malformed?
    ensures o.Answered? ==> o.handled.response.status in {200, 400, 405, 500, 502}
    ensures o.Answered? && verb != "OPTIONS" ==>
              "Content-Type" in o.handled.response.headers
              && o.handled.response.headers["Content-Type"] == "application/json"
  {
    if verb == "OPTIONS" then Answered(Handled(Response(200, CorsHeaders, NoBody), []))
    else if verb != "POST" then Answered(Handled(Response(405, JsonHeader, ErrorBody("Method not allowed")), []))
    else if !Truthy(apiKey) then
      Answered(Handled(Response(500, JsonHeader, ErrorBody("ALCHEMY_API_KEY not configured")), []))
    else
      match parse(if rawBody == "" then "{}" else rawBody)
      case Malformed => Crashed
      case ParsedObject(address) =>
        if !Truthy(address) || !AddressPattern(address.value) then
          Answered(Handled(Response(400, JsonHeader, ErrorBody("Invalid address")), []))
        else
          var qs := Queries(EndpointUrl(networkUrl, apiKey.value), address.value);
          match Aggregate(qs, upstream)
          case Ok(body) =>
            Answered(Handled(Response(200, JsonHeader["Access-Control-Allow-Origin" := "*"], body), qs))
          case Err(msg) => Answered(Handled(Response(502, JsonHeader, ErrorBody(msg)), qs))
  }

  /** For a body that parses to the same address, the development
      middleware answers with the serverless handler's status and body and
      issues the same queries; only the headers differ. */
  lemma DevMatchesServerless(verb: string, apiKey: Option<string>, networkUrl: Option<string>,
                             rawBody: string, parse: string -> ParsedBody, upstream: Query -> Upstream)
    requires verb == "POST" && Truthy(apiKey) ==> parse(if rawBody == "" then "{}" else rawBody).ParsedObject?
    ensures var address := if verb == "POST" && Truthy(apiKey)
                           then parse(if rawBody == "" then "{}" else rawBody).address else None;
            var dev := HandleDev(verb, apiKey, networkUrl, rawBody, parse, upstream);
            var h := Handle(verb, apiKey, networkUrl, address, upstream);
            && dev.Answered?
            && dev.handled.response.status == h.response.status
            && dev.handled.response.body == h.response.body
            && dev.handled.queries == h.queries
  {
  }

  /** An empty body is read as `{}`, which has no address, so the answer
      is 400 "Invalid address" and no query is issued. */
  lemma EmptyBodyIsInvalidAddress(apiKey: Option<string>, networkUrl: Option<string>,
                                  parse: string -> ParsedBody, upstream: Query -> Upstream)
    requires Truthy(apiKey)
    requires parse("{}") == ParsedObject(None)
    ensures HandleDev("POST", apiKey, networkUrl, "", parse, upstream)
            == Answered(Handled(Response(400, JsonHeader, ErrorBody("Invalid address")), []))
  {
  }

  /** In the development middleware only the OPTIONS and 200 answers allow
      cross-origin reads; every error carries the JSON content type alone. */
  lemma DevCorsOnlyOnSuccess(verb: string, apiKey: Option<string>, networkUrl: Option<string>,
                             rawBody: string, parse: string -> ParsedBody, upstream: Query -> Upstream)
    requires HandleDev(verb, apiKey, networkUrl, rawBody, parse, upstream).Answered?
    ensures var r := HandleDev(verb, apiKey, networkUrl, rawBody, parse, upstream).handled.response;
            && ("Access-Control-Allow-Origin" in r.headers <==> r.status == 200)
            && (r.status != 200 ==> r.headers == JsonHeader)
            && (r.status == 200 && verb != "OPTIONS" ==>
                  r.headers == map["Content-Type" := "application/json", "Access-Control-Allow-Origin" := "*"])
  {
  }
}
