/** The `search_web` tool: builds the search request from the configuration
    and a keyword string, sends it, and reports the reply to the host. */
module WebSearch {
  import opened Outcomes
  import opened Decimal
  import opened PluginConfig
  import opened Http

  const SearchEndpoint: string := "https://s.jina.ai/"
  const SearchToolName: string := "search_web"
  /** Start of the message raised on a non-200 status. */
  const SearchStatusMessage: string := "搜索请求失败，状态码: "
  /** Start of the content `execute` reports for any failure. */
  const SearchFailurePrefix: string := "搜索失败: "

  /** The headers the base and fetch steps may set. */
  const SearchFetchNames: set<string> := {
    "Authorization", "Content-Type", "X-Engine", "X-Timeout", "X-Respond-With"}

  /** The headers the content steps may add. */
  const SearchContentNames: set<string> := {
    "X-Retain-Images", "X-With-Links-Summary", "X-With-Images-Summary", "X-With-Generated-Alt"}

  /** Every header name the search request can carry. */
  const SearchHeaderNames: set<string> := SearchFetchNames + SearchContentNames

  /** The search body: `q` is the keywords unchanged; `gl` and `hl` carry the
      nation and language exactly when these differ from the sentinel. */
  predicate IsSearchBody(s: SearchConfig, kw: string, body: Fields) {
    && body.Keys <= {"q", "gl", "hl"}
    && Has(body, "q", kw)
    && PresentIff(body, "gl", s.searchNation, s.searchNation != NotSpecified)
    && PresentIff(body, "hl", s.searchLanguage, s.searchLanguage != NotSpecified)
  }

  /** The number of header-assembly steps: with `crawlDetails` the engine,
      timeout and four toggled headers; without it the one
      `X-Respond-With` header. */
  const SearchHeaderSteps: nat := 6

  /** The search headers once the first `step` assembly steps have run: the
      two base headers always; with `crawlDetails`, step 1 the engine header,
      step 2 the timeout, steps 3 to 6 one toggled header each; without it,
      step 1 adds `X-Respond-With: no-content` and nothing else follows. */
  predicate SearchHeadersAfter(c: Config, h: Fields, step: nat) {
    var s := c.search;
    && h.Keys <= SearchHeaderNames
    && BaseHeaders(h, c.provider.jinaApiKey)
    && EngineHeader(h, s.engineMode, s.crawlDetails && step >= 1)
    && TimeoutHeader(h, s.timeout, s.crawlDetails && step >= 2)
    && PresentIff(h, "X-Retain-Images", "none", s.crawlDetails && step >= 3 && s.removePictures)
    && PresentIff(h, "X-With-Links-Summary", "true", s.crawlDetails && step >= 4 && s.moveLinksToEnd)
    && PresentIff(h, "X-With-Images-Summary", "true", s.crawlDetails && step >= 5 && s.movePicsToEnd)
    && PresentIff(h, "X-With-Generated-Alt", "true", s.crawlDetails && step >= 6 && s.addPicAlt)
    && PresentIff(h, "X-Respond-With", "no-content", !s.crawlDetails && step >= 1)
  }

  /** The complete search headers. */
  predicate IsSearchHeaders(c: Config, h: Fields) {
    SearchHeadersAfter(c, h, SearchHeaderSteps)
  }

  predicate IsSearchRequest(c: Config, kw: string, req: Request) {
    && req.endpoint == SearchEndpoint
    && IsSearchHeaders(c, req.headers)
    && IsSearchBody(c.search, kw, req.body)
  }

  /** The search request: the headers and body assembled from the
      configuration, posted to the search endpoint. */
  method BuildSearchRequest(c: Config, kw: string) returns (req: Request)
    ensures IsSearchRequest(c, kw, req)
  {
    var headers := BuildSearchHeaders(c);
    var body := BuildSearchBody(c.search, kw);
    req := Request(SearchEndpoint, headers, body);
  }

  /** Header assembly: the base headers, then either the per-result
      detail headers or the request for no content. */
  method BuildSearchHeaders(c: Config) returns (headers: Fields)
    ensures IsSearchHeaders(c, headers)
  {
    headers := map["Authorization" := "Bearer " + c.provider.jinaApiKey,
                   "Content-Type" := "application/json"];
    if c.search.crawlDetails {
      headers := AddFetchHeaders(c, headers);
      headers := AddContentHeaders(c, headers);
    } else {
      headers := headers["X-Respond-With" := "no-content"];
    }
  }

  /** Steps 1 and 2 with `crawlDetails`: the engine mode and the timeout. */
  method AddFetchHeaders(c: Config, h: Fields) returns (headers: Fields)
    requires c.search.crawlDetails && SearchHeadersAfter(c, h, 0)
    ensures SearchHeadersAfter(c, headers, 2)
  {
    var s := c.search;
    headers := h;
    if s.engineMode == "fast" {
      headers := headers["X-Engine" := "direct"];
    } else if s.engineMode == "quality" {
      headers := headers["X-Engine" := "browser"];
    }
    if s.timeout > 0 {
      headers := headers["X-Timeout" := IntToString(s.timeout)];
    }
  }

  /** Steps 3 to 6 with `crawlDetails`: images removed, links and images
      summarised at the end, generated alt text. */
  method AddContentHeaders(c: Config, h: Fields) returns (headers: Fields)
    requires c.search.crawlDetails && SearchHeadersAfter(c, h, 2)
    ensures SearchHeadersAfter(c, headers, 6)
  {
    var s := c.search;
    headers := h;
    if s.removePictures {
      headers := headers["X-Retain-Images" := "none"];
    }
    if s.moveLinksToEnd {
      headers := headers["X-With-Links-Summary" := "true"];
    }
    if s.movePicsToEnd {
      headers := headers["X-With-Images-Summary" := "true"];
    }
    if s.addPicAlt {
      headers := headers["X-With-Generated-Alt" := "true"];
    }
  }

  /** Body assembly: the keywords, then `gl` and `hl` unless unspecified. */
  method BuildSearchBody(s: SearchConfig, kw: string) returns (body: Fields)
    ensures IsSearchBody(s, kw, body)
  {
    body := map["q" := kw];
    if s.searchNation != NotSpecified {
      body := body["gl" := s.searchNation];
    }
    if s.searchLanguage != NotSpecified {
      body := body["hl" := s.searchLanguage];
    }
  }

  /** Status check of the search reply. */
  function SearchReplyResult(reply: Reply): (r: Result<string>)
    ensures r.Ok? <==> reply.Response? && reply.status == 200
    ensures r.Ok? ==> r.value == reply.text
    ensures reply.Response? && reply.status != 200 ==>
              r.message == SearchStatusMessage + IntToString(reply.status)
    ensures reply.Raised? ==> r == Err(reply.error)
  {
    CheckReply(reply, SearchStatusMessage)
  }

  /** The tool call: build the request, POST it through `post`, and turn the
      reply into the `{name, content}` payload. It always returns, with the
      tool's name, whatever `post` replies. */
  method ExecuteSearch(c: Config, kw: string, post: Request -> Reply) returns (out: ToolOutput)
    ensures out.name == SearchToolName
    ensures forall req | IsSearchRequest(c, kw, req) ::
              out == ToToolOutput(SearchToolName, SearchFailurePrefix, SearchReplyResult(post(req)))
  {
    var req := BuildSearchRequest(c, kw);
    var reply := post(req);
    out := ToToolOutput(SearchToolName, SearchFailurePrefix, SearchReplyResult(reply));
    forall other | IsSearchRequest(c, kw, other)
      ensures out == ToToolOutput(SearchToolName, SearchFailurePrefix, SearchReplyResult(post(other)))
    {
      SearchRequestDetermined(c, kw, req, other);
    }
  }

  /** The header specification leaves no freedom. */
  lemma SearchHeadersDetermined(c: Config, h1: Fields, h2: Fields)
    requires IsSearchHeaders(c, h1) && IsSearchHeaders(c, h2)
    ensures h1 == h2
  {
    SearchFetchAgrees(c, h1, h2);
    SearchContentAgrees(c, h1, h2);
    FieldsDetermined(h1, h2, SearchHeaderNames);
  }

  lemma SearchFetchAgrees(c: Config, h1: Fields, h2: Fields)
    requires IsSearchHeaders(c, h1) && IsSearchHeaders(c, h2)
    ensures forall k | k in SearchFetchNames :: Lookup(h1, k) == Lookup(h2, k)
  {
  }

  lemma SearchContentAgrees(c: Config, h1: Fields, h2: Fields)
    requires IsSearchHeaders(c, h1) && IsSearchHeaders(c, h2)
    ensures forall k | k in SearchContentNames :: Lookup(h1, k) == Lookup(h2, k)
  {
  }

  /** The body specification leaves no freedom. */
  lemma SearchBodyDetermined(s: SearchConfig, kw: string, b1: Fields, b2: Fields)
    requires IsSearchBody(s, kw, b1) && IsSearchBody(s, kw, b2)
    ensures b1 == b2
  {
    FieldsDetermined(b1, b2, {"q", "gl", "hl"});
  }

  /** The specification leaves no freedom: it determines the request. */
  lemma SearchRequestDetermined(c: Config, kw: string, r1: Request, r2: Request)
    requires IsSearchRequest(c, kw, r1) && IsSearchRequest(c, kw, r2)
    ensures r1 == r2
  {
    SearchHeadersDetermined(c, r1.headers, r2.headers);
    SearchBodyDetermined(c.search, kw, r1.body, r2.body);
  }

  /** Without per-result details the headers are exactly the base headers
      plus `X-Respond-With: no-content`; none of the detail headers appear. */
  lemma SearchWithoutDetails(c: Config, kw: string, req: Request)
    requires IsSearchRequest(c, kw, req) && !c.search.crawlDetails
    ensures req.headers == map["Authorization" := "Bearer " + c.provider.jinaApiKey,
                               "Content-Type" := "application/json",
                               "X-Respond-With" := "no-content"]
  {
    var expected := map["Authorization" := "Bearer " + c.provider.jinaApiKey,
                        "Content-Type" := "application/json",
                        "X-Respond-With" := "no-content"];
    FieldsDetermined(req.headers, expected, SearchHeaderNames);
  }

  /** With per-result details, `X-Respond-With` is absent and the engine
      header names the fetch mode the configuration asks for. */
  lemma SearchWithDetails(c: Config, kw: string, req: Request)
    requires IsSearchRequest(c, kw, req) && c.search.crawlDetails
    ensures "X-Respond-With" !in req.headers
    ensures c.search.engineMode == "fast" <==> Has(req.headers, "X-Engine", "direct")
    ensures c.search.engineMode == "quality" <==> Has(req.headers, "X-Engine", "browser")
    ensures "X-Engine" !in req.headers <==> c.search.engineMode !in {"fast", "quality"}
  {
  }

  /** With per-result details, flipping `add_pic_alt` adds or removes
      `X-With-Generated-Alt` and changes no other header. */
  lemma GeneratedAltIsolated(c: Config, kw: string, r1: Request, r2: Request)
    requires c.search.crawlDetails
    requires IsSearchRequest(c, kw, r1)
    requires IsSearchRequest(c.(search := c.search.(addPicAlt := !c.search.addPicAlt)), kw, r2)
    ensures forall k | k != "X-With-Generated-Alt" :: Lookup(r1.headers, k) == Lookup(r2.headers, k)
    ensures "X-With-Generated-Alt" in r1.headers <==> "X-With-Generated-Alt" !in r2.headers
  {
  }

  /** Without per-result details the detail toggles have no effect at all:
      the headers do not depend on them. */
  lemma DetailTogglesIgnored(c1: Config, c2: Config, kw: string, r1: Request, r2: Request)
    requires !c1.search.crawlDetails && !c2.search.crawlDetails
    requires c1.provider == c2.provider
    requires IsSearchRequest(c1, kw, r1) && IsSearchRequest(c2, kw, r2)
    ensures r1.headers == r2.headers
  {
    SearchWithoutDetails(c1, kw, r1);
    SearchWithoutDetails(c2, kw, r2);
  }

  /** With the schema's defaults the search sends only the keywords, the
      nation `CN` and the language `zh-cn`, and asks for no content. */
  lemma DefaultSearchRequest(apiKey: string, kw: string, req: Request)
    requires IsSearchRequest(DefaultConfig(apiKey), kw, req)
    ensures req.body == map["q" := kw, "gl" := "CN", "hl" := "zh-cn"]
    ensures req.headers == map["Authorization" := "Bearer " + apiKey,
                               "Content-Type" := "application/json",
                               "X-Respond-With" := "no-content"]
  {
    SearchWithoutDetails(DefaultConfig(apiKey), kw, req);
    FieldsDetermined(req.body, map["q" := kw, "gl" := "CN", "hl" := "zh-cn"], {"q", "gl", "hl"});
  }

  /** A reply of status 200 is passed to the host verbatim. */
  lemma SearchSucceeds(text: string)
    ensures ToToolOutput(SearchToolName, SearchFailurePrefix, SearchReplyResult(Response(200, text)))
            == ToolOutput("search_web", text)
  {
  }

  /** Any other status is reported as a failure that names the status. */
  lemma SearchFailureContent(status: int, text: string)
    requires status != 200
    ensures ToToolOutput(SearchToolName, SearchFailurePrefix, SearchReplyResult(Response(status, text)))
            == ToolOutput("search_web", "搜索失败: 搜索请求失败，状态码: " + IntToString(status))
  {
    var digits := IntToString(status);
    assert SearchFailurePrefix + SearchStatusMessage == "搜索失败: 搜索请求失败，状态码: ";
    assert SearchFailurePrefix + (SearchStatusMessage + digits) == (SearchFailurePrefix + SearchStatusMessage) + digits;
  }

  /** A reply of status 500, for instance. */
  lemma SearchServerError(text: string)
    ensures ToToolOutput(SearchToolName, SearchFailurePrefix, SearchReplyResult(Response(500, text)))
            == ToolOutput("search_web", "搜索失败: 搜索请求失败，状态码: 500")
  {
    SearchFailureContent(500, text);
    DecimalOf500();
  }
}
