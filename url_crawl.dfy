/** The `crawl_url` tool: builds the content-extraction request from the
    configuration and a URL, sends it, and reports the reply to the host. */
module UrlCrawl {
  import opened Outcomes
  import opened Decimal
  import opened Joining
  import opened PluginConfig
  import opened Http

  const CrawlEndpoint: string := "https://r.jina.ai/"
  const CrawlToolName: string := "crawl_url"
  /** Start of the message raised on a non-200 status. */
  const CrawlStatusMessage: string := "内容提取请求失败，状态码: "
  /** Start of the content `execute` reports for any failure. */
  const CrawlFailurePrefix: string := "内容提取失败: "

  /** The headers the base and fetch steps 1 to 4 may set. */
  const CrawlFetchNames: set<string> := {
    "Authorization", "Content-Type", "X-Engine", "X-Timeout", "X-Follow-Redirects",
    "X-Use-Custom-Prehandler-Scripts", "X-Custom-Prehandler-Scripts-List"}

  /** The headers the content steps 5 to 12 may add. */
  const CrawlContentNames: set<string> := {
    "X-Include-Shadow-DOM", "X-Include-Iframes", "X-Retain-Images", "X-Use-ReaderLM-V2",
    "X-With-Links-Summary", "X-With-Images-Summary", "X-With-Generated-Alt",
    "X-Optimize-For-GPT-OSS"}

  /** Every header name the extraction request can carry. */
  const CrawlHeaderNames: set<string> := CrawlFetchNames + CrawlContentNames

  /** The number of header-assembly steps, one per configuration option. */
  const CrawlHeaderSteps: nat := 12

  /** The fetch part of the extraction headers once the first `step` assembly
      steps have run: the two base headers always; step 1 the engine header,
      step 2 the timeout, step 3 redirects, step 4 the pre-handler scripts
      (the list only when scripts are on and the list is non-empty). */
  predicate CrawlFetchAfter(c: Config, h: Fields, step: nat) {
    var e := c.extract;
    && BaseHeaders(h, c.provider.jinaApiKey)
    && EngineHeader(h, e.engineMode, step >= 1)
    && TimeoutHeader(h, e.timeout, step >= 2)
    && PresentIff(h, "X-Follow-Redirects", "true", step >= 3 && e.followRedirect)
    && PresentIff(h, "X-Use-Custom-Prehandler-Scripts", "true",
                  step >= 4 && e.useCustomPrehandlerScripts)
    && PresentIff(h, "X-Custom-Prehandler-Scripts-List", Join(e.customPrehandlerScriptsList, ','),
                  step >= 4 && e.useCustomPrehandlerScripts && |e.customPrehandlerScriptsList| > 0)
  }

  /** The content part once the first `step` steps have run: steps 5 to 12
      add one toggled header each. */
  predicate CrawlContentAfter(c: Config, h: Fields, step: nat) {
    var e := c.extract;
    && PresentIff(h, "X-Include-Shadow-DOM", "true", step >= 5 && e.includeShadowDom)
    && PresentIff(h, "X-Include-Iframes", "true", step >= 6 && e.includeIframes)
    && PresentIff(h, "X-Retain-Images", "none", step >= 7 && e.removePictures)
    && PresentIff(h, "X-Use-ReaderLM-V2", "true", step >= 8 && e.useReaderlmV2)
    && PresentIff(h, "X-With-Links-Summary", "true", step >= 9 && e.moveLinksToEnd)
    && PresentIff(h, "X-With-Images-Summary", "true", step >= 10 && e.movePicsToEnd)
    && PresentIff(h, "X-With-Generated-Alt", "true", step >= 11 && e.addPicAlt)
    && PresentIff(h, "X-Optimize-For-GPT-OSS", "true", step >= 12 && e.optimizeForGptOss)
  }

  /** The extraction headers once the first `step` assembly steps have run. */
  predicate CrawlHeadersAfter(c: Config, h: Fields, step: nat) {
    CrawlFetchAfter(c, h, step) && CrawlContentAfter(c, h, step)
  }

  /** Setting a content header leaves the fetch part as it was. */
  lemma FetchPartKept(c: Config, h: Fields, key: string, value: string)
    requires CrawlFetchAfter(c, h, 4) && key in CrawlContentNames
    ensures CrawlFetchAfter(c, h[key := value], 4)
  {
  }

  /** The complete extraction headers, and no header besides them. */
  predicate IsCrawlHeaders(c: Config, h: Fields) {
    && h.Keys <= CrawlHeaderNames
    && CrawlHeadersAfter(c, h, CrawlHeaderSteps)
  }

  predicate IsCrawlRequest(c: Config, url: string, req: Request) {
    && req.endpoint == CrawlEndpoint
    && IsCrawlHeaders(c, req.headers)
    && req.body == map["url" := url]
  }

  /** The extraction request: the headers assembled from the configuration
      and the body `{url: url}`, posted to the extraction endpoint. */
  method BuildCrawlRequest(c: Config, url: string) returns (req: Request)
    ensures IsCrawlRequest(c, url, req)
  {
    var headers := BuildCrawlHeaders(c);
    var body := map["url" := url];
    req := Request(CrawlEndpoint, headers, body);
  }

  /** Header assembly: the base headers, then each option in turn. */
  method BuildCrawlHeaders(c: Config) returns (headers: Fields)
    ensures IsCrawlHeaders(c, headers)
  {
    headers := map["Authorization" := "Bearer " + c.provider.jinaApiKey,
                   "Content-Type" := "application/json"];
    headers := AddEngineHeader(c, headers);
    headers := AddTimeoutHeader(c, headers);
    headers := AddRedirectHeader(c, headers);
    headers := AddPrehandlerHeaders(c, headers);
    headers := AddShadowDomHeader(c, headers);
    headers := AddIframesHeader(c, headers);
    headers := AddRetainImagesHeader(c, headers);
    headers := AddReaderLmHeader(c, headers);
    headers := AddLinksSummaryHeader(c, headers);
    headers := AddImagesSummaryHeader(c, headers);
    headers := AddGeneratedAltHeader(c, headers);
    headers := AddGptOssHeader(c, headers);
  }

  /** Step 1: the engine mode; `default` and unknown modes add nothing. */
  method AddEngineHeader(c: Config, h: Fields) returns (headers: Fields)
    requires CrawlHeadersAfter(c, h, 0)
    requires h.Keys <= CrawlHeaderNames
    ensures CrawlHeadersAfter(c, headers, 1)
    ensures headers.Keys <= CrawlHeaderNames
  {
    headers := h;
    if c.extract.engineMode == "fast" {
      headers := headers["X-Engine" := "direct"];
    } else if c.extract.engineMode == "quality" {
      headers := headers["X-Engine" := "browser"];
    }
  }

  /** Step 2: the timeout, when positive, in decimal. */
  method AddTimeoutHeader(c: Config, h: Fields) returns (headers: Fields)
    requires CrawlHeadersAfter(c, h, 1)
    requires h.Keys <= CrawlHeaderNames
    ensures CrawlHeadersAfter(c, headers, 2)
    ensures headers.Keys <= CrawlHeaderNames
  {
    headers := h;
    if c.extract.timeout > 0 {
      headers := headers["X-Timeout" := IntToString(c.extract.timeout)];
    }
  }

  /** Step 3: follow redirects. */
  method AddRedirectHeader(c: Config, h: Fields) returns (headers: Fields)
    requires CrawlHeadersAfter(c, h, 2)
    requires h.Keys <= CrawlHeaderNames
    ensures CrawlHeadersAfter(c, headers, 3)
    ensures headers.Keys <= CrawlHeaderNames
  {
    headers := h;
    if c.extract.followRedirect {
      headers := headers["X-Follow-Redirects" := "true"];
    }
  }

  /** Step 4: custom pre-handler scripts; the list header needs both the
      flag and a non-empty list, and carries the names joined by commas. */
  method AddPrehandlerHeaders(c: Config, h: Fields) returns (headers: Fields)
    requires CrawlHeadersAfter(c, h, 3)
    requires h.Keys <= CrawlHeaderNames
    ensures CrawlHeadersAfter(c, headers, 4)
    ensures headers.Keys <= CrawlHeaderNames
  {
    var e := c.extract;
    headers := h;
    if e.useCustomPrehandlerScripts {
      headers := headers["X-Use-Custom-Prehandler-Scripts" := "true"];
      if |e.customPrehandlerScriptsList| > 0 {
        headers := headers["X-Custom-Prehandler-Scripts-List" := Join(e.customPrehandlerScriptsList, ',')];
      }
    }
  }

  /** Step 5: include the shadow DOM. */
  method AddShadowDomHeader(c: Config, h: Fields) returns (headers: Fields)
    requires CrawlFetchAfter(c, h, 4) && CrawlContentAfter(c, h, 4)
    requires h.Keys <= CrawlHeaderNames
    ensures CrawlFetchAfter(c, headers, 4) && CrawlContentAfter(c, headers, 5)
    ensures headers.Keys <= CrawlHeaderNames
  {
    headers := h;
    if c.extract.includeShadowDom {
      FetchPartKept(c, h, "X-Include-Shadow-DOM", "true");
      headers := headers["X-Include-Shadow-DOM" := "true"];
    }
  }

  /** Step 6: include iframe content. */
  method AddIframesHeader(c: Config, h: Fields) returns (headers: Fields)
    requires CrawlFetchAfter(c, h, 4) && CrawlContentAfter(c, h, 5)
    requires h.Keys <= CrawlHeaderNames
    ensures CrawlFetchAfter(c, headers, 4) && CrawlContentAfter(c, headers, 6)
    ensures headers.Keys <= CrawlHeaderNames
  {
    headers := h;
    if c.extract.includeIframes {
      FetchPartKept(c, h, "X-Include-Iframes", "true");
      headers := headers["X-Include-Iframes" := "true"];
    }
  }

  /** Step 7: drop images from the content. */
  method AddRetainImagesHeader(c: Config, h: Fields) returns (headers: Fields)
    requires CrawlFetchAfter(c, h, 4) && CrawlContentAfter(c, h, 6)
    requires h.Keys <= CrawlHeaderNames
    ensures CrawlFetchAfter(c, headers, 4) && CrawlContentAfter(c, headers, 7)
    ensures headers.Keys <= CrawlHeaderNames
  {
    headers := h;
    if c.extract.removePictures {
      FetchPartKept(c, h, "X-Retain-Images", "none");
      headers := headers["X-Retain-Images" := "none"];
    }
  }

  /** Step 8: convert with ReaderLM-v2. */
  method AddReaderLmHeader(c: Config, h: Fields) returns (headers: Fields)
    requires CrawlFetchAfter(c, h, 4) && CrawlContentAfter(c, h, 7)
    requires h.Keys <= CrawlHeaderNames
    ensures CrawlFetchAfter(c, headers, 4) && CrawlContentAfter(c, headers, 8)
    ensures headers.Keys <= CrawlHeaderNames
  {
    headers := h;
    if c.extract.useReaderlmV2 {
      FetchPartKept(c, h, "X-Use-ReaderLM-V2", "true");
      headers := headers["X-Use-ReaderLM-V2" := "true"];
    }
  }

  /** Step 9: summarise links at the end. */
  method AddLinksSummaryHeader(c: Config, h: Fields) returns (headers: Fields)
    requires CrawlFetchAfter(c, h, 4) && CrawlContentAfter(c, h, 8)
    requires h.Keys <= CrawlHeaderNames
    ensures CrawlFetchAfter(c, headers, 4) && CrawlContentAfter(c, headers, 9)
    ensures headers.Keys <= CrawlHeaderNames
  {
    headers := h;
    if c.extract.moveLinksToEnd {
      FetchPartKept(c, h, "X-With-Links-Summary", "true");
      headers := headers["X-With-Links-Summary" := "true"];
    }
  }

  /** Step 10: summarise images at the end. */
  method AddImagesSummaryHeader(c: Config, h: Fields) returns (headers: Fields)
    requires CrawlFetchAfter(c, h, 4) && CrawlContentAfter(c, h, 9)
    requires h.Keys <= CrawlHeaderNames
    ensures CrawlFetchAfter(c, headers, 4) && CrawlContentAfter(c, headers, 10)
    ensures headers.Keys <= CrawlHeaderNames
  {
    headers := h;
    if c.extract.movePicsToEnd {
      FetchPartKept(c, h, "X-With-Images-Summary", "true");
      headers := headers["X-With-Images-Summary" := "true"];
    }
  }

  /** Step 11: generate alt text for images. */
  method AddGeneratedAltHeader(c: Config, h: Fields) returns (headers: Fields)
    requires CrawlFetchAfter(c, h, 4) && CrawlContentAfter(c, h, 10)
    requires h.Keys <= CrawlHeaderNames
    ensures CrawlFetchAfter(c, headers, 4) && CrawlContentAfter(c, headers, 11)
    ensures headers.Keys <= CrawlHeaderNames
  {
    headers := h;
    if c.extract.addPicAlt {
      FetchPartKept(c, h, "X-With-Generated-Alt", "true");
      headers := headers["X-With-Generated-Alt" := "true"];
    }
  }

  /** Step 12: optimise the output for GPT-OSS. */
  method AddGptOssHeader(c: Config, h: Fields) returns (headers: Fields)
    requires CrawlFetchAfter(c, h, 4) && CrawlContentAfter(c, h, 11)
    requires h.Keys <= CrawlHeaderNames
    ensures CrawlFetchAfter(c, headers, 4) && CrawlContentAfter(c, headers, 12)
    ensures headers.Keys <= CrawlHeaderNames
  {
    headers := h;
    if c.extract.optimizeForGptOss {
      FetchPartKept(c, h, "X-Optimize-For-GPT-OSS", "true");
      headers := headers["X-Optimize-For-GPT-OSS" := "true"];
    }
  }

  /** Status check of the extraction reply. */
  function CrawlReplyResult(reply: Reply): (r: Result<string>)
    ensures r.Ok? <==> reply.Response? && reply.status == 200
    ensures r.Ok? ==> r.value == reply.text
    ensures reply.Response? && reply.status != 200 ==>
              r.message == CrawlStatusMessage + IntToString(reply.status)
    ensures reply.Raised? ==> r == Err(reply.error)
  {
    CheckReply(reply, CrawlStatusMessage)
  }

  /** The tool call: build the request, POST it through `post`, and turn the
      reply into the `{name, content}` payload. It always returns, with the
      tool's name, whatever `post` replies. */
  method ExecuteCrawl(c: Config, url: string, post: Request -> Reply) returns (out: ToolOutput)
    ensures out.name == CrawlToolName
    ensures forall req | IsCrawlRequest(c, url, req) ::
              out == ToToolOutput(CrawlToolName, CrawlFailurePrefix, CrawlReplyResult(post(req)))
  {
    var req := BuildCrawlRequest(c, url);
    var reply := post(req);
    out := ToToolOutput(CrawlToolName, CrawlFailurePrefix, CrawlReplyResult(reply));
    forall other | IsCrawlRequest(c, url, other)
      ensures out == ToToolOutput(CrawlToolName, CrawlFailurePrefix, CrawlReplyResult(post(other)))
    {
      CrawlRequestDetermined(c, url, req, other);
    }
  }

  /** The specification leaves no freedom: it determines the request. */
  lemma CrawlRequestDetermined(c: Config, url: string, r1: Request, r2: Request)
    requires IsCrawlRequest(c, url, r1) && IsCrawlRequest(c, url, r2)
    ensures r1 == r2
  {
    FetchPartAgrees(c, c, r1.headers, r2.headers);
    ContentPartAgrees(c, c, r1.headers, r2.headers);
    FieldsDetermined(r1.headers, r2.headers, CrawlHeaderNames);
  }

  /** The script-list header appears only beside the script flag, and its
      value splits back into the configured list when no script name
      contains a comma. */
  lemma ScriptListHeader(c: Config, url: string, req: Request)
    requires IsCrawlRequest(c, url, req)
    ensures "X-Custom-Prehandler-Scripts-List" in req.headers ==>
              Has(req.headers, "X-Use-Custom-Prehandler-Scripts", "true")
    ensures "X-Custom-Prehandler-Scripts-List" in req.headers &&
            NoneContains(c.extract.customPrehandlerScriptsList, ',') ==>
              Split(req.headers["X-Custom-Prehandler-Scripts-List"], ',')
              == c.extract.customPrehandlerScriptsList
    ensures c.extract.useCustomPrehandlerScripts && c.extract.customPrehandlerScriptsList == [] ==>
              && Has(req.headers, "X-Use-Custom-Prehandler-Scripts", "true")
              && "X-Custom-Prehandler-Scripts-List" !in req.headers
  {
    if "X-Custom-Prehandler-Scripts-List" in req.headers
       && NoneContains(c.extract.customPrehandlerScriptsList, ',') {
      SplitJoin(c.extract.customPrehandlerScriptsList, ',');
    }
  }

  /** The headers the schema's defaults produce: a 10-second timeout,
      redirects followed, images dropped, links and images summarised at the
      end, and generated alt text for images. */
  function DefaultCrawlHeaders(apiKey: string): Fields {
    map["Authorization" := "Bearer " + apiKey,
        "Content-Type" := "application/json",
        "X-Timeout" := "10",
        "X-Follow-Redirects" := "true",
        "X-Retain-Images" := "none",
        "X-With-Links-Summary" := "true",
        "X-With-Images-Summary" := "true",
        "X-With-Generated-Alt" := "true"]
  }

  lemma DefaultFetchPart(apiKey: string)
    ensures CrawlFetchAfter(DefaultConfig(apiKey), DefaultCrawlHeaders(apiKey), CrawlHeaderSteps)
  {
    DecimalOf10();
  }

  lemma DefaultContentPart(apiKey: string)
    ensures CrawlContentAfter(DefaultConfig(apiKey), DefaultCrawlHeaders(apiKey), CrawlHeaderSteps)
  {
  }

  /** Scripts `a` and `b`, with scripts on, are sent as `a,b`. */
  lemma ScriptListOfTwo(c: Config, url: string, req: Request)
    requires IsCrawlRequest(c, url, req)
    requires c.extract.useCustomPrehandlerScripts && c.extract.customPrehandlerScriptsList == ["a", "b"]
    ensures Has(req.headers, "X-Custom-Prehandler-Scripts-List", "a,b")
  {
    assert Join(["a", "b"], ',') == "a" + [','] + Join(["b"], ',');
  }

  /** With the schema's defaults the extraction sends exactly the default
      headers. */
  lemma DefaultCrawlRequest(apiKey: string, url: string, req: Request)
    requires IsCrawlRequest(DefaultConfig(apiKey), url, req)
    ensures req.headers == DefaultCrawlHeaders(apiKey)
  {
    DefaultFetchPart(apiKey);
    DefaultContentPart(apiKey);
    var expected := Request(CrawlEndpoint, DefaultCrawlHeaders(apiKey), req.body);
    CrawlRequestDetermined(DefaultConfig(apiKey), url, req, expected);
  }

  /** The fetch part is decided by the provider and the fetch options alone. */
  lemma FetchPartAgrees(c1: Config, c2: Config, h1: Fields, h2: Fields)
    requires CrawlFetchAfter(c1, h1, CrawlHeaderSteps) && CrawlFetchAfter(c2, h2, CrawlHeaderSteps)
    requires c1.provider == c2.provider
    requires c1.extract.engineMode == c2.extract.engineMode && c1.extract.timeout == c2.extract.timeout
    requires c1.extract.followRedirect == c2.extract.followRedirect
    requires c1.extract.useCustomPrehandlerScripts == c2.extract.useCustomPrehandlerScripts
    requires c1.extract.customPrehandlerScriptsList == c2.extract.customPrehandlerScriptsList
    ensures forall k | k in CrawlFetchNames :: Lookup(h1, k) == Lookup(h2, k)
  {
  }

  /** The content part is decided by the content options alone: the API
      key and the fetch options have no effect on it. */
  lemma ContentPartAgrees(c1: Config, c2: Config, h1: Fields, h2: Fields)
    requires CrawlContentAfter(c1, h1, CrawlHeaderSteps) && CrawlContentAfter(c2, h2, CrawlHeaderSteps)
    requires c1.extract.includeShadowDom == c2.extract.includeShadowDom
    requires c1.extract.includeIframes == c2.extract.includeIframes
    requires c1.extract.removePictures == c2.extract.removePictures
    requires c1.extract.useReaderlmV2 == c2.extract.useReaderlmV2
    requires c1.extract.moveLinksToEnd == c2.extract.moveLinksToEnd
    requires c1.extract.movePicsToEnd == c2.extract.movePicsToEnd
    requires c1.extract.addPicAlt == c2.extract.addPicAlt
    requires c1.extract.optimizeForGptOss == c2.extract.optimizeForGptOss
    ensures forall k | k in CrawlContentNames :: Lookup(h1, k) == Lookup(h2, k)
  {
  }

  /** Flipping `remove_pictures` leaves every other content header as it was. */
  lemma ContentPartAgreesButImages(c: Config, h1: Fields, h2: Fields)
    requires CrawlContentAfter(c, h1, CrawlHeaderSteps)
    requires CrawlContentAfter(c.(extract := c.extract.(removePictures := !c.extract.removePictures)), h2, CrawlHeaderSteps)
    ensures forall k | k in CrawlContentNames && k != "X-Retain-Images" :: Lookup(h1, k) == Lookup(h2, k)
    ensures "X-Retain-Images" in h1 <==> "X-Retain-Images" !in h2
  {
  }

  /** Turning one option over changes its own header and no other: flipping
      `remove_pictures` adds or removes `X-Retain-Images` only. */
  lemma RetainImagesIsolated(c: Config, url: string, r1: Request, r2: Request)
    requires IsCrawlRequest(c, url, r1)
    requires IsCrawlRequest(c.(extract := c.extract.(removePictures := !c.extract.removePictures)), url, r2)
    ensures forall k | k != "X-Retain-Images" :: Lookup(r1.headers, k) == Lookup(r2.headers, k)
    ensures "X-Retain-Images" in r1.headers <==> "X-Retain-Images" !in r2.headers
  {
    var c2 := c.(extract := c.extract.(removePictures := !c.extract.removePictures));
    FetchPartAgrees(c, c2, r1.headers, r2.headers);
    ContentPartAgreesButImages(c, r1.headers, r2.headers);
  }

  /** The engine mode maps `fast` to a direct fetch and `quality` to a
      browser-rendered one; any other mode leaves `X-Engine` out. */
  lemma CrawlEngineHeader(c: Config, url: string, req: Request)
    requires IsCrawlRequest(c, url, req)
    ensures c.extract.engineMode == "fast" <==> Has(req.headers, "X-Engine", "direct")
    ensures c.extract.engineMode == "quality" <==> Has(req.headers, "X-Engine", "browser")
    ensures "X-Engine" !in req.headers <==> c.extract.engineMode !in {"fast", "quality"}
  {
  }

  /** Within the schema's engine choices, `X-Engine` is left out exactly for
      the `default` mode. */
  lemma CrawlEngineWithinSchema(c: Config, url: string, req: Request)
    requires WithinSchema(c) && IsCrawlRequest(c, url, req)
    ensures "X-Engine" !in req.headers <==> c.extract.engineMode == "default"
  {
  }

  /** Any other status is reported as a failure that names the status. */
  lemma CrawlFailureContent(status: int, text: string)
    requires status != 200
    ensures ToToolOutput(CrawlToolName, CrawlFailurePrefix, CrawlReplyResult(Response(status, text)))
            == ToolOutput("crawl_url", "内容提取失败: 内容提取请求失败，状态码: " + IntToString(status))
  {
    var digits := IntToString(status);
    assert CrawlFailurePrefix + CrawlStatusMessage == "内容提取失败: 内容提取请求失败，状态码: ";
    assert CrawlFailurePrefix + (CrawlStatusMessage + digits) == (CrawlFailurePrefix + CrawlStatusMessage) + digits;
  }

  /** A reply of status 200 is passed to the host verbatim. */
  lemma CrawlSucceeds(text: string)
    ensures ToToolOutput(CrawlToolName, CrawlFailurePrefix, CrawlReplyResult(Response(200, text)))
            == ToolOutput("crawl_url", text)
  {
  }

  /** A reply of status 500, for instance. */
  lemma CrawlServerError(text: string)
    ensures ToToolOutput(CrawlToolName, CrawlFailurePrefix, CrawlReplyResult(Response(500, text)))
            == ToolOutput("crawl_url", "内容提取失败: 内容提取请求失败，状态码: 500")
  {
    CrawlFailureContent(500, text);
    DecimalOf500();
  }
}
