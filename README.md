# Jina web-search and URL-crawl tools, modelled in Dafny

The plugin offers two tools to a chat agent:

- `search_web` posts a keyword query to the Jina search endpoint `https://s.jina.ai/`.
- `crawl_url` posts a URL to the Jina reader endpoint `https://r.jina.ai/`.

Each tool does three things:

1. It assembles a header dictionary and a JSON body dictionary from the plugin configuration. It starts from the two base headers and then applies a run of `if`/`match` statements in a fixed order.
2. It sends one POST and turns any status other than 200 into an exception whose message carries the status code.
3. Its `execute` wrapper catches every `Exception` and returns `{name, content}` to the host.

The model follows that structure:

- **Configuration** (`config.dfy`). The configuration is a record with the `provider`, `search` and `extract` sections. The schema's allowed values and defaults appear only as `WithinSchema` and `DefaultConfig`. The request builders accept any values, as the code does.
- **Header and body assembly** (`web_search.dfy`, `url_crawl.dfy`). These are methods that update a `map<string, string>` one step at a time.
  - Each step's contract is a stage predicate, `SearchHeadersAfter` or `CrawlHeadersAfter`. It says, header by header, when that header is present after the first `step` steps and what value it has.
  - `IsSearchRequest` and `IsCrawlRequest` are the complete specification of the request.
  - `SearchRequestDetermined` and `CrawlRequestDetermined` prove that at most one request meets each specification. `BuildSearchRequest` and `BuildCrawlRequest` show that one does, so each specification fixes exactly one request.
- **Decimal rendering** (`decimal.dfy`). `IntToString` models Python's `str` of an integer, used for the timeout header and for the status code in the failure message. `ParseInt` reads it back.
- **List joining** (`joining.dfy`). `Join` models `",".join` for the pre-handler script list. `Split` is its inverse for a non-empty list in which no script name contains a comma. The empty list is the exception: it joins to `""`, which splits to `[""]`, but the source never joins an empty list.
- **Status check and result shaping** (`http.dfy`, `outcomes.dfy`).
  - `CheckReply` is the status check.
  - `ToToolOutput` is the `execute` wrapper, turning a two-variant result into the host's `{name, content}` payload.
  - The network is the function parameter `post: Request -> Reply`. A reply is either a response (status and text) or a raised exception, known only by its string form.

## Model

| member | source | states |
|---|---|---|
| PluginConfig.DefaultConfig | plugin.py:203-328 | The schema's defaults lie within the schema's choice lists for nation, language and both engine modes. |
| Outcomes.ToToolOutput | plugin.py:90-94 | The payload always carries the tool's name. A success carries the response text unchanged. A failure's content is the failure prefix followed by exactly the error message. |
| Decimal.NatToDecimal | plugin.py:58 | The rendering of a natural number is a non-empty string of decimal digits, with no leading zero except for 0 itself. |
| Decimal.IntToString | plugin.py:58 | Python's `str` of an integer starts with `-` exactly when the integer is negative. The rest is a non-empty string of decimal digits with no leading zero, except for a lone `0` for zero. `ParseIntToString` states that it reads back. |
| Decimal.NatToDecimalValue | plugin.py:58 | The decimal digits of a natural number read back as that number. |
| Decimal.ParseIntToString | plugin.py:128 | `str` of any integer, negative ones included, parses back to that integer. |
| Decimal.IntToStringInjective | plugin.py:57-58 | Distinct timeouts or status codes render as distinct strings. |
| Decimal.DecimalOf500 | plugin.py:77 | Status 500 renders as `500`. |
| Decimal.DecimalOf10 | plugin.py:286 | The default timeout 10 renders as `10`. |
| Joining.SplitJoin | plugin.py:134-136 | Splitting a comma-joined non-empty list at commas gives the list back, provided no item contains a comma. |
| Joining.Join | plugin.py:134-136 | A list of two or more items always yields a string containing the separator. Beyond that the contract says nothing; what the join means is stated by `SplitJoin`. |
| Http.EngineValue | plugin.py:52-56 | `fast` selects `direct`, `quality` selects `browser` (both directions), and every other mode selects no engine value. |
| Http.TimeoutValueReadsBack | plugin.py:57-58 | A timeout header is present only for a positive timeout, and its value parses back to the configured timeout. |
| Http.CheckReply | plugin.py:74-77 | The result succeeds exactly on a response with status 200, and then carries the text. Any other status fails with a message that starts with the tool's message, and the status code parses back from the rest. A raised exception keeps its message. |
| WebSearch.BuildSearchRequest | plugin.py:36-68 | The request goes to the search endpoint with headers and body meeting the full search specification. |
| WebSearch.BuildSearchHeaders | plugin.py:38-68 | The base headers always. Without `crawl_details`, only `X-Respond-With: no-content` besides them. With it, the engine, timeout and four toggled headers, each present exactly under its condition. No other header. |
| WebSearch.AddFetchHeaders | plugin.py:52-58 | Adds `X-Engine` as the mode selects and `X-Timeout` only for a positive timeout, in decimal. Earlier headers are kept and later ones are still absent. |
| WebSearch.AddContentHeaders | plugin.py:59-66 | `X-Retain-Images: none` and the three `X-With-*: true` headers are each present exactly when their toggle is on. The other headers are kept. |
| WebSearch.BuildSearchBody | plugin.py:42-49 | `q` is the keywords unchanged. `gl` and `hl` are present exactly when nation and language differ from `not-specified`, and then carry them. No other key. |
| WebSearch.SearchReplyResult | plugin.py:74-77 | Succeeds exactly on status 200 with the text. A raised exception keeps its message. Any other status gives the message `搜索请求失败，状态码: ` followed by the decimal status. |
| WebSearch.ExecuteSearch | plugin.py:79-94 | Returns for every reply `post` gives, a raised `Exception` included, with name `search_web`. The content is what `ToToolOutput` makes of the status check of whatever `post` replies to the specified request. |
| WebSearch.SearchHeadersDetermined | plugin.py:51-68 | Two header maps that both meet the search specification are equal. |
| WebSearch.SearchBodyDetermined | plugin.py:42-49 | Two bodies that both meet the body specification are equal. |
| WebSearch.SearchRequestDetermined | plugin.py:36-68 | At most one request meets the search specification. |
| WebSearch.SearchWithoutDetails | plugin.py:67-68 | Without `crawl_details` the headers are exactly `Authorization`, `Content-Type` and `X-Respond-With: no-content`. |
| WebSearch.SearchWithDetails | plugin.py:51-56 | With `crawl_details`, `X-Respond-With` is absent and `X-Engine` is `direct` exactly for `fast`, `browser` exactly for `quality`, and absent for every other mode. |
| WebSearch.GeneratedAltIsolated | plugin.py:65-66 | With `crawl_details`, flipping `add_pic_alt` toggles `X-With-Generated-Alt` and leaves every other header as it was. |
| WebSearch.DetailTogglesIgnored | plugin.py:51-68 | Without `crawl_details`, the engine, timeout and toggle settings have no effect on the headers. |
| WebSearch.DefaultSearchRequest | plugin.py:42-68 | With the defaults the body is `{q, gl: CN, hl: zh-cn}` and the headers ask for no content. |
| WebSearch.SearchSucceeds | plugin.py:74-75 | A 200 reply gives exactly `{name: search_web, content: text}`. |
| WebSearch.SearchFailureContent | plugin.py:90-94 | Any non-200 status gives content `搜索失败: 搜索请求失败，状态码: ` followed by the decimal status. |
| WebSearch.SearchServerError | plugin.py:77 | A 500 reply gives content `搜索失败: 搜索请求失败，状态码: 500`. |
| UrlCrawl.BuildCrawlRequest | plugin.py:112-152 | The request goes to the reader endpoint with body exactly `{url: url}` and headers meeting the full extraction specification. |
| UrlCrawl.BuildCrawlHeaders | plugin.py:114-152 | The base headers always, then every option's header present exactly under its condition with its fixed value. No other header. |
| UrlCrawl.AddEngineHeader | plugin.py:122-126 | `X-Engine` is `direct` for `fast`, `browser` for `quality`, and absent otherwise. Nothing else changes. |
| UrlCrawl.AddTimeoutHeader | plugin.py:127-128 | `X-Timeout` is present exactly for a positive timeout, as its decimal string. Nothing else changes. |
| UrlCrawl.AddRedirectHeader | plugin.py:129-130 | `X-Follow-Redirects: true` is present exactly when `follow_redirect` is on. |
| UrlCrawl.AddPrehandlerHeaders | plugin.py:131-136 | The use header is present exactly when scripts are on. The list header is present exactly when scripts are on and the list is non-empty, and then carries the comma-joined list. |
| UrlCrawl.AddShadowDomHeader | plugin.py:137-138 | `X-Include-Shadow-DOM: true` is present exactly when `include_shadow_dom` is on. |
| UrlCrawl.AddIframesHeader | plugin.py:139-140 | `X-Include-Iframes: true` is present exactly when `include_iframes` is on. |
| UrlCrawl.AddRetainImagesHeader | plugin.py:141-142 | `X-Retain-Images: none` is present exactly when `remove_pictures` is on. |
| UrlCrawl.AddReaderLmHeader | plugin.py:143-144 | `X-Use-ReaderLM-V2: true` is present exactly when `use_readerlm_v2` is on. |
| UrlCrawl.AddLinksSummaryHeader | plugin.py:145-146 | `X-With-Links-Summary: true` is present exactly when `move_links_to_end` is on. |
| UrlCrawl.AddImagesSummaryHeader | plugin.py:147-148 | `X-With-Images-Summary: true` is present exactly when `move_pics_to_end` is on. |
| UrlCrawl.AddGeneratedAltHeader | plugin.py:149-150 | `X-With-Generated-Alt: true` is present exactly when `add_pic_alt` is on. |
| UrlCrawl.AddGptOssHeader | plugin.py:151-152 | `X-Optimize-For-GPT-OSS: true` is present exactly when `optimize_for_gpt_oss` is on. |
| UrlCrawl.FetchPartKept | plugin.py:137-152 | Setting any content header leaves the base, engine, timeout, redirect and script headers as they were. |
| UrlCrawl.CrawlReplyResult | plugin.py:158-161 | Succeeds exactly on status 200 with the text. A raised exception keeps its message. Any other status gives the message `内容提取请求失败，状态码: ` followed by the decimal status. |
| UrlCrawl.ExecuteCrawl | plugin.py:163-178 | Returns for every reply `post` gives, a raised `Exception` included, with name `crawl_url`. The content is what `ToToolOutput` makes of the status check of whatever `post` replies to the specified request. |
| UrlCrawl.CrawlRequestDetermined | plugin.py:112-152 | At most one request meets the extraction specification. |
| UrlCrawl.FetchPartAgrees | plugin.py:122-136 | The base, engine, timeout, redirect and script headers depend only on the API key and those options. |
| UrlCrawl.ContentPartAgrees | plugin.py:137-152 | Across two configurations, the content headers depend only on the eight content options. The API key and the fetch options have no effect on them. |
| UrlCrawl.ContentPartAgreesButImages | plugin.py:141-142 | Flipping `remove_pictures` toggles `X-Retain-Images` and no other content header. |
| UrlCrawl.RetainImagesIsolated | plugin.py:141-142 | Flipping `remove_pictures` toggles `X-Retain-Images` and leaves every other header as it was. |
| UrlCrawl.ScriptListHeader | plugin.py:131-136 | For any script names, the list header appears only beside `X-Use-Custom-Prehandler-Scripts: true`, and scripts on with an empty list send the use header alone. The list header splits back into the configured list, provided no script name contains a comma. |
| UrlCrawl.ScriptListOfTwo | plugin.py:133-136 | Scripts `a` and `b` are sent as `a,b`. |
| UrlCrawl.DefaultCrawlRequest | plugin.py:114-152 | With the defaults the headers are exactly `DefaultCrawlHeaders`: a 10-second timeout, redirects followed, images dropped, links and images summarised at the end, and generated alt text for images. |
| UrlCrawl.CrawlEngineHeader | plugin.py:122-126 | `X-Engine` is `direct` exactly for `fast`, `browser` exactly for `quality`, and absent for every other mode. |
| UrlCrawl.CrawlEngineWithinSchema | plugin.py:321-326 | Within the schema's engine choices, `X-Engine` is absent exactly for `default`. |
| UrlCrawl.CrawlSucceeds | plugin.py:158-159 | A 200 reply gives exactly `{name: crawl_url, content: text}`. |
| UrlCrawl.CrawlFailureContent | plugin.py:174-178 | Any non-200 status gives content `内容提取失败: 内容提取请求失败，状态码: ` followed by the decimal status. |
| UrlCrawl.CrawlServerError | plugin.py:161 | A 500 reply gives content `内容提取失败: 内容提取请求失败，状态码: 500`. |

The `if` statements of each builder appear in the source's order. They are spread over small step methods, one configuration option each for the extraction tool and two groups for the search tool, so that each step is proved on its own. The header map passes through them in the same order.

## Left out

- The `aiohttp` session, the POST itself, `async`/`await` and the session lifecycle (plugin.py:70-73, 154-157) are network I/O. The reply is the abstract parameter `post`.
- `json.dumps` of the body is a library call. The body is kept as the mapping that would be serialised.
- Exceptions other than a non-200 status (network failure, serialisation error, a text-decoding error) are opaque. They appear only as a `Raised` reply carrying the exception's string form.
- A missing `keywords` or `url` argument is not modelled. `dict.get` would then pass `None` into the request. The model takes a string.
- A configuration key missing at call time is not modelled. The lookup would raise inside the `try` and be reported as a failure. The configuration record is always complete.
- ExecuteSearch, ExecuteCrawl: "always returns" covers every `Exception` (plugin.py:93, 177). Interruptions outside that hierarchy still propagate out of `execute` and are not modelled: `asyncio.CancelledError`, `KeyboardInterrupt` and `SystemExit`.
- Dictionary insertion order, and therefore the order in which headers are sent, is not captured, because a Dafny `map` is unordered.
- ScriptListHeader: a script name containing a comma is sent as the source sends it, but the joined header is then ambiguous (plugin.py:134). The split-back clause is stated only for comma-free names.
- Non-string items in `custom_prehandler_scripts_list` are not modelled (`",".join` would raise on them). The list is a `seq<string>`.
- Plugin registration, the `plugin` configuration section, section descriptions, and the tool metadata (name, description, parameters) are declarative data for the host framework.
- RetainImagesIsolated: the "flipping one toggle changes only its header" property is stated for `remove_pictures` only. For the other toggles it is visible in the specification predicates, where each header's condition mentions only its own option, but no lemma states it separately.
- GeneratedAltIsolated: likewise stated for `add_pic_alt` only among the search toggles.
- The Python integer width is unbounded, as in Dafny, so the timeout and status codes need no wrap-around.
