# scrapy-mcp in Dafny

This project models the core of scrapy-mcp, a Model Context Protocol server.
It offers two scraping tools:

- `simple_scrape`: fetch a page and extract its text or HTML;
- `puppeteer_scrape`: drive a headless browser through a script of actions.

The model also covers the logic of the repository's test suite. That logic
lives in its own helpers and mock implementations: validating a proxy
configuration, the Puppeteer proxy arguments, the `Proxy-Authorization`
header, batch scraping, a counting semaphore, chunked concurrency, HTML
escaping, URL validation, the mock web server and mock proxy, the free-port
search and the test URLs.

Modules:

- `Wrappers`: `Option` and `Result`.
- `Text`: JavaScript string behaviour the code relies on. This covers
  decimal rendering, `parseInt` on leading digits, `split` on one character,
  `includes`, the rendering of `undefined` in template literals, and
  truthiness.
- `Fetch`: the response of `fetch`. `ok` means a status in 200..299. A thrown
  error is its own outcome.
- `Lists`: counting with a predicate (`filter(...).length`) and flattening.
- `Replies`: a tool reply, which is a text and an `isError` flag.
- `ScraperServer` (`src/index.ts`):
  - the action checks (`executeAction`);
  - the set-up and the action loop of a Puppeteer scrape, which stops at the
    first thrown error;
  - the page is closed on every path once it was opened;
  - the shared browser and `cleanup`;
  - `handleSimpleScrape`;
  - the tool-call dispatcher.
- `Helpers` (`tests/helpers.ts`): the mock server's routing, the mock proxy's
  check and forwarding options, `findAvailablePort` and `createTestUrls`.
- `ProxySupport` (`tests/proxy-support.test.ts`).
- `BatchScraping` (`tests/batch-scraping.test.ts`).
- `Integration` (`tests/integration.test.ts`).

The model is parameterised over everything foreign (see "Left out"):

- `fetch`, which maps a URL to a response or a thrown message;
- cheerio and Puppeteer extraction, which map a body to a string or to the
  message it throws;
- the browser page, which reports the error an operation throws, if any,
  as a function of that operation alone;
- `new URL`, which gives a protocol or throws; the lemmas assume it reads
  the scheme as the URL Standard does, after removing surrounding C0
  controls and spaces and every tab and newline;
- Base64 encoding;
- the port probe.

Stateful code is modelled as classes or as methods with loops:

- the page (`ScraperServer.Page`), the server's browser slot
  (`ScraperServer.Server`) and the semaphore (`BatchScraping.Semaphore`) are
  classes;
- the `for` and `while` loops of the source are methods with loop invariants;
- the straight-line awaits of the source are straight-line method bodies.

Each loop's contract states its result. Most loops are proved against a
reference function: `RunActions` against `ActionsTrace`, `RunSemaphore`
against `LoadOf`, `ScrapeEach` and `CheckEach` against the item of each
URL, and `ChunkUrls` against `Flatten`. `FindAvailablePort` and
`CreateTestUrls` are proved against the properties of their result directly:
the least free port, and the i-th test URL.

## Model

| member | source | states |
|---|---|---|
| ScraperServer.DelayEffects | src/index.ts:429-433 | a pause follows an action exactly when its delay is truthy, and lasts that delay |
| ScraperServer.WaitTime | src/index.ts:449 | a wait lasts the given delay when it is non-zero, and 1000 ms otherwise |
| ScraperServer.ActionPlanCases | src/index.ts:423-468 | an action fails its check exactly when its type is unknown, a click lacks a selector, or a typing lacks a selector or a text, each with its own message; an unknown type is named in the error; a wait sleeps once; any other action performs its one page operation and then the optional pause |
| ScraperServer.ActionWithoutKind | src/index.ts:464-467 | an action without a type is rejected as type "undefined" |
| ScraperServer.Then | src/index.ts:349-351 | a second stage runs only if the first did not throw, and its effects follow the first's |
| ScraperServer.ThenAssociative | src/index.ts:349-351 | sequencing stages is associative |
| ScraperServer.RunStepsAppend | src/index.ts:349-351 | running two lists of awaited steps one after the other equals running their concatenation |
| ScraperServer.RunStepsStep | src/index.ts:349-351 | a run grows by one step at a time, and once a step throws, nothing after it changes the outcome |
| ScraperServer.RunStepsSucceed | src/index.ts:349-351 | a run ends without error exactly when no step throws |
| ScraperServer.RunEffectsStopsAtFirstFailure | src/index.ts:332-346 | the page operations performed are a prefix of those asked for, ending at the first that throws; that operation's error is the run's error; and the run is complete exactly when no operation throws |
| ScraperServer.FirstFailingActionStopsTheRest | src/index.ts:349-351 | once an action throws, the actions after it are not run |
| ScraperServer.ActionsSucceed | src/index.ts:349-351 | the action loop completes exactly when every action passes its check and none of its page operations throws |
| ScraperServer.Page.Perform | src/index.ts:428 | a page operation is recorded and throws what the page reports |
| ScraperServer.Page.Pause | src/index.ts:429-433 | a pause is recorded and never throws |
| ScraperServer.Page.Close | src/index.ts:412-414 | closing marks the page closed and performs nothing else |
| ScraperServer.RunSetup | src/index.ts:332-346 | the set-up performs the viewport, the navigation, the optional selector wait and the optional pause until one throws, exactly as `RunEffects` runs the set-up effects, and throws that error |
| ScraperServer.RunScript | src/index.ts:332-351 | the page script performs exactly the operations of `ScriptTrace`: the set-up, then the actions only when the set-up did not throw, and throws the first error |
| ScraperServer.SetupTrace | src/index.ts:332-346 | running the set-up list equals awaiting its four stages one after the other |
| ScraperServer.ExecuteAction | src/index.ts:419-469 | `executeAction` performs exactly the operations of the action's trace, and throws its error, with nothing performed when the check fails |
| ScraperServer.RunActions | src/index.ts:349-351 | the action loop performs exactly the concatenated operations of the actions up to the first failure, and throws that failure's error |
| ScraperServer.SetupEffects | src/index.ts:333-346 | the set-up always starts with the viewport and the navigation to the url |
| ScraperServer.NavigationFailureStopsScript | src/index.ts:336 | when navigation throws, nothing after it runs and the scrape fails with the navigation's error |
| ScraperServer.ContentText | src/index.ts:398 | a reply text is never empty: an empty result becomes the no-content message, and any other result is kept |
| ScraperServer.PuppeteerResult | src/index.ts:299-416 | the url is checked first; a launch failure, a script failure or an extraction failure fails the scrape with its message, in that order; when the url, the browser and the script all succeed, the outcome is the extracted text (or the no-content message) as a non-error reply, or the extraction's error |
| ScraperServer.Server.EnsureBrowser | src/index.ts:323-329 | the existing browser is reused without launching; otherwise a launch is attempted, and the browser is remembered only when the launch succeeds |
| ScraperServer.Server.Cleanup | src/index.ts:493-504 | closing is attempted only when a browser exists, and the browser is forgotten only when closing succeeds |
| ScraperServer.Server.HandlePuppeteerScrape | src/index.ts:299-416 | the outcome is `PuppeteerResult`; the page is closed exactly when it was opened; its log is the script's trace; a missing url touches neither the browser nor the page; an existing browser is kept; without one, a launch is made and its browser is kept exactly when it succeeds |
| ScraperServer.Server.CallTool | src/index.ts:184-224 | an unknown tool name gives an error reply naming it; missing or non-object arguments give the invalid-arguments error; otherwise the reply is the handler's outcome, with a thrown error turned into an error reply; the Puppeteer tool leaves the browser, the page's closed flag and its log as the Puppeteer handler does; every other call touches neither |
| ScraperServer.SimpleScrape | src/index.ts:227-296 | a missing url is rejected; a thrown fetch error is passed on; a non-OK response fails with "HTTP status: statusText"; an extraction that throws fails with its message; it succeeds exactly when the fetch responded OK and the extraction did not throw, with the extracted text or the no-content message |
| ScraperServer.SimpleScrapeChecksUrlFirst | src/index.ts:228-230 | without a url, neither the fetch nor the extraction affects the outcome |
| ScraperServer.SimpleScrapeStatusReadBack | src/index.ts:245-247 | a status error begins with "HTTP " followed by the status, which `parseInt` reads back |
| ScraperServer.ReplyOf | src/index.ts:211-223 | a handler's reply is passed on, and a thrown error becomes "エラー: " followed by the message, flagged as an error |
| ScraperServer.HandlerRepliesFlagErrors | src/index.ts:279-287 | the reply of either handler is an error reply exactly when the handler failed, and its text is never empty |
| Helpers.MockServerRoute | tests/helpers.ts:8-68 | status 200 exactly for /test1, /test2, /test3 and /slow; everything else is the 404 "Not Found" reply; only /slow is delayed, by 3000 ms |
| Helpers.TestPathRoutes | tests/helpers.ts:11-46 | /test<i> is served with page i exactly for i = 1, 2, 3 |
| Helpers.HostnameOf | tests/helpers.ts:95 | the forwarding host name is never empty and contains no ':'; it is "localhost" when no host header is sent |
| Helpers.PortOf | tests/helpers.ts:96 | the forwarding port is 80 when no host header is sent |
| Helpers.HostHeaderRoundTrip | tests/helpers.ts:95-96 | a host header "name:port" is split back into that name and that port |
| Helpers.HostHeaderWithoutPort | tests/helpers.ts:95-96 | a host header without a port forwards to that name on port 80 |
| Helpers.MockProxyDecision | tests/helpers.ts:84-102 | the proxy answers 407 exactly when the proxy-authorization header is missing or does not mention "Basic"; otherwise it forwards the path and method with every header except proxy-authorization, to the host name and port read from the host header |
| Helpers.FindAvailablePort | tests/helpers.ts:143-154 | the result is the least free port in [start, start + 100), where start is 3000 unless given; it fails with "No available port found" exactly when none is free |
| Helpers.CreateTestUrls | tests/helpers.ts:157-163 | there are `count` URLs (3 unless given), none when count < 1, and the i-th is the URL of /test<i> on the port |
| Helpers.TestUrlInjective | tests/helpers.ts:160 | two test URLs on one port are equal exactly when their numbers are, so the list holds no URL twice |
| ProxySupport.ValidateProxyConfig | tests/proxy-support.test.ts:396-409 | no error exactly when the host is truthy, the port is in 1..65535 and the protocol is absent or supported; the checks run in that order, each with its own message |
| ProxySupport.ValidateProxyConfigExamples | tests/proxy-support.test.ts:411-431 | the five configurations of the error-handling case give their expected results |
| ProxySupport.CreatePuppeteerProxyArgs | tests/proxy-support.test.ts:255-266 | the first argument is the proxy-server argument, and "--proxy-auth" is added exactly when both username and password are truthy |
| ProxySupport.ProxyServerArg | tests/proxy-support.test.ts:257 | the argument starts with "--proxy-server=" and has a value after it |
| ProxySupport.ProxyServerArgParts | tests/proxy-support.test.ts:257 | splitting the proxy-server argument's value at ':' gives exactly three parts: the protocol, "//" followed by the host, and the port |
| ProxySupport.ProxyServerArgExample | tests/proxy-support.test.ts:268-281 | the example proxy gives "--proxy-server=http://proxy.example.com:8080" |
| ProxySupport.AcceptedWithoutProtocol | tests/proxy-support.test.ts:257 | a configuration without a protocol passes validation, yet its proxy-server argument reads "undefined://" |
| ProxySupport.BasicAuthorization | tests/proxy-support.test.ts:88-90 | the header value is "Basic " followed by the encoding of "user:password" |
| ProxySupport.CredentialsDetermineUser | tests/proxy-support.test.ts:88 | for user names without ':', the credential string determines the user name and the password |
| ProxySupport.AuthorizationHeaders | tests/proxy-support.test.ts:120-128 | the only header is Proxy-Authorization, present exactly when a proxy with both credentials is given, and its value is the Basic credential |
| ProxySupport.BuildScrapeOptions | tests/proxy-support.test.ts:115-132 | the options use GET and those headers, and name the proxy URL exactly when a proxy is given |
| ProxySupport.BuildBatchOptions | tests/proxy-support.test.ts:322-332 | the batch options hold only the authorization headers |
| ProxySupport.MockScrapeWithProxy | tests/proxy-support.test.ts:110-162 | a response gives the success text with its status, whatever the status; a thrown error gives "プロキシエラー: " with its message, flagged as an error |
| ProxySupport.ProxyLabel | tests/proxy-support.test.ts:339-341 | a request without a proxy is labelled "direct", and a proxied one carries a "host:port" label, which always holds a ':' and so never reads "direct" |
| ProxySupport.ProxyLabelRoundTrip | tests/proxy-support.test.ts:339-341 | a proxy's "host:port" label splits back into its host and port |
| ProxySupport.MockBatchScrapeWithProxy | tests/proxy-support.test.ts:309-369 | one result per url, in order, each reporting success exactly when the fetch responded OK and carrying the proxy's label; the summary counts the successes and is never an error; all succeed ⇒ the count is the number of urls |
| BatchScraping.Preview | tests/batch-scraping.test.ts:75 | the stored content is a prefix of at most 100 characters, the whole content when it is that short |
| BatchScraping.ScrapedItem | tests/batch-scraping.test.ts:60-97 | an item succeeds exactly when the fetch responded OK and the extraction did not throw; a success stores the preview and the status; a failure stores the "HTTP <status>" text, the fetch's thrown message or the extraction's thrown message, and nothing else |
| BatchScraping.StatusItemOf | tests/batch-scraping.test.ts:144-162 | the item records success exactly for an OK response, a status exactly when there was a response, and an error exactly when the fetch threw |
| BatchScraping.ScrapeEach | tests/batch-scraping.test.ts:59-98 | one item per url, in order, each the item of that url's fetch |
| BatchScraping.CheckEach | tests/batch-scraping.test.ts:143-163 | one status item per url, in order, each the item of that url's fetch |
| BatchScraping.MockBatchScrape | tests/batch-scraping.test.ts:42-113 | the summary counts successes and failures, which add up to the number of urls; when every url is fetched OK and extracted, it reads "成功: n件, 失敗: 0件" |
| BatchScraping.MockMixedBatch | tests/batch-scraping.test.ts:133-177 | the summary states the successes and the remaining failures |
| BatchScraping.MixedExampleCounts | tests/batch-scraping.test.ts:127-185 | against the mock server, /test1, /test2, /error and /nonexistent give 2 successes and 2 failures |
| BatchScraping.MockNetworkBatch | tests/batch-scraping.test.ts:288-341 | the summary counts the failures; when every fetch throws, it counts them all |
| BatchScraping.Semaphore.TryAcquire | tests/batch-scraping.test.ts:209-233 | a task starts exactly when a permit is free, taking the permit and raising the high-water mark; otherwise it joins the end of the queue; permits plus running tasks stay equal to the concurrency |
| BatchScraping.Semaphore.Release | tests/batch-scraping.test.ts:221-228 | a finished task returns its permit, and the queue's head, if any, is removed and woken |
| BatchScraping.RunSemaphore | tests/batch-scraping.test.ts:203-251 | the running, waiting and high-water counts at the end are those of `LoadOf` for the events, with the concurrency 3 unless given; every requested task is either started or still queued, in request order, so the started tasks are the requests except the last queued ones; with no permits nothing starts |
| BatchScraping.LoadBounds | tests/batch-scraping.test.ts:203-233 | on any events, the tasks running never outnumber the high-water mark, which never exceeds the concurrency; tasks wait only while the concurrency is reached; no more tasks wait than were requested |
| BatchScraping.LoadExample | tests/batch-scraping.test.ts:266-275 | with two permits, the test's three requests leave two running and one waiting, with a high-water mark of 2; a finish then hands its permit to the waiting task |
| BatchScraping.AwaitAll | tests/batch-scraping.test.ts:253 | `Promise.all` succeeds exactly when every promise does, giving their values in order, and otherwise fails with the error of a failed promise |
| BatchScraping.MockConcurrentBatch | tests/batch-scraping.test.ts:238-264 | the batch succeeds exactly when every fetch responded, and its summary counts the successes and states the high-water mark; a failure carries the message one of the fetches threw |
| BatchScraping.ChunkUrls | tests/batch-scraping.test.ts:376-379 | the chunks concatenate to the url list, each holds 1..concurrency urls, and all but the last hold exactly the concurrency |
| BatchScraping.AwaitChunk | tests/batch-scraping.test.ts:382-387 | a chunk succeeds exactly when every fetch in it responded, and otherwise fails with the message one of its fetches threw |
| BatchScraping.MockChunkedBatch | tests/batch-scraping.test.ts:372-399 | the batch succeeds exactly when every fetch responded, and reports "処理完了: n件" for n urls; a failure carries the message one of the fetches threw; the concurrency is 3 unless given |
| BatchScraping.MockBatchGuard | tests/batch-scraping.test.ts:352-360 | a missing or empty url array is rejected with "URLの配列が必要です"; anything else is accepted |
| Integration.EscapeHtmlIsPerCharacter | tests/integration.test.ts:238-245 | the chain of five replacements equals escaping each character once, so no entity is escaped twice |
| Integration.EscapeHtmlConcat | tests/integration.test.ts:238-245 | escaping distributes over concatenation |
| Integration.EscapeHtmlOneChar | tests/integration.test.ts:240-244 | each character becomes its own entity: & < > " ' map to &amp; &lt; &gt; &quot; &#39; and others stay |
| Integration.EscapeHtmlRemovesMarkup | tests/integration.test.ts:251 | escaped text holds none of < > " ' and so never contains "<script>" |
| Integration.EscapeHtmlLength | tests/integration.test.ts:238-245 | escaping never shortens text |
| Integration.EscapeHtmlKeepsPlainText | tests/integration.test.ts:238-245 | text without the five special characters is left as it is |
| Integration.EscapeHtmlScriptInjection | tests/integration.test.ts:235-250 | a script element around a quoted payload keeps its plain text, and every markup character becomes its entity |
| Integration.EscapeHtmlScriptExample | tests/integration.test.ts:247-250 | the injected script escapes to the expected text |
| Integration.HandleError | tests/integration.test.ts:85-94 | success exactly for an OK response; a failure carries "HTTP <status>" and the status |
| Integration.HandleErrorConsistent | tests/integration.test.ts:86-92 | the status in a failure's error text is the status code it reports |
| Integration.HandleErrorNotFoundExample | tests/integration.test.ts:77-98 | the /error page is reported as "HTTP 404" |
| Integration.Preprocessed | tests/integration.test.ts:257 | the URL parser's input rewriting removes characters and never adds any, and leaves an input without controls or spaces as it is |
| Integration.PreprocessedDropsLeadingSpace | tests/integration.test.ts:257 | a leading space is not part of what the parser reads, so " http://…" is read as "http://…" |
| Integration.ValidateUrl | tests/integration.test.ts:255-262 | a URL is valid exactly when it parses and its protocol is "http:" or "https:" |
| Integration.ValidUrlHasWebScheme | tests/integration.test.ts:255-262 | an accepted URL, once stripped of surrounding C0 controls and spaces and of its tabs and newlines, begins with http: or https: in any letter case; an input without ':' is refused |
| Integration.VisibleSchemeLength | tests/integration.test.ts:255-262 | for an input without controls or spaces, the protocol runs to the first ':', so any scheme whose length is not that of "http" or "https" is refused |
| Integration.ValidateUrlExamples | tests/integration.test.ts:266-268 | ftp, javascript and scheme-less inputs are refused |
| Fetch.HttpStatusErrorRecoversStatus | tests/integration.test.ts:89 | the digits after "HTTP " in a status error give back the status |
| Text.ParseInt | tests/helpers.ts:96 | `parseInt` gives a number exactly when the text starts with a digit |
| Text.Split | tests/helpers.ts:95 | `split` gives at least one part, and no part holds the separator |
| Text.ParseIntOfNatToString | tests/helpers.ts:96 | `parseInt` reads back a rendered number followed by anything that is not a digit |
| Text.JoinSplit | tests/helpers.ts:95-96 | splitting at a character and joining back gives the original text |

## Left out

- Network, sockets, HTTP servers and the MCP transport are outside the model.
  `fetch`, the port probe, the mock servers' listening and closing, the stdio
  transport, `main`, signal handling and `console` logging are all left out.
  Their outcomes are parameters.
- The content extraction by cheerio and by Puppeteer is not modelled:
  selectors, `format`, `$.html()`, `textContent`, removing script and style
  tags, collapsing whitespace, screenshots and the `<h1>` / `<p>` regular
  expressions of the tests. It is a function parameter (`extract`) or a given
  outcome (`extraction`).
- The viewport size, `headless`, the launch flags and `waitUntil` do not
  affect the modelled behaviour and are left out.
- `newPage` and `page.close` failing are not modelled:
  - a failing `newPage` would leave no page to close;
  - a failing `close` in the `finally` block would replace the outcome with
    its own error.
- Errors that are not `Error` objects (`String(error)`) are not
  distinguished. A thrown value is its message.
- Timestamps (`processedAt`, durations, `Date.now`) and the timing of
  `setTimeout`, `Promise.all` and the semaphore are left out. Sleeps are
  recorded as effects, and the semaphore is driven by a given sequence of
  acquire and finish events.
- BatchScraping.RunSemaphore: real tasks finish in an order the scheduler
  decides. The model takes that order as the event sequence.
- BatchScraping.MockConcurrentBatch: the high-water mark is a parameter
  here. `RunSemaphore` proves the bound on it separately.
- BatchScraping.AwaitAll: on several rejections, JavaScript reports the one
  that settles first. The model reports the first rejection in index order:
  the error is that of a rejected task, and every task before it succeeded.
- BatchScraping.ChunkUrls requires a positive concurrency for a non-empty
  list, because the source loop does not terminate otherwise.
- BatchScraping.Preview: `substring(0, 100)` counts UTF-16 code units, while
  the model counts characters.
- ProxySupport.CreatePuppeteerProxyArgs: the second variant of the test
  (tests/proxy-support.test.ts:285-290) never adds "--proxy-auth". It
  coincides with this method for a proxy without credentials, and is not
  modelled separately.
- Two stubs are not modelled, because each only checks a constant:
  - the connection-failure stub (tests/proxy-support.test.ts:182-210), which
    fails for port 99999;
  - the invalid-credentials stub (tests/proxy-support.test.ts:435-458).
- Base64 encoding (`encodeBase64`, tests/helpers.ts:166-168) is a function
  parameter.
- The proxy tests pass the proxy as a `proxy` field of the `fetch` options,
  which `fetch` does not read, so their requests never reach the mock proxy.
  The model states the headers those tests build and the mock proxy's rule
  separately, and does not relate them.
- Helpers.MockProxyDecision covers the decision and the options only. The
  mock proxy's actual forwarding, piping and "Proxy Error" reply
  (tests/helpers.ts:104-114) are network I/O.
- Helpers.MockServerRoute: the Content-Type header and the HTML layout of the
  pages are not modelled. A page is given by its title, heading and content.
- `parseInt` is modelled on leading decimal digits only. Leading white
  space, signs and hexadecimal prefixes do not occur in the headers built
  here.
- Ports, statuses and delays are mathematical integers. Non-integer
  JavaScript numbers are not modelled.
- Integration.ValidateUrl: the URL parser is a parameter. The lemmas assume
  only that a reported protocol is the scheme of the rewritten input
  (`Preprocessed`) followed by ':'. Which inputs parse at all is left to
  the parameter.
- The character-encoding case of the integration tests
  (`encodeURIComponent` and the Content-Type header) is not modelled.
- ScraperServer.Page: whether a page operation throws depends on the
  operation alone, not on what the page did before. For example, a selector
  that appears only after an earlier click is not modelled. The oracle
  `fails` takes the operation only.
- The code has no retries, back-off or pacing between requests, so none is
  modelled. The network-error batch arms a 5000 ms `AbortController` timer
  on every request (tests/batch-scraping.test.ts:300-303). An aborted
  request reaches the model only as a `Threw` outcome of `fetch`, and the
  timer itself is left out.
- The timeout case (an aborted request to /slow) is not modelled, because it
  depends on timing.
- tests/run-tests.ts, tests/setup.ts and jest.config.js configure the test
  runner and are not part of this model.
