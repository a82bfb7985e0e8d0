/**
 * The batch scrapes of the batch tests: the loops that record one result per
 * URL, the success and failure counts, the permit semaphore that bounds the
 * concurrent requests, `Promise.all` over the per-URL tasks, the chunking of
 * the URL list and the guard against an empty list. `fetch` and the HTML
 * extraction are foreign and are parameters; timestamps are left out.
 */
module BatchScraping {
  import opened Wrappers
  import opened Text
  import opened Fetch
  import opened Lists
  import opened Replies
  import Helpers

  /** The concurrency the mocks use when none is given. */
  const DefaultConcurrency: int := 3
  /** How much of the extracted content a result keeps. */
  const PreviewLength: nat := 100

  const ErrUrlsRequired := "URLの配列が必要です"

  // ---------------------------------------------------------------------
  // One result per URL
  // ---------------------------------------------------------------------

  /** A result of the scraping loop: the content preview on success, the error message otherwise. */
  datatype BatchItem = BatchItem(url: string, success: bool, content: Option<string>, statusCode: Option<nat>,
                                 error: Option<string>)

  /** A result of the status loops: whether the response was ok, and its status or the thrown message. */
  datatype StatusItem = StatusItem(url: string, success: bool, statusCode: Option<nat>, error: Option<string>)

  /** `content.substring(0, 100)`. */
  function Preview(content: string): (p: string)
    ensures |p| <= PreviewLength && |p| <= |content| && p == content[..|p|]
    ensures |content| <= PreviewLength ==> p == content
    ensures |content| > PreviewLength ==> |p| == PreviewLength
  {
    if |content| <= PreviewLength then content else content[..PreviewLength]
  }

  /** An ok response whose body the extraction reads without throwing. */
  predicate Scraped(outcome: FetchOutcome, extract: string -> Result<string, string>) {
    outcome.Succeeded() && extract(outcome.response.body).Success?
  }

  /**
   * The result recorded for one URL: an ok response keeps a preview of what
   * `extract` finds in its body, a non-OK one records `HTTP <status>`, and a
   * thrown error, from the fetch or from the extraction (the regular
   * expression built from the selector), its message.
   */
  function ScrapedItem(url: string, outcome: FetchOutcome, extract: string -> Result<string, string>)
    : (item: BatchItem)
    ensures item.url == url
    ensures item.success <==> Scraped(outcome, extract)
    ensures item.success ==> (item.content == Some(Preview(extract(outcome.response.body).value))
                              && item.statusCode == Some(outcome.response.status) && item.error.None?)
    ensures !item.success ==> item.content.None? && item.statusCode.None? && item.error.Some?
    ensures outcome.Responded? && !outcome.response.Ok() ==> item.error == Some(HttpStatusError(outcome.response.status))
    ensures outcome.Threw? ==> item.error == Some(outcome.message)
    ensures outcome.Succeeded() && extract(outcome.response.body).Failure? ==>
              item.error == Some(extract(outcome.response.body).error)
  {
    match outcome
    case Responded(response) =>
      if response.Ok() then
        match extract(response.body)
        case Success(content) => BatchItem(url, true, Some(Preview(content)), Some(response.status), None)
        case Failure(message) => BatchItem(url, false, None, None, Some(message))
      else
        BatchItem(url, false, None, None, Some("HTTP " + NatToString(response.status)))
    case Threw(message) => BatchItem(url, false, None, None, Some(message))
  }

  /** The result of the status loops for one URL. */
  function StatusItemOf(url: string, outcome: FetchOutcome): (item: StatusItem)
    ensures item.url == url
    ensures item.success <==> outcome.Succeeded()
    ensures item.statusCode.Some? <==> outcome.Responded?
    ensures item.error.Some? <==> outcome.Threw?
    ensures outcome.Responded? ==> item.statusCode == Some(outcome.response.status)
    ensures outcome.Threw? ==> item.error == Some(outcome.message)
  {
    match outcome
    case Responded(response) => StatusItem(url, response.Ok(), Some(response.status), None)
    case Threw(message) => StatusItem(url, false, None, Some(message))
  }

  /** The scraping loop: one result per URL, in the order of the URLs. */
  method ScrapeEach(urls: seq<string>, fetch: string -> FetchOutcome, extract: string -> Result<string, string>)
    returns (results: seq<BatchItem>)
    ensures |results| == |urls|
    ensures forall i :: 0 <= i < |urls| ==> results[i] == ScrapedItem(urls[i], fetch(urls[i]), extract)
  {
    results := [];
    for i := 0 to |urls|
      invariant |results| == i
      invariant forall j :: 0 <= j < i ==> results[j] == ScrapedItem(urls[j], fetch(urls[j]), extract)
    {
      var outcome := fetch(urls[i]);
      var item;
      match outcome {
        case Responded(response) =>
          if response.Ok() {
            var content := extract(response.body);
            if content.Success? {
              item := BatchItem(urls[i], true, Some(Preview(content.value)), Some(response.status), None);
            } else {
              item := BatchItem(urls[i], false, None, None, Some(content.error));
            }
          } else {
            item := BatchItem(urls[i], false, None, None, Some("HTTP " + NatToString(response.status)));
          }
        case Threw(message) =>
          item := BatchItem(urls[i], false, None, None, Some(message));
      }
      results := results + [item];
    }
  }

  /** The status loop: one result per URL, in the order of the URLs. */
  method CheckEach(urls: seq<string>, fetch: string -> FetchOutcome) returns (results: seq<StatusItem>)
    ensures |results| == |urls|
    ensures forall i :: 0 <= i < |urls| ==> results[i] == StatusItemOf(urls[i], fetch(urls[i]))
  {
    results := [];
    for i := 0 to |urls|
      invariant |results| == i
      invariant forall j :: 0 <= j < i ==> results[j] == StatusItemOf(urls[j], fetch(urls[j]))
    {
      var outcome := fetch(urls[i]);
      match outcome {
        case Responded(response) =>
          results := results + [StatusItem(urls[i], response.Ok(), Some(response.status), None)];
        case Threw(message) =>
          results := results + [StatusItem(urls[i], false, None, Some(message))];
      }
    }
  }

  // ---------------------------------------------------------------------
  // Counting
  // ---------------------------------------------------------------------

  function ItemSucceeded(item: BatchItem): bool { item.success }
  function ItemFailed(item: BatchItem): bool { !item.success }
  function StatusSucceeded(item: StatusItem): bool { item.success }
  function StatusFailed(item: StatusItem): bool { !item.success }

  /** `成功: X件, 失敗: Y件`. */
  function CountSummary(successCount: nat, failureCount: nat): string {
    "成功: " + NatToString(successCount) + "件, 失敗: " + NatToString(failureCount) + "件"
  }

  /**
   * The first batch mock: scrape every URL and report both counts, each
   * filtered from the results; the failures are the results that are not
   * successes.
   */
  method MockBatchScrape(urls: seq<string>, fetch: string -> FetchOutcome, extract: string -> Result<string, string>)
    returns (reply: ToolReply, results: seq<BatchItem>)
    ensures |results| == |urls|
    ensures forall i :: 0 <= i < |urls| ==> results[i] == ScrapedItem(urls[i], fetch(urls[i]), extract)
    ensures !reply.isError
    ensures var s := Count(results, ItemSucceeded);
            reply.text == CountSummary(s, |urls| - s)
    ensures (forall i :: 0 <= i < |urls| ==> Scraped(fetch(urls[i]), extract)) ==> reply.text == CountSummary(|urls|, 0)
  {
    results := ScrapeEach(urls, fetch, extract);
    var successCount := Count(results, ItemSucceeded);
    var failureCount := Count(results, ItemFailed);
    CountComplement(results, ItemSucceeded, ItemFailed);
    reply := ToolReply(CountSummary(successCount, failureCount), false);
    if forall i :: 0 <= i < |urls| ==> Scraped(fetch(urls[i]), extract) {
      CountAll(results, ItemSucceeded);
    }
  }

  /**
   * The mixed batch mock: the failures are the results minus the
   * successes, which is the number of results that are not successes.
   */
  method MockMixedBatch(urls: seq<string>, fetch: string -> FetchOutcome)
    returns (reply: ToolReply, results: seq<StatusItem>)
    ensures |results| == |urls|
    ensures forall i :: 0 <= i < |urls| ==> results[i] == StatusItemOf(urls[i], fetch(urls[i]))
    ensures !reply.isError
    ensures reply.text == CountSummary(Count(results, StatusSucceeded), Count(results, StatusFailed))
  {
    results := CheckEach(urls, fetch);
    var successCount := Count(results, StatusSucceeded);
    CountComplement(results, StatusSucceeded, StatusFailed);
    var failureCount := |results| - successCount;
    reply := ToolReply(CountSummary(successCount, failureCount), false);
  }

  /** The network-error mock: `失敗: N件`. */
  method MockNetworkBatch(urls: seq<string>, fetch: string -> FetchOutcome)
    returns (reply: ToolReply, results: seq<StatusItem>)
    ensures |results| == |urls|
    ensures forall i :: 0 <= i < |urls| ==> results[i] == StatusItemOf(urls[i], fetch(urls[i]))
    ensures !reply.isError && reply.text == "失敗: " + NatToString(Count(results, StatusFailed)) + "件"
    ensures (forall i :: 0 <= i < |urls| ==> fetch(urls[i]).Threw?) ==>
              reply.text == "失敗: " + NatToString(|urls|) + "件"
  {
    results := CheckEach(urls, fetch);
    var failureCount := Count(results, StatusFailed);
    reply := ToolReply("失敗: " + NatToString(failureCount) + "件", false);
    if forall i :: 0 <= i < |urls| ==> fetch(urls[i]).Threw? {
      CountAll(results, StatusFailed);
    }
  }

  /** `fetch` behaves like a request to the mock server for this path. */
  predicate ServesLikeMock(fetch: string -> FetchOutcome, url: string, path: string) {
    fetch(url).Responded? && fetch(url).response.status == Helpers.MockServerRoute(path).status
  }

  function MockUrl(port: int, path: string): string {
    "http://localhost:" + IntToString(port) + path
  }

  /**
   * The mixed test: two test pages, `/error` and `/nonexistent` on the
   * mock server give two successes and two failures.
   */
  lemma MixedExampleCounts(port: int, fetch: string -> FetchOutcome)
    requires ServesLikeMock(fetch, MockUrl(port, Helpers.TestPath(1)), Helpers.TestPath(1))
    requires ServesLikeMock(fetch, MockUrl(port, Helpers.TestPath(2)), Helpers.TestPath(2))
    requires ServesLikeMock(fetch, MockUrl(port, "/error"), "/error")
    requires ServesLikeMock(fetch, MockUrl(port, "/nonexistent"), "/nonexistent")
    ensures var urls := [MockUrl(port, Helpers.TestPath(1)), MockUrl(port, Helpers.TestPath(2)),
                         MockUrl(port, "/error"), MockUrl(port, "/nonexistent")];
            var items := seq(4, i requires 0 <= i < 4 => StatusItemOf(urls[i], fetch(urls[i])));
            Count(items, StatusSucceeded) == 2 && Count(items, StatusFailed) == 2
  {
    Helpers.TestPathRoutes(1);
    Helpers.TestPathRoutes(2);
    assert Helpers.MockServerRoute("/error").status == 404;
    assert Helpers.MockServerRoute("/nonexistent").status == 404 by {
      assert |"/nonexistent"| == 12;
    }
    var urls := [MockUrl(port, Helpers.TestPath(1)), MockUrl(port, Helpers.TestPath(2)),
                 MockUrl(port, "/error"), MockUrl(port, "/nonexistent")];
    var items := seq(4, i requires 0 <= i < 4 => StatusItemOf(urls[i], fetch(urls[i])));
    assert items[0].success && items[1].success && !items[2].success && !items[3].success;
    var t1 := items[1..];
    var t2 := t1[1..];
    var t3 := t2[1..];
    assert t3[1..] == [];
    assert Count(t3, StatusSucceeded) == 0;
    assert Count(t2, StatusSucceeded) == 0;
    assert Count(t1, StatusSucceeded) == 1;
    assert Count(items, StatusSucceeded) == 2;
    CountComplement(items, StatusSucceeded, StatusFailed);
  }

  // ---------------------------------------------------------------------
  // The permit semaphore
  // ---------------------------------------------------------------------

  /** The most requests the semaphore lets run at once. */
  function Bound(concurrency: int): nat {
    if concurrency > 0 then concurrency else 0
  }

  /**
   * The test's semaphore together with the two counters its tasks update:
   * `permits` free slots, the FIFO `queue` of waiting tasks (by number),
   * `activeRequests` running tasks and the largest number seen running.
   */
  class Semaphore {
    const concurrency: int
    var permits: int
    var queue: seq<nat>
    var activeRequests: nat
    var maxConcurrent: nat

    /** Every permit is either free or held by a running task, and the running maximum is within the bound. */
    predicate Balanced()
      reads this
    {
      && permits + activeRequests == concurrency
      && activeRequests <= maxConcurrent <= Bound(concurrency)
    }

    /** Tasks wait only while no permit is free. */
    predicate Valid()
      reads this
    {
      Balanced() && (queue != [] ==> permits <= 0)
    }

    constructor(concurrency: int)
      ensures Valid()
      ensures this.concurrency == concurrency && permits == concurrency
      ensures queue == [] && activeRequests == 0 && maxConcurrent == 0
    {
      this.concurrency := concurrency;
      permits := concurrency;
      queue := [];
      activeRequests := 0;
      maxConcurrent := 0;
    }

    /** `tryAcquire`: start the task when a permit is free, otherwise queue it. */
    method TryAcquire(task: nat) returns (admitted: bool)
      requires Balanced()
      modifies this
      ensures Balanced() && (old(Valid()) ==> Valid())
      ensures admitted <==> old(permits) > 0
      ensures admitted ==> (permits == old(permits) - 1 && activeRequests == old(activeRequests) + 1
                            && queue == old(queue)
                            && maxConcurrent == if activeRequests > old(maxConcurrent) then activeRequests else old(maxConcurrent))
      ensures !admitted ==> (permits == old(permits) && activeRequests == old(activeRequests)
                             && queue == old(queue) + [task] && maxConcurrent == old(maxConcurrent))
    {
      if permits > 0 {
        permits := permits - 1;
        activeRequests := activeRequests + 1;
        if activeRequests > maxConcurrent {
          maxConcurrent := activeRequests;
        }
        admitted := true;
      } else {
        queue := queue + [task];
        admitted := false;
      }
    }

    /**
     * The `finally` of a finished task: give back its permit and wake the
     * head of the queue, which then takes that permit.
     */
    method Release() returns (woken: Option<nat>)
      requires Valid() && activeRequests > 0
      modifies this
      ensures Valid()
      ensures old(queue) == [] ==> (woken.None? && queue == []
                                    && permits == old(permits) + 1 && activeRequests == old(activeRequests) - 1)
      ensures old(queue) != [] ==> (woken == Some(old(queue)[0]) && queue == old(queue)[1..]
                                    && permits == old(permits) && activeRequests == old(activeRequests))
      ensures maxConcurrent == old(maxConcurrent)
    {
      activeRequests := activeRequests - 1;
      permits := permits + 1;
      woken := None;
      if |queue| > 0 {
        var next := queue[0];
        queue := queue[1..];
        var admitted := TryAcquire(next);
        woken := Some(next);
      }
    }
  }

  /** One step of a run: a task asks for a permit, or some running task finishes. */
  datatype SemaphoreEvent = Acquire(task: nat) | Finish

  /** The tasks in the order they asked for a permit. */
  function Requested(events: seq<SemaphoreEvent>): seq<nat>
    decreases |events|
  {
    if events == [] then []
    else
      var last := events[|events| - 1];
      Requested(events[..|events| - 1]) + (if last.Acquire? then [last.task] else [])
  }

  /** What the counters of a run amount to: tasks running, tasks waiting, and the most ever running at once. */
  datatype Load = Load(running: nat, queued: nat, peak: nat)

  /**
   * One event on the counters: a request runs when fewer than the bound are
   * running and waits otherwise; a finish hands its permit to the first
   * waiting task if there is one, and frees it otherwise; a finish with
   * nothing running changes nothing.
   */
  function LoadStep(n: Load, e: SemaphoreEvent, concurrency: int): Load {
    match e
    case Acquire(_) =>
      if n.running < Bound(concurrency) then
        Load(n.running + 1, n.queued, if n.running + 1 > n.peak then n.running + 1 else n.peak)
      else
        Load(n.running, n.queued + 1, n.peak)
    case Finish =>
      if n.running == 0 then n
      else if n.queued > 0 then Load(n.running, n.queued - 1, n.peak)
      else Load(n.running - 1, n.queued, n.peak)
  }

  /** The counters after a sequence of events on a fresh semaphore. */
  function LoadOf(events: seq<SemaphoreEvent>, concurrency: int): Load
    decreases |events|
  {
    if events == [] then Load(0, 0, 0)
    else LoadStep(LoadOf(events[..|events| - 1], concurrency), events[|events| - 1], concurrency)
  }

  /**
   * Whatever the events: no more than the bound run at once, the running
   * tasks never outnumber the peak, tasks wait only while the bound is
   * reached, and no more tasks wait than asked.
   */
  lemma {:induction false} LoadBounds(events: seq<SemaphoreEvent>, concurrency: int)
    ensures var n := LoadOf(events, concurrency);
            && n.running <= n.peak <= Bound(concurrency)
            && (n.queued > 0 ==> n.running == Bound(concurrency))
            && n.queued <= |Requested(events)|
    decreases |events|
  {
    if events != [] {
      LoadBounds(events[..|events| - 1], concurrency);
    }
  }

  /** The concurrency test's run: with two permits, three requests leave two running and one waiting. */
  lemma LoadExample()
    ensures LoadOf([Acquire(1), Acquire(2), Acquire(3)], 2) == Load(2, 1, 2)
    ensures LoadOf([Acquire(1), Acquire(2), Acquire(3), Finish], 2) == Load(2, 0, 2)
  {
    var e := [Acquire(1), Acquire(2), Acquire(3), Finish];
    assert e[..1][..0] == [];
    assert LoadOf(e[..1], 2) == Load(1, 0, 1);
    assert e[..2][..1] == e[..1];
    assert LoadOf(e[..2], 2) == Load(2, 0, 2);
    assert e[..3][..2] == e[..2];
    assert LoadOf(e[..3], 2) == Load(2, 1, 2);
    assert e[..3] == [Acquire(1), Acquire(2), Acquire(3)];
  }

  /**
   * Any sequence of acquire and finish events on a fresh semaphore: the
   * counters are those of `LoadOf`, so never more than `concurrency` tasks
   * run at once, and tasks start in the order they asked (the started tasks
   * followed by the waiting ones are the requests). A finish with no
   * running task has nothing to finish and is skipped.
   */
  method RunSemaphore(events: seq<SemaphoreEvent>, concurrency: int := DefaultConcurrency)
    returns (maxConcurrent: nat, running: nat, started: seq<nat>, waiting: seq<nat>)
    ensures Load(running, |waiting|, maxConcurrent) == LoadOf(events, concurrency)
    ensures running <= maxConcurrent <= Bound(concurrency)
    ensures waiting != [] ==> running == Bound(concurrency)
    ensures started + waiting == Requested(events)
    ensures started == Requested(events)[..|Requested(events)| - LoadOf(events, concurrency).queued]
    ensures concurrency <= 0 ==> started == []
  {
    var s := new Semaphore(concurrency);
    started := [];
    for i := 0 to |events|
      invariant s.Valid() && s.concurrency == concurrency
      invariant started + s.queue == Requested(events[..i])
      invariant Load(s.activeRequests, |s.queue|, s.maxConcurrent) == LoadOf(events[..i], concurrency)
      invariant concurrency <= 0 ==> started == []
    {
      assert events[..i + 1][..i] == events[..i];
      match events[i] {
        case Acquire(task) =>
          var admitted := s.TryAcquire(task);
          if admitted {
            started := started + [task];
          }
        case Finish =>
          if s.activeRequests > 0 {
            var woken := s.Release();
            if woken.Some? {
              started := started + [woken.value];
            }
          }
      }
    }
    assert events[..|events|] == events;
    maxConcurrent := s.maxConcurrent;
    running := s.activeRequests;
    waiting := s.queue;
    assert started == (started + waiting)[..|started|];
  }

  // ---------------------------------------------------------------------
  // Promise.all over the per-URL tasks
  // ---------------------------------------------------------------------

  /**
   * `Promise.all`: the values in the order of the tasks, whatever order they
   * finish in; a rejection is reported by the first rejected task.
   */
  function AwaitAll<T>(outcomes: seq<Result<T, string>>): (r: Result<seq<T>, string>)
    ensures r.Success? <==> forall i :: 0 <= i < |outcomes| ==> outcomes[i].Success?
    ensures r.Success? ==> (|r.value| == |outcomes|
                            && forall i :: 0 <= i < |outcomes| ==> r.value[i] == outcomes[i].value)
    ensures r.Failure? ==> exists i :: 0 <= i < |outcomes| && outcomes[i] == Failure(r.error)
                                    && forall j :: 0 <= j < i ==> outcomes[j].Success?
    decreases |outcomes|
  {
    if outcomes == [] then Success([])
    else
      match outcomes[0]
      case Failure(e) => Failure(e)
      case Success(v) =>
        var rest := AwaitAll(outcomes[1..]);
        match rest
        case Failure(e) =>
          var k :| 0 <= k < |outcomes[1..]| && outcomes[1..][k] == Failure(e)
                   && forall j :: 0 <= j < k ==> outcomes[1..][j].Success?;
          assert outcomes[k + 1] == Failure(e);
          Failure(e)
        case Success(vs) => Success([v] + vs)
  }

  /** The task of the concurrency test for one URL: the status result, or the thrown error. */
  function TaskOutcome(url: string, outcome: FetchOutcome): (r: Result<StatusItem, string>)
    ensures r.Success? <==> outcome.Responded?
    ensures r.Success? ==> r.value == StatusItemOf(url, outcome)
    ensures outcome.Threw? ==> r == Failure(outcome.message)
  {
    match outcome
    case Responded(response) => Success(StatusItem(url, response.Ok(), Some(response.status), None))
    case Threw(message) => Failure(message)
  }

  /** `成功: N件, 最大同時実行数: M`. */
  function ConcurrencySummary(successCount: nat, maxConcurrent: nat): string {
    "成功: " + NatToString(successCount) + "件, 最大同時実行数: " + NatToString(maxConcurrent)
  }

  /**
   * The concurrency mock: the awaited results of all tasks, counted; the
   * reply rejects with the first failing task's error.
   */
  method MockConcurrentBatch(urls: seq<string>, fetch: string -> FetchOutcome, maxConcurrent: nat)
    returns (r: Result<ToolReply, string>)
    ensures r.Success? <==> forall i :: 0 <= i < |urls| ==> fetch(urls[i]).Responded?
    ensures r.Success? ==>
              var items := seq(|urls|, i requires 0 <= i < |urls| => StatusItemOf(urls[i], fetch(urls[i])));
              r.value == ToolReply(ConcurrencySummary(Count(items, StatusSucceeded), maxConcurrent), false)
    ensures r.Failure? ==> exists i :: 0 <= i < |urls| && fetch(urls[i]) == Threw(r.error)
  {
    var promises := seq(|urls|, i requires 0 <= i < |urls| => TaskOutcome(urls[i], fetch(urls[i])));
    assert forall i :: 0 <= i < |urls| ==> (promises[i].Success? <==> fetch(urls[i]).Responded?);
    var all := AwaitAll(promises);
    match all {
      case Failure(e) =>
        r := Failure(e);
      case Success(allResults) =>
        var successCount := Count(allResults, StatusSucceeded);
        r := Success(ToolReply(ConcurrencySummary(successCount, maxConcurrent), false));
        var items := seq(|urls|, i requires 0 <= i < |urls| => StatusItemOf(urls[i], fetch(urls[i])));
        assert allResults == items;
    }
  }

  // ---------------------------------------------------------------------
  // Chunking and the empty-list guard
  // ---------------------------------------------------------------------

  /**
   * The chunks of the performance mock: `urls.slice(i, i + concurrency)`
   * for i = 0, concurrency, 2 * concurrency, ... A concurrency below 1
   * never ends the loop on a non-empty list, so the caller must avoid it.
   */
  method ChunkUrls(urls: seq<string>, concurrency: int) returns (chunks: seq<seq<string>>)
    requires concurrency > 0 || urls == []
    ensures Flatten(chunks) == urls
    ensures forall k :: 0 <= k < |chunks| ==> 0 < |chunks[k]| <= concurrency
    ensures forall k :: 0 <= k < |chunks| - 1 ==> |chunks[k]| == concurrency
  {
    chunks := [];
    var i := 0;
    while i < |urls|
      invariant 0 <= i <= |urls|
      invariant Flatten(chunks) == urls[..i]
      invariant forall k :: 0 <= k < |chunks| ==> 0 < |chunks[k]| <= concurrency
      invariant forall k :: 0 <= k < |chunks| - 1 ==> |chunks[k]| == concurrency
      invariant chunks != [] && i < |urls| ==> |chunks[|chunks| - 1]| == concurrency
      decreases |urls| - i
    {
      var end := if i + concurrency < |urls| then i + concurrency else |urls|;
      var chunk := urls[i..end];
      FlattenAppend(chunks, chunk);
      assert urls[..i] + urls[i..end] == urls[..end];
      chunks := chunks + [chunk];
      i := i + concurrency;
      if i > |urls| {
        i := |urls|;
      }
    }
    assert urls[..|urls|] == urls;
  }

  /**
   * `Promise.all` of the `ok` flags of one chunk: the rejection is the first
   * thrown error, otherwise nothing is kept.
   */
  function AwaitChunk(chunk: seq<string>, fetch: string -> FetchOutcome): (r: Result<seq<bool>, string>)
    ensures r.Success? <==> forall i :: 0 <= i < |chunk| ==> fetch(chunk[i]).Responded?
    ensures r.Failure? ==> exists i :: 0 <= i < |chunk| && fetch(chunk[i]) == Threw(r.error)
  {
    var promises := seq(|chunk|, i requires 0 <= i < |chunk| => OkOutcome(fetch(chunk[i])));
    assert forall i :: 0 <= i < |chunk| ==> (promises[i].Success? <==> fetch(chunk[i]).Responded?);
    AwaitAll(promises)
  }

  /** The task of the performance mock: `response.ok`, or the thrown error. */
  function OkOutcome(outcome: FetchOutcome): (r: Result<bool, string>)
    ensures r.Success? <==> outcome.Responded?
    ensures r.Success? ==> r.value == outcome.response.Ok()
    ensures outcome.Threw? ==> r == Failure(outcome.message)
  {
    match outcome
    case Responded(response) => Success(response.Ok())
    case Threw(message) => Failure(message)
  }

  /** The performance mock: await the chunks one after another and report how many URLs there were. */
  method MockChunkedBatch(urls: seq<string>, fetch: string -> FetchOutcome, concurrency: int := DefaultConcurrency)
    returns (r: Result<ToolReply, string>)
    requires concurrency > 0 || urls == []
    ensures r.Success? <==> forall i :: 0 <= i < |urls| ==> fetch(urls[i]).Responded?
    ensures r.Success? ==> r.value == ToolReply("処理完了: " + NatToString(|urls|) + "件", false)
    ensures r.Failure? ==> exists i :: 0 <= i < |urls| && fetch(urls[i]) == Threw(r.error)
  {
    var chunks := ChunkUrls(urls, concurrency);
    var k := 0;
    while k < |chunks|
      invariant 0 <= k <= |chunks|
      invariant forall i :: 0 <= i < |Flatten(chunks[..k])| ==> fetch(Flatten(chunks[..k])[i]).Responded?
    {
      var awaited := AwaitChunk(chunks[k], fetch);
      if awaited.Failure? {
        FlattenSplit(chunks, k);
        var j :| 0 <= j < |chunks[k]| && fetch(chunks[k][j]) == Threw(awaited.error);
        assert urls[|Flatten(chunks[..k])| + j] == chunks[k][j];
        return Failure(awaited.error);
      }
      FlattenAppend(chunks[..k], chunks[k]);
      assert chunks[..k + 1] == chunks[..k] + [chunks[k]];
      k := k + 1;
    }
    assert chunks[..|chunks|] == chunks;
    r := Success(ToolReply("処理完了: " + NatToString(|urls|) + "件", false));
  }

  /** The chunks before k, chunk k and the chunks after it make up the whole. */
  lemma {:induction false} FlattenSplit<T>(chunks: seq<seq<T>>, k: nat)
    requires k < |chunks|
    ensures Flatten(chunks) == Flatten(chunks[..k]) + chunks[k] + Flatten(chunks[k + 1..])
  {
    var before, from := chunks[..k], chunks[k..];
    assert chunks == before + from;
    FlattenConcat(before, from);
    assert from[0] == chunks[k] && from[1..] == chunks[k + 1..];
    assert Flatten(from) == chunks[k] + Flatten(chunks[k + 1..]);
  }

  lemma {:induction false} FlattenConcat<T>(a: seq<seq<T>>, b: seq<seq<T>>)
    ensures Flatten(a + b) == Flatten(a) + Flatten(b)
    decreases |a|
  {
    if a == [] {
      assert a + b == b;
    } else {
      assert (a + b)[1..] == a[1..] + b;
      FlattenConcat(a[1..], b);
    }
  }

  /** The empty-list mock: an absent or empty URL array is rejected before anything is fetched. */
  function MockBatchGuard(urls: Option<seq<string>>): (r: Result<ToolReply, string>)
    ensures r.Failure? <==> urls.None? || urls.value == []
    ensures r.Failure? ==> r.error == ErrUrlsRequired
    ensures r.Success? ==> r.value == ToolReply("OK", false)
  {
    if urls.None? || |urls.value| == 0 then Failure(ErrUrlsRequired) else Success(ToolReply("OK", false))
  }
}
