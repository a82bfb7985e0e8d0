/**
 * The scraping server: the browser actions and their checks, the run of a
 * page script (set-up steps, then the actions in order, stopping at the
 * first failure, with the page closed on every path), the shared browser
 * and its clean-up, the simple scrape and the dispatch of tool calls.
 * Puppeteer, cheerio and `fetch` are foreign: a page judges each operation
 * through the `fails` oracle, and launch, fetch and extraction outcomes are
 * parameters.
 */
module ScraperServer {
  import opened Wrappers
  import opened Text
  import opened Fetch
  import opened Replies

  const ErrClickNeedsSelector := "clickアクションにはselectorが必要です"
  const ErrTypeNeedsSelectorAndText := "typeアクションにはselectorとtextが必要です"
  const ErrUnsupportedAction := "未対応のアクションタイプ: "
  const ErrUrlRequired := "URLが必要です"
  const ErrInvalidArguments := "引数が無効です"
  const ErrUnknownTool := "不明なツール: "
  const ErrorPrefix := "エラー: "
  const NoContent := "コンテンツが見つかりません"
  /** The pause of a `wait` action without a (non-zero) delay. */
  const DefaultWaitMs := 1000

  const SimpleScrapeTool := "simple_scrape"
  const PuppeteerScrapeTool := "puppeteer_scrape"

  /** One entry of `actions`: every field may be absent. */
  datatype Action = Action(kind: Option<string>, selector: Option<string>, text: Option<string>, delay: Option<int>)

  /** What the scrape asks of the page (or of the timer, for `Sleep`). */
  datatype PageEffect =
    | SetViewport
    | Goto(url: string)
    | WaitForSelector(selector: string)
    | Click(selector: string)
    | TypeText(selector: string, text: string)
    | ScrollToBottom
    | Sleep(ms: int)

  /** The pause after an action: only when its delay is truthy. */
  function DelayEffects(delay: Option<int>): (effects: seq<PageEffect>)
    ensures |effects| <= 1
    ensures effects != [] <==> TruthyNumber(delay)
    ensures effects != [] ==> effects[0] == Sleep(delay.value)
  {
    if TruthyNumber(delay) then [Sleep(delay.value)] else []
  }

  /** `action.delay || 1000`. */
  function WaitTime(delay: Option<int>): (ms: int)
    ensures TruthyNumber(delay) ==> ms == delay.value
    ensures !TruthyNumber(delay) ==> ms == DefaultWaitMs
    ensures ms != 0
  {
    if TruthyNumber(delay) then delay.value else DefaultWaitMs
  }

  predicate KnownKind(kind: Option<string>) {
    kind in {Some("click"), Some("type"), Some("wait"), Some("scroll")}
  }

  /**
   * What `executeAction` does for one action: the error it throws before
   * touching the page, or the effects it asks for, in order.
   */
  function ActionPlan(a: Action): Result<seq<PageEffect>, string>
  {
    if a.kind == Some("click") then
      if !Truthy(a.selector) then Failure(ErrClickNeedsSelector)
      else Success([Click(a.selector.value)] + DelayEffects(a.delay))
    else if a.kind == Some("type") then
      if !Truthy(a.selector) || !Truthy(a.text) then Failure(ErrTypeNeedsSelectorAndText)
      else Success([TypeText(a.selector.value, a.text.value)] + DelayEffects(a.delay))
    else if a.kind == Some("wait") then
      Success([Sleep(WaitTime(a.delay))])
    else if a.kind == Some("scroll") then
      Success([ScrollToBottom] + DelayEffects(a.delay))
    else
      Failure(ErrUnsupportedAction + RenderString(a.kind))
  }

  /** The checks and the effects of each kind of action. */
  lemma ActionPlanCases(a: Action)
    ensures ActionPlan(a).Failure? <==>
              (|| !KnownKind(a.kind)
               || (a.kind == Some("click") && !Truthy(a.selector))
               || (a.kind == Some("type") && (!Truthy(a.selector) || !Truthy(a.text))))
    ensures !KnownKind(a.kind) ==> ActionPlan(a) == Failure(ErrUnsupportedAction + RenderString(a.kind))
    ensures a.kind == Some("click") && !Truthy(a.selector) ==> ActionPlan(a) == Failure(ErrClickNeedsSelector)
    ensures a.kind == Some("type") && (!Truthy(a.selector) || !Truthy(a.text)) ==>
              ActionPlan(a) == Failure(ErrTypeNeedsSelectorAndText)
    ensures a.kind == Some("wait") ==> ActionPlan(a) == Success([Sleep(WaitTime(a.delay))])
    ensures var p := ActionPlan(a);
            p.Success? && a.kind != Some("wait") ==>
              (|p.value| == 1 + |DelayEffects(a.delay)| && p.value[1..] == DelayEffects(a.delay))
    ensures var p := ActionPlan(a);
            p.Success? && a.kind == Some("click") ==> p.value[0] == Click(a.selector.value)
    ensures var p := ActionPlan(a);
            p.Success? && a.kind == Some("type") ==> p.value[0] == TypeText(a.selector.value, a.text.value)
    ensures var p := ActionPlan(a);
            p.Success? && a.kind == Some("scroll") ==> p.value[0] == ScrollToBottom
  {
  }

  /** An action without a type is reported as the type "undefined". */
  lemma ActionWithoutKind(selector: Option<string>, text: Option<string>, delay: Option<int>)
    ensures ActionPlan(Action(None, selector, text, delay)) == Failure(ErrUnsupportedAction + "undefined")
  {
  }

  // ---------------------------------------------------------------------
  // Traces: what was done, and the error that stopped it
  // ---------------------------------------------------------------------

  /** The effects performed, in order, and the error that stopped the run (None when it ran to the end). */
  datatype Trace = Trace(performed: seq<PageEffect>, error: Option<string>)

  const Nothing := Trace([], None)

  /** Run `second` after `first`, unless `first` stopped with an error. */
  function Then(first: Trace, second: Trace): (t: Trace)
    ensures first.error.Some? ==> t == first
    ensures first.error.None? ==> t.performed == first.performed + second.performed && t.error == second.error
  {
    if first.error.Some? then first else Trace(first.performed + second.performed, second.error)
  }

  lemma ThenAssociative(a: Trace, b: Trace, c: Trace)
    ensures Then(Then(a, b), c) == Then(a, Then(b, c))
  {
    if a.error.None? && b.error.None? {
      assert a.performed + b.performed + c.performed == a.performed + (b.performed + c.performed);
    }
  }

  /** Awaiting the steps one after the other: each runs only if none before it threw. */
  function RunSteps<T>(xs: seq<T>, step: T -> Trace): (t: Trace)
    decreases |xs|
  {
    if xs == [] then Nothing else Then(step(xs[0]), RunSteps(xs[1..], step))
  }

  /** Running two lists of steps one after the other is running their concatenation. */
  lemma {:induction false} RunStepsAppend<T>(a: seq<T>, b: seq<T>, step: T -> Trace)
    ensures RunSteps(a + b, step) == Then(RunSteps(a, step), RunSteps(b, step))
    decreases |a|
  {
    if a == [] {
      assert a + b == b;
    } else {
      assert (a + b)[1..] == a[1..] + b;
      RunStepsAppend(a[1..], b, step);
      ThenAssociative(step(a[0]), RunSteps(a[1..], step), RunSteps(b, step));
    }
  }

  lemma {:induction false} RunStepsSnoc<T>(xs: seq<T>, x: T, step: T -> Trace)
    ensures RunSteps(xs + [x], step) == Then(RunSteps(xs, step), step(x))
  {
    RunStepsAppend(xs, [x], step);
    assert [x][1..] == [];
    assert RunSteps([x], step) == Then(step(x), Nothing);
    ThenNothing(step(x));
  }

  /** One more step; and once a step throws, the steps after it are not run. */
  lemma {:induction false} RunStepsStep<T>(xs: seq<T>, i: nat, step: T -> Trace)
    requires i < |xs|
    ensures RunSteps(xs[..i + 1], step) == Then(RunSteps(xs[..i], step), step(xs[i]))
    ensures RunSteps(xs[..i + 1], step).error.Some? ==> RunSteps(xs, step) == RunSteps(xs[..i + 1], step)
  {
    assert xs[..i] + [xs[i]] == xs[..i + 1];
    RunStepsSnoc(xs[..i], xs[i], step);
    if RunSteps(xs[..i + 1], step).error.Some? {
      RunStepsStopped(xs, i + 1, step);
    }
  }

  /** Once a prefix of the steps throws, the rest of them are not run. */
  lemma {:induction false} RunStepsStopped<T>(xs: seq<T>, k: nat, step: T -> Trace)
    requires k <= |xs| && RunSteps(xs[..k], step).error.Some?
    ensures RunSteps(xs, step) == RunSteps(xs[..k], step)
  {
    assert xs[..k] + xs[k..] == xs;
    RunStepsAppend(xs[..k], xs[k..], step);
  }

  /** The steps run to the end exactly when none of them throws. */
  lemma {:induction false} RunStepsSucceed<T>(xs: seq<T>, step: T -> Trace)
    ensures RunSteps(xs, step).error.None? <==> forall i :: 0 <= i < |xs| ==> step(xs[i]).error.None?
    decreases |xs|
  {
    if xs != [] {
      RunStepsSucceed(xs[1..], step);
      assert forall i :: 1 <= i < |xs| ==> xs[i] == xs[1..][i - 1];
    }
  }

  /** A sleep never throws; any other operation throws what the page reports for it. */
  function EffectError(e: PageEffect, fails: PageEffect -> Option<string>): Option<string> {
    if e.Sleep? then None else fails(e)
  }

  function EffectTrace(e: PageEffect, fails: PageEffect -> Option<string>): Trace {
    Trace([e], EffectError(e, fails))
  }

  /** Perform the effects in order, stopping at the first one that throws. */
  function RunEffects(effects: seq<PageEffect>, fails: PageEffect -> Option<string>): Trace {
    RunSteps(effects, e => EffectTrace(e, fails))
  }

  /**
   * A run stops at its first failing effect: what was performed is the
   * effects up to and including it, and none before it failed.
   */
  lemma {:induction false} RunEffectsStopsAtFirstFailure(effects: seq<PageEffect>, fails: PageEffect -> Option<string>)
    ensures var t := RunEffects(effects, fails);
            && |t.performed| <= |effects| && t.performed == effects[..|t.performed|]
            && (forall j :: 0 <= j < |t.performed| - 1 ==> EffectError(effects[j], fails).None?)
            && (t.error.None? <==> |t.performed| == |effects| && forall j :: 0 <= j < |effects| ==> EffectError(effects[j], fails).None?)
            && (t.error.Some? ==> |t.performed| >= 1 && t.error == EffectError(effects[|t.performed| - 1], fails))
    decreases |effects|
  {
    if effects != [] {
      RunEffectsStopsAtFirstFailure(effects[1..], fails);
      var rest := RunEffects(effects[1..], fails);
      if EffectError(effects[0], fails).None? {
        assert RunEffects(effects, fails).performed == [effects[0]] + rest.performed;
        assert effects[..1 + |rest.performed|] == [effects[0]] + effects[1..][..|rest.performed|];
        forall j | 0 <= j < |effects| && (forall k :: 0 <= k < |effects[1..]| ==> EffectError(effects[1..][k], fails).None?)
          ensures EffectError(effects[j], fails).None?
        {
          if j > 0 {
            assert effects[j] == effects[1..][j - 1];
          }
        }
      }
    }
  }

  /** What one action does: nothing when its check fails, otherwise its effects until one throws. */
  function ActionTrace(a: Action, fails: PageEffect -> Option<string>): Trace {
    match ActionPlan(a)
    case Failure(e) => Trace([], Some(e))
    case Success(effects) => RunEffects(effects, fails)
  }

  /** `for (const action of actions) await executeAction(page, action)`. */
  function ActionsTrace(actions: seq<Action>, fails: PageEffect -> Option<string>): Trace {
    RunSteps(actions, a => ActionTrace(a, fails))
  }

  /** Once an action fails, the actions after it are not run. */
  lemma FirstFailingActionStopsTheRest(a: seq<Action>, b: seq<Action>, fails: PageEffect -> Option<string>)
    requires ActionsTrace(a, fails).error.Some?
    ensures ActionsTrace(a + b, fails) == ActionsTrace(a, fails)
  {
    RunStepsAppend(a, b, x => ActionTrace(x, fails));
  }

  /** The actions run to the end exactly when every action passes its check and none of its effects throws. */
  lemma ActionsSucceed(actions: seq<Action>, fails: PageEffect -> Option<string>)
    ensures ActionsTrace(actions, fails).error.None? <==>
            forall i :: 0 <= i < |actions| ==> ActionTrace(actions[i], fails).error.None?
  {
    RunStepsSucceed(actions, x => ActionTrace(x, fails));
  }

  // ---------------------------------------------------------------------
  // The page
  // ---------------------------------------------------------------------

  /** An open browser tab: the operations asked of it so far, and whether it was closed. */
  class Page {
    /** The error the page throws for an operation, if any. */
    const fails: PageEffect -> Option<string>
    var log: seq<PageEffect>
    var closed: bool

    constructor(fails: PageEffect -> Option<string>)
      ensures this.fails == fails && log == [] && !closed
    {
      this.fails := fails;
      log := [];
      closed := false;
    }

    /** Ask the page for an operation; it throws what the page reports for it. */
    method Perform(e: PageEffect) returns (err: Option<string>)
      requires !closed && !e.Sleep?
      modifies this
      ensures log == old(log) + [e] && !closed
      ensures err == fails(e)
    {
      log := log + [e];
      err := fails(e);
    }

    /** A `setTimeout` pause between operations: it never throws, and is logged to keep the order visible. */
    method Pause(ms: int)
      requires !closed
      modifies this
      ensures log == old(log) + [Sleep(ms)] && !closed
    {
      log := log + [Sleep(ms)];
    }

    method Close()
      modifies this
      ensures closed && log == old(log)
    {
      closed := true;
    }
  }

  lemma ThenNothing(t: Trace)
    ensures Then(t, Nothing) == t
  {
    if t.error.None? {
      assert t.performed + [] == t.performed;
    }
  }

  lemma RunEffectsCons(e: PageEffect, rest: seq<PageEffect>, fails: PageEffect -> Option<string>)
    ensures RunEffects([e] + rest, fails) == Then(EffectTrace(e, fails), RunEffects(rest, fails))
  {
    assert ([e] + rest)[1..] == rest;
  }

  /** An optional pause: one sleep that never throws, or nothing. */
  lemma DelayTrace(delay: Option<int>, fails: PageEffect -> Option<string>)
    ensures RunEffects(DelayEffects(delay), fails) ==
            if TruthyNumber(delay) then Trace([Sleep(delay.value)], None) else Nothing
  {
    if TruthyNumber(delay) {
      RunEffectsCons(Sleep(delay.value), [], fails);
      assert [Sleep(delay.value)] + [] == [Sleep(delay.value)];
      ThenNothing(EffectTrace(Sleep(delay.value), fails));
    }
  }

  /** One page operation, then the optional pause. */
  lemma OperationThenDelay(e: PageEffect, delay: Option<int>, fails: PageEffect -> Option<string>)
    ensures RunEffects([e] + DelayEffects(delay), fails) == Then(EffectTrace(e, fails), RunEffects(DelayEffects(delay), fails))
  {
    RunEffectsCons(e, DelayEffects(delay), fails);
  }

  /** `executeAction`: check the action, then perform its page operation and the pause it asks for. */
  method ExecuteAction(page: Page, action: Action) returns (err: Option<string>)
    requires !page.closed
    modifies page
    ensures !page.closed
    ensures page.log == old(page.log) + ActionTrace(action, page.fails).performed
    ensures err == ActionTrace(action, page.fails).error
  {
    DelayTrace(action.delay, page.fails);
    if action.kind == Some("click") {
      if !Truthy(action.selector) {
        return Some(ErrClickNeedsSelector);
      }
      OperationThenDelay(Click(action.selector.value), action.delay, page.fails);
      err := page.Perform(Click(action.selector.value));
      if err.None? && TruthyNumber(action.delay) {
        page.Pause(action.delay.value);
      }
    } else if action.kind == Some("type") {
      if !Truthy(action.selector) || !Truthy(action.text) {
        return Some(ErrTypeNeedsSelectorAndText);
      }
      OperationThenDelay(TypeText(action.selector.value, action.text.value), action.delay, page.fails);
      err := page.Perform(TypeText(action.selector.value, action.text.value));
      if err.None? && TruthyNumber(action.delay) {
        page.Pause(action.delay.value);
      }
    } else if action.kind == Some("wait") {
      RunEffectsCons(Sleep(WaitTime(action.delay)), [], page.fails);
      assert [Sleep(WaitTime(action.delay))] + [] == [Sleep(WaitTime(action.delay))];
      page.Pause(WaitTime(action.delay));
      err := None;
    } else if action.kind == Some("scroll") {
      OperationThenDelay(ScrollToBottom, action.delay, page.fails);
      err := page.Perform(ScrollToBottom);
      if err.None? && TruthyNumber(action.delay) {
        page.Pause(action.delay.value);
      }
    } else {
      err := Some(ErrUnsupportedAction + RenderString(action.kind));
    }
  }

  /** One more action; and once an action throws, the actions after it are not run. */
  lemma ActionsTraceStep(actions: seq<Action>, i: nat, fails: PageEffect -> Option<string>)
    requires i < |actions|
    ensures ActionsTrace(actions[..i + 1], fails) == Then(ActionsTrace(actions[..i], fails), ActionTrace(actions[i], fails))
    ensures ActionsTrace(actions[..i + 1], fails).error.Some? ==>
              ActionsTrace(actions, fails) == ActionsTrace(actions[..i + 1], fails)
  {
    RunStepsStep(actions, i, a => ActionTrace(a, fails));
  }

  /** The action loop: the actions in list order, stopping at the first error. */
  method RunActions(page: Page, actions: seq<Action>) returns (err: Option<string>)
    requires !page.closed
    modifies page
    ensures !page.closed
    ensures page.log == old(page.log) + ActionsTrace(actions, page.fails).performed
    ensures err == ActionsTrace(actions, page.fails).error
  {
    var i := 0;
    while i < |actions|
      invariant 0 <= i <= |actions| && !page.closed
      invariant ActionsTrace(actions[..i], page.fails).error.None?
      invariant page.log == old(page.log) + ActionsTrace(actions[..i], page.fails).performed
    {
      ActionsTraceStep(actions, i, page.fails);
      ghost var done := ActionsTrace(actions[..i], page.fails);
      ghost var next := ActionTrace(actions[i], page.fails);
      ghost var after := ActionsTrace(actions[..i + 1], page.fails);
      assert after.performed == done.performed + next.performed && after.error == next.error;
      err := ExecuteAction(page, actions[i]);
      assert page.log == old(page.log) + after.performed;
      if err.Some? {
        assert ActionsTrace(actions, page.fails) == after;
        return;
      }
      i := i + 1;
    }
    assert actions[..i] == actions;
    err := None;
  }

  // ---------------------------------------------------------------------
  // The Puppeteer scrape
  // ---------------------------------------------------------------------

  /** The arguments the page script depends on; selector, format and viewport only shape the extraction. */
  datatype PuppeteerArgs = PuppeteerArgs(url: Option<string>, waitFor: Option<int>, waitForSelector: Option<string>,
                                         actions: seq<Action>)

  /** The steps before the actions: viewport, navigation, the awaited selector and the pause, when given. */
  function SetupEffects(args: PuppeteerArgs): (effects: seq<PageEffect>)
    requires Truthy(args.url)
    ensures |effects| >= 2 && effects[..2] == [SetViewport, Goto(args.url.value)]
  {
    [SetViewport, Goto(args.url.value)] + SelectorEffects(args.waitForSelector) + DelayEffects(args.waitFor)
  }

  /** Waiting for the selector, when one is given. */
  function SelectorEffects(selector: Option<string>): seq<PageEffect> {
    if Truthy(selector) then [WaitForSelector(selector.value)] else []
  }

  /** The set-up as the stages the source awaits one after the other. */
  lemma SetupTrace(args: PuppeteerArgs, fails: PageEffect -> Option<string>)
    requires Truthy(args.url)
    ensures RunEffects(SetupEffects(args), fails) ==
            Then(Then(Then(EffectTrace(SetViewport, fails), EffectTrace(Goto(args.url.value), fails)),
                      RunEffects(SelectorEffects(args.waitForSelector), fails)),
                 RunEffects(DelayEffects(args.waitFor), fails))
  {
    var viewport := EffectTrace(SetViewport, fails);
    var goto := EffectTrace(Goto(args.url.value), fails);
    var sel := SelectorEffects(args.waitForSelector);
    var pause := DelayEffects(args.waitFor);
    var step := e => EffectTrace(e, fails);
    assert SetupEffects(args) == [SetViewport] + ([Goto(args.url.value)] + (sel + pause));
    RunEffectsCons(SetViewport, [Goto(args.url.value)] + (sel + pause), fails);
    RunEffectsCons(Goto(args.url.value), sel + pause, fails);
    RunStepsAppend(sel, pause, step);
    ThenAssociative(goto, RunEffects(sel, fails), RunEffects(pause, fails));
    ThenAssociative(viewport, Then(goto, RunEffects(sel, fails)), RunEffects(pause, fails));
    ThenAssociative(viewport, goto, RunEffects(sel, fails));
  }

  function ScriptTrace(args: PuppeteerArgs, fails: PageEffect -> Option<string>): Trace
    requires Truthy(args.url)
  {
    Then(RunEffects(SetupEffects(args), fails), ActionsTrace(args.actions, fails))
  }

  /** When navigation throws, nothing after it runs and the scrape fails with its error. */
  lemma NavigationFailureStopsScript(args: PuppeteerArgs, browser: nat, fails: PageEffect -> Option<string>,
                                     extraction: Result<string, string>)
    requires Truthy(args.url) && fails(SetViewport).None? && fails(Goto(args.url.value)).Some?
    ensures ScriptTrace(args, fails) == Trace([SetViewport, Goto(args.url.value)], fails(Goto(args.url.value)))
    ensures PuppeteerResult(args, Success(browser), fails, extraction) == Failure(fails(Goto(args.url.value)).value)
  {
    var setup := SetupEffects(args);
    var step := e => EffectTrace(e, fails);
    assert setup == [SetViewport, Goto(args.url.value)] + setup[2..];
    RunStepsAppend([SetViewport, Goto(args.url.value)], setup[2..], step);
    assert [SetViewport, Goto(args.url.value)][1..] == [Goto(args.url.value)];
    assert [Goto(args.url.value)][1..] == [];
  }

  /** The set-up of the page, each step awaited in turn: viewport, navigation, the selector and the pause. */
  method RunSetup(page: Page, args: PuppeteerArgs) returns (err: Option<string>)
    requires Truthy(args.url) && !page.closed
    modifies page
    ensures !page.closed
    ensures page.log == old(page.log) + RunEffects(SetupEffects(args), page.fails).performed
    ensures err == RunEffects(SetupEffects(args), page.fails).error
  {
    ghost var log0 := page.log;
    SetupTrace(args, page.fails);
    DelayTrace(args.waitFor, page.fails);
    ghost var t := EffectTrace(SetViewport, page.fails);
    err := page.Perform(SetViewport);
    if err.None? {
      err := page.Perform(Goto(args.url.value));
    }
    t := Then(t, EffectTrace(Goto(args.url.value), page.fails));
    assert page.log == log0 + t.performed && err == t.error;
    if err.None? && Truthy(args.waitForSelector) {
      RunEffectsCons(WaitForSelector(args.waitForSelector.value), [], page.fails);
      ThenNothing(EffectTrace(WaitForSelector(args.waitForSelector.value), page.fails));
      err := page.Perform(WaitForSelector(args.waitForSelector.value));
    }
    t := Then(t, RunEffects(SelectorEffects(args.waitForSelector), page.fails));
    assert page.log == log0 + t.performed && err == t.error;
    if err.None? && TruthyNumber(args.waitFor) {
      page.Pause(args.waitFor.value);
    }
    t := Then(t, RunEffects(DelayEffects(args.waitFor), page.fails));
    assert page.log == log0 + t.performed && err == t.error;
  }
  /** The whole page script: the set-up, then the actions unless the set-up threw. */
  method RunScript(page: Page, args: PuppeteerArgs) returns (err: Option<string>)
    requires Truthy(args.url) && !page.closed
    modifies page
    ensures !page.closed
    ensures page.log == old(page.log) + ScriptTrace(args, page.fails).performed
    ensures err == ScriptTrace(args, page.fails).error
  {
    ghost var setup := RunEffects(SetupEffects(args), page.fails);
    ghost var rest := ActionsTrace(args.actions, page.fails);
    assert ScriptTrace(args, page.fails) == Then(setup, rest);
    err := RunSetup(page, args);
    if err.None? {
      err := RunActions(page, args.actions);
    }
  }


  /** The text of a successful reply: the result, or the no-content message for an empty one. */
  function ContentText(result: string): (text: string)
    ensures text != ""
    ensures result != "" ==> text == result
    ensures result == "" ==> text == NoContent
  {
    if result == "" then NoContent else result
  }

  /**
   * The outcome of `handlePuppeteerScrape` given the browser (reused or
   * just launched), the page and what the extraction at the end yields.
   */
  function PuppeteerResult(args: PuppeteerArgs, browser: Result<nat, string>, fails: PageEffect -> Option<string>,
                           extraction: Result<string, string>): (r: Result<ToolReply, string>)
    ensures !Truthy(args.url) ==> r == Failure(ErrUrlRequired)
    ensures Truthy(args.url) && browser.Failure? ==> r == Failure(browser.error)
    ensures r.Success? ==> Truthy(args.url) && browser.Success? && ScriptTrace(args, fails).error.None?
                           && extraction.Success? && r.value == ToolReply(ContentText(extraction.value), false)
    ensures Truthy(args.url) && browser.Success? && ScriptTrace(args, fails).error.Some? ==>
              r == Failure(ScriptTrace(args, fails).error.value)
    ensures Truthy(args.url) && browser.Success? && ScriptTrace(args, fails).error.None? ==>
              r == (if extraction.Success? then Success(ToolReply(ContentText(extraction.value), false))
                    else Failure(extraction.error))
  {
    if !Truthy(args.url) then Failure(ErrUrlRequired)
    else if browser.Failure? then Failure(browser.error)
    else
      var t := ScriptTrace(args, fails);
      if t.error.Some? then Failure(t.error.value)
      else if extraction.Failure? then Failure(extraction.error)
      else Success(ToolReply(ContentText(extraction.value), false))
  }

  /** The server's one piece of state: the shared browser (by number), and how often one was launched. */
  class Server {
    var browser: Option<nat>
    ghost var launches: nat

    constructor()
      ensures browser.None? && launches == 0
    {
      browser := None;
      launches := 0;
    }

    /** The browser to use: the existing one, or a fresh launch (which may fail) when there is none. */
    method EnsureBrowser(launch: Result<nat, string>) returns (r: Result<nat, string>)
      modifies this
      ensures old(browser).Some? ==> r == Success(old(browser).value) && browser == old(browser)
                                     && launches == old(launches)
      ensures old(browser).None? ==> r == launch && launches == old(launches) + 1
                                     && browser == (if launch.Success? then Some(launch.value) else None)
    {
      if browser.None? {
        launches := launches + 1;
        if launch.Success? {
          browser := Some(launch.value);
        }
      }
      r := if browser.Some? then Success(browser.value) else launch;
    }

    /** `cleanup`: close the browser; it is forgotten only when closing succeeds. */
    method Cleanup(closeSucceeds: bool) returns (attempted: bool)
      modifies this
      ensures attempted <==> old(browser).Some?
      ensures browser == if old(browser).Some? && closeSucceeds then None else old(browser)
      ensures launches == old(launches)
    {
      attempted := browser.Some?;
      if browser.Some? && closeSucceeds {
        browser := None;
      }
    }

    /**
     * `handlePuppeteerScrape`: check the url, get the browser, run the set-up
     * and the actions on the new page, extract, and close the page whatever
     * happened once it was opened.
     */
    method HandlePuppeteerScrape(args: PuppeteerArgs, launch: Result<nat, string>, page: Page,
                                 extraction: Result<string, string>) returns (r: Result<ToolReply, string>)
      requires !page.closed
      modifies this, page
      ensures var ready := if old(browser).Some? then Success(old(browser).value) else launch;
              r == PuppeteerResult(args, ready, page.fails, extraction)
      ensures var isOpen := Truthy(args.url) && (old(browser).Some? || launch.Success?);
              && (page.closed <==> isOpen)
              && (isOpen ==> page.log == old(page.log) + ScriptTrace(args, page.fails).performed)
              && (!isOpen ==> page.log == old(page.log))
      ensures !Truthy(args.url) ==> browser == old(browser) && launches == old(launches)
      ensures old(browser).Some? ==> browser == old(browser)
      ensures Truthy(args.url) && old(browser).None? ==>
                browser == (if launch.Success? then Some(launch.value) else None) && launches == old(launches) + 1
    {
      if !Truthy(args.url) {
        return Failure(ErrUrlRequired);
      }
      var ready := EnsureBrowser(launch);
      if ready.Failure? {
        return Failure(ready.error);
      }
      var err := RunScript(page, args);
      page.Close();
      if err.Some? {
        r := Failure(err.value);
      } else if extraction.Failure? {
        r := Failure(extraction.error);
      } else {
        r := Success(ToolReply(ContentText(extraction.value), false));
      }
    }

    /**
     * The tool-call handler: dispatch on the name, check the arguments, and
     * turn every error into an error reply; it never throws.
     */
    method CallTool(name: string, args: ToolArguments, fetch: string -> FetchOutcome, extract: string -> Result<string, string>,
                    launch: Result<nat, string>, page: Page, extraction: Result<string, string>)
      returns (reply: ToolReply)
      requires !page.closed
      modifies this, page
      ensures name != SimpleScrapeTool && name != PuppeteerScrapeTool ==>
                reply == ToolReply(ErrUnknownTool + name, true)
      ensures (name == SimpleScrapeTool || name == PuppeteerScrapeTool) && !args.ObjectArgs? ==>
                reply == ToolReply(ErrorPrefix + ErrInvalidArguments, true)
      ensures name == SimpleScrapeTool && args.ObjectArgs? ==> reply == ReplyOf(SimpleScrape(args.url, fetch, extract))
      ensures name == PuppeteerScrapeTool && args.ObjectArgs? ==>
                var ready := if old(browser).Some? then Success(old(browser).value) else launch;
                reply == ReplyOf(PuppeteerResult(args.Puppeteer(), ready, page.fails, extraction))
      ensures name == PuppeteerScrapeTool && args.ObjectArgs? ==>
                var isOpen := Truthy(args.url) && (old(browser).Some? || launch.Success?);
                && (page.closed <==> isOpen)
                && (isOpen ==> page.log == old(page.log) + ScriptTrace(args.Puppeteer(), page.fails).performed)
                && (!isOpen ==> page.log == old(page.log))
                && browser == (if Truthy(args.url) && old(browser).None?
                               then (if launch.Success? then Some(launch.value) else None)
                               else old(browser))
      ensures !(name == PuppeteerScrapeTool && args.ObjectArgs?) ==>
                browser == old(browser) && launches == old(launches) && page.log == old(page.log) && !page.closed
    {
      if name == SimpleScrapeTool {
        if !args.ObjectArgs? {
          return ReplyOf(Failure(ErrInvalidArguments));
        }
        return ReplyOf(SimpleScrape(args.url, fetch, extract));
      }
      if name == PuppeteerScrapeTool {
        if !args.ObjectArgs? {
          return ReplyOf(Failure(ErrInvalidArguments));
        }
        var r := HandlePuppeteerScrape(args.Puppeteer(), launch, page, extraction);
        return ReplyOf(r);
      }
      return ToolReply(ErrUnknownTool + name, true);
    }
  }

  // ---------------------------------------------------------------------
  // The simple scrape and the tool call
  // ---------------------------------------------------------------------

  /**
   * `handleSimpleScrape`: the url is checked before anything is fetched; a
   * thrown error, a non-OK response or an extraction that throws (reading
   * the body, or a selector cheerio refuses) fails the call; the extracted
   * text (or the no-content message) is the reply.
   */
  function SimpleScrape(url: Option<string>, fetch: string -> FetchOutcome, extract: string -> Result<string, string>)
    : (r: Result<ToolReply, string>)
    ensures !Truthy(url) ==> r == Failure(ErrUrlRequired)
    ensures Truthy(url) && fetch(url.value).Threw? ==> r == Failure(fetch(url.value).message)
    ensures Truthy(url) && fetch(url.value).Responded? && !fetch(url.value).response.Ok() ==>
              r == Failure(HttpStatusError(fetch(url.value).response.status) + ": " + fetch(url.value).response.statusText)
    ensures r.Success? <==> Truthy(url) && fetch(url.value).Succeeded() && extract(fetch(url.value).response.body).Success?
    ensures r.Success? ==> r.value == ToolReply(ContentText(extract(fetch(url.value).response.body).value), false)
    ensures Truthy(url) && fetch(url.value).Succeeded() && extract(fetch(url.value).response.body).Failure? ==>
              r == Failure(extract(fetch(url.value).response.body).error)
  {
    if !Truthy(url) then Failure(ErrUrlRequired)
    else
      match fetch(url.value)
      case Threw(message) => Failure(message)
      case Responded(response) =>
        if !response.Ok() then
          Failure("HTTP " + NatToString(response.status) + ": " + response.statusText)
        else
          match extract(response.body)
          case Success(text) => Success(ToolReply(ContentText(text), false))
          case Failure(message) => Failure(message)
  }

  /** The url check comes first: without a url, nothing fetched can change the outcome. */
  lemma SimpleScrapeChecksUrlFirst(url: Option<string>, f1: string -> FetchOutcome, f2: string -> FetchOutcome,
                                   e1: string -> Result<string, string>, e2: string -> Result<string, string>)
    requires !Truthy(url)
    ensures SimpleScrape(url, f1, e1) == SimpleScrape(url, f2, e2) == Failure(ErrUrlRequired)
  {
  }

  /** A failed response's error names its status, which can be read back. */
  lemma SimpleScrapeStatusReadBack(url: string, fetch: string -> FetchOutcome, extract: string -> Result<string, string>)
    requires url != "" && fetch(url).Responded? && !fetch(url).response.Ok()
    ensures var e := SimpleScrape(Some(url), fetch, extract).error;
            var status := fetch(url).response.status;
            e[..5] == "HTTP " && ParseInt(e[5..]) == Some(status)
  {
    var response := fetch(url).response;
    var e := SimpleScrape(Some(url), fetch, extract).error;
    assert e[5..] == NatToString(response.status) + (": " + response.statusText);
    ParseIntOfNatToString(response.status, ": " + response.statusText);
  }

  /** The `arguments` of a call: absent (or falsy), a value that is not an object, or an object. */
  datatype ToolArguments =
    | Missing
    | NotAnObject
    | ObjectArgs(url: Option<string>, waitFor: Option<int>, waitForSelector: Option<string>, actions: seq<Action>)
  {
    function Puppeteer(): PuppeteerArgs
      requires ObjectArgs?
    {
      PuppeteerArgs(url, waitFor, waitForSelector, actions)
    }
  }

  /** The reply for a handler's outcome: its own reply, or `エラー: <message>` as an error. */
  function ReplyOf(r: Result<ToolReply, string>): (reply: ToolReply)
    ensures r.Success? ==> reply == r.value
    ensures r.Failure? ==> reply == ToolReply(ErrorPrefix + r.error, true)
  {
    match r
    case Success(v) => v
    case Failure(e) => ToolReply(ErrorPrefix + e, true)
  }

  /** Every reply of a handler reports an error exactly when the handler failed. */
  lemma HandlerRepliesFlagErrors(args: PuppeteerArgs, url: Option<string>, browser: Result<nat, string>,
                                 fails: PageEffect -> Option<string>, extraction: Result<string, string>,
                                 fetch: string -> FetchOutcome, extract: string -> Result<string, string>)
    ensures ReplyOf(PuppeteerResult(args, browser, fails, extraction)).isError
            <==> PuppeteerResult(args, browser, fails, extraction).Failure?
    ensures ReplyOf(PuppeteerResult(args, browser, fails, extraction)).text != ""
    ensures ReplyOf(SimpleScrape(url, fetch, extract)).isError <==> SimpleScrape(url, fetch, extract).Failure?
    ensures ReplyOf(SimpleScrape(url, fetch, extract)).text != ""
  {
  }
}
