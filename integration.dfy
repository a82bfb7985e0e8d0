/**
 * The helpers defined inside the integration tests: the HTML escaper, the
 * error report for a non-OK response, and the protocol whitelist for URLs.
 */
module Integration {
  import opened Wrappers
  import opened Text
  import opened Fetch

  /** `s.replace(/c/g, replacement)` for a one-character pattern. */
  function ReplaceAll(s: string, target: char, replacement: string): (r: string)
    ensures target !in replacement ==> target !in r
    ensures |replacement| >= 1 ==> |r| >= |s|
    decreases |s|
  {
    if s == [] then []
    else (if s[0] == target then replacement else [s[0]]) + ReplaceAll(s[1..], target, replacement)
  }

  lemma {:induction false} ReplaceAllConcat(a: string, b: string, target: char, replacement: string)
    ensures ReplaceAll(a + b, target, replacement) == ReplaceAll(a, target, replacement) + ReplaceAll(b, target, replacement)
    decreases |a|
  {
    if a == [] {
      assert a + b == b;
    } else {
      assert (a + b)[1..] == a[1..] + b;
      ReplaceAllConcat(a[1..], b, target, replacement);
    }
  }

  lemma {:induction false} ReplaceAllAbsent(s: string, target: char, replacement: string)
    requires target !in s
    ensures ReplaceAll(s, target, replacement) == s
    decreases |s|
  {
    if s != [] {
      ReplaceAllAbsent(s[1..], target, replacement);
      assert [s[0]] + s[1..] == s;
    }
  }

  /** The test's `escapeHtml`: five global replacements, `&` first. */
  function EscapeHtml(text: string): string {
    var amp := ReplaceAll(text, '&', "&amp;");
    var lt := ReplaceAll(amp, '<', "&lt;");
    var gt := ReplaceAll(lt, '>', "&gt;");
    var quot := ReplaceAll(gt, '"', "&quot;");
    ReplaceAll(quot, '\'', "&#39;")
  }

  /** The entity each character stands for in escaped text. */
  function EscapeChar(c: char): string {
    match c
    case '&' => "&amp;"
    case '<' => "&lt;"
    case '>' => "&gt;"
    case '"' => "&quot;"
    case '\'' => "&#39;"
    case _ => [c]
  }

  predicate IsSpecial(c: char) {
    c == '&' || c == '<' || c == '>' || c == '"' || c == '\''
  }

  /** The reference definition: escape every character on its own, once. */
  function EscapeEachChar(s: string): (r: string)
    ensures |r| >= |s|
    decreases |s|
  {
    if s == [] then [] else EscapeChar(s[0]) + EscapeEachChar(s[1..])
  }

  lemma {:induction false} EscapeEachCharConcat(a: string, b: string)
    ensures EscapeEachChar(a + b) == EscapeEachChar(a) + EscapeEachChar(b)
    decreases |a|
  {
    if a == [] {
      assert a + b == b;
    } else {
      assert (a + b)[1..] == a[1..] + b;
      EscapeEachCharConcat(a[1..], b);
    }
  }

  lemma EscapeHtmlConcat(a: string, b: string)
    ensures EscapeHtml(a + b) == EscapeHtml(a) + EscapeHtml(b)
  {
    var amp := ReplaceAll(a + b, '&', "&amp;");
    ReplaceAllConcat(a, b, '&', "&amp;");
    var a1, b1 := ReplaceAll(a, '&', "&amp;"), ReplaceAll(b, '&', "&amp;");
    ReplaceAllConcat(a1, b1, '<', "&lt;");
    var a2, b2 := ReplaceAll(a1, '<', "&lt;"), ReplaceAll(b1, '<', "&lt;");
    ReplaceAllConcat(a2, b2, '>', "&gt;");
    var a3, b3 := ReplaceAll(a2, '>', "&gt;"), ReplaceAll(b2, '>', "&gt;");
    ReplaceAllConcat(a3, b3, '"', "&quot;");
    var a4, b4 := ReplaceAll(a3, '"', "&quot;"), ReplaceAll(b3, '"', "&quot;");
    ReplaceAllConcat(a4, b4, '\'', "&#39;");
  }

  lemma ReplaceAllSingle(c: char, target: char, replacement: string)
    ensures ReplaceAll([c], target, replacement) == if c == target then replacement else [c]
  {
    assert [c][1..] == [];
  }

  /** The replacements after the first leave alone text without their four targets. */
  lemma LaterReplacementsKeep(amp: string)
    requires '<' !in amp && '>' !in amp && '"' !in amp && '\'' !in amp
    ensures ReplaceAll(ReplaceAll(ReplaceAll(ReplaceAll(amp, '<', "&lt;"), '>', "&gt;"), '"', "&quot;"), '\'', "&#39;") == amp
  {
    ReplaceAllAbsent(amp, '<', "&lt;");
    ReplaceAllAbsent(amp, '>', "&gt;");
    ReplaceAllAbsent(amp, '"', "&quot;");
    ReplaceAllAbsent(amp, '\'', "&#39;");
  }

  lemma EscapeHtmlAmpersand(c: char)
    requires c == '&'
    ensures EscapeHtml([c]) == "&amp;"
  {
    ReplaceAllSingle(c, '&', "&amp;");
    LaterReplacementsKeep(ReplaceAll([c], '&', "&amp;"));
  }

  /** The last three replacements leave alone text without their targets. */
  lemma LastThreeReplacementsKeep(lt: string)
    requires '>' !in lt && '"' !in lt && '\'' !in lt
    ensures ReplaceAll(ReplaceAll(ReplaceAll(lt, '>', "&gt;"), '"', "&quot;"), '\'', "&#39;") == lt
  {
    ReplaceAllAbsent(lt, '>', "&gt;");
    ReplaceAllAbsent(lt, '"', "&quot;");
    ReplaceAllAbsent(lt, '\'', "&#39;");
  }

  /** The last two replacements leave alone text without their targets. */
  lemma LastTwoReplacementsKeep(gt: string)
    requires '"' !in gt && '\'' !in gt
    ensures ReplaceAll(ReplaceAll(gt, '"', "&quot;"), '\'', "&#39;") == gt
  {
    ReplaceAllAbsent(gt, '"', "&quot;");
    ReplaceAllAbsent(gt, '\'', "&#39;");
  }

  lemma EscapeHtmlLessThan(c: char)
    requires c == '<'
    ensures EscapeHtml([c]) == "&lt;"
  {
    ReplaceAllSingle(c, '&', "&amp;");
    ReplaceAllSingle(c, '<', "&lt;");
    LastThreeReplacementsKeep(ReplaceAll([c], '<', "&lt;"));
  }

  lemma EscapeHtmlGreaterThan(c: char)
    requires c == '>'
    ensures EscapeHtml([c]) == "&gt;"
  {
    ReplaceAllSingle(c, '&', "&amp;");
    ReplaceAllSingle(c, '<', "&lt;");
    ReplaceAllSingle(c, '>', "&gt;");
    LastTwoReplacementsKeep(ReplaceAll([c], '>', "&gt;"));
  }

  lemma EscapeHtmlQuote(c: char)
    requires c == '"'
    ensures EscapeHtml([c]) == "&quot;"
  {
    ReplaceAllSingle(c, '&', "&amp;");
    ReplaceAllSingle(c, '<', "&lt;");
    ReplaceAllSingle(c, '>', "&gt;");
    ReplaceAllSingle(c, '"', "&quot;");
    ReplaceAllAbsent(ReplaceAll([c], '"', "&quot;"), '\'', "&#39;");
  }

  lemma EscapeHtmlOther(c: char)
    requires c != '&' && c != '<' && c != '>' && c != '"'
    ensures EscapeHtml([c]) == if c == '\'' then "&#39;" else [c]
  {
    ReplaceAllSingle(c, '&', "&amp;");
    ReplaceAllSingle(c, '<', "&lt;");
    ReplaceAllSingle(c, '>', "&gt;");
    ReplaceAllSingle(c, '"', "&quot;");
    ReplaceAllSingle(c, '\'', "&#39;");
  }

  /** Escaping one character: no entity introduced by an earlier replacement is touched by a later one. */
  lemma EscapeHtmlOneChar(c: char)
    ensures EscapeHtml([c]) == EscapeChar(c)
  {
    if c == '&' {
      EscapeHtmlAmpersand(c);
    } else if c == '<' {
      EscapeHtmlLessThan(c);
    } else if c == '>' {
      EscapeHtmlGreaterThan(c);
    } else if c == '"' {
      EscapeHtmlQuote(c);
    } else {
      EscapeHtmlOther(c);
    }
  }

  /**
   * The chain of replacements is a per-character map: every character is
   * replaced by its entity exactly once, so nothing is escaped twice.
   */
  lemma {:induction false} EscapeHtmlIsPerCharacter(s: string)
    ensures EscapeHtml(s) == EscapeEachChar(s)
    decreases |s|
  {
    if s != [] {
      assert s == [s[0]] + s[1..];
      EscapeHtmlConcat([s[0]], s[1..]);
      EscapeHtmlOneChar(s[0]);
      EscapeHtmlIsPerCharacter(s[1..]);
    }
  }

  /** Escaped text contains none of the four markup characters. */
  lemma EscapeHtmlRemovesMarkup(s: string)
    ensures '<' !in EscapeHtml(s) && '>' !in EscapeHtml(s)
    ensures '"' !in EscapeHtml(s) && '\'' !in EscapeHtml(s)
    ensures !Contains(EscapeHtml(s), "<script>")
  {
    EscapeHtmlIsPerCharacter(s);
    EscapeEachCharRemovesMarkup(s);
    ContainsNeedsFirstChar(EscapeHtml(s), "<script>");
  }

  lemma {:induction false} EscapeEachCharRemovesMarkup(s: string)
    ensures '<' !in EscapeEachChar(s) && '>' !in EscapeEachChar(s)
    ensures '"' !in EscapeEachChar(s) && '\'' !in EscapeEachChar(s)
    decreases |s|
  {
    if s != [] {
      EscapeEachCharRemovesMarkup(s[1..]);
      EscapeCharRemovesMarkup(s[0]);
      assert EscapeEachChar(s) == EscapeChar(s[0]) + EscapeEachChar(s[1..]);
    }
  }

  /** No entity holds a markup character. */
  lemma EscapeCharRemovesMarkup(c: char)
    ensures '<' !in EscapeChar(c) && '>' !in EscapeChar(c)
    ensures '"' !in EscapeChar(c) && '\'' !in EscapeChar(c)
  {
  }

  /** Escaping never shortens the text. */
  lemma EscapeHtmlLength(s: string)
    ensures |EscapeHtml(s)| >= |s|
  {
    EscapeHtmlIsPerCharacter(s);
  }

  lemma {:induction false} EscapeEachCharPlain(s: string)
    requires Plain(s)
    ensures EscapeEachChar(s) == s
    decreases |s|
  {
    if s != [] {
      EscapeEachCharPlain(s[1..]);
      assert [s[0]] + s[1..] == s;
    }
  }

  /** Text without any of the five special characters is left as it is. */
  lemma EscapeHtmlKeepsPlainText(s: string)
    requires Plain(s)
    ensures EscapeHtml(s) == s
  {
    EscapeHtmlIsPerCharacter(s);
    EscapeEachCharPlain(s);
  }

  lemma EscapeEachCharConcat3(a: string, b: string, c: string)
    ensures EscapeEachChar(a + b + c) == EscapeEachChar(a) + EscapeEachChar(b) + EscapeEachChar(c)
  {
    EscapeEachCharConcat(a + b, c);
    EscapeEachCharConcat(a, b);
  }

  lemma EscapeEachCharOne(c: char)
    ensures EscapeEachChar([c]) == EscapeChar(c)
  {
    assert [c][1..] == [];
  }

  predicate Plain(s: string) {
    forall i :: 0 <= i < |s| ==> !IsSpecial(s[i])
  }

  /**
   * A script element injected around a quoted payload: every markup
   * character is replaced by its entity and the plain text around them is kept.
   */
  lemma EscapeHtmlScriptInjection(tag: string, call: string, payload: string, close: string)
    requires Plain(tag) && Plain(call) && Plain(payload) && Plain(close)
    ensures EscapeHtml(['<'] + tag + ['>'] + call + ['"'] + payload + ['"'] + close + ['<'] + ['/'] + tag + ['>'])
         == "&lt;" + tag + "&gt;" + call + "&quot;" + payload + "&quot;" + close + "&lt;" + "/" + tag + "&gt;"
  {
    var lt, gt, q, sl := '<', '>', '"', '/';
    EscapeEachCharOne(lt);
    EscapeEachCharOne(gt);
    EscapeEachCharOne(q);
    EscapeEachCharOne(sl);
    EscapeEachCharPlain(tag);
    EscapeEachCharPlain(call);
    EscapeEachCharPlain(payload);
    EscapeEachCharPlain(close);
    var p1 := [lt] + tag;
    EscapeEachCharConcat([lt], tag);
    var p2 := p1 + [gt];
    EscapeEachCharConcat(p1, [gt]);
    var p3 := p2 + call;
    EscapeEachCharConcat(p2, call);
    var p4 := p3 + [q];
    EscapeEachCharConcat(p3, [q]);
    var p5 := p4 + payload;
    EscapeEachCharConcat(p4, payload);
    var p6 := p5 + [q];
    EscapeEachCharConcat(p5, [q]);
    var p7 := p6 + close;
    EscapeEachCharConcat(p6, close);
    var p8 := p7 + [lt];
    EscapeEachCharConcat(p7, [lt]);
    var p8s := p8 + [sl];
    EscapeEachCharConcat(p8, [sl]);
    var p9 := p8s + tag;
    EscapeEachCharConcat(p8s, tag);
    var p10 := p9 + [gt];
    EscapeEachCharConcat(p9, [gt]);
    EscapeHtmlIsPerCharacter(p10);
    MarkupEntities(lt, gt, q);
  }

  lemma MarkupEntities(lt: char, gt: char, q: char)
    requires lt == '<' && gt == '>' && q == '"'
    ensures EscapeChar(lt) == "&lt;" && EscapeChar(gt) == "&gt;" && EscapeChar(q) == "&quot;"
  {
  }

  /** The injected script of the security test. */
  lemma EscapeHtmlScriptExample(s: string)
    requires s == "<script>alert(\"xss\")</script>"
    ensures EscapeHtml(s) == "&lt;" + "script" + "&gt;" + "alert(" + "&quot;" + "xss" + "&quot;" + ")" + "&lt;" + "/" + "script" + "&gt;"
  {
    assert s == ['<'] + "script" + ['>'] + "alert(" + ['"'] + "xss" + ['"'] + ")" + ['<'] + ['/'] + "script" + ['>'];
    EscapeHtmlScriptInjection("script", "alert(", "xss", ")");
  }

  /** What `handleError` returns: a failure record for a non-OK response, `{success: true}` otherwise. */
  datatype ErrorReport = ErrorReport(success: bool, error: Option<string>, statusCode: Option<nat>)

  function HandleError(response: Response): (r: ErrorReport)
    ensures r.success <==> response.Ok()
    ensures !r.success ==> (r.error == Some(HttpStatusError(response.status))
                            && r.statusCode == Some(response.status))
    ensures r.success ==> r.error.None? && r.statusCode.None?
  {
    if !response.Ok() then
      ErrorReport(false, Some(HttpStatusError(response.status)), Some(response.status))
    else
      ErrorReport(true, None, None)
  }

  /** The report of a failed response carries a status the error text also states. */
  lemma HandleErrorConsistent(response: Response)
    requires !response.Ok()
    ensures var r := HandleError(response);
            r.error.Some? && r.statusCode.Some? && AllDigits(r.error.value[5..])
            && DigitsValue(r.error.value[5..]) == r.statusCode.value
  {
    HttpStatusErrorRecoversStatus(response.status);
  }

  /** The mock server's `/error` page: a failure reported as "HTTP 404". */
  lemma HandleErrorNotFoundExample(statusText: string, body: string)
    ensures HandleError(Response(404, statusText, body)) == ErrorReport(false, Some("HTTP 404"), Some(404))
  {
    assert Digit(4) == '4' && Digit(0) == '0';
    assert NatToString(4) == "4";
    assert NatToString(40) == "40";
    assert NatToString(404) == "404";
    assert HttpStatusError(404) == "HTTP 404";
  }

  /**
   * `validateUrl`. The URL parser (`new URL`) is foreign: `protocolOf(url)`
   * is the `protocol` it reports, or None when it throws.
   */
  function ValidateUrl(url: string, protocolOf: string -> Option<string>): (valid: bool)
    ensures valid ==> protocolOf(url).Some?
    ensures protocolOf(url).None? ==> !valid
    ensures valid <==> protocolOf(url) == Some("http:") || protocolOf(url) == Some("https:")
  {
    match protocolOf(url)
    case None => false
    case Some(p) => p in ["http:", "https:"]
  }

  function LowerAscii(s: string): (r: string)
    ensures |r| == |s|
    ensures forall i :: 0 <= i < |s| ==> (r[i] == ':' <==> s[i] == ':')
  {
    seq(|s|, i requires 0 <= i < |s| => if 'A' <= s[i] <= 'Z' then (s[i] as int + 32) as char else s[i])
  }

  /** A C0 control or a space: the characters the URL parser strips from both ends. */
  predicate IsC0OrSpace(c: char) {
    c <= ' '
  }

  /** Every character is visible: no C0 control, space, tab or newline. */
  predicate Visible(s: string) {
    forall i :: 0 <= i < |s| ==> !IsC0OrSpace(s[i])
  }

  function TrimLeading(s: string): (r: string)
    ensures forall c :: c in r ==> c in s
    ensures Visible(s) ==> r == s
  {
    if s != [] && IsC0OrSpace(s[0]) then TrimLeading(s[1..]) else s
  }

  function TrimTrailing(s: string): (r: string)
    ensures forall c :: c in r ==> c in s
    ensures Visible(s) ==> r == s
  {
    if s != [] && IsC0OrSpace(s[|s| - 1]) then TrimTrailing(s[..|s| - 1]) else s
  }

  function RemoveTabsAndNewlines(s: string): (r: string)
    ensures forall c :: c in r ==> c in s
    ensures '\t' !in r && '\n' !in r && '\r' !in r
    ensures Visible(s) ==> r == s
  {
    if s == [] then []
    else (if s[0] in "\t\n\r" then [] else [s[0]]) + RemoveTabsAndNewlines(s[1..])
  }

  /**
   * The input as the URL Standard's basic URL parser first rewrites it:
   * leading and trailing C0 controls and spaces removed, then every tab and
   * newline removed.
   */
  function Preprocessed(url: string): (r: string)
    ensures forall c :: c in r ==> c in url
    ensures Visible(url) ==> r == url
  {
    RemoveTabsAndNewlines(TrimTrailing(TrimLeading(url)))
  }

  /** Leading spaces are not part of the scheme the parser reads. */
  lemma PreprocessedDropsLeadingSpace(rest: string)
    requires Visible(rest)
    ensures Preprocessed([' '] + rest) == rest
  {
    assert ([' '] + rest)[1..] == rest;
  }

  /**
   * What the URL Standard says of a parsed URL's `protocol`: it is the
   * scheme of the preprocessed input, lower-cased, followed by the first ':'
   * of that input.
   */
  predicate IsSchemeOf(input: string, protocol: string) {
    && 1 <= |protocol| <= |input|
    && protocol[|protocol| - 1] == ':'
    && ':' !in protocol[..|protocol| - 1]
    && LowerAscii(input[..|protocol|]) == protocol
  }

  /** A protocol that is the scheme of `input` ends at the first ':' of `input`. */
  lemma SchemeEndsAtFirstColon(input: string, protocol: string, k: nat)
    requires IsSchemeOf(input, protocol)
    requires k < |input| && input[k] == ':' && ':' !in input[..k]
    ensures |protocol| == k + 1
  {
    var n := |protocol|;
    assert input[n - 1] == ':' by {
      assert LowerAscii(input[..n])[n - 1] == ':';
    }
    if n - 1 > k {
      assert protocol[k] == ':';
    }
  }

  /** The scheme of an input contains at least its ':', so an input without one has no scheme. */
  lemma SchemeNeedsColon(input: string, protocol: string)
    requires IsSchemeOf(input, protocol)
    ensures ':' in input
  {
    var n := |protocol|;
    assert LowerAscii(input[..n])[n - 1] == ':';
    assert input[n - 1] == ':';
  }

  /** The parser behaves as the URL Standard says: a reported protocol is the scheme of the preprocessed input. */
  predicate ParsesAsStandard(url: string, protocolOf: string -> Option<string>) {
    protocolOf(url).Some? ==> IsSchemeOf(Preprocessed(url), protocolOf(url).value)
  }

  /**
   * Whatever the parser does within the standard, a URL that `validateUrl`
   * accepts begins, once its surrounding spaces and its tabs and newlines are
   * removed, with "http:" or "https:" in any letter case; an input without
   * a ':' is refused.
   */
  lemma ValidUrlHasWebScheme(url: string, protocolOf: string -> Option<string>)
    requires ParsesAsStandard(url, protocolOf)
    ensures var input := Preprocessed(url);
            ValidateUrl(url, protocolOf) ==>
              (|input| >= 5 && LowerAscii(input[..5]) == "http:")
              || (|input| >= 6 && LowerAscii(input[..6]) == "https:")
    ensures ':' !in url ==> !ValidateUrl(url, protocolOf)
  {
    if protocolOf(url).Some? {
      SchemeNeedsColon(Preprocessed(url), protocolOf(url).value);
    }
  }

  /**
   * For an input of visible characters, the protocol runs to its first ':',
   * so a scheme of any length but four ("http") or five ("https") is refused.
   */
  lemma VisibleSchemeLength(url: string, protocolOf: string -> Option<string>, k: nat)
    requires ParsesAsStandard(url, protocolOf)
    requires Visible(url)
    requires k < |url| && url[k] == ':' && ':' !in url[..k]
    ensures protocolOf(url).Some? ==> |protocolOf(url).value| == k + 1
    ensures k != 4 && k != 5 ==> !ValidateUrl(url, protocolOf)
  {
    if protocolOf(url).Some? {
      SchemeEndsAtFirstColon(url, protocolOf(url).value, k);
    }
  }

  /** The test cases: ftp, javascript and an input without a scheme are refused. */
  lemma ValidateUrlExamples(protocolOf: string -> Option<string>)
    requires ParsesAsStandard("ftp://example.com", protocolOf)
    requires ParsesAsStandard("javascript:alert(1)", protocolOf)
    requires ParsesAsStandard("invalid-url", protocolOf)
    ensures !ValidateUrl("ftp://example.com", protocolOf)
    ensures !ValidateUrl("javascript:alert(1)", protocolOf)
    ensures !ValidateUrl("invalid-url", protocolOf)
  {
    var ftp := "ftp://example.com";
    var js := "javascript:alert(1)";
    var bare := "invalid-url";
    assert Visible(ftp) && ftp[..3] == "ftp";
    VisibleSchemeLength(ftp, protocolOf, 3);
    assert Visible(js) && js[..10] == "javascript";
    VisibleSchemeLength(js, protocolOf, 10);
    assert ':' !in bare;
    ValidUrlHasWebScheme(bare, protocolOf);
  }
}
