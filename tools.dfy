/**
  replaceProtocolInUrl (src/tools.ts): swap the `scheme://` prefix of a URL.

  `new URL(url).protocol` is modelled after the URL parser's first steps:
  leading and trailing C0 control characters and spaces are stripped and
  every tab and newline is removed; the protocol is then the text before
  the first ':', lower-cased, followed by ':'. `new URL` throws when there
  is no ':' or the text before it is not a scheme (a letter followed by
  letters, digits, '+', '-' or '.'); further URL syntax checks are not
  modelled. The prefix test and the cut are made on the URL as given.
 */
module Tools {
  import opened OrderTypes

  /** What replaceProtocolInUrl does: returns a string, returns undefined,
      or throws from `new URL`. */
  datatype UrlResult = Replaced(url: string) | NoMatch | InvalidUrl

  predicate IsAsciiLetter(c: char) {
    'a' <= c <= 'z' || 'A' <= c <= 'Z'
  }

  predicate IsSchemeChar(c: char) {
    IsAsciiLetter(c) || '0' <= c <= '9' || c == '+' || c == '-' || c == '.'
  }

  predicate ValidScheme(s: string) {
    |s| > 0 && IsAsciiLetter(s[0]) && forall i :: 0 <= i < |s| ==> IsSchemeChar(s[i])
  }

  function LowerChar(c: char): char {
    if 'A' <= c <= 'Z' then (c as int + 32) as char else c
  }

  function Lower(s: string): (r: string)
    ensures |r| == |s|
    ensures forall i :: 0 <= i < |s| ==> r[i] == LowerChar(s[i])
  {
    if s == [] then [] else [LowerChar(s[0])] + Lower(s[1..])
  }

  /** The index of the first ':' in `s`, if any. */
  function ColonAt(s: string): (r: Option<nat>)
    ensures r.Some? ==> r.value < |s| && s[r.value] == ':' && forall i :: 0 <= i < r.value ==> s[i] != ':'
    ensures r.None? ==> forall i :: 0 <= i < |s| ==> s[i] != ':'
  {
    if s == [] then None
    else if s[0] == ':' then Some(0)
    else match ColonAt(s[1..]) {
      case None => None
      case Some(k) => Some(k + 1)
    }
  }

  /** A C0 control character or a space, stripped from both ends. */
  predicate IsC0OrSpace(c: char) {
    c <= ' '
  }

  /** A tab or newline, removed everywhere. */
  predicate IsTabOrNewline(c: char) {
    c == '\t' || c == '\n' || c == '\r'
  }

  function TrimLeading(s: string): (r: string)
    ensures r == [] || !IsC0OrSpace(r[0])
  {
    if s != [] && IsC0OrSpace(s[0]) then TrimLeading(s[1..]) else s
  }

  function TrimTrailing(s: string): (r: string)
    ensures r == [] || !IsC0OrSpace(r[|r| - 1])
  {
    if s != [] && IsC0OrSpace(s[|s| - 1]) then TrimTrailing(s[..|s| - 1]) else s
  }

  function RemoveTabsAndNewlines(s: string): (r: string)
    ensures forall i :: 0 <= i < |r| ==> !IsTabOrNewline(r[i])
    ensures |r| <= |s|
  {
    if s == [] then []
    else if IsTabOrNewline(s[0]) then RemoveTabsAndNewlines(s[1..])
    else [s[0]] + RemoveTabsAndNewlines(s[1..])
  }

  /** The text the URL parser reads its scheme from. */
  function ParserInput(url: string): string {
    RemoveTabsAndNewlines(TrimTrailing(TrimLeading(url)))
  }

  /** `new URL(url).protocol`, or None when `new URL(url)` throws: the
      parser input's text before its first ':' when that is a scheme. */
  function ProtocolOf(url: string): (r: Option<string>)
    ensures r.None? <==>
      ColonAt(ParserInput(url)).None? || !ValidScheme(ParserInput(url)[..ColonAt(ParserInput(url)).value])
    ensures r.Some? ==>
      var t := ParserInput(url);
      exists k :: 0 <= k < |t| && t[k] == ':' && (forall i :: 0 <= i < k ==> t[i] != ':')
        && ValidScheme(t[..k]) && r.value == Lower(t[..k]) + ":"
  {
    var t := ParserInput(url);
    match ColonAt(t) {
      case None => None
      case Some(k) => if ValidScheme(t[..k]) then Some(Lower(t[..k]) + ":") else None
    }
  }

  predicate StartsWith(s: string, prefix: string) {
    |prefix| <= |s| && s[..|prefix|] == prefix
  }

  function ReplaceProtocolInUrl(url: string, newProtocol: string): (r: UrlResult)
    ensures r.InvalidUrl? <==> ProtocolOf(url).None?
    ensures r.Replaced? <==> ProtocolOf(url).Some? && StartsWith(url, ProtocolOf(url).value + "//")
    ensures r.Replaced? ==>
      var cut := |ProtocolOf(url).value + "//"|;
      && |r.url| == |newProtocol| + |url| - cut
      && r.url[..|newProtocol|] == newProtocol
      && r.url[|newProtocol|..] == url[cut..]
  {
    match ProtocolOf(url) {
      case None => InvalidUrl
      case Some(protocol) =>
        var prefix := protocol + "//";
        if StartsWith(url, prefix) then Replaced(newProtocol + url[|prefix|..]) else NoMatch
    }
  }

  lemma ColonAfterScheme(scheme: string, rest: string)
    requires ValidScheme(scheme)
    ensures ColonAt(scheme + ":" + rest) == Some(|scheme|)
  {
    ColonAfterSchemeChars(scheme, rest);
  }

  /** The same fact for any run of scheme characters (the first-letter
      rule does not matter for where the colon is). */
  lemma {:induction false} ColonAfterSchemeChars(chars: string, rest: string)
    requires forall i :: 0 <= i < |chars| ==> IsSchemeChar(chars[i])
    ensures ColonAt(chars + ":" + rest) == Some(|chars|)
  {
    if chars == [] {
      assert chars + ":" + rest == ":" + rest;
    } else {
      assert chars[0] != ':';
      assert (chars + ":" + rest)[1..] == chars[1..] + ":" + rest;
      ColonAfterSchemeChars(chars[1..], rest);
    }
  }

  /** A prefix free of spaces and control characters reaches the parser
      unchanged. */
  lemma ParserInputKeepsPrefix(p: string, x: string)
    requires |p| > 0 && forall i :: 0 <= i < |p| ==> !IsC0OrSpace(p[i])
    ensures ParserInput(p + x) == p + RemoveTabsAndNewlines(TrimTrailing(x))
  {
    assert TrimLeading(p + x) == p + x;
    TrimTrailingKeepsPrefix(p, x);
    RemoveKeepsPrefix(p, TrimTrailing(x));
  }

  lemma {:induction false} TrimTrailingKeepsPrefix(p: string, x: string)
    requires |p| > 0 && !IsC0OrSpace(p[|p| - 1])
    ensures TrimTrailing(p + x) == p + TrimTrailing(x)
    decreases |x|
  {
    if x == [] {
      assert p + x == p;
      assert p + TrimTrailing(x) == p;
    } else if IsC0OrSpace(x[|x| - 1]) {
      assert (p + x)[..|p + x| - 1] == p + x[..|x| - 1];
      TrimTrailingKeepsPrefix(p, x[..|x| - 1]);
    }
  }

  lemma {:induction false} RemoveKeepsPrefix(p: string, y: string)
    requires forall i :: 0 <= i < |p| ==> !IsC0OrSpace(p[i])
    ensures RemoveTabsAndNewlines(p + y) == p + RemoveTabsAndNewlines(y)
    decreases |p|
  {
    if p == [] {
      assert p + y == y;
    } else {
      assert (p + y)[1..] == p[1..] + y;
      RemoveKeepsPrefix(p[1..], y);
    }
  }

  lemma SchemePrefixIsPrintable(scheme: string)
    requires ValidScheme(scheme)
    ensures forall i :: 0 <= i < |scheme + ":"| ==> !IsC0OrSpace((scheme + ":")[i])
  {
  }

  /** The parser reads `scheme:rest` as `scheme:` followed by more text. */
  lemma ParserInputOfSchemeUrl(scheme: string, rest: string)
    requires ValidScheme(scheme)
    ensures var t := ParserInput(scheme + ":" + rest);
      |t| > |scheme| && t[..|scheme|] == scheme && ColonAt(t) == Some(|scheme|)
  {
    var p := scheme + ":";
    SchemePrefixIsPrintable(scheme);
    ParserInputKeepsPrefix(p, rest);
    var w := RemoveTabsAndNewlines(TrimTrailing(rest));
    assert ParserInput(scheme + ":" + rest) == scheme + ":" + w;
    ColonAfterScheme(scheme, w);
  }

  /** The protocol of `scheme:rest` is the lower-cased scheme and ':'. */
  lemma ProtocolOfSchemeUrl(scheme: string, rest: string)
    requires ValidScheme(scheme)
    ensures ProtocolOf(scheme + ":" + rest) == Some(Lower(scheme) + ":")
  {
    ParserInputOfSchemeUrl(scheme, rest);
  }

  /** A URL written `scheme://rest` with a lower-case scheme becomes
      `newProtocol + rest`. */
  lemma ReplaceSchemeUrl(scheme: string, rest: string, newProtocol: string)
    requires ValidScheme(scheme) && Lower(scheme) == scheme
    ensures ReplaceProtocolInUrl(scheme + "://" + rest, newProtocol) == Replaced(newProtocol + rest)
  {
    var url := scheme + "://" + rest;
    assert url == scheme + ":" + ("//" + rest);
    ProtocolOfSchemeUrl(scheme, "//" + rest);
    var prefix := Lower(scheme) + ":" + "//";
    assert prefix == scheme + "://";
    assert url[..|prefix|] == prefix;
    assert url[|prefix|..] == rest;
  }

  /** Replacing a URL's own `scheme://` gives the URL back. */
  lemma ReplaceOwnScheme(scheme: string, rest: string)
    requires ValidScheme(scheme) && Lower(scheme) == scheme
    ensures ReplaceProtocolInUrl(scheme + "://" + rest, scheme + "://") == Replaced(scheme + "://" + rest)
  {
    ReplaceSchemeUrl(scheme, rest, scheme + "://");
    assert scheme + "://" + rest == (scheme + "://") + rest;
  }

  /** For a scheme with an upper-case letter the parsed protocol is
      lower-case, so the prefix test fails and the result is undefined. */
  lemma UpperCaseSchemeIsNoMatch(scheme: string, rest: string)
    requires ValidScheme(scheme) && Lower(scheme) != scheme
    ensures ReplaceProtocolInUrl(scheme + "://" + rest, "wss://") == NoMatch
  {
    var url := scheme + "://" + rest;
    assert url == scheme + ":" + ("//" + rest);
    ProtocolOfSchemeUrl(scheme, "//" + rest);
    assert url[..|scheme|] == scheme;
  }

  /** A scheme not followed by "//" (`mailto:x`, `http:host`) parses, but
      the prefix test fails and the result is undefined. */
  lemma NoSlashesIsNoMatch(scheme: string, rest: string, newProtocol: string)
    requires ValidScheme(scheme) && !StartsWith(rest, "//")
    ensures ReplaceProtocolInUrl(scheme + ":" + rest, newProtocol) == NoMatch
  {
    var url := scheme + ":" + rest;
    ProtocolOfSchemeUrl(scheme, rest);
    assert |Lower(scheme) + ":" + "//"| == |scheme| + 3;
    assert |rest| >= 2 ==> url[|scheme| + 1..|scheme| + 3] == rest[..2];
  }

  /** A URL with leading spaces or control characters parses as if they
      were not there, but the prefix test is made on the URL as given, so
      the result is undefined. */
  lemma LeadingSpaceIsNoMatch(padding: string, scheme: string, rest: string, newProtocol: string)
    requires |padding| > 0 && forall i :: 0 <= i < |padding| ==> IsC0OrSpace(padding[i])
    requires ValidScheme(scheme)
    ensures ReplaceProtocolInUrl(padding + scheme + "://" + rest, newProtocol) == NoMatch
  {
    var url := scheme + "://" + rest;
    TrimLeadingSkipsPadding(padding, url);
    assert padding + scheme + "://" + rest == padding + url;
    assert ParserInput(padding + url) == ParserInput(url);
    assert url == scheme + ":" + ("//" + rest);
    ProtocolOfSchemeUrl(scheme, "//" + rest);
    assert ProtocolOf(padding + url) == Some(Lower(scheme) + ":");
    assert (padding + url)[0] == padding[0];
    assert (Lower(scheme) + ":" + "//")[0] == LowerChar(scheme[0]);
  }

  lemma {:induction false} TrimLeadingSkipsPadding(padding: string, x: string)
    requires forall i :: 0 <= i < |padding| ==> IsC0OrSpace(padding[i])
    requires x != [] && !IsC0OrSpace(x[0])
    ensures TrimLeading(padding + x) == x
    decreases |padding|
  {
    if padding == [] {
      assert padding + x == x;
    } else {
      assert (padding + x)[1..] == padding[1..] + x;
      TrimLeadingSkipsPadding(padding[1..], x);
    }
  }

  /** Leading trimming removes a prefix made only of C0 controls and
      spaces and keeps the rest unchanged. */
  lemma {:induction false} TrimLeadingIsSuffix(s: string)
    ensures |TrimLeading(s)| <= |s|
    ensures TrimLeading(s) == s[|s| - |TrimLeading(s)|..]
    ensures forall i :: 0 <= i < |s| - |TrimLeading(s)| ==> IsC0OrSpace(s[i])
  {
    if s != [] && IsC0OrSpace(s[0]) {
      TrimLeadingIsSuffix(s[1..]);
      assert s[1..][|s[1..]| - |TrimLeading(s)|..] == s[|s| - |TrimLeading(s)|..];
    }
  }

  /** Trailing trimming removes a suffix made only of C0 controls and
      spaces and keeps the rest unchanged. */
  lemma {:induction false} TrimTrailingIsPrefix(s: string)
    ensures |TrimTrailing(s)| <= |s|
    ensures TrimTrailing(s) == s[..|TrimTrailing(s)|]
    ensures forall i :: |TrimTrailing(s)| <= i < |s| ==> IsC0OrSpace(s[i])
  {
    if s != [] && IsC0OrSpace(s[|s| - 1]) {
      TrimTrailingIsPrefix(s[..|s| - 1]);
      assert s[..|s| - 1][..|TrimTrailing(s)|] == s[..|TrimTrailing(s)|];
    }
  }

  /** Removal works piecewise: what is removed from a concatenation is
      what is removed from each part. */
  lemma {:induction false} RemoveAppend(a: string, b: string)
    ensures RemoveTabsAndNewlines(a + b) == RemoveTabsAndNewlines(a) + RemoveTabsAndNewlines(b)
    decreases |a|
  {
    if a == [] {
      assert a + b == b;
    } else {
      assert (a + b)[0] == a[0];
      assert (a + b)[1..] == a[1..] + b;
      RemoveAppend(a[1..], b);
    }
  }

  /** A character that is not a tab or newline is kept, in its place
      between what remains of the text before it and after it. */
  lemma RemoveKeepsOtherChars(a: string, c: char, b: string)
    requires !IsTabOrNewline(c)
    ensures RemoveTabsAndNewlines(a + [c] + b) == RemoveTabsAndNewlines(a) + [c] + RemoveTabsAndNewlines(b)
  {
    RemoveAppend(a + [c], b);
    RemoveAppend(a, [c]);
  }

  /** A tab or newline is dropped and nothing else around it changes. */
  lemma RemoveDropsTabOrNewline(a: string, c: char, b: string)
    requires IsTabOrNewline(c)
    ensures RemoveTabsAndNewlines(a + [c] + b) == RemoveTabsAndNewlines(a) + RemoveTabsAndNewlines(b)
  {
    RemoveAppend(a + [c], b);
    RemoveAppend(a, [c]);
  }

  /** Text without tabs or newlines passes through unchanged. */
  lemma {:induction false} RemoveWithoutTabsIsIdentity(s: string)
    requires forall i :: 0 <= i < |s| ==> !IsTabOrNewline(s[i])
    ensures RemoveTabsAndNewlines(s) == s
  {
    if s != [] {
      RemoveWithoutTabsIsIdentity(s[1..]);
    }
  }

  /** The case of src/__tests__/toolsTest.ts: an https URL becomes a wss
      URL with the same host and path. */
  lemma ReplaceHttpsWithWss(rest: string)
    ensures ReplaceProtocolInUrl("https://" + rest, "wss://") == Replaced("wss://" + rest)
  {
    var scheme := "https";
    assert forall i :: 0 <= i < |scheme| ==> 'a' <= scheme[i] <= 'z';
    assert Lower(scheme) == scheme;
    assert "https://" + rest == scheme + "://" + rest;
    ReplaceSchemeUrl(scheme, rest, "wss://");
  }
}
