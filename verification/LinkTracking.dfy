/**
 Link tracking of a campaign's HTML: a left-to-right scan for quoted absolute
 http(s) link targets, each marked with the @TrackLink shorthand. Letters are
 matched whatever their case, as Unicode folds it.
 */
module LinkTracking {
  import opened Wrappers

  const MARK: string := "@TrackLink"

  predicate IsWord(c: char) {
    'a' <= c <= 'z' || 'A' <= c <= 'Z' || '0' <= c <= '9' || c == '_'
  }

  /** \s of the link expression: unlike trimming, it has no vertical tab. */
  predicate IsBlank(c: char) {
    c == ' ' || c == '\t' || c == '\n' || c == '\r' || c == '\U{000C}'
  }

  predicate IsQuote(c: char) {
    c == '"' || c == '\''
  }

  predicate IsURLChar(c: char) {
    !IsQuote(c) && !IsBlank(c) && c != '<' && c != '>' && c != '{' && c != '}'
  }

  /** The long s is the one other letter that folds to one of the expression's. */
  const LONG_S: char := '\U{017F}'

  predicate Folds(c: char, lower: char, upper: char) {
    c == lower || c == upper
  }

  /** Whether a word may start at i; before is the same question about what precedes the text. */
  predicate WordMayStart(before: bool, s: string, i: nat)
    requires i <= |s|
  {
    if i == 0 then before else !IsWord(s[i - 1])
  }

  predicate HrefAt(before: bool, s: string, i: nat) {
    && i + 4 <= |s|
    && Folds(s[i], 'h', 'H') && Folds(s[i + 1], 'r', 'R') && Folds(s[i + 2], 'e', 'E') && Folds(s[i + 3], 'f', 'F')
    && WordMayStart(before, s, i)
  }

  /** Where "http://" or "https://" ends, when it starts at i. */
  function SchemeEnd(s: string, i: nat): (u: Option<nat>)
    ensures u.Some? ==> i < u.value <= |s|
  {
    if i + 4 <= |s| && Folds(s[i], 'h', 'H') && Folds(s[i + 1], 't', 'T') && Folds(s[i + 2], 't', 'T')
       && Folds(s[i + 3], 'p', 'P')
    then
      var v := if i + 4 < |s| && (Folds(s[i + 4], 's', 'S') || s[i + 4] == LONG_S) then i + 5 else i + 4;
      if v + 3 <= |s| && s[v..v + 3] == "://" then Some(v + 3) else None
    else None
  }

  /** href at i, blanks, an equals sign at e, blanks, and an opening quote at q. */
  ghost predicate OpensAt(before: bool, s: string, i: nat, e: nat, q: nat) {
    && HrefAt(before, s, i)
    && i + 4 <= e < q < |s|
    && (forall k :: i + 4 <= k < e ==> IsBlank(s[k]))
    && s[e] == '='
    && (forall k :: e < k < q ==> IsBlank(s[k]))
    && IsQuote(s[q])
  }

  /** The link expression at i: its opening, a scheme ending at u, some URL characters, a closing quote at c. */
  ghost predicate LinkAt(before: bool, s: string, i: nat, e: nat, q: nat, u: nat, c: nat) {
    && OpensAt(before, s, i, e, q)
    && q < u < c < |s|
    && SchemeEnd(s, q + 1) == Some(u)
    && (forall k :: u <= k < c ==> IsURLChar(s[k]))
    && IsQuote(s[c])
  }

  function SkipBlanks(s: string, i: nat): (j: nat)
    requires i <= |s|
    ensures i <= j <= |s|
    ensures forall k :: i <= k < j ==> IsBlank(s[k])
    ensures j < |s| ==> !IsBlank(s[j])
    decreases |s| - i
  {
    if i < |s| && IsBlank(s[i]) then SkipBlanks(s, i + 1) else i
  }

  function SkipURL(s: string, i: nat): (j: nat)
    requires i <= |s|
    ensures i <= j <= |s|
    ensures forall k :: i <= k < j ==> IsURLChar(s[k])
    ensures j < |s| ==> !IsURLChar(s[j])
    decreases |s| - i
  {
    if i < |s| && IsURLChar(s[i]) then SkipURL(s, i + 1) else i
  }

  /** The opening quote, the end of the scheme and the closing quote of a link. */
  datatype Link = Link(open: nat, scheme: nat, close: nat)

  /** The link at the start of a text, if one is there. */
  function MatchStart(before: bool, s: string): (m: Option<Link>)
    ensures m.Some? ==> 5 <= m.value.open < m.value.scheme < m.value.close < |s|
  {
    if !HrefAt(before, s, 0) then None
    else
      var e := SkipBlanks(s, 4);
      if e >= |s| || s[e] != '=' then None
      else
        var q := SkipBlanks(s, e + 1);
        if q >= |s| || !IsQuote(s[q]) then None
        else
          var u := SchemeEnd(s, q + 1);
          if u.None? then None
          else
            var c := SkipURL(s, u.value);
            if u.value < c < |s| && IsQuote(s[c]) then Some(Link(q, u.value, c)) else None
  }

  const BLANKS: string := " \t\n\U{000C}\r"
  const QUOTES: string := "\"'"

  /** "http" at i and "://" up to u, with an s between them or without. */
  predicate SchemeAt(s: string, i: nat, u: nat) {
    && i + 7 <= u <= |s|
    && s[i] in "hH" && s[i + 1] in "tT" && s[i + 2] in "tT" && s[i + 3] in "pP"
    && (u == i + 7 || (u == i + 8 && s[i + 4] in "sS\U{017F}"))
    && s[u - 3..u] == "://"
  }

  /** The link expression, letter by letter, at the start of s: an equals sign at e, and the places of a link. */
  ghost predicate ExpressionAt(before: bool, s: string, e: nat, m: Link) {
    && before && 4 <= e < m.open < m.scheme < m.close < |s|
    && s[0] in "hH" && s[1] in "rR" && s[2] in "eE" && s[3] in "fF"
    && (forall k :: 4 <= k < e ==> s[k] in BLANKS)
    && s[e] == '='
    && (forall k :: e < k < m.open ==> s[k] in BLANKS)
    && s[m.open] in QUOTES
    && SchemeAt(s, m.open + 1, m.scheme)
    && (forall k :: m.scheme <= k < m.close ==> s[k] !in BLANKS && s[k] !in QUOTES && s[k] !in "<>{}")
    && s[m.close] in QUOTES
  }

  lemma LinkIsExpression(before: bool, s: string, e: nat, m: Link)
    ensures LinkAt(before, s, 0, e, m.open, m.scheme, m.close) <==> ExpressionAt(before, s, e, m)
  {
    if LinkAt(before, s, 0, e, m.open, m.scheme, m.close) || ExpressionAt(before, s, e, m) {
      SchemeExact(s, m.open + 1, m.scheme);
    }
    hide SchemeEnd, SchemeAt;
  }

  lemma SchemeExact(s: string, i: nat, u: nat)
    ensures SchemeEnd(s, i) == Some(u) <==> SchemeAt(s, i, u)
  {
    if SchemeAt(s, i, u) && u == i + 8 {
      assert s[u - 3] == ':' && s[u - 2] == '/' && s[u - 1] == '/';
    }
  }

  lemma ScannerFinds(before: bool, s: string)
    ensures MatchStart(before, s).Some? ==>
      var m := MatchStart(before, s).value; LinkAt(before, s, 0, SkipBlanks(s, 4), m.open, m.scheme, m.close)
    ensures forall e: nat, q: nat, u: nat, c: nat :: LinkAt(before, s, 0, e, q, u, c) ==>
      MatchStart(before, s) == Some(Link(q, u, c))
  {
  }

  /** The scanner finds a link exactly when the expression matches, and it matches in one way only. */
  lemma MatchesExpression(before: bool, s: string)
    ensures MatchStart(before, s).Some? ==> exists e: nat :: ExpressionAt(before, s, e, MatchStart(before, s).value)
    ensures forall e: nat, m :: ExpressionAt(before, s, e, m) ==> MatchStart(before, s) == Some(m)
  {
    ScannerFinds(before, s);
    forall e: nat, m | ExpressionAt(before, s, e, m) ensures MatchStart(before, s) == Some(m) {
      LinkIsExpression(before, s, e, m);
    }
    if MatchStart(before, s).Some? {
      LinkIsExpression(before, s, SkipBlanks(s, 4), MatchStart(before, s).value);
    }
  }

  /** What precedes a place in a text is one of these letters, or not. */
  lemma WordsExact(c: char)
    ensures IsWord(c) <==>
      c in "abcdefghijklmnopqrstuvwxyz" || c in "ABCDEFGHIJKLMNOPQRSTUVWXYZ" || c in "0123456789_"
  {
  }

  predicate EndsWith(s: string, suffix: string) {
    |suffix| <= |s| && s[|s| - |suffix|..] == suffix
  }

  /** One attribute value: the quotes are the same. */
  predicate SameQuotes(s: string, m: Link)
    requires m.open < m.scheme < m.close < |s|
  {
    s[m.open] == s[m.close]
  }

  predicate IsTracked(s: string, m: Link)
    requires m.open < m.scheme < m.close < |s|
  {
    EndsWith(s[m.open + 1..m.close], MARK)
  }

  function Marked(s: string, m: Link): string
    requires m.open < m.scheme < m.close < |s|
  {
    if !SameQuotes(s, m) || IsTracked(s, m) then "" else MARK
  }

  /** The rewriting of what is left of a body. */
  function TrackFrom(before: bool, s: string): string
    decreases |s|
  {
    if s == "" then ""
    else
      var m := MatchStart(before, s);
      if m.None? then [s[0]] + TrackFrom(!IsWord(s[0]), s[1..])
      else
        var c := m.value.close;
        s[..c] + Marked(s, m.value) + [s[c]] + TrackFrom(true, s[c + 1..])
  }

  function Track(s: string): string {
    TrackFrom(true, s)
  }

  /** How far the output surely agrees with the input: up to the closing quote of the first link. */
  function Agreed(before: bool, s: string): (n: nat)
    ensures n <= |s|
    decreases |s|
  {
    if s == "" then 0
    else
      var m := MatchStart(before, s);
      if m.None? then 1 + Agreed(!IsWord(s[0]), s[1..]) else m.value.close
  }

  lemma {:induction false} TrackAgrees(before: bool, s: string)
    ensures |TrackFrom(before, s)| >= Agreed(before, s)
    ensures TrackFrom(before, s)[..Agreed(before, s)] == s[..Agreed(before, s)]
    ensures Agreed(before, s) == |s| ==> TrackFrom(before, s) == s
    decreases |s|
  {
    hide MatchStart;
    if s != "" && MatchStart(before, s).None? {
      TrackAgrees(!IsWord(s[0]), s[1..]);
      AgreesAfter(s, TrackFrom(!IsWord(s[0]), s[1..]), Agreed(!IsWord(s[0]), s[1..]));
    } else if s != "" {
      var m := MatchStart(before, s).value;
      assert TrackFrom(before, s)[..m.close] == s[..m.close];
    }
  }

  lemma AgreesAfter(s: string, rest: string, n: nat)
    requires s != "" && n <= |s| - 1 && n <= |rest| && rest[..n] == s[1..][..n]
    ensures ([s[0]] + rest)[..1 + n] == s[..1 + n]
    ensures rest == s[1..] ==> [s[0]] + rest == s
  {
  }

  /** The link whose closing quote ends the agreement. */
  lemma {:induction false} FirstLink(before: bool, s: string) returns (i: nat, e: nat, q: nat, u: nat)
    requires Agreed(before, s) < |s|
    ensures LinkAt(before, s, i, e, q, u, Agreed(before, s))
    decreases |s|
  {
    hide MatchStart;
    var m := MatchStart(before, s);
    if m.Some? {
      ScannerFinds(before, s);
      i, e, q, u := 0, SkipBlanks(s, 4), m.value.open, m.value.scheme;
    } else {
      i, e, q, u := FirstLink(!IsWord(s[0]), s[1..]);
      LinkLater(before, s, i, e, q, u, Agreed(!IsWord(s[0]), s[1..]));
      i, e, q, u := i + 1, e + 1, q + 1, u + 1;
    }
  }

  lemma LinkLater(before: bool, s: string, i: nat, e: nat, q: nat, u: nat, c: nat)
    requires s != "" && LinkAt(!IsWord(s[0]), s[1..], i, e, q, u, c)
    ensures LinkAt(before, s, i + 1, e + 1, q + 1, u + 1, c + 1)
  {
    OpensLater(before, s, i, e, q);
    SchemeLater(s, q + 1);
    forall k | u + 1 <= k < c + 1
      ensures IsURLChar(s[k])
    {
      assert s[k] == s[1..][k - 1];
    }
  }

  lemma OpensLater(before: bool, s: string, i: nat, e: nat, q: nat)
    requires s != "" && OpensAt(!IsWord(s[0]), s[1..], i, e, q)
    ensures OpensAt(before, s, i + 1, e + 1, q + 1)
  {
  }

  lemma SchemeLater(s: string, i: nat)
    requires s != "" && SchemeEnd(s[1..], i).Some?
    ensures SchemeEnd(s, i + 1) == Some(SchemeEnd(s[1..], i).value + 1)
  {
    var u, t := SchemeEnd(s[1..], i).value, s[1..];
    assert t[i] == s[i + 1] && t[i + 1] == s[i + 2] && t[i + 2] == s[i + 3] && t[i + 3] == s[i + 4];
    assert i + 4 < |t| ==> t[i + 4] == s[i + 5];
    assert t[u - 3..u] == s[u - 2..u + 1];
  }

  lemma SchemeHasNoQuote(s: string, i: nat, j: nat)
    requires SchemeEnd(s, i).Some? && i <= j < SchemeEnd(s, i).value
    ensures !IsQuote(s[j])
  {
    var u := SchemeEnd(s, i).value;
    var v := u - 3;
    assert v == i + 4 || v == i + 5;
    assert s[v..v + 3] == "://";
    assert s[v] == s[v..v + 3][0] && s[v + 1] == s[v..v + 3][1] && s[v + 2] == s[v..v + 3][2];
  }

  /** Inside a link before its closing quote, the only quote is the opening one. */
  lemma OnlyQuote(before: bool, s: string, i: nat, e: nat, q: nat, u: nat, c: nat, j: nat)
    requires LinkAt(before, s, i, e, q, u, c) && i <= j < c && IsQuote(s[j])
    ensures j == q
  {
    if q < j < u {
      SchemeHasNoQuote(s, q + 1, j);
    }
  }

  /** Two links that open with the same quote start at the same place. */
  lemma SameOpening(before: bool, s: string, i: nat, e: nat, k: nat, f: nat, q: nat)
    requires OpensAt(before, s, i, e, q) && OpensAt(before, s, k, f, q)
    ensures i == k
  {
  }

  /** A link is a matter of the characters up to its closing quote. */
  lemma LinkCopied(before: bool, s: string, t: string, n: nat, i: nat, e: nat, q: nat, u: nat, c: nat)
    requires n <= |s| && n <= |t| && s[..n] == t[..n]
    requires LinkAt(before, s, i, e, q, u, c) && c < n
    ensures LinkAt(before, t, i, e, q, u, c)
  {
    OpensCopied(before, s, t, n, i, e, q);
    SchemeCopied(s, t, n, q + 1);
    assert forall k :: 0 <= k < n ==> s[k] == s[..n][k] == t[k];
  }

  lemma OpensCopied(before: bool, s: string, t: string, n: nat, i: nat, e: nat, q: nat)
    requires n <= |s| && n <= |t| && s[..n] == t[..n]
    requires OpensAt(before, s, i, e, q) && q < n
    ensures OpensAt(before, t, i, e, q)
  {
  }

  lemma SchemeCopied(s: string, t: string, n: nat, i: nat)
    requires n <= |s| && n <= |t| && s[..n] == t[..n]
    requires SchemeEnd(s, i).Some? && SchemeEnd(s, i).value <= n
    ensures SchemeEnd(t, i) == SchemeEnd(s, i)
  {
    var u := SchemeEnd(s, i).value;
    assert forall k :: 0 <= k < n ==> s[k] == s[..n][k] == t[k];
    assert s[u - 3..u] == t[u - 3..u];
  }

  /** Rewriting what follows never makes a link begin where none began. */
  lemma NoNewLink(before: bool, s: string)
    requires MatchStart(before, s).None?
    ensures MatchStart(before, TrackFrom(before, s)).None?
  {
    var t := TrackFrom(before, s);
    TrackAgrees(before, s);
    if MatchStart(before, t).Some? {
      ScannerFinds(before, t);
      ScannerFinds(before, s);
      var m := MatchStart(before, t).value;
      NewLinkImpossible(before, s, t, SkipBlanks(t, 4), m.open, m.scheme, m.close);
    }
  }

  lemma NewLinkImpossible(before: bool, s: string, t: string, e: nat, q: nat, u: nat, c: nat)
    requires |t| >= Agreed(before, s) && t[..Agreed(before, s)] == s[..Agreed(before, s)]
    requires Agreed(before, s) == |s| ==> t == s
    requires LinkAt(before, t, 0, e, q, u, c)
    ensures MatchStart(before, s).Some?
  {
    var n := Agreed(before, s);
    ScannerFinds(before, s);
    if n == |s| {
    } else if c < n {
      LinkCopied(before, t, s, n, 0, e, q, u, c);
    } else {
      var i, f, p, v := FirstLink(before, s);
      OpensCopied(before, s, t, n, i, f, p);
      OnlyQuote(before, t, 0, e, q, u, c, p);
      SameOpening(before, t, 0, e, i, f, p);
    }
  }

  /** t is s up to c, then k, then the character of s at c, then rest. */
  ghost predicate Spliced(s: string, c: nat, k: string, rest: string, t: string)
    requires c < |s|
  {
    && |t| == c + |k| + 1 + |rest|
    && t[..c] == s[..c]
    && t[c..c + |k|] == k
    && t[c + |k|] == s[c]
    && t[c + |k| + 1..] == rest
  }

  lemma SpliceParts(s: string, c: nat, k: string, rest: string)
    requires c < |s|
    ensures Spliced(s, c, k, rest, s[..c] + k + [s[c]] + rest)
  {
  }

  lemma LinkStretches(before: bool, s: string, m: Link, k: string, rest: string, t: string)
    requires MatchStart(before, s) == Some(m)
    requires k == "" || k == MARK
    requires Spliced(s, m.close, k, rest, t)
    ensures MatchStart(before, t) == Some(Link(m.open, m.scheme, m.close + |k|))
  {
    ScannerFinds(before, s);
    var e := SkipBlanks(s, 4);
    StretchedLink(before, s, m, e, k, rest, t);
    ScannerFinds(before, t);
  }

  lemma StretchedLink(before: bool, s: string, m: Link, e: nat, k: string, rest: string, t: string)
    requires LinkAt(before, s, 0, e, m.open, m.scheme, m.close)
    requires k == "" || k == MARK
    requires Spliced(s, m.close, k, rest, t)
    ensures LinkAt(before, t, 0, e, m.open, m.scheme, m.close + |k|)
  {
    OpensCopied(before, s, t, m.close, 0, e, m.open);
    SchemeCopied(s, t, m.close, m.open + 1);
    forall j | m.scheme <= j < m.close + |k|
      ensures IsURLChar(t[j])
    {
      if j < m.close {
        assert t[j] == t[..m.close][j] == s[..m.close][j];
      } else {
        assert t[j] == t[m.close..m.close + |k|][j - m.close];
      }
    }
  }

  /** A rewritten link is still the link there, in the same quotes, and the rest follows it. */
  lemma LinkStays(before: bool, s: string, m: Link, t: string)
    requires MatchStart(before, s) == Some(m) && t == TrackFrom(before, s)
    ensures MatchStart(before, t) == Some(Link(m.open, m.scheme, m.close + |Marked(s, m)|))
    ensures Spliced(s, m.close, Marked(s, m), TrackFrom(true, s[m.close + 1..]), t)
  {
    hide MatchStart;
    var k := Marked(s, m);
    var rest := TrackFrom(true, s[m.close + 1..]);
    TrackLink(before, s, m);
    SpliceParts(s, m.close, k, rest);
    LinkStretches(before, s, m, k, rest, t);
  }

  lemma TrackLink(before: bool, s: string, m: Link)
    requires MatchStart(before, s) == Some(m)
    ensures TrackFrom(before, s) == s[..m.close] + Marked(s, m) + [s[m.close]] + TrackFrom(true, s[m.close + 1..])
  {
    hide MatchStart, Marked;
  }

  /** Every link the scanner finds is tracked or has mismatched quotes. */
  predicate AllTracked(before: bool, s: string)
    decreases |s|
  {
    s == "" ||
    var m := MatchStart(before, s);
    if m.None? then AllTracked(!IsWord(s[0]), s[1..])
    else (s[m.value.open] != s[m.value.close] || HasMark(s, m.value)) && AllTracked(true, s[m.value.close + 1..])
  }

  lemma AllTrackedSkip(before: bool, x: char, t: string)
    requires MatchStart(before, [x] + t).None?
    ensures AllTracked(before, [x] + t) <==> AllTracked(!IsWord(x), t)
  {
  }

  lemma AllTrackedLink(before: bool, t: string, m: Link)
    requires MatchStart(before, t) == Some(m)
    ensures AllTracked(before, t) <==> Marked(t, m) == "" && AllTracked(true, t[m.close + 1..])
  {
    hide MatchStart;
  }

  lemma TrackSkip(before: bool, s: string)
    requires s != "" && MatchStart(before, s).None?
    ensures TrackFrom(before, s) == [s[0]] + TrackFrom(!IsWord(s[0]), s[1..])
  {
  }

  /** The rewriting leaves no link to track. */
  lemma {:induction false} TracksEveryLink(before: bool, s: string)
    ensures AllTracked(before, TrackFrom(before, s))
    decreases |s|
  {
    hide *;
    if s == "" {
      TracksNothing(before);
    } else {
      var m := MatchStart(before, s);
      if m.None? {
        TracksEveryLink(!IsWord(s[0]), s[1..]);
        TracksSkip(before, s);
      } else {
        TracksEveryLink(true, s[m.value.close + 1..]);
        TracksLink(before, s, m.value, TrackFrom(before, s));
      }
    }
  }

  lemma TracksNothing(before: bool)
    ensures TrackFrom(before, "") == "" && AllTracked(before, "")
  {
  }

  lemma TracksSkip(before: bool, s: string)
    requires s != "" && MatchStart(before, s).None?
    requires AllTracked(!IsWord(s[0]), TrackFrom(!IsWord(s[0]), s[1..]))
    ensures AllTracked(before, TrackFrom(before, s))
  {
    hide MatchStart;
    TrackSkip(before, s);
    NoNewLink(before, s);
    AllTrackedSkip(before, s[0], TrackFrom(!IsWord(s[0]), s[1..]));
  }

  lemma TracksLink(before: bool, s: string, m: Link, t: string)
    requires MatchStart(before, s) == Some(m) && t == TrackFrom(before, s)
    requires AllTracked(true, TrackFrom(true, s[m.close + 1..]))
    ensures AllTracked(before, t)
  {
    hide MatchStart;
    LinkStays(before, s, m, t);
    MarkedOnce(s, m, TrackFrom(true, s[m.close + 1..]), t);
    AllTrackedLink(before, t, Link(m.open, m.scheme, m.close + |Marked(s, m)|));
  }

  lemma MarkedOnce(s: string, m: Link, rest: string, t: string)
    requires m.open < m.scheme < m.close < |s|
    requires Spliced(s, m.close, Marked(s, m), rest, t)
    ensures SameQuotes(t, Link(m.open, m.scheme, m.close + |Marked(s, m)|)) <==> SameQuotes(s, m)
    ensures Marked(t, Link(m.open, m.scheme, m.close + |Marked(s, m)|)) == ""
  {
    var k := Marked(s, m);
    var n := Link(m.open, m.scheme, m.close + |k|);
    assert t[m.open] == t[..m.close][m.open] == s[m.open];
    ValueSpliced(s, m, k, rest, t);
    hide Spliced;
    if k != "" {
      EndsWithAdded(s[m.open + 1..m.close], MARK);
    }
  }

  lemma ValueSpliced(s: string, m: Link, k: string, rest: string, t: string)
    requires m.open < m.scheme < m.close < |s| && Spliced(s, m.close, k, rest, t)
    ensures t[m.open + 1..m.close + |k|] == s[m.open + 1..m.close] + k
  {
    assert t[..m.close + |k|] == s[..m.close] + k;
  }

  lemma EndsWithAdded(x: string, suffix: string)
    ensures EndsWith(x + suffix, suffix)
  {
  }

  /** A body is left alone exactly when it has no link to track. */
  lemma {:induction false} TrackFixes(before: bool, s: string)
    ensures TrackFrom(before, s) == s <==> AllTracked(before, s)
    ensures |TrackFrom(before, s)| >= |s|
    decreases |s|
  {
    hide *;
    if s == "" {
      TracksNothing(before);
    } else {
      var m := MatchStart(before, s);
      if m.None? {
        TrackFixes(!IsWord(s[0]), s[1..]);
        TrackSkip(before, s);
        assert s == [s[0]] + s[1..];
        AllTrackedSkip(before, s[0], s[1..]);
        SameTail(s[0], TrackFrom(!IsWord(s[0]), s[1..]), s[1..]);
      } else {
        TrackFixes(true, s[m.value.close + 1..]);
        TrackLink(before, s, m.value);
        AllTrackedLink(before, s, m.value);
        SameRest(s, m.value.close, Marked(s, m.value), TrackFrom(true, s[m.value.close + 1..]));
      }
    }
  }

  lemma SameTail(x: char, a: string, b: string)
    ensures [x] + a == [x] + b <==> a == b
  {
    assert ([x] + a)[1..] == a && ([x] + b)[1..] == b;
  }

  lemma SameRest(s: string, c: nat, k: string, rest: string)
    requires c < |s| && (k == "" || |rest| >= |s| - c - 1)
    ensures s[..c] + k + [s[c]] + rest == s <==> k == "" && rest == s[c + 1..]
  {
  }

  /** Tracking twice is tracking once, whatever the body. */
  lemma TrackIdempotent(s: string)
    ensures Track(Track(s)) == Track(s)
  {
    TracksEveryLink(true, s);
    TrackFixes(true, Track(s));
  }

  /** t is s, but for marks put in front of quotes. */
  predicate Inserts(s: string, t: string) {
    if s == "" || t == "" then s == t
    else
      || (t[0] == s[0] && Inserts(s[1..], t[1..]))
      || (IsQuote(s[0]) && |MARK| < |t| && t[..|MARK| + 1] == MARK + [s[0]] && Inserts(s[1..], t[|MARK| + 1..]))
  }

  lemma {:induction false} InsertsAfter(x: string, s: string, t: string)
    requires Inserts(s, t)
    ensures Inserts(x + s, x + t)
  {
    if x == "" {
      assert x + s == s && x + t == t;
    } else {
      InsertsAfter(x[1..], s, t);
      assert (x + s)[1..] == x[1..] + s && (x + t)[1..] == x[1..] + t;
    }
  }

  lemma InsertsMark(k: string, q: char, s: string, t: string)
    requires Inserts(s, t) && IsQuote(q) && (k == "" || k == MARK)
    ensures Inserts([q] + s, k + [q] + t)
  {
  }

  /** The rewriting changes nothing else: the output is the body with marks put in front of quotes. */
  lemma {:induction false} TrackOnlyInserts(before: bool, s: string)
    ensures Inserts(s, TrackFrom(before, s))
    decreases |s|
  {
    hide *;
    if s == "" {
      InsertsNothing(before);
    } else {
      var m := MatchStart(before, s);
      if m.None? {
        TrackOnlyInserts(!IsWord(s[0]), s[1..]);
        TrackSkip(before, s);
        InsertsAfter([s[0]], s[1..], TrackFrom(!IsWord(s[0]), s[1..]));
        assert s == [s[0]] + s[1..];
      } else {
        TrackOnlyInserts(true, s[m.value.close + 1..]);
        InsertsInLink(before, s, m.value);
      }
    }
  }

  lemma InsertsNothing(before: bool)
    ensures Inserts("", TrackFrom(before, ""))
  {
  }

  lemma InsertsInLink(before: bool, s: string, m: Link)
    requires MatchStart(before, s) == Some(m)
    requires Inserts(s[m.close + 1..], TrackFrom(true, s[m.close + 1..]))
    ensures Inserts(s, TrackFrom(before, s))
  {
    hide *;
    ClosesWithQuote(before, s);
    MarkOrNothing(s, m);
    TrackLink(before, s, m);
    InsertsAround(s, m.close, Marked(s, m), TrackFrom(true, s[m.close + 1..]));
  }

  lemma InsertsAround(s: string, c: nat, k: string, rest: string)
    requires c < |s| && IsQuote(s[c]) && (k == "" || k == MARK)
    requires Inserts(s[c + 1..], rest)
    ensures Inserts(s, s[..c] + k + [s[c]] + rest)
  {
    hide *;
    var tail := s[c + 1..];
    InsertsMark(k, s[c], tail, rest);
    InsertsAfter(s[..c], [s[c]] + tail, k + [s[c]] + rest);
    assert s[..c] + ([s[c]] + tail) == s;
    assert s[..c] + k + [s[c]] + rest == s[..c] + (k + [s[c]] + rest);
  }

  lemma ClosesWithQuote(before: bool, s: string)
    requires MatchStart(before, s).Some?
    ensures IsQuote(s[MatchStart(before, s).value.close])
  {
  }

  lemma MarkOrNothing(s: string, m: Link)
    requires m.open < m.scheme < m.close < |s|
    ensures Marked(s, m) == "" || Marked(s, m) == MARK
  {
  }

  /** A mark a link came with, or got. */
  predicate HasMark(s: string, m: Link): (marked: bool)
    requires m.open < m.scheme < m.close < |s|
    ensures marked ==> m.close >= |MARK|
  {
    s[m.open] == s[m.close] && m.open + |MARK| < m.close && s[m.close - |MARK|..m.close] == MARK
  }

  lemma HasMarkExact(s: string, m: Link)
    requires m.open < m.scheme < m.close < |s|
    ensures HasMark(s, m) <==> SameQuotes(s, m) && IsTracked(s, m)
    ensures HasMark(s, m) ==> m.close >= |MARK|
  {
    if m.open + |MARK| < m.close {
      assert s[m.open + 1..m.close][m.close - m.open - 1 - |MARK|..] == s[m.close - |MARK|..m.close];
    }
  }

  /** t with the mark of its link m deleted, if it has one, and u for what follows. */
  function Unmark(t: string, m: Link, u: string): string
    requires m.open < m.scheme < m.close < |t|
  {
    (if HasMark(t, m) then t[..m.close - |MARK|] else t[..m.close]) + [t[m.close]] + u
  }

  /** Deleting the mark of every link that ends with it. */
  function UntrackFrom(before: bool, s: string): string
    decreases |s|
  {
    if s == "" then ""
    else
      var m := MatchStart(before, s);
      if m.None? then [s[0]] + UntrackFrom(!IsWord(s[0]), s[1..])
      else Unmark(s, m.value, UntrackFrom(true, s[m.value.close + 1..]))
  }

  /** No link is tracked by hand. */
  predicate NoneTracked(before: bool, s: string)
    decreases |s|
  {
    s == "" ||
    var m := MatchStart(before, s);
    if m.None? then NoneTracked(!IsWord(s[0]), s[1..])
    else !HasMark(s, m.value) && NoneTracked(true, s[m.value.close + 1..])
  }

  /** Deleting the marks gives back the body exactly when it had none of its own. */
  lemma {:induction false} UntrackTrack(before: bool, s: string)
    ensures UntrackFrom(before, TrackFrom(before, s)) == s <==> NoneTracked(before, s)
    ensures |UntrackFrom(before, TrackFrom(before, s))| <= |s|
    decreases |s|
  {
    hide *;
    if s == "" {
      UntrackNothing(before);
    } else {
      var m := MatchStart(before, s);
      if m.None? {
        UntrackTrack(!IsWord(s[0]), s[1..]);
        UntrackSkip(before, s);
      } else {
        UntrackTrack(true, s[m.value.close + 1..]);
        UntrackLink(before, s, m.value, TrackFrom(before, s));
      }
    }
  }

  lemma UntrackNothing(before: bool)
    ensures UntrackFrom(before, TrackFrom(before, "")) == "" && NoneTracked(before, "")
  {
  }

  lemma UntrackSkip(before: bool, s: string)
    requires s != "" && MatchStart(before, s).None?
    requires var u := UntrackFrom(!IsWord(s[0]), TrackFrom(!IsWord(s[0]), s[1..]));
      (u == s[1..] <==> NoneTracked(!IsWord(s[0]), s[1..])) && |u| < |s|
    ensures UntrackFrom(before, TrackFrom(before, s)) == s <==> NoneTracked(before, s)
    ensures |UntrackFrom(before, TrackFrom(before, s))| <= |s|
  {
    hide MatchStart;
    NoNewLink(before, s);
    TrackSkip(before, s);
    var rest := TrackFrom(!IsWord(s[0]), s[1..]);
    assert ([s[0]] + rest)[1..] == rest;
    SameTail(s[0], UntrackFrom(!IsWord(s[0]), rest), s[1..]);
    assert s == [s[0]] + s[1..];
  }

  lemma UntrackLink(before: bool, s: string, m: Link, t: string)
    requires MatchStart(before, s) == Some(m) && t == TrackFrom(before, s)
    requires var u := UntrackFrom(true, TrackFrom(true, s[m.close + 1..]));
      (u == s[m.close + 1..] <==> NoneTracked(true, s[m.close + 1..])) && |u| <= |s| - m.close - 1
    ensures UntrackFrom(before, t) == s <==> NoneTracked(before, s)
    ensures |UntrackFrom(before, t)| <= |s|
  {
    hide *;
    LinkStays(before, s, m, t);
    SplicedTail(s, m.close, Marked(s, m), TrackFrom(true, s[m.close + 1..]), t);
    UntrackOnce(before, t, Link(m.open, m.scheme, m.close + |Marked(s, m)|));
    NoneTrackedLink(before, s, m);
    Unmarked(s, m, TrackFrom(true, s[m.close + 1..]), t, UntrackFrom(true, TrackFrom(true, s[m.close + 1..])));
  }

  lemma SplicedTail(s: string, c: nat, k: string, rest: string, t: string)
    requires c < |s| && Spliced(s, c, k, rest, t)
    ensures |t| > c + |k| && t[c + |k| + 1..] == rest && t[c + |k|] == s[c]
  {
  }

  lemma UntrackOnce(before: bool, t: string, m: Link)
    requires MatchStart(before, t) == Some(m)
    ensures UntrackFrom(before, t) == Unmark(t, m, UntrackFrom(true, t[m.close + 1..]))
  {
    hide MatchStart, Unmark;
  }

  lemma NoneTrackedLink(before: bool, s: string, m: Link)
    requires MatchStart(before, s) == Some(m)
    ensures NoneTracked(before, s) <==> !HasMark(s, m) && NoneTracked(true, s[m.close + 1..])
  {
    hide MatchStart, HasMark;
  }

  lemma Unmarked(s: string, m: Link, rest: string, t: string, u: string)
    requires m.open < m.scheme < m.close < |s| && |u| <= |s| - m.close - 1
    requires Spliced(s, m.close, Marked(s, m), rest, t)
    ensures var n := Link(m.open, m.scheme, m.close + |Marked(s, m)|);
      (Unmark(t, n, u) == s <==> !HasMark(s, m) && u == s[m.close + 1..]) && |Unmark(t, n, u)| <= |s|
  {
    HasMarkExact(s, m);
    HasMarkExact(t, Link(m.open, m.scheme, m.close + |Marked(s, m)|));
    hide HasMark;
  }
}
