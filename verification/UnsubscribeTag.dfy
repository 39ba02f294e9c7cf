/**
 The template tag that renders an unsubscribe or preferences link, and the
 proof that link tracking neither adds nor takes away one.
 */
module UnsubscribeTag {
  import opened LinkTracking

  const UNSUBSCRIBE: string := "UnsubscribeURL"
  const MANAGE: string := "ManageURL"

  predicate IsWhole(s: string, word: string) {
    word <= s && (|s| == |word| || !IsWord(s[|word|]))
  }

  /** Where the tag's name is to start: after two braces, a dash perhaps, and blanks. */
  function NameStart(s: string): (n: nat)
    requires "{{" <= s
    ensures 2 <= n <= |s|
  {
    SkipBlanks(s, if |s| > 2 && s[2] == '-' then 3 else 2)
  }

  predicate TagHere(s: string) {
    "{{" <= s && (IsWhole(s[NameStart(s)..], UNSUBSCRIBE) || IsWhole(s[NameStart(s)..], MANAGE))
  }

  predicate HasUnsubscribeTag(s: string) {
    s != "" && (TagHere(s) || HasUnsubscribeTag(s[1..]))
  }

  /** The tag expression, letter by letter: braces at i, a dash perhaps, blanks, and a whole word at n. */
  predicate TagAt(s: string, i: nat, n: nat, word: string) {
    && i + 2 <= n && n + |word| <= |s| && (word == "UnsubscribeURL" || word == "ManageURL")
    && s[i] == '{' && s[i + 1] == '{'
    && (forall k :: i + 2 <= k < n ==> s[k] in BLANKS || (k == i + 2 && s[k] == '-'))
    && s[n..n + |word|] == word
    && (n + |word| < |s| ==> !IsWord(s[n + |word|]))
  }

  lemma BlanksExact(c: char)
    ensures IsBlank(c) <==> c in BLANKS
  {
  }

  lemma {:induction false} SkipsTo(s: string, i: nat, n: nat)
    requires i <= n < |s| && !IsBlank(s[n]) && forall k :: i <= k < n ==> IsBlank(s[k])
    ensures SkipBlanks(s, i) == n
    decreases n - i
  {
    if i < n {
      SkipsTo(s, i + 1, n);
    }
  }

  lemma StartsTag(s: string) returns (n: nat, word: string)
    requires TagHere(s)
    ensures TagAt(s, 0, n, word)
  {
    forall c: char ensures IsBlank(c) <==> c in BLANKS {
      BlanksExact(c);
    }
    n := NameStart(s);
    word := if IsWhole(s[n..], UNSUBSCRIBE) then UNSUBSCRIBE else MANAGE;
    assert s[n..][..|word|] == s[n..n + |word|];
  }

  lemma TagStartsHere(s: string, n: nat, word: string)
    requires TagAt(s, 0, n, word)
    ensures TagHere(s)
  {
    forall c: char ensures IsBlank(c) <==> c in BLANKS {
      BlanksExact(c);
    }
    assert s[n] == s[n..n + |word|][0] && s[..2] == "{{";
    assert !IsBlank(s[n]) && s[n] != '-';
    SkipsTo(s, if s[2] == '-' then 3 else 2, n);
    assert s[n..][..|word|] == word;
  }

  lemma TagLater(s: string, i: nat, n: nat, word: string)
    requires s != ""
    ensures TagAt(s[1..], i, n, word) <==> TagAt(s, i + 1, n + 1, word)
  {
    if n + |word| < |s| {
      assert s[1..][n..n + |word|] == s[n + 1..n + 1 + |word|];
    }
  }

  lemma {:induction false} FindsTag(s: string) returns (i: nat, n: nat, word: string)
    requires HasUnsubscribeTag(s)
    ensures TagAt(s, i, n, word)
  {
    hide TagAt, TagHere;
    if TagHere(s) {
      i := 0;
      n, word := StartsTag(s);
    } else {
      i, n, word := FindsTag(s[1..]);
      TagLater(s, i, n, word);
      i, n := i + 1, n + 1;
    }
  }

  lemma {:induction false} TagIsFound(s: string, i: nat, n: nat, word: string)
    requires TagAt(s, i, n, word)
    ensures HasUnsubscribeTag(s)
    decreases i
  {
    assert s != "" && n > 0;
    hide TagAt, TagHere;
    if i == 0 {
      TagStartsHere(s, n, word);
    } else {
      TagLater(s, i - 1, n - 1, word);
      TagIsFound(s[1..], i - 1, n - 1, word);
    }
  }

  /** A text has a tag exactly when the expression matches somewhere in it. */
  lemma HasTagExact(s: string)
    ensures HasUnsubscribeTag(s) <==> exists i: nat, n: nat, word :: TagAt(s, i, n, word)
  {
    hide TagAt, HasUnsubscribeTag;
    if HasUnsubscribeTag(s) {
      var i, n, word := FindsTag(s);
    } else {
      forall i: nat, n: nat, word ensures !TagAt(s, i, n, word) {
        if TagAt(s, i, n, word) {
          TagIsFound(s, i, n, word);
        }
      }
    }
  }

  /** What the insertion of marks leaves alone: a beginning without quotes, or without marks. */
  lemma {:induction false} InsertsKeeps(s: string, t: string, n: nat)
    requires Inserts(s, t)
    requires (n <= |s| && forall k :: 0 <= k < n ==> !IsQuote(s[k]))
      || (n <= |t| && forall k :: 0 <= k < n ==> t[k] != MARK[0])
    ensures n <= |s| && n <= |t| && t[..n] == s[..n] && Inserts(s[n..], t[n..])
  {
    if n == 0 {
      assert s[0..] == s && t[0..] == t;
    } else {
      FirstKept(s, t);
      assert t[0] == s[0];
      InsertsKeeps(s[1..], t[1..], n - 1);
      assert s[1..][n - 1..] == s[n..] && t[1..][n - 1..] == t[n..];
      assert s[..n] == [s[0]] + s[1..][..n - 1] && t[..n] == [t[0]] + t[1..][..n - 1];
    }
  }

  /** Two texts that differ by marks start alike, or with a quote and its mark. */
  lemma FirstKept(s: string, t: string)
    requires Inserts(s, t)
    ensures s == "" <==> t == ""
    ensures s != "" && t != "" ==>
      (t[0] == s[0] && Inserts(s[1..], t[1..])) || (IsQuote(s[0]) && t[0] == MARK[0] && MarkedQuote(s, t))
  {
  }

  predicate MarkedQuote(s: string, t: string) {
    s != "" && |MARK| < |t| && t[..|MARK| + 1] == MARK + [s[0]] && Inserts(s[1..], t[|MARK| + 1..])
  }

  predicate StartsWord(s: string) {
    s != "" && IsWord(s[0])
  }

  /** The end of a tag's name: only a start up to there, and what kind of character follows, matter. */
  function TagEnd(s: string): (n: nat)
    requires TagHere(s)
    ensures NameStart(s) < n <= |s| && !StartsWord(s[n..])
  {
    NameStart(s) + if IsWhole(s[NameStart(s)..], UNSUBSCRIBE) then |UNSUBSCRIBE| else |MANAGE|
  }

  lemma TagText(s: string)
    requires TagHere(s)
    ensures forall k :: 0 <= k < TagEnd(s) ==> !IsQuote(s[k]) && s[k] != MARK[0]
  {
  }

  lemma {:induction false} BlanksCopied(s: string, t: string, n: nat, i: nat)
    requires i <= n <= |s| && n <= |t| && s[..n] == t[..n] && SkipBlanks(s, i) < n
    ensures SkipBlanks(t, i) == SkipBlanks(s, i)
    decreases n - i
  {
  }

  lemma TagCopied(s: string, t: string)
    requires TagHere(s) && TagEnd(s) <= |t| && t[..TagEnd(s)] == s[..TagEnd(s)] && !StartsWord(t[TagEnd(s)..])
    ensures TagHere(t)
  {
    var n, i := TagEnd(s), NameStart(s);
    var word := if IsWhole(s[i..], UNSUBSCRIBE) then UNSUBSCRIBE else MANAGE;
    assert s[..2] == s[..n][..2] && t[..2] == t[..n][..2];
    assert s[2] == s[..n][2] && t[2] == t[..n][2];
    BlanksCopied(s, t, n, if s[2] == '-' then 3 else 2);
    assert NameStart(t) == i;
    SameWord(s, t, i, n, word);
    assert IsWhole(t[i..], word);
  }

  lemma SameWord(s: string, t: string, i: nat, n: nat, word: string)
    requires i <= n <= |s| && n <= |t| && t[..n] == s[..n] && n == i + |word|
    requires word <= s[i..] && !StartsWord(t[n..])
    ensures IsWhole(t[i..], word)
  {
  }

  lemma TagKept(s: string, t: string)
    requires Inserts(s, t)
    ensures TagHere(s) <==> TagHere(t)
  {
    hide TagHere, TagEnd, NameStart;
    if TagHere(s) {
      TagText(s);
      InsertsKeeps(s, t, TagEnd(s));
      SameBoundary(s[TagEnd(s)..], t[TagEnd(s)..]);
      TagCopied(s, t);
    }
    if TagHere(t) {
      TagText(t);
      InsertsKeeps(s, t, TagEnd(t));
      SameBoundary(s[TagEnd(t)..], t[TagEnd(t)..]);
      TagCopied(t, s);
    }
  }

  lemma SameBoundary(s: string, t: string)
    requires Inserts(s, t)
    ensures StartsWord(s) <==> StartsWord(t)
  {
  }

  lemma TagStarts(s: string)
    requires TagHere(s)
    ensures s[0] == '{'
  {
  }

  /** Marks hold no tag. */
  lemma {:induction false} NoTagInMark(s: string, n: nat)
    requires n <= |s| && forall k :: 0 <= k < n ==> s[k] != '{'
    ensures HasUnsubscribeTag(s) <==> HasUnsubscribeTag(s[n..])
  {
    if n == 0 {
      assert s[0..] == s;
    } else {
      if TagHere(s) { TagStarts(s); }
      NoTagInMark(s[1..], n - 1);
      assert s[1..][n - 1..] == s[n..];
    }
  }

  lemma {:induction false} InsertsKeepsTags(s: string, t: string)
    requires Inserts(s, t)
    ensures HasUnsubscribeTag(s) <==> HasUnsubscribeTag(t)
  {
    hide TagHere;
    FirstKept(s, t);
    if s != "" {
      TagKept(s, t);
      if t[0] == s[0] && Inserts(s[1..], t[1..]) {
        InsertsKeepsTags(s[1..], t[1..]);
      } else {
        InsertsKeepsTags(s[1..], t[|MARK| + 1..]);
        SkipMarkedQuote(s, t);
      }
    }
  }

  lemma SkipMarkedQuote(s: string, t: string)
    requires MarkedQuote(s, t) && IsQuote(s[0])
    ensures HasUnsubscribeTag(t) <==> HasUnsubscribeTag(t[|MARK| + 1..])
    ensures HasUnsubscribeTag(s) <==> HasUnsubscribeTag(s[1..])
  {
    forall k | 0 <= k < |MARK| + 1
      ensures t[k] != '{'
    {
      assert t[k] == t[..|MARK| + 1][k] == (MARK + [s[0]])[k];
    }
    NoTagInMark(t, |MARK| + 1);
    NoTagInMark(s, 1);
  }

  /** Tracking the links of a body leaves it with an unsubscribe tag exactly when it had one. */
  lemma TrackKeepsUnsubscribe(s: string)
    ensures HasUnsubscribeTag(Track(s)) <==> HasUnsubscribeTag(s)
  {
    TrackOnlyInserts(true, s);
    InsertsKeepsTags(s, Track(s));
  }
}
