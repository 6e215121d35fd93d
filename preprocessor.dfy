/**
 * Review preprocessing: the text normaliser `clean_text` and the filter of
 * `load_daily_reviews` that keeps only reviews whose cleaned text is non-empty.
 *
 * The two regular-expression removals (markup tags, URLs) follow Python's
 * `re.sub` semantics: scan left to right, take the leftmost match, and for
 * the greedy `+` the longest run.  Character classes are the ASCII parts of
 * Python's `\w` and `\s`.
 */
module Preprocessor {
  import opened Wrappers
  import opened Seqs
  import opened Strings

  /** Calendar days are day numbers. */
  type Day = int

  /** A record of a day's raw review file (author and helpful count are not read by the core). */
  datatype RawReview = RawReview(date: Day, content: Option<string>, score: int, reviewId: string)

  datatype ProcessedReview = ProcessedReview(
    date: Day, originalContent: string, cleanedContent: string, score: int, reviewId: string)

  /** What opening and decoding a day's JSON file yields. */
  datatype DayFile = NotFound | Undecodable | Records(reviews: seq<RawReview>)

  /** Texts shorter than this after cleaning are discarded. */
  const MinLength := 10

  // ---------------------------------------------------------------- character classes

  predicate IsWordChar(c: char)
  {
    'a' <= c <= 'z' || 'A' <= c <= 'Z' || '0' <= c <= '9' || c == '_'
  }

  predicate IsUpper(c: char)
  {
    'A' <= c <= 'Z'
  }

  /** The characters that survive `[^\w\s.,!?-]` removal. */
  predicate IsKept(c: char)
  {
    IsWordChar(c) || IsSpace(c) || c in ".,!?-"
  }

  /**
   * The characters of the URL pattern's repeated group: letters, digits,
   * the range `$`..`_` (which also covers `@.&+*,` and `%XX` escapes) and `!`.
   */
  predicate IsUrlChar(c: char)
  {
    c == '!' || '$' <= c <= '_' || 'a' <= c <= 'z'
  }

  ghost predicate AllKept(s: string)
  {
    forall i :: 0 <= i < |s| ==> IsKept(s[i])
  }

  ghost predicate NoUpper(s: string)
  {
    forall i :: 0 <= i < |s| ==> !IsUpper(s[i])
  }

  // ---------------------------------------------------------------- the rewriting steps

  /** Length of the match of `<[^>]+>` at the start of `s`, or 0 when no match starts there. */
  function TagLength(s: string): (n: nat)
    ensures n <= |s|
    ensures n > 0 <==> |s| >= 3 && s[0] == '<' && s[1] != '>' && '>' in s[2..]
    ensures n > 0 ==> s[n - 1] == '>' && forall k :: 0 < k < n - 1 ==> s[k] != '>'
  {
    if |s| >= 2 && s[0] == '<' then
      var j := IndexFrom(s, '>', 1);
      assert '>' in s[2..] ==> j < |s| by {
        if '>' in s[2..] {
          var k :| 2 <= k < |s| && s[k] == '>';
        }
      }
      if 2 <= j < |s| then j + 1 else 0
    else 0
  }

  /** `re.sub(r'<[^>]+>', '', s)` */
  function StripTags(s: string): string
    decreases |s|
  {
    if s == [] then []
    else
      var n := TagLength(s);
      if n > 0 then StripTags(s[n..]) else [s[0]] + StripTags(s[1..])
  }

  /** Length of the leading run of URL characters. */
  function UrlRun(s: string): (n: nat)
    ensures n <= |s|
  {
    if s != [] && IsUrlChar(s[0]) then 1 + UrlRun(s[1..]) else 0
  }

  /** Length of the match of `http[s]?://(...)+` at the start of `s`, or 0. */
  function UrlLength(s: string): (n: nat)
    ensures n <= |s|
    ensures n > 0 ==> "http://" <= s || "https://" <= s
  {
    if "https://" <= s && UrlRun(s[8..]) > 0 then 8 + UrlRun(s[8..])
    else if "http://" <= s && UrlRun(s[7..]) > 0 then 7 + UrlRun(s[7..])
    else 0
  }

  /** The run is made of URL characters and stops at the first other character. */
  lemma {:induction false} UrlRunSpec(s: string)
    ensures forall k :: 0 <= k < UrlRun(s) ==> IsUrlChar(s[k])
    ensures UrlRun(s) < |s| ==> !IsUrlChar(s[UrlRun(s)])
    decreases |s|
  {
    if s != [] && IsUrlChar(s[0]) {
      UrlRunSpec(s[1..]);
      assert forall k :: 1 <= k < |s| ==> s[k] == s[1..][k - 1];
    }
  }

  /**
   * The URL match is the scheme `p` characters long followed by the longest
   * run of URL characters; there is none exactly when no scheme is followed
   * by a URL character.
   */
  lemma UrlLengthSpec(s: string)
    ensures var n := UrlLength(s);
      var p := if "https://" <= s then 8 else 7;
      && (n == 0 <==> !(("https://" <= s || "http://" <= s) && p < |s| && IsUrlChar(s[p])))
      && (n > 0 ==> p < n && (forall k :: p <= k < n ==> IsUrlChar(s[k])) && (n < |s| ==> !IsUrlChar(s[n])))
  {
    var p := if "https://" <= s then 8 else 7;
    if ("https://" <= s || "http://" <= s) && p <= |s| {
      assert "https://" <= s ==> !("http://" <= s) by {
        if "https://" <= s { assert s[4] == 's'; }
      }
      var t := s[p..];
      UrlRunSpec(t);
      assert forall k :: p <= k < |s| ==> s[k] == t[k - p];
    }
  }

  /** `re.sub(<URL pattern>, '', s)` */
  function StripUrls(s: string): string
    decreases |s|
  {
    if s == [] then []
    else
      var n := UrlLength(s);
      if n > 0 then StripUrls(s[n..]) else [s[0]] + StripUrls(s[1..])
  }

  /** `re.sub(r'\s+', ' ', s)` */
  function CollapseSpaces(s: string): string
    decreases |s|
  {
    if s == [] then []
    else if IsSpace(s[0]) then
      " " + CollapseSpaces(TrimStart(s[1..]))
    else [s[0]] + CollapseSpaces(s[1..])
  }

  /** `re.sub(r'[^\w\s.,!?-]', '', s)` */
  function KeepPermitted(s: string): (r: string)
    ensures AllKept(r)
  {
    if s == [] then [] else (if IsKept(s[0]) then [s[0]] else []) + KeepPermitted(s[1..])
  }

  /** What the removal makes of each character: itself when permitted, nothing otherwise. */
  function PermittedOutputs(s: string): (outs: seq<seq<char>>)
    ensures |outs| == |s|
  {
    seq(|s|, i requires 0 <= i < |s| => if IsKept(s[i]) then [s[i]] else [])
  }

  lemma PermittedOutputsCons(s: string)
    requires s != []
    ensures PermittedOutputs(s) == [if IsKept(s[0]) then [s[0]] else []] + PermittedOutputs(s[1..])
  {
    assert forall i :: 1 <= i < |s| ==> s[1..][i - 1] == s[i];
  }

  lemma {:induction false} KeepPermittedSelection(s: string) returns (idx: seq<int>)
    ensures Selects(KeepPermitted(s), PermittedOutputs(s), idx)
    decreases |s|
  {
    if s == [] {
      idx := [];
    } else {
      var rest := KeepPermittedSelection(s[1..]);
      var o: seq<char> := if IsKept(s[0]) then [s[0]] else [];
      SelectsCons(KeepPermitted(s[1..]), PermittedOutputs(s[1..]), rest, o);
      PermittedOutputsCons(s);
      idx := (if o != [] then [0] else []) + Shifted(rest);
    }
  }

  /** The removal keeps, in order, exactly the permitted characters. */
  lemma KeepPermittedSpec(s: string) returns (idx: seq<int>)
    ensures |idx| == |KeepPermitted(s)|
    ensures forall k :: 0 <= k < |idx| ==> 0 <= idx[k] < |s| && KeepPermitted(s)[k] == s[idx[k]]
    ensures forall k, l :: 0 <= k < l < |idx| ==> idx[k] < idx[l]
    ensures forall i :: 0 <= i < |s| ==> (IsKept(s[i]) <==> i in idx)
  {
    idx := KeepPermittedSelection(s);
    var r, outs := KeepPermitted(s), PermittedOutputs(s);
    forall k | 0 <= k < |idx| ensures 0 <= idx[k] < |s| && r[k] == s[idx[k]] {
      assert outs[idx[k]] == [r[k]];
    }
    forall i | 0 <= i < |s| ensures IsKept(s[i]) <==> i in idx {
      assert outs[i] != [] <==> i in idx;
    }
  }

  /** Length of the leading run of non-space characters. */
  function WordLength(s: string): (n: nat)
    ensures n <= |s|
    ensures forall k :: 0 <= k < n ==> !IsSpace(s[k])
    ensures n < |s| ==> IsSpace(s[n])
  {
    if s == [] || IsSpace(s[0]) then 0 else 1 + WordLength(s[1..])
  }

  ghost predicate IsToken(w: string)
  {
    w != [] && NoSpace(w)
  }

  /** `s.split()`: the maximal runs of non-space characters, in order. */
  function Words(s: string): (ws: seq<string>)
    ensures forall w :: w in ws ==> IsToken(w)
    ensures AllKept(s) ==> forall w :: w in ws ==> AllKept(w)
    decreases |s|
  {
    if s == [] then []
    else if IsSpace(s[0]) then Words(s[1..])
    else
      var n := WordLength(s);
      [s[..n]] + Words(s[n..])
  }

  lemma {:induction false} WordLengthPrefix(a: string, t: string)
    requires WordLength(a) < |a|
    ensures WordLength(a + t) == WordLength(a)
    decreases |a|
  {
    assert (a + t)[0] == a[0];
    if !IsSpace(a[0]) {
      assert (a + t)[1..] == a[1..] + t;
      WordLengthPrefix(a[1..], t);
    }
  }

  /** A whitespace character splits the text: the words before it, then the words after it. */
  lemma {:induction false} WordsAtSpace(a: string, c: char, b: string)
    requires IsSpace(c)
    ensures Words(a + [c] + b) == Words(a) + Words(b)
    decreases |a|
  {
    var s := a + [c] + b;
    if a == [] {
      assert s == [c] + b && s[1..] == b;
    } else if IsSpace(a[0]) {
      assert s[0] == a[0] && s[1..] == a[1..] + [c] + b;
      WordsAtSpace(a[1..], c, b);
    } else {
      assert s[0] == a[0];
      var m := WordLength(a);
      if m < |a| {
        WordLengthPrefix(a, [c] + b);
        assert s == a + ([c] + b);
        assert s[..m] == a[..m] && s[m..] == a[m..] + [c] + b;
        WordsAtSpace(a[m..], c, b);
      } else {
        WordLengthAfterToken(a, [c] + b);
        assert s == a + ([c] + b);
        assert s[..m] == a && s[m..] == [c] + b && ([c] + b)[1..] == b;
        assert a[..m] == a && a[m..] == [];
      }
    }
  }

  /** A text without whitespace is a single word. */
  lemma WordsOfToken(w: string)
    requires IsToken(w)
    ensures Words(w) == [w]
  {
    WordLengthAfterToken(w, "");
    assert w + "" == w;
  }

  /** `[word for word in words if len(word) > 1]` */
  function LongWords(ws: seq<string>): (r: seq<string>)
    ensures forall w :: w in r ==> w in ws && |w| > 1
    ensures (forall w :: w in ws ==> |w| > 1) ==> r == ws
  {
    if ws == [] then [] else (if |ws[0]| > 1 then [ws[0]] else []) + LongWords(ws[1..])
  }

  /** What the filter makes of each word: itself when longer than one character, nothing otherwise. */
  function LongOutputs(ws: seq<string>): (outs: seq<seq<string>>)
    ensures |outs| == |ws|
  {
    seq(|ws|, i requires 0 <= i < |ws| => if |ws[i]| > 1 then [ws[i]] else [])
  }

  lemma LongOutputsCons(ws: seq<string>)
    requires ws != []
    ensures LongOutputs(ws) == [if |ws[0]| > 1 then [ws[0]] else []] + LongOutputs(ws[1..])
  {
    assert forall i :: 1 <= i < |ws| ==> ws[1..][i - 1] == ws[i];
  }

  lemma {:induction false} LongWordsSelection(ws: seq<string>) returns (idx: seq<int>)
    ensures Selects(LongWords(ws), LongOutputs(ws), idx)
    decreases |ws|
  {
    if ws == [] {
      idx := [];
    } else {
      var rest := LongWordsSelection(ws[1..]);
      var o: seq<string> := if |ws[0]| > 1 then [ws[0]] else [];
      SelectsCons(LongWords(ws[1..]), LongOutputs(ws[1..]), rest, o);
      LongOutputsCons(ws);
      idx := (if o != [] then [0] else []) + Shifted(rest);
    }
  }

  /** The filter keeps, in order, exactly the words longer than one character. */
  lemma LongWordsSpec(ws: seq<string>) returns (idx: seq<int>)
    ensures |idx| == |LongWords(ws)|
    ensures forall k :: 0 <= k < |idx| ==> 0 <= idx[k] < |ws| && LongWords(ws)[k] == ws[idx[k]]
    ensures forall k, l :: 0 <= k < l < |idx| ==> idx[k] < idx[l]
    ensures forall i :: 0 <= i < |ws| ==> (|ws[i]| > 1 <==> i in idx)
  {
    idx := LongWordsSelection(ws);
    var r, outs := LongWords(ws), LongOutputs(ws);
    forall k | 0 <= k < |idx| ensures 0 <= idx[k] < |ws| && r[k] == ws[idx[k]] {
      assert outs[idx[k]] == [r[k]];
    }
    forall i | 0 <= i < |ws| ensures |ws[i]| > 1 <==> i in idx {
      assert outs[i] != [] <==> i in idx;
    }
  }

  /** Lower-casing maps capitals to small letters and leaves every other character alone. */
  function LowerChar(c: char): (r: char)
    ensures !IsUpper(r)
    ensures IsSpace(r) == IsSpace(c) && IsKept(r) == IsKept(c)
    ensures !IsUpper(c) ==> r == c
  {
    if IsUpper(c) then (c as int + 32) as char else c
  }

  /** `s.lower()` */
  function Lower(s: string): string
  {
    seq(|s|, i requires 0 <= i < |s| => LowerChar(s[i]))
  }

  /** Steps 3 to 6 of `clean_text`: every rewriting before the length check. */
  function Normalized(t: string): string
  {
    var noTags := StripTags(t);
    var noUrls := StripUrls(noTags);
    var spaced := CollapseSpaces(noUrls);
    var kept := KeepPermitted(spaced);
    var joined := Join(" ", LongWords(Words(kept)));
    Lower(Strip(joined))
  }

  /** `clean_text`: absent or empty text gives "", so does anything shorter than `MinLength` after cleaning. */
  function CleanText(text: Option<string>): (r: string)
    ensures r == "" || (text.Some? && text.value != "" && r == Normalized(text.value))
    ensures r != "" <==> text.Some? && text.value != "" && |Normalized(text.value)| >= MinLength
  {
    match text
    case None => ""
    case Some(t) =>
      if t == "" then ""
      else
        var normal := Normalized(t);
        if |normal| < MinLength then "" else normal
  }

  // ---------------------------------------------------------------- what a cleaned text looks like

  /** A word of a cleaned text: longer than one character, no spaces, only kept characters, no capitals. */
  ghost predicate IsCleanWord(w: string)
  {
    |w| > 1 && forall i :: 0 <= i < |w| ==> !IsSpace(w[i]) && IsKept(w[i]) && !IsUpper(w[i])
  }

  /** No space at either end, and every space is a plain ' ' followed by a non-space. */
  ghost predicate SingleSpaced(s: string)
  {
    && (s == [] || (!IsSpace(s[0]) && !IsSpace(s[|s| - 1])))
    && forall i :: 0 <= i < |s| && IsSpace(s[i]) ==> s[i] == ' ' && i + 1 < |s| && !IsSpace(s[i + 1])
  }

  /** The characters of `a + " " + b`, position by position. */
  lemma SpacedIndex(a: string, b: string)
    ensures var j := a + " " + b;
      |j| == |a| + 1 + |b| &&
      (forall i :: 0 <= i < |a| ==> j[i] == a[i]) && j[|a|] == ' ' &&
      (forall i :: 0 <= i < |b| ==> j[|a| + 1 + i] == b[i])
  {
  }

  lemma {:induction false} JoinTokensSingleSpaced(ws: seq<string>)
    requires forall w :: w in ws ==> IsToken(w)
    ensures SingleSpaced(Join(" ", ws))
    decreases |ws|
  {
    if |ws| == 1 {
      assert ws[0] in ws;
    } else if |ws| > 1 {
      assert ws[0] in ws && ws[1] in ws;
      JoinTokensSingleSpaced(ws[1..]);
      JoinNonEmpty(ws[1..]);
      assert Join(" ", ws) == ws[0] + " " + Join(" ", ws[1..]);
      SpacedSingleSpaced(ws[0], Join(" ", ws[1..]));
    }
  }

  /** A token, a space and a non-empty single-spaced text make a single-spaced text. */
  lemma SpacedSingleSpaced(w: string, rest: string)
    requires IsToken(w) && rest != [] && SingleSpaced(rest)
    ensures SingleSpaced(w + " " + rest)
  {
    var j := w + " " + rest;
    SpacedIndex(w, rest);
    assert j[|j| - 1] == rest[|rest| - 1];
    forall i | 0 <= i < |j| && IsSpace(j[i])
      ensures j[i] == ' ' && i + 1 < |j| && !IsSpace(j[i + 1])
    {
      if i == |w| {
        assert j[i + 1] == rest[0];
      } else if i > |w| {
        var k := i - |w| - 1;
        assert j[i] == rest[k];
        assert k + 1 < |rest| ==> j[i + 1] == rest[k + 1];
      }
    }
  }

  lemma JoinNonEmpty(ws: seq<string>)
    requires ws != [] && ws[0] != []
    ensures Join(" ", ws) != []
  {
  }

  lemma {:induction false} JoinCleanWordsCharset(ws: seq<string>)
    requires forall w :: w in ws ==> IsCleanWord(w)
    ensures AllKept(Join(" ", ws)) && NoUpper(Join(" ", ws))
    decreases |ws|
  {
    if |ws| == 1 {
      assert ws[0] in ws;
    } else if |ws| > 1 {
      assert ws[0] in ws;
      JoinCleanWordsCharset(ws[1..]);
      var w, rest := ws[0], Join(" ", ws[1..]);
      var j := Join(" ", ws);
      assert j == w + " " + rest;
      SpacedIndex(w, rest);
      forall i | 0 <= i < |j| ensures IsKept(j[i]) && !IsUpper(j[i]) {
        if i > |w| {
          assert j[i] == rest[i - |w| - 1];
        } else if i < |w| {
          assert j[i] == w[i];
        }
      }
    }
  }

  lemma {:induction false} WordLengthAfterToken(w: string, t: string)
    requires NoSpace(w)
    requires t == [] || IsSpace(t[0])
    ensures WordLength(w + t) == |w|
    decreases |w|
  {
    if w == [] {
      assert w + t == t;
    } else {
      assert (w + t)[0] == w[0];
      assert (w + t)[1..] == w[1..] + t;
      WordLengthAfterToken(w[1..], t);
    }
  }

  /** Splitting a token followed by a space (or nothing) yields the token first. */
  lemma WordsAfterToken(w: string, t: string)
    requires IsToken(w)
    requires t == [] || IsSpace(t[0])
    ensures Words(w + t) == [w] + Words(t)
  {
    var s := w + t;
    WordLengthAfterToken(w, t);
    assert s[0] == w[0];
    assert s[..|w|] == w && s[|w|..] == t;
  }

  /** `split()` undoes `' '.join` on tokens. */
  lemma {:induction false} WordsJoin(ws: seq<string>)
    requires forall w :: w in ws ==> IsToken(w)
    ensures Words(Join(" ", ws)) == ws
    decreases |ws|
  {
    if ws == [] {
    } else if |ws| == 1 {
      WordsAfterToken(ws[0], "");
      assert ws[0] + "" == ws[0];
    } else {
      var rest := Join(" ", ws[1..]);
      assert Join(" ", ws) == ws[0] + (" " + rest);
      WordsAfterToken(ws[0], " " + rest);
      assert (" " + rest)[1..] == rest;
      WordsJoin(ws[1..]);
      assert ws == [ws[0]] + ws[1..];
    }
  }

  function LowerAll(ws: seq<string>): seq<string>
  {
    seq(|ws|, i requires 0 <= i < |ws| => Lower(ws[i]))
  }

  lemma LowerAppend(a: string, b: string)
    ensures Lower(a + b) == Lower(a) + Lower(b)
  {
    assert forall i :: 0 <= i < |a + b| ==> Lower(a + b)[i] == (Lower(a) + Lower(b))[i];
  }

  lemma {:induction false} LowerJoin(ws: seq<string>)
    ensures Lower(Join(" ", ws)) == Join(" ", LowerAll(ws))
    decreases |ws|
  {
    if ws == [] {
    } else if |ws| == 1 {
    } else {
      LowerAppend(ws[0], " " + Join(" ", ws[1..]));
      LowerAppend(" ", Join(" ", ws[1..]));
      assert Lower(" ") == " ";
      LowerJoin(ws[1..]);
      assert LowerAll(ws)[1..] == LowerAll(ws[1..]);
      assert ws[0] + " " + Join(" ", ws[1..]) == ws[0] + (" " + Join(" ", ws[1..]));
    }
  }

  /** The words a text is cleaned into, before the length check. */
  ghost function CleanWords(t: string): seq<string>
  {
    LowerAll(LongWords(Words(KeepPermitted(CollapseSpaces(StripUrls(StripTags(t)))))))
  }

  /** Lower-casing and stripping a single-spaced join of tokens is joining their lower-cased forms. */
  lemma NormalizeTokens(ws: seq<string>)
    requires forall w :: w in ws ==> IsToken(w) && AllKept(w) && |w| > 1
    ensures Lower(Strip(Join(" ", ws))) == Join(" ", LowerAll(ws))
    ensures forall w :: w in LowerAll(ws) ==> IsCleanWord(w)
  {
    JoinTokensSingleSpaced(ws);
    assert Strip(Join(" ", ws)) == Join(" ", ws);
    LowerJoin(ws);
    forall w | w in LowerAll(ws) ensures IsCleanWord(w) {
      var i :| 0 <= i < |ws| && LowerAll(ws)[i] == w;
      assert ws[i] in ws;
      LowerClean(ws[i]);
    }
  }

  lemma LowerClean(w: string)
    requires IsToken(w) && AllKept(w) && |w| > 1
    ensures IsCleanWord(Lower(w))
  {
    forall k | 0 <= k < |w| ensures !IsSpace(Lower(w)[k]) && IsKept(Lower(w)[k]) && !IsUpper(Lower(w)[k]) {
      assert Lower(w)[k] == LowerChar(w[k]);
    }
  }

  /** Before the length check, cleaning yields clean words joined by single spaces. */
  lemma NormalizedJoinsCleanWords(t: string)
    ensures Normalized(t) == Join(" ", CleanWords(t))
    ensures forall w :: w in CleanWords(t) ==> IsCleanWord(w)
  {
    var kept := KeepPermitted(CollapseSpaces(StripUrls(StripTags(t))));
    var ws := LongWords(Words(kept));
    NormalizeTokens(ws);
  }

  /** A non-empty cleaned text, with the words it consists of. */
  lemma CleanTextShape(text: Option<string>) returns (ws: seq<string>)
    requires CleanText(text) != ""
    ensures CleanText(text) == Join(" ", ws)
    ensures forall w :: w in ws ==> IsCleanWord(w)
  {
    NormalizedJoinsCleanWords(text.value);
    ws := CleanWords(text.value);
  }

  // ---------------------------------------------------------------- properties of clean_text

  /** The result is either discarded ("") or at least `MinLength` characters long. */
  lemma CleanTextLength(text: Option<string>)
    ensures text == None || text == Some("") ==> CleanText(text) == ""
    ensures CleanText(text) == "" || |CleanText(text)| >= MinLength
  {
  }

  /** A non-empty result is its own words joined by single spaces, and every word has more than one character. */
  lemma CleanTextWords(text: Option<string>)
    ensures var r := CleanText(text);
      r != "" ==> r == Join(" ", Words(r)) && forall w :: w in Words(r) ==> |w| > 1
  {
    if CleanText(text) != "" {
      var ws := CleanTextShape(text);
      WordsJoin(ws);
    }
  }

  /** No whitespace at either end, and words are separated by exactly one ' '. */
  lemma CleanTextSpacing(text: Option<string>)
    ensures SingleSpaced(CleanText(text))
  {
    if CleanText(text) != "" {
      var ws := CleanTextShape(text);
      JoinTokensSingleSpaced(ws);
    }
  }

  lemma KeptExcludes(s: string)
    requires AllKept(s)
    ensures '<' !in s && '>' !in s && ':' !in s
  {
    assert !IsKept('<') && !IsKept('>') && !IsKept(':');
  }

  /** Only word characters, whitespace and `.,!?-` remain, none of them a capital; in particular no `<` or `>`. */
  lemma CleanTextCharset(text: Option<string>)
    ensures AllKept(CleanText(text)) && NoUpper(CleanText(text))
    ensures '<' !in CleanText(text) && '>' !in CleanText(text)
  {
    if CleanText(text) != "" {
      var ws := CleanTextShape(text);
      JoinCleanWordsCharset(ws);
      KeptExcludes(CleanText(text));
    }
  }

  // ---------------------------------------------------------------- idempotence

  lemma {:induction false} StripTagsKeeps(s: string)
    requires '<' !in s
    ensures StripTags(s) == s
    decreases |s|
  {
    if s != [] {
      assert '<' !in s[1..];
      StripTagsKeeps(s[1..]);
    }
  }

  lemma {:induction false} StripUrlsKeeps(s: string)
    requires ':' !in s
    ensures StripUrls(s) == s
    decreases |s|
  {
    if s != [] {
      assert |s| > 5 ==> s[4] != ':' && s[5] != ':';
      assert UrlLength(s) == 0;
      assert ':' !in s[1..];
      StripUrlsKeeps(s[1..]);
    }
  }

  /** Every whitespace character is a plain ' ' not followed by more whitespace. */
  ghost predicate PlainSpaced(s: string)
  {
    forall i :: 0 <= i < |s| && IsSpace(s[i]) ==> s[i] == ' ' && (i + 1 < |s| ==> !IsSpace(s[i + 1]))
  }

  lemma {:induction false} CollapseSpacesKeeps(s: string)
    requires PlainSpaced(s)
    ensures CollapseSpaces(s) == s
    decreases |s|
  {
    if s != [] {
      var tail := s[1..];
      assert PlainSpaced(tail) by {
        forall i | 0 <= i < |tail| && IsSpace(tail[i])
          ensures tail[i] == ' ' && (i + 1 < |tail| ==> !IsSpace(tail[i + 1]))
        {
          assert tail[i] == s[i + 1];
          assert i + 1 < |tail| ==> tail[i + 1] == s[i + 2];
        }
      }
      CollapseSpacesKeeps(tail);
      if IsSpace(s[0]) {
        assert s[0] == ' ';
        assert tail != [] ==> !IsSpace(tail[0]) by {
          if tail != [] { assert tail[0] == s[1]; }
        }
        assert TrimStart(s) == TrimStart(tail);
        assert TrimStart(tail) == tail;
        assert CollapseSpaces(s) == " " + tail;
      } else {
        assert CollapseSpaces(s) == [s[0]] + tail;
      }
      assert s == [s[0]] + tail;
    }
  }

  lemma {:induction false} KeepPermittedKeeps(s: string)
    requires AllKept(s)
    ensures KeepPermitted(s) == s
    decreases |s|
  {
    if s != [] {
      assert AllKept(s[1..]) by {
        forall i | 0 <= i < |s[1..]| ensures IsKept(s[1..][i]) { assert s[1..][i] == s[i + 1]; }
      }
      KeepPermittedKeeps(s[1..]);
      assert s == [s[0]] + s[1..];
    }
  }

  lemma LowerKeeps(s: string)
    requires NoUpper(s)
    ensures Lower(s) == s
  {
  }

  lemma CleanWordsAreTokens(ws: seq<string>)
    requires forall w :: w in ws ==> IsCleanWord(w)
    ensures forall w :: w in ws ==> IsToken(w) && |w| > 1
  {
    forall w | w in ws ensures IsToken(w) && |w| > 1 {
      assert IsCleanWord(w);
    }
  }

  /** Every rewriting step leaves a single-spaced join of clean words as it is. */
  lemma NormalizedFixesCleanJoin(ws: seq<string>)
    requires forall w :: w in ws ==> IsCleanWord(w)
    ensures Normalized(Join(" ", ws)) == Join(" ", ws)
  {
    var r := Join(" ", ws);
    CleanWordsAreTokens(ws);
    JoinTokensSingleSpaced(ws);
    JoinCleanWordsCharset(ws);
    KeptExcludes(r);
    StripTagsKeeps(r);
    StripUrlsKeeps(r);
    CollapseSpacesKeeps(r);
    KeepPermittedKeeps(r);
    WordsJoin(ws);
    assert LongWords(Words(r)) == ws;
    assert Strip(r) == r;
    LowerKeeps(r);
  }

  /** Clean words whose single-space join has at least `MinLength` characters come back from cleaning unchanged. */
  lemma CleanTextKeepsCleanJoin(ws: seq<string>)
    requires forall w :: w in ws ==> IsCleanWord(w)
    requires |Join(" ", ws)| >= MinLength
    ensures CleanText(Some(Join(" ", ws))) == Join(" ", ws)
  {
    NormalizedFixesCleanJoin(ws);
  }

  /** Cleaning an already cleaned text changes nothing. */
  lemma CleanTextIdempotent(text: Option<string>)
    ensures CleanText(Some(CleanText(text))) == CleanText(text)
  {
    var r := CleanText(text);
    if r != "" {
      var ws := CleanTextShape(text);
      NormalizedFixesCleanJoin(ws);
    }
  }

  // ---------------------------------------------------------------- loading a day

  /** `p` is the processed form of the raw review `r`, which `clean_text` did not discard. */
  ghost predicate ProcessedFrom(p: ProcessedReview, r: RawReview)
  {
    && CleanText(r.content) != ""
    && r.content == Some(p.originalContent)
    && p.cleanedContent == CleanText(r.content)
    && p.date == r.date && p.score == r.score && p.reviewId == r.reviewId
  }

  /** The processed form of one raw review, or nothing when its cleaned text is empty. */
  function Process(r: RawReview): (ps: seq<ProcessedReview>)
    ensures |ps| <= 1
    ensures |ps| == 1 <==> CleanText(r.content) != ""
    ensures |ps| == 1 ==> ProcessedFrom(ps[0], r)
  {
    var cleaned := CleanText(r.content);
    if cleaned == "" then []
    else [ProcessedReview(r.date, r.content.value, cleaned, r.score, r.reviewId)]
  }

  /** The reviews kept from `raws`, in file order. */
  function Preprocess(raws: seq<RawReview>): seq<ProcessedReview>
  {
    if raws == [] then [] else Preprocess(raws[..|raws| - 1]) + Process(raws[|raws| - 1])
  }

  /** What `load_daily_reviews` returns: no reviews when the file is missing or undecodable. */
  function Loaded(file: DayFile): seq<ProcessedReview>
  {
    match file
    case Records(raws) => Preprocess(raws)
    case _ => []
  }

  /** The output `Process` gives for each raw review. */
  function Outputs(raws: seq<RawReview>): (outs: seq<seq<ProcessedReview>>)
    ensures |outs| == |raws|
  {
    if raws == [] then [] else Outputs(raws[..|raws| - 1]) + [Process(raws[|raws| - 1])]
  }

  lemma {:induction false} OutputsAt(raws: seq<RawReview>, i: int)
    requires 0 <= i < |raws|
    ensures Outputs(raws)[i] == Process(raws[i])
    decreases |raws|
  {
    if i < |raws| - 1 {
      OutputsAt(raws[..|raws| - 1], i);
    }
  }

  /** Preprocessing collects, in order, the outputs that are not empty. */
  lemma {:induction false} PreprocessSelects(raws: seq<RawReview>) returns (idx: seq<int>)
    ensures Selects(Preprocess(raws), Outputs(raws), idx)
    decreases |raws|
  {
    if raws == [] {
      idx := [];
    } else {
      var n := |raws| - 1;
      var before := PreprocessSelects(raws[..n]);
      var o := Process(raws[n]);
      SelectsSnoc(Preprocess(raws[..n]), Outputs(raws[..n]), before, o);
      idx := before + (if o != [] then [n] else []);
    }
  }

  /**
   * The kept reviews are, in file order, exactly those whose cleaned text is
   * non-empty, each carrying its date, score, id and original content.
   */
  lemma PreprocessKeeps(raws: seq<RawReview>) returns (idx: seq<int>)
    ensures |idx| == |Preprocess(raws)| <= |raws|
    ensures forall k :: 0 <= k < |idx| ==> 0 <= idx[k] < |raws| && ProcessedFrom(Preprocess(raws)[k], raws[idx[k]])
    ensures forall k, l :: 0 <= k < l < |idx| ==> idx[k] < idx[l]
    ensures forall i :: 0 <= i < |raws| ==> (CleanText(raws[i].content) != "" <==> i in idx)
  {
    idx := PreprocessSelects(raws);
    var ps, outs := Preprocess(raws), Outputs(raws);
    forall k | 0 <= k < |idx| ensures 0 <= idx[k] < |raws| && ProcessedFrom(ps[k], raws[idx[k]]) {
      OutputsAt(raws, idx[k]);
      assert outs[idx[k]] == [ps[k]];
    }
    forall i | 0 <= i < |raws| ensures CleanText(raws[i].content) != "" <==> i in idx {
      OutputsAt(raws, i);
      assert outs[i] != [] <==> i in idx;
    }
    IncreasingBounded(idx, |raws|);
  }

  /** Every kept review's cleaned text is the non-empty cleaning of its original content. */
  lemma PreprocessCleaned(raws: seq<RawReview>)
    ensures forall p :: p in Preprocess(raws) ==> p.cleanedContent == CleanText(Some(p.originalContent)) != ""
  {
    var idx := PreprocessKeeps(raws);
    var ps := Preprocess(raws);
    forall p | p in ps ensures p.cleanedContent == CleanText(Some(p.originalContent)) != "" {
      var k :| 0 <= k < |ps| && ps[k] == p;
      assert ProcessedFrom(ps[k], raws[idx[k]]);
    }
  }

  /** One more raw review adds its processed form, if any. */
  lemma PreprocessStep(raws: seq<RawReview>, i: nat)
    requires i < |raws|
    ensures Preprocess(raws[..i + 1]) == Preprocess(raws[..i]) + Process(raws[i])
  {
    assert raws[..i + 1][..i] == raws[..i];
  }

  /** `load_daily_reviews`: keep each review whose cleaned text is non-empty, in file order. */
  method LoadDailyReviews(file: DayFile) returns (processed: seq<ProcessedReview>)
    ensures processed == Loaded(file)
  {
    if !file.Records? {
      return [];
    }
    var raws := file.reviews;
    processed := [];
    for i := 0 to |raws|
      invariant processed == Preprocess(raws[..i])
    {
      PreprocessStep(raws, i);
      var review := raws[i];
      var cleaned := CleanText(review.content);
      if cleaned == "" {
        continue;
      }
      processed := processed + [ProcessedReview(review.date, review.content.value, cleaned, review.score, review.reviewId)];
    }
    assert raws[..|raws|] == raws;
  }
}
