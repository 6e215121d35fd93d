/**
 * The Python string operations the pipeline relies on: `strip`, `split`, `join`,
 * `startswith`/`endswith`, `find`/`rfind` and decimal formatting of integers.
 * Whitespace is Python's `str.isspace()` on the ASCII range.
 */
module Strings {
  import opened Seqs

  /** Space, tab, newline, vertical tab, form feed, carriage return and the separators 0x1C-0x1F. */
  predicate IsSpace(c: char)
  {
    9 <= c as int <= 13 || 28 <= c as int <= 32
  }

  ghost predicate NoSpace(s: string)
  {
    forall i :: 0 <= i < |s| ==> !IsSpace(s[i])
  }

  function TrimStart(s: string): (r: string)
    ensures |r| <= |s|
    ensures r == [] || !IsSpace(r[0])
    decreases |s|
  {
    if s != [] && IsSpace(s[0]) then TrimStart(s[1..]) else s
  }

  function TrimEnd(s: string): (r: string)
    ensures |r| <= |s|
    ensures r == [] || !IsSpace(r[|r| - 1])
    decreases |s|
  {
    if s != [] && IsSpace(s[|s| - 1]) then TrimEnd(s[..|s| - 1]) else s
  }

  /** `lstrip` keeps a suffix and removes only whitespace. */
  lemma {:induction false} TrimStartSpec(s: string)
    ensures TrimStart(s) == s[|s| - |TrimStart(s)|..]
    ensures forall i :: 0 <= i < |s| - |TrimStart(s)| ==> IsSpace(s[i])
    decreases |s|
  {
    if s != [] && IsSpace(s[0]) {
      TrimStartSpec(s[1..]);
      assert s[1..][|s| - 1 - |TrimStart(s[1..])|..] == s[|s| - |TrimStart(s)|..];
      assert forall i :: 1 <= i < |s| ==> s[i] == s[1..][i - 1];
    }
  }

  /** `rstrip` keeps a prefix and removes only whitespace. */
  lemma {:induction false} TrimEndSpec(s: string)
    ensures TrimEnd(s) == s[..|TrimEnd(s)|]
    ensures forall i :: |TrimEnd(s)| <= i < |s| ==> IsSpace(s[i])
    decreases |s|
  {
    if s != [] && IsSpace(s[|s| - 1]) {
      TrimEndSpec(s[..|s| - 1]);
      assert s[..|s| - 1][..|TrimEnd(s)|] == s[..|TrimEnd(s)|];
      assert forall i :: 0 <= i < |s| - 1 ==> s[i] == s[..|s| - 1][i];
    }
  }

  /** `s.strip()`: the text from the first to the last non-space character. */
  function Strip(s: string): (r: string)
    ensures r == [] || (!IsSpace(r[0]) && !IsSpace(r[|r| - 1]))
    ensures (s == [] || (!IsSpace(s[0]) && !IsSpace(s[|s| - 1]))) ==> r == s
  {
    var t := TrimStart(s);
    var r := TrimEnd(t);
    TrimEndSpec(t);
    r
  }

  /** `strip` keeps the infix `s[a..a + |r|]` and removes only whitespace around it. */
  lemma StripSpec(s: string) returns (a: nat)
    ensures var r := Strip(s);
      && a + |r| <= |s| && r == s[a..a + |r|]
      && (forall i :: 0 <= i < a ==> IsSpace(s[i]))
      && (forall i :: a + |r| <= i < |s| ==> IsSpace(s[i]))
  {
    var t := TrimStart(s);
    a := |s| - |t|;
    var r := TrimEnd(t);
    TrimStartSpec(s);
    TrimEndSpec(t);
    assert r == s[a..a + |r|] by {
      assert t == s[a..] && r == t[..|r|];
    }
    SpacesShift(s, a, |r|);
  }

  lemma SpacesShift(s: string, a: nat, n: nat)
    requires a + n <= |s|
    requires forall i :: n <= i < |s[a..]| ==> IsSpace(s[a..][i])
    ensures forall i :: a + n <= i < |s| ==> IsSpace(s[i])
  {
    forall i | a + n <= i < |s| ensures IsSpace(s[i]) {
      assert s[i] == s[a..][i - a];
    }
  }

  /** Surrounding a text with one more space on each side does not change what `strip` keeps. */
  lemma StripPadded(b: string, c: char, d: char)
    requires IsSpace(c) && IsSpace(d)
    ensures Strip([c] + b + [d]) == Strip(b)
  {
    var s := [c] + b + [d];
    assert s[1..] == b + [d];
    assert TrimStart(s) == TrimStart(b + [d]);
    TrimStartSnoc(b, d);
    var t := TrimStart(b);
    if t == [] {
      assert TrimStart(b + [d]) == [] || TrimStart(b + [d]) == [d];
      assert TrimEnd([d]) == TrimEnd([]);
    } else {
      assert TrimStart(b + [d]) == t + [d];
      assert (t + [d])[..|t + [d]| - 1] == t;
    }
  }

  lemma {:induction false} TrimStartSnoc(b: string, d: char)
    requires IsSpace(d)
    ensures TrimStart(b + [d]) == if TrimStart(b) == [] then [] else TrimStart(b) + [d]
    decreases |b|
  {
    if b == [] {
      assert [d][1..] == [];
      assert TrimStart([d]) == TrimStart([]);
      assert b + [d] == [d];
    } else if IsSpace(b[0]) {
      assert (b + [d])[0] == b[0];
      assert (b + [d])[1..] == b[1..] + [d];
      assert TrimStart(b + [d]) == TrimStart(b[1..] + [d]);
      assert TrimStart(b) == TrimStart(b[1..]);
      TrimStartSnoc(b[1..], d);
    } else {
      assert (b + [d])[0] == b[0];
      assert TrimStart(b + [d]) == b + [d];
      assert TrimStart(b) == b;
    }
  }

  /** `sep.join(parts)`. */
  function Join(sep: string, parts: seq<string>): string
  {
    if parts == [] then ""
    else if |parts| == 1 then parts[0]
    else parts[0] + sep + Join(sep, parts[1..])
  }

  /** `s.split(c)` for a one-character separator `c`: always at least one part, none containing `c`. */
  function SplitOn(c: char, s: string): (r: seq<string>)
    ensures |r| >= 1
    ensures forall p :: p in r ==> c !in p
  {
    if s == [] then [""]
    else
      var rest := SplitOn(c, s[1..]);
      if s[0] == c then [""] + rest
      else [[s[0]] + rest[0]] + rest[1..]
  }

  lemma {:induction false} SplitOnPrefix(c: char, p: string, t: string)
    requires c !in p
    ensures SplitOn(c, p + t) == [p + SplitOn(c, t)[0]] + SplitOn(c, t)[1..]
    decreases |p|
  {
    if p != [] {
      assert (p + t)[1..] == p[1..] + t;
      SplitOnPrefix(c, p[1..], t);
      assert [p[0]] + (p[1..] + SplitOn(c, t)[0]) == p + SplitOn(c, t)[0];
    } else {
      assert p + t == t;
      var r := SplitOn(c, t);
      assert p == [];
      assert p + r[0] == r[0];
      assert r == [r[0]] + r[1..];
    }
  }

  /** Splitting at `c` undoes joining with `c`, as long as no part contains `c`. */
  lemma {:induction false} SplitJoin(c: char, parts: seq<string>)
    requires parts != []
    requires forall p :: p in parts ==> c !in p
    ensures SplitOn(c, Join([c], parts)) == parts
    decreases |parts|
  {
    if |parts| == 1 {
      SplitOnPrefix(c, parts[0], "");
      assert parts[0] + "" == parts[0];
    } else {
      var rest := Join([c], parts[1..]);
      assert Join([c], parts) == parts[0] + ([c] + rest);
      SplitOnPrefix(c, parts[0], [c] + rest);
      assert ([c] + rest)[1..] == rest;
      SplitJoin(c, parts[1..]);
      assert parts[0] + "" == parts[0];
      assert parts == [parts[0]] + parts[1..];
    }
  }

  /** `s.startswith(p)` is `p <= s`; this is `s.endswith(p)`. */
  predicate EndsWith(s: string, p: string)
  {
    |p| <= |s| && s[|s| - |p|..] == p
  }

  /** `s.find(c, from)`, returning `|s|` instead of -1 when there is no `c` at or after `from`. */
  function IndexFrom(s: string, c: char, from: nat): (j: nat)
    requires from <= |s|
    ensures from <= j <= |s|
    ensures j < |s| ==> s[j] == c
    ensures forall k :: from <= k < j ==> s[k] != c
    decreases |s| - from
  {
    if from == |s| then |s| else if s[from] == c then from else IndexFrom(s, c, from + 1)
  }

  /** `s.rfind(c)`: the last index holding `c`, or -1. */
  function LastIndexOf(s: string, c: char): (j: int)
    ensures -1 <= j < |s|
    ensures j >= 0 ==> s[j] == c
    ensures forall k :: j < k < |s| ==> s[k] != c
  {
    if s == [] then -1
    else if s[|s| - 1] == c then |s| - 1
    else LastIndexOf(s[..|s| - 1], c)
  }

  function DigitChar(d: nat): (c: char)
    requires d < 10
    ensures '0' <= c <= '9'
  {
    "0123456789"[d]
  }

  /** `str(n)` for a natural number: its decimal digits. */
  function NatToString(n: nat): (r: string)
    ensures |r| >= 1
    ensures forall i :: 0 <= i < |r| ==> '0' <= r[i] <= '9'
  {
    if n < 10 then [DigitChar(n)] else NatToString(n / 10) + [DigitChar(n % 10)]
  }
}
