/** String operations the client code uses from JavaScript's String API:
    lower-casing, `trim`, `includes`, `split` on one character, the `||`
    fallback on strings, and decimal rendering of integers. Strings are
    sequences of characters; case mapping is the ASCII subset. */
module Text {
  import opened Wrappers

  /** JavaScript `toLowerCase` on the ASCII letters. */
  function LowerChar(c: char): char {
    if 'A' <= c <= 'Z' then (c as int + 32) as char else c
  }

  /** JavaScript `toUpperCase` on the ASCII letters. */
  function UpperChar(c: char): char {
    if 'a' <= c <= 'z' then (c as int - 32) as char else c
  }

  function ToLower(s: string): (r: string)
    ensures |r| == |s|
    ensures forall i :: 0 <= i < |s| ==> r[i] == LowerChar(s[i])
  {
    seq(|s|, i requires 0 <= i < |s| => LowerChar(s[i]))
  }

  /** The characters JavaScript's `trim` removes and `\s` matches: the
      white-space and line-terminator code points of ECMAScript. */
  predicate IsWhitespace(c: char) {
    var n := c as int;
    n == 0x09 || n == 0x0A || n == 0x0B || n == 0x0C || n == 0x0D || n == 0x20
    || n == 0xA0 || n == 0x1680 || (0x2000 <= n <= 0x200A) || n == 0x2028
    || n == 0x2029 || n == 0x202F || n == 0x205F || n == 0x3000 || n == 0xFEFF
  }

  predicate IsBlank(s: string) {
    forall i :: 0 <= i < |s| ==> IsWhitespace(s[i])
  }

  function TrimStart(s: string): (r: string)
    ensures |r| <= |s| && r == s[|s| - |r|..]
    ensures r == [] || !IsWhitespace(r[0])
    ensures IsBlank(s[..|s| - |r|])
  {
    if |s| > 0 && IsWhitespace(s[0]) then
      var r := TrimStart(s[1..]);
      assert s[1..][..|s[1..]| - |r|] == s[1..|s| - |r|];
      r
    else s
  }

  function TrimEnd(s: string): (r: string)
    ensures |r| <= |s| && r == s[..|r|]
    ensures r == [] || !IsWhitespace(r[|r| - 1])
    ensures IsBlank(s[|r|..])
  {
    if |s| > 0 && IsWhitespace(s[|s| - 1]) then
      var r := TrimEnd(s[..|s| - 1]);
      assert s[..|s| - 1][|r|..] + [s[|s| - 1]] == s[|r|..];
      r
    else s
  }

  /** JavaScript `trim`: white space removed from both ends. */
  function Trim(s: string): string {
    TrimEnd(TrimStart(s))
  }

  /** `!s.trim()` holds exactly for the strings made only of white space. */
  lemma TrimEmptyIffBlank(s: string)
    ensures Trim(s) == "" <==> IsBlank(s)
  {
    var t := TrimStart(s);
    if Trim(s) == "" {
      assert t == [];
      assert s[..|s|] == s;
    }
  }

  /** A trimmed string neither starts nor ends with white space. */
  lemma TrimHasNoOuterWhitespace(s: string)
    ensures var r := Trim(s); r == [] || (!IsWhitespace(r[0]) && !IsWhitespace(r[|r| - 1]))
  {
    var t := TrimStart(s);
    var r := TrimEnd(t);
    if r != [] {
      assert r[0] == t[0];
    }
  }

  /** Trimming the start of a blank run followed by a non-blank start leaves
      exactly what follows the run. */
  lemma {:induction false} TrimStartAfterRun(ws: string, rest: string)
    requires IsBlank(ws)
    requires rest == [] || !IsWhitespace(rest[0])
    ensures TrimStart(ws + rest) == rest
    decreases |ws|
  {
    if ws == [] {
      assert ws + rest == rest;
    } else {
      assert (ws + rest)[1..] == ws[1..] + rest;
      TrimStartAfterRun(ws[1..], rest);
    }
  }

  predicate HasNoWhitespace(s: string) {
    forall i :: 0 <= i < |s| ==> !IsWhitespace(s[i])
  }

  /** JavaScript `s.split(/\s+/)`: the pieces between maximal runs of white
      space. Leading or trailing white space yields an empty first or last
      piece. */
  function SplitWs(s: string): (r: seq<string>)
    ensures |r| >= 1
    ensures forall i :: 0 <= i < |r| ==> HasNoWhitespace(r[i])
    decreases |s|
  {
    if s == [] then [""]
    else if IsWhitespace(s[0]) then
      var t := TrimStart(s);
      assert |t| < |s|;
      [""] + SplitWs(t)
    else
      var rest := SplitWs(s[1..]);
      [[s[0]] + rest[0]] + rest[1..]
  }

  /** A word without white space, a run of white space and a remainder that
      does not start with white space split into the word and the pieces of
      the remainder. */
  lemma {:induction false} SplitWsAfterWord(w: string, ws: string, rest: string)
    requires HasNoWhitespace(w)
    requires ws != [] && IsBlank(ws)
    requires rest == [] || !IsWhitespace(rest[0])
    ensures SplitWs(w + ws + rest) == [w] + SplitWs(rest)
    decreases |w|
  {
    var s := w + ws + rest;
    if w == [] {
      assert s == ws + rest;
      assert IsWhitespace(s[0]);
      TrimStartAfterRun(ws, rest);
      assert SplitWs(s) == [""] + SplitWs(TrimStart(s));
    } else {
      assert s[0] == w[0] && !IsWhitespace(s[0]);
      assert s[1..] == w[1..] + ws + rest;
      SplitWsAfterWord(w[1..], ws, rest);
      var tail := SplitWs(s[1..]);
      assert tail == [w[1..]] + SplitWs(rest);
      assert SplitWs(s) == [[s[0]] + tail[0]] + tail[1..];
      assert [w[0]] + w[1..] == w;
    }
  }

  /** Words without white space joined by single spaces split back into the
      same words, so their count is the word count. */
  lemma {:induction false} SplitWsJoin(words: seq<string>)
    requires |words| >= 1
    requires forall i :: 0 <= i < |words| ==> words[i] != [] && HasNoWhitespace(words[i])
    ensures SplitWs(Join(words, ' ')) == words
    decreases |words|
  {
    if |words| == 1 {
      SplitWsWord(words[0]);
    } else {
      var rest := Join(words[1..], ' ');
      SplitWsJoin(words[1..]);
      JoinStartsWithFirst(words[1..], ' ');
      assert Join(words, ' ') == words[0] + [' '] + rest;
      SplitWsAfterWord(words[0], [' '], rest);
      assert [words[0]] + words[1..] == words;
    }
  }

  /** A word without white space is a single piece. */
  lemma {:induction false} SplitWsWord(w: string)
    requires HasNoWhitespace(w)
    ensures SplitWs(w) == [w]
    decreases |w|
  {
    if w != [] {
      SplitWsWord(w[1..]);
      assert [w[0]] + w[1..] == w;
    }
  }

  lemma {:induction false} JoinStartsWithFirst(parts: seq<string>, d: char)
    requires |parts| >= 1 && parts[0] != []
    ensures Join(parts, d) != [] && Join(parts, d)[0] == parts[0][0]
  {
  }

  /** JavaScript `a || b` on a string that may be absent: the fallback is
      used when the value is absent or empty. */
  function OrElse(o: Option<string>, fallback: string): (r: string)
    ensures r == fallback || (o.Some? && r == o.value && r != "")
    ensures o.Some? && o.value != "" ==> r == o.value
  {
    if o.Some? && o.value != "" then o.value else fallback
  }

  /** JavaScript `s.includes(sub)`. */
  predicate Contains(s: string, sub: string)
    decreases |s|
  {
    sub <= s || (|s| > 0 && Contains(s[1..], sub))
  }

  /** `sub` occurs in `s` starting at index `i`. */
  predicate OccursAt(s: string, sub: string, i: int) {
    0 <= i && i + |sub| <= |s| && s[i..i + |sub|] == sub
  }

  lemma {:induction false} ContainsAt(s: string, sub: string)
    ensures Contains(s, sub) <==> exists i :: OccursAt(s, sub, i)
    decreases |s|
  {
    if sub <= s {
      assert OccursAt(s, sub, 0);
    } else if |s| > 0 {
      ContainsAt(s[1..], sub);
      if Contains(s[1..], sub) {
        var i :| OccursAt(s[1..], sub, i);
        assert s[1..][i..i + |sub|] == s[i + 1..i + 1 + |sub|];
        assert OccursAt(s, sub, i + 1);
      }
      if exists i :: OccursAt(s, sub, i) {
        var i :| OccursAt(s, sub, i);
        if i != 0 {
          assert s[1..][i - 1..i - 1 + |sub|] == s[i..i + |sub|];
          assert OccursAt(s[1..], sub, i - 1);
        }
      }
    }
  }

  lemma ToLowerIdempotent(s: string)
    ensures ToLower(ToLower(s)) == ToLower(s)
  {
    assert forall i :: 0 <= i < |s| ==> ToLower(ToLower(s))[i] == ToLower(s)[i];
  }

  /** Lower-casing both sides keeps an occurrence. */
  lemma LowerKeepsOccurrence(s: string, sub: string)
    ensures Contains(s, sub) ==> Contains(ToLower(s), ToLower(sub))
  {
    if Contains(s, sub) {
      ContainsAt(s, sub);
      var i :| OccursAt(s, sub, i);
      forall k | 0 <= k < |sub| ensures ToLower(s)[i..i + |sub|][k] == ToLower(sub)[k] {
        assert s[i + k] == s[i..i + |sub|][k];
      }
      assert ToLower(s)[i..i + |sub|] == ToLower(sub);
      assert OccursAt(ToLower(s), ToLower(sub), i);
      ContainsAt(ToLower(s), ToLower(sub));
    }
  }

  /** A string placed between two others occurs right after the first. */
  lemma OccursBetween(p: string, x: string, r: string)
    ensures OccursAt(p + x + r, x, |p|)
    ensures Contains(p + x + r, x)
  {
    assert (p + x + r)[|p|..|p| + |x|] == x;
    assert OccursAt(p + x + r, x, |p|);
    ContainsAt(p + x + r, x);
  }

  /** JavaScript `s.split(d)` for a one-character separator. */
  function Split(s: string, d: char): (parts: seq<string>)
    ensures |parts| >= 1
    ensures forall i :: 0 <= i < |parts| ==> d !in parts[i]
    decreases |s|
  {
    if s == [] then [""]
    else
      var rest := Split(s[1..], d);
      if s[0] == d then [""] + rest
      else [[s[0]] + rest[0]] + rest[1..]
  }

  /** The inverse of `Split`: the parts glued back with the separator. */
  function Join(parts: seq<string>, d: char): string
    requires |parts| >= 1
  {
    if |parts| == 1 then parts[0] else parts[0] + [d] + Join(parts[1..], d)
  }

  lemma {:induction false} JoinSplit(s: string, d: char)
    ensures Join(Split(s, d), d) == s
    decreases |s|
  {
    if s != [] {
      JoinSplit(s[1..], d);
      var rest := Split(s[1..], d);
      if s[0] != d {
        if |rest| == 1 {
          assert Join(rest, d) == rest[0];
        } else {
          assert Join(rest, d) == rest[0] + [d] + Join(rest[1..], d);
        }
      }
    }
  }

  /** Splitting a separator-free head followed by the separator yields the head
      as the first part. */
  lemma {:induction false} SplitAfterHead(h: string, d: char, rest: string)
    requires d !in h
    ensures Split(h + [d] + rest, d) == [h] + Split(rest, d)
    decreases |h|
  {
    if h == [] {
      assert h + [d] + rest == [d] + rest;
      assert ([d] + rest)[1..] == rest;
    } else {
      SplitAfterHead(h[1..], d, rest);
      assert (h + [d] + rest)[1..] == h[1..] + [d] + rest;
      assert [h[0]] + h[1..] == h;
    }
  }

  /** A string without the separator splits into itself. */
  lemma {:induction false} SplitWhole(s: string, d: char)
    requires d !in s
    ensures Split(s, d) == [s]
    decreases |s|
  {
    if s != [] {
      SplitWhole(s[1..], d);
      assert [s[0]] + s[1..] == s;
    }
  }

  lemma {:induction false} SplitJoin(parts: seq<string>, d: char)
    requires |parts| >= 1
    requires forall i :: 0 <= i < |parts| ==> d !in parts[i]
    ensures Split(Join(parts, d), d) == parts
    decreases |parts|
  {
    if |parts| == 1 {
      SplitWhole(parts[0], d);
    } else {
      SplitJoin(parts[1..], d);
      assert parts[0] + [d] + Join(parts[1..], d) == Join(parts, d);
      SplitAfterHead(parts[0], d, Join(parts[1..], d));
      assert [parts[0]] + parts[1..] == parts;
    }
  }

  function DigitChar(n: nat): char
    requires n < 10
  {
    "0123456789"[n]
  }

  /** JavaScript `String(n)` / template interpolation of an integer. */
  function NatToString(n: nat): (r: string)
    ensures |r| >= 1
    ensures forall i :: 0 <= i < |r| ==> '0' <= r[i] <= '9'
  {
    if n < 10 then [DigitChar(n)] else NatToString(n / 10) + [DigitChar(n % 10)]
  }

  function IntToString(n: int): (r: string)
    ensures |r| >= 1
    ensures (r[0] == '-') <==> n < 0
  {
    if n < 0 then "-" + NatToString(-n) else NatToString(n)
  }
}
