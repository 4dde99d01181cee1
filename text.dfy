/** The few Python `str` operations the service relies on: `strip()`,
    `lower()`, substring `in`, `any(...)` over a keyword list and
    `"\n".join(...)`, together with `split` as the inverse of `join`. */
module Text {

  /** Python's `str.isspace()` for one character: the characters `str.strip()`
      with no argument removes. */
  predicate IsSpace(c: char): (b: bool)
    ensures 0x09 <= c as int <= 0x0D || c == ' ' ==> b
    ensures 0x21 <= c as int <= 0x7E ==> !b
    ensures b ==> c as int <= 0x20 || 0x85 <= c as int <= 0x3000
  {
    var n := c as int;
    || 0x09 <= n <= 0x0D
    || 0x1C <= n <= 0x20
    || n == 0x85 || n == 0xA0 || n == 0x1680
    || 0x2000 <= n <= 0x200A
    || n == 0x2028 || n == 0x2029 || n == 0x202F || n == 0x205F || n == 0x3000
  }

  predicate AllSpace(s: string)
  {
    forall k :: 0 <= k < |s| ==> IsSpace(s[k])
  }

  /** No whitespace at either end (vacuously true of the empty string). */
  predicate Trimmed(s: string)
  {
    s == [] || (!IsSpace(s[0]) && !IsSpace(s[|s| - 1]))
  }

  /** `s.lstrip()`: a suffix of `s` that does not start with whitespace. */
  function TrimStart(s: string): (r: string)
    ensures |r| <= |s| && r == s[|s| - |r|..]
    ensures r == [] || !IsSpace(r[0])
  {
    if |s| > 0 && IsSpace(s[0]) then TrimStart(s[1..]) else s
  }

  /** `s.rstrip()`: a prefix of `s` that does not end with whitespace. */
  function TrimEnd(s: string): (r: string)
    ensures |r| <= |s| && r == s[..|r|]
    ensures r == [] || !IsSpace(r[|r| - 1])
  {
    if |s| > 0 && IsSpace(s[|s| - 1]) then TrimEnd(s[..|s| - 1]) else s
  }

  /** `lstrip()` removes only whitespace, and removes everything exactly
      when everything is whitespace. */
  lemma {:induction false} TrimStartDropsSpaces(s: string)
    ensures forall k | 0 <= k < |s| - |TrimStart(s)| :: IsSpace(s[k])
    ensures TrimStart(s) == [] <==> AllSpace(s)
  {
    if |s| > 0 && IsSpace(s[0]) {
      var tail := s[1..];
      var r := TrimStart(tail);
      assert TrimStart(s) == r;
      TrimStartDropsSpaces(tail);
      forall k | 1 <= k < |s| - |r| ensures IsSpace(s[k]) {
        assert s[k] == tail[k - 1];
      }
      assert s == [s[0]] + tail;
      AllSpaceCons(s[0], tail);
    }
  }

  lemma AllSpaceCons(c: char, t: string)
    requires IsSpace(c)
    ensures AllSpace([c] + t) <==> AllSpace(t)
  {
    if AllSpace([c] + t) {
      forall k | 0 <= k < |t| ensures IsSpace(t[k]) {
        assert t[k] == ([c] + t)[k + 1];
      }
    }
  }

  /** `rstrip()` removes only whitespace, and removes everything exactly
      when everything is whitespace. */
  lemma {:induction false} TrimEndDropsSpaces(s: string)
    ensures AllSpace(s[|TrimEnd(s)|..])
    ensures TrimEnd(s) == [] <==> AllSpace(s)
  {
    if |s| > 0 && IsSpace(s[|s| - 1]) {
      var init := s[..|s| - 1];
      TrimEndDropsSpaces(init);
      var n := |TrimEnd(s)|;
      forall k | n <= k < |s| ensures IsSpace(s[k]) {
        if k < |s| - 1 { assert s[k] == init[n..][k - n]; }
      }
      assert s[n..] == s[n..|s|];
      if AllSpace(init) {
        forall k | 0 <= k < |s| ensures IsSpace(s[k]) {
          if k < |s| - 1 { assert s[k] == init[k]; }
        }
      }
      if AllSpace(s) {
        forall k | 0 <= k < |init| ensures IsSpace(init[k]) {
          assert init[k] == s[k];
        }
      }
    }
  }

  /** `s.strip()`. */
  function Strip(s: string): (r: string)
    ensures |r| <= |s|
    ensures Trimmed(r)
    ensures r == [] <==> AllSpace(s)
  {
    var t := TrimStart(s);
    TrimStartDropsSpaces(s);
    TrimEndDropsSpaces(t);
    TrimEnd(t)
  }

  lemma {:induction false} TrimStartPadded(pre: string, rest: string)
    requires AllSpace(pre)
    requires rest == [] || !IsSpace(rest[0])
    ensures TrimStart(pre + rest) == rest
  {
    if pre != [] {
      assert (pre + rest)[1..] == pre[1..] + rest;
      TrimStartPadded(pre[1..], rest);
    }
  }

  lemma {:induction false} TrimEndPadded(rest: string, post: string)
    requires AllSpace(post)
    requires rest == [] || !IsSpace(rest[|rest| - 1])
    ensures TrimEnd(rest + post) == rest
  {
    if post != [] {
      var s := rest + post;
      assert s[..|s| - 1] == rest + post[..|post| - 1];
      TrimEndPadded(rest, post[..|post| - 1]);
    }
  }

  /** `strip()` removes exactly the whitespace padding: any string that is
      whitespace, a trimmed core and whitespace strips to that core. */
  lemma StripPadded(pre: string, core: string, post: string)
    requires AllSpace(pre) && AllSpace(post) && Trimmed(core)
    ensures Strip(pre + core + post) == core
  {
    if core == [] {
      assert pre + core + post == pre + post;
      assert AllSpace(pre + post) by {
        forall k | 0 <= k < |pre + post| ensures IsSpace((pre + post)[k]) {
          if k >= |pre| { assert (pre + post)[k] == post[k - |pre|]; }
        }
      }
    } else {
      assert pre + core + post == pre + (core + post);
      TrimStartPadded(pre, core + post);
      TrimEndPadded(core, post);
    }
  }

  /** Stripping twice is stripping once. */
  lemma StripIdempotent(s: string)
    ensures Strip(Strip(s)) == Strip(s)
  {
    var r := Strip(s);
    assert [] + r + [] == r;
    StripPadded([], r, []);
  }

  // ---------------------------------------------------------------- lower()

  predicate IsAsciiUpper(c: char) { 'A' <= c <= 'Z' }

  predicate IsAsciiLetter(c: char) { 'A' <= c <= 'Z' || 'a' <= c <= 'z' }

  /** `c.lower()` restricted to the ASCII letters. */
  function LowerChar(c: char): (d: char)
    ensures IsAsciiLetter(d) <==> IsAsciiLetter(c)
    ensures !IsAsciiUpper(c) ==> d == c
    ensures IsAsciiUpper(c) ==> d as int == c as int + 32
  {
    if IsAsciiUpper(c) then (c as int + 32) as char else c
  }

  /** `s.lower()`: lowers each character and keeps the length. */
  function Lower(s: string): (r: string)
    ensures |r| == |s|
    ensures forall k :: 0 <= k < |s| ==> r[k] == LowerChar(s[k])
  {
    seq(|s|, k requires 0 <= k < |s| => LowerChar(s[k]))
  }

  predicate NoAsciiLetters(s: string)
  {
    forall k :: 0 <= k < |s| ==> !IsAsciiLetter(s[k])
  }

  // ------------------------------------------------------ substring `in`

  predicate OccursAt(text: string, sub: string, i: int)
  {
    0 <= i && i + |sub| <= |text| && text[i..i + |sub|] == sub
  }

  /** Python's `sub in text`. */
  predicate Contains(text: string, sub: string): (b: bool)
    ensures sub == [] ==> b
    ensures b ==> |sub| <= |text|
    ensures |sub| == |text| ==> (b <==> sub == text)
  {
    assert sub == [] || sub == text ==> OccursAt(text, sub, 0);
    exists i | 0 <= i <= |text| - |sub| :: OccursAt(text, sub, i)
  }

  /** Python's `any(k in text for k in keywords)`, evaluated left to right. */
  function ContainsAny(text: string, keywords: seq<string>): (r: bool)
    ensures r <==> exists j :: 0 <= j < |keywords| && Contains(text, keywords[j])
  {
    if keywords == [] then false
    else if Contains(text, keywords[0]) then true
    else
      var r := ContainsAny(text, keywords[1..]);
      assert forall j :: 1 <= j < |keywords| ==> keywords[j] == keywords[1..][j - 1];
      r
  }

  /** A keyword with no ASCII letter occurs in the lowered text exactly where
      it occurs in the original text. */
  lemma LowerKeepsOccurrence(text: string, sub: string, i: int)
    requires NoAsciiLetters(sub)
    ensures OccursAt(Lower(text), sub, i) <==> OccursAt(text, sub, i)
  {
    if 0 <= i && i + |sub| <= |text| {
      var lo := Lower(text);
      if OccursAt(lo, sub, i) {
        forall k | 0 <= k < |sub| ensures text[i + k] == sub[k] {
          assert lo[i..i + |sub|][k] == lo[i + k];
        }
      }
      if OccursAt(text, sub, i) {
        forall k | 0 <= k < |sub| ensures lo[i + k] == sub[k] {
          assert text[i..i + |sub|][k] == text[i + k];
        }
      }
    }
  }

  lemma LowerKeepsContains(text: string, sub: string)
    requires NoAsciiLetters(sub)
    ensures Contains(Lower(text), sub) <==> Contains(text, sub)
  {
    if Contains(Lower(text), sub) {
      var i :| OccursAt(Lower(text), sub, i);
      LowerKeepsOccurrence(text, sub, i);
    }
    if Contains(text, sub) {
      var i :| OccursAt(text, sub, i);
      LowerKeepsOccurrence(text, sub, i);
    }
  }

  /** Lowering the text never changes whether a list of keywords without
      ASCII letters matches it. */
  lemma LowerKeepsContainsAny(text: string, keywords: seq<string>)
    requires forall j :: 0 <= j < |keywords| ==> NoAsciiLetters(keywords[j])
    ensures ContainsAny(Lower(text), keywords) <==> ContainsAny(text, keywords)
  {
    forall j | 0 <= j < |keywords| ensures Contains(Lower(text), keywords[j]) <==> Contains(text, keywords[j]) {
      LowerKeepsContains(text, keywords[j]);
    }
  }

  /** A keyword holding a character the text lacks does not occur in it. */
  lemma MissingCharRulesOut(text: string, sub: string, k: nat)
    requires k < |sub| && sub[k] !in text
    ensures !Contains(text, sub)
  {
  }

  // ------------------------------------------------------- join / split

  /** Python's `sep.join(parts)`. */
  function Join(parts: seq<string>, sep: string): (r: string)
    ensures parts == [] ==> r == ""
    ensures parts != [] ==> |parts[0]| <= |r| && r[..|parts[0]|] == parts[0]
    ensures parts != [] ==> |parts[|parts| - 1]| <= |r| && r[|r| - |parts[|parts| - 1]|..] == parts[|parts| - 1]
  {
    if |parts| == 0 then ""
    else if |parts| == 1 then parts[0]
    else parts[0] + sep + Join(parts[1..], sep)
  }

  /** Python's `s.split(d)` for a one-character separator: always at least
      one piece, and the pieces never contain the separator. */
  function Split(s: string, d: char): (r: seq<string>)
    ensures |r| >= 1
    ensures forall j :: 0 <= j < |r| ==> d !in r[j]
  {
    if |s| == 0 then [""]
    else
      var rest := Split(s[1..], d);
      if s[0] == d then [""] + rest
      else
        assert forall j :: 1 <= j < |rest| ==> rest[j] == rest[1..][j - 1];
        [[s[0]] + rest[0]] + rest[1..]
  }

  lemma {:induction false} SplitNoSeparator(s: string, d: char)
    requires d !in s
    ensures Split(s, d) == [s]
  {
    if |s| > 0 {
      SplitNoSeparator(s[1..], d);
      assert [s[0]] + s[1..] == s;
    }
  }

  lemma {:induction false} SplitAfterPiece(a: string, d: char, b: string)
    requires d !in a
    ensures Split(a + [d] + b, d) == [a] + Split(b, d)
  {
    if |a| == 0 {
      assert a + [d] + b == [d] + b;
      assert ([d] + b)[1..] == b;
    } else {
      var s := a + [d] + b;
      assert s[1..] == a[1..] + [d] + b;
      SplitAfterPiece(a[1..], d, b);
      assert [a[0]] + a[1..] == a;
    }
  }

  /** `split` undoes `join` on a non-empty list of pieces free of the
      separator. */
  lemma {:induction false} SplitJoin(parts: seq<string>, d: char)
    requires |parts| >= 1
    requires forall j :: 0 <= j < |parts| ==> d !in parts[j]
    ensures Split(Join(parts, [d]), d) == parts
  {
    if |parts| == 1 {
      SplitNoSeparator(parts[0], d);
    } else {
      SplitJoin(parts[1..], d);
      SplitAfterPiece(parts[0], d, Join(parts[1..], [d]));
      assert [parts[0]] + parts[1..] == parts;
    }
  }
}
