/**
 * String operations of Python's `str` that the bot relies on, over `seq<char>`
 * (one char per Unicode code point, as Python's `len` counts).
 * Character classes are restricted as listed in README ("## Left out"): digits
 * are the ASCII digits and lowercasing is ASCII lowercasing.
 */
module Text {

  /** `c.isdigit()` restricted to the ASCII digits. */
  predicate IsDigit(c: char) {
    '0' <= c <= '9'
  }

  predicate AllDigits(s: string) {
    forall i :: 0 <= i < |s| ==> IsDigit(s[i])
  }

  /** `s.isdigit()`: at least one character and every character a digit. */
  predicate PyIsDigit(s: string) {
    |s| > 0 && AllDigits(s)
  }

  /** `''.join(filter(str.isdigit, s))`: the digits of `s`, in order. */
  function Digits(s: string): (r: string)
    ensures AllDigits(r)
    ensures |r| <= |s|
    ensures AllDigits(s) ==> r == s
  {
    if s == [] then []
    else (if IsDigit(s[0]) then [s[0]] else []) + Digits(s[1..])
  }

  /** Concatenation regroups freely. */
  lemma AppendAssoc<T>(a: seq<T>, b: seq<T>, c: seq<T>)
    ensures (a + b) + c == a + (b + c)
  {
  }

  lemma {:induction false} DigitsConcat(a: string, b: string)
    ensures Digits(a + b) == Digits(a) + Digits(b)
  {
    if a != [] {
      assert (a + b)[1..] == a[1..] + b;
      DigitsConcat(a[1..], b);
    } else {
      assert a + b == b;
    }
  }

  /** Python's whitespace set, as `str.isspace` and `str.strip()` use it. */
  predicate IsSpace(c: char) {
    c == ' ' || ('\t' <= c <= '\r') || ('\U{1C}' <= c <= '\U{1F}') || c == '\U{85}' ||
    c == '\U{A0}' || c == '\U{1680}' || ('\U{2000}' <= c <= '\U{200A}') ||
    c == '\U{2028}' || c == '\U{2029}' || c == '\U{202F}' || c == '\U{205F}' || c == '\U{3000}'
  }

  predicate AllSpace(s: string) {
    forall i :: 0 <= i < |s| ==> IsSpace(s[i])
  }

  /** `s.lstrip()` */
  function TrimLeft(s: string): (r: string)
    ensures |r| <= |s| && r == s[|s| - |r|..]
    ensures r == [] || !IsSpace(r[0])
    ensures AllSpace(s[..|s| - |r|])
  {
    if s == [] || !IsSpace(s[0]) then s
    else
      var r := TrimLeft(s[1..]);
      assert s[1..][..|s| - 1 - |r|] == s[1..|s| - |r|];
      r
  }

  /** `s.rstrip()` */
  function TrimRight(s: string): (r: string)
    ensures |r| <= |s| && r == s[..|r|]
    ensures r == [] || !IsSpace(r[|r| - 1])
    ensures AllSpace(s[|r|..])
  {
    if s == [] || !IsSpace(s[|s| - 1]) then s
    else
      var r := TrimRight(s[..|s| - 1]);
      assert s[..|s| - 1][|r|..] + [s[|s| - 1]] == s[|r|..];
      r
  }

  /** `s.strip()`: `s` without its leading and trailing whitespace. */
  function Strip(s: string): (r: string)
    ensures |r| <= |s|
    ensures r == [] || (!IsSpace(r[0]) && !IsSpace(r[|r| - 1]))
  {
    var l := TrimLeft(s);
    var r := TrimRight(l);
    assert r == [] || r[0] == l[0];
    r
  }

  lemma {:induction false} TrimLeftPadded(pad: string, s: string)
    requires AllSpace(pad)
    ensures TrimLeft(pad + s) == TrimLeft(s)
  {
    if pad != [] {
      assert (pad + s)[1..] == pad[1..] + s;
      TrimLeftPadded(pad[1..], s);
    } else {
      assert pad + s == s;
    }
  }

  lemma {:induction false} TrimRightPadded(s: string, pad: string)
    requires AllSpace(pad)
    ensures TrimRight(s + pad) == TrimRight(s)
  {
    if pad != [] {
      assert (s + pad)[..|s + pad| - 1] == s + pad[..|pad| - 1];
      TrimRightPadded(s, pad[..|pad| - 1]);
    } else {
      assert s + pad == s;
    }
  }

  lemma {:induction false} StripTrailing(s: string, post: string)
    requires AllSpace(post)
    ensures TrimRight(TrimLeft(s + post)) == TrimRight(TrimLeft(s))
  {
    if s == [] {
      assert s + post == post;
      AllSpaceTrims(post);
    } else if IsSpace(s[0]) {
      assert (s + post)[1..] == s[1..] + post;
      StripTrailing(s[1..], post);
    } else {
      TrimRightPadded(s, post);
    }
  }

  lemma AllSpaceTrims(s: string)
    requires AllSpace(s)
    ensures TrimLeft(s) == []
  {
    if s != [] {
      AllSpaceTrims(s[1..]);
    }
  }

  /** Surrounding whitespace does not change what `strip()` returns. */
  lemma StripPadded(pre: string, s: string, post: string)
    requires AllSpace(pre) && AllSpace(post)
    ensures Strip(pre + s + post) == Strip(s)
  {
    assert pre + s + post == pre + (s + post);
    TrimLeftPadded(pre, s + post);
    var l := TrimLeft(pre + s + post);
    assert l == TrimLeft(s + post);
    StripTrailing(s, post);
    assert TrimRight(l) == TrimRight(TrimLeft(s));
    assert Strip(pre + s + post) == TrimRight(l);
  }

  /** A text with no whitespace at either end is its own `strip()`. */
  lemma StripUnpadded(s: string)
    requires s != [] && !IsSpace(s[0]) && !IsSpace(s[|s| - 1])
    ensures Strip(s) == s
  {
  }

  lemma StripIdempotent(s: string)
    ensures Strip(Strip(s)) == Strip(s)
  {
    var r := Strip(s);
    assert TrimLeft(r) == r;
    assert TrimRight(r) == r;
  }

  function LowerChar(c: char): char {
    if 'A' <= c <= 'Z' then (c as int + 32) as char else c
  }

  /** `s.lower()` (ASCII letters only). */
  function Lower(s: string): (r: string)
    ensures |r| == |s|
    ensures forall i :: 0 <= i < |s| ==> r[i] == LowerChar(s[i])
  {
    seq(|s|, i requires 0 <= i < |s| => LowerChar(s[i]))
  }

  lemma LowerSpace(s: string)
    ensures forall i :: 0 <= i < |s| ==> (IsSpace(Lower(s)[i]) <==> IsSpace(s[i]))
  {
  }

  lemma LowerIdempotent(s: string)
    ensures Lower(Lower(s)) == Lower(s)
  {
  }

  lemma LowerConcat(a: string, b: string)
    ensures Lower(a + b) == Lower(a) + Lower(b)
  {
  }

  lemma LowerCharSpace(c: char)
    ensures IsSpace(LowerChar(c)) <==> IsSpace(c)
  {
  }

  lemma {:induction false} TrimLeftLower(s: string)
    ensures TrimLeft(Lower(s)) == Lower(TrimLeft(s))
  {
    if s == [] {
      assert Lower(s) == [];
    } else {
      var l := Lower(s);
      LowerCharSpace(s[0]);
      assert IsSpace(l[0]) <==> IsSpace(s[0]);
      if IsSpace(s[0]) {
        assert l[1..] == Lower(s[1..]);
        TrimLeftLower(s[1..]);
      }
    }
  }

  lemma {:induction false} TrimRightLower(s: string)
    ensures TrimRight(Lower(s)) == Lower(TrimRight(s))
  {
    if s == [] {
      assert Lower(s) == [];
    } else {
      var l := Lower(s);
      LowerCharSpace(s[|s| - 1]);
      assert IsSpace(l[|s| - 1]) <==> IsSpace(s[|s| - 1]);
      if IsSpace(s[|s| - 1]) {
        assert l[..|s| - 1] == Lower(s[..|s| - 1]);
        TrimRightLower(s[..|s| - 1]);
      }
    }
  }

  /** Lower-casing and stripping commute: `s.lower().strip() == s.strip().lower()`. */
  lemma StripLower(s: string)
    ensures Strip(Lower(s)) == Lower(Strip(s))
  {
    TrimLeftLower(s);
    TrimRightLower(TrimLeft(s));
  }

  /** `s.startswith(p)` */
  predicate StartsWith(s: string, p: string) {
    |p| <= |s| && s[..|p|] == p
  }

  /** `t in s` for two strings: `t` occurs in `s` as a substring. */
  predicate Contains(s: string, t: string)
    decreases |s|
  {
    StartsWith(s, t) || (|s| > 0 && Contains(s[1..], t))
  }

  lemma {:induction false} ContainsAt(s: string, t: string, i: nat)
    requires i + |t| <= |s| && s[i..i + |t|] == t
    ensures Contains(s, t)
  {
    if i > 0 {
      assert s[1..][i - 1..i - 1 + |t|] == t;
      ContainsAt(s[1..], t, i - 1);
    }
  }

  lemma {:induction false} ContainsInfix(a: string, t: string, b: string)
    ensures Contains(a + t + b, t)
  {
    assert (a + t + b)[|a|..|a| + |t|] == t;
    ContainsAt(a + t + b, t, |a|);
  }

  /** A string holds itself. */
  lemma ContainsSelf(t: string)
    ensures Contains(t, t)
  {
    assert t[..|t|] == t;
  }

  /** Text put before a string keeps what it holds. */
  lemma {:induction false} ContainsAfter(a: string, b: string, t: string)
    requires Contains(b, t)
    ensures Contains(a + b, t)
    decreases |a|
  {
    if a != [] {
      assert (a + b)[1..] == a[1..] + b;
      ContainsAfter(a[1..], b, t);
    } else {
      assert a + b == b;
    }
  }

  /** Text put after a string keeps what it holds. */
  lemma {:induction false} ContainsBefore(a: string, b: string, t: string)
    requires Contains(a, t)
    ensures Contains(a + b, t)
    decreases |a|
  {
    if StartsWith(a, t) {
      assert (a + b)[..|t|] == a[..|t|];
    } else {
      assert (a + b)[1..] == a[1..] + b;
      ContainsBefore(a[1..], b, t);
    }
  }

  /** A string that holds `t + u` holds `t`. */
  lemma {:induction false} ContainsPrefix(s: string, t: string, u: string)
    requires Contains(s, t + u)
    ensures Contains(s, t)
    decreases |s|
  {
    if StartsWith(s, t + u) {
      assert s[..|t|] == (t + u)[..|t|] == t;
    } else {
      ContainsPrefix(s[1..], t, u);
    }
  }

  /** `s[k:]` for k >= 0 (an index past the end gives ""). */
  function Drop(s: string, k: nat): (r: string)
    ensures |r| == if k <= |s| then |s| - k else 0
  {
    if k <= |s| then s[k..] else ""
  }

  /** `s[:k]` for k >= 0. */
  function Take(s: string, k: nat): (r: string)
    ensures |r| == if k <= |s| then k else |s|
    ensures r == s[..|r|]
  {
    if k <= |s| then s[..k] else s
  }

  /** `s[-k:]` for k > 0: the last k characters, or all of `s` when it is shorter. */
  function TakeLast(s: string, k: nat): (r: string)
    ensures |r| == if |s| <= k then |s| else k
    ensures r == s[|s| - |r|..]
  {
    if |s| <= k then s else s[|s| - k..]
  }

  /** `s.rfind(c)`: the index of the last `c`, or -1. */
  function RFind(s: string, c: char): (r: int)
    ensures -1 <= r < |s|
    ensures r >= 0 ==> s[r] == c
    ensures forall j :: r < j < |s| ==> s[j] != c
  {
    if s == [] then -1
    else if s[|s| - 1] == c then |s| - 1
    else RFind(s[..|s| - 1], c)
  }

  function DigitChar(d: nat): (c: char)
    requires d < 10
    ensures IsDigit(c)
  {
    ('0' as int + d) as char
  }

  function DigitValue(c: char): (d: nat)
    requires IsDigit(c)
    ensures d < 10 && DigitChar(d) == c
  {
    c as int - '0' as int
  }

  /** `str(n)` for a natural number: its decimal digits without leading zeros. */
  function NatToString(n: nat): (r: string)
    ensures AllDigits(r) && |r| >= 1
    ensures r[0] == '0' ==> n == 0
  {
    if n < 10 then [DigitChar(n)] else NatToString(n / 10) + [DigitChar(n % 10)]
  }

  /** `int(s)` for a string of decimal digits. */
  function ParseNat(s: string): nat
    requires AllDigits(s)
  {
    if s == [] then 0 else ParseNat(s[..|s| - 1]) * 10 + DigitValue(s[|s| - 1])
  }

  lemma {:induction false} ParseNatToString(n: nat)
    ensures ParseNat(NatToString(n)) == n
  {
    var r := NatToString(n);
    if n >= 10 {
      assert r[..|r| - 1] == NatToString(n / 10);
      ParseNatToString(n / 10);
    }
  }

  /** Distinct numbers have distinct decimal renderings. */
  lemma NatToStringInjective(m: nat, n: nat)
    requires NatToString(m) == NatToString(n)
    ensures m == n
  {
    ParseNatToString(m);
    ParseNatToString(n);
  }

  function Pow10(k: nat): (p: nat)
    ensures p >= 1
  {
    if k == 0 then 1 else 10 * Pow10(k - 1)
  }

  /** A number with k digits is rendered with exactly k characters. */
  lemma {:induction false} NatToStringLength(n: nat, k: nat)
    requires k >= 1 && Pow10(k - 1) <= n < Pow10(k)
    ensures |NatToString(n)| == k
  {
    if k > 1 {
      NatToStringLength(n / 10, k - 1);
    }
  }

  /** `str(i)` for any integer. */
  function IntToString(i: int): string {
    if i < 0 then "-" + NatToString(-i) else NatToString(i)
  }

  /** `''.join(render(i, x) for i, x in enumerate(s, start))`: the pieces a `+=` loop over `enumerate` builds. */
  function Joined<T>(s: seq<T>, start: nat, render: (nat, T) -> string): string {
    if s == [] then "" else Joined(s[..|s| - 1], start, render) + render(start + |s| - 1, s[|s| - 1])
  }

  /** What one more turn of the loop appends. */
  lemma JoinedExtend<T>(s: seq<T>, i: nat, start: nat, render: (nat, T) -> string)
    requires i < |s|
    ensures Joined(s[..i + 1], start, render) == Joined(s[..i], start, render) + render(start + i, s[i])
  {
    assert s[..i + 1][..i] == s[..i];
  }

  /** Numbering continues across a split of the sequence. */
  lemma {:induction false} JoinedConcat<T>(a: seq<T>, b: seq<T>, start: nat, render: (nat, T) -> string)
    ensures Joined(a + b, start, render) == Joined(a, start, render) + Joined(b, start + |a|, render)
  {
    if b == [] {
      assert a + b == a;
    } else {
      var b' := b[..|b| - 1];
      assert (a + b)[..|a + b| - 1] == a + b';
      assert (a + b)[|a + b| - 1] == b[|b| - 1];
      JoinedConcat(a, b', start, render);
    }
  }

  /** Element `j` is rendered as number `start + j`, between the elements before and after it. */
  lemma JoinedAt<T>(s: seq<T>, start: nat, render: (nat, T) -> string, j: nat)
    requires j < |s|
    ensures Joined(s, start, render) ==
            Joined(s[..j], start, render) + render(start + j, s[j]) + Joined(s[j + 1..], start + j + 1, render)
  {
    assert s == s[..j] + [s[j]] + s[j + 1..];
    JoinedConcat(s[..j] + [s[j]], s[j + 1..], start, render);
    JoinedConcat(s[..j], [s[j]], start, render);
    assert ([s[j]])[..0] == [];
  }

  /** Stripping what `rstrip` left gives what stripping the whole string gives. */
  lemma StripTrimRight(s: string)
    ensures Strip(TrimRight(s)) == Strip(s)
  {
    var t := TrimRight(s);
    assert t + s[|t|..] == s;
    StripTrailing(t, s[|t|..]);
  }

  /** `rstrip` only touches the end: a prefix stays in front of what it leaves of the rest. */
  lemma {:induction false} TrimRightKeepsPrefix(p: string, s: string)
    requires TrimRight(s) != []
    ensures TrimRight(p + s) == p + TrimRight(s)
  {
    if IsSpace(s[|s| - 1]) {
      var s' := s[..|s| - 1];
      assert (p + s)[..|p + s| - 1] == p + s';
      TrimRightKeepsPrefix(p, s');
    }
  }

  /**
   * A keyword `p` (matching `key` up to case) followed by text with something
   * other than whitespace in it: `strip()` keeps the keyword in front, and its
   * lower-cased form starts with `key`.
   */
  lemma StripKeyword(p: string, key: string, rest: string)
    requires Lower(p) == key && key != [] && !IsSpace(key[0]) && Strip(rest) != []
    ensures |key| <= |Strip(p + rest)| && Strip(p + rest)[..|key|] == p
    ensures StartsWith(Lower(Strip(p + rest)), key)
    ensures Strip(Strip(p + rest)[|key|..]) == Strip(rest)
  {
    assert TrimLeft(p + rest) == p + rest by {
      LowerCharSpace(p[0]);
      assert Lower(p)[0] == LowerChar(p[0]);
      assert (p + rest)[0] == p[0];
    }
    assert TrimRight(rest) != [] by {
      StripTrimRight(rest);
    }
    var tr := TrimRight(rest);
    assert TrimRight(p + rest) == p + tr by {
      TrimRightKeepsPrefix(p, rest);
    }
    var t := Strip(p + rest);
    assert t == p + tr;
    assert t[..|key|] == p;
    assert t[|key|..] == tr;
    assert Lower(t) == Lower(p) + Lower(tr) by {
      LowerConcat(p, tr);
    }
    assert Lower(t)[..|key|] == Lower(p);
    StripTrimRight(rest);
  }

  /** `s.endswith(p)` */
  predicate EndsWith(s: string, p: string) {
    |p| <= |s| && s[|s| - |p|..] == p
  }

  /** A text made of three parts starts with the first and ends with the last. */
  lemma Framing(a: string, b: string, c: string)
    ensures StartsWith(a + b + c, a) && EndsWith(a + b + c, c)
  {
    assert (a + b + c)[..|a|] == a;
    assert (a + b + c)[|a + b|..] == c;
  }

  /** A message made of a header, the numbered entries of `items` from 1, and a footer. */
  function Listing<T>(header: string, items: seq<T>, render: (nat, T) -> string, footer: string): (r: string)
    ensures StartsWith(r, header) && EndsWith(r, footer)
  {
    var body := header + Joined(items, 1, render);
    assert (body + footer)[..|header|] == header;
    assert (body + footer)[|body|..] == footer;
    body + footer
  }

  /** Entry j of a listing is `render(j + 1, items[j])`, between the earlier and the later entries. */
  lemma ListingShowsItem<T>(header: string, items: seq<T>, render: (nat, T) -> string, footer: string, j: nat)
    requires j < |items|
    ensures Listing(header, items, render, footer) ==
            header + (Joined(items[..j], 1, render) + render(j + 1, items[j]) + Joined(items[j + 1..], j + 2, render)) + footer
  {
    JoinedAt(items, 1, render, j);
  }

  /** The `for i, x in enumerate(items, 1): text += render(i, x)` loop. */
  method Enumerate<T>(items: seq<T>, render: (nat, T) -> string) returns (text: string)
    ensures text == Joined(items, 1, render)
  {
    text := "";
    var i := 0;
    while i < |items|
      invariant i <= |items|
      invariant text == Joined(items[..i], 1, render)
    {
      JoinedExtend(items, i, 1, render);
      text := text + render(i + 1, items[i]);
      i := i + 1;
    }
    assert items[..i] == items;
  }
}
