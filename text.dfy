/** A value that may be absent: JavaScript's `null`/`undefined` beside a present value. */
module Optional {
  datatype Option<T> = None | Some(value: T)
}

/**
 * The JavaScript string built-ins the app relies on, stated over `seq<char>`:
 * `String.prototype.trim`, `includes`, `toLowerCase` (ASCII part), `length`
 * (UTF-16 code units) and the decimal rendering of a number in a template literal.
 */
module Text {

  /** The characters `trim` removes: ECMAScript WhiteSpace and LineTerminator code points. */
  predicate IsWhitespace(c: char) {
    c == '\t' || c == '\n' || c == '\U{000B}' || c == '\U{000C}' || c == '\r' || c == ' '
    || c == '\U{00A0}' || c == '\U{1680}' || ('\U{2000}' <= c <= '\U{200A}')
    || c == '\U{2028}' || c == '\U{2029}' || c == '\U{202F}' || c == '\U{205F}'
    || c == '\U{3000}' || c == '\U{FEFF}'
  }

  /** Every character is whitespace. */
  ghost predicate AllWhitespace(w: string) {
    forall k :: 0 <= k < |w| ==> IsWhitespace(w[k])
  }

  /** Drops the leading whitespace: what is left is a suffix that starts with a non-space. */
  function TrimStart(s: string): (r: string)
    ensures |r| <= |s| && r == s[|s| - |r|..]
    ensures r == [] || !IsWhitespace(r[0])
  {
    if s != [] && IsWhitespace(s[0]) then TrimStart(s[1..]) else s
  }

  /** Everything `TrimStart` drops is whitespace. */
  lemma {:induction false} TrimStartDrops(s: string)
    ensures forall k :: 0 <= k < |s| - |TrimStart(s)| ==> IsWhitespace(s[k])
    decreases |s|
  {
    if s != [] && IsWhitespace(s[0]) {
      TrimStartDrops(s[1..]);
      forall k | 1 <= k < |s| - |TrimStart(s)| ensures IsWhitespace(s[k]) {
        assert s[k] == s[1..][k - 1];
      }
    }
  }

  /** Drops the trailing whitespace: what is left is a prefix that ends with a non-space. */
  function TrimEnd(s: string): (r: string)
    ensures |r| <= |s| && r == s[..|r|]
    ensures r == [] || !IsWhitespace(r[|r| - 1])
  {
    if s != [] && IsWhitespace(s[|s| - 1]) then TrimEnd(s[..|s| - 1]) else s
  }

  /** Everything `TrimEnd` drops is whitespace. */
  lemma {:induction false} TrimEndDrops(s: string)
    ensures forall k :: |TrimEnd(s)| <= k < |s| ==> IsWhitespace(s[k])
    decreases |s|
  {
    if s != [] && IsWhitespace(s[|s| - 1]) {
      var init := s[..|s| - 1];
      TrimEndDrops(init);
      forall k | |TrimEnd(s)| <= k < |s| - 1 ensures IsWhitespace(s[k]) {
        assert s[k] == init[k];
      }
    }
  }

  /** `s.trim()`: neither end of the result is whitespace. */
  function Trim(s: string): (r: string)
    ensures |r| <= |s|
    ensures r == [] || (!IsWhitespace(r[0]) && !IsWhitespace(r[|r| - 1]))
  {
    TrimEnd(TrimStart(s))
  }


  lemma {:induction false} TrimStartSkips(w: string, m: string)
    requires AllWhitespace(w)
    requires m != [] && !IsWhitespace(m[0])
    ensures TrimStart(w + m) == m
    decreases |w|
  {
    if w == [] {
      assert w + m == m;
    } else {
      assert (w + m)[0] == w[0];
      assert (w + m)[1..] == w[1..] + m;
      TrimStartSkips(w[1..], m);
    }
  }

  lemma {:induction false} TrimEndSkips(m: string, w: string)
    requires AllWhitespace(w)
    requires m != [] && !IsWhitespace(m[|m| - 1])
    ensures TrimEnd(m + w) == m
    decreases |w|
  {
    if w == [] {
      assert m + w == m;
    } else {
      var s := m + w;
      assert s[|s| - 1] == w[|w| - 1];
      assert s[..|s| - 1] == m + w[..|w| - 1];
      TrimEndSkips(m, w[..|w| - 1]);
    }
  }

  /** Trimming removes exactly the whitespace around a text whose two ends are not whitespace. */
  lemma TrimFramed(w1: string, m: string, w2: string)
    requires AllWhitespace(w1) && AllWhitespace(w2)
    requires m != [] && !IsWhitespace(m[0]) && !IsWhitespace(m[|m| - 1])
    ensures Trim(w1 + m + w2) == m
  {
    assert (m + w2)[0] == m[0];
    TrimStartSkips(w1, m + w2);
    assert w1 + m + w2 == w1 + (m + w2);
    TrimEndSkips(m, w2);
  }

  /** `sub` is found in `s` starting at index `i`. */
  ghost predicate OccursAt(s: string, sub: string, i: int) {
    0 <= i && i + |sub| <= |s| && s[i..i + |sub|] == sub
  }

  /** `s.includes(sub)`. */
  function Contains(s: string, sub: string): (r: bool)
    ensures r <==> exists i :: OccursAt(s, sub, i)
  {
    if sub <= s then
      assert OccursAt(s, sub, 0);
      true
    else if s == [] then
      false
    else
      ContainsShift(s, sub);
      Contains(s[1..], sub)
  }

  /** An occurrence past the first position is an occurrence in the tail. */
  lemma ContainsShift(s: string, sub: string)
    requires s != [] && !(sub <= s)
    ensures (exists i :: OccursAt(s, sub, i)) <==> (exists i :: OccursAt(s[1..], sub, i))
  {
    if i :| OccursAt(s, sub, i) {
      assert i != 0;
      assert s[1..][i - 1..i - 1 + |sub|] == s[i..i + |sub|];
      assert OccursAt(s[1..], sub, i - 1);
    }
    if i :| OccursAt(s[1..], sub, i) {
      assert s[i + 1..i + 1 + |sub|] == s[1..][i..i + |sub|];
      assert OccursAt(s, sub, i + 1);
    }
  }

  /** The text holds a character that is not whitespace. */
  ghost predicate HasSolid(t: string) {
    exists k :: 0 <= k < |t| && !IsWhitespace(t[k])
  }

  /** Leading whitespace ends at or before the first non-space, so what follows it is kept. */
  lemma TrimStartKeeps(s: string, k: nat) returns (n: nat)
    requires k < |s| && !IsWhitespace(s[k])
    ensures n <= k && TrimStart(s) == s[n..]
  {
    n := |s| - |TrimStart(s)|;
    TrimStartDrops(s);
  }

  /** Trailing whitespace starts after the last non-space, so what precedes it is kept. */
  lemma TrimEndKeeps(s: string, k: nat) returns (m: nat)
    requires k < |s| && !IsWhitespace(s[k])
    ensures k < m <= |s| && TrimEnd(s) == s[..m]
  {
    m := |TrimEnd(s)|;
    TrimEndDrops(s);
  }

  /** An occurrence inside the window `t == s[n..][..m]` is an occurrence in that window. */
  lemma OccursInWindow(s: string, x: string, off: nat, n: nat, m: nat, t: string)
    requires OccursAt(s, x, off) && n <= off && off + |x| <= n + m <= |s|
    requires t == s[n..][..m]
    ensures OccursAt(t, x, off - n)
  {
    forall i | 0 <= i < |x| ensures t[off - n + i] == x[i] {
      assert t[off - n + i] == s[off + i];
    }
    assert t[off - n..off - n + |x|] == x;
  }

  /** Trimming keeps a window that reaches from the first non-space to the last one. */
  lemma TrimWindow(s: string, k: nat, p: nat) returns (n: nat, m: nat)
    requires k <= p < |s| && !IsWhitespace(s[k]) && !IsWhitespace(s[p])
    ensures n <= k && p < n + m <= |s| && Trim(s) == s[n..][..m]
  {
    n := TrimStartKeeps(s, k);
    var t := TrimStart(s);
    assert t[p - n] == s[p];
    m := TrimEndKeeps(t, p - n);
    assert Trim(s) == TrimEnd(t);
    assert t[..m] == s[n..][..m];
  }

  /** A run with a non-space somewhere before it and somewhere after it survives trimming. */
  lemma TrimKeepsOccurrence(s: string, x: string, off: nat, k: nat, p: nat) returns (i: nat)
    requires OccursAt(s, x, off)
    requires k <= off && off + |x| <= p < |s|
    requires !IsWhitespace(s[k]) && !IsWhitespace(s[p])
    ensures i <= off && OccursAt(Trim(s), x, i)
  {
    var n, m := TrimWindow(s, k, p);
    i := off - n;
    OccursInWindow(s, x, off, n, m, Trim(s));
    assert OccursAt(Trim(s), x, i);
  }

  /** An occurrence at some position makes `includes` true. */
  lemma Found(s: string, x: string, i: int)
    requires OccursAt(s, x, i)
    ensures Contains(s, x)
  {
  }

  /** Trimming never cuts into what lies between two texts that each hold a non-space. */
  lemma TrimKeepsInside(a: string, x: string, c: string)
    requires HasSolid(a) && HasSolid(c)
    ensures Contains(Trim(a + x + c), x)
  {
    var s := a + x + c;
    var k :| 0 <= k < |a| && !IsWhitespace(a[k]);
    var q :| 0 <= q < |c| && !IsWhitespace(c[q]);
    assert s[k] == a[k];
    assert s[|a| + |x| + q] == c[q];
    assert s[|a|..|a| + |x|] == x;
    var i := TrimKeepsOccurrence(s, x, |a|, k, |a| + |x| + q);
    Found(Trim(s), x, i);
  }

  /** A text holding a non-space takes all the leading whitespace `trim` removes from anything it opens. */
  lemma {:induction false} TrimStartPrefix(a: string, y: string)
    requires HasSolid(a)
    ensures TrimStart(a + y) == TrimStart(a) + y
    decreases |a|
  {
    assert (a + y)[0] == a[0];
    if IsWhitespace(a[0]) {
      var k :| 0 <= k < |a| && !IsWhitespace(a[k]);
      assert a[1..][k - 1] == a[k];
      assert (a + y)[1..] == a[1..] + y;
      TrimStartPrefix(a[1..], y);
    }
  }

  /** A text holding a non-space takes all the trailing whitespace `trim` removes from anything it closes. */
  lemma {:induction false} TrimEndSuffix(y: string, c: string)
    requires HasSolid(c)
    ensures TrimEnd(y + c) == y + TrimEnd(c)
    decreases |c|
  {
    var s := y + c;
    assert s[|s| - 1] == c[|c| - 1];
    if IsWhitespace(c[|c| - 1]) {
      var init := c[..|c| - 1];
      var k :| 0 <= k < |c| && !IsWhitespace(c[k]);
      assert init[k] == c[k];
      assert s[..|s| - 1] == y + init;
      assert TrimEnd(s) == TrimEnd(y + init);
      TrimEndSuffix(y, init);
      assert TrimEnd(c) == TrimEnd(init);
    }
  }

  /**
   * Trimming a text framed by two parts that each hold a non-space trims only those two
   * parts: the front of the first and the end of the last, keeping the middle whole.
   */
  lemma TrimBetween(a: string, x: string, c: string)
    requires HasSolid(a) && HasSolid(c)
    ensures Trim(a + x + c) == TrimStart(a) + x + TrimEnd(c)
  {
    assert a + x + c == a + (x + c);
    TrimStartPrefix(a, x + c);
    assert TrimStart(a) + (x + c) == (TrimStart(a) + x) + c;
    TrimEndSuffix(TrimStart(a) + x, c);
  }

  /** Regrouping a join of five texts leaves the text unchanged. */
  lemma JoinRegroup(a: string, b: string, f: string, c: string, z: string)
    ensures a + (b + f + c) + z == a + b + f + c + z
  {
    assert a + (b + f + c) == a + b + f + c;
  }

  /** `c.toLowerCase()` on the ASCII letters; every other character is kept. */
  function LowerChar(c: char): char {
    if 'A' <= c <= 'Z' then (c as int + 32) as char else c
  }

  /** `s.toLowerCase()` restricted to ASCII, character by character. */
  function LowerAscii(s: string): (r: string)
    ensures |r| == |s|
    ensures forall k :: 0 <= k < |s| ==> r[k] == LowerChar(s[k])
  {
    if s == [] then [] else [LowerChar(s[0])] + LowerAscii(s[1..])
  }

  /** `s.length`: one UTF-16 code unit per character, two for one outside the Basic Multilingual Plane. */
  function Utf16Length(s: string): (n: nat)
    ensures |s| <= n <= 2 * |s|
    ensures n == |s| <==> forall k :: 0 <= k < |s| ==> s[k] as int < 0x1_0000
  {
    if s == [] then 0 else (if s[0] as int < 0x1_0000 then 1 else 2) + Utf16Length(s[1..])
  }

  /** The numeric value of a string of decimal digits. */
  function DigitsValue(s: string): int {
    if s == [] then 0 else 10 * DigitsValue(s[..|s| - 1]) + (s[|s| - 1] as int - '0' as int)
  }

  function DigitChar(d: nat): (c: char)
    requires d < 10
    ensures '0' <= c <= '9' && c as int - '0' as int == d
  {
    ('0' as int + d) as char
  }

  /** `${n}` for a non-negative integer: decimal digits, no leading zero, reading back as `n`. */
  function Decimal(n: nat): (r: string)
    ensures |r| >= 1
    ensures forall k :: 0 <= k < |r| ==> '0' <= r[k] <= '9'
    ensures |r| > 1 ==> r[0] != '0'
    ensures DigitsValue(r) == n
  {
    if n < 10 then
      [DigitChar(n)]
    else
      var r := Decimal(n / 10) + [DigitChar(n % 10)];
      assert r[..|r| - 1] == Decimal(n / 10);
      r
  }

  /** Different numbers render as different strings. */
  lemma DecimalInjective(m: nat, n: nat)
    requires Decimal(m) == Decimal(n)
    ensures m == n
  {
  }
}
