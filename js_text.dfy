/** The JavaScript string primitives the core relies on, over Dafny strings:
    the character classes `\s` and `\w`, `String.prototype.trim`, the global
    replacement of `/\n+/g` by one space, literal substring search (the
    leftmost-occurrence rule of a non-global `String.prototype.match`), and the
    UTF-16 `length` of a string. */
module JsText {
  import opened Wrappers

  /** ECMAScript WhiteSpace and LineTerminator code points: the set matched by
      `\s` and removed by `trim()`. */
  predicate IsSpace(c: char)
  {
    || c == '\t' || c == '\n' || c == '\U{000B}' || c == '\U{000C}' || c == '\r'
    || c == ' ' || c == '\U{00A0}' || c == '\U{1680}'
    || ('\U{2000}' <= c <= '\U{200A}')
    || c == '\U{2028}' || c == '\U{2029}' || c == '\U{202F}' || c == '\U{205F}'
    || c == '\U{3000}' || c == '\U{FEFF}'
  }

  /** `\w` without the `u` flag: `[A-Za-z0-9_]`. */
  predicate IsWordChar(c: char)
  {
    ('A' <= c <= 'Z') || ('a' <= c <= 'z') || ('0' <= c <= '9') || c == '_'
  }

  ghost predicate AllSpace(s: string)
  {
    forall k :: 0 <= k < |s| ==> IsSpace(s[k])
  }

  /** The first index at or after `i` whose character is not in `cls`, or `|s|`:
      where a greedy `[cls]*` starting at `i` stops. */
  function SkipWhile(s: string, i: nat, cls: char -> bool): (r: nat)
    requires i <= |s|
    ensures i <= r <= |s|
    ensures forall k :: i <= k < r ==> cls(s[k])
    ensures r == |s| || !cls(s[r])
    decreases |s| - i
  {
    if i == |s| || !cls(s[i]) then i else SkipWhile(s, i + 1, cls)
  }

  /** The first index at or after `i` holding `c`, or `|s|` when there is none. */
  function NextIndexOf(s: string, c: char, i: nat): (r: nat)
    requires i <= |s|
    ensures i <= r <= |s|
    ensures forall k :: i <= k < r ==> s[k] != c
    ensures r == |s| || s[r] == c
  {
    SkipWhile(s, i, x => x != c)
  }

  /** `p` occurs in `s` starting at index `i`. */
  predicate OccursAt(p: string, s: string, i: int)
  {
    0 <= i && i + |p| <= |s| && s[i..i + |p|] == p
  }

  /** An occurrence of `q` carries an occurrence of each of its slices. */
  lemma OccursWithin(p: string, q: string, k: nat, s: string, i: int)
    requires OccursAt(q, s, i) && k + |p| <= |q| && q[k..k + |p|] == p
    ensures OccursAt(p, s, i + k)
  {
    forall j | 0 <= j < |p| ensures s[i + k + j] == p[j] {
      assert s[i..i + |q|][k + j] == q[k + j] == q[k..k + |p|][j];
    }
    assert s[i + k..i + k + |p|] == p;
  }

  /** An occurrence shows its first character in the text. */
  lemma OccursAtHead(p: string, s: string, i: int)
    requires p != [] && OccursAt(p, s, i)
    ensures s[i] == p[0] && p[0] in s
  {
    assert s[i..i + |p|][0] == p[0];
  }

  /** The leftmost occurrence of `p` in `s` at or after `from`. */
  function Find(p: string, s: string, from: nat): (r: Option<nat>)
    ensures r.Some? ==> from <= r.value && OccursAt(p, s, r.value)
    ensures r.Some? ==> forall j :: from <= j < r.value ==> !OccursAt(p, s, j)
    ensures r.None? ==> forall j :: from <= j ==> !OccursAt(p, s, j)
    decreases |s| - from
  {
    if from + |p| > |s| then None
    else if s[from..from + |p|] == p then Some(from)
    else Find(p, s, from + 1)
  }

  /** The index past the trailing whitespace-free part of `s[lo..hi]`. */
  function TrimEndFrom(s: string, lo: nat, hi: nat): (r: nat)
    requires lo <= hi <= |s|
    ensures lo <= r <= hi
    ensures forall k :: r <= k < hi ==> IsSpace(s[k])
    ensures r == lo || !IsSpace(s[r - 1])
    decreases hi
  {
    if hi == lo || !IsSpace(s[hi - 1]) then hi else TrimEndFrom(s, lo, hi - 1)
  }

  /** `String.prototype.trim`: the slice of `s` left after removing the leading and
      the trailing whitespace. */
  function Trim(s: string): (r: string)
    ensures r == [] || (!IsSpace(r[0]) && !IsSpace(r[|r| - 1]))
    ensures exists i :: 0 <= i && i + |r| <= |s| && r == s[i..i + |r|]
                        && AllSpace(s[..i]) && AllSpace(s[i + |r|..])
  {
    var lo := SkipWhile(s, 0, IsSpace);
    var hi := TrimEndFrom(s, lo, |s|);
    assert AllSpace(s[..lo]) && AllSpace(s[hi..]);
    s[lo..hi]
  }

  /** Text that neither starts nor ends with whitespace is its own trim. */
  lemma TrimUnchanged(s: string)
    requires s == [] || (!IsSpace(s[0]) && !IsSpace(s[|s| - 1]))
    ensures Trim(s) == s
  {
    var r := Trim(s);
    var i :| 0 <= i && i + |r| <= |s| && r == s[i..i + |r|]
             && AllSpace(s[..i]) && AllSpace(s[i + |r|..]);
  }

  predicate IsNewline(c: char) { c == '\n' }

  /** `s.replace(/\n+/g, ' ')`: every maximal run of newlines becomes one space. */
  function CollapseNewlines(s: string): (r: string)
    ensures '\n' !in r
    ensures |r| <= |s|
    decreases |s|
  {
    if s == [] then []
    else if s[0] == '\n' then [' '] + CollapseNewlines(s[SkipWhile(s, 1, IsNewline)..])
    else [s[0]] + CollapseNewlines(s[1..])
  }

  /** `k` newline characters. */
  function Newlines(k: nat): (r: string)
    ensures |r| == k && forall j :: 0 <= j < k ==> r[j] == '\n'
  {
    seq(k, _ => '\n')
  }

  /** Text without newlines is left as it is. */
  lemma {:induction false} CollapseNewlineFree(s: string)
    requires '\n' !in s
    ensures CollapseNewlines(s) == s
  {
    if s != [] {
      assert s[0] in s;
      assert forall c :: c in s[1..] ==> c in s;
      CollapseNewlineFree(s[1..]);
    }
  }

  /** A leading run of `k >= 1` newlines ends at index `k`. */
  lemma LeadingRun(k: nat, b: string)
    requires k >= 1
    requires b == [] || b[0] != '\n'
    ensures CollapseNewlines(Newlines(k) + b) == [' '] + CollapseNewlines(b)
  {
    var s := Newlines(k) + b;
    assert forall j :: 1 <= j < k ==> IsNewline(s[j]);
    assert k == |s| || !IsNewline(s[k]);
    assert SkipWhile(s, 1, IsNewline) == k;
    assert s[k..] == b;
  }

  /** A maximal run of `k >= 1` newlines, preceded by newline-free text `a`,
      becomes exactly one space, and the replacement carries on after it. */
  lemma {:induction false} CollapseRun(a: string, k: nat, b: string)
    requires '\n' !in a
    requires k >= 1
    requires b == [] || b[0] != '\n'
    ensures CollapseNewlines(a + Newlines(k) + b) == a + [' '] + CollapseNewlines(b)
  {
    var s := a + Newlines(k) + b;
    if a == [] {
      assert s == Newlines(k) + b;
      LeadingRun(k, b);
    } else {
      assert a[0] in a;
      assert forall c :: c in a[1..] ==> c in a;
      assert s[1..] == a[1..] + Newlines(k) + b;
      CollapseRun(a[1..], k, b);
    }
  }

  /** The first character survives when it is not a newline. */
  lemma CollapseKeepsFirst(s: string)
    requires s != [] && s[0] != '\n'
    ensures CollapseNewlines(s) != [] && CollapseNewlines(s)[0] == s[0]
  {
  }

  /** The last character survives when it is not a newline. */
  lemma {:induction false} CollapseKeepsLast(s: string)
    requires s != [] && s[|s| - 1] != '\n'
    ensures CollapseNewlines(s) != []
    ensures CollapseNewlines(s)[|CollapseNewlines(s)| - 1] == s[|s| - 1]
    decreases |s|
  {
    if s[0] == '\n' {
      var r := SkipWhile(s, 1, IsNewline);
      var t := s[r..];
      assert CollapseNewlines(s) == [' '] + CollapseNewlines(t);
      assert r < |s|;
      assert t[|t| - 1] == s[|s| - 1];
      CollapseKeepsLast(t);
    } else if |s| > 1 {
      var t := s[1..];
      assert CollapseNewlines(s) == [s[0]] + CollapseNewlines(t);
      CollapseKeepsLast(t);
    }
  }

  /** Collapsing keeps text that starts and ends with non-whitespace so. */
  lemma CollapseTrimmed(t: string)
    requires t == [] || (!IsSpace(t[0]) && !IsSpace(t[|t| - 1]))
    ensures var r := CollapseNewlines(t); r == [] || (!IsSpace(r[0]) && !IsSpace(r[|r| - 1]))
  {
    if t != [] {
      CollapseKeepsFirst(t);
      CollapseKeepsLast(t);
    }
  }

  /** The number of UTF-16 code units of `s` (JavaScript's `length`): code points
      above U+FFFF take a surrogate pair. */
  function Utf16Length(s: string): (n: nat)
    ensures |s| <= n <= 2 * |s|
    ensures n == 0 <==> s == []
  {
    if s == [] then 0
    else (if InBmp(s[0]) then 1 else 2) + Utf16Length(s[1..])
  }

  /** A character that JavaScript stores as one UTF-16 code unit. */
  predicate InBmp(c: char)
  {
    c as int <= 0xFFFF
  }

  /** Without astral characters the UTF-16 length is the character count. */
  lemma {:induction false} BmpUtf16Length(s: string)
    requires forall i :: 0 <= i < |s| ==> InBmp(s[i])
    ensures Utf16Length(s) == |s|
  {
    if s != [] {
      assert forall i :: 0 <= i < |s[1..]| ==> s[1..][i] == s[i + 1];
      BmpUtf16Length(s[1..]);
    }
  }
}
