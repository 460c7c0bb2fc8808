/** `extractField` of server.js: three fixed text patterns, tried in order, each a
    hand-written scanner proved against a declarative statement of what the
    regular expression matches; the first capture wins and is cleaned, and when
    nothing matches the result is the sentinel "No data provided". Labels are
    literal text (they hold no regular-expression metacharacters). */
module FieldExtractor {
  import opened Wrappers
  import opened JsText

  const NoData: string := "No data provided"

  /** U+3010 and U+3011, the lenticular brackets of the third pattern. */
  const Open: char := '\U{3010}'
  const Close: char := '\U{3011}'

  /** The three patterns, in the order `extractField` tries them. */
  datatype Pattern =
    | LabeledLine   // `Label:\s*([\s\S]*?)(?=\n[\w\s]+:|$)`
    | Quoted        // `"Label":\s*"([^"]*)"`
    | Bracketed     // `【Label】([\s\S]*?)(?=【|$)`

  const Patterns: seq<Pattern> := [LabeledLine, Quoted, Bracketed]

  /** Where a match starts, and the capture group's bounds `[lo, hi)`. */
  datatype Span = Span(start: nat, lo: nat, hi: nat)

  function LabeledKey(name: string): string { name + ":" }
  function QuotedKey(name: string): string { "\"" + name + "\":" }
  function BracketedKey(name: string): string { [Open] + name + [Close] }

  /** `p` occurs at `i` and nowhere before. */
  ghost predicate Leftmost(p: string, s: string, i: nat)
  {
    OccursAt(p, s, i) && forall j :: 0 <= j < i ==> !OccursAt(p, s, j)
  }

  predicate IsWordOrSpace(c: char) { IsWordChar(c) || IsSpace(c) }

  /** A label that the lookahead `\n[\w\s]+:` recognises when it starts a line. */
  ghost predicate LineLabel(b: string)
  {
    b != [] && IsWordChar(b[0]) && forall k :: 0 <= k < |b| ==> IsWordOrSpace(b[k])
  }

  // ---------------------------------------------------------------------------
  // Pattern 1: the labeled line

  /** The lookahead `(?=\n[\w\s]+:)` at `e`, stated declaratively. */
  ghost predicate NextLabelAheadSpec(s: string, e: int)
  {
    && 0 <= e < |s| && s[e] == '\n'
    && exists j :: e + 1 < j < |s| && s[j] == ':'
                   && forall k :: e + 1 <= k < j ==> IsWordOrSpace(s[k])
  }

  /** The same lookahead as a scan: the greedy `[\w\s]+` stops at the first
      character outside the class, which must be `:`. */
  predicate NextLabelAhead(s: string, e: nat)
  {
    && e < |s| && s[e] == '\n'
    && var j := SkipWhile(s, e + 1, IsWordOrSpace);
       e + 1 < j < |s| && s[j] == ':'
  }

  lemma NextLabelAheadCorrect(s: string, e: nat)
    ensures NextLabelAhead(s, e) <==> NextLabelAheadSpec(s, e)
  {
    if NextLabelAheadSpec(s, e) {
      var j :| e + 1 < j < |s| && s[j] == ':'
                && forall k :: e + 1 <= k < j ==> IsWordOrSpace(s[k]);
      var r := SkipWhile(s, e + 1, IsWordOrSpace);
      assert !IsWordOrSpace(s[j]);
      assert r == j;
    }
  }

  /** Where the lazy capture of pattern 1 may stop: `(?=\n[\w\s]+:|$)`; `$` has no
      `m` flag, so it means the end of the input only. */
  ghost predicate StopSpec(s: string, e: int)
  {
    e == |s| || NextLabelAheadSpec(s, e)
  }

  predicate Stop(s: string, e: nat)
  {
    e == |s| || NextLabelAhead(s, e)
  }

  /** The first point at or after `e` where the capture may stop. */
  function NextStop(s: string, e: nat): (r: nat)
    requires e <= |s|
    ensures e <= r <= |s|
    ensures StopSpec(s, r)
    ensures forall k :: e <= k < r ==> !StopSpec(s, k)
    decreases |s| - e
  {
    NextLabelAheadCorrect(s, e);
    if Stop(s, e) then e else NextStop(s, e + 1)
  }

  /** The match of pattern 1: the leftmost `Label:`, the greedy `\s*` after it,
      and the shortest capture after which the lookahead holds. */
  ghost predicate LabeledSpan(s: string, name: string, sp: Span)
  {
    var key := LabeledKey(name);
    && Leftmost(key, s, sp.start)
    && sp.start + |key| <= sp.lo <= sp.hi <= |s|
    && (forall k :: sp.start + |key| <= k < sp.lo ==> IsSpace(s[k]))
    && (sp.lo == |s| || !IsSpace(s[sp.lo]))
    && StopSpec(s, sp.hi)
    && (forall k :: sp.lo <= k < sp.hi ==> !StopSpec(s, k))
  }

  /** Pattern 1 matches exactly when `Label:` occurs anywhere, because the
      capture can always end at the end of the input. */
  function ScanLabeled(s: string, name: string): (r: Option<Span>)
    ensures r.None? <==> forall i :: !OccursAt(LabeledKey(name), s, i)
    ensures r.Some? ==> LabeledSpan(s, name, r.value)
  {
    var key := LabeledKey(name);
    match Find(key, s, 0)
    case None => None
    case Some(i) =>
      var lo := SkipWhile(s, i + |key|, IsSpace);
      Some(Span(i, lo, NextStop(s, lo)))
  }

  // ---------------------------------------------------------------------------
  // Pattern 2: the quoted pair

  /** The match of pattern 2 at `sp.start`: `"Label":`, whitespace, a `"`, a
      capture free of `"`, and the closing `"`. */
  ghost predicate QuotedSpan(s: string, name: string, sp: Span)
  {
    var key := QuotedKey(name);
    && OccursAt(key, s, sp.start)
    && sp.start + |key| < sp.lo <= sp.hi < |s|
    && (forall k :: sp.start + |key| <= k < sp.lo - 1 ==> IsSpace(s[k]))
    && s[sp.lo - 1] == '"'
    && s[sp.hi] == '"'
    && (forall k :: sp.lo <= k < sp.hi ==> s[k] != '"')
  }

  ghost predicate QuotedMatchAt(s: string, name: string, i: nat)
  {
    exists lo: nat, hi: nat :: QuotedSpan(s, name, Span(i, lo, hi))
  }

  /** An occurrence of `"Label":` that is not followed by whitespace, `"`, and a
      later `"` is no match of pattern 2. */
  lemma QuotedNoMatchAt(s: string, name: string, i: nat)
    requires OccursAt(QuotedKey(name), s, i)
    requires var q := SkipWhile(s, i + |QuotedKey(name)|, IsSpace);
             !(q < |s| && s[q] == '"' && NextIndexOf(s, '"', q + 1) < |s|)
    ensures !QuotedMatchAt(s, name, i)
  {
  }

  /** An occurrence of `"Label":` followed by whitespace, `"`, and a later `"`
      is a match of pattern 2, whose capture runs to the first later `"`. */
  lemma QuotedMatchFound(s: string, name: string, i: nat)
    requires OccursAt(QuotedKey(name), s, i)
    requires var q := SkipWhile(s, i + |QuotedKey(name)|, IsSpace);
             q < |s| && s[q] == '"' && NextIndexOf(s, '"', q + 1) < |s|
    ensures var q := SkipWhile(s, i + |QuotedKey(name)|, IsSpace);
            QuotedSpan(s, name, Span(i, q + 1, NextIndexOf(s, '"', q + 1)))
  {
  }

  /** The match of pattern 2 starting at `i`, if there is one. */
  function QuotedAt(s: string, name: string, i: nat): (r: Option<Span>)
    ensures r.Some? ==> r.value.start == i && QuotedSpan(s, name, r.value)
    ensures r.None? ==> !QuotedMatchAt(s, name, i)
  {
    var key := QuotedKey(name);
    if !OccursAt(key, s, i) then None
    else
      var q := SkipWhile(s, i + |key|, IsSpace);
      if q < |s| && s[q] == '"' && NextIndexOf(s, '"', q + 1) < |s| then
        QuotedMatchFound(s, name, i);
        Some(Span(i, q + 1, NextIndexOf(s, '"', q + 1)))
      else
        QuotedNoMatchAt(s, name, i);
        None
  }

  /** The leftmost match of pattern 2 at or after `from`: the regular-expression
      engine tries each start position in turn. */
  function QuotedFrom(s: string, name: string, from: nat): (r: Option<Span>)
    requires from <= |s|
    ensures r.None? ==> forall i: nat :: from <= i <= |s| ==> !QuotedMatchAt(s, name, i)
    ensures r.Some? ==> from <= r.value.start && QuotedSpan(s, name, r.value)
    ensures r.Some? ==> forall i: nat :: from <= i < r.value.start ==> !QuotedMatchAt(s, name, i)
    decreases |s| - from
  {
    match QuotedAt(s, name, from)
    case Some(sp) => Some(sp)
    case None => if from == |s| then None else QuotedFrom(s, name, from + 1)
  }

  function ScanQuoted(s: string, name: string): (r: Option<Span>)
    ensures r.None? <==> forall i: nat :: !QuotedMatchAt(s, name, i)
    ensures r.Some? ==> QuotedSpan(s, name, r.value)
    ensures r.Some? ==> forall i: nat :: i < r.value.start ==> !QuotedMatchAt(s, name, i)
  {
    var r := QuotedFrom(s, name, 0);
    assert r.Some? ==> QuotedSpan(s, name, Span(r.value.start, r.value.lo, r.value.hi));
    assert r.Some? ==> QuotedMatchAt(s, name, r.value.start);
    assert forall i: nat :: i > |s| ==> !QuotedMatchAt(s, name, i);
    r
  }

  // ---------------------------------------------------------------------------
  // Pattern 3: the bracketed heading

  /** The match of pattern 3: the leftmost `【Label】` and the shortest capture
      that ends at a `【` or at the end of the input. */
  ghost predicate BracketedSpan(s: string, name: string, sp: Span)
  {
    var key := BracketedKey(name);
    && Leftmost(key, s, sp.start)
    && sp.lo == sp.start + |key|
    && sp.lo <= sp.hi <= |s|
    && (sp.hi == |s| || s[sp.hi] == Open)
    && (forall k :: sp.lo <= k < sp.hi ==> s[k] != Open)
  }

  function ScanBracketed(s: string, name: string): (r: Option<Span>)
    ensures r.None? <==> forall i :: !OccursAt(BracketedKey(name), s, i)
    ensures r.Some? ==> BracketedSpan(s, name, r.value)
  {
    var key := BracketedKey(name);
    match Find(key, s, 0)
    case None => None
    case Some(i) => Some(Span(i, i + |key|, NextIndexOf(s, Open, i + |key|)))
  }

  // ---------------------------------------------------------------------------
  // First match and cleanup

  ghost predicate SpanOf(p: Pattern, s: string, name: string, sp: Span)
  {
    match p
    case LabeledLine => LabeledSpan(s, name, sp)
    case Quoted => QuotedSpan(s, name, sp)
    case Bracketed => BracketedSpan(s, name, sp)
  }

  /** `text.match(pattern)`, reduced to the capture group `match[1]`. */
  function Capture(p: Pattern, s: string, name: string): (r: Option<string>)
    ensures r.Some? ==> exists sp :: SpanOf(p, s, name, sp) && r.value == s[sp.lo..sp.hi]
  {
    var m := match p
      case LabeledLine => ScanLabeled(s, name)
      case Quoted => ScanQuoted(s, name)
      case Bracketed => ScanBracketed(s, name);
    match m
    case None => None
    case Some(sp) =>
      assert SpanOf(p, s, name, sp);
      Some(s[sp.lo..sp.hi])
  }

  /** The loop over the pattern array: the capture of the first pattern of `ps`
      that matches. */
  function FirstCapture(ps: seq<Pattern>, s: string, name: string): (r: Option<string>)
    ensures r.None? <==> forall k :: 0 <= k < |ps| ==> Capture(ps[k], s, name).None?
  {
    if ps == [] then None
    else
      match Capture(ps[0], s, name)
      case Some(c) => Some(c)
      case None =>
        assert forall k :: 1 <= k < |ps| ==> ps[1..][k - 1] == ps[k];
        FirstCapture(ps[1..], s, name)
  }

  /** The loop returns at the first pattern that matches. */
  lemma {:induction false} FirstCaptureIsFirst(ps: seq<Pattern>, s: string, name: string, k: nat)
    requires k < |ps| && Capture(ps[k], s, name).Some?
    requires forall j :: 0 <= j < k ==> Capture(ps[j], s, name).None?
    ensures FirstCapture(ps, s, name) == Capture(ps[k], s, name)
  {
    if k > 0 {
      assert Capture(ps[0], s, name).None?;
      assert forall j :: 0 <= j < k - 1 ==> ps[1..][j] == ps[j + 1];
      FirstCaptureIsFirst(ps[1..], s, name, k - 1);
    }
  }

  /** `.trim().replace(/\n+/g, ' ')`. */
  function Clean(s: string): (r: string)
    ensures '\n' !in r
    ensures r == [] || (!IsSpace(r[0]) && !IsSpace(r[|r| - 1]))
  {
    var t := Trim(s);
    CollapseTrimmed(t);
    CollapseNewlines(t)
  }

  /** `extractField(text, name)`: the cleaned first capture, or the sentinel.
      Either way the value is trimmed and holds no newline. */
  function ExtractField(s: string, name: string): (r: string)
    ensures '\n' !in r
    ensures r == [] || (!IsSpace(r[0]) && !IsSpace(r[|r| - 1]))
  {
    match FirstCapture(Patterns, s, name)
    case Some(c) => Clean(c)
    case None => NoData
  }

  // ---------------------------------------------------------------------------
  // The scanners compute exactly the regular expressions' matches

  lemma LeftmostUnique(p: string, s: string, i: nat, j: nat)
    requires Leftmost(p, s, i) && Leftmost(p, s, j)
    ensures i == j
  {
  }

  /** Pattern 1's match is determined by the text: whatever span satisfies its
      description is the one the scanner returns. */
  lemma {:induction false} LabeledCaptureIs(s: string, name: string, sp: Span)
    requires LabeledSpan(s, name, sp)
    ensures Capture(LabeledLine, s, name) == Some(s[sp.lo..sp.hi])
  {
    var r := ScanLabeled(s, name);
    assert OccursAt(LabeledKey(name), s, sp.start);
    var t := r.value;
    LeftmostUnique(LabeledKey(name), s, sp.start, t.start);
    assert t.lo == sp.lo;
    assert t.hi == sp.hi;
  }

  /** Pattern 2's leftmost match is determined by the text. */
  lemma QuotedCaptureIs(s: string, name: string, sp: Span)
    requires QuotedSpan(s, name, sp)
    requires forall i: nat :: i < sp.start ==> !QuotedMatchAt(s, name, i)
    ensures Capture(Quoted, s, name) == Some(s[sp.lo..sp.hi])
  {
    assert QuotedMatchAt(s, name, sp.start);
    var t := ScanQuoted(s, name).value;
    assert QuotedSpan(s, name, Span(t.start, t.lo, t.hi));
    assert QuotedMatchAt(s, name, t.start);
    assert t.start == sp.start;
    assert t.lo == sp.lo;
    assert t.hi == sp.hi;
  }

  /** Pattern 3's match is determined by the text. */
  lemma BracketedCaptureIs(s: string, name: string, sp: Span)
    requires BracketedSpan(s, name, sp)
    ensures Capture(Bracketed, s, name) == Some(s[sp.lo..sp.hi])
  {
    var t := ScanBracketed(s, name).value;
    LeftmostUnique(BracketedKey(name), s, sp.start, t.start);
    assert t.hi == sp.hi;
  }

  // ---------------------------------------------------------------------------
  // Properties of extractField

  /** First match wins: the labeled line, then the quoted pair, then the
      bracketed heading, and the sentinel when none of them matches. */
  lemma ExtractFieldOrder(s: string, name: string)
    ensures var line, quoted, bracketed :=
              Capture(LabeledLine, s, name), Capture(Quoted, s, name), Capture(Bracketed, s, name);
            ExtractField(s, name)
            == if line.Some? then Clean(line.value)
               else if quoted.Some? then Clean(quoted.value)
               else if bracketed.Some? then Clean(bracketed.value)
               else NoData
  {
    var ps := Patterns;
    assert ps[0] == LabeledLine && ps[1] == Quoted && ps[2] == Bracketed;
    if Capture(LabeledLine, s, name).Some? {
      FirstCaptureIsFirst(ps, s, name, 0);
    } else if Capture(Quoted, s, name).Some? {
      assert forall j :: 0 <= j < 1 ==> ps[j] == LabeledLine;
      FirstCaptureIsFirst(ps, s, name, 1);
    } else if Capture(Bracketed, s, name).Some? {
      assert forall j :: 0 <= j < 2 ==> ps[j] == LabeledLine || ps[j] == Quoted;
      FirstCaptureIsFirst(ps, s, name, 2);
    }
  }

  /** Whenever `Label:` occurs in the text the labeled-line pattern matches, so the
      quoted and bracketed forms of the same field are never consulted. */
  lemma LabeledLineWins(s: string, name: string, i: int)
    requires OccursAt(LabeledKey(name), s, i)
    ensures Capture(LabeledLine, s, name).Some?
    ensures ExtractField(s, name) == Clean(Capture(LabeledLine, s, name).value)
  {
    ExtractFieldOrder(s, name);
  }

  /** A field whose label occurs nowhere in the text is reported as the sentinel,
      whatever other fields the text holds and in whichever form: each of the
      three keys contains the label. */
  lemma AbsentLabel(s: string, name: string)
    requires forall i :: !OccursAt(name, s, i)
    ensures ExtractField(s, name) == NoData
  {
    forall i ensures !OccursAt(LabeledKey(name), s, i) {
      if OccursAt(LabeledKey(name), s, i) {
        assert LabeledKey(name)[0..|name|] == name;
        OccursWithin(name, LabeledKey(name), 0, s, i);
      }
    }
    forall i ensures !OccursAt(BracketedKey(name), s, i) {
      if OccursAt(BracketedKey(name), s, i) {
        assert BracketedKey(name)[1..1 + |name|] == name;
        OccursWithin(name, BracketedKey(name), 1, s, i);
      }
    }
    forall i: nat ensures !QuotedMatchAt(s, name, i) {
      if QuotedMatchAt(s, name, i) {
        var lo: nat, hi: nat :| QuotedSpan(s, name, Span(i, lo, hi));
        assert QuotedKey(name)[1..1 + |name|] == name;
        OccursWithin(name, QuotedKey(name), 1, s, i);
      }
    }
    ExtractFieldOrder(s, name);
  }

  /** A quoted capture holds no `"`. */
  lemma QuotedCaptureHasNoQuote(s: string, name: string)
    ensures Capture(Quoted, s, name).Some? ==> '"' !in Capture(Quoted, s, name).value
  {
  }

  /** A bracketed capture holds no `【`. */
  lemma BracketedCaptureHasNoOpen(s: string, name: string)
    ensures var c := Capture(Bracketed, s, name);
            c.Some? ==> Open !in c.value
  {
    var c := Capture(Bracketed, s, name);
    if c.Some? {
      var sp := ScanBracketed(s, name).value;
      var v := s[sp.lo..sp.hi];
      assert c.value == v;
      assert forall j :: 0 <= j < |v| ==> v[j] != Open;
    }
  }

  /** A bracketed capture is the text right after the first `【Label】` heading,
      up to the next `【` or to the end of the text. */
  lemma BracketedCaptureFollowsHeading(s: string, name: string)
    ensures var c, key := Capture(Bracketed, s, name), BracketedKey(name);
            c.Some? ==> exists i: nat :: && Leftmost(key, s, i)
                                    && i + |key| + |c.value| <= |s|
                                    && s[i + |key|..i + |key| + |c.value|] == c.value
                                    && (i + |key| + |c.value| == |s| || s[i + |key| + |c.value|] == Open)
  {
    var c := Capture(Bracketed, s, name);
    if c.Some? {
      var sp := ScanBracketed(s, name).value;
      var key := BracketedKey(name);
      assert c.value == s[sp.lo..sp.hi];
      var i := sp.start;
      assert BracketedSpan(s, name, sp);
      assert i + |key| == sp.lo && i + |key| + |c.value| == sp.hi;
      assert && Leftmost(key, s, i)
             && i + |key| + |c.value| <= |s|
             && s[i + |key|..i + |key| + |c.value|] == c.value
             && (i + |key| + |c.value| == |s| || s[i + |key| + |c.value|] == Open);
    }
  }
}
