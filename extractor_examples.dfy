/** Plain-text replies made of labeled lines, and the values `extractField`
    reads from them. */
module ExtractorExamples {
  import opened Wrappers
  import opened JsText
  import opened FieldExtractor

  /** Cleaning leaves text that is already trimmed and free of newlines alone. */
  lemma CleanUnchanged(s: string)
    requires '\n' !in s
    requires s == [] || (!IsSpace(s[0]) && !IsSpace(s[|s| - 1]))
    ensures Clean(s) == s
  {
    TrimUnchanged(s);
    CollapseNewlineFree(s);
  }

  /** A value on a labeled line: non-empty, on one line, and without whitespace
      at either end. */
  ghost predicate LineValue(v: string)
  {
    v != [] && '\n' !in v && !IsSpace(v[0]) && !IsSpace(v[|v| - 1])
  }

  /** `s` is the reply `A: v\nB: w`, described character by character. */
  ghost predicate TwoLines(s: string, a: string, v: string, b: string, w: string)
  {
    var n := |a| + 2 + |v|;
    && |s| == n + 3 + |b| + |w|
    && s[..|a| + 1] == a + ":"
    && s[|a| + 1] == ' '
    && (forall k :: 0 <= k < |v| ==> s[|a| + 2 + k] == v[k])
    && s[n] == '\n'
    && s[n + 1..n + 2 + |b|] == b + ":"
    && (forall k :: 0 <= k < |b| ==> s[n + 1 + k] == b[k])
    && s[n + 2 + |b|] == ' '
    && (forall k :: 0 <= k < |w| ==> s[n + 3 + |b| + k] == w[k])
  }

  lemma TwoLinesLayout(a: string, v: string, b: string, w: string)
    ensures TwoLines(a + ": " + v + "\n" + b + ": " + w, a, v, b, w)
  {
    var s := a + ": " + v + "\n" + b + ": " + w;
    var n := |a| + 2 + |v|;
    assert s[..|a| + 1] == a + ":";
    assert s[n + 1..n + 2 + |b|] == b + ":";
  }

  lemma TailSlice(head: string, v: string)
    ensures (head + v)[|head|..|head + v|] == v
  {
  }

  lemma FirstLineSlice(a: string, v: string, b: string, w: string)
    ensures (a + ": " + v + "\n" + b + ": " + w)[|a| + 2..|a| + 2 + |v|] == v
  {
    var s := a + ": " + v + "\n" + b + ": " + w;
    assert s[..|a| + 2 + |v|] == a + ": " + v;
  }

  /** Field `A` of the reply: its capture is `v`, stopped by the line `B:`. */
  lemma FirstLineSpan(s: string, a: string, v: string, b: string, w: string)
    requires TwoLines(s, a, v, b, w) && LineValue(v) && LineLabel(b)
    ensures LabeledSpan(s, a, Span(0, |a| + 2, |a| + 2 + |v|))
  {
    var n := |a| + 2 + |v|;
    assert OccursAt(LabeledKey(a), s, 0);
    assert s[|a| + 2] == v[0];
    assert s[n + 1 + |b|] == (b + ":")[|b|] == ':';
    assert forall k :: n + 1 <= k < n + 1 + |b| ==> IsWordOrSpace(s[k]);
    assert NextLabelAheadSpec(s, n);
    forall k | |a| + 2 <= k < n ensures s[k] != '\n' {
      assert s[k] == v[k - |a| - 2] && v[k - |a| - 2] in v;
    }
  }

  /** The field's value is the labeled-line capture, cleaned. */
  lemma LabeledCleaned(s: string, a: string, sp: Span)
    requires LabeledSpan(s, a, sp)
    ensures ExtractField(s, a) == Clean(s[sp.lo..sp.hi])
  {
    LabeledCaptureIs(s, a, sp);
    LabeledLineWins(s, a, sp.start);
  }

  /** A labeled-line capture that is already a clean one-line value is the
      field's value. */
  lemma LabeledValue(s: string, a: string, sp: Span)
    requires LabeledSpan(s, a, sp) && LineValue(s[sp.lo..sp.hi])
    ensures ExtractField(s, a) == s[sp.lo..sp.hi]
  {
    var t := s[sp.lo..sp.hi];
    assert '\n' !in t && !IsSpace(t[0]) && !IsSpace(t[|t| - 1]);
    CleanUnchanged(t);
    LabeledCleaned(s, a, sp);
  }

  /** In the reply `A: v\nB: w` the field `A` reads `v`. */
  lemma FirstLine(a: string, v: string, b: string, w: string)
    requires LineValue(v) && LineLabel(b)
    ensures ExtractField(a + ": " + v + "\n" + b + ": " + w, a) == v
  {
    var s := a + ": " + v + "\n" + b + ": " + w;
    var sp := Span(0, |a| + 2, |a| + 2 + |v|);
    FirstLineSlice(a, v, b, w);
    assert LineValue(s[sp.lo..sp.hi]);
    TwoLinesLayout(a, v, b, w);
    FirstLineSpan(s, a, v, b, w);
    LabeledValue(s, a, sp);
  }

  /** Field `B` of the reply: its first `B:` is the second line's, and its capture
      `w` runs to the end of the text. */
  lemma SecondLineSpan(s: string, a: string, v: string, b: string, w: string)
    requires TwoLines(s, a, v, b, w) && LineValue(w) && LineLabel(b)
    requires b[0] !in a && b[0] !in v
    ensures LabeledSpan(s, b, Span(|a| + 3 + |v|, |a| + 5 + |v| + |b|, |s|))
  {
    var n := |a| + 2 + |v|;
    forall j | 0 <= j <= n ensures s[j] != b[0] {
      if j < |a| {
        assert s[j] == s[..|a| + 1][j] == a[j] && a[j] in a;
      } else if j == |a| {
        assert s[j] == s[..|a| + 1][j] == ':';
      } else if |a| + 2 <= j < n {
        assert s[j] == v[j - |a| - 2] && v[j - |a| - 2] in v;
      }
    }
    forall j | 0 <= j <= n ensures !OccursAt(LabeledKey(b), s, j) {
      if OccursAt(LabeledKey(b), s, j) { OccursAtHead(LabeledKey(b), s, j); }
    }
    assert OccursAt(LabeledKey(b), s, n + 1);
    assert s[n + 3 + |b|] == w[0];
    forall k | n + 3 + |b| <= k < |s| ensures s[k] != '\n' {
      assert s[k] == w[k - n - 3 - |b|] && w[k - n - 3 - |b|] in w;
    }
  }

  /** In the reply `A: v\nB: w` the field `B` reads `w`, provided `B:` does not
      already occur on the first line. */
  lemma SecondLine(a: string, v: string, b: string, w: string)
    requires LineValue(w) && LineLabel(b)
    requires b[0] !in a && b[0] !in v
    ensures ExtractField(a + ": " + v + "\n" + b + ": " + w, b) == w
  {
    var head := a + ": " + v + "\n" + b + ": ";
    var s := head + w;
    var sp := Span(|a| + 3 + |v|, |a| + 5 + |v| + |b|, |s|);
    TailSlice(head, w);
    assert sp.lo == |head|;
    assert LineValue(s[sp.lo..sp.hi]);
    TwoLinesLayout(a, v, b, w);
    SecondLineSpan(s, a, v, b, w);
    LabeledValue(s, b, sp);
  }

  /** `c` appears nowhere in the reply `A: v\nB: w`. */
  lemma NotInTwoLines(a: string, v: string, b: string, w: string, c: char)
    requires c !in a && c !in v && c !in b && c !in w
    requires c != ':' && c != ' ' && c != '\n'
    ensures c !in a + ": " + v + "\n" + b + ": " + w
  {
  }

  /** A field whose label starts with a character absent from the reply
      `A: v\nB: w` reads as the sentinel. */
  lemma MissingField(a: string, v: string, b: string, w: string, name: string)
    requires name != []
    requires name[0] !in a && name[0] !in v && name[0] !in b && name[0] !in w
    requires name[0] != ':' && name[0] != ' ' && name[0] != '\n'
    ensures ExtractField(a + ": " + v + "\n" + b + ": " + w, name) == NoData
  {
    var s := a + ": " + v + "\n" + b + ": " + w;
    NotInTwoLines(a, v, b, w, name[0]);
    forall i ensures !OccursAt(name, s, i) {
      if OccursAt(name, s, i) { OccursAtHead(name, s, i); }
    }
    AbsentLabel(s, name);
  }

  /** The reply `P` + `A: v`, where nothing in `P` can start `A:` and `v` holds
      no `:`: the capture runs to the end of the text, across line breaks. */
  lemma LastLineSpan(p: string, a: string, v: string)
    requires a != [] && a[0] !in p
    requires v != [] && !IsSpace(v[0]) && ':' !in v
    ensures LabeledSpan(p + a + ": " + v, a, Span(|p|, |p + a + ": "|, |p + a + ": " + v|))
  {
    var s := p + a + ": " + v;
    var lo := |p| + |a| + 2;
    assert s[|p|..|p| + |a| + 1] == a + ":";
    assert OccursAt(LabeledKey(a), s, |p|);
    forall j | 0 <= j < |p| ensures !OccursAt(LabeledKey(a), s, j) {
      if OccursAt(LabeledKey(a), s, j) {
        OccursAtHead(LabeledKey(a), s, j);
      }
    }
    assert s[lo - 1] == ' ' && s[lo] == v[0];
    forall j | lo <= j < |s| ensures s[j] != ':' {
      assert s[j] == v[j - lo] && v[j - lo] in v;
    }
  }

  /** A labeled-line capture that is its own trim is the field's value with its
      newline runs collapsed. */
  lemma LabeledCollapsed(s: string, a: string, sp: Span, v: string)
    requires LabeledSpan(s, a, sp) && s[sp.lo..sp.hi] == v
    requires v == [] || (!IsSpace(v[0]) && !IsSpace(v[|v| - 1]))
    ensures ExtractField(s, a) == CollapseNewlines(v)
  {
    LabeledCleaned(s, a, sp);
    TrimUnchanged(v);
  }

  /** A label need not start a line (`Food Safety:` serves the field `Safety`),
      and a value that runs over several lines comes out with each run of
      newlines replaced by one space. */
  lemma LastLine(p: string, a: string, v: string)
    requires a != [] && a[0] !in p
    requires v != [] && !IsSpace(v[0]) && !IsSpace(v[|v| - 1]) && ':' !in v
    ensures ExtractField(p + a + ": " + v, a) == CollapseNewlines(v)
  {
    var head := p + a + ": ";
    var s := head + v;
    var sp := Span(|p|, |head|, |s|);
    TailSlice(head, v);
    LastLineSpan(p, a, v);
    LabeledCollapsed(s, a, sp, v);
  }
}
