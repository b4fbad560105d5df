/**
 * The text rules of client/src/lib/pptxExport.ts: `parseInlineFormatting`,
 * which splits a line at the `<b>`, `<strong>`, `<i>`, `<em>` tags and their
 * closers into runs carrying the bold and italic flags in force, `hexToRgb`,
 * and the file name `exportToPptx` writes. The tag pattern has the `i` flag;
 * without the `u` flag JavaScript folds no character outside ASCII onto an
 * ASCII letter, so matching is ASCII case folding.
 */
module PptxExport {
  import opened Common

  function LowerAscii(c: char): char {
    if 'A' <= c <= 'Z' then (c as int + 32) as char else c
  }

  /** `s.toLowerCase()` on the text of a match, which is ASCII. */
  function LowerString(s: string): (r: string)
    ensures |r| == |s|
    ensures forall i :: 0 <= i < |s| ==> r[i] == LowerAscii(s[i])
  {
    if s == [] then [] else [LowerAscii(s[0])] + LowerString(s[1..])
  }

  datatype TagEffect = BoldOn | BoldOff | ItalicOn | ItalicOff

  datatype InlineTag = InlineTag(effect: TagEffect, text: string)

  /** The alternatives of the tag pattern, in the pattern's order. */
  function Alt(k: nat): InlineTag
    requires k < 8
  {
    if k == 0 then InlineTag(BoldOn, "<b>")
    else if k == 1 then InlineTag(BoldOff, "</b>")
    else if k == 2 then InlineTag(ItalicOn, "<i>")
    else if k == 3 then InlineTag(ItalicOff, "</i>")
    else if k == 4 then InlineTag(BoldOn, "<strong>")
    else if k == 5 then InlineTag(BoldOff, "</strong>")
    else if k == 6 then InlineTag(ItalicOn, "<em>")
    else InlineTag(ItalicOff, "</em>")
  }

  /** Each tag starts with `<`, has no other `<`, and is at least three characters long. */
  predicate TagShaped(t: string) {
    3 <= |t| && t[0] == '<' && forall j :: 1 <= j < |t| ==> t[j] != '<'
  }

  lemma AltShaped(k: nat)
    requires k < 8
    ensures TagShaped(Alt(k).text)
  {
  }

  /** The character at `i` is `c` up to ASCII case. */
  predicate CharIs(s: string, i: nat, c: char) {
    i < |s| && LowerAscii(s[i]) == c
  }

  /** The `k`-th alternative matches after the `<` at `i`, character by character up to ASCII case. */
  predicate AltMatches(s: string, i: nat, k: nat)
    requires k < 8
  {
    if k == 0 then CharIs(s, i + 1, 'b') && CharIs(s, i + 2, '>')
    else if k == 1 then CharIs(s, i + 1, '/') && CharIs(s, i + 2, 'b') && CharIs(s, i + 3, '>')
    else if k == 2 then CharIs(s, i + 1, 'i') && CharIs(s, i + 2, '>')
    else if k == 3 then CharIs(s, i + 1, '/') && CharIs(s, i + 2, 'i') && CharIs(s, i + 3, '>')
    else if k == 4 then
      CharIs(s, i + 1, 's') && CharIs(s, i + 2, 't') && CharIs(s, i + 3, 'r') && CharIs(s, i + 4, 'o') &&
      CharIs(s, i + 5, 'n') && CharIs(s, i + 6, 'g') && CharIs(s, i + 7, '>')
    else if k == 5 then
      CharIs(s, i + 1, '/') && CharIs(s, i + 2, 's') && CharIs(s, i + 3, 't') && CharIs(s, i + 4, 'r') &&
      CharIs(s, i + 5, 'o') && CharIs(s, i + 6, 'n') && CharIs(s, i + 7, 'g') && CharIs(s, i + 8, '>')
    else if k == 6 then CharIs(s, i + 1, 'e') && CharIs(s, i + 2, 'm') && CharIs(s, i + 3, '>')
    else CharIs(s, i + 1, '/') && CharIs(s, i + 2, 'e') && CharIs(s, i + 3, 'm') && CharIs(s, i + 4, '>')
  }

  /** The first alternative from the `k`-th on that matches at `i`. */
  function TagFrom(s: string, i: nat, k: nat): (r: Option<nat>)
    requires k <= 8
    ensures r.Some? ==> k <= r.value < 8
    decreases s, 8 - k
  {
    if k == 8 then None
    else if AltMatches(s, i, k) then Some(k)
    else TagFrom(s, i, k + 1)
  }

  lemma {:induction false} TagFromFound(s: string, i: nat, k: nat)
    requires k <= 8 && TagFrom(s, i, k).Some?
    ensures k <= TagFrom(s, i, k).value < 8 && AltMatches(s, i, TagFrom(s, i, k).value)
    decreases 8 - k
  {
    if k < 8 && !AltMatches(s, i, k) {
      TagFromFound(s, i, k + 1);
    }
  }

  /**
   * The tag the pattern matches when it is tried at position `i`: every
   * alternative starts with `<`, then they are tried in the pattern's order.
   */
  function TagAt(s: string, i: nat): Option<InlineTag> {
    if !(i < |s| && s[i] == '<') then None
    else match TagFrom(s, i, 0)
      case None => None
      case Some(k) => Some(Alt(k))
  }

  /** The text of alternative `k` is `<` followed by the characters `AltMatches` compares. */
  lemma AltSpan(s: string, i: nat, k: nat)
    requires k < 8 && i < |s| && s[i] == '<' && AltMatches(s, i, k)
    ensures var t := Alt(k).text;
      3 <= |t| && i + |t| <= |s| && forall j :: 0 <= j < |t| ==> CharIs(s, i + j, t[j])
  {
  }

  /** A matched tag starts with `<`, holds no other `<`, is at least three characters long and fits in the text. */
  lemma TagMatched(s: string, i: nat)
    requires TagAt(s, i).Some?
    ensures var t := TagAt(s, i).value.text;
      3 <= |t| && i + |t| <= |s| && s[i] == '<' && forall j :: i < j < i + |t| ==> s[j] != '<'
  {
    TagFromFound(s, i, 0);
    var k := TagFrom(s, i, 0).value;
    var t := Alt(k).text;
    AltShaped(k);
    AltSpan(s, i, k);
    forall j | i < j < i + |t|
      ensures s[j] != '<'
    {
      assert CharIs(s, i + (j - i), t[j - i]);
    }
  }

  /** A tag occurrence never overlaps another: a tag cannot start inside one. */
  lemma TagsDisjoint(s: string, i: nat, j: nat)
    requires TagAt(s, i).Some? && i < j < i + |TagAt(s, i).value.text|
    ensures TagAt(s, j).None?
  {
    TagMatched(s, i);
  }

  /** `regex.exec(text)` from `from` on: the leftmost position at or after `from` where a tag matches. */
  function NextTag(s: string, from: nat): (r: Option<nat>)
    ensures r.Some? ==> from <= r.value < |s| && TagAt(s, r.value).Some?
    decreases |s| - from
  {
    if from >= |s| then None
    else if TagAt(s, from).Some? then Some(from)
    else NextTag(s, from + 1)
  }

  /** No tag starts between `from` and the one `NextTag` finds, nor anywhere after `from` when it finds none. */
  lemma {:induction false} NextTagGap(s: string, from: nat)
    ensures NextTag(s, from).Some? ==> forall j: nat :: from <= j < NextTag(s, from).value ==> TagAt(s, j).None?
    ensures NextTag(s, from).None? ==> forall j: nat :: from <= j < |s| ==> TagAt(s, j).None?
    decreases |s| - from
  {
    if from < |s| && TagAt(s, from).None? {
      NextTagGap(s, from + 1);
    }
  }

  /** `options: {}` or `options: { bold, italic }`. */
  datatype RunOptions = NoOptions | Styled(bold: bool, italic: bool)

  datatype TextRun = TextRun(text: string, options: RunOptions)

  function NewBold(e: TagEffect, bold: bool): bool {
    if e == BoldOn then true else if e == BoldOff then false else bold
  }

  function NewItalic(e: TagEffect, italic: bool): bool {
    if e == ItalicOn then true else if e == ItalicOff then false else italic
  }

  /** The runs the loop pushes from `pos` on, with `bold` and `italic` in force there. */
  function ScanRuns(s: string, pos: nat, bold: bool, italic: bool): seq<TextRun>
    requires pos <= |s|
    decreases |s| - pos
  {
    match NextTag(s, pos)
    case None => if pos < |s| then [TextRun(s[pos..], Styled(bold, italic))] else []
    case Some(m) =>
      var t := TagAt(s, m).value;
      TagMatched(s, m);
      var rest := ScanRuns(s, m + |t.text|, NewBold(t.effect, bold), NewItalic(t.effect, italic));
      if m > pos then [TextRun(s[pos..m], Styled(bold, italic))] + rest else rest
  }

  /** One step of the scan: the text before the next tag, then the scan past it. */
  lemma ScanRunsStep(s: string, pos: nat, bold: bool, italic: bool, m: nat)
    requires pos <= |s| && NextTag(s, pos) == Some(m)
    ensures var t := TagAt(s, m).value;
      pos < m + |t.text| <= |s| &&
      var rest := ScanRuns(s, m + |t.text|, NewBold(t.effect, bold), NewItalic(t.effect, italic));
      (m > pos ==> ScanRuns(s, pos, bold, italic) == [TextRun(s[pos..m], Styled(bold, italic))] + rest) &&
      (m == pos ==> ScanRuns(s, pos, bold, italic) == rest)
  {
    TagMatched(s, m);
  }

  /** What `parseInlineFormatting` returns. */
  function InlineRuns(s: string): seq<TextRun> {
    var r := ScanRuns(s, 0, false, false);
    if r == [] then [TextRun(s, NoOptions)] else r
  }

  /** A stretch that matches `t` character by character up to case is `t` once lower-cased. */
  lemma LowerSpan(s: string, m: nat, t: string)
    requires m + |t| <= |s| && forall j :: 0 <= j < |t| ==> CharIs(s, m + j, t[j])
    ensures LowerString(s[m..m + |t|]) == t
  {
    var w := LowerString(s[m..m + |t|]);
    forall j | 0 <= j < |t|
      ensures w[j] == t[j]
    {
      assert s[m..m + |t|][j] == s[m + j];
      assert CharIs(s, m + j, t[j]);
    }
  }

  /** The lower-cased text of a match is the text of the alternative that matched. */
  lemma MatchedTagText(s: string, m: nat)
    requires TagAt(s, m).Some?
    ensures var t := TagAt(s, m).value;
      TagFrom(s, m, 0).Some? && t == Alt(TagFrom(s, m, 0).value) &&
      m + |t.text| <= |s| && LowerString(s[m..m + |t.text|]) == t.text
  {
    TagFromFound(s, m, 0);
    var k := TagFrom(s, m, 0).value;
    AltSpan(s, m, k);
    LowerSpan(s, m, Alt(k).text);
  }

  /** The tag branch of the loop: the lower-cased match names the flag it sets or clears. */
  method ApplyTag(tag: string, bold: bool, italic: bool) returns (bold': bool, italic': bool)
    ensures forall k :: 0 <= k < 8 && tag == Alt(k).text ==>
      bold' == NewBold(Alt(k).effect, bold) && italic' == NewItalic(Alt(k).effect, italic)
  {
    bold', italic' := bold, italic;
    if tag == "<b>" || tag == "<strong>" {
      bold' := true;
    } else if tag == "</b>" || tag == "</strong>" {
      bold' := false;
    } else if tag == "<i>" || tag == "<em>" {
      italic' := true;
    } else if tag == "</i>" || tag == "</em>" {
      italic' := false;
    }
  }

  /**
   * The scan in the loop's own form: `acc` is what has been pushed so far,
   * and the runs from `pos` on are appended to it.
   */
  function ScanInto(s: string, pos: nat, bold: bool, italic: bool, acc: seq<TextRun>): seq<TextRun>
    requires pos <= |s|
    decreases |s| - pos
  {
    match NextTag(s, pos)
    case None => if pos < |s| then acc + [TextRun(s[pos..], Styled(bold, italic))] else acc
    case Some(m) =>
      var t := TagAt(s, m).value;
      TagMatched(s, m);
      ScanInto(s, m + |t.text|, NewBold(t.effect, bold), NewItalic(t.effect, italic),
        if m > pos then acc + [TextRun(s[pos..m], Styled(bold, italic))] else acc)
  }

  /** The loop's form appends exactly the runs of the scan. */
  lemma {:induction false} ScanIntoRuns(s: string, pos: nat, bold: bool, italic: bool, acc: seq<TextRun>)
    requires pos <= |s|
    ensures ScanInto(s, pos, bold, italic, acc) == acc + ScanRuns(s, pos, bold, italic)
    decreases |s| - pos
  {
    match NextTag(s, pos)
    case None =>
      if pos >= |s| {
        assert acc + [] == acc;
      }
    case Some(m) =>
      var t := TagAt(s, m).value;
      TagMatched(s, m);
      var acc' := if m > pos then acc + [TextRun(s[pos..m], Styled(bold, italic))] else acc;
      ScanIntoRuns(s, m + |t.text|, NewBold(t.effect, bold), NewItalic(t.effect, italic), acc');
      ScanIntoRunsStep(s, pos, bold, italic, acc, m);
  }

  /** The step of `ScanIntoRuns` past one tag, given what it says about the rest. */
  lemma ScanIntoRunsStep(s: string, pos: nat, bold: bool, italic: bool, acc: seq<TextRun>, m: nat)
    requires pos <= |s| && NextTag(s, pos) == Some(m)
    requires var t := TagAt(s, m).value;
      var b, i := NewBold(t.effect, bold), NewItalic(t.effect, italic);
      var acc' := if m > pos then acc + [TextRun(s[pos..m], Styled(bold, italic))] else acc;
      m + |t.text| <= |s| &&
      ScanInto(s, m + |t.text|, b, i, acc') == acc' + ScanRuns(s, m + |t.text|, b, i)
    ensures ScanInto(s, pos, bold, italic, acc) == acc + ScanRuns(s, pos, bold, italic)
  {
    var t := TagAt(s, m).value;
    var next := m + |t.text|;
    var b, i := NewBold(t.effect, bold), NewItalic(t.effect, italic);
    var run := TextRun(s[pos..m], Styled(bold, italic));
    var acc' := if m > pos then acc + [run] else acc;
    ScanIntoStep(s, pos, bold, italic, acc, m, b, i, acc');
    ScanRunsStep(s, pos, bold, italic, m);
    if m > pos {
      ConcatAssoc(acc, [run], ScanRuns(s, next, b, i));
    }
  }

  /** One step of the loop's form. */
  lemma ScanIntoStep(s: string, pos: nat, bold: bool, italic: bool, acc: seq<TextRun>, m: nat,
                     bold': bool, italic': bool, acc': seq<TextRun>)
    requires pos <= |s| && NextTag(s, pos) == Some(m)
    requires var t := TagAt(s, m).value;
      bold' == NewBold(t.effect, bold) && italic' == NewItalic(t.effect, italic)
    requires acc' == if m > pos then acc + [TextRun(s[pos..m], Styled(bold, italic))] else acc
    ensures var t := TagAt(s, m).value;
      pos < m + |t.text| <= |s| &&
      ScanInto(s, m + |t.text|, bold', italic', acc') == ScanInto(s, pos, bold, italic, acc)
  {
    TagMatched(s, m);
  }

  /** From the start, with nothing pushed yet, the loop's form is the scan. */
  lemma ScanFromStart(s: string)
    ensures ScanInto(s, 0, false, false, []) == ScanRuns(s, 0, false, false)
  {
    ScanIntoRuns(s, 0, false, false, []);
    assert [] + ScanRuns(s, 0, false, false) == ScanRuns(s, 0, false, false);
  }

  /** The flags after the tag matched at `index`, from its lower-cased text. */
  method FlagsAfterMatch(text: string, index: nat, bold: bool, italic: bool) returns (bold': bool, italic': bool)
    requires TagAt(text, index).Some?
    ensures var t := TagAt(text, index).value;
      bold' == NewBold(t.effect, bold) && italic' == NewItalic(t.effect, italic)
  {
    var t := TagAt(text, index).value;
    MatchedTagText(text, index);
    ghost var k := TagFrom(text, index, 0).value;
    assert t == Alt(k);
    var matched := text[index..index + |t.text|];
    bold', italic' := ApplyTag(LowerString(matched), bold, italic);
  }

  /** The text between the previous match and this one, when there is any, becomes a run. */
  method PushText(text: string, lastIndex: nat, index: nat, bold: bool, italic: bool, parts: seq<TextRun>)
    returns (parts': seq<TextRun>)
    requires lastIndex <= index <= |text|
    ensures parts' == if index > lastIndex then parts + [TextRun(text[lastIndex..index], Styled(bold, italic))] else parts
  {
    parts' := parts;
    if index > lastIndex {
      parts' := parts + [TextRun(text[lastIndex..index], Styled(bold, italic))];
    }
  }

  /**
   * One pass of the loop over the match at `index`: the text before it is
   * pushed, the flags follow the match, and the scan resumes after it.
   */
  method PushMatch(text: string, lastIndex: nat, bold: bool, italic: bool, parts: seq<TextRun>, index: nat)
    returns (parts': seq<TextRun>, bold': bool, italic': bool, next: nat)
    requires lastIndex <= |text| && NextTag(text, lastIndex) == Some(index)
    ensures lastIndex < next <= |text|
    ensures ScanInto(text, next, bold', italic', parts') == ScanInto(text, lastIndex, bold, italic, parts)
  {
    var t := TagAt(text, index).value;
    parts' := PushText(text, lastIndex, index, bold, italic, parts);
    bold', italic' := FlagsAfterMatch(text, index, bold, italic);
    ScanIntoStep(text, lastIndex, bold, italic, parts, index, bold', italic', parts');
    next := index + |t.text|;
  }

  /** `parseInlineFormatting`. */
  method ParseInlineFormatting(text: string) returns (parts: seq<TextRun>)
    ensures parts == InlineRuns(text)
  {
    ghost var target := ScanInto(text, 0, false, false, []);
    parts := [];
    var bold, italic := false, false;
    var lastIndex: nat := 0;
    var found := NextTag(text, 0);
    while found.Some?
      invariant lastIndex <= |text|
      invariant found == NextTag(text, lastIndex)
      invariant ScanInto(text, lastIndex, bold, italic, parts) == target
      decreases |text| - lastIndex
    {
      parts, bold, italic, lastIndex := PushMatch(text, lastIndex, bold, italic, parts, found.value);
      found := NextTag(text, lastIndex);
    }
    if lastIndex < |text| {
      parts := parts + [TextRun(text[lastIndex..], Styled(bold, italic))];
    }
    ScanFromStart(text);
    if |parts| == 0 {
      parts := [TextRun(text, NoOptions)];
    }
  }

  // ---------------------------------------------------------------------
  // What the runs mean

  /** The text with every tag occurrence removed, scanning from `pos`. */
  function StripFrom(s: string, pos: nat): string
    requires pos <= |s|
    decreases |s| - pos
  {
    if pos == |s| then ""
    else match TagAt(s, pos)
      case Some(t) => TagMatched(s, pos); StripFrom(s, pos + |t.text|)
      case None => [s[pos]] + StripFrom(s, pos + 1)
  }

  function StripTags(s: string): string {
    StripFrom(s, 0)
  }

  function Texts(runs: seq<TextRun>): string {
    if runs == [] then "" else runs[0].text + Texts(runs[1..])
  }

  lemma {:induction false} TextsAppend(a: seq<TextRun>, b: seq<TextRun>)
    ensures Texts(a + b) == Texts(a) + Texts(b)
    decreases |a|
  {
    if a == [] {
      assert a + b == b;
    } else {
      assert (a + b)[1..] == a[1..] + b;
      TextsAppend(a[1..], b);
    }
  }

  /** Where no tag starts, stripping copies the text unchanged. */
  lemma {:induction false} StripPlain(s: string, p: nat, m: nat)
    requires p < m <= |s|
    requires forall j: nat :: p <= j < m ==> TagAt(s, j).None?
    ensures StripFrom(s, p) == s[p..m] + StripFrom(s, m)
    decreases m - p
  {
    assert StripFrom(s, p) == [s[p]] + StripFrom(s, p + 1);
    if p + 1 < m {
      StripPlain(s, p + 1, m);
      ConcatAssoc([s[p]], s[p + 1..m], StripFrom(s, m));
      assert s[p..m] == [s[p]] + s[p + 1..m];
    } else {
      assert s[p..m] == [s[p]];
    }
  }

  lemma TextsSingle(r: TextRun)
    ensures Texts([r]) == r.text
  {
    assert Texts([r]) == r.text + Texts([]);
  }

  /** The runs hold exactly the text outside the tags, in order. */
  lemma {:induction false} ScanText(s: string, pos: nat, bold: bool, italic: bool)
    requires pos <= |s|
    ensures Texts(ScanRuns(s, pos, bold, italic)) == StripFrom(s, pos)
    decreases |s| - pos
  {
    match NextTag(s, pos)
    case None =>
      if pos < |s| {
        NextTagGap(s, pos);
        StripPlain(s, pos, |s|);
        TextsSingle(TextRun(s[pos..], Styled(bold, italic)));
        assert s[pos..|s|] == s[pos..];
      }
    case Some(m) =>
      var t := TagAt(s, m).value;
      TagMatched(s, m);
      ScanText(s, m + |t.text|, NewBold(t.effect, bold), NewItalic(t.effect, italic));
      ScanTextStep(s, pos, bold, italic, m);
  }

  /** The step of `ScanText` past one tag, given what it says about the rest. */
  lemma ScanTextStep(s: string, pos: nat, bold: bool, italic: bool, m: nat)
    requires pos <= |s| && NextTag(s, pos) == Some(m)
    requires
      var t := TagAt(s, m).value;
      m + |t.text| <= |s| &&
      Texts(ScanRuns(s, m + |t.text|, NewBold(t.effect, bold), NewItalic(t.effect, italic))) == StripFrom(s, m + |t.text|)
    ensures Texts(ScanRuns(s, pos, bold, italic)) == StripFrom(s, pos)
  {
    ScanRunsStep(s, pos, bold, italic, m);
    var t := TagAt(s, m).value;
    var next := m + |t.text|;
    var rest := ScanRuns(s, next, NewBold(t.effect, bold), NewItalic(t.effect, italic));
    assert StripFrom(s, m) == StripFrom(s, next);
    if m > pos {
      var run := TextRun(s[pos..m], Styled(bold, italic));
      TextsAppend([run], rest);
      TextsSingle(run);
      NextTagGap(s, pos);
      StripPlain(s, pos, m);
    }
  }


  /** Every run the loop pushes is non-empty and carries explicit flags. */
  lemma {:induction false} ScanRunsShape(s: string, pos: nat, bold: bool, italic: bool)
    requires pos <= |s|
    ensures forall k :: 0 <= k < |ScanRuns(s, pos, bold, italic)| ==>
      ScanRuns(s, pos, bold, italic)[k].text != "" && ScanRuns(s, pos, bold, italic)[k].options.Styled?
    decreases |s| - pos
  {
    match NextTag(s, pos)
    case None =>
    case Some(m) =>
      var t := TagAt(s, m).value;
      TagMatched(s, m);
      ScanRunsShape(s, m + |t.text|, NewBold(t.effect, bold), NewItalic(t.effect, italic));
  }

  /** Nothing but tags (or nothing at all) is the one case with no run pushed. */
  lemma {:induction false} ScanEmptyIff(s: string, pos: nat, bold: bool, italic: bool)
    requires pos <= |s|
    ensures ScanRuns(s, pos, bold, italic) == [] <==> StripFrom(s, pos) == ""
  {
    ScanText(s, pos, bold, italic);
    ScanRunsShape(s, pos, bold, italic);
    var r := ScanRuns(s, pos, bold, italic);
    if r != [] {
      assert Texts(r) == r[0].text + Texts(r[1..]);
      assert |Texts(r)| >= |r[0].text| > 0;
    }
  }

  /**
   * The result of `parseInlineFormatting`: when some text lies outside the
   * tags, non-empty styled runs whose texts join to the input with its tags
   * removed; otherwise a single unstyled run holding the whole input.
   */
  lemma InlineRunsMeaning(s: string)
    ensures StripTags(s) != "" ==>
      Texts(InlineRuns(s)) == StripTags(s) &&
      forall k :: 0 <= k < |InlineRuns(s)| ==> InlineRuns(s)[k].text != "" && InlineRuns(s)[k].options.Styled?
    ensures StripTags(s) == "" ==> InlineRuns(s) == [TextRun(s, NoOptions)]
  {
    ScanEmptyIff(s, 0, false, false);
    ScanText(s, 0, false, false);
    ScanRunsShape(s, 0, false, false);
  }

  /** The bold flag at `p`: set by the last bold opener or closer that starts before `p`, false if none. */
  function BoldBefore(s: string, p: nat): bool
    requires p <= |s|
  {
    if p == 0 then false
    else match TagAt(s, p - 1)
      case Some(t) => if t.effect == BoldOn then true else if t.effect == BoldOff then false else BoldBefore(s, p - 1)
      case None => BoldBefore(s, p - 1)
  }

  /** The italic flag at `p`, by the same rule. */
  function ItalicBefore(s: string, p: nat): bool
    requires p <= |s|
  {
    if p == 0 then false
    else match TagAt(s, p - 1)
      case Some(t) => if t.effect == ItalicOn then true else if t.effect == ItalicOff then false else ItalicBefore(s, p - 1)
      case None => ItalicBefore(s, p - 1)
  }

  /** Flags only change at tags. */
  lemma {:induction false} FlagsAcrossPlain(s: string, p: nat, m: nat)
    requires p <= m <= |s|
    requires forall j: nat :: p <= j < m ==> TagAt(s, j).None?
    ensures BoldBefore(s, m) == BoldBefore(s, p) && ItalicBefore(s, m) == ItalicBefore(s, p)
    decreases m - p
  {
    if p < m {
      FlagsAcrossPlain(s, p, m - 1);
    }
  }

  /** Past a tag, a flag of that tag's kind is what the tag says; the other flag is unchanged. */
  lemma FlagsAfterTag(s: string, m: nat)
    requires TagAt(s, m).Some?
    ensures var t := TagAt(s, m).value;
      m + |t.text| <= |s| &&
      BoldBefore(s, m + |t.text|) == NewBold(t.effect, BoldBefore(s, m)) &&
      ItalicBefore(s, m + |t.text|) == NewItalic(t.effect, ItalicBefore(s, m))
  {
    var t := TagAt(s, m).value;
    TagMatched(s, m);
    forall j: nat | m + 1 <= j < m + |t.text|
      ensures TagAt(s, j).None?
    {
      TagsDisjoint(s, m, j);
    }
    FlagsAcrossPlain(s, m + 1, m + |t.text|);
  }

  /** The positions where the runs the loop pushes begin. */
  function RunStarts(s: string, pos: nat): seq<nat>
    requires pos <= |s|
    decreases |s| - pos
  {
    match NextTag(s, pos)
    case None => if pos < |s| then [pos] else []
    case Some(m) =>
      var t := TagAt(s, m).value;
      TagMatched(s, m);
      if m > pos then [pos] + RunStarts(s, m + |t.text|) else RunStarts(s, m + |t.text|)
  }

  /** `RunStarts` across one tag. */
  lemma RunStartsStep(s: string, pos: nat, m: nat)
    requires pos <= |s| && NextTag(s, pos) == Some(m)
    ensures var next := m + |TagAt(s, m).value.text|;
      next <= |s| &&
      (m > pos ==> RunStarts(s, pos) == [pos] + RunStarts(s, next)) &&
      (m == pos ==> RunStarts(s, pos) == RunStarts(s, next))
  {
    TagMatched(s, m);
  }

  /** Run `k` is the input's text at its start position and carries the flags in force there. */
  predicate RunFaithful(s: string, runs: seq<TextRun>, starts: seq<nat>, k: int)
    requires 0 <= k < |runs| && |starts| == |runs|
  {
    var p := starts[k];
    p + |runs[k].text| <= |s| && s[p..p + |runs[k].text|] == runs[k].text &&
    runs[k].options == Styled(BoldBefore(s, p), ItalicBefore(s, p))
  }

  /** From `pos` to just past the next tag, the flags change as that tag says. */
  lemma FlagsToNextTag(s: string, pos: nat, m: nat)
    requires pos <= |s| && NextTag(s, pos) == Some(m)
    ensures var t := TagAt(s, m).value;
      m + |t.text| <= |s| &&
      BoldBefore(s, m) == BoldBefore(s, pos) && ItalicBefore(s, m) == ItalicBefore(s, pos) &&
      BoldBefore(s, m + |t.text|) == NewBold(t.effect, BoldBefore(s, pos)) &&
      ItalicBefore(s, m + |t.text|) == NewItalic(t.effect, ItalicBefore(s, pos))
  {
    NextTagGap(s, pos);
    FlagsAcrossPlain(s, pos, m);
    FlagsAfterTag(s, m);
  }

  /** A faithful run in front of faithful runs. */
  lemma FaithfulCons(s: string, r: TextRun, rest: seq<TextRun>, p: nat, restStarts: seq<nat>)
    requires |restStarts| == |rest|
    requires p + |r.text| <= |s| && s[p..p + |r.text|] == r.text
    requires r.options == Styled(BoldBefore(s, p), ItalicBefore(s, p))
    requires forall k :: 0 <= k < |rest| ==> RunFaithful(s, rest, restStarts, k)
    ensures forall k :: 0 <= k < |rest| + 1 ==> RunFaithful(s, [r] + rest, [p] + restStarts, k)
  {
    var runs, starts := [r] + rest, [p] + restStarts;
    forall k | 0 <= k < |rest| + 1
      ensures RunFaithful(s, runs, starts, k)
    {
      if k == 0 {
        assert runs[0] == r && starts[0] == p;
      } else {
        assert runs[k] == rest[k - 1] && starts[k] == restStarts[k - 1];
        assert RunFaithful(s, rest, restStarts, k - 1);
      }
    }
  }

  /** `ScanFlags` across one tag, given it past the tag. */
  lemma ScanFlagsStep(s: string, pos: nat, m: nat)
    requires pos <= |s| && NextTag(s, pos) == Some(m)
    requires
      var next := m + |TagAt(s, m).value.text|;
      next <= |s| &&
      var runs := ScanRuns(s, next, BoldBefore(s, next), ItalicBefore(s, next));
      |RunStarts(s, next)| == |runs| &&
      forall k :: 0 <= k < |runs| ==> RunFaithful(s, runs, RunStarts(s, next), k)
    ensures var runs := ScanRuns(s, pos, BoldBefore(s, pos), ItalicBefore(s, pos));
      |RunStarts(s, pos)| == |runs| &&
      forall k :: 0 <= k < |runs| ==> RunFaithful(s, runs, RunStarts(s, pos), k)
  {
    var b, i := BoldBefore(s, pos), ItalicBefore(s, pos);
    var t := TagAt(s, m).value;
    var next := m + |t.text|;
    ScanRunsStep(s, pos, b, i, m);
    RunStartsStep(s, pos, m);
    FlagsToNextTag(s, pos, m);
    if m > pos {
      var rest := ScanRuns(s, next, BoldBefore(s, next), ItalicBefore(s, next));
      FaithfulCons(s, TextRun(s[pos..m], Styled(b, i)), rest, pos, RunStarts(s, next));
    }
  }

  /**
   * Each run is a stretch of the input and is bold (italic) exactly when the
   * last bold (italic) tag before it is an opener: closers reset a flag,
   * they do not count nesting.
   */
  lemma {:induction false} ScanFlags(s: string, pos: nat)
    requires pos <= |s|
    ensures var runs := ScanRuns(s, pos, BoldBefore(s, pos), ItalicBefore(s, pos));
      |RunStarts(s, pos)| == |runs| &&
      forall k :: 0 <= k < |runs| ==> RunFaithful(s, runs, RunStarts(s, pos), k)
    decreases |s| - pos
  {
    match NextTag(s, pos)
    case None =>
      if pos < |s| {
        assert s[pos..|s|] == s[pos..];
      }
    case Some(m) =>
      TagMatched(s, m);
      ScanFlags(s, m + |TagAt(s, m).value.text|);
      ScanFlagsStep(s, pos, m);
  }

  lemma {:induction false} TagFromLower(s: string, i: nat, k: nat)
    requires k <= 8
    ensures TagFrom(s, i, k) == TagFrom(LowerString(s), i, k)
    decreases 8 - k
  {
    if k < 8 {
      var u := LowerString(s);
      forall j: nat, c: char
        ensures CharIs(s, j, c) == CharIs(u, j, c)
      {
      }
      assert AltMatches(s, i, k) == AltMatches(u, i, k);
      TagFromLower(s, i, k + 1);
    }
  }

  /** Tags are recognised whatever the case of their letters. */
  lemma TagCaseInsensitive(s: string, i: nat)
    ensures TagAt(s, i) == TagAt(LowerString(s), i)
  {
    TagFromLower(s, i, 0);
    assert i < |s| ==> LowerString(s)[i] == LowerAscii(s[i]);
  }

  // ---------------------------------------------------------------------
  // Colours and the file name

  /** The index of the first `c` in `s`, or `|s|` when there is none. */
  function IndexOf(s: string, c: char): (i: nat)
    ensures i <= |s|
    ensures i < |s| ==> s[i] == c
    ensures forall j :: 0 <= j < i ==> s[j] != c
  {
    if s == [] then 0 else if s[0] == c then 0 else 1 + IndexOf(s[1..], c)
  }

  /** `hex.replace('#', '')`: the first `#` is removed, any later one stays. */
  function HexToRgb(hex: string): (r: string)
    ensures '#' !in hex ==> r == hex
    ensures |r| == if '#' in hex then |hex| - 1 else |hex|
  {
    if hex == [] then []
    else
      assert hex == [hex[0]] + hex[1..];
      if hex[0] == '#' then hex[1..] else [hex[0]] + HexToRgb(hex[1..])
  }

  /** What `hexToRgb` removes is the first `#`: the text before it and after it are kept. */
  lemma {:induction false} HexToRgbFirstHash(hex: string)
    requires '#' in hex
    ensures var i := IndexOf(hex, '#');
      i < |hex| && HexToRgb(hex) == hex[..i] + hex[i + 1..]
  {
    assert hex == [hex[0]] + hex[1..];
    if hex[0] != '#' {
      var t := hex[1..];
      assert '#' in t;
      HexToRgbFirstHash(t);
      var j := IndexOf(t, '#');
      assert IndexOf(hex, '#') == j + 1;
      assert HexToRgb(hex) == [hex[0]] + (t[..j] + t[j + 1..]);
      assert hex[..j + 1] == [hex[0]] + t[..j];
      assert hex[j + 2..] == t[j + 1..];
    }
  }

  /** `/\.pptx$/i.test(name)`. */
  predicate EndsWithPptx(name: string) {
    |name| >= 5 && LowerString(name[|name| - 5..]) == ".pptx"
  }

  /** `${filename.replace(/\.pptx$/i, '')}.pptx`. */
  function ExportFileName(filename: string): string {
    (if EndsWithPptx(filename) then filename[..|filename| - 5] else filename) + ".pptx"
  }

  /** The file name always ends in `.pptx`; an existing extension in any case is replaced, never doubled. */
  lemma ExportFileNameRule(filename: string)
    ensures EndsWith(ExportFileName(filename), ".pptx")
    ensures !EndsWithPptx(filename) ==> ExportFileName(filename) == filename + ".pptx"
    ensures EndsWithPptx(filename) ==> ExportFileName(filename) == filename[..|filename| - 5] + ".pptx"
    ensures ExportFileName(ExportFileName(filename)) == ExportFileName(filename)
  {
    var f := ExportFileName(filename);
    var base := if EndsWithPptx(filename) then filename[..|filename| - 5] else filename;
    assert f[|f| - 5..] == ".pptx";
    assert LowerString(".pptx") == ".pptx";
    assert EndsWithPptx(f);
    assert f[..|f| - 5] == base;
  }
}
