/**
 * Global replacement of `{{name}}` placeholders, the pattern
 * `\{\{(C+)\}\}` with flag `g` for a character class C that excludes `}`:
 * the text is scanned left to right, every match is handed to a replacement
 * callback together with its name, and scanning resumes after the match, so
 * inserted text is never rescanned. Both the output-format variables
 * (C = `[^}]`) and pipeline output-name templates (C = `\w`) are instances.
 * The class and the callback are given as data: the class by name, the
 * callback as the table it looks names up in and what it gives for a name
 * the table lacks.
 */
module Placeholders {
  import opened Common

  /** The two classes the patterns use: `[^}]` and `\w`. */
  datatype NameClass = NotCloseBrace | WordChar

  /** The class `\w`: ASCII letters, digits and `_`. */
  predicate IsWordChar(c: char) {
    'a' <= c <= 'z' || 'A' <= c <= 'Z' || '0' <= c <= '9' || c == '_'
  }

  /** Membership in the class; `}` belongs to neither. */
  predicate InName(cls: NameClass, c: char) {
    match cls
    case NotCloseBrace => c != '}'
    case WordChar => IsWordChar(c)
  }

  /**
   * A replacement callback `(match, name) => ...` that looks the name up in
   * `table`: a name the table lacks gives back the match itself when
   * `keepUnknown` holds and the empty string otherwise.
   */
  datatype Replacer = Replacer(table: map<string, string>, keepUnknown: bool)

  /** What the callback returns for a match and its name. */
  function Replacement(repl: Replacer, name: string, match_: string): (r: string)
    ensures name in repl.table ==> r == repl.table[name]
    ensures name !in repl.table ==> r == (if repl.keepUnknown then match_ else "")
  {
    if name in repl.table then repl.table[name] else if repl.keepUnknown then match_ else ""
  }

  /** The first index at or after `k` whose character is not a name character, or `|s|`. */
  function RunEnd(s: string, k: nat, cls: NameClass): (j: nat)
    requires k <= |s|
    ensures k <= j <= |s|
    decreases |s| - k
  {
    if k == |s| || !InName(cls, s[k]) then k else RunEnd(s, k + 1, cls)
  }

  /** The run from `k` is all name characters, and it stops at a character that is not one. */
  lemma {:induction false} RunEndRun(s: string, k: nat, cls: NameClass)
    requires k <= |s|
    ensures forall m :: k <= m < RunEnd(s, k, cls) ==> InName(cls, s[m])
    ensures RunEnd(s, k, cls) < |s| ==> !InName(cls, s[RunEnd(s, k, cls)])
    decreases |s| - k
  {
    if k < |s| && InName(cls, s[k]) {
      RunEndRun(s, k + 1, cls);
    }
  }

  /** `s[i..j + 2]` is `{{`, a non-empty run of name characters, then `}}`. */
  predicate Span(s: string, i: nat, j: nat, cls: NameClass) {
    i + 2 < j && j + 2 <= |s| && s[i] == '{' && s[i + 1] == '{' &&
    (forall m :: i + 2 <= m < j ==> InName(cls, s[m])) && s[j] == '}' && s[j + 1] == '}'
  }

  /** Where the pattern matches when tried at position `i`: the index of its closing `}}`. */
  function PlaceholderEnd(s: string, i: nat, cls: NameClass): (r: Option<nat>)
    requires i <= |s|
    ensures r.Some? ==> i + 2 < r.value && r.value + 2 <= |s|
  {
    if i + 2 <= |s| && s[i] == '{' && s[i + 1] == '{' then
      var j := RunEnd(s, i + 2, cls);
      if j > i + 2 && j + 1 < |s| && s[j] == '}' && s[j + 1] == '}' then Some(j) else None
    else None
  }

  /** The pattern matches at `i` exactly when a span starts there, and it ends where the span does. */
  lemma PlaceholderEndSpan(s: string, i: nat, cls: NameClass)
    requires i <= |s|
    ensures PlaceholderEnd(s, i, cls).Some? ==> Span(s, i, PlaceholderEnd(s, i, cls).value, cls)
    ensures PlaceholderEnd(s, i, cls).None? ==> forall j :: !Span(s, i, j, cls)
  {
    if i + 2 <= |s| && s[i] == '{' && s[i + 1] == '{' {
      RunEndRun(s, i + 2, cls);
      forall j' | Span(s, i, j', cls)
        ensures j' == RunEnd(s, i + 2, cls)
      {
        RunEndUpTo(s, i + 2, j', cls);
      }
    }
  }

  /** Where scanning resumes after position `i`: past the match, or one character on. */
  function StepNext(s: string, i: nat, cls: NameClass): (n: nat)
    requires i < |s|
    ensures i < n <= |s|
  {
    match PlaceholderEnd(s, i, cls)
    case Some(j) => j + 2
    case None => i + 1
  }

  /** What position `i` contributes: the replacement of the match, or the character itself. */
  function StepText(s: string, i: nat, cls: NameClass, repl: Replacer): string
    requires i < |s|
  {
    match PlaceholderEnd(s, i, cls)
    case Some(j) => Replacement(repl, s[i + 2..j], s[i..j + 2])
    case None => [s[i]]
  }

  function ReplaceFrom(s: string, i: nat, cls: NameClass, repl: Replacer): string
    requires i <= |s|
    decreases |s| - i, 1
  {
    if i == |s| then "" else ReplaceStep(s, i, cls, repl)
  }

  /** The text from a position inside `s` on: what the position contributes, then the rest. */
  function ReplaceStep(s: string, i: nat, cls: NameClass, repl: Replacer): string
    requires i < |s|
    decreases |s| - i, 0
  {
    StepText(s, i, cls, repl) + ReplaceFrom(s, StepNext(s, i, cls), cls, repl)
  }

  /** `s.replace(/\{\{(C+)\}\}/g, (match, name) => ...)` with the callback `repl`. */
  function ReplaceAll(s: string, cls: NameClass, repl: Replacer): string {
    ReplaceFrom(s, 0, cls, repl)
  }

  /** The replacement gives back the match at `i` itself, if there is one. */
  predicate ReplacesItself(s: string, i: nat, cls: NameClass, repl: Replacer)
    requires i <= |s|
  {
    PlaceholderEnd(s, i, cls).Some? ==>
      Replacement(repl, s[i + 2..PlaceholderEnd(s, i, cls).value], s[i..PlaceholderEnd(s, i, cls).value + 2]) ==
      s[i..PlaceholderEnd(s, i, cls).value + 2]
  }

  /** Every step from `k` on copies the text it consumes. */
  predicate VerbatimFrom(s: string, k: nat, cls: NameClass, repl: Replacer) {
    forall i :: k <= i < |s| ==> StepText(s, i, cls, repl) == s[i..StepNext(s, i, cls)]
  }

  /** Where the match at `k` is replaced by itself, the step copies the text it consumes. */
  lemma StepVerbatim(s: string, k: nat, cls: NameClass, repl: Replacer)
    requires k < |s|
    requires ReplacesItself(s, k, cls, repl)
    ensures StepText(s, k, cls, repl) == s[k..StepNext(s, k, cls)]
  {
    match PlaceholderEnd(s, k, cls) {
      case Some(j) =>
        assert StepText(s, k, cls, repl) == Replacement(repl, s[k + 2..j], s[k..j + 2]);
      case None =>
        assert StepText(s, k, cls, repl) == [s[k]];
    }
  }

  /** Where every step copies its text, the text comes back unchanged. */
  lemma {:induction false} VerbatimUnchanged(s: string, k: nat, cls: NameClass, repl: Replacer)
    requires k <= |s|
    requires VerbatimFrom(s, k, cls, repl)
    ensures ReplaceFrom(s, k, cls, repl) == s[k..]
    decreases |s| - k
  {
    if k < |s| {
      var n := StepNext(s, k, cls);
      VerbatimUnchanged(s, n, cls, repl);
      assert s[k..] == s[k..n] + s[n..];
    }
  }

  /** Text without `{{` has no match and comes back unchanged. */
  lemma NoOpeningUnchanged(s: string, cls: NameClass, repl: Replacer)
    requires !Contains(s, "{{")
    ensures ReplaceAll(s, cls, repl) == s
  {
    forall i | 0 <= i < |s|
      ensures StepText(s, i, cls, repl) == s[i..StepNext(s, i, cls)]
    {
      if PlaceholderEnd(s, i, cls).Some? {
        PlaceholderEndSpan(s, i, cls);
        assert s[i..i + 2] == "{{";
        assert OccursAt(s, "{{", i);
      }
      StepVerbatim(s, i, cls, repl);
    }
    VerbatimUnchanged(s, 0, cls, repl);
  }

  /** Two callbacks that give the same text at every match from `k` on produce the same replacement. */
  lemma {:induction false} AgreeingReplacers(s: string, k: nat, cls: NameClass, r1: Replacer, r2: Replacer)
    requires k <= |s|
    requires forall i :: k <= i < |s| ==> StepText(s, i, cls, r1) == StepText(s, i, cls, r2)
    ensures ReplaceFrom(s, k, cls, r1) == ReplaceFrom(s, k, cls, r2)
    decreases |s| - k
  {
    if k < |s| {
      AgreeingReplacers(s, StepNext(s, k, cls), cls, r1, r2);
    }
  }

  lemma {:induction false} RunEndShift(u: string, v: string, m: nat, cls: NameClass)
    requires m <= |v|
    ensures RunEnd(u + v, |u| + m, cls) == |u| + RunEnd(v, m, cls)
    decreases |v| - m
  {
    if m < |v| {
      assert (u + v)[|u| + m] == v[m];
      if InName(cls, v[m]) {
        RunEndShift(u, v, m + 1, cls);
      }
    }
  }

  /** Whether a match starts at a position depends only on the text from there on. */
  lemma PlaceholderEndShift(u: string, v: string, m: nat, cls: NameClass)
    requires m <= |v|
    ensures PlaceholderEnd(u + v, |u| + m, cls).None? <==> PlaceholderEnd(v, m, cls).None?
    ensures PlaceholderEnd(v, m, cls).Some? ==>
      PlaceholderEnd(u + v, |u| + m, cls) == Some(|u| + PlaceholderEnd(v, m, cls).value)
  {
    var s := u + v;
    if m + 2 <= |v| {
      assert s[|u| + m] == v[m] && s[|u| + m + 1] == v[m + 1];
      RunEndShift(u, v, m + 2, cls);
      var j := RunEnd(v, m + 2, cls);
      if j + 1 < |v| {
        assert s[|u| + j] == v[j] && s[|u| + j + 1] == v[j + 1];
      }
    }
  }

  lemma StepShift(u: string, v: string, m: nat, cls: NameClass, repl: Replacer)
    requires m < |v|
    ensures StepNext(u + v, |u| + m, cls) == |u| + StepNext(v, m, cls)
    ensures StepText(u + v, |u| + m, cls, repl) == StepText(v, m, cls, repl)
  {
    var s := u + v;
    PlaceholderEndShift(u, v, m, cls);
    match PlaceholderEnd(v, m, cls)
    case Some(j) =>
      assert s[|u| + m + 2..|u| + j] == v[m + 2..j];
      assert s[|u| + m..|u| + j + 2] == v[m..j + 2];
    case None =>
      assert s[|u| + m] == v[m];
  }

  /** One step of the scan: what position `k` contributes, then the rest from where scanning resumes. */
  lemma ReplaceFromStep(s: string, k: nat, cls: NameClass, repl: Replacer)
    requires k < |s|
    ensures ReplaceFrom(s, k, cls, repl) == StepText(s, k, cls, repl) + ReplaceFrom(s, StepNext(s, k, cls), cls, repl)
  {
  }

  /** A step behind a prefix contributes what it contributes without it, so equal rests give equal results. */
  lemma ShiftStep(u: string, v: string, m: nat, cls: NameClass, repl: Replacer)
    requires m < |v|
    requires ReplaceFrom(u + v, |u| + StepNext(v, m, cls), cls, repl) == ReplaceFrom(v, StepNext(v, m, cls), cls, repl)
    ensures ReplaceFrom(u + v, |u| + m, cls, repl) == ReplaceFrom(v, m, cls, repl)
  {
    StepShift(u, v, m, cls, repl);
    ReplaceFromStep(u + v, |u| + m, cls, repl);
    ReplaceFromStep(v, m, cls, repl);
  }

  /** The replacement of a suffix does not depend on what precedes it. */
  lemma {:induction false} ReplaceFromShift(u: string, v: string, m: nat, cls: NameClass, repl: Replacer)
    requires m <= |v|
    ensures ReplaceFrom(u + v, |u| + m, cls, repl) == ReplaceFrom(v, m, cls, repl)
    decreases |v| - m
  {
    var s := u + v;
    if m < |v| {
      var n := StepNext(v, m, cls);
      ReplaceFromShift(u, v, n, cls, repl);
      ShiftStep(u, v, m, cls, repl);
    } else {
      assert |s| == |u| + m;
    }
  }

  lemma {:induction false} RunEndUpTo(s: string, k: nat, j: nat, cls: NameClass)
    requires k <= j < |s| && !InName(cls, s[j])
    requires forall m :: k <= m < j ==> InName(cls, s[m])
    ensures RunEnd(s, k, cls) == j
    decreases j - k
  {
    if k < j {
      RunEndUpTo(s, k + 1, j, cls);
    }
  }

  /**
   * A leading `{{name}}` is handed to the replacement whole, and the rest
   * of the text is replaced independently of it.
   */
  lemma LeadingPlaceholder(name: string, rest: string, cls: NameClass, repl: Replacer)
    requires name != [] && forall m :: 0 <= m < |name| ==> InName(cls, name[m])
    ensures ReplaceAll("{{" + name + "}}" + rest, cls, repl) ==
      Replacement(repl, name, "{{" + name + "}}") + ReplaceAll(rest, cls, repl)
  {
    var p := "{{" + name + "}}";
    var s := p + rest;
    var j := |name| + 2;
    forall m | 2 <= m < j
      ensures InName(cls, s[m])
    {
      assert s[m] == name[m - 2];
    }
    assert s[j] == '}' && s[j + 1] == '}';
    RunEndUpTo(s, 2, j, cls);
    assert PlaceholderEnd(s, 0, cls) == Some(j);
    assert s[2..j] == name;
    assert s[0..j + 2] == p;
    ReplaceFromStep(s, 0, cls, repl);
    ReplaceFromShift(p, rest, 0, cls, repl);
  }

  /** A leading character that cannot open a placeholder is copied. */
  lemma LeadingChar(c: char, rest: string, cls: NameClass, repl: Replacer)
    requires c != '{'
    ensures ReplaceAll([c] + rest, cls, repl) == [c] + ReplaceAll(rest, cls, repl)
  {
    ReplaceFromStep([c] + rest, 0, cls, repl);
    ReplaceFromShift([c], rest, 0, cls, repl);
  }

  /** A prefix without `{` is copied, and the rest is replaced independently of it. */
  lemma {:induction false} PlainPrefix(p: string, rest: string, cls: NameClass, repl: Replacer)
    requires forall m :: 0 <= m < |p| ==> p[m] != '{'
    ensures ReplaceAll(p + rest, cls, repl) == p + ReplaceAll(rest, cls, repl)
  {
    if p != [] {
      PlainPrefix(p[1..], rest, cls, repl);
      LeadingChar(p[0], p[1..] + rest, cls, repl);
      assert p + rest == [p[0]] + (p[1..] + rest);
      assert p == [p[0]] + p[1..];
    } else {
      assert p + rest == rest;
    }
  }

  /** `{{a}}<sep>{{b}}` with a separator that opens no placeholder: two replacements around the separator. */
  lemma TwoPlaceholders(a: string, sep: string, b: string, cls: NameClass, repl: Replacer)
    requires a != [] && forall m :: 0 <= m < |a| ==> InName(cls, a[m])
    requires b != [] && forall m :: 0 <= m < |b| ==> InName(cls, b[m])
    requires forall m :: 0 <= m < |sep| ==> sep[m] != '{'
    ensures ReplaceAll("{{" + a + "}}" + sep + "{{" + b + "}}", cls, repl) ==
      Replacement(repl, a, "{{" + a + "}}") + sep + Replacement(repl, b, "{{" + b + "}}")
  {
    var tail := "{{" + b + "}}";
    assert ReplaceAll(tail, cls, repl) == Replacement(repl, b, tail) by {
      LeadingPlaceholder(b, "", cls, repl);
      assert tail + "" == tail;
      NoOpeningUnchanged("", cls, repl);
    }
    PlainPrefix(sep, tail, cls, repl);
    LeadingPlaceholder(a, sep + tail, cls, repl);
    assert "{{" + a + "}}" + sep + "{{" + b + "}}" == "{{" + a + "}}" + (sep + tail);
  }
}
