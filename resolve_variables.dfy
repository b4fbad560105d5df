/**
 * Output-format variables (server/src/lib/resolveVariables.ts): every
 * `{{name}}` placeholder whose name is an output format is replaced by that
 * format's content, in one left-to-right pass, and the formats are read
 * through a process-wide cache that lives for 30 seconds or until a write
 * invalidates it.
 */
module ResolveVariables {
  import opened Common
  import opened Placeholders

  const CacheTtlMs := 30000

  /** `(match, name) => formats.get(name) ?? match`: an unknown name keeps its match. */
  function FormatReplacement(formats: map<string, string>): Replacer {
    Replacer(formats, true)
  }

  /** `text.replace(/\{\{([^}]+)\}\}/g, (match, name) => formats.get(name) ?? match)`. */
  function Substitute(text: string, formats: map<string, string>): string {
    ReplaceAll(text, NotCloseBrace, FormatReplacement(formats))
  }

  /** The fast path of `resolveVariables` agrees with the replace: text without `{{` is unchanged. */
  lemma PlainTextUnchanged(s: string, formats: map<string, string>)
    requires !Contains(s, "{{")
    ensures Substitute(s, formats) == s
  {
    Placeholders.NoOpeningUnchanged(s, NotCloseBrace, FormatReplacement(formats));
  }

  /** A placeholder of the format-variable pattern names a known format. */
  predicate KnownPlaceholderAt(s: string, i: nat, formats: map<string, string>) {
    i <= |s| && PlaceholderEnd(s, i, NotCloseBrace).Some? &&
    s[i + 2..PlaceholderEnd(s, i, NotCloseBrace).value] in formats
  }

  /** Text none of whose placeholders names a format comes back unchanged. */
  lemma UnknownNamesUnchanged(s: string, formats: map<string, string>)
    requires forall i :: 0 <= i <= |s| ==> !KnownPlaceholderAt(s, i, formats)
    ensures Substitute(s, formats) == s
  {
    forall i | 0 <= i < |s|
      ensures StepText(s, i, NotCloseBrace, FormatReplacement(formats)) == s[i..StepNext(s, i, NotCloseBrace)]
    {
      assert !KnownPlaceholderAt(s, i, formats);
      StepVerbatim(s, i, NotCloseBrace, FormatReplacement(formats));
    }
    VerbatimUnchanged(s, 0, NotCloseBrace, FormatReplacement(formats));
  }

  /** With no formats defined the replace changes nothing. */
  lemma NoFormatsUnchanged(s: string)
    ensures Substitute(s, map[]) == s
  {
    UnknownNamesUnchanged(s, map[]);
  }

  /**
   * A leading `{{name}}` becomes the format's content when `name` is exactly
   * a format name and stays verbatim otherwise; the rest is replaced
   * independently.
   */
  lemma LeadingVariable(name: string, rest: string, formats: map<string, string>)
    requires name != [] && forall m :: 0 <= m < |name| ==> name[m] != '}'
    ensures Substitute("{{" + name + "}}" + rest, formats) ==
      (if name in formats then formats[name] else "{{" + name + "}}") + Substitute(rest, formats)
  {
    LeadingPlaceholder(name, rest, NotCloseBrace, FormatReplacement(formats));
  }

  /**
   * One pass only: a placeholder naming a format becomes exactly that
   * format's content, which is never scanned again, whatever placeholders it
   * holds; the scan goes on with the text after the placeholder.
   */
  lemma SinglePass(name: string, rest: string, formats: map<string, string>)
    requires name != [] && forall m :: 0 <= m < |name| ==> name[m] != '}'
    requires name in formats
    ensures Substitute("{{" + name + "}}" + rest, formats) == formats[name] + Substitute(rest, formats)
    ensures Substitute("{{" + name + "}}", formats) == formats[name]
  {
    LeadingVariable(name, rest, formats);
    LeadingVariable(name, "", formats);
    assert "{{" + name + "}}" + "" == "{{" + name + "}}";
    assert Substitute("", formats) == "";
  }

  /**
   * The format cache: `cached` is `cachedFormats` (None is `null`) and
   * `cacheTimestamp` the clock reading of the last load.
   */
  class FormatCache {
    var cached: Option<map<string, string>>
    var cacheTimestamp: int

    constructor ()
      ensures cached == None && cacheTimestamp == 0
    {
      cached := None;
      cacheTimestamp := 0;
    }

    /** The cache still serves at time `now`. */
    predicate Fresh(now: int)
      reads this
    {
      cached.Some? && now - cacheTimestamp < CacheTtlMs
    }

    /**
     * `loadFormats`: the cached map while fresh, otherwise `table` (the
     * output-format rows as name to content), which becomes the new cache.
     */
    method LoadFormats(now: int, table: map<string, string>) returns (formats: map<string, string>)
      modifies this
      ensures old(Fresh(now)) ==> formats == old(cached).value && unchanged(this)
      ensures !old(Fresh(now)) ==> formats == table && cached == Some(table) && cacheTimestamp == now
    {
      if cached.Some? && now - cacheTimestamp < CacheTtlMs {
        formats := cached.value;
        return;
      }
      cached := Some(table);
      cacheTimestamp := now;
      formats := table;
    }

    /** `invalidateFormatCache`: the next load reads the table. */
    method Invalidate()
      modifies this
      ensures cached == None && cacheTimestamp == old(cacheTimestamp)
      ensures forall now :: !Fresh(now)
    {
      cached := None;
    }

    /**
     * `resolveVariables`: the replace against the formats the cache serves at
     * `now`; text without `{{` returns at once and leaves the cache alone.
     */
    method Resolve(text: string, now: int, table: map<string, string>) returns (r: string)
      modifies this
      ensures r == Substitute(text, if old(Fresh(now)) then old(cached).value else table)
      ensures !Contains(text, "{{") ==> unchanged(this)
      ensures Contains(text, "{{") && !old(Fresh(now)) ==> cached == Some(table) && cacheTimestamp == now
      ensures Contains(text, "{{") && old(Fresh(now)) ==> unchanged(this)
    {
      if !Contains(text, "{{") {
        PlainTextUnchanged(text, if Fresh(now) then cached.value else table);
        return text;
      }
      var formats := LoadFormats(now, table);
      r := Substitute(text, formats);
    }
  }
}
