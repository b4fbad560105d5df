/**
 * Server-side values shared by the single-shot generate route and the
 * pipeline engine: the abstract result of `JSON.parse`, the format marker
 * stamped on presentations, the resources read as sources and the
 * `=== SOURCE: ... ===` blocks built from them, the resources the routes
 * create, and HTTP error replies.
 */
module ServerData {
  import opened Common
  import opened Types

  /**
   * What `JSON.parse` can produce, as far as the routes look at it: `null`,
   * a string, number or boolean, an array, or an object, of which only
   * whether `slides` is an array and the `_format` field are inspected.
   */
  datatype JsonValue =
    | JsonNull
    | JsonScalar
    | JsonArray
    | JsonObject(slidesIsArray: bool, format: Option<string>)

  datatype JsonParse = Unparseable | Parsed(value: JsonValue)

  const PresentationFormat := "slidecreator/presentation/v1"

  /** `if (!data._format) data._format = 'slidecreator/presentation/v1'` on an object. */
  function StampFormat(v: JsonValue): (r: JsonValue)
    requires v.JsonObject?
    ensures r.JsonObject? && r.slidesIsArray == v.slidesIsArray
    ensures Truthy(v.format) ==> r == v
    ensures !Truthy(v.format) ==> r.format == Some(PresentationFormat)
  {
    if Truthy(v.format) then v else v.(format := Some(PresentationFormat))
  }

  lemma StampFormatIdempotent(v: JsonValue)
    requires v.JsonObject?
    ensures StampFormat(StampFormat(v)) == StampFormat(v)
  {
  }

  /** A resource read as generation input; `prettyJson` is `JSON.stringify(contentJson, null, 2)`. */
  datatype SourceResource = SourceResource(name: string, contentText: Option<string>, prettyJson: string)

  /** `resource.contentText || JSON.stringify(resource.contentJson, null, 2)`. */
  function ResourceText(r: SourceResource): string {
    OrElse(r.contentText, r.prettyJson)
  }

  /** `=== SOURCE: <name> ===\n<text>\n\n`. */
  function SourceBlock(r: SourceResource): string {
    "=== SOURCE: " + r.name + " ===\n" + ResourceText(r) + "\n\n"
  }

  /** One source block per resource, in order. */
  function SourcesText(rs: seq<SourceResource>): string {
    if rs == [] then "" else SourcesText(rs[..|rs| - 1]) + SourceBlock(rs[|rs| - 1])
  }

  lemma {:induction false} SourcesTextAppend(a: seq<SourceResource>, b: seq<SourceResource>)
    ensures SourcesText(a + b) == SourcesText(a) + SourcesText(b)
    decreases |b|
  {
    if b == [] {
      assert a + b == a;
    } else {
      var b' := b[..|b| - 1];
      SourcesTextLast(a, b);
      SourcesTextAppend(a, b');
      ConcatAssoc(SourcesText(a), SourcesText(b'), SourceBlock(b[|b| - 1]));
    }
  }

  /** The text of `a + b` ends with the block of `b`'s last resource. */
  lemma SourcesTextLast(a: seq<SourceResource>, b: seq<SourceResource>)
    requires b != []
    ensures SourcesText(a + b) == SourcesText(a + b[..|b| - 1]) + SourceBlock(b[|b| - 1])
  {
    var ab := a + b;
    assert ab[..|ab| - 1] == a + b[..|b| - 1];
  }

  /** Resource `k`'s block sits between the blocks of the resources before and after it. */
  lemma SourceBlockPosition(rs: seq<SourceResource>, k: nat)
    requires k < |rs|
    ensures SourcesText(rs) == SourcesText(rs[..k]) + SourceBlock(rs[k]) + SourcesText(rs[k + 1..])
  {
    var pre, post := rs[..k + 1], rs[k + 1..];
    assert rs == pre + post;
    SourcesTextAppend(pre, post);
    SourcesTextSnoc(rs, k);
  }

  lemma SourcesTextSnoc(rs: seq<SourceResource>, k: nat)
    requires k < |rs|
    ensures SourcesText(rs[..k + 1]) == SourcesText(rs[..k]) + SourceBlock(rs[k])
  {
    var pre := rs[..k + 1];
    assert pre[..|pre| - 1] == rs[..k];
  }

  /**
   * `for (const resource of sourceResources) userContent += ...`: appends the
   * source blocks of `rs` to `acc`.
   */
  method AppendSources(acc: string, rs: seq<SourceResource>) returns (out: string)
    ensures out == acc + SourcesText(rs)
  {
    out := acc;
    var i := 0;
    while i < |rs|
      invariant 0 <= i <= |rs|
      invariant out == acc + SourcesText(rs[..i])
    {
      assert rs[..i + 1][..i] == rs[..i];
      ConcatAssoc(acc, SourcesText(rs[..i]), SourceBlock(rs[i]));
      out := out + SourceBlock(rs[i]);
      i := i + 1;
    }
    assert rs[..i] == rs;
  }

  /** A resource row created by a route. */
  datatype StoredResource = StoredResource(
    id: string,
    name: string,
    resourceType: ResourceType,
    contentJson: Option<JsonValue>,
    contentText: Option<string>,
    projectId: string,
    folderId: Option<string>)

  /**
   * What the chat-completion call gives back: it throws (with a possibly
   * empty message), or it answers with `choices[0]?.message?.content`.
   */
  datatype Completion = CallFailed(message: Option<string>) | Responded(content: Option<string>)

  /** `res.status(status).json({ error: message })`. */
  datatype HttpError = HttpError(status: nat, message: string)

  /** `outputFolderId || null`. */
  function FolderOrNull(outputFolderId: Option<string>): (r: Option<string>)
    ensures r.Some? <==> Truthy(outputFolderId)
    ensures r.Some? ==> r == outputFolderId
  {
    if Truthy(outputFolderId) then outputFolderId else None
  }
}
