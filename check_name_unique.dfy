/**
 * Cross-table name uniqueness (server/src/lib/checkNameUnique.ts): a name
 * may be used by at most one generation prompt, system prompt, output
 * format or generation pipeline. The four tables are looked up by name in a
 * fixed order and the first hit that is not the excluded record is
 * reported.
 */
module NameUniqueness {
  import opened Common
  import opened Types

  /** Each table's unique-name index: name to record id. */
  datatype NameTables = NameTables(
    generationPrompts: map<string, string>,
    systemPrompts: map<string, string>,
    outputFormats: map<string, string>,
    generationPipelines: map<string, string>)

  function Table(t: NameTables, k: ProgramKind): map<string, string> {
    match k
    case GenerationPromptKind => t.generationPrompts
    case SystemPromptKind => t.systemPrompts
    case OutputFormatKind => t.outputFormats
    case GenerationPipelineKind => t.generationPipelines
  }

  /** The order in which the tables are examined. */
  const CheckOrder: seq<ProgramKind> :=
    [GenerationPromptKind, SystemPromptKind, OutputFormatKind, GenerationPipelineKind]

  function TableLabel(k: ProgramKind): string {
    match k
    case GenerationPromptKind => "generation prompt"
    case SystemPromptKind => "system prompt"
    case OutputFormatKind => "output format"
    case GenerationPipelineKind => "generation pipeline"
  }

  function ConflictMessage(name: string, k: ProgramKind): string {
    "Name \"" + name + "\" is already used by a " + TableLabel(k)
  }

  /** `record && record.id !== excludeId`. */
  predicate ConflictIn(t: NameTables, k: ProgramKind, name: string, excludeId: Option<string>) {
    name in Table(t, k) && Some(Table(t, k)[name]) != excludeId
  }

  /** The first kind in `kinds` whose table holds a conflicting record. */
  function FirstConflict(t: NameTables, name: string, excludeId: Option<string>, kinds: seq<ProgramKind>): (r: Option<nat>)
    ensures r.None? <==> forall i :: 0 <= i < |kinds| ==> !ConflictIn(t, kinds[i], name, excludeId)
    ensures r.Some? ==> r.value < |kinds| && ConflictIn(t, kinds[r.value], name, excludeId)
    ensures r.Some? ==> forall i :: 0 <= i < r.value ==> !ConflictIn(t, kinds[i], name, excludeId)
  {
    if kinds == [] then None
    else if ConflictIn(t, kinds[0], name, excludeId) then Some(0)
    else match FirstConflict(t, name, excludeId, kinds[1..])
      case None => None
      case Some(i) => Some(i + 1)
  }

  /** `checkNameUnique(name, excludeId)`: None when it returns, Some(message) when it throws. */
  function CheckNameUnique(t: NameTables, name: string, excludeId: Option<string>): (r: Option<string>)
    ensures r.None? <==> forall k :: !ConflictIn(t, k, name, excludeId)
    ensures r.Some? ==> exists k :: ConflictIn(t, k, name, excludeId) && r.value == ConflictMessage(name, k)
  {
    var first := FirstConflict(t, name, excludeId, CheckOrder);
    if first.None? then
      assert forall k :: !ConflictIn(t, k, name, excludeId) by {
        forall k
          ensures !ConflictIn(t, k, name, excludeId)
        {
          assert CheckOrder[KindIndex(k)] == k;
        }
      }
      None
    else
      assert ConflictIn(t, CheckOrder[first.value], name, excludeId);
      Some(ConflictMessage(name, CheckOrder[first.value]))
  }

  /** A refusal reports the first table, in the check order, that holds a conflicting record. */
  lemma FirstTableReported(t: NameTables, name: string, excludeId: Option<string>)
    ensures var r := CheckNameUnique(t, name, excludeId);
      r.Some? ==>
        exists i :: 0 <= i < |CheckOrder| &&
          ConflictIn(t, CheckOrder[i], name, excludeId) &&
          r.value == ConflictMessage(name, CheckOrder[i]) &&
          forall e :: 0 <= e < i ==> !ConflictIn(t, CheckOrder[e], name, excludeId)
  {
    var first := FirstConflict(t, name, excludeId, CheckOrder);
    if first.Some? {
      assert ConflictIn(t, CheckOrder[first.value], name, excludeId);
    }
  }

  function KindIndex(k: ProgramKind): (i: nat)
    ensures i < |CheckOrder| && CheckOrder[i] == k
  {
    match k
    case GenerationPromptKind => 0
    case SystemPromptKind => 1
    case OutputFormatKind => 2
    case GenerationPipelineKind => 3
  }

  /** A record keeping its own name passes when no other table uses that name. */
  lemma KeepOwnName(t: NameTables, k: ProgramKind, name: string, id: string)
    requires name in Table(t, k) && Table(t, k)[name] == id
    requires forall k' :: k' != k ==> name !in Table(t, k')
    ensures CheckNameUnique(t, name, Some(id)).None?
  {
  }

  /**
   * A name already held by a generation prompt is refused for every other
   * record, and the message names the generation-prompt table even when
   * later tables also hold it.
   */
  lemma GenerationPromptReportedFirst(t: NameTables, name: string, excludeId: Option<string>)
    requires name in t.generationPrompts && Some(t.generationPrompts[name]) != excludeId
    ensures CheckNameUnique(t, name, excludeId) == Some(ConflictMessage(name, GenerationPromptKind))
  {
    assert ConflictIn(t, CheckOrder[0], name, excludeId);
  }

  /** Excluding an id never turns a pass into a failure. */
  lemma ExcludingOnlyRelaxes(t: NameTables, name: string, id: string)
    requires CheckNameUnique(t, name, None).None?
    ensures CheckNameUnique(t, name, Some(id)).None?
  {
    forall k
      ensures !ConflictIn(t, k, name, Some(id))
    {
      assert !ConflictIn(t, k, name, None);
    }
  }
}
