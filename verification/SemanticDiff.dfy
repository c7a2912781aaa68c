/** The semantic diff of two contexts (crates/epoch-diff), said slot by slot. */
module SemanticDiff {
  import opened Wrappers
  import opened Contexts
  import opened JsonPointer

  // ---------------------------------------------------------------- reported values and changes

  /** The JSON values that a change carries. */
  datatype Value = Text(text: string) | Number(number: nat) | Null | Ids(ids: seq<string>) | Whole(entity: Entity)

  /** A message or a task: an identifier and two fields. */
  datatype Entity = Entity(id: string, first: Value, second: Value)

  datatype Section =
    | Application | CursorSection | MessageSection | MemoryReferences
    | ModelRequestSection | TaskSection | ToolCallSection | ToolRegistrySection

  datatype Classification = Added | Removed | Changed

  datatype Change = Change(
    section: Section, path: string, classification: Classification, before: Option<Value>, after: Option<Value>)

  // ---------------------------------------------------------------- the places a change can be reported at

  datatype Field =
    | SafePointId | Seed | Revision | Model
    | BoundarySequence | MessageCursor | ToolCursor | TaskCursor | SummaryHash

  /** The two keyed lists of entities. */
  datatype Keyed = Messages | Tasks

  /** The two lists of bare identifiers. */
  datatype Bare = Requests | Calls

  datatype Slot =
    | At(field: Field)
    | Tool(id: string)
    | Order(keyed: Keyed)
    | WholeOf(keyed: Keyed, id: string)
    | FirstOf(keyed: Keyed, id: string)
    | SecondOf(keyed: Keyed, id: string)
    | Pending(bare: Bare, id: string)

  function FieldTokens(f: Field): seq<string> {
    match f
    case SafePointId => ["safe_point_id"]
    case Seed => ["deterministic_seed"]
    case Revision => ["context_revision"]
    case Model => ["model_identifier"]
    case BoundarySequence => ["cursors", "boundary_sequence"]
    case MessageCursor => ["cursors", "message_cursor"]
    case ToolCursor => ["cursors", "tool_cursor"]
    case TaskCursor => ["cursors", "task_cursor"]
    case SummaryHash => ["user_visible_summary_hash"]
  }

  function ToolRoot(): string {
    "tool_registry"
  }

  function OrderName(): string {
    "order"
  }

  function Root(k: Keyed): string {
    match k case Messages => "messages" case Tasks => "pending_tasks"
  }

  function FirstName(k: Keyed): string {
    match k case Messages => "role" case Tasks => "task_type"
  }

  function SecondName(k: Keyed): string {
    match k case Messages => "content_hash" case Tasks => "payload_hash"
  }

  function BareRoot(b: Bare): string {
    match b case Requests => "pending_model_request_ids" case Calls => "pending_tool_call_ids"
  }

  function Tokens(s: Slot): seq<string> {
    match s
    case At(f) => FieldTokens(f)
    case Tool(id) => [ToolRoot(), id]
    case Order(k) => [Root(k), OrderName()]
    case WholeOf(k, id) => [Root(k), id]
    case FirstOf(k, id) => [Root(k), id, FirstName(k)]
    case SecondOf(k, id) => [Root(k), id, SecondName(k)]
    case Pending(b, id) => [BareRoot(b), id]
  }

  function Path(s: Slot): string {
    Render(Tokens(s))
  }

  function SectionOf(s: Slot): Section {
    match s
    case At(f) =>
      if f.SummaryHash? then MemoryReferences
      else if f.BoundarySequence? || f.MessageCursor? || f.ToolCursor? || f.TaskCursor? then CursorSection
      else Application
    case Tool(_) => ToolRegistrySection
    case Pending(b, _) => if b.Requests? then ModelRequestSection else ToolCallSection
    case _ => if s.keyed.Messages? then MessageSection else TaskSection
  }

  // ---------------------------------------------------------------- the keyed view of a context

  function RoleName(r: Role): string {
    match r
    case SystemRole => "system"
    case UserRole => "user"
    case AssistantRole => "assistant"
    case ToolRole => "tool"
  }

  function HashValue(h: Option<Hash>): Value {
    if h.Some? then Text(h.value) else Null
  }

  function OfMessage(m: ObservableMessage): Entity {
    Entity(m.messageId, Text(RoleName(m.role)), Text(m.contentHash))
  }

  function OfTask(t: PendingTask): Entity {
    Entity(t.taskId, Text(t.taskType), HashValue(t.payloadHash))
  }

  function Entities(c: Context, k: Keyed): seq<Entity> {
    match k
    case Messages => seq(|c.messages|, i requires 0 <= i < |c.messages| => OfMessage(c.messages[i]))
    case Tasks => seq(|c.pendingTasks|, i requires 0 <= i < |c.pendingTasks| => OfTask(c.pendingTasks[i]))
  }

  /** Collecting into a `BTreeMap` by identifier: a later entity replaces an earlier one. */
  function ById(s: seq<Entity>): map<string, Entity> {
    if s == [] then map[] else ById(s[..|s| - 1])[s[|s| - 1].id := s[|s| - 1]]
  }

  function IdsOf(s: seq<Entity>): seq<string> {
    seq(|s|, i requires 0 <= i < |s| => s[i].id)
  }

  function FieldValue(c: Context, f: Field): Value {
    match f
    case SafePointId => Text(c.safePointId)
    case Seed => Number(c.seed)
    case Revision => Number(c.revision)
    case Model => Text(c.model)
    case BoundarySequence => Number(c.cursors.boundarySequence)
    case MessageCursor => Number(c.cursors.messageCursor)
    case ToolCursor => Number(c.cursors.toolCursor)
    case TaskCursor => Number(c.cursors.taskCursor)
    case SummaryHash => HashValue(c.summaryHash)
  }

  function EntityAt(c: Context, k: Keyed, id: string): Option<Entity> {
    var m := ById(Entities(c, k));
    if id in m then Some(m[id]) else None
  }

  function BareIds(c: Context, b: Bare): seq<string> {
    if b.Requests? then c.pendingRequests else c.pendingCalls
  }

  /** The value of a context at a slot, if it has one. */
  function View(c: Context, s: Slot): Option<Value> {
    match s
    case At(f) => Some(FieldValue(c, f))
    case Tool(id) => if id in c.toolRegistry then Some(Text(c.toolRegistry[id])) else None
    case Order(k) => Some(Ids(IdsOf(Entities(c, k))))
    case WholeOf(k, id) => var e := EntityAt(c, k, id); if e.Some? then Some(Whole(e.value)) else None
    case FirstOf(k, id) => var e := EntityAt(c, k, id); if e.Some? then Some(e.value.first) else None
    case SecondOf(k, id) => var e := EntityAt(c, k, id); if e.Some? then Some(e.value.second) else None
    case Pending(b, id) => if id in BareIds(c, b) then Some(Text(id)) else None
  }

  /** The two contexts have the same identifiers in a keyed list. */
  predicate SameIds(b: Context, a: Context, k: Keyed) {
    ById(Entities(b, k)).Keys == ById(Entities(a, k)).Keys
  }

  /**
   An entity on both sides is compared field by field, otherwise as a whole; orders only between equal identifier sets.
   */
  predicate Compared(b: Context, a: Context, s: Slot) {
    match s
    case Order(k) => SameIds(b, a, k)
    case WholeOf(k, id) => EntityAt(b, k, id).None? || EntityAt(a, k, id).None?
    case FirstOf(k, id) => EntityAt(b, k, id).Some? && EntityAt(a, k, id).Some?
    case SecondOf(k, id) => EntityAt(b, k, id).Some? && EntityAt(a, k, id).Some?
    case _ => true
  }

  function Classify(x: Option<Value>, y: Option<Value>): Classification {
    if x.None? then Added else if y.None? then Removed else Changed
  }

  /** The change from one value to another at a slot. */
  function Delta(s: Slot, x: Option<Value>, y: Option<Value>): Option<Change> {
    if x == y then None else Some(Change(SectionOf(s), Path(s), Classify(x, y), x, y))
  }

  /** What the diff reports at a slot. */
  function ChangeAt(b: Context, a: Context, s: Slot): Option<Change> {
    if Compared(b, a, s) then Delta(s, View(b, s), View(a, s)) else None
  }

  ghost predicate Reported(b: Context, a: Context, c: Change) {
    exists s :: ChangeAt(b, a, s) == Some(c)
  }
}
