/** Where the diff reports what: every literal path, with the part of the context that stands behind it. */
module DiffPlaces {
  import opened Wrappers
  import opened Contexts
  import opened JsonPointer
  import opened SemanticDiff
  import opened Ordering
  import opened DiffTheorems
  import opened DiffEngine

  // ---------------------------------------------------------------- the literal paths

  lemma SafePointPath()
    ensures Path(At(SafePointId)) == "/safe_point_id"
  {
    FieldPaths(SafePointId);
    hide Path;
  }

  lemma SeedPath()
    ensures Path(At(Seed)) == "/deterministic_seed"
  {
    FieldPaths(Seed);
    hide Path;
  }

  lemma RevisionPath()
    ensures Path(At(Revision)) == "/context_revision"
  {
    FieldPaths(Revision);
    hide Path;
  }

  lemma ModelPath()
    ensures Path(At(Model)) == "/model_identifier"
  {
    FieldPaths(Model);
    hide Path;
  }

  lemma SummaryPath()
    ensures Path(At(SummaryHash)) == "/user_visible_summary_hash"
  {
    FieldPaths(SummaryHash);
    hide Path;
  }

  lemma BoundaryPath()
    ensures Path(At(BoundarySequence)) == "/cursors/boundary_sequence"
  {
    FieldPaths(BoundarySequence);
    hide Path;
  }

  lemma MessageCursorPath()
    ensures Path(At(MessageCursor)) == "/cursors/message_cursor"
  {
    FieldPaths(MessageCursor);
    hide Path;
  }

  lemma ToolCursorPath()
    ensures Path(At(ToolCursor)) == "/cursors/tool_cursor"
  {
    FieldPaths(ToolCursor);
    hide Path;
  }

  lemma TaskCursorPath()
    ensures Path(At(TaskCursor)) == "/cursors/task_cursor"
  {
    FieldPaths(TaskCursor);
    hide Path;
  }

  lemma ToolPath(id: string)
    ensures Path(Tool(id)) == "/tool_registry/" + Token(id)
  {
    OtherPaths(id, Requests);
    hide Path, Token;
  }

  lemma RequestPath(id: string)
    ensures Path(Pending(Requests, id)) == "/pending_model_request_ids/" + Token(id)
  {
    OtherPaths(id, Requests);
    hide Path, Token;
  }

  lemma CallPath(id: string)
    ensures Path(Pending(Calls, id)) == "/pending_tool_call_ids/" + Token(id)
  {
    OtherPaths(id, Calls);
    hide Path, Token;
  }

  lemma MessagePaths(id: string)
    ensures Path(WholeOf(Messages, id)) == "/messages/" + Token(id)
    ensures Path(FirstOf(Messages, id)) == "/messages/" + Token(id) + "/role"
    ensures Path(SecondOf(Messages, id)) == "/messages/" + Token(id) + "/content_hash"
    ensures Path(Order(Messages)) == "/messages/order"
  {
    EntityPaths(Messages, id);
    OrderPath(Messages);
    hide Path, Token;
  }

  lemma TaskPaths(id: string)
    ensures Path(WholeOf(Tasks, id)) == "/pending_tasks/" + Token(id)
    ensures Path(FirstOf(Tasks, id)) == "/pending_tasks/" + Token(id) + "/task_type"
    ensures Path(SecondOf(Tasks, id)) == "/pending_tasks/" + Token(id) + "/payload_hash"
    ensures Path(Order(Tasks)) == "/pending_tasks/order"
  {
    EntityPaths(Tasks, id);
    OrderPath(Tasks);
    hide Path, Token;
  }

  // ---------------------------------------------------------------- a report at a path

  /**
   The document says at a path, in a section, that a value went from `x` to `y`, and says nothing if they are equal.
   */
  ghost predicate Reports(r: seq<Change>, path: string, section: Section, x: Option<Value>, y: Option<Value>) {
    var how := if x.None? then Added else if y.None? then Removed else Changed;
    && (x != y ==> Change(section, path, how, x, y) in r)
    && (forall c :: c in r && c.path == path ==> x != y && c == Change(section, path, how, x, y))
  }

  /** A slot whose path no other slot has, or that is reported itself. */
  predicate OwnPath(b: Context, a: Context, s: Slot) {
    !s.Order? && (s.WholeOf? && s.id == OrderName() ==> ChangeAt(b, a, s).Some?)
  }

  lemma SlotReports(b: Context, a: Context, r: seq<Change>, s: Slot)
    requires IsDiff(b, a, r) && OwnPath(b, a, s) && Compared(b, a, s)
    ensures Reports(r, Path(s), SectionOf(s), View(b, s), View(a, s))
  {
    hide View, Path, SectionOf, Increasing, Compared;
    var d := ChangeAt(b, a, s);
    if d.Some? { assert Reported(b, a, d.value); }
    forall c | c in r && c.path == Path(s) ensures d == Some(c) {
      var t :| ChangeAt(b, a, t) == Some(c);
      hide ChangeAt;
      ChangeHasPath(b, a, t);
      PathsIdentifySlots(s, t);
      if Aliased(t, s) { AliasedNotBothReported(b, a, t.keyed, s.id); }
    }
  }

  // ---------------------------------------------------------------- fields, tools and pending identifiers

  function Optional(h: Option<Hash>): Value {
    if h.Some? then Text(h.value) else Null
  }

  lemma FieldReports(b: Context, a: Context, r: seq<Change>, f: Field)
    requires IsDiff(b, a, r)
    ensures Reports(r, Path(At(f)), SectionOf(At(f)), Some(FieldValue(b, f)), Some(FieldValue(a, f)))
  {
    hide IsDiff, Reports, Path, SectionOf, FieldValue;
    SlotReports(b, a, r, At(f));
  }

  /** The fields of a context: each at its own path, in its own section, with the two values it has. */
  lemma ApplicationReported(b: Context, a: Context, r: seq<Change>)
    requires IsDiff(b, a, r)
    ensures Reports(r, "/safe_point_id", Application, Some(Text(b.safePointId)), Some(Text(a.safePointId)))
    ensures Reports(r, "/deterministic_seed", Application, Some(Number(b.seed)), Some(Number(a.seed)))
    ensures Reports(r, "/context_revision", Application, Some(Number(b.revision)), Some(Number(a.revision)))
    ensures Reports(r, "/model_identifier", Application, Some(Text(b.model)), Some(Text(a.model)))
    ensures Reports(r, "/user_visible_summary_hash", MemoryReferences,
                    Some(Optional(b.summaryHash)), Some(Optional(a.summaryHash)))
  {
    SafePointPath();
    SeedPath();
    RevisionPath();
    ModelPath();
    SummaryPath();
    hide IsDiff, Reports, Path;
    FieldReports(b, a, r, SafePointId);
    FieldReports(b, a, r, Seed);
    FieldReports(b, a, r, Revision);
    FieldReports(b, a, r, Model);
    FieldReports(b, a, r, SummaryHash);
  }

  lemma CursorsReported(b: Context, a: Context, r: seq<Change>)
    requires IsDiff(b, a, r)
    ensures Reports(r, "/cursors/boundary_sequence", CursorSection,
                    Some(Number(b.cursors.boundarySequence)), Some(Number(a.cursors.boundarySequence)))
    ensures Reports(r, "/cursors/message_cursor", CursorSection,
                    Some(Number(b.cursors.messageCursor)), Some(Number(a.cursors.messageCursor)))
    ensures Reports(r, "/cursors/tool_cursor", CursorSection,
                    Some(Number(b.cursors.toolCursor)), Some(Number(a.cursors.toolCursor)))
    ensures Reports(r, "/cursors/task_cursor", CursorSection,
                    Some(Number(b.cursors.taskCursor)), Some(Number(a.cursors.taskCursor)))
  {
    BoundaryPath();
    MessageCursorPath();
    ToolCursorPath();
    TaskCursorPath();
    hide IsDiff, Reports, Path;
    FieldReports(b, a, r, BoundarySequence);
    FieldReports(b, a, r, MessageCursor);
    FieldReports(b, a, r, ToolCursor);
    FieldReports(b, a, r, TaskCursor);
  }

  function Version(registry: map<string, string>, id: string): Option<Value> {
    if id in registry then Some(Text(registry[id])) else None
  }

  /** A tool is reported under its own name with its versions, as added, removed or changed. */
  lemma ToolReported(b: Context, a: Context, r: seq<Change>, id: string)
    requires IsDiff(b, a, r)
    ensures Reports(r, "/tool_registry/" + Token(id), ToolRegistrySection, Version(b.toolRegistry, id),
        Version(a.toolRegistry, id))
  {
    ToolPath(id);
    hide IsDiff, Reports, Path, Token;
    SlotReports(b, a, r, Tool(id));
  }

  function Presence(ids: seq<string>, id: string): Option<Value> {
    if id in ids then Some(Text(id)) else None
  }

  /** A pending identifier is reported in its own list as added or removed. */
  lemma PendingReported(b: Context, a: Context, r: seq<Change>, id: string)
    requires IsDiff(b, a, r)
    ensures Reports(r, "/pending_model_request_ids/" + Token(id), ModelRequestSection,
                    Presence(b.pendingRequests, id), Presence(a.pendingRequests, id))
    ensures Reports(r, "/pending_tool_call_ids/" + Token(id), ToolCallSection,
                    Presence(b.pendingCalls, id), Presence(a.pendingCalls, id))
  {
    RequestPath(id);
    CallPath(id);
    hide IsDiff, Reports, Path, Token;
    SlotReports(b, a, r, Pending(Requests, id));
    SlotReports(b, a, r, Pending(Calls, id));
  }

  // ---------------------------------------------------------------- messages and tasks

  function Spelled(r: Role): string {
    if r == SystemRole then "system"
    else if r == UserRole then "user"
    else if r == AssistantRole then "assistant"
    else "tool"
  }

  function MessageValue(m: ObservableMessage): Entity {
    Entity(m.messageId, Text(Spelled(m.role)), Text(m.contentHash))
  }

  function TaskValue(t: PendingTask): Entity {
    Entity(t.taskId, Text(t.taskType), Optional(t.payloadHash))
  }

  lemma MessageStands(c: Context, m: ObservableMessage)
    requires UniqueEntries(c) && m in c.messages
    ensures EntityAt(c, Messages, m.messageId) == Some(MessageValue(m))
  {
    EntityIdsAgree(c);
    var i :| 0 <= i < |c.messages| && c.messages[i] == m;
    var s := Entities(c, Messages);
    assert s[i] == OfMessage(m) == MessageValue(m);
    hide Entities, ById, Unique;
    ByIdFinds(s, i);
  }

  lemma TaskStands(c: Context, t: PendingTask)
    requires UniqueEntries(c) && t in c.pendingTasks
    ensures EntityAt(c, Tasks, t.taskId) == Some(TaskValue(t))
  {
    EntityIdsAgree(c);
    var i :| 0 <= i < |c.pendingTasks| && c.pendingTasks[i] == t;
    var s := Entities(c, Tasks);
    assert s[i] == OfTask(t) == TaskValue(t);
    hide Entities, ById, Unique;
    ByIdFinds(s, i);
  }

  lemma NothingStands(c: Context, k: Keyed, id: string)
    requires id !in (if k.Messages? then MessageIds(c) else TaskIds(c))
    ensures EntityAt(c, k, id).None?
  {
    EntityIdsAgree(c);
    ByIdKeys(Entities(c, k));
    hide Entities, ById, IdsOf, MessageIds, TaskIds;
  }

  /** The parts of an entity that stands on both sides, and the whole of one that stands on one side. */
  lemma EntityReports(b: Context, a: Context, r: seq<Change>, k: Keyed, id: string)
    requires IsDiff(b, a, r)
    ensures var x, y := EntityAt(b, k, id), EntityAt(a, k, id);
      && (x.Some? && y.Some? ==>
            && Reports(r, Path(FirstOf(k, id)), EntitySection(k), Some(x.value.first), Some(y.value.first))
            && Reports(r, Path(SecondOf(k, id)), EntitySection(k), Some(x.value.second), Some(y.value.second))
            && (id != OrderName() ==> forall c :: c in r ==> c.path != Path(WholeOf(k, id))))
      && (x.Some? && y.None? ==> Reports(r, Path(WholeOf(k, id)), EntitySection(k), Some(Whole(x.value)), None))
      && (x.None? && y.Some? ==> Reports(r, Path(WholeOf(k, id)), EntitySection(k), None, Some(Whole(y.value))))
  {
    var x, y := EntityAt(b, k, id), EntityAt(a, k, id);
    hide IsDiff, Path, EntityAt, OrderName;
    if x.Some? && y.Some? {
      SlotReports(b, a, r, FirstOf(k, id));
      SlotReports(b, a, r, SecondOf(k, id));
      if id != OrderName() { WholeIsSilent(b, a, r, k, id); }
      hide Reports;
    } else if x.Some? || y.Some? {
      SlotReports(b, a, r, WholeOf(k, id));
      hide Reports;
    }
  }

  lemma WholeIsSilent(b: Context, a: Context, r: seq<Change>, k: Keyed, id: string)
    requires IsDiff(b, a, r) && id != OrderName() && EntityAt(b, k, id).Some? && EntityAt(a, k, id).Some?
    ensures forall c :: c in r ==> c.path != Path(WholeOf(k, id))
  {
    var s := WholeOf(k, id);
    assert ChangeAt(b, a, s).None?;
    hide Path, Increasing, EntityAt, ChangeAt;
    forall c | c in r ensures c.path != Path(s) {
      var t :| ChangeAt(b, a, t) == Some(c);
      ChangeHasPath(b, a, t);
      if c.path == Path(s) { PathsIdentifySlots(s, t); }
    }
  }

  /** A message on both sides is reported by role and content; on one side, as a whole. */
  lemma MessageReported(b: Context, a: Context, r: seq<Change>, id: string)
    requires IsDiff(b, a, r) && UniqueEntries(b) && UniqueEntries(a)
    ensures forall m, n :: m in b.messages && n in a.messages && m.messageId == id && n.messageId == id ==>
      && Reports(r, "/messages/" + Token(id) + "/role", MessageSection, Some(Text(Spelled(m.role))),
         Some(Text(Spelled(n.role))))
      && Reports(r, "/messages/" + Token(id) + "/content_hash", MessageSection, Some(Text(m.contentHash)),
         Some(Text(n.contentHash)))
      && (id != "order" ==> forall c :: c in r ==> c.path != "/messages/" + Token(id))
    ensures forall m :: m in b.messages && m.messageId == id && id !in MessageIds(a) ==>
      Reports(r, "/messages/" + Token(id), MessageSection, Some(Whole(MessageValue(m))), None)
    ensures forall n :: n in a.messages && n.messageId == id && id !in MessageIds(b) ==>
      Reports(r, "/messages/" + Token(id), MessageSection, None, Some(Whole(MessageValue(n))))
  {
    MessagePaths(id);
    EntityReports(b, a, r, Messages, id);
    forall m | m in b.messages && m.messageId == id
        ensures EntityAt(b, Messages, id) == Some(MessageValue(m)) { MessageStands(b, m); }
    forall n | n in a.messages && n.messageId == id
        ensures EntityAt(a, Messages, id) == Some(MessageValue(n)) { MessageStands(a, n); }
    if id !in MessageIds(a) { NothingStands(a, Messages, id); }
    if id !in MessageIds(b) { NothingStands(b, Messages, id); }
    hide Reports, Path, Token, IsDiff, EntityAt, UniqueEntries, Spelled, MessageIds;
  }

  /** A task on both sides is reported by type and payload; on one side, as a whole. */
  lemma TaskReported(b: Context, a: Context, r: seq<Change>, id: string)
    requires IsDiff(b, a, r) && UniqueEntries(b) && UniqueEntries(a)
    ensures forall m, n :: m in b.pendingTasks && n in a.pendingTasks && m.taskId == id && n.taskId == id ==>
      && Reports(r, "/pending_tasks/" + Token(id) + "/task_type", TaskSection, Some(Text(m.taskType)),
         Some(Text(n.taskType)))
      && Reports(r, "/pending_tasks/" + Token(id) + "/payload_hash", TaskSection,
                 Some(Optional(m.payloadHash)), Some(Optional(n.payloadHash)))
      && (id != "order" ==> forall c :: c in r ==> c.path != "/pending_tasks/" + Token(id))
    ensures forall m :: m in b.pendingTasks && m.taskId == id && id !in TaskIds(a) ==>
      Reports(r, "/pending_tasks/" + Token(id), TaskSection, Some(Whole(TaskValue(m))), None)
    ensures forall n :: n in a.pendingTasks && n.taskId == id && id !in TaskIds(b) ==>
      Reports(r, "/pending_tasks/" + Token(id), TaskSection, None, Some(Whole(TaskValue(n))))
  {
    TaskPaths(id);
    EntityReports(b, a, r, Tasks, id);
    forall m | m in b.pendingTasks && m.taskId == id
        ensures EntityAt(b, Tasks, id) == Some(TaskValue(m)) { TaskStands(b, m); }
    forall n | n in a.pendingTasks && n.taskId == id
        ensures EntityAt(a, Tasks, id) == Some(TaskValue(n)) { TaskStands(a, n); }
    if id !in TaskIds(a) { NothingStands(a, Tasks, id); }
    if id !in TaskIds(b) { NothingStands(b, Tasks, id); }
    hide Reports, Path, Token, IsDiff, EntityAt, UniqueEntries, TaskIds;
  }

  // ---------------------------------------------------------------- orders

  /**
   The document says at a path that a list of identifiers was reordered, exactly if it holds the same ones in another
   order.
   */
  ghost predicate ReportsOrder(r: seq<Change>, path: string, section: Section, x: seq<string>, y: seq<string>) {
    var reordered := x != y && (forall id :: id in x <==> id in y);
    && (reordered ==> Change(section, path, Changed, Some(Ids(x)), Some(Ids(y))) in r)
    && (forall c :: c in r && c.path == path && c.classification == Changed ==>
          reordered && c == Change(section, path, Changed, Some(Ids(x)), Some(Ids(y))))
  }

  lemma SameIdsMeans(b: Context, a: Context, k: Keyed)
    ensures SameIds(b, a, k) <==> forall id :: id in IdsOf(Entities(b, k)) <==> id in IdsOf(Entities(a, k))
  {
    ByIdKeys(Entities(b, k));
    ByIdKeys(Entities(a, k));
    hide ById, IdsOf, Entities;
    var x, y := IdsOf(Entities(b, k)), IdsOf(Entities(a, k));
    var p, q := ById(Entities(b, k)).Keys, ById(Entities(a, k)).Keys;
    assert forall id :: id in p <==> id in x;
    assert forall id :: id in q <==> id in y;
  }

  lemma OrderReports(b: Context, a: Context, r: seq<Change>, k: Keyed)
    requires IsDiff(b, a, r)
    ensures ReportsOrder(r, Path(Order(k)), EntitySection(k), IdsOf(Entities(b, k)), IdsOf(Entities(a, k)))
  {
    var s := Order(k);
    OrderChange(b, a, k);
    SameIdsMeans(b, a, k);
    hide Path, Increasing, IdsOf, Entities, ById, SameIds;
    var d := ChangeAt(b, a, s);
    if d.Some? { assert Reported(b, a, d.value); }
    forall c | c in r && c.path == Path(s) && c.classification == Changed ensures d == Some(c) {
      var t :| ChangeAt(b, a, t) == Some(c);
      ChangeHasPath(b, a, t);
      WholeIsNotChanged(b, a, t);
      hide ChangeAt;
      PathsIdentifySlots(s, t);
    }
    hide ChangeAt;
  }

  lemma WholeIsNotChanged(b: Context, a: Context, s: Slot)
    ensures s.WholeOf? && ChangeAt(b, a, s).Some? ==> ChangeAt(b, a, s).value.classification != Changed
  {
    hide EntityAt, Path, SectionOf;
  }

  /** The order of messages, and that of tasks. */
  lemma OrdersReported(b: Context, a: Context, r: seq<Change>)
    requires IsDiff(b, a, r)
    ensures ReportsOrder(r, "/messages/order", MessageSection, MessageIds(b), MessageIds(a))
    ensures ReportsOrder(r, "/pending_tasks/order", TaskSection, TaskIds(b), TaskIds(a))
  {
    MessagePaths("");
    TaskPaths("");
    EntityIdsAgree(b);
    EntityIdsAgree(a);
    hide IsDiff, Path, ReportsOrder, IdsOf, Entities, MessageIds, TaskIds;
    OrderReports(b, a, r, Messages);
    OrderReports(b, a, r, Tasks);
  }
}
