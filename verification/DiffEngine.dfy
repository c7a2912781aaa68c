/** The comparison loops of crates/epoch-diff, proved to produce the diff document. */
module DiffEngine {
  import opened Wrappers
  import opened Contexts
  import opened JsonPointer
  import opened SemanticDiff
  import opened Ordering
  import opened DiffTheorems

  // ---------------------------------------------------------------- pushing one change

  /** `changed_value` */
  function ChangedValue(changes: seq<Change>, section: Section, path: string, x: Value, y: Value): seq<Change> {
    if x != y then changes + [Change(section, path, Changed, Some(x), Some(y))] else changes
  }

  /** `removed` */
  function RemovedValue(changes: seq<Change>, section: Section, path: string, x: Value): seq<Change> {
    changes + [Change(section, path, Removed, Some(x), None)]
  }

  /** `added` */
  function AddedValue(changes: seq<Change>, section: Section, path: string, y: Value): seq<Change> {
    changes + [Change(section, path, Added, None, Some(y))]
  }

  /** `entity_path` */
  function EntityPath(root: string, id: string): string {
    root + "/" + Token(id)
  }

  // ---------------------------------------------------------------- the literal paths

  predicate Plain(s: string) {
    '~' !in s && '/' !in s
  }

  lemma {:induction false} PlainIsItsToken(s: string)
    requires Plain(s)
    ensures Token(s) == s
  {
    TokenEscapes(s);
    PlainEscapes(s);
  }

  lemma {:induction false} PlainEscapes(s: string)
    requires Plain(s)
    ensures Escape(s) == s
  {
    if s != "" {
      assert s[0] in s && forall c :: c in s[1..] ==> c in s;
      PlainEscapes(s[1..]);
    }
  }

  lemma RenderTwo(x: string, y: string)
    requires Plain(x)
    ensures Render([x]) == "/" + x
    ensures Render([x, y]) == EntityPath("/" + x, y)
  {
    PlainIsItsToken(x);
    hide Token;
    assert Render([]) == "";
    assert [y][1..] == [] && [x, y][1..] == [y] && [x][1..] == [];
    assert Render([y]) == "/" + Token(y) + "";
  }

  lemma RenderThree(x: string, y: string, z: string)
    requires Plain(x) && Plain(z)
    ensures Render([x, y, z]) == EntityPath("/" + x, y) + "/" + z
  {
    PlainIsItsToken(x);
    RenderTwo(z, "");
    hide Token;
    assert [x, y, z][1..] == [y, z] && [y, z][1..] == [z];
    assert Render([y, z]) == "/" + Token(y) + Render([z]);
  }

  lemma NamesArePlain(k: Keyed)
    ensures Plain(Root(k)) && Plain(FirstName(k)) && Plain(SecondName(k)) && Plain(OrderName())
  {
  }

  lemma RootsArePlain(l: Bare)
    ensures Plain(BareRoot(l)) && Plain(ToolRoot())
  {
  }

  /** The paths that the loops spell are the paths of the slots. */
  lemma EntityPaths(k: Keyed, id: string)
    ensures Path(WholeOf(k, id)) == EntityPath("/" + Root(k), id)
    ensures Path(FirstOf(k, id)) == EntityPath("/" + Root(k), id) + "/" + FirstName(k)
    ensures Path(SecondOf(k, id)) == EntityPath("/" + Root(k), id) + "/" + SecondName(k)
  {
    NamesArePlain(k);
    hide Token, Render, Plain, Root, FirstName, SecondName, OrderName, ToolRoot, FieldTokens, BareRoot;
    RenderTwo(Root(k), id);
    RenderThree(Root(k), id, FirstName(k));
    RenderThree(Root(k), id, SecondName(k));
  }

  lemma OrderPath(k: Keyed)
    ensures Path(Order(k)) == "/" + Root(k) + "/" + OrderName()
  {
    NamesArePlain(k);
    hide Token, Render, Plain, Root, FirstName, SecondName, OrderName, ToolRoot, FieldTokens, BareRoot;
    PlainIsItsToken(OrderName());
    RenderTwo(Root(k), OrderName());
  }

  lemma OtherPaths(id: string, l: Bare)
    ensures Path(Tool(id)) == EntityPath("/" + ToolRoot(), id)
    ensures Path(Pending(l, id)) == EntityPath("/" + BareRoot(l), id)
  {
    RootsArePlain(l);
    hide Token, Render, Plain, Root, FirstName, SecondName, OrderName, ToolRoot, FieldTokens, BareRoot;
    RenderTwo(ToolRoot(), id);
    RenderTwo(BareRoot(l), id);
  }

  // ---------------------------------------------------------------- covering a set of slots

  /** The list holds exactly what is reported at the given slots, no path twice. */
  ghost predicate Covers(r: seq<Change>, b: Context, a: Context, slots: iset<Slot>) {
    && (forall c :: c in r ==> exists s :: s in slots && ChangeAt(b, a, s) == Some(c))
    && (forall s :: s in slots && ChangeAt(b, a, s).Some? ==> ChangeAt(b, a, s).value in r)
    && (forall i, j :: 0 <= i < j < |r| ==> r[i].path != r[j].path)
  }

  /** Pushing what is reported at one more slot. */
  lemma CoverOne(r: seq<Change>, b: Context, a: Context, slots: iset<Slot>, s: Slot)
    requires Covers(r, b, a, slots) && s !in slots
    ensures Covers(r + ListOf(ChangeAt(b, a, s)), b, a, slots + iset{s})
  {
    hide ChangeAt;
    if ChangeAt(b, a, s).Some? {
      forall i | 0 <= i < |r| ensures r[i].path != ChangeAt(b, a, s).value.path {
        assert r[i] in r;
        var t :| t in slots && ChangeAt(b, a, t) == Some(r[i]);
        if r[i].path == ChangeAt(b, a, s).value.path { PathsAreDistinct(b, a, s, t); }
      }
    }
  }

  /** Appending the list of other slots. */
  lemma CoverBoth(r: seq<Change>, q: seq<Change>, b: Context, a: Context, slots: iset<Slot>, others: iset<Slot>)
    requires Covers(r, b, a, slots) && Covers(q, b, a, others) && slots !! others
    ensures Covers(r + q, b, a, slots + others)
  {
    hide ChangeAt;
    forall i, j | 0 <= i < |r| && 0 <= j < |q| ensures r[i].path != q[j].path {
      assert r[i] in r && q[j] in q;
      var s :| s in slots && ChangeAt(b, a, s) == Some(r[i]);
      var t :| t in others && ChangeAt(b, a, t) == Some(q[j]);
      if r[i].path == q[j].path { PathsAreDistinct(b, a, s, t); }
    }
  }

  /** Slots at which nothing is reported can be added freely. */
  lemma CoverSilent(r: seq<Change>, b: Context, a: Context, slots: iset<Slot>, more: iset<Slot>)
    requires Covers(r, b, a, slots) && slots <= more
    requires forall s :: s in more && s !in slots ==> ChangeAt(b, a, s).None?
    ensures Covers(r, b, a, more)
  {
    hide ChangeAt;
  }

  // ---------------------------------------------------------------- the comparison loops

  ghost function ToolSlots(): iset<Slot> {
    iset s: Slot | s.Tool?
  }

  /** What the branches of `compare_string_map` push is what is reported. */
  lemma ToolChange(r: seq<Change>, b: Context, a: Context, id: string)
    ensures id in b.toolRegistry && id in a.toolRegistry ==>
      ChangedValue(r, ToolRegistrySection, EntityPath("/" + ToolRoot(), id), Text(b.toolRegistry[id]),
        Text(a.toolRegistry[id]))
        == r + ListOf(ChangeAt(b, a, Tool(id)))
    ensures id in b.toolRegistry && id !in a.toolRegistry ==>
      RemovedValue(r, ToolRegistrySection, EntityPath("/" + ToolRoot(), id), Text(b.toolRegistry[id]))
        == r + ListOf(ChangeAt(b, a, Tool(id)))
    ensures id !in b.toolRegistry && id in a.toolRegistry ==>
      AddedValue(r, ToolRegistrySection, EntityPath("/" + ToolRoot(), id), Text(a.toolRegistry[id]))
        == r + ListOf(ChangeAt(b, a, Tool(id)))
    ensures id !in b.toolRegistry && id !in a.toolRegistry ==> ChangeAt(b, a, Tool(id)).None?
  {
    OtherPaths(id, Requests);
    hide Path, EntityPath;
    assert r + [] == r;
  }

  /** `compare_string_map` */
  method CompareStringMap(b: Context, a: Context) returns (r: seq<Change>)
    ensures Covers(r, b, a, ToolSlots())
  {
    hide ChangeAt, ChangedValue, RemovedValue, AddedValue, EntityPath, ListOf;
    r := [];
    ghost var slots: iset<Slot> := iset{};
    assert Covers(r, b, a, slots);
    hide Covers;
    var todo := b.toolRegistry.Keys;
    while todo != {}
      invariant todo <= b.toolRegistry.Keys
      invariant Covers(r, b, a, slots)
      invariant forall s :: s in slots <==> s.Tool? && s.id in b.toolRegistry && s.id !in todo
    {
      var id :| id in todo;
      ToolChange(r, b, a, id);
      CoverOne(r, b, a, slots, Tool(id));
      var path := EntityPath("/" + ToolRoot(), id);
      r := if id in a.toolRegistry
           then ChangedValue(r, ToolRegistrySection, path, Text(b.toolRegistry[id]), Text(a.toolRegistry[id]))
           else RemovedValue(r, ToolRegistrySection, path, Text(b.toolRegistry[id]));
      slots, todo := slots + iset{Tool(id)}, todo - {id};
    }
    todo := a.toolRegistry.Keys - b.toolRegistry.Keys;
    while todo != {}
      invariant todo <= a.toolRegistry.Keys - b.toolRegistry.Keys
      invariant Covers(r, b, a, slots)
      invariant forall s :: s in slots <==>
          s.Tool? && (s.id in b.toolRegistry || s.id in a.toolRegistry) && s.id !in todo
    {
      var id :| id in todo;
      ToolChange(r, b, a, id);
      CoverOne(r, b, a, slots, Tool(id));
      r := AddedValue(r, ToolRegistrySection, EntityPath("/" + ToolRoot(), id), Text(a.toolRegistry[id]));
      slots, todo := slots + iset{Tool(id)}, todo - {id};
    }
    forall s | s in ToolSlots() && s !in slots ensures ChangeAt(b, a, s).None? {
      ToolChange([], b, a, s.id);
    }
    CoverSilent(r, b, a, slots, ToolSlots());
  }

  ghost function EntitySlots(k: Keyed): iset<Slot> {
    iset s: Slot | (s.WholeOf? || s.FirstOf? || s.SecondOf?) && s.keyed == k
  }

  function EntitySection(k: Keyed): Section {
    if k.Messages? then MessageSection else TaskSection
  }

  /** What the branches of `compare_messages` and `compare_tasks` push for one identifier. */
  function ComparedEntity(r: seq<Change>, b: Context, a: Context, k: Keyed, id: string): seq<Change> {
    var root, x, y := EntityPath("/" + Root(k), id), EntityAt(b, k, id), EntityAt(a, k, id);
    if x.Some? && y.Some? then
      var first := ChangedValue(r, EntitySection(k), root + "/" + FirstName(k), x.value.first, y.value.first);
      ChangedValue(first, EntitySection(k), root + "/" + SecondName(k), x.value.second, y.value.second)
    else if x.Some? then RemovedValue(r, EntitySection(k), root, Whole(x.value))
    else if y.Some? then AddedValue(r, EntitySection(k), root, Whole(y.value))
    else r
  }

  lemma EntityChange(r: seq<Change>, b: Context, a: Context, k: Keyed, id: string)
    ensures ComparedEntity(r, b, a, k, id)
         == r + ListOf(ChangeAt(b, a, WholeOf(k, id))) + ListOf(ChangeAt(b, a, FirstOf(k, id)))
           + ListOf(ChangeAt(b, a, SecondOf(k, id)))
  {
    EntityPaths(k, id);
    hide Path, EntityPath, EntityAt, Root, FirstName, SecondName;
  }

  lemma CoverEntity(r: seq<Change>, b: Context, a: Context, slots: iset<Slot>, k: Keyed, id: string)
    requires Covers(r, b, a, slots)
    requires WholeOf(k, id) !in slots && FirstOf(k, id) !in slots && SecondOf(k, id) !in slots
    ensures Covers(ComparedEntity(r, b, a, k, id), b, a, slots + iset{WholeOf(k, id), FirstOf(k, id), SecondOf(k, id)})
  {
    EntityChange(r, b, a, k, id);
    hide Covers, ChangeAt, ComparedEntity, ListOf;
    var one := r + ListOf(ChangeAt(b, a, WholeOf(k, id)));
    var two := one + ListOf(ChangeAt(b, a, FirstOf(k, id)));
    CoverOne(r, b, a, slots, WholeOf(k, id));
    CoverOne(one, b, a, slots + iset{WholeOf(k, id)}, FirstOf(k, id));
    CoverOne(two, b, a, slots + iset{WholeOf(k, id)} + iset{FirstOf(k, id)}, SecondOf(k, id));
    assert slots + iset{WholeOf(k, id)} + iset{FirstOf(k, id)} + iset{SecondOf(k, id)}
        == slots + iset{WholeOf(k, id), FirstOf(k, id), SecondOf(k, id)};
  }

  /** `compare_messages` and `compare_tasks`, after the order comparison */
  method CompareEntities(b: Context, a: Context, k: Keyed) returns (r: seq<Change>)
    ensures Covers(r, b, a, EntitySlots(k))
  {
    hide ChangeAt, ComparedEntity, Entities, ById;
    var beforeById, afterById := ById(Entities(b, k)), ById(Entities(a, k));
    r := [];
    ghost var slots: iset<Slot> := iset{};
    assert Covers(r, b, a, slots);
    hide Covers;
    var todo := beforeById.Keys;
    while todo != {}
      invariant todo <= beforeById.Keys
      invariant Covers(r, b, a, slots)
      invariant forall s :: s in slots <==> s in EntitySlots(k) && s.id in beforeById && s.id !in todo
    {
      var id :| id in todo;
      CoverEntity(r, b, a, slots, k, id);
      r := ComparedEntity(r, b, a, k, id);
      slots, todo := slots + iset{WholeOf(k, id), FirstOf(k, id), SecondOf(k, id)}, todo - {id};
    }
    todo := afterById.Keys - beforeById.Keys;
    while todo != {}
      invariant todo <= afterById.Keys - beforeById.Keys
      invariant Covers(r, b, a, slots)
      invariant forall s :: s in slots <==>
          s in EntitySlots(k) && (s.id in beforeById || s.id in afterById) && s.id !in todo
    {
      var id :| id in todo;
      CoverEntity(r, b, a, slots, k, id);
      r := ComparedEntity(r, b, a, k, id);
      slots, todo := slots + iset{WholeOf(k, id), FirstOf(k, id), SecondOf(k, id)}, todo - {id};
    }
    forall s | s in EntitySlots(k) && s !in slots ensures ChangeAt(b, a, s).None? {
      AbsentEntity(b, a, k, s);
    }
    CoverSilent(r, b, a, slots, EntitySlots(k));
  }

  lemma AbsentEntity(b: Context, a: Context, k: Keyed, s: Slot)
    requires s in EntitySlots(k) && s.id !in ById(Entities(b, k)) && s.id !in ById(Entities(a, k))
    ensures ChangeAt(b, a, s).None?
  {
    hide ById, Entities, Path, SectionOf;
  }

  /** `compare_stable_id_order` */
  method CompareOrder(b: Context, a: Context, k: Keyed) returns (r: seq<Change>)
    ensures Covers(r, b, a, iset{Order(k)})
  {
    ByIdKeys(Entities(b, k));
    ByIdKeys(Entities(a, k));
    OrderChange(b, a, k);
    OrderPath(k);
    hide ChangeAt, Path, Entities, IdsOf, ById, Root, OrderName;
    assert Covers([], b, a, iset{});
    hide Covers;
    var x, y := IdsOf(Entities(b, k)), IdsOf(Entities(a, k));
    r := [];
    if x != y && (set id | id in x) == (set id | id in y) {
      r := ChangedValue(r, EntitySection(k), "/" + Root(k) + "/" + OrderName(), Ids(x), Ids(y));
    }
    CoverOne([], b, a, iset{}, Order(k));
    assert r == [] + ListOf(ChangeAt(b, a, Order(k)));
    assert iset{} + iset{Order(k)} == iset{Order(k)};
  }

  lemma OrderChange(b: Context, a: Context, k: Keyed)
    ensures ChangeAt(b, a, Order(k)) ==
      if SameIds(b, a, k) && IdsOf(Entities(b, k)) != IdsOf(Entities(a, k))
      then Some(Change(EntitySection(k), Path(Order(k)), Changed, Some(Ids(IdsOf(Entities(b, k)))),
        Some(Ids(IdsOf(Entities(a, k))))))
      else None
  {
    hide Path, Entities, IdsOf, ById;
  }

  lemma {:induction false} ByIdKeys(s: seq<Entity>)
    ensures ById(s).Keys == set id | id in IdsOf(s)
  {
    if s != [] {
      var before, last := s[..|s| - 1], s[|s| - 1];
      ByIdKeys(before);
      assert IdsOf(s) == IdsOf(before) + [last.id];
    }
  }

  ghost function PendingSlots(l: Bare): iset<Slot> {
    iset s: Slot | s.Pending? && s.bare == l
  }

  lemma PendingChange(r: seq<Change>, b: Context, a: Context, l: Bare, id: string)
    ensures id in BareIds(b, l) && id !in BareIds(a, l) ==>
      RemovedValue(r, SectionOf(Pending(l, id)), EntityPath("/" + BareRoot(l), id), Text(id))
        == r + ListOf(ChangeAt(b, a, Pending(l, id)))
    ensures id !in BareIds(b, l) && id in BareIds(a, l) ==>
      AddedValue(r, SectionOf(Pending(l, id)), EntityPath("/" + BareRoot(l), id), Text(id))
        == r + ListOf(ChangeAt(b, a, Pending(l, id)))
    ensures (id in BareIds(b, l) <==> id in BareIds(a, l)) ==> ChangeAt(b, a, Pending(l, id)).None?
  {
    OtherPaths(id, l);
    hide Path, EntityPath, BareRoot;
  }

  /** `compare_id_collection` */
  method CompareIdCollection(b: Context, a: Context, l: Bare) returns (r: seq<Change>)
    ensures Covers(r, b, a, PendingSlots(l))
  {
    hide ChangeAt, RemovedValue, AddedValue, EntityPath, ListOf, BareIds, BareRoot, SectionOf;
    var before, after := set id | id in BareIds(b, l), set id | id in BareIds(a, l);
    r := [];
    ghost var slots: iset<Slot> := iset{};
    assert Covers(r, b, a, slots);
    hide Covers;
    var todo := before - after;
    while todo != {}
      invariant todo <= before - after
      invariant Covers(r, b, a, slots)
      invariant forall s :: s in slots <==> s in PendingSlots(l) && s.id in before - after && s.id !in todo
    {
      var id :| id in todo;
      PendingChange(r, b, a, l, id);
      CoverOne(r, b, a, slots, Pending(l, id));
      r := RemovedValue(r, SectionOf(Pending(l, id)), EntityPath("/" + BareRoot(l), id), Text(id));
      slots, todo := slots + iset{Pending(l, id)}, todo - {id};
    }
    todo := after - before;
    while todo != {}
      invariant todo <= after - before
      invariant Covers(r, b, a, slots)
      invariant forall s :: s in slots <==>
          s in PendingSlots(l) && (s.id in before <==> s.id !in after) && s.id !in todo
    {
      var id :| id in todo;
      PendingChange(r, b, a, l, id);
      CoverOne(r, b, a, slots, Pending(l, id));
      r := AddedValue(r, SectionOf(Pending(l, id)), EntityPath("/" + BareRoot(l), id), Text(id));
      slots, todo := slots + iset{Pending(l, id)}, todo - {id};
    }
    forall s | s in PendingSlots(l) && s !in slots ensures ChangeAt(b, a, s).None? {
      PendingChange([], b, a, l, s.id);
    }
    CoverSilent(r, b, a, slots, PendingSlots(l));
  }

  // ---------------------------------------------------------------- the fields

  /** The literal path of a field: one or two names, none of which needs escaping. */
  function FieldPath(f: Field): string {
    var t := FieldTokens(f);
    if |t| == 1 then "/" + t[0] else "/" + t[0] + "/" + t[1]
  }

  lemma FieldRootIsPlain(f: Field)
    ensures Plain(FieldTokens(f)[0])
  {
    if f.SafePointId? || f.Seed? { FirstRootIsPlain(f); }
    else if f.Revision? || f.Model? { SecondRootIsPlain(f); }
    else { OtherRootIsPlain(f); }
    hide Plain, FieldTokens;
  }

  lemma FirstRootIsPlain(f: Field)
    requires f.SafePointId? || f.Seed?
    ensures Plain(FieldTokens(f)[0])
  {
  }

  lemma SecondRootIsPlain(f: Field)
    requires f.Revision? || f.Model?
    ensures Plain(FieldTokens(f)[0])
  {
  }

  lemma OtherRootIsPlain(f: Field)
    requires !(f.SafePointId? || f.Seed? || f.Revision? || f.Model?)
    ensures Plain(FieldTokens(f)[0])
  {
  }

  lemma CursorNameIsPlain(f: Field)
    ensures |FieldTokens(f)| == 2 ==> Plain(FieldTokens(f)[1])
  {
  }

  lemma FieldPaths(f: Field)
    ensures Path(At(f)) == FieldPath(f)
  {
    var t := FieldTokens(f);
    FieldRootIsPlain(f);
    CursorNameIsPlain(f);
    assert t == if |t| == 1 then [t[0]] else [t[0], t[1]];
    hide Token, Render, FieldTokens, Plain;
    if |t| == 1 {
      RenderTwo(t[0], t[0]);
    } else {
      RenderTwo(t[0], t[1]);
      PlainIsItsToken(t[1]);
    }
  }

  ghost function FieldSlots(): iset<Slot> {
    iset s: Slot | s.At?
  }

  lemma FieldChange(r: seq<Change>, b: Context, a: Context, f: Field)
    ensures ChangedValue(r, SectionOf(At(f)), FieldPath(f), FieldValue(b, f), FieldValue(a, f))
        == r + ListOf(ChangeAt(b, a, At(f)))
  {
    FieldPaths(f);
    hide Path, FieldPath, SectionOf, FieldValue;
  }

  /** The calls of `changed_value` in `compare_contexts`. */
  method CompareFields(b: Context, a: Context) returns (r: seq<Change>)
    ensures Covers(r, b, a, FieldSlots())
  {
    hide ChangeAt, ChangedValue, FieldPath, FieldValue, SectionOf, ListOf;
    var fields :=
        [SafePointId, Seed, Revision, Model, BoundarySequence, MessageCursor, ToolCursor, TaskCursor, SummaryHash];
    r := [];
    ghost var slots: iset<Slot> := iset{};
    assert Covers(r, b, a, slots);
    hide Covers;
    var i := 0;
    while i < |fields|
      invariant 0 <= i <= |fields|
      invariant Covers(r, b, a, slots)
      invariant forall s :: s in slots <==> s.At? && s.field in fields[..i]
    {
      var f := fields[i];
      FieldChange(r, b, a, f);
      CoverOne(r, b, a, slots, At(f));
      r := ChangedValue(r, SectionOf(At(f)), FieldPath(f), FieldValue(b, f), FieldValue(a, f));
      slots, i := slots + iset{At(f)}, i + 1;
    }
    AllFields(fields);
    assert fields[..i] == fields;
    assert slots == FieldSlots();
  }

  lemma AllFields(fields: seq<Field>)
    requires fields
        == [SafePointId, Seed, Revision, Model, BoundarySequence, MessageCursor, ToolCursor, TaskCursor, SummaryHash]
    ensures forall f: Field :: f in fields
  {
    forall f: Field ensures f in fields {
      match f
      case SafePointId => assert fields[0] == f;
      case Seed => assert fields[1] == f;
      case Revision => assert fields[2] == f;
      case Model => assert fields[3] == f;
      case BoundarySequence => assert fields[4] == f;
      case MessageCursor => assert fields[5] == f;
      case ToolCursor => assert fields[6] == f;
      case TaskCursor => assert fields[7] == f;
      case SummaryHash => assert fields[8] == f;
    }
  }

  // ---------------------------------------------------------------- the whole comparison

  ghost function AllSlots(): iset<Slot> {
    FieldSlots() + ToolSlots() + KeyedSlots(Messages) + KeyedSlots(Tasks) + PendingSlots(Requests) + PendingSlots(Calls)
  }

  lemma EverySlot(s: Slot)
    ensures s in AllSlots()
  {
    match s
    case At(_) => assert s in FieldSlots();
    case Tool(_) => assert s in ToolSlots();
    case Order(k) => KeyedSlot(s, k);
    case WholeOf(k, _) => KeyedSlot(s, k);
    case FirstOf(k, _) => KeyedSlot(s, k);
    case SecondOf(k, _) => KeyedSlot(s, k);
    case Pending(l, _) => PendingSlot(s, l);
  }

  lemma KeyedSlot(s: Slot, k: Keyed)
    requires s == Order(k) || s in EntitySlots(k)
    ensures s in AllSlots()
  {
    assert s in KeyedSlots(k);
    match k
    case Messages => assert s in KeyedSlots(Messages);
    case Tasks => assert s in KeyedSlots(Tasks);
  }

  lemma PendingSlot(s: Slot, l: Bare)
    requires s in PendingSlots(l)
    ensures s in AllSlots()
  {
    match l
    case Requests => assert s in PendingSlots(Requests);
    case Calls => assert s in PendingSlots(Calls);
  }

  /** `compare_contexts` */
  method CompareContexts(b: Context, a: Context) returns (r: seq<Change>)
    ensures Covers(r, b, a, AllSlots())
  {
    hide Covers;
    r := CompareFields(b, a);
    ghost var slots := FieldSlots();
    var more := CompareStringMap(b, a);
    CoverBoth(r, more, b, a, slots, ToolSlots());
    r, slots := r + more, slots + ToolSlots();
    more := CompareKeyed(b, a, Messages);
    CoverBoth(r, more, b, a, slots, KeyedSlots(Messages));
    r, slots := r + more, slots + KeyedSlots(Messages);
    more := CompareKeyed(b, a, Tasks);
    CoverBoth(r, more, b, a, slots, KeyedSlots(Tasks));
    r, slots := r + more, slots + KeyedSlots(Tasks);
    more := CompareIdCollection(b, a, Requests);
    CoverBoth(r, more, b, a, slots, PendingSlots(Requests));
    r, slots := r + more, slots + PendingSlots(Requests);
    more := CompareIdCollection(b, a, Calls);
    CoverBoth(r, more, b, a, slots, PendingSlots(Calls));
    r, slots := r + more, slots + PendingSlots(Calls);
  }

  ghost function KeyedSlots(k: Keyed): iset<Slot> {
    EntitySlots(k) + iset{Order(k)}
  }

  /** The order comparison and then the entity loops. */
  method CompareKeyed(b: Context, a: Context, k: Keyed) returns (r: seq<Change>)
    ensures Covers(r, b, a, KeyedSlots(k))
  {
    hide Covers;
    var order := CompareOrder(b, a, k);
    var entities := CompareEntities(b, a, k);
    CoverBoth(order, entities, b, a, iset{Order(k)}, EntitySlots(k));
    assert iset{Order(k)} + EntitySlots(k) == KeyedSlots(k);
    return order + entities;
  }

  // ---------------------------------------------------------------- sorting

  function ClassRank(c: Classification): nat {
    match c case Added => 0 case Removed => 1 case Changed => 2
  }

  function SectionRank(s: Section): nat {
    match s
    case Application => 0 case CursorSection => 1 case MessageSection => 2 case MemoryReferences => 3
    case ModelRequestSection => 4 case TaskSection => 5 case ToolCallSection => 6 case ToolRegistrySection => 7
  }

  /** The sort key: path, then classification, then section. */
  predicate NotAfter(c: Change, d: Change) {
    || Before(c.path, d.path)
    || (c.path == d.path && ClassRank(c.classification) < ClassRank(d.classification))
    || (c.path == d.path && c.classification == d.classification && SectionRank(c.section) <= SectionRank(d.section))
  }

  ghost predicate DistinctPaths(r: seq<Change>) {
    forall i, j :: 0 <= i < j < |r| ==> r[i].path != r[j].path
  }

  /** Changes with distinct paths come out in path order, all of them and no others. */
  lemma SortedByPath(r: seq<Change>)
    requires DistinctPaths(r)
    ensures Increasing(Sort(r, NotAfter), PathBefore)
    ensures multiset(Sort(r, NotAfter)) == multiset(r)
    ensures forall d :: d in Sort(r, NotAfter) <==> d in r
  {
    PathsAreOrdered();
    SortPermutes(r, NotAfter);
    forall i | 0 <= i < |r| ensures Decides(r[..i], r[i], NotAfter, PathBefore) {
      forall c | c in r[..i] ensures if NotAfter(c, r[i]) then PathBefore(c, r[i]) else PathBefore(r[i], c) {
        BeforeIsTotal(c.path, r[i].path);
      }
    }
    SortIncreases(r, NotAfter, PathBefore);
  }

  /** `diff_application_checkpoints` on two validated contexts. */
  method DiffContexts(b: Context, a: Context) returns (r: seq<Change>)
    ensures IsDiff(b, a, r)
  {
    hide ChangeAt;
    var changes := CompareContexts(b, a);
    SortedByPath(changes);
    r := Sort(changes, NotAfter);
    hide Sort, Increasing;
    forall c ensures c in changes <==> Reported(b, a, c) {
      if Reported(b, a, c) {
        var s :| ChangeAt(b, a, s) == Some(c);
        EverySlot(s);
      }
    }
  }
}
