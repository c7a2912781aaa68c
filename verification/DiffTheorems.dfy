/** Laws of the semantic diff: distinct paths, mirror images, patching, and when nothing is reported. */
module DiffTheorems {
  import opened Wrappers
  import opened Contexts
  import opened JsonPointer
  import opened SemanticDiff
  import opened Ordering

  // ---------------------------------------------------------------- tokens identify slots

  /** Reads the kind of slot back from the length and first character of its first token. */
  function Family(token: string): nat {
    if |token| == 13 then (if token[0] == 's' then 0 else if token[0] == 't' then 1 else 2)
    else if |token| == 18 then 3
    else if |token| == 16 then (if token[0] == 'c' then 4 else 5)
    else if |token| == 7 then 6
    else if |token| == 8 then 7
    else if |token| == 25 then (if token[0] == 'u' then 8 else 9)
    else 10
  }

  function FamilyOf(s: Slot): nat {
    match s
    case At(f) =>
      (match f
       case SafePointId => 0 case Seed => 3 case Revision => 4 case Model => 5 case SummaryHash => 8 case _ => 6)
    case Tool(_) => 1
    case Pending(b, _) => if b.Requests? then 9 else 10
    case _ => if s.keyed.Tasks? then 2 else 7
  }

  lemma FamilyFromTokens(s: Slot)
    ensures |Tokens(s)| >= 1 && Family(Tokens(s)[0]) == FamilyOf(s)
  {
  }

  lemma CursorTokensDiffer(f: Field, g: Field)
    requires FamilyOf(At(f)) == FamilyOf(At(g)) && FieldTokens(f) == FieldTokens(g)
    ensures f == g
  {
    if FamilyOf(At(f)) == 6 {
      var x, y := FieldTokens(f)[1], FieldTokens(g)[1];
      assert |x| == |y| && x[0] == y[0] && x[1] == y[1];
    }
  }

  lemma PartNamesDiffer(k: Keyed)
    ensures FirstName(k) != SecondName(k)
  {
    assert |FirstName(k)| < |SecondName(k)|;
  }

  /** The order of a list and the entity named `order` in it share a path. */
  predicate Aliased(s: Slot, t: Slot) {
    s.Order? && t == WholeOf(s.keyed, OrderName())
  }

  lemma TokensIdentifySlots(s: Slot, t: Slot)
    requires Tokens(s) == Tokens(t)
    ensures s == t || Aliased(s, t) || Aliased(t, s)
  {
    FamilyFromTokens(s);
    FamilyFromTokens(t);
    hide Family;
    if s.At? && t.At? {
      CursorTokensDiffer(s.field, t.field);
    } else if !s.At? && !t.At? {
      hide FieldTokens;
      if s.FirstOf? || s.SecondOf? { PartNamesDiffer(s.keyed); }
    }
  }

  lemma IdIsKept(s: seq<Entity>, id: string)
    requires id in ById(s)
    ensures ById(s)[id].id == id
  {
  }

  lemma AliasedNotBothReported(b: Context, a: Context, k: Keyed, id: string)
    ensures ChangeAt(b, a, Order(k)).None? || ChangeAt(b, a, WholeOf(k, id)).None?
  {
    hide Path, SectionOf, ById, Entities, IdsOf;
    if SameIds(b, a, k) {
      assert id in ById(Entities(b, k)).Keys <==> id in ById(Entities(a, k)).Keys;
    }
  }

  lemma ChangeHasPath(b: Context, a: Context, s: Slot)
    ensures ChangeAt(b, a, s).Some? ==> ChangeAt(b, a, s).value.path == Path(s)
  {
    hide Path, SectionOf, View, Compared;
  }

  lemma PathsIdentifySlots(s: Slot, t: Slot)
    ensures Path(s) == Path(t) ==> s == t || Aliased(s, t) || Aliased(t, s)
  {
    hide Tokens, Render;
    if Path(s) == Path(t) {
      PathsAreInjective(Tokens(s), Tokens(t));
      TokensIdentifySlots(s, t);
    }
  }

  /** No two reported changes share a path. */
  lemma PathsAreDistinct(b: Context, a: Context, s: Slot, t: Slot)
    ensures ChangeAt(b, a, s).Some? && ChangeAt(b, a, t).Some? ==>
      (ChangeAt(b, a, s).value.path == ChangeAt(b, a, t).value.path ==> s == t)
  {
    hide ChangeAt, Path;
    ChangeHasPath(b, a, s);
    ChangeHasPath(b, a, t);
    PathsIdentifySlots(s, t);
    if Aliased(s, t) { AliasedNotBothReported(b, a, s.keyed, t.id); }
    if Aliased(t, s) { AliasedNotBothReported(b, a, t.keyed, s.id); }
  }

  // ---------------------------------------------------------------- the sorted document

  predicate PathBefore(c: Change, d: Change) {
    Before(c.path, d.path)
  }

  lemma PathsAreOrdered()
    ensures Transitive(PathBefore) && Asymmetric(PathBefore)
  {
    forall x, y, z | PathBefore(x, y) && PathBefore(y, z) ensures PathBefore(x, z) {
      BeforeIsTransitive(x.path, y.path, z.path);
    }
    forall x, y | PathBefore(x, y) ensures !PathBefore(y, x) {
      BeforeIsAsymmetric(x.path, y.path);
    }
  }

  /** `r` is the change list of the two contexts: every reported change, once, in path order. */
  ghost predicate IsDiff(b: Context, a: Context, r: seq<Change>) {
    Increasing(r, PathBefore) && forall c :: c in r <==> Reported(b, a, c)
  }

  /** The document is determined by the two contexts. */
  lemma DiffIsUnique(b: Context, a: Context, r: seq<Change>, q: seq<Change>)
    requires IsDiff(b, a, r) && IsDiff(b, a, q)
    ensures r == q
  {
    hide Reported;
    PathsAreOrdered();
    IncreasingIsUnique(r, q, PathBefore);
  }

  // ---------------------------------------------------------------- swapping the inputs

  function Mirror(c: Change): Change {
    c.(classification := (match c.classification case Added => Removed case Removed => Added case Changed => Changed),
       before := c.after, after := c.before)
  }

  function Mirrored(r: seq<Change>): seq<Change> {
    seq(|r|, i requires 0 <= i < |r| => Mirror(r[i]))
  }

  lemma MirrorAt(b: Context, a: Context, s: Slot)
    ensures ChangeAt(b, a, s).Some? ==> ChangeAt(a, b, s) == Some(Mirror(ChangeAt(b, a, s).value))
    ensures ChangeAt(b, a, s).None? ==> ChangeAt(a, b, s).None?
  {
    hide View, Path, SectionOf, ById, Entities;
  }

  lemma MirrorReported(b: Context, a: Context, c: Change)
    ensures Reported(b, a, c) ==> Reported(a, b, Mirror(c)) && Mirror(Mirror(c)) == c
  {
    hide ChangeAt;
    if Reported(b, a, c) {
      var s :| ChangeAt(b, a, s) == Some(c);
      MirrorAt(b, a, s);
      assert ChangeAt(a, b, s) == Some(Mirror(c));
    }
  }

  /** Swapping the inputs gives the same paths in the same order, with before and after, added and removed, swapped. */
  lemma MirrorTheorem(b: Context, a: Context, r: seq<Change>, q: seq<Change>)
    requires IsDiff(b, a, r) && IsDiff(a, b, q)
    ensures q == Mirrored(r)
  {
    var m := Mirrored(r);
    hide Reported;
    assert Increasing(m, PathBefore);
    forall c | c in m ensures c in q {
      var i :| 0 <= i < |m| && m[i] == c;
      assert r[i] in r;
      MirrorReported(b, a, r[i]);
    }
    forall c | c in q ensures c in m {
      MirrorReported(a, b, c);
      var i :| 0 <= i < |r| && r[i] == Mirror(c);
      assert m[i] == c;
    }
    PathsAreOrdered();
    IncreasingIsUnique(q, m, PathBefore);
  }

  // ---------------------------------------------------------------- patching

  /** A change addresses a slot: by its path, and by its classification where two slots share one. */
  predicate Addresses(c: Change, s: Slot) {
    c.path == Path(s) && (s.WholeOf? ==> !c.classification.Changed?) && (s.Order? ==> c.classification.Changed?)
  }

  /** The first change of a list that addresses a slot. */
  function Find(r: seq<Change>, s: Slot): (f: Option<Change>)
    ensures f.Some? ==> f.value in r && Addresses(f.value, s)
    ensures f.None? ==> forall c :: c in r ==> !Addresses(c, s)
  {
    if r == [] then None else if Addresses(r[0], s) then Some(r[0]) else Find(r[1..], s)
  }

  lemma ChangeAddresses(b: Context, a: Context, s: Slot)
    ensures ChangeAt(b, a, s).Some? ==> Addresses(ChangeAt(b, a, s).value, s)
  {
    hide Path, SectionOf, ById, Entities;
  }

  lemma AddressIsSlot(b: Context, a: Context, s: Slot, t: Slot)
    requires ChangeAt(b, a, t).Some? && Addresses(ChangeAt(b, a, t).value, s)
    ensures s == t
  {
    ChangeAddresses(b, a, t);
    hide Path, ChangeAt;
    PathsIdentifySlots(s, t);
  }

  /** Looking a slot up in the document by path recovers exactly what was reported at it. */
  lemma FindReadsBack(b: Context, a: Context, r: seq<Change>, s: Slot)
    requires forall c :: c in r <==> Reported(b, a, c)
    ensures Find(r, s) == ChangeAt(b, a, s)
  {
    var f := Find(r, s);
    hide Addresses, ChangeAt, Find;
    if ChangeAt(b, a, s).Some? {
      ChangeAddresses(b, a, s);
      assert Reported(b, a, ChangeAt(b, a, s).value);
    }
    if f.Some? {
      var t :| ChangeAt(b, a, t) == Some(f.value);
      AddressIsSlot(b, a, s, t);
    }
  }

  /** Applying a change list to the value at a slot. */
  function PatchValue(r: seq<Change>, s: Slot, was: Option<Value>): Option<Value> {
    var f := Find(r, s);
    if f.Some? then f.value.after else was
  }

  /** Applying a change list to an entity. */
  function PatchEntity(r: seq<Change>, k: Keyed, id: string, was: Option<Entity>): Option<Entity> {
    var f := Find(r, WholeOf(k, id));
    if f.Some? then
      if f.value.after.Some? && f.value.after.value.Whole? then Some(f.value.after.value.entity) else None
    else if was.None? then None
    else
      var x := PatchValue(r, FirstOf(k, id), Some(was.value.first));
      var y := PatchValue(r, SecondOf(k, id), Some(was.value.second));
      if x.Some? && y.Some? then Some(Entity(was.value.id, x.value, y.value)) else None
  }

  /**
   Everything that is compared as one value: fields, tools, pending identifiers, and orders of equal identifier sets.
   */
  lemma PatchRestoresValues(b: Context, a: Context, r: seq<Change>, s: Slot)
    requires IsDiff(b, a, r) && Compared(b, a, s)
    ensures PatchValue(r, s, View(b, s)) == View(a, s)
  {
    FindReadsBack(b, a, r, s);
    hide View, IsDiff, Find;
  }

  lemma EntityKeepsId(c: Context, k: Keyed, id: string)
    requires EntityAt(c, k, id).Some?
    ensures EntityAt(c, k, id).value.id == id
  {
    IdIsKept(Entities(c, k), id);
  }

  /** Applying the reported changes to the entities before gives the entities after. */
  lemma PatchRestoresEntities(b: Context, a: Context, r: seq<Change>, k: Keyed, id: string)
    requires IsDiff(b, a, r)
    ensures PatchEntity(r, k, id, EntityAt(b, k, id)) == EntityAt(a, k, id)
  {
    FindReadsBack(b, a, r, WholeOf(k, id));
    if EntityAt(b, k, id).Some? && EntityAt(a, k, id).Some? {
      PatchRestoresValues(b, a, r, FirstOf(k, id));
      PatchRestoresValues(b, a, r, SecondOf(k, id));
      EntityKeepsId(b, k, id);
      EntityKeepsId(a, k, id);
    }
    hide IsDiff, Find, EntityAt;
  }

  // ---------------------------------------------------------------- when nothing is reported

  /** Equal up to the order of the two pending identifier lists. */
  ghost predicate SameUpToPendingOrder(b: Context, a: Context) {
    && a == b.(pendingRequests := a.pendingRequests, pendingCalls := a.pendingCalls)
    && multiset(b.pendingRequests) == multiset(a.pendingRequests)
    && multiset(b.pendingCalls) == multiset(a.pendingCalls)
  }

  lemma SameReportsNothing(b: Context, a: Context, s: Slot)
    requires SameUpToPendingOrder(b, a)
    ensures ChangeAt(b, a, s).None?
  {
    hide ById, Path, SectionOf, IdsOf;
    if s.Pending? {
      var x, y := BareIds(b, s.bare), BareIds(a, s.bare);
      assert s.id in multiset(x) <==> s.id in multiset(y);
    } else {
      assert forall k :: Entities(b, k) == Entities(a, k);
    }
  }

  lemma {:induction false} ByIdFinds(s: seq<Entity>, i: nat)
    requires i < |s| && Unique(IdsOf(s))
    ensures s[i].id in ById(s) && ById(s)[s[i].id] == s[i]
  {
    var before, last := s[..|s| - 1], s[|s| - 1];
    if i < |s| - 1 {
      assert forall j :: 0 <= j < |before| ==> IdsOf(before)[j] == IdsOf(s)[j];
      ByIdFinds(before, i);
      assert IdsOf(s)[i] != IdsOf(s)[|s| - 1];
    }
  }

  lemma SilentEntity(b: Context, a: Context, k: Keyed, id: string)
    requires forall s: Slot :: ChangeAt(b, a, s).None?
    ensures EntityAt(b, k, id) == EntityAt(a, k, id)
  {
    hide Path, SectionOf, ById, Entities;
    assert ChangeAt(b, a, WholeOf(k, id)).None?;
    if EntityAt(b, k, id).Some? && EntityAt(a, k, id).Some? {
      EntityKeepsId(b, k, id);
      EntityKeepsId(a, k, id);
      assert ChangeAt(b, a, FirstOf(k, id)).None?;
      assert ChangeAt(b, a, SecondOf(k, id)).None?;
    }
  }

  lemma SilentOrder(b: Context, a: Context, k: Keyed)
    requires forall s: Slot :: ChangeAt(b, a, s).None?
    ensures IdsOf(Entities(b, k)) == IdsOf(Entities(a, k))
  {
    forall id ensures id in ById(Entities(b, k)) <==> id in ById(Entities(a, k)) {
      SilentEntity(b, a, k, id);
    }
    hide ById, Entities, IdsOf, Path, SectionOf;
    assert SameIds(b, a, k);
    assert ChangeAt(b, a, Order(k)).None?;
  }

  lemma SilentEntities(b: Context, a: Context, k: Keyed)
    requires forall s: Slot :: ChangeAt(b, a, s).None?
    requires Unique(IdsOf(Entities(b, k))) && Unique(IdsOf(Entities(a, k)))
    ensures Entities(b, k) == Entities(a, k)
  {
    var x, y := Entities(b, k), Entities(a, k);
    SilentOrder(b, a, k);
    hide Entities, ChangeAt, ById, Unique;
    assert |x| == |IdsOf(x)| == |y|;
    forall i | 0 <= i < |x| ensures x[i] == y[i] {
      assert IdsOf(x)[i] == x[i].id && IdsOf(y)[i] == y[i].id;
      ByIdFinds(x, i);
      ByIdFinds(y, i);
      SilentEntity(b, a, k, x[i].id);
    }
  }

  lemma RoleNamesDiffer(r: Role, q: Role)
    requires RoleName(r) == RoleName(q)
    ensures r == q
  {
    var x, y := RoleName(r), RoleName(q);
    assert |x| == |y| && x[0] == y[0];
  }

  lemma EntitiesIdentifyMessages(b: Context, a: Context)
    requires Entities(b, Messages) == Entities(a, Messages)
    ensures b.messages == a.messages
  {
    var x, y := Entities(b, Messages), Entities(a, Messages);
    assert |b.messages| == |x| == |a.messages|;
    forall i | 0 <= i < |b.messages| ensures b.messages[i] == a.messages[i] {
      assert x[i] == OfMessage(b.messages[i]) && y[i] == OfMessage(a.messages[i]);
      RoleNamesDiffer(b.messages[i].role, a.messages[i].role);
    }
  }

  lemma EntitiesIdentifyTasks(b: Context, a: Context)
    requires Entities(b, Tasks) == Entities(a, Tasks)
    ensures b.pendingTasks == a.pendingTasks
  {
    var x, y := Entities(b, Tasks), Entities(a, Tasks);
    assert |b.pendingTasks| == |x| == |a.pendingTasks|;
    forall i | 0 <= i < |b.pendingTasks| ensures b.pendingTasks[i] == a.pendingTasks[i] {
      assert x[i] == OfTask(b.pendingTasks[i]) && y[i] == OfTask(a.pendingTasks[i]);
    }
  }

  lemma {:induction false} UniqueCounts(ids: seq<string>, id: string)
    requires Unique(ids)
    ensures multiset(ids)[id] == if id in ids then 1 else 0
  {
    if ids != [] {
      var before, last := ids[..|ids| - 1], ids[|ids| - 1];
      assert ids == before + [last];
      UniqueCounts(before, id);
    }
  }

  lemma SilentPending(b: Context, a: Context, l: Bare)
    requires forall s: Slot :: ChangeAt(b, a, s).None?
    requires Unique(BareIds(b, l)) && Unique(BareIds(a, l))
    ensures multiset(BareIds(b, l)) == multiset(BareIds(a, l))
  {
    hide Path, SectionOf, Unique;
    var x, y := BareIds(b, l), BareIds(a, l);
    forall id ensures multiset(x)[id] == multiset(y)[id] {
      assert ChangeAt(b, a, Pending(l, id)).None?;
      UniqueCounts(x, id);
      UniqueCounts(y, id);
    }
  }

  lemma SilentFields(b: Context, a: Context)
    requires forall s: Slot :: ChangeAt(b, a, s).None?
    ensures b.safePointId == a.safePointId && b.seed == a.seed && b.revision == a.revision && b.model == a.model
    ensures b.cursors == a.cursors && b.summaryHash == a.summaryHash
  {
    hide Path, SectionOf;
    forall f ensures FieldValue(b, f) == FieldValue(a, f) {
      assert ChangeAt(b, a, At(f)).None?;
    }
    assert forall f :: FieldValue(b, f) == FieldValue(a, f);
    hide ChangeAt;
    assert FieldValue(b, SafePointId) == FieldValue(a, SafePointId) && FieldValue(b, Seed) == FieldValue(a, Seed);
    assert FieldValue(b, Revision) == FieldValue(a, Revision) && FieldValue(b, Model) == FieldValue(a, Model);
    assert FieldValue(b, BoundarySequence) == FieldValue(a, BoundarySequence);
    assert FieldValue(b, MessageCursor) == FieldValue(a, MessageCursor);
    assert FieldValue(b, ToolCursor) == FieldValue(a, ToolCursor);
    assert FieldValue(b, TaskCursor) == FieldValue(a, TaskCursor);
    assert FieldValue(b, SummaryHash) == FieldValue(a, SummaryHash);
  }

  lemma SilentTools(b: Context, a: Context)
    requires forall s: Slot :: ChangeAt(b, a, s).None?
    ensures b.toolRegistry == a.toolRegistry
  {
    hide Path, SectionOf;
    forall id
      ensures id in b.toolRegistry <==> id in a.toolRegistry
      ensures id in b.toolRegistry && id in a.toolRegistry ==> b.toolRegistry[id] == a.toolRegistry[id]
    {
      assert ChangeAt(b, a, Tool(id)).None?;
    }
  }

  lemma EntityIdsAgree(c: Context)
    ensures IdsOf(Entities(c, Messages)) == MessageIds(c) && IdsOf(Entities(c, Tasks)) == TaskIds(c)
  {
  }

  lemma NothingReported(b: Context, a: Context)
    requires UniqueEntries(b) && UniqueEntries(a) && b.schemaVersion == a.schemaVersion
    requires forall s: Slot :: ChangeAt(b, a, s).None?
    ensures SameUpToPendingOrder(b, a)
  {
    EntityIdsAgree(b);
    EntityIdsAgree(a);
    assert BareIds(b, Requests) == b.pendingRequests && BareIds(b, Calls) == b.pendingCalls;
    assert BareIds(a, Requests) == a.pendingRequests && BareIds(a, Calls) == a.pendingCalls;
    hide ChangeAt, Entities, IdsOf, Unique, BareIds, MessageIds, TaskIds;
    SilentFields(b, a);
    SilentTools(b, a);
    SilentEntities(b, a, Messages);
    SilentEntities(b, a, Tasks);
    EntitiesIdentifyMessages(b, a);
    EntitiesIdentifyTasks(b, a);
    SilentPending(b, a, Requests);
    SilentPending(b, a, Calls);
  }

  /**
   For validated contexts the document is empty exactly when they are equal up to the order of the pending identifiers.
   */
  lemma EmptyExactlyWhenSame(b: Context, a: Context, r: seq<Change>)
    requires WellShaped(b) && WellShaped(a) && b.schemaVersion == a.schemaVersion
    requires IsDiff(b, a, r)
    ensures r == [] <==> SameUpToPendingOrder(b, a)
  {
    hide ChangeAt, SameUpToPendingOrder, Bounded, BoundedEntries, UniqueEntries;
    forall s: Slot ensures r == [] ==> ChangeAt(b, a, s).None? {
      if ChangeAt(b, a, s).Some? {
        assert Reported(b, a, ChangeAt(b, a, s).value);
      }
    }
    if r == [] {
      NothingReported(b, a);
    }
    if SameUpToPendingOrder(b, a) && r != [] {
      assert r[0] in r;
      var s :| ChangeAt(b, a, s) == Some(r[0]);
      SameReportsNothing(b, a, s);
    }
  }

  // ---------------------------------------------------------------- what the document determines

  /** The keyed view of a context: everything but the orders of its lists. */
  ghost predicate SameKeyedView(x: Context, y: Context) {
    forall s: Slot :: !s.Order? ==> View(x, s) == View(y, s)
  }

  /** Against one base, two contexts give the same document exactly when they agree on every slot that was compared. */
  lemma DocumentDetermines(b: Context, x: Context, y: Context, r: seq<Change>, q: seq<Change>)
    requires IsDiff(b, x, r) && IsDiff(b, y, q)
    ensures r == q <==> SameKeyedView(x, y) && forall k :: SameIds(b, x, k) ==> View(x, Order(k)) == View(y, Order(k))
  {
    hide IsDiff, View, SameIds, ChangeAt;
    if r == q {
      SameDocumentSameView(b, x, y, r);
    }
    if SameKeyedView(x, y) && forall k :: SameIds(b, x, k) ==> View(x, Order(k)) == View(y, Order(k)) {
      SameViewSameDocument(b, x, y, r, q);
    }
  }

  lemma SameDocumentSameView(b: Context, x: Context, y: Context, r: seq<Change>)
    requires IsDiff(b, x, r) && IsDiff(b, y, r)
    ensures SameKeyedView(x, y) && forall k :: SameIds(b, x, k) ==> View(x, Order(k)) == View(y, Order(k))
  {
    forall k, id ensures EntityAt(x, k, id) == EntityAt(y, k, id) {
      PatchRestoresEntities(b, x, r, k, id);
      PatchRestoresEntities(b, y, r, k, id);
    }
    hide IsDiff, Find, ById, Entities;
    forall s: Slot | !s.Order? ensures View(x, s) == View(y, s) {
      if s.At? || s.Tool? || s.Pending? {
        PatchRestoresValues(b, x, r, s);
        PatchRestoresValues(b, y, r, s);
      }
    }
    forall k | SameIds(b, x, k) ensures View(x, Order(k)) == View(y, Order(k)) {
      SameEntitiesSameIds(b, x, y, k);
      PatchRestoresValues(b, x, r, Order(k));
      PatchRestoresValues(b, y, r, Order(k));
    }
  }

  lemma SameEntitiesSameIds(b: Context, x: Context, y: Context, k: Keyed)
    requires forall id :: EntityAt(x, k, id) == EntityAt(y, k, id)
    ensures SameIds(b, x, k) <==> SameIds(b, y, k)
  {
    hide ById, Entities;
    forall id ensures id in ById(Entities(x, k)) <==> id in ById(Entities(y, k)) {
      assert EntityAt(x, k, id) == EntityAt(y, k, id);
    }
    assert ById(Entities(x, k)).Keys == ById(Entities(y, k)).Keys;
  }

  lemma SameViewSameEntities(x: Context, y: Context, k: Keyed, id: string)
    requires SameKeyedView(x, y)
    ensures EntityAt(x, k, id) == EntityAt(y, k, id)
  {
    hide EntityAt;
    assert View(x, WholeOf(k, id)) == View(y, WholeOf(k, id));
  }

  lemma SameViewSameChange(b: Context, x: Context, y: Context, s: Slot)
    requires SameKeyedView(x, y) && forall k :: SameIds(b, x, k) ==> View(x, Order(k)) == View(y, Order(k))
    ensures ChangeAt(b, x, s) == ChangeAt(b, y, s)
  {
    forall k, id ensures EntityAt(x, k, id) == EntityAt(y, k, id) {
      SameViewSameEntities(x, y, k, id);
    }
    if s.Order? {
      SameEntitiesSameIds(b, x, y, s.keyed);
    }
    hide EntityAt, SameIds, View, Path, SectionOf;
  }

  lemma SameViewSameDocument(b: Context, x: Context, y: Context, r: seq<Change>, q: seq<Change>)
    requires IsDiff(b, x, r) && IsDiff(b, y, q)
    requires SameKeyedView(x, y) && forall k :: SameIds(b, x, k) ==> View(x, Order(k)) == View(y, Order(k))
    ensures r == q
  {
    forall s: Slot ensures ChangeAt(b, x, s) == ChangeAt(b, y, s) {
      SameViewSameChange(b, x, y, s);
    }
    hide ChangeAt, View, SameIds;
    PathsAreOrdered();
    IncreasingIsUnique(r, q, PathBefore);
  }
}
