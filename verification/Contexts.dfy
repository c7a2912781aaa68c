/** Application contexts (crates/epoch-checkpoint/src/application.rs): the observable state a checkpoint holds. */
module Contexts {
  import opened Wrappers
  import Text

  const APPLICATION_CONTEXT_SCHEMA_VERSION: nat := 1
  const MAX_IDENTIFIER_BYTES: nat := 255
  const MAX_NAME_BYTES: nat := 128
  const MAX_COLLECTION_ITEMS: nat := 100_000

  type Hash = string

  datatype Role = SystemRole | UserRole | AssistantRole | ToolRole
  datatype ObservableMessage = ObservableMessage(messageId: string, role: Role, contentHash: Hash)
  datatype PendingTask = PendingTask(taskId: string, taskType: string, payloadHash: Option<Hash>)
  datatype Cursors = Cursors(boundarySequence: nat, messageCursor: nat, toolCursor: nat, taskCursor: nat)

  datatype Context = Context(
    schemaVersion: nat, safePointId: string, seed: nat, revision: nat, cursors: Cursors, model: string,
    toolRegistry: map<string, string>, messages: seq<ObservableMessage>, pendingTasks: seq<PendingTask>,
    pendingRequests: seq<string>, pendingCalls: seq<string>, summaryHash: Option<Hash>)

  function MessageIds(c: Context): seq<string> {
    seq(|c.messages|, i requires 0 <= i < |c.messages| => c.messages[i].messageId)
  }

  function TaskIds(c: Context): seq<string> {
    seq(|c.pendingTasks|, i requires 0 <= i < |c.pendingTasks| => c.pendingTasks[i].taskId)
  }

  predicate Unique(ids: seq<string>) {
    forall i, j :: 0 <= i < j < |ids| ==> ids[i] != ids[j]
  }

  /** `unique_ids`: one pass over a set of the identifiers seen. */
  method UniqueIds(ids: seq<string>) returns (ok: bool)
    ensures ok <==> Unique(ids)
  {
    var seen: set<string>, i := {}, 0;
    while i < |ids|
      invariant 0 <= i <= |ids|
      invariant forall id :: id in seen <==> id in ids[..i]
      invariant Unique(ids[..i])
    {
      if ids[i] in seen {
        assert exists j :: 0 <= j < i && ids[j] == ids[i];
        return false;
      }
      seen := seen + {ids[i]};
      i := i + 1;
    }
    assert ids[..|ids|] == ids;
    return true;
  }

  predicate Bounded(c: Context) {
    && Text.IsBounded(c.safePointId, MAX_IDENTIFIER_BYTES)
    && Text.IsBounded(c.model, MAX_NAME_BYTES)
    && c.seed <= MAX_I64 && c.revision <= MAX_I64
    && c.cursors.boundarySequence <= MAX_I64 && c.cursors.messageCursor <= MAX_I64
    && c.cursors.toolCursor <= MAX_I64 && c.cursors.taskCursor <= MAX_I64
    && |c.toolRegistry| <= MAX_COLLECTION_ITEMS && |c.messages| <= MAX_COLLECTION_ITEMS
    && |c.pendingTasks| <= MAX_COLLECTION_ITEMS && |c.pendingRequests| <= MAX_COLLECTION_ITEMS
    && |c.pendingCalls| <= MAX_COLLECTION_ITEMS
  }

  predicate BoundedEntries(c: Context) {
    && (forall name :: name in c.toolRegistry ==>
          Text.IsBounded(name, MAX_NAME_BYTES) && Text.IsBounded(c.toolRegistry[name], MAX_IDENTIFIER_BYTES))
    && (forall i :: 0 <= i < |c.messages| ==> Text.IsBounded(c.messages[i].messageId, MAX_IDENTIFIER_BYTES))
    && (forall i :: 0 <= i < |c.pendingTasks| ==>
          Text.IsBounded(c.pendingTasks[i].taskId, MAX_IDENTIFIER_BYTES)
            && Text.IsBounded(c.pendingTasks[i].taskType, MAX_NAME_BYTES))
    && (forall i :: 0 <= i < |c.pendingRequests| ==> Text.IsBounded(c.pendingRequests[i], MAX_IDENTIFIER_BYTES))
    && (forall i :: 0 <= i < |c.pendingCalls| ==> Text.IsBounded(c.pendingCalls[i], MAX_IDENTIFIER_BYTES))
  }

  predicate UniqueEntries(c: Context) {
    Unique(MessageIds(c)) && Unique(TaskIds(c)) && Unique(c.pendingRequests) && Unique(c.pendingCalls)
  }

  /** `validate_context_shape` */
  predicate WellShaped(c: Context) {
    Bounded(c) && BoundedEntries(c) && UniqueEntries(c)
  }

  function ContentHashes(messages: seq<ObservableMessage>): seq<Hash> {
    seq(|messages|, i requires 0 <= i < |messages| => messages[i].contentHash)
  }

  function PayloadHashes(tasks: seq<PendingTask>): seq<Hash> {
    if tasks == [] then []
    else (if tasks[0].payloadHash.Some? then [tasks[0].payloadHash.value] else []) + PayloadHashes(tasks[1..])
  }

  /** `context_references` */
  function References(c: Context): seq<Hash> {
    ContentHashes(c.messages) + PayloadHashes(c.pendingTasks)
      + (if c.summaryHash.Some? then [c.summaryHash.value] else [])
  }

  lemma {:induction false} PayloadHashesMeans(tasks: seq<PendingTask>, h: Hash)
    ensures h in PayloadHashes(tasks) <==> exists t :: t in tasks && t.payloadHash == Some(h)
  {
    if tasks != [] {
      PayloadHashesMeans(tasks[1..], h);
      assert tasks == [tasks[0]] + tasks[1..];
      assert tasks[0] in tasks;
      if t :| t in tasks && t.payloadHash == Some(h) {
        assert t == tasks[0] || t in tasks[1..];
      }
    }
  }

  /**
   A context refers to the contents of its messages, the payloads of its tasks, and its summary: to those and no others.
   */
  lemma ReferencesMeans(c: Context, h: Hash)
    ensures h in References(c) <==>
      || (exists m :: m in c.messages && m.contentHash == h)
      || (exists t :: t in c.pendingTasks && t.payloadHash == Some(h))
      || c.summaryHash == Some(h)
  {
    PayloadHashesMeans(c.pendingTasks, h);
    var s := ContentHashes(c.messages);
    if m :| m in c.messages && m.contentHash == h {
      var i :| 0 <= i < |c.messages| && c.messages[i] == m;
      assert s[i] == h;
    }
    if h in s {
      var i :| 0 <= i < |s| && s[i] == h;
      assert c.messages[i] in c.messages;
    }
    hide PayloadHashes, ContentHashes;
  }

  /** What `validate_context_shape` bounds: two texts, six integers and five collections. */
  lemma BoundsMean(c: Context)
    ensures Bounded(c) <==>
      && Text.IsBounded(c.safePointId, 255) && Text.IsBounded(c.model, 128)
      && c.seed < 0x8000_0000_0000_0000 && c.revision < 0x8000_0000_0000_0000
      && c.cursors.boundarySequence < 0x8000_0000_0000_0000 && c.cursors.messageCursor < 0x8000_0000_0000_0000
      && c.cursors.toolCursor < 0x8000_0000_0000_0000 && c.cursors.taskCursor < 0x8000_0000_0000_0000
      && |c.toolRegistry| <= 100_000 && |c.messages| <= 100_000 && |c.pendingTasks| <= 100_000
      && |c.pendingRequests| <= 100_000 && |c.pendingCalls| <= 100_000
  {
    hide Text.IsBounded;
  }

  /** And what it bounds of each entry. */
  lemma EntryBoundsMean(c: Context)
    ensures BoundedEntries(c) <==>
      && (forall x :: x in c.toolRegistry ==> Text.IsBounded(x, 128) && Text.IsBounded(c.toolRegistry[x], 255))
      && (forall m :: m in c.messages ==> Text.IsBounded(m.messageId, 255))
      && (forall t :: t in c.pendingTasks ==> Text.IsBounded(t.taskId, 255) && Text.IsBounded(t.taskType, 128))
      && (forall x :: x in c.pendingRequests ==> Text.IsBounded(x, 255))
      && (forall x :: x in c.pendingCalls ==> Text.IsBounded(x, 255))
  {
    hide Text.IsBounded;
    if BoundedEntries(c) {
      forall m | m in c.messages ensures Text.IsBounded(m.messageId, 255) {
        var i :| 0 <= i < |c.messages| && c.messages[i] == m;
      }
      forall t | t in c.pendingTasks ensures Text.IsBounded(t.taskId, 255) && Text.IsBounded(t.taskType, 128) {
        var i :| 0 <= i < |c.pendingTasks| && c.pendingTasks[i] == t;
      }
    }
  }
}
