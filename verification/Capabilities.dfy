/**
 The trusted capability authority (crates/epoch-capabilities) as tables and transactions.

 A transaction is a function from the tables to either new tables or an error. An error leaves the tables
 alone, because the source drops its SQLite transaction; `Commit` at the end of this file says so once for all.
 Random identifiers, handle digests and clock readings are arguments.
 */
module Capabilities {
  import opened Wrappers
  import Text

  const MAX_SUBJECT: nat := 255
  const MAX_ACTION: nat := 255
  const MAX_RESOURCE: nat := 2048
  const MAX_REQUEST_ID: nat := 255

  type CapabilityId = nat
  type Hash = string

  datatype BranchKey = BranchKey(session: string, branch: string)
  datatype Scope = Scope(at: BranchKey, subject: string, action: string, resource: string)
  datatype Status = Active | Consumed | Expired | Revoked

  /** One row of `capabilities`; `maxUses` and `budget` are the limits recorded in `constraints_json`. */
  datatype Capability = Capability(
    scope: Scope, maxUses: Option<int>, budget: Option<int>, parent: Option<CapabilityId>,
    remainingUses: Option<int>, remainingBudget: Option<int>, policyRevision: int, status: Status,
    issuedAt: int, expiresAt: Option<int>)

  /** One row of `capability_ancestry`. */
  datatype AncestryRow = AncestryRow(capability: CapabilityId, ancestor: CapabilityId, depth: nat)

  /** One row of `capability_authorizations`. */
  datatype Authorization = Authorization(
    capability: CapabilityId, requestId: string, requestHash: Hash, budgetUnits: int, at: int)

  datatype Reason =
    | Allowed | UnknownHandle
    | SessionMismatch | BranchMismatch | SubjectMismatch | ActionMismatch | ResourceMismatch
    | RevokedHandle | ExpiredHandle | ConsumedHandle
    | AncestorRevoked | AncestorExpired | AncestorConsumed
    | PolicyUnavailable | PolicyStale | PolicyRevisionMismatch
    | BudgetExceeded | RequestAlreadyAuthorized | CorruptAuthority

  /** One row of `capability_decisions`; its outcome is allow exactly when the reason is `Allowed`. */
  datatype DecisionRow = DecisionRow(
    capability: Option<CapabilityId>, handleHash: Hash, request: CapabilityUse, reason: Reason, at: int)

  datatype IssueRequest = IssueRequest(
    scope: Scope, maxUses: Option<nat>, budgetUnits: Option<nat>, expiresAt: Option<int>, policyRevision: nat)

  datatype CapabilityUse = CapabilityUse(
    scope: Scope, policyRevision: nat, budgetUnits: nat, requestId: string, requestHash: Hash)

  datatype Decision = Decision(reason: Reason, capability: Option<CapabilityId>)

  datatype Error =
    | InvalidField | InvalidExpiration | InvalidClock
    | PolicyNotInitialized | PolicyRevisionRollback | PolicyNotCurrent
    | UnknownParentCapability | CapabilityNotFound | InactiveParentCapability | AttenuationWouldWiden
    | CorruptRecord | ConcurrentAuthorityChange
    | Database // a UNIQUE, FOREIGN KEY or CHECK constraint refused the statement

  /**
   The tables. `handles` is the UNIQUE column `handle_hash`, `branches` the target of the foreign keys,
   and the two histories are kept in `sequence` order.
   */
  datatype Authority = Authority(
    branches: set<BranchKey>,
    policies: map<BranchKey, int>,
    capabilities: map<CapabilityId, Capability>,
    handles: map<Hash, CapabilityId>,
    ancestry: set<AncestryRow>,
    authorizations: seq<Authorization>,
    decisions: seq<DecisionRow>)

  function Empty(branches: set<BranchKey>): Authority {
    Authority(branches, map[], map[], map[], {}, [], [])
  }

  /** The stored capability that a handle names, if any. */
  function Named(a: Authority, hash: Hash): (r: Option<CapabilityId>)
    ensures r.Some? ==> r.value in a.capabilities
  {
    if hash in a.handles && a.handles[hash] in a.capabilities then Some(a.handles[hash]) else None
  }

  // ---------------------------------------------------------------- policy

  function SetPolicyRevision(a: Authority, at: BranchKey, revision: nat, clock: int): Result<Authority, Error> {
    if revision > MAX_I64 then Err(InvalidField)
    else if clock < 0 then Err(InvalidClock)
    else if at in a.policies then
      if revision < a.policies[at] then Err(PolicyRevisionRollback)
      else Ok(a.(policies := a.policies[at := revision]))
    else if at !in a.branches then Err(Database)
    else Ok(a.(policies := a.policies[at := revision]))
  }

  // ---------------------------------------------------------------- issue

  predicate ValidLimit(limit: Option<nat>) {
    limit.Some? ==> 1 <= limit.value <= MAX_I64
  }

  /** `ValidatedIssue::new` */
  function ValidateIssue(request: IssueRequest, now: int): Result<Unit, Error> {
    if !Text.IsTrimmedField(request.scope.subject, MAX_SUBJECT)
      || !Text.IsTrimmedField(request.scope.action, MAX_ACTION)
      || !Text.IsTrimmedField(request.scope.resource, MAX_RESOURCE) then Err(InvalidField)
    else if !ValidLimit(request.maxUses) || !ValidLimit(request.budgetUnits) then Err(InvalidField)
    else if request.expiresAt.Some? && request.expiresAt.value <= now then Err(InvalidExpiration)
    else if request.policyRevision > MAX_I64 then Err(InvalidField)
    else Ok(Unit)
  }

  function NewCapability(request: IssueRequest, parent: Option<CapabilityId>, now: int): Capability {
    Capability(request.scope, request.maxUses, request.budgetUnits, parent,
               request.maxUses, request.budgetUnits, request.policyRevision, Active, now, request.expiresAt)
  }

  /** `insert_capability` followed by the ancestry inserts. */
  function Insert(a: Authority, id: CapabilityId, hash: Hash, c: Capability): Result<Authority, Error> {
    if id in a.capabilities || hash in a.handles || c.scope.at !in a.branches then Err(Database)
    else Ok(a.(capabilities := a.capabilities[id := c],
               handles := a.handles[hash := id],
               ancestry := a.ancestry + Inherited(a.ancestry, id, c.parent) + {AncestryRow(id, id, 0)}))
  }

  /** `INSERT ... SELECT new, ancestor_id, depth + 1 ... WHERE capability_id = parent` */
  function Inherited(ancestry: set<AncestryRow>, id: CapabilityId, parent: Option<CapabilityId>): set<AncestryRow> {
    if parent.None? then {}
    else set r | r in ancestry && r.capability == parent.value :: AncestryRow(id, r.ancestor, r.depth + 1)
  }

  function Issue(a: Authority, request: IssueRequest, id: CapabilityId, hash: Hash,
                 clock: int): Result<Authority, Error> {
    if clock < 0 then Err(InvalidClock)
    else
      var _ :- ValidateIssue(request, clock);
      if request.scope.at !in a.policies then Err(PolicyNotInitialized)
      else if a.policies[request.scope.at] != request.policyRevision then Err(PolicyNotCurrent)
      else Insert(a, id, hash, NewCapability(request, None, clock))
  }

  // ---------------------------------------------------------------- lifecycle checks

  /**
   The status that bars `c` at time `now`, if any: its stored status, or the status that an active row should
   be moved to because a counter is exhausted or its expiry has come.
   */
  function Lapse(c: Capability, now: int): Option<Status> {
    if c.status != Active then Some(c.status)
    else if c.remainingUses == Some(0) || c.remainingBudget == Some(0) then Some(Consumed)
    else if c.expiresAt.Some? && now >= c.expiresAt.value then Some(Expired)
    else None
  }

  function DirectReason(s: Status): Reason
    requires s != Active
  {
    match s case Revoked => RevokedHandle case Expired => ExpiredHandle case Consumed => ConsumedHandle
  }

  function AncestorReason(s: Status): Reason
    requires s != Active
  {
    match s case Revoked => AncestorRevoked case Expired => AncestorExpired case Consumed => AncestorConsumed
  }

  /** The first lapsed member of a list of loaded rows: the loop of `ancestor_denial`. */
  function FirstLapsed(caps: map<CapabilityId, Capability>, ids: seq<CapabilityId>, now: int): (r: Option<CapabilityId>)
    requires forall x :: x in ids ==> x in caps
    ensures r.Some? ==> r.value in ids && Lapse(caps[r.value], now).Some?
    ensures r.None? ==> forall x :: x in ids ==> Lapse(caps[x], now).None?
  {
    if ids == [] then None
    else if Lapse(caps[ids[0]], now).Some? then Some(ids[0])
    else FirstLapsed(caps, ids[1..], now)
  }

  /** `mark_expired` and `mark_consumed`: an UPDATE guarded by `status = 'active'`. */
  function Mark(a: Authority, id: CapabilityId, status: Status, now: int): Result<Authority, Error>
    requires id in a.capabilities
  {
    var c := a.capabilities[id];
    if c.status != Active then Ok(a)
    else if now < c.issuedAt then Err(Database) // CHECK (updated_at_unix_ms >= issued_at_unix_ms)
    else Ok(a.(capabilities := a.capabilities[id := c.(status := status)]))
  }

  /** `revoke` and `revoke_by_id` once the row is loaded. */
  function RevokeRow(a: Authority, id: CapabilityId, clock: int): Result<Authority, Error>
    requires id in a.capabilities
  {
    Mark(a, id, Revoked, clock)
  }

  // ---------------------------------------------------------------- ancestry query

  predicate IsShallowest(r: AncestryRow, rows: set<AncestryRow>) {
    r in rows && forall s :: s in rows ==> r.depth <= s.depth
  }

  lemma ShallowestExists(rows: set<AncestryRow>)
    requires rows != {}
    ensures exists r :: IsShallowest(r, rows)
  {
    var r :| r in rows;
    if rows != {r} {
      ShallowestExists(rows - {r});
      var s :| IsShallowest(s, rows - {r});
      assert IsShallowest(if r.depth <= s.depth then r else s, rows);
    } else {
      assert IsShallowest(r, rows);
    }
  }

  /** `ORDER BY depth` */
  ghost function ByDepth(rows: set<AncestryRow>): seq<AncestryRow>
    decreases |rows|
  {
    if rows == {} then []
    else
      ShallowestExists(rows);
      var r :| IsShallowest(r, rows);
      [r] + ByDepth(rows - {r})
  }

  /** The rows that `load_ancestors` selects: the join keeps ancestors that exist. */
  function AncestorRows(a: Authority, id: CapabilityId): set<AncestryRow> {
    set r | r in a.ancestry && r.capability == id && r.ancestor in a.capabilities
  }

  ghost function LoadAncestors(a: Authority, id: CapabilityId): (s: seq<CapabilityId>)
    ensures forall x :: x in s ==> x in a.capabilities
  {
    ByDepthMembers(AncestorRows(a, id));
    Ancestors(ByDepth(AncestorRows(a, id)))
  }

  function Ancestors(rows: seq<AncestryRow>): (s: seq<CapabilityId>)
    ensures |s| == |rows| && forall i :: 0 <= i < |s| ==> s[i] == rows[i].ancestor
  {
    seq(|rows|, i requires 0 <= i < |rows| => rows[i].ancestor)
  }

  lemma ByDepthMembers(rows: set<AncestryRow>)
    ensures forall r :: r in ByDepth(rows) <==> r in rows
    decreases |rows|
  {
    if rows != {} {
      var r := ByDepth(rows)[0];
      ByDepthMembers(rows - {r});
    }
  }

  // ---------------------------------------------------------------- attenuation

  predicate Narrows(child: Option<int>, parent: Option<int>) {
    parent.Some? ==> child.Some? && child.value <= parent.value
  }

  /** `validate_attenuation` */
  ghost function ValidateAttenuation(a: Authority, parent: CapabilityId, request: IssueRequest,
                                     now: int): Result<Unit, Error>
    requires parent in a.capabilities
  {
    var p := a.capabilities[parent];
    if Lapse(p, now).Some? then Err(InactiveParentCapability)
    else
      var chain := LoadAncestors(a, parent);
      if chain == [] || chain[0] != parent then Err(CorruptRecord)
      else if FirstLapsed(a.capabilities, chain[1..], now).Some? then Err(InactiveParentCapability)
      else if p.scope != request.scope || p.policyRevision != request.policyRevision then Err(AttenuationWouldWiden)
      else if !Narrows(request.maxUses, p.remainingUses) || !Narrows(request.budgetUnits, p.remainingBudget)
        || !Narrows(request.expiresAt, p.expiresAt) then Err(AttenuationWouldWiden)
      else if p.scope.at !in a.policies then Err(PolicyNotInitialized)
      else if a.policies[p.scope.at] != p.policyRevision then Err(InactiveParentCapability)
      else Ok(Unit)
  }

  ghost function Attenuate(a: Authority, parentHash: Hash, request: IssueRequest, id: CapabilityId, hash: Hash,
                           clock: int)
    : Result<Authority, Error>
  {
    if clock < 0 then Err(InvalidClock)
    else
      var _ :- ValidateIssue(request, clock);
      if parentHash !in a.handles || a.handles[parentHash] !in a.capabilities then Err(UnknownParentCapability)
      else
        var parent := a.handles[parentHash];
        var _ :- ValidateAttenuation(a, parent, request, clock);
        Insert(a, id, hash, NewCapability(request, Some(parent), clock))
  }

  // ---------------------------------------------------------------- use

  predicate IsDigest(s: string) {
    |s| == 64 && forall i :: 0 <= i < |s| ==> '0' <= s[i] <= '9' || 'a' <= s[i] <= 'f'
  }

  /** `CapabilityUse::new` succeeds. */
  predicate ValidUse(u: CapabilityUse) {
    && Text.IsTrimmedField(u.scope.subject, MAX_SUBJECT)
    && Text.IsTrimmedField(u.scope.action, MAX_ACTION)
    && Text.IsTrimmedField(u.scope.resource, MAX_RESOURCE)
    && Text.IsTrimmedField(u.requestId, MAX_REQUEST_ID)
    && IsDigest(u.requestHash)
    && 1 <= u.budgetUnits <= MAX_I64
    && u.policyRevision <= MAX_I64
  }

  function BindingDenial(c: Capability, u: CapabilityUse): Option<Reason> {
    if c.scope.at.session != u.scope.at.session then Some(SessionMismatch)
    else if c.scope.at.branch != u.scope.at.branch then Some(BranchMismatch)
    else if c.scope.subject != u.scope.subject then Some(SubjectMismatch)
    else if c.scope.action != u.scope.action then Some(ActionMismatch)
    else if c.scope.resource != u.scope.resource then Some(ResourceMismatch)
    else None
  }

  function PolicyDenial(policies: map<BranchKey, int>, c: Capability, u: CapabilityUse): Option<Reason> {
    if c.scope.at !in policies then Some(PolicyUnavailable)
    else if policies[c.scope.at] != c.policyRevision then Some(PolicyStale)
    else if policies[c.scope.at] != u.policyRevision then Some(PolicyRevisionMismatch)
    else None
  }

  predicate AlreadyAuthorized(rows: seq<Authorization>, id: CapabilityId, requestId: string) {
    exists i :: 0 <= i < |rows| && rows[i].capability == id && rows[i].requestId == requestId
  }

  predicate Affords(c: Capability, units: int) {
    c.remainingBudget.Some? ==> units <= c.remainingBudget.value
  }

  /** A verdict names the row whose lapse was observed, because that row is then marked. */
  datatype Evaluation = Deny(reason: Reason, lapsed: Option<CapabilityId>) | Allow(chain: seq<CapabilityId>)

  /** The second half of `evaluate_authority`, once the delegation chain is loaded. */
  function EvaluateChain(caps: map<CapabilityId, Capability>, log: seq<Authorization>, chain: seq<CapabilityId>,
                         id: CapabilityId, u: CapabilityUse, now: int): (e: Evaluation)
    requires forall x :: x in chain ==> x in caps
    ensures e.Deny? ==> e.reason != Allowed && (e.lapsed.Some? ==> e.lapsed.value in caps)
    ensures e.Allow? ==> e.chain == chain
  {
    if chain == [] || chain[0] != id then Deny(CorruptAuthority, None)
    else
      var barred := FirstLapsed(caps, chain[1..], now);
      if barred.Some? then Deny(AncestorReason(Lapse(caps[barred.value], now).value), barred)
      else if AlreadyAuthorized(log, id, u.requestId) then Deny(RequestAlreadyAuthorized, None)
      else if exists x :: x in chain && !Affords(caps[x], u.budgetUnits) then Deny(BudgetExceeded, None)
      else Allow(chain)
  }

  /** `evaluate_authority` */
  ghost function Evaluate(a: Authority, id: CapabilityId, u: CapabilityUse, now: int): (e: Evaluation)
    requires id in a.capabilities
    ensures e.Deny? ==> e.reason != Allowed && (e.lapsed.Some? ==> e.lapsed.value in a.capabilities)
    ensures e.Allow? ==> e.chain == LoadAncestors(a, id)
  {
    var c := a.capabilities[id];
    if BindingDenial(c, u).Some? then Deny(BindingDenial(c, u).value, None)
    else if Lapse(c, now).Some? then Deny(DirectReason(Lapse(c, now).value), Some(id))
    else if PolicyDenial(a.policies, c, u).Some? then Deny(PolicyDenial(a.policies, c, u).value, None)
    else EvaluateChain(a.capabilities, a.authorizations, LoadAncestors(a, id), id, u, now)
  }

  function Minus(counter: Option<int>, amount: int): Option<int> {
    if counter.None? then None else Some(counter.value - amount)
  }

  /** The row that `consume_counter` writes for a loaded row. */
  function Charged(c: Capability, units: int): Capability {
    var uses := Minus(c.remainingUses, 1);
    var budget := Minus(c.remainingBudget, units);
    c.(remainingUses := uses, remainingBudget := budget,
       status := if uses == Some(0) || budget == Some(0) then Consumed else Active)
  }

  predicate CountersNonnegative(c: Capability) {
    (c.remainingUses.Some? ==> c.remainingUses.value >= 0) && (c.remainingBudget.Some? ==> c.remainingBudget.value >= 0)
  }

  /** `consume_counter`: `loaded` is the row as it was read before the loop began. */
  function ConsumeCounter(caps: map<CapabilityId, Capability>, id: CapabilityId, loaded: Capability, units: int,
                          now: int)
    : Result<map<CapabilityId, Capability>, Error>
    requires id in caps
  {
    if caps[id].status != Active then Err(ConcurrentAuthorityChange)
    else if now < loaded.issuedAt || !CountersNonnegative(Charged(loaded, units)) then Err(Database)
    else Ok(caps[id := Charged(loaded, units)])
  }

  /** The loop over the loaded ancestors. */
  function ConsumeAll(caps: map<CapabilityId, Capability>, ids: seq<CapabilityId>,
                      loaded: map<CapabilityId, Capability>, units: int, now: int)
    : Result<map<CapabilityId, Capability>, Error>
    requires forall x :: x in ids ==> x in caps && x in loaded
  {
    if ids == [] then Ok(caps)
    else
      var caps' :- ConsumeCounter(caps, ids[0], loaded[ids[0]], units, now);
      ConsumeAll(caps', ids[1..], loaded, units, now)
  }

  function Record(a: Authority, id: Option<CapabilityId>, hash: Hash, u: CapabilityUse, reason: Reason, now: int)
    : (Authority, Decision)
  {
    (a.(decisions := a.decisions + [DecisionRow(id, hash, u, reason, now)]), Decision(reason, id))
  }

  /** `authorize_and_consume_in_transaction` */
  ghost function AuthorizeInTransaction(a: Authority, hash: Hash, u: CapabilityUse, clock: int)
    : Result<(Authority, Decision), Error>
  {
    if !ValidUse(u) then Err(InvalidField)
    else if clock < 0 then Err(InvalidClock)
    else if hash !in a.handles || a.handles[hash] !in a.capabilities then
      Ok(Record(a, None, hash, u, UnknownHandle, clock))
    else
      var id := a.handles[hash];
      match Evaluate(a, id, u, clock)
      case Deny(reason, None) => Ok(Record(a, Some(id), hash, u, reason, clock))
      case Deny(reason, Some(x)) =>
        var status := Lapse(a.capabilities[x], clock);
        if status.None? then Ok(Record(a, Some(id), hash, u, reason, clock))
        else
          var marked :- Mark(a, x, status.value, clock);
          Ok(Record(marked, Some(id), hash, u, reason, clock))
      case Allow(chain) =>
        var caps :- ConsumeAll(a.capabilities, chain, a.capabilities, u.budgetUnits, clock);
        var row := Authorization(id, u.requestId, u.requestHash, u.budgetUnits, clock);
        Ok(Record(a.(capabilities := caps, authorizations := a.authorizations + [row]), Some(id), hash, u, Allowed,
          clock))
  }

  // ---------------------------------------------------------------- operations

  datatype Operation =
    | OpSetPolicy(at: BranchKey, revision: nat, clock: int)
    | OpIssue(request: IssueRequest, id: CapabilityId, hash: Hash, clock: int)
    | OpAttenuate(parentHash: Hash, request: IssueRequest, id: CapabilityId, hash: Hash, clock: int)
    | OpRevoke(hash: Hash, clock: int)
    | OpRevokeById(id: CapabilityId, clock: int)
    | OpUse(hash: Hash, use: CapabilityUse, clock: int)

  datatype Reply = Done | Decided(decision: Decision)

  /** One call of the service inside its transaction. */
  ghost function Transact(a: Authority, op: Operation): Result<(Authority, Reply), Error> {
    match op
    case OpSetPolicy(at, revision, clock) =>
      var a' :- SetPolicyRevision(a, at, revision, clock); Ok((a', Done))
    case OpIssue(request, id, hash, clock) =>
      var a' :- Issue(a, request, id, hash, clock); Ok((a', Done))
    case OpAttenuate(parentHash, request, id, hash, clock) =>
      var a' :- Attenuate(a, parentHash, request, id, hash, clock); Ok((a', Done))
    case OpRevoke(hash, clock) =>
      if clock < 0 then Err(InvalidClock)
      else if hash !in a.handles || a.handles[hash] !in a.capabilities then Err(UnknownParentCapability)
      else var a' :- RevokeRow(a, a.handles[hash], clock); Ok((a', Done))
    case OpRevokeById(id, clock) =>
      if clock < 0 then Err(InvalidClock)
      else if id !in a.capabilities then Err(CapabilityNotFound)
      else var a' :- RevokeRow(a, id, clock); Ok((a', Done))
    case OpUse(hash, use, clock) =>
      var (a', d) :- AuthorizeInTransaction(a, hash, use, clock); Ok((a', Decided(d)))
  }

  /** An error drops the transaction. */
  ghost function Commit(a: Authority, op: Operation): Authority {
    var r := Transact(a, op);
    if r.Ok? then r.value.0 else a
  }

  /** The tables after a whole run. */
  ghost function Run(a: Authority, ops: seq<Operation>): Authority {
    if ops == [] then a else Commit(Run(a, ops[..|ops| - 1]), ops[|ops| - 1])
  }
}
