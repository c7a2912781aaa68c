/**
 The capability service as the source runs it: rows updated in place, loops over loaded ancestors, rollback on error.
 */
module CapabilityServices {
  import opened Wrappers
  import opened Capabilities
  import opened Delegation
  import opened AuthorityInvariant
  import opened AuthorityRuns

  /** What a caller sees of a transaction: the reply without the tables. */
  ghost function ReplyTo(a: Authority, op: Operation): Result<Reply, Error> {
    var r := Transact(a, op);
    if r.Ok? then Ok(r.value.1) else Err(r.error)
  }

  lemma UseReply(a: Authority, hash: Hash, u: CapabilityUse, clock: int)
    ensures var r, op := AuthorizeInTransaction(a, hash, u, clock), OpUse(hash, u, clock);
      && (r.Ok? ==> Commit(a, op) == r.value.0 && ReplyTo(a, op) == Ok(Decided(r.value.1)))
      && (r.Err? ==> Commit(a, op) == a && ReplyTo(a, op) == Err(r.error))
  {
    hide AuthorizeInTransaction;
  }

  /** `ORDER BY depth` over the rows of one capability. */
  method OrderByDepth(rows: set<AncestryRow>, id: CapabilityId, ghost s: seq<CapabilityId>)
    returns (chain: seq<CapabilityId>)
    requires IsIndexed(rows, id, s, 0)
    ensures chain == s
  {
    hide IsIndexed, IsShallowest;
    var pending := rows;
    chain := [];
    while pending != {}
      invariant |chain| <= |s| && chain == s[..|chain|]
      invariant IsIndexed(pending, id, s, |chain|)
      decreases |pending|
    {
      ShallowestExists(pending);
      var r :| IsShallowest(r, pending);
      IndexedExhausted(pending, id, s, |chain|);
      IndexedTail(pending, id, s, |chain|);
      chain := chain + [r.ancestor];
      pending := pending - {r};
    }
    IndexedExhausted(pending, id, s, |chain|);
  }

  class CapabilityService {
    const branches: set<BranchKey>
    var policies: map<BranchKey, int>
    var capabilities: map<CapabilityId, Capability>
    var handles: map<Hash, CapabilityId>
    var ancestry: set<AncestryRow>
    var authorizations: seq<Authorization>
    var decisions: seq<DecisionRow>

    function Tables(): Authority
      reads this
    {
      Authority(branches, policies, capabilities, handles, ancestry, authorizations, decisions)
    }

    constructor (branches: set<BranchKey>)
      ensures Tables() == Empty(branches) && Valid(Tables())
    {
      this.branches := branches;
      policies, capabilities, handles, ancestry, authorizations, decisions := map[], map[], map[], {}, [], [];
      new;
      EmptyValid(branches);
    }

    /** An enclosing transaction is dropped. */
    method Rollback(a: Authority)
      requires a.branches == branches
      modifies this
      ensures Tables() == a
    {
      policies, capabilities, handles, ancestry := a.policies, a.capabilities, a.handles, a.ancestry;
      authorizations, decisions := a.authorizations, a.decisions;
    }

    method SetPolicyRevision(at: BranchKey, revision: nat, clock: int) returns (r: Result<Reply, Error>)
      requires Valid(Tables())
      modifies this
      ensures Valid(Tables())
      ensures Tables() == Commit(old(Tables()), OpSetPolicy(at, revision, clock))
      ensures r == ReplyTo(old(Tables()), OpSetPolicy(at, revision, clock))
    {
      CommitKeepsValid(Tables(), OpSetPolicy(at, revision, clock));
      hide Valid;
      if revision > MAX_I64 {
        return Err(InvalidField);
      }
      if clock < 0 {
        return Err(InvalidClock);
      }
      if at in policies && revision < policies[at] {
        return Err(PolicyRevisionRollback);
      }
      if at !in policies && at !in branches {
        return Err(Database);
      }
      policies := policies[at := revision];
      return Ok(Done);
    }

    method Issue(request: IssueRequest, id: CapabilityId, hash: Hash, clock: int) returns (r: Result<Reply, Error>)
      requires Valid(Tables())
      modifies this
      ensures Valid(Tables())
      ensures Tables() == Commit(old(Tables()), OpIssue(request, id, hash, clock))
      ensures r == ReplyTo(old(Tables()), OpIssue(request, id, hash, clock))
    {
      CommitKeepsValid(Tables(), OpIssue(request, id, hash, clock));
      hide Valid;
      if clock < 0 {
        return Err(InvalidClock);
      }
      var validated := ValidateIssue(request, clock);
      if validated.Err? {
        return Err(validated.error);
      }
      if request.scope.at !in policies {
        return Err(PolicyNotInitialized);
      }
      if policies[request.scope.at] != request.policyRevision {
        return Err(PolicyNotCurrent);
      }
      var inserted := InsertCapability(id, hash, NewCapability(request, None, clock));
      return if inserted then Ok(Done) else Err(Database);
    }

    method InsertCapability(id: CapabilityId, hash: Hash, c: Capability) returns (inserted: bool)
      modifies this
      ensures inserted <==> Insert(old(Tables()), id, hash, c).Ok?
      ensures !inserted ==> Tables() == old(Tables()) && Insert(old(Tables()), id, hash, c) == Err(Database)
      ensures inserted ==> Tables() == Insert(old(Tables()), id, hash, c).value
    {
      if id in capabilities || hash in handles || c.scope.at !in branches {
        return false;
      }
      capabilities := capabilities[id := c];
      handles := handles[hash := id];
      var inherited := Inherited(ancestry, id, c.parent);
      ancestry := ancestry + inherited;
      ancestry := ancestry + {AncestryRow(id, id, 0)};
      return true;
    }

    /** `load_ancestors` */
    method LoadChain(id: CapabilityId) returns (chain: seq<CapabilityId>)
      requires Valid(Tables()) && id in capabilities
      ensures chain == Chain(ParentsOf(capabilities), id)
      ensures chain == LoadAncestors(Tables(), id)
    {
      LoadAncestorsIsChain(Tables(), id);
      AncestorRowsAreIndexed(Tables(), id);
      hide Valid, LoadAncestors, Chain, IsIndexed;
      chain := OrderByDepth(AncestorRows(Tables(), id), id, Chain(ParentsOf(capabilities), id));
    }

    /** The loop of `ancestor_denial`: stop at the first lapsed row. */
    method FindLapsed(ids: seq<CapabilityId>, now: int) returns (r: Option<CapabilityId>)
      requires forall x :: x in ids ==> x in capabilities
      ensures r == FirstLapsed(capabilities, ids, now)
    {
      var i := 0;
      while i < |ids|
        invariant 0 <= i <= |ids|
        invariant FirstLapsed(capabilities, ids, now) == FirstLapsed(capabilities, ids[i..], now)
      {
        assert ids[i..][0] == ids[i] && ids[i..][1..] == ids[i + 1..];
        if Lapse(capabilities[ids[i]], now).Some? {
          return Some(ids[i]);
        }
        i := i + 1;
      }
      return None;
    }

    method ValidateAttenuation(parent: CapabilityId, request: IssueRequest, now: int) returns (r: Result<Unit, Error>)
      requires Valid(Tables()) && parent in capabilities
      ensures r == Capabilities.ValidateAttenuation(Tables(), parent, request, now)
    {
      var p := capabilities[parent];
      if Lapse(p, now).Some? {
        return Err(InactiveParentCapability);
      }
      var chain := LoadChain(parent);
      hide Valid, LoadAncestors;
      var barred := FindLapsed(chain[1..], now);
      if barred.Some? {
        return Err(InactiveParentCapability);
      }
      if p.scope != request.scope || p.policyRevision != request.policyRevision {
        return Err(AttenuationWouldWiden);
      }
      if !Narrows(request.maxUses, p.remainingUses) || !Narrows(request.budgetUnits, p.remainingBudget)
         || !Narrows(request.expiresAt, p.expiresAt) {
        return Err(AttenuationWouldWiden);
      }
      if p.scope.at !in policies {
        return Err(PolicyNotInitialized);
      }
      if policies[p.scope.at] != p.policyRevision {
        return Err(InactiveParentCapability);
      }
      return Ok(Unit);
    }

    method Attenuate(parentHash: Hash, request: IssueRequest, id: CapabilityId, hash: Hash, clock: int)
      returns (r: Result<Reply, Error>)
      requires Valid(Tables())
      modifies this
      ensures Valid(Tables())
      ensures Tables() == Commit(old(Tables()), OpAttenuate(parentHash, request, id, hash, clock))
      ensures r == ReplyTo(old(Tables()), OpAttenuate(parentHash, request, id, hash, clock))
    {
      CommitKeepsValid(Tables(), OpAttenuate(parentHash, request, id, hash, clock));
      hide Valid, Capabilities.ValidateAttenuation, Insert;
      if clock < 0 {
        return Err(InvalidClock);
      }
      var validated := ValidateIssue(request, clock);
      if validated.Err? {
        return Err(validated.error);
      }
      if parentHash !in handles || handles[parentHash] !in capabilities {
        return Err(UnknownParentCapability);
      }
      var parent := handles[parentHash];
      var narrower := ValidateAttenuation(parent, request, clock);
      if narrower.Err? {
        return Err(narrower.error);
      }
      var inserted := InsertCapability(id, hash, NewCapability(request, Some(parent), clock));
      return if inserted then Ok(Done) else Err(Database);
    }

    method Revoke(hash: Hash, clock: int) returns (r: Result<Reply, Error>)
      requires Valid(Tables())
      modifies this
      ensures Valid(Tables())
      ensures Tables() == Commit(old(Tables()), OpRevoke(hash, clock))
      ensures r == ReplyTo(old(Tables()), OpRevoke(hash, clock))
    {
      CommitKeepsValid(Tables(), OpRevoke(hash, clock));
      hide Valid;
      if clock < 0 {
        return Err(InvalidClock);
      }
      if hash !in handles || handles[hash] !in capabilities {
        return Err(UnknownParentCapability);
      }
      var marked := MarkRow(handles[hash], Revoked, clock);
      return if marked then Ok(Done) else Err(Database);
    }

    method RevokeById(id: CapabilityId, clock: int) returns (r: Result<Reply, Error>)
      requires Valid(Tables())
      modifies this
      ensures Valid(Tables())
      ensures Tables() == Commit(old(Tables()), OpRevokeById(id, clock))
      ensures r == ReplyTo(old(Tables()), OpRevokeById(id, clock))
    {
      CommitKeepsValid(Tables(), OpRevokeById(id, clock));
      hide Valid;
      if clock < 0 {
        return Err(InvalidClock);
      }
      if id !in capabilities {
        return Err(CapabilityNotFound);
      }
      var marked := MarkRow(id, Revoked, clock);
      return if marked then Ok(Done) else Err(Database);
    }

    /** An UPDATE guarded by `status = 'active'`; refused by the CHECK on `updated_at_unix_ms`. */
    method MarkRow(id: CapabilityId, status: Status, now: int) returns (accepted: bool)
      requires id in capabilities
      modifies this
      ensures accepted <==> Mark(old(Tables()), id, status, now).Ok?
      ensures !accepted ==> Tables() == old(Tables()) && Mark(old(Tables()), id, status, now) == Err(Database)
      ensures accepted ==> Tables() == Mark(old(Tables()), id, status, now).value
    {
      var c := capabilities[id];
      if c.status == Active {
        if now < c.issuedAt {
          return false;
        }
        capabilities := capabilities[id := c.(status := status)];
      }
      return true;
    }

    /** `evaluate_authority` */
    method EvaluateAuthority(id: CapabilityId, u: CapabilityUse, now: int) returns (e: Evaluation)
      requires Valid(Tables()) && id in capabilities
      ensures e == Evaluate(Tables(), id, u, now)
    {
      var c := capabilities[id];
      var binding := BindingDenial(c, u);
      if binding.Some? {
        return Deny(binding.value, None);
      }
      var lapse := Lapse(c, now);
      if lapse.Some? {
        return Deny(DirectReason(lapse.value), Some(id));
      }
      var policy := PolicyDenial(policies, c, u);
      if policy.Some? {
        return Deny(policy.value, None);
      }
      var chain := LoadChain(id);
      hide Valid, LoadAncestors, BindingDenial, Lapse, PolicyDenial;
      var barred := FindLapsed(chain[1..], now);
      if barred.Some? {
        return Deny(AncestorReason(Lapse(capabilities[barred.value], now).value), barred);
      }
      if AlreadyAuthorized(authorizations, id, u.requestId) {
        return Deny(RequestAlreadyAuthorized, None);
      }
      if exists x :: x in chain && !Affords(capabilities[x], u.budgetUnits) {
        return Deny(BudgetExceeded, None);
      }
      return Allow(chain);
    }

    /** The loop of `consume_counter` over the loaded rows; a failed update restores the rows. */
    method ConsumeCounters(chain: seq<CapabilityId>, units: int, now: int) returns (r: Result<Unit, Error>)
      requires forall x :: x in chain ==> x in capabilities
      modifies this`capabilities
      ensures var spec := ConsumeAll(old(capabilities), chain, old(capabilities), units, now);
        && (r.Ok? <==> spec.Ok?)
        && (r.Ok? ==> capabilities == spec.value)
        && (r.Err? ==> capabilities == old(capabilities) && r.error == spec.error)
    {
      var loaded := capabilities;
      var i := 0;
      while i < |chain|
        invariant 0 <= i <= |chain|
        invariant forall x :: x in chain ==> x in capabilities && x in loaded
        invariant ConsumeAll(loaded, chain, loaded, units, now)
            == ConsumeAll(capabilities, chain[i..], loaded, units, now)
      {
        assert chain[i..][0] == chain[i] && chain[i..][1..] == chain[i + 1..];
        var id := chain[i];
        if capabilities[id].status != Active {
          capabilities := loaded;
          return Err(ConcurrentAuthorityChange);
        }
        if now < loaded[id].issuedAt || !CountersNonnegative(Charged(loaded[id], units)) {
          capabilities := loaded;
          return Err(Database);
        }
        capabilities := capabilities[id := Charged(loaded[id], units)];
        i := i + 1;
      }
      return Ok(Unit);
    }

    method RecordDecision(id: Option<CapabilityId>, hash: Hash, u: CapabilityUse, reason: Reason, now: int)
      returns (d: Decision)
      modifies this`decisions
      ensures (Tables(), d) == Record(old(Tables()), id, hash, u, reason, now)
    {
      decisions := decisions + [DecisionRow(id, hash, u, reason, now)];
      return Decision(reason, id);
    }

    /** A denial: the lapsed row, if one was observed, is marked before the decision is recorded. */
    method Refuse(id: CapabilityId, hash: Hash, u: CapabilityUse, e: Evaluation, clock: int)
      returns (r: Result<Decision, Error>)
      requires id in capabilities && e.Deny? && (e.lapsed.Some? ==> e.lapsed.value in capabilities)
      requires ValidUse(u) && 0 <= clock && hash in handles && handles[hash] == id
          && e == Evaluate(Tables(), id, u, clock)
      modifies this
      ensures r.Ok? ==> AuthorizeInTransaction(old(Tables()), hash, u, clock) == Ok((Tables(), r.value))
      ensures r.Err? ==>
          AuthorizeInTransaction(old(Tables()), hash, u, clock) == Err(r.error) && Tables() == old(Tables())
    {
      hide Evaluate, ValidUse, Lapse, Mark;
      if e.lapsed.Some? && Lapse(capabilities[e.lapsed.value], clock).Some? {
        var marked := MarkRow(e.lapsed.value, Lapse(capabilities[e.lapsed.value], clock).value, clock);
        if !marked {
          return Err(Database);
        }
      }
      var denied := RecordDecision(Some(id), hash, u, e.reason, clock);
      return Ok(denied);
    }

    /** An allowed use: charge the chain, then append to both histories. */
    method Grant(id: CapabilityId, hash: Hash, u: CapabilityUse, e: Evaluation, clock: int)
      returns (r: Result<Decision, Error>)
      requires id in capabilities && e.Allow? && (forall x :: x in e.chain ==> x in capabilities)
      requires ValidUse(u) && 0 <= clock && hash in handles && handles[hash] == id
          && e == Evaluate(Tables(), id, u, clock)
      modifies this
      ensures r.Ok? ==> AuthorizeInTransaction(old(Tables()), hash, u, clock) == Ok((Tables(), r.value))
      ensures r.Err? ==>
          AuthorizeInTransaction(old(Tables()), hash, u, clock) == Err(r.error) && Tables() == old(Tables())
    {
      hide Evaluate, ValidUse, ConsumeAll;
      var charged := ConsumeCounters(e.chain, u.budgetUnits, clock);
      if charged.Err? {
        return Err(charged.error);
      }
      authorizations := authorizations + [Authorization(id, u.requestId, u.requestHash, u.budgetUnits, clock)];
      var allowed := RecordDecision(Some(id), hash, u, Allowed, clock);
      return Ok(allowed);
    }

    method AuthorizeInPlace(hash: Hash, u: CapabilityUse, clock: int) returns (r: Result<Decision, Error>)
      requires Valid(Tables())
      modifies this
      ensures r.Ok? ==> AuthorizeInTransaction(old(Tables()), hash, u, clock) == Ok((Tables(), r.value))
      ensures r.Err? ==>
          AuthorizeInTransaction(old(Tables()), hash, u, clock) == Err(r.error) && Tables() == old(Tables())
    {
      hide Valid, Evaluate, ValidUse, LoadAncestors;
      if !ValidUse(u) {
        return Err(InvalidField);
      }
      if clock < 0 {
        return Err(InvalidClock);
      }
      if hash !in handles || handles[hash] !in capabilities {
        var unknown := RecordDecision(None, hash, u, UnknownHandle, clock);
        return Ok(unknown);
      }
      var id := handles[hash];
      var e := EvaluateAuthority(id, u, clock);
      if e.Deny? {
        r := Refuse(id, hash, u, e, clock);
      } else {
        r := Grant(id, hash, u, e, clock);
      }
    }

    /** `authorize_and_consume` */
    method AuthorizeAndConsume(hash: Hash, u: CapabilityUse, clock: int) returns (r: Result<Reply, Error>)
      requires Valid(Tables())
      modifies this
      ensures Valid(Tables())
      ensures Tables() == Commit(old(Tables()), OpUse(hash, u, clock))
      ensures r == ReplyTo(old(Tables()), OpUse(hash, u, clock))
    {
      hide Valid, AuthorizeInTransaction, Transact, Commit, ReplyTo;
      CommitKeepsValid(Tables(), OpUse(hash, u, clock));
      UseReply(Tables(), hash, u, clock);
      var decided := AuthorizeInPlace(hash, u, clock);
      return if decided.Ok? then Ok(Decided(decided.value)) else Err(decided.error);
    }
  }
}
