/** Every session operation that edits the document, as the edit it proposes to `commit`, in the order of the
    source's checks. */
module Capability {
  import opened Prelude
  import opened Audit
  import opened Model

  datatype Call =
    | ProjectAdd(name: string, id: Id)
    | ProjectRemove(name: string)
    | SecretSet(project: string, key: string, value: Bytes)
    | SecretDelete(project: string, key: string)
    | AgentAdd(name: string, id: Id, token: CredDigest)
    | AgentRevoke(name: string)
    | GrantAdd(agent: string, project: string, ops: seq<Op>)
    | GrantRevoke(agent: string, project: string)
    | LeaseCreate(agentId: Id, project: string, ops: seq<Op>, ttlSecs: nat, id: Id, digest: CredDigest)
    | LeaseRevoke(owner: Option<Id>, leaseId: Id)
    | ApprovalRequest(agentId: Id, project: string, key: string, id: Id)
    | ApprovalDecide(actor: string, approvalId: Id, approve: bool)
    | RevealClaim(agentId: Id, project: string, key: string, approvalId: Id)

  type Proposal = Result<Document, VaultError>

  const SESSION_ACTOR := "human(session:"

  /** `is_human_identity`: the passphrase actor or the session actor form. */
  predicate IsHumanIdentity(actor: string) {
    actor == "human" || (|actor| > 0 && SESSION_ACTOR <= actor && actor[|actor| - 1] == ')')
  }

  function AddProject(d: Document, name: string, id: Id): Proposal {
    if !ValidProjectName(name) then Err(InvalidInput)
    else if ProjectByName(d, name).Some? then Err(Exists)
    else if |d.projects| >= MAX_PROJECTS then Err(InvalidInput)
    else Ok(d.(projects := d.projects + [Project(id, name)]))
  }

  function RemoveAt<T>(s: seq<T>, i: nat): seq<T>
    requires i < |s|
  {
    s[..i] + s[i + 1..]
  }

  function RemoveProject(d: Document, name: string): Proposal {
    var i := Position(d.projects, (p: Project) => p.name == name);
    if i == |d.projects| then Err(NotFound)
    else if exists s :: s in d.secrets && s.projectId == d.projects[i].id then Err(InvalidInput)
    else Ok(d.(projects := RemoveAt(d.projects, i)))
  }

  function SetSecret(d: Document, project: string, key: string, value: Bytes): Proposal {
    if !(1 <= |value| <= MAX_VALUE_LEN) then Err(InvalidInput)
    else
      var p := ProjectByName(d, project);
      if p.None? then Err(NotFound)
      else
        var i := Position(d.secrets, (s: Secret) => s.projectId == p.value.id && s.key == key);
        if i < |d.secrets| then Ok(d.(secrets := d.secrets[i := d.secrets[i].(value := value)]))
        else if !ValidKey(key) then Err(InvalidInput)
        else if |d.secrets| >= MAX_SECRETS then Err(InvalidInput)
        else Ok(d.(secrets := d.secrets + [Secret(p.value.id, key, value)]))
  }

  function DeleteSecret(d: Document, project: string, key: string): Proposal {
    var p := ProjectByName(d, project);
    if p.None? then Err(NotFound)
    else
      var i := Position(d.secrets, (s: Secret) => s.projectId == p.value.id && s.key == key);
      if i == |d.secrets| then Err(NotFound) else Ok(d.(secrets := RemoveAt(d.secrets, i)))
  }

  function AddAgent(d: Document, name: string, id: Id, token: CredDigest): Proposal {
    if !ValidProjectName(name) then Err(InvalidInput)
    else if AgentByName(d, name).Some? then Err(Exists)
    else if |d.agents| >= MAX_AGENTS then Err(InvalidInput)
    else Ok(d.(agents := d.agents + [Agent(id, name, true, token)]))
  }

  function RevokeAgent(d: Document, name: string, now: int): Proposal {
    var i := Position(d.agents, (a: Agent) => a.name == name);
    if i == |d.agents| then Err(NotFound)
    else
      var id := d.agents[i].id;
      var d1 := d.(agents := d.agents[i := d.agents[i].(active := false)]);
      Ok(DenyAgentApprovals(RevokeAgentLeases(d1, id, now), id))
  }

  function SweepPair(d: Document, agentId: Id, projectId: Id, now: int): Document {
    DenyPairIfRevealLost(RevokeUncoveredLeases(d, agentId, projectId, now), agentId, projectId)
  }

  /** The upsert half of `do_grant_add`, before the sweeps. */
  function UpsertGrant(d: Document, agentId: Id, projectId: Id, ops: seq<Op>, now: int): Document {
    var i := Position(d.grants, (g: Grant) => ActiveFor(g, agentId, projectId));
    if i < |d.grants| then d.(grants := d.grants[i := d.grants[i].(ops := ops)])
    else d.(grants := d.grants + [Grant(agentId, projectId, ops, now, None)])
  }

  function AddGrant(d: Document, agent: string, project: string, ops: seq<Op>, now: int): Proposal {
    if ops == [] then Err(InvalidInput)
    else
      var a := AgentByName(d, agent);
      if a.None? then Err(NotFound)
      else
        var p := ProjectByName(d, project);
        if p.None? then Err(NotFound)
        else Ok(SweepPair(UpsertGrant(d, a.value.id, p.value.id, ops, now), a.value.id, p.value.id, now))
  }

  function RevokeGrant(d: Document, agent: string, project: string, now: int): Proposal {
    var a := AgentByName(d, agent);
    if a.None? then Err(NotFound)
    else
      var p := ProjectByName(d, project);
      if p.None? then Err(NotFound)
      else
        var i := Position(d.grants, (g: Grant) => ActiveFor(g, a.value.id, p.value.id));
        if i == |d.grants| then Err(NotFound)
        else
          var d1 := d.(grants := d.grants[i := d.grants[i].(revokedAt := Some(now))]);
          Ok(SweepPair(d1, a.value.id, p.value.id, now))
  }

  function CreateLease(d: Document, agentId: Id, project: string, ops: seq<Op>, ttlSecs: nat, id: Id, digest: CredDigest,
                       now: int): Proposal {
    if !(MIN_LEASE_TTL_SECS <= ttlSecs <= MAX_LEASE_TTL_SECS) then Err(InvalidInput)
    else if ops == [] then Err(InvalidInput)
    else
      var p := ProjectByName(d, project);
      if p.None? then Err(NotFound)
      else if !AgentIsActive(d, agentId) then Err(NotFound)
      else
        var g := ActiveGrant(d, agentId, p.value.id);
        if g.None? then Err(Permission)
        else if !Subset(ops, g.value.ops) then Err(Permission)
        else
          var d1 := if |d.leases| >= MAX_LEASES then Purged(d, now) else d;
          if |d1.leases| >= MAX_LEASES then Err(InvalidInput)
          else Ok(d1.(leases := d1.leases + [Lease(id, agentId, p.value.id, ops, digest, now, now + ttlSecs * SECOND, None)]))
  }

  function DropLease(d: Document, owner: Option<Id>, leaseId: Id, now: int): Proposal {
    var i := Position(d.leases, (l: Lease) => l.id == leaseId);
    if i == |d.leases| then Err(NotFound)
    else if owner.Some? && d.leases[i].agentId != owner.value then Err(Permission)
    else Ok(d.(leases := d.leases[i := RevokeLease(d.leases[i], now)]))
  }

  function RequestApproval(d: Document, agentId: Id, project: string, key: string, id: Id, now: int): Proposal {
    var p := ProjectByName(d, project);
    if p.None? then Err(NotFound)
    else if !AgentIsActive(d, agentId) then Err(Permission)
    else if !Authorized(d, agentId, p.value.id, Reveal) then Err(Permission)
    else if SecretOf(d, p.value.id, key).None? then Err(NotFound)
    else
      var d1 := if |d.approvals| >= MAX_APPROVALS then Purged(d, now) else d;
      if |d1.approvals| >= MAX_APPROVALS then Err(InvalidInput)
      else
        var a := Approval(id, agentId, p.value.id, key, Pending, now, now + APPROVAL_PENDING, None, None);
        Ok(d1.(approvals := d1.approvals + [a]))
  }

  function DecideApproval(d: Document, actor: string, approvalId: Id, approve: bool, now: int): Proposal {
    if !IsHumanIdentity(actor) then Err(HumanRequired)
    else
      var i := Position(d.approvals, (a: Approval) => a.id == approvalId);
      if i == |d.approvals| then Err(NotFound)
      else
        var a := d.approvals[i];
        match a.status
        case Denied => Err(ApprovalDenied)
        case Consumed => Err(ApprovalConsumed)
        case Approved => Err(InvalidInput)
        case Pending =>
          if now >= a.pendingExpiresAt then Err(ApprovalExpired)
          else
            var a' := if approve
                      then a.(status := Approved, approvedAt := Some(now), claimExpiresAt := Some(now + APPROVAL_CLAIM))
                      else a.(status := Denied);
            Ok(d.(approvals := d.approvals[i := a']))
  }

  /** The checks of `reveal_claim` on the row itself. */
  function ClaimRefusal(d: Document, a: Approval, agentId: Id, projectId: Id, key: string, now: int): Option<VaultError> {
    if a.agentId != agentId || a.projectId != projectId || a.key != key then Some(Permission)
    else if !Authorized(d, agentId, projectId, Reveal) then Some(Permission)
    else match a.status
      case Denied => Some(ApprovalDenied)
      case Consumed => Some(ApprovalConsumed)
      case Pending => Some(if now >= a.pendingExpiresAt then ApprovalExpired else ApprovalPending)
      case Approved =>
        if a.claimExpiresAt.Some? && now >= a.claimExpiresAt.value then Some(ApprovalExpired) else None
  }

  function ClaimApproval(d: Document, agentId: Id, project: string, key: string, approvalId: Id, now: int): Proposal {
    var p := ProjectByName(d, project);
    if p.None? then Err(NotFound)
    else
      var i := Position(d.approvals, (a: Approval) => a.id == approvalId);
      if i == |d.approvals| then Err(NotFound)
      else
        var refusal := ClaimRefusal(d, d.approvals[i], agentId, p.value.id, key, now);
        if refusal.Some? then Err(refusal.value)
        else if SecretOf(d, p.value.id, key).None? then Err(NotFound)
        else Ok(d.(approvals := d.approvals[i := d.approvals[i].(status := Consumed)]))
  }

  function Propose(d: Document, c: Call, now: int): Proposal {
    match c
    case ProjectAdd(name, id) => AddProject(d, name, id)
    case ProjectRemove(name) => RemoveProject(d, name)
    case SecretSet(project, key, value) => SetSecret(d, project, key, value)
    case SecretDelete(project, key) => DeleteSecret(d, project, key)
    case AgentAdd(name, id, token) => AddAgent(d, name, id, token)
    case AgentRevoke(name) => RevokeAgent(d, name, now)
    case GrantAdd(agent, project, ops) => AddGrant(d, agent, project, ops, now)
    case GrantRevoke(agent, project) => RevokeGrant(d, agent, project, now)
    case LeaseCreate(agentId, project, ops, ttl, id, digest) => CreateLease(d, agentId, project, ops, ttl, id, digest, now)
    case LeaseRevoke(owner, leaseId) => DropLease(d, owner, leaseId, now)
    case ApprovalRequest(agentId, project, key, id) => RequestApproval(d, agentId, project, key, id, now)
    case ApprovalDecide(actor, id, approve) => DecideApproval(d, actor, id, approve, now)
    case RevealClaim(agentId, project, key, id) => ClaimApproval(d, agentId, project, key, id, now)
  }

  /** `is_reduction` of `grant_add`: a subset of what the pair already holds. */
  predicate NarrowsGrant(d: Document, agent: string, project: string, ops: seq<Op>) {
    var a := AgentByName(d, agent);
    var p := ProjectByName(d, project);
    && a.Some? && p.Some? && ActiveGrant(d, a.value.id, p.value.id).Some?
    && Subset(ops, ActiveGrant(d, a.value.id, p.value.id).value.ops)
  }

  function PriorityOf(d: Document, c: Call): Priority {
    match c
    case AgentRevoke(_) => Lifecycle
    case GrantRevoke(_, _) => Lifecycle
    case LeaseRevoke(_, _) => Lifecycle
    case GrantAdd(agent, project, ops) => if NarrowsGrant(d, agent, project, ops) then Lifecycle else Ordinary
    case _ => Ordinary
  }

  /** Random ids and credential digests are globally fresh. */
  predicate FreshFor(d: Document, c: Call) {
    match c
    case LeaseCreate(_, _, _, _, id, digest) =>
      forall l :: l in d.leases ==> l.id != id && l.digest != digest
    case ApprovalRequest(_, _, _, id) => forall a :: a in d.approvals ==> a.id != id
    case _ => true
  }

  // ----- every proposal keeps the document invariant --------------------------------------

  /** Editing only projects, secrets and the head, or adding agents, keeps every lease and approval backed. */
  lemma UntouchedRowsStayBacked(d: Document, d': Document)
    requires DocInv(d)
    requires d'.grants == d.grants && d'.leases == d.leases && d'.approvals == d.approvals
    requires forall a :: a in d.agents ==> a in d'.agents
    ensures DocInv(d')
  {
    forall l | l in d'.leases ensures LeaseBacked(d', l) {
      assert LeaseBacked(d, l);
      if l.revokedAt.None? { ActiveAgentStays(d, d', l.agentId); }
    }
    forall a | a in d'.approvals ensures ApprovalBacked(d', a) {
      assert ApprovalBacked(d, a);
      if Open(a) { ActiveAgentStays(d, d', a.agentId); }
    }
  }

  lemma PurgeKeepsInv(d: Document, now: int)
    requires DocInv(d)
    ensures DocInv(Purged(d, now))
  {
    var d' := Purged(d, now);
    forall i, j | 0 <= i < j < |d'.leases|
      ensures d'.leases[i].digest != d'.leases[j].digest && d'.leases[i].id != d'.leases[j].id
    {
      assert InOrderIn(d.leases, d'.leases[i], d'.leases[j]);
    }
    forall i, j | 0 <= i < j < |d'.approvals| ensures d'.approvals[i].id != d'.approvals[j].id {
      assert InOrderIn(d.approvals, d'.approvals[i], d'.approvals[j]);
    }
    forall l | l in d'.leases ensures LeaseBacked(d', l) { assert LeaseBacked(d, l); }
    forall a | a in d'.approvals ensures ApprovalBacked(d', a) { assert ApprovalBacked(d, a); }
  }

  /** What revoking an agent does, row by row. */
  predicate AgentSwept(d: Document, d': Document, id: Id, now: int) {
    && d'.grants == d.grants
    && (forall b :: b in d.agents && b.id != id ==> b in d'.agents)
    && |d'.leases| == |d.leases| && |d'.approvals| == |d.approvals|
    && (forall k :: 0 <= k < |d.leases| ==>
          d'.leases[k] == if d.leases[k].agentId == id then RevokeLease(d.leases[k], now) else d.leases[k])
    && (forall k :: 0 <= k < |d.approvals| ==>
          d'.approvals[k] == if d.approvals[k].agentId == id then Deny(d.approvals[k]) else d.approvals[k])
  }

  lemma RevokeAgentSweeps(d: Document, name: string, now: int)
    requires RevokeAgent(d, name, now).Ok?
    ensures AgentSwept(d, RevokeAgent(d, name, now).value, d.agents[Position(d.agents, (a: Agent) => a.name == name)].id, now)
  {
    var i := Position(d.agents, (a: Agent) => a.name == name);
    var d' := RevokeAgent(d, name, now).value;
    forall b | b in d.agents && b.id != d.agents[i].id ensures b in d'.agents {
      var k :| 0 <= k < |d.agents| && d.agents[k] == b;
      assert d'.agents[k] == b;
    }
  }

  lemma AgentSweptKeepsInv(d: Document, d': Document, id: Id, now: int)
    requires DocInv(d) && AgentSwept(d, d', id, now)
    ensures DocInv(d')
  {
    forall l' | l' in d'.leases ensures LeaseBacked(d', l') {
      var k :| 0 <= k < |d'.leases| && d'.leases[k] == l';
      assert LeaseBacked(d, d.leases[k]);
      if l'.revokedAt.None? { ActiveAgentStays(d, d', l'.agentId); }
    }
    forall a' | a' in d'.approvals ensures ApprovalBacked(d', a') {
      var k :| 0 <= k < |d'.approvals| && d'.approvals[k] == a';
      assert ApprovalBacked(d, d.approvals[k]);
      if Open(a') { ActiveAgentStays(d, d', a'.agentId); }
    }
  }

  lemma RevokeAgentKeepsInv(d: Document, name: string, now: int)
    requires DocInv(d) && RevokeAgent(d, name, now).Ok?
    ensures DocInv(RevokeAgent(d, name, now).value)
  {
    hide DocInv;
    RevokeAgentSweeps(d, name, now);
    AgentSweptKeepsInv(d, RevokeAgent(d, name, now).value,
                       d.agents[Position(d.agents, (a: Agent) => a.name == name)].id, now);
  }

  /** What the sweeps of one pair do, row by row. */
  predicate Swept(d: Document, d': Document, agentId: Id, projectId: Id, now: int) {
    && d' == d.(leases := d'.leases, approvals := d'.approvals)
    && |d'.leases| == |d.leases| && |d'.approvals| == |d.approvals|
    && (forall k :: 0 <= k < |d.leases| ==>
          d'.leases[k] == if Uncovered(d.leases[k], agentId, projectId, GrantOps(d, agentId, projectId))
                          then RevokeLease(d.leases[k], now) else d.leases[k])
    && (forall k :: 0 <= k < |d.approvals| ==>
          d'.approvals[k] == if !Authorized(d, agentId, projectId, Reveal)
                                && d.approvals[k].agentId == agentId && d.approvals[k].projectId == projectId
                             then Deny(d.approvals[k]) else d.approvals[k])
  }

  lemma SweepPairSweeps(d: Document, agentId: Id, projectId: Id, now: int)
    ensures Swept(d, SweepPair(d, agentId, projectId, now), agentId, projectId, now)
  {
    var d2 := RevokeUncoveredLeases(d, agentId, projectId, now);
    assert ActiveGrant(d2, agentId, projectId) == ActiveGrant(d, agentId, projectId);
  }

  lemma SweptLeaseIsBacked(d: Document, d1: Document, agentId: Id, projectId: Id, l: Lease)
    requires DocInv(d) && UniqueGrants(d1) && d1.agents == d.agents
    requires forall g :: g in d.grants && !ActiveFor(g, agentId, projectId) ==> g in d1.grants
    requires l in d.leases && !Uncovered(l, agentId, projectId, GrantOps(d1, agentId, projectId))
    ensures LeaseBacked(d1, l)
  {
    assert LeaseBacked(d, l);
    if l.revokedAt.None? {
      forall o | o in l.ops ensures Authorized(d1, l.agentId, l.projectId, o) {
        if !(l.agentId == agentId && l.projectId == projectId) {
          AuthorizedStays(d, d1, l.agentId, l.projectId, o);
        }
      }
    }
  }

  lemma SweptApprovalIsBacked(d: Document, d1: Document, agentId: Id, projectId: Id, a: Approval)
    requires DocInv(d) && UniqueGrants(d1) && d1.agents == d.agents
    requires forall g :: g in d.grants && !ActiveFor(g, agentId, projectId) ==> g in d1.grants
    requires a in d.approvals
    ensures ApprovalBacked(d1, Deny(a))
    ensures Authorized(d1, agentId, projectId, Reveal) || a.agentId != agentId || a.projectId != projectId
        ==> ApprovalBacked(d1, a)
  {
    assert ApprovalBacked(d, a);
    if Open(a) && !(a.agentId == agentId && a.projectId == projectId) {
      AuthorizedStays(d, d1, a.agentId, a.projectId, Reveal);
    }
  }

  /** Backing depends on agents and grants only. */
  lemma BackingTransfers(d: Document, d': Document)
    requires d'.agents == d.agents && d'.grants == d.grants
    ensures forall l :: LeaseBacked(d, l) ==> LeaseBacked(d', l)
    ensures forall a :: ApprovalBacked(d, a) ==> ApprovalBacked(d', a)
  {
  }

  /** The sweeps of one pair restore the invariant after its grant was changed in any way. */
  lemma SweepRestoresInv(d: Document, d1: Document, d': Document, agentId: Id, projectId: Id, now: int)
    requires DocInv(d) && UniqueGrants(d1)
    requires d1.agents == d.agents && d1.leases == d.leases && d1.approvals == d.approvals
    requires forall g :: g in d.grants && !ActiveFor(g, agentId, projectId) ==> g in d1.grants
    requires Swept(d1, d', agentId, projectId, now)
    ensures DocInv(d')
  {
    BackingTransfers(d1, d');
    forall l' | l' in d'.leases ensures LeaseBacked(d', l') {
      var k :| 0 <= k < |d'.leases| && d'.leases[k] == l';
      if !Uncovered(d.leases[k], agentId, projectId, GrantOps(d1, agentId, projectId)) {
        SweptLeaseIsBacked(d, d1, agentId, projectId, d.leases[k]);
      }
    }
    forall a' | a' in d'.approvals ensures ApprovalBacked(d', a') {
      var k :| 0 <= k < |d'.approvals| && d'.approvals[k] == a';
      SweptApprovalIsBacked(d, d1, agentId, projectId, d.approvals[k]);
    }
  }

  lemma UpsertKeepsOthers(d: Document, a: Id, p: Id, ops: seq<Op>, now: int)
    requires UniqueGrants(d)
    ensures var d1 := UpsertGrant(d, a, p, ops, now);
            && UniqueGrants(d1)
            && d1 == d.(grants := d1.grants)
            && forall g :: g in d.grants && !ActiveFor(g, a, p) ==> g in d1.grants
  {
    var d1 := UpsertGrant(d, a, p, ops, now);
    var i := Position(d.grants, (g: Grant) => ActiveFor(g, a, p));
    forall g | g in d.grants && !ActiveFor(g, a, p) ensures g in d1.grants {
      var k :| 0 <= k < |d.grants| && d.grants[k] == g;
      assert d1.grants[k] == g;
    }
    assert i == |d.grants| ==> forall k :: 0 <= k < |d.grants| ==> !ActiveFor(d.grants[k], a, p);
  }

  lemma AddGrantKeepsInv(d: Document, agent: string, project: string, ops: seq<Op>, now: int)
    requires DocInv(d) && AddGrant(d, agent, project, ops, now).Ok?
    ensures DocInv(AddGrant(d, agent, project, ops, now).value)
  {
    assert UniqueGrants(d);
    hide DocInv;
    hide UniqueGrants;
    hide UpsertGrant;
    hide SweepPair;
    hide Swept;
    hide Find;
    var a, p := AgentByName(d, agent).value.id, ProjectByName(d, project).value.id;
    var d1 := UpsertGrant(d, a, p, ops, now);
    UpsertKeepsOthers(d, a, p, ops, now);
    SweepPairSweeps(d1, a, p, now);
    SweepRestoresInv(d, d1, SweepPair(d1, a, p, now), a, p, now);
  }

  lemma RevokeGrantKeepsInv(d: Document, agent: string, project: string, now: int)
    requires DocInv(d) && RevokeGrant(d, agent, project, now).Ok?
    ensures DocInv(RevokeGrant(d, agent, project, now).value)
  {
    var a, p := AgentByName(d, agent).value.id, ProjectByName(d, project).value.id;
    var i := Position(d.grants, (g: Grant) => ActiveFor(g, a, p));
    var d1 := d.(grants := d.grants[i := d.grants[i].(revokedAt := Some(now))]);
    forall g | g in d.grants && !ActiveFor(g, a, p) ensures g in d1.grants {
      var k :| 0 <= k < |d.grants| && d.grants[k] == g;
      assert d1.grants[k] == g;
    }
    SweepPairSweeps(d1, a, p, now);
    SweepRestoresInv(d, d1, SweepPair(d1, a, p, now), a, p, now);
  }

  /** Changing lease rows only: each new row is an old one, revoked or not, or is backed on its own. */
  lemma LeaseEditKeepsInv(d: Document, d': Document)
    requires DocInv(d) && d' == d.(leases := d'.leases) && UniqueLeases(d')
    requires forall l :: l in d'.leases ==> LeaseBacked(d, l)
    ensures DocInv(d')
  {
    forall l | l in d'.leases ensures LeaseBacked(d', l) { assert LeaseBacked(d, l); }
    forall a | a in d'.approvals ensures ApprovalBacked(d', a) { assert ApprovalBacked(d, a); }
  }

  lemma ApprovalEditKeepsInv(d: Document, d': Document)
    requires DocInv(d) && d' == d.(approvals := d'.approvals) && UniqueApprovals(d')
    requires forall a :: a in d'.approvals ==> ApprovalBacked(d, a)
    ensures DocInv(d')
  {
    forall l | l in d'.leases ensures LeaseBacked(d', l) { assert LeaseBacked(d, l); }
    forall a | a in d'.approvals ensures ApprovalBacked(d', a) { assert ApprovalBacked(d, a); }
  }

  lemma CreateLeaseKeepsInv(d: Document, agentId: Id, project: string, ops: seq<Op>, ttl: nat, id: Id, digest: CredDigest, now: int)
    requires DocInv(d) && CreateLease(d, agentId, project, ops, ttl, id, digest, now).Ok?
    requires FreshFor(d, LeaseCreate(agentId, project, ops, ttl, id, digest))
    ensures DocInv(CreateLease(d, agentId, project, ops, ttl, id, digest, now).value)
  {
    PurgeKeepsInv(d, now);
    var d1 := if |d.leases| >= MAX_LEASES then Purged(d, now) else d;
    var d' := CreateLease(d, agentId, project, ops, ttl, id, digest, now).value;
    assert forall k :: 0 <= k < |d1.leases| ==> d1.leases[k] in d.leases;
    assert LeaseBacked(d1, d'.leases[|d1.leases|]);
    LeaseEditKeepsInv(d1, d');
  }

  lemma DropLeaseKeepsInv(d: Document, owner: Option<Id>, leaseId: Id, now: int)
    requires DocInv(d) && DropLease(d, owner, leaseId, now).Ok?
    ensures DocInv(DropLease(d, owner, leaseId, now).value)
  {
    var d' := DropLease(d, owner, leaseId, now).value;
    forall l | l in d'.leases ensures LeaseBacked(d, l) {
      var k :| 0 <= k < |d'.leases| && d'.leases[k] == l;
      assert LeaseBacked(d, d.leases[k]);
    }
    LeaseEditKeepsInv(d, d');
  }

  lemma RequestKeepsInv(d: Document, agentId: Id, project: string, key: string, id: Id, now: int)
    requires DocInv(d) && RequestApproval(d, agentId, project, key, id, now).Ok?
    requires FreshFor(d, ApprovalRequest(agentId, project, key, id))
    ensures DocInv(RequestApproval(d, agentId, project, key, id, now).value)
  {
    PurgeKeepsInv(d, now);
    var d1 := if |d.approvals| >= MAX_APPROVALS then Purged(d, now) else d;
    var d' := RequestApproval(d, agentId, project, key, id, now).value;
    assert forall k :: 0 <= k < |d1.approvals| ==> d1.approvals[k] in d.approvals;
    assert ApprovalBacked(d1, d'.approvals[|d1.approvals|]);
    ApprovalEditKeepsInv(d1, d');
  }

  /** One row replaced by one that is backed and bears its id. */
  lemma RowEditKeepsInv(d: Document, i: nat, row: Approval)
    requires DocInv(d) && i < |d.approvals| && row.id == d.approvals[i].id && ApprovalBacked(d, row)
    ensures DocInv(d.(approvals := d.approvals[i := row]))
  {
    var d' := d.(approvals := d.approvals[i := row]);
    forall a | a in d'.approvals ensures ApprovalBacked(d, a) {
      var k :| 0 <= k < |d'.approvals| && d'.approvals[k] == a;
    }
    hide ApprovalBacked;
    hide LeaseBacked;
    ApprovalEditKeepsInv(d, d');
  }

  lemma DecideAndClaimKeepInv(d: Document, c: Call, now: int)
    requires DocInv(d) && (c.ApprovalDecide? || c.RevealClaim?) && Propose(d, c, now).Ok?
    ensures DocInv(Propose(d, c, now).value)
  {
    var d' := Propose(d, c, now).value;
    var i := Position(d.approvals, (a: Approval) => a.id == c.approvalId);
    assert d.approvals[i] in d.approvals && ApprovalBacked(d, d.approvals[i]);
    assert ApprovalBacked(d, d'.approvals[i]) && d' == d.(approvals := d.approvals[i := d'.approvals[i]]);
    hide DocInv;
    hide ApprovalBacked;
    hide Propose;
    RowEditKeepsInv(d, i, d'.approvals[i]);
  }

  lemma ContentEditsKeepInv(d: Document, c: Call, now: int)
    requires DocInv(d) && Propose(d, c, now).Ok?
    requires c.ProjectAdd? || c.ProjectRemove? || c.SecretSet? || c.SecretDelete? || c.AgentAdd?
    ensures DocInv(Propose(d, c, now).value)
  {
    hide DocInv;
    UntouchedRowsStayBacked(d, Propose(d, c, now).value);
  }

  lemma ProposeKeepsHead(d: Document, c: Call, now: int)
    requires Propose(d, c, now).Ok?
    ensures Propose(d, c, now).value.head == d.head
  {
  }

  /** Every edit any operation proposes keeps the invariant: the eager sweeps leave nothing uncovered. */
  lemma ProposeKeepsInv(d: Document, c: Call, now: int)
    requires DocInv(d) && FreshFor(d, c) && Propose(d, c, now).Ok?
    ensures DocInv(Propose(d, c, now).value)
    ensures Propose(d, c, now).value.head == d.head
  {
    hide DocInv;
    hide FreshFor;
    match c
    case AgentRevoke(name) => RevokeAgentKeepsInv(d, name, now);
    case GrantAdd(agent, project, ops) => AddGrantKeepsInv(d, agent, project, ops, now);
    case GrantRevoke(agent, project) => RevokeGrantKeepsInv(d, agent, project, now);
    case LeaseCreate(agentId, project, ops, ttl, id, digest) =>
      CreateLeaseKeepsInv(d, agentId, project, ops, ttl, id, digest, now);
    case LeaseRevoke(owner, leaseId) => DropLeaseKeepsInv(d, owner, leaseId, now);
    case ApprovalRequest(agentId, project, key, id) => RequestKeepsInv(d, agentId, project, key, id, now);
    case ApprovalDecide(_, _, _) => DecideAndClaimKeepInv(d, c, now);
    case RevealClaim(_, _, _, _) => DecideAndClaimKeepInv(d, c, now);
    case _ => ContentEditsKeepInv(d, c, now);
    ProposeKeepsHead(d, c, now);
    hide Propose;
  }

  lemma LockKeepsInv(d: Document, now: int)
    requires DocInv(d)
    ensures DocInv(LockedDown(d, now))
  {
    var d' := LockedDown(d, now);
    forall a' | a' in d'.approvals ensures ApprovalBacked(d', a') {
      var k :| 0 <= k < |d'.approvals| && d'.approvals[k] == a';
      assert ApprovalBacked(d, d.approvals[k]);
    }
    forall l' | l' in d'.leases ensures LeaseBacked(d', l') {
      var k :| 0 <= k < |d'.leases| && d'.leases[k] == l';
    }
  }
}
