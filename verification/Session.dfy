/** The session object: the operations as they update its fields, each proved to be the step of the abstract
    vault that the theorems are about. */
module SessionObject {
  import opened Prelude
  import opened Audit
  import opened Model
  import opened Capability
  import opened Authority
  import opened Commit
  import opened Lifetime
  import opened HumanSessions
  import opened Paging

  type Digests = map<CredDigest, Id>

  /** Digest → id of active agents; a later record wins. */
  function DigestsOf(agents: seq<Agent>): Digests {
    if agents == [] then map[]
    else
      var last := agents[|agents| - 1];
      var before := DigestsOf(agents[..|agents| - 1]);
      if last.active then before[last.token := last.id] else before
  }

  /** Digests follow the decrypted document and are retained while there is none. */
  function Refresh(before: Digests, doc: Option<Document>): Digests {
    if doc.Some? then DigestsOf(doc.value.agents) else before
  }

  lemma {:induction false} DigestsAreActiveAgents(agents: seq<Agent>, d: CredDigest)
    ensures d in DigestsOf(agents) <==> exists a :: a in agents && a.active && a.token == d
    ensures d in DigestsOf(agents) ==> exists a :: a in agents && a.active && a.token == d && a.id == DigestsOf(agents)[d]
  {
    if agents == [] {
    } else {
      var last := agents[|agents| - 1];
      var before := agents[..|agents| - 1];
      DigestsAreActiveAgents(before, d);
      assert agents == before + [last];
      forall a | a in agents ensures a in before || a == last {}
    }
  }

  // ----- the sweeps, in place -------------------------------------------------------

  method SweepAgentLeases(d: Document, agentId: Id, now: int) returns (d': Document)
    ensures d' == RevokeAgentLeases(d, agentId, now)
  {
    d' := d;
    for i := 0 to |d.leases|
      invariant d' == d.(leases := d'.leases) && |d'.leases| == |d.leases|
      invariant forall k :: i <= k < |d.leases| ==> d'.leases[k] == d.leases[k]
      invariant forall k :: 0 <= k < i ==>
        d'.leases[k] == if d.leases[k].agentId == agentId then RevokeLease(d.leases[k], now) else d.leases[k]
    {
      var lease := d'.leases[i];
      if lease.agentId == agentId && lease.revokedAt.None? {
        d' := d'.(leases := d'.leases[i := lease.(revokedAt := Some(now))]);
      }
    }
    assert d'.leases == RevokeAgentLeases(d, agentId, now).leases;
  }

  method SweepAgentApprovals(d: Document, agentId: Id) returns (d': Document)
    ensures d' == DenyAgentApprovals(d, agentId)
  {
    d' := d;
    for i := 0 to |d.approvals|
      invariant d' == d.(approvals := d'.approvals) && |d'.approvals| == |d.approvals|
      invariant forall k :: i <= k < |d.approvals| ==> d'.approvals[k] == d.approvals[k]
      invariant forall k :: 0 <= k < i ==>
        d'.approvals[k] == if d.approvals[k].agentId == agentId then Deny(d.approvals[k]) else d.approvals[k]
    {
      var approval := d'.approvals[i];
      if approval.agentId == agentId && (approval.status == Pending || approval.status == Approved) {
        d' := d'.(approvals := d'.approvals[i := approval.(status := Denied)]);
      }
    }
    assert d'.approvals == DenyAgentApprovals(d, agentId).approvals;
  }

  method SweepUncoveredLeases(d: Document, agentId: Id, projectId: Id, now: int) returns (d': Document)
    ensures d' == RevokeUncoveredLeases(d, agentId, projectId, now)
  {
    var grantOps := GrantOps(d, agentId, projectId);
    d' := d;
    for i := 0 to |d.leases|
      invariant d' == d.(leases := d'.leases) && |d'.leases| == |d.leases|
      invariant forall k :: i <= k < |d.leases| ==> d'.leases[k] == d.leases[k]
      invariant forall k :: 0 <= k < i ==>
        d'.leases[k] == if Uncovered(d.leases[k], agentId, projectId, grantOps) then RevokeLease(d.leases[k], now) else d.leases[k]
    {
      var lease := d'.leases[i];
      if lease.agentId == agentId && lease.projectId == projectId && lease.revokedAt.None? && !Subset(lease.ops, grantOps) {
        d' := d'.(leases := d'.leases[i := lease.(revokedAt := Some(now))]);
      }
    }
    assert d'.leases == RevokeUncoveredLeases(d, agentId, projectId, now).leases;
  }

  method SweepPairApprovals(d: Document, agentId: Id, projectId: Id) returns (d': Document)
    ensures d' == DenyPairIfRevealLost(d, agentId, projectId)
  {
    if Authorized(d, agentId, projectId, Reveal) { return d; }
    d' := d;
    for i := 0 to |d.approvals|
      invariant d' == d.(approvals := d'.approvals) && |d'.approvals| == |d.approvals|
      invariant forall k :: i <= k < |d.approvals| ==> d'.approvals[k] == d.approvals[k]
      invariant forall k :: 0 <= k < i ==>
        d'.approvals[k] == if d.approvals[k].agentId == agentId && d.approvals[k].projectId == projectId
                           then Deny(d.approvals[k]) else d.approvals[k]
    {
      var approval := d'.approvals[i];
      if approval.agentId == agentId && approval.projectId == projectId
         && (approval.status == Pending || approval.status == Approved) {
        d' := d'.(approvals := d'.approvals[i := approval.(status := Denied)]);
      }
    }
    assert d'.approvals == DenyPairIfRevealLost(d, agentId, projectId).approvals;
  }

  /** The two loops of `lock_persist`. */
  method LockDown(d: Document, now: int) returns (d': Document)
    ensures d' == LockedDown(d, now)
  {
    d' := d;
    for i := 0 to |d.leases|
      invariant d' == d.(leases := d'.leases) && |d'.leases| == |d.leases|
      invariant forall k :: i <= k < |d.leases| ==> d'.leases[k] == d.leases[k]
      invariant forall k :: 0 <= k < i ==> d'.leases[k] == RevokeLease(d.leases[k], now)
    {
      if d'.leases[i].revokedAt.None? {
        d' := d'.(leases := d'.leases[i := d'.leases[i].(revokedAt := Some(now))]);
      }
    }
    for i := 0 to |d.approvals|
      invariant d' == d.(leases := d'.leases, approvals := d'.approvals)
      invariant |d'.leases| == |d.leases| && forall k :: 0 <= k < |d.leases| ==> d'.leases[k] == RevokeLease(d.leases[k], now)
      invariant |d'.approvals| == |d.approvals|
      invariant forall k :: i <= k < |d.approvals| ==> d'.approvals[k] == d.approvals[k]
      invariant forall k :: 0 <= k < i ==> d'.approvals[k] == Deny(d.approvals[k])
    {
      if d'.approvals[i].status == Pending || d'.approvals[i].status == Approved {
        d' := d'.(approvals := d'.approvals[i := d'.approvals[i].(status := Denied)]);
      }
    }
    assert d'.leases == LockedDown(d, now).leases && d'.approvals == LockedDown(d, now).approvals;
  }

  /** `retain`, keeping what the predicate keeps. */
  method Retain<T(!new)>(s: seq<T>, p: T -> bool) returns (r: seq<T>)
    ensures r == Filter(s, p)
  {
    r := [];
    for i := 0 to |s|
      invariant r == Filter(s[..i], p)
    {
      assert s[..i + 1] == s[..i] + [s[i]];
      FilterSnoc(s[..i], s[i], p);
      if p(s[i]) { r := r + [s[i]]; }
    }
    assert s[..|s|] == s;
  }

  method PurgeTerminal(d: Document, now: int) returns (d': Document)
    ensures d' == Purged(d, now)
  {
    var leases := Retain(d.leases, LiveLeaseAt(now));
    var approvals := Retain(d.approvals, LiveApprovalAt(now));
    return d.(leases := leases, approvals := approvals);
  }

  // ----- edits, in the source's order of checks ------------------------------------------

  method DoProjectRemove(d: Document, name: string) returns (r: Proposal)
    ensures r == RemoveProject(d, name)
  {
    var idx := Position(d.projects, (p: Project) => p.name == name);
    if idx == |d.projects| { return Err(NotFound); }
    var used := false;
    for i := 0 to |d.secrets|
      invariant used <==> exists k :: 0 <= k < i && d.secrets[k].projectId == d.projects[idx].id
    {
      if d.secrets[i].projectId == d.projects[idx].id { used := true; }
    }
    if used { return Err(InvalidInput); }
    return Ok(d.(projects := RemoveAt(d.projects, idx)));
  }

  method DoAgentRevoke(d: Document, name: string, now: int) returns (r: Proposal)
    ensures r == RevokeAgent(d, name, now)
  {
    var idx := Position(d.agents, (a: Agent) => a.name == name);
    if idx == |d.agents| { return Err(NotFound); }
    var d1 := d.(agents := d.agents[idx := d.agents[idx].(active := false)]);
    var d2 := SweepAgentLeases(d1, d.agents[idx].id, now);
    var d3 := SweepAgentApprovals(d2, d.agents[idx].id);
    return Ok(d3);
  }

  method DoGrantAdd(d: Document, agent: string, project: string, ops: seq<Op>, now: int) returns (r: Proposal)
    ensures r == AddGrant(d, agent, project, ops, now)
  {
    if ops == [] { return Err(InvalidInput); }
    var a := AgentByName(d, agent);
    if a.None? { return Err(NotFound); }
    var p := ProjectByName(d, project);
    if p.None? { return Err(NotFound); }
    var agentId, projectId := a.value.id, p.value.id;
    var d1 := d;
    var idx := Position(d.grants, (g: Grant) => ActiveFor(g, agentId, projectId));
    if idx < |d.grants| {
      d1 := d1.(grants := d1.grants[idx := d1.grants[idx].(ops := ops)]);
    } else {
      d1 := d1.(grants := d1.grants + [Grant(agentId, projectId, ops, now, None)]);
    }
    var d2 := SweepUncoveredLeases(d1, agentId, projectId, now);
    var d3 := SweepPairApprovals(d2, agentId, projectId);
    return Ok(d3);
  }

  method DoGrantRevoke(d: Document, agent: string, project: string, now: int) returns (r: Proposal)
    ensures r == RevokeGrant(d, agent, project, now)
  {
    var a := AgentByName(d, agent);
    if a.None? { return Err(NotFound); }
    var p := ProjectByName(d, project);
    if p.None? { return Err(NotFound); }
    var agentId, projectId := a.value.id, p.value.id;
    var idx := Position(d.grants, (g: Grant) => ActiveFor(g, agentId, projectId));
    if idx == |d.grants| { return Err(NotFound); }
    var d1 := d.(grants := d.grants[idx := d.grants[idx].(revokedAt := Some(now))]);
    var d2 := SweepUncoveredLeases(d1, agentId, projectId, now);
    var d3 := SweepPairApprovals(d2, agentId, projectId);
    return Ok(d3);
  }

  method DoLeaseCreate(d: Document, agentId: Id, project: string, ops: seq<Op>, ttlSecs: nat, id: Id, digest: CredDigest, now: int)
    returns (r: Proposal)
    ensures r == CreateLease(d, agentId, project, ops, ttlSecs, id, digest, now)
  {
    if !(MIN_LEASE_TTL_SECS <= ttlSecs <= MAX_LEASE_TTL_SECS) { return Err(InvalidInput); }
    if ops == [] { return Err(InvalidInput); }
    var p := ProjectByName(d, project);
    if p.None? { return Err(NotFound); }
    if !AgentIsActive(d, agentId) { return Err(NotFound); }
    var g := ActiveGrant(d, agentId, p.value.id);
    if g.None? { return Err(Permission); }
    if !Subset(ops, g.value.ops) { return Err(Permission); }
    var doc := d;
    if |doc.leases| >= MAX_LEASES { doc := PurgeTerminal(doc, now); }
    if |doc.leases| >= MAX_LEASES { return Err(InvalidInput); }
    var lease := Lease(id, agentId, p.value.id, ops, digest, now, now + ttlSecs * SECOND, None);
    return Ok(doc.(leases := doc.leases + [lease]));
  }

  method DoLeaseRevoke(d: Document, owner: Option<Id>, leaseId: Id, now: int) returns (r: Proposal)
    ensures r == DropLease(d, owner, leaseId, now)
  {
    var pos := Position(d.leases, (l: Lease) => l.id == leaseId);
    if pos == |d.leases| { return Err(NotFound); }
    if owner.Some? && d.leases[pos].agentId != owner.value { return Err(Permission); }
    var doc := d;
    if doc.leases[pos].revokedAt.None? {
      doc := doc.(leases := doc.leases[pos := doc.leases[pos].(revokedAt := Some(now))]);
    }
    assert doc.leases == d.leases[pos := RevokeLease(d.leases[pos], now)];
    return Ok(doc);
  }

  method DoApprovalRequest(d: Document, agentId: Id, project: string, key: string, id: Id, now: int) returns (r: Proposal)
    ensures r == RequestApproval(d, agentId, project, key, id, now)
  {
    var p := ProjectByName(d, project);
    if p.None? { return Err(NotFound); }
    if !AgentIsActive(d, agentId) { return Err(Permission); }
    if !Authorized(d, agentId, p.value.id, Reveal) { return Err(Permission); }
    if SecretOf(d, p.value.id, key).None? { return Err(NotFound); }
    var doc := d;
    if |doc.approvals| >= MAX_APPROVALS { doc := PurgeTerminal(doc, now); }
    if |doc.approvals| >= MAX_APPROVALS { return Err(InvalidInput); }
    var approval := Approval(id, agentId, p.value.id, key, Pending, now, now + APPROVAL_PENDING, None, None);
    return Ok(doc.(approvals := doc.approvals + [approval]));
  }

  method DoApprovalDecide(d: Document, actor: string, approvalId: Id, approve: bool, now: int) returns (r: Proposal)
    requires IsHumanIdentity(actor)
    ensures r == DecideApproval(d, actor, approvalId, approve, now)
  {
    var pos := Position(d.approvals, (a: Approval) => a.id == approvalId);
    if pos == |d.approvals| { return Err(NotFound); }
    var row := d.approvals[pos];
    if row.status != Pending {
      return Err(match row.status
                 case Denied => ApprovalDenied
                 case Consumed => ApprovalConsumed
                 case _ => InvalidInput);
    }
    if now >= row.pendingExpiresAt { return Err(ApprovalExpired); }
    if approve {
      row := row.(status := Approved);
      row := row.(approvedAt := Some(now));
      row := row.(claimExpiresAt := Some(now + APPROVAL_CLAIM));
    } else {
      row := row.(status := Denied);
    }
    return Ok(d.(approvals := d.approvals[pos := row]));
  }

  /** The value leaves only together with the edit that consumes its approval. */
  method DoRevealClaim(d: Document, agentId: Id, project: string, key: string, approvalId: Id, now: int)
    returns (r: Proposal, value: Bytes)
    ensures r == ClaimApproval(d, agentId, project, key, approvalId, now)
    ensures r.Ok? ==> ProjectByName(d, project).Some? && SecretOf(d, ProjectByName(d, project).value.id, key).Some?
                      && value == SecretOf(d, ProjectByName(d, project).value.id, key).value.value
  {
    var p := ProjectByName(d, project);
    if p.None? { return Err(NotFound), []; }
    var pos := Position(d.approvals, (a: Approval) => a.id == approvalId);
    if pos == |d.approvals| { return Err(NotFound), []; }
    var row := d.approvals[pos];
    if row.agentId != agentId || row.projectId != p.value.id || row.key != key { return Err(Permission), []; }
    if !Authorized(d, agentId, p.value.id, Reveal) { return Err(Permission), []; }
    match row.status {
      case Denied => return Err(ApprovalDenied), [];
      case Consumed => return Err(ApprovalConsumed), [];
      case Pending => return Err(if now >= row.pendingExpiresAt then ApprovalExpired else ApprovalPending), [];
      case Approved =>
        if row.claimExpiresAt.Some? && now >= row.claimExpiresAt.value { return Err(ApprovalExpired), []; }
    }
    var secret := SecretOf(d, p.value.id, key);
    if secret.None? { return Err(NotFound), []; }
    return Ok(d.(approvals := d.approvals[pos := row.(status := Consumed)])), secret.value.value;
  }

  /** The checks of `authorize_lease`, branch by branch. */
  method Judge(d: Document, agentId: Id, project: string, op: Op, credential: Option<string>, now: int) returns (v: Verdict)
    ensures v == Authorize(d, agentId, project, op, credential, now)
  {
    var p := ProjectByName(d, project);
    if p.None? { return Refused(NotFound); }
    var active := false;
    for i := 0 to |d.agents|
      invariant active <==> exists k :: 0 <= k < i && d.agents[k].id == agentId && d.agents[k].active
    {
      if d.agents[i].id == agentId && d.agents[i].active { active := true; }
    }
    assert active <==> AgentIsActive(d, agentId);
    if !active { return Refused(Permission); }
    if credential.None? {
      return if Authorized(d, agentId, p.value.id, op) then Allowed("agent:" + agentId) else Refused(Permission);
    }
    var digest := TokenDigest(credential.value);
    var found := Find(d.leases, (l: Lease) => l.digest == digest);
    if found.None? { return Refused(LeaseExpired); }
    var lease := found.value;
    if lease.agentId != agentId || lease.projectId != p.value.id { return Refused(LeaseExpired); }
    if lease.revokedAt.Some? || now >= lease.expiresAt { return Refused(LeaseExpired); }
    var g := ActiveGrant(d, agentId, p.value.id);
    if g.None? { return Refused(LeaseExpired); }
    if !Subset(lease.ops, g.value.ops) { return Invalidate(lease.id); }
    if op !in lease.ops { return Refused(Permission); }
    return Allowed("lease:" + lease.id);
  }

  /** `min_by_key` over the registry. */
  method OldestEntry(table: Table) returns (oldest: CredDigest)
    requires table != map[]
    ensures Oldest(table, oldest)
  {
    var rest := table.Keys;
    assert rest != {} by { var d :| d in table; assert d in rest; }
    oldest :| oldest in rest;
    rest := rest - {oldest};
    while rest != {}
      invariant rest <= table.Keys && oldest in table
      invariant forall x :: x in table && x !in rest ==> Precedes(table[oldest], table[x])
      decreases |rest|
    {
      var d :| d in rest;
      rest := rest - {d};
      if !Precedes(table[oldest], table[d]) { oldest := d; }
    }
  }

  // ----- the object ----------------------------------------------------------------

  /** The vault file. Only one session owns it at a time. */
  class Session {
    const audit: AuditLog
    const owner: Key
    var disk: Document
    var envelope: Document
    var doc: Option<Document>
    var keys: Option<Key>
    var agentDigests: Digests
    var sessions: Table

    ghost function View(): World
      reads this, audit, audit.file
    {
      World(audit.file.lines, disk, audit.View(), envelope, doc, keys, owner)
    }

    /** The digest table mirrors the document while there is one. */
    ghost predicate Valid()
      reads this
    {
      doc.Some? ==> agentDigests == DigestsOf(doc.value.agents)
    }

    /** Human sessions untouched, digests following the document. */
    twostate predicate Steady()
      reads this
    {
      sessions == old(sessions) && agentDigests == Refresh(old(agentDigests), doc)
    }

    constructor (audit: AuditLog, owner: Key, stored: Document, doc: Option<Document>, keys: Option<Key>)
      ensures this.audit == audit && this.owner == owner
      ensures View() == World(audit.file.lines, stored, audit.View(), stored, doc, keys, owner)
      ensures sessions == map[] && agentDigests == if doc.Some? then DigestsOf(doc.value.agents) else map[]
    {
      this.audit, this.owner, this.disk, this.envelope := audit, owner, stored, stored;
      this.doc, this.keys, this.sessions, this.agentDigests := doc, keys, map[], map[];
      new;
      RebuildAgentDigests();
    }

    /** `create` on the log file found at the vault's path. */
    static method Create(file: LogFile, owner: Key, limits: Limits, body: Body, blank: Document, fault: AppendFault,
                         saveFails: bool)
      returns (r: Result<Session, VaultError>)
      modifies file
      ensures var (log', made) := Commit.Create(owner, limits, old(file.lines), body, blank, fault, saveFails);
              && file.lines == log'
              && (r.Ok? <==> made.Ok?) && (r.Err? ==> r.error == made.error)
              && (r.Ok? ==> fresh(r.value) && fresh(r.value.audit) && r.value.audit.file == file
                            && r.value.View() == made.value && r.value.sessions == map[]
                            && r.value.agentDigests == DigestsOf(made.value.envelope.agents))
    {
      var walked := Walk(file.lines, None);
      if walked.Err? { return Err(CorruptVault); }
      var audit := new AuditLog(file, limits, walked.value.0, walked.value.1);
      var staged := audit.StageEntry(body, None, Ordinary);
      if staged.Err? { return Err(AuditRefused(staged.error)); }
      var maced := WithMac(staged.value, owner);
      var doc := blank.(head := AuditHead(maced.event.seqNo, maced.hash));
      var appended := audit.AppendEntry(maced, fault);
      if appended.Err? { return Err(AuditRefused(appended.error)); }
      if saveFails { return Err(StorageFailed); }
      var session := new Session(audit, owner, doc, Some(doc), Some(owner));
      return Ok(session);
    }

    /** `load`: a locked session on whatever the file holds; the log's structure is checked, not its MACs. */
    static method Load(file: LogFile, owner: Key, limits: Limits, disk: Document) returns (r: Result<Session, VaultError>)
      ensures var before := World(file.lines, disk, Handle(0, Zero, limits), disk, None, None, owner);
              && (r.Ok? <==> Commit.Load(before).result.Ok?)
              && (r.Ok? ==> fresh(r.value) && fresh(r.value.audit) && r.value.audit.file == file
                            && r.value.View() == Commit.Load(before).world
                            && r.value.sessions == map[] && r.value.agentDigests == map[])
    {
      var walked := Walk(file.lines, None);
      if walked.Err? { return Err(CorruptVault); }
      var audit := new AuditLog(file, limits, walked.value.0, walked.value.1);
      var session := new Session(audit, owner, disk, None, None);
      return Ok(session);
    }

    method RebuildAgentDigests()
      modifies this`agentDigests
      ensures agentDigests == if doc.Some? then DigestsOf(doc.value.agents) else map[]
    {
      agentDigests := map[];
      if doc.Some? {
        var agents := doc.value.agents;
        for i := 0 to |agents|
          invariant agentDigests == DigestsOf(agents[..i])
        {
          assert agents[..i + 1][..i] == agents[..i];
          if agents[i].active { agentDigests := agentDigests[agents[i].token := agents[i].id]; }
        }
        assert agents[..|agents|] == agents;
      }
    }

    /** Append an entry of its own: reads, denials and lifecycle notes. */
    method Record(body: Body, key: Option<Key>, priority: Priority, fault: AppendFault) returns (r: Result<(), VaultError>)
      modifies audit, audit.file
      ensures Outcome(View(), r) == Note(old(View()), body, key, priority, fault)
    {
      var appended := audit.AppendRecord(body, key, priority, fault);
      return if appended.Ok? then Ok(()) else Err(AuditRefused(appended.error));
    }

    method RecordDenial(actor: string, op: string, e: VaultError, env: Env)
      modifies audit, audit.file
      ensures View() == DenialNoted(old(View()), DeniedBody(actor, op, e, env), env.denial)
    {
      var _ := Record(DeniedBody(actor, op, e, env), keys, Ordinary, env.denial);
    }

    /** `commit_with`: append, point the document at the entry, reseal, check, save, adopt. */
    method CommitWith(edited: Document, body: Body, priority: Priority, io: CommitIo) returns (r: Result<(), VaultError>)
      modifies this`envelope, this`disk, this`doc, this`agentDigests, audit, audit.file
      ensures Outcome(View(), r) == Commit.CommitWith(old(View()), edited, body, priority, io)
      ensures r.Ok? ==> doc.Some? && agentDigests == DigestsOf(doc.value.agents)
      ensures r.Err? ==> agentDigests == old(agentDigests) && doc == old(doc)
    {
      if keys.None? { return Err(Locked); }
      var next := edited;
      var staged := audit.StageEntry(body, keys, priority);
      if staged.Ok? {
        var appended := audit.AppendEntry(staged.value, io.append);
        if appended.Ok? {
          next := next.(head := AuditHead(staged.value.event.seqNo, staged.value.hash));
        } else if priority == Ordinary {
          return Err(AuditRefused(AuditWrite));
        }
      } else if priority == Ordinary {
        return Err(AuditRefused(staged.error));
      }
      if io.sealFails { return Err(StorageFailed); }
      envelope := next;
      if io.tooLarge { return Err(VaultTooLarge); }
      if io.saveFails { return Err(StorageFailed); }
      disk := next;
      doc := Some(next);
      RebuildAgentDigests();
      return Ok(());
    }

    /** `lock`: drop key material, the document and the human sessions; agents still authenticate. */
    method Lock()
      modifies this`keys, this`doc, this`sessions
      ensures View() == Dropped(old(View())) && sessions == map[]
    {
      keys, doc, sessions := None, None, map[];
    }

    /** `lock_persist`: on every path, failed commits included, ends with no key, no document and no human session. */
    method LockPersist(env: Env)
      requires Valid()
      modifies this, audit, audit.file
      ensures Valid() && agentDigests == old(agentDigests)
      ensures View() == Commit.LockPersist(old(View()), LockBody(env), env.now, env.io)
      ensures keys.None? && doc.None? && sessions == map[]
    {
      if keys.None? || doc.None? { Lock(); return; }
      var locked := LockDown(doc.value, env.now);
      var _ := CommitWith(locked, LockBody(env), Lifecycle, env.io);
      Lock();
    }

    /** `unlock_with_proof`; `right` says whether the derived keys open a slot. */
    method UnlockWithProof(right: bool, env: Env) returns (r: Result<(), VaultError>)
      requires Valid()
      modifies this, audit, audit.file
      ensures Outcome(View(), r) == UnlockStep(old(View()), right, env)
      ensures Steady()
    {
      r := DoUnlock(right);
      if r.Ok? {
        var _ := Record(AllowedBody("human", "vault.unlocked", env), keys, Lifecycle, env.denial);
      } else if r.error == AuthFailed {
        var _ := Record(DeniedBody("human", "vault.unlock", AuthFailed, env), None, Lifecycle, env.denial);
      }
    }

    method DoUnlock(right: bool) returns (r: Result<(), VaultError>)
      modifies this`keys, this`doc, this`agentDigests
      ensures Outcome(View(), r) == Commit.DoUnlock(old(View()), right)
      ensures r.Ok? ==> doc.Some? && agentDigests == DigestsOf(doc.value.agents)
      ensures r.Err? ==> agentDigests == old(agentDigests)
    {
      if !right { return Err(AuthFailed); }
      var verified := Walk(audit.file.lines, Some(owner));
      if verified.Err? { return Err(CorruptVault); }
      var coherent := CheckCheckpoint(audit.file.lines, envelope.head.seqNo, envelope.head.hash);
      if coherent.Err? { return Err(CorruptVault); }
      keys, doc := Some(owner), Some(envelope);
      RebuildAgentDigests();
      return Ok(());
    }

    /** `gate`: refuse while locked; the refusal itself fails when it cannot be recorded. */
    method Gate(actor: string, op: string, env: Env) returns (r: Result<(), VaultError>)
      modifies audit, audit.file
      ensures keys.Some? ==> r.Ok? && View() == old(View())
      ensures keys.None? ==>
                var noted := Note(old(View()), DeniedBody(actor, op, VaultError.Locked, env), None, Ordinary, env.denial);
                View() == noted.world && r == if noted.result.Err? then noted.result else Err(VaultError.Locked)
    {
      if keys.None? {
        var noted := Record(DeniedBody(actor, op, VaultError.Locked, env), None, Ordinary, env.denial);
        return if noted.Err? then noted else Err(VaultError.Locked);
      }
      return Ok(());
    }

    /** Refuse while locked, recording the refusal best effort. */
    method Guard(actor: string, op: string, env: Env) returns (open: bool)
      modifies audit, audit.file
      ensures open <==> keys.Some?
      ensures open ==> View() == old(View())
      ensures !open ==> View() == Note(old(View()), DeniedBody(actor, op, VaultError.Locked, env), None, Ordinary, env.denial).world
    {
      if keys.None? {
        var _ := Record(DeniedBody(actor, op, VaultError.Locked, env), None, Ordinary, env.denial);
        return false;
      }
      return true;
    }

    /** Commit what an operation proposed, or record its refusal. */
    method Settle(actor: string, c: Call, proposal: Proposal, env: Env) returns (r: Result<(), VaultError>)
      requires keys.Some? && doc.Some?
      requires Valid()
      modifies this, audit, audit.file
      ensures Steady()
      ensures Outcome(View(), r)
           == if proposal.Err? then
                Outcome(DenialNoted(old(View()), DeniedBody(actor, DeniedName(c), proposal.error, env), env.denial), Err(proposal.error))
              else
                Commit.CommitWith(old(View()), proposal.value, AllowedBody(actor, OpName(c), env),
                                  PriorityOf(old(doc).value, c), env.io)
    {
      if proposal.Err? {
        RecordDenial(actor, DeniedName(c), proposal.error, env);
        return Err(proposal.error);
      }
      r := CommitWith(proposal.value, AllowedBody(actor, OpName(c), env), PriorityOf(doc.value, c), env.io);
    }

    // ----- projects, secrets, agents -------------------------------------------

    method ProjectAdd(actor: string, name: string, id: Id, env: Env) returns (r: Result<(), VaultError>)
      requires Valid()
      modifies this, audit, audit.file
      ensures Steady()
      ensures Outcome(View(), r) == Perform(old(View()), actor, Call.ProjectAdd(name, id), env)
    {
      hide AddProject;
      r := Gate(actor, "project.add", env);
      if r.Err? { return; }
      if doc.None? { return Err(VaultError.Locked); }
      r := Settle(actor, Call.ProjectAdd(name, id), AddProject(doc.value, name, id), env);
    }

    method ProjectRemove(actor: string, name: string, env: Env) returns (r: Result<(), VaultError>)
      requires Valid()
      modifies this, audit, audit.file
      ensures Steady()
      ensures Outcome(View(), r) == Perform(old(View()), actor, Call.ProjectRemove(name), env)
    {
      hide RemoveProject;
      r := Gate(actor, "project.remove", env);
      if r.Err? { return; }
      if doc.None? { return Err(VaultError.Locked); }
      var proposal := DoProjectRemove(doc.value, name);
      r := Settle(actor, Call.ProjectRemove(name), proposal, env);
    }

    method SecretSet(actor: string, project: string, key: string, value: Bytes, env: Env) returns (r: Result<(), VaultError>)
      requires Valid()
      modifies this, audit, audit.file
      ensures Steady()
      ensures Outcome(View(), r) == Perform(old(View()), actor, Call.SecretSet(project, key, value), env)
    {
      hide SetSecret;
      r := Gate(actor, "secret.set", env);
      if r.Err? { return; }
      if doc.None? { return Err(VaultError.Locked); }
      r := Settle(actor, Call.SecretSet(project, key, value), SetSecret(doc.value, project, key, value), env);
    }

    method SecretDelete(actor: string, project: string, key: string, env: Env) returns (r: Result<(), VaultError>)
      requires Valid()
      modifies this, audit, audit.file
      ensures Steady()
      ensures Outcome(View(), r) == Perform(old(View()), actor, Call.SecretDelete(project, key), env)
    {
      hide DeleteSecret;
      r := Gate(actor, "secret.delete", env);
      if r.Err? { return; }
      if doc.None? { return Err(VaultError.Locked); }
      r := Settle(actor, Call.SecretDelete(project, key), DeleteSecret(doc.value, project, key), env);
    }

    method AgentAdd(actor: string, name: string, id: Id, token: CredDigest, env: Env) returns (r: Result<(), VaultError>)
      requires Valid()
      modifies this, audit, audit.file
      ensures Steady()
      ensures Outcome(View(), r) == Perform(old(View()), actor, Call.AgentAdd(name, id, token), env)
    {
      hide AddAgent;
      r := Gate(actor, "agents.add", env);
      if r.Err? { return; }
      if doc.None? { return Err(VaultError.Locked); }
      r := Settle(actor, Call.AgentAdd(name, id, token), AddAgent(doc.value, name, id, token), env);
    }

    method AgentRevoke(actor: string, name: string, env: Env) returns (r: Result<(), VaultError>)
      requires Valid()
      modifies this, audit, audit.file
      ensures Steady()
      ensures Outcome(View(), r) == Perform(old(View()), actor, Call.AgentRevoke(name), env)
    {
      hide RevokeAgent;
      r := Gate(actor, "agents.revoke", env);
      if r.Err? { return; }
      if doc.None? { return Err(VaultError.Locked); }
      var proposal := DoAgentRevoke(doc.value, name, env.now);
      r := Settle(actor, Call.AgentRevoke(name), proposal, env);
    }

    /** `resolve_agent`: works while locked, and knows the agents that were active in the last adopted document. */
    method ResolveAgent(token: string) returns (r: Option<Id>)
      ensures r.Some? <==> TokenDigest(token) in agentDigests
      ensures r.Some? ==> r.value == agentDigests[TokenDigest(token)]
    {
      if TokenDigest(token) in agentDigests { return Some(agentDigests[TokenDigest(token)]); }
      return None;
    }

    // ----- grants -------------------------------------------------------------------

    method GrantAdd(actor: string, agent: string, project: string, ops: seq<Op>, env: Env) returns (r: Result<(), VaultError>)
      requires Valid()
      modifies this, audit, audit.file
      ensures Steady()
      ensures Outcome(View(), r) == Perform(old(View()), actor, Call.GrantAdd(agent, project, ops), env)
    {
      hide AddGrant;
      r := Gate(actor, "grants.grant", env);
      if r.Err? { return; }
      if doc.None? { return Err(VaultError.Locked); }
      var proposal := DoGrantAdd(doc.value, agent, project, ops, env.now);
      r := Settle(actor, Call.GrantAdd(agent, project, ops), proposal, env);
    }

    method GrantRevoke(actor: string, agent: string, project: string, env: Env) returns (r: Result<(), VaultError>)
      requires Valid()
      modifies this, audit, audit.file
      ensures Steady()
      ensures Outcome(View(), r) == Perform(old(View()), actor, Call.GrantRevoke(agent, project), env)
    {
      hide RevokeGrant;
      r := Gate(actor, "grants.revoke", env);
      if r.Err? { return; }
      if doc.None? { return Err(VaultError.Locked); }
      var proposal := DoGrantRevoke(doc.value, agent, project, env.now);
      r := Settle(actor, Call.GrantRevoke(agent, project), proposal, env);
    }

    // ----- leases --------------------------------------------------------------------

    method LeaseCreate(actor: string, agentId: Id, project: string, ops: seq<Op>, ttlSecs: nat, id: Id, digest: CredDigest, env: Env)
      returns (r: Result<(), VaultError>)
      requires Valid()
      modifies this, audit, audit.file
      ensures Steady()
      ensures Outcome(View(), r) == Perform(old(View()), actor, Call.LeaseCreate(agentId, project, ops, ttlSecs, id, digest), env)
    {
      hide CreateLease;
      var open := Guard(actor, "lease.create", env);
      if !open { return Err(VaultError.Locked); }
      if doc.None? { return Err(VaultError.Locked); }
      var proposal := DoLeaseCreate(doc.value, agentId, project, ops, ttlSecs, id, digest, env.now);
      r := Settle(actor, Call.LeaseCreate(agentId, project, ops, ttlSecs, id, digest), proposal, env);
    }

    method LeaseRevoke(actor: string, agentId: Option<Id>, leaseId: Id, env: Env) returns (r: Result<(), VaultError>)
      requires Valid()
      modifies this, audit, audit.file
      ensures Steady()
      ensures Outcome(View(), r) == Perform(old(View()), actor, Call.LeaseRevoke(agentId, leaseId), env)
    {
      hide DropLease;
      var open := Guard(actor, "lease.revoke", env);
      if !open { return Err(VaultError.Locked); }
      if doc.None? { return Err(VaultError.Locked); }
      var proposal := DoLeaseRevoke(doc.value, agentId, leaseId, env.now);
      r := Settle(actor, Call.LeaseRevoke(agentId, leaseId), proposal, env);
    }

    /** `authorize_lease`: act on what the document says. */
    method AuthorizeLease(agentId: Id, project: string, op: Op, credential: Option<string>, env: Env)
      returns (r: Result<string, VaultError>)
      requires Valid()
      modifies this, audit, audit.file
      ensures Steady()
      ensures (View(), r) == AuthorizeStep(old(View()), agentId, project, op, credential, env)
    {
      hide Authorize;
      hide Note;
      hide Invalidated;
      hide Commit.CommitWith;
      var actor := "agent:" + agentId;
      if keys.None? { RecordDenial(actor, "authorize", VaultError.Locked, env); return Err(VaultError.Locked); }
      if doc.None? { return Err(VaultError.Locked); }
      var verdict := Judge(doc.value, agentId, project, op, credential, env.now);
      match verdict
      case Allowed(as_) =>
        var _ := Record(AllowedBody(as_, "authorize", env), keys, Ordinary, env.denial);
        return Ok(as_);
      case Refused(e) =>
        RecordDenial(actor, "authorize", e, env);
        return Err(e);
      case Invalidate(leaseId) =>
        var swept := Invalidated(doc.value, leaseId, env.now);
        var _ := CommitWith(swept, AllowedBody(actor, "lease.invalidate", env), Ordinary, env.io);
        RecordDenial(actor, "authorize", LeaseExpired, env);
        return Err(LeaseExpired);
    }

    // ----- approvals -------------------------------------------------------------------

    method ApprovalRequest(actor: string, agentId: Id, project: string, key: string, id: Id, env: Env)
      returns (r: Result<(), VaultError>)
      requires Valid()
      modifies this, audit, audit.file
      ensures Steady()
      ensures Outcome(View(), r) == Perform(old(View()), actor, Call.ApprovalRequest(agentId, project, key, id), env)
    {
      hide RequestApproval;
      var open := Guard(actor, "approval.request", env);
      if !open { return Err(VaultError.Locked); }
      if doc.None? { return Err(VaultError.Locked); }
      var proposal := DoApprovalRequest(doc.value, agentId, project, key, id, env.now);
      r := Settle(actor, Call.ApprovalRequest(agentId, project, key, id), proposal, env);
    }

    method ApprovalDecide(actor: string, approvalId: Id, approve: bool, env: Env) returns (r: Result<(), VaultError>)
      requires Valid()
      modifies this, audit, audit.file
      ensures Steady()
      ensures Outcome(View(), r) == Perform(old(View()), actor, Call.ApprovalDecide(actor, approvalId, approve), env)
    {
      if !IsHumanIdentity(actor) { RecordDenial(actor, "approval.decide", HumanRequired, env); return Err(HumanRequired); }
      var open := Guard(actor, "approval.decide", env);
      if !open { return Err(VaultError.Locked); }
      if doc.None? { return Err(VaultError.Locked); }
      var proposal := DoApprovalDecide(doc.value, actor, approvalId, approve, env.now);
      r := Settle(actor, Call.ApprovalDecide(actor, approvalId, approve), proposal, env);
    }

    /** `reveal_claim`: the value leaves only together with the commit that consumes its approval. */
    method RevealClaim(actor: string, agentId: Id, project: string, key: string, approvalId: Id, env: Env)
      returns (r: Result<Bytes, VaultError>)
      requires Valid()
      modifies this, audit, audit.file
      ensures Steady()
      ensures Outcome(View(), if r.Ok? then Ok(()) else Err(r.error))
           == Perform(old(View()), actor, Call.RevealClaim(agentId, project, key, approvalId), env)
      ensures r.Ok? ==> old(doc).Some? && ProjectByName(old(doc).value, project).Some?
                        && SecretOf(old(doc).value, ProjectByName(old(doc).value, project).value.id, key).Some?
                        && r.value == SecretOf(old(doc).value, ProjectByName(old(doc).value, project).value.id, key).value.value
    {
      hide ClaimApproval;
      var open := Guard(actor, "reveal", env);
      if !open { return Err(VaultError.Locked); }
      if doc.None? { return Err(VaultError.Locked); }
      var proposal, value := DoRevealClaim(doc.value, agentId, project, key, approvalId, env.now);
      var settled := Settle(actor, Call.RevealClaim(agentId, project, key, approvalId), proposal, env);
      return if settled.Ok? then Ok(value) else Err(settled.error);
    }

    /** `gc_terminal_credentials`: in memory only. */
    method CollectTerminal(env: Env)
      modifies this`doc
      ensures View() == if old(doc).None? then old(View())
                        else old(View()).(doc := Some(Purged(old(doc).value, env.now)))
    {
      if doc.Some? {
        var purged := PurgeTerminal(doc.value, env.now);
        doc := Some(purged);
      }
    }

    // ----- human sessions ---------------------------------------------------------------

    /** `sweep_lapsed_sessions`, on an unlocked session. */
    method SweepLapsedSessions(tick: int)
      modifies this`sessions
      ensures sessions == SweptTable(old(sessions), tick)
    {
      var rest, before := sessions.Keys, sessions;
      while rest != {}
        invariant rest <= before.Keys
        invariant forall d :: d in rest ==> d in sessions
        invariant forall d :: d in sessions ==> d in before && sessions[d] == before[d]
        invariant forall d :: d in before && d !in rest ==> (d in sessions <==> !Lapsed(before[d], tick))
        decreases |rest|
      {
        var d :| d in rest;
        rest := rest - {d};
        if Lapsed(sessions[d], tick) { sessions := sessions - {d}; }
      }
      assert sessions == SweptTable(before, tick);
    }

    /** `session_open`. */
    method SessionOpen(actor: string, ttlSecs: nat, digest: CredDigest, prefix: string, tick: int, env: Env)
      returns (r: Result<(), VaultError>, ghost victim: CredDigest)
      modifies this`sessions, audit, audit.file
      ensures (View(), sessions, r)
           == Opened(old(View()), old(sessions), actor, Minting(ttlSecs, digest, prefix, victim, tick), env)
      ensures |SweptTable(old(sessions), tick)| >= MAX_SESSIONS ==> Oldest(SweptTable(old(sessions), tick), victim)
    {
      ghost var swept := SweptTable(sessions, tick);
      victim := digest;
      if |swept| >= MAX_SESSIONS { victim := SomeOldest(swept); }
      if keys.None? || doc.None? {
        RecordDenial(actor, "session.open", VaultError.Locked, env);
        return Err(VaultError.Locked), victim;
      }
      if !(1 <= ttlSecs <= SESSION_MAX_TTL_SECS) {
        RecordDenial(actor, "session.open", InvalidInput, env);
        return Err(InvalidInput), victim;
      }
      SweepLapsedSessions(tick);
      if |sessions| >= MAX_SESSIONS {
        var oldest := OldestEntry(sessions);
        victim := oldest;
        sessions := sessions - {oldest};
      }
      var staged := audit.StageEntry(AllowedBody(actor, "session.open", env), keys, Ordinary);
      if staged.Err? { return Err(AuditRefused(staged.error)), victim; }
      sessions := sessions[digest := HumanSession(prefix, tick, tick, ttlSecs)];
      var appended := audit.AppendEntry(staged.value, env.denial);
      if appended.Err? {
        sessions := sessions - {digest};
        return Err(AuditRefused(AuditWrite)), victim;
      }
      return Ok(()), victim;
    }

    /** `validate_session`: drops a lapsed entry, slides nothing. */
    method ValidateSession(digest: CredDigest, tick: int) returns (prefix: Option<string>)
      modifies this`sessions
      ensures (sessions, prefix) == Validated(keys.None?, old(sessions), digest, tick)
    {
      if digest !in sessions { return None; }
      var live := sessions[digest];
      if keys.None? || Lapsed(live, tick) {
        sessions := sessions - {digest};
        return None;
      }
      return Some(live.prefix);
    }

    method AuthorizeSession(digest: CredDigest, tick: int, env: Env) returns (r: Result<string, VaultError>)
      modifies this`sessions, audit, audit.file
      ensures (View(), sessions, r) == Authenticated(old(View()), old(sessions), digest, tick, env)
    {
      var prefix := ValidateSession(digest, tick);
      if prefix.None? {
        RecordDenial("unauthenticated", "session.use", SessionExpired, env);
        return Err(SessionExpired);
      }
      return Ok(SessionActor(prefix.value));
    }

    method SlideSession(digest: CredDigest, tick: int)
      modifies this`sessions
      ensures sessions == SlidTo(old(sessions), digest, tick)
    {
      if digest in sessions { sessions := sessions[digest := sessions[digest].(lastUsed := tick)]; }
    }

    method SessionTouch(digest: CredDigest, tick: int, again: int, env: Env) returns (r: Result<string, VaultError>)
      modifies this`sessions, audit, audit.file
      ensures (View(), sessions, r) == Touched(old(View()), old(sessions), digest, tick, again, env)
    {
      var prefix := ValidateSession(digest, tick);
      if prefix.None? {
        RecordDenial("unauthenticated", "session.touch", SessionExpired, env);
        return Err(SessionExpired);
      }
      var actor := SessionActor(prefix.value);
      var staged := audit.StageEntry(AllowedBody(actor, "session.touch", env), keys, Ordinary);
      if staged.Err? {
        RecordDenial(actor, "session.touch", AuditRefused(staged.error), env);
        return Err(AuditRefused(staged.error));
      }
      SlideSession(digest, again);
      var _ := Record(AllowedBody(actor, "session.touch", env), keys, Ordinary, env.denial);
      return Ok(actor);
    }

    method SessionClose(digest: CredDigest, tick: int, env: Env) returns (r: Result<string, VaultError>)
      modifies this`sessions, audit, audit.file
      ensures (View(), sessions, r) == Closed(old(View()), old(sessions), digest, tick, env)
    {
      var prefix := ValidateSession(digest, tick);
      if prefix.None? {
        RecordDenial("unauthenticated", "session.close", SessionExpired, env);
        return Err(SessionExpired);
      }
      var actor := SessionActor(prefix.value);
      sessions := sessions - {digest};
      var _ := Record(AllowedBody(actor, "session.close", env), keys, Lifecycle, env.denial);
      return Ok(actor);
    }

    // ----- audit pages ------------------------------------------------------------------

    /** `audit_show_page`: the page is taken before the read's own entry is appended. */
    method AuditShowPage(actor: string, tail: nat, before: Option<nat>, env: Env) returns (r: Result<Page, VaultError>)
      modifies audit, audit.file
      ensures !Parses(old(audit.file.lines)) ==> r == Err(CorruptVault) && View() == old(View())
      ensures Parses(old(audit.file.lines)) ==>
                var noted := Note(old(View()), AllowedBody(actor, "audit.show", env), keys, Ordinary, env.denial);
                View() == noted.world
                && r == if noted.result.Ok? then Ok(ShowPage(old(audit.file.lines), tail, before)) else Err(noted.result.error)
    {
      var lines := audit.file.lines;
      for i := 0 to |lines|
        invariant forall k :: 0 <= k < i ==> lines[k].Entry?
      {
        if lines[i].Junk? { return Err(CorruptVault); }
      }
      var page := ShowPage(lines, tail, before);
      var noted := Record(AllowedBody(actor, "audit.show", env), keys, Ordinary, env.denial);
      return if noted.Ok? then Ok(page) else Err(noted.error);
    }
  }
}
