/** Authorization decisions, the authority a document confers, and the operations that can only shrink it. */
module Authority {
  import opened Prelude
  import opened Audit
  import opened Model
  import opened Capability

  // ----- authorize_lease -------------------------------------------------------

  datatype Verdict = Allowed(actor: string) | Refused(error: VaultError) | Invalidate(leaseId: Id)

  /** `authorize_lease` on an unlocked document: grant ∩ lease ∩ TTL. `Invalidate` is the fallback branch that
      persists a revocation the eager sweeps should already have made, and then refuses. */
  function Authorize(d: Document, agentId: Id, project: string, op: Op, credential: Option<string>, now: int): Verdict {
    var p := ProjectByName(d, project);
    if p.None? then Refused(NotFound)
    else if !AgentIsActive(d, agentId) then Refused(Permission)
    else if credential.None? then
      if Authorized(d, agentId, p.value.id, op) then Allowed("agent:" + agentId) else Refused(Permission)
    else
      var digest := TokenDigest(credential.value);
      var found := Find(d.leases, (l: Lease) => l.digest == digest);
      if found.None? then Refused(LeaseExpired)
      else
        var lease := found.value;
        if lease.agentId != agentId || lease.projectId != p.value.id then Refused(LeaseExpired)
        else if lease.revokedAt.Some? || now >= lease.expiresAt then Refused(LeaseExpired)
        else
          var g := ActiveGrant(d, agentId, p.value.id);
          if g.None? then Refused(LeaseExpired)
          else if !Subset(lease.ops, g.value.ops) then Invalidate(lease.id)
          else if op !in lease.ops then Refused(Permission)
          else Allowed("lease:" + lease.id)
  }

  /** The document the fallback branch commits. */
  function Invalidated(d: Document, leaseId: Id, now: int): Document {
    var i := Position(d.leases, (l: Lease) => l.id == leaseId);
    if i == |d.leases| then d
    else d.(leases := d.leases[i := d.leases[i].(revokedAt := Some(now))])
  }

  /** A lease that authorizes `op` for this agent and project at `now`. */
  ghost predicate LiveLease(d: Document, l: Lease, digest: CredDigest, agentId: Id, projectId: Id, op: Op, now: int) {
    && l in d.leases && l.digest == digest && l.agentId == agentId && l.projectId == projectId
    && l.revokedAt.None? && now < l.expiresAt && op in l.ops
  }

  /** In every reachable document a credential is honoured exactly when it names a live lease with the op, and that
      op is then also in the agent's current grant; the fallback branches never fire. */
  lemma AuthorizeIff(d: Document, agentId: Id, project: string, op: Op, credential: Option<string>, now: int)
    requires DocInv(d)
    ensures !Authorize(d, agentId, project, op, credential, now).Invalidate?
    ensures Authorize(d, agentId, project, op, credential, now).Allowed? <==>
              && ProjectByName(d, project).Some?
              && AgentIsActive(d, agentId)
              && (credential.None? ==> Authorized(d, agentId, ProjectByName(d, project).value.id, op))
              && (credential.Some? ==>
                    exists l :: LiveLease(d, l, TokenDigest(credential.value), agentId,
                                          ProjectByName(d, project).value.id, op, now))
    ensures Authorize(d, agentId, project, op, credential, now).Allowed?
        ==> Authorized(d, agentId, ProjectByName(d, project).value.id, op)
  {
    var p := ProjectByName(d, project);
    if p.Some? && credential.Some? {
      var digest := TokenDigest(credential.value);
      var found := Find(d.leases, (l: Lease) => l.digest == digest);
      if found.Some? {
        assert LeaseBacked(d, found.value);
        LeaseOfDigest(d, found.value);
        forall l | LiveLease(d, l, digest, agentId, p.value.id, op, now) ensures l == found.value {
          LeaseOfDigest(d, l);
        }
        if found.value.revokedAt.None? {
          assert found.value.ops[0] in found.value.ops;
        }
        if found.value.agentId == agentId && found.value.projectId == p.value.id && found.value.revokedAt.None?
           && now < found.value.expiresAt && op in found.value.ops {
          assert LiveLease(d, found.value, digest, agentId, p.value.id, op, now);
        }
      }
    }
  }

  // ----- reveal_claim --------------------------------------------------------------------

  /** A row that `reveal_claim` honours at `now`. */
  ghost predicate Claimable(d: Document, a: Approval, agentId: Id, projectId: Id, key: string, now: int) {
    && a in d.approvals && a.agentId == agentId && a.projectId == projectId && a.key == key
    && a.status == Approved && a.approvedAt.Some? && now < a.approvedAt.value + APPROVAL_CLAIM
  }

  lemma ApprovalOfId(d: Document, a: Approval)
    requires UniqueApprovals(d) && a in d.approvals
    ensures var i := Position(d.approvals, (x: Approval) => x.id == a.id); i < |d.approvals| && d.approvals[i] == a
  {
    var i := Position(d.approvals, (x: Approval) => x.id == a.id);
    var j :| 0 <= j < |d.approvals| && d.approvals[j] == a;
  }

  /** In every reachable document a claim succeeds exactly on an approved row for this agent, project and key,
      inside its window, whose secret still exists; the withdrawn-grant branch never fires on an open row. */
  lemma ClaimIff(d: Document, agentId: Id, project: string, key: string, approvalId: Id, now: int)
    requires DocInv(d)
    ensures ClaimApproval(d, agentId, project, key, approvalId, now).Ok? <==>
              && ProjectByName(d, project).Some?
              && SecretOf(d, ProjectByName(d, project).value.id, key).Some?
              && exists a: Approval :: a.id == approvalId && Claimable(d, a, agentId, ProjectByName(d, project).value.id, key, now)
  {
    var p := ProjectByName(d, project);
    var i := Position(d.approvals, (a: Approval) => a.id == approvalId);
    if p.Some? && i < |d.approvals| {
      var row := d.approvals[i];
      assert ApprovalBacked(d, row);
      forall a: Approval | a.id == approvalId && Claimable(d, a, agentId, p.value.id, key, now) ensures a == row {
        ApprovalOfId(d, a);
        var j :| 0 <= j < |d.approvals| && d.approvals[j] == a;
      }
      if ClaimApproval(d, agentId, project, key, approvalId, now).Ok? {
        assert Claimable(d, row, agentId, p.value.id, key, now);
      }
    }
  }

  lemma OpenApprovalHasLiveGrant(d: Document, a: Approval, now: int)
    requires DocInv(d) && a in d.approvals && Open(a)
    ensures ClaimRefusal(d, a, a.agentId, a.projectId, a.key, now) != Some(Permission)
  {
    assert ApprovalBacked(d, a);
  }

  // ----- purge ------------------------------------------------------------------------------

  /** Purging leaves projects, agents, grants and secrets alone, so every look-up in them. */
  lemma PurgeKeepsLookups(d: Document, t0: int, agentId: Id, project: string, projectId: Id, key: string, op: Op)
    ensures var d' := Purged(d, t0);
            && ProjectByName(d', project) == ProjectByName(d, project)
            && (AgentIsActive(d', agentId) <==> AgentIsActive(d, agentId))
            && (Authorized(d', agentId, projectId, op) <==> Authorized(d, agentId, projectId, op))
            && SecretOf(d', projectId, key) == SecretOf(d, projectId, key)
  {
    hide Filter;
    hide Find;
  }

  lemma PurgeKeepsLiveLeases(d: Document, t0: int, l: Lease, digest: CredDigest, agentId: Id, projectId: Id, op: Op, t: int)
    requires t0 <= t
    ensures LiveLease(d, l, digest, agentId, projectId, op, t) <==> LiveLease(Purged(d, t0), l, digest, agentId, projectId, op, t)
  {
  }

  lemma PurgeKeepsClaimable(d: Document, t0: int, a: Approval, agentId: Id, projectId: Id, key: string, t: int)
    requires DocInv(d) && t0 <= t
    ensures Claimable(d, a, agentId, projectId, key, t) <==> Claimable(Purged(d, t0), a, agentId, projectId, key, t)
  {
    if a in d.approvals { assert ApprovalBacked(d, a); }
    hide LeaseBacked;
  }

  /** Purging at `t0` changes no decision at any later time. */
  lemma PurgeIsAuthorityNeutral(d: Document, t0: int, agentId: Id, project: string, op: Op, credential: Option<string>,
                                key: string, approvalId: Id, t: int)
    requires DocInv(d) && t0 <= t
    ensures Authorize(Purged(d, t0), agentId, project, op, credential, t).Allowed?
       <==> Authorize(d, agentId, project, op, credential, t).Allowed?
    ensures ClaimApproval(Purged(d, t0), agentId, project, key, approvalId, t).Ok?
       <==> ClaimApproval(d, agentId, project, key, approvalId, t).Ok?
  {
    hide Authorize;
    hide ClaimApproval;
    hide DocInv;
    hide Purged;
    hide LiveLease;
    hide Claimable;
    hide Authorized;
    hide AgentIsActive;
    hide Find;
    var d' := Purged(d, t0);
    PurgeKeepsInv(d, t0);
    AuthorizeIff(d, agentId, project, op, credential, t);
    AuthorizeIff(d', agentId, project, op, credential, t);
    ClaimIff(d, agentId, project, key, approvalId, t);
    ClaimIff(d', agentId, project, key, approvalId, t);
    PurgeKeepsLookups(d, t0, agentId, project, "", key, op);
    var p := ProjectByName(d, project);
    if p.Some? {
      PurgeKeepsLookups(d, t0, agentId, project, p.value.id, key, op);
      if credential.Some? {
        var digest := TokenDigest(credential.value);
        forall l ensures LiveLease(d, l, digest, agentId, p.value.id, op, t)
                    <==> LiveLease(d', l, digest, agentId, p.value.id, op, t)
        {
          PurgeKeepsLiveLeases(d, t0, l, digest, agentId, p.value.id, op, t);
        }
      }
      forall a ensures Claimable(d, a, agentId, p.value.id, key, t) <==> Claimable(d', a, agentId, p.value.id, key, t) {
        PurgeKeepsClaimable(d, t0, a, agentId, p.value.id, key, t);
      }
    }
  }

  function LiveLeases(d: Document, now: int): seq<Lease> { Purged(d, now).leases }

  function LiveApprovals(d: Document, now: int): seq<Approval> { Purged(d, now).approvals }

  /** An otherwise valid request is refused for capacity exactly when the cap is filled with live rows. */
  lemma CapsCountLiveRows(d: Document, agentId: Id, project: string, ops: seq<Op>, ttl: nat, key: string,
                          id: Id, digest: CredDigest, now: int)
    requires ProjectByName(d, project).Some? && AgentIsActive(d, agentId)
    requires ActiveGrant(d, agentId, ProjectByName(d, project).value.id).Some?
    ensures MIN_LEASE_TTL_SECS <= ttl <= MAX_LEASE_TTL_SECS && ops != []
            && Subset(ops, GrantOps(d, agentId, ProjectByName(d, project).value.id))
        ==> (CreateLease(d, agentId, project, ops, ttl, id, digest, now).Err? <==> |LiveLeases(d, now)| >= MAX_LEASES)
    ensures Authorized(d, agentId, ProjectByName(d, project).value.id, Reveal)
            && SecretOf(d, ProjectByName(d, project).value.id, key).Some?
        ==> (RequestApproval(d, agentId, project, key, id, now).Err? <==> |LiveApprovals(d, now)| >= MAX_APPROVALS)
    ensures forall l :: l in LiveLeases(d, now) ==> l in d.leases && !LeaseTerminal(l, now)
    ensures forall a :: a in LiveApprovals(d, now) ==> a in d.approvals && !ApprovalTerminal(a, now)
  {
  }

  // ----- the authority a document confers --------------------------------------------------------

  /** What a document allows, at one instant where it allows it only for a time. */
  datatype Power =
    | UseGrant(agentId: Id, projectId: Id, op: Op)
    | UseLease(digest: CredDigest, agentId: Id, projectId: Id, op: Op, at: int)
    | ClaimValue(approvalId: Id, agentId: Id, projectId: Id, key: string, at: int)
    | AwaitDecision(approvalId: Id, agentId: Id, projectId: Id, key: string, at: int)

  predicate IsFor(a: Approval, id: Id, agentId: Id, projectId: Id, key: string) {
    a.id == id && a.agentId == agentId && a.projectId == projectId && a.key == key
  }

  ghost predicate Confers(d: Document, w: Power) {
    match w
    case UseGrant(agentId, projectId, op) => AgentIsActive(d, agentId) && Authorized(d, agentId, projectId, op)
    case UseLease(digest, agentId, projectId, op, at) => exists l :: LiveLease(d, l, digest, agentId, projectId, op, at)
    case ClaimValue(id, agentId, projectId, key, at) =>
      exists a :: a in d.approvals && IsFor(a, id, agentId, projectId, key) && a.status == Approved
                  && (a.claimExpiresAt.Some? ==> at < a.claimExpiresAt.value)
    case AwaitDecision(id, agentId, projectId, key, at) =>
      exists a :: a in d.approvals && IsFor(a, id, agentId, projectId, key) && a.status == Pending && at < a.pendingExpiresAt
  }

  ghost predicate Shrinks(d: Document, d': Document) { forall w :: Confers(d', w) ==> Confers(d, w) }

  /** Rows can only have been revoked or denied. */
  ghost predicate RowsOnlyWithdrawn(d: Document, d': Document) {
    && (forall l :: l in d'.leases && l.revokedAt.None? ==> l in d.leases)
    && (forall a :: a in d'.approvals && Open(a) ==> a in d.approvals)
  }

  lemma ShrinksWhen(d: Document, d': Document)
    requires RowsOnlyWithdrawn(d, d')
    requires forall id :: AgentIsActive(d', id) ==> AgentIsActive(d, id)
    requires forall a, p, op :: Authorized(d', a, p, op) ==> Authorized(d, a, p, op)
    ensures Shrinks(d, d')
  {
    hide Authorized;
    hide AgentIsActive;
    forall w | Confers(d', w) ensures Confers(d, w) {
      if w.UseLease? {
        var l :| LiveLease(d', l, w.digest, w.agentId, w.projectId, w.op, w.at);
        assert LiveLease(d, l, w.digest, w.agentId, w.projectId, w.op, w.at);
      }
    }
  }

  lemma SweptOnlyWithdraws(d: Document, d': Document, agentId: Id, projectId: Id, now: int)
    requires Swept(d, d', agentId, projectId, now)
    ensures RowsOnlyWithdrawn(d, d')
  {
    forall l | l in d'.leases && l.revokedAt.None? ensures l in d.leases {
      var k :| 0 <= k < |d'.leases| && d'.leases[k] == l;
      assert d.leases[k] == l;
    }
    forall a | a in d'.approvals && Open(a) ensures a in d.approvals {
      var k :| 0 <= k < |d'.approvals| && d'.approvals[k] == a;
      assert d.approvals[k] == a;
    }
  }

  lemma SamePowersFromGrants(d: Document, d': Document, agentId: Id, projectId: Id)
    requires UniqueGrants(d)
    requires forall g :: g in d'.grants && g.revokedAt.None? ==>
               exists h :: h in d.grants && h.revokedAt.None? && h.agentId == g.agentId && h.projectId == g.projectId
                           && Subset(g.ops, h.ops)
    ensures forall a, p, op :: Authorized(d', a, p, op) ==> Authorized(d, a, p, op)
  {
    forall a, p, op | Authorized(d', a, p, op) ensures Authorized(d, a, p, op) {
      var g := ActiveGrant(d', a, p).value;
      var h :| h in d.grants && h.revokedAt.None? && h.agentId == g.agentId && h.projectId == g.projectId && Subset(g.ops, h.ops);
      ActiveGrantIs(d, h);
    }
  }

  lemma NarrowingShrinks(d: Document, agent: string, project: string, ops: seq<Op>, now: int)
    requires DocInv(d) && NarrowsGrant(d, agent, project, ops) && AddGrant(d, agent, project, ops, now).Ok?
    ensures Shrinks(d, AddGrant(d, agent, project, ops, now).value)
  {
    var a, p := AgentByName(d, agent).value.id, ProjectByName(d, project).value.id;
    var d1 := UpsertGrant(d, a, p, ops, now);
    var d' := SweepPair(d1, a, p, now);
    var i := Position(d.grants, (g: Grant) => ActiveFor(g, a, p));
    assert i < |d.grants| by {
      var g := ActiveGrant(d, a, p).value;
      assert g in d.grants && ActiveFor(g, a, p);
    }
    ActiveGrantIs(d, d.grants[i]);
    forall g | g in d'.grants && g.revokedAt.None?
      ensures exists h :: h in d.grants && h.revokedAt.None? && h.agentId == g.agentId && h.projectId == g.projectId
                          && Subset(g.ops, h.ops)
    {
      var k :| 0 <= k < |d'.grants| && d'.grants[k] == g;
      assert d.grants[k] in d.grants && Subset(g.ops, d.grants[k].ops);
    }
    SweepPairSweeps(d1, a, p, now);
    SamePowersFromGrants(d, d', a, p);
    SweptOnlyWithdraws(d1, d', a, p, now);
    ShrinksWhen(d, d');
  }

  lemma RevokeGrantShrinks(d: Document, agent: string, project: string, now: int)
    requires DocInv(d) && RevokeGrant(d, agent, project, now).Ok?
    ensures Shrinks(d, RevokeGrant(d, agent, project, now).value)
  {
    var a, p := AgentByName(d, agent).value.id, ProjectByName(d, project).value.id;
    var i := Position(d.grants, (g: Grant) => ActiveFor(g, a, p));
    var d1 := d.(grants := d.grants[i := d.grants[i].(revokedAt := Some(now))]);
    var d' := SweepPair(d1, a, p, now);
    forall g | g in d'.grants && g.revokedAt.None?
      ensures exists h :: h in d.grants && h.revokedAt.None? && h.agentId == g.agentId && h.projectId == g.projectId
                          && Subset(g.ops, h.ops)
    {
      var k :| 0 <= k < |d'.grants| && d'.grants[k] == g;
      assert d.grants[k] in d.grants && Subset(g.ops, d.grants[k].ops);
    }
    SweepPairSweeps(d1, a, p, now);
    SamePowersFromGrants(d, d', a, p);
    SweptOnlyWithdraws(d1, d', a, p, now);
    ShrinksWhen(d, d');
  }

  lemma RevokeAgentShrinks(d: Document, name: string, now: int)
    requires RevokeAgent(d, name, now).Ok?
    ensures Shrinks(d, RevokeAgent(d, name, now).value)
  {
    var d' := RevokeAgent(d, name, now).value;
    forall l | l in d'.leases && l.revokedAt.None? ensures l in d.leases {
      var k :| 0 <= k < |d'.leases| && d'.leases[k] == l;
      assert d.leases[k] == l;
    }
    forall a | a in d'.approvals && Open(a) ensures a in d.approvals {
      var k :| 0 <= k < |d'.approvals| && d'.approvals[k] == a;
      assert d.approvals[k] == a;
    }
    forall id | AgentIsActive(d', id) ensures AgentIsActive(d, id) {
      var a :| a in d'.agents && a.id == id && a.active;
      var k :| 0 <= k < |d'.agents| && d'.agents[k] == a;
      assert d.agents[k] in d.agents;
    }
    assert forall a, p :: ActiveGrant(d', a, p) == ActiveGrant(d, a, p);
    ShrinksWhen(d, d');
  }

  lemma DropLeaseShrinks(d: Document, owner: Option<Id>, leaseId: Id, now: int)
    requires DropLease(d, owner, leaseId, now).Ok?
    ensures Shrinks(d, DropLease(d, owner, leaseId, now).value)
  {
    var d' := DropLease(d, owner, leaseId, now).value;
    assert forall a, p :: ActiveGrant(d', a, p) == ActiveGrant(d, a, p);
    forall l | l in d'.leases && l.revokedAt.None? ensures l in d.leases {
      var k :| 0 <= k < |d'.leases| && d'.leases[k] == l;
      assert d.leases[k] == l;
    }
    ShrinksWhen(d, d');
  }

  /** Every operation that may proceed unrecorded only withdraws authority. */
  lemma LifecycleOnlyShrinks(d: Document, c: Call, now: int)
    requires DocInv(d) && PriorityOf(d, c) == Lifecycle && Propose(d, c, now).Ok?
    ensures Shrinks(d, Propose(d, c, now).value)
  {
    match c
    case AgentRevoke(name) => RevokeAgentShrinks(d, name, now);
    case GrantRevoke(agent, project) => RevokeGrantShrinks(d, agent, project, now);
    case GrantAdd(agent, project, ops) => NarrowingShrinks(d, agent, project, ops, now);
    case LeaseRevoke(owner, leaseId) => DropLeaseShrinks(d, owner, leaseId, now);
    case _ =>
  }

  lemma LockOnlyShrinks(d: Document, now: int)
    ensures Shrinks(d, LockedDown(d, now))
    ensures forall w :: Confers(LockedDown(d, now), w) <==> w.UseGrant? && Confers(d, w)
    ensures LockedDown(d, now) == d.(leases := LockedDown(d, now).leases, approvals := LockedDown(d, now).approvals)
  {
    var d' := LockedDown(d, now);
    assert forall a, p :: ActiveGrant(d', a, p) == ActiveGrant(d, a, p);
    forall l | l in d'.leases ensures l.revokedAt.Some? {
      var k :| 0 <= k < |d'.leases| && d'.leases[k] == l;
    }
    forall a | a in d'.approvals ensures !Open(a) {
      var k :| 0 <= k < |d'.approvals| && d'.approvals[k] == a;
    }
    ShrinksWhen(d, d');
  }
}
