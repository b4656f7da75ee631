/** What each operation brings about, in terms of what the document then allows: when it succeeds, whom it affects and
    how, and that nobody else notices. */
module Effects {
  import opened Prelude
  import opened Model
  import opened Capability
  import opened Authority
  import opened Contents

  /** Random ids and credentials tell agents, and projects, apart. */
  predicate UniqueAgents(d: Document) {
    forall i, j :: 0 <= i < j < |d.agents| ==> d.agents[i].id != d.agents[j].id && d.agents[i].token != d.agents[j].token
  }

  predicate UniqueProjects(d: Document) { forall i, j :: 0 <= i < j < |d.projects| ==> d.projects[i].id != d.projects[j].id }

  /** Everything but the rows of these two tables. */
  predicate SameRecords(d: Document, d': Document) {
    d'.projects == d.projects && d'.secrets == d.secrets && d'.agents == d.agents && d'.grants == d.grants
  }

  // ----- agents ------------------------------------------------------------------------------

  lemma AgentNamed(d: Document, a: Agent)
    requires UniqueAgents(d) && a in d.agents
    ensures forall b :: b in d.agents && (b.id == a.id || b.token == a.token) ==> b == a
  {
    forall b | b in d.agents && (b.id == a.id || b.token == a.token) ensures b == a {
      var i :| 0 <= i < |d.agents| && d.agents[i] == a;
      var j :| 0 <= j < |d.agents| && d.agents[j] == b;
      assert i == j;
    }
  }

  /** No active agent bears this id or this token. */
  predicate Retired(d: Document, id: Id, token: CredDigest) {
    forall a :: a in d.agents && (a.id == id || a.token == token) ==> !a.active
  }

  /** Rows of other agents are the same ones. */
  ghost predicate OthersKeepRows(d: Document, d': Document, id: Id) {
    && (forall l: Lease :: l.agentId != id ==> (l in d'.leases <==> l in d.leases))
    && (forall p: Approval :: p.agentId != id ==> (p in d'.approvals <==> p in d.approvals))
  }

  /** Revoking an agent takes an existing name. Afterwards nobody active bears its id or token, none of its leases is
      unrevoked, none of its approvals is open, and every other agent, grant and row is as before. */
  lemma RevokeAgentEffect(d: Document, name: string, now: int)
    requires UniqueAgents(d)
    ensures RevokeAgent(d, name, now).Ok? <==> AgentByName(d, name).Some?
    ensures RevokeAgent(d, name, now).Ok? ==>
              var d', a := RevokeAgent(d, name, now).value, AgentByName(d, name).value;
              && Retired(d', a.id, a.token) && !AgentIsActive(d', a.id)
              && (forall b: Agent :: b.id != a.id ==> (b in d'.agents <==> b in d.agents))
              && d'.projects == d.projects && d'.secrets == d.secrets && d'.grants == d.grants
              && (forall l :: l in d'.leases && l.agentId == a.id ==> l.revokedAt.Some?)
              && (forall p :: p in d'.approvals && p.agentId == a.id ==> !Open(p))
              && OthersKeepRows(d, d', a.id)
  {
    var i := Position(d.agents, (a: Agent) => a.name == name);
    if i < |d.agents| {
      var d', a := RevokeAgent(d, name, now).value, d.agents[i];
      assert a in d.agents;
      AgentNamed(d, a);
      assert AgentByName(d, name) == Some(a);
      forall b | b in d'.agents && (b.id == a.id || b.token == a.token) ensures !b.active {
        var k :| 0 <= k < |d'.agents| && d'.agents[k] == b;
        assert d.agents[k] in d.agents;
      }
      forall b: Agent | b.id != a.id ensures b in d'.agents <==> b in d.agents {
        if b in d.agents { var k :| 0 <= k < |d.agents| && d.agents[k] == b; assert d'.agents[k] == b; }
        if b in d'.agents { var k :| 0 <= k < |d'.agents| && d'.agents[k] == b; assert d.agents[k] == b; }
      }
      RevokeAgentSweeps(d, name, now);
      SweptAgentRows(d, d', a.id, now);
    }
  }

  lemma SweptAgentRows(d: Document, d': Document, id: Id, now: int)
    requires AgentSwept(d, d', id, now)
    ensures forall l :: l in d'.leases && l.agentId == id ==> l.revokedAt.Some?
    ensures forall p :: p in d'.approvals && p.agentId == id ==> !Open(p)
    ensures OthersKeepRows(d, d', id)
  {
    forall l: Lease | l.agentId != id ensures l in d'.leases <==> l in d.leases {
      if l in d.leases { var k :| 0 <= k < |d.leases| && d.leases[k] == l; assert d'.leases[k] == l; }
      if l in d'.leases { var k :| 0 <= k < |d'.leases| && d'.leases[k] == l; assert d.leases[k] == l; }
    }
    forall p: Approval | p.agentId != id ensures p in d'.approvals <==> p in d.approvals {
      if p in d.approvals { var k :| 0 <= k < |d.approvals| && d.approvals[k] == p; assert d'.approvals[k] == p; }
      if p in d'.approvals { var k :| 0 <= k < |d'.approvals| && d'.approvals[k] == p; assert d.approvals[k] == p; }
    }
    forall l | l in d'.leases && l.agentId == id ensures l.revokedAt.Some? {
      var k :| 0 <= k < |d'.leases| && d'.leases[k] == l;
    }
    forall p | p in d'.approvals && p.agentId == id ensures !Open(p) {
      var k :| 0 <= k < |d'.approvals| && d'.approvals[k] == p;
    }
  }

  /** An agent that is not active gets nothing: no operation with or without a credential, no lease, no request, no
      claim. */
  lemma InactiveIsRefused(d: Document, id: Id, project: string, now: int)
    requires DocInv(d) && !AgentIsActive(d, id)
    ensures forall op, credential :: !Authorize(d, id, project, op, credential, now).Allowed?
    ensures forall ops, ttl, lease, digest :: CreateLease(d, id, project, ops, ttl, lease, digest, now).Err?
    ensures forall key, row :: RequestApproval(d, id, project, key, row, now).Err?
    ensures forall key, row :: ClaimApproval(d, id, project, key, row, now).Err?
  {
    forall op, credential ensures !Authorize(d, id, project, op, credential, now).Allowed? {
      AuthorizeIff(d, id, project, op, credential, now);
    }
    forall key, row ensures ClaimApproval(d, id, project, key, row, now).Err? {
      if ClaimApproval(d, id, project, key, row, now).Ok? { ClaimNeedsActive(d, id, project, key, row, now); }
    }
  }

  lemma ClaimNeedsActive(d: Document, id: Id, project: string, key: string, row: Id, now: int)
    requires DocInv(d) && ClaimApproval(d, id, project, key, row, now).Ok?
    ensures AgentIsActive(d, id)
  {
    ClaimIff(d, id, project, key, row, now);
    var a: Approval :| a.id == row && Claimable(d, a, id, ProjectByName(d, project).value.id, key, now);
    assert ApprovalBacked(d, a);
  }

  /** A new agent takes a valid unused name below the cap; it is active under its id and token, and that is all that
      changes: it may use nothing yet. */
  lemma AddAgentEffect(d: Document, name: string, id: Id, token: CredDigest)
    ensures AddAgent(d, name, id, token).Ok? <==>
              ValidProjectName(name) && AgentByName(d, name).None? && |d.agents| < MAX_AGENTS
    ensures AddAgent(d, name, id, token).Ok? ==>
              var d' := AddAgent(d, name, id, token).value;
              && AgentByName(d', name) == Some(Agent(id, name, true, token)) && AgentIsActive(d', id)
              && (forall b :: b in d'.agents <==> b in d.agents || b == Agent(id, name, true, token))
              && d' == d.(agents := d'.agents)
    ensures AddAgent(d, name, id, token).Ok? && UniqueAgents(d)
            && (forall b :: b in d.agents ==> b.id != id && b.token != token)
        ==> UniqueAgents(AddAgent(d, name, id, token).value)
  {
    if AddAgent(d, name, id, token).Ok? {
      var d' := AddAgent(d, name, id, token).value;
      var a := Agent(id, name, true, token);
      assert d'.agents[|d.agents|] == a;
      FindUnique(d'.agents, (x: Agent) => x.name == name, a);
    }
  }

  // ----- grants --------------------------------------------------------------------------------

  /** Every other pair's access, and every row of other pairs, is as before. */
  ghost predicate OtherPairsKept(d: Document, d': Document, agentId: Id, projectId: Id) {
    && (forall a, p, op :: a != agentId || p != projectId ==> (Authorized(d', a, p, op) <==> Authorized(d, a, p, op)))
    && (forall l: Lease :: l.agentId != agentId || l.projectId != projectId ==> (l in d'.leases <==> l in d.leases))
    && (forall r: Approval :: r.agentId != agentId || r.projectId != projectId ==> (r in d'.approvals <==> r in d.approvals))
  }

  /** The rows of the pair that stay as they are: leases within `ops`, and open approvals while `ops` include reveal. */
  ghost predicate PairSweptTo(d: Document, d': Document, agentId: Id, projectId: Id, ops: seq<Op>) {
    && (forall l: Lease :: l.agentId == agentId && l.projectId == projectId && l.revokedAt.None? ==>
          (l in d'.leases <==> l in d.leases && Subset(l.ops, ops)))
    && (forall r: Approval :: r.agentId == agentId && r.projectId == projectId && Open(r) ==>
          (r in d'.approvals <==> r in d.approvals && Reveal in ops))
  }

  lemma SweptRows(d: Document, d': Document, agentId: Id, projectId: Id, now: int)
    requires Swept(d, d', agentId, projectId, now)
    ensures forall l: Lease :: l.agentId != agentId || l.projectId != projectId ==> (l in d'.leases <==> l in d.leases)
    ensures forall r: Approval :: r.agentId != agentId || r.projectId != projectId ==> (r in d'.approvals <==> r in d.approvals)
    ensures PairSweptTo(d, d', agentId, projectId, GrantOps(d, agentId, projectId))
  {
    hide ActiveGrant;
    var ops := GrantOps(d, agentId, projectId);
    assert Authorized(d, agentId, projectId, Reveal) <==> Reveal in ops;
    hide GrantOps;
    hide Authorized;
    forall l: Lease | (l.agentId != agentId || l.projectId != projectId) || (l.revokedAt.None? && Subset(l.ops, ops))
      ensures l in d'.leases <==> l in d.leases
    {
      if l in d.leases { var k :| 0 <= k < |d.leases| && d.leases[k] == l; assert d'.leases[k] == l; }
      if l in d'.leases { var k :| 0 <= k < |d'.leases| && d'.leases[k] == l; assert d.leases[k] == l; }
    }
    forall l: Lease | l.agentId == agentId && l.projectId == projectId && l.revokedAt.None? && !Subset(l.ops, ops)
      ensures l !in d'.leases
    {
      forall k | 0 <= k < |d'.leases| ensures d'.leases[k] != l {}
    }
    forall r: Approval | (r.agentId != agentId || r.projectId != projectId) || (Open(r) && Reveal in ops)
      ensures r in d'.approvals <==> r in d.approvals
    {
      if r in d.approvals { var k :| 0 <= k < |d.approvals| && d.approvals[k] == r; assert d'.approvals[k] == r; }
      if r in d'.approvals { var k :| 0 <= k < |d'.approvals| && d'.approvals[k] == r; assert d.approvals[k] == r; }
    }
    forall r: Approval | r.agentId == agentId && r.projectId == projectId && Open(r) && Reveal !in ops
      ensures r !in d'.approvals
    {
      forall k | 0 <= k < |d'.approvals| ensures d'.approvals[k] != r {}
    }
  }

  /** The active grants of all pairs, from their rows. */
  lemma AuthorizedIff(d: Document, agentId: Id, projectId: Id, op: Op)
    requires UniqueGrants(d)
    ensures Authorized(d, agentId, projectId, op) <==>
              exists g :: g in d.grants && ActiveFor(g, agentId, projectId) && op in g.ops
  {
    forall g | g in d.grants && ActiveFor(g, agentId, projectId) ensures ActiveGrant(d, agentId, projectId) == Some(g) {
      ActiveGrantIs(d, g);
    }
  }

  lemma OtherGrantsSameAccess(d: Document, d': Document, agentId: Id, projectId: Id)
    requires UniqueGrants(d) && UniqueGrants(d')
    requires forall g :: !ActiveFor(g, agentId, projectId) && g.revokedAt.None? ==> (g in d'.grants <==> g in d.grants)
    ensures forall a, p, op :: a != agentId || p != projectId ==> (Authorized(d', a, p, op) <==> Authorized(d, a, p, op))
  {
    forall a, p, op | a != agentId || p != projectId ensures Authorized(d', a, p, op) <==> Authorized(d, a, p, op) {
      AuthorizedIff(d, a, p, op);
      AuthorizedIff(d', a, p, op);
      forall g | ActiveFor(g, a, p) ensures g in d'.grants <==> g in d.grants {}
    }
  }

  /** Granting takes known names and some ops. Afterwards the pair may do exactly those ops, it keeps exactly the leases
      within them, and its open approvals exactly while they include reveal. Nothing else changes. */
  lemma AddGrantEffect(d: Document, agent: string, project: string, ops: seq<Op>, now: int)
    requires UniqueGrants(d)
    ensures AddGrant(d, agent, project, ops, now).Ok? <==>
              ops != [] && AgentByName(d, agent).Some? && ProjectByName(d, project).Some?
    ensures AddGrant(d, agent, project, ops, now).Ok? ==>
              var d', a, p := AddGrant(d, agent, project, ops, now).value, AgentByName(d, agent).value.id, ProjectByName(d, project).value.id;
              && (forall op :: Authorized(d', a, p, op) <==> op in ops)
              && PairSweptTo(d, d', a, p, ops) && OtherPairsKept(d, d', a, p)
              && d'.projects == d.projects && d'.secrets == d.secrets && d'.agents == d.agents
  {
    if AddGrant(d, agent, project, ops, now).Ok? {
      var a, p := AgentByName(d, agent).value.id, ProjectByName(d, project).value.id;
      UpsertEffect(d, a, p, ops, now);
      var d1 := UpsertGrant(d, a, p, ops, now);
      SweepPairSweeps(d1, a, p, now);
      hide UpsertGrant;
      hide SweepPair;
      hide Find;
      SweptRows(d1, SweepPair(d1, a, p, now), a, p, now);
      SweepKeepsGrants(d1, SweepPair(d1, a, p, now), a, p, now);
    }
  }

  lemma SweepKeepsGrants(d: Document, d': Document, agentId: Id, projectId: Id, now: int)
    requires Swept(d, d', agentId, projectId, now)
    ensures SameRecords(d, d')
    ensures forall a, p, op :: Authorized(d', a, p, op) <==> Authorized(d, a, p, op)
  {
    assert forall a, p :: ActiveGrant(d', a, p) == ActiveGrant(d, a, p);
  }

  lemma UpsertEffect(d: Document, a: Id, p: Id, ops: seq<Op>, now: int)
    requires UniqueGrants(d)
    ensures var d1 := UpsertGrant(d, a, p, ops, now);
            && d1 == d.(grants := d1.grants)
            && (forall op :: Authorized(d1, a, p, op) <==> op in ops)
            && GrantOps(d1, a, p) == ops
            && (forall x, q, op :: x != a || q != p ==> (Authorized(d1, x, q, op) <==> Authorized(d, x, q, op)))
  {
    var d1 := UpsertGrant(d, a, p, ops, now);
    var i := Position(d.grants, (g: Grant) => ActiveFor(g, a, p));
    UpsertKeepsOthers(d, a, p, ops, now);
    assert ActiveFor(d1.grants[i], a, p) && d1.grants[i].ops == ops && d1.grants[i] in d1.grants;
    ActiveGrantIs(d1, d1.grants[i]);
    forall g | !ActiveFor(g, a, p) && g.revokedAt.None? ensures g in d1.grants <==> g in d.grants {
      if g in d1.grants { var k :| 0 <= k < |d1.grants| && d1.grants[k] == g; assert k != i && d.grants[k] == g; }
    }
    OtherGrantsSameAccess(d, d1, a, p);
  }

  /** Revoking a grant takes a pair that has one. Afterwards the pair may do nothing, all its leases are revoked and all
      its approvals closed. Nothing else changes. */
  lemma RevokeGrantEffect(d: Document, agent: string, project: string, now: int)
    requires DocInv(d)
    ensures RevokeGrant(d, agent, project, now).Ok? <==>
              && AgentByName(d, agent).Some? && ProjectByName(d, project).Some?
              && ActiveGrant(d, AgentByName(d, agent).value.id, ProjectByName(d, project).value.id).Some?
    ensures RevokeGrant(d, agent, project, now).Ok? ==>
              var d', a, p := RevokeGrant(d, agent, project, now).value, AgentByName(d, agent).value.id, ProjectByName(d, project).value.id;
              && (forall op :: !Authorized(d', a, p, op)) && ActiveGrant(d', a, p).None?
              && (forall l :: l in d'.leases && l.agentId == a && l.projectId == p ==> l.revokedAt.Some?)
              && (forall r :: r in d'.approvals && r.agentId == a && r.projectId == p ==> !Open(r))
              && OtherPairsKept(d, d', a, p)
              && d'.projects == d.projects && d'.secrets == d.secrets && d'.agents == d.agents
  {
    if AgentByName(d, agent).Some? && ProjectByName(d, project).Some? {
      var a, p := AgentByName(d, agent).value.id, ProjectByName(d, project).value.id;
      var i := Position(d.grants, (g: Grant) => ActiveFor(g, a, p));
      if i < |d.grants| {
        assert d.grants[i] in d.grants;
        assert UniqueGrants(d);
        ActiveGrantIs(d, d.grants[i]);
        var d1 := d.(grants := d.grants[i := d.grants[i].(revokedAt := Some(now))]);
        RowRevoked(d, i, a, p, now);
        SweepPairSweeps(d1, a, p, now);
        var d' := SweepPair(d1, a, p, now);
        assert RevokeGrant(d, agent, project, now) == Ok(d');
        hide SweepPair;
        hide Find;
        SweptRows(d1, d', a, p, now);
        SweepKeepsGrants(d1, d', a, p, now);
        NothingLeftOfPair(d, d1, d', a, p, now);
        assert ActiveGrant(d', a, p).None? by { NoAccessNoGrant(d1, d', a, p); }
      }
    }
  }

  lemma NoAccessNoGrant(d1: Document, d': Document, a: Id, p: Id)
    requires d'.grants == d1.grants && ActiveGrant(d1, a, p).None?
    ensures ActiveGrant(d', a, p).None?
  {
  }

  lemma RowRevoked(d: Document, i: nat, a: Id, p: Id, now: int)
    requires UniqueGrants(d) && i < |d.grants| && ActiveFor(d.grants[i], a, p)
    ensures var d1 := d.(grants := d.grants[i := d.grants[i].(revokedAt := Some(now))]);
            && ActiveGrant(d1, a, p).None? && GrantOps(d1, a, p) == [] && (forall op :: !Authorized(d1, a, p, op))
            && forall x, q, op :: x != a || q != p ==> (Authorized(d1, x, q, op) <==> Authorized(d, x, q, op))
  {
    var d1 := d.(grants := d.grants[i := d.grants[i].(revokedAt := Some(now))]);
    forall g | g in d1.grants ensures !ActiveFor(g, a, p) {
      var k :| 0 <= k < |d1.grants| && d1.grants[k] == g;
    }
    forall g | !ActiveFor(g, a, p) && g.revokedAt.None? ensures g in d1.grants <==> g in d.grants {
      if g in d.grants { var k :| 0 <= k < |d.grants| && d.grants[k] == g; assert d1.grants[k] == g; }
      if g in d1.grants { var k :| 0 <= k < |d1.grants| && d1.grants[k] == g; assert d.grants[k] == g; }
    }
    OtherGrantsSameAccess(d, d1, a, p);
  }

  lemma NothingLeftOfPair(d: Document, d1: Document, d': Document, a: Id, p: Id, now: int)
    requires DocInv(d) && d1.leases == d.leases && d1.approvals == d.approvals
    requires GrantOps(d1, a, p) == [] && PairSweptTo(d1, d', a, p, []) && Swept(d1, d', a, p, now)
    ensures forall l :: l in d'.leases && l.agentId == a && l.projectId == p ==> l.revokedAt.Some?
    ensures forall r :: r in d'.approvals && r.agentId == a && r.projectId == p ==> !Open(r)
  {
    forall l | l in d.leases && l.revokedAt.None? ensures !Subset(l.ops, []) {
      assert LeaseBacked(d, l);
      assert l.ops[0] in l.ops;
    }
    hide Swept;
    hide DocInv;
    hide Subset;
  }

  // ----- leases -------------------------------------------------------------------------------------

  /** What a valid lease request asks for. */
  predicate LeaseAskable(d: Document, agentId: Id, project: string, ops: seq<Op>, ttlSecs: nat) {
    && 1 <= ttlSecs <= 86_400 && ops != []
    && ProjectByName(d, project).Some? && AgentIsActive(d, agentId)
    && forall o :: o in ops ==> Authorized(d, agentId, ProjectByName(d, project).value.id, o)
  }

  lemma CreatedLease(d: Document, agentId: Id, project: string, ops: seq<Op>, ttlSecs: nat, id: Id, digest: CredDigest, now: int)
    requires CreateLease(d, agentId, project, ops, ttlSecs, id, digest, now).Ok?
    ensures var d' := CreateLease(d, agentId, project, ops, ttlSecs, id, digest, now).value;
            var l := Lease(id, agentId, ProjectByName(d, project).value.id, ops, digest, now, now + ttlSecs * SECOND, None);
            && LeaseAskable(d, agentId, project, ops, ttlSecs) && SameRecords(d, d') && l in d'.leases
            && (forall x :: x in d'.leases ==> x == l || x in d.leases)
            && (forall x :: x in d.leases && !LeaseTerminal(x, now) ==> x in d'.leases)
            && (d'.approvals == d.approvals || d'.approvals == Purged(d, now).approvals)
  {
    var d1 := if |d.leases| >= MAX_LEASES then Purged(d, now) else d;
    var d' := CreateLease(d, agentId, project, ops, ttlSecs, id, digest, now).value;
    assert d'.leases[|d1.leases|] in d'.leases;
    forall x | x in d1.leases ensures x in d'.leases {
      var k :| 0 <= k < |d1.leases| && d1.leases[k] == x;
      assert d'.leases[k] == x;
    }
    hide Filter;
    hide Find;
  }

  /** A lease is granted exactly when it is askable and live leases do not fill the cap. */
  lemma CreateLeaseIff(d: Document, agentId: Id, project: string, ops: seq<Op>, ttlSecs: nat, id: Id, digest: CredDigest, now: int)
    ensures CreateLease(d, agentId, project, ops, ttlSecs, id, digest, now).Ok? <==>
              LeaseAskable(d, agentId, project, ops, ttlSecs) && |LiveLeases(d, now)| < MAX_LEASES
  {
    var p := ProjectByName(d, project);
    if p.Some? {
      hide Find;
      if ops != [] { assert ops[0] in ops; }
      assert ActiveGrant(d, agentId, p.value.id).Some? ==>
               (Subset(ops, ActiveGrant(d, agentId, p.value.id).value.ops) <==>
                forall o :: o in ops ==> Authorized(d, agentId, p.value.id, o));
    }
  }

  /** A minted credential is honoured exactly for what was asked: this agent, this project, these ops, this long. Every
      other decision is as before. */
  lemma LeaseConfersWhatWasAsked(d: Document, agentId: Id, project: string, ops: seq<Op>, ttlSecs: nat, id: Id, credential: string,
                                 now: int, a: Id, proj: string, o: Op, t: int)
    requires DocInv(d) && now <= t
    requires FreshFor(d, LeaseCreate(agentId, project, ops, ttlSecs, id, TokenDigest(credential)))
    requires CreateLease(d, agentId, project, ops, ttlSecs, id, TokenDigest(credential), now).Ok?
    ensures var d' := CreateLease(d, agentId, project, ops, ttlSecs, id, TokenDigest(credential), now).value;
            && (Authorize(d', a, proj, o, Some(credential), t).Allowed? <==>
                  && a == agentId && ProjectByName(d, proj).Some?
                  && ProjectByName(d, proj).value.id == ProjectByName(d, project).value.id
                  && o in ops && t < now + ttlSecs * SECOND)
            && (forall other :: other != Some(credential) ==>
                  (Authorize(d', a, proj, o, other, t).Allowed? <==> Authorize(d, a, proj, o, other, t).Allowed?))
  {
    var digest := TokenDigest(credential);
    var c := LeaseCreate(agentId, project, ops, ttlSecs, id, digest);
    var d' := CreateLease(d, agentId, project, ops, ttlSecs, id, digest, now).value;
    CreatedLease(d, agentId, project, ops, ttlSecs, id, digest, now);
    CreateLeaseKeepsInv(d, agentId, project, ops, ttlSecs, id, digest, now);
    var l := Lease(id, agentId, ProjectByName(d, project).value.id, ops, digest, now, now + ttlSecs * SECOND, None);
    hide CreateLease;
    hide Authorize;
    hide DocInv;
    hide Find;
    SameRecordsSameAccess(d, d', a, proj, o);
    AuthorizeIff(d', a, proj, o, Some(credential), t);
    if ProjectByName(d, proj).Some? {
      var p := ProjectByName(d, proj).value.id;
      if LiveLease(d', l, digest, a, p, o, t) { assert a == agentId; }
      forall x | LiveLease(d', x, digest, a, p, o, t) ensures x == l {}
      if a == agentId && p == l.projectId && o in ops && t < l.expiresAt { assert LiveLease(d', l, digest, a, p, o, t); }
    }
    forall other | other != Some(credential)
      ensures Authorize(d', a, proj, o, other, t).Allowed? <==> Authorize(d, a, proj, o, other, t).Allowed?
    {
      OtherCredentialsAsBefore(d, d', l, a, proj, o, other, now, t);
    }
  }

  lemma SameRecordsSameAccess(d: Document, d': Document, a: Id, proj: string, o: Op)
    requires SameRecords(d, d')
    ensures ProjectByName(d', proj) == ProjectByName(d, proj) && (AgentIsActive(d', a) <==> AgentIsActive(d, a))
    ensures forall p :: Authorized(d', a, p, o) <==> Authorized(d, a, p, o)
    ensures forall p, key :: SecretOf(d', p, key) == SecretOf(d, p, key)
  {
    assert forall p :: ActiveGrant(d', a, p) == ActiveGrant(d, a, p);
  }

  lemma OtherCredentialsAsBefore(d: Document, d': Document, l: Lease, a: Id, proj: string, o: Op, other: Option<string>, now: int, t: int)
    requires DocInv(d) && DocInv(d') && SameRecords(d, d') && now <= t
    requires other.Some? ==> TokenDigest(other.value) != l.digest
    requires forall x :: x in d'.leases ==> x == l || x in d.leases
    requires forall x :: x in d.leases && !LeaseTerminal(x, now) ==> x in d'.leases
    ensures Authorize(d', a, proj, o, other, t).Allowed? <==> Authorize(d, a, proj, o, other, t).Allowed?
  {
    hide Authorize;
    hide DocInv;
    hide Find;
    SameRecordsSameAccess(d, d', a, proj, o);
    AuthorizeIff(d, a, proj, o, other, t);
    AuthorizeIff(d', a, proj, o, other, t);
    if other.Some? && ProjectByName(d, proj).Some? {
      var digest, p := TokenDigest(other.value), ProjectByName(d, proj).value.id;
      forall x ensures LiveLease(d', x, digest, a, p, o, t) <==> LiveLease(d, x, digest, a, p, o, t) {}
    }
  }

  /** A lease is returned by its agent, or by the owner, exactly when it exists; it is then revoked, once and for all, and
      nothing else changes. */
  lemma DropLeaseEffect(d: Document, owner: Option<Id>, leaseId: Id, now: int)
    requires UniqueLeases(d)
    ensures DropLease(d, owner, leaseId, now).Ok? <==>
              exists l :: l in d.leases && l.id == leaseId && (owner.Some? ==> l.agentId == owner.value)
    ensures DropLease(d, owner, leaseId, now).Ok? ==>
              var d' := DropLease(d, owner, leaseId, now).value;
              && (forall l :: l in d'.leases && l.id == leaseId ==> l.revokedAt.Some?)
              && (exists l :: l in d'.leases && l.id == leaseId)
              && (forall l: Lease :: l.id != leaseId ==> (l in d'.leases <==> l in d.leases))
              && d' == d.(leases := d'.leases)
  {
    var i := Position(d.leases, (l: Lease) => l.id == leaseId);
    if i < |d.leases| { assert d.leases[i] in d.leases; }
    forall l | l in d.leases && l.id == leaseId ensures i < |d.leases| && l == d.leases[i] {
      var k :| 0 <= k < |d.leases| && d.leases[k] == l;
      assert k == i;
    }
    if DropLease(d, owner, leaseId, now).Ok? {
      var d' := DropLease(d, owner, leaseId, now).value;
      assert d'.leases[i] in d'.leases && d'.leases[i].id == leaseId;
      forall l | l in d'.leases && l.id == leaseId ensures l.revokedAt.Some? {
        var k :| 0 <= k < |d'.leases| && d'.leases[k] == l;
        assert d.leases[k] in d.leases && k == i;
      }
      forall l: Lease | l.id != leaseId ensures l in d'.leases <==> l in d.leases {
        if l in d.leases { var k :| 0 <= k < |d.leases| && d.leases[k] == l; assert d'.leases[k] == l; }
        if l in d'.leases { var k :| 0 <= k < |d'.leases| && d'.leases[k] == l; assert d.leases[k] == l; }
      }
    }
  }

  // ----- approvals --------------------------------------------------------------------------------------

  predicate RevealAskable(d: Document, agentId: Id, project: string, key: string) {
    && ProjectByName(d, project).Some? && AgentIsActive(d, agentId)
    && Authorized(d, agentId, ProjectByName(d, project).value.id, Reveal)
    && SecretOf(d, ProjectByName(d, project).value.id, key).Some?
  }

  /** A request is taken exactly when it is askable and live requests do not fill the cap. It then waits for ten minutes
      for a decision; no value can be claimed on it yet, and every live row stays. */
  lemma RequestApprovalEffect(d: Document, agentId: Id, project: string, key: string, id: Id, now: int)
    ensures RequestApproval(d, agentId, project, key, id, now).Ok? <==>
              RevealAskable(d, agentId, project, key) && |LiveApprovals(d, now)| < MAX_APPROVALS
    ensures RequestApproval(d, agentId, project, key, id, now).Ok? ==>
              var d' := RequestApproval(d, agentId, project, key, id, now).value;
              var a := Approval(id, agentId, ProjectByName(d, project).value.id, key, Pending, now, now + 600 * SECOND, None, None);
              && SameRecords(d, d') && a in d'.approvals
              && (forall x :: x in d'.approvals ==> x == a || x in d.approvals)
              && (forall x :: x in d.approvals && !ApprovalTerminal(x, now) ==> x in d'.approvals)
              && (d'.leases == d.leases || d'.leases == Purged(d, now).leases)
  {
    hide Filter;
    hide Find;
    if RequestApproval(d, agentId, project, key, id, now).Ok? {
      var d1 := if |d.approvals| >= MAX_APPROVALS then Purged(d, now) else d;
      var d' := RequestApproval(d, agentId, project, key, id, now).value;
      assert d'.approvals[|d1.approvals|] in d'.approvals;
      forall x | x in d1.approvals ensures x in d'.approvals {
        var k :| 0 <= k < |d1.approvals| && d1.approvals[k] == x;
        assert d'.approvals[k] == x;
      }
    }
  }

  predicate RowIs(d: Document, id: Id, a: Approval) { a in d.approvals && a.id == id }

  lemma OnlyRow(d: Document, id: Id, a: Approval, b: Approval)
    requires UniqueApprovals(d) && RowIs(d, id, a) && RowIs(d, id, b)
    ensures a == b
  {
    ApprovalOfId(d, a);
    ApprovalOfId(d, b);
  }

  /** A decision takes a human and a pending row inside its window, and decides as it says: an approved row can be
      claimed for five minutes by its agent, for its key, in its project, and a denied one never. All other rows stay. */
  lemma DecideApprovalEffect(d: Document, actor: string, id: Id, approve: bool, now: int)
    requires DocInv(d)
    ensures DecideApproval(d, actor, id, approve, now).Ok? <==>
              IsHumanIdentity(actor) && exists a :: RowIs(d, id, a) && a.status == Pending && now < a.pendingExpiresAt
    ensures DecideApproval(d, actor, id, approve, now).Ok? ==>
              var d' := DecideApproval(d, actor, id, approve, now).value;
              && d' == d.(approvals := d'.approvals)
              && (forall x: Approval :: x.id != id ==> (x in d'.approvals <==> x in d.approvals))
              && (forall a, a' :: RowIs(d, id, a) && RowIs(d', id, a') ==>
                    a' == if approve then a.(status := Approved, approvedAt := Some(now), claimExpiresAt := Some(now + 300 * SECOND))
                          else a.(status := Denied))
              && (exists a' :: RowIs(d', id, a'))
  {
    var i := Position(d.approvals, (a: Approval) => a.id == id);
    if i < |d.approvals| { assert RowIs(d, id, d.approvals[i]); }
    forall a | RowIs(d, id, a) ensures i < |d.approvals| && a == d.approvals[i] {
      ApprovalOfId(d, a);
    }
    if DecideApproval(d, actor, id, approve, now).Ok? {
      var d' := DecideApproval(d, actor, id, approve, now).value;
      assert RowIs(d', id, d'.approvals[i]);
      forall a' | RowIs(d', id, a') ensures a' == d'.approvals[i] {
        var k :| 0 <= k < |d'.approvals| && d'.approvals[k] == a';
      }
      forall x: Approval | x.id != id ensures x in d'.approvals <==> x in d.approvals {
        if x in d.approvals { var k :| 0 <= k < |d.approvals| && d.approvals[k] == x; assert d'.approvals[k] == x; }
        if x in d'.approvals { var k :| 0 <= k < |d'.approvals| && d'.approvals[k] == x; assert d.approvals[k] == x; }
      }
    }
  }

  /** What a decision makes of later claims. */
  lemma DecisionDecidesClaims(d: Document, actor: string, row: Approval, approve: bool, now: int, project: string, t: int)
    requires DocInv(d) && row in d.approvals && DecideApproval(d, actor, row.id, approve, now).Ok?
    ensures var d' := DecideApproval(d, actor, row.id, approve, now).value;
            && (approve && ProjectByName(d, project).Some? && ProjectByName(d, project).value.id == row.projectId
                && SecretOf(d, row.projectId, row.key).Some? ==>
                  (ClaimApproval(d', row.agentId, project, row.key, row.id, t).Ok? <==> t < now + 300 * SECOND))
            && (!approve ==> forall a, p, key :: ClaimApproval(d', a, p, key, row.id, t).Err?)
  {
    var c := ApprovalDecide(actor, row.id, approve);
    var d' := DecideApproval(d, actor, row.id, approve, now).value;
    DecideApprovalEffect(d, actor, row.id, approve, now);
    DecideAndClaimKeepInv(d, c, now);
    var row' :| RowIs(d', row.id, row');
    assert RowIs(d, row.id, row);
    hide DecideApproval;
    hide DocInv;
    hide ClaimApproval;
    hide Find;
    SameRecordsSameAccess(d, d', row.agentId, project, Reveal);
    if approve && ProjectByName(d, project).Some? && ProjectByName(d, project).value.id == row.projectId {
      ClaimIff(d', row.agentId, project, row.key, row.id, t);
      forall x: Approval | x.id == row.id && Claimable(d', x, row.agentId, row.projectId, row.key, t) ensures x == row' {
        OnlyRowOf(d', row.id, x, row');
      }
      if t < now + 300 * SECOND { assert Claimable(d', row', row.agentId, row.projectId, row.key, t); }
    }
    if !approve {
      forall a, p, key ensures ClaimApproval(d', a, p, key, row.id, t).Err? {
        ClaimIff(d', a, p, key, row.id, t);
        forall x: Approval | x.id == row.id && x in d'.approvals ensures x == row' { OnlyRowOf(d', row.id, x, row'); }
      }
    }
  }

  lemma OnlyRowOf(d: Document, id: Id, a: Approval, b: Approval)
    requires DocInv(d) && a in d.approvals && a.id == id && RowIs(d, id, b)
    ensures a == b
  {
    OnlyRow(d, id, a, b);
  }

  /** A claim consumes its row and nothing else: the same approval never yields a second claim. */
  lemma ClaimEffect(d: Document, agentId: Id, project: string, key: string, id: Id, now: int)
    requires DocInv(d) && ClaimApproval(d, agentId, project, key, id, now).Ok?
    ensures var d' := ClaimApproval(d, agentId, project, key, id, now).value;
            && d' == d.(approvals := d'.approvals)
            && (forall x: Approval :: x.id != id ==> (x in d'.approvals <==> x in d.approvals))
            && (forall a, a' :: RowIs(d, id, a) && RowIs(d', id, a') ==> a' == a.(status := Consumed))
            && (exists a' :: RowIs(d', id, a'))
            && forall a, p, k, t :: ClaimApproval(d', a, p, k, id, t).Err?
  {
    var i := Position(d.approvals, (a: Approval) => a.id == id);
    var d' := ClaimApproval(d, agentId, project, key, id, now).value;
    assert RowIs(d', id, d'.approvals[i]) && RowIs(d, id, d.approvals[i]);
    forall a | RowIs(d, id, a) ensures a == d.approvals[i] { ApprovalOfId(d, a); }
    forall a' | RowIs(d', id, a') ensures a' == d'.approvals[i] {
      var k :| 0 <= k < |d'.approvals| && d'.approvals[k] == a';
    }
    forall x: Approval | x.id != id ensures x in d'.approvals <==> x in d.approvals {
      if x in d.approvals { var k :| 0 <= k < |d.approvals| && d.approvals[k] == x; assert d'.approvals[k] == x; }
      if x in d'.approvals { var k :| 0 <= k < |d'.approvals| && d'.approvals[k] == x; assert d.approvals[k] == x; }
    }
    DecideAndClaimKeepInv(d, RevealClaim(agentId, project, key, id), now);
    ConsumedIsSpent(d', id, d'.approvals[i]);
  }

  lemma ConsumedIsSpent(d: Document, id: Id, row: Approval)
    requires DocInv(d) && RowIs(d, id, row) && row.status != Approved
    ensures forall a, p, k, t :: ClaimApproval(d, a, p, k, id, t).Err?
  {
    forall a, p, k, t ensures ClaimApproval(d, a, p, k, id, t).Err? {
      ClaimIff(d, a, p, k, id, t);
      forall x: Approval | x.id == id && x in d.approvals ensures x == row { OnlyRowOf(d, id, x, row); }
    }
    hide ClaimApproval;
    hide DocInv;
  }

  // ----- projects and secrets ------------------------------------------------------------------------------

  /** A new project takes a valid unused name below the cap; it is found under its name, is empty of rights, and nothing
      else changes. */
  lemma AddProjectEffect(d: Document, name: string, id: Id)
    ensures AddProject(d, name, id).Ok? <==>
              ValidProjectName(name) && ProjectByName(d, name).None? && |d.projects| < MAX_PROJECTS
    ensures AddProject(d, name, id).Ok? ==>
              var d' := AddProject(d, name, id).value;
              && ProjectByName(d', name) == Some(Project(id, name))
              && (forall other :: other != name ==> ProjectByName(d', other) == ProjectByName(d, other))
              && d' == d.(projects := d'.projects)
    ensures AddProject(d, name, id).Ok? && UniqueProjects(d) && (forall p :: p in d.projects ==> p.id != id)
        ==> UniqueProjects(AddProject(d, name, id).value)
  {
    if AddProject(d, name, id).Ok? {
      var d' := AddProject(d, name, id).value;
      assert d'.projects[|d.projects|] == Project(id, name);
      FindUnique(d'.projects, (x: Project) => x.name == name, Project(id, name));
      forall other | other != name ensures ProjectByName(d', other) == ProjectByName(d, other) {
        FindSnoc(d.projects, Project(id, name), (x: Project) => x.name == other);
      }
    }
  }

  lemma {:induction false} FindSnoc<T(!new)>(s: seq<T>, x: T, p: T -> bool)
    requires !p(x)
    ensures Find(s + [x], p) == Find(s, p)
  {
    if s == [] {
      assert [] + [x] == [x];
    } else {
      assert (s + [x])[0] == s[0] && (s + [x])[1..] == s[1..] + [x];
      FindSnoc(s[1..], x, p);
    }
  }

  /** A removed project is gone and no other is. */
  lemma RemoveProjectEffect(d: Document, name: string)
    requires NamesUnique(d) && RemoveProject(d, name).Ok?
    ensures var d' := RemoveProject(d, name).value;
            && ProjectByName(d', name).None? && d' == d.(projects := d'.projects)
            && forall p: Project :: p.name != name ==> (p in d'.projects <==> p in d.projects)
  {
    RemovedAt(d.projects, Position(d.projects, (p: Project) => p.name == name));
  }

  /** A secret is stored exactly under an existing project, with a value of admissible size, and under a valid key below
      the cap unless the key is there already. */
  lemma SetSecretIff(d: Document, project: string, key: string, value: Bytes)
    ensures SetSecret(d, project, key, value).Ok? <==>
              && 1 <= |value| <= 64 * 1024 && ProjectByName(d, project).Some?
              && (Lookup(d, ProjectByName(d, project).value.id, key).Some? || (ValidKey(key) && |d.secrets| < MAX_SECRETS))
    ensures SetSecret(d, project, key, value).Ok? ==>
              SetSecret(d, project, key, value).value == d.(secrets := SetSecret(d, project, key, value).value.secrets)
  {
  }

  lemma DeleteSecretIff(d: Document, project: string, key: string)
    ensures DeleteSecret(d, project, key).Ok? <==>
              ProjectByName(d, project).Some? && Lookup(d, ProjectByName(d, project).value.id, key).Some?
    ensures DeleteSecret(d, project, key).Ok? ==>
              DeleteSecret(d, project, key).value == d.(secrets := DeleteSecret(d, project, key).value.secrets)
  {
  }
}
