/** Agents over whole runs: ids and tokens stay unique, and a revoked agent is gone for good. */
module Enrolment {
  import opened Prelude
  import opened Model
  import opened Capability
  import opened Authority
  import opened Contents
  import opened Effects
  import opened Commit
  import opened Lifetime
  import opened Histories
  import opened Copies
  import opened SessionObject

  /** Ids and tokens are unique, and all of them were drawn. */
  ghost predicate Enrolled(d: Document, r: Run) {
    && UniqueAgents(d) && UniqueProjects(d)
    && (forall a :: a in d.agents ==> a.id in r.ids && a.token in r.digests)
    && (forall p :: p in d.projects ==> p.id in r.ids)
  }

  ghost predicate EnrolledEverywhere(r: Run) { forall v :: Version(r.w, v) ==> Enrolled(v, r) }

  /** The same projects and agents. */
  predicate SameNames(d: Document, d': Document) { d'.projects == d.projects && d'.agents == d.agents }

  lemma SameNamesEnrolled(d: Document, d': Document, r: Run, r': Run)
    requires Enrolled(d, r) && SameNames(d, d') && r.ids <= r'.ids && r.digests <= r'.digests
    ensures Enrolled(d', r')
  {
  }

  lemma AgentAdditionEnrolled(d: Document, name: string, id: Id, token: CredDigest, r: Run, r': Run)
    requires Enrolled(d, r) && AddAgent(d, name, id, token).Ok? && id !in r.ids && token !in r.digests
    requires r.ids + {id} <= r'.ids && r.digests + {token} <= r'.digests
    ensures Enrolled(AddAgent(d, name, id, token).value, r')
  {
    AddAgentEffect(d, name, id, token);
    hide AddAgent;
  }

  lemma AgentRevocationEnrolled(d: Document, name: string, now: int, r: Run, r': Run)
    requires Enrolled(d, r) && RevokeAgent(d, name, now).Ok? && r.ids <= r'.ids && r.digests <= r'.digests
    ensures Enrolled(RevokeAgent(d, name, now).value, r')
  {
    var d' := RevokeAgent(d, name, now).value;
    assert forall k :: 0 <= k < |d.agents| ==> d'.agents[k] == d.agents[k].(active := d'.agents[k].active);
    forall a | a in d'.agents ensures a.id in r'.ids && a.token in r'.digests {
      var k :| 0 <= k < |d'.agents| && d'.agents[k] == a;
      assert d.agents[k] in d.agents;
    }
  }

  lemma ProjectEditEnrolled(d: Document, c: Call, now: int, r: Run, r': Run)
    requires Enrolled(d, r) && Propose(d, c, now).Ok? && (c.ProjectAdd? || c.ProjectRemove?)
    requires Draws(c) !! r.ids && r.ids + Draws(c) <= r'.ids && r.digests <= r'.digests
    ensures Enrolled(Propose(d, c, now).value, r')
  {
    if c.ProjectAdd? {
      AddProjectEffect(d, c.name, c.id);
      hide Find;
    } else {
      RemovedAt(d.projects, Position(d.projects, (p: Project) => p.name == c.name));
    }
  }

  lemma EditEnrolled(d: Document, c: Call, now: int, r: Run, r': Run)
    requires Enrolled(d, r) && Propose(d, c, now).Ok? && Draws(c) !! r.ids && DrawsDigests(c) !! r.digests
    requires r.ids + Draws(c) <= r'.ids && r.digests + DrawsDigests(c) <= r'.digests
    ensures Enrolled(Propose(d, c, now).value, r')
  {
    if c.AgentAdd? { AgentAdditionEnrolled(d, c.name, c.id, c.token, r, r'); }
    else if c.AgentRevoke? { AgentRevocationEnrolled(d, c.name, now, r, r'); }
    else if c.ProjectAdd? || c.ProjectRemove? { ProjectEditEnrolled(d, c, now, r, r'); }
    else {
      EditKeepsNames(d, c, now);
      SameNamesEnrolled(d, Propose(d, c, now).value, r, r');
    }
    hide Enrolled;
    hide AddAgent;
    hide RevokeAgent;
  }

  lemma EditKeepsNames(d: Document, c: Call, now: int)
    requires Propose(d, c, now).Ok? && !c.AgentAdd? && !c.AgentRevoke? && !c.ProjectAdd? && !c.ProjectRemove?
    ensures SameNames(d, Propose(d, c, now).value)
  {
    hide Find;
    hide Filter;
    if c.SecretSet? { SetSecretIff(d, c.project, c.key, c.value); hide SetSecret; }
    else if c.SecretDelete? { DeleteSecretIff(d, c.project, c.key); hide DeleteSecret; }
    else { OtherEditsKeepShape(d, c, now); hide Propose; }
  }

  lemma DerivedEnrolled(d: Document, s: Step, d': Document, r: Run, r': Run)
    requires Enrolled(d, r) && Derived(d, s, d')
    requires s.Calling? || s.CrashInCall? ==> Draws(s.call) !! r.ids && DrawsDigests(s.call) !! r.digests
    requires r.ids <= r'.ids && r.digests <= r'.digests
    requires s.Calling? || s.CrashInCall? ==> Draws(s.call) <= r'.ids && DrawsDigests(s.call) <= r'.digests
    ensures Enrolled(d', r')
  {
    hide Propose;
    hide Enrolled;
    if s.Calling? || s.CrashInCall? {
      EditEnrolled(d, s.call, s.env.now, r, r');
      SameNamesEnrolled(Propose(d, s.call, s.env.now).value, d', r', r');
    } else {
      SameNamesEnrolled(d, d', r, r');
    }
  }

  /** What a step draws is drawn afterwards. */
  lemma DrawnStays(r: Run, s: Step)
    requires Legal(r, s) && (s.Calling? || s.CrashInCall?)
    ensures Draws(s.call) <= Advance(r, s).ids && DrawsDigests(s.call) <= Advance(r, s).digests
  {
    hide Perform;
    hide Happened;
    hide Load;
  }

  lemma AdvanceEnrolled(r: Run, s: Step)
    requires Good(r) && EnrolledEverywhere(r)
    ensures EnrolledEverywhere(Advance(r, s))
  {
    IdsStay(r, s);
    if Legal(r, s) && (s.Calling? || s.CrashInCall?) { DrawnStays(r, s); }
    forall v | Version(Advance(r, s).w, v) ensures Enrolled(v, Advance(r, s)) {
      VersionsEvolve(r, s, v);
      if Version(r.w, v) { SameNamesEnrolled(v, v, r, Advance(r, s)); }
      else { DerivedEnrolled(r.w.doc.value, s, v, r, Advance(r, s)); }
    }
    hide Good;
    hide Advance;
    hide Enrolled;
    hide Derived;
  }

  /** In every run, agents are told apart by id and by token, and projects by id. */
  lemma {:induction false} RunsStayEnrolled(r: Run, steps: seq<Step>)
    requires Good(r) && EnrolledEverywhere(r)
    ensures Good(Play(r, steps)) && EnrolledEverywhere(Play(r, steps))
  {
    if steps == [] {
    } else {
      RunsStayEnrolled(r, steps[..|steps| - 1]);
      AdvanceKeepsGood(Play(r, steps[..|steps| - 1]), steps[|steps| - 1]);
      AdvanceEnrolled(Play(r, steps[..|steps| - 1]), steps[|steps| - 1]);
    }
    hide Good;
    hide EnrolledEverywhere;
    hide Advance;
  }

  lemma NewbornIsEnrolled(r: Run)
    requires Newborn(r)
    ensures Good(r) && EnrolledEverywhere(r)
  {
    NewbornIsGood(r);
    hide Good;
  }

  // ----- a revoked agent -------------------------------------------------------------------------

  ghost predicate RetiredEverywhere(w: World, id: Id, token: CredDigest) { forall v :: Version(w, v) ==> Retired(v, id, token) }

  lemma EditKeepsRetired(d: Document, c: Call, now: int, id: Id, token: CredDigest)
    requires Propose(d, c, now).Ok? && Retired(d, id, token) && id !in Draws(c) && token !in DrawsDigests(c)
    ensures Retired(Propose(d, c, now).value, id, token)
  {
    var d' := Propose(d, c, now).value;
    if c.AgentAdd? { AddAgentEffect(d, c.name, c.id, c.token); }
    else if c.AgentRevoke? {
      forall a | a in d'.agents && (a.id == id || a.token == token) ensures !a.active {
        var k :| 0 <= k < |d'.agents| && d'.agents[k] == a;
        assert d.agents[k] in d.agents && d'.agents[k] == d.agents[k].(active := d'.agents[k].active);
      }
    }
    else if c.ProjectAdd? || c.ProjectRemove? {}
    else { EditKeepsNames(d, c, now); hide Propose; }
  }

  lemma DerivedKeepsRetired(d: Document, s: Step, d': Document, id: Id, token: CredDigest)
    requires Retired(d, id, token) && Derived(d, s, d')
    requires s.Calling? || s.CrashInCall? ==> id !in Draws(s.call) && token !in DrawsDigests(s.call)
    ensures Retired(d', id, token)
  {
    hide Propose;
    if s.Calling? || s.CrashInCall? { EditKeepsRetired(d, s.call, s.env.now, id, token); }
  }

  ghost predicate Gone(r: Run, id: Id, token: CredDigest) {
    Good(r) && id in r.ids && token in r.digests && RetiredEverywhere(r.w, id, token)
  }

  lemma AdvanceKeepsGone(r: Run, s: Step, id: Id, token: CredDigest)
    requires Gone(r, id, token)
    ensures Gone(Advance(r, s), id, token)
  {
    AdvanceKeepsGood(r, s);
    IdsStay(r, s);
    forall v | Version(Advance(r, s).w, v) ensures Retired(v, id, token) {
      VersionsEvolve(r, s, v);
      if !Version(r.w, v) { DerivedKeepsRetired(r.w.doc.value, s, v, id, token); }
    }
    hide Good;
    hide Advance;
    hide Retired;
    hide Derived;
  }

  lemma {:induction false} GoneForGood(r: Run, steps: seq<Step>, id: Id, token: CredDigest)
    requires Gone(r, id, token)
    ensures Gone(Play(r, steps), id, token)
  {
    if steps == [] {
    } else {
      GoneForGood(r, steps[..|steps| - 1], id, token);
      AdvanceKeepsGone(Play(r, steps[..|steps| - 1]), steps[|steps| - 1], id, token);
    }
    hide Gone;
    hide Advance;
  }

  /** A retired token is in no table of active agents, and no entry names a retired id. */
  lemma RetiredHasNoDigest(d: Document, id: Id, token: CredDigest)
    requires Retired(d, id, token)
    ensures token !in DigestsOf(d.agents)
    ensures forall t :: t in DigestsOf(d.agents) ==> DigestsOf(d.agents)[t] != id
  {
    DigestsAreActiveAgents(d.agents, token);
    forall t | t in DigestsOf(d.agents) ensures DigestsOf(d.agents)[t] != id { DigestsAreActiveAgents(d.agents, t); }
  }

  /** What is refused to an agent that is gone, in whatever state the vault is. */
  lemma GoneIsRefused(r: Run, id: Id, token: CredDigest, actor: string, project: string, env: Env)
    requires Gone(r, id, token)
    ensures forall op, credential :: AuthorizeStep(r.w, id, project, op, credential, env).1.Err?
    ensures forall ops, ttl, lease, digest :: Perform(r.w, actor, LeaseCreate(id, project, ops, ttl, lease, digest), env).result.Err?
    ensures forall key, row :: Perform(r.w, actor, ApprovalRequest(id, project, key, row), env).result.Err?
    ensures forall key, row :: Perform(r.w, actor, RevealClaim(id, project, key, row), env).result.Err?
  {
    hide Good;
    hide Perform;
    hide AuthorizeStep;
    hide RetiredEverywhere;
    forall op, credential ensures AuthorizeStep(r.w, id, project, op, credential, env).1.Err? {
      GoneIsNotAuthorized(r, id, token, project, op, credential, env);
    }
    forall ops, ttl, lease, digest
      ensures Perform(r.w, actor, LeaseCreate(id, project, ops, ttl, lease, digest), env).result.Err?
    {
      GoneDoesNothing(r, id, token, actor, LeaseCreate(id, project, ops, ttl, lease, digest), env);
    }
    forall key, row ensures Perform(r.w, actor, ApprovalRequest(id, project, key, row), env).result.Err? {
      GoneDoesNothing(r, id, token, actor, ApprovalRequest(id, project, key, row), env);
    }
    forall key, row ensures Perform(r.w, actor, RevealClaim(id, project, key, row), env).result.Err? {
      GoneDoesNothing(r, id, token, actor, RevealClaim(id, project, key, row), env);
    }
  }

  lemma GoneIsInactive(r: Run, id: Id, token: CredDigest)
    requires Gone(r, id, token)
    ensures Openable(r.w) && (r.w.doc.Some? ==> DocInv(r.w.doc.value) && !AgentIsActive(r.w.doc.value, id))
  {
    if r.w.doc.Some? { assert Known(r.w.doc.value, r) && Retired(r.w.doc.value, id, token); }
    hide Openable;
    hide DocInv;
  }

  lemma GoneIsNotAuthorized(r: Run, id: Id, token: CredDigest, project: string, op: Op, credential: Option<string>, env: Env)
    requires Gone(r, id, token)
    ensures AuthorizeStep(r.w, id, project, op, credential, env).1.Err?
  {
    GoneIsInactive(r, id, token);
    hide Gone;
    hide Authorize;
    hide Note;
    hide DocInv;
    if r.w.doc.Some? { AuthorizeIff(r.w.doc.value, id, project, op, credential, env.now); }
  }

  lemma GoneDoesNothing(r: Run, id: Id, token: CredDigest, actor: string, c: Call, env: Env)
    requires Gone(r, id, token) && (c.LeaseCreate? || c.ApprovalRequest? || c.RevealClaim?) && c.agentId == id
    ensures Perform(r.w, actor, c, env).result.Err?
  {
    GoneIsInactive(r, id, token);
    hide Gone;
    hide Perform;
    hide DocInv;
    hide Openable;
    if r.w.doc.Some? { InactiveIsRefused(r.w.doc.value, id, c.project, env.now); }
    CallSucceedsIff(r.w, actor, c, env);
    hide CreateLease;
    hide RequestApproval;
    hide ClaimApproval;
  }

  /** A revocation that reported success retires the agent in every copy. */
  lemma SavedRevocationRetires(r: Run, s: Step)
    requires Good(r) && EnrolledEverywhere(r) && Legal(r, s) && s.Calling? && s.call.AgentRevoke?
    requires Perform(r.w, s.actor, s.call, s.env).result.Ok?
    ensures r.w.doc.Some? && AgentByName(r.w.doc.value, s.call.name).Some?
    ensures var a := AgentByName(r.w.doc.value, s.call.name).value; Gone(Advance(r, s), a.id, a.token)
  {
    SavedCallReplacesAll(r, s);
    AdvanceKeepsGood(r, s);
    IdsStay(r, s);
    var d := r.w.doc.value;
    assert Enrolled(d, r);
    RevokeAgentEffect(d, s.call.name, s.env.now);
    var a := AgentByName(d, s.call.name).value;
    assert a in d.agents;
    hide Good;
    hide Perform;
    hide Advance;
    hide RevokeAgent;
    forall v | Version(Advance(r, s).w, v) ensures Retired(v, a.id, a.token) {}
  }

  /** After a revocation that reported success, in every later run: nobody active bears the agent's id or token in any
      copy, its token is in no digest table, and nothing is granted, minted, requested or claimed in its name. */
  lemma RevokedAgentIsGone(newborn: Run, before: seq<Step>, s: Step, after: seq<Step>, actor: string, project: string, env: Env)
    requires Newborn(newborn)
    requires var r := Play(newborn, before);
             Legal(r, s) && s.Calling? && s.call.AgentRevoke? && Perform(r.w, s.actor, s.call, s.env).result.Ok?
             && r.w.doc.Some? && AgentByName(r.w.doc.value, s.call.name).Some?
    ensures var a := AgentByName(Play(newborn, before).w.doc.value, s.call.name).value;
            var r' := Play(Advance(Play(newborn, before), s), after);
            && (forall v :: Version(r'.w, v) ==> !AgentIsActive(v, a.id) && a.token !in DigestsOf(v.agents))
            && (forall op, credential :: AuthorizeStep(r'.w, a.id, project, op, credential, env).1.Err?)
            && (forall ops, ttl, l, digest :: Perform(r'.w, actor, LeaseCreate(a.id, project, ops, ttl, l, digest), env).result.Err?)
            && (forall key, row :: Perform(r'.w, actor, ApprovalRequest(a.id, project, key, row), env).result.Err?)
            && (forall key, row :: Perform(r'.w, actor, RevealClaim(a.id, project, key, row), env).result.Err?)
  {
    hide Good;
    hide Perform;
    hide AuthorizeStep;
    hide Advance;
    hide Play;
    hide Find;
    hide DigestsOf;
    hide EnrolledEverywhere;
    hide Newborn;
    var r := Play(newborn, before);
    var a := AgentByName(r.w.doc.value, s.call.name).value;
    NewbornIsEnrolled(newborn);
    RunsStayEnrolled(newborn, before);
    SavedRevocationRetires(r, s);
    GoneForGood(Advance(r, s), after, a.id, a.token);
    var r' := Play(Advance(r, s), after);
    GoneIsRefused(r', a.id, a.token, actor, project, env);
    forall v | Version(r'.w, v) ensures !AgentIsActive(v, a.id) && a.token !in DigestsOf(v.agents) {
      RetiredHasNoDigest(v, a.id, a.token);
    }
  }
}
