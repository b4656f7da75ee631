/** What a run must deliver: an open request stays open until its deadline unless something ends it, so a request that a
    human approves in time, and that the agent claims in time, yields the value. */
module Requests {
  import opened Prelude
  import opened Audit
  import opened AuditTheorems
  import opened Model
  import opened Capability
  import opened Authority
  import opened Effects
  import opened Commit
  import opened Lifetime
  import opened Histories
  import opened Copies
  import opened Enrolment

  /** These two names are the request's agent and project. */
  predicate PairOf(d: Document, agent: string, project: string, a: Approval) {
    && AgentByName(d, agent).Some? && AgentByName(d, agent).value.id == a.agentId
    && ProjectByName(d, project).Some? && ProjectByName(d, project).value.id == a.projectId
  }

  /** The call neither decides nor claims this request, nor takes away what it rests on. */
  predicate SparesCall(d: Document, c: Call, a: Approval) {
    match c
    case ApprovalDecide(_, id, _) => id != a.id
    case RevealClaim(_, _, _, id) => id != a.id
    case AgentRevoke(name) => AgentByName(d, name).Some? ==> AgentByName(d, name).value.id != a.agentId
    case GrantRevoke(agent, project) => !PairOf(d, agent, project, a)
    case GrantAdd(agent, project, ops) => PairOf(d, agent, project, a) ==> Reveal in ops
    case _ => true
  }

  /** Nor does the step lock an unlocked vault. Failed saves, refusals, crashes in other calls, restarts and unlocks all
      spare it. */
  predicate Spares(r: Run, s: Step, a: Approval) {
    match s
    case Calling(_, c, _) => r.w.doc.Some? ==> SparesCall(r.w.doc.value, c, a)
    case CrashInCall(_, c, _, _) => r.w.doc.Some? ==> SparesCall(r.w.doc.value, c, a)
    case Locking(_) => r.w.doc.None?
    case CrashInLock(_, _) => r.w.doc.None?
    case _ => true
  }

  function Deadline(a: Approval): int {
    if a.status == Approved && a.claimExpiresAt.Some? then a.claimExpiresAt.value else a.pendingExpiresAt
  }

  lemma LiveBeforeDeadline(a: Approval, now: int)
    requires Open(a) && now < Deadline(a) && (a.status == Approved ==> a.claimExpiresAt.Some?)
    ensures !ApprovalTerminal(a, now)
  {
  }

  ghost predicate PresentEverywhere(w: World, a: Approval) { forall v :: Version(w, v) ==> a in v.approvals }

  lemma GrantEditSpares(d: Document, c: Call, now: int, a: Approval)
    requires DocInv(d) && a in d.approvals && Open(a) && SparesCall(d, c, a)
    requires (c.GrantAdd? || c.GrantRevoke?) && Propose(d, c, now).Ok?
    ensures a in Propose(d, c, now).value.approvals
  {
    assert UniqueGrants(d);
    hide DocInv;
    if c.GrantAdd? { AddGrantEffect(d, c.agent, c.project, c.ops, now); } else { RevokeGrantEffect(d, c.agent, c.project, now); }
    hide AddGrant;
    hide RevokeGrant;
    hide Find;
    hide Authorized;
  }

  lemma RowEditSpares(d: Document, c: Call, now: int, a: Approval)
    requires DocInv(d) && a in d.approvals && SparesCall(d, c, a) && !ApprovalTerminal(a, now)
    requires (c.ApprovalDecide? || c.RevealClaim? || c.ApprovalRequest? || c.LeaseCreate?) && Propose(d, c, now).Ok?
    ensures a in Propose(d, c, now).value.approvals
  {
    match c
    case ApprovalDecide(actor, id, approve) => DecideApprovalEffect(d, actor, id, approve, now);
    case RevealClaim(agentId, project, key, id) => ClaimEffect(d, agentId, project, key, id, now);
    case ApprovalRequest(agentId, project, key, id) => RequestApprovalEffect(d, agentId, project, key, id, now);
    case LeaseCreate(agentId, project, ops, ttl, id, digest) => CreatedLease(d, agentId, project, ops, ttl, id, digest, now);
    hide DocInv;
    hide Find;
    hide DecideApproval;
    hide ClaimApproval;
    hide RequestApproval;
    hide CreateLease;
  }

  lemma OtherEditSpares(d: Document, c: Call, now: int, a: Approval)
    requires a in d.approvals && Propose(d, c, now).Ok?
    requires c.ProjectAdd? || c.ProjectRemove? || c.SecretSet? || c.SecretDelete? || c.AgentAdd? || c.LeaseRevoke?
    ensures a in Propose(d, c, now).value.approvals
  {
    hide Find;
  }

  lemma EditSpares(d: Document, c: Call, now: int, a: Approval)
    requires DocInv(d) && UniqueAgents(d) && a in d.approvals && Open(a) && !ApprovalTerminal(a, now)
    requires SparesCall(d, c, a) && Propose(d, c, now).Ok?
    ensures a in Propose(d, c, now).value.approvals
  {
    if c.GrantAdd? || c.GrantRevoke? { GrantEditSpares(d, c, now, a); }
    else if c.AgentRevoke? { RevokeAgentEffect(d, c.name, now); }
    else if c.ApprovalDecide? || c.RevealClaim? || c.ApprovalRequest? || c.LeaseCreate? { RowEditSpares(d, c, now, a); }
    else { OtherEditSpares(d, c, now, a); }
    hide DocInv;
    hide SparesCall;
    hide RevokeAgent;
    hide AddGrant;
    hide RevokeGrant;
    hide CreateLease;
    hide DecideApproval;
    hide ClaimApproval;
    hide RequestApproval;
  }

  lemma AdvanceSpares(r: Run, s: Step, a: Approval)
    requires Good(r) && EnrolledEverywhere(r) && PresentEverywhere(r.w, a) && Open(a)
    requires a.status == Approved ==> a.claimExpiresAt.Some?
    requires Spares(r, s, a) && Advance(r, s).now < Deadline(a)
    ensures PresentEverywhere(Advance(r, s).w, a)
  {
    TimeIs(r, s);
    forall v | Version(Advance(r, s).w, v) ensures a in v.approvals {
      VersionsEvolve(r, s, v);
      if !Version(r.w, v) { DerivedSpares(r, s, v, a); }
    }
    hide Good;
    hide EnrolledEverywhere;
    hide Advance;
    hide Derived;
  }

  lemma TimeIs(r: Run, s: Step)
    ensures Legal(r, s) ==> Advance(r, s).now == s.env.now
    ensures r.now <= Advance(r, s).now
  {
    hide Perform;
    hide AuthorizeStep;
    hide LockPersist;
    hide UnlockStep;
    hide Note;
    hide Load;
    hide Happened;
    hide CommitWith;
  }

  lemma DerivedSpares(r: Run, s: Step, v: Document, a: Approval)
    requires Good(r) && EnrolledEverywhere(r) && PresentEverywhere(r.w, a) && Open(a)
    requires a.status == Approved ==> a.claimExpiresAt.Some?
    requires r.w.doc.Some? && Derived(r.w.doc.value, s, v) && Spares(r, s, a) && s.env.now < Deadline(a)
    ensures a in v.approvals
  {
    var d := r.w.doc.value;
    assert Known(d, r) && Enrolled(d, r);
    LiveBeforeDeadline(a, s.env.now);
    hide Good;
    hide DocInv;
    hide Propose;
    hide Purged;
    hide SparesCall;
    hide ApprovalTerminal;
    if s.Calling? || s.CrashInCall? { EditSpares(d, s.call, s.env.now, a); }
    else { assert s.Collect?; PurgeSpares(d, s.env.now, a); }
  }

  lemma PurgeSpares(d: Document, now: int, a: Approval)
    requires a in d.approvals && !ApprovalTerminal(a, now)
    ensures a in Purged(d, now).approvals
  {
  }

  /** Every step of the run spares the request. */
  ghost predicate SparedBy(r: Run, steps: seq<Step>, a: Approval) {
    forall i :: 0 <= i < |steps| ==> Spares(Play(r, steps[..i]), steps[i], a)
  }

  lemma SparedBefore(r: Run, steps: seq<Step>, a: Approval)
    requires steps != [] && SparedBy(r, steps, a)
    ensures var n := |steps| - 1; SparedBy(r, steps[..n], a) && Spares(Play(r, steps[..n]), steps[n], a)
  {
    hide Spares;
    hide Play;
    var n := |steps| - 1;
    forall i | 0 <= i < n ensures Spares(Play(r, steps[..n][..i]), steps[..n][i], a) {
      assert steps[..n][..i] == steps[..i];
      assert Spares(Play(r, steps[..i]), steps[i], a);
    }
  }

  /** An open request that every copy holds is still held by every copy, unchanged, after any run that spares it and
      ends before its deadline. */
  lemma {:induction false} OpenRequestStays(r: Run, steps: seq<Step>, a: Approval)
    requires Good(r) && EnrolledEverywhere(r) && PresentEverywhere(r.w, a) && Open(a)
    requires a.status == Approved ==> a.claimExpiresAt.Some?
    requires SparedBy(r, steps, a) && Play(r, steps).now < Deadline(a)
    ensures var r' := Play(r, steps); Good(r') && EnrolledEverywhere(r') && PresentEverywhere(r'.w, a)
  {
    if steps == [] {
    } else {
      var n := |steps| - 1;
      var before := Play(r, steps[..n]);
      SparedBefore(r, steps, a);
      TimeIs(before, steps[n]);
      OpenRequestStays(r, steps[..n], a);
      AdvanceKeepsGood(before, steps[n]);
      AdvanceEnrolled(before, steps[n]);
      AdvanceSpares(before, steps[n], a);
    }
    hide Good;
    hide EnrolledEverywhere;
    hide PresentEverywhere;
    hide SparedBy;
    hide Spares;
    hide Advance;
  }

  // ----- request, decide, claim -----------------------------------------------------------------

  /** The row a request leaves. */
  function Asking(d: Document, c: Call, now: int): Approval
    requires c.ApprovalRequest? && ProjectByName(d, c.project).Some?
  {
    Approval(c.id, c.agentId, ProjectByName(d, c.project).value.id, c.key, Pending, now, now + 600 * SECOND, None, None)
  }

  function Granted(a: Approval, now: int): Approval {
    a.(status := Approved, approvedAt := Some(now), claimExpiresAt := Some(now + 300 * SECOND))
  }

  lemma SavedRequestIsEverywhere(r: Run, s: Step)
    requires Good(r) && Legal(r, s) && s.Calling? && s.call.ApprovalRequest? && Perform(r.w, s.actor, s.call, s.env).result.Ok?
    ensures r.w.doc.Some? && ProjectByName(r.w.doc.value, s.call.project).Some?
    ensures PresentEverywhere(Advance(r, s).w, Asking(r.w.doc.value, s.call, s.env.now))
  {
    SavedCallReplacesAll(r, s);
    var c := s.call;
    RequestApprovalEffect(r.w.doc.value, c.agentId, c.project, c.key, c.id, s.env.now);
    hide Good;
    hide Perform;
    hide Advance;
    hide RequestApproval;
    hide Find;
  }

  /** A pending request that the human's copy holds can be decided, by any human, until it expires. */
  lemma PendingCanBeDecided(r: Run, a: Approval, actor: string, approve: bool, now: int)
    requires Good(r) && PresentEverywhere(r.w, a) && a.status == Pending && r.w.doc.Some?
    requires IsHumanIdentity(actor) && now < a.pendingExpiresAt
    ensures Propose(r.w.doc.value, ApprovalDecide(actor, a.id, approve), now).Ok?
  {
    assert Known(r.w.doc.value, r);
    assert RowIs(r.w.doc.value, a.id, a);
    DecideApprovalEffect(r.w.doc.value, actor, a.id, approve, now);
    hide Good;
    hide Known;
    hide DecideApproval;
  }

  lemma SavedApprovalIsEverywhere(r: Run, s: Step, a: Approval)
    requires Good(r) && Legal(r, s) && s.Calling? && s.call.ApprovalDecide? && s.call.approve && s.call.approvalId == a.id
    requires PresentEverywhere(r.w, a) && Perform(r.w, s.actor, s.call, s.env).result.Ok?
    ensures PresentEverywhere(Advance(r, s).w, Granted(a, s.env.now))
  {
    hide Perform;
    hide Propose;
    hide Advance;
    hide DocInv;
    hide FreshFor;
    hide Openable;
    GoodIsReady(r, s.call);
    hide Good;
    SavedCallReplacesAll(r, s);
    ApprovedRowIsGranted(r.w.doc.value, s.call, a, s.env.now);
  }

  lemma ApprovedRowIsGranted(d: Document, c: Call, a: Approval, now: int)
    requires DocInv(d) && a in d.approvals && c.ApprovalDecide? && c.approve && c.approvalId == a.id && Propose(d, c, now).Ok?
    ensures Granted(a, now) in Propose(d, c, now).value.approvals
  {
    assert RowIs(d, a.id, a);
    DecideApprovalEffect(d, c.actor, c.approvalId, true, now);
    var a' :| RowIs(Propose(d, c, now).value, a.id, a');
    assert a' == Granted(a, now);
    hide DecideApproval;
    hide DocInv;
  }

  /** An approved request that the agent's copy holds can be claimed until it expires. */
  lemma ApprovedCanBeClaimed(r: Run, a: Approval, project: string, now: int)
    requires Good(r) && PresentEverywhere(r.w, a) && a.status == Approved && r.w.doc.Some? && now < Deadline(a)
    requires ProjectByName(r.w.doc.value, project).Some? && ProjectByName(r.w.doc.value, project).value.id == a.projectId
    requires SecretOf(r.w.doc.value, a.projectId, a.key).Some?
    ensures Propose(r.w.doc.value, RevealClaim(a.agentId, project, a.key, a.id), now).Ok?
  {
    hide Good;
    hide Openable;
    hide DocInv;
    hide FreshFor;
    hide ClaimApproval;
    hide Find;
    hide Authorized;
    hide AgentIsActive;
    var d := r.w.doc.value;
    GoodIsReady(r, LeaseRevoke(None, a.id));
    assert Version(r.w, d);
    ApprovedIsBacked(d, a);
    ClaimIff(d, a.agentId, project, a.key, a.id, now);
    assert Claimable(d, a, a.agentId, a.projectId, a.key, now);
  }

  lemma ApprovedIsBacked(d: Document, a: Approval)
    requires DocInv(d) && a in d.approvals
    ensures ApprovalBacked(d, a)
  {
  }

  /** The I/O of this call goes well: the vault can be sealed and saved, and its entry fits and is written. */
  predicate GoesThrough(w: World, actor: string, c: Call, env: Env) {
    && !env.io.sealFails && !env.io.tooLarge && !env.io.saveFails && env.io.append == NoFault
    && FileLen(w.log) + Space(AllowedBody(actor, OpName(c), env)) <= w.handle.limits.soft
  }

  lemma GoingThroughSucceeds(r: Run, s: Step)
    requires Good(r) && s.Calling? && r.w.doc.Some? && Propose(r.w.doc.value, s.call, s.env.now).Ok?
    requires GoesThrough(r.w, s.actor, s.call, s.env)
    ensures Perform(r.w, s.actor, s.call, s.env).result.Ok?
  {
    assert Openable(r.w);
    hide Good;
    hide Openable;
    hide Propose;
    hide Perform;
    CallSucceedsIff(r.w, s.actor, s.call, s.env);
  }

  /** One request's course: a run before it, the request, a wait, the decision, another wait, the claim. */
  datatype Course = Course(before: seq<Step>, asks: Step, waits: seq<Step>, decides: Step, pauses: seq<Step>, claims: Step)

  function AtRequest(n: Run, c: Course): Run { Play(n, c.before) }
  function AtDecision(n: Run, c: Course): Run { Play(Advance(AtRequest(n, c), c.asks), c.waits) }
  function AtClaim(n: Run, c: Course): Run { Play(Advance(AtDecision(n, c), c.decides), c.pauses) }

  /** An agent's request was saved. */
  ghost predicate WasAsked(n: Run, c: Course) {
    var r := AtRequest(n, c);
    && Legal(r, c.asks) && c.asks.Calling? && c.asks.call.ApprovalRequest? && Perform(r.w, c.asks.actor, c.asks.call, c.asks.env).result.Ok?
    && r.w.doc.Some? && ProjectByName(r.w.doc.value, c.asks.call.project).Some?
  }

  function RequestOf(n: Run, c: Course): Approval
    requires WasAsked(n, c)
  {
    Asking(AtRequest(n, c).w.doc.value, c.asks.call, c.asks.env.now)
  }

  /** A human approves it within ten minutes, nothing in between having ended it. */
  ghost predicate IsApproved(n: Run, c: Course)
    requires WasAsked(n, c)
  {
    var r, s := AtDecision(n, c), c.decides;
    && SparedBy(Advance(AtRequest(n, c), c.asks), c.waits, RequestOf(n, c))
    && r.w.doc.Some? && Legal(r, s) && s.Calling? && s.call.ApprovalDecide? && s.call.approve
    && s.call.approvalId == RequestOf(n, c).id && IsHumanIdentity(s.call.actor)
    && s.env.now < c.asks.env.now + 600 * SECOND && GoesThrough(r.w, s.actor, s.call, s.env)
  }

  function ApprovedRow(n: Run, c: Course): Approval
    requires WasAsked(n, c)
  {
    Granted(RequestOf(n, c), c.decides.env.now)
  }

  /** Its agent claims it within five minutes of that, nothing in between having ended it, the project and the key still
      being there. */
  ghost predicate IsClaimed(n: Run, c: Course)
    requires WasAsked(n, c)
  {
    var r, s, a := AtClaim(n, c), c.claims, ApprovedRow(n, c);
    && SparedBy(Advance(AtDecision(n, c), c.decides), c.pauses, a)
    && r.w.doc.Some? && Legal(r, s) && s.Calling? && s.call.RevealClaim?
    && s.call == RevealClaim(a.agentId, s.call.project, a.key, a.id) && s.env.now < c.decides.env.now + 300 * SECOND
    && ProjectByName(r.w.doc.value, s.call.project).Some? && ProjectByName(r.w.doc.value, s.call.project).value.id == a.projectId
    && SecretOf(r.w.doc.value, a.projectId, a.key).Some? && GoesThrough(r.w, s.actor, s.call, s.env)
  }

  /** A request is approved when a human approves it in time, over any run in between that spares it. */
  lemma RequestGetsApproved(n: Run, c: Course)
    requires Newborn(n) && WasAsked(n, c) && IsApproved(n, c)
    ensures Perform(AtDecision(n, c).w, c.decides.actor, c.decides.call, c.decides.env).result.Ok?
    ensures var r := Advance(AtDecision(n, c), c.decides);
            Good(r) && EnrolledEverywhere(r) && PresentEverywhere(r.w, ApprovedRow(n, c))
  {
    hide Good;
    hide Perform;
    hide Propose;
    hide Advance;
    hide Play;
    hide Find;
    hide EnrolledEverywhere;
    hide Newborn;
    hide SparedBy;
    hide PresentEverywhere;
    hide GoesThrough;
    var r, a := AtRequest(n, c), RequestOf(n, c);
    var r1, r2 := Advance(r, c.asks), AtDecision(n, c);
    NewbornIsEnrolled(n);
    RunsStayEnrolled(n, c.before);
    AdvanceKeepsGood(r, c.asks);
    AdvanceEnrolled(r, c.asks);
    SavedRequestIsEverywhere(r, c.asks);
    OpenRequestStays(r1, c.waits, a);
    PendingCanBeDecided(r2, a, c.decides.call.actor, true, c.decides.env.now);
    GoingThroughSucceeds(r2, c.decides);
    SavedApprovalIsEverywhere(r2, c.decides, a);
    AdvanceKeepsGood(r2, c.decides);
    AdvanceEnrolled(r2, c.decides);
  }

  /** A request that a human approves in time and its agent claims in time yields the value, over any runs in between that
      spare it: restarts, unlocks, other requests, refusals and failures included. */
  lemma ApprovedRequestYieldsTheValue(n: Run, c: Course)
    requires Newborn(n) && WasAsked(n, c) && IsApproved(n, c) && IsClaimed(n, c)
    ensures var r, a := AtClaim(n, c), RequestOf(n, c);
            && Perform(r.w, c.claims.actor, c.claims.call, c.claims.env).result.Ok?
            && Advance(r, c.claims).history == r.history + [Revealed(a.id, a.agentId, a.projectId, a.key, c.claims.env.now)]
  {
    hide Good;
    hide Perform;
    hide Propose;
    hide Advance;
    hide Play;
    hide Find;
    hide EnrolledEverywhere;
    hide Newborn;
    hide SparedBy;
    hide PresentEverywhere;
    hide GoesThrough;
    var r, a := AtClaim(n, c), ApprovedRow(n, c);
    RequestGetsApproved(n, c);
    OpenRequestStays(Advance(AtDecision(n, c), c.decides), c.pauses, a);
    ApprovedCanBeClaimed(r, a, c.claims.call.project, c.claims.env.now);
    GoingThroughSucceeds(r, c.claims);
    ClaimIsARevelation(r, c.claims, a);
  }

  lemma ClaimIsARevelation(r: Run, s: Step, a: Approval)
    requires Good(r) && Legal(r, s) && s.Calling? && s.call.RevealClaim? && r.w.doc.Some?
    requires s.call == RevealClaim(a.agentId, s.call.project, a.key, a.id)
    requires ProjectByName(r.w.doc.value, s.call.project).Some? && ProjectByName(r.w.doc.value, s.call.project).value.id == a.projectId
    requires Propose(r.w.doc.value, s.call, s.env.now).Ok? && Perform(r.w, s.actor, s.call, s.env).result.Ok?
    ensures Advance(r, s).history == r.history + [Revealed(a.id, a.agentId, a.projectId, a.key, s.env.now)]
  {
    GoodIsReady(r, s.call);
    hide Good;
    hide Perform;
    hide Propose;
    hide Find;
  }
}
