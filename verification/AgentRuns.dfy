/** What agents can and cannot bring about on their own: runs of requests that carry no human credential. */
module AgentRuns {
  import opened Prelude
  import opened Audit
  import opened Model
  import opened Capability
  import opened Commit
  import opened Lifetime
  import opened Histories
  import opened HumanSessions
  import opened Broker
  import opened SessionRuns
  import opened Access

  /** What only the human owner may edit. */
  predicate SameCore(d: Document, e: Document) {
    d.projects == e.projects && d.secrets == e.secrets && d.agents == e.agents && d.grants == e.grants
  }

  ghost predicate ApprovedSomewhere(w: World, id: Id) {
    exists v, a :: Version(w, v) && a in v.approvals && a.id == id && a.status == Approved
  }

  /** The rows a claim could consume now. */
  function ApprovedIds(d: Document): set<Id> { set a | a in d.approvals && a.status == Approved :: a.id }

  function Claims(w: World): set<Id> { if w.doc.Some? then ApprovedIds(w.doc.value) else {} }

  function Reveals(h: seq<Happening>): nat {
    if h == [] then 0 else Reveals(h[..|h| - 1]) + if h[|h| - 1].Revealed? then 1 else 0
  }

  /** No copy has a new core or a newly approved row, a locked vault stays locked, and every value revealed used up
      one approved row. */
  ghost predicate Restrained(r: Lifetime.Run, r': Lifetime.Run) {
    && (forall v' :: Version(r'.w, v') ==> exists v :: Version(r.w, v) && SameCore(v', v))
    && (forall id :: ApprovedSomewhere(r'.w, id) ==> ApprovedSomewhere(r.w, id))
    && (r'.w.doc.Some? ==> r.w.doc.Some?)
    && |Claims(r'.w)| + Reveals(r'.history) <= |Claims(r.w)| + Reveals(r.history)
  }

  lemma RestrainedTransitive(a: Lifetime.Run, b: Lifetime.Run, c: Lifetime.Run)
    requires Restrained(a, b) && Restrained(b, c)
    ensures Restrained(a, c)
  {
    forall v'' | Version(c.w, v'') ensures exists v :: Version(a.w, v) && SameCore(v'', v) {
      var v' :| Version(b.w, v') && SameCore(v'', v');
      var v :| Version(a.w, v) && SameCore(v', v);
      assert SameCore(v'', v);
    }
  }

  // ----- single steps ----------------------------------------------------------------------------

  predicate AgentCall(c: Call) { c.LeaseCreate? || c.LeaseRevoke? || c.ApprovalRequest? || c.RevealClaim? }

  predicate AgentStep(s: Lifetime.Step) {
    s.Noting? || s.Authorizing? || s.Locking? || (s.Calling? && AgentCall(s.call))
  }

  lemma AgentEditKeepsCore(d: Document, c: Call, now: int)
    requires AgentCall(c) && Propose(d, c, now).Ok?
    ensures SameCore(Propose(d, c, now).value, d)
  {
  }

  /** No agent edit approves anything: approved rows of the result were approved before. */
  lemma AgentEditApprovesNothing(d: Document, c: Call, now: int)
    requires AgentCall(c) && Propose(d, c, now).Ok?
    ensures forall a' :: a' in Propose(d, c, now).value.approvals && a'.status == Approved ==> a' in d.approvals
  {
    RowsFrom(d, c, now);
    forall a' | a' in Propose(d, c, now).value.approvals && a'.status == Approved ensures a' in d.approvals {
      assert ApprovalFrom(d, a', c, now);
    }
  }

  lemma ApprovedIdsShrink(d: Document, d': Document)
    requires forall a' :: a' in d'.approvals && a'.status == Approved ==> a' in d.approvals
    ensures ApprovedIds(d') <= ApprovedIds(d) && |ApprovedIds(d')| <= |ApprovedIds(d)|
  {
    forall id | id in ApprovedIds(d') ensures id in ApprovedIds(d) {
      var a :| a in d'.approvals && a.status == Approved && a.id == id;
      assert a in d.approvals;
    }
    SubsetSize(ApprovedIds(d'), ApprovedIds(d));
  }

  lemma RevealsSnoc(h: seq<Happening>, e: Happening)
    ensures Reveals(h + [e]) == Reveals(h) + if e.Revealed? then 1 else 0
  {
    assert (h + [e])[..|h|] == h;
  }

  lemma ConsumingUsesUp(d: Document, i: nat)
    requires UniqueApprovals(d) && i < |d.approvals| && d.approvals[i].status == Approved
    ensures var d' := d.(approvals := d.approvals[i := d.approvals[i].(status := Consumed)]);
            |ApprovedIds(d')| + 1 <= |ApprovedIds(d)|
  {
    var d' := d.(approvals := d.approvals[i := d.approvals[i].(status := Consumed)]);
    var id := d.approvals[i].id;
    assert d.approvals[i] in d.approvals && id in ApprovedIds(d);
    forall x | x in ApprovedIds(d') ensures x in ApprovedIds(d) - {id} {
      var a :| a in d'.approvals && a.status == Approved && a.id == x;
      var k :| 0 <= k < |d'.approvals| && d'.approvals[k] == a;
      assert d.approvals[k] in d.approvals;
    }
    SubsetSize(ApprovedIds(d'), ApprovedIds(d) - {id});
  }

  /** A successful claim uses up its row. */
  lemma ClaimUsesUpItsRow(d: Document, c: Call, now: int)
    requires DocInv(d) && c.RevealClaim? && Propose(d, c, now).Ok?
    ensures |ApprovedIds(Propose(d, c, now).value)| + 1 <= |ApprovedIds(d)|
  {
    hide ApprovedIds;
    var i := Position(d.approvals, (a: Approval) => a.id == c.approvalId);
    ConsumingUsesUp(d, i);
  }

  /** Moving documents around or recording entries. */
  lemma SameVersionsRestrained(r: Lifetime.Run, r': Lifetime.Run)
    requires forall v :: Version(r'.w, v) ==> Version(r.w, v)
    requires r'.w.doc == r.w.doc || r'.w.doc.None?
    requires Reveals(r'.history) == Reveals(r.history)
    ensures Restrained(r, r')
  {
    forall v' | Version(r'.w, v') ensures exists v :: Version(r.w, v) && SameCore(v', v) { assert SameCore(v', v'); }
  }

  lemma SourcedRestrained(w: World, w': World, d: Document, d': Document)
    requires Version(w, d) && Sourced(w, w', d') && SameCore(d', d)
    requires forall a' :: a' in d'.approvals && a'.status == Approved ==> a' in d.approvals
    ensures forall v' :: Version(w', v') ==> exists v :: Version(w, v) && SameCore(v', v)
    ensures forall id :: ApprovedSomewhere(w', id) ==> ApprovedSomewhere(w, id)
  {
    forall v' | Version(w', v') ensures exists v :: Version(w, v) && SameCore(v', v) {
      if Version(w, v') { assert SameCore(v', v'); } else { assert SameCore(v', d); }
    }
    forall id | ApprovedSomewhere(w', id) ensures ApprovedSomewhere(w, id) {
      var v', a :| Version(w', v') && a in v'.approvals && a.id == id && a.status == Approved;
      if !Version(w, v') { assert a in d'.approvals; }
    }
  }

  lemma CallHappenings(d: Document, c: Call, now: int, saved: bool, h: seq<Happening>)
    requires AgentCall(c) && Propose(d, c, now).Ok?
    ensures Reveals(h + Happened(d, c, now, saved)) == Reveals(h) + if c.RevealClaim? && saved then 1 else 0
  {
    var news := Happened(d, c, now, saved);
    if news == [] { assert h + news == h; } else { assert news == [news[0]]; RevealsSnoc(h, news[0]); }
  }

  lemma EditRestrained(r: Lifetime.Run, r': Lifetime.Run, d: Document, c: Call, now: int, saved: bool)
    requires r.w.doc == Some(d) && DocInv(d) && AgentCall(c) && Propose(d, c, now).Ok?
    requires Sourced(r.w, r'.w, Propose(d, c, now).value)
    requires saved ==> r'.w.doc.Some? && SameRows(r'.w.doc.value, Propose(d, c, now).value)
    requires !saved ==> r'.w.doc == r.w.doc
    requires r'.history == r.history + Happened(d, c, now, saved)
    ensures Restrained(r, r')
  {
    var d' := Propose(d, c, now).value;
    AgentEditKeepsCore(d, c, now);
    AgentEditApprovesNothing(d, c, now);
    ApprovedIdsShrink(d, d');
    SourcedRestrained(r.w, r'.w, d, d');
    CallHappenings(d, c, now, saved, r.history);
    if c.RevealClaim? { ClaimUsesUpItsRow(d, c, now); }
    ClaimsAfter(r.w, r'.w, d, d', saved);
    hide Propose;
    hide Happened;
    hide ApprovedIds;
    hide DocInv;
    hide Sourced;
  }

  lemma CallRestrained(r: Lifetime.Run, actor: string, c: Call, env: Env)
    requires Good(r) && Legal(r, Calling(actor, c, env)) && AgentCall(c)
    ensures Restrained(r, Advance(r, Calling(actor, c, env)))
  {
    if r.w.doc.Some? && Propose(r.w.doc.value, c, env.now).Ok? {
      ProposedCallRestrained(r, actor, c, env);
    } else {
      RefusedCallRestrained(r, actor, c, env);
    }
    hide Good;
    hide Propose;
    hide Restrained;
    hide Advance;
  }

  lemma ProposedCallRestrained(r: Lifetime.Run, actor: string, c: Call, env: Env)
    requires Good(r) && Legal(r, Calling(actor, c, env)) && AgentCall(c)
    requires r.w.doc.Some? && Propose(r.w.doc.value, c, env.now).Ok?
    ensures Restrained(r, Advance(r, Calling(actor, c, env)))
  {
    hide Restrained;
    hide Perform;
    hide Propose;
    hide Happened;
    hide DocInv;
    hide FreshFor;
    hide Openable;
    hide Good;
    GoodIsReady(r, c);
    PerformVersions(r.w, actor, c, env);
    EditRestrained(r, Advance(r, Calling(actor, c, env)), r.w.doc.value, c, env.now, Perform(r.w, actor, c, env).result.Ok?);
  }

  lemma RefusedCallRestrained(r: Lifetime.Run, actor: string, c: Call, env: Env)
    requires Good(r) && Legal(r, Calling(actor, c, env))
    requires r.w.doc.None? || Propose(r.w.doc.value, c, env.now).Err?
    ensures Restrained(r, Advance(r, Calling(actor, c, env)))
  {
    hide Restrained;
    hide Perform;
    hide Propose;
    hide Happened;
    hide Good;
    hide Openable;
    var r' := Advance(r, Calling(actor, c, env));
    GoodIsReady(r, c);
    PerformVersions(r.w, actor, c, env);
    NothingHappened(r.w, c, env.now);
    assert r'.history == r.history;
    SameVersionsRestrained(r, r');
  }

  lemma NothingHappened(w: World, c: Call, now: int)
    requires w.doc.None? || Propose(w.doc.value, c, now).Err?
    ensures forall saved :: w.doc.Some? ==> Happened(w.doc.value, c, now, saved) == []
  {
  }

  lemma ClaimsAfter(w: World, w': World, d: Document, d': Document, saved: bool)
    requires w.doc == Some(d)
    requires saved ==> w'.doc.Some? && SameRows(w'.doc.value, d')
    requires !saved ==> w'.doc == w.doc
    ensures Claims(w') == if saved then ApprovedIds(d') else ApprovedIds(d)
  {
  }

  lemma LockApprovesNothing(d: Document, now: int)
    ensures SameCore(LockedDown(d, now), d)
    ensures forall a' :: a' in LockedDown(d, now).approvals ==> a'.status != Approved
  {
    forall a' | a' in LockedDown(d, now).approvals ensures a'.status != Approved {
      var k :| 0 <= k < |d.approvals| && LockedDown(d, now).approvals[k] == a';
    }
  }

  lemma LockRestrained(r: Lifetime.Run, env: Env)
    requires Good(r) && Legal(r, Locking(env))
    ensures Restrained(r, Advance(r, Locking(env)))
  {
    hide Good;
    hide Openable;
    hide CommitWith;
    hide Reveals;
    hide ApprovedIds;
    var r' := Advance(r, Locking(env));
    if r.w.doc.Some? {
      var d := r.w.doc.value;
      LockVersions(r, env);
      LockApprovesNothing(d, env.now);
      hide LockedDown;
      SourcedRestrained(r.w, r'.w, d, LockedDown(d, env.now));
      if r'.history != r.history { RevealsSnoc(r.history, LockSaved); }
      assert Claims(r'.w) == {};
    } else {
      assert r'.history == r.history + [] == r.history;
      SameVersionsRestrained(r, r');
    }
  }

  lemma StepRestrained(r: Lifetime.Run, s: Lifetime.Step)
    requires Good(r) && AgentStep(s)
    ensures Good(Advance(r, s)) && Restrained(r, Advance(r, s))
  {
    AdvanceKeepsGood(r, s);
    if Legal(r, s) {
      match s
      case Noting(_, _, _, _) => SameVersionsRestrained(r, Advance(r, s));
      case Authorizing(_, _, _, _, _) => AuthorizingKeepsGood(r, s); SameVersionsRestrained(r, Advance(r, s));
      case Locking(env) => LockRestrained(r, env);
      case Calling(actor, c, env) => CallRestrained(r, actor, c, env);
    } else {
      SameVersionsRestrained(r, r);
    }
  }

  // ----- requests -----------------------------------------------------------------------------------

  /** The request carries neither a passphrase that opens the vault nor a live session: whatever else it presents, wrong
      passphrases and ended sessions included. */
  predicate WithoutHuman(d: Daemon, req: Request) {
    req.passphrase != Some(true) && (req.session.Some? ==> !LiveSession(d, req.session.value, req.tick))
  }

  /** Only locks were added. */
  predicate OnlyLocks(h: seq<SessionEvent>, h': seq<SessionEvent>) {
    h <= h' && forall m :: |h| <= m < |h'| ==> h'[m] == AllEnded
  }

  /** The run is restrained and no human session was opened, extended or kept past a lock. */
  ghost predicate Contained(d: Daemon, d': Daemon) {
    Good(d'.run) && Restrained(d.run, d'.run) && OnlyDrops(d.table, d'.table) && OnlyLocks(d.events, d'.events)
  }

  lemma ContainedTransitive(a: Daemon, b: Daemon, c: Daemon)
    requires Contained(a, b) && Contained(b, c)
    ensures Contained(a, c)
  {
    hide Good;
    RestrainedTransitive(a.run, b.run, c.run);
    forall m | |a.events| <= m < |c.events| ensures c.events[m] == AllEnded {
      if m < |b.events| { assert c.events[m] == b.events[m]; }
    }
  }

  lemma ContainedRefl(d: Daemon)
    requires Good(d.run)
    ensures Contained(d, d)
  {
    SameVersionsRestrained(d.run, d.run);
  }

  lemma ContainedIsGood(d: Daemon, d': Daemon)
    requires Contained(d, d')
    ensures Good(d'.run)
  {
    hide Good;
  }

  lemma MovedContained(d: Daemon, s: Lifetime.Step)
    requires Good(d.run) && AgentStep(s)
    ensures Contained(d, Moved(d, s))
  {
    StepRestrained(d.run, s);
    hide Good;
    hide Restrained;
    hide Advance;
  }

  lemma ReadsContained(d: Daemon, actor: string, env: Env)
    requires Good(d.run)
    ensures forall op, e :: Contained(d, Refusal(d, actor, op, e, env))
    ensures forall op :: Contained(d, Recorded(d, actor, op, env).0)
    ensures forall op :: Contained(d, GatedRead(d, actor, op, env).0)
  {
    hide Contained;
    hide Moved;
    forall op, e ensures Contained(d, Refusal(d, actor, op, e, env)) {
      MovedContained(d, Noting(DeniedBody(actor, op, e, env), true, Ordinary, env));
    }
    forall op ensures Contained(d, Recorded(d, actor, op, env).0) && Contained(d, GatedRead(d, actor, op, env).0) {
      MovedContained(d, Noting(AllowedBody(actor, op, env), true, Ordinary, env));
      MovedContained(d, Noting(DeniedBody(actor, op, Locked, env), false, Ordinary, env));
    }
  }

  /** Reads after an authorization. */
  lemma ReadsAfter(d: Daemon, d1: Daemon, actor: string, env: Env)
    requires Contained(d, d1)
    ensures forall op, e :: Contained(d, Refusal(d1, actor, op, e, env))
    ensures forall op :: Contained(d, GatedRead(d1, actor, op, env).0)
  {
    ReadsContained(d1, actor, env);
    forall op, e ensures Contained(d, Refusal(d1, actor, op, e, env)) { ContainedTransitive(d, d1, Refusal(d1, actor, op, e, env)); }
    forall op ensures Contained(d, GatedRead(d1, actor, op, env).0) { ContainedTransitive(d, d1, GatedRead(d1, actor, op, env).0); }
    hide Contained;
    hide Refusal;
    hide GatedRead;
  }

  lemma PerformedContained(d: Daemon, d1: Daemon, actor: string, c: Call, env: Env)
    requires Contained(d, d1) && AgentCall(c)
    ensures Contained(d, Performed(d1, actor, c, env).0)
  {
    hide Good;
    MovedContained(d1, Calling(actor, c, env));
    ContainedTransitive(d, d1, Moved(d1, Calling(actor, c, env)));
    hide Contained;
    hide Moved;
  }

  lemma AuthorizedContained(d: Daemon, id: Id, project: string, op: Op, lease: LeaseParam, env: Env)
    requires Good(d.run)
    ensures Contained(d, AuthorizedAs(d, id, project, op, lease, env).0)
  {
    hide Good;
    MovedContained(d, Authorizing(id, project, op, if lease.LeaseCredential? then Some(lease.credential) else None, env));
    hide Contained;
    hide Moved;
  }

  lemma LockContained(d: Daemon, actor: string, note: Env, env: Env)
    requires Good(d.run)
    ensures Contained(d, LockVault(d, actor, note, env))
  {
    hide Good;
    hide Restrained;
    hide Advance;
    var s1 := Noting(AllowedBody(actor, "vault.lock", note), true, Lifecycle, note);
    MovedContained(d, s1);
    MovedContained(Moved(d, s1), Locking(env));
    ContainedTransitive(d, Moved(d, s1), Moved(Moved(d, s1), Locking(env)));
  }

  lemma InjectContained(d: Daemon, who: Identity, project: string, written: bool, req: Request)
    requires Good(d.run)
    ensures Contained(d, InjectArm(d, who, project, written, req).0)
  {
    hide Good;
    hide Contained;
    hide AuthorizedAs;
    hide GatedRead;
    hide Refusal;
    ReadsContained(d, ActorOf(who), req.act);
    if who.AgentId? {
      AuthorizedContained(d, who.id, project, Inject, req.lease, req.auth);
      var (d1, verdict) := AuthorizedAs(d, who.id, project, Inject, req.lease, req.auth);
      if verdict.Ok? { ReadsAfter(d, d1, verdict.value, req.act); }
    }
  }

  lemma ListContained(d: Daemon, who: Identity, project: string, req: Request)
    requires Good(d.run)
    ensures Contained(d, ListArm(d, who, project, req).0)
  {
    hide Good;
    hide Contained;
    hide AuthorizedAs;
    hide GatedRead;
    hide Refusal;
    ContainedRefl(d);
    ReadsContained(d, ActorOf(who), req.act);
    if who.AgentId? {
      AuthorizedContained(d, who.id, project, Read, req.lease, req.auth);
      var (d1, verdict) := AuthorizedAs(d, who.id, project, Read, req.lease, req.auth);
      if verdict.Ok? { ReadsAfter(d, d1, verdict.value, req.act); }
    }
  }

  lemma RevealContained(d: Daemon, id: Id, ask: Ask, req: Request)
    requires Good(d.run) && ask.AskReveal?
    ensures Contained(d, RevealArm(d, AgentId(id), ask, req).0)
  {
    hide Good;
    hide Contained;
    hide AuthorizedAs;
    hide Performed;
    hide HumanRevealArm;
    ContainedRefl(d);
    AuthorizedContained(d, id, ask.project, Reveal, req.lease, req.auth);
    var (d1, verdict) := AuthorizedAs(d, id, ask.project, Reveal, req.lease, req.auth);
    if verdict.Ok? { ClaimOrRequestContained(d, d1, verdict.value, id, ask, req.act); }
  }

  lemma ClaimOrRequestContained(d: Daemon, d1: Daemon, actor: string, id: Id, ask: Ask, env: Env)
    requires Contained(d, d1) && ask.AskReveal?
    ensures ask.approvalId.Some? ==>
              Contained(d, Performed(d1, actor, RevealClaim(id, ask.project, ask.key, ask.approvalId.value), env).0)
    ensures Contained(d, Performed(d1, actor, ApprovalRequest(id, ask.project, ask.key, ask.freshId), env).0)
  {
    hide Contained;
    hide Performed;
    if ask.approvalId.Some? {
      PerformedContained(d, d1, actor, RevealClaim(id, ask.project, ask.key, ask.approvalId.value), env);
    }
    PerformedContained(d, d1, actor, ApprovalRequest(id, ask.project, ask.key, ask.freshId), env);
  }

  lemma StatusContained(d: Daemon, who: Identity, row: Id, env: Env)
    requires Good(d.run)
    ensures Contained(d, StatusArm(d, who, row, env).0)
  {
    ContainedRefl(d);
    ReadsContained(d, ActorOf(who), env);
    hide Good;
    hide Contained;
    hide Recorded;
    hide Refusal;
  }

  lemma AgentCallsContained(d: Daemon, id: Id, req: Request)
    requires Good(d.run) && (req.ask.AskLease? || req.ask.ReturnLease?)
    ensures Contained(d, Arm(d, AgentId(id), req).0)
  {
    ContainedRefl(d);
    var actor := ActorOf(AgentId(id));
    var c := AgentCallOf(id, req.ask);
    PerformedContained(d, d, actor, c, req.act);
    AgentArmPerforms(d, id, req);
    hide Good;
    hide Contained;
    hide Performed;
    hide Arm;
  }

  function AgentCallOf(id: Id, ask: Ask): (c: Call)
    requires ask.AskLease? || ask.ReturnLease?
    ensures AgentCall(c)
  {
    match ask
    case AskLease(project, ops, ttl, lease, digest) => LeaseCreate(id, project, ops, ttl, lease, digest)
    case ReturnLease(leaseId) => LeaseRevoke(Some(id), leaseId)
  }

  lemma AgentArmPerforms(d: Daemon, id: Id, req: Request)
    requires req.ask.AskLease? || req.ask.ReturnLease?
    ensures Arm(d, AgentId(id), req) == Performed(d, ActorOf(AgentId(id)), AgentCallOf(id, req.ask), req.act)
  {
    hide Performed;
  }

  lemma SimpleArmsContained(d: Daemon, who: Identity, req: Request)
    requires Good(d.run) && !who.Human?
    requires req.ask.VaultStatus? || req.ask.LeaseList? || req.ask.RunSignal? || req.ask.Malformed? || req.ask.Edit?
    requires !HumanOnly(req.ask)
    ensures Contained(d, Arm(d, who, req).0)
  {
    hide Good;
    hide Contained;
    hide Recorded;
    hide GatedRead;
    hide Refusal;
    hide Performed;
    hide SessionArm;
    hide InjectArm;
    hide ListArm;
    hide RevealArm;
    hide LockVault;
    hide UnlockArm;
    hide StatusArm;
    hide Code;
    ContainedRefl(d);
    ReadsContained(d, ActorOf(who), req.act);
  }

  lemma ArmContained(d: Daemon, who: Identity, req: Request)
    requires Good(d.run)
    requires (who.AgentId? && !HumanOnly(req.ask)) || (who.Unauthenticated? && req.ask.VaultStatus?)
    ensures Contained(d, Arm(d, who, req).0)
  {
    hide Good;
    hide Contained;
    hide Recorded;
    hide GatedRead;
    hide Refusal;
    hide Performed;
    hide SessionArm;
    hide InjectArm;
    hide ListArm;
    hide RevealArm;
    hide LockVault;
    hide UnlockArm;
    hide StatusArm;
    hide Code;
    match req.ask
    case ApprovalsStatus(row) => StatusContained(d, who, row, req.act);
    case VaultLock => LockContained(d, ActorOf(who), req.act, req.edge);
    case InjectFile(project, written) => InjectContained(d, who, project, written, req);
    case SecretsList(project) => ListContained(d, who, project, req);
    case AskLease(_, _, _, _, _) => AgentCallsContained(d, who.id, req);
    case ReturnLease(_) => AgentCallsContained(d, who.id, req);
    case AskReveal(_, _, _, _) => RevealContained(d, who.id, req.ask, req);
    case _ => SimpleArmsContained(d, who, req);
  }

  lemma ServedContained(d: Daemon, who: Identity, req: Request)
    requires Good(d.run) && !who.Human? && req.session.None?
    ensures Contained(d, Served(d, who, req).0)
  {
    hide Good;
    hide Contained;
    hide Arm;
    hide Moved;
    hide Refusal;
    var actor, op := ActorOf(who), AskName(req.ask);
    ReadsContained(d, actor, req.act);
    if (who.AgentId? && !HumanOnly(req.ask)) || (who.Unauthenticated? && req.ask.VaultStatus?) {
      ArmContained(d, who, req);
      var (d2, out) := Arm(d, who, req);
      ContainedIsGood(d, d2);
      if out.Err? {
        var s := Noting(BoundaryBody(actor, req, out.error), true, Ordinary, req.edge);
        MovedContained(d2, s);
        ContainedTransitive(d, d2, Moved(d2, s));
      }
    }
  }

  lemma DroppedContained(d: Daemon, d1: Daemon, table: Table)
    requires Contained(d, d1) && OnlyDrops(d1.table, table)
    ensures Contained(d, SetTable(d1, table))
  {
    hide Good;
    hide Restrained;
  }

  lemma IdentifyContained(d: Daemon, req: Request)
    requires Good(d.run) && WithoutHuman(d, req)
    ensures Contained(d, Identify(d, req).0)
    ensures Identify(d, req).1.Ok? ==> !Identify(d, req).1.value.Human? && req.session.None?
  {
    hide Good;
    hide Contained;
    hide Refusal;
    hide Code;
    IdentifyIff(d, req);
    ContainedRefl(d);
    ReadsContained(d, "agent:unknown", req.auth);
    ReadsContained(d, "unauthenticated", req.auth);
    if req.session.Some? { DeadSessionContained(d, req); }
  }

  lemma DeadSessionContained(d: Daemon, req: Request)
    requires Good(d.run) && req.session.Some?
    ensures Contained(d, SetTable(Refusal(d, "unauthenticated", "session.use", SessionExpired, req.auth),
                                  Validated(d.run.w.key.None?, d.table, TokenDigest(req.session.value), req.tick).0))
  {
    hide Good;
    hide Contained;
    var d1 := Refusal(d, "unauthenticated", "session.use", SessionExpired, req.auth);
    ReadsContained(d, "unauthenticated", req.auth);
    RefusalKeeps(d, "unauthenticated", "session.use", SessionExpired, req.auth);
    ValidationDrops(d, TokenDigest(req.session.value), req.tick);
    hide Refusal;
    hide Validated;
    DroppedContained(d, d1, Validated(d.run.w.key.None?, d.table, TokenDigest(req.session.value), req.tick).0);
  }

  lemma DispatchContained(d: Daemon, req: Request)
    requires Good(d.run) && WithoutHuman(d, req)
    ensures Contained(d, Dispatch(d, req).0)
  {
    hide Good;
    hide Contained;
    hide Identify;
    hide Served;
    hide Evictable;
    if WellTimed(d, req) {
      var d0 := d.(clock := req.again);
      IdentifyContained(d0, req);
      var (d1, known) := Identify(d0, req);
      ClockIsInert(d, d0, d1);
      ContainedIsGood(d, d1);
      if known.Ok? {
        ServedContained(d1, known.value, req);
        ContainedTransitive(d, d1, Served(d1, known.value, req).0);
      }
    } else {
      ContainedRefl(d);
    }
  }

  lemma ClockIsInert(d: Daemon, d0: Daemon, d1: Daemon)
    requires d0 == d.(clock := d0.clock) && Contained(d0, d1)
    ensures Contained(d, d1)
  {
    hide Good;
    hide Restrained;
  }

  lemma LaunchContained(d: Daemon, ask: LaunchAsk, env: Env)
    requires Good(d.run)
    ensures Contained(d, LaunchTried(d, ask, env))
  {
    hide Good;
    hide Contained;
    hide Moved;
    ContainedRefl(d);
    var gate := LaunchGate(d, ask);
    if gate.Err? {
      MovedContained(d, Noting(RunBody(gate.error.actor, Some(gate.error.code), env), true, Ordinary, env));
    }
    hide LaunchGate;
  }

  /** What agents can make the daemon do: requests without a human credential, launches, and what their runs record. */
  predicate AgentTurn(d: Daemon, t: Turn) { (t.Serving? && WithoutHuman(d, t.req)) || t.Launching? || t.RunNoting? }

  /** Every turn is one, in the state it meets. */
  ghost predicate AgentTurns(d: Daemon, turns: seq<Turn>) {
    forall i :: 0 <= i < |turns| ==> AgentTurn(Serve(d, turns[..i]), turns[i])
  }

  lemma AgentTurnsBefore(d: Daemon, turns: seq<Turn>)
    requires turns != [] && AgentTurns(d, turns)
    ensures var n := |turns| - 1; AgentTurns(d, turns[..n]) && AgentTurn(Serve(d, turns[..n]), turns[n])
  {
    hide AgentTurn;
    hide Serve;
    var n := |turns| - 1;
    forall i | 0 <= i < n ensures AgentTurn(Serve(d, turns[..n][..i]), turns[..n][i]) {
      assert turns[..n][..i] == turns[..i];
      assert AgentTurn(Serve(d, turns[..i]), turns[i]);
    }
  }

  lemma TurnContained(d: Daemon, t: Turn)
    requires Good(d.run) && AgentTurn(d, t)
    ensures Contained(d, TurnOnce(d, t))
  {
    hide Good;
    hide Contained;
    hide Dispatch;
    hide LaunchTried;
    hide Moved;
    match t
    case Serving(req) => DispatchContained(d, req);
    case Launching(ask, env) => LaunchContained(d, ask, env);
    case RunNoting(actor, code, env) => MovedContained(d, Noting(RunBody(actor, code, env), true, Ordinary, env));
  }

  /** No sequence of requests that present neither an opening passphrase nor a live session, launches included, of any
      length, changes the projects, secrets, agents or grants of any copy of the document, creates an approved row, unlocks
      the vault or opens a human session, and it reveals at most as many values as there were approved rows when it
      began. */
  lemma {:induction false} AgentsAloneAreContained(d: Daemon, turns: seq<Turn>)
    requires Good(d.run) && AgentTurns(d, turns)
    ensures var d' := Serve(d, turns);
            && Contained(d, d')
            && Reveals(d'.run.history) - Reveals(d.run.history) <= |Claims(d.run.w)|
  {
    if turns == [] {
      ContainedRefl(d);
    } else {
      var n := |turns| - 1;
      AgentTurnsBefore(d, turns);
      AgentsAloneAreContained(d, turns[..n]);
      var before := Serve(d, turns[..n]);
      TurnContained(before, turns[n]);
      ContainedTransitive(d, before, Serve(d, turns));
    }
    hide Good;
    hide TurnOnce;
    hide Version;
    hide AgentTurns;
    hide AgentTurn;
  }

  /** The same from any state a daemon can reach after its vault was created. */
  lemma AgentsAloneAreContainedAnywhere(booted: Daemon, before: seq<Turn>, turns: seq<Turn>)
    requires Booted(booted) && AgentTurns(Serve(booted, before), turns)
    ensures var d := Serve(booted, before);
            var d' := Serve(d, turns);
            && Contained(d, d')
            && Reveals(d'.run.history) - Reveals(d.run.history) <= |Claims(d.run.w)|
  {
    SessionsAreBounded(booted, before);
    AgentsAloneAreContained(Serve(booted, before), turns);
    hide Contained;
    hide Good;
    hide AgentTurns;
  }
}
