/** Whole lives of the daemon: a revoked agent is a stranger to every later request and launch, a withdrawn lease is dead to
    them, and refusals leave a record. */
module DaemonRuns {
  import opened Prelude
  import opened Audit
  import opened AuditTheorems
  import opened Model
  import opened Capability
  import opened Authority
  import opened Effects
  import opened Commit
  import opened Lifetime
  import opened Histories
  import opened Copies
  import opened Enrolment
  import opened Withdrawal
  import opened SessionObject
  import opened Broker
  import opened SessionRuns
  import opened Access
  import opened Lifting

  /** The copies, and whether the run is good, are as before. */
  lemma QuietlyStaysGood(d: Daemon, d': Daemon, ok: Lifetime.Step -> bool)
    requires Good(d.run) && Quietly(d, d', ok)
    ensures Good(d'.run) && d'.run.ids == d.run.ids && d.run.digests <= d'.run.digests && d.run.now <= d'.run.now
    ensures forall v :: Version(d'.run.w, v) <==> Version(d.run.w, v)
  {
    if d'.run.w != d.run.w {
      var s: Lifetime.Step :| s.Noting? && s.maced && ok(s) && d.run.now <= d'.run.now == s.env.now
        && (d'.run.w == d.run.w || d'.run.w == Note(d.run.w, s.body, d.run.w.key, s.priority, s.env.denial).world);
      NoteKeepsOpenable(d.run.w, s.body, d.run.w.key, s.priority, s.env.denial);
    }
    hide Openable;
    hide Note;
    QuietKeepsGood(d.run, d'.run);
  }

  // ----- revoked agents ------------------------------------------------------------------------

  ghost predicate EnrolledDaemon(d: Daemon) { Good(d.run) && EnrolledEverywhere(d.run) }

  lemma EnrolmentSurvives()
    ensures Survives(d => EnrolledDaemon(d), Any())
  {
    hide Good;
    hide Advance;
    hide EnrolledEverywhere;
    forall d, s | EnrolledDaemon(d) ensures EnrolledDaemon(Moved(d, s)) && EnrolledDaemon(Rebooted(d, s)) {
      AdvanceKeepsGood(d.run, s);
      AdvanceEnrolled(d.run, s);
    }
    forall d, d' | EnrolledDaemon(d) && Quietly(d, d', Any()) ensures EnrolledDaemon(d') {
      QuietlyStaysGood(d, d', Any());
      QuietlyEnrolled(d, d');
    }
  }

  lemma QuietlyEnrolled(d: Daemon, d': Daemon)
    requires EnrolledEverywhere(d.run) && d'.run.ids == d.run.ids && d.run.digests <= d'.run.digests
    requires forall v :: Version(d'.run.w, v) <==> Version(d.run.w, v)
    ensures EnrolledEverywhere(d'.run)
  {
    forall v | Version(d'.run.w, v) ensures Enrolled(v, d'.run) { assert Enrolled(v, d.run); }
  }

  /** Retired in every copy, and unknown to the table of active agents. */
  ghost predicate Banished(d: Daemon, id: Id, token: CredDigest) {
    Gone(d.run, id, token) && token !in d.digests && forall t :: t in d.digests ==> d.digests[t] != id
  }

  lemma RefreshedBanished(d: Daemon, run': Run, id: Id, token: CredDigest)
    requires Banished(d, id, token) && Gone(run', id, token)
    ensures Banished(d.(run := run', digests := Refresh(d.digests, run'.w.doc)), id, token)
  {
    if run'.w.doc.Some? {
      assert Version(run'.w, run'.w.doc.value);
      RetiredHasNoDigest(run'.w.doc.value, id, token);
    }
    hide Good;
    hide DigestsOf;
    hide Retired;
  }

  lemma BanishmentSurvives(id: Id, token: CredDigest)
    ensures Survives(d => Banished(d, id, token), Any())
  {
    hide Good;
    hide Gone;
    hide Advance;
    hide Refresh;
    forall d, s | Banished(d, id, token) ensures Banished(Moved(d, s), id, token) && Banished(Rebooted(d, s), id, token) {
      AdvanceKeepsGone(d.run, s, id, token);
      RefreshedBanished(d, Advance(d.run, s), id, token);
    }
    forall d, d' | Banished(d, id, token) && Quietly(d, d', Any()) ensures Banished(d', id, token) {
      QuietlyGone(d, d', id, token);
    }
  }

  lemma QuietlyGone(d: Daemon, d': Daemon, id: Id, token: CredDigest)
    requires Gone(d.run, id, token) && Quietly(d, d', Any())
    ensures Gone(d'.run, id, token)
  {
    QuietlyStaysGood(d, d', Any());
    hide Good;
    hide Quietly;
    hide Retired;
  }

  /** What an edit that was answered with success did to the vault. */
  lemma EditWasPerformed(d: Daemon, req: Request)
    requires req.ask.Edit? && !req.ask.call.ApprovalDecide? && Dispatch(d, req).1.Ok?
    ensures Identify(d.(clock := req.again), req).1.Ok?
    ensures var d', actor := Dispatch(d, req).0, ActorOf(Identify(d.(clock := req.again), req).1.value);
            && Ready(d, req) && Perform(d.run.w, actor, req.ask.call, req.act).result.Ok?
            && d'.run == Advance(d.run, Calling(actor, req.ask.call, req.act)) && d'.digests == Refresh(d.digests, d'.run.w.doc)
  {
    hide Identify;
    hide Perform;
    hide Advance;
    hide Refresh;
    hide Refusal;
    hide Code;
    hide HumanCall;
    hide OpName;
    hide Evictable;
    hide Draws;
    hide DrawsDigests;
    IdentifyingKeepsVault(d.(clock := req.again), req);
  }

  lemma SavedRevocationBanishes(d: Daemon, s: Lifetime.Step, d': Daemon)
    requires EnrolledDaemon(d) && Legal(d.run, s) && s.Calling? && s.call.AgentRevoke?
    requires Perform(d.run.w, s.actor, s.call, s.env).result.Ok?
    requires d'.run == Advance(d.run, s) && d'.digests == Refresh(d.digests, d'.run.w.doc)
    ensures d.run.w.doc.Some? && AgentByName(d.run.w.doc.value, s.call.name).Some?
    ensures var a := AgentByName(d.run.w.doc.value, s.call.name).value; Banished(d', a.id, a.token)
  {
    hide Good;
    hide Perform;
    hide Advance;
    hide DigestsOf;
    hide Find;
    hide Gone;
    hide EnrolledEverywhere;
    SavedRevocationRetires(d.run, s);
    var a := AgentByName(d.run.w.doc.value, s.call.name).value;
    SavedCallUnlocked(d.run, s);
    GoneHasNoDigest(d'.run, a.id, a.token);
  }

  lemma GoneHasNoDigest(r: Run, id: Id, token: CredDigest)
    requires Gone(r, id, token) && r.w.doc.Some?
    ensures token !in DigestsOf(r.w.doc.value.agents)
    ensures forall t :: t in DigestsOf(r.w.doc.value.agents) ==> DigestsOf(r.w.doc.value.agents)[t] != id
  {
    hide Good;
    hide DigestsOf;
    assert Version(r.w, r.w.doc.value);
    RetiredHasNoDigest(r.w.doc.value, id, token);
  }

  /** A call that succeeded leaves the vault unlocked. */
  lemma SavedCallUnlocked(r: Run, s: Lifetime.Step)
    requires Good(r) && Legal(r, s) && s.Calling? && Perform(r.w, s.actor, s.call, s.env).result.Ok?
    ensures Advance(r, s).w.doc.Some?
  {
    hide Good;
    hide Openable;
    hide Perform;
    hide Propose;
    hide DocInv;
    hide FreshFor;
    hide Happened;
    GoodIsReady(r, s.call);
    PerformVersions(r.w, s.actor, s.call, s.env);
  }

  /** A request that revokes an agent and is answered with success banishes it. */
  lemma RevocationBanishes(d: Daemon, req: Request)
    requires EnrolledDaemon(d) && req.ask.Edit? && req.ask.call.AgentRevoke? && Dispatch(d, req).1.Ok?
    ensures d.run.w.doc.Some? && AgentByName(d.run.w.doc.value, req.ask.call.name).Some?
    ensures var a := AgentByName(d.run.w.doc.value, req.ask.call.name).value;
            Banished(Dispatch(d, req).0, a.id, a.token)
  {
    hide EnrolledDaemon;
    hide Banished;
    hide Perform;
    hide Advance;
    hide Refresh;
    hide Dispatch;
    hide Identify;
    hide Find;
    EditWasPerformed(d, req);
    var s := Calling(ActorOf(Identify(d.(clock := req.again), req).1.value), req.ask.call, req.act);
    SavedRevocationBanishes(d, s, Dispatch(d, req).0);
  }

  /** To the daemon a banished agent is a stranger: its token is refused, no request speaks in its name, and no child is
      started for it. */
  lemma BanishedIsAStranger(d: Daemon, id: Id, token: string)
    requires Banished(d, id, TokenDigest(token))
    ensures forall req :: Identify(d, req).1 != Ok(AgentId(id))
    ensures forall req :: TokenAlone(req) && req.token == Some(token) ==> Identify(d, req).1 == Err("E_AUTH")
    ensures forall ask :: LaunchGate(d, ask).Ok? ==> LaunchGate(d, ask).value.agentId != id && ask.token != Some(token)
  {
    hide Gone;
    forall req ensures Identify(d, req).1 != Ok(AgentId(id)) { IdentifyIff(d, req); }
    forall req | TokenAlone(req) && req.token == Some(token) ensures Identify(d, req).1 == Err("E_AUTH") { RefusedIdentities(d, req); }
    forall ask | LaunchGate(d, ask).Ok? ensures LaunchGate(d, ask).value.agentId != id && ask.token != Some(token) {
      LaunchIff(d, ask, LaunchGate(d, ask).value);
    }
    hide Identify;
    hide LaunchGate;
  }

  /** After a request that revoked an agent was answered with success, in every later life of the daemon, restarts, crashes
      and locks included: its token is refused, no request speaks in its name, no child is started for it, and nothing is
      authorized, minted, requested or claimed in its name. */
  lemma RevokedAgentIsRefused(booted: Daemon, before: seq<Turn>, req: Request, token: string, after: seq<Turn>,
                              actor: string, project: string, env: Env)
    requires Booted(booted)
    requires var d := Serve(booted, before);
             && req.ask.Edit? && req.ask.call.AgentRevoke? && Dispatch(d, req).1.Ok?
             && d.run.w.doc.Some? && AgentByName(d.run.w.doc.value, req.ask.call.name).Some?
             && AgentByName(d.run.w.doc.value, req.ask.call.name).value.token == TokenDigest(token)
    ensures var id := AgentByName(Serve(booted, before).run.w.doc.value, req.ask.call.name).value.id;
            var d' := Serve(Dispatch(Serve(booted, before), req).0, after);
            && (forall later :: Identify(d', later).1 != Ok(AgentId(id)))
            && (forall later :: TokenAlone(later) && later.token == Some(token) ==> Identify(d', later).1 == Err("E_AUTH"))
            && (forall ask :: LaunchGate(d', ask).Ok? ==> LaunchGate(d', ask).value.agentId != id && ask.token != Some(token))
            && (forall op, credential :: AuthorizeStep(d'.run.w, id, project, op, credential, env).1.Err?)
            && (forall ops, ttl, l, digest :: Perform(d'.run.w, actor, LeaseCreate(id, project, ops, ttl, l, digest), env).result.Err?)
            && (forall key, row :: Perform(d'.run.w, actor, ApprovalRequest(id, project, key, row), env).result.Err?)
            && (forall key, row :: Perform(d'.run.w, actor, RevealClaim(id, project, key, row), env).result.Err?)
  {
    hide Good;
    hide Gone;
    hide EnrolledEverywhere;
    hide Newborn;
    hide Dispatch;
    hide Serve;
    hide Identify;
    hide LaunchGate;
    hide Perform;
    hide AuthorizeStep;
    hide Find;
    hide Survives;
    NewbornIsEnrolled(booted.run);
    EnrolmentSurvives();
    ServeKeeps(d => EnrolledDaemon(d), booted, before);
    var d := Serve(booted, before);
    RevocationBanishes(d, req);
    var id := AgentByName(d.run.w.doc.value, req.ask.call.name).value.id;
    BanishmentSurvives(id, TokenDigest(token));
    ServeKeeps(x => Banished(x, id, TokenDigest(token)), Dispatch(d, req).0, after);
    var d' := Serve(Dispatch(d, req).0, after);
    BanishedIsAStranger(d', id, token);
    GoneIsRefused(d'.run, id, TokenDigest(token), actor, project, env);
  }

  // ----- new agents ------------------------------------------------------------------------------

  lemma OnlyActiveBearer(d: Document, a: Agent)
    requires UniqueAgents(d) && a in d.agents && a.active
    ensures a.token in DigestsOf(d.agents) && DigestsOf(d.agents)[a.token] == a.id
  {
    hide DigestsOf;
    DigestsAreActiveAgents(d.agents, a.token);
    AgentNamed(d, a);
  }

  lemma SavedAdditionIsKnown(d: Daemon, s: Lifetime.Step, d': Daemon)
    requires EnrolledDaemon(d) && Legal(d.run, s) && s.Calling? && s.call.AgentAdd?
    requires Perform(d.run.w, s.actor, s.call, s.env).result.Ok?
    requires d'.run == Advance(d.run, s) && d'.digests == Refresh(d.digests, d'.run.w.doc)
    ensures s.call.token in d'.digests && d'.digests[s.call.token] == s.call.id
  {
    hide Good;
    hide Perform;
    hide Advance;
    hide DigestsOf;
    hide Find;
    hide AddAgent;
    SavedCallUnlocked(d.run, s);
    SavedCallReplacesAll(d.run, s);
    AdvanceEnrolled(d.run, s);
    var doc, doc' := d.run.w.doc.value, d'.run.w.doc.value;
    assert Version(d'.run.w, doc');
    AddAgentEffect(doc, s.call.name, s.call.id, s.call.token);
    OnlyActiveBearer(doc', Agent(s.call.id, s.call.name, true, s.call.token));
  }

  /** After a request that added an agent was answered with success, its token speaks for it. */
  lemma NewAgentIsKnown(booted: Daemon, before: seq<Turn>, req: Request, later: Request)
    requires Booted(booted)
    requires req.ask.Edit? && req.ask.call.AgentAdd? && Dispatch(Serve(booted, before), req).1.Ok?
    requires TokenAlone(later) && TokenDigest(later.token.value) == req.ask.call.token
    ensures Identify(Dispatch(Serve(booted, before), req).0, later).1 == Ok(AgentId(req.ask.call.id))
  {
    hide Good;
    hide EnrolledEverywhere;
    hide Newborn;
    hide Dispatch;
    hide Serve;
    hide Perform;
    hide Advance;
    hide Refresh;
    hide Survives;
    hide Identify;
    NewbornIsEnrolled(booted.run);
    EnrolmentSurvives();
    ServeKeeps(d => EnrolledDaemon(d), booted, before);
    var d := Serve(booted, before);
    EditWasPerformed(d, req);
    SavedAdditionIsKnown(d, Calling(ActorOf(Identify(d.(clock := req.again), req).1.value), req.ask.call, req.act), Dispatch(d, req).0);
    IdentifyIff(Dispatch(d, req).0, later);
  }

  // ----- leases ------------------------------------------------------------------------------------

  /** Dead in every copy. */
  ghost predicate Expired(d: Daemon, digest: CredDigest) {
    Good(d.run) && digest in d.run.digests && DeadEverywhere(d.run.w, digest, d.run.now)
  }

  lemma ExpirySurvives(digest: CredDigest)
    ensures Survives(d => Expired(d, digest), Any())
  {
    hide Good;
    hide Advance;
    hide DeadEverywhere;
    hide Refresh;
    forall d, s | Expired(d, digest) ensures Expired(Moved(d, s), digest) && Expired(Rebooted(d, s), digest) {
      AdvanceKeepsGood(d.run, s);
      AdvanceKeepsDead(d.run, s, digest);
    }
    forall d, d' | Expired(d, digest) && Quietly(d, d', Any()) ensures Expired(d', digest) {
      QuietlyStaysGood(d, d', Any());
      QuietlyDead(d, d', digest);
    }
  }

  lemma QuietlyDead(d: Daemon, d': Daemon, digest: CredDigest)
    requires DeadEverywhere(d.run.w, digest, d.run.now) && d.run.now <= d'.run.now
    requires forall v :: Version(d'.run.w, v) <==> Version(d.run.w, v)
    ensures DeadEverywhere(d'.run.w, digest, d'.run.now)
  {
    forall v | Version(d'.run.w, v) ensures Dead(v, digest, d'.run.now) { assert Dead(v, digest, d.run.now); }
  }

  /** After an edit that took a lease away was answered with success, its credential is refused in every later life of the
      daemon: nothing is listed, injected or revealed with it. */
  lemma WithdrawnLeaseIsRefused(booted: Daemon, before: seq<Turn>, req: Request, l: Lease, credential: string, after: seq<Turn>,
                                id: Id, project: string, op: Op, env: Env)
    requires Booted(booted)
    requires var d := Serve(booted, before);
             && req.ask.Edit? && !req.ask.call.ApprovalDecide? && Dispatch(d, req).1.Ok?
             && d.run.w.doc.Some? && l in d.run.w.doc.value.leases && l.digest == TokenDigest(credential)
             && TakesAway(d.run.w.doc.value, req.ask.call, l)
    requires Serve(Dispatch(Serve(booted, before), req).0, after).run.now <= env.now
    ensures AuthorizeStep(Serve(Dispatch(Serve(booted, before), req).0, after).run.w, id, project, op, Some(credential), env).1.Err?
  {
    hide Good;
    hide DeadEverywhere;
    hide Dispatch;
    hide Serve;
    hide Perform;
    hide AuthorizeStep;
    hide Advance;
    hide Refresh;
    hide Survives;
    hide TakesAway;
    hide Identify;
    var d, digest := Serve(booted, before), TokenDigest(credential);
    SessionsAreBounded(booted, before);
    EditWasPerformed(d, req);
    var s := Calling(ActorOf(Identify(d.(clock := req.again), req).1.value), req.ask.call, req.act);
    SavedWithdrawalKills(d.run, s, l);
    AdvanceKeepsGood(d.run, s);
    ExpirySurvives(digest);
    ServeKeeps(x => Expired(x, digest), Dispatch(d, req).0, after);
    DeadIsRefused(Serve(Dispatch(d, req).0, after).run, credential, id, project, op, env);
  }

  /** The lease every copy knows under its credential, if any, has these terms. */
  ghost predicate Bound(d: Daemon, l: Lease) {
    Good(d.run) && l.digest in d.run.digests && TermsEverywhere(d.run.w, l)
  }

  lemma TermsSurvive(l: Lease)
    ensures Survives(d => Bound(d, l), Any())
  {
    hide Good;
    hide Advance;
    hide TermsEverywhere;
    hide Refresh;
    forall d, s | Bound(d, l) ensures Bound(Moved(d, s), l) && Bound(Rebooted(d, s), l) {
      AdvanceKeepsGood(d.run, s);
      AdvanceKeepsTerms(d.run, s, l);
    }
    forall d, d' | Bound(d, l) && Quietly(d, d', Any()) ensures Bound(d', l) {
      QuietlyStaysGood(d, d', Any());
      QuietlyBound(d, d', l);
    }
  }

  lemma QuietlyBound(d: Daemon, d': Daemon, l: Lease)
    requires TermsEverywhere(d.run.w, l)
    requires forall v :: Version(d'.run.w, v) <==> Version(d.run.w, v)
    ensures TermsEverywhere(d'.run.w, l)
  {
    hide KeepsTerms;
  }

  function AskedCall(id: Id, ask: Ask): Call
    requires ask.AskLease?
  {
    LeaseCreate(id, ask.project, ask.ops, ask.ttlSecs, ask.id, ask.digest)
  }

  /** What a lease request that was answered with success did to the vault. */
  lemma LeaseWasPerformed(d: Daemon, req: Request)
    requires req.ask.AskLease? && Dispatch(d, req).1.Ok?
    ensures var who := Identify(d.(clock := req.again), req).1;
            && who.Ok? && who.value.AgentId? && Ready(d, req)
            && var actor, c := ActorOf(who.value), AskedCall(who.value.id, req.ask);
               && Perform(d.run.w, actor, c, req.act).result.Ok?
               && Dispatch(d, req).0.run == Advance(d.run, Calling(actor, c, req.act))
  {
    hide Identify;
    hide Perform;
    hide Advance;
    hide Refresh;
    hide Refusal;
    hide Code;
    hide HumanOnly;
    hide Evictable;
    IdentifyingKeepsVault(d.(clock := req.again), req);
  }

  /** After a lease request was answered with success, in every later life of the daemon its credential is honoured only for
      the agent that asked, in that project, for those ops, for that long. */
  lemma MintedLeaseKeepsToItsRequest(booted: Daemon, before: seq<Turn>, req: Request, credential: string, after: seq<Turn>,
                                     id: Id, project: string, op: Op, env: Env)
    requires Booted(booted)
    requires var d := Serve(booted, before);
             && req.ask.AskLease? && req.ask.digest == TokenDigest(credential) && Dispatch(d, req).1.Ok?
             && d.run.w.doc.Some? && ProjectByName(d.run.w.doc.value, req.ask.project).Some?
    requires AuthorizeStep(Serve(Dispatch(Serve(booted, before), req).0, after).run.w, id, project, op, Some(credential), env).1.Ok?
    ensures var d := Serve(booted, before);
            var w' := Serve(Dispatch(d, req).0, after).run.w;
            && Identify(d.(clock := req.again), req).1 == Ok(AgentId(id))
            && w'.doc.Some? && ProjectByName(w'.doc.value, project).Some?
            && ProjectByName(w'.doc.value, project).value.id == ProjectByName(d.run.w.doc.value, req.ask.project).value.id
            && op in req.ask.ops && env.now < req.act.now + req.ask.ttlSecs * SECOND
  {
    hide Good;
    hide TermsEverywhere;
    hide Dispatch;
    hide Serve;
    hide Perform;
    hide AuthorizeStep;
    hide Advance;
    hide Survives;
    hide Identify;
    hide Find;
    var d := Serve(booted, before);
    SessionsAreBounded(booted, before);
    LeaseWasPerformed(d, req);
    var who := Identify(d.(clock := req.again), req).1.value;
    var c := AskedCall(who.id, req.ask);
    var s, l := Calling(ActorOf(who), c, req.act), Lease(c.id, c.agentId, ProjectByName(d.run.w.doc.value, c.project).value.id, c.ops,
                                                        c.digest, req.act.now, req.act.now + c.ttlSecs * SECOND, None);
    SavedLeaseTerms(d.run, s);
    AdvanceKeepsGood(d.run, s);
    TermsSurvive(l);
    ServeKeeps(x => Bound(x, l), Dispatch(d, req).0, after);
    HonouredOnTerms(Serve(Dispatch(d, req).0, after).run, l, credential, id, project, op, env);
  }

  // ----- refusals leave a record --------------------------------------------------------------------

  /** The log grew, or the handle is where it was. */
  predicate GrownOrStill(w: World, w': World) { w.log <= w'.log && (|w'.log| > |w.log| || w'.handle == w.handle) && w'.handle.limits == w.handle.limits }

  lemma GrownOrStillOn(w: World, w1: World, w2: World)
    requires GrownOrStill(w, w1) && GrownOrStill(w1, w2)
    ensures GrownOrStill(w, w2)
  {
  }

  /** No write is lost before it starts. */
  predicate Writes(env: Env) { env.denial != NothingWritten && env.io.append != NothingWritten }

  lemma NoteGrows(w: World, body: Body, key: Option<Key>, priority: Priority, fault: AppendFault)
    requires Openable(w) && (key.Some? ==> key.value == w.owner) && fault != NothingWritten
    ensures GrownOrStill(w, Note(w, body, key, priority, fault).world)
  {
    NoteEffect(w, body, key, priority, fault);
    if Stage(w.handle, w.log, body, key, priority).Ok? {
      FreshAppend(w.handle, w.log, body, key, w.owner, priority, fault);
      StageIff(w.handle, w.log, body, key, priority);
    }
    hide Stage;
    hide AppendStaged;
    hide Accepts;
    hide Follows;
    hide Named;
    hide FileLen;
    hide NextLine;
  }

  lemma AppendGrows(w: World, body: Body, priority: Priority, io: CommitIo)
    requires Openable(w) && w.doc.Some? && io.append != NothingWritten
    ensures GrownOrStill(w, AfterAppend(w, body, priority, io).0)
  {
    NoteGrows(w, body, w.key, priority, io.append);
    hide Stage;
    hide AppendStaged;
  }

  lemma CommitGrows(w: World, doc: Document, body: Body, priority: Priority, io: CommitIo)
    requires Openable(w) && w.doc.Some? && io.append != NothingWritten
    ensures GrownOrStill(w, CommitWith(w, doc, body, priority, io).world)
  {
    AppendGrows(w, body, priority, io);
    CommitIs(w, doc, body, priority, io);
    hide Openable;
    hide AfterAppend;
    hide CommitWith;
  }

  lemma PerformGrows(w: World, actor: string, c: Call, env: Env)
    requires Openable(w) && Writes(env)
    ensures GrownOrStill(w, Perform(w, actor, c, env).world)
  {
    hide Openable;
    hide Note;
    hide CommitWith;
    hide Propose;
    hide OpName;
    hide Code;
    hide PriorityOf;
    hide GrownOrStill;
    KeyedWithDocument(w);
    KeyIsOwners(w);
    if c.ApprovalDecide? && !IsHumanIdentity(c.actor) {
      NoteGrows(w, DeniedBody(actor, DeniedName(c), HumanRequired, env), w.key, Ordinary, env.denial);
    } else if w.key.None? {
      NoteGrows(w, DeniedBody(actor, DeniedName(c), Locked, env), None, Ordinary, env.denial);
    } else {
      var proposal := Propose(w.doc.value, c, env.now);
      if proposal.Err? {
        NoteGrows(w, DeniedBody(actor, DeniedName(c), proposal.error, env), w.key, Ordinary, env.denial);
      } else {
        CommitGrows(w, proposal.value, AllowedBody(actor, OpName(c), env), PriorityOf(w.doc.value, c), env.io);
      }
    }
  }

  lemma AuthorizeGrows(w: World, id: Id, project: string, op: Op, credential: Option<string>, env: Env)
    requires Openable(w) && (w.doc.Some? ==> DocInv(w.doc.value)) && Writes(env)
    ensures GrownOrStill(w, AuthorizeStep(w, id, project, op, credential, env).0)
  {
    hide Openable;
    hide DocInv;
    hide Note;
    hide Authorize;
    hide Code;
    hide GrownOrStill;
    KeyedWithDocument(w);
    KeyIsOwners(w);
    var me := "agent:" + id;
    if w.doc.None? {
      NoteGrows(w, DeniedBody(me, "authorize", Locked, env), w.key, Ordinary, env.denial);
    } else {
      AuthorizeIff(w.doc.value, id, project, op, credential, env.now);
      match Authorize(w.doc.value, id, project, op, credential, env.now)
      case Allowed(actor) => NoteGrows(w, AllowedBody(actor, "authorize", env), w.key, Ordinary, env.denial);
      case Refused(e) => NoteGrows(w, DeniedBody(me, "authorize", e, env), w.key, Ordinary, env.denial);
    }
  }

  /** What a request does until then, none of its writes being lost. */
  ghost function Careful(until: int): Lifetime.Step -> bool {
    (s: Lifetime.Step) => Writes(s.env) && s.env.now <= until && (s.Calling? || s.Authorizing? || s.Locking? || s.Unlocking? || s.Noting?)
  }

  lemma StepGrows(r: Run, s: Lifetime.Step, until: int)
    requires Good(r) && Careful(until)(s)
    ensures GrownOrStill(r.w, Advance(r, s).w)
  {
    hide Good;
    hide Openable;
    hide DocInv;
    hide FreshFor;
    hide Perform;
    hide AuthorizeStep;
    hide CommitWith;
    hide Note;
    hide Happened;
    hide AllowedBody;
    hide DeniedBody;
    hide LockedDown;
    GoodIsReady(r, LeaseRevoke(None, ""));
    KeyIsOwners(r.w);
    if Legal(r, s) {
      match s
      case Calling(actor, c, env) => PerformGrows(r.w, actor, c, env);
      case Authorizing(id, project, op, credential, env) => AuthorizeGrows(r.w, id, project, op, credential, env);
      case Locking(env) =>
        if r.w.doc.Some? { CommitGrows(r.w, LockedDown(r.w.doc.value, env.now), LockBody(env), Lifecycle, env.io); }
      case Unlocking(right, env) => UnlockGrows(r.w, right, env);
      case Noting(body, maced, priority, env) => NoteGrows(r.w, body, if maced then r.w.key else None, priority, env.denial);
    }
  }

  lemma UnlockGrows(w: World, right: bool, env: Env)
    requires Openable(w) && Writes(env)
    ensures GrownOrStill(w, UnlockStep(w, right, env).world)
  {
    var success, refused := AllowedBody("human", "vault.unlocked", env), DeniedBody("human", "vault.unlock", AuthFailed, env);
    var unlocked := w.(key := Some(w.owner), doc := Some(w.envelope));
    assert Openable(unlocked);
    NoteGrows(unlocked, success, unlocked.key, Lifecycle, env.denial);
    NoteGrows(w, refused, None, Lifecycle, env.denial);
    hide Note;
    hide Accepts;
    hide Named;
    hide Follows;
    hide Coherent;
    hide AllowedBody;
    hide DeniedBody;
  }

  ghost predicate GrownSince(w: World, d: Daemon, until: int) { Good(d.run) && GrownOrStill(w, d.run.w) && d.run.now <= until }

  lemma GrowthSurvives(w: World, until: int)
    ensures Survives(d => GrownSince(w, d, until), Careful(until))
  {
    hide Good;
    hide Advance;
    hide GrownOrStill;
    hide Refresh;
    forall d, s | GrownSince(w, d, until) && Careful(until)(s)
      ensures GrownSince(w, Moved(d, s), until) && GrownSince(w, Rebooted(d, s), until)
    {
      AdvanceKeepsGood(d.run, s);
      StepGrows(d.run, s, until);
      TimeMovesOn(d.run, s);
      if !Legal(d.run, s) { StillUntil(d.run, s); }
      GrownOrStillOn(w, d.run.w, Advance(d.run, s).w);
    }
    forall d, d' | GrownSince(w, d, until) && Quietly(d, d', Careful(until)) ensures GrownSince(w, d', until) {
      QuietlyStaysGood(d, d', Careful(until));
      QuietlyGrows(d, d', until);
      GrownOrStillOn(w, d.run.w, d'.run.w);
    }
  }

  lemma StillUntil(r: Run, s: Lifetime.Step)
    requires !Legal(r, s)
    ensures Advance(r, s) == r
  {
  }

  lemma QuietlyGrows(d: Daemon, d': Daemon, until: int)
    requires Good(d.run) && Quietly(d, d', Careful(until)) && d.run.now <= until
    ensures GrownOrStill(d.run.w, d'.run.w) && d'.run.now <= until
  {
    StillIsStill(d.run.w);
    if d'.run.w != d.run.w {
      var s: Lifetime.Step :| s.Noting? && s.maced && Careful(until)(s) && d.run.now <= d'.run.now == s.env.now
        && (d'.run.w == d.run.w || d'.run.w == Note(d.run.w, s.body, d.run.w.key, s.priority, s.env.denial).world);
      KeyIsOwners(d.run.w);
      NoteGrows(d.run.w, s.body, d.run.w.key, s.priority, s.env.denial);
    }
    hide Note;
    hide Openable;
    hide Known;
    hide GrownOrStill;
  }

  lemma StillIsStill(w: World)
    ensures GrownOrStill(w, w)
  {
  }

  /** The log has room for one more entry of this request. */
  predicate Roomy(w: World, req: Request) {
    && FileLen(w.log) + req.act.jsonLen + 148 <= w.handle.limits.soft
    && FileLen(w.log) + req.edge.jsonLen + 148 <= w.handle.limits.soft
  }

  lemma CarefulRequestIsAdmitted(req: Request)
    requires Writes(req.auth) && Writes(req.act) && Writes(req.edge) && req.auth.now <= req.act.now <= req.edge.now
    ensures Admits(Careful(req.edge.now), req)
  {
  }

  /** An entry that fits is written. */
  lemma FittingNoteGrows(w: World, body: Body, fault: AppendFault)
    requires Openable(w) && FileLen(w.log) + Space(body) <= w.handle.limits.soft && fault != NothingWritten
    ensures |Note(w, body, w.key, Ordinary, fault).world.log| > |w.log|
  {
    KeyIsOwners(w);
    NoteEffect(w, body, w.key, Ordinary, fault);
    hide Note;
    hide Openable;
    hide FileLen;
    hide NextLine;
  }

  /** No refusal goes unrecorded: when a request that authenticated is refused, the log has grown, provided it had room for
      one entry and no write was lost. */
  lemma RefusalsAreRecorded(d: Daemon, who: Identity, req: Request)
    requires Good(d.run) && Writes(req.auth) && Writes(req.act) && Writes(req.edge) && Roomy(d.run.w, req)
    requires d.run.now <= req.auth.now <= req.act.now <= req.edge.now && Served(d, who, req).1.Err?
    ensures |Served(d, who, req).0.run.w.log| > |d.run.w.log|
  {
    hide Good;
    hide Arm;
    hide Note;
    hide Code;
    hide GrownOrStill;
    hide Survives;
    hide Admits;
    hide FileLen;
    hide Careful;
    hide HumanOnly;
    hide Roomy;
    hide Finished;
    hide Refusal;
    var w, actor, until := d.run.w, ActorOf(who), req.edge.now;
    var (d2, out) := Arm(d, who, req);
    DirectRefusalsGrow(d, actor, req);
    GrowthSurvives(w, until);
    CarefulRequestIsAdmitted(req);
    StillIsStill(w);
    ArmKeeps(x => GrownSince(w, x, until), Careful(until), d, who, req);
    FinishedReplies(d, d2, out, actor, req);
    if out.Err? { BoundaryGrows(d, d2, actor, req, out.error); }
  }

  lemma FinishedReplies(d: Daemon, d2: Daemon, out: Reply, actor: string, req: Request)
    ensures Finished(d, d2, out, actor, req).1 == out
  {
  }

  lemma DirectRefusalsGrow(d: Daemon, actor: string, req: Request)
    requires Good(d.run) && Writes(req.act) && Roomy(d.run.w, req) && d.run.now <= req.act.now
    ensures forall op, e :: |Refusal(d, actor, op, e, req.act).run.w.log| > |d.run.w.log|
  {
    hide FileLen;
    hide Note;
    hide Known;
    hide Code;
    forall op, e ensures |Refusal(d, actor, op, e, req.act).run.w.log| > |d.run.w.log| {
      FittingNoteGrows(d.run.w, DeniedBody(actor, op, e, req.act), req.act.denial);
    }
  }

  lemma BoundaryGrows(d: Daemon, d2: Daemon, actor: string, req: Request, code: string)
    requires Good(d.run) && Writes(req.edge) && Roomy(d.run.w, req) && GrownSince(d.run.w, d2, req.edge.now)
    ensures |Finished(d, d2, Err(code), actor, req).0.run.w.log| > |d.run.w.log|
  {
    hide FileLen;
    hide Note;
    hide Known;
    hide Openable;
    if d2.run.w.handle.seqNo == d.run.w.handle.seqNo {
      var body := BoundaryBody(actor, req, code);
      BoundaryNoted(d2, body, req.edge);
      if |d2.run.w.log| == |d.run.w.log| {
        assert d2.run.w.log == d.run.w.log;
        FittingNoteGrows(d2.run.w, body, req.edge.denial);
      } else {
        KeyIsOwners(d2.run.w);
        NoteKeepsOpenable(d2.run.w, body, d2.run.w.key, Ordinary, req.edge.denial);
      }
    }
  }

  lemma BoundaryNoted(d: Daemon, body: Body, env: Env)
    requires Good(d.run) && d.run.now <= env.now
    ensures Moved(d, Noting(body, true, Ordinary, env)).run.w == Note(d.run.w, body, d.run.w.key, Ordinary, env.denial).world
  {
    hide Good;
    hide Note;
  }
}
