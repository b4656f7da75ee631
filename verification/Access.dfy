/** Who a request speaks for, and exactly what each request needs: the arms' outcomes in terms of the document, the
    presented credential and the audit log. */
module Access {
  import opened Prelude
  import opened Audit
  import opened AuditTheorems
  import opened Model
  import opened Capability
  import opened Authority
  import opened Contents
  import opened Effects
  import opened Commit
  import opened Lifetime
  import opened Histories
  import opened HumanSessions
  import opened SessionObject
  import opened Broker

  // ----- identities --------------------------------------------------------------------------

  predicate TokenAlone(req: Request) { req.token.Some? && req.passphrase.None? && req.session.None? }

  predicate PassphraseAlone(req: Request) { req.token.None? && req.passphrase.Some? && req.session.None? }

  predicate SessionAlone(req: Request) { req.token.None? && req.passphrase.None? && req.session.Some? }

  /** A session of this unlock epoch whose window and lifetime have not run out. */
  predicate LiveEntry(d: Daemon, x: CredDigest, tick: int) {
    && d.run.w.key.Some? && x in d.table
    && Elapsed(tick, d.table[x].lastUsed) < d.table[x].ttlSecs && Elapsed(tick, d.table[x].mintedAt) < 1800
  }

  predicate LiveSession(d: Daemon, credential: string, tick: int) {
    credential != "" && LiveEntry(d, TokenDigest(credential), tick)
  }

  predicate OpensAsHuman(d: Daemon, req: Request, actor: string) {
    || (PassphraseAlone(req) && req.passphrase.value && actor == "human")
    || (SessionAlone(req) && LiveSession(d, req.session.value, req.tick)
        && actor == "human(session:" + d.table[TokenDigest(req.session.value)].prefix + ")")
  }

  /** A request speaks for the owner exactly with a passphrase that opens the vault, or a live session, and nothing else;
      for an agent exactly with that agent's token and nothing else; for nobody exactly without any credential. */
  lemma IdentifyIff(d: Daemon, req: Request)
    ensures forall actor :: Identify(d, req).1 == Ok(Human(actor)) <==> OpensAsHuman(d, req, actor)
    ensures forall id :: Identify(d, req).1 == Ok(AgentId(id)) <==>
              TokenAlone(req) && TokenDigest(req.token.value) in d.digests && d.digests[TokenDigest(req.token.value)] == id
    ensures Identify(d, req).1 == Ok(Unauthenticated) <==> req.token.None? && req.passphrase.None? && req.session.None?
  {
    hide Refusal;
  }

  /** What a request that speaks for no one is told: a conflict of credentials, a credential that opens nothing, or a
      session that is no longer live. */
  lemma RefusedIdentities(d: Daemon, req: Request)
    ensures Identify(d, req).1 == Err("E_PROTOCOL") <==> Presented(req) > 1
    ensures Identify(d, req).1 == Err("E_AUTH") <==>
              || (TokenAlone(req) && TokenDigest(req.token.value) !in d.digests)
              || (PassphraseAlone(req) && !req.passphrase.value)
    ensures Identify(d, req).1 == Err("E_SESSION_EXPIRED") <==>
              SessionAlone(req) && !LiveSession(d, req.session.value, req.tick)
  {
    hide Refusal;
  }

  lemma IdentifyingKeepsVault(d: Daemon, req: Request)
    requires Identify(d, req).1.Ok?
    ensures Identify(d, req).0.run == d.run && Identify(d, req).0.digests == d.digests
  {
    hide Refusal;
  }

  // ----- authorization ------------------------------------------------------------------------

  /** The document lets this agent do this in this project: by its grant, or by a live lease when it presents one. */
  ghost predicate Permitted(d: Document, agentId: Id, project: string, op: Op, lease: LeaseParam, now: int) {
    && ProjectByName(d, project).Some? && AgentIsActive(d, agentId)
    && var p := ProjectByName(d, project).value.id;
       match lease
       case NoLease => Authorized(d, agentId, p, op)
       case LeaseCredential(credential) => exists l :: LiveLease(d, l, TokenDigest(credential), agentId, p, op, now)
       case BadLease => false
  }

  /** The name an authorized operation is recorded under: the agent, or the lease it used. */
  function ActsAs(d: Document, agentId: Id, lease: LeaseParam): string {
    if lease.LeaseCredential? then
      var l := Find(d.leases, (l: Lease) => l.digest == TokenDigest(lease.credential));
      if l.Some? then "lease:" + l.value.id else ""
    else "agent:" + agentId
  }

  function CredentialOf(lease: LeaseParam): Option<string> { if lease.LeaseCredential? then Some(lease.credential) else None }

  /** The log gained at least this entry, and it is the last one. */
  predicate Wrote(log: seq<Line>, log': seq<Line>, body: Body) {
    |log'| > |log| && log'[|log'| - 1].Entry? && log'[|log'| - 1].event.body == body
  }

  /** Only the log moved on. */
  ghost predicate OnlyLogged(w: World, w': World) {
    Openable(w') && w.log <= w'.log && w' == w.(handle := w'.handle, log := w'.log)
  }

  lemma LoggedKeeps(w: World, w': World)
    requires OnlyLogged(w, w')
    ensures Openable(w') && w.log <= w'.log && w'.doc == w.doc && w'.key == w.key
  {
    hide Openable;
  }

  /** The lease a credential of this agent and project is good for now. */
  predicate Usable(d: Document, l: Lease, digest: CredDigest, agentId: Id, projectId: Id, now: int) {
    l in d.leases && l.digest == digest && l.agentId == agentId && l.projectId == projectId && l.revokedAt.None? && now < l.expiresAt
  }

  /** Who is told what: an unknown project is not found; an inactive agent, a missing grant and an op the lease lacks are
      refused; every credential that is not a live lease of this agent and project counts as expired. */
  lemma AuthorizeRefusals(d: Document, agentId: Id, project: string, op: Op, credential: Option<string>, now: int)
    requires DocInv(d)
    ensures ProjectByName(d, project).None? <==> Authorize(d, agentId, project, op, credential, now) == Refused(NotFound)
    ensures ProjectByName(d, project).Some? ==>
              var p := ProjectByName(d, project).value.id;
              && (Authorize(d, agentId, project, op, credential, now) == Refused(Permission) <==>
                    || !AgentIsActive(d, agentId)
                    || (credential.None? && !Authorized(d, agentId, p, op))
                    || (credential.Some? && exists l :: Usable(d, l, TokenDigest(credential.value), agentId, p, now) && op !in l.ops))
              && (Authorize(d, agentId, project, op, credential, now) == Refused(LeaseExpired) <==>
                    AgentIsActive(d, agentId) && credential.Some?
                    && !exists l :: Usable(d, l, TokenDigest(credential.value), agentId, p, now))
  {
    var p := ProjectByName(d, project);
    if p.Some? && credential.Some? {
      var digest := TokenDigest(credential.value);
      var found := Find(d.leases, (l: Lease) => l.digest == digest);
      if found.Some? {
        assert LeaseBacked(d, found.value);
        forall l | Usable(d, l, digest, agentId, p.value.id, now) ensures l == found.value { LeaseOfDigest(d, l); }
        if found.value.revokedAt.None? { assert found.value.ops[0] in found.value.ops; }
        if Usable(d, found.value, digest, agentId, p.value.id, now) { assert found.value.agentId == agentId; }
      }
    }
    hide Find;
  }

  lemma ActorIs(d: Document, agentId: Id, project: string, op: Op, lease: LeaseParam, now: int)
    requires Authorize(d, agentId, project, op, CredentialOf(lease), now).Allowed?
    ensures Authorize(d, agentId, project, op, CredentialOf(lease), now).actor == ActsAs(d, agentId, lease)
  {
    hide AgentIsActive;
    hide Authorized;
    hide ActiveGrant;
  }

  /** One authorization: it succeeds exactly when the document permits the operation, and it changes nothing but the log,
      which gains its verdict if that fits and can be written. */
  lemma AuthorizeEffect(w: World, agentId: Id, project: string, op: Op, lease: LeaseParam, env: Env)
    requires Openable(w) && (w.doc.Some? ==> DocInv(w.doc.value)) && !lease.BadLease?
    ensures var (w', verdict) := AuthorizeStep(w, agentId, project, op, CredentialOf(lease), env);
            && OnlyLogged(w, w')
            && (verdict.Ok? <==> w.doc.Some? && Permitted(w.doc.value, agentId, project, op, lease, env.now))
            && (verdict.Ok? ==> verdict.value == ActsAs(w.doc.value, agentId, lease))
            && var body := if verdict.Ok? then AllowedBody(verdict.value, "authorize", env)
                           else DeniedBody("agent:" + agentId, "authorize", verdict.error, env);
               w'.log == if FileLen(w.log) + Space(body) <= w.handle.limits.soft && env.denial != NothingWritten
                         then w.log + [NextLine(w.log, body, w.key)] else w.log
  {
    hide Openable;
    hide DocInv;
    hide Note;
    hide Authorize;
    hide Permitted;
    hide ActsAs;
    hide NextLine;
    hide FileLen;
    hide Space;
    hide AllowedBody;
    hide DeniedBody;
    KeyedWithDocument(w);
    KeyIsOwners(w);
    var me := "agent:" + agentId;
    if w.doc.None? {
      NoteKeepsOpenable(w, DeniedBody(me, "authorize", Locked, env), w.key, Ordinary, env.denial);
      NoteEffect(w, DeniedBody(me, "authorize", Locked, env), w.key, Ordinary, env.denial);
    } else {
      PermittedIff(w.doc.value, agentId, project, op, lease, env.now);
      match Authorize(w.doc.value, agentId, project, op, CredentialOf(lease), env.now)
      case Allowed(actor) =>
        NoteKeepsOpenable(w, AllowedBody(actor, "authorize", env), w.key, Ordinary, env.denial);
        NoteEffect(w, AllowedBody(actor, "authorize", env), w.key, Ordinary, env.denial);
      case Refused(e) =>
        NoteKeepsOpenable(w, DeniedBody(me, "authorize", e, env), w.key, Ordinary, env.denial);
        NoteEffect(w, DeniedBody(me, "authorize", e, env), w.key, Ordinary, env.denial);
    }
  }

  lemma KeyIsOwners(w: World)
    requires Openable(w)
    ensures w.key.Some? ==> w.key.value == w.owner
  {
  }

  lemma PermittedIff(d: Document, agentId: Id, project: string, op: Op, lease: LeaseParam, now: int)
    requires DocInv(d) && !lease.BadLease?
    ensures !Authorize(d, agentId, project, op, CredentialOf(lease), now).Invalidate?
    ensures Authorize(d, agentId, project, op, CredentialOf(lease), now).Allowed? <==> Permitted(d, agentId, project, op, lease, now)
    ensures Authorize(d, agentId, project, op, CredentialOf(lease), now).Allowed? ==>
              Authorize(d, agentId, project, op, CredentialOf(lease), now).actor == ActsAs(d, agentId, lease)
  {
    AuthorizeIff(d, agentId, project, op, CredentialOf(lease), now);
    if Authorize(d, agentId, project, op, CredentialOf(lease), now).Allowed? { ActorIs(d, agentId, project, op, lease, now); }
    hide Authorize;
    hide DocInv;
    hide ActsAs;
    hide Authorized;
    hide LiveLease;
    hide AgentIsActive;
    hide Find;
  }

  // ----- reads ------------------------------------------------------------------------------------

  lemma NotedWorld(d: Daemon, body: Body, maced: bool, env: Env)
    requires Good(d.run) && d.run.now <= env.now
    ensures var r' := Moved(d, Noting(body, maced, Ordinary, env)).run;
            r'.w == Note(d.run.w, body, if maced then d.run.w.key else None, Ordinary, env.denial).world && r'.now == env.now
  {
    hide Good;
    hide Note;
  }

  /** A note succeeds exactly when it is the log's last line, synced. */
  lemma NoteWrote(w: World, body: Body, env: Env)
    requires Openable(w)
    ensures var out := Note(w, body, w.key, Ordinary, env.denial);
            && OnlyLogged(w, out.world)
            && (out.result.Ok? <==> env.denial == NoFault && Wrote(w.log, out.world.log, body))
  {
    KeyIsOwners(w);
    NoteEffect(w, body, w.key, Ordinary, env.denial);
    NoteKeepsOpenable(w, body, w.key, Ordinary, env.denial);
    hide Note;
    hide Openable;
    hide FileLen;
    hide Space;
  }

  lemma RecordedIff(d: Daemon, actor: string, op: string, env: Env)
    requires Good(d.run) && d.run.now <= env.now
    ensures var (d', reply) := Recorded(d, actor, op, env);
            && OnlyLogged(d.run.w, d'.run.w)
            && (reply.Ok? <==> env.denial == NoFault && Wrote(d.run.w.log, d'.run.w.log, AllowedBody(actor, op, env)))
  {
    NotedWorld(d, AllowedBody(actor, op, env), true, env);
    NoteWrote(d.run.w, AllowedBody(actor, op, env), env);
    hide Good;
    hide Note;
    hide Wrote;
    hide OnlyLogged;
    hide Advance;
    hide AllowedBody;
  }

  /** A read behind the lock gate succeeds exactly on an unlocked vault, with its own entry written. */
  lemma GatedReadIff(d: Daemon, actor: string, op: string, env: Env)
    requires Good(d.run) && d.run.now <= env.now
    ensures var (d', reply) := GatedRead(d, actor, op, env);
            && OnlyLogged(d.run.w, d'.run.w)
            && (reply.Ok? <==> d.run.w.doc.Some? && env.denial == NoFault
                               && Wrote(d.run.w.log, d'.run.w.log, AllowedBody(actor, op, env)))
  {
    KeyedWithDocument(d.run.w);
    if d.run.w.key.None? {
      NotedWorld(d, DeniedBody(actor, op, Locked, env), false, env);
      NoteKeepsOpenable(d.run.w, DeniedBody(actor, op, Locked, env), None, Ordinary, env.denial);
    } else {
      RecordedIff(d, actor, op, env);
    }
    hide Good;
    hide Openable;
    hide Recorded;
    hide Note;
    hide Wrote;
    hide Advance;
    hide AllowedBody;
    hide DeniedBody;
    hide Code;
  }

  /** What an authorization did to the log cannot be taken for a later entry. */
  predicate OnlyAuthorized(log: seq<Line>, log': seq<Line>) {
    log' == log
    || (|log'| == |log| + 1 && log <= log' && log'[|log|].Entry? && log'[|log|].event.body.op == "authorize")
  }

  lemma WroteAfter(log: seq<Line>, log1: seq<Line>, log2: seq<Line>, body: Body)
    requires OnlyAuthorized(log, log1) && log1 <= log2 && body.op != "authorize"
    ensures Wrote(log, log2, body) <==> Wrote(log1, log2, body)
  {
  }

  /** The daemon after an authorization. */
  lemma AuthorizedAsIff(d: Daemon, id: Id, project: string, op: Op, lease: LeaseParam, env: Env)
    requires Good(d.run) && d.run.now <= env.now && !lease.BadLease?
    ensures var (d1, verdict) := AuthorizedAs(d, id, project, op, lease, env);
            && Good(d1.run) && d1.run.now == env.now && OnlyLogged(d.run.w, d1.run.w) && OnlyAuthorized(d.run.w.log, d1.run.w.log)
            && d1.run.ids == d.run.ids && d1.run.digests == d.run.digests
            && (verdict.Ok? <==> d.run.w.doc.Some? && Permitted(d.run.w.doc.value, id, project, op, lease, env.now))
            && (verdict.Ok? ==> verdict.value == ActsAs(d.run.w.doc.value, id, lease))
  {
    hide Good;
    hide Openable;
    hide DocInv;
    hide FreshFor;
    hide Advance;
    hide AuthorizeStep;
    hide Permitted;
    hide ActsAs;
    hide AllowedBody;
    hide DeniedBody;
    hide FileLen;
    hide NextLine;
    var s := Authorizing(id, project, op, CredentialOf(lease), env);
    GoodIsReady(d.run, LeaseRevoke(None, id));
    AdvanceKeepsGood(d.run, s);
    AuthorizingIs(d.run, id, project, op, CredentialOf(lease), env);
    AuthorizeEffect(d.run.w, id, project, op, lease, env);
    OnlyVerdictLogged(d.run.w, id, project, op, lease, env);
  }

  lemma AuthorizingIs(r: Run, id: Id, project: string, op: Op, credential: Option<string>, env: Env)
    requires r.now <= env.now
    ensures Advance(r, Authorizing(id, project, op, credential, env))
         == r.(w := AuthorizeStep(r.w, id, project, op, credential, env).0, now := env.now)
  {
    hide AuthorizeStep;
  }

  lemma OnlyVerdictLogged(w: World, id: Id, project: string, op: Op, lease: LeaseParam, env: Env)
    requires Openable(w) && (w.doc.Some? ==> DocInv(w.doc.value)) && !lease.BadLease?
    ensures OnlyAuthorized(w.log, AuthorizeStep(w, id, project, op, CredentialOf(lease), env).0.log)
  {
    hide Openable;
    hide DocInv;
    hide AuthorizeStep;
    hide Permitted;
    hide ActsAs;
    hide FileLen;
    AuthorizeEffect(w, id, project, op, lease, env);
  }

  // ----- what each arm needs -------------------------------------------------------------------------

  /** An injection succeeds exactly for an agent that may inject into the project, on an unlocked vault, once the file is
      written and that is recorded, under the agent or the lease it used. */
  lemma InjectIff(d: Daemon, who: Identity, project: string, written: bool, req: Request)
    requires Good(d.run) && d.run.now <= req.auth.now <= req.act.now
    ensures var (d', reply) := InjectArm(d, who, project, written, req);
            reply.Ok? <==>
              && who.AgentId? && d.run.w.doc.Some? && written
              && Permitted(d.run.w.doc.value, who.id, project, Inject, req.lease, req.auth.now)
              && req.act.denial == NoFault
              && Wrote(d.run.w.log, d'.run.w.log, AllowedBody(ActsAs(d.run.w.doc.value, who.id, req.lease), "inject_file", req.act))
  {
    hide Good;
    hide Openable;
    hide DocInv;
    hide FreshFor;
    hide AuthorizedAs;
    hide GatedRead;
    hide Refusal;
    hide Wrote;
    hide OnlyAuthorized;
    hide ActsAs;
    hide Code;
    hide Authorized;
    hide LiveLease;
    GoodIsReady(d.run, LeaseRevoke(None, project));
    if who.AgentId? && !req.lease.BadLease? {
      AuthorizedAsIff(d, who.id, project, Inject, req.lease, req.auth);
      var (d1, verdict) := AuthorizedAs(d, who.id, project, Inject, req.lease, req.auth);
      if verdict.Ok? {
        GatedReadIff(d1, verdict.value, "inject_file", req.act);
        WroteAfter(d.run.w.log, d1.run.w.log, GatedRead(d1, verdict.value, "inject_file", req.act).0.run.w.log,
                   AllowedBody(verdict.value, "inject_file", req.act));
      }
    }
  }

  /** A listing succeeds, for an agent, exactly when it may read the project on an unlocked vault, and for the owner
      exactly when the project exists there; and always only with its own entry written. */
  lemma ListIff(d: Daemon, who: Identity, project: string, req: Request)
    requires Good(d.run) && d.run.now <= req.auth.now <= req.act.now
    ensures var (d', reply) := ListArm(d, who, project, req);
            reply.Ok? <==>
              && d.run.w.doc.Some?
              && (if who.AgentId? then Permitted(d.run.w.doc.value, who.id, project, Read, req.lease, req.auth.now)
                  else ProjectByName(d.run.w.doc.value, project).Some?)
              && req.act.denial == NoFault
              && Wrote(d.run.w.log, d'.run.w.log,
                       AllowedBody(if who.AgentId? then ActsAs(d.run.w.doc.value, who.id, req.lease) else ActorOf(who), "secret.list", req.act))
  {
    hide Good;
    hide Openable;
    hide DocInv;
    hide FreshFor;
    hide AuthorizedAs;
    hide GatedRead;
    hide Refusal;
    hide Wrote;
    hide OnlyAuthorized;
    hide ActsAs;
    hide Code;
    hide Authorized;
    hide LiveLease;
    hide Find;
    GoodIsReady(d.run, LeaseRevoke(None, project));
    if !who.AgentId? {
      GatedReadIff(d, ActorOf(who), "secret.list", req.act);
    } else if !req.lease.BadLease? {
      AuthorizedAsIff(d, who.id, project, Read, req.lease, req.auth);
      var (d1, verdict) := AuthorizedAs(d, who.id, project, Read, req.lease, req.auth);
      if verdict.Ok? {
        GatedReadIff(d1, verdict.value, "secret.list", req.act);
        WroteAfter(d.run.w.log, d1.run.w.log, GatedRead(d1, verdict.value, "secret.list", req.act).0.run.w.log,
                   AllowedBody(verdict.value, "secret.list", req.act));
      }
    }
  }

  /** The owner is shown a value exactly when it is stored, on an unlocked vault, and the reveal is recorded. */
  lemma HumanRevealIff(d: Daemon, actor: string, project: string, key: string, approvalId: Option<Id>, env: Env)
    requires Good(d.run) && d.run.now <= env.now
    ensures var (d', reply) := HumanRevealArm(d, actor, project, key, approvalId, env);
            reply.Ok? <==>
              && approvalId.None? && d.run.w.doc.Some?
              && ProjectByName(d.run.w.doc.value, project).Some?
              && SecretOf(d.run.w.doc.value, ProjectByName(d.run.w.doc.value, project).value.id, key).Some?
              && env.denial == NoFault && Wrote(d.run.w.log, d'.run.w.log, AllowedBody(actor, "reveal", env))
  {
    hide Good;
    hide Openable;
    hide Recorded;
    hide Refusal;
    hide Wrote;
    hide Code;
    hide Find;
    hide DocInv;
    GoodIsReady(d.run, LeaseRevoke(None, project));
    RecordedIff(d, actor, "reveal", env);
  }

  // ----- reveals to agents -----------------------------------------------------------------------------

  /** The vault can be sealed, fits its caps and can be saved, and the entry can be written and synced. */
  predicate Stored(env: Env) { !env.io.sealFails && !env.io.tooLarge && !env.io.saveFails && env.io.append == NoFault }

  /** An operation that needs its entry succeeds exactly when it is admissible, can be stored, and its entry is the log's
      last line. */
  lemma CallWrote(w: World, actor: string, c: Call, env: Env)
    requires Openable(w) && (c.LeaseCreate? || c.ApprovalRequest? || c.RevealClaim?)
    ensures var out := Perform(w, actor, c, env);
            && w.log <= out.world.log
            && (out.result.Ok? <==> w.doc.Some? && Propose(w.doc.value, c, env.now).Ok? && Stored(env)
                                    && Wrote(w.log, out.world.log, AllowedBody(actor, OpName(c), env)))
  {
    hide Perform;
    hide Propose;
    hide AllowedBody;
    hide FileLen;
    hide Space;
    CallSucceedsIff(w, actor, c, env);
    PerformVersions(w, actor, c, env);
    KeyedWithDocument(w);
    if w.doc.Some? && Propose(w.doc.value, c, env.now).Ok? {
      PerformCommits(w, actor, c, env);
      hide Openable;
      CommitWrote(w, Propose(w.doc.value, c, env.now).value, AllowedBody(actor, OpName(c), env), env.io);
    }
    hide Openable;
  }

  lemma CommitWrote(w: World, doc: Document, body: Body, io: CommitIo)
    requires Openable(w) && w.doc.Some?
    ensures var log' := CommitWith(w, doc, body, Ordinary, io).world.log;
            io.append == NoFault ==> (Wrote(w.log, log', body) <==> FileLen(w.log) + Space(body) <= w.handle.limits.soft)
  {
    AppendKeepsOpenable(w, body, Ordinary, io);
    CommitIs(w, doc, body, Ordinary, io);
    StageIff(w.handle, w.log, body, w.key, Ordinary);
    hide Stage;
    hide Openable;
    hide CommitWith;
    hide FileLen;
    hide Space;
    var (w1, recorded) := AfterAppend(w, body, Ordinary, io);
    assert recorded ==> RecordedAtHead(w.log, w1.log, Sealing(w1, true, doc), body);
  }

  /** The world and reply of an operation the daemon performs. */
  lemma PerformedIs(d: Daemon, actor: string, c: Call, env: Env)
    requires Good(d.run) && d.run.now <= env.now && Draws(c) !! d.run.ids && DrawsDigests(c) !! d.run.digests
    ensures var (d', reply) := Performed(d, actor, c, env);
            d'.run.w == Perform(d.run.w, actor, c, env).world && reply == ReplyOf(Perform(d.run.w, actor, c, env).result)
  {
    hide Perform;
    hide Happened;
    hide Good;
  }

  /** The row is approved for this agent, project and key, less than five minutes ago, and the value is still stored. */
  ghost predicate ClaimReady(d: Document, id: Id, project: string, key: string, approvalId: Id, now: int) {
    && ProjectByName(d, project).Some? && SecretOf(d, ProjectByName(d, project).value.id, key).Some?
    && exists a: Approval :: a.id == approvalId && a in d.approvals && a.agentId == id && a.key == key
         && a.projectId == ProjectByName(d, project).value.id && a.status == Approved
         && a.approvedAt.Some? && now < a.approvedAt.value + 300 * SECOND
  }

  lemma ClaimReadyIff(d: Document, id: Id, project: string, key: string, approvalId: Id, now: int)
    requires DocInv(d)
    ensures ClaimApproval(d, id, project, key, approvalId, now).Ok? <==> ClaimReady(d, id, project, key, approvalId, now)
  {
    hide DocInv;
    hide Find;
    hide ClaimApproval;
    ClaimIff(d, id, project, key, approvalId, now);
    if ProjectByName(d, project).Some? {
      forall a: Approval ensures Claimable(d, a, id, ProjectByName(d, project).value.id, key, now) <==>
        a in d.approvals && a.agentId == id && a.projectId == ProjectByName(d, project).value.id && a.key == key
        && a.status == Approved && a.approvedAt.Some? && now < a.approvedAt.value + 300 * SECOND {}
    }
  }

  lemma BothProposals(d: Document, id: Id, project: string, key: string, row: Id, now: int)
    ensures Propose(d, RevealClaim(id, project, key, row), now) == ClaimApproval(d, id, project, key, row, now)
    ensures Propose(d, ApprovalRequest(id, project, key, row), now) == RequestApproval(d, id, project, key, row, now)
  {
    hide ClaimApproval;
    hide RequestApproval;
  }

  lemma ClaimPartIff(d: Daemon, d1: Daemon, actor: string, id: Id, ask: Ask, env: Env)
    requires Good(d1.run) && d1.run.now <= env.now && ask.AskReveal? && ask.approvalId.Some?
    requires OnlyLogged(d.run.w, d1.run.w) && OnlyAuthorized(d.run.w.log, d1.run.w.log) && d.run.w.doc.Some?
    ensures var (d2, out) := Performed(d1, actor, RevealClaim(id, ask.project, ask.key, ask.approvalId.value), env);
            out.Ok? <==>
              && ClaimReady(d.run.w.doc.value, id, ask.project, ask.key, ask.approvalId.value, env.now)
              && Stored(env) && Wrote(d.run.w.log, d2.run.w.log, AllowedBody(actor, "reveal", env))
  {
    var c := RevealClaim(id, ask.project, ask.key, ask.approvalId.value);
    hide Good;
    hide Openable;
    hide DocInv;
    hide Perform;
    hide Performed;
    hide Stored;
    hide Wrote;
    hide OnlyAuthorized;
    hide ClaimReady;
    hide ClaimApproval;
    hide Find;
    hide Code;
    hide OnlyLogged;
    hide AllowedBody;
    hide Propose;
    LoggedKeeps(d.run.w, d1.run.w);
    BothProposals(d.run.w.doc.value, id, ask.project, ask.key, ask.approvalId.value, env.now);
    GoodIsReady(d1.run, c);
    PerformedIs(d1, actor, c, env);
    CallWrote(d1.run.w, actor, c, env);
    ClaimReadyIff(d.run.w.doc.value, id, ask.project, ask.key, ask.approvalId.value, env.now);
    WroteAfter(d.run.w.log, d1.run.w.log, Performed(d1, actor, c, env).0.run.w.log, AllowedBody(actor, "reveal", env));
  }

  /** Asking never fails with the code that says it worked. */
  lemma AskingFailsOtherwise(w: World, actor: string, c: Call, env: Env)
    requires c.ApprovalRequest? && Perform(w, actor, c, env).result.Err?
    ensures Code(Perform(w, actor, c, env).result.error) != "E_APPROVAL_PENDING"
  {
    hide Stage;
    hide AppendStaged;
    hide Find;
    hide Note;
    hide Purged;
  }

  lemma AuthorizationFailsOtherwise(w: World, id: Id, project: string, op: Op, credential: Option<string>, env: Env)
    requires AuthorizeStep(w, id, project, op, credential, env).1.Err?
    ensures Code(AuthorizeStep(w, id, project, op, credential, env).1.error) != "E_APPROVAL_PENDING"
  {
    hide Note;
    hide CommitWith;
    hide Find;
    hide AgentIsActive;
  }

  lemma AskPartIff(d: Daemon, d1: Daemon, actor: string, id: Id, ask: Ask, env: Env)
    requires Good(d1.run) && d1.run.now <= env.now && ask.AskReveal? && ask.freshId !in d1.run.ids
    requires OnlyLogged(d.run.w, d1.run.w) && OnlyAuthorized(d.run.w.log, d1.run.w.log) && d.run.w.doc.Some?
    ensures var (d2, out) := Performed(d1, actor, ApprovalRequest(id, ask.project, ask.key, ask.freshId), env);
            && (out.Ok? <==>
                  && RevealAskable(d.run.w.doc.value, id, ask.project, ask.key)
                  && |LiveApprovals(d.run.w.doc.value, env.now)| < MAX_APPROVALS
                  && Stored(env) && Wrote(d.run.w.log, d2.run.w.log, AllowedBody(actor, "approval.request", env)))
            && out != Err("E_APPROVAL_PENDING")
  {
    var c := ApprovalRequest(id, ask.project, ask.key, ask.freshId);
    hide Good;
    hide Openable;
    hide DocInv;
    hide Perform;
    hide Performed;
    hide Stored;
    hide Wrote;
    hide OnlyAuthorized;
    hide RevealAskable;
    hide LiveApprovals;
    hide RequestApproval;
    hide Find;
    hide Code;
    hide OnlyLogged;
    hide AllowedBody;
    hide Propose;
    LoggedKeeps(d.run.w, d1.run.w);
    BothProposals(d.run.w.doc.value, id, ask.project, ask.key, ask.freshId, env.now);
    GoodIsReady(d1.run, c);
    PerformedIs(d1, actor, c, env);
    CallWrote(d1.run.w, actor, c, env);
    RequestApprovalEffect(d.run.w.doc.value, id, ask.project, ask.key, ask.freshId, env.now);
    WroteAfter(d.run.w.log, d1.run.w.log, Performed(d1, actor, c, env).0.run.w.log, AllowedBody(actor, "approval.request", env));
    if Perform(d1.run.w, actor, c, env).result.Err? { AskingFailsOtherwise(d1.run.w, actor, c, env); }
  }

  lemma AuthorizedAsFailsOtherwise(d: Daemon, id: Id, project: string, op: Op, lease: LeaseParam, env: Env)
    ensures ReplyOf(AuthorizedAs(d, id, project, op, lease, env).1) != Err("E_APPROVAL_PENDING")
  {
    hide AuthorizeStep;
    hide Advance;
    hide Code;
    var credential := if lease.LeaseCredential? then Some(lease.credential) else None;
    if AuthorizeStep(d.run.w, id, project, op, credential, env).1.Err? {
      AuthorizationFailsOtherwise(d.run.w, id, project, op, credential, env);
    }
  }

  lemma BadLeasePermitsNothing(id: Id, project: string, op: Op, now: int)
    ensures forall d :: !Permitted(d, id, project, op, BadLease, now)
  {
  }

  lemma RefusalCodes()
    ensures Code(InvalidInput) != "E_APPROVAL_PENDING" && Code(ApprovalPending) == "E_APPROVAL_PENDING"
  {
  }

  /** A claim by its agent succeeds exactly when the agent may reveal in the project now, the row is approved for this
      agent, project and key and not five minutes old, the value is still stored, and the consumed row is saved with its
      entry. A reveal without an approval is never a success: it leaves a request, or nothing. */
  lemma AgentRevealIff(d: Daemon, id: Id, ask: Ask, req: Request)
    requires Good(d.run) && d.run.now <= req.auth.now <= req.act.now && ask.AskReveal? && ask.freshId !in d.run.ids
    ensures var (d', reply) := RevealArm(d, AgentId(id), ask, req);
            && (reply.Ok? <==>
                  && d.run.w.doc.Some? && ask.approvalId.Some?
                  && Permitted(d.run.w.doc.value, id, ask.project, Reveal, req.lease, req.auth.now)
                  && ClaimReady(d.run.w.doc.value, id, ask.project, ask.key, ask.approvalId.value, req.act.now)
                  && Stored(req.act)
                  && Wrote(d.run.w.log, d'.run.w.log, AllowedBody(ActsAs(d.run.w.doc.value, id, req.lease), "reveal", req.act)))
            && (reply == Err("E_APPROVAL_PENDING") && ask.approvalId.None? <==>
                  && d.run.w.doc.Some? && ask.approvalId.None?
                  && Permitted(d.run.w.doc.value, id, ask.project, Reveal, req.lease, req.auth.now)
                  && RevealAskable(d.run.w.doc.value, id, ask.project, ask.key)
                  && |LiveApprovals(d.run.w.doc.value, req.act.now)| < MAX_APPROVALS
                  && Stored(req.act)
                  && Wrote(d.run.w.log, d'.run.w.log, AllowedBody(ActsAs(d.run.w.doc.value, id, req.lease), "approval.request", req.act)))
  {
    hide Good;
    hide Openable;
    hide DocInv;
    hide FreshFor;
    hide AuthorizedAs;
    hide Performed;
    hide Wrote;
    hide OnlyAuthorized;
    hide ActsAs;
    hide Permitted;
    hide Code;
    hide Find;
    hide ClaimReady;
    hide RevealAskable;
    hide LiveApprovals;
    hide Stored;
    GoodIsReady(d.run, LeaseRevoke(None, id));
    RefusalCodes();
    if req.lease.BadLease? {
      BadLeasePermitsNothing(id, ask.project, Reveal, req.auth.now);
    } else {
      AuthorizedAsIff(d, id, ask.project, Reveal, req.lease, req.auth);
      AuthorizedAsFailsOtherwise(d, id, ask.project, Reveal, req.lease, req.auth);
      var (d1, verdict) := AuthorizedAs(d, id, ask.project, Reveal, req.lease, req.auth);
      if verdict.Ok? {
        if ask.approvalId.Some? {
          ClaimPartIff(d, d1, verdict.value, id, ask, req.act);
        } else {
          AskPartIff(d, d1, verdict.value, id, ask, req.act);
        }
      }
    }
  }

  /** The value an allowed reveal yields is the one stored under that very key of that very project. */
  lemma RevealedValueIsStored(d: Daemon, ask: Ask, value: Bytes)
    requires ask.AskReveal? && (d.run.w.doc.Some? ==> SecretsUnique(d.run.w.doc.value))
    ensures Asked(d, ask) == Some(value) <==>
              && d.run.w.doc.Some? && ProjectByName(d.run.w.doc.value, ask.project).Some?
              && exists s :: s in d.run.w.doc.value.secrets && s.key == ask.key && s.value == value
                   && s.projectId == ProjectByName(d.run.w.doc.value, ask.project).value.id
  {
    if d.run.w.doc.Some? {
      var doc := d.run.w.doc.value;
      forall s | s in doc.secrets ensures SecretOf(doc, s.projectId, s.key) == Some(s) { SecretIs(doc, s); }
    }
    hide Find;
    hide SecretsUnique;
  }

  // ----- leases, polls and edits -------------------------------------------------------------------------

  /** A lease request succeeds exactly for an agent, when the lease is askable, live leases leave room, and it is saved
      with its entry. */
  lemma AskLeaseIff(d: Daemon, who: Identity, req: Request)
    requires Good(d.run) && d.run.now <= req.act.now && req.ask.AskLease?
    requires req.ask.id !in d.run.ids && req.ask.digest !in d.run.digests
    ensures var (d', reply) := Arm(d, who, req);
            reply.Ok? <==>
              && who.AgentId? && d.run.w.doc.Some?
              && LeaseAskable(d.run.w.doc.value, who.id, req.ask.project, req.ask.ops, req.ask.ttlSecs)
              && |LiveLeases(d.run.w.doc.value, req.act.now)| < MAX_LEASES
              && Stored(req.act) && Wrote(d.run.w.log, d'.run.w.log, AllowedBody("agent:" + who.id, "lease.create", req.act))
  {
    hide Good;
    hide Openable;
    hide DocInv;
    hide FreshFor;
    hide Perform;
    hide Performed;
    hide Stored;
    hide Wrote;
    hide LeaseAskable;
    hide LiveLeases;
    hide CreateLease;
    hide Code;
    hide AllowedBody;
    if who.AgentId? {
      var a := req.ask;
      var c := LeaseCreate(who.id, a.project, a.ops, a.ttlSecs, a.id, a.digest);
      GoodIsReady(d.run, c);
      PerformedIs(d, ActorOf(who), c, req.act);
      CallWrote(d.run.w, ActorOf(who), c, req.act);
      if d.run.w.doc.Some? { CreateLeaseIff(d.run.w.doc.value, who.id, a.project, a.ops, a.ttlSecs, a.id, a.digest, req.act.now); }
    }
  }

  /** A lease is returned exactly when it exists and, unless the owner returns it, is the agent's own; no full log stands
      in the way. */
  lemma ReturnLeaseIff(d: Daemon, who: Identity, req: Request)
    requires Good(d.run) && d.run.now <= req.act.now && req.ask.ReturnLease?
    ensures Arm(d, who, req).1.Ok? <==>
              && d.run.w.doc.Some?
              && (exists l :: l in d.run.w.doc.value.leases && l.id == req.ask.leaseId && (who.AgentId? ==> l.agentId == who.id))
              && !req.act.io.sealFails && !req.act.io.tooLarge && !req.act.io.saveFails
  {
    hide Good;
    hide Openable;
    hide FreshFor;
    hide Perform;
    hide Performed;
    hide DropLease;
    hide Code;
    hide AllowedBody;
    hide FileLen;
    var owner := if who.AgentId? then Some(who.id) else None;
    var c := LeaseRevoke(owner, req.ask.leaseId);
    GoodIsReady(d.run, c);
    PerformedIs(d, ActorOf(who), c, req.act);
    CallSucceedsIff(d.run.w, ActorOf(who), c, req.act);
    if d.run.w.doc.Some? { DropLeaseEffect(d.run.w.doc.value, owner, req.ask.leaseId, req.act.now); }
  }

  /** An edit is the owner's alone to ask; it succeeds exactly when it is admissible and stored, with its entry unless it
      only takes away. A decision is made in the name the request authenticated as. */
  lemma EditIff(d: Daemon, who: Identity, req: Request)
    requires Good(d.run) && d.run.now <= req.act.now && req.ask.Edit?
    requires Draws(req.ask.call) !! d.run.ids && DrawsDigests(req.ask.call) !! d.run.digests
    ensures var c := if req.ask.call.ApprovalDecide? then req.ask.call.(actor := ActorOf(who)) else req.ask.call;
            Arm(d, who, req).1.Ok? <==>
              && HumanCall(c) && d.run.w.doc.Some? && Propose(d.run.w.doc.value, c, req.act.now).Ok?
              && !req.act.io.sealFails && !req.act.io.tooLarge && !req.act.io.saveFails
              && (|| OnlyTakesAway(d.run.w.doc.value, c)
                  || (req.act.io.append == NoFault
                      && FileLen(d.run.w.log) + Space(AllowedBody(ActorOf(who), OpName(c), req.act)) <= d.run.w.handle.limits.soft))
  {
    hide Good;
    hide Openable;
    hide FreshFor;
    hide Perform;
    hide Performed;
    hide Propose;
    hide OnlyTakesAway;
    hide Code;
    hide AllowedBody;
    hide FileLen;
    hide OpName;
    var c := if req.ask.call.ApprovalDecide? then req.ask.call.(actor := ActorOf(who)) else req.ask.call;
    GoodIsReady(d.run, c);
    if HumanCall(c) {
      PerformedIs(d, ActorOf(who), c, req.act);
      CallSucceedsIff(d.run.w, ActorOf(who), c, req.act);
    }
  }

  /** An agent may poll exactly its own approvals, on an unlocked vault. */
  lemma StatusIff(d: Daemon, who: Identity, row: Id, env: Env)
    requires Good(d.run)
    ensures StatusArm(d, who, row, env).1.Ok? <==>
              && who.AgentId? && d.run.w.doc.Some?
              && exists a: Approval :: RowIs(d.run.w.doc.value, row, a) && a.agentId == who.id
  {
    hide Good;
    hide Openable;
    hide FreshFor;
    hide Refusal;
    hide Recorded;
    hide Code;
    GoodIsReady(d.run, LeaseRevoke(None, row));
    if d.run.w.doc.Some? {
      var doc := d.run.w.doc.value;
      var found := Find(doc.approvals, (a: Approval) => a.id == row);
      if found.Some? {
        assert RowIs(doc, row, found.value);
        forall a | RowIs(doc, row, a) ensures a == found.value { OnlyRowOf(doc, row, a, found.value); }
      }
    }
  }

  /** The plain reads: each succeeds exactly with its own entry written, behind the lock gate where it has one; listing
      leases needs an unlocked vault only, and verifying the log is its verdict. */
  lemma ReadArmsIff(d: Daemon, who: Identity, req: Request)
    requires Good(d.run) && d.run.now <= req.act.now
    ensures var (d', reply), actor := Arm(d, who, req), ActorOf(who);
            match req.ask
            case VaultStatus => reply.Ok? <==> Written(d, d', actor, "vault.status", req.act)
            case HumanRead(name, gated) => reply.Ok? <==> (gated ==> d.run.w.doc.Some?) && Written(d, d', actor, name, req.act)
            case LeaseList => reply.Ok? <==> d.run.w.doc.Some?
            case RunSignal(verdict) => reply.Ok? <==> who.AgentId? && verdict.Ok? && Written(d, d', actor, "run_signal", req.act)
            case AuditVerify => d' == d && (reply.Ok? <==> Accepts(d.run.w.log, d.run.w.key))
            case VaultCreate => d' == d && reply == Err("E_EXISTS")
            case Malformed(_, _) => d' == d && reply == Err("E_INVALID_INPUT")
            case _ => true
  {
    hide Good;
    hide Openable;
    hide DocInv;
    hide FreshFor;
    hide Recorded;
    hide GatedRead;
    hide Refusal;
    hide Wrote;
    hide Accepts;
    hide OnlyLogged;
    GoodIsReady(d.run, LeaseRevoke(None, ""));
    match req.ask
    case VaultStatus => RecordedIff(d, ActorOf(who), "vault.status", req.act);
    case HumanRead(name, gated) => RecordedIff(d, ActorOf(who), name, req.act); GatedReadIff(d, ActorOf(who), name, req.act);
    case RunSignal(_) => RecordedIff(d, ActorOf(who), "run_signal", req.act);
    case _ =>
  }

  /** The read's own entry is the log's last line, and synced. */
  predicate Written(d: Daemon, d': Daemon, actor: string, op: string, env: Env) {
    env.denial == NoFault && Wrote(d.run.w.log, d'.run.w.log, AllowedBody(actor, op, env))
  }

  // ----- who may ask for what --------------------------------------------------------------------------

  /** Nobody may only ask for the status; an agent may lock, list, inject, reveal, poll, signal its runs and manage its
      leases; the owner may ask for everything, but never with a lease. */
  predicate MayAsk(who: Identity, ask: Ask, lease: LeaseParam) {
    match who
    case Unauthenticated => ask.VaultStatus?
    case AgentId(_) =>
      ask.VaultStatus? || ask.VaultLock? || ask.InjectFile? || ask.SecretsList? || ask.AskLease? || ask.LeaseList?
      || ask.ReturnLease? || ask.AskReveal? || ask.ApprovalsStatus? || ask.RunSignal?
    case Human(_) => lease.NoLease?
  }

  lemma ServedIff(d: Daemon, who: Identity, req: Request)
    ensures Served(d, who, req).1.Ok? <==> MayAsk(who, req.ask, req.lease) && Arm(d, who, req).1.Ok?
    ensures Served(d, who, req).1.Ok? || MayAsk(who, req.ask, req.lease) ==> Served(d, who, req).1 == Arm(d, who, req).1
  {
  }

  // ----- human sessions -----------------------------------------------------------------------------------

  /** Every other credential is as it was. */
  ghost predicate SameButFor(table: Table, table': Table, x: CredDigest) {
    forall y :: y != x ==> (y in table' <==> y in table) && (y in table ==> table'[y] == table[y])
  }

  predicate FitsOrdinary(w: World, body: Body) { FileLen(w.log) + Space(body) <= w.handle.limits.soft }

  lemma StagedIff(w: World, body: Body)
    ensures Stage(w.handle, w.log, body, w.key, Ordinary).Ok? <==> FitsOrdinary(w, body)
  {
    StageIff(w.handle, w.log, body, w.key, Ordinary);
  }

  /** A session is opened exactly with a passphrase, for 1 to 1800 seconds, on an unlocked vault, with its entry written. */
  lemma SessionOpenIff(d: Daemon, actor: string, req: Request)
    requires Good(d.run) && req.ask.SessionOpen?
    ensures SessionArm(d, actor, req).1.Ok? <==>
              && req.session.None? && req.passphrase.Some? && d.run.w.doc.Some? && 1 <= req.ask.mint.ttlSecs <= 1800
              && req.act.denial == NoFault && FitsOrdinary(d.run.w, AllowedBody(actor, "session.open", req.act))
  {
    hide Good;
    hide Openable;
    hide FreshFor;
    hide Refusal;
    hide Code;
    hide AllowedBody;
    hide DeniedBody;
    hide SweptTable;
    hide FileLen;
    hide Stage;
    hide AppendStaged;
    hide Note;
    hide FitsOrdinary;
    hide MadeRoom;
    GoodIsReady(d.run, LeaseRevoke(None, actor));
    KeyedWithDocument(d.run.w);
    StagedIff(d.run.w, AllowedBody(actor, "session.open", req.act));
    var body := AllowedBody(actor, "session.open", req.act);
    if Stage(d.run.w.handle, d.run.w.log, body, d.run.w.key, Ordinary).Ok? { StagedAppends(d.run.w, body, req.act.denial); }
  }

  lemma StagedAppends(w: World, body: Body, fault: AppendFault)
    requires Openable(w) && Stage(w.handle, w.log, body, w.key, Ordinary).Ok?
    ensures AppendStaged(w.handle, w.log, Stage(w.handle, w.log, body, w.key, Ordinary).value, fault).result.Ok? <==> fault == NoFault
  {
    KeyIsOwners(w);
    hide Stage;
    hide AppendStaged;
    FreshAppend(w.handle, w.log, body, w.key, w.owner, Ordinary, fault);
  }

  /** A touch renews exactly a live session, and only if its entry would fit; it renews that one and no other. */
  lemma SessionTouchIff(d: Daemon, actor: string, req: Request)
    requires req.ask.SessionTouch?
    ensures var (d', reply) := SessionArm(d, actor, req);
            && (reply.Ok? <==>
                  && req.session.Some? && LiveEntry(d, TokenDigest(req.session.value), req.tick)
                  && FitsOrdinary(d.run.w, AllowedBody(SessionActor(d.table[TokenDigest(req.session.value)].prefix), "session.touch", req.act)))
            && (reply.Ok? ==>
                  var x := TokenDigest(req.session.value);
                  x in d'.table && d'.table[x] == d.table[x].(lastUsed := req.again) && SameButFor(d.table, d'.table, x))
            && (reply.Err? && req.session.Some? ==> SameButFor(d.table, d'.table, TokenDigest(req.session.value)))
  {
    hide Refusal;
    hide Code;
    hide AllowedBody;
    hide DeniedBody;
    hide FileLen;
    hide Stage;
    hide Note;
    hide FitsOrdinary;
    if req.session.Some? && TokenDigest(req.session.value) in d.table {
      StagedIff(d.run.w, AllowedBody(SessionActor(d.table[TokenDigest(req.session.value)].prefix), "session.touch", req.act));
    }
  }

  /** A close ends exactly a live session, recorded or not, and no other. */
  lemma SessionCloseIff(d: Daemon, actor: string, req: Request)
    requires req.ask.SessionClose?
    ensures var (d', reply) := SessionArm(d, actor, req);
            && (reply.Ok? <==> req.session.Some? && LiveEntry(d, TokenDigest(req.session.value), req.tick))
            && (req.session.Some? ==>
                  var x := TokenDigest(req.session.value);
                  x !in d'.table && SameButFor(d.table, d'.table, x))
  {
    hide Refusal;
    hide Code;
    hide AllowedBody;
    hide DeniedBody;
    hide Note;
  }

  /** The vault is unlocked exactly by the passphrase, in whatever state it is; the copy that was saved or refused last is
      then the document. */
  lemma VaultUnlockIff(d: Daemon, actor: string, m: Minting, req: Request)
    requires Good(d.run) && d.run.now <= req.act.now <= req.edge.now
    ensures var (d', reply) := UnlockArm(d, actor, m, req);
            && (reply.Ok? <==> req.session.None? && req.passphrase == Some(true))
            && (reply.Ok? ==> d'.run.w.key == Some(d.run.w.owner) && d'.run.w.doc == Some(d.run.w.envelope))
            && (reply.Err? ==> d' == d)
  {
    hide Good;
    hide Openable;
    hide FreshFor;
    hide Code;
    hide AllowedBody;
    hide DeniedBody;
    hide Note;
    hide Unlock;
    hide Opened;
    hide Find;
    GoodIsReady(d.run, LeaseRevoke(None, actor));
    UnlockIff(d.run.w, true, AllowedBody("human", "vault.unlocked", req.act), DeniedBody("human", "vault.unlock", AuthFailed, req.act),
              req.act.denial);
    OpenedKeeps(Moved(d, Unlocking(true, req.act)).run.w, d.table, actor, m.(ttlSecs := SESSION_DEFAULT_TTL_SECS), req.edge);
  }

  lemma OpenedKeeps(w: World, table: Table, actor: string, m: Minting, env: Env)
    ensures var w' := Opened(w, table, actor, m, env).0; w'.key == w.key && w'.doc == w.doc
  {
    hide Stage;
    hide AppendStaged;
    hide Append;
  }

  /** An unlock also opens a session of five minutes, exactly when that can be recorded. */
  lemma UnlockMints(d: Daemon, actor: string, m: Minting, req: Request)
    requires Good(d.run) && d.run.now <= req.act.now <= req.edge.now && req.session.None? && req.passphrase == Some(true)
    requires m.digest !in d.table
    ensures var w1, d' := Moved(d, Unlocking(true, req.act)).run.w, UnlockArm(d, actor, m, req).0;
            && (m.digest in d'.table <==>
                  req.edge.denial == NoFault && FitsOrdinary(w1, AllowedBody(actor, "session.open", req.edge)))
            && (m.digest in d'.table ==> d'.table[m.digest] == HumanSession(m.prefix, m.tick, m.tick, 300))
  {
    hide Good;
    hide Openable;
    hide FreshFor;
    hide DocInv;
    hide Code;
    hide AllowedBody;
    hide DeniedBody;
    hide Note;
    hide Unlock;
    hide Opened;
    hide Find;
    hide FitsOrdinary;
    var s := Unlocking(true, req.act);
    GoodIsReady(d.run, LeaseRevoke(None, actor));
    AdvanceKeepsGood(d.run, s);
    UnlockIff(d.run.w, true, AllowedBody("human", "vault.unlocked", req.act), DeniedBody("human", "vault.unlock", AuthFailed, req.act),
              req.act.denial);
    GoodIsReady(Moved(d, s).run, LeaseRevoke(None, actor));
    OpenedIff(Moved(d, s).run.w, d.table, actor, m.(ttlSecs := SESSION_DEFAULT_TTL_SECS), req.edge);
  }

  lemma OpenedIff(w: World, table: Table, actor: string, m: Minting, env: Env)
    requires Openable(w) && w.doc.Some? && 1 <= m.ttlSecs <= 1800 && m.digest !in table
    ensures var table' := Opened(w, table, actor, m, env).1;
            && (m.digest in table' <==> env.denial == NoFault && FitsOrdinary(w, AllowedBody(actor, "session.open", env)))
            && (m.digest in table' ==> table'[m.digest] == HumanSession(m.prefix, m.tick, m.tick, m.ttlSecs))
  {
    hide AllowedBody;
    hide FileLen;
    hide Stage;
    hide AppendStaged;
    hide FitsOrdinary;
    hide Accepts;
    hide Named;
    hide Follows;
    hide Lapsed;
    KeyedWithDocument(w);
    var body := AllowedBody(actor, "session.open", env);
    StagedIff(w, body);
    if Stage(w.handle, w.log, body, w.key, Ordinary).Ok? { StagedAppends(w, body, env.denial); }
  }

  /** What an agent's or the owner's ordinary request leaves of the registry: all of it. */
  predicate LeavesSessions(ask: Ask) { !ask.VaultLock? && !ask.VaultUnlock? && !ManagesSessions(ask) }

  lemma ArmLeavesSessions(d: Daemon, who: Identity, req: Request)
    requires LeavesSessions(req.ask)
    ensures Arm(d, who, req).0.table == d.table
  {
    hide Advance;
    hide AuthorizeStep;
    hide Note;
    hide Perform;
    hide DigestsOf;
    hide ProjectByName;
    hide SecretOf;
    hide AllowedBody;
    hide DeniedBody;
    hide Code;
    hide Accepts;
    hide SessionArm;
    hide UnlockArm;
    hide LockVault;
    hide HumanCall;
    hide OpName;
    match req.ask
    case InjectFile(project, written) =>
    case SecretsList(project) =>
    case AskReveal(_, _, _, _) => RevealLeavesSessions(d, who, req);
    case ApprovalsStatus(row) =>
    case _ =>
  }

  lemma RevealLeavesSessions(d: Daemon, who: Identity, req: Request)
    requires req.ask.AskReveal?
    ensures RevealArm(d, who, req.ask, req).0.table == d.table
  {
    hide Advance;
    hide AuthorizeStep;
    hide Note;
    hide Perform;
    hide DigestsOf;
    hide ProjectByName;
    hide SecretOf;
    hide AllowedBody;
    hide DeniedBody;
    hide Code;
  }

  /** An allowed request of a session renews it: its window starts anew at the end of the request, and no other session
      changes. */
  lemma AllowedRequestRenews(d: Daemon, req: Request)
    requires Dispatch(d, req).1.Ok? && req.session.Some? && LeavesSessions(req.ask)
    ensures var d', x := Dispatch(d, req).0, TokenDigest(req.session.value);
            && x in d.table && x in d'.table && d'.table[x] == d.table[x].(lastUsed := req.again) && SameButFor(d.table, d'.table, x)
  {
    hide Arm;
    hide Refusal;
    hide Code;
    hide AllowedBody;
    hide DeniedBody;
    hide Advance;
    hide WellTimed;
    var d0 := d.(clock := req.again);
    var (d1, known) := Identify(d0, req);
    IdentifyIff(d0, req);
    ArmLeavesSessions(d1, known.value, req);
  }

  // ----- locking ---------------------------------------------------------------------------------------------

  /** A lock always drops the key, the document and every session; unless sealing or saving fails, the file then holds no
      usable lease and no open approval, and everything else as it was. No full log stands in its way. */
  lemma VaultLockEffect(d: Daemon, actor: string, note: Env, env: Env)
    requires Good(d.run) && d.run.now <= note.now <= env.now
    ensures var d' := LockVault(d, actor, note, env);
            && d'.run.w.key.None? && d'.run.w.doc.None? && d'.table == map[]
            && (d.run.w.doc.Some? && !env.io.sealFails && !env.io.tooLarge && !env.io.saveFails ==>
                  && SameRecords(d.run.w.doc.value, d'.run.w.disk)
                  && (forall l :: l in d'.run.w.disk.leases ==> l.revokedAt.Some?)
                  && (forall a :: a in d'.run.w.disk.approvals ==> !Open(a)))
  {
    hide Good;
    hide Openable;
    hide LockedDown;
    hide AllowedBody;
    hide Note;
    hide CommitWith;
    hide Happened;
    hide DigestsOf;
    hide DocInv;
    hide FreshFor;
    var s := Noting(AllowedBody(actor, "vault.lock", note), true, Lifecycle, note);
    AdvanceKeepsGood(d.run, s);
    var d1 := Moved(d, s);
    NotedWorldOf(d, AllowedBody(actor, "vault.lock", note), Lifecycle, note);
    GoodIsReady(d.run, LeaseRevoke(None, actor));
    if d.run.w.doc.Some? {
      LockSaves(d1.run, env);
      LockedDownIsClosed(d.run.w.doc.value, env.now);
    }
  }

  lemma NotedWorldOf(d: Daemon, body: Body, priority: Priority, env: Env)
    requires Good(d.run) && d.run.now <= env.now
    ensures var r' := Moved(d, Noting(body, true, priority, env)).run;
            r'.w.doc == d.run.w.doc && r'.w.key == d.run.w.key && r'.now == env.now
  {
    hide Good;
    hide Append;
  }

  lemma LockSaves(r: Run, env: Env)
    requires Good(r) && r.w.doc.Some?
    ensures var out := CommitWith(r.w, LockedDown(r.w.doc.value, env.now), LockBody(env), Lifecycle, env.io);
            && (out.result.Ok? <==> !env.io.sealFails && !env.io.tooLarge && !env.io.saveFails)
            && (out.result.Ok? ==> SameRows(out.world.disk, LockedDown(r.w.doc.value, env.now)))
  {
    LockVersions(r, env);
    AppendKeepsOpenable(r.w, LockBody(env), Lifecycle, env.io);
    CommitIs(r.w, LockedDown(r.w.doc.value, env.now), LockBody(env), Lifecycle, env.io);
    hide Openable;
    hide CommitWith;
    hide AfterAppend;
    hide LockedDown;
    hide Known;
  }

  lemma LockedDownIsClosed(d: Document, now: int)
    ensures SameRecords(d, LockedDown(d, now))
    ensures forall l :: l in LockedDown(d, now).leases ==> l.revokedAt.Some?
    ensures forall a :: a in LockedDown(d, now).approvals ==> !Open(a)
  {
    forall l | l in LockedDown(d, now).leases ensures l.revokedAt.Some? {
      var k :| 0 <= k < |d.leases| && LockedDown(d, now).leases[k] == l;
    }
    forall a | a in LockedDown(d, now).approvals ensures !Open(a) {
      var k :| 0 <= k < |d.approvals| && LockedDown(d, now).approvals[k] == a;
    }
  }
}
