/** The daemon object: dispatch as it mutates the guarded session and the run registry, proved to be the abstract
    dispatch, and draining runs whenever the authority they rest on goes away. */
module DaemonObject {
  import opened Prelude
  import opened Audit
  import opened Model
  import opened Capability
  import opened Effects
  import opened Commit
  import opened Lifetime
  import opened HumanSessions
  import opened SessionObject
  import opened Broker
  import Runs = RunRegistry

  class BrokerDaemon {
    const session: Session
    const runs: Runs.Registrar
    const groups: Runs.Groups
    /** The abstract daemon this object is in the state of. */
    ghost var story: Daemon

    ghost predicate Valid()
      reads this, session, session.audit, session.audit.file
    {
      && session.Valid()
      && story.run.w == session.View() && story.table == session.sessions && story.digests == session.agentDigests
    }

    constructor (session: Session, runs: Runs.Registrar, groups: Runs.Groups, ghost story: Daemon)
      requires session.Valid()
      requires story.run.w == session.View() && story.table == session.sessions && story.digests == session.agentDigests
      ensures Valid() && this.session == session && this.runs == runs && this.groups == groups && this.story == story
    {
      this.session, this.runs, this.groups, this.story := session, runs, groups, story;
    }

    // ----- recording -----------------------------------------------------------------

    method RecordOp(actor: string, op: string, env: Env) returns (reply: Reply)
      requires Valid() && story.run.now <= env.now
      modifies this, session.audit, session.audit.file
      ensures Valid() && (story, reply) == Recorded(old(story), actor, op, env)
      ensures story.run.now <= env.now
    {
      var r := session.Record(AllowedBody(actor, op, env), session.keys, Ordinary, env.denial);
      story := Recorded(story, actor, op, env).0;
      return ReplyOf(r);
    }

    method Refuse(actor: string, op: string, e: VaultError, env: Env) returns (reply: Reply)
      requires Valid() && story.run.now <= env.now
      modifies this, session.audit, session.audit.file
      ensures Valid() && (story, reply) == DeniedWith(old(story), actor, op, e, env)
      ensures story.run.now <= env.now && reply.Err?
    {
      session.RecordDenial(actor, op, e, env);
      story := Refusal(story, actor, op, e, env);
      return Err(Code(e));
    }

    method ReadBehindGate(actor: string, op: string, env: Env) returns (reply: Reply)
      requires Valid() && story.run.now <= env.now
      modifies this, session.audit, session.audit.file
      ensures Valid() && (story, reply) == GatedRead(old(story), actor, op, env)
      ensures story.run.now <= env.now
    {
      var gate := session.Gate(actor, op, env);
      if gate.Err? {
        story := GatedRead(story, actor, op, env).0;
        return ReplyOf(gate);
      }
      reply := RecordOp(actor, op, env);
    }

    method Authorize(agentId: Id, project: string, op: Op, lease: LeaseParam, env: Env)
      returns (r: Result<string, VaultError>)
      requires Valid() && story.run.now <= env.now
      modifies this, session, session.audit, session.audit.file
      ensures Valid() && (story, r) == AuthorizedAs(old(story), agentId, project, op, lease, env)
      ensures story.run.now <= env.now
    {
      var credential := if lease.LeaseCredential? then Some(lease.credential) else None;
      r := session.AuthorizeLease(agentId, project, op, credential, env);
      story := AuthorizedAs(story, agentId, project, op, lease, env).0;
    }

    /** The edits reach the session method of their own name. */
    method PerformEdit(actor: string, c: Call, env: Env) returns (r: Result<(), VaultError>)
      requires session.Valid() && (c.ApprovalDecide? ==> c.actor == actor)
      modifies session, session.audit, session.audit.file
      ensures Outcome(session.View(), r) == Perform(old(session.View()), actor, c, env)
      ensures session.sessions == old(session.sessions)
      ensures session.agentDigests == Refresh(old(session.agentDigests), session.doc)
    {
      match c
      case ProjectAdd(name, id) => r := session.ProjectAdd(actor, name, id, env);
      case ProjectRemove(name) => r := session.ProjectRemove(actor, name, env);
      case SecretSet(project, key, value) => r := session.SecretSet(actor, project, key, value, env);
      case SecretDelete(project, key) => r := session.SecretDelete(actor, project, key, env);
      case AgentAdd(name, id, token) => r := session.AgentAdd(actor, name, id, token, env);
      case AgentRevoke(name) => r := session.AgentRevoke(actor, name, env);
      case GrantAdd(agent, project, ops) => r := session.GrantAdd(actor, agent, project, ops, env);
      case GrantRevoke(agent, project) => r := session.GrantRevoke(actor, agent, project, env);
      case LeaseCreate(agentId, project, ops, ttl, id, digest) =>
        r := session.LeaseCreate(actor, agentId, project, ops, ttl, id, digest, env);
      case LeaseRevoke(owner, leaseId) => r := session.LeaseRevoke(actor, owner, leaseId, env);
      case ApprovalRequest(agentId, project, key, id) => r := session.ApprovalRequest(actor, agentId, project, key, id, env);
      case ApprovalDecide(_, approvalId, approve) => r := session.ApprovalDecide(actor, approvalId, approve, env);
      case RevealClaim(agentId, project, key, approvalId) =>
        var value := session.RevealClaim(actor, agentId, project, key, approvalId, env);
        r := if value.Ok? then Ok(()) else Err(value.error);
    }

    method DoPerform(actor: string, c: Call, env: Env) returns (reply: Reply)
      requires Valid() && (c.ApprovalDecide? ==> c.actor == actor) && Legal(story.run, Calling(actor, c, env))
      modifies this, session, session.audit, session.audit.file
      ensures Valid() && (story, reply) == Performed(old(story), actor, c, env)
      ensures story.run.now <= env.now
    {
      hide Perform;
      var r := PerformEdit(actor, c, env);
      story := Performed(story, actor, c, env).0;
      return ReplyOf(r);
    }

    // ----- locking and draining --------------------------------------------------------

    /** `lock_and_drain`: whatever the log, the disk or the commit do, it ends with an empty run registry, every
        activated run's group terminated, no key, no document and no human session. */
    method LockAndDrain(actor: string, note: Env, env: Env)
      requires Valid() && story.run.now <= note.now <= env.now
      modifies this, session, session.audit, session.audit.file, runs, groups
      ensures Valid() && story == LockVault(old(story), actor, note, env)
      ensures story.run.now <= env.now
      ensures runs.inner == map[] && old(groups.terminated) <= groups.terminated
      ensures forall id :: id in old(runs.inner) && old(runs.inner)[id].pgid > 0
                ==> Runs.Kills(groups.terminated, old(groups.terminated), old(runs.inner)[id].pgid) >= 1
      ensures forall g :: Runs.Kills(groups.terminated, old(groups.terminated), g)
                       == if g > 0 then |Runs.InGroup(old(runs.inner), {}, g)| else 0
      ensures session.keys.None? && session.doc.None? && session.sessions == map[]
    {
      hide Note;
      hide LockPersist;
      hide DigestsOf;
      ghost var registered, before := runs.inner, groups.terminated;
      var _ := session.Record(AllowedBody(actor, "vault.lock", note), session.keys, Lifecycle, note.denial);
      ghost var noted := Moved(story, Noting(AllowedBody(actor, "vault.lock", note), true, Lifecycle, note));
      assert noted.run.w == session.View();
      var taken := Runs.TerminateMatchingRuns(runs, groups, None, None);
      assert taken == registered;
      forall id | id in registered && registered[id].pgid > 0
        ensures Runs.Kills(groups.terminated, before, registered[id].pgid) >= 1
      {
        assert id in Runs.InGroup(taken, {}, registered[id].pgid);
      }
      session.LockPersist(env);
      story := LockVault(story, actor, note, env);
    }

    /** `agents.revoke`, `grants.revoke` and a `grants.grant` without `run` also drain the runs they undercut. */
    method EditAndDrain(actor: string, c: Call, env: Env) returns (reply: Reply)
      requires Valid() && HumanCall(c) && (c.ApprovalDecide? ==> c.actor == actor) && Legal(story.run, Calling(actor, c, env))
      modifies this, session, session.audit, session.audit.file, runs, groups
      ensures Valid() && (story, reply) == Performed(old(story), actor, c, env)
      ensures story.run.now <= env.now
      ensures reply.Ok? ==>
                && old(session.doc).Some?
                && Drained(old(runs.inner), runs.inner, old(groups.terminated), groups.terminated, old(session.doc).value, c)
      ensures reply.Err? ==> runs.inner == old(runs.inner) && groups.terminated == old(groups.terminated)
    {
      ghost var d := session.doc;
      var agentId: Option<Id> := None;
      var hadRun := false;
      if session.doc.Some? {
        if c.AgentRevoke? { agentId := IdOf(session.doc.value, c.name); }
        if c.GrantRevoke? { agentId := IdOf(session.doc.value, c.agent); }
        if c.GrantAdd? {
          agentId := IdOf(session.doc.value, c.agent);
          hadRun := HadRun(session.doc.value, c.agent, c.project);
        }
      }
      PerformedNeedsDocument(story, actor, c, env);
      reply := DoPerform(actor, c, env);
      if reply.Ok? { DrainUndercut(d.value, c, agentId, hadRun); }
    }

    method DrainUndercut(ghost d: Document, c: Call, agentId: Option<Id>, hadRun: bool)
      requires c.AgentRevoke? ==> agentId.Some? && agentId == IdOf(d, c.name)
      requires c.GrantRevoke? || c.GrantAdd? ==> agentId.Some? && agentId == IdOf(d, c.agent)
      requires c.GrantAdd? ==> hadRun == HadRun(d, c.agent, c.project)
      modifies runs, groups
      ensures Drained(old(runs.inner), runs.inner, old(groups.terminated), groups.terminated, d, c)
    {
      hide IdOf;
      hide HadRun;
      hide Runs.InGroup;
      hide Runs.Kills;
      ghost var before := runs.inner;
      UndercutIs(before, d, c, agentId, hadRun);
      if c.AgentRevoke? {
        var _ := Runs.TerminateMatchingRuns(runs, groups, agentId, None);
      } else if c.GrantRevoke? {
        var _ := Runs.TerminateMatchingRuns(runs, groups, agentId, Some(c.project));
      } else if c.GrantAdd? && Op.Run !in c.ops && hadRun {
        var _ := Runs.TerminateMatchingRuns(runs, groups, agentId, Some(c.project));
      } else {
        NothingDrained(before, groups.terminated);
      }
    }

    // ----- authentication ---------------------------------------------------------------

    /** Exactly one credential, resolved to an identity; no credential is never human. */
    method Identify(req: Request) returns (who: Result<Identity, string>)
      requires Valid() && story.run.now <= req.auth.now
      modifies this, session, session.audit, session.audit.file
      ensures Valid() && (story, who) == Broker.Identify(old(story), req)
      ensures story.run.now <= req.auth.now
    {
      hide Note;
      var op := AskName(req.ask);
      if req.session == Some("") { return Err(if Presented(req) > 1 then "E_PROTOCOL" else "E_SESSION_EXPIRED"); }
      if Presented(req) > 1 { return Err("E_PROTOCOL"); }
      if req.token.Some? {
        var agent := session.ResolveAgent(req.token.value);
        if agent.Some? { return Ok(AgentId(agent.value)); }
        var refused := Refuse("agent:unknown", op, AuthFailed, req.auth);
        return Err(Code(AuthFailed));
      }
      if req.passphrase.Some? {
        if req.passphrase.value { return Ok(Human("human")); }
        var refused := Refuse("unauthenticated", op, AuthFailed, req.auth);
        return Err(Code(AuthFailed));
      }
      if req.session.Some? {
        var actor := session.AuthorizeSession(TokenDigest(req.session.value), req.tick, req.auth);
        story := Broker.Identify(story, req).0;
        return if actor.Ok? then Ok(Human(actor.value)) else Err(Code(SessionExpired));
      }
      return Ok(Unauthenticated);
    }

    // ----- the arms -----------------------------------------------------------------------

    /** `session_open` behind its arm; the eviction's choice is the one the request's ghost names. */
    method MintSession(actor: string, m: Minting, env: Env) returns (reply: Reply, ghost picked: Minting)
      requires Valid() && story.run.now <= env.now
      modifies this, session, session.audit, session.audit.file
      ensures Valid() && (story, reply) == Mint(old(story), actor, picked, env)
      ensures picked == m.(victim := picked.victim) && Evictable(old(story), picked)
      ensures story.run.now == env.now
    {
      ghost var victim;
      var r;
      r, victim := session.SessionOpen(actor, m.ttlSecs, m.digest, m.prefix, m.tick, env);
      picked := m.(victim := victim);
      story := Mint(story, actor, picked, env).0;
      return ReplyOf(r), picked;
    }

    method Inject(who: Identity, project: string, written: bool, req: Request) returns (reply: Reply)
      requires Valid() && story.run.now <= req.auth.now <= req.act.now
      modifies this, session, session.audit, session.audit.file
      ensures Valid() && (story, reply) == InjectArm(old(story), who, project, written, req)
      ensures story.run.now <= req.act.now
    {
      var actor := ActorOf(who);
      if !who.AgentId? { reply := Refuse(actor, "inject_file", AuthFailed, req.act); return; }
      if session.keys.None? { reply := Refuse(actor, "inject_file", Locked, req.act); return; }
      if req.lease.BadLease? { reply := Refuse(actor, "inject_file", InvalidInput, req.act); return; }
      var verdict := Authorize(who.id, project, Op.Inject, req.lease, req.auth);
      if verdict.Err? { return ReplyOf(verdict); }
      if written { reply := ReadBehindGate(verdict.value, "inject_file", req.act); }
      else { reply := Refuse(verdict.value, "inject_file", InvalidInput, req.act); }
    }

    method ListSecrets(who: Identity, project: string, req: Request) returns (reply: Reply)
      requires Valid() && story.run.now <= req.auth.now <= req.act.now
      modifies this, session, session.audit, session.audit.file
      ensures Valid() && (story, reply) == ListArm(old(story), who, project, req)
      ensures story.run.now <= req.act.now
    {
      var actor := ActorOf(who);
      if !who.AgentId? {
        if session.doc.Some? && ProjectByName(session.doc.value, project).None? {
          reply := Refuse(actor, "secret.list", NotFound, req.act);
        } else {
          reply := ReadBehindGate(actor, "secret.list", req.act);
        }
        return;
      }
      if session.keys.None? { reply := Refuse(actor, "secrets.list", Locked, req.act); return; }
      if req.lease.BadLease? { return Err(Code(InvalidInput)); }
      var verdict := Authorize(who.id, project, Op.Read, req.lease, req.auth);
      if verdict.Err? { return ReplyOf(verdict); }
      reply := ReadBehindGate(verdict.value, "secret.list", req.act);
    }

    method RevealToHuman(actor: string, ask: Ask, env: Env) returns (reply: Reply, value: Option<Bytes>)
      requires Valid() && story.run.now <= env.now && ask.AskReveal?
      modifies this, session.audit, session.audit.file
      ensures Valid() && (story, reply) == HumanRevealArm(old(story), actor, ask.project, ask.key, ask.approvalId, env)
      ensures Yields(old(story), ask, reply, value)
      ensures story.run.now <= env.now
    {
      value := None;
      if ask.approvalId.Some? { return Err(Code(InvalidInput)), None; }
      if session.keys.None? || session.doc.None? { reply := Refuse(actor, "reveal", Locked, env); return; }
      var p := ProjectByName(session.doc.value, ask.project);
      if p.None? { reply := Refuse(actor, "reveal", NotFound, env); return; }
      var secret := SecretOf(session.doc.value, p.value.id, ask.key);
      if secret.None? { reply := Refuse(actor, "reveal", NotFound, env); return; }
      reply := RecordOp(actor, "reveal", env);
      if reply.Ok? { value := Some(secret.value.value); }
    }

    /** An agent's reveal: authorize, then claim a named approval or ask for a new one. */
    method RevealToAgent(id: Id, ask: Ask, req: Request) returns (reply: Reply, value: Option<Bytes>)
      requires ask.AskReveal?
      requires Valid() && story.run.now <= req.auth.now <= req.act.now && ask.freshId !in story.run.ids
      modifies this, session, session.audit, session.audit.file
      ensures Valid() && (story, reply) == RevealArm(old(story), AgentId(id), ask, req)
      ensures Yields(old(story), ask, reply, value)
      ensures story.run.now <= req.act.now
    {
      hide Perform;
      hide AuthorizeStep;
      hide Find;
      value := None;
      if req.lease.BadLease? { return Err(Code(InvalidInput)), None; }
      var verdict := Authorize(id, ask.project, Op.Reveal, req.lease, req.auth);
      if verdict.Err? { return ReplyOf(verdict), None; }
      AuthorizedKeepsDocument(old(story), id, ask.project, Op.Reveal, req.lease, req.auth);
      if ask.approvalId.Some? {
        var claimed := session.RevealClaim(verdict.value, id, ask.project, ask.key, ask.approvalId.value, req.act);
        story := Performed(story, verdict.value, RevealClaim(id, ask.project, ask.key, ask.approvalId.value), req.act).0;
        if claimed.Ok? { return Ok(()), Some(claimed.value); }
        return Err(Code(claimed.error)), None;
      } else {
        var out := DoPerform(verdict.value, ApprovalRequest(id, ask.project, ask.key, ask.freshId), req.act);
        reply := if out.Ok? then Err(Code(ApprovalPending)) else out;
      }
    }

    method RevealTo(who: Identity, ask: Ask, req: Request) returns (reply: Reply, value: Option<Bytes>)
      requires ask.AskReveal?
      requires Valid() && story.run.now <= req.auth.now <= req.act.now && ask.freshId !in story.run.ids
      modifies this, session, session.audit, session.audit.file
      ensures Valid() && (story, reply) == RevealArm(old(story), who, ask, req)
      ensures Yields(old(story), ask, reply, value)
      ensures story.run.now <= req.act.now
    {
      hide HumanRevealArm;
      if who.Human? { reply, value := RevealToHuman(who.actor, ask, req.act); }
      else if who.AgentId? { reply, value := RevealToAgent(who.id, ask, req); }
      else { reply, value := Err(Code(AuthFailed)), None; }
    }

    method PollApproval(who: Identity, row: Id, env: Env) returns (reply: Reply)
      requires Valid() && story.run.now <= env.now
      modifies this, session.audit, session.audit.file
      ensures Valid() && (story, reply) == StatusArm(old(story), who, row, env)
      ensures story.run.now <= env.now
    {
      if !who.AgentId? { return Err(Code(AuthFailed)); }
      var actor := ActorOf(who);
      if session.keys.None? || session.doc.None? { reply := Refuse(actor, "approval.status", Locked, env); return; }
      var found := Find(session.doc.value.approvals, (a: Approval) => a.id == row);
      if found.None? { reply := Refuse(actor, "approval.status", NotFound, env); return; }
      if found.value.agentId != who.id { reply := Refuse(actor, "approval.status", Permission, env); return; }
      var _ := RecordOp(actor, "approval.status", env);
      return Ok(());
    }

    method Touch(req: Request) returns (reply: Reply)
      requires Valid() && story.run.now <= req.act.now && req.ask.SessionTouch?
      modifies this, session, session.audit, session.audit.file
      ensures Valid() && (story, reply) == SessionArm(old(story), "", req)
      ensures story.run.now <= req.act.now
    {
      hide Note;
      hide Stage;
      if req.session.None? { return Err(Code(SessionExpired)); }
      var r := session.SessionTouch(TokenDigest(req.session.value), req.tick, req.again, req.act);
      story := SessionArm(story, "", req).0;
      return ReplyOf(r);
    }

    method Close(req: Request) returns (reply: Reply)
      requires Valid() && story.run.now <= req.act.now && req.ask.SessionClose?
      modifies this, session, session.audit, session.audit.file
      ensures Valid() && (story, reply) == SessionArm(old(story), "", req)
      ensures story.run.now <= req.act.now
    {
      hide Note;
      if req.session.None? { return Err(Code(SessionExpired)); }
      var r := session.SessionClose(TokenDigest(req.session.value), req.tick, req.act);
      story := SessionArm(story, "", req).0;
      return ReplyOf(r);
    }

    method UnlockVault(actor: string, m: Minting, req: Request) returns (reply: Reply, ghost picked: Minting)
      requires Valid() && story.run.now <= req.act.now <= req.edge.now
      modifies this, session, session.audit, session.audit.file
      ensures Valid() && (story, reply) == UnlockArm(old(story), actor, picked, req)
      ensures story.run.now <= req.edge.now
      ensures picked == m.(victim := picked.victim) && Evictable(old(story), picked)
    {
      hide Mint;
      hide Note;
      hide DigestsOf;
      hide SweptTable;
      picked := WithVictim(story, m);
      if req.session.Some? { return Err(Code(SessionExpired)), picked; }
      if req.passphrase != Some(true) { return Err(Code(AuthFailed)), picked; }
      var r := session.UnlockWithProof(true, req.act);
      story := Moved(story, Unlocking(true, req.act));
      if r.Err? { return ReplyOf(r), picked; }
      var _, chosen := MintSession(actor, m.(ttlSecs := SESSION_DEFAULT_TTL_SECS), req.edge);
      picked := m.(victim := chosen.victim);
      assert chosen == picked.(ttlSecs := SESSION_DEFAULT_TTL_SECS);
      return Ok(()), picked;
    }

    method OpenSession(actor: string, m: Minting, req: Request) returns (reply: Reply, ghost picked: Minting)
      requires Valid() && story.run.now <= req.act.now
      modifies this, session, session.audit, session.audit.file
      ensures Valid() && (story, reply) == SessionArm(old(story), actor, req.(ask := Ask.SessionOpen(picked)))
      ensures story.run.now <= req.act.now
      ensures picked == m.(victim := picked.victim) && Evictable(old(story), picked)
    {
      picked := WithVictim(story, m);
      if req.session.Some? { return Err(Code(SessionExpired)), picked; }
      if req.passphrase.None? { reply := Refuse(actor, "session.open", AuthFailed, req.act); return reply, picked; }
      reply, picked := MintSession(actor, m, req.act);
    }

    /** The arms of the human owner that mint nothing, and those open to anyone. */
    method OwnerArm(who: Identity, req: Request) returns (reply: Reply)
      requires Valid() && Ready(story, req) && !Mints(req.ask) && !ForAgents(req.ask)
      modifies this, session, session.audit, session.audit.file, runs, groups
      ensures Valid() && (story, reply) == Arm(old(story), who, req)
      ensures story.run.now <= req.edge.now
    {
      hide Advance;
      hide DigestsOf;
      hide DeniedWith;
      hide Recorded;
      hide GatedRead;
      hide SessionArm;
      hide Perform;
      hide Note;
      hide LockVault;
      var actor := ActorOf(who);
      match req.ask
      case VaultStatus => reply := RecordOp(actor, "vault.status", req.act);
      case VaultLock => LockAndDrain(actor, req.act, req.edge); reply := Ok(());
      case VaultCreate => reply := Err(Code(Exists));
      case Edit(c) =>
        if !HumanCall(c) { return Err("E_PROTOCOL"); }
        reply := EditAndDrain(actor, if c.ApprovalDecide? then c.(actor := actor) else c, req.act);
      case HumanRead(name, gated) =>
        if gated { reply := ReadBehindGate(actor, name, req.act); } else { reply := RecordOp(actor, name, req.act); }
      case AuditVerify =>
        var report := Walk(session.audit.file.lines, session.keys);
        reply := if report.Ok? then Ok(()) else Err(Code(CorruptVault));
      case SessionTouch => AnyActor(story, actor, req); reply := Touch(req);
      case SessionClose => AnyActor(story, actor, req); reply := Close(req);
      case Malformed(_, _) => reply := Err(Code(InvalidInput));
    }

    /** The arms agents use. */
    method AgentArm(who: Identity, req: Request) returns (reply: Reply, value: Option<Bytes>)
      requires Valid() && Ready(story, req) && ForAgents(req.ask)
      modifies this, session, session.audit, session.audit.file
      ensures Valid() && (story, reply) == Arm(old(story), who, req)
      ensures Yields(old(story), req.ask, reply, value)
      ensures story.run.now <= req.edge.now
    {
      hide Advance;
      hide DeniedWith;
      hide DigestsOf;
      hide Authorized;
      hide Find;
      hide AskName;
      hide Perform;
      hide AuthorizeStep;
      hide Note;
      hide InjectArm;
      hide ListArm;
      hide StatusArm;
      hide RevealArm;
      hide Performed;
      hide Recorded;
      hide Refusal;
      value := None;
      var actor := ActorOf(who);
      match req.ask
      case InjectFile(project, written) => reply := Inject(who, project, written, req);
      case SecretsList(project) => reply := ListSecrets(who, project, req);
      case AskLease(project, ops, ttl, id, digest) =>
        if !who.AgentId? { return Err(Code(AuthFailed)), None; }
        reply := DoPerform(actor, LeaseCreate(who.id, project, ops, ttl, id, digest), req.act);
      case LeaseList =>
        if session.keys.None? { reply := Refuse(actor, "lease.list", Locked, req.act); return; }
        var _ := RecordOp(actor, "lease.list", req.act);
        reply := Ok(());
      case ReturnLease(leaseId) =>
        reply := DoPerform(actor, LeaseRevoke(if who.AgentId? then Some(who.id) else None, leaseId), req.act);
      case AskReveal(_, _, _, _) => reply, value := RevealTo(who, req.ask, req);
      case ApprovalsStatus(row) => reply := PollApproval(who, row, req.act);
      case RunSignal(verdict) =>
        if !who.AgentId? { reply := Refuse(actor, "run_signal", AuthFailed, req.act); }
        else if verdict.Err? { reply := Refuse(actor, "run_signal", verdict.error, req.act); }
        else { reply := RecordOp(actor, "run_signal", req.act); }
    }

    /** The block of `handle_run` under the session lock: the checks in order, then the values, one key at a time. */
    method CheckLaunch(ask: LaunchAsk) returns (r: Result<Launch, LaunchRefusal>)
      requires Valid()
      ensures r == LaunchGate(story, ask)
    {
      hide Selected;
      hide Session.Valid;
      var nobody := "agent:unknown";
      if ask.wellFormed.Err? { return Err(LaunchRefusal(nobody, Code(ask.wellFormed.error))); }
      if ask.token.Some? && ask.passphrase { return Err(LaunchRefusal(nobody, "E_PROTOCOL")); }
      if ask.token.None? { return Err(LaunchRefusal(nobody, Code(AuthFailed))); }
      var agent := session.ResolveAgent(ask.token.value);
      if agent.None? { return Err(LaunchRefusal(nobody, Code(AuthFailed))); }
      var actor := "agent:" + agent.value;
      if session.keys.None? || session.doc.None? { return Err(LaunchRefusal(actor, Code(Locked))); }
      var p := ProjectByName(session.doc.value, ask.project);
      if p.None? || !Authorized(session.doc.value, agent.value, p.value.id, Op.Run) {
        return Err(LaunchRefusal(actor, Code(Permission)));
      }
      var secrets := SelectSecrets(session.doc.value, p.value.id, ask.keys);
      if secrets.Err? { return Err(LaunchRefusal(actor, Code(secrets.error))); }
      return Ok(Launch(agent.value, p.value.id, secrets.value));
    }

    method GateLaunch(ask: LaunchAsk, env: Env) returns (r: Result<Launch, LaunchRefusal>)
      requires Valid() && story.run.now <= env.now
      modifies this, session.audit, session.audit.file
      ensures Valid() && r == LaunchGate(old(story), ask) && story == LaunchTried(old(story), ask, env)
      ensures story.run.now <= env.now
    {
      hide LaunchGate;
      hide RunBody;
      r := CheckLaunch(ask);
      if r.Err? {
        var _ := session.Record(RunBody(r.error.actor, Some(r.error.code), env), session.keys, Ordinary, env.denial);
      }
      story := LaunchTried(story, ask, env);
    }

    method RunArm(who: Identity, req: Request) returns (reply: Reply, value: Option<Bytes>, ghost served: Request)
      requires Valid() && Ready(story, req)
      modifies this, session, session.audit, session.audit.file, runs, groups
      ensures Valid() && (story, reply) == Arm(old(story), who, served)
      ensures Yields(old(story), req.ask, reply, value)
      ensures story.run.now <= req.edge.now
      ensures SameButVictim(old(story), req, served)
    {
      served, value := req, None;
      if req.ask.VaultUnlock? {
        ghost var picked;
        reply, picked := UnlockVault(ActorOf(who), req.ask.mint, req);
        served := req.(ask := VaultUnlock(picked));
      } else if req.ask.SessionOpen? {
        ghost var picked;
        reply, picked := OpenSession(ActorOf(who), req.ask.mint, req);
        served := req.(ask := Ask.SessionOpen(picked));
      } else {
        hide Arm;
        if ForAgents(req.ask) { reply, value := AgentArm(who, req); } else { reply := OwnerArm(who, req); }
      }
    }

    method Finish(ghost before: Daemon, marker: nat, out: Reply, actor: string, req: Request)
      requires Valid() && story.run.now <= req.edge.now && marker == before.run.w.handle.seqNo
      modifies this, session`sessions, session.audit, session.audit.file
      ensures Valid() && (story, out) == Finished(before, old(story), out, actor, req)
    {
      if out.Ok? {
        if !ManagesSessions(req.ask) && req.session.Some? {
          var digest := TokenDigest(req.session.value);
          session.SlideSession(digest, req.again);
          story := Slid(story, digest, req.again);
        }
      } else if session.audit.seqNo == marker {
        var body := BoundaryBody(actor, req, out.error);
        var _ := session.Record(body, session.keys, Ordinary, req.edge.denial);
        story := Moved(story, Noting(body, true, Ordinary, req.edge));
      }
    }

    /** An authenticated request: the gates, the arm, the slide of an allowed request, the boundary's own record of a
        refusal nobody recorded. */
    method Serve(who: Identity, req: Request) returns (reply: Reply, value: Option<Bytes>, ghost served: Request)
      requires Valid() && Ready(story, req)
      modifies this, session, session.audit, session.audit.file, runs, groups
      ensures Valid() && (story, reply) == Served(old(story), who, served)
      ensures Yields(old(story), req.ask, reply, value)
      ensures SameButVictim(old(story), req, served)
    {
      hide DeniedWith;
      hide Note;
      hide Perform;
      hide DigestsOf;
      hide Arm;
      hide Finished;
      hide Find;
      value := None;
      served := AnyVictim(story, req);
      var actor, op := ActorOf(who), AskName(req.ask);
      if who.Unauthenticated? && !req.ask.VaultStatus? { reply := Refuse(actor, op, AuthFailed, req.act); return; }
      if who.AgentId? && HumanOnly(req.ask) { reply := Refuse(actor, op, HumanRequired, req.act); return; }
      if who.Human? && !req.lease.NoLease? { reply := Refuse(actor, op, InvalidInput, req.act); return; }
      ghost var before := story;
      var marker := session.audit.seqNo;
      reply, value, served := RunArm(who, req);
      FinishIgnoresVictim(before, story, reply, actor, req, served);
      Finish(before, marker, reply, actor, req);
    }

    /** One request, as the abstract dispatch serves it. A stored value leaves only in the answer to an allowed reveal,
        and it is the value of that very key. */
    method HandleRequest(req: Request) returns (reply: Reply, value: Option<Bytes>, ghost served: Request)
      requires Valid() && Timely(story, req)
      modifies this, session, session.audit, session.audit.file, runs, groups
      ensures Valid() && (story, reply) == Dispatch(old(story), served)
      ensures Yields(old(story), req.ask, reply, value)
      ensures SameButVictim(old(story), req, served)
    {
      hide Advance;
      hide DigestsOf;
      hide Note;
      hide Broker.Identify;
      hide Served;
      ghost var before := story;
      served := AnyVictim(before, req);
      story := story.(clock := req.again);
      IdentifyIgnoresVictim(story, req, served);
      var who := Identify(req);
      if who.Err? { return Err(who.error), None, served; }
      IdentifiedKeeps(before.(clock := req.again), req);
      reply, value, served := Serve(who.value, req);
      IdentifyIgnoresVictim(before.(clock := req.again), req, served);
    }
  }

  /** One more key. */
  lemma PickOneMore(d: Document, projectId: Id, keys: set<string>, k: string)
    ensures Picked(d, projectId, keys + {k}) ==
              if SecretOf(d, projectId, k).Some? then Picked(d, projectId, keys)[k := SecretOf(d, projectId, k).value.value]
              else Picked(d, projectId, keys)
  {
    hide SecretOf;
  }

  /** The values a launch asks for. */
  method SelectSecrets(d: Document, projectId: Id, keys: Option<seq<string>>) returns (r: Result<map<string, Bytes>, VaultError>)
    ensures r == Selected(d, projectId, keys)
  {
    if keys.Some? { r := SelectNamed(d, projectId, keys.value); } else { r := SelectAll(d, projectId); }
  }

  method SelectNamed(d: Document, projectId: Id, names: seq<string>) returns (r: Result<map<string, Bytes>, VaultError>)
    ensures r == Selected(d, projectId, Some(names))
  {
    hide SecretOf;
    hide Picked;
    var values: map<string, Bytes>, missing := map[], false;
    ghost var seen: set<string> := {};
    NothingPicked(d, projectId);
    for i := 0 to |names|
      invariant missing <==> exists j :: 0 <= j < i && SecretOf(d, projectId, names[j]).None?
      invariant seen == set j | 0 <= j < i :: names[j]
      invariant values == Picked(d, projectId, seen)
    {
      PickOneMore(d, projectId, seen, names[i]);
      seen := seen + {names[i]};
      var secret := SecretOf(d, projectId, names[i]);
      if secret.Some? { values := values[names[i] := secret.value.value]; } else { missing := true; }
    }
    assert seen == set k | k in names;
    return if missing then Err(NotFound) else Ok(values);
  }

  method SelectAll(d: Document, projectId: Id) returns (r: Result<map<string, Bytes>, VaultError>)
    ensures r == Selected(d, projectId, None)
  {
    hide SecretOf;
    hide Picked;
    var values: map<string, Bytes> := map[];
    ghost var seen: set<string> := {};
    NothingPicked(d, projectId);
    for i := 0 to |d.secrets|
      invariant seen == set j | 0 <= j < i && d.secrets[j].projectId == projectId :: d.secrets[j].key
      invariant seen <= KeysOf(d, projectId) && values == Picked(d, projectId, seen)
    {
      if d.secrets[i].projectId == projectId {
        var k := d.secrets[i].key;
        assert d.secrets[i] in d.secrets && k in KeysOf(d, projectId);
        KeysAreStored(d, projectId);
        PickOneMore(d, projectId, seen, k);
        seen := seen + {k};
        values := values[k := SecretOf(d, projectId, k).value.value];
      }
    }
    assert seen == KeysOf(d, projectId);
    KeysAreStored(d, projectId);
    PickedIs(d, projectId, seen, values);
    assert |values| == |values.Keys|;
    return if values == map[] || |values| > MAX_RUN_KEYS then Err(InvalidInput) else Ok(values);
  }

  lemma NothingPicked(d: Document, projectId: Id)
    ensures Picked(d, projectId, {}) == map[]
  {
  }

  /** What an answer carries: the value asked for, exactly when a reveal was allowed. */
  predicate Yields(d: Daemon, ask: Ask, reply: Reply, value: Option<Bytes>) {
    && value == (if reply.Ok? then Asked(d, ask) else None)
    && (reply.Ok? && ask.AskReveal? ==> value.Some?)
  }

  lemma AuthorizedKeepsDocument(d: Daemon, id: Id, project: string, op: Op, lease: LeaseParam, env: Env)
    requires d.run.now <= env.now && AuthorizedAs(d, id, project, op, lease, env).1.Ok?
    ensures AuthorizedAs(d, id, project, op, lease, env).0.run.w.doc == d.run.w.doc
  {
    hide Append;
  }

  function IdOf(d: Document, agent: string): Option<Id> {
    var a := AgentByName(d, agent);
    if a.Some? then Some(a.value.id) else None
  }

  predicate HadRun(d: Document, agent: string, project: string) {
    var a, p := AgentByName(d, agent), ProjectByName(d, project);
    a.Some? && p.Some? && Authorized(d, a.value.id, p.value.id, Op.Run)
  }

  /** `served` is the request with the eviction the object chose, if it had to evict. */
  ghost predicate SameButVictim(d: Daemon, req: Request, served: Request) {
    if Mints(req.ask) then
      && Mints(served.ask)
      && served.ask == (if req.ask.VaultUnlock? then VaultUnlock(req.ask.mint.(victim := served.ask.mint.victim))
                        else Ask.SessionOpen(req.ask.mint.(victim := served.ask.mint.victim)))
      && served == req.(ask := served.ask) && Evictable(d, served.ask.mint)
    else served == req
  }

  ghost function WithVictim(d: Daemon, m: Minting): (picked: Minting)
    ensures picked == m.(victim := picked.victim) && Evictable(d, picked)
  {
    var swept := SweptTable(d.table, m.tick);
    if |swept| >= MAX_SESSIONS then
      OldestExists(swept);
      var victim :| Oldest(swept, victim);
      m.(victim := victim)
    else m
  }

  lemma OldestExists(table: Table)
    requires table != map[]
    ensures exists d :: Oldest(table, d)
  {
    var d := SomeOldest(table);
  }

  ghost function AnyVictim(d: Daemon, req: Request): (served: Request)
    ensures SameButVictim(d, req, served)
  {
    match req.ask
    case VaultUnlock(m) => req.(ask := VaultUnlock(WithVictim(d, m)))
    case SessionOpen(m) => req.(ask := Ask.SessionOpen(WithVictim(d, m)))
    case _ => req
  }

  /** The edit withdraws what a run of this agent in this project rests on. */
  predicate Undercuts(d: Document, c: Call, agentId: Id, project: string) {
    match c
    case AgentRevoke(name) => IdOf(d, name) == Some(agentId)
    case GrantRevoke(agent, p) => IdOf(d, agent) == Some(agentId) && p == project
    case GrantAdd(agent, p, ops) => IdOf(d, agent) == Some(agentId) && p == project && Op.Run !in ops && HadRun(d, agent, p)
    case _ => false
  }

  /** The agent is active and its grant lets it run in the project of that name. */
  predicate MayRun(d: Document, agentId: Id, project: string) {
    AgentIsActive(d, agentId) && ProjectByName(d, project).Some? && Authorized(d, agentId, ProjectByName(d, project).value.id, Op.Run)
  }

  lemma SameIdSameName(d: Document, p: string, q: string)
    requires UniqueProjects(d) && ProjectByName(d, p).Some? && ProjectByName(d, q).Some?
    ensures ProjectByName(d, p).value.id == ProjectByName(d, q).value.id <==> p == q
  {
    var a, b := ProjectByName(d, p).value, ProjectByName(d, q).value;
    var i :| 0 <= i < |d.projects| && d.projects[i] == a;
    var j :| 0 <= j < |d.projects| && d.projects[j] == b;
  }

  /** Of the runs that were allowed, a revocation or grant drains exactly those it takes the permission from. */
  lemma UndercutsIff(d: Document, c: Call, now: int, agentId: Id, project: string)
    requires DocInv(d) && UniqueAgents(d) && UniqueProjects(d)
    requires (c.AgentRevoke? || c.GrantRevoke? || c.GrantAdd?) && Propose(d, c, now).Ok? && MayRun(d, agentId, project)
    ensures Undercuts(d, c, agentId, project) <==> !MayRun(Propose(d, c, now).value, agentId, project)
  {
    hide DocInv;
    hide Find;
    hide Authorized;
    hide RevokeAgent;
    hide RevokeGrant;
    hide AddGrant;
    UniqueGrantsOf(d);
    match c
    case AgentRevoke(name) => RevokedAgentsMayNotRun(d, name, now, agentId, project);
    case GrantRevoke(agent, p) => RevokeGrantEffect(d, agent, p, now); SameIdSameName(d, p, project);
    case GrantAdd(agent, p, ops) => AddGrantEffect(d, agent, p, ops, now); SameIdSameName(d, p, project);
  }

  lemma RevokedAgentsMayNotRun(d: Document, name: string, now: int, agentId: Id, project: string)
    requires UniqueAgents(d) && RevokeAgent(d, name, now).Ok? && MayRun(d, agentId, project)
    ensures IdOf(d, name) == Some(agentId) <==> !MayRun(RevokeAgent(d, name, now).value, agentId, project)
  {
    var d' := RevokeAgent(d, name, now).value;
    RevokeAgentEffect(d, name, now);
    hide RevokeAgent;
    hide Find;
    if AgentByName(d, name).value.id != agentId { ActiveAgentStays(d, d', agentId); }
    assert forall a, p :: ActiveGrant(d', a, p) == ActiveGrant(d, a, p);
  }

  lemma UniqueGrantsOf(d: Document)
    requires DocInv(d)
    ensures UniqueGrants(d)
  {
  }

  /** The registered runs the edit undercuts. */
  ghost function Undercut(reg: Runs.Registry, d: Document, c: Call): Runs.Registry {
    map id | id in reg && Undercuts(d, c, reg[id].agent, reg[id].project) :: reg[id]
  }

  /** Exactly the undercut runs are gone, each activated one's group terminated once, and nothing else was. */
  ghost predicate Drained(reg: Runs.Registry, reg': Runs.Registry, killed: seq<int>, killed': seq<int>, d: Document, c: Call) {
    var taken := Undercut(reg, d, c);
    && reg' == reg - taken.Keys && killed <= killed'
    && forall g :: Runs.Kills(killed', killed, g) == if g > 0 then |Runs.InGroup(taken, {}, g)| else 0
  }

  lemma UndercutIs(reg: Runs.Registry, d: Document, c: Call, agentId: Option<Id>, hadRun: bool)
    requires c.AgentRevoke? ==> agentId.Some? && agentId == IdOf(d, c.name)
    requires c.GrantRevoke? || c.GrantAdd? ==> agentId.Some? && agentId == IdOf(d, c.agent)
    requires c.GrantAdd? ==> hadRun == HadRun(d, c.agent, c.project)
    ensures c.AgentRevoke? ==> Undercut(reg, d, c) == Runs.Matching(reg, agentId, None)
    ensures c.GrantRevoke? ==> Undercut(reg, d, c) == Runs.Matching(reg, agentId, Some(c.project))
    ensures c.GrantAdd? && Op.Run !in c.ops && hadRun ==> Undercut(reg, d, c) == Runs.Matching(reg, agentId, Some(c.project))
    ensures !c.AgentRevoke? && !c.GrantRevoke? && !(c.GrantAdd? && Op.Run !in c.ops && hadRun) ==> Undercut(reg, d, c) == map[]
  {
    hide IdOf;
    hide HadRun;
  }

  lemma NothingDrained(reg: Runs.Registry, killed: seq<int>)
    ensures var none: Runs.Registry := map[]; reg - none.Keys == reg
    ensures forall g :: Runs.Kills(killed, killed, g) == 0 && |Runs.InGroup(map[], {}, g)| == 0
  {
    forall g ensures |Runs.InGroup(map[], {}, g)| == 0 { assert Runs.InGroup(map[], {}, g) == {}; }
  }

  lemma PerformedNeedsDocument(d: Daemon, actor: string, c: Call, env: Env)
    ensures Performed(d, actor, c, env).1.Ok? ==>
              && d.run.w.doc.Some?
              && (c.AgentRevoke? ==> IdOf(d.run.w.doc.value, c.name).Some?)
              && (c.GrantRevoke? ==> IdOf(d.run.w.doc.value, c.agent).Some?)
              && (c.GrantAdd? ==> IdOf(d.run.w.doc.value, c.agent).Some?)
  {
  }

  lemma FinishIgnoresVictim(d1: Daemon, d2: Daemon, out: Reply, actor: string, req: Request, served: Request)
    requires served == req.(ask := served.ask) && AskName(served.ask) == AskName(req.ask)
    requires ManagesSessions(served.ask) <==> ManagesSessions(req.ask)
    ensures Finished(d1, d2, out, actor, served) == Finished(d1, d2, out, actor, req)
  {
    hide AskName;
    hide Moved;
    hide Slid;
  }

  /** Touch and close name their actor after the session, not after the caller. */
  lemma AnyActor(d: Daemon, actor: string, req: Request)
    requires req.ask.SessionTouch? || req.ask.SessionClose?
    ensures SessionArm(d, actor, req) == SessionArm(d, "", req)
  {
    hide Touched;
    hide Closed;
  }

  predicate ForAgents(ask: Ask) {
    ask.InjectFile? || ask.SecretsList? || ask.AskLease? || ask.LeaseList? || ask.ReturnLease? || ask.AskReveal?
    || ask.ApprovalsStatus? || ask.RunSignal?
  }

  lemma IdentifyIgnoresVictim(d: Daemon, req: Request, served: Request)
    requires served == req.(ask := served.ask)
    requires AskName(served.ask) == AskName(req.ask)
    ensures Broker.Identify(d, served) == Broker.Identify(d, req)
  {
  }

  lemma IdentifiedKeeps(d: Daemon, req: Request)
    requires Broker.Identify(d, req).1.Ok?
    ensures var d' := Broker.Identify(d, req).0; d'.table == d.table && d'.run == d.run
  {
  }
}
