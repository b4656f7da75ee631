/** From the vault to the daemon: whatever survives every step of the vault survives every request, launch, lock, restart
    and crash. */
module Lifting {
  import opened Prelude
  import opened Audit
  import opened Model
  import opened Capability
  import opened Commit
  import opened Lifetime
  import opened HumanSessions
  import opened Broker
  import opened SessionRuns

  type Invariant = Daemon -> bool

  /** Time passes, credentials are drawn, sessions come and go, and at most one entry is noted. */
  ghost predicate Quietly(d: Daemon, d': Daemon, ok: Lifetime.Step -> bool) {
    && d'.digests == d.digests && d.run.digests <= d'.run.digests
    && d'.run == d.run.(w := d'.run.w, now := d'.run.now, digests := d'.run.digests)
    && ((d'.run.w == d.run.w && d'.run.now == d.run.now)
        || exists s: Lifetime.Step :: s.Noting? && s.maced && ok(s) && d.run.now <= d'.run.now == s.env.now
             && (d'.run.w == d.run.w || d'.run.w == Note(d.run.w, s.body, d.run.w.key, s.priority, s.env.denial).world))
  }

  /** The invariant survives the steps that `ok` admits. */
  ghost predicate Survives(inv: Invariant, ok: Lifetime.Step -> bool) {
    && (forall d, s :: inv(d) && ok(s) ==> inv(Moved(d, s)))
    && (forall d, d' :: inv(d) && Quietly(d, d', ok) ==> inv(d'))
    && (forall d, s :: inv(d) && ok(s) ==> inv(Rebooted(d, s)))
  }

  predicate OfRequest(s: Lifetime.Step, req: Request) {
    && s.env in {req.auth, req.act, req.edge}
    && (s.Calling? || s.Authorizing? || s.Locking? || s.Unlocking? || s.Noting?)
  }

  /** What a request may do is admitted. */
  ghost predicate Admits(ok: Lifetime.Step -> bool, req: Request) { forall s :: OfRequest(s, req) ==> ok(s) }

  lemma StepKeeps(inv: Invariant, ok: Lifetime.Step -> bool, d: Daemon, s: Lifetime.Step)
    requires Survives(inv, ok) && inv(d) && ok(s)
    ensures inv(Moved(d, s))
  {
    hide Moved;
  }

  lemma QuietKeeps(inv: Invariant, ok: Lifetime.Step -> bool, d: Daemon, d': Daemon)
    requires Survives(inv, ok) && inv(d) && Quietly(d, d', ok)
    ensures inv(d')
  {
    hide Quietly;
  }

  /** The table, the events and the clock do not matter. */
  lemma SameVaultKeeps(inv: Invariant, ok: Lifetime.Step -> bool, d: Daemon, d': Daemon)
    requires Survives(inv, ok) && inv(d) && d'.run == d.run && d'.digests == d.digests
    ensures inv(d')
  {
    QuietKeeps(inv, ok, d, d');
  }

  lemma ReadsKeep(inv: Invariant, ok: Lifetime.Step -> bool, d: Daemon, actor: string, env: Env, req: Request)
    requires Survives(inv, ok) && inv(d) && Admits(ok, req) && env in {req.auth, req.act, req.edge}
    ensures forall op, e :: inv(Refusal(d, actor, op, e, env))
    ensures forall op :: inv(Recorded(d, actor, op, env).0)
    ensures forall op :: inv(GatedRead(d, actor, op, env).0)
  {
    hide Survives;
    hide Moved;
    hide AllowedBody;
    hide DeniedBody;
    forall op, e ensures inv(Refusal(d, actor, op, e, env)) {
      var s := Noting(DeniedBody(actor, op, e, env), true, Ordinary, env);
      assert OfRequest(s, req);
      StepKeeps(inv, ok, d, s);
    }
    forall op ensures inv(Recorded(d, actor, op, env).0) && inv(GatedRead(d, actor, op, env).0) {
      var s1, s2 := Noting(AllowedBody(actor, op, env), true, Ordinary, env), Noting(DeniedBody(actor, op, Locked, env), false, Ordinary, env);
      assert OfRequest(s1, req) && OfRequest(s2, req);
      StepKeeps(inv, ok, d, s1);
      StepKeeps(inv, ok, d, s2);
    }
  }

  lemma PerformedKeeps(inv: Invariant, ok: Lifetime.Step -> bool, d: Daemon, actor: string, c: Call, env: Env, req: Request)
    requires Survives(inv, ok) && inv(d) && Admits(ok, req) && env in {req.auth, req.act, req.edge}
    ensures inv(Performed(d, actor, c, env).0)
  {
    hide Survives;
    hide Moved;
    assert OfRequest(Calling(actor, c, env), req);
    StepKeeps(inv, ok, d, Calling(actor, c, env));
  }

  lemma AuthorizedKeeps(inv: Invariant, ok: Lifetime.Step -> bool, d: Daemon, id: Id, project: string, op: Op, req: Request)
    requires Survives(inv, ok) && inv(d) && Admits(ok, req)
    ensures inv(AuthorizedAs(d, id, project, op, req.lease, req.auth).0)
  {
    hide Survives;
    hide Moved;
    var s := Authorizing(id, project, op, if req.lease.LeaseCredential? then Some(req.lease.credential) else None, req.auth);
    assert OfRequest(s, req);
    StepKeeps(inv, ok, d, s);
  }

  lemma LockKeeps(inv: Invariant, ok: Lifetime.Step -> bool, d: Daemon, actor: string, note: Env, env: Env)
    requires Survives(inv, ok) && inv(d)
    requires ok(Noting(AllowedBody(actor, "vault.lock", note), true, Lifecycle, note)) && ok(Locking(env))
    ensures inv(LockVault(d, actor, note, env))
  {
    hide Survives;
    hide Moved;
    var s := Noting(AllowedBody(actor, "vault.lock", note), true, Lifecycle, note);
    StepKeeps(inv, ok, d, s);
    StepKeeps(inv, ok, Moved(d, s), Locking(env));
    SameVaultKeeps(inv, ok, Moved(Moved(d, s), Locking(env)), LockVault(d, actor, note, env));
  }

  // ----- the arms ---------------------------------------------------------------------------------

  lemma InjectKeeps(inv: Invariant, ok: Lifetime.Step -> bool, d: Daemon, who: Identity, project: string, written: bool, req: Request)
    requires Survives(inv, ok) && inv(d) && Admits(ok, req)
    ensures inv(InjectArm(d, who, project, written, req).0)
  {
    hide Survives;
    hide Admits;
    hide AuthorizedAs;
    hide GatedRead;
    hide Refusal;
    ReadsKeep(inv, ok, d, ActorOf(who), req.act, req);
    if who.AgentId? {
      AuthorizedKeeps(inv, ok, d, who.id, project, Inject, req);
      var (d1, verdict) := AuthorizedAs(d, who.id, project, Inject, req.lease, req.auth);
      if verdict.Ok? { ReadsKeep(inv, ok, d1, verdict.value, req.act, req); }
    }
  }

  lemma ListKeeps(inv: Invariant, ok: Lifetime.Step -> bool, d: Daemon, who: Identity, project: string, req: Request)
    requires Survives(inv, ok) && inv(d) && Admits(ok, req)
    ensures inv(ListArm(d, who, project, req).0)
  {
    hide Survives;
    hide Admits;
    hide AuthorizedAs;
    hide GatedRead;
    hide Refusal;
    ReadsKeep(inv, ok, d, ActorOf(who), req.act, req);
    if who.AgentId? {
      AuthorizedKeeps(inv, ok, d, who.id, project, Read, req);
      var (d1, verdict) := AuthorizedAs(d, who.id, project, Read, req.lease, req.auth);
      if verdict.Ok? { ReadsKeep(inv, ok, d1, verdict.value, req.act, req); }
    }
  }

  lemma RevealKeeps(inv: Invariant, ok: Lifetime.Step -> bool, d: Daemon, who: Identity, ask: Ask, req: Request)
    requires Survives(inv, ok) && inv(d) && Admits(ok, req) && ask.AskReveal?
    ensures inv(RevealArm(d, who, ask, req).0)
  {
    hide Survives;
    hide Admits;
    hide AuthorizedAs;
    hide Performed;
    hide Recorded;
    hide Refusal;
    ReadsKeep(inv, ok, d, ActorOf(who), req.act, req);
    if who.AgentId? {
      AuthorizedKeeps(inv, ok, d, who.id, ask.project, Reveal, req);
      var (d1, verdict) := AuthorizedAs(d, who.id, ask.project, Reveal, req.lease, req.auth);
      if verdict.Ok? {
        if ask.approvalId.Some? {
          PerformedKeeps(inv, ok, d1, verdict.value, RevealClaim(who.id, ask.project, ask.key, ask.approvalId.value), req.act, req);
        } else {
          PerformedKeeps(inv, ok, d1, verdict.value, ApprovalRequest(who.id, ask.project, ask.key, ask.freshId), req.act, req);
        }
      }
    }
  }

  lemma StatusKeeps(inv: Invariant, ok: Lifetime.Step -> bool, d: Daemon, who: Identity, row: Id, req: Request)
    requires Survives(inv, ok) && inv(d) && Admits(ok, req)
    ensures inv(StatusArm(d, who, row, req.act).0)
  {
    hide Survives;
    hide Admits;
    hide Recorded;
    hide Refusal;
    ReadsKeep(inv, ok, d, ActorOf(who), req.act, req);
  }

  /** An entry in the name of a session, or none. */
  lemma SessionKeeps(inv: Invariant, ok: Lifetime.Step -> bool, d: Daemon, d': Daemon, body: Body, priority: Priority, env: Env, req: Request)
    requires Survives(inv, ok) && inv(d) && Admits(ok, req) && env in {req.auth, req.act, req.edge} && d.run.now <= env.now
    requires d'.digests == d.digests && d.run.digests <= d'.run.digests
    requires d'.run == d.run.(w := d'.run.w, now := env.now, digests := d'.run.digests)
    requires d'.run.w == d.run.w || d'.run.w == Note(d.run.w, body, d.run.w.key, priority, env.denial).world
    ensures inv(d')
  {
    hide Survives;
    hide Note;
    var s := Noting(body, true, priority, env);
    assert OfRequest(s, req) && ok(s);
    QuietKeeps(inv, ok, d, d');
  }

  lemma MintKeeps(inv: Invariant, ok: Lifetime.Step -> bool, d: Daemon, actor: string, m: Minting, env: Env, req: Request)
    requires Survives(inv, ok) && inv(d) && Admits(ok, req) && env in {req.auth, req.act, req.edge} && d.run.now <= env.now
    ensures inv(Mint(d, actor, m, env).0)
  {
    hide Survives;
    hide Admits;
    hide Note;
    hide Opened;
    OpeningNotes(d.run.w, d.table, actor, m, env);
    SessionKeeps(inv, ok, d, Mint(d, actor, m, env).0, OpeningBody(d.run.w, actor, m, env), Ordinary, env, req);
  }

  lemma TouchKeeps(inv: Invariant, ok: Lifetime.Step -> bool, d: Daemon, actor: string, req: Request)
    requires Survives(inv, ok) && inv(d) && Admits(ok, req) && d.run.now <= req.act.now && req.ask.SessionTouch?
    ensures inv(SessionArm(d, actor, req).0)
  {
    hide Survives;
    hide Admits;
    hide Stage;
    hide Append;
    hide Note;
    hide Code;
    hide AllowedBody;
    hide DeniedBody;
    if req.session.Some? {
      var x := TokenDigest(req.session.value);
      var prefix := Validated(d.run.w.key.None?, d.table, x, req.tick).1;
      var d' := SessionArm(d, actor, req).0;
      if prefix.None? {
        SessionKeeps(inv, ok, d, d', DeniedBody("unauthenticated", "session.touch", SessionExpired, req.act), Ordinary, req.act, req);
      } else {
        var body := AllowedBody(SessionActor(prefix.value), "session.touch", req.act);
        var staged := Stage(d.run.w.handle, d.run.w.log, body, d.run.w.key, Ordinary);
        var written := if staged.Ok? then body
                       else DeniedBody(SessionActor(prefix.value), "session.touch", AuditRefused(staged.error), req.act);
        SessionKeeps(inv, ok, d, d', written, Ordinary, req.act, req);
      }
    } else {
      SameVaultKeeps(inv, ok, d, d);
    }
  }

  lemma CloseKeeps(inv: Invariant, ok: Lifetime.Step -> bool, d: Daemon, actor: string, req: Request)
    requires Survives(inv, ok) && inv(d) && Admits(ok, req) && d.run.now <= req.act.now && req.ask.SessionClose?
    ensures inv(SessionArm(d, actor, req).0)
  {
    hide Survives;
    hide Admits;
    hide Note;
    hide Code;
    hide AllowedBody;
    hide DeniedBody;
    if req.session.Some? {
      var prefix := Validated(d.run.w.key.None?, d.table, TokenDigest(req.session.value), req.tick).1;
      var d' := SessionArm(d, actor, req).0;
      if prefix.None? {
        SessionKeeps(inv, ok, d, d', DeniedBody("unauthenticated", "session.close", SessionExpired, req.act), Ordinary, req.act, req);
      } else {
        SessionKeeps(inv, ok, d, d', AllowedBody(SessionActor(prefix.value), "session.close", req.act), Lifecycle, req.act, req);
      }
    } else {
      SameVaultKeeps(inv, ok, d, d);
    }
  }

  lemma SessionArmKeeps(inv: Invariant, ok: Lifetime.Step -> bool, d: Daemon, actor: string, req: Request)
    requires Survives(inv, ok) && inv(d) && Admits(ok, req) && d.run.now <= req.act.now && ManagesSessions(req.ask)
    ensures inv(SessionArm(d, actor, req).0)
  {
    hide Survives;
    hide Admits;
    hide Mint;
    hide Refusal;
    hide Touched;
    hide Closed;
    match req.ask
    case SessionTouch => TouchKeeps(inv, ok, d, actor, req);
    case SessionClose => CloseKeeps(inv, ok, d, actor, req);
    case SessionOpen(m) =>
      ReadsKeep(inv, ok, d, actor, req.act, req);
      MintKeeps(inv, ok, d, actor, m, req.act, req);
  }

  lemma UnlockKeeps(inv: Invariant, ok: Lifetime.Step -> bool, d: Daemon, actor: string, m: Minting, req: Request)
    requires Survives(inv, ok) && inv(d) && Admits(ok, req) && d.run.now <= req.act.now <= req.edge.now
    ensures inv(UnlockArm(d, actor, m, req).0)
  {
    hide Survives;
    hide Admits;
    hide Mint;
    hide UnlockStep;
    var s := Unlocking(true, req.act);
    NotesAdmitted(ok, req);
    StepKeeps(inv, ok, d, s);
    MintKeeps(inv, ok, Moved(d, s), actor, m.(ttlSecs := SESSION_DEFAULT_TTL_SECS), req.edge, req);
  }

  lemma NotesAdmitted(ok: Lifetime.Step -> bool, req: Request)
    requires Admits(ok, req)
    ensures forall body, priority :: ok(Noting(body, true, priority, req.act)) && ok(Noting(body, true, priority, req.edge))
    ensures ok(Locking(req.edge)) && ok(Unlocking(true, req.act))
  {
    forall body, priority ensures ok(Noting(body, true, priority, req.act)) && ok(Noting(body, true, priority, req.edge)) {
      assert OfRequest(Noting(body, true, priority, req.act), req) && OfRequest(Noting(body, true, priority, req.edge), req);
    }
    assert OfRequest(Locking(req.edge), req) && OfRequest(Unlocking(true, req.act), req);
  }

  lemma ArmKeeps(inv: Invariant, ok: Lifetime.Step -> bool, d: Daemon, who: Identity, req: Request)
    requires Survives(inv, ok) && inv(d) && Admits(ok, req) && d.run.now <= req.act.now <= req.edge.now
    ensures inv(Arm(d, who, req).0)
  {
    hide Survives;
    hide Admits;
    hide Recorded;
    hide GatedRead;
    hide Refusal;
    hide Performed;
    hide SessionArm;
    hide InjectArm;
    hide ListArm;
    hide RevealArm;
    hide LockVault;
    hide UnlockArm;
    hide StatusArm;
    hide Accepts;
    hide Code;
    hide AllowedBody;
    hide OpName;
    var actor := ActorOf(who);
    NotesAdmitted(ok, req);
    ReadsKeep(inv, ok, d, actor, req.act, req);
    match req.ask
    case ApprovalsStatus(row) => StatusKeeps(inv, ok, d, who, row, req);
    case VaultLock => LockKeeps(inv, ok, d, actor, req.act, req.edge);
    case VaultUnlock(m) => UnlockKeeps(inv, ok, d, actor, m, req);
    case Edit(c) => PerformedKeeps(inv, ok, d, actor, if c.ApprovalDecide? then c.(actor := actor) else c, req.act, req);
    case SessionOpen(_) => SessionArmKeeps(inv, ok, d, actor, req);
    case SessionTouch => SessionArmKeeps(inv, ok, d, actor, req);
    case SessionClose => SessionArmKeeps(inv, ok, d, actor, req);
    case InjectFile(project, written) => InjectKeeps(inv, ok, d, who, project, written, req);
    case SecretsList(project) => ListKeeps(inv, ok, d, who, project, req);
    case AskLease(project, ops, ttl, id, digest) =>
      if who.AgentId? { PerformedKeeps(inv, ok, d, actor, LeaseCreate(who.id, project, ops, ttl, id, digest), req.act, req); }
    case ReturnLease(leaseId) =>
      PerformedKeeps(inv, ok, d, actor, LeaseRevoke(if who.AgentId? then Some(who.id) else None, leaseId), req.act, req);
    case AskReveal(_, _, _, _) => RevealKeeps(inv, ok, d, who, req.ask, req);
    case _ =>
  }

  // ----- whole turns ----------------------------------------------------------------------------------

  lemma IdentifyKeepsInv(inv: Invariant, ok: Lifetime.Step -> bool, d: Daemon, req: Request)
    requires Survives(inv, ok) && inv(d) && Admits(ok, req)
    ensures inv(Identify(d, req).0)
  {
    hide Survives;
    hide Admits;
    hide Refusal;
    var d' := Identify(d, req).0;
    ReadsKeep(inv, ok, d, "agent:unknown", req.auth, req);
    ReadsKeep(inv, ok, d, "unauthenticated", req.auth, req);
    if Identify(d, req).1.Ok? || d' == d {
      SameVaultKeeps(inv, ok, d, d');
    } else if req.session.Some? {
      SameVaultKeeps(inv, ok, Refusal(d, "unauthenticated", "session.use", SessionExpired, req.auth), d');
    }
  }

  lemma ServedKeeps(inv: Invariant, ok: Lifetime.Step -> bool, d: Daemon, who: Identity, req: Request)
    requires Survives(inv, ok) && inv(d) && Admits(ok, req) && d.run.now <= req.act.now <= req.edge.now
    ensures inv(Served(d, who, req).0)
  {
    hide Survives;
    hide Admits;
    hide Arm;
    hide Moved;
    hide Refusal;
    hide BoundaryBody;
    var actor := ActorOf(who);
    var (d2, out) := Arm(d, who, req);
    NotesAdmitted(ok, req);
    ReadsKeep(inv, ok, d, actor, req.act, req);
    ArmKeeps(inv, ok, d, who, req);
    if out.Err? {
      StepKeeps(inv, ok, d2, Noting(BoundaryBody(actor, req, out.error), true, Ordinary, req.edge));
    } else if req.session.Some? {
      SameVaultKeeps(inv, ok, d2, Slid(d2, TokenDigest(req.session.value), req.again));
    }
  }

  lemma DispatchKeeps(inv: Invariant, ok: Lifetime.Step -> bool, d: Daemon, req: Request)
    requires Survives(inv, ok) && inv(d) && Admits(ok, req)
    ensures inv(Dispatch(d, req).0)
  {
    hide Survives;
    hide Admits;
    hide Identify;
    hide Served;
    if WellTimed(d, req) {
      var d0 := d.(clock := req.again);
      SameVaultKeeps(inv, ok, d, d0);
      IdentifyKeepsInv(inv, ok, d0, req);
      IdentifyKeeps(d0, req);
      var (d1, known) := Identify(d0, req);
      if known.Ok? { ServedKeeps(inv, ok, d1, known.value, req); }
    }
  }

  /** Every step of the vault is admitted. */
  ghost function Any(): Lifetime.Step -> bool { s => true }

  lemma TurnKeeps(inv: Invariant, d: Daemon, t: Turn)
    requires Survives(inv, Any()) && inv(d)
    ensures inv(TurnOnce(d, t))
  {
    var ok := Any();
    hide Survives;
    hide Dispatch;
    hide Rebooted;
    hide LockVault;
    hide Moved;
    hide LaunchGate;
    hide Legal;
    match t
    case Serving(req) => DispatchKeeps(inv, ok, d, req);
    case Launching(ask, env) =>
      if LaunchGate(d, ask).Err? {
        var gate := LaunchGate(d, ask).error;
        StepKeeps(inv, ok, d, Noting(RunBody(gate.actor, Some(gate.code), env), true, Ordinary, env));
      }
    case RunNoting(actor, code, env) => StepKeeps(inv, ok, d, Noting(RunBody(actor, code, env), true, Ordinary, env));
    case Rebooting(s) => RebootKeeps(inv, ok, d, s);
    case Collecting(env) => StepKeeps(inv, ok, d, Collect(env));
    case IdleLock(note, env, tick) =>
      SameVaultKeeps(inv, ok, d, d.(clock := tick));
      LockKeeps(inv, ok, d.(clock := tick), "human", note, env);
  }

  lemma RebootKeeps(inv: Invariant, ok: Lifetime.Step -> bool, d: Daemon, s: Lifetime.Step)
    requires Survives(inv, ok) && inv(d) && ok(s)
    ensures inv(Rebooted(d, s))
  {
    hide Rebooted;
  }

  /** What survives every step of the vault, forgetting every session and every table included, survives every life of the
      daemon. */
  lemma {:induction false} ServeKeeps(inv: Invariant, d: Daemon, turns: seq<Turn>)
    requires Survives(inv, Any()) && inv(d)
    ensures inv(Serve(d, turns))
  {
    if turns == [] {
    } else {
      ServeKeeps(inv, d, turns[..|turns| - 1]);
      TurnKeeps(inv, Serve(d, turns[..|turns| - 1]), turns[|turns| - 1]);
    }
    hide Survives;
    hide TurnOnce;
  }
}
