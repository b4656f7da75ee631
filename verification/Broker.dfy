/** Request dispatch: who a request authenticates as, what each arm does to the session, and when a human session's
    window slides. */
module Broker {
  import opened Prelude
  import opened Audit
  import opened Model
  import opened Capability
  import opened Commit
  import opened Lifetime
  import opened HumanSessions
  import opened SessionObject

  /** What happened to human sessions, for statements about whole runs. `Accepted` means a request authenticated
      with the credential; `Renewed` means its window slid; `AllEnded` is a lock. */
  datatype SessionEvent =
    | Minted(digest: CredDigest, ttlSecs: nat, at: int)
    | Accepted(digest: CredDigest, at: int)
    | Renewed(digest: CredDigest, at: int)
    | Ended(digest: CredDigest)
    | AllEnded

  datatype Daemon = Daemon(run: Lifetime.Run, table: Table, digests: Digests, clock: int, events: seq<SessionEvent>)

  /** `params.lease`: absent, a credential, or something that is not one (a handle, an empty or non-string value). */
  datatype LeaseParam = NoLease | LeaseCredential(credential: string) | BadLease

  datatype Ask =
    | VaultStatus | VaultLock | VaultUnlock(mint: Minting) | VaultCreate
    | Edit(call: Call)
    | HumanRead(name: string, gated: bool) | AuditVerify
    | SessionOpen(mint: Minting) | SessionTouch | SessionClose
    | InjectFile(project: string, written: bool)
    | SecretsList(project: string)
    | AskLease(project: string, ops: seq<Op>, ttlSecs: nat, id: Id, digest: CredDigest)
    | LeaseList
    | ReturnLease(leaseId: Id)
    | AskReveal(project: string, key: string, approvalId: Option<Id>, freshId: Id)
    | ApprovalsStatus(row: Id)
    | RunSignal(verdict: Result<(), VaultError>)
    | Malformed(name: string, humanOnly: bool)

  /** A request with at most one of each credential. `passphrase` says whether the proof opens a key slot. The three
      environments serve authentication and authorization, the operation itself, and the dispatch boundary. */
  datatype Request = Request(ask: Ask, token: Option<string>, passphrase: Option<bool>, session: Option<string>,
                             lease: LeaseParam, auth: Env, act: Env, edge: Env, tick: int, again: int)

  datatype Identity = Human(actor: string) | AgentId(id: Id) | Unauthenticated

  type Reply = Result<(), string>

  function ActorOf(who: Identity): string {
    match who
    case Human(actor) => actor
    case AgentId(id) => "agent:" + id
    case Unauthenticated => "unauthenticated"
  }

  function AskName(ask: Ask): string {
    match ask
    case VaultStatus => "vault.status"
    case VaultLock => "vault.lock"
    case VaultUnlock(_) => "vault.unlock"
    case VaultCreate => "vault.create"
    case Edit(c) => OpName(c)
    case HumanRead(name, _) => name
    case AuditVerify => "audit.verify"
    case SessionOpen(_) => "session.open"
    case SessionTouch => "session.touch"
    case SessionClose => "session.close"
    case InjectFile(_, _) => "inject_file"
    case SecretsList(_) => "secrets.list"
    case AskLease(_, _, _, _, _) => "lease.create"
    case LeaseList => "lease.list"
    case ReturnLease(_) => "lease.revoke"
    case AskReveal(_, _, _, _) => "reveal"
    case ApprovalsStatus(_) => "approvals.status"
    case RunSignal(_) => "run_signal"
    case Malformed(name, _) => name
  }

  /** The edits only the human owner may request. */
  predicate HumanCall(c: Call) {
    c.ProjectAdd? || c.ProjectRemove? || c.SecretSet? || c.SecretDelete? || c.AgentAdd? || c.AgentRevoke?
    || c.GrantAdd? || c.GrantRevoke? || c.ApprovalDecide?
  }

  predicate HumanOnly(ask: Ask) {
    match ask
    case VaultUnlock(_) => true
    case VaultCreate => true
    case Edit(c) => HumanCall(c)
    case HumanRead(_, _) => true
    case AuditVerify => true
    case SessionOpen(_) => true
    case SessionTouch => true
    case SessionClose => true
    case Malformed(_, humanOnly) => humanOnly
    case _ => false
  }

  predicate ManagesSessions(ask: Ask) { ask.SessionOpen? || ask.SessionTouch? || ask.SessionClose? }

  // ----- small moves ---------------------------------------------------------------------

  function Moved(d: Daemon, s: Lifetime.Step): Daemon {
    var run' := Advance(d.run, s);
    d.(run := run', digests := Refresh(d.digests, run'.w.doc))
  }

  function Happens(d: Daemon, e: SessionEvent): Daemon { d.(events := d.events + [e]) }

  function ReplyOf<T>(r: Result<T, VaultError>): Reply { if r.Ok? then Ok(()) else Err(Code(r.error)) }

  /** `audit_denied`. */
  function Refusal(d: Daemon, actor: string, op: string, e: VaultError, env: Env): Daemon {
    Moved(d, Noting(DeniedBody(actor, op, e, env), true, Ordinary, env))
  }

  function DeniedWith(d: Daemon, actor: string, op: string, e: VaultError, env: Env): (Daemon, Reply) {
    (Refusal(d, actor, op, e, env), Err(Code(e)))
  }

  /** `audit_record(…)?`. */
  function Recorded(d: Daemon, actor: string, op: string, env: Env): (Daemon, Reply) {
    var body := AllowedBody(actor, op, env);
    (Moved(d, Noting(body, true, Ordinary, env)), ReplyOf(Note(d.run.w, body, d.run.w.key, Ordinary, env.denial).result))
  }

  /** A read behind `gate`. */
  function GatedRead(d: Daemon, actor: string, op: string, env: Env): (Daemon, Reply) {
    if d.run.w.key.None? then
      var body := DeniedBody(actor, op, Locked, env);
      var noted := Note(d.run.w, body, None, Ordinary, env.denial);
      (Moved(d, Noting(body, false, Ordinary, env)), if noted.result.Err? then ReplyOf(noted.result) else Err(Code(Locked)))
    else Recorded(d, actor, op, env)
  }

  function Performed(d: Daemon, actor: string, c: Call, env: Env): (Daemon, Reply) {
    (Moved(d, Calling(actor, c, env)), ReplyOf(Perform(d.run.w, actor, c, env).result))
  }

  function AuthorizedAs(d: Daemon, agentId: Id, project: string, op: Op, lease: LeaseParam, env: Env)
    : (Daemon, Result<string, VaultError>)
  {
    var credential := if lease.LeaseCredential? then Some(lease.credential) else None;
    (Moved(d, Authorizing(agentId, project, op, credential, env)),
     AuthorizeStep(d.run.w, agentId, project, op, credential, env).1)
  }

  function SetTable(d: Daemon, table: Table): Daemon { d.(table := table) }

  /** `session_open`, with its entry and the random credential it draws. */
  function Mint(d: Daemon, actor: string, m: Minting, env: Env): (Daemon, Reply) {
    var (w', table', result) := Opened(d.run.w, d.table, actor, m, env);
    var drawn := d.(run := d.run.(w := w', now := env.now, digests := d.run.digests + {m.digest}), table := table');
    (if result.Ok? then Happens(drawn, Minted(m.digest, m.ttlSecs, m.tick)) else drawn, ReplyOf(result))
  }

  /** `lock_and_drain`, apart from the run registry. */
  function LockVault(d: Daemon, actor: string, note: Env, env: Env): Daemon {
    var d1 := Moved(d, Noting(AllowedBody(actor, "vault.lock", note), true, Lifecycle, note));
    Happens(SetTable(Moved(d1, Locking(env)), map[]), AllEnded)
  }

  function Slid(d: Daemon, digest: CredDigest, tick: int): Daemon {
    if digest in d.table then Happens(SetTable(d, SlidTo(d.table, digest, tick)), Renewed(digest, tick)) else d
  }

  // ----- authentication -------------------------------------------------------------------

  function Presented(req: Request): nat {
    (if req.token.Some? then 1 else 0) + (if req.passphrase.Some? then 1 else 0) + (if req.session.Some? then 1 else 0)
  }

  function Identify(d: Daemon, req: Request): (Daemon, Result<Identity, string>) {
    var op := AskName(req.ask);
    if req.session == Some("") then (d, Err(if Presented(req) > 1 then "E_PROTOCOL" else "E_SESSION_EXPIRED"))
    else if Presented(req) > 1 then (d, Err("E_PROTOCOL"))
    else if req.token.Some? then
      var digest := TokenDigest(req.token.value);
      if digest in d.digests then (d, Ok(AgentId(d.digests[digest])))
      else (Refusal(d, "agent:unknown", op, AuthFailed, req.auth), Err(Code(AuthFailed)))
    else if req.passphrase.Some? then
      if req.passphrase.value then (d, Ok(Human("human")))
      else (Refusal(d, "unauthenticated", op, AuthFailed, req.auth), Err(Code(AuthFailed)))
    else if req.session.Some? then
      var digest := TokenDigest(req.session.value);
      var (table', prefix) := Validated(d.run.w.key.None?, d.table, digest, req.tick);
      if prefix.None? then
        (SetTable(Refusal(d, "unauthenticated", "session.use", SessionExpired, req.auth), table'), Err(Code(SessionExpired)))
      else (Happens(SetTable(d, table'), Accepted(digest, req.tick)), Ok(Human(SessionActor(prefix.value))))
    else (d, Ok(Unauthenticated))
  }

  // ----- the arms --------------------------------------------------------------------------

  function UnlockArm(d: Daemon, actor: string, m: Minting, req: Request): (Daemon, Reply) {
    if req.session.Some? then (d, Err(Code(SessionExpired)))
    else if req.passphrase != Some(true) then (d, Err(Code(AuthFailed)))
    else
      var d1 := Moved(d, Unlocking(true, req.act));
      var result := UnlockStep(d.run.w, true, req.act).result;
      if result.Err? then (d1, ReplyOf(result))
      else (Mint(d1, actor, m.(ttlSecs := SESSION_DEFAULT_TTL_SECS), req.edge).0, Ok(()))
  }

  function SessionArm(d: Daemon, actor: string, req: Request): (Daemon, Reply) {
    match req.ask
    case SessionOpen(m) =>
      if req.session.Some? then (d, Err(Code(SessionExpired)))
      else if req.passphrase.None? then DeniedWith(d, actor, "session.open", AuthFailed, req.act)
      else Mint(d, actor, m, req.act)
    case SessionTouch =>
      if req.session.None? then (d, Err(Code(SessionExpired)))
      else
        var digest := TokenDigest(req.session.value);
        var (w', table', result) := Touched(d.run.w, d.table, digest, req.tick, req.again, req.act);
        var d' := d.(run := d.run.(w := w', now := req.act.now), table := table');
        (if result.Ok? then Happens(d', Renewed(digest, req.again)) else d', ReplyOf(result))
    case _ =>
      if req.session.None? then (d, Err(Code(SessionExpired)))
      else
        var digest := TokenDigest(req.session.value);
        var (w', table', result) := Closed(d.run.w, d.table, digest, req.tick, req.act);
        var d' := d.(run := d.run.(w := w', now := req.act.now), table := table');
        (if result.Ok? then Happens(d', Ended(digest)) else d', ReplyOf(result))
  }

  function InjectArm(d: Daemon, who: Identity, project: string, written: bool, req: Request): (Daemon, Reply) {
    var actor := ActorOf(who);
    if !who.AgentId? then DeniedWith(d, actor, "inject_file", AuthFailed, req.act)
    else if d.run.w.key.None? then DeniedWith(d, actor, "inject_file", Locked, req.act)
    else if req.lease.BadLease? then DeniedWith(d, actor, "inject_file", InvalidInput, req.act)
    else
      var (d1, verdict) := AuthorizedAs(d, who.id, project, Inject, req.lease, req.auth);
      if verdict.Err? then (d1, ReplyOf(verdict))
      else if written then GatedRead(d1, verdict.value, "inject_file", req.act)
      else DeniedWith(d1, verdict.value, "inject_file", InvalidInput, req.act)
  }

  function ListArm(d: Daemon, who: Identity, project: string, req: Request): (Daemon, Reply) {
    var actor := ActorOf(who);
    if !who.AgentId? then
      if d.run.w.doc.Some? && ProjectByName(d.run.w.doc.value, project).None?
      then DeniedWith(d, actor, "secret.list", NotFound, req.act)
      else GatedRead(d, actor, "secret.list", req.act)
    else if d.run.w.key.None? then DeniedWith(d, actor, "secrets.list", Locked, req.act)
    else if req.lease.BadLease? then (d, Err(Code(InvalidInput)))
    else
      var (d1, verdict) := AuthorizedAs(d, who.id, project, Read, req.lease, req.auth);
      if verdict.Err? then (d1, ReplyOf(verdict)) else GatedRead(d1, verdict.value, "secret.list", req.act)
  }

  function HumanRevealArm(d: Daemon, actor: string, project: string, key: string, approvalId: Option<Id>, env: Env)
    : (Daemon, Reply)
  {
    if approvalId.Some? then (d, Err(Code(InvalidInput)))
    else if d.run.w.key.None? || d.run.w.doc.None? then DeniedWith(d, actor, "reveal", Locked, env)
    else
      var p := ProjectByName(d.run.w.doc.value, project);
      if p.None? || SecretOf(d.run.w.doc.value, p.value.id, key).None? then DeniedWith(d, actor, "reveal", NotFound, env)
      else Recorded(d, actor, "reveal", env)
  }

  /** The value a reveal is about. */
  function Asked(d: Daemon, ask: Ask): Option<Bytes> {
    if !ask.AskReveal? || d.run.w.doc.None? then None
    else
      var p := ProjectByName(d.run.w.doc.value, ask.project);
      if p.None? then None
      else
        var s := SecretOf(d.run.w.doc.value, p.value.id, ask.key);
        if s.None? then None else Some(s.value.value)
  }

  function RevealArm(d: Daemon, who: Identity, ask: Ask, req: Request): (Daemon, Reply)
    requires ask.AskReveal?
  {
    match who
    case Human(actor) => HumanRevealArm(d, actor, ask.project, ask.key, ask.approvalId, req.act)
    case Unauthenticated => (d, Err(Code(AuthFailed)))
    case AgentId(id) =>
      if req.lease.BadLease? then (d, Err(Code(InvalidInput)))
      else
        var (d1, verdict) := AuthorizedAs(d, id, ask.project, Reveal, req.lease, req.auth);
        if verdict.Err? then (d1, ReplyOf(verdict))
        else if ask.approvalId.Some? then
          Performed(d1, verdict.value, RevealClaim(id, ask.project, ask.key, ask.approvalId.value), req.act)
        else
          var (d2, out) := Performed(d1, verdict.value, ApprovalRequest(id, ask.project, ask.key, ask.freshId), req.act);
          (d2, if out.Ok? then Err(Code(ApprovalPending)) else out)
  }

  function StatusArm(d: Daemon, who: Identity, approvalId: Id, env: Env): (Daemon, Reply) {
    if !who.AgentId? then (d, Err(Code(AuthFailed)))
    else
      var actor := ActorOf(who);
      if d.run.w.key.None? || d.run.w.doc.None? then DeniedWith(d, actor, "approval.status", Locked, env)
      else
        var found := Find(d.run.w.doc.value.approvals, (a: Approval) => a.id == approvalId);
        if found.None? then DeniedWith(d, actor, "approval.status", NotFound, env)
        else if found.value.agentId != who.id then DeniedWith(d, actor, "approval.status", Permission, env)
        else (Recorded(d, actor, "approval.status", env).0, Ok(()))
  }

  function Arm(d: Daemon, who: Identity, req: Request): (Daemon, Reply) {
    var actor := ActorOf(who);
    match req.ask
    case VaultStatus => Recorded(d, actor, "vault.status", req.act)
    case VaultLock => (LockVault(d, actor, req.act, req.edge), Ok(()))
    case VaultUnlock(m) => UnlockArm(d, actor, m, req)
    case VaultCreate => (d, Err(Code(Exists)))
    case Edit(c) =>
      if !HumanCall(c) then (d, Err("E_PROTOCOL"))
      else Performed(d, actor, if c.ApprovalDecide? then c.(actor := actor) else c, req.act)
    case HumanRead(name, gated) => if gated then GatedRead(d, actor, name, req.act) else Recorded(d, actor, name, req.act)
    case AuditVerify => (d, if Accepts(d.run.w.log, d.run.w.key) then Ok(()) else Err(Code(CorruptVault)))
    case SessionOpen(_) => SessionArm(d, actor, req)
    case SessionTouch => SessionArm(d, actor, req)
    case SessionClose => SessionArm(d, actor, req)
    case InjectFile(project, written) => InjectArm(d, who, project, written, req)
    case SecretsList(project) => ListArm(d, who, project, req)
    case AskLease(project, ops, ttl, id, digest) =>
      if !who.AgentId? then (d, Err(Code(AuthFailed)))
      else Performed(d, actor, LeaseCreate(who.id, project, ops, ttl, id, digest), req.act)
    case LeaseList =>
      if d.run.w.key.None? then DeniedWith(d, actor, "lease.list", Locked, req.act)
      else (Recorded(d, actor, "lease.list", req.act).0, Ok(()))
    case ReturnLease(leaseId) =>
      Performed(d, actor, LeaseRevoke(if who.AgentId? then Some(who.id) else None, leaseId), req.act)
    case AskReveal(_, _, _, _) => RevealArm(d, who, req.ask, req)
    case ApprovalsStatus(id) => StatusArm(d, who, id, req.act)
    case RunSignal(verdict) =>
      if !who.AgentId? then DeniedWith(d, actor, "run_signal", AuthFailed, req.act)
      else if verdict.Err? then DeniedWith(d, actor, "run_signal", verdict.error, req.act)
      else Recorded(d, actor, "run_signal", req.act)
    case Malformed(_, _) => (d, Err(Code(InvalidInput)))
  }

  predicate Mints(ask: Ask) { ask.VaultUnlock? || ask.SessionOpen? }

  /** The wall clock does not run backwards and random draws are fresh. */
  predicate Ready(d: Daemon, req: Request) {
    && d.run.now <= req.auth.now <= req.act.now <= req.edge.now
    && match req.ask
       case VaultUnlock(m) => m.digest !in d.run.digests && m.tick == req.again
       case SessionOpen(m) => m.digest !in d.run.digests && m.tick == req.again
       case Edit(c) => Draws(c) !! d.run.ids && DrawsDigests(c) !! d.run.digests
       case AskLease(_, _, _, id, digest) => id !in d.run.ids && digest !in d.run.digests
       case AskReveal(_, _, _, id) => id !in d.run.ids
       case _ => true
  }

  /** Nor does the monotonic clock. */
  predicate Timely(d: Daemon, req: Request) { Ready(d, req) && d.clock <= req.tick <= req.again }

  predicate WellTimed(d: Daemon, req: Request) { Timely(d, req) && (Mints(req.ask) ==> Evictable(d, req.ask.mint)) }

  /** The entry the eviction picked is one of the least recently used. */
  predicate Evictable(d: Daemon, m: Minting) {
    var swept := SweptTable(d.table, m.tick);
    |swept| >= MAX_SESSIONS ==> Oldest(swept, m.victim)
  }

  /** What the boundary records of a refusal nobody recorded. */
  function BoundaryBody(actor: string, req: Request, code: string): Body {
    Body(req.edge.ts, actor, AskName(req.ask), false, code, req.edge.detail, req.edge.jsonLen)
  }

  /** After the arm: an allowed request slides its window, a refusal that nothing recorded is recorded. */
  function Finished(d1: Daemon, d2: Daemon, out: Reply, actor: string, req: Request): (Daemon, Reply) {
    if out.Ok? then
      (if !ManagesSessions(req.ask) && req.session.Some? then Slid(d2, TokenDigest(req.session.value), req.again) else d2, out)
    else if d2.run.w.handle.seqNo == d1.run.w.handle.seqNo then
      (Moved(d2, Noting(BoundaryBody(actor, req, out.error), true, Ordinary, req.edge)), out)
    else (d2, out)
  }

  /** What an authenticated request gets. */
  function Served(d1: Daemon, who: Identity, req: Request): (Daemon, Reply) {
    var actor, op := ActorOf(who), AskName(req.ask);
    if who.Unauthenticated? && !req.ask.VaultStatus? then DeniedWith(d1, actor, op, AuthFailed, req.act)
    else if who.AgentId? && HumanOnly(req.ask) then DeniedWith(d1, actor, op, HumanRequired, req.act)
    else if who.Human? && !req.lease.NoLease? then DeniedWith(d1, actor, op, InvalidInput, req.act)
    else
      var (d2, out) := Arm(d1, who, req);
      Finished(d1, d2, out, actor, req)
  }

  /** `dispatch`. */
  function Dispatch(d: Daemon, req: Request): (Daemon, Reply) {
    if !WellTimed(d, req) then (d, Err(""))
    else
      var (d1, known) := Identify(d.(clock := req.again), req);
      if known.Err? then (d1, Err(known.error)) else Served(d1, known.value, req)
  }

  // ----- runs -------------------------------------------------------------------------------

  const MAX_RUN_KEYS: nat := 256

  /** A `run_with_secrets` request. `wellFormed` is the verdict on its descriptors and parameters. */
  datatype LaunchAsk = LaunchAsk(wellFormed: Result<(), VaultError>, token: Option<string>, passphrase: bool,
                                 project: string, keys: Option<seq<string>>)

  /** What a child is started with. */
  datatype Launch = Launch(agentId: Id, projectId: Id, secrets: map<string, Bytes>)

  datatype LaunchRefusal = LaunchRefusal(actor: string, code: string)

  function KeysOf(d: Document, projectId: Id): set<string> { set s | s in d.secrets && s.projectId == projectId :: s.key }

  function Picked(d: Document, projectId: Id, keys: set<string>): map<string, Bytes> {
    map k | k in keys && SecretOf(d, projectId, k).Some? :: SecretOf(d, projectId, k).value.value
  }

  /** The named keys, or all keys of the project. */
  function Selected(d: Document, projectId: Id, keys: Option<seq<string>>): Result<map<string, Bytes>, VaultError> {
    match keys
    case Some(names) =>
      if exists k :: k in names && SecretOf(d, projectId, k).None? then Err(NotFound)
      else Ok(Picked(d, projectId, set k | k in names))
    case None =>
      var all := KeysOf(d, projectId);
      if all == {} || |all| > MAX_RUN_KEYS then Err(InvalidInput) else Ok(Picked(d, projectId, all))
  }

  /** The checks of `handle_run` under the session lock: an agent token and nothing else, an unlocked vault, a grant to
      run in the project, and stored keys. */
  function LaunchGate(d: Daemon, ask: LaunchAsk): Result<Launch, LaunchRefusal> {
    var nobody := "agent:unknown";
    if ask.wellFormed.Err? then Err(LaunchRefusal(nobody, Code(ask.wellFormed.error)))
    else if ask.token.Some? && ask.passphrase then Err(LaunchRefusal(nobody, "E_PROTOCOL"))
    else if ask.token.None? || TokenDigest(ask.token.value) !in d.digests then Err(LaunchRefusal(nobody, Code(AuthFailed)))
    else
      var id := d.digests[TokenDigest(ask.token.value)];
      var actor := "agent:" + id;
      if d.run.w.key.None? || d.run.w.doc.None? then Err(LaunchRefusal(actor, Code(Locked)))
      else
        var doc := d.run.w.doc.value;
        var p := ProjectByName(doc, ask.project);
        if p.None? || !Authorized(doc, id, p.value.id, Op.Run) then Err(LaunchRefusal(actor, Code(Permission)))
        else
          var secrets := Selected(doc, p.value.id, ask.keys);
          if secrets.Err? then Err(LaunchRefusal(actor, Code(secrets.error)))
          else Ok(Launch(id, p.value.id, secrets.value))
  }

  /** `audit_run_denied` and the other entries a run writes on its way. */
  function RunBody(actor: string, code: Option<string>, env: Env): Body {
    Body(env.ts, actor, "run_with_secrets", code.None?, if code.Some? then code.value else "", env.detail, env.jsonLen)
  }

  function RunNoted(d: Daemon, actor: string, code: Option<string>, env: Env): Daemon {
    Moved(d, Noting(RunBody(actor, code, env), true, Ordinary, env))
  }

  /** A refused launch is recorded. What an accepted one records later comes as notes of its own, because the session
      lock is released in between. */
  function LaunchTried(d: Daemon, ask: LaunchAsk, env: Env): Daemon {
    var gate := LaunchGate(d, ask);
    if gate.Err? then RunNoted(d, gate.error.actor, Some(gate.error.code), env) else d
  }

  /** A child is started exactly for a known agent's token alone, on an unlocked vault, with a current grant to run in
      the project, and exactly with the stored values of the keys it named, or of all of that project's. */
  lemma LaunchIff(d: Daemon, ask: LaunchAsk, l: Launch)
    ensures LaunchGate(d, ask) == Ok(l) <==>
              && ask.wellFormed.Ok? && ask.token.Some? && !ask.passphrase
              && TokenDigest(ask.token.value) in d.digests && d.digests[TokenDigest(ask.token.value)] == l.agentId
              && d.run.w.key.Some? && d.run.w.doc.Some?
              && ProjectByName(d.run.w.doc.value, ask.project).Some?
              && ProjectByName(d.run.w.doc.value, ask.project).value.id == l.projectId
              && Authorized(d.run.w.doc.value, l.agentId, l.projectId, Op.Run)
              && (forall k :: k in l.secrets <==>
                    if ask.keys.Some? then k in ask.keys.value else SecretOf(d.run.w.doc.value, l.projectId, k).Some?)
              && (forall k :: k in l.secrets ==>
                    SecretOf(d.run.w.doc.value, l.projectId, k).Some?
                    && SecretOf(d.run.w.doc.value, l.projectId, k).value.value == l.secrets[k])
              && (ask.keys.None? ==> 1 <= |l.secrets| <= MAX_RUN_KEYS)
  {
    if d.run.w.doc.Some? {
      var p := ProjectByName(d.run.w.doc.value, ask.project);
      if p.Some? { SelectedIff(d.run.w.doc.value, p.value.id, ask.keys, l.secrets); }
    }
    hide Selected;
    hide Find;
    hide Authorized;
  }

  lemma SelectedIff(d: Document, projectId: Id, keys: Option<seq<string>>, secrets: map<string, Bytes>)
    ensures Selected(d, projectId, keys) == Ok(secrets) <==>
              && (forall k :: k in secrets <==> if keys.Some? then k in keys.value else SecretOf(d, projectId, k).Some?)
              && (forall k :: k in secrets ==>
                    SecretOf(d, projectId, k).Some? && SecretOf(d, projectId, k).value.value == secrets[k])
              && (keys.None? ==> 1 <= |secrets| <= MAX_RUN_KEYS)
  {
    hide SecretOf;
    hide Picked;
    hide KeysOf;
    if keys.Some? { NamedIff(d, projectId, keys.value, secrets); } else { AllIff(d, projectId, secrets); }
    hide Selected;
  }

  lemma NamedIff(d: Document, projectId: Id, names: seq<string>, secrets: map<string, Bytes>)
    ensures Selected(d, projectId, Some(names)) == Ok(secrets) <==>
              && (forall k :: k in secrets <==> k in names)
              && (forall k :: k in secrets ==>
                    SecretOf(d, projectId, k).Some? && SecretOf(d, projectId, k).value.value == secrets[k])
  {
    hide SecretOf;
    hide Picked;
    hide KeysOf;
    var keys := set k | k in names;
    if forall k :: k in keys ==> SecretOf(d, projectId, k).Some? { PickedIs(d, projectId, keys, secrets); }
  }

  lemma AllIff(d: Document, projectId: Id, secrets: map<string, Bytes>)
    ensures Selected(d, projectId, None) == Ok(secrets) <==>
              && (forall k :: k in secrets <==> SecretOf(d, projectId, k).Some?)
              && (forall k :: k in secrets ==>
                    SecretOf(d, projectId, k).Some? && SecretOf(d, projectId, k).value.value == secrets[k])
              && 1 <= |secrets| <= MAX_RUN_KEYS
  {
    hide SecretOf;
    hide Picked;
    hide KeysOf;
    var all := KeysOf(d, projectId);
    KeysAreStored(d, projectId);
    PickedIs(d, projectId, all, secrets);
    if secrets.Keys == all { assert |secrets| == |secrets.Keys| == |all|; }
  }

  lemma KeysAreStored(d: Document, projectId: Id)
    ensures forall k :: k in KeysOf(d, projectId) <==> SecretOf(d, projectId, k).Some?
  {
    forall k | k in KeysOf(d, projectId) ensures SecretOf(d, projectId, k).Some? {
      var s :| s in d.secrets && s.projectId == projectId && s.key == k;
    }
  }

  lemma PickedIs(d: Document, projectId: Id, keys: set<string>, secrets: map<string, Bytes>)
    requires forall k :: k in keys ==> SecretOf(d, projectId, k).Some?
    ensures Picked(d, projectId, keys).Keys == keys
    ensures secrets == Picked(d, projectId, keys) <==>
              && secrets.Keys == keys
              && forall k :: k in secrets ==> SecretOf(d, projectId, k).Some? && SecretOf(d, projectId, k).value.value == secrets[k]
  {
    hide SecretOf;
  }

  /** The daemon restarts, or a crash restarts it: tables are memory-only. */
  function Rebooted(d: Daemon, s: Lifetime.Step): Daemon {
    Happens(d.(run := Advance(d.run, s), table := map[], digests := map[]), AllEnded)
  }

  datatype Turn =
    | Serving(req: Request)
    | Launching(ask: LaunchAsk, env: Env)
    | RunNoting(actor: string, code: Option<string>, env: Env)
    | Rebooting(s: Lifetime.Step)
    | Collecting(env: Env)
    | IdleLock(note: Env, env: Env, tick: int)

  function TurnOnce(d: Daemon, t: Turn): Daemon {
    match t
    case Serving(req) => Dispatch(d, req).0
    case Launching(ask, env) => LaunchTried(d, ask, env)
    case RunNoting(actor, code, env) => RunNoted(d, actor, code, env)
    case Rebooting(s) => if Legal(d.run, s) && (s.Restart? || s.CrashInCall? || s.CrashInLock?) then Rebooted(d, s) else d
    case Collecting(env) => if d.run.now <= env.now then Moved(d, Collect(env)) else d
    case IdleLock(note, env, tick) =>
      if d.run.now <= note.now <= env.now && d.clock <= tick then LockVault(d.(clock := tick), "human", note, env) else d
  }

  function Serve(d: Daemon, turns: seq<Turn>): Daemon {
    if turns == [] then d else TurnOnce(Serve(d, turns[..|turns| - 1]), turns[|turns| - 1])
  }
}
