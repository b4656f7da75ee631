/** The session's operations as steps of one vault, and what every run of them keeps: documents stay well formed in
    memory, in the envelope and on disk; every revealed value was requested and approved; a dead lease stays dead. */
module Lifetime {
  import opened Prelude
  import opened Audit
  import opened AuditTheorems
  import opened Model
  import opened Capability
  import opened Authority
  import opened Commit

  /** The clock, what the entry an operation writes is about, and what I/O does to it. */
  datatype Env = Env(now: int, ts: int, detail: Detail, jsonLen: nat, io: CommitIo, denial: AppendFault)

  function OpName(c: Call): string {
    match c
    case ProjectAdd(_, _) => "project.add"
    case ProjectRemove(_) => "project.remove"
    case SecretSet(_, _, _) => "secret.set"
    case SecretDelete(_, _) => "secret.delete"
    case AgentAdd(_, _, _) => "agents.add"
    case AgentRevoke(_) => "agents.revoke"
    case GrantAdd(_, _, _) => "grants.grant"
    case GrantRevoke(_, _) => "grants.revoke"
    case LeaseCreate(_, _, _, _, _, _) => "lease.create"
    case LeaseRevoke(_, _) => "lease.revoke"
    case ApprovalRequest(_, _, _, _) => "approval.request"
    case ApprovalDecide(_, _, approve) => if approve then "approval.approve" else "approval.deny"
    case RevealClaim(_, _, _, _) => "reveal"
  }

  /** The name a refused decision is recorded under. */
  function DeniedName(c: Call): string { if c.ApprovalDecide? then "approval.decide" else OpName(c) }

  function Code(e: VaultError): string {
    match e
    case Locked => "E_LOCKED"
    case NotFound => "E_NOT_FOUND"
    case Exists => "E_EXISTS"
    case Permission => "E_PERMISSION"
    case InvalidInput => "E_INVALID_INPUT"
    case HumanRequired => "E_HUMAN_REQUIRED"
    case AuthFailed => "E_AUTH"
    case LeaseExpired => "E_LEASE_EXPIRED"
    case ApprovalPending => "E_APPROVAL_PENDING"
    case ApprovalDenied => "E_APPROVAL_DENIED"
    case ApprovalConsumed => "E_APPROVAL_CONSUMED"
    case ApprovalExpired => "E_APPROVAL_EXPIRED"
    case SessionExpired => "E_SESSION_EXPIRED"
    case VaultTooLarge => "E_VAULT_TOO_LARGE"
    case StorageFailed => "E_IO"
    case CorruptVault => "E_CORRUPT"
    case AuditRefused(cause) => if cause == AuditFull then "E_AUDIT_FULL" else "E_AUDIT_WRITE"
  }

  function AllowedBody(actor: string, op: string, env: Env): Body { Body(env.ts, actor, op, true, "", env.detail, env.jsonLen) }

  function DeniedBody(actor: string, op: string, e: VaultError, env: Env): Body {
    Body(env.ts, actor, op, false, Code(e), env.detail, env.jsonLen)
  }

  /** Operations behind `gate`, whose locked refusal is itself refused when it cannot be recorded. */
  predicate Gated(c: Call) {
    c.ProjectAdd? || c.ProjectRemove? || c.SecretSet? || c.SecretDelete? || c.AgentAdd? || c.AgentRevoke? || c.GrantAdd? || c.GrantRevoke?
  }

  /** One document-editing operation of the session. */
  function Perform(w: World, actor: string, c: Call, env: Env): Outcome {
    if c.ApprovalDecide? && !IsHumanIdentity(c.actor) then
      Outcome(DenialNoted(w, DeniedBody(actor, DeniedName(c), HumanRequired, env), env.denial), Err(HumanRequired))
    else if w.key.None? then
      var noted := Note(w, DeniedBody(actor, DeniedName(c), Locked, env), None, Ordinary, env.denial);
      Outcome(noted.world, if Gated(c) && noted.result.Err? then noted.result else Err(Locked))
    else if w.doc.None? then Outcome(w, Err(Locked))
    else
      var proposal := Propose(w.doc.value, c, env.now);
      if proposal.Err? then
        Outcome(DenialNoted(w, DeniedBody(actor, DeniedName(c), proposal.error, env), env.denial), Err(proposal.error))
      else
        CommitWith(w, proposal.value, AllowedBody(actor, OpName(c), env), PriorityOf(w.doc.value, c), env.io)
  }

  /** `authorize_lease`. Its actor and refusals are recorded best effort. */
  function AuthorizeStep(w: World, agentId: Id, project: string, op: Op, credential: Option<string>, env: Env)
    : (World, Result<string, VaultError>)
  {
    var me := "agent:" + agentId;
    if w.key.None? then (DenialNoted(w, DeniedBody(me, "authorize", Locked, env), env.denial), Err(Locked))
    else if w.doc.None? then (w, Err(Locked))
    else match Authorize(w.doc.value, agentId, project, op, credential, env.now)
      case Allowed(actor) => (Note(w, AllowedBody(actor, "authorize", env), w.key, Ordinary, env.denial).world, Ok(actor))
      case Refused(e) => (DenialNoted(w, DeniedBody(me, "authorize", e, env), env.denial), Err(e))
      case Invalidate(id) =>
        var swept := Invalidated(w.doc.value, id, env.now);
        var w1 := CommitWith(w, swept, AllowedBody(me, "lease.invalidate", env), Ordinary, env.io).world;
        (DenialNoted(w1, DeniedBody(me, "authorize", LeaseExpired, env), env.denial), Err(LeaseExpired))
  }

  function UnlockStep(w: World, right: bool, env: Env): Outcome {
    Unlock(w, right, AllowedBody("human", "vault.unlocked", env), DeniedBody("human", "vault.unlock", AuthFailed, env), env.denial)
  }

  // ----- runs -----------------------------------------------------------------------

  datatype Step =
    | Calling(actor: string, call: Call, env: Env)
    | CrashInCall(actor: string, call: Call, env: Env, renamed: bool)
    | Authorizing(agentId: Id, project: string, op: Op, credential: Option<string>, env: Env)
    | Locking(env: Env)
    | CrashInLock(env: Env, renamed: bool)
    | Unlocking(right: bool, env: Env)
    | Collect(env: Env)
    | Noting(body: Body, maced: bool, priority: Priority, env: Env)
    | Restart(env: Env)

  /** What happened, for statements about whole runs. `saved` means the operation reported success. */
  datatype Happening =
    | Requested(id: Id, agentId: Id, projectId: Id, key: string, at: int)
    | Decided(id: Id, approve: bool, saved: bool, at: int)
    | Revealed(id: Id, agentId: Id, projectId: Id, key: string, at: int)
    | RevealLost(agentId: Id, projectId: Id)
    | AgentLost(agentId: Id)
    | LockSaved

  /** `ids` and `digests` were handed out by the random source so far. */
  datatype Run = Run(w: World, now: int, ids: set<Id>, digests: set<CredDigest>, history: seq<Happening>)

  function Draws(c: Call): set<Id> {
    match c
    case ProjectAdd(_, id) => {id}
    case AgentAdd(_, id, _) => {id}
    case LeaseCreate(_, _, _, _, id, _) => {id}
    case ApprovalRequest(_, _, _, id) => {id}
    case _ => {}
  }

  function DrawsDigests(c: Call): set<CredDigest> {
    match c
    case AgentAdd(_, _, token) => {token}
    case LeaseCreate(_, _, _, _, _, digest) => {digest}
    case _ => {}
  }

  /** The clock does not run backwards and random draws do not repeat. */
  predicate Legal(r: Run, s: Step) {
    && r.now <= s.env.now
    && (s.Calling? || s.CrashInCall? ==> Draws(s.call) !! r.ids && DrawsDigests(s.call) !! r.digests)
  }

  function Happened(d: Document, c: Call, now: int, saved: bool): seq<Happening> {
    var proposal := Propose(d, c, now);
    if proposal.Err? then []
    else match c
      case ApprovalRequest(agentId, project, key, id) => [Requested(id, agentId, ProjectByName(d, project).value.id, key, now)]
      case ApprovalDecide(_, id, approve) => [Decided(id, approve, saved, now)]
      case RevealClaim(agentId, project, key, id) =>
        if saved then [Revealed(id, agentId, ProjectByName(d, project).value.id, key, now)] else []
      case GrantAdd(agent, project, _) => LossOf(d, proposal.value, agent, project, saved)
      case GrantRevoke(agent, project) => LossOf(d, proposal.value, agent, project, saved)
      case AgentRevoke(name) => if saved then [AgentLost(d.agents[Position(d.agents, (a: Agent) => a.name == name)].id)] else []
      case _ => []
  }

  function LossOf(d: Document, d': Document, agent: string, project: string, saved: bool): seq<Happening>
    requires AgentByName(d, agent).Some? && ProjectByName(d, project).Some?
  {
    var a, p := AgentByName(d, agent).value.id, ProjectByName(d, project).value.id;
    if saved && !Authorized(d', a, p, Reveal) then [RevealLost(a, p)] else []
  }

  function LockBody(env: Env): Body { AllowedBody("human", "vault.lock", env) }

  /** One step; an illegal one does nothing. */
  function Advance(r: Run, s: Step): Run {
    if !Legal(r, s) then r
    else
      var r1 := r.(now := s.env.now);
      match s
      case Calling(actor, c, env) =>
        var out := Perform(r.w, actor, c, env);
        var news := if r.w.key.Some? && r.w.doc.Some? then Happened(r.w.doc.value, c, env.now, out.result.Ok?) else [];
        r1.(w := out.world, ids := r.ids + Draws(c), digests := r.digests + DrawsDigests(c), history := r.history + news)
      case CrashInCall(actor, c, env, renamed) =>
        var after := Perform(r.w, actor, c, env).world;
        var news := if r.w.key.Some? && r.w.doc.Some? then Happened(r.w.doc.value, c, env.now, false) else [];
        r1.(w := Restarted(if renamed then after else after.(disk := r.w.disk)),
            ids := r.ids + Draws(c), digests := r.digests + DrawsDigests(c), history := r.history + news)
      case Authorizing(agentId, project, op, credential, env) =>
        r1.(w := AuthorizeStep(r.w, agentId, project, op, credential, env).0)
      case Locking(env) =>
        var news := if r.w.key.Some? && r.w.doc.Some?
                       && CommitWith(r.w, LockedDown(r.w.doc.value, env.now), LockBody(env), Lifecycle, env.io).result.Ok?
                    then [LockSaved] else [];
        r1.(w := LockPersist(r.w, LockBody(env), env.now, env.io), history := r.history + news)
      case CrashInLock(env, renamed) =>
        var after := LockPersist(r.w, LockBody(env), env.now, env.io);
        r1.(w := Restarted(if renamed then after else after.(disk := r.w.disk)))
      case Unlocking(right, env) => r1.(w := UnlockStep(r.w, right, env).world)
      case Collect(env) =>
        if r.w.doc.None? then r1 else r1.(w := r.w.(doc := Some(Purged(r.w.doc.value, env.now))))
      case Noting(body, maced, priority, env) =>
        r1.(w := Note(r.w, body, if maced then r.w.key else None, priority, env.denial).world)
      case Restart(_) => r1.(w := Restarted(r.w))
  }

  function Play(r: Run, steps: seq<Step>): Run {
    if steps == [] then r else Advance(Play(r, steps[..|steps| - 1]), steps[|steps| - 1])
  }

  // ----- the documents of a run ---------------------------------------------------------

  /** The three places a document lives. */
  ghost predicate Version(w: World, d: Document) {
    d == w.envelope || d == w.disk || (w.doc.Some? && d == w.doc.value)
  }

  /** The same records, wherever the checkpoint points. */
  predicate SameRows(d: Document, e: Document) { d == e.(head := d.head) }

  /** The documents after a step: old versions, purged ones, and what the step proposed. */
  ghost predicate Sourced(w: World, w': World, d: Document) {
    forall v :: Version(w', v) ==> Version(w, v) || SameRows(v, d)
  }

  lemma SameRowsSameInv(d: Document, e: Document)
    requires SameRows(d, e)
    ensures DocInv(d) <==> DocInv(e)
  {
    BackingTransfers(d, e);
    BackingTransfers(e, d);
  }

  /** A refused operation only records. */
  lemma RefusedOnlyNotes(w: World, actor: string, c: Call, env: Env)
    requires Openable(w) && (w.doc.None? || Propose(w.doc.value, c, env.now).Err?)
    ensures var out := Perform(w, actor, c, env);
            && Openable(out.world) && out.result.Err? && w.log <= out.world.log
            && out.world == w.(handle := out.world.handle, log := out.world.log)
  {
    if c.ApprovalDecide? && !IsHumanIdentity(c.actor) {
      NoteKeepsOpenable(w, DeniedBody(actor, DeniedName(c), HumanRequired, env), w.key, Ordinary, env.denial);
    } else if w.key.None? {
      NoteKeepsOpenable(w, DeniedBody(actor, DeniedName(c), Locked, env), None, Ordinary, env.denial);
    } else {
      NoteKeepsOpenable(w, DeniedBody(actor, DeniedName(c), Propose(w.doc.value, c, env.now).error, env), w.key, Ordinary, env.denial);
    }
    hide Openable;
    hide Note;
  }

  /** A performed operation is a commit of what it proposed. */
  lemma PerformCommits(w: World, actor: string, c: Call, env: Env)
    requires w.key.Some? && w.doc.Some? && Propose(w.doc.value, c, env.now).Ok?
    ensures Perform(w, actor, c, env)
         == CommitWith(w, Propose(w.doc.value, c, env.now).value, AllowedBody(actor, OpName(c), env), PriorityOf(w.doc.value, c), env.io)
  {
  }

  /** The operation only takes away: a revocation, or a grant of no more than the pair may do already. */
  predicate OnlyTakesAway(d: Document, c: Call) {
    c.AgentRevoke? || c.GrantRevoke? || c.LeaseRevoke?
    || (&& c.GrantAdd? && AgentByName(d, c.agent).Some? && ProjectByName(d, c.project).Some?
        && forall op :: op in c.ops ==>
             Authorized(d, AgentByName(d, c.agent).value.id, ProjectByName(d, c.project).value.id, op))
  }

  lemma PriorityIff(d: Document, c: Call, now: int)
    requires Propose(d, c, now).Ok?
    ensures PriorityOf(d, c) == Lifecycle <==> OnlyTakesAway(d, c)
  {
    hide Find;
    if c.GrantAdd? && AgentByName(d, c.agent).Some? && ProjectByName(d, c.project).Some? {
      assert c.ops[0] in c.ops;
    }
  }

  /** An operation succeeds exactly when it is admissible on the unlocked document, the vault can be sealed and saved, and
      its entry can be written; one that only takes away needs no entry, so a full log never stands in its way. */
  lemma CallSucceedsIff(w: World, actor: string, c: Call, env: Env)
    requires Openable(w)
    ensures Perform(w, actor, c, env).result.Ok? <==>
              && w.doc.Some? && Propose(w.doc.value, c, env.now).Ok?
              && !env.io.sealFails && !env.io.tooLarge && !env.io.saveFails
              && (|| OnlyTakesAway(w.doc.value, c)
                  || (env.io.append == NoFault
                      && FileLen(w.log) + Space(AllowedBody(actor, OpName(c), env)) <= w.handle.limits.soft))
  {
    hide Openable;
    hide Perform;
    hide Propose;
    hide OnlyTakesAway;
    KeyedWithDocument(w);
    if w.doc.None? || Propose(w.doc.value, c, env.now).Err? {
      RefusedOnlyNotes(w, actor, c, env);
    } else {
      var d', body, priority := Propose(w.doc.value, c, env.now).value, AllowedBody(actor, OpName(c), env), PriorityOf(w.doc.value, c);
      PerformCommits(w, actor, c, env);
      PriorityIff(w.doc.value, c, env.now);
      AppendKeepsOpenable(w, body, priority, env.io);
      CommitIs(w, d', body, priority, env.io);
      StageIff(w.handle, w.log, body, w.key, priority);
      hide AfterAppend;
      hide Stage;
      hide CommitWith;
      hide RecordedAtHead;
      hide PriorityOf;
      hide FileLen;
    }
  }

  lemma KeyedWithDocument(w: World)
    requires Openable(w)
    ensures w.key.Some? <==> w.doc.Some?
  {
  }

  /** The copies after a commit. */
  lemma CommitVersions(w: World, d': Document, body: Body, priority: Priority, io: CommitIo)
    requires Openable(w) && w.doc.Some? && d'.head == w.doc.value.head
    ensures var out := CommitWith(w, d', body, priority, io);
            && Openable(out.world) && out.world.owner == w.owner && w.log <= out.world.log
            && Sourced(w, out.world, d')
            && (out.result.Ok? ==> out.world.doc.Some? && forall v :: Version(out.world, v) ==> SameRows(v, d'))
            && (out.result.Err? ==> out.world.doc == w.doc)
  {
    CommitEffect(w, d', body, priority, io);
    hide Openable;
    hide CommitWith;
    hide RecordedAtHead;
  }

  /** What an operation leaves in each place a document lives. */
  lemma PerformVersions(w: World, actor: string, c: Call, env: Env)
    requires Openable(w)
    ensures var out := Perform(w, actor, c, env);
            && Openable(out.world) && out.world.owner == w.owner && w.log <= out.world.log
            && (out.result.Ok? ==> w.doc.Some? && Propose(w.doc.value, c, env.now).Ok? && out.world.doc.Some?)
            && (w.doc.None? || Propose(w.doc.value, c, env.now).Err? ==>
                  out.result.Err? && out.world.envelope == w.envelope && out.world.disk == w.disk && out.world.doc == w.doc)
            && (w.doc.Some? && Propose(w.doc.value, c, env.now).Ok? && DocInv(w.doc.value) && FreshFor(w.doc.value, c) ==>
                  && Sourced(w, out.world, Propose(w.doc.value, c, env.now).value)
                  && (out.result.Ok? ==> forall v :: Version(out.world, v) ==> SameRows(v, Propose(w.doc.value, c, env.now).value))
                  && (out.result.Err? ==> out.world.doc == w.doc))
  {
    hide Openable;
    hide Perform;
    hide Propose;
    hide DocInv;
    hide FreshFor;
    if w.doc.None? || Propose(w.doc.value, c, env.now).Err? {
      RefusedOnlyNotes(w, actor, c, env);
    } else {
      KeyedWithDocument(w);
      PerformCommits(w, actor, c, env);
      ProposeKeepsHead(w.doc.value, c, env.now);
      CommitVersions(w, Propose(w.doc.value, c, env.now).value, AllowedBody(actor, OpName(c), env), PriorityOf(w.doc.value, c), env.io);
    }
  }

  /** Why an operation is refused before anything is written. */
  function WhyRefused(w: World, c: Call, now: int): Option<VaultError> {
    if c.ApprovalDecide? && !IsHumanIdentity(c.actor) then Some(HumanRequired)
    else if w.doc.None? then Some(Locked)
    else
      var proposal := Propose(w.doc.value, c, now);
      if proposal.Err? then Some(proposal.error) else None
  }

  /** An inadmissible operation leaves exactly one entry that says who was refused what and why, if it fits and is written;
      nothing else changes. */
  lemma RefusalIsRecorded(w: World, actor: string, c: Call, env: Env)
    requires Openable(w) && WhyRefused(w, c, env.now).Some?
    ensures var out := Perform(w, actor, c, env);
            var body := DeniedBody(actor, DeniedName(c), WhyRefused(w, c, env.now).value, env);
            && out.result.Err? && out.world == w.(handle := out.world.handle, log := out.world.log)
            && out.world.log == (if FileLen(w.log) + Space(body) <= w.handle.limits.soft && env.denial != NothingWritten
                                 then w.log + [NextLine(w.log, body, w.key)] else w.log)
            && (w.doc.Some? || !Gated(c) || (c.ApprovalDecide? && !IsHumanIdentity(c.actor)) ==>
                  out.result == Err(WhyRefused(w, c, env.now).value))
  {
    hide Openable;
    hide Propose;
    hide Note;
    hide FileLen;
    hide NextLine;
    hide Code;
    hide OpName;
    KeyedWithDocument(w);
    var body := DeniedBody(actor, DeniedName(c), WhyRefused(w, c, env.now).value, env);
    NoteOf(w, body, env.denial);
  }

  lemma NoteOf(w: World, body: Body, fault: AppendFault)
    requires Openable(w)
    ensures var out := Note(w, body, w.key, Ordinary, fault);
            && out.world == w.(handle := out.world.handle, log := out.world.log)
            && out.world.log == (if FileLen(w.log) + Space(body) <= w.handle.limits.soft && fault != NothingWritten
                                 then w.log + [NextLine(w.log, body, w.key)] else w.log)
  {
    NoteEffect(w, body, w.key, Ordinary, fault);
    NoteKeepsOpenable(w, body, w.key, Ordinary, fault);
    hide Note;
    hide FileLen;
    hide NextLine;
  }

  /** The log tells operations apart, and an approval from a denial. */
  lemma NamesTellApart(c: Call, x: Call)
    requires OpName(c) == OpName(x)
    ensures (c.ProjectAdd? <==> x.ProjectAdd?) && (c.ProjectRemove? <==> x.ProjectRemove?) && (c.SecretSet? <==> x.SecretSet?)
    ensures (c.SecretDelete? <==> x.SecretDelete?) && (c.AgentAdd? <==> x.AgentAdd?) && (c.AgentRevoke? <==> x.AgentRevoke?)
    ensures (c.GrantAdd? <==> x.GrantAdd?) && (c.GrantRevoke? <==> x.GrantRevoke?) && (c.LeaseCreate? <==> x.LeaseCreate?)
    ensures (c.LeaseRevoke? <==> x.LeaseRevoke?) && (c.ApprovalRequest? <==> x.ApprovalRequest?)
    ensures (c.RevealClaim? <==> x.RevealClaim?) && (c.ApprovalDecide? <==> x.ApprovalDecide?)
    ensures c.ApprovalDecide? && x.ApprovalDecide? ==> c.approve == x.approve
  {
  }

  ghost predicate RealRequest(r: Run, s: Step, e: Happening)
    requires e.Requested? && r.w.doc.Some?
  {
    && (s.Calling? || s.CrashInCall?) && s.call.ApprovalRequest? && e.at == s.env.now
    && s.call == ApprovalRequest(e.agentId, s.call.project, e.key, e.id)
    && ProjectByName(r.w.doc.value, s.call.project).Some?
    && e.projectId == ProjectByName(r.w.doc.value, s.call.project).value.id
  }

  ghost predicate RealDecision(r: Run, s: Step, e: Happening)
    requires e.Decided?
  {
    && (s.Calling? || s.CrashInCall?) && s.call.ApprovalDecide? && e.at == s.env.now
    && s.call == ApprovalDecide(s.call.actor, e.id, e.approve) && IsHumanIdentity(s.call.actor)
    && (e.saved <==> s.Calling? && Perform(r.w, s.actor, s.call, s.env).result.Ok?)
  }

  ghost predicate RealReveal(r: Run, s: Step, e: Happening)
    requires e.Revealed? && r.w.doc.Some?
  {
    && s.Calling? && s.call.RevealClaim? && e.at == s.env.now
    && s.call == RevealClaim(e.agentId, s.call.project, e.key, e.id)
    && ProjectByName(r.w.doc.value, s.call.project).Some?
    && e.projectId == ProjectByName(r.w.doc.value, s.call.project).value.id
    && Perform(r.w, s.actor, s.call, s.env).result.Ok?
  }

  /** What a step adds to the history really happened: a request was an agent's call, a decision was a human's and says what
      it says, a reveal was a saved claim. */
  lemma HappeningsAreReal(r: Run, s: Step, k: nat)
    requires |r.history| <= k < |Advance(r, s).history|
    ensures Legal(r, s) && r.w.doc.Some?
    ensures var e := Advance(r, s).history[k];
            && (e.Requested? ==> RealRequest(r, s, e)) && (e.Decided? ==> RealDecision(r, s, e)) && (e.Revealed? ==> RealReveal(r, s, e))
  {
    hide Perform;
    hide CommitWith;
    hide LockedDown;
    hide Note;
    hide AuthorizeStep;
    hide UnlockStep;
    hide Load;
    hide Find;
    hide RevokeAgent;
    hide AddGrant;
    hide RevokeGrant;
    hide Authorized;
    if (s.Calling? || s.CrashInCall?) && Legal(r, s) && r.w.doc.Some? && Propose(r.w.doc.value, s.call, s.env.now).Ok? {
      NewsOf(r.w.doc.value, s.call, s.env.now);
    }
  }

  /** Whose news these are. */
  lemma NewsOf(d: Document, c: Call, now: int)
    requires Propose(d, c, now).Ok?
    ensures c.ApprovalDecide? ==> IsHumanIdentity(c.actor)
    ensures c.ApprovalRequest? || c.RevealClaim? ==> ProjectByName(d, c.project).Some?
  {
    hide Find;
  }
}
