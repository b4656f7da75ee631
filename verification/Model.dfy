/** The vault document: records, lookups, validators, and the sweeps that withdraw capabilities. */
module Model {
  import opened Prelude
  import opened Audit

  type Id = string

  datatype Op = Read | Inject | Run | Reveal | Manage

  /** SHA-256 of a presented credential; distinct credentials have distinct digests. */
  datatype CredDigest = TokenDigest(credential: string)

  datatype Project = Project(id: Id, name: string)
  datatype Secret = Secret(projectId: Id, key: string, value: Bytes)
  datatype Agent = Agent(id: Id, name: string, active: bool, token: CredDigest)
  datatype Grant = Grant(agentId: Id, projectId: Id, ops: seq<Op>, createdAt: int, revokedAt: Option<int>)
  datatype Lease = Lease(id: Id, agentId: Id, projectId: Id, ops: seq<Op>, digest: CredDigest,
                         createdAt: int, expiresAt: int, revokedAt: Option<int>)
  datatype ApprovalStatus = Pending | Approved | Denied | Consumed
  datatype Approval = Approval(id: Id, agentId: Id, projectId: Id, key: string, status: ApprovalStatus,
                               createdAt: int, pendingExpiresAt: int,
                               approvedAt: Option<int>, claimExpiresAt: Option<int>)
  datatype AuditHead = AuditHead(seqNo: nat, hash: Hex)
  datatype Document = Document(projects: seq<Project>, secrets: seq<Secret>, agents: seq<Agent>, grants: seq<Grant>,
                               leases: seq<Lease>, approvals: seq<Approval>, head: AuditHead)

  datatype VaultError =
    | Locked | NotFound | Exists | Permission | InvalidInput | HumanRequired | AuthFailed
    | LeaseExpired | ApprovalPending | ApprovalDenied | ApprovalConsumed | ApprovalExpired
    | SessionExpired | VaultTooLarge | StorageFailed | CorruptVault | AuditRefused(cause: AuditError)

  const MAX_PROJECTS: nat := 256
  const MAX_SECRETS: nat := 10_000
  const MAX_PROJECT_NAME: nat := 64
  const MAX_KEY_LEN: nat := 128
  const MAX_VALUE_LEN: nat := 64 * 1024
  const MAX_AGENTS: nat := 64
  const MAX_LEASES: nat := 1024
  const MAX_APPROVALS: nat := 1024

  /** Wall-clock instants are nanoseconds. */
  const SECOND: int := 1_000_000_000
  const MIN_LEASE_TTL_SECS: nat := 1
  const MAX_LEASE_TTL_SECS: nat := 86_400
  const APPROVAL_PENDING: int := 600 * SECOND
  const APPROVAL_CLAIM: int := 300 * SECOND

  // ----- validators ----------------------------------------------------------

  predicate AsciiLetter(c: char) { 'a' <= c <= 'z' || 'A' <= c <= 'Z' }
  predicate AsciiAlphanumeric(c: char) { AsciiLetter(c) || '0' <= c <= '9' }

  predicate ValidProjectName(name: string) {
    && 1 <= |name| <= MAX_PROJECT_NAME && name != "." && name != ".."
    && forall c :: c in name ==> AsciiAlphanumeric(c) || c in "._-"
  }

  predicate ValidKey(key: string) {
    && 1 <= |key| <= MAX_KEY_LEN
    && (AsciiLetter(key[0]) || key[0] == '_')
    && forall c :: c in key[1..] ==> AsciiAlphanumeric(c) || c == '_'
  }

  // ----- lookups ----------------------------------------------------------------

  function ProjectByName(d: Document, name: string): Option<Project> { Find(d.projects, (p: Project) => p.name == name) }

  function AgentByName(d: Document, name: string): Option<Agent> { Find(d.agents, (a: Agent) => a.name == name) }

  predicate AgentIsActive(d: Document, id: Id) { exists a :: a in d.agents && a.id == id && a.active }

  function SecretOf(d: Document, projectId: Id, key: string): Option<Secret> {
    Find(d.secrets, (s: Secret) => s.projectId == projectId && s.key == key)
  }

  predicate ActiveFor(g: Grant, agentId: Id, projectId: Id) {
    g.agentId == agentId && g.projectId == projectId && g.revokedAt.None?
  }

  function ActiveGrant(d: Document, agentId: Id, projectId: Id): Option<Grant> {
    Find(d.grants, (g: Grant) => ActiveFor(g, agentId, projectId))
  }

  predicate Authorized(d: Document, agentId: Id, projectId: Id, op: Op) {
    var g := ActiveGrant(d, agentId, projectId);
    g.Some? && op in g.value.ops
  }

  predicate Subset(ops: seq<Op>, within: seq<Op>) { forall o :: o in ops ==> o in within }

  // ----- sweeps -----------------------------------------------------------------------

  predicate Open(a: Approval) { a.status == Pending || a.status == Approved }

  function RevokeLease(l: Lease, now: int): Lease {
    if l.revokedAt.None? then l.(revokedAt := Some(now)) else l
  }

  function Deny(a: Approval): Approval { if Open(a) then a.(status := Denied) else a }

  function RevokeAgentLeases(d: Document, agentId: Id, now: int): Document {
    d.(leases := Map(d.leases, (l: Lease) => if l.agentId == agentId then RevokeLease(l, now) else l))
  }

  function DenyAgentApprovals(d: Document, agentId: Id): Document {
    d.(approvals := Map(d.approvals, (a: Approval) => if a.agentId == agentId then Deny(a) else a))
  }

  function GrantOps(d: Document, agentId: Id, projectId: Id): seq<Op> {
    var g := ActiveGrant(d, agentId, projectId);
    if g.Some? then g.value.ops else []
  }

  predicate Uncovered(l: Lease, agentId: Id, projectId: Id, grantOps: seq<Op>) {
    l.agentId == agentId && l.projectId == projectId && !Subset(l.ops, grantOps)
  }

  function RevokeUncoveredLeases(d: Document, agentId: Id, projectId: Id, now: int): Document {
    var grantOps := GrantOps(d, agentId, projectId);
    d.(leases := Map(d.leases, (l: Lease) => if Uncovered(l, agentId, projectId, grantOps) then RevokeLease(l, now) else l))
  }

  function DenyPairIfRevealLost(d: Document, agentId: Id, projectId: Id): Document {
    if Authorized(d, agentId, projectId, Reveal) then d
    else d.(approvals := Map(d.approvals,
                             (a: Approval) => if a.agentId == agentId && a.projectId == projectId then Deny(a) else a))
  }

  /** What `lock_persist` stores: every lease revoked, every open approval denied. */
  function LockedDown(d: Document, now: int): Document {
    d.(leases := Map(d.leases, (l: Lease) => RevokeLease(l, now)), approvals := Map(d.approvals, (a: Approval) => Deny(a)))
  }

  predicate LeaseTerminal(l: Lease, now: int) { now >= l.expiresAt || l.revokedAt.Some? }

  predicate ApprovalTerminal(a: Approval, now: int) {
    || a.status == Consumed || a.status == Denied
    || (a.status == Pending && now >= a.pendingExpiresAt)
    || (a.status == Approved && a.claimExpiresAt.Some? && now >= a.claimExpiresAt.value)
  }

  function LiveLeaseAt(now: int): Lease -> bool { (l: Lease) => !LeaseTerminal(l, now) }

  function LiveApprovalAt(now: int): Approval -> bool { (a: Approval) => !ApprovalTerminal(a, now) }

  /** `purge_terminal`: the surviving rows keep their order. */
  function Purged(d: Document, now: int): (d': Document)
    ensures forall l :: l in d'.leases <==> l in d.leases && !LeaseTerminal(l, now)
    ensures forall a :: a in d'.approvals <==> a in d.approvals && !ApprovalTerminal(a, now)
    ensures forall i, j :: 0 <= i < j < |d'.leases| ==> InOrderIn(d.leases, d'.leases[i], d'.leases[j])
    ensures forall i, j :: 0 <= i < j < |d'.approvals| ==> InOrderIn(d.approvals, d'.approvals[i], d'.approvals[j])
  {
    FilterKeepsOrder(d.leases, LiveLeaseAt(now));
    FilterKeepsOrder(d.approvals, LiveApprovalAt(now));
    d.(leases := Filter(d.leases, LiveLeaseAt(now)), approvals := Filter(d.approvals, LiveApprovalAt(now)))
  }

  // ----- what every reachable document satisfies ------------------------------------------

  predicate UniqueGrants(d: Document) {
    forall i, j :: 0 <= i < j < |d.grants| && d.grants[i].revokedAt.None? && d.grants[j].revokedAt.None?
      ==> d.grants[i].agentId != d.grants[j].agentId || d.grants[i].projectId != d.grants[j].projectId
  }

  predicate UniqueLeases(d: Document) {
    forall i, j :: 0 <= i < j < |d.leases| ==> d.leases[i].digest != d.leases[j].digest && d.leases[i].id != d.leases[j].id
  }

  predicate UniqueApprovals(d: Document) {
    forall i, j :: 0 <= i < j < |d.approvals| ==> d.approvals[i].id != d.approvals[j].id
  }

  /** An unrevoked lease is a non-empty part of the current grant of an active agent. */
  predicate LeaseBacked(d: Document, l: Lease) {
    l.revokedAt.None? ==>
      && l.ops != [] && AgentIsActive(d, l.agentId)
      && forall o :: o in l.ops ==> Authorized(d, l.agentId, l.projectId, o)
  }

  /** An open approval has a live reveal grant of an active agent, and its windows are those of its decision. */
  predicate ApprovalBacked(d: Document, a: Approval) {
    && a.pendingExpiresAt == a.createdAt + APPROVAL_PENDING
    && (Open(a) ==> AgentIsActive(d, a.agentId) && Authorized(d, a.agentId, a.projectId, Reveal))
    && (a.status == Approved ==>
          && a.approvedAt.Some? && a.approvedAt.value < a.pendingExpiresAt
          && a.claimExpiresAt == Some(a.approvedAt.value + APPROVAL_CLAIM))
  }

  predicate DocInv(d: Document) {
    && UniqueGrants(d) && UniqueLeases(d) && UniqueApprovals(d)
    && (forall l :: l in d.leases ==> LeaseBacked(d, l))
    && (forall a :: a in d.approvals ==> ApprovalBacked(d, a))
  }

  // ----- lookups under the invariant -------------------------------------------------------------

  /** The active grant of a pair is the only one, so membership and lookup agree. */
  lemma ActiveGrantIs(d: Document, g: Grant)
    requires UniqueGrants(d) && g in d.grants && g.revokedAt.None?
    ensures ActiveGrant(d, g.agentId, g.projectId) == Some(g)
  {
    forall y | y in d.grants && ActiveFor(y, g.agentId, g.projectId) ensures y == g {
      var i :| 0 <= i < |d.grants| && d.grants[i] == g;
      var j :| 0 <= j < |d.grants| && d.grants[j] == y;
      assert i == j;
    }
    FindUnique(d.grants, (y: Grant) => ActiveFor(y, g.agentId, g.projectId), g);
  }

  lemma LeaseOfDigest(d: Document, l: Lease)
    requires UniqueLeases(d) && l in d.leases
    ensures Find(d.leases, (x: Lease) => x.digest == l.digest) == Some(l)
  {
    forall y | y in d.leases && y.digest == l.digest ensures y == l {
      var i :| 0 <= i < |d.leases| && d.leases[i] == l;
      var j :| 0 <= j < |d.leases| && d.leases[j] == y;
      assert i == j;
    }
    FindUnique(d.leases, (x: Lease) => x.digest == l.digest, l);
  }

  lemma ActiveAgentStays(d: Document, d': Document, id: Id)
    requires AgentIsActive(d, id)
    requires forall a :: a in d.agents && a.active && a.id == id ==> a in d'.agents
    ensures AgentIsActive(d', id)
  {
    var a :| a in d.agents && a.id == id && a.active;
    assert a in d'.agents;
  }

  lemma AuthorizedStays(d: Document, d': Document, agentId: Id, projectId: Id, op: Op)
    requires UniqueGrants(d') && Authorized(d, agentId, projectId, op)
    requires forall g :: g in d.grants && ActiveFor(g, agentId, projectId) ==> g in d'.grants
    ensures Authorized(d', agentId, projectId, op)
  {
    ActiveGrantIs(d', ActiveGrant(d, agentId, projectId).value);
  }
}
