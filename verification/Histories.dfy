/** Whole-run safety of approvals and leases. */
module Histories {
  import opened Prelude
  import opened Audit
  import opened Model
  import opened Capability
  import opened Authority
  import opened Commit
  import opened Lifetime

  // ----- how rows change --------------------------------------------------------------

  predicate ApprovedFrom(a: Approval, a': Approval, id: Id, now: int) {
    && a.id == id && a.status == Pending && now < a.pendingExpiresAt
    && a' == a.(status := Approved, approvedAt := Some(now), claimExpiresAt := Some(now + APPROVAL_CLAIM))
  }

  /** Where a row of the edited document comes from. */
  ghost predicate ApprovalFrom(d: Document, a': Approval, c: Call, now: int) {
    || a' in d.approvals
    || (exists a :: a in d.approvals && Open(a) && a' == a.(status := Denied))
    || (c.ApprovalRequest? && ProjectByName(d, c.project).Some?
        && a' == Approval(c.id, c.agentId, ProjectByName(d, c.project).value.id, c.key, Pending, now, now + APPROVAL_PENDING, None, None))
    || (c.ApprovalDecide? && c.approve && exists a :: a in d.approvals && ApprovedFrom(a, a', c.approvalId, now))
    || (c.RevealClaim? && exists a :: a in d.approvals && a.status == Approved && a' == a.(status := Consumed))
  }

  ghost predicate LeaseFrom(d: Document, l': Lease, c: Call, now: int) {
    || (exists l :: l in d.leases && (l' == l || l' == RevokeLease(l, now)))
    || (c.LeaseCreate? && l'.id == c.id && l'.digest == c.digest)
  }

  lemma SweptRowsFrom(d: Document, d': Document, agentId: Id, projectId: Id, c: Call, now: int)
    requires Swept(d, d', agentId, projectId, now)
    ensures forall a' :: a' in d'.approvals ==> ApprovalFrom(d, a', c, now)
    ensures forall l' :: l' in d'.leases ==> LeaseFrom(d, l', c, now)
  {
    forall a' | a' in d'.approvals ensures ApprovalFrom(d, a', c, now) {
      var k :| 0 <= k < |d'.approvals| && d'.approvals[k] == a';
      assert d.approvals[k] in d.approvals;
    }
    forall l' | l' in d'.leases ensures LeaseFrom(d, l', c, now) {
      var k :| 0 <= k < |d'.leases| && d'.leases[k] == l';
      assert d.leases[k] in d.leases;
    }
  }

  lemma GrantRowsFrom(d: Document, c: Call, now: int)
    requires (c.GrantAdd? || c.GrantRevoke?) && Propose(d, c, now).Ok?
    ensures forall a' :: a' in Propose(d, c, now).value.approvals ==> ApprovalFrom(d, a', c, now)
    ensures forall l' :: l' in Propose(d, c, now).value.leases ==> LeaseFrom(d, l', c, now)
  {
    var a, p := AgentByName(d, c.agent).value.id, ProjectByName(d, c.project).value.id;
    var i := Position(d.grants, (g: Grant) => ActiveFor(g, a, p));
    var d1 := if c.GrantAdd? then UpsertGrant(d, a, p, c.ops, now)
              else d.(grants := d.grants[i := d.grants[i].(revokedAt := Some(now))]);
    hide SweepPair;
    hide Swept;
    hide ActiveFor;
    hide Find;
    SweepPairSweeps(d1, a, p, now);
    SweptRowsFrom(d1, SweepPair(d1, a, p, now), a, p, c, now);
    hide ApprovalFrom;
    hide LeaseFrom;
    assert d1.approvals == d.approvals && d1.leases == d.leases && d1.projects == d.projects;
    forall a' | a' in Propose(d, c, now).value.approvals ensures ApprovalFrom(d, a', c, now) { SameApprovalFrom(d1, d, a', c, now); }
    forall l' | l' in Propose(d, c, now).value.leases ensures LeaseFrom(d, l', c, now) { SameLeaseFrom(d1, d, l', c, now); }
  }

  lemma SameApprovalFrom(d1: Document, d: Document, a': Approval, c: Call, now: int)
    requires d1.approvals == d.approvals && d1.projects == d.projects
    ensures ApprovalFrom(d1, a', c, now) <==> ApprovalFrom(d, a', c, now)
  {
  }

  lemma SameLeaseFrom(d1: Document, d: Document, l': Lease, c: Call, now: int)
    requires d1.leases == d.leases
    ensures LeaseFrom(d1, l', c, now) <==> LeaseFrom(d, l', c, now)
  {
  }

  lemma AgentRowsFrom(d: Document, c: Call, now: int)
    requires c.AgentRevoke? && Propose(d, c, now).Ok?
    ensures forall a' :: a' in Propose(d, c, now).value.approvals ==> ApprovalFrom(d, a', c, now)
    ensures forall l' :: l' in Propose(d, c, now).value.leases ==> LeaseFrom(d, l', c, now)
  {
    var d' := Propose(d, c, now).value;
    forall a' | a' in d'.approvals ensures ApprovalFrom(d, a', c, now) {
      var k :| 0 <= k < |d'.approvals| && d'.approvals[k] == a';
      assert d.approvals[k] in d.approvals;
    }
    forall l' | l' in d'.leases ensures LeaseFrom(d, l', c, now) {
      var k :| 0 <= k < |d'.leases| && d'.leases[k] == l';
      assert d.leases[k] in d.leases;
    }
  }

  lemma CreateRowsFrom(d: Document, c: Call, now: int)
    requires (c.LeaseCreate? || c.ApprovalRequest?) && Propose(d, c, now).Ok?
    ensures forall a' :: a' in Propose(d, c, now).value.approvals ==> ApprovalFrom(d, a', c, now)
    ensures forall l' :: l' in Propose(d, c, now).value.leases ==> LeaseFrom(d, l', c, now)
  {
  }

  lemma LeaseRevocationRowsFrom(d: Document, c: Call, now: int)
    requires c.LeaseRevoke? && Propose(d, c, now).Ok?
    ensures forall a' :: a' in Propose(d, c, now).value.approvals ==> ApprovalFrom(d, a', c, now)
    ensures forall l' :: l' in Propose(d, c, now).value.leases ==> LeaseFrom(d, l', c, now)
  {
    var d' := Propose(d, c, now).value;
    forall l' | l' in d'.leases ensures LeaseFrom(d, l', c, now) {
      var k :| 0 <= k < |d'.leases| && d'.leases[k] == l';
      assert d.leases[k] in d.leases;
    }
  }

  lemma DecisionRowsFrom(d: Document, c: Call, now: int)
    requires (c.ApprovalDecide? || c.RevealClaim?) && Propose(d, c, now).Ok?
    ensures forall a' :: a' in Propose(d, c, now).value.approvals ==> ApprovalFrom(d, a', c, now)
    ensures forall l' :: l' in Propose(d, c, now).value.leases ==> LeaseFrom(d, l', c, now)
  {
    hide Find;
    hide Authorized;
    var d' := Propose(d, c, now).value;
    forall a' | a' in d'.approvals ensures ApprovalFrom(d, a', c, now) {
      var k :| 0 <= k < |d'.approvals| && d'.approvals[k] == a';
      assert d.approvals[k] in d.approvals;
    }
    hide Propose;
  }

  lemma RowsFrom(d: Document, c: Call, now: int)
    requires Propose(d, c, now).Ok?
    ensures forall a' :: a' in Propose(d, c, now).value.approvals ==> ApprovalFrom(d, a', c, now)
    ensures forall l' :: l' in Propose(d, c, now).value.leases ==> LeaseFrom(d, l', c, now)
  {
    match c
    case AgentRevoke(_) => AgentRowsFrom(d, c, now);
    case GrantAdd(_, _, _) => GrantRowsFrom(d, c, now);
    case GrantRevoke(_, _) => GrantRowsFrom(d, c, now);
    case LeaseCreate(_, _, _, _, _, _) => CreateRowsFrom(d, c, now);
    case ApprovalRequest(_, _, _, _) => CreateRowsFrom(d, c, now);
    case LeaseRevoke(_, _) => LeaseRevocationRowsFrom(d, c, now);
    case ApprovalDecide(_, _, _) => DecisionRowsFrom(d, c, now);
    case RevealClaim(_, _, _, _) => DecisionRowsFrom(d, c, now);
    case _ =>
  }

  // ----- what a run's history says about a document --------------------------------------

  /** The approval was requested, and if it is approved, it was decided after that and in time. */
  ghost predicate Explained(a: Approval, h: seq<Happening>, now: int) {
    exists j :: 0 <= j < |h| && h[j] == Requested(a.id, a.agentId, a.projectId, a.key, a.createdAt)
      && (a.status == Approved ==>
            exists k :: j < k < |h| && h[k].Decided? && h[k].id == a.id && h[k].approve
              && a.approvedAt == Some(h[k].at) && a.createdAt <= h[k].at < a.pendingExpiresAt && h[k].at <= now)
  }

  /** This happening ends every approval that was requested as `req` before it. */
  predicate Ends(e: Happening, req: Happening)
    requires req.Requested?
  {
    match e
    case Requested(_, _, _, _, _) => false
    case Decided(id, approve, saved, _) => id == req.id && !approve && saved
    case Revealed(id, _, _, _, _) => id == req.id
    case RevealLost(a, p) => a == req.agentId && p == req.projectId
    case AgentLost(a) => a == req.agentId
    case LockSaved => true
  }

  predicate Settled(d: Document, id: Id) { forall a :: a in d.approvals && a.id == id ==> !Open(a) }

  ghost predicate EndsRespected(d: Document, h: seq<Happening>) {
    forall j, m :: 0 <= j < m < |h| && h[j].Requested? && Ends(h[m], h[j]) ==> Settled(d, h[j].id)
  }

  ghost predicate Known(d: Document, r: Run) {
    && DocInv(d)
    && (forall l :: l in d.leases ==> l.id in r.ids && l.digest in r.digests)
    && (forall a :: a in d.approvals ==> a.id in r.ids && a.createdAt <= r.now && Explained(a, r.history, r.now))
    && EndsRespected(d, r.history)
  }

  predicate RequestsDistinct(r: Run) {
    && (forall j :: 0 <= j < |r.history| && r.history[j].Requested? ==> r.history[j].id in r.ids)
    && (forall i, j :: 0 <= i < j < |r.history| && r.history[i].Requested? && r.history[j].Requested?
          ==> r.history[i].id != r.history[j].id)
  }

  /** The revealed value was requested for this agent, project and key, approved by a human within the pending
      window, and claimed within the claim window; nothing in between ended the request, and it was never
      revealed before. */
  ghost predicate Justified(h: seq<Happening>, i: nat)
    requires i < |h| && h[i].Revealed?
  {
    exists j, k :: 0 <= j < k < i
      && h[j].Requested? && h[j] == Requested(h[i].id, h[i].agentId, h[i].projectId, h[i].key, h[j].at)
      && h[k].Decided? && h[k].id == h[i].id && h[k].approve
      && h[j].at <= h[k].at < h[j].at + APPROVAL_PENDING
      && h[k].at <= h[i].at < h[k].at + APPROVAL_CLAIM
      && (forall m :: j < m < i ==> !Ends(h[m], h[j]))
      && (forall m :: 0 <= m < i && h[m].Revealed? ==> h[m].id != h[i].id)
  }

  ghost predicate AllJustified(h: seq<Happening>) {
    forall i :: 0 <= i < |h| && h[i].Revealed? ==> Justified(h, i)
  }

  ghost predicate Good(r: Run) {
    && Openable(r.w)
    && (forall v :: Version(r.w, v) ==> Known(v, r))
    && RequestsDistinct(r)
    && AllJustified(r.history)
  }

  // ----- keeping it ----------------------------------------------------------------

  lemma ExplainedLater(a: Approval, h: seq<Happening>, now: int, news: seq<Happening>, later: int)
    requires Explained(a, h, now) && now <= later
    ensures Explained(a, h + news, later)
  {
    var g := h + news;
    var j :| 0 <= j < |h| && h[j] == Requested(a.id, a.agentId, a.projectId, a.key, a.createdAt)
      && (a.status == Approved ==>
            exists k :: j < k < |h| && h[k].Decided? && h[k].id == a.id && h[k].approve
              && a.approvedAt == Some(h[k].at) && a.createdAt <= h[k].at < a.pendingExpiresAt && h[k].at <= now);
    assert g[j] == h[j];
    if a.status == Approved {
      var k :| j < k < |h| && h[k].Decided? && h[k].id == a.id && h[k].approve
              && a.approvedAt == Some(h[k].at) && a.createdAt <= h[k].at < a.pendingExpiresAt && h[k].at <= now;
      assert g[k] == h[k];
    }
  }

  /** News that ends nothing still open in this document keeps it known. */
  lemma KnownLater(d: Document, r: Run, r': Run, news: seq<Happening>)
    requires Known(d, r) && r.now <= r'.now && r.ids <= r'.ids && r.digests <= r'.digests
    requires r'.history == r.history + news
    requires forall n, j :: 0 <= n < |news| && 0 <= j < |r'.history| && r'.history[j].Requested? && Ends(news[n], r'.history[j])
               ==> Settled(d, r'.history[j].id)
    ensures Known(d, r')
  {
    forall a | a in d.approvals ensures Explained(a, r'.history, r'.now) {
      ExplainedLater(a, r.history, r.now, news, r'.now);
    }
    forall j, m | 0 <= j < m < |r'.history| && r'.history[j].Requested? && Ends(r'.history[m], r'.history[j])
      ensures Settled(d, r'.history[j].id)
    {
      if m < |r.history| {
        assert r'.history[j] == r.history[j] && r'.history[m] == r.history[m];
      } else {
        assert r'.history[m] == news[m - |r.history|];
      }
    }
  }

  lemma KnownSameRows(d: Document, e: Document, r: Run)
    requires Known(d, r) && SameRows(e, d)
    ensures Known(e, r)
  {
    SameRowsSameInv(d, e);
  }

  /** A settled id stays settled through any edit that does not draw it again. */
  lemma SettledStays(d: Document, d': Document, c: Call, now: int, id: Id)
    requires forall a' :: a' in d'.approvals ==> ApprovalFrom(d, a', c, now)
    requires Settled(d, id) && id !in Draws(c)
    ensures Settled(d', id)
  {
    forall a' | a' in d'.approvals && a'.id == id ensures !Open(a') {
      assert ApprovalFrom(d, a', c, now);
    }
  }

  /** What an edit proposes is known once its own happenings are recorded, apart from what they end. */
  lemma ProposedIsExplained(d: Document, r: Run, c: Call, now: int, saved: bool)
    requires Known(d, r) && r.now <= now && Draws(c) !! r.ids && DrawsDigests(c) !! r.digests
    requires Propose(d, c, now).Ok?
    ensures var d' := Propose(d, c, now).value;
            && DocInv(d')
            && (forall l :: l in d'.leases ==> l.id in r.ids + Draws(c) && l.digest in r.digests + DrawsDigests(c))
            && (forall a :: a in d'.approvals ==> a.id in r.ids + Draws(c) && a.createdAt <= now
                                                   && Explained(a, r.history + Happened(d, c, now, saved), now))
  {
    var d' := Propose(d, c, now).value;
    var news := Happened(d, c, now, saved);
    assert FreshFor(d, c);
    ProposeKeepsInv(d, c, now);
    RowsFrom(d, c, now);
    forall l | l in d'.leases ensures l.id in r.ids + Draws(c) && l.digest in r.digests + DrawsDigests(c) {
      assert LeaseFrom(d, l, c, now);
    }
    forall a' | a' in d'.approvals
      ensures a'.id in r.ids + Draws(c) && a'.createdAt <= now && Explained(a', r.history + news, now)
    {
      RowIsExplained(d, r, c, now, saved, a');
    }
  }

  lemma RowIsExplained(d: Document, r: Run, c: Call, now: int, saved: bool, a': Approval)
    requires Known(d, r) && r.now <= now && Propose(d, c, now).Ok? && ApprovalFrom(d, a', c, now)
    ensures a'.id in r.ids + Draws(c) && a'.createdAt <= now && Explained(a', r.history + Happened(d, c, now, saved), now)
  {
    hide DocInv;
    hide EndsRespected;
    hide Find;
    var news := Happened(d, c, now, saved);
    if c.ApprovalRequest? { assert news == [Requested(c.id, c.agentId, ProjectByName(d, c.project).value.id, c.key, now)]; }
    hide Propose;
    hide Happened;
    if a' in d.approvals {
      ExplainedLater(a', r.history, r.now, news, now);
    } else if exists a :: a in d.approvals && Open(a) && a' == a.(status := Denied) {
      var a :| a in d.approvals && Open(a) && a' == a.(status := Denied);
      ExplainedLater(a, r.history, r.now, news, now);
    } else if c.ApprovalRequest? {
      assert (r.history + news)[|r.history|] == news[0];
    } else if c.RevealClaim? {
      var a :| a in d.approvals && a.status == Approved && a' == a.(status := Consumed);
      ExplainedLater(a, r.history, r.now, news, now);
    } else {
      ApprovedIsExplained(d, r, c, now, saved, a');
    }
  }

  lemma ApprovedIsExplained(d: Document, r: Run, c: Call, now: int, saved: bool, a': Approval)
    requires Known(d, r) && r.now <= now && Propose(d, c, now).Ok? && c.ApprovalDecide? && c.approve
    requires exists a :: a in d.approvals && ApprovedFrom(a, a', c.approvalId, now)
    ensures Explained(a', r.history + Happened(d, c, now, saved), now) && a'.createdAt <= now && a'.id in r.ids
  {
    var a :| a in d.approvals && ApprovedFrom(a, a', c.approvalId, now);
    var h, news := r.history, Happened(d, c, now, saved);
    assert news == [Decided(c.approvalId, true, saved, now)];
    var j :| 0 <= j < |h| && h[j] == Requested(a.id, a.agentId, a.projectId, a.key, a.createdAt);
    assert (h + news)[j] == h[j] && (h + news)[|h|] == news[0];
  }

  /** The edited document respects every end, the step's own included when it was saved. */
  lemma ProposedRespectsEnds(d: Document, r: Run, c: Call, now: int, saved: bool)
    requires Known(d, r) && RequestsDistinct(r) && r.now <= now && Draws(c) !! r.ids && DrawsDigests(c) !! r.digests
    requires Propose(d, c, now).Ok?
    ensures EndsRespected(Propose(d, c, now).value, r.history + Happened(d, c, now, saved))
  {
    var d' := Propose(d, c, now).value;
    var h, news := r.history, Happened(d, c, now, saved);
    var g := h + news;
    RowsFrom(d, c, now);
    ProposedIsExplained(d, r, c, now, saved);
    assert |news| <= 1;
    forall j, m | 0 <= j < m < |g| && g[j].Requested? && Ends(g[m], g[j]) ensures Settled(d', g[j].id) {
      assert j < |h|;
      assert g[j] == h[j];
      if m < |h| {
        assert g[m] == h[m];
        SettledStays(d, d', c, now, g[j].id);
      } else {
        NewsSettle(d, r, c, now, saved, j);
      }
    }
  }

  /** What a saved withdrawal ends is settled in the document it saved. */
  lemma NewsSettle(d: Document, r: Run, c: Call, now: int, saved: bool, j: nat)
    requires Known(d, r) && RequestsDistinct(r) && r.now <= now && Draws(c) !! r.ids && DrawsDigests(c) !! r.digests
    requires Propose(d, c, now).Ok? && |Happened(d, c, now, saved)| == 1
    requires j < |r.history| && r.history[j].Requested? && Ends(Happened(d, c, now, saved)[0], r.history[j])
    ensures Settled(Propose(d, c, now).value, r.history[j].id)
  {
    var d' := Propose(d, c, now).value;
    var req := r.history[j];
    RowsFrom(d, c, now);
    ProposedIsExplained(d, r, c, now, saved);
    forall a' | a' in d'.approvals && a'.id == req.id ensures !Open(a') {
      if Open(a') {
        assert ApprovalBacked(d', a');
        assert a'.id in r.ids;
        OpenRowIsItsRequest(a', r, r.history + Happened(d, c, now, saved), now, j);
        assert a'.agentId == req.agentId && a'.projectId == req.projectId;
        match c
        case ApprovalDecide(_, id, approve) => RowOf(d, d', c, now, a');
        case RevealClaim(_, _, _, id) => RowOf(d, d', c, now, a');
        case AgentRevoke(name) => RowOf(d, d', c, now, a');
        case _ =>
      }
    }
  }

  /** A row's explanation is the request with its id, because request ids are distinct. */
  lemma OpenRowIsItsRequest(a: Approval, r: Run, g: seq<Happening>, now: int, j: nat)
    requires RequestsDistinct(r) && j < |r.history| && r.history[j].Requested? && r.history[j].id == a.id
    requires r.history <= g && |g| == |r.history| + 1 && !g[|r.history|].Requested?
    requires Explained(a, g, now)
    ensures r.history[j] == Requested(a.id, a.agentId, a.projectId, a.key, a.createdAt)
  {
    var i :| 0 <= i < |g| && g[i] == Requested(a.id, a.agentId, a.projectId, a.key, a.createdAt);
    assert g[j] == r.history[j] && g[i] == r.history[i];
    assert i == j;
  }

  /** The row a claim, denial or agent revocation ended is not open afterwards. */
  lemma RowOf(d: Document, d': Document, c: Call, now: int, a': Approval)
    requires UniqueApprovals(d) && Propose(d, c, now) == Ok(d') && a' in d'.approvals
    requires (c.ApprovalDecide? && !c.approve && a'.id == c.approvalId) || (c.RevealClaim? && a'.id == c.approvalId)
          || (c.AgentRevoke? && a'.agentId == d.agents[Position(d.agents, (a: Agent) => a.name == c.name)].id)
    ensures !Open(a')
  {
    var k :| 0 <= k < |d'.approvals| && d'.approvals[k] == a';
  }

  // ----- one step at a time -------------------------------------------------------------

  /** A step that only moves documents between their places, or writes log entries. */
  lemma MovesKeepGood(r: Run, r': Run)
    requires Good(r) && Openable(r'.w) && r.now <= r'.now
    requires r' == r.(w := r'.w, now := r'.now)
    requires forall v :: Version(r'.w, v) ==> Version(r.w, v)
    ensures Good(r')
  {
    assert r'.history == r.history + [];
    forall v | Version(r'.w, v) ensures Known(v, r') { KnownLater(v, r, r', []); }
  }

  /** Nothing in the history ended the request of a row that is still open. */
  lemma OpenMeansNotEnded(d: Document, r: Run, a: Approval, j: nat)
    requires Known(d, r) && AllJustified(r.history) && RequestsDistinct(r)
    requires a in d.approvals && Open(a)
    requires j < |r.history| && r.history[j].Requested? && r.history[j].id == a.id
    ensures forall m :: j < m < |r.history| ==> !Ends(r.history[m], r.history[j])
    ensures forall m :: 0 <= m < |r.history| && r.history[m].Revealed? ==> r.history[m].id != a.id
  {
    var h := r.history;
    assert !Settled(d, a.id);
    forall m | 0 <= m < |h| && h[m].Revealed? ensures h[m].id != a.id {
      assert Justified(h, m);
    }
  }

  lemma RevealIsJustified(d: Document, r: Run, a: Approval, now: int)
    requires Known(d, r) && AllJustified(r.history) && RequestsDistinct(r) && r.now <= now
    requires Claimable(d, a, a.agentId, a.projectId, a.key, now)
    ensures Justified(r.history + [Revealed(a.id, a.agentId, a.projectId, a.key, now)], |r.history|)
  {
    hide AllJustified;
    hide RequestsDistinct;
    hide Explained;
    var h := r.history;
    var g := h + [Revealed(a.id, a.agentId, a.projectId, a.key, now)];
    assert ApprovalBacked(d, a) && Explained(a, h, r.now);
    var j, k := DecisionOf(a, h, r.now);
    OpenMeansNotEnded(d, r, a, j);
    hide Known;
    hide ApprovalBacked;
    assert forall m :: 0 <= m < |h| ==> g[m] == h[m];
  }

  lemma DecisionOf(a: Approval, h: seq<Happening>, now: int) returns (j: nat, k: nat)
    requires Explained(a, h, now) && a.status == Approved
    ensures j < k < |h| && h[j] == Requested(a.id, a.agentId, a.projectId, a.key, a.createdAt)
    ensures h[k].Decided? && h[k].id == a.id && h[k].approve
    ensures a.approvedAt == Some(h[k].at) && a.createdAt <= h[k].at < a.pendingExpiresAt && h[k].at <= now
  {
    j :| 0 <= j < |h| && h[j] == Requested(a.id, a.agentId, a.projectId, a.key, a.createdAt)
      && exists k :: j < k < |h| && h[k].Decided? && h[k].id == a.id && h[k].approve
              && a.approvedAt == Some(h[k].at) && a.createdAt <= h[k].at < a.pendingExpiresAt && h[k].at <= now;
    k :| j < k < |h| && h[k].Decided? && h[k].id == a.id && h[k].approve
              && a.approvedAt == Some(h[k].at) && a.createdAt <= h[k].at < a.pendingExpiresAt && h[k].at <= now;
  }

  /** A successful claim is justified by the history before it. */
  lemma ClaimIsJustified(r: Run, c: Call, now: int)
    requires Good(r) && r.now <= now && r.w.doc.Some? && c.RevealClaim?
    requires Propose(r.w.doc.value, c, now).Ok?
    ensures var g := r.history + Happened(r.w.doc.value, c, now, true);
            |g| == |r.history| + 1 && g[|r.history|].Revealed? && Justified(g, |r.history|)
  {
    var d := r.w.doc.value;
    assert Known(d, r);
    ClaimIff(d, c.agentId, c.project, c.key, c.approvalId, now);
    var a: Approval :| a.id == c.approvalId && Claimable(d, a, c.agentId, ProjectByName(d, c.project).value.id, c.key, now);
    RevealIsJustified(d, r, a, now);
  }

  lemma JustifiedLater(h: seq<Happening>, news: seq<Happening>, i: nat)
    requires i < |h| && h[i].Revealed? && Justified(h, i)
    ensures Justified(h + news, i)
  {
    var g := h + news;
    assert g[..|h|] == h;
    assert forall m :: 0 <= m < |h| ==> g[m] == h[m];
    var j, k :| 0 <= j < k < i
      && h[j].Requested? && h[j] == Requested(h[i].id, h[i].agentId, h[i].projectId, h[i].key, h[j].at)
      && h[k].Decided? && h[k].id == h[i].id && h[k].approve
      && h[j].at <= h[k].at < h[j].at + APPROVAL_PENDING
      && h[k].at <= h[i].at < h[k].at + APPROVAL_CLAIM
      && (forall m :: j < m < i ==> !Ends(h[m], h[j]))
      && (forall m :: 0 <= m < i && h[m].Revealed? ==> h[m].id != h[i].id);
    assert g[j] == h[j] && g[k] == h[k] && g[i] == h[i];
  }

  lemma AllJustifiedLater(h: seq<Happening>, news: seq<Happening>)
    requires AllJustified(h) && |news| <= 1
    requires news != [] && news[0].Revealed? ==> Justified(h + news, |h|)
    ensures AllJustified(h + news)
  {
    forall i | 0 <= i < |h + news| && (h + news)[i].Revealed? ensures Justified(h + news, i) {
      if i < |h| { JustifiedLater(h, news, i); }
    }
  }

  /** Everything a call adds to the books, whatever became of its commit. */
  lemma CallBooks(r: Run, r': Run, c: Call, now: int, saved: bool)
    requires Good(r) && r.now <= now == r'.now && r.w.doc.Some? && Propose(r.w.doc.value, c, now).Ok?
    requires Draws(c) !! r.ids && DrawsDigests(c) !! r.digests
    requires r'.ids == r.ids + Draws(c) && r'.digests == r.digests + DrawsDigests(c)
    requires r'.history == r.history + Happened(r.w.doc.value, c, now, saved)
    ensures RequestsDistinct(r') && AllJustified(r'.history)
    ensures Known(Propose(r.w.doc.value, c, now).value, r')
    ensures !saved ==> forall v :: Version(r.w, v) ==> Known(v, r')
  {
    hide Propose;
    hide Happened;
    hide Known;
    hide Ends;
    hide Openable;
    hide AllJustified;
    hide Justified;
    var d := r.w.doc.value;
    var news := Happened(d, c, now, saved);
    NewsAre(d, c, now, saved);
    ProposedIsKnown(d, r, r', c, now, saved);
    if c.RevealClaim? && saved { ClaimIsJustified(r, c, now); }
    AllJustifiedLater(r.history, news);
    if !saved {
      forall v | Version(r.w, v) ensures Known(v, r') { KnownLater(v, r, r', news); }
    }
  }

  lemma ProposedIsKnown(d: Document, r: Run, r': Run, c: Call, now: int, saved: bool)
    requires Known(d, r) && RequestsDistinct(r) && r.now <= now == r'.now && Propose(d, c, now).Ok?
    requires Draws(c) !! r.ids && DrawsDigests(c) !! r.digests
    requires r'.ids == r.ids + Draws(c) && r'.digests == r.digests + DrawsDigests(c)
    requires r'.history == r.history + Happened(d, c, now, saved)
    ensures Known(Propose(d, c, now).value, r')
  {
    ProposedIsExplained(d, r, c, now, saved);
    ProposedRespectsEnds(d, r, c, now, saved);
    hide Propose;
    hide Happened;
    hide EndsRespected;
    hide Explained;
    hide DocInv;
  }

  /** A call brings at most one piece of news. */
  lemma NewsAre(d: Document, c: Call, now: int, saved: bool)
    requires Propose(d, c, now).Ok?
    ensures var news := Happened(d, c, now, saved);
            |news| <= 1
            && forall e :: e in news ==>
                 && (e.Requested? ==> e.id in Draws(c))
                 && (e.Revealed? ==> c.RevealClaim? && saved)
                 && (!saved ==> forall req: Happening :: req.Requested? ==> !Ends(e, req))
    ensures c.RevealClaim? && saved ==> |Happened(d, c, now, saved)| == 1
  {
  }

  /** A step with no news that only draws randomness and moves documents. */
  lemma QuietKeepsGood(r: Run, r': Run)
    requires Good(r) && Openable(r'.w) && r.now <= r'.now && r.ids <= r'.ids && r.digests <= r'.digests
    requires r'.history == r.history
    requires forall v :: Version(r'.w, v) ==> Version(r.w, v)
    ensures Good(r')
  {
    assert r'.history == r.history + [];
    forall v | Version(r'.w, v) ensures Known(v, r') { KnownLater(v, r, r', []); }
  }

  /** The books after a call, for any world whose documents are old or proposed. */
  lemma CallKeepsGood(r: Run, r': Run, c: Call, now: int, saved: bool)
    requires Good(r) && r.now <= now == r'.now && r.w.doc.Some? && Propose(r.w.doc.value, c, now).Ok?
    requires Draws(c) !! r.ids && DrawsDigests(c) !! r.digests
    requires r'.ids == r.ids + Draws(c) && r'.digests == r.digests + DrawsDigests(c)
    requires r'.history == r.history + Happened(r.w.doc.value, c, now, saved)
    requires Openable(r'.w)
    requires forall v :: Version(r'.w, v) ==>
               SameRows(v, Propose(r.w.doc.value, c, now).value) || (!saved && Version(r.w, v))
    ensures Good(r')
  {
    CallBooks(r, r', c, now, saved);
    forall v | Version(r'.w, v) ensures Known(v, r') {
      if SameRows(v, Propose(r.w.doc.value, c, now).value) {
        KnownSameRows(Propose(r.w.doc.value, c, now).value, v, r');
      }
    }
  }

  /** What a call finds in a good run. */
  lemma GoodIsReady(r: Run, c: Call)
    requires Good(r)
    ensures Openable(r.w) && (r.w.key.Some? <==> r.w.doc.Some?)
    ensures r.w.doc.Some? && Draws(c) !! r.ids && DrawsDigests(c) !! r.digests ==>
              DocInv(r.w.doc.value) && FreshFor(r.w.doc.value, c)
  {
    if r.w.doc.Some? { assert Known(r.w.doc.value, r); }
    hide DocInv;
    hide Explained;
    hide EndsRespected;
  }

  lemma CallingKeepsGood(r: Run, s: Step)
    requires Good(r) && Legal(r, s) && s.Calling?
    ensures Good(Advance(r, s))
  {
    hide Good;
    hide Openable;
    hide Perform;
    hide Propose;
    hide DocInv;
    hide FreshFor;
    hide Happened;
    var c, now := s.call, s.env.now;
    var saved := Perform(r.w, s.actor, c, s.env).result.Ok?;
    GoodIsReady(r, c);
    PerformVersions(r.w, s.actor, c, s.env);
    if r.w.doc.Some? && Propose(r.w.doc.value, c, now).Ok? {
      CallKeepsGood(r, Advance(r, s), c, now, saved);
    } else {
      assert Advance(r, s).history == r.history by { if r.w.doc.Some? { NoNews(r.w.doc.value, c, now, saved); } }
      QuietKeepsGood(r, Advance(r, s));
    }
  }

  /** A restart finds one document, on disk, and it is a version of either world. */
  lemma RestartFinds(w: World, after: World, renamed: bool)
    requires Openable(w) && Openable(after) && w.log <= after.log
    ensures var found := if renamed then after else after.(disk := w.disk);
            && Openable(Restarted(found))
            && (forall v :: Version(Restarted(found), v) ==> v == found.disk)
            && Version(after, after.disk) && Version(w, w.disk)
  {
    NamedAcross(w.log, after.log, w.disk);
    LoadKeepsOpenable(if renamed then after else after.(disk := w.disk));
  }

  lemma CrashInCallKeepsGood(r: Run, s: Step)
    requires Good(r) && Legal(r, s) && s.CrashInCall?
    ensures Good(Advance(r, s))
  {
    hide Good;
    hide Openable;
    hide Perform;
    hide Propose;
    hide Load;
    hide DocInv;
    hide FreshFor;
    hide Happened;
    var c, now := s.call, s.env.now;
    var after := Perform(r.w, s.actor, c, s.env).world;
    var r' := Advance(r, s);
    GoodIsReady(r, c);
    PerformVersions(r.w, s.actor, c, s.env);
    RestartFinds(r.w, after, s.renamed);
    if r.w.doc.Some? && Propose(r.w.doc.value, c, now).Ok? {
      CallKeepsGood(r, r', c, now, false);
    } else {
      assert r'.history == r.history by { if r.w.doc.Some? { NoNews(r.w.doc.value, c, now, false); } }
      QuietKeepsGood(r, r');
    }
  }

  lemma NoNews(d: Document, c: Call, now: int, saved: bool)
    requires Propose(d, c, now).Err?
    ensures Happened(d, c, now, saved) == []
  {
  }

  /** The locked-down document is known even after the lock is recorded: nothing in it is open. */
  lemma LockedDownIsKnown(d: Document, r: Run, r': Run, news: seq<Happening>)
    requires Known(d, r) && r.now <= r'.now && r'.ids == r.ids && r'.digests == r.digests
    requires r'.history == r.history + news && (news == [] || news == [LockSaved])
    ensures Known(LockedDown(d, r'.now), r')
  {
    var d' := LockedDown(d, r'.now);
    LockKeepsInv(d, r'.now);
    forall l | l in d'.leases ensures l.id in r'.ids && l.digest in r'.digests {
      var k :| 0 <= k < |d'.leases| && d'.leases[k] == l;
      assert d.leases[k] in d.leases;
    }
    forall a | a in d'.approvals ensures a.id in r'.ids && a.createdAt <= r'.now && Explained(a, r'.history, r'.now) && !Open(a) {
      var k :| 0 <= k < |d'.approvals| && d'.approvals[k] == a;
      assert d.approvals[k] in d.approvals;
      ExplainedLater(d.approvals[k], r.history, r.now, news, r'.now);
    }
  }

  lemma LockVersions(r: Run, env: Env)
    requires Good(r) && r.w.doc.Some?
    ensures var d := r.w.doc.value;
            var out := CommitWith(r.w, LockedDown(d, env.now), LockBody(env), Lifecycle, env.io);
            && Openable(out.world) && r.w.log <= out.world.log
            && (out.world.envelope == r.w.envelope || SameRows(out.world.envelope, LockedDown(d, env.now)))
            && (out.result.Ok? ==> SameRows(out.world.envelope, LockedDown(d, env.now)) && out.world.disk == out.world.envelope)
            && (out.result.Err? ==> out.world.disk == r.w.disk)
  {
    CommitEffect(r.w, LockedDown(r.w.doc.value, env.now), LockBody(env), Lifecycle, env.io);
  }

  /** Any world whose documents are old or locked down. */
  lemma LockedKeepsGood(r: Run, r': Run, news: seq<Happening>)
    requires Good(r) && r.w.doc.Some? && r.now <= r'.now && r'.ids == r.ids && r'.digests == r.digests && Openable(r'.w)
    requires r'.history == r.history + news && (news == [] || news == [LockSaved])
    requires forall v :: Version(r'.w, v) ==> SameRows(v, LockedDown(r.w.doc.value, r'.now)) || (news == [] && Version(r.w, v))
    ensures Good(r')
  {
    var d := r.w.doc.value;
    LockedDownIsKnown(d, r, r', news);
    AllJustifiedLater(r.history, news);
    forall v | Version(r'.w, v) ensures Known(v, r') {
      if SameRows(v, LockedDown(d, r'.now)) { KnownSameRows(LockedDown(d, r'.now), v, r'); }
      else { KnownLater(v, r, r', news); }
    }
    hide Known;
    hide Openable;
    hide AllJustified;
    hide LockedDown;
  }

  lemma LockingKeepsGood(r: Run, s: Step)
    requires Good(r) && Legal(r, s) && s.Locking?
    ensures Good(Advance(r, s))
  {
    var r' := Advance(r, s);
    if r.w.doc.Some? {
      LockVersions(r, s.env);
      var saved := CommitWith(r.w, LockedDown(r.w.doc.value, s.env.now), LockBody(s.env), Lifecycle, s.env.io).result.Ok?;
      var news := if saved then [LockSaved] else [];
      assert r'.history == r.history + news;
      LockedKeepsGood(r, r', news);
    } else {
      assert r'.history == r.history + [];
      MovesKeepGood(r, r');
    }
    hide Good;
  }

  lemma CrashInLockKeepsGood(r: Run, s: Step)
    requires Good(r) && Legal(r, s) && s.CrashInLock?
    ensures Good(Advance(r, s))
  {
    var r' := Advance(r, s);
    var after := LockPersist(r.w, LockBody(s.env), s.env.now, s.env.io);
    assert r'.history == r.history + [];
    if r.w.doc.Some? {
      LockVersions(r, s.env);
      RestartFinds(r.w, after, s.renamed);
      LockedKeepsGood(r, r', []);
    } else {
      LoadKeepsOpenable(after);
      MovesKeepGood(r, r');
    }
    hide Good;
  }

  lemma CollectingKeepsGood(r: Run, s: Step)
    requires Good(r) && Legal(r, s) && s.Collect?
    ensures Good(Advance(r, s))
  {
    var r' := Advance(r, s);
    assert r'.history == r.history + [];
    assert Openable(r'.w) by { hide Purged; }
    forall v | Version(r'.w, v) ensures Known(v, r') {
      hide Purged;
      if Version(r.w, v) { KnownLater(v, r, r', []); } else { PurgedIsKnown(r.w.doc.value, r, r'); }
    }
    hide Known;
    hide Openable;
    hide AllJustified;
    hide Purged;
  }

  lemma PurgedIsKnown(d: Document, r: Run, r': Run)
    requires Known(d, r) && r.now <= r'.now && r.ids <= r'.ids && r.digests <= r'.digests && r'.history == r.history
    ensures Known(Purged(d, r'.now), r')
  {
    assert r'.history == r.history + [];
    KnownLater(d, r, r', []);
    PurgeKeepsInv(d, r'.now);
    hide DocInv;
    hide Explained;
    hide Ends;
  }

  lemma AuthorizingKeepsGood(r: Run, s: Step)
    requires Good(r) && Legal(r, s) && s.Authorizing?
    ensures Good(Advance(r, s))
    ensures var w' := Advance(r, s).w; w' == r.w.(handle := w'.handle, log := w'.log)
  {
    var me := "agent:" + s.agentId;
    if r.w.key.None? {
      NoteKeepsOpenable(r.w, DeniedBody(me, "authorize", Locked, s.env), r.w.key, Ordinary, s.env.denial);
    } else if r.w.doc.Some? {
      assert Known(r.w.doc.value, r);
      AuthorizeIff(r.w.doc.value, s.agentId, s.project, s.op, s.credential, s.env.now);
      match Authorize(r.w.doc.value, s.agentId, s.project, s.op, s.credential, s.env.now)
      case Allowed(actor) =>
        NoteKeepsOpenable(r.w, AllowedBody(actor, "authorize", s.env), r.w.key, Ordinary, s.env.denial);
      case Refused(e) =>
        NoteKeepsOpenable(r.w, DeniedBody(me, "authorize", e, s.env), r.w.key, Ordinary, s.env.denial);
      case Invalidate(_) =>
    }
    MovesKeepGood(r, Advance(r, s));
  }

  lemma UnlockMovesNothing(w: World, right: bool, success: Body, refused: Body, fault: AppendFault)
    ensures forall v :: Version(Unlock(w, right, success, refused, fault).world, v) ==> Version(w, v)
  {
    hide Append;
    hide Accepts;
    hide Coherent;
  }

  lemma UnlockingKeepsGood(r: Run, s: Step)
    requires Good(r) && Legal(r, s) && s.Unlocking?
    ensures Good(Advance(r, s))
  {
    var success, refused := AllowedBody("human", "vault.unlocked", s.env), DeniedBody("human", "vault.unlock", AuthFailed, s.env);
    UnlockMovesNothing(r.w, s.right, success, refused, s.env.denial);
    assert Openable(r.w);
    DoKeepsOpenable(r.w, Unlocks(s.right, success, refused, s.env.denial));
    hide Good;
    hide Openable;
    hide Unlock;
    MovesKeepGood(r, Advance(r, s));
  }

  lemma NotingKeepsGood(r: Run, s: Step)
    requires Good(r) && Legal(r, s) && s.Noting?
    ensures Good(Advance(r, s))
  {
    NoteKeepsOpenable(r.w, s.body, if s.maced then r.w.key else None, s.priority, s.env.denial);
    hide Good;
    hide Openable;
    hide Note;
    MovesKeepGood(r, Advance(r, s));
  }

  lemma RestartKeepsGood(r: Run, s: Step)
    requires Good(r) && Legal(r, s) && s.Restart?
    ensures Good(Advance(r, s))
  {
    assert Openable(r.w);
    RestartFinds(r.w, r.w, true);
    hide Good;
    hide Openable;
    hide Load;
    MovesKeepGood(r, Advance(r, s));
  }

  lemma AdvanceKeepsGood(r: Run, s: Step)
    requires Good(r)
    ensures Good(Advance(r, s))
  {
    hide Good;
    if Legal(r, s) {
      match s
      case Calling(_, _, _) => CallingKeepsGood(r, s);
      case CrashInCall(_, _, _, _) => CrashInCallKeepsGood(r, s);
      case Authorizing(_, _, _, _, _) => AuthorizingKeepsGood(r, s);
      case Locking(_) => LockingKeepsGood(r, s);
      case CrashInLock(_, _) => CrashInLockKeepsGood(r, s);
      case Collect(_) => CollectingKeepsGood(r, s);
      case Unlocking(_, _) => UnlockingKeepsGood(r, s);
      case Noting(_, _, _, _) => NotingKeepsGood(r, s);
      case Restart(_) => RestartKeepsGood(r, s);
    }
  }

  // ----- the theorems ---------------------------------------------------------------------

  /** A vault as `create` leaves it. */
  predicate Newborn(r: Run) {
    && Openable(r.w) && r.w.disk == r.w.envelope && r.w.doc == Some(r.w.envelope) && r.history == []
    && r.w.envelope == Document([], [], [], [], [], [], r.w.envelope.head)
  }

  lemma CreatedIsNewborn(owner: Key, limits: Limits, body: Body, head: AuditHead, now: int)
    requires Create(owner, limits, [], body, Document([], [], [], [], [], [], head), NoFault, false).1.Ok?
    ensures Newborn(Run.Run(Create(owner, limits, [], body, Document([], [], [], [], [], [], head), NoFault, false).1.value,
                        now, {}, {}, []))
  {
    CreateIsOpenable(owner, limits, [], body, Document([], [], [], [], [], [], head), NoFault);
  }

  lemma NewbornIsGood(r: Run)
    requires Newborn(r)
    ensures Good(r)
  {
  }

  /** Over every run of operations, refusals, failures, locks, unlocks and crashes: each revealed value was
      requested, approved by a human in time, and claimed in time, with nothing in between that withdrew it and no
      earlier reveal of the same approval. Every copy of the document satisfies the document invariant throughout. */
  lemma {:induction false} EveryRevealWasApproved(r: Run, steps: seq<Step>)
    requires Newborn(r)
    ensures Good(Play(r, steps))
    ensures forall v :: Version(Play(r, steps).w, v) ==> DocInv(v)
    ensures AllJustified(Play(r, steps).history)
  {
    if steps == [] {
      NewbornIsGood(r);
    } else {
      EveryRevealWasApproved(r, steps[..|steps| - 1]);
      AdvanceKeepsGood(Play(r, steps[..|steps| - 1]), steps[|steps| - 1]);
    }
  }

  /** The claim comes less than 900 seconds after the request. */
  lemma JustifiedWithin900Seconds(h: seq<Happening>, i: nat)
    requires i < |h| && h[i].Revealed? && Justified(h, i)
    ensures exists j :: 0 <= j < i && h[j].Requested? && h[j].id == h[i].id && h[j].agentId == h[i].agentId
              && h[j].projectId == h[i].projectId && h[j].key == h[i].key && 0 <= h[i].at - h[j].at < 900 * SECOND
  {
  }
}
