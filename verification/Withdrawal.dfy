/** Whole-run safety of withdrawn authority: no step widens it without a record, and a dead lease stays dead. */
module Withdrawal {
  import opened Prelude
  import opened Audit
  import opened Model
  import opened Capability
  import opened Authority
  import opened Commit
  import opened Lifetime
  import opened Histories
  import opened Copies
  import opened Effects

  // ----- widening is recorded ---------------------------------------------------------------

  ghost predicate ConferredBefore(w: World, p: Power) { exists v :: Version(w, v) && Confers(v, p) }

  lemma SameRowsConfer(d: Document, e: Document, p: Power)
    requires SameRows(d, e)
    ensures Confers(d, p) <==> Confers(e, p)
  {
    assert forall a, q :: ActiveGrant(d, a, q) == ActiveGrant(e, a, q);
    if p.UseLease? {
      forall l ensures LiveLease(d, l, p.digest, p.agentId, p.projectId, p.op, p.at)
                  <==> LiveLease(e, l, p.digest, p.agentId, p.projectId, p.op, p.at) {}
    }
  }

  /** A commit confers something new only in a copy whose checkpoint is its entry. */
  lemma CommitWidensOnRecord(w: World, d': Document, body: Body, priority: Priority, io: CommitIo, v': Document, p: Power)
    requires Openable(w) && w.doc.Some? && d'.head == w.doc.value.head
    requires priority == Lifecycle ==> Shrinks(w.doc.value, d')
    requires Version(CommitWith(w, d', body, priority, io).world, v') && Confers(v', p)
    ensures ConferredBefore(w, p) || RecordedAtHead(w.log, CommitWith(w, d', body, priority, io).world.log, v', body)
  {
    CommitEffect(w, d', body, priority, io);
    if !Version(w, v') {
      assert v' == CommitWith(w, d', body, priority, io).world.envelope;
      if priority == Lifecycle {
        SameRowsConfer(v', d', p);
        assert Confers(w.doc.value, p) && Version(w, w.doc.value);
      }
    }
  }

  lemma CallWidensOnRecord(r: Run, actor: string, c: Call, env: Env, v': Document, p: Power)
    requires Good(r)
    requires Version(Perform(r.w, actor, c, env).world, v') && Confers(v', p)
    ensures ConferredBefore(r.w, p)
         || RecordedAtHead(r.w.log, Perform(r.w, actor, c, env).world.log, v', AllowedBody(actor, OpName(c), env))
  {
    if r.w.doc.Some? && Propose(r.w.doc.value, c, env.now).Ok? {
      var d := r.w.doc.value;
      assert Known(d, r);
      PerformCommits(r.w, actor, c, env);
      ProposeKeepsHead(d, c, env.now);
      if PriorityOf(d, c) == Lifecycle { LifecycleOnlyShrinks(d, c, env.now); }
      CommitWidensOnRecord(r.w, Propose(d, c, env.now).value, AllowedBody(actor, OpName(c), env), PriorityOf(d, c), env.io, v', p);
    } else {
      PerformVersions(r.w, actor, c, env);
      assert Version(r.w, v');
    }
  }

  /** The body a step would record. */
  function BodyOf(s: Step): Body
    requires s.Calling? || s.CrashInCall?
  {
    AllowedBody(s.actor, OpName(s.call), s.env)
  }

  lemma LockWidensNothing(r: Run, env: Env, v': Document, p: Power)
    requires Good(r) && Confers(v', p)
    requires Version(r.w, v') || (r.w.doc.Some? && SameRows(v', LockedDown(r.w.doc.value, env.now)))
    ensures ConferredBefore(r.w, p)
  {
    if !Version(r.w, v') {
      LockOnlyShrinks(r.w.doc.value, env.now);
      SameRowsConfer(v', LockedDown(r.w.doc.value, env.now), p);
      assert Confers(r.w.doc.value, p);
    }
  }

  lemma PurgeWidensNothing(d: Document, now: int, p: Power)
    requires Confers(Purged(d, now), p)
    ensures Confers(d, p)
  {
    assert forall a, q :: ActiveGrant(Purged(d, now), a, q) == ActiveGrant(d, a, q);
    if p.UseLease? {
      var l :| LiveLease(Purged(d, now), l, p.digest, p.agentId, p.projectId, p.op, p.at);
      assert LiveLease(d, l, p.digest, p.agentId, p.projectId, p.op, p.at);
    }
  }

  lemma LockStepWidensNothing(r: Run, s: Step, v': Document, p: Power)
    requires Good(r) && Legal(r, s) && (s.Locking? || s.CrashInLock?)
    requires Version(Advance(r, s).w, v') && Confers(v', p)
    ensures ConferredBefore(r.w, p)
  {
    hide Good;
    hide Confers;
    hide Advance;
    hide LockedDown;
    VersionsEvolve(r, s, v');
    LockWidensNothing(r, s.env, v', p);
  }

  lemma CrashWidensOnRecord(r: Run, s: Step, v': Document, p: Power)
    requires Good(r) && Legal(r, s) && s.CrashInCall?
    requires Version(Advance(r, s).w, v') && Confers(v', p)
    ensures ConferredBefore(r.w, p) || RecordedAtHead(r.w.log, Advance(r, s).w.log, v', BodyOf(s))
  {
    var after := Perform(r.w, s.actor, s.call, s.env).world;
    hide Good;
    hide Perform;
    hide Openable;
    hide Propose;
    hide DocInv;
    hide FreshFor;
    hide Confers;
    hide RecordedAtHead;
    GoodIsReady(r, s.call);
    PerformVersions(r.w, s.actor, s.call, s.env);
    RestartFinds(r.w, after, s.renamed);
    var found := if s.renamed then after else after.(disk := r.w.disk);
    LogStays(found);
    hide Load;
    if v' == after.disk {
      CallWidensOnRecord(r, s.actor, s.call, s.env, v', p);
    } else {
      assert v' == r.w.disk;
    }
  }

  lemma LogStays(w: World)
    ensures Restarted(w).log == w.log
  {
    hide Accepts;
  }

  lemma CollectWidensNothing(r: Run, s: Step, v': Document, p: Power)
    requires Legal(r, s) && s.Collect? && Version(Advance(r, s).w, v') && Confers(v', p)
    ensures ConferredBefore(r.w, p)
  {
    if !Version(r.w, v') {
      PurgeWidensNothing(r.w.doc.value, s.env.now, p);
      assert Version(r.w, r.w.doc.value);
    }
    hide Confers;
  }

  lemma StepWidensOnRecord(r: Run, s: Step, v': Document, p: Power)
    requires Good(r) && Version(Advance(r, s).w, v') && Confers(v', p) && !ConferredBefore(r.w, p)
    ensures (s.Calling? || s.CrashInCall?) && RecordedAtHead(r.w.log, Advance(r, s).w.log, v', BodyOf(s))
  {
    hide Good;
    hide Perform;
    hide Confers;
    hide RecordedAtHead;
    assert !Version(r.w, v');
    if !Legal(r, s) || s.Authorizing? || s.Unlocking? || s.Noting? || s.Restart? { QuietStepKeepsVersions(r, s); }
    else if s.Calling? { CallWidensOnRecord(r, s.actor, s.call, s.env, v', p); }
    else if s.CrashInCall? { CrashWidensOnRecord(r, s, v', p); }
    else if s.Collect? { CollectWidensNothing(r, s, v', p); }
    else { LockStepWidensNothing(r, s, v', p); }
  }

  /** In every run, a power that some copy of the document confers after a step, and no copy conferred before it,
      comes from an operation whose entry is that copy's checkpoint. Revocations, narrowings, locks, unlocks,
      restarts and crashes never create one. */
  lemma WideningIsRecorded(newborn: Run, before: seq<Step>, s: Step, v': Document, p: Power)
    requires Newborn(newborn)
    requires Version(Advance(Play(newborn, before), s).w, v') && Confers(v', p)
    requires !ConferredBefore(Play(newborn, before).w, p)
    ensures (s.Calling? || s.CrashInCall?)
         && RecordedAtHead(Play(newborn, before).w.log, Advance(Play(newborn, before), s).w.log, v', BodyOf(s))
  {
    EveryRevealWasApproved(newborn, before);
    StepWidensOnRecord(Play(newborn, before), s, v', p);
  }

  // ----- leases ------------------------------------------------------------------------------

  predicate Dead(d: Document, digest: CredDigest, now: int) {
    forall l :: l in d.leases && l.digest == digest ==> l.revokedAt.Some? || now >= l.expiresAt
  }

  ghost predicate DeadEverywhere(w: World, digest: CredDigest, now: int) {
    forall v :: Version(w, v) ==> Dead(v, digest, now)
  }

  lemma DeadThroughEdit(d: Document, c: Call, now: int, digest: CredDigest)
    requires Propose(d, c, now).Ok? && Dead(d, digest, now) && digest !in DrawsDigests(c)
    ensures Dead(Propose(d, c, now).value, digest, now)
  {
    RowsFrom(d, c, now);
    forall l' | l' in Propose(d, c, now).value.leases && l'.digest == digest
      ensures l'.revokedAt.Some? || now >= l'.expiresAt
    {
      assert LeaseFrom(d, l', c, now);
    }
  }

  lemma DeadThroughSweeps(d: Document, now: int, digest: CredDigest)
    ensures Dead(LockedDown(d, now), digest, now)
    ensures Dead(d, digest, now) ==> Dead(Purged(d, now), digest, now)
  {
    forall l' | l' in LockedDown(d, now).leases ensures l'.revokedAt.Some? {
      var k :| 0 <= k < |d.leases| && LockedDown(d, now).leases[k] == l';
    }
  }

  lemma DerivedKeepsDead(d: Document, s: Step, d': Document, digest: CredDigest)
    requires Dead(d, digest, s.env.now) && Derived(d, s, d')
    requires s.Calling? || s.CrashInCall? ==> digest !in DrawsDigests(s.call)
    ensures Dead(d', digest, s.env.now)
  {
    hide Propose;
    hide LockedDown;
    hide Purged;
    if s.Calling? || s.CrashInCall? { DeadThroughEdit(d, s.call, s.env.now, digest); } else { DeadThroughSweeps(d, s.env.now, digest); }
  }

  lemma DeadLater(d: Document, digest: CredDigest, before: int, now: int)
    requires Dead(d, digest, before) && before <= now
    ensures Dead(d, digest, now)
  {
  }

  lemma AdvanceKeepsDead(r: Run, s: Step, digest: CredDigest)
    requires Good(r) && digest in r.digests && DeadEverywhere(r.w, digest, r.now)
    ensures DeadEverywhere(Advance(r, s).w, digest, Advance(r, s).now) && digest in Advance(r, s).digests
  {
    var now := Advance(r, s).now;
    IdsStay(r, s);
    TimeMovesOn(r, s);
    forall v | Version(Advance(r, s).w, v) ensures Dead(v, digest, now) {
      VersionsEvolve(r, s, v);
      if Version(r.w, v) {
        DeadLater(v, digest, r.now, now);
      } else {
        DeadLater(r.w.doc.value, digest, r.now, now);
        DerivedKeepsDead(r.w.doc.value, s, v, digest);
      }
    }
    hide Good;
    hide Advance;
    hide Dead;
    hide Derived;
  }

  lemma TimeMovesOn(r: Run, s: Step)
    ensures r.now <= Advance(r, s).now && (Legal(r, s) ==> Advance(r, s).now == s.env.now)
  {
    hide Perform;
    hide AuthorizeStep;
    hide LockPersist;
    hide UnlockStep;
    hide Note;
    hide Load;
    hide Happened;
    hide CommitWith;
  }

  /** A lease that is revoked or expired in every copy of the document never authorizes again, whatever
      happens: re-granting, failed saves, locks, unlocks, restarts and crashes included. */
  lemma {:induction false} DeadLeasesStayDead(r: Run, steps: seq<Step>, credential: string)
    requires Good(r) && TokenDigest(credential) in r.digests && DeadEverywhere(r.w, TokenDigest(credential), r.now)
    ensures var r' := Play(r, steps);
            && Good(r') && TokenDigest(credential) in r'.digests && DeadEverywhere(r'.w, TokenDigest(credential), r'.now)
            && forall agentId, project, op, env: Env :: r'.now <= env.now ==>
                 AuthorizeStep(r'.w, agentId, project, op, Some(credential), env).1.Err?
  {
    if steps == [] {
    } else {
      var before := Play(r, steps[..|steps| - 1]);
      DeadLeasesStayDead(r, steps[..|steps| - 1], credential);
      AdvanceKeepsGood(before, steps[|steps| - 1]);
      AdvanceKeepsDead(before, steps[|steps| - 1], TokenDigest(credential));
    }
    hide Good;
    hide DeadEverywhere;
    hide Advance;
    hide AuthorizeStep;
    var r' := Play(r, steps);
    forall agentId, project, op, env: Env | r'.now <= env.now
      ensures AuthorizeStep(r'.w, agentId, project, op, Some(credential), env).1.Err?
    {
      DeadIsRefused(r', credential, agentId, project, op, env);
    }
  }

  lemma DeadIsRefused(r: Run, credential: string, agentId: Id, project: string, op: Op, env: Env)
    requires Good(r) && DeadEverywhere(r.w, TokenDigest(credential), r.now) && r.now <= env.now
    ensures AuthorizeStep(r.w, agentId, project, op, Some(credential), env).1.Err?
  {
    if r.w.doc.Some? {
      assert Known(r.w.doc.value, r) && Dead(r.w.doc.value, TokenDigest(credential), r.now);
      AuthorizeIff(r.w.doc.value, agentId, project, op, Some(credential), env.now);
    }
    hide Good;
    hide Known;
    hide Authorize;
  }

  // ----- a lease keeps its terms ------------------------------------------------------------------

  /** The same lease, revoked or not. */
  predicate SameTerms(l: Lease, x: Lease) { x == l.(revokedAt := x.revokedAt) }

  /** The row with this digest, if it is there, has these terms. */
  predicate KeepsTerms(d: Document, l: Lease) { forall x :: x in d.leases && x.digest == l.digest ==> SameTerms(l, x) }

  ghost predicate TermsEverywhere(w: World, l: Lease) { forall v :: Version(w, v) ==> KeepsTerms(v, l) }

  /** The copies agree on the terms of every lease any of them holds. */
  ghost predicate Agreeing(w: World) { forall v, l :: Version(w, v) && l in v.leases ==> TermsEverywhere(w, l) }

  ghost predicate LeaseOf(d: Document, l': Lease) { exists l :: l in d.leases && SameTerms(l, l') }

  /** Edits, locks and purges change nothing about a lease but whether it is revoked. */
  lemma DerivedLease(d: Document, s: Step, d': Document, l': Lease)
    requires Derived(d, s, d') && l' in d'.leases
    ensures LeaseOf(d, l') || ((s.Calling? || s.CrashInCall?) && l'.digest in DrawsDigests(s.call))
  {
    if s.Calling? || s.CrashInCall? {
      RowsFrom(d, s.call, s.env.now);
      assert LeaseFrom(d, l', s.call, s.env.now);
      hide Propose;
    } else if !s.Collect? {
      var k :| 0 <= k < |d'.leases| && d'.leases[k] == l';
      assert d.leases[k] in d.leases && l' == RevokeLease(d.leases[k], s.env.now);
      hide Propose;
    } else {
      assert l' in d.leases && SameTerms(l', l');
      hide Propose;
    }
  }

  lemma TermsChain(l: Lease, m: Lease, x: Lease)
    requires SameTerms(l, m)
    ensures SameTerms(l, x) <==> SameTerms(m, x)
  {
  }

  /** A lease already drawn keeps its terms in every copy through every step. */
  lemma AdvanceKeepsTerms(r: Run, s: Step, l: Lease)
    requires Good(r) && TermsEverywhere(r.w, l) && l.digest in r.digests
    ensures TermsEverywhere(Advance(r, s).w, l) && l.digest in Advance(r, s).digests
  {
    IdsStay(r, s);
    forall v, x | Version(Advance(r, s).w, v) && x in v.leases && x.digest == l.digest ensures SameTerms(l, x) {
      VersionsEvolve(r, s, v);
      if Version(r.w, v) {
        assert KeepsTerms(v, l);
      } else {
        DerivedLease(r.w.doc.value, s, v, x);
        var m :| m in r.w.doc.value.leases && SameTerms(m, x);
        assert KeepsTerms(r.w.doc.value, l) && SameTerms(l, m);
        TermsChain(l, m, x);
      }
    }
    hide Good;
    hide Advance;
    hide Derived;
  }

  /** A lease of some copy after a step was one before it, or was drawn by the step. */
  lemma LeaseBefore(r: Run, s: Step, v: Document, l: Lease)
    requires Good(r) && Version(Advance(r, s).w, v) && l in v.leases
    ensures (exists u :: Version(r.w, u) && LeaseOf(u, l))
         || (Legal(r, s) && (s.Calling? || s.CrashInCall?) && r.w.doc.Some? && Derived(r.w.doc.value, s, v)
             && l.digest in DrawsDigests(s.call))
  {
    VersionsEvolve(r, s, v);
    if Version(r.w, v) {
      assert SameTerms(l, l);
      assert LeaseOf(v, l);
    } else {
      DerivedLease(r.w.doc.value, s, v, l);
      assert Version(r.w, r.w.doc.value);
    }
    hide Good;
    hide Advance;
    hide Derived;
  }

  /** A lease the step drew: only the edited document holds it, once. */
  lemma DrawnLeaseAgrees(r: Run, s: Step, v: Document, l: Lease, u: Document, x: Lease)
    requires Good(r) && Legal(r, s) && (s.Calling? || s.CrashInCall?) && r.w.doc.Some? && Good(Advance(r, s))
    requires Version(Advance(r, s).w, v) && l in v.leases && Derived(r.w.doc.value, s, v) && l.digest in DrawsDigests(s.call)
    requires Version(Advance(r, s).w, u) && x in u.leases && x.digest == l.digest
    ensures x == l
  {
    VersionsEvolve(r, s, u);
    if Version(r.w, u) {
      assert false;
    } else {
      assert u.leases == v.leases;
      assert Known(v, Advance(r, s));
      LeaseOfDigest(v, l);
      LeaseOfDigest(v, x);
    }
    hide Advance;
    hide Propose;
    hide Openable;
  }

  lemma AdvanceKeepsAgreeing(r: Run, s: Step)
    requires Good(r) && Agreeing(r.w)
    ensures Agreeing(Advance(r, s).w)
  {
    AdvanceKeepsGood(r, s);
    forall v, l | Version(Advance(r, s).w, v) && l in v.leases ensures TermsEverywhere(Advance(r, s).w, l) {
      LeaseBefore(r, s, v, l);
      if u :| Version(r.w, u) && LeaseOf(u, l) {
        OldLeaseAgrees(r, s, u, l);
      } else {
        forall u, x | Version(Advance(r, s).w, u) && x in u.leases && x.digest == l.digest ensures SameTerms(l, x) {
          DrawnLeaseAgrees(r, s, v, l, u, x);
        }
      }
    }
    hide Good;
    hide Advance;
    hide Derived;
    hide LeaseOf;
  }

  lemma OldLeaseAgrees(r: Run, s: Step, u: Document, l: Lease)
    requires Good(r) && Agreeing(r.w) && Version(r.w, u) && LeaseOf(u, l)
    ensures TermsEverywhere(Advance(r, s).w, l)
  {
    var m :| m in u.leases && SameTerms(m, l);
    assert Known(u, r);
    assert TermsEverywhere(r.w, m);
    hide Good;
    hide Known;
    hide Advance;
    AdvanceKeepsTerms(r, s, m);
    forall v, x | Version(Advance(r, s).w, v) && x in v.leases && x.digest == l.digest ensures SameTerms(l, x) {
      assert KeepsTerms(v, m);
      TermsChain(m, l, x);
    }
  }

  lemma {:induction false} RunsAgree(newborn: Run, steps: seq<Step>)
    requires Newborn(newborn)
    ensures Agreeing(Play(newborn, steps).w)
  {
    if steps == [] {
    } else {
      RunsAgree(newborn, steps[..|steps| - 1]);
      EveryRevealWasApproved(newborn, steps[..|steps| - 1]);
      AdvanceKeepsAgreeing(Play(newborn, steps[..|steps| - 1]), steps[|steps| - 1]);
      hide Agreeing;
      hide Good;
      hide Advance;
    }
  }

  lemma {:induction false} TermsStay(r: Run, steps: seq<Step>, l: Lease)
    requires Good(r) && TermsEverywhere(r.w, l) && l.digest in r.digests
    ensures var r' := Play(r, steps); Good(r') && TermsEverywhere(r'.w, l) && l.digest in r'.digests
  {
    if steps == [] {
    } else {
      var before := Play(r, steps[..|steps| - 1]);
      TermsStay(r, steps[..|steps| - 1], l);
      AdvanceKeepsGood(before, steps[|steps| - 1]);
      AdvanceKeepsTerms(before, steps[|steps| - 1], l);
    }
    hide Good;
    hide TermsEverywhere;
    hide Advance;
  }

  /** A credential never does more than its lease says: once any copy of the document has held the lease, in every later
      run the credential is honoured only for that agent, project and ops, and before that expiry. */
  lemma CredentialKeepsItsTerms(newborn: Run, before: seq<Step>, v: Document, l: Lease, credential: string, after: seq<Step>,
                                agentId: Id, project: string, op: Op, env: Env)
    requires Newborn(newborn)
    requires Version(Play(newborn, before).w, v) && l in v.leases && l.digest == TokenDigest(credential)
    requires AuthorizeStep(Play(Play(newborn, before), after).w, agentId, project, op, Some(credential), env).1.Ok?
    ensures var r := Play(Play(newborn, before), after);
            && r.w.doc.Some? && ProjectByName(r.w.doc.value, project).Some?
            && agentId == l.agentId && ProjectByName(r.w.doc.value, project).value.id == l.projectId
            && op in l.ops && env.now < l.expiresAt
  {
    var r0 := Play(newborn, before);
    EveryRevealWasApproved(newborn, before);
    RunsAgree(newborn, before);
    assert Known(v, r0) && TermsEverywhere(r0.w, l);
    TermsStay(r0, after, l);
    var r := Play(r0, after);
    HonouredOnTerms(r, l, credential, agentId, project, op, env);
    hide Good;
    hide Known;
    hide Agreeing;
    hide AuthorizeStep;
    hide Play;
  }

  lemma HonouredOnTerms(r: Run, l: Lease, credential: string, agentId: Id, project: string, op: Op, env: Env)
    requires Good(r) && TermsEverywhere(r.w, l) && l.digest == TokenDigest(credential)
    requires AuthorizeStep(r.w, agentId, project, op, Some(credential), env).1.Ok?
    ensures r.w.doc.Some? && ProjectByName(r.w.doc.value, project).Some?
    ensures agentId == l.agentId && ProjectByName(r.w.doc.value, project).value.id == l.projectId
    ensures op in l.ops && env.now < l.expiresAt
  {
    var d := r.w.doc.value;
    assert Known(d, r) && KeepsTerms(d, l);
    AuthorizeIff(d, agentId, project, op, Some(credential), env.now);
    var x :| LiveLease(d, x, TokenDigest(credential), agentId, ProjectByName(d, project).value.id, op, env.now);
    assert SameTerms(l, x);
  }

  /** An expired lease stays dead: at or after the expiry any copy ever held, the credential is refused in every later
      run, whatever was saved, lost or restored in between. */
  lemma ExpiredLeasesStayDead(newborn: Run, before: seq<Step>, v: Document, l: Lease, credential: string, after: seq<Step>,
                              agentId: Id, project: string, op: Op, env: Env)
    requires Newborn(newborn)
    requires Version(Play(newborn, before).w, v) && l in v.leases && l.digest == TokenDigest(credential)
    requires env.now >= l.expiresAt
    ensures AuthorizeStep(Play(Play(newborn, before), after).w, agentId, project, op, Some(credential), env).1.Err?
  {
    hide AuthorizeStep;
    hide Play;
    hide Newborn;
    if AuthorizeStep(Play(Play(newborn, before), after).w, agentId, project, op, Some(credential), env).1.Ok? {
      CredentialKeepsItsTerms(newborn, before, v, l, credential, after, agentId, project, op, env);
    }
  }

  /** A credential never does more than its request asked for: after a lease was created with success, in every later run
      its credential is honoured only for the agent that asked, in that project, for those ops, for that long. */
  lemma LeaseNeverExceedsItsRequest(newborn: Run, before: seq<Step>, s: Step, credential: string, after: seq<Step>,
                                    agentId: Id, project: string, op: Op, env: Env)
    requires Newborn(newborn)
    requires var r := Play(newborn, before);
             && Legal(r, s) && s.Calling? && s.call.LeaseCreate? && s.call.digest == TokenDigest(credential)
             && Perform(r.w, s.actor, s.call, s.env).result.Ok?
             && r.w.doc.Some? && ProjectByName(r.w.doc.value, s.call.project).Some?
    requires AuthorizeStep(Play(Advance(Play(newborn, before), s), after).w, agentId, project, op, Some(credential), env).1.Ok?
    ensures var r' := Play(Advance(Play(newborn, before), s), after);
            && r'.w.doc.Some? && ProjectByName(r'.w.doc.value, project).Some? && agentId == s.call.agentId
            && ProjectByName(r'.w.doc.value, project).value.id
               == ProjectByName(Play(newborn, before).w.doc.value, s.call.project).value.id
            && op in s.call.ops && env.now < s.env.now + s.call.ttlSecs * SECOND
  {
    hide AuthorizeStep;
    hide Play;
    hide Advance;
    hide Newborn;
    hide Find;
    hide Perform;
    hide Good;
    var r := Play(newborn, before);
    PlayOn(newborn, before, s);
    EveryRevealWasApproved(newborn, before);
    SavedLeaseIsHeld(r, s);
    CredentialKeepsItsTerms(newborn, before + [s], Advance(r, s).w.envelope, Minted(r.w.doc.value, s.call, s.env.now),
                            credential, after, agentId, project, op, env);
  }

  lemma PlayOn(r: Run, steps: seq<Step>, s: Step)
    ensures Play(r, steps + [s]) == Advance(Play(r, steps), s)
  {
    assert (steps + [s])[..|steps|] == steps;
    hide Advance;
  }

  /** The lease a request asks for. */
  function Minted(d: Document, c: Call, now: int): Lease
    requires c.LeaseCreate? && ProjectByName(d, c.project).Some?
  {
    Lease(c.id, c.agentId, ProjectByName(d, c.project).value.id, c.ops, c.digest, now, now + c.ttlSecs * SECOND, None)
  }

  lemma SavedLeaseIsHeld(r: Run, s: Step)
    requires Good(r) && Legal(r, s) && s.Calling? && s.call.LeaseCreate? && Perform(r.w, s.actor, s.call, s.env).result.Ok?
    requires r.w.doc.Some? && ProjectByName(r.w.doc.value, s.call.project).Some?
    ensures Version(Advance(r, s).w, Advance(r, s).w.envelope)
    ensures Minted(r.w.doc.value, s.call, s.env.now) in Advance(r, s).w.envelope.leases
  {
    hide Good;
    hide Perform;
    hide Advance;
    hide CreateLease;
    hide Find;
    hide AgentIsActive;
    var c, w := s.call, Advance(r, s).w;
    assert Version(w, w.envelope);
    SavedCallReplacesAll(r, s);
    assert SameRows(w.envelope, Propose(r.w.doc.value, c, s.env.now).value);
    CreatedLease(r.w.doc.value, c.agentId, c.project, c.ops, c.ttlSecs, c.id, c.digest, s.env.now);
  }

  /** Every copy holds the lease that was asked for, if any with its credential. */
  lemma SavedLeaseTerms(r: Run, s: Step)
    requires Good(r) && Legal(r, s) && s.Calling? && s.call.LeaseCreate? && Perform(r.w, s.actor, s.call, s.env).result.Ok?
    requires r.w.doc.Some? && ProjectByName(r.w.doc.value, s.call.project).Some?
    ensures TermsEverywhere(Advance(r, s).w, Minted(r.w.doc.value, s.call, s.env.now)) && s.call.digest in Advance(r, s).digests
  {
    hide Perform;
    hide Advance;
    hide CreateLease;
    hide Find;
    hide AgentIsActive;
    hide Openable;
    hide DocInv;
    var c, d, w := s.call, r.w.doc.value, Advance(r, s).w;
    SavedCallReplacesAll(r, s);
    DrawnIsDrawn(r, s);
    CreatedLease(d, c.agentId, c.project, c.ops, c.ttlSecs, c.id, c.digest, s.env.now);
    assert Known(d, r);
    forall v, x | Version(w, v) && x in v.leases && x.digest == c.digest ensures x == Minted(d, c, s.env.now) {
      assert SameRows(v, Propose(d, c, s.env.now).value);
    }
  }

  lemma DrawnIsDrawn(r: Run, s: Step)
    requires Legal(r, s) && s.Calling?
    ensures DrawsDigests(s.call) <= Advance(r, s).digests
  {
    hide Perform;
    hide Happened;
  }

  // ----- withdrawal ---------------------------------------------------------------------------------

  /** The operation takes this lease away: by its handle, by narrowing or revoking the grant below its ops, or by
      revoking its agent. */
  predicate TakesAway(d: Document, c: Call, l: Lease) {
    match c
    case LeaseRevoke(_, leaseId) => l.id == leaseId
    case GrantAdd(agent, project, ops) =>
      AgentByName(d, agent).Some? && ProjectByName(d, project).Some?
      && l.agentId == AgentByName(d, agent).value.id && l.projectId == ProjectByName(d, project).value.id && !Subset(l.ops, ops)
    case GrantRevoke(agent, project) =>
      AgentByName(d, agent).Some? && ProjectByName(d, project).Some?
      && l.agentId == AgentByName(d, agent).value.id && l.projectId == ProjectByName(d, project).value.id
    case AgentRevoke(name) => AgentByName(d, name).Some? && l.agentId == AgentByName(d, name).value.id
    case _ => false
  }

  /** Rows keep their place in these edits, so the row with this digest is the edited old one. */
  lemma SweptUncoveredIsRevoked(d: Document, d1: Document, d': Document, a: Id, p: Id, now: int, l: Lease, l': Lease)
    requires UniqueLeases(d) && d1.leases == d.leases && Swept(d1, d', a, p, now)
    requires l in d.leases && Uncovered(l, a, p, GrantOps(d1, a, p))
    requires l' in d'.leases && l'.digest == l.digest
    ensures l'.revokedAt.Some?
  {
    var k :| 0 <= k < |d'.leases| && d'.leases[k] == l';
    var i :| 0 <= i < |d.leases| && d.leases[i] == l;
    assert k == i;
  }

  lemma NarrowingRevokes(d: Document, agent: string, project: string, ops: seq<Op>, now: int, l: Lease, l': Lease)
    requires DocInv(d) && AddGrant(d, agent, project, ops, now).Ok?
    requires l in d.leases && TakesAway(d, GrantAdd(agent, project, ops), l)
    requires l' in AddGrant(d, agent, project, ops, now).value.leases && l'.digest == l.digest
    ensures l'.revokedAt.Some?
  {
    var a, p := AgentByName(d, agent).value.id, ProjectByName(d, project).value.id;
    var d1 := UpsertGrant(d, a, p, ops, now);
    SweepPairSweeps(d1, a, p, now);
    UpsertedOps(d, a, p, ops, now);
    SweptUncoveredIsRevoked(d, d1, SweepPair(d1, a, p, now), a, p, now, l, l');
  }

  /** Sweeping keeps revoked rows revoked, in their place. */
  lemma SweptRevokedStays(d: Document, d1: Document, d': Document, a: Id, p: Id, now: int, l: Lease, l': Lease)
    requires UniqueLeases(d) && d1.leases == d.leases && Swept(d1, d', a, p, now)
    requires l in d.leases && l.revokedAt.Some? && l' in d'.leases && l'.digest == l.digest
    ensures l'.revokedAt.Some?
  {
    var k :| 0 <= k < |d'.leases| && d'.leases[k] == l';
    var i :| 0 <= i < |d.leases| && d.leases[i] == l;
    assert k == i;
  }

  lemma RevokingGrantRevokes(d: Document, agent: string, project: string, now: int, l: Lease, l': Lease)
    requires DocInv(d) && RevokeGrant(d, agent, project, now).Ok?
    requires l in d.leases && TakesAway(d, GrantRevoke(agent, project), l)
    requires l' in RevokeGrant(d, agent, project, now).value.leases && l'.digest == l.digest
    ensures l'.revokedAt.Some?
  {
    var a, p := AgentByName(d, agent).value.id, ProjectByName(d, project).value.id;
    var g := Position(d.grants, (g: Grant) => ActiveFor(g, a, p));
    var d1 := d.(grants := d.grants[g := d.grants[g].(revokedAt := Some(now))]);
    SweepPairSweeps(d1, a, p, now);
    assert LeaseBacked(d, l);
    hide Swept;
    hide SweepPair;
    if l.revokedAt.Some? {
      SweptRevokedStays(d, d1, SweepPair(d1, a, p, now), a, p, now, l, l');
    } else {
      RevokedOps(d, a, p, now);
      assert l.ops[0] in l.ops;
      SweptUncoveredIsRevoked(d, d1, SweepPair(d1, a, p, now), a, p, now, l, l');
    }
  }

  lemma RevokingAgentRevokes(d: Document, name: string, now: int, l: Lease, l': Lease)
    requires DocInv(d) && RevokeAgent(d, name, now).Ok?
    requires l in d.leases && TakesAway(d, AgentRevoke(name), l)
    requires l' in RevokeAgent(d, name, now).value.leases && l'.digest == l.digest
    ensures l'.revokedAt.Some?
  {
    var d' := RevokeAgent(d, name, now).value;
    var k :| 0 <= k < |d'.leases| && d'.leases[k] == l';
    var i :| 0 <= i < |d.leases| && d.leases[i] == l;
    assert k == i;
    var n := Position(d.agents, (a: Agent) => a.name == name);
    assert d.agents[n].id == AgentByName(d, name).value.id;
  }

  lemma TakenAwayIsRevoked(d: Document, c: Call, now: int, l: Lease, l': Lease)
    requires DocInv(d) && Propose(d, c, now).Ok? && l in d.leases && TakesAway(d, c, l)
    requires l' in Propose(d, c, now).value.leases && l'.digest == l.digest
    ensures l'.revokedAt.Some?
  {
    match c
    case LeaseRevoke(owner, leaseId) =>
      var d' := DropLease(d, owner, leaseId, now).value;
      var k :| 0 <= k < |d'.leases| && d'.leases[k] == l';
      var i :| 0 <= i < |d.leases| && d.leases[i] == l;
      assert k == i;
    case GrantAdd(agent, project, ops) => NarrowingRevokes(d, agent, project, ops, now, l, l');
    case GrantRevoke(agent, project) => RevokingGrantRevokes(d, agent, project, now, l, l');
    case AgentRevoke(name) => RevokingAgentRevokes(d, name, now, l, l');
  }

  lemma UpsertedOps(d: Document, a: Id, p: Id, ops: seq<Op>, now: int)
    requires UniqueGrants(d)
    ensures GrantOps(UpsertGrant(d, a, p, ops, now), a, p) == ops
  {
    var d1 := UpsertGrant(d, a, p, ops, now);
    var i := Position(d.grants, (g: Grant) => ActiveFor(g, a, p));
    assert forall k :: 0 <= k < i ==> d1.grants[k] == d.grants[k];
    assert i == |d.grants| ==> forall k :: 0 <= k < |d.grants| ==> !ActiveFor(d.grants[k], a, p);
    assert d1.grants[i] in d1.grants && ActiveFor(d1.grants[i], a, p);
    ActiveGrantIs(d1, d1.grants[i]);
  }

  lemma RevokedOps(d: Document, a: Id, p: Id, now: int)
    requires UniqueGrants(d)
    requires Position(d.grants, (g: Grant) => ActiveFor(g, a, p)) < |d.grants|
    ensures var i := Position(d.grants, (g: Grant) => ActiveFor(g, a, p));
            GrantOps(d.(grants := d.grants[i := d.grants[i].(revokedAt := Some(now))]), a, p) == []
  {
    var i := Position(d.grants, (g: Grant) => ActiveFor(g, a, p));
    var d1 := d.(grants := d.grants[i := d.grants[i].(revokedAt := Some(now))]);
    forall g | g in d1.grants ensures !ActiveFor(g, a, p) {
      var k :| 0 <= k < |d1.grants| && d1.grants[k] == g;
    }
  }

  /** Once an operation that takes a lease away has reported success, the lease is dead in every copy. */
  lemma SavedWithdrawalKills(r: Run, s: Step, l: Lease)
    requires Good(r) && Legal(r, s) && s.Calling? && r.w.doc.Some?
    requires l in r.w.doc.value.leases && TakesAway(r.w.doc.value, s.call, l)
    requires Perform(r.w, s.actor, s.call, s.env).result.Ok?
    ensures DeadEverywhere(Advance(r, s).w, l.digest, Advance(r, s).now) && l.digest in Advance(r, s).digests
  {
    var d, c := r.w.doc.value, s.call;
    assert Known(d, r);
    SavedCallReplacesAll(r, s);
    IdsStay(r, s);
    TimeMovesOn(r, s);
    hide Good;
    hide Perform;
    hide Advance;
    hide Propose;
    forall v' | Version(Advance(r, s).w, v') ensures Dead(v', l.digest, s.env.now) {
      forall l' | l' in v'.leases && l'.digest == l.digest ensures l'.revokedAt.Some? {
        TakenAwayIsRevoked(d, c, s.env.now, l, l');
      }
    }
  }

  /** A lease taken away by an operation that reported success never authorizes anything again, in any run that
      follows: no re-grant, restart, old copy or crash brings it back. */
  lemma WithdrawnForGood(newborn: Run, before: seq<Step>, s: Step, credential: string, l: Lease, after: seq<Step>,
                         agentId: Id, project: string, op: Op, env: Env)
    requires Newborn(newborn)
    requires var r := Play(newborn, before);
             && Legal(r, s) && s.Calling? && r.w.doc.Some? && Perform(r.w, s.actor, s.call, s.env).result.Ok?
             && l in r.w.doc.value.leases && l.digest == TokenDigest(credential) && TakesAway(r.w.doc.value, s.call, l)
    requires Play(Advance(Play(newborn, before), s), after).now <= env.now
    ensures AuthorizeStep(Play(Advance(Play(newborn, before), s), after).w, agentId, project, op, Some(credential), env).1.Err?
  {
    var r := Play(newborn, before);
    EveryRevealWasApproved(newborn, before);
    SavedWithdrawalKills(r, s, l);
    AdvanceKeepsGood(r, s);
    DeadLeasesStayDead(Advance(r, s), after, credential);
  }

  /** Once a lock has been saved, every lease is dead in every copy. */
  lemma SavedLockKills(r: Run, s: Step, digest: CredDigest)
    requires Good(r) && Legal(r, s) && LockIsSaved(r, s)
    ensures DeadEverywhere(Advance(r, s).w, digest, Advance(r, s).now)
  {
    SavedLockReplacesAll(r, s);
    TimeMovesOn(r, s);
    forall v | Version(Advance(r, s).w, v) ensures Dead(v, digest, s.env.now) {
      DeadThroughSweeps(r.w.doc.value, s.env.now, digest);
    }
    hide Good;
    hide Advance;
    hide CommitWith;
    hide LockedDown;
  }

  /** After a lock that was saved, no credential handed out before it ever authorizes anything again. */
  lemma LockedOutForGood(newborn: Run, before: seq<Step>, s: Step, credential: string, after: seq<Step>,
                         agentId: Id, project: string, op: Op, env: Env)
    requires Newborn(newborn)
    requires Legal(Play(newborn, before), s) && LockIsSaved(Play(newborn, before), s)
    requires TokenDigest(credential) in Play(newborn, before).digests
    requires Play(Advance(Play(newborn, before), s), after).now <= env.now
    ensures AuthorizeStep(Play(Advance(Play(newborn, before), s), after).w, agentId, project, op, Some(credential), env).1.Err?
  {
    var r := Play(newborn, before);
    EveryRevealWasApproved(newborn, before);
    hide Good;
    hide AuthorizeStep;
    hide Advance;
    hide Play;
    SavedLockKills(r, s, TokenDigest(credential));
    IdsStay(r, s);
    AdvanceKeepsGood(r, s);
    DeadLeasesStayDead(Advance(r, s), after, credential);
  }
}
