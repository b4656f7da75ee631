/** How the stored, in-memory and decrypted copies of the document change in one step, and what follows for whole
    runs: stored values persist, and a closed approval never changes again. */
module Copies {
  import opened Prelude
  import opened Audit
  import opened Model
  import opened Capability
  import opened Authority
  import opened Contents
  import opened Commit
  import opened Lifetime
  import opened Histories

  /** What a step makes of the decrypted document. */
  ghost predicate Derived(d: Document, s: Step, d': Document) {
    match s
    case Calling(_, c, env) => Propose(d, c, env.now).Ok? && SameRows(d', Propose(d, c, env.now).value)
    case CrashInCall(_, c, env, _) => Propose(d, c, env.now).Ok? && SameRows(d', Propose(d, c, env.now).value)
    case Locking(env) => SameRows(d', LockedDown(d, env.now))
    case CrashInLock(env, _) => SameRows(d', LockedDown(d, env.now))
    case Collect(env) => d' == Purged(d, env.now)
    case _ => false
  }

  lemma CallEvolves(r: Run, s: Step, v: Document)
    requires Good(r) && Legal(r, s) && s.Calling? && Version(Advance(r, s).w, v)
    ensures Version(r.w, v) || (r.w.doc.Some? && Derived(r.w.doc.value, s, v))
  {
    hide Good;
    hide Openable;
    hide Perform;
    hide Propose;
    hide DocInv;
    hide FreshFor;
    GoodIsReady(r, s.call);
    PerformVersions(r.w, s.actor, s.call, s.env);
  }

  lemma CrashedCallEvolves(r: Run, s: Step, v: Document)
    requires Good(r) && Legal(r, s) && s.CrashInCall? && Version(Advance(r, s).w, v)
    ensures Version(r.w, v) || (r.w.doc.Some? && Derived(r.w.doc.value, s, v))
  {
    hide Good;
    hide Openable;
    hide Perform;
    hide Propose;
    hide Load;
    hide DocInv;
    hide FreshFor;
    GoodIsReady(r, s.call);
    PerformVersions(r.w, s.actor, s.call, s.env);
    RestartFinds(r.w, Perform(r.w, s.actor, s.call, s.env).world, s.renamed);
  }

  lemma LockEvolves(r: Run, s: Step, v: Document)
    requires Good(r) && Legal(r, s) && s.Locking? && Version(Advance(r, s).w, v)
    ensures Version(r.w, v) || (r.w.doc.Some? && Derived(r.w.doc.value, s, v))
  {
    hide Good;
    hide CommitWith;
    hide LockedDown;
    if r.w.doc.Some? { LockVersions(r, s.env); }
  }

  lemma CrashedLockEvolves(r: Run, s: Step, v: Document)
    requires Good(r) && Legal(r, s) && s.CrashInLock? && Version(Advance(r, s).w, v)
    ensures Version(r.w, v) || (r.w.doc.Some? && Derived(r.w.doc.value, s, v))
  {
    var after := LockPersist(r.w, LockBody(s.env), s.env.now, s.env.io);
    if r.w.doc.Some? { LockVersions(r, s.env); }
    assert Openable(r.w) && Openable(after) && r.w.log <= after.log by { hide CommitWith; hide LockedDown; }
    hide Good;
    hide CommitWith;
    hide LockedDown;
    hide Openable;
    RestartFinds(r.w, after, s.renamed);
    hide Load;
  }

  /** Steps that propose nothing only move documents between their places. */
  lemma QuietStepKeepsVersions(r: Run, s: Step)
    requires Good(r) && (s.Authorizing? || s.Unlocking? || s.Noting? || s.Restart? || !Legal(r, s))
    ensures forall v :: Version(Advance(r, s).w, v) ==> Version(r.w, v)
  {
    if s.Authorizing? && Legal(r, s) { AuthorizingKeepsGood(r, s); }
    hide Good;
    hide AuthorizeStep;
  }

  /** Every copy after a step was a copy before it, or is what the step makes of the decrypted one. */
  lemma VersionsEvolve(r: Run, s: Step, v: Document)
    requires Good(r) && Version(Advance(r, s).w, v)
    ensures Version(r.w, v) || (Legal(r, s) && r.w.doc.Some? && Derived(r.w.doc.value, s, v))
  {
    hide Good;
    hide Version;
    if !Legal(r, s) { QuietStepKeepsVersions(r, s); }
    else if s.Calling? { CallEvolves(r, s, v); }
    else if s.CrashInCall? { CrashedCallEvolves(r, s, v); }
    else if s.Locking? { LockEvolves(r, s, v); }
    else if s.CrashInLock? { CrashedLockEvolves(r, s, v); }
    else if s.Collect? { CollectEvolves(r, s, v); }
    else { QuietStepKeepsVersions(r, s); }
    hide Derived;
  }

  lemma CollectEvolves(r: Run, s: Step, v: Document)
    requires s.Collect? && Version(Advance(r, s).w, v)
    ensures Version(r.w, v) || (r.w.doc.Some? && Derived(r.w.doc.value, s, v))
  {
    hide Purged;
  }

  /** After a step that reports success, every copy is what it proposed. */
  lemma SavedCallReplacesAll(r: Run, s: Step)
    requires Good(r) && Legal(r, s) && s.Calling? && Perform(r.w, s.actor, s.call, s.env).result.Ok?
    ensures r.w.doc.Some? && Propose(r.w.doc.value, s.call, s.env.now).Ok?
    ensures forall v :: Version(Advance(r, s).w, v) ==> SameRows(v, Propose(r.w.doc.value, s.call, s.env.now).value)
  {
    hide Good;
    hide Openable;
    hide Perform;
    hide Propose;
    hide DocInv;
    hide FreshFor;
    GoodIsReady(r, s.call);
    PerformVersions(r.w, s.actor, s.call, s.env);
  }

  /** The lock was saved. */
  ghost predicate LockIsSaved(r: Run, s: Step) {
    s.Locking? && r.w.doc.Some?
    && CommitWith(r.w, LockedDown(r.w.doc.value, s.env.now), LockBody(s.env), Lifecycle, s.env.io).result.Ok?
  }

  lemma SavedLockReplacesAll(r: Run, s: Step)
    requires Good(r) && Legal(r, s) && LockIsSaved(r, s)
    ensures forall v :: Version(Advance(r, s).w, v) ==> SameRows(v, LockedDown(r.w.doc.value, s.env.now))
  {
    LockVersions(r, s.env);
    hide Good;
    hide CommitWith;
    hide LockedDown;
  }

  // ----- stored values ------------------------------------------------------------------------

  ghost predicate ShapedEverywhere(w: World) { forall v :: Version(w, v) ==> Shaped(v) }

  lemma SameRowsSameContents(d: Document, e: Document, projectId: Id, key: string)
    requires SameRows(d, e)
    ensures (Shaped(d) <==> Shaped(e)) && Lookup(d, projectId, key) == Lookup(e, projectId, key)
  {
    hide Find;
  }

  /** Locking and purging touch neither names nor values. */
  lemma SweepsKeepContents(d: Document, now: int, projectId: Id, key: string)
    requires Shaped(d)
    ensures Shaped(LockedDown(d, now)) && Lookup(LockedDown(d, now), projectId, key) == Lookup(d, projectId, key)
    ensures Shaped(Purged(d, now)) && Lookup(Purged(d, now), projectId, key) == Lookup(d, projectId, key)
  {
    hide Find;
    hide Filter;
  }

  /** The step leaves this key to itself. */
  predicate Leaves(r: Run, s: Step, projectId: Id, key: string) {
    (s.Calling? || s.CrashInCall?) && r.w.doc.Some? ==> !Touches(r.w.doc.value, s.call, projectId, key)
  }

  lemma DerivedKeepsValue(d: Document, s: Step, d': Document, projectId: Id, key: string)
    requires Shaped(d) && Derived(d, s, d')
    requires s.Calling? || s.CrashInCall? ==> !Touches(d, s.call, projectId, key)
    ensures Shaped(d') && Lookup(d', projectId, key) == Lookup(d, projectId, key)
  {
    hide Shaped;
    hide Lookup;
    hide Touches;
    hide Propose;
    hide LockedDown;
    hide Purged;
    if s.Calling? || s.CrashInCall? {
      OneEditPersists(d, s.call, s.env.now, projectId, key);
      SameRowsSameContents(d', Propose(d, s.call, s.env.now).value, projectId, key);
    } else {
      SweepsKeepContents(d, s.env.now, projectId, key);
      if !s.Collect? { SameRowsSameContents(d', LockedDown(d, s.env.now), projectId, key); }
    }
  }

  lemma DerivedIsShaped(d: Document, s: Step, d': Document)
    requires Shaped(d) && Derived(d, s, d')
    ensures Shaped(d')
  {
    hide Shaped;
    hide Propose;
    hide LockedDown;
    hide Purged;
    if s.Calling? || s.CrashInCall? {
      EditsKeepShape(d, s.call, s.env.now);
      SameRowsSameContents(d', Propose(d, s.call, s.env.now).value, "", "");
    } else {
      SweepsKeepContents(d, s.env.now, "", "");
      if !s.Collect? { SameRowsSameContents(d', LockedDown(d, s.env.now), "", ""); }
    }
  }

  /** In every run every copy is well shaped: names and keys are unique, records within limits, and every secret is in
      an existing project. */
  lemma {:induction false} EveryCopyIsShaped(newborn: Run, steps: seq<Step>)
    requires Newborn(newborn)
    ensures ShapedEverywhere(Play(newborn, steps).w)
  {
    if steps == [] {
    } else {
      var before, last := Play(newborn, steps[..|steps| - 1]), steps[|steps| - 1];
      EveryCopyIsShaped(newborn, steps[..|steps| - 1]);
      EveryRevealWasApproved(newborn, steps[..|steps| - 1]);
      forall v | Version(Play(newborn, steps).w, v) ensures Shaped(v) {
        VersionsEvolve(before, last, v);
        if !Version(before.w, v) { DerivedIsShaped(before.w.doc.value, last, v); }
      }
      hide Shaped;
      hide Good;
      hide Advance;
    }
  }

  ghost predicate ValueEverywhere(w: World, projectId: Id, key: string, value: Option<Bytes>) {
    forall v :: Version(w, v) ==> Shaped(v) && Lookup(v, projectId, key) == value
  }

  lemma AdvanceKeepsValue(r: Run, s: Step, projectId: Id, key: string, value: Option<Bytes>)
    requires Good(r) && ValueEverywhere(r.w, projectId, key, value) && Leaves(r, s, projectId, key)
    ensures Good(Advance(r, s)) && ValueEverywhere(Advance(r, s).w, projectId, key, value)
  {
    AdvanceKeepsGood(r, s);
    forall v | Version(Advance(r, s).w, v) ensures Shaped(v) && Lookup(v, projectId, key) == value {
      VersionsEvolve(r, s, v);
      if !Version(r.w, v) { DerivedKeepsValue(r.w.doc.value, s, v, projectId, key); }
    }
    hide Shaped;
    hide Good;
    hide Advance;
    hide Lookup;
    hide Derived;
    hide Touches;
  }

  /** The run leaves this key to itself. */
  ghost predicate LeftAlone(r: Run, steps: seq<Step>, projectId: Id, key: string) {
    forall i :: 0 <= i < |steps| ==> Leaves(Play(r, steps[..i]), steps[i], projectId, key)
  }

  lemma LeftAloneBefore(r: Run, steps: seq<Step>, projectId: Id, key: string)
    requires steps != [] && LeftAlone(r, steps, projectId, key)
    ensures var n := |steps| - 1;
            LeftAlone(r, steps[..n], projectId, key) && Leaves(Play(r, steps[..n]), steps[n], projectId, key)
  {
    hide Leaves;
    hide Play;
    var n := |steps| - 1;
    forall i | 0 <= i < n ensures Leaves(Play(r, steps[..n][..i]), steps[..n][i], projectId, key) {
      assert steps[..n][..i] == steps[..i];
      assert Leaves(Play(r, steps[..i]), steps[i], projectId, key);
    }
  }

  /** A value every copy holds stays there through any run that does not set or delete that very key. */
  lemma {:induction false} ValuesPersist(r: Run, steps: seq<Step>, projectId: Id, key: string, value: Option<Bytes>)
    requires Good(r) && ValueEverywhere(r.w, projectId, key, value)
    requires LeftAlone(r, steps, projectId, key)
    ensures Good(Play(r, steps)) && ValueEverywhere(Play(r, steps).w, projectId, key, value)
  {
    if steps == [] {
    } else {
      var n := |steps| - 1;
      LeftAloneBefore(r, steps, projectId, key);
      ValuesPersist(r, steps[..n], projectId, key, value);
      AdvanceKeepsValue(Play(r, steps[..n]), steps[n], projectId, key, value);
    }
    hide LeftAlone;
    hide ValueEverywhere;
    hide Leaves;
    hide Good;
    hide Advance;
  }

  /** The value a claim hands out is the one last set: after a set that reported success, and any run that does not
      set or delete that key again, every copy holds the value, and whatever claim of it succeeds finds it. */
  lemma ClaimsYieldTheLastValue(newborn: Run, before: seq<Step>, s: Step, after: seq<Step>, projectId: Id)
    requires Newborn(newborn)
    requires var r := Play(newborn, before);
             && Legal(r, s) && s.Calling? && s.call.SecretSet? && Perform(r.w, s.actor, s.call, s.env).result.Ok?
             && r.w.doc.Some? && ProjectByName(r.w.doc.value, s.call.project).Some?
             && ProjectByName(r.w.doc.value, s.call.project).value.id == projectId
    requires LeftAlone(Advance(Play(newborn, before), s), after, projectId, s.call.key)
    ensures var r' := Play(Advance(Play(newborn, before), s), after);
            && ValueEverywhere(r'.w, projectId, s.call.key, Some(s.call.value))
            && forall agentId, project, id, now ::
                 r'.w.doc.Some? && ClaimApproval(r'.w.doc.value, agentId, project, s.call.key, id, now).Ok?
                 && ProjectByName(r'.w.doc.value, project).value.id == projectId
                 ==> SecretOf(r'.w.doc.value, projectId, s.call.key).Some?
                     && SecretOf(r'.w.doc.value, projectId, s.call.key).value.value == s.call.value
  {
    var r := Play(newborn, before);
    var r1 := Advance(r, s);
    hide Good;
    hide Advance;
    hide Play;
    hide Perform;
    hide Propose;
    hide Shaped;
    hide Find;
    hide LeftAlone;
    hide Newborn;
    hide ClaimApproval;
    EveryRevealWasApproved(newborn, before);
    EveryCopyIsShaped(newborn, before);
    SavedCallReplacesAll(r, s);
    AdvanceKeepsGood(r, s);
    SetIsEverywhere(r, s, projectId);
    ValuesPersist(r1, after, projectId, s.call.key, Some(s.call.value));
    var r' := Play(r1, after);
    if r'.w.doc.Some? { assert Version(r'.w, r'.w.doc.value); }
  }

  lemma SetIsEverywhere(r: Run, s: Step, projectId: Id)
    requires s.Calling? && s.call.SecretSet? && r.w.doc.Some? && Shaped(r.w.doc.value)
    requires Propose(r.w.doc.value, s.call, s.env.now).Ok?
    requires ProjectByName(r.w.doc.value, s.call.project).value.id == projectId
    requires forall v :: Version(Advance(r, s).w, v) ==> SameRows(v, Propose(r.w.doc.value, s.call, s.env.now).value)
    ensures ValueEverywhere(Advance(r, s).w, projectId, s.call.key, Some(s.call.value))
  {
    var d, c := r.w.doc.value, s.call;
    var d' := SetSecret(d, c.project, c.key, c.value).value;
    SetChangesOneKey(d, c.project, c.key, c.value);
    SetKeepsShape(d, c.project, c.key, c.value);
    forall v | Version(Advance(r, s).w, v) ensures Shaped(v) && Lookup(v, projectId, c.key) == Some(c.value) {
      SameRowsSameContents(v, d', projectId, c.key);
    }
    hide Shaped;
    hide Lookup;
    hide Advance;
    hide SetSecret;
  }

  // ----- closed approvals -------------------------------------------------------------------------

  /** The row, if it is there, is this one in every field. */
  predicate HoldsAs(d: Document, a: Approval) { forall x :: x in d.approvals && x.id == a.id ==> x == a }

  ghost predicate HeldEverywhereAs(w: World, a: Approval) { forall v :: Version(w, v) ==> HoldsAs(v, a) }

  /** A denied or consumed row keeps every field through every edit, until it is purged. */
  lemma ClosedThroughEdit(d: Document, c: Call, now: int, a: Approval)
    requires Propose(d, c, now).Ok? && HoldsAs(d, a) && !Open(a) && a.id !in Draws(c)
    ensures HoldsAs(Propose(d, c, now).value, a)
  {
    RowsFrom(d, c, now);
    forall a' | a' in Propose(d, c, now).value.approvals && a'.id == a.id ensures a' == a {
      assert ApprovalFrom(d, a', c, now);
    }
    hide Propose;
  }

  lemma ClosedThroughSweeps(d: Document, now: int, a: Approval)
    requires HoldsAs(d, a) && !Open(a)
    ensures HoldsAs(LockedDown(d, now), a) && HoldsAs(Purged(d, now), a)
  {
    var d' := LockedDown(d, now);
    forall a' | a' in d'.approvals && a'.id == a.id ensures a' == a {
      var k :| 0 <= k < |d'.approvals| && d'.approvals[k] == a';
      assert d.approvals[k] in d.approvals && a' == Deny(d.approvals[k]);
    }
  }

  lemma DerivedKeepsClosed(d: Document, s: Step, d': Document, a: Approval)
    requires HoldsAs(d, a) && !Open(a) && Derived(d, s, d')
    requires s.Calling? || s.CrashInCall? ==> a.id !in Draws(s.call)
    ensures HoldsAs(d', a)
  {
    hide Propose;
    hide LockedDown;
    hide Purged;
    hide Open;
    if s.Calling? || s.CrashInCall? { ClosedThroughEdit(d, s.call, s.env.now, a); } else { ClosedThroughSweeps(d, s.env.now, a); }
  }

  /** A row that is closed alike in every copy stays exactly as it is, or is purged, in every run that follows: a
      denial is never consumed, a consumption never denied, and neither is reopened. */
  lemma {:induction false} ClosedForGood(r: Run, steps: seq<Step>, a: Approval)
    requires Good(r) && a.id in r.ids && !Open(a) && HeldEverywhereAs(r.w, a)
    ensures var r' := Play(r, steps); Good(r') && a.id in r'.ids && HeldEverywhereAs(r'.w, a)
  {
    if steps == [] {
    } else {
      var before, last := Play(r, steps[..|steps| - 1]), steps[|steps| - 1];
      ClosedForGood(r, steps[..|steps| - 1], a);
      AdvanceKeepsGood(before, last);
      forall v | Version(Play(r, steps).w, v) ensures HoldsAs(v, a) {
        VersionsEvolve(before, last, v);
        if !Version(before.w, v) { DerivedKeepsClosed(before.w.doc.value, last, v, a); }
      }
      IdsStay(before, last);
    }
    hide Good;
    hide Advance;
    hide HoldsAs;
  }

  lemma IdsStay(r: Run, s: Step)
    ensures r.ids <= Advance(r, s).ids && r.digests <= Advance(r, s).digests
  {
    hide Perform;
    hide AuthorizeStep;
    hide LockPersist;
    hide UnlockStep;
    hide Note;
    hide Load;
    hide Happened;
    hide CommitWith;
  }

  /** A denial or a claim that reported success is final: in every later run each copy holds exactly the closed row it
      left, or has purged it. */
  lemma SavedClosureIsFinal(newborn: Run, before: seq<Step>, s: Step, a: Approval, after: seq<Step>)
    requires Newborn(newborn)
    requires var r := Play(newborn, before);
             && Legal(r, s) && s.Calling? && Perform(r.w, s.actor, s.call, s.env).result.Ok? && r.w.doc.Some?
             && Propose(r.w.doc.value, s.call, s.env.now).Ok?
             && a in Propose(r.w.doc.value, s.call, s.env.now).value.approvals && !Open(a)
    ensures HeldEverywhereAs(Play(Advance(Play(newborn, before), s), after).w, a)
  {
    var r := Play(newborn, before);
    EveryRevealWasApproved(newborn, before);
    assert Known(r.w.doc.value, r);
    SavedCallReplacesAll(r, s);
    ProposedIsExplained(r.w.doc.value, r, s.call, s.env.now, true);
    var d' := Propose(r.w.doc.value, s.call, s.env.now).value;
    OnlyRowOfItsId(d', a);
    AdvanceKeepsGood(r, s);
    hide Good;
    hide Perform;
    hide Propose;
    hide DocInv;
    ClosedForGood(Advance(r, s), after, a);
  }

  lemma OnlyRowOfItsId(d: Document, a: Approval)
    requires DocInv(d) && a in d.approvals
    ensures HoldsAs(d, a)
  {
    forall x | x in d.approvals && x.id == a.id ensures x == a {
      ApprovalOfId(d, x);
      ApprovalOfId(d, a);
    }
  }
}
