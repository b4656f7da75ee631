/** Whole-run safety of human sessions: a credential is honoured only between its mint and the next lock, inside
    both windows, and a refused request never extends one. */
module SessionRuns {
  import opened Prelude
  import opened Audit
  import opened Model
  import opened Capability
  import opened Commit
  import opened Lifetime
  import opened Histories
  import opened Copies
  import opened HumanSessions
  import opened SessionObject
  import opened Broker

  // ----- what the events say ---------------------------------------------------------------

  /** When the sliding window of `x` last moved: its mint, or an allowed operation. */
  function LastUse(h: seq<SessionEvent>, x: CredDigest): Option<int> {
    if h == [] then None
    else
      var e := h[|h| - 1];
      if (e.Minted? || e.Renewed?) && e.digest == x then Some(e.at) else LastUse(h[..|h| - 1], x)
  }

  /** Nothing since event `j` ended the sessions or this one. */
  predicate Unended(h: seq<SessionEvent>, x: CredDigest, j: nat) {
    forall m :: j < m < |h| ==> h[m] != AllEnded && h[m] != Ended(x)
  }

  ghost predicate Holds(h: seq<SessionEvent>, x: CredDigest, e: HumanSession) {
    && LastUse(h, x) == Some(e.lastUsed)
    && exists j :: 0 <= j < |h| && h[j] == Minted(x, e.ttlSecs, e.mintedAt) && Unended(h, x, j)
  }

  /** The use at `i` follows a mint in the same unlock epoch, less than 1800 s before, and the sliding window has
      not run out since the last allowed operation. */
  ghost predicate Admitted(h: seq<SessionEvent>, i: nat)
    requires i < |h| && h[i].Accepted?
  {
    exists j :: 0 <= j < i
      && h[j].Minted? && h[j].digest == h[i].digest && Unended(h[..i], h[i].digest, j)
      && Elapsed(h[i].at, h[j].at) < SESSION_MAX_TTL_SECS
      && LastUse(h[..i], h[i].digest).Some?
      && Elapsed(h[i].at, LastUse(h[..i], h[i].digest).value) < h[j].ttlSecs
  }

  ghost predicate AllAdmitted(h: seq<SessionEvent>) { forall i :: 0 <= i < |h| && h[i].Accepted? ==> Admitted(h, i) }

  ghost predicate Seated(d: Daemon) {
    && Good(d.run)
    && (d.run.w.key.None? ==> d.table == map[])
    && |d.table| <= MAX_SESSIONS
    && (forall x :: x in d.table ==> x in d.run.digests && Holds(d.events, x, d.table[x]))
    && AllAdmitted(d.events)
  }

  // ----- one event at a time ------------------------------------------------------------------

  lemma HoldsAfter(h: seq<SessionEvent>, x: CredDigest, entry: HumanSession, e: SessionEvent)
    requires Holds(h, x, entry) && e != AllEnded && e != Ended(x)
    requires !((e.Minted? || e.Renewed?) && e.digest == x)
    ensures Holds(h + [e], x, entry)
  {
    var j :| 0 <= j < |h| && h[j] == Minted(x, entry.ttlSecs, entry.mintedAt) && Unended(h, x, j);
    assert (h + [e])[..|h|] == h;
    assert (h + [e])[j] == h[j];
    assert Unended(h + [e], x, j);
  }

  lemma HoldsRenewed(h: seq<SessionEvent>, x: CredDigest, entry: HumanSession, at: int)
    requires Holds(h, x, entry)
    ensures Holds(h + [Renewed(x, at)], x, entry.(lastUsed := at))
  {
    var j :| 0 <= j < |h| && h[j] == Minted(x, entry.ttlSecs, entry.mintedAt) && Unended(h, x, j);
    assert (h + [Renewed(x, at)])[j] == h[j];
    assert Unended(h + [Renewed(x, at)], x, j);
  }

  lemma AdmittedLater(h: seq<SessionEvent>, e: SessionEvent)
    requires AllAdmitted(h) && (e.Accepted? ==> Admitted(h + [e], |h|))
    ensures AllAdmitted(h + [e])
  {
    var g := h + [e];
    forall i | 0 <= i < |g| && g[i].Accepted? ensures Admitted(g, i) {
      if i < |h| {
        assert Admitted(h, i);
        assert g[..i] == h[..i];
        var j :| 0 <= j < i
          && h[j].Minted? && h[j].digest == h[i].digest && Unended(h[..i], h[i].digest, j)
          && Elapsed(h[i].at, h[j].at) < SESSION_MAX_TTL_SECS
          && LastUse(h[..i], h[i].digest).Some?
          && Elapsed(h[i].at, LastUse(h[..i], h[i].digest).value) < h[j].ttlSecs;
        assert g[j] == h[j];
      }
    }
  }

  /** A live entry of the table admits its credential. */
  lemma LiveEntryIsAdmitted(h: seq<SessionEvent>, x: CredDigest, entry: HumanSession, at: int)
    requires Holds(h, x, entry) && !Lapsed(entry, at)
    ensures Admitted(h + [Accepted(x, at)], |h|)
  {
    var g := h + [Accepted(x, at)];
    var j :| 0 <= j < |h| && h[j] == Minted(x, entry.ttlSecs, entry.mintedAt) && Unended(h, x, j);
    assert g[..|h|] == h && g[j] == h[j];
  }

  // ----- moves that leave the registry alone -----------------------------------------------------

  predicate KeepsKey(s: Lifetime.Step) {
    s.Calling? || s.Authorizing? || s.Unlocking? || s.Collect? || s.Noting?
  }

  lemma MoveKeepsKey(r: Lifetime.Run, s: Lifetime.Step)
    requires Good(r) && KeepsKey(s) && r.w.key.Some?
    ensures Advance(r, s).w.key.Some?
  {
    if Legal(r, s) {
      match s
      case Calling(actor, c, env) => PerformKeepsKey(r.w, actor, c, env);
      case Authorizing(_, _, _, _, _) => AuthorizingKeepsGood(r, s);
      case Unlocking(_, _) =>
      case Collect(_) =>
      case Noting(_, _, _, _) =>
    }
  }

  lemma PerformKeepsKey(w: World, actor: string, c: Call, env: Env)
    ensures Perform(w, actor, c, env).world.key == w.key
  {
    hide Propose;
    hide Stage;
    hide AppendStaged;
    hide PriorityOf;
  }

  lemma MovedStaysSeated(d: Daemon, s: Lifetime.Step)
    requires Seated(d) && KeepsKey(s)
    ensures Seated(Moved(d, s)) && Moved(d, s).table == d.table && Moved(d, s).events == d.events
  {
    hide Good;
    hide Advance;
    hide Holds;
    hide AllAdmitted;
    AdvanceKeepsGood(d.run, s);
    if d.run.w.key.Some? { MoveKeepsKey(d.run, s); }
    IdsStay(d.run, s);
  }

  // ----- moves of the registry itself ---------------------------------------------------------------

  /** A world that only gained log entries, and a run that drew a credential, stay good. */
  lemma NotedStaysGood(r: Lifetime.Run, w': World, now: int, drawn: set<CredDigest>, body: Body, priority: Priority, fault: AppendFault)
    requires Good(r) && r.now <= now && w' == Note(r.w, body, r.w.key, priority, fault).world
    ensures Good(r.(w := w', now := now, digests := r.digests + drawn)) && w'.key == r.w.key
  {
    NoteKeepsOpenable(r.w, body, r.w.key, priority, fault);
    QuietKeepsGood(r, r.(w := w', now := now, digests := r.digests + drawn));
  }

  lemma UnchangedStaysGood(r: Lifetime.Run, now: int, drawn: set<CredDigest>)
    requires Good(r) && r.now <= now
    ensures Good(r.(now := now, digests := r.digests + drawn))
  {
    QuietKeepsGood(r, r.(now := now, digests := r.digests + drawn));
  }

  lemma MintStaysGood(d: Daemon, actor: string, m: Minting, env: Env)
    requires Good(d.run) && d.run.now <= env.now
    ensures Good(Mint(d, actor, m, env).0.run) && Mint(d, actor, m, env).0.run.w.key == d.run.w.key
    ensures Mint(d, actor, m, env).0.run.digests == d.run.digests + {m.digest}
  {
    hide Good;
    var r := d.run;
    var w' := Opened(r.w, d.table, actor, m, env).0;
    var body := OpeningBody(r.w, actor, m, env);
    OpeningNotes(r.w, d.table, actor, m, env);
    UnchangedStaysGood(r, env.now, {m.digest});
    if w' != r.w { NotedStaysGood(r, w', env.now, {m.digest}, body, Ordinary, env.denial); }
    hide Opened;
  }

  /** What `session_open` records. */
  function OpeningBody(w: World, actor: string, m: Minting, env: Env): Body {
    if w.key.None? || w.doc.None? then DeniedBody(actor, "session.open", Locked, env)
    else if !(1 <= m.ttlSecs <= SESSION_MAX_TTL_SECS) then DeniedBody(actor, "session.open", InvalidInput, env)
    else AllowedBody(actor, "session.open", env)
  }

  lemma OpeningNotes(w: World, table: Table, actor: string, m: Minting, env: Env)
    ensures var w' := Opened(w, table, actor, m, env).0;
            w' == w || w' == Note(w, OpeningBody(w, actor, m, env), w.key, Ordinary, env.denial).world
  {
    hide Stage;
    hide AppendStaged;
  }

  lemma DroppedStaysHeld(d: Daemon, table: Table)
    requires Seated(d) && OnlyDrops(d.table, table)
    ensures Seated(SetTable(d, table))
  {
    DropsKeepSize(d.table, table);
  }

  /** The registry after a successful mint. */
  lemma MintedStaysSeated(d: Daemon, run': Lifetime.Run, table': Table, x: CredDigest, entry: HumanSession)
    requires Seated(d) && Good(run') && run'.w.key.Some? && d.run.digests + {x} <= run'.digests
    requires |table'| <= MAX_SESSIONS && x in table' && table'[x] == entry && entry.mintedAt == entry.lastUsed
    requires x !in d.table && OnlyDrops(d.table, table' - {x})
    ensures Seated(Happens(d.(run := run', table := table'), Minted(x, entry.ttlSecs, entry.mintedAt)))
  {
    hide Good;
    var e := Minted(x, entry.ttlSecs, entry.mintedAt);
    var h := d.events + [e];
    AdmittedLater(d.events, e);
    forall y | y in table' ensures y in run'.digests && Holds(h, y, table'[y]) {
      if y == x {
        assert h[|d.events|] == e && Unended(h, x, |d.events|);
      } else {
        assert y in table' - {x};
        HoldsAfter(d.events, y, d.table[y], e);
      }
    }
  }

  /** Entries dropped, and a run that stayed good. */
  lemma ThinnedStaysSeated(d: Daemon, run': Lifetime.Run, table': Table)
    requires Seated(d) && Good(run') && run'.w.key == d.run.w.key && d.run.digests <= run'.digests
    requires OnlyDrops(d.table, table')
    ensures Seated(d.(run := run', table := table'))
  {
    hide Good;
    DropsKeepSize(d.table, table');
  }

  lemma MintStaysSeated(d: Daemon, actor: string, m: Minting, env: Env)
    requires Seated(d) && d.run.now <= env.now && m.digest !in d.run.digests && Evictable(d, m)
    ensures Seated(Mint(d, actor, m, env).0)
  {
    hide Good;
    hide Opened;
    hide Holds;
    MintStaysGood(d, actor, m, env);
    MintKeepsCap(d.run.w, d.table, actor, m, env);
    var d' := Mint(d, actor, m, env).0;
    if Opened(d.run.w, d.table, actor, m, env).2.Ok? {
      MintedStaysSeated(d, d'.run, d'.table, m.digest, HumanSession(m.prefix, m.tick, m.tick, m.ttlSecs));
    } else {
      ThinnedStaysSeated(d, d'.run, d'.table);
    }
  }

  lemma SlidStaysSeated(d: Daemon, x: CredDigest, tick: int)
    requires Seated(d)
    ensures Seated(Slid(d, x, tick))
  {
    if x in d.table {
      var d' := Slid(d, x, tick);
      AdmittedLater(d.events, Renewed(x, tick));
      assert d'.table.Keys == d.table.Keys;
      assert |d'.table| == |d'.table.Keys| && |d.table| == |d.table.Keys|;
      forall y | y in d'.table ensures y in d'.run.digests && Holds(d'.events, y, d'.table[y]) {
        if y == x { HoldsRenewed(d.events, x, d.table[x], tick); }
        else { HoldsAfter(d.events, y, d.table[y], Renewed(x, tick)); }
      }
    }
  }

  /** Recording something and sliding at the same time. */
  lemma NotedSeat(d: Daemon, w': World, now: int, body: Body, priority: Priority, fault: AppendFault)
    requires Seated(d) && d.run.now <= now && w' == Note(d.run.w, body, d.run.w.key, priority, fault).world
    ensures Seated(d.(run := d.run.(w := w', now := now)))
  {
    NotedStaysGood(d.run, w', now, {}, body, priority, fault);
    assert d.run.digests + {} == d.run.digests;
  }

  lemma ValidationDrops(d: Daemon, x: CredDigest, tick: int)
    ensures var (table', prefix) := Validated(d.run.w.key.None?, d.table, x, tick);
            OnlyDrops(d.table, table') && (prefix.Some? ==> x in table')
  {
  }

  lemma TouchStaysSeated(d: Daemon, actor: string, req: Request)
    requires Seated(d) && d.run.now <= req.act.now && req.ask.SessionTouch?
    ensures Seated(SessionArm(d, actor, req).0)
  {
    hide Seated;
    hide Stage;
    hide Append;
    hide Validated;
    hide Note;
    hide Advance;
    hide AllowedBody;
    hide DeniedBody;
    hide Code;
    if req.session.Some? {
      var x := TokenDigest(req.session.value);
      var (table', prefix) := Validated(d.run.w.key.None?, d.table, x, req.tick);
      var (w', table'', result) := Touched(d.run.w, d.table, x, req.tick, req.again, req.act);
      ValidationDrops(d, x, req.tick);
      DroppedStaysHeld(d, table');
      var d1 := SetTable(d, table');
      if prefix.None? {
        NotedSeat(d1, w', req.act.now, DeniedBody("unauthenticated", "session.touch", SessionExpired, req.act), Ordinary, req.act.denial);
      } else {
        var me := SessionActor(prefix.value);
        var body := AllowedBody(me, "session.touch", req.act);
        var staged := Stage(d.run.w.handle, d.run.w.log, body, d.run.w.key, Ordinary);
        if staged.Err? {
          NotedSeat(d1, w', req.act.now, DeniedBody(me, "session.touch", AuditRefused(staged.error), req.act), Ordinary, req.act.denial);
        } else {
          NotedSeat(d1, w', req.act.now, body, Ordinary, req.act.denial);
          SlidStaysSeated(d1.(run := d1.run.(w := w', now := req.act.now)), x, req.again);
        }
      }
    }
  }

  lemma CloseStaysSeated(d: Daemon, actor: string, req: Request)
    requires Seated(d) && d.run.now <= req.act.now && req.ask.SessionClose?
    ensures Seated(SessionArm(d, actor, req).0)
  {
    hide Seated;
    hide Stage;
    hide Append;
    hide Validated;
    hide Note;
    hide Advance;
    hide AllowedBody;
    hide DeniedBody;
    hide Code;
    if req.session.Some? {
      var x := TokenDigest(req.session.value);
      var (table', prefix) := Validated(d.run.w.key.None?, d.table, x, req.tick);
      var (w', table'', result) := Closed(d.run.w, d.table, x, req.tick, req.act);
      ValidationDrops(d, x, req.tick);
      DroppedStaysHeld(d, table');
      var d1 := SetTable(d, table');
      if prefix.None? {
        NotedSeat(d1, w', req.act.now, DeniedBody("unauthenticated", "session.close", SessionExpired, req.act), Ordinary, req.act.denial);
      } else {
        NotedSeat(d1, w', req.act.now, AllowedBody(SessionActor(prefix.value), "session.close", req.act), Lifecycle, req.act.denial);
        EndStaysSeated(d1.(run := d1.run.(w := w', now := req.act.now)), x);
      }
    }
  }

  lemma EndStaysSeated(d: Daemon, x: CredDigest)
    requires Seated(d)
    ensures Seated(Happens(SetTable(d, d.table - {x}), Ended(x)))
  {
    var d' := Happens(SetTable(d, d.table - {x}), Ended(x));
    DropsKeepSize(d.table, d'.table);
    AdmittedLater(d.events, Ended(x));
    forall y | y in d'.table ensures Holds(d'.events, y, d'.table[y]) { HoldsAfter(d.events, y, d.table[y], Ended(x)); }
  }

  lemma LockStaysSeated(d: Daemon, actor: string, note: Env, env: Env)
    requires Seated(d)
    ensures Seated(LockVault(d, actor, note, env)) && LockVault(d, actor, note, env).table == map[]
  {
    var s1 := Noting(AllowedBody(actor, "vault.lock", note), true, Lifecycle, note);
    AdvanceKeepsGood(d.run, s1);
    AdvanceKeepsGood(Moved(d, s1).run, Locking(env));
    AdmittedLater(d.events, AllEnded);
  }

  // ----- whole requests ------------------------------------------------------------------------------

  lemma AcceptedStaysSeated(d: Daemon, x: CredDigest, tick: int)
    requires Seated(d) && x in d.table && !Lapsed(d.table[x], tick)
    ensures Seated(Happens(d, Accepted(x, tick)))
  {
    hide Good;
    hide Holds;
    hide Admitted;
    hide AllAdmitted;
    LiveEntryIsAdmitted(d.events, x, d.table[x], tick);
    AdmittedLater(d.events, Accepted(x, tick));
    forall y | y in d.table ensures Holds(d.events + [Accepted(x, tick)], y, d.table[y]) {
      HoldsAfter(d.events, y, d.table[y], Accepted(x, tick));
    }
  }

  lemma ReadsStaySeated(d: Daemon, actor: string, env: Env)
    requires Seated(d)
    ensures forall op, e :: Seated(Refusal(d, actor, op, e, env))
    ensures forall op :: Seated(Recorded(d, actor, op, env).0)
    ensures forall op :: Seated(GatedRead(d, actor, op, env).0)
  {
    hide Seated;
    hide Moved;
    forall op, e ensures Seated(Refusal(d, actor, op, e, env)) {
      MovedStaysSeated(d, Noting(DeniedBody(actor, op, e, env), true, Ordinary, env));
    }
    forall op ensures Seated(Recorded(d, actor, op, env).0) && Seated(GatedRead(d, actor, op, env).0) {
      MovedStaysSeated(d, Noting(AllowedBody(actor, op, env), true, Ordinary, env));
      MovedStaysSeated(d, Noting(DeniedBody(actor, op, Locked, env), false, Ordinary, env));
    }
  }

  lemma IdentifyStaysSeated(d: Daemon, req: Request)
    requires Seated(d)
    ensures Seated(Identify(d, req).0)
  {
    hide Seated;
    hide Refusal;
    ReadsStaySeated(d, "agent:unknown", req.auth);
    ReadsStaySeated(d, "unauthenticated", req.auth);
    SessionRefusalStaysSeated(d, req);
    if req.session.Some? {
      var x := TokenDigest(req.session.value);
      if x in d.table && !Lapsed(d.table[x], req.tick) { AcceptedStaysSeated(d, x, req.tick); }
    }
  }

  lemma SessionRefusalStaysSeated(d: Daemon, req: Request)
    requires Seated(d) && (forall op, e :: Seated(Refusal(d, "unauthenticated", op, e, req.auth)))
    ensures req.session.Some? ==>
              Seated(SetTable(Refusal(d, "unauthenticated", "session.use", SessionExpired, req.auth),
                              Validated(d.run.w.key.None?, d.table, TokenDigest(req.session.value), req.tick).0))
  {
    if req.session.Some? {
      hide Seated;
      hide Validated;
      hide Note;
      hide Advance;
      var d1 := Refusal(d, "unauthenticated", "session.use", SessionExpired, req.auth);
      ValidationDrops(d, TokenDigest(req.session.value), req.tick);
      RefusalKeeps(d, "unauthenticated", "session.use", SessionExpired, req.auth);
      DroppedStaysHeld(d1, Validated(d.run.w.key.None?, d.table, TokenDigest(req.session.value), req.tick).0);
    }
  }

  lemma RefusalKeeps(d: Daemon, actor: string, op: string, e: VaultError, env: Env)
    ensures var d' := Refusal(d, actor, op, e, env);
            && (d.run.now <= env.now ==> d'.run.now <= env.now)
            && d'.run.digests == d.run.digests && d'.table == d.table && d'.events == d.events
  {
    hide Note;
  }

  /** What authentication leaves for the arms to rely on. */
  lemma IdentifyKeeps(d: Daemon, req: Request)
    ensures d.run.now <= req.auth.now ==> Identify(d, req).0.run.now <= req.auth.now
    ensures Identify(d, req).0.run.digests == d.run.digests
    ensures OnlyDrops(d.table, Identify(d, req).0.table)
    ensures req.session.None? ==> Identify(d, req).0.table == d.table
    ensures Identify(d, req).0.events == d.events
         || (req.session.Some? && Identify(d, req).0.events == d.events + [Accepted(TokenDigest(req.session.value), req.tick)])
  {
    hide Refusal;
    RefusalKeeps(d, "agent:unknown", AskName(req.ask), AuthFailed, req.auth);
    RefusalKeeps(d, "unauthenticated", AskName(req.ask), AuthFailed, req.auth);
    RefusalKeeps(d, "unauthenticated", "session.use", SessionExpired, req.auth);
  }

  lemma UnlockStaysSeated(d: Daemon, actor: string, m: Minting, req: Request)
    requires Seated(d) && d.run.now <= req.act.now <= req.edge.now
    requires m.digest !in d.run.digests && Evictable(d, m)
    ensures Seated(UnlockArm(d, actor, m, req).0)
  {
    hide Seated;
    MovedStaysSeated(d, Unlocking(true, req.act));
    var m' := m.(ttlSecs := SESSION_DEFAULT_TTL_SECS);
    if UnlockStep(d.run.w, true, req.act).result.Ok? {
      MintStaysSeated(Moved(d, Unlocking(true, req.act)), actor, m', req.edge);
    }
  }

  lemma PerformedStaysSeated(d: Daemon, actor: string, c: Call, env: Env)
    requires Seated(d)
    ensures Seated(Performed(d, actor, c, env).0)
  {
    MovedStaysSeated(d, Calling(actor, c, env));
  }

  lemma AuthorizedStaysSeated(d: Daemon, id: Id, project: string, op: Op, lease: LeaseParam, env: Env)
    requires Seated(d)
    ensures Seated(AuthorizedAs(d, id, project, op, lease, env).0)
  {
    MovedStaysSeated(d, Authorizing(id, project, op, if lease.LeaseCredential? then Some(lease.credential) else None, env));
  }

  lemma InjectStaysSeated(d: Daemon, who: Identity, project: string, written: bool, req: Request)
    requires Seated(d)
    ensures Seated(InjectArm(d, who, project, written, req).0)
  {
    hide Seated;
    hide AuthorizedAs;
    hide GatedRead;
    hide Refusal;
    ReadsStaySeated(d, ActorOf(who), req.act);
    if who.AgentId? {
      AuthorizedStaysSeated(d, who.id, project, Inject, req.lease, req.auth);
      var (d1, verdict) := AuthorizedAs(d, who.id, project, Inject, req.lease, req.auth);
      if verdict.Ok? { ReadsStaySeated(d1, verdict.value, req.act); }
    }
  }

  lemma ListStaysSeated(d: Daemon, who: Identity, project: string, req: Request)
    requires Seated(d)
    ensures Seated(ListArm(d, who, project, req).0)
  {
    hide Seated;
    hide AuthorizedAs;
    hide GatedRead;
    hide Refusal;
    ReadsStaySeated(d, ActorOf(who), req.act);
    if who.AgentId? {
      AuthorizedStaysSeated(d, who.id, project, Read, req.lease, req.auth);
      var (d1, verdict) := AuthorizedAs(d, who.id, project, Read, req.lease, req.auth);
      if verdict.Ok? { ReadsStaySeated(d1, verdict.value, req.act); }
    }
  }

  lemma RevealStaysSeated(d: Daemon, who: Identity, ask: Ask, req: Request)
    requires Seated(d) && ask.AskReveal?
    ensures Seated(RevealArm(d, who, ask, req).0)
  {
    hide Seated;
    hide AuthorizedAs;
    hide Performed;
    hide Recorded;
    hide Refusal;
    ReadsStaySeated(d, ActorOf(who), req.act);
    if who.AgentId? {
      AuthorizedStaysSeated(d, who.id, ask.project, Reveal, req.lease, req.auth);
      var (d1, verdict) := AuthorizedAs(d, who.id, ask.project, Reveal, req.lease, req.auth);
      if verdict.Ok? {
        if ask.approvalId.Some? {
          PerformedStaysSeated(d1, verdict.value, RevealClaim(who.id, ask.project, ask.key, ask.approvalId.value), req.act);
        } else {
          PerformedStaysSeated(d1, verdict.value, ApprovalRequest(who.id, ask.project, ask.key, ask.freshId), req.act);
        }
      }
    }
  }

  lemma StatusStaysSeated(d: Daemon, who: Identity, row: Id, env: Env)
    requires Seated(d)
    ensures Seated(StatusArm(d, who, row, env).0)
  {
    hide Seated;
    hide Recorded;
    hide Refusal;
    ReadsStaySeated(d, ActorOf(who), env);
  }

  predicate MintReady(d: Daemon, req: Request) {
    (req.ask.VaultUnlock? || req.ask.SessionOpen?) && req.session.None?
    ==> req.ask.mint.digest !in d.run.digests && Evictable(d, req.ask.mint)
  }

  lemma SessionArmStaysSeated(d: Daemon, actor: string, req: Request)
    requires Seated(d) && d.run.now <= req.act.now && MintReady(d, req) && ManagesSessions(req.ask)
    ensures Seated(SessionArm(d, actor, req).0)
  {
    hide Seated;
    hide Mint;
    hide Refusal;
    hide Touched;
    hide Closed;
    hide Evictable;
    match req.ask
    case SessionTouch => TouchStaysSeated(d, actor, req);
    case SessionClose => CloseStaysSeated(d, actor, req);
    case SessionOpen(m) =>
      ReadsStaySeated(d, actor, req.act);
      if req.session.None? { MintStaysSeated(d, actor, m, req.act); }
  }

  lemma ArmStaysSeated(d: Daemon, who: Identity, req: Request)
    requires Seated(d) && d.run.now <= req.act.now <= req.edge.now && MintReady(d, req)
    ensures Seated(Arm(d, who, req).0)
  {
    hide Seated;
    hide Recorded;
    hide GatedRead;
    hide Refusal;
    hide Performed;
    hide SessionArm;
    hide InjectArm;
    hide ListArm;
    hide RevealArm;
    hide LockVault;
    hide UnlockArm;
    hide StatusArm;
    hide Evictable;
    hide Accepts;
    hide Code;
    var actor := ActorOf(who);
    ReadsStaySeated(d, actor, req.act);
    match req.ask
    case ApprovalsStatus(row) => StatusStaysSeated(d, who, row, req.act);
    case VaultLock => LockStaysSeated(d, actor, req.act, req.edge);
    case VaultUnlock(m) =>
      if req.session.None? { UnlockStaysSeated(d, actor, m, req); } else { NoUnlockBySession(d, actor, m, req); }
    case Edit(c) => PerformedStaysSeated(d, actor, if c.ApprovalDecide? then c.(actor := actor) else c, req.act);
    case SessionOpen(_) => SessionArmStaysSeated(d, actor, req);
    case SessionTouch => SessionArmStaysSeated(d, actor, req);
    case SessionClose => SessionArmStaysSeated(d, actor, req);
    case InjectFile(project, written) => InjectStaysSeated(d, who, project, written, req);
    case SecretsList(project) => ListStaysSeated(d, who, project, req);
    case AskLease(project, ops, ttl, id, digest) =>
      if who.AgentId? { PerformedStaysSeated(d, actor, LeaseCreate(who.id, project, ops, ttl, id, digest), req.act); }
    case ReturnLease(leaseId) =>
      PerformedStaysSeated(d, actor, LeaseRevoke(if who.AgentId? then Some(who.id) else None, leaseId), req.act);
    case AskReveal(_, _, _, _) => RevealStaysSeated(d, who, req.ask, req);
    case _ =>
  }

  lemma NoUnlockBySession(d: Daemon, actor: string, m: Minting, req: Request)
    requires req.session.Some?
    ensures UnlockArm(d, actor, m, req) == (d, Err(Code(SessionExpired)))
  {
  }

  lemma DispatchStaysSeated(d: Daemon, req: Request)
    requires Seated(d)
    ensures Seated(Dispatch(d, req).0)
  {
    hide Identify;
    hide Served;
    hide Good;
    hide Holds;
    hide AllAdmitted;
    if WellTimed(d, req) {
      var d0 := d.(clock := req.again);
      assert Seated(d0);
      hide Seated;
      IdentifyStaysSeated(d0, req);
      IdentifyKeeps(d0, req);
      var (d1, known) := Identify(d0, req);
      if known.Ok? { ServedStaysSeated(d, d1, known.value, req); }
    }
  }

  lemma ServedStaysSeated(d: Daemon, d1: Daemon, who: Identity, req: Request)
    requires Seated(d1) && WellTimed(d, req)
    requires d1.run.now <= req.auth.now && d1.run.digests == d.run.digests && (req.session.None? ==> d1.table == d.table)
    ensures Seated(Served(d1, who, req).0)
  {
    hide Seated;
    hide Arm;
    hide Moved;
    hide Slid;
    var actor, op := ActorOf(who), AskName(req.ask);
    ReadsStaySeated(d1, actor, req.act);
    ArmStaysSeated(d1, who, req);
    var (d2, out) := Arm(d1, who, req);
    if req.session.Some? { SlidStaysSeated(d2, TokenDigest(req.session.value), req.again); }
    if out.Err? {
      MovedStaysSeated(d2, Noting(BoundaryBody(actor, req, out.error), true, Ordinary, req.edge));
    }
    hide Refusal;
  }

  lemma RebootStaysSeated(d: Daemon, s: Lifetime.Step)
    requires Seated(d)
    ensures Seated(Rebooted(d, s))
  {
    hide Good;
    hide AllAdmitted;
    hide Advance;
    hide Holds;
    AdvanceKeepsGood(d.run, s);
    AdmittedLater(d.events, AllEnded);
  }

  lemma TickStaysSeated(d: Daemon, tick: int)
    requires Seated(d)
    ensures Seated(d.(clock := tick))
  {
    hide Good;
    hide AllAdmitted;
  }

  lemma LaunchStaysSeated(d: Daemon, ask: LaunchAsk, env: Env)
    requires Seated(d)
    ensures Seated(LaunchTried(d, ask, env))
  {
    hide Seated;
    hide Moved;
    var gate := LaunchGate(d, ask);
    if gate.Err? {
      MovedStaysSeated(d, Noting(RunBody(gate.error.actor, Some(gate.error.code), env), true, Ordinary, env));
    }
    hide LaunchGate;
  }

  lemma TurnStaysSeated(d: Daemon, t: Turn)
    requires Seated(d)
    ensures Seated(TurnOnce(d, t))
  {
    hide Seated;
    hide Dispatch;
    hide Rebooted;
    hide LockVault;
    hide Moved;
    match t
    case Serving(req) => DispatchStaysSeated(d, req);
    case Launching(ask, env) => LaunchStaysSeated(d, ask, env);
    case RunNoting(actor, code, env) => MovedStaysSeated(d, Noting(RunBody(actor, code, env), true, Ordinary, env));
    case Rebooting(s) => RebootStaysSeated(d, s);
    case Collecting(env) => MovedStaysSeated(d, Collect(env));
    case IdleLock(note, env, tick) =>
      TickStaysSeated(d, tick);
      LockStaysSeated(d.(clock := tick), "human", note, env);
  }

  predicate Booted(d: Daemon) { Newborn(d.run) && d.table == map[] && d.events == [] }

  /** Over every run of requests, locks, restarts and crashes: a locked vault has no human session, at most 256
      exist, and a credential authenticates only in the unlock epoch that minted it, less than 1800 s after its
      mint, and within its own window since its last allowed operation. */
  lemma {:induction false} SessionsAreBounded(d: Daemon, turns: seq<Turn>)
    requires Booted(d)
    ensures var d' := Serve(d, turns);
            && Seated(d')
            && (d'.run.w.key.None? ==> d'.table == map[])
            && |d'.table| <= MAX_SESSIONS
            && AllAdmitted(d'.events)
  {
    if turns == [] {
      NewbornIsGood(d.run);
    } else {
      SessionsAreBounded(d, turns[..|turns| - 1]);
      TurnStaysSeated(Serve(d, turns[..|turns| - 1]), turns[|turns| - 1]);
    }
  }

  // ----- refusals ------------------------------------------------------------------------------------

  /** Nothing minted, nothing renewed; entries may only have been dropped. */
  predicate RenewedNothing(d: Daemon, d': Daemon) { d'.events == d.events && OnlyDrops(d.table, d'.table) }

  lemma MintRefused(d: Daemon, actor: string, m: Minting, env: Env)
    requires Mint(d, actor, m, env).1.Err? && m.digest !in d.table
    ensures RenewedNothing(d, Mint(d, actor, m, env).0)
  {
  }

  lemma InjectRenewsNothing(d: Daemon, who: Identity, project: string, written: bool, req: Request)
    ensures RenewedNothing(d, InjectArm(d, who, project, written, req).0)
  {
    hide Advance;
    hide AuthorizeStep;
    hide Note;
    hide Perform;
    hide DigestsOf;
    hide ProjectByName;
    hide AllowedBody;
    hide DeniedBody;
  }

  lemma ListRenewsNothing(d: Daemon, who: Identity, project: string, req: Request)
    ensures RenewedNothing(d, ListArm(d, who, project, req).0)
  {
    hide Advance;
    hide AuthorizeStep;
    hide Note;
    hide Perform;
    hide DigestsOf;
    hide ProjectByName;
    hide AllowedBody;
    hide DeniedBody;
  }

  lemma StatusRenewsNothing(d: Daemon, who: Identity, row: Id, req: Request)
    ensures RenewedNothing(d, StatusArm(d, who, row, req.act).0)
  {
    hide Advance;
    hide AuthorizeStep;
    hide Note;
    hide Perform;
    hide DigestsOf;
    hide ProjectByName;
    hide AllowedBody;
    hide DeniedBody;
  }

  lemma RevealRenewsNothing(d: Daemon, who: Identity, req: Request)
    requires req.ask.AskReveal?
    ensures RenewedNothing(d, RevealArm(d, who, req.ask, req).0)
  {
    hide Advance;
    hide AuthorizeStep;
    hide Note;
    hide Perform;
    hide DigestsOf;
    hide ProjectByName;
    hide AllowedBody;
    hide DeniedBody;
  }

  lemma SessionArmRefused(d: Daemon, actor: string, req: Request)
    requires ManagesSessions(req.ask) && SessionArm(d, actor, req).1.Err?
    requires req.ask.SessionOpen? && req.session.None? ==> req.ask.mint.digest !in d.table
    ensures RenewedNothing(d, SessionArm(d, actor, req).0)
  {
    hide Advance;
    hide Note;
    hide Stage;
    if req.ask.SessionOpen? && req.session.None? && req.passphrase.Some? { MintRefused(d, actor, req.ask.mint, req.act); }
  }

  lemma RefusedArmRenewsNothing(d: Daemon, who: Identity, req: Request)
    requires Arm(d, who, req).1.Err?
    requires req.ask.SessionOpen? && req.session.None? ==> req.ask.mint.digest !in d.table
    ensures RenewedNothing(d, Arm(d, who, req).0)
  {
    hide Advance;
    hide Note;
    hide Perform;
    hide InjectArm;
    hide ListArm;
    hide StatusArm;
    hide RevealArm;
    hide SessionArm;
    hide Mint;
    hide UnlockStep;
    match req.ask
    case InjectFile(project, written) => InjectRenewsNothing(d, who, project, written, req);
    case SecretsList(project) => ListRenewsNothing(d, who, project, req);
    case ApprovalsStatus(row) => StatusRenewsNothing(d, who, row, req);
    case AskReveal(_, _, _, _) => RevealRenewsNothing(d, who, req);
    case SessionOpen(_) => SessionArmRefused(d, ActorOf(who), req);
    case SessionTouch => SessionArmRefused(d, ActorOf(who), req);
    case SessionClose => SessionArmRefused(d, ActorOf(who), req);
    case _ =>
  }

  lemma FreshIsNotSeated(d: Daemon, x: CredDigest)
    requires Seated(d) && x !in d.run.digests
    ensures x !in d.table
  {
    hide Good;
  }

  /** A refused request slides no window and mints nothing: failing calls cannot keep a credential alive. */
  lemma RefusalsRenewNothing(d: Daemon, req: Request)
    requires Seated(d) && Dispatch(d, req).1.Err?
    ensures var d' := Dispatch(d, req).0;
            && OnlyDrops(d.table, d'.table)
            && (d'.events == d.events
                || (req.session.Some? && d'.events == d.events + [Accepted(TokenDigest(req.session.value), req.tick)]))
  {
    hide Seated;
    hide Identify;
    hide Served;
    if WellTimed(d, req) {
      if req.ask.SessionOpen? { FreshIsNotSeated(d, req.ask.mint.digest); }
      var d0 := d.(clock := req.again);
      IdentifyKeeps(d0, req);
      var (d1, known) := Identify(d0, req);
      if known.Ok? { ServedRefusalRenewsNothing(d1, known.value, req); }
    }
  }

  lemma ServedRefusalRenewsNothing(d1: Daemon, who: Identity, req: Request)
    requires Served(d1, who, req).1.Err?
    requires req.ask.SessionOpen? && req.session.None? ==> req.ask.mint.digest !in d1.table
    ensures RenewedNothing(d1, Served(d1, who, req).0)
  {
    hide Arm;
    hide Advance;
    if Arm(d1, who, req).1.Err? { RefusedArmRenewsNothing(d1, who, req); }
  }
}
