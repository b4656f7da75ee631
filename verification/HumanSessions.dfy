/** The memory-only registry of human sessions: mint with eviction, validate, slide, touch, close. */
module HumanSessions {
  import opened Prelude
  import opened Audit
  import opened Model
  import opened Commit
  import opened Lifetime

  /** Instants are nanoseconds of the monotonic clock. */
  datatype HumanSession = HumanSession(prefix: string, mintedAt: int, lastUsed: int, ttlSecs: nat)

  type Table = map<CredDigest, HumanSession>

  const SESSION_DEFAULT_TTL_SECS: nat := 300
  const SESSION_MAX_TTL_SECS: nat := 1800
  const MAX_SESSIONS: nat := 256

  /** `now.duration_since(since).as_secs()`: saturating, rounded down. */
  function Elapsed(now: int, since: int): nat { if now <= since then 0 else (now - since) / SECOND }

  predicate Lapsed(e: HumanSession, now: int) {
    Elapsed(now, e.lastUsed) >= e.ttlSecs || Elapsed(now, e.mintedAt) >= SESSION_MAX_TTL_SECS
  }

  /** `sweep_lapsed_sessions` of an unlocked session. */
  function SweptTable(table: Table, now: int): Table { map d | d in table && !Lapsed(table[d], now) :: table[d] }

  /** `min_by_key(|e| (e.last_used, e.minted_at))`; ties may fall either way. */
  predicate Oldest(table: Table, d: CredDigest) {
    d in table && forall x :: x in table ==> Precedes(table[d], table[x])
  }

  predicate Precedes(a: HumanSession, b: HumanSession) {
    a.lastUsed < b.lastUsed || (a.lastUsed == b.lastUsed && a.mintedAt <= b.mintedAt)
  }

  /** Make room for one more. `victim` is the entry the iteration order picked among the oldest. */
  function MadeRoom(table: Table, victim: CredDigest): Table {
    if |table| >= MAX_SESSIONS then table - {victim} else table
  }

  function SessionActor(prefix: string): string { "human(session:" + prefix + ")" }

  datatype Minting = Minting(ttlSecs: nat, digest: CredDigest, prefix: string, victim: CredDigest, tick: int)

  /** `session_open`. Eviction happens before the audit preflight, so a refused mint adds nothing but may have
      evicted. */
  function Opened(w: World, table: Table, actor: string, m: Minting, env: Env): (World, Table, Result<(), VaultError>) {
    if w.key.None? || w.doc.None? then
      (DenialNoted(w, DeniedBody(actor, "session.open", Locked, env), env.denial), table, Err(Locked))
    else if !(1 <= m.ttlSecs <= SESSION_MAX_TTL_SECS) then
      (DenialNoted(w, DeniedBody(actor, "session.open", InvalidInput, env), env.denial), table, Err(InvalidInput))
    else
      var roomy := MadeRoom(SweptTable(table, m.tick), m.victim);
      var staged := Stage(w.handle, w.log, AllowedBody(actor, "session.open", env), w.key, Ordinary);
      if staged.Err? then (w, roomy, Err(AuditRefused(staged.error)))
      else
        var minted := roomy[m.digest := HumanSession(m.prefix, m.tick, m.tick, m.ttlSecs)];
        var r := AppendStaged(w.handle, w.log, staged.value, env.denial);
        var w' := w.(handle := r.handle, log := r.file);
        if r.result.Err? then (w', minted - {m.digest}, Err(AuditRefused(AuditWrite))) else (w', minted, Ok(()))
  }

  /** `validate_session`: never slides, drops a lapsed entry. */
  function Validated(locked: bool, table: Table, d: CredDigest, tick: int): (Table, Option<string>) {
    if d !in table then (table, None)
    else if locked || Lapsed(table[d], tick) then (table - {d}, None)
    else (table, Some(table[d].prefix))
  }

  /** `authorize_session`. */
  function Authenticated(w: World, table: Table, d: CredDigest, tick: int, env: Env)
    : (World, Table, Result<string, VaultError>)
  {
    var (table', prefix) := Validated(w.key.None?, table, d, tick);
    if prefix.None? then
      (DenialNoted(w, DeniedBody("unauthenticated", "session.use", SessionExpired, env), env.denial), table', Err(SessionExpired))
    else (w, table', Ok(SessionActor(prefix.value)))
  }

  /** `slide_session`. */
  function SlidTo(table: Table, d: CredDigest, tick: int): Table {
    if d in table then table[d := table[d].(lastUsed := tick)] else table
  }

  /** `session_touch`: an ordinary preflight, then the slide; a refused touch renews nothing. `again` is the clock
      at the slide. */
  function Touched(w: World, table: Table, d: CredDigest, tick: int, again: int, env: Env)
    : (World, Table, Result<string, VaultError>)
  {
    var (table', prefix) := Validated(w.key.None?, table, d, tick);
    if prefix.None? then
      (DenialNoted(w, DeniedBody("unauthenticated", "session.touch", SessionExpired, env), env.denial), table', Err(SessionExpired))
    else
      var actor := SessionActor(prefix.value);
      var body := AllowedBody(actor, "session.touch", env);
      var staged := Stage(w.handle, w.log, body, w.key, Ordinary);
      if staged.Err? then
        var e := AuditRefused(staged.error);
        (DenialNoted(w, DeniedBody(actor, "session.touch", e, env), env.denial), table', Err(e))
      else (Note(w, body, w.key, Ordinary, env.denial).world, SlidTo(table', d, again), Ok(actor))
  }

  /** `session_close`: the entry goes whether or not the close can be recorded. */
  function Closed(w: World, table: Table, d: CredDigest, tick: int, env: Env): (World, Table, Result<string, VaultError>) {
    var (table', prefix) := Validated(w.key.None?, table, d, tick);
    if prefix.None? then
      (DenialNoted(w, DeniedBody("unauthenticated", "session.close", SessionExpired, env), env.denial), table', Err(SessionExpired))
    else
      var actor := SessionActor(prefix.value);
      (Note(w, AllowedBody(actor, "session.close", env), w.key, Lifecycle, env.denial).world, table' - {d}, Ok(actor))
  }

  // ----- what each of them does to the registry ------------------------------------------

  /** Entries of `table'` come from `table` unchanged. */
  predicate OnlyDrops(table: Table, table': Table) { forall d :: d in table' ==> d in table && table'[d] == table[d] }

  lemma DropsKeepSize(table: Table, table': Table)
    requires OnlyDrops(table, table')
    ensures |table'| <= |table|
  {
    SubsetSize(table'.Keys, table.Keys);
    assert |table'| == |table'.Keys| && |table| == |table.Keys|;
  }

  lemma RoomIsMade(table: Table, m: Minting)
    requires |table| <= MAX_SESSIONS
    requires var swept := SweptTable(table, m.tick); |swept| >= MAX_SESSIONS ==> Oldest(swept, m.victim)
    ensures var roomy := MadeRoom(SweptTable(table, m.tick), m.victim); |roomy| < MAX_SESSIONS && OnlyDrops(table, roomy)
  {
    var swept := SweptTable(table, m.tick);
    var roomy := MadeRoom(swept, m.victim);
    assert OnlyDrops(table, swept);
    DropsKeepSize(table, swept);
    if |swept| >= MAX_SESSIONS {
      assert roomy.Keys == swept.Keys - {m.victim};
      assert |roomy| == |roomy.Keys| && |swept| == |swept.Keys|;
    }
  }

  /** There is always an oldest entry to evict. */
  lemma {:induction false} SomeOldest(table: Table) returns (d: CredDigest)
    requires table != map[]
    ensures Oldest(table, d)
    decreases |table|
  {
    d :| d in table;
    var rest := table - {d};
    assert forall x :: x in table ==> x == d || x in rest;
    if rest != map[] {
      assert rest.Keys == table.Keys - {d};
      assert |rest| == |rest.Keys| && |table| == |table.Keys|;
      var e := SomeOldest(rest);
      forall x | x in table && x != d ensures x in rest && rest[x] == table[x] {}
      if !Precedes(table[d], table[e]) { d := e; }
    }
  }

  lemma OneMoreEntry(roomy: Table, x: CredDigest, e: HumanSession)
    ensures |roomy[x := e]| <= |roomy| + 1
    ensures x !in roomy ==> roomy[x := e] - {x} == roomy
  {
    assert roomy[x := e].Keys == roomy.Keys + {x};
    assert |roomy[x := e]| == |roomy[x := e].Keys| && |roomy| == |roomy.Keys|;
    if x !in roomy { assert roomy[x := e] - {x} == roomy; }
  }

  /** The least recently used of 256 live entries. */
  predicate Displaced(table: Table, m: Minting, d: CredDigest) {
    && d == m.victim && d in table && |SweptTable(table, m.tick)| == MAX_SESSIONS
    && forall x :: x in table && !Lapsed(table[x], m.tick) ==> Precedes(table[d], table[x])
  }

  /** Making room drops lapsed entries, and a live one only when 256 live ones leave no room. */
  lemma WhatRoomCosts(table: Table, m: Minting, d: CredDigest)
    requires |table| <= MAX_SESSIONS
    requires var swept := SweptTable(table, m.tick); |swept| >= MAX_SESSIONS ==> Oldest(swept, m.victim)
    requires d in table && d !in MadeRoom(SweptTable(table, m.tick), m.victim) && !Lapsed(table[d], m.tick)
    ensures Displaced(table, m, d)
  {
    var swept := SweptTable(table, m.tick);
    DropsKeepSize(table, swept);
    assert d in swept && swept[d] == table[d];
    forall x | x in table && !Lapsed(table[x], m.tick) ensures Precedes(table[d], table[x]) {
      assert x in swept && swept[x] == table[x];
    }
  }

  /** A mint keeps the cap, adds only the new entry, and adds it only when it reports success. The entries it
      displaces were lapsed, or the least recently used one when 256 live sessions left no room. */
  lemma MintKeepsCap(w: World, table: Table, actor: string, m: Minting, env: Env)
    requires |table| <= MAX_SESSIONS && m.digest !in table
    requires var swept := SweptTable(table, m.tick); |swept| >= MAX_SESSIONS ==> Oldest(swept, m.victim)
    ensures var (w', table', result) := Opened(w, table, actor, m, env);
            && |table'| <= MAX_SESSIONS
            && (result.Ok? ==> w.key.Some? && w.doc.Some? && m.digest in table'
                               && table'[m.digest] == HumanSession(m.prefix, m.tick, m.tick, m.ttlSecs)
                               && 1 <= m.ttlSecs <= SESSION_MAX_TTL_SECS)
            && OnlyDrops(table, table' - {m.digest})
            && (result.Err? ==> OnlyDrops(table, table'))
            && (forall d :: d in table && d !in table' && !Lapsed(table[d], m.tick) ==> Displaced(table, m, d))
  {
    RoomIsMade(table, m);
    var roomy := MadeRoom(SweptTable(table, m.tick), m.victim);
    OneMoreEntry(roomy, m.digest, HumanSession(m.prefix, m.tick, m.tick, m.ttlSecs));
    forall d | d in table && d !in roomy && !Lapsed(table[d], m.tick) ensures Displaced(table, m, d) {
      WhatRoomCosts(table, m, d);
    }
    OpenedTable(w, table, actor, m, env);
    hide Opened;
    hide Displaced;
    hide SweptTable;
    hide MadeRoom;
    hide Lapsed;
  }

  /** The registry after `session_open`: untouched, with room made, or with the new entry. */
  lemma OpenedTable(w: World, table: Table, actor: string, m: Minting, env: Env)
    requires m.digest !in MadeRoom(SweptTable(table, m.tick), m.victim)
    ensures var (w', table', result) := Opened(w, table, actor, m, env);
            var roomy := MadeRoom(SweptTable(table, m.tick), m.victim);
            && (result.Err? ==> table' == table || table' == roomy)
            && (result.Ok? ==> w.key.Some? && w.doc.Some? && 1 <= m.ttlSecs <= SESSION_MAX_TTL_SECS
                               && table' == roomy[m.digest := HumanSession(m.prefix, m.tick, m.tick, m.ttlSecs)])
  {
    OneMoreEntry(MadeRoom(SweptTable(table, m.tick), m.victim), m.digest, HumanSession(m.prefix, m.tick, m.tick, m.ttlSecs));
    hide SweptTable;
    hide MadeRoom;
    hide Stage;
    hide AppendStaged;
    hide Note;
  }
}
