/** The live-run registry and the protocol its users follow: reserve, spawn, activate, commit, drain, finish. */
module RunRegistry {
  import opened Prelude

  type RunId = string

  /** `pgid` is 0 until the child has been spawned and activated. */
  datatype RunMeta = RunMeta(agent: string, project: string, pid: int, pgid: int)

  type Registry = map<RunId, RunMeta>

  datatype ReserveError = Duplicate | Busy

  const MAX_RUNS_PER_AGENT: nat := 4
  const MAX_RUNS_TOTAL: nat := 16

  function Owned(reg: Registry, agent: string): set<RunId> { set id | id in reg && reg[id].agent == agent }

  function Reserved(reg: Registry, agent: string, project: string, id: RunId): Result<Registry, ReserveError> {
    if id in reg then Err(Duplicate)
    else if |reg| >= MAX_RUNS_TOTAL then Err(Busy)
    else if |Owned(reg, agent)| >= MAX_RUNS_PER_AGENT then Err(Busy)
    else Ok(reg[id := RunMeta(agent, project, 0, 0)])
  }

  predicate Matches(m: RunMeta, agent: Option<string>, project: Option<string>) {
    (agent.None? || m.agent == agent.value) && (project.None? || m.project == project.value)
  }

  function Matching(reg: Registry, agent: Option<string>, project: Option<string>): Registry {
    map id | id in reg && Matches(reg[id], agent, project) :: reg[id]
  }

  ghost predicate WithinCaps(reg: Registry) {
    |reg| <= MAX_RUNS_TOTAL && forall agent :: |Owned(reg, agent)| <= MAX_RUNS_PER_AGENT
  }

  /** A slot is reserved exactly for a new id, while fewer than 16 runs are registered and fewer than 4 of this agent's. It
      is the agent's, not activated, and no other entry changes. */
  lemma ReservedIff(reg: Registry, agent: string, project: string, id: RunId)
    ensures Reserved(reg, agent, project, id).Ok? <==> id !in reg && |reg| < 16 && |Owned(reg, agent)| < 4
    ensures Reserved(reg, agent, project, id) == Err(Duplicate) <==> id in reg
    ensures Reserved(reg, agent, project, id).Ok? ==>
              var reg' := Reserved(reg, agent, project, id).value;
              reg'.Keys == reg.Keys + {id} && reg' - {id} == reg && reg'[id].agent == agent && reg'[id].project == project
              && reg'[id].pgid == 0 && Owned(reg', agent) == Owned(reg, agent) + {id}
  {
    if Reserved(reg, agent, project, id).Ok? {
      var reg' := Reserved(reg, agent, project, id).value;
      assert reg' - {id} == reg;
    }
  }

  // ----- the object ------------------------------------------------------------------

  class Registrar {
    var inner: Registry

    constructor ()
      ensures inner == map[]
    {
      inner := map[];
    }

    /** `try_reserve`: the checks and the insertion happen under one lock. */
    method TryReserve(agent: string, project: string, id: RunId) returns (r: Result<Reservation, ReserveError>)
      modifies this
      ensures r.Ok? <==> Reserved(old(inner), agent, project, id).Ok?
      ensures r.Ok? ==> fresh(r.value) && inner == Reserved(old(inner), agent, project, id).value
                        && r.value.registry == this && r.value.runId == id && !r.value.committed
      ensures r.Err? ==> inner == old(inner) && r.error == Reserved(old(inner), agent, project, id).error
    {
      if id in inner { return Err(Duplicate); }
      if |inner| >= MAX_RUNS_TOTAL { return Err(Busy); }
      var owned := CountFor(agent);
      if owned >= MAX_RUNS_PER_AGENT { return Err(Busy); }
      inner := inner[id := RunMeta(agent, project, 0, 0)];
      var reservation := new Reservation(this, id);
      return Ok(reservation);
    }

    method CountFor(agent: string) returns (n: nat)
      ensures n == |Owned(inner, agent)|
    {
      var rest: set<RunId>, counted: set<RunId> := inner.Keys, {};
      n := 0;
      while rest != {}
        invariant rest <= inner.Keys
        invariant counted == set id | id in inner && id !in rest && inner[id].agent == agent
        invariant n == |counted|
        decreases |rest|
      {
        var id :| id in rest;
        rest := rest - {id};
        if inner[id].agent == agent {
          n, counted := n + 1, counted + {id};
        }
      }
      assert counted == Owned(inner, agent);
    }

    /** `remove`: whoever gets the entry owns the termination of its process group. */
    method Remove(id: RunId) returns (r: Option<RunMeta>)
      modifies this
      ensures inner == old(inner) - {id}
      ensures r == if id in old(inner) then Some(old(inner)[id]) else None
    {
      if id !in inner { return None; }
      r := Some(inner[id]);
      inner := inner - {id};
    }

    /** `take_matching`. */
    method TakeMatching(agent: Option<string>, project: Option<string>) returns (taken: Registry)
      modifies this
      ensures taken == Matching(old(inner), agent, project)
      ensures inner == old(inner) - taken.Keys
    {
      ghost var before := inner;
      var rest := inner.Keys;
      taken := map[];
      while rest != {}
        invariant rest <= before.Keys
        invariant forall id :: id in taken <==> id in before && id !in rest && Matches(before[id], agent, project)
        invariant forall id :: id in taken ==> taken[id] == before[id]
        invariant forall id :: id in inner <==> id in before && id !in taken
        invariant forall id :: id in inner ==> inner[id] == before[id]
        decreases |rest|
      {
        var id :| id in rest;
        rest := rest - {id};
        if Matches(inner[id], agent, project) {
          taken := taken[id := inner[id]];
          inner := inner - {id};
        }
      }
      assert taken == Matching(before, agent, project);
      assert inner == before - taken.Keys;
    }
  }

  class Reservation {
    const registry: Registrar
    const runId: RunId
    var committed: bool

    constructor (registry: Registrar, runId: RunId)
      ensures this.registry == registry && this.runId == runId && !committed
    {
      this.registry, this.runId, this.committed := registry, runId, false;
    }

    /** `activate`: fails when a drain already took the entry. */
    method Activate(pid: int, pgid: int) returns (ok: bool)
      modifies registry
      ensures ok <==> runId in old(registry.inner)
      ensures registry.inner == if ok then old(registry.inner)[runId := old(registry.inner)[runId].(pid := pid, pgid := pgid)]
                                else old(registry.inner)
    {
      if runId !in registry.inner { return false; }
      registry.inner := registry.inner[runId := registry.inner[runId].(pid := pid, pgid := pgid)];
      return true;
    }

    method Commit()
      modifies this
      ensures committed
    {
      committed := true;
    }

    /** `Drop`: an uncommitted reservation gives its slot back. */
    method Drop()
      modifies registry
      ensures registry.inner == if committed then old(registry.inner) else old(registry.inner) - {runId}
    {
      if !committed { var _ := registry.Remove(runId); }
    }
  }

  /** The process groups terminated so far. */
  class Groups {
    var terminated: seq<int>

    constructor ()
      ensures terminated == []
    {
      terminated := [];
    }

    /** `terminate_group`. */
    method Terminate(pgid: int)
      modifies this
      ensures terminated == if pgid > 0 then old(terminated) + [pgid] else old(terminated)
    {
      if pgid <= 0 { return; }
      terminated := terminated + [pgid];
    }
  }

  /** `finish_run`: only the party that removed the entry terminates the group. */
  method FinishRun(registry: Registrar, groups: Groups, id: RunId, pgid: int)
    modifies registry, groups
    ensures registry.inner == old(registry.inner) - {id}
    ensures groups.terminated == if id in old(registry.inner) && pgid > 0 then old(groups.terminated) + [pgid]
                                 else old(groups.terminated)
  {
    var removed := registry.Remove(id);
    if removed.Some? { groups.Terminate(pgid); }
  }

  /** The entries of `taken` in group `g`, those of `rest` left out. */
  ghost function InGroup(taken: Registry, rest: set<RunId>, g: int): set<RunId> {
    set id | id in taken && id !in rest && taken[id].pgid == g
  }

  /** How often `g` was terminated since `before`. */
  ghost function Kills(terminated: seq<int>, before: seq<int>, g: int): nat
    requires before <= terminated
  {
    multiset(terminated[|before|..])[g]
  }

  lemma NoGroupYet(taken: Registry)
    ensures forall g :: InGroup(taken, taken.Keys, g) == {}
  {
  }

  lemma GroupGrows(taken: Registry, rest: set<RunId>, id: RunId, g: int)
    requires id in rest && id in taken
    ensures |InGroup(taken, rest - {id}, g)| == |InGroup(taken, rest, g)| + One(taken[id].pgid == g)
  {
    assert InGroup(taken, rest - {id}, g) == InGroup(taken, rest, g) + if taken[id].pgid == g then {id} else {};
  }

  /** `terminate_matching_runs`: every activated entry it took is terminated, once. */
  method TerminateMatchingRuns(registry: Registrar, groups: Groups, agent: Option<string>, project: Option<string>)
    returns (taken: Registry)
    modifies registry, groups
    ensures taken == Matching(old(registry.inner), agent, project)
    ensures registry.inner == old(registry.inner) - taken.Keys
    ensures old(groups.terminated) <= groups.terminated
    ensures forall g :: Kills(groups.terminated, old(groups.terminated), g) == if g > 0 then |InGroup(taken, {}, g)| else 0
  {
    hide InGroup;
    taken := registry.TakeMatching(agent, project);
    var rest := taken.Keys;
    ghost var before := groups.terminated;
    NoGroupYet(taken);
    while rest != {}
      invariant rest <= taken.Keys && before <= groups.terminated
      invariant registry.inner == old(registry.inner) - taken.Keys
      invariant forall g :: Kills(groups.terminated, before, g) == if g > 0 then |InGroup(taken, rest, g)| else 0
      decreases |rest|
    {
      var id :| id in rest;
      ghost var earlier, was, g0 := groups.terminated, rest, taken[id].pgid;
      rest := rest - {id};
      groups.Terminate(taken[id].pgid);
      forall g ensures Kills(groups.terminated, before, g) == if g > 0 then |InGroup(taken, rest, g)| else 0 {
        assert Kills(earlier, before, g) == if g > 0 then |InGroup(taken, was, g)| else 0;
        if g0 > 0 { assert groups.terminated[|before|..] == earlier[|before|..] + [g0]; }
        GroupGrows(taken, was, id, g);
      }
    }
  }

  // ----- the protocol, interleaved ---------------------------------------------------------

  /** Where one launch stands. The child of a launch is spawned with a positive group id. */
  datatype Phase =
    | Holding                    // reserved, nothing spawned
    | Spawned(pgid: int)
    | Orphaned(pgid: int)        // activation failed: the handler owns the group
    | Activated(pgid: int)
    | Committed(pgid: int)
    | Finishing(pgid: int)       // removed by finish_run, not yet terminated
    | Over

  datatype Floor = Floor(registry: Registry, phases: map<RunId, Phase>, drains: seq<Registry>,
                         children: set<RunId>, terminated: seq<RunId>)

  datatype Move =
    | Reserve(agent: string, project: string, id: RunId)
    | GiveUp(id: RunId)                      // the audit entry or the spawn failed: the reservation is dropped
    | Spawn(id: RunId, pgid: int)
    | Activate(id: RunId)
    | Commit(id: RunId)
    | KillOrphan(id: RunId)
    | Finish(id: RunId)
    | KillFinished(id: RunId)
    | Drain(onlyAgent: Option<string>, onlyProject: Option<string>)
    | DrainNext(drain: nat, id: RunId)       // a drain deals with one of the entries it took

  function SetPhase(f: Floor, id: RunId, p: Phase): Floor { f.(phases := f.phases[id := p]) }

  /** One atomic action of one thread; an action that is not enabled does nothing. */
  function Step(f: Floor, m: Move): Floor {
    match m
    case Reserve(agent, project, id) =>
      var r := Reserved(f.registry, agent, project, id);
      if id in f.phases || r.Err? then f else SetPhase(f, id, Holding).(registry := r.value)
    case GiveUp(id) =>
      if !(id in f.phases && f.phases[id].Holding?) then f else SetPhase(f, id, Over).(registry := f.registry - {id})
    case Spawn(id, pgid) =>
      if !(id in f.phases && f.phases[id].Holding? && pgid > 0) then f
      else SetPhase(f, id, Spawned(pgid)).(children := f.children + {id})
    case Activate(id) =>
      if !(id in f.phases && f.phases[id].Spawned?) then f
      else
        var pgid := f.phases[id].pgid;
        if id in f.registry
        then SetPhase(f, id, Activated(pgid)).(registry := f.registry[id := f.registry[id].(pid := pgid, pgid := pgid)])
        else SetPhase(f, id, Orphaned(pgid))
    case Commit(id) =>
      if !(id in f.phases && f.phases[id].Activated?) then f else SetPhase(f, id, Committed(f.phases[id].pgid))
    case KillOrphan(id) =>
      if !(id in f.phases && f.phases[id].Orphaned?) then f
      else SetPhase(f, id, Over).(registry := f.registry - {id}, terminated := f.terminated + [id])
    case Finish(id) =>
      if !(id in f.phases && f.phases[id].Committed?) then f
      else if id in f.registry then SetPhase(f, id, Finishing(f.phases[id].pgid)).(registry := f.registry - {id})
      else SetPhase(f, id, Over)
    case KillFinished(id) =>
      if !(id in f.phases && f.phases[id].Finishing?) then f
      else SetPhase(f, id, Over).(terminated := f.terminated + [id])
    case Drain(agent, project) =>
      var taken := Matching(f.registry, agent, project);
      f.(registry := f.registry - taken.Keys, drains := f.drains + [taken])
    case DrainNext(k, id) =>
      if !(k < |f.drains| && id in f.drains[k]) then f
      else
        f.(drains := f.drains[k := f.drains[k] - {id}],
           terminated := if f.drains[k][id].pgid > 0 then f.terminated + [id] else f.terminated)
  }

  function Play(moves: seq<Move>): Floor {
    if moves == [] then Floor(map[], map[], [], {}, []) else Step(Play(moves[..|moves| - 1]), moves[|moves| - 1])
  }

  // ----- who owns the termination of a child ------------------------------------------------

  function One(b: bool): nat { if b then 1 else 0 }

  predicate Activates(reg: Registry, id: RunId) { id in reg && reg[id].pgid > 0 }

  function HeldByDrains(drains: seq<Registry>, id: RunId): nat {
    if drains == [] then 0
    else HeldByDrains(drains[..|drains| - 1], id) + One(Activates(drains[|drains| - 1], id))
  }

  function Times(terminated: seq<RunId>, id: RunId): nat { multiset(terminated)[id] }

  /** The handler itself owns the group: spawned and not yet handed over, or taken back. */
  predicate WithHandler(f: Floor, id: RunId) {
    id in f.phases && (f.phases[id].Spawned? || f.phases[id].Orphaned? || f.phases[id].Finishing?)
  }

  /** Owners of the termination of `id`'s group, present and past. */
  function Owners(f: Floor, id: RunId): nat {
    One(WithHandler(f, id)) + One(Activates(f.registry, id)) + HeldByDrains(f.drains, id) + Times(f.terminated, id)
  }

  predicate Live(p: Phase) { p.Holding? || p.Spawned? || p.Activated? || p.Committed? }

  predicate Accounted(f: Floor, id: RunId) {
    && Owners(f, id) == One(id in f.children)
    && (id in f.registry ==> id in f.phases && Live(f.phases[id])
                             && (f.registry[id].pgid > 0 <==> f.phases[id].Activated? || f.phases[id].Committed?))
    && (id in f.children ==> id in f.phases && !f.phases[id].Holding?)
    && (id in f.phases && (f.phases[id].Orphaned? || f.phases[id].Finishing?) ==> id !in f.registry)
    && (id in f.phases && !f.phases[id].Holding? && !f.phases[id].Over? ==> id in f.children && f.phases[id].pgid > 0)
  }

  ghost predicate Balanced(f: Floor) {
    WithinCaps(f.registry) && forall id :: Accounted(f, id)
  }

  lemma {:induction false} HeldUpdate(drains: seq<Registry>, k: nat, taken: Registry, id: RunId)
    requires k < |drains|
    ensures HeldByDrains(drains[k := taken], id) + One(Activates(drains[k], id))
         == HeldByDrains(drains, id) + One(Activates(taken, id))
  {
    var n := |drains| - 1;
    if k == n {
      assert drains[k := taken][..n] == drains[..n];
    } else {
      assert drains[k := taken][..n] == drains[..n][k := taken];
      HeldUpdate(drains[..n], k, taken, id);
    }
  }

  lemma FewerStayWithinCaps(reg: Registry, reg': Registry)
    requires WithinCaps(reg) && forall id :: id in reg' ==> id in reg && reg'[id].agent == reg[id].agent
    ensures WithinCaps(reg')
  {
    SubsetSize(reg'.Keys, reg.Keys);
    assert |reg'| == |reg'.Keys| && |reg| == |reg.Keys|;
    forall agent ensures |Owned(reg', agent)| <= MAX_RUNS_PER_AGENT { SubsetSize(Owned(reg', agent), Owned(reg, agent)); }
  }

  lemma OwnedAfterInsert(reg: Registry, id: RunId, m: RunMeta, agent: string)
    requires id !in reg
    ensures |Owned(reg[id := m], agent)| == |Owned(reg, agent)| + One(m.agent == agent)
  {
    if m.agent == agent { assert Owned(reg[id := m], agent) == Owned(reg, agent) + {id}; }
    else { assert Owned(reg[id := m], agent) == Owned(reg, agent); }
  }

  lemma ReservationStaysWithinCaps(reg: Registry, agent: string, project: string, id: RunId)
    requires WithinCaps(reg) && Reserved(reg, agent, project, id).Ok?
    ensures WithinCaps(Reserved(reg, agent, project, id).value)
  {
    hide Owned;
    forall a ensures |Owned(Reserved(reg, agent, project, id).value, a)| <= MAX_RUNS_PER_AGENT {
      OwnedAfterInsert(reg, id, RunMeta(agent, project, 0, 0), a);
    }
  }

  lemma StepKeepsCaps(f: Floor, m: Move)
    requires WithinCaps(f.registry)
    ensures WithinCaps(Step(f, m).registry)
  {
    hide WithinCaps;
    if m.Reserve? {
      if Reserved(f.registry, m.agent, m.project, m.id).Ok? { ReservationStaysWithinCaps(f.registry, m.agent, m.project, m.id); }
      hide Reserved;
    } else {
      FewerStayWithinCaps(f.registry, Step(f, m).registry);
    }
  }

  lemma HeldSnoc(drains: seq<Registry>, taken: Registry, id: RunId)
    ensures HeldByDrains(drains + [taken], id) == HeldByDrains(drains, id) + One(Activates(taken, id))
  {
    assert (drains + [taken])[..|drains|] == drains;
  }

  lemma DrainKeepsAccounts(f: Floor, m: Move, id: RunId)
    requires Accounted(f, id) && m.Drain?
    ensures Accounted(Step(f, m), id)
  {
    hide HeldByDrains;
    hide Times;
    HeldSnoc(f.drains, Matching(f.registry, m.onlyAgent, m.onlyProject), id);
  }

  lemma DrainNextKeepsAccounts(f: Floor, m: Move, id: RunId)
    requires Accounted(f, id) && m.DrainNext?
    ensures Accounted(Step(f, m), id)
  {
    hide HeldByDrains;
    hide Times;
    if m.drain < |f.drains| && m.id in f.drains[m.drain] {
      HeldUpdate(f.drains, m.drain, f.drains[m.drain] - {m.id}, id);
      if f.drains[m.drain][m.id].pgid > 0 { TimesSnoc(f.terminated, m.id, id); }
    }
  }

  /** Nothing about this launch differs. */
  predicate SameFor(f: Floor, f': Floor, id: RunId) {
    && f'.drains == f.drains
    && (id in f'.phases <==> id in f.phases) && (id in f.phases ==> f'.phases[id] == f.phases[id])
    && (id in f'.registry <==> id in f.registry) && (id in f.registry ==> f'.registry[id] == f.registry[id])
    && (id in f'.children <==> id in f.children)
    && Times(f'.terminated, id) == Times(f.terminated, id)
  }

  lemma OtherReservationIsElsewhere(f: Floor, m: Move, id: RunId)
    requires m.Reserve? && m.id != id
    ensures SameFor(f, Step(f, m), id)
  {
    hide Times;
    hide Owned;
  }

  lemma OtherLaunchIsElsewhere(f: Floor, m: Move, id: RunId)
    requires (m.GiveUp? || m.Spawn? || m.Activate?) && m.id != id
    ensures SameFor(f, Step(f, m), id)
  {
    hide Times;
    hide Owned;
    hide Reserved;
    hide Matching;
  }

  lemma OtherEndIsElsewhere(f: Floor, m: Move, id: RunId)
    requires (m.Commit? || m.Finish?) && m.id != id
    ensures SameFor(f, Step(f, m), id)
  {
    hide Times;
    hide Owned;
    hide Reserved;
    hide Matching;
  }

  lemma OtherKillIsElsewhere(f: Floor, m: Move, id: RunId)
    requires (m.KillOrphan? || m.KillFinished?) && m.id != id
    ensures SameFor(f, Step(f, m), id)
  {
    hide Times;
    TimesSnoc(f.terminated, m.id, id);
  }

  lemma SameForKeepsAccounts(f: Floor, f': Floor, id: RunId)
    requires Accounted(f, id) && SameFor(f, f', id)
    ensures Accounted(f', id)
  {
    hide Times;
    hide HeldByDrains;
  }

  lemma OwnLaunchKeepsAccounts(f: Floor, m: Move, id: RunId)
    requires Accounted(f, id) && (m.Reserve? || m.GiveUp?) && m.id == id
    ensures Accounted(Step(f, m), id)
  {
    hide HeldByDrains;
    hide Owned;
    hide Times;
  }

  lemma OwnSpawnKeepsAccounts(f: Floor, m: Move, id: RunId)
    requires Accounted(f, id) && m.Spawn? && m.id == id
    ensures Accounted(Step(f, m), id)
  {
    hide HeldByDrains;
    hide Times;
  }

  lemma OwnActivationKeepsAccounts(f: Floor, m: Move, id: RunId)
    requires Accounted(f, id) && m.Activate? && m.id == id
    ensures Accounted(Step(f, m), id)
  {
    hide HeldByDrains;
    hide Times;
  }

  lemma OwnEndKeepsAccounts(f: Floor, m: Move, id: RunId)
    requires Accounted(f, id) && (m.Commit? || m.Finish?) && m.id == id
    ensures Accounted(Step(f, m), id)
  {
    hide HeldByDrains;
    hide Times;
  }

  lemma OwnKillKeepsAccounts(f: Floor, m: Move, id: RunId)
    requires Accounted(f, id) && (m.KillOrphan? || m.KillFinished?) && m.id == id
    ensures Accounted(Step(f, m), id)
  {
    TimesSnoc(f.terminated, m.id, id);
    hide HeldByDrains;
    hide Times;
  }

  lemma OwnMoveKeepsAccounts(f: Floor, m: Move, id: RunId)
    requires Accounted(f, id) && !m.Drain? && !m.DrainNext? && m.id == id
    ensures Accounted(Step(f, m), id)
  {
    hide Accounted;
    hide Step;
    if m.Reserve? || m.GiveUp? { OwnLaunchKeepsAccounts(f, m, id); }
    else if m.Spawn? { OwnSpawnKeepsAccounts(f, m, id); }
    else if m.Activate? { OwnActivationKeepsAccounts(f, m, id); }
    else if m.Commit? || m.Finish? { OwnEndKeepsAccounts(f, m, id); }
    else { OwnKillKeepsAccounts(f, m, id); }
  }

  lemma TimesSnoc(terminated: seq<RunId>, x: RunId, id: RunId)
    ensures Times(terminated + [x], id) == Times(terminated, id) + One(x == id)
  {
  }

  lemma StepKeepsAccounts(f: Floor, m: Move, id: RunId)
    requires Accounted(f, id)
    ensures Accounted(Step(f, m), id)
  {
    hide Accounted;
    hide Step;
    if m.Drain? { DrainKeepsAccounts(f, m, id); }
    else if m.DrainNext? { DrainNextKeepsAccounts(f, m, id); }
    else if m.id == id { OwnMoveKeepsAccounts(f, m, id); }
    else {
      if m.Reserve? { OtherReservationIsElsewhere(f, m, id); }
      else if m.GiveUp? || m.Spawn? || m.Activate? { OtherLaunchIsElsewhere(f, m, id); }
      else if m.Commit? || m.Finish? { OtherEndIsElsewhere(f, m, id); }
      else { OtherKillIsElsewhere(f, m, id); }
      SameForKeepsAccounts(f, Step(f, m), id);
    }
    hide SameFor;
  }

  /** Under every interleaving of launches, drains and exits: at most 16 runs and 4 per agent are registered, and
      the termination of every spawned child's group has exactly one owner, present or past. */
  lemma {:induction false} EveryInterleavingIsBalanced(moves: seq<Move>)
    ensures Balanced(Play(moves))
  {
    if moves == [] {
      forall agent ensures |Owned(Play(moves).registry, agent)| == 0 { assert Owned(Play(moves).registry, agent) == {}; }
    } else {
      var before := Play(moves[..|moves| - 1]);
      EveryInterleavingIsBalanced(moves[..|moves| - 1]);
      StepKeepsCaps(before, moves[|moves| - 1]);
      forall id ensures Accounted(Play(moves), id) { StepKeepsAccounts(before, moves[|moves| - 1], id); }
    }
  }

  predicate Quiet(f: Floor) {
    (forall id :: id in f.phases ==> f.phases[id].Over?) && (forall k :: 0 <= k < |f.drains| ==> f.drains[k] == map[])
  }

  lemma {:induction false} EmptyDrainsHoldNothing(drains: seq<Registry>, id: RunId)
    requires forall k :: 0 <= k < |drains| ==> drains[k] == map[]
    ensures HeldByDrains(drains, id) == 0
  {
    if drains == [] {
    } else {
      EmptyDrainsHoldNothing(drains[..|drains| - 1], id);
    }
  }

  /** When every handler has returned and every drain is done, no slot is leaked, and each child that was ever
      spawned had its group terminated exactly once. */
  lemma QuiescenceSettlesEverything(moves: seq<Move>)
    requires Quiet(Play(moves))
    ensures Play(moves).registry == map[]
    ensures forall id :: Times(Play(moves).terminated, id) == One(id in Play(moves).children)
  {
    var f := Play(moves);
    EveryInterleavingIsBalanced(moves);
    forall id ensures id !in f.registry && Times(f.terminated, id) == One(id in f.children) {
      assert Accounted(f, id);
      EmptyDrainsHoldNothing(f.drains, id);
    }
  }

  function Continue(f: Floor, moves: seq<Move>): Floor {
    if moves == [] then f else Step(Continue(f, moves[..|moves| - 1]), moves[|moves| - 1])
  }

  /** Its entry is gone, and its handler has not been told yet or knows it by now. */
  predicate Evicted(f: Floor, id: RunId) {
    && id !in f.registry && id in f.phases
    && (f.phases[id].Holding? || f.phases[id].Spawned? || f.phases[id].Orphaned? || f.phases[id].Over?)
  }

  lemma StepKeepsEvicted(f: Floor, m: Move, id: RunId)
    requires Evicted(f, id)
    ensures Evicted(Step(f, m), id)
  {
  }

  /** A launch that a drain has removed never comes back: if its child is spawned afterwards, activation fails
      and the handler terminates it. */
  lemma {:induction false} DrainedLaunchNeverReturns(f: Floor, moves: seq<Move>, id: RunId)
    requires id in f.phases && id !in f.registry && (f.phases[id].Holding? || f.phases[id].Spawned?)
    ensures Evicted(Continue(f, moves), id)
  {
    if moves == [] {
    } else {
      DrainedLaunchNeverReturns(f, moves[..|moves| - 1], id);
      StepKeepsEvicted(Continue(f, moves[..|moves| - 1]), moves[|moves| - 1], id);
    }
  }

  /** A full drain empties the registry, and every launch caught between reservation and activation is one of
      those. */
  lemma DrainCatchesEveryLaunch(f: Floor, id: RunId)
    ensures var f' := Step(f, Drain(None, None));
            f'.registry == map[] && f'.phases == f.phases && f'.drains[|f.drains|] == f.registry
  {
    assert Matching(f.registry, None, None) == f.registry;
  }

  // ----- what launches come to ----------------------------------------------------------------

  /** The handler's course up to the child's exit, and after it. */
  function Started(f: Floor, agent: string, project: string, id: RunId, pgid: int): Floor {
    Step(Step(Step(Step(f, Reserve(agent, project, id)), Spawn(id, pgid)), Activate(id)), Commit(id))
  }

  function Ended(f: Floor, id: RunId): Floor { Step(Step(f, Finish(id)), KillFinished(id)) }

  /** A launch that finds room and that no drain disturbs is registered with its child's group, and once the child is done it
      leaves the registry as it found it, its group terminated once. */
  lemma UndisturbedLaunch(f: Floor, agent: string, project: string, id: RunId, pgid: int)
    requires id !in f.phases && Reserved(f.registry, agent, project, id).Ok? && pgid > 0
    ensures var g := Started(f, agent, project, id, pgid);
            && g.registry == f.registry[id := RunMeta(agent, project, pgid, pgid)] && g.terminated == f.terminated
            && id in g.phases && g.phases[id] == Committed(pgid)
            && id in Ended(g, id).phases && Ended(g, id).phases[id] == Over
            && Ended(g, id).registry == f.registry && Ended(g, id).terminated == f.terminated + [id]
  {
    var f1 := f.(registry := f.registry[id := RunMeta(agent, project, 0, 0)], phases := f.phases[id := Holding]);
    var f2 := f1.(phases := f1.phases[id := Spawned(pgid)], children := f1.children + {id});
    var f3 := f2.(phases := f2.phases[id := Activated(pgid)], registry := f2.registry[id := RunMeta(agent, project, pgid, pgid)]);
    var f4 := f3.(phases := f3.phases[id := Committed(pgid)]);
    assert Step(f, Reserve(agent, project, id)) == f1;
    hide Reserved;
    assert Step(f1, Spawn(id, pgid)) == f2;
    assert Step(f2, Activate(id)) == f3;
    assert Step(f3, Commit(id)) == f4;
    assert f4.registry == f.registry[id := RunMeta(agent, project, pgid, pgid)];
    CommittedEnds(f4, id);
    assert f4.registry - {id} == f.registry;
  }

  lemma CommittedEnds(f: Floor, id: RunId)
    requires id in f.phases && f.phases[id].Committed? && id in f.registry
    ensures id in Ended(f, id).phases && Ended(f, id).phases[id] == Over
    ensures Ended(f, id).registry == f.registry - {id} && Ended(f, id).terminated == f.terminated + [id]
  {
    hide Reserved;
    hide Matching;
  }

  /** A launch whose entry a drain took before it was activated is told so, and terminates its own child. */
  lemma DrainedLaunchIsKilled(f: Floor, id: RunId)
    requires id in f.phases && f.phases[id].Spawned? && id !in f.registry
    ensures Step(f, Activate(id)).phases[id] == Orphaned(f.phases[id].pgid)
    ensures var g := Step(Step(f, Activate(id)), KillOrphan(id));
            g.phases[id] == Over && g.terminated == f.terminated + [id] && id !in g.registry
  {
  }
}
