/** `save_atomic` as a machine of file-system steps that may fail or be interrupted anywhere. */
module Store {
  import opened Prelude

  type Tag = string

  /** The vault's directory: the vault file and whatever temporary names exist. */
  datatype Disk = Disk(target: Option<Bytes>, temps: map<Tag, Bytes>)

  const ATTEMPTS: nat := 8

  datatype Pc =
    | Trying(attempt: nat)
    | Writing(tag: Tag)
    | Flushed(tag: Tag)
    | Cleaning(tag: Tag)
    | Done(ok: bool)

  datatype State = State(disk: Disk, pc: Pc)

  /** What the operating system answers to the next call. */
  datatype Event =
    | NoRandom
    | Taken(tag: Tag)          // O_EXCL: the name exists
    | OpenFailed
    | Created(tag: Tag)
    | Wrote(upTo: nat)
    | WriteFailed
    | Synced
    | SyncFailed
    | RenamedOver
    | RenameFailed
    | Removed
    | RemoveFailed

  /** One call and its answer; answers that do not belong to the next call change nothing. */
  function Step(s: State, bytes: Bytes, e: Event): State {
    match s.pc
    case Trying(n) =>
      if n >= ATTEMPTS then s.(pc := Done(false))
      else (match e
        case NoRandom => s.(pc := Done(false))
        case Taken(tag) => if tag in s.disk.temps then s.(pc := if n + 1 == ATTEMPTS then Done(false) else Trying(n + 1)) else s
        case OpenFailed => s.(pc := Done(false))
        case Created(tag) => if tag in s.disk.temps then s else State(s.disk.(temps := s.disk.temps[tag := []]), Writing(tag))
        case _ => s)
    case Writing(tag) =>
      (match e
        case Wrote(n) => if n <= |bytes| then s.(disk := s.disk.(temps := s.disk.temps[tag := bytes[..n]])) else s
        case WriteFailed => s.(pc := Cleaning(tag))
        case Synced => if tag in s.disk.temps && s.disk.temps[tag] == bytes then s.(pc := Flushed(tag)) else s
        case SyncFailed => s.(pc := Cleaning(tag))
        case _ => s)
    case Flushed(tag) =>
      (match e
        case RenamedOver =>
          if tag in s.disk.temps then State(Disk(Some(s.disk.temps[tag]), s.disk.temps - {tag}), Done(true)) else s
        case RenameFailed => s.(pc := Cleaning(tag))
        case _ => s)
    case Cleaning(tag) =>
      (match e
        case Removed => State(s.disk.(temps := s.disk.temps - {tag}), Done(false))
        case RemoveFailed => s.(pc := Done(false))
        case _ => s)
    case Done(_) => s
  }

  function Play(disk: Disk, bytes: Bytes, trace: seq<Event>): State {
    if trace == [] then State(disk, Trying(0)) else Step(Play(disk, bytes, trace[..|trace| - 1]), bytes, trace[|trace| - 1])
  }

  /** Other names in the directory are untouched. */
  predicate OthersKept(before: map<Tag, Bytes>, after: map<Tag, Bytes>) {
    forall t :: t in before ==> t in after && after[t] == before[t]
  }

  predicate Own(s: State, before: Disk, bytes: Bytes, tag: Tag) {
    && s.disk.target == before.target
    && tag !in before.temps && tag in s.disk.temps && s.disk.temps == before.temps[tag := s.disk.temps[tag]]
    && (s.pc.Flushed? ==> s.disk.temps[tag] == bytes)
  }

  predicate Safe(s: State, before: Disk, bytes: Bytes) {
    match s.pc
    case Trying(n) => s.disk == before && n < ATTEMPTS
    case Writing(tag) => Own(s, before, bytes, tag)
    case Flushed(tag) => Own(s, before, bytes, tag)
    case Cleaning(tag) => Own(s, before, bytes, tag)
    case Done(true) => s.disk == before.(target := Some(bytes))
    case Done(false) => s.disk.target == before.target && OthersKept(before.temps, s.disk.temps) && |s.disk.temps| <= |before.temps| + 1
  }

  lemma StepStaysSafe(s: State, before: Disk, bytes: Bytes, e: Event)
    requires Safe(s, before, bytes)
    ensures Safe(Step(s, bytes, e), before, bytes)
  {
    if s.pc.Writing? || s.pc.Flushed? || s.pc.Cleaning? { OwnStaysSafe(s, before, bytes, e); }
    hide Own;
  }

  lemma OwnStaysSafe(s: State, before: Disk, bytes: Bytes, e: Event)
    requires Safe(s, before, bytes) && (s.pc.Writing? || s.pc.Flushed? || s.pc.Cleaning?)
    ensures Safe(Step(s, bytes, e), before, bytes)
  {
    var tag := s.pc.tag;
    OneMore(s.disk.temps, before.temps, tag);
    if !s.pc.Writing? { assert s.disk.temps - {tag} == before.temps; }
  }

  lemma OneMore(temps: map<Tag, Bytes>, before: map<Tag, Bytes>, tag: Tag)
    requires tag !in before && tag in temps && temps == before[tag := temps[tag]]
    ensures |temps| == |before| + 1
  {
    assert temps.Keys == before.Keys + {tag};
    assert |temps| == |temps.Keys| && |before| == |before.Keys|;
  }

  /** Wherever the save is interrupted, the vault file holds the old content or all of the new, and no other name in
      the directory has changed. It reports success only with the new content in place and nothing left behind, and
      failure only with the old content in place. */
  lemma {:induction false} EveryInterruptionIsSafe(disk: Disk, bytes: Bytes, trace: seq<Event>)
    ensures var s := Play(disk, bytes, trace);
            && Safe(s, disk, bytes)
            && s.disk.target in {disk.target, Some(bytes)}
            && OthersKept(disk.temps, s.disk.temps)
            && (s.pc == Done(true) ==> s.disk == disk.(target := Some(bytes)))
            && (s.pc == Done(false) ==> s.disk.target == disk.target)
  {
    if trace == [] {
    } else {
      EveryInterruptionIsSafe(disk, bytes, trace[..|trace| - 1]);
      StepStaysSafe(Play(disk, bytes, trace[..|trace| - 1]), disk, bytes, trace[|trace| - 1]);
    }
  }

  // ----- the loop ------------------------------------------------------------------------------

  /** What the system does in one attempt. A taken name is not a choice: it depends on the directory. */
  datatype Try = Try(random: bool, tag: Tag, openOk: bool, written: nat, syncOk: bool, renameOk: bool, removeOk: bool)

  /** The first attempt at a name that is free. */
  ghost predicate Decides(temps: map<Tag, Bytes>, script: seq<Try>, k: nat)
    requires k < |script|
  {
    script[k].random && script[k].tag !in temps && forall j :: 0 <= j < k ==> script[j].random && script[j].tag in temps
  }

  predicate GoesWell(t: Try, bytes: Bytes) { t.openOk && t.written >= |bytes| && t.syncOk && t.renameOk }

  class Directory {
    var target: Option<Bytes>
    var temps: map<Tag, Bytes>

    ghost function View(): Disk
      reads this
    {
      Disk(target, temps)
    }

    constructor (target: Option<Bytes>, temps: map<Tag, Bytes>)
      ensures View() == Disk(target, temps)
    {
      this.target, this.temps := target, temps;
    }

    /** `save_atomic`: at most eight names are tried; the first temporary file that is ours decides. */
    method SaveAtomic(bytes: Bytes, script: seq<Try>) returns (ok: bool, ghost trace: seq<Event>)
      requires |script| == ATTEMPTS
      modifies this
      ensures Play(old(View()), bytes, trace) == State(View(), Done(ok))
      ensures ok ==> View() == old(View()).(target := Some(bytes))
      ensures !ok ==> target == old(target) && OthersKept(old(temps), temps)
      ensures ok <==> exists k :: 0 <= k < |script| && Decides(old(temps), script, k) && GoesWell(script[k], bytes)
      ensures forall k :: 0 <= k < |script| && Decides(old(temps), script, k) && !ok && (script[k].removeOk || !script[k].openOk) ==>
                View() == old(View())
    {
      ghost var before := View();
      trace := [];
      for attempt := 0 to ATTEMPTS
        invariant View() == before
        invariant forall k :: 0 <= k < attempt ==> script[k].random && script[k].tag in before.temps
        invariant attempt < ATTEMPTS ==> Play(before, bytes, trace) == State(before, Trying(attempt))
        invariant attempt == ATTEMPTS ==> Play(before, bytes, trace) == State(before, Done(false))
      {
        var t := script[attempt];
        if !t.random { trace := Then(before, bytes, trace, NoRandom); return false, trace; }
        if t.tag in temps {
          trace := Then(before, bytes, trace, Taken(t.tag));
          continue;
        }
        if !t.openOk { trace := Then(before, bytes, trace, OpenFailed); return false, trace; }
        ok, trace := Publish(t, bytes, before, trace);
        return;
      }
      return false, trace;
    }

    /** Create, write and sync the temporary file. */
    method Fill(t: Try, bytes: Bytes, ghost before: Disk, ghost trace: seq<Event>) returns (ok: bool, ghost trace': seq<Event>)
      requires t.tag !in temps && View() == before
      requires Play(before, bytes, trace).disk == before && Play(before, bytes, trace).pc.Trying?
      requires Play(before, bytes, trace).pc.attempt < ATTEMPTS
      modifies this`temps
      ensures t.tag in temps && temps == before.temps[t.tag := temps[t.tag]]
      ensures ok ==> temps[t.tag] == bytes
      ensures ok <==> t.written >= |bytes| && t.syncOk
      ensures Play(before, bytes, trace') == State(View(), if ok then Flushed(t.tag) else Cleaning(t.tag))
    {
      hide Play;
      temps := temps[t.tag := []];
      trace' := Then(before, bytes, trace, Created(t.tag));
      var written := if t.written <= |bytes| then t.written else |bytes|;
      temps := temps[t.tag := bytes[..written]];
      trace' := Then(before, bytes, trace', Wrote(written));
      if written < |bytes| {
        trace' := Then(before, bytes, trace', WriteFailed);
        return false, trace';
      }
      assert bytes[..written] == bytes;
      trace' := Then(before, bytes, trace', if t.syncOk then Synced else SyncFailed);
      return t.syncOk, trace';
    }

    /** The closure after a successful open: write, sync, rename; on any failure remove the temporary file. */
    method Publish(t: Try, bytes: Bytes, ghost before: Disk, ghost trace: seq<Event>) returns (ok: bool, ghost trace': seq<Event>)
      requires t.tag !in temps && View() == before
      requires Play(before, bytes, trace).disk == before && Play(before, bytes, trace).pc.Trying?
      requires Play(before, bytes, trace).pc.attempt < ATTEMPTS
      modifies this
      ensures Play(before, bytes, trace') == State(View(), Done(ok))
      ensures ok ==> View() == before.(target := Some(bytes))
      ensures !ok ==> target == before.target && OthersKept(before.temps, temps)
      ensures ok <==> t.written >= |bytes| && t.syncOk && t.renameOk
      ensures !ok && t.removeOk ==> View() == before
    {
      hide Play;
      ok, trace' := Fill(t, bytes, before, trace);
      assert temps - {t.tag} == before.temps;
      if ok && t.renameOk {
        target, temps := Some(temps[t.tag]), temps - {t.tag};
        trace' := Then(before, bytes, trace', RenamedOver);
        return true, trace';
      }
      if ok { trace' := Then(before, bytes, trace', RenameFailed); }
      if t.removeOk { temps := temps - {t.tag}; }
      trace' := Then(before, bytes, trace', if t.removeOk then Removed else RemoveFailed);
      return false, trace';
    }
  }

  /** The trace one step longer. */
  ghost function Then(before: Disk, bytes: Bytes, trace: seq<Event>, e: Event): (trace': seq<Event>)
    ensures Play(before, bytes, trace') == Step(Play(before, bytes, trace), bytes, e)
  {
    assert (trace + [e])[..|trace|] == trace;
    trace + [e]
  }
}
