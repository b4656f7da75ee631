/** What the log's readers can and cannot detect, and what any interleaving of handles keeps. */
module AuditTheorems {
  import opened Prelude
  import opened Audit

  // ----- tamper evidence ---------------------------------------------------------

  predicate SameEvents(file: seq<Line>, genuine: seq<Line>, n: nat) {
    && n <= |file| && n <= |genuine|
    && forall i :: 0 <= i < n ==> file[i].Entry? && genuine[i].Entry? && file[i].event == genuine[i].event
  }

  /** Equal chain hashes come from equal event sequences. */
  lemma {:induction false} HeadInjective(file: seq<Line>, n: nat, genuine: seq<Line>, m: nat)
    requires n <= |file| && m <= |genuine|
    requires forall i :: 0 <= i < n ==> file[i].Entry?
    requires forall i :: 0 <= i < m ==> genuine[i].Entry?
    requires Head(file, n) == Head(genuine, m)
    ensures n == m && SameEvents(file, genuine, n)
  {
    if n == 0 || m == 0 {
    } else {
      HeadInjective(file, n - 1, genuine, m - 1);
    }
  }

  lemma {:induction false} SameEventsSameHead(file: seq<Line>, genuine: seq<Line>, n: nat)
    requires SameEvents(file, genuine, n)
    ensures Head(file, n) == Head(genuine, n)
  {
    if n == 0 {
    } else {
      SameEventsSameHead(file, genuine, n - 1);
    }
  }

  /** One genuine MAC anywhere in an accepted file pins its own position and every event before it,
      whether those events carry MACs or not. */
  lemma GenuineMacPinsHistory(genuine: seq<Line>, file: seq<Line>, key: Key, i: nat, p: nat)
    requires Accepts(genuine, Some(key)) && Accepts(file, Some(key))
    requires i < |genuine| && p < |file|
    requires LineOk(genuine, i, Some(key)) && LineOk(file, p, Some(key))
    requires genuine[i].mac.Some? && file[p].mac == genuine[i].mac
    ensures p == i && SameEvents(file, genuine, i + 1)
  {
    forall j | 0 <= j < p ensures file[j].Entry? { assert LineOk(file, j, Some(key)); }
    forall j | 0 <= j < i ensures genuine[j].Entry? { assert LineOk(genuine, j, Some(key)); }
    HeadInjective(file, p, genuine, i);
  }

  /** Without the key, the only MACs a forger can present are ones the owner produced. */
  predicate Unforged(file: seq<Line>, genuine: seq<Line>, key: Key) {
    forall p :: 0 <= p < |file| && file[p].Entry? && file[p].mac.Some? && file[p].mac.value.Hmac? && file[p].mac.value.key == key
      ==> exists i :: 0 <= i < |genuine| && genuine[i].Entry? && genuine[i].mac == file[p].mac
  }

  /** Rewriting, reordering, inserting or deleting any entry before some surviving MAC is detected:
      an accepted file agrees with the genuine log up to its last MAC. */
  lemma HistoryBeforeAnyMacIsGenuine(genuine: seq<Line>, file: seq<Line>, key: Key, p: nat)
    requires Accepts(genuine, Some(key)) && Accepts(file, Some(key)) && Unforged(file, genuine, key)
    requires p < |file| && file[p].Entry? && file[p].mac.Some?
    ensures SameEvents(file, genuine, p + 1)
  {
    assert LineOk(file, p, Some(key));
    var i :| 0 <= i < |genuine| && genuine[i].Entry? && genuine[i].mac == file[p].mac;
    assert LineOk(genuine, i, Some(key));
    GenuineMacPinsHistory(genuine, file, key, i, p);
  }

  /** `check_checkpoint` accepts a genuine checkpoint exactly when every event up to it is genuine, MACed
      or not, and the stored hash is spelled the way it was recorded. */
  lemma CheckpointPinsHistory(genuine: seq<Line>, file: seq<Line>, n: nat)
    requires Accepts(genuine, None) && 1 <= n <= |genuine|
    ensures CheckpointOk(file, n, Hex(Head(genuine, n), 0))
       <==> SameEvents(file, genuine, n) && file[n - 1].hash == Hex(Head(genuine, n), 0)
  {
    var hash := Hex(Head(genuine, n), 0);
    forall i | 0 <= i < n ensures genuine[i].Entry? && genuine[i].event.seqNo == i + 1 {
      assert LineOk(genuine, i, None);
    }
    if CheckpointOk(file, n, hash) {
      forall i | 0 <= i < n ensures file[i].Entry? { assert Numbered(file, i); }
      HeadInjective(file, n, genuine, n);
    }
    if SameEvents(file, genuine, n) && file[n - 1].hash == hash {
      SameEventsSameHead(file, genuine, n);
      assert forall i :: 0 <= i < n ==> Numbered(file, i);
    }
  }

  /** `check_checkpoint` can never accept the genesis head of an empty log. */
  lemma GenesisCheckpointIsNeverAccepted(file: seq<Line>, hash: Hex)
    ensures !CheckpointOk(file, 0, hash)
  {
  }

  /** The accepted limit: whatever the key, an unauthenticated entry can be added after the last line. */
  lemma TailIsForgeable(file: seq<Line>, key: Option<Key>, body: Body)
    requires Accepts(file, key)
    ensures var event := Event(|file| + 1, Hex(Head(file, |file|), 0), body);
            Accepts(file + [Entry(event, Hex(Sha(Head(file, |file|), event), 0), None)], key)
  {
    var event := Event(|file| + 1, Hex(Head(file, |file|), 0), body);
    var line := Entry(event, Hex(Sha(Head(file, |file|), event), 0), None);
    HeadOfPrefix(file + [line], file, |file|);
    AcceptsExtend(file, line, key);
  }

  // ----- several handles on one append-only file ----------------------------------------

  datatype Slip = Slip(staged: Staged, priority: Priority)

  datatype Bench = Bench(file: seq<Line>, handles: seq<Handle>, slips: seq<Slip>)

  datatype Action =
    | OpenHandle
    | StageOn(handle: nat, body: Body, maced: bool, priority: Priority)
    | MacWith(slip: nat)
    | AppendOn(handle: nat, slip: nat, fault: AppendFault)

  function Act(b: Bench, a: Action, key: Key, limits: Limits): Bench {
    match a
    case OpenHandle =>
      if Accepts(b.file, None)
      then b.(handles := b.handles + [Handle(|b.file|, Head(b.file, |b.file|), limits)])
      else b
    case StageOn(h, body, maced, priority) =>
      if h >= |b.handles| then b
      else
        var staged := Stage(b.handles[h], b.file, body, if maced then Some(key) else None, priority);
        if staged.Err? then b else b.(slips := b.slips + [Slip(staged.value, priority)])
    case MacWith(s) =>
      if s >= |b.slips| then b
      else b.(slips := b.slips[s := b.slips[s].(staged := WithMac(b.slips[s].staged, key))])
    case AppendOn(h, s, fault) =>
      if h >= |b.handles| || s >= |b.slips| then b
      else
        var r := AppendStaged(b.handles[h], b.file, b.slips[s].staged, fault);
        b.(file := r.file, handles := b.handles[h := r.handle])
  }

  function Exec(b: Bench, actions: seq<Action>, key: Key, limits: Limits): Bench {
    if actions == [] then b
    else Act(Exec(b, actions[..|actions| - 1], key, limits), actions[|actions| - 1], key, limits)
  }

  /** A handle's cached head is some prefix of the file. */
  predicate Follows(h: Handle, file: seq<Line>) {
    h.seqNo <= |file| && h.lastHash == Head(file, h.seqNo)
  }

  /** A staged entry was built on some prefix of the file, and still fits if that prefix is the file. */
  predicate SlipOk(slip: Slip, file: seq<Line>, key: Key, limits: Limits) {
    var event := slip.staged.event;
    && 1 <= event.seqNo <= |file| + 1
    && event.prevHash == Hex(Head(file, event.seqNo - 1), 0)
    && slip.staged.hash == Hex(Sha(Head(file, event.seqNo - 1), event), 0)
    && (slip.staged.mac.Some? ==> slip.staged.mac.value == Hmac(key, Head(file, event.seqNo - 1), event))
    && (event.seqNo == |file| + 1 ==> FileLen(file) + ProbeLen(event) + 1 <= Ceiling(limits, slip.priority))
  }

  predicate Sound(b: Bench, key: Key, limits: Limits) {
    && Accepts(b.file, Some(key))
    && FileLen(b.file) <= limits.hard
    && (forall h :: h in b.handles ==> Follows(h, b.file) && h.limits == limits)
    && (forall s :: s in b.slips ==> SlipOk(s, b.file, key, limits))
  }

  lemma AcceptedIsReadable(file: seq<Line>, key: Option<Key>)
    requires Accepts(file, key)
    ensures Readable(file) && Accepts(file, None)
    ensures |file| > 0 ==> Unhex(file[|file| - 1].hash) == Some(Head(file, |file|))
  {
    forall i | 0 <= i < |file| ensures Numbered(file, i) && Unhex(file[i].hash).Some? && LineOk(file, i, None) {
      assert LineOk(file, i, key);
    }
    if |file| > 0 { assert LineOk(file, |file| - 1, key); }
  }

  /** On an accepted file every following handle resyncs to the true head. */
  lemma ResyncReachesHead(h: Handle, file: seq<Line>, key: Option<Key>)
    requires Accepts(file, key) && Follows(h, file)
    ensures Resynced(h, file) == h.(seqNo := |file|, lastHash := Head(file, |file|))
  {
    AcceptedIsReadable(file, key);
  }

  /** What an entry takes in the file: its JSON, the hash, a MAC, the punctuation around them and a newline. */
  function Space(body: Body): nat { body.jsonLen + 148 }

  /** An entry is refused exactly when it does not fit: ordinary entries leave the headroom to lifecycle entries. */
  lemma StageIff(h: Handle, file: seq<Line>, body: Body, key: Option<Key>, priority: Priority)
    ensures Stage(h, file, body, key, priority).Ok? <==>
              FileLen(file) + Space(body) <= if priority == Ordinary then h.limits.soft else h.limits.hard
    ensures key.Some? && Stage(h, file, body, key, priority).Ok? ==>
              FileLen(file + [LineOf(Stage(h, file, body, key, priority).value)]) == FileLen(file) + Space(body)
  {
    if key.Some? && Stage(h, file, body, key, priority).Ok? {
      var line := LineOf(Stage(h, file, body, key, priority).value);
      assert (file + [line])[..|file|] == file;
    }
  }

  lemma GrowKeepsFollowers(file: seq<Line>, line: Line, h: Handle)
    requires Follows(h, file)
    ensures Follows(h, file + [line])
  {
    HeadOfPrefix(file + [line], file, h.seqNo);
  }

  /** What one append does to an accepted file: nothing, or one line that chains, carries a correct MAC
      if any, and stays under the ceiling its priority allows. A stale staged entry does nothing. */
  lemma AppendEffect(h: Handle, file: seq<Line>, slip: Slip, fault: AppendFault, key: Key, limits: Limits)
    requires Accepts(file, Some(key)) && Follows(h, file) && SlipOk(slip, file, key, limits)
    ensures var r := AppendStaged(h, file, slip.staged, fault);
            && r.handle.limits == h.limits && Follows(r.handle, r.file) && Accepts(r.file, Some(key))
            && (slip.staged.event.seqNo <= |file| ==> r.file == file && r.result == Err(Protocol))
            && (slip.staged.event.seqNo == |file| + 1 && fault != NothingWritten ==> r.file == file + [LineOf(slip.staged)])
            && (fault == NothingWritten ==> r.file == file)
            && (r.result.Ok? <==> slip.staged.event.seqNo == |file| + 1 && fault == NoFault)
            && (r.file == file || FileLen(r.file) <= Ceiling(limits, slip.priority))
  {
    ResyncReachesHead(h, file, Some(key));
    var r := AppendStaged(h, file, slip.staged, fault);
    var line := LineOf(slip.staged);
    var grown := file + [line];
    if r.file != file {
      assert grown[..|file|] == file;
      HeadOfPrefix(grown, file, |file|);
      AcceptsExtend(file, line, Some(key));
      GrowKeepsFollowers(file, line, Resynced(h, file));
    }
  }

  lemma StageKeepsSound(b: Bench, a: Action, key: Key, limits: Limits)
    requires Sound(b, key, limits) && a.StageOn?
    ensures Sound(Act(b, a, key, limits), key, limits)
  {
    AcceptedIsReadable(b.file, Some(key));
    if a.handle < |b.handles| {
      var h, as_ := b.handles[a.handle], if a.maced then Some(key) else None;
      ResyncReachesHead(h, b.file, Some(key));
      var staged := Stage(h, b.file, a.body, as_, a.priority);
      if staged.Ok? { assert SlipOk(Slip(staged.value, a.priority), b.file, key, limits); }
    }
    hide Accepts;
    hide Follows;
    hide SlipOk;
    hide Stage;
  }

  lemma MacKeepsSound(b: Bench, a: Action, key: Key, limits: Limits)
    requires Sound(b, key, limits) && a.MacWith?
    ensures Sound(Act(b, a, key, limits), key, limits)
  {
    if a.slip < |b.slips| {
      assert SlipOk(b.slips[a.slip], b.file, key, limits);
      assert SlipOk(b.slips[a.slip].(staged := WithMac(b.slips[a.slip].staged, key)), b.file, key, limits);
    }
    hide Accepts;
    hide Follows;
    hide SlipOk;
  }

  lemma SlipStays(file: seq<Line>, line: Line, t: Slip, key: Key, limits: Limits)
    requires SlipOk(t, file, key, limits)
    ensures SlipOk(t, file + [line], key, limits)
  {
    HeadOfPrefix(file + [line], file, t.staged.event.seqNo - 1);
  }

  lemma AppendKeepsSound(b: Bench, a: Action, key: Key, limits: Limits)
    requires Sound(b, key, limits) && limits.soft <= limits.hard && a.AppendOn?
    ensures Sound(Act(b, a, key, limits), key, limits)
  {
    if a.handle < |b.handles| && a.slip < |b.slips| {
      var h, slip := b.handles[a.handle], b.slips[a.slip];
      assert SlipOk(slip, b.file, key, limits);
      assert slip.staged.event.seqNo <= |b.file| + 1;
      hide Accepts;
      hide Follows;
      hide SlipOk;
      hide AppendStaged;
      hide FileLen;
      AppendEffect(h, b.file, slip, a.fault, key, limits);
      var r := AppendStaged(h, b.file, slip.staged, a.fault);
      var line := LineOf(slip.staged);
      assert r.file == b.file || r.file == b.file + [line];
      if r.file != b.file {
        forall g | g in b.handles ensures Follows(g, b.file + [line]) { GrowKeepsFollowers(b.file, line, g); }
        forall t | t in b.slips ensures SlipOk(t, b.file + [line], key, limits) { SlipStays(b.file, line, t, key, limits); }
      }
      assert forall g :: g in b.handles[a.handle := r.handle] ==> g in b.handles || g == r.handle;
    }
  }

  lemma ActKeepsSound(b: Bench, a: Action, key: Key, limits: Limits)
    requires Sound(b, key, limits) && limits.soft <= limits.hard
    ensures Sound(Act(b, a, key, limits), key, limits)
  {
    match a
    case OpenHandle =>
    case StageOn(_, _, _, _) => StageKeepsSound(b, a, key, limits);
    case MacWith(_) => MacKeepsSound(b, a, key, limits);
    case AppendOn(_, _, _) => AppendKeepsSound(b, a, key, limits);
  }

  /** Any interleaving of any number of handles, with I/O failures anywhere, keeps the file accepted
      with its MACs, numbered 1..n, and under the hard ceiling. */
  lemma {:induction false} InterleavingsKeepTheLogSound(actions: seq<Action>, key: Key, limits: Limits)
    requires limits.soft <= limits.hard
    ensures Sound(Exec(Bench([], [], []), actions, key, limits), key, limits)
  {
    if actions == [] {
    } else {
      InterleavingsKeepTheLogSound(actions[..|actions| - 1], key, limits);
      ActKeepsSound(Exec(Bench([], [], []), actions[..|actions| - 1], key, limits), actions[|actions| - 1], key, limits);
    }
  }

  /** The log only grows, and whatever grows it obeys the ceiling of its own priority: an ordinary
      append never leaves the file above the soft limit, no append leaves it above the hard limit. */
  lemma EveryAppendObeysItsCeiling(before: seq<Action>, a: Action, key: Key, limits: Limits)
    requires limits.soft <= limits.hard
    ensures var b := Exec(Bench([], [], []), before, key, limits);
            var b' := Act(b, a, key, limits);
            b'.file == b.file
            || (a.AppendOn? && a.slip < |b.slips| && b'.file == b.file + [LineOf(b.slips[a.slip].staged)]
                && FileLen(b'.file) <= limits.hard
                && (b.slips[a.slip].priority == Ordinary ==> FileLen(b'.file) <= limits.soft))
  {
    InterleavingsKeepTheLogSound(before, key, limits);
    var b := Exec(Bench([], [], []), before, key, limits);
    if a.AppendOn? { AppendGrows(b, a, key, limits); } else { OthersKeepTheFile(b, a, key, limits); }
    hide Exec;
    hide Act;
    hide Sound;
    hide FileLen;
  }

  lemma AppendGrows(b: Bench, a: Action, key: Key, limits: Limits)
    requires Sound(b, key, limits) && a.AppendOn?
    ensures var b' := Act(b, a, key, limits);
            b'.file == b.file
            || (a.slip < |b.slips| && b'.file == b.file + [LineOf(b.slips[a.slip].staged)]
                && FileLen(b'.file) <= Ceiling(limits, b.slips[a.slip].priority))
  {
    if a.handle < |b.handles| && a.slip < |b.slips| {
      assert SlipOk(b.slips[a.slip], b.file, key, limits);
      AppendEffect(b.handles[a.handle], b.file, b.slips[a.slip], a.fault, key, limits);
    }
    hide Accepts;
    hide Follows;
    hide SlipOk;
    hide AppendStaged;
    hide FileLen;
  }

  lemma OthersKeepTheFile(b: Bench, a: Action, key: Key, limits: Limits)
    requires !a.AppendOn?
    ensures Act(b, a, key, limits).file == b.file
  {
    hide Accepts;
    hide Stage;
  }

  // ----- a truncated or rewritten file ----------------------------------------------------

  /** What is written follows the handle's head. */
  lemma WrittenLine(h: Handle, file: seq<Line>, staged: Staged, fault: AppendFault)
    requires AppendStaged(h, file, staged, fault).file != file
    ensures AppendStaged(h, file, staged, fault).file == file + [LineOf(staged)]
    ensures var synced := Resynced(h, file);
            && staged.event.seqNo == synced.seqNo + 1 && Unhex(staged.event.prevHash) == Some(synced.lastHash)
            && staged.hash == Hex(Sha(synced.lastHash, staged.event), 0)
  {
    hide Resynced;
  }

  /** When the file was changed behind a handle's back and the handle then manages to write, `walk` accepts
      the result exactly when the file was ahead of the handle, or level with it on the same head. In
      particular an append after truncation below the handle's view is always rejected. */
  lemma AppendOntoForeignFile(h: Handle, file: seq<Line>, staged: Staged, fault: AppendFault)
    requires Accepts(file, None)
    requires AppendStaged(h, file, staged, fault).file != file
    ensures Accepts(AppendStaged(h, file, staged, fault).file, None)
       <==> |file| > h.seqNo || (|file| == h.seqNo && h.lastHash == Head(file, |file|))
  {
    AcceptedIsReadable(file, None);
    var after := AppendStaged(h, file, staged, fault).file;
    WrittenLine(h, file, staged, fault);
    HeadOfPrefix(after, file, |file|);
    hide AppendStaged;
    if |file| > h.seqNo || (|file| == h.seqNo && h.lastHash == Head(file, |file|)) {
      assert LineOk(after, |file|, None);
      AcceptsExtend(file, LineOf(staged), None);
    } else {
      assert !LineOk(after, |file|, None);
    }
  }

  /** A rejected log stays rejected however it grows. */
  lemma RejectionIsPermanent(file: seq<Line>, more: seq<Line>, key: Option<Key>)
    requires !Accepts(file, key)
    ensures !Accepts(file + more, key)
  {
    assert (file + more)[..|file|] == file;
    if Accepts(file + more, key) {
      AcceptsPrefix(file + more, key, |file|);
    }
  }
}
