/** The commit protocol between the audit log, the in-memory envelope and the vault file: `commit_with`, `create`,
    `load`, `do_unlock`, `lock_persist`, with I/O failures and crashes. */
module Commit {
  import opened Prelude
  import opened Audit
  import opened AuditTheorems
  import opened Model

  /** `disk` is the document sealed in the vault file, `envelope` the one sealed in memory, `doc` the decrypted one.
      `owner` is the audit key derived from this vault's master key; `key` is present while unlocked. */
  datatype World = World(log: seq<Line>, disk: Document, handle: Handle, envelope: Document,
                         doc: Option<Document>, key: Option<Key>, owner: Key)

  /** What can go wrong in one commit, step by step. */
  datatype CommitIo = CommitIo(append: AppendFault, sealFails: bool, tooLarge: bool, saveFails: bool)

  datatype Outcome = Outcome(world: World, result: Result<(), VaultError>)

  /** Append an entry that no vault names: reads, denials, lifecycle notes. */
  function Note(w: World, body: Body, key: Option<Key>, priority: Priority, fault: AppendFault): Outcome {
    var r := Append(w.handle, w.log, body, key, priority, fault);
    Outcome(w.(handle := r.handle, log := r.file),
            if r.result.Ok? then Ok(()) else Err(AuditRefused(r.result.error)))
  }

  /** `audit_denied`: best effort, ordinary priority. */
  function DenialNoted(w: World, body: Body, fault: AppendFault): World {
    Note(w, body, w.key, Ordinary, fault).world
  }

  /** Reseal, check the caps, save, adopt. */
  function SealAndSave(w: World, doc: Document, io: CommitIo): Outcome {
    if io.sealFails then Outcome(w, Err(StorageFailed))
    else if io.tooLarge then Outcome(w.(envelope := doc), Err(VaultTooLarge))
    else if io.saveFails then Outcome(w.(envelope := doc), Err(StorageFailed))
    else Outcome(w.(envelope := doc, disk := doc, doc := Some(doc)), Ok(()))
  }

  /** `commit_with`: the entry is appended before the vault that names it. */
  function CommitWith(w: World, doc: Document, body: Body, priority: Priority, io: CommitIo): Outcome {
    if w.key.None? then Outcome(w, Err(Locked))
    else
      var staged := Stage(w.handle, w.log, body, w.key, priority);
      if staged.Err? then
        if priority == Ordinary then Outcome(w, Err(AuditRefused(staged.error))) else SealAndSave(w, doc, io)
      else
        var r := AppendStaged(w.handle, w.log, staged.value, io.append);
        var w1 := w.(handle := r.handle, log := r.file);
        if r.result.Ok? then
          SealAndSave(w1, doc.(head := AuditHead(staged.value.event.seqNo, staged.value.hash)), io)
        else if priority == Ordinary then Outcome(w1, Err(AuditRefused(AuditWrite)))
        else SealAndSave(w1, doc, io)
  }

  /** `lock`: drop key material and the decrypted document. */
  function Dropped(w: World): World { w.(doc := None, key := None) }

  /** `lock_persist`: the commit is best effort, the drop is not. */
  function LockPersist(w: World, body: Body, now: int, io: CommitIo): World {
    if w.key.None? || w.doc.None? then Dropped(w)
    else Dropped(CommitWith(w, LockedDown(w.doc.value, now), body, Lifecycle, io).world)
  }

  predicate Coherent(file: seq<Line>, d: Document) { CheckpointOk(file, d.head.seqNo, d.head.hash) }

  /** `do_unlock`, given whether the passphrase opens a slot: verify every MAC, open the in-memory envelope, check
      its checkpoint. */
  function DoUnlock(w: World, rightPassphrase: bool): Outcome {
    if !rightPassphrase then Outcome(w, Err(AuthFailed))
    else if !Accepts(w.log, Some(w.owner)) then Outcome(w, Err(CorruptVault))
    else if !Coherent(w.log, w.envelope) then Outcome(w, Err(CorruptVault))
    else Outcome(w.(key := Some(w.owner), doc := Some(w.envelope)), Ok(()))
  }

  /** `unlock_with_proof`: success and a wrong passphrase are noted best effort, with the reserved headroom. */
  function Unlock(w: World, rightPassphrase: bool, success: Body, refused: Body, fault: AppendFault): Outcome {
    var r := DoUnlock(w, rightPassphrase);
    if r.result.Ok? then Outcome(Note(r.world, success, r.world.key, Lifecycle, fault).world, r.result)
    else if r.result.error == AuthFailed then Outcome(Note(w, refused, None, Lifecycle, fault).world, r.result)
    else r
  }

  /** `load` after the process is gone: the envelope is whatever the file holds. */
  function Load(w: World): Outcome {
    if !Accepts(w.log, None) then Outcome(w, Err(CorruptVault))
    else Outcome(w.(handle := Handle(|w.log|, Head(w.log, |w.log|), w.handle.limits), envelope := w.disk,
                    doc := None, key := None), Ok(()))
  }

  /** `create`: the entry is staged before the key exists and MACed before it is appended. Also returns what the
      log holds afterwards, because a failed create may have written its entry. */
  function Create(owner: Key, limits: Limits, log: seq<Line>, body: Body, blank: Document, fault: AppendFault, saveFails: bool)
    : (seq<Line>, Result<World, VaultError>)
  {
    if !Accepts(log, None) then (log, Err(CorruptVault))
    else
      var h := Handle(|log|, Head(log, |log|), limits);
      var staged := Stage(h, log, body, None, Ordinary);
      if staged.Err? then (log, Err(AuditRefused(staged.error)))
      else
        var maced := WithMac(staged.value, owner);
        var doc := blank.(head := AuditHead(maced.event.seqNo, maced.hash));
        var r := AppendStaged(h, log, maced, fault);
        if r.result.Err? then (r.file, Err(AuditRefused(r.result.error)))
        else if saveFails then (r.file, Err(StorageFailed))
        else (r.file, Ok(World(r.file, doc, r.handle, doc, Some(doc), Some(owner), owner)))
  }

  // ----- runs ------------------------------------------------------------------

  /** One step of a vault's life. `Commits` carries any document at all, so every operation of the session is a
      composition of these. A crash may hit a commit anywhere: the append may or may not have happened, and the
      rename may or may not have. */
  datatype Move =
    | Notes(body: Body, maced: bool, priority: Priority, fault: AppendFault)
    | Commits(doc: Document, body: Body, priority: Priority, io: CommitIo)
    | Locks(body: Body, now: int, io: CommitIo)
    | Unlocks(rightPassphrase: bool, success: Body, refused: Body, fault: AppendFault)
    | Restarts
    | CrashesInCommit(doc: Document, body: Body, priority: Priority, io: CommitIo, renamed: bool)

  /** An edited document starts as a clone of the decrypted one, so it carries that checkpoint. */
  function Carrying(w: World, doc: Document): Document {
    if w.doc.Some? then doc.(head := w.doc.value.head) else doc
  }

  function Restarted(w: World): World { Load(w).world }

  function Do(w: World, m: Move): World {
    match m
    case Notes(body, maced, priority, fault) => Note(w, body, if maced then w.key else None, priority, fault).world
    case Commits(doc, body, priority, io) => CommitWith(w, Carrying(w, doc), body, priority, io).world
    case Locks(body, now, io) => LockPersist(w, body, now, io)
    case Unlocks(right, success, refused, fault) => Unlock(w, right, success, refused, fault).world
    case Restarts => Restarted(w)
    case CrashesInCommit(doc, body, priority, io, renamed) =>
      var after := CommitWith(w, Carrying(w, doc), body, priority, io).world;
      Restarted(if renamed then after else after.(disk := w.disk))
  }

  function Live(w: World, moves: seq<Move>): World {
    if moves == [] then w else Do(Live(w, moves[..|moves| - 1]), moves[|moves| - 1])
  }

  /** The document's checkpoint names an entry of the log, with its exact hash. */
  predicate Named(file: seq<Line>, d: Document) {
    && 1 <= d.head.seqNo <= |file|
    && d.head.hash == Hex(Head(file, d.head.seqNo), 0)
    && file[d.head.seqNo - 1].Entry? && file[d.head.seqNo - 1].hash == d.head.hash
  }

  predicate Openable(w: World) {
    && Accepts(w.log, Some(w.owner)) && Follows(w.handle, w.log)
    && Named(w.log, w.disk) && Named(w.log, w.envelope)
    && (w.key.Some? <==> w.doc.Some?)
    && (w.doc.Some? ==> Named(w.log, w.doc.value))
    && (w.key.Some? ==> w.key.value == w.owner)
  }

  lemma NamedIsCoherent(file: seq<Line>, d: Document, key: Option<Key>)
    requires Accepts(file, key) && Named(file, d)
    ensures Coherent(file, d)
  {
    forall i | 0 <= i < d.head.seqNo ensures Numbered(file, i) { assert LineOk(file, i, key); }
  }

  lemma NamedStays(file: seq<Line>, line: Line, d: Document)
    requires Named(file, d)
    ensures Named(file + [line], d)
  {
    HeadOfPrefix(file + [line], file, d.head.seqNo);
  }

  /** A freshly staged entry either leaves the log alone or extends it by exactly that entry. */
  lemma FreshAppend(h: Handle, file: seq<Line>, body: Body, key: Option<Key>, owner: Key, priority: Priority, fault: AppendFault)
    requires Accepts(file, Some(owner)) && Follows(h, file) && (key.Some? ==> key.value == owner)
    requires Stage(h, file, body, key, priority).Ok?
    ensures var staged := Stage(h, file, body, key, priority).value;
            var r := AppendStaged(h, file, staged, fault);
            && Accepts(r.file, Some(owner)) && Follows(r.handle, r.file) && r.handle.limits == h.limits
            && (r.file == file || r.file == file + [LineOf(staged)])
            && (r.result.Ok? <==> fault == NoFault)
            && (r.result.Ok? ==>
                  && r.file == file + [LineOf(staged)]
                  && staged.event.seqNo == |r.file| && staged.event.body == body
                  && staged.hash == Hex(Head(r.file, |r.file|), 0))
  {
    ResyncReachesHead(h, file, Some(owner));
    var staged := Stage(h, file, body, key, priority).value;
    AppendEffect(h, file, Slip(staged, priority), fault, owner, h.limits);
    HeadOfPrefix(file + [LineOf(staged)], file, |file|);
  }

  lemma NoteKeepsOpenable(w: World, body: Body, key: Option<Key>, priority: Priority, fault: AppendFault)
    requires Openable(w) && (key.Some? ==> key.value == w.owner)
    ensures var w' := Note(w, body, key, priority, fault).world;
            && Openable(w') && w.log <= w'.log
            && w' == w.(handle := w'.handle, log := w'.log)
  {
    if Stage(w.handle, w.log, body, key, priority).Ok? {
      FreshAppend(w.handle, w.log, body, key, w.owner, priority, fault);
      GrowKeepsNames(w, Append(w.handle, w.log, body, key, priority, fault));
    }
  }

  /** What a bare entry writes: exactly the next line, with this body, MACed under the key it was given, if it fits its
      ceiling and the file system takes it; it reports success exactly when the line is there and synced. */
  lemma NoteEffect(w: World, body: Body, key: Option<Key>, priority: Priority, fault: AppendFault)
    requires Openable(w) && (key.Some? ==> key.value == w.owner)
    ensures var out := Note(w, body, key, priority, fault);
            var fits := FileLen(w.log) + Space(body) <= if priority == Ordinary then w.handle.limits.soft else w.handle.limits.hard;
            && (out.result.Ok? <==> fits && fault == NoFault)
            && out.world.log == (if fits && fault != NothingWritten then w.log + [NextLine(w.log, body, key)] else w.log)
  {
    StageIff(w.handle, w.log, body, key, priority);
    if Stage(w.handle, w.log, body, key, priority).Ok? {
      FreshAppend(w.handle, w.log, body, key, w.owner, priority, fault);
      ResyncReachesHead(w.handle, w.log, Some(w.owner));
    }
    hide FileLen;
    hide Accepts;
    hide Follows;
    hide Named;
  }

  function NextLine(log: seq<Line>, body: Body, key: Option<Key>): Line {
    var head := Head(log, |log|);
    var event := Event(|log| + 1, Hex(head, 0), body);
    Entry(event, Hex(Sha(head, event), 0), if key.Some? then Some(Hmac(key.value, head, event)) else None)
  }

  lemma GrowKeepsNames(w: World, r: Appended)
    requires Openable(w)
    requires r.file == w.log || exists line :: r.file == w.log + [line]
    requires Accepts(r.file, Some(w.owner)) && Follows(r.handle, r.file)
    ensures Openable(w.(handle := r.handle, log := r.file))
  {
    if r.file != w.log {
      var line :| r.file == w.log + [line];
      NamedStays(w.log, line, w.disk);
      NamedStays(w.log, line, w.envelope);
      if w.doc.Some? { NamedStays(w.log, line, w.doc.value); }
    }
  }

  /** The log gained one entry, with this body, and it is the document's checkpoint. */
  predicate RecordedAtHead(file: seq<Line>, file': seq<Line>, d: Document, body: Body) {
    && |file'| == |file| + 1 && file <= file'
    && file'[|file|].Entry? && file'[|file|].event.body == body
    && d.head == AuditHead(|file'|, Hex(Head(file', |file'|), 0))
  }

  /** The three ways a commit can end, and what it leaves in the log. An ordinary commit that changes any copy
      of the document, and any commit whose entry was written, names the new entry. */
  lemma CommitEffect(w: World, doc: Document, body: Body, priority: Priority, io: CommitIo)
    requires Openable(w) && w.doc.Some? && doc.head == w.doc.value.head
    ensures var r := CommitWith(w, doc, body, priority, io);
            && Openable(r.world) && r.world.owner == w.owner && r.world.key == w.key
            && w.log <= r.world.log
            && r.world.envelope in {w.envelope, doc.(head := r.world.envelope.head)}
            && (r.result.Ok? ==> r.world.doc == Some(r.world.envelope) && r.world.disk == r.world.envelope
                                 && r.world.envelope == doc.(head := r.world.envelope.head))
            && (r.result.Err? ==> r.world.doc == w.doc && r.world.disk == w.disk)
            && (r.world.envelope != w.envelope ==>
                  || RecordedAtHead(w.log, r.world.log, r.world.envelope, body)
                  || (priority == Lifecycle && r.world.envelope.head == w.doc.value.head))
            && (priority == Ordinary && r.result.Ok? ==> RecordedAtHead(w.log, r.world.log, r.world.envelope, body))
  {
    CommitSeals(w, doc, body, priority, io);
    hide Openable;
    hide CommitWith;
  }

  /** The world after the append, and whether the entry is in the log. */
  function AfterAppend(w: World, body: Body, priority: Priority, io: CommitIo): (World, bool) {
    var staged := Stage(w.handle, w.log, body, w.key, priority);
    if staged.Err? then (w, false)
    else
      var r := AppendStaged(w.handle, w.log, staged.value, io.append);
      (w.(handle := r.handle, log := r.file), r.result.Ok?)
  }

  /** The document a commit seals, once its append is over. */
  function Sealing(w1: World, recorded: bool, doc: Document): Document {
    if recorded then doc.(head := AuditHead(|w1.log|, Hex(Head(w1.log, |w1.log|), 0))) else doc
  }

  lemma AppendKeepsOpenable(w: World, body: Body, priority: Priority, io: CommitIo)
    requires Openable(w) && w.doc.Some?
    ensures var (w1, recorded) := AfterAppend(w, body, priority, io);
            && Openable(w1) && w.log <= w1.log && w1 == w.(handle := w1.handle, log := w1.log)
            && (recorded <==> Stage(w.handle, w.log, body, w.key, priority).Ok? && io.append == NoFault)
            && (recorded ==> forall d: Document :: RecordedAtHead(w.log, w1.log, Sealing(w1, true, d), body)
                                                   && Named(w1.log, Sealing(w1, true, d)))
  {
    var staged := Stage(w.handle, w.log, body, w.key, priority);
    if staged.Ok? {
      FreshAppend(w.handle, w.log, body, w.key, w.owner, priority, io.append);
      GrowKeepsNames(w, AppendStaged(w.handle, w.log, staged.value, io.append));
    }
    hide Openable;
    hide Stage;
    hide AppendStaged;
    hide Accepts;
    hide Follows;
  }

  /** A commit is its append, and then a seal and save of the document it names. */
  lemma CommitIs(w: World, doc: Document, body: Body, priority: Priority, io: CommitIo)
    requires Openable(w) && w.doc.Some?
    ensures var (w1, recorded) := AfterAppend(w, body, priority, io);
            var r := CommitWith(w, doc, body, priority, io);
            if recorded || priority == Lifecycle then r == SealAndSave(w1, Sealing(w1, recorded, doc), io)
            else r.world == w1 && r.result.Err?
  {
    var staged := Stage(w.handle, w.log, body, w.key, priority);
    if staged.Ok? { FreshAppend(w.handle, w.log, body, w.key, w.owner, priority, io.append); }
    hide Stage;
    hide AppendStaged;
    hide SealAndSave;
    hide Accepts;
    hide Follows;
    hide Named;
  }

  lemma CommitSeals(w: World, doc: Document, body: Body, priority: Priority, io: CommitIo)
    requires Openable(w) && w.doc.Some? && doc.head == w.doc.value.head
    ensures var (w1, recorded) := AfterAppend(w, body, priority, io);
            var r, sealed := CommitWith(w, doc, body, priority, io), Sealing(w1, recorded, doc);
            && Openable(r.world) && w.log <= r.world.log && r.world.owner == w.owner && r.world.key == w.key
            && r.world.log == w1.log && r.world.handle == w1.handle
            && r.world.envelope == (if (recorded || priority == Lifecycle) && !io.sealFails then sealed else w.envelope)
            && (r.result.Ok? ==> r.world.doc == Some(sealed) && r.world.disk == sealed && r.world.envelope == sealed)
            && (r.result.Err? ==> r.world.doc == w.doc && r.world.disk == w.disk)
            && (recorded ==> RecordedAtHead(w.log, r.world.log, sealed, body))
            && (!recorded && priority == Ordinary ==> r.result.Err?)
  {
    AppendKeepsOpenable(w, body, priority, io);
    CommitIs(w, doc, body, priority, io);
    hide AfterAppend;
    hide CommitWith;
    hide Accepts;
    hide Follows;
    hide Named;
    hide RecordedAtHead;
  }

  /** A refused commit may still take effect: the next unlock in place adopts the refused document exactly when its
      seal was made, which needs its entry in the log unless the commit only withdraws authority. Otherwise, and
      after a restart, the vault is the one before. */
  lemma RefusedCommitAtUnlock(w: World, doc: Document, body: Body, priority: Priority, io: CommitIo)
    requires Openable(w) && w.doc.Some? && doc.head == w.doc.value.head
    requires CommitWith(w, doc, body, priority, io).result.Err?
    ensures var after := CommitWith(w, doc, body, priority, io).world;
            var recorded := Stage(w.handle, w.log, body, w.key, priority).Ok? && io.append == NoFault;
            var adopted := DoUnlock(after, true).world.doc;
            && DoUnlock(after, true).result.Ok?
            && adopted == Some(if (recorded || priority == Lifecycle) && !io.sealFails
                               then Sealing(after, recorded, doc) else w.envelope)
            && (doc != w.envelope.(head := doc.head) ==>
                  (adopted.value == doc.(head := adopted.value.head) <==> (recorded || priority == Lifecycle) && !io.sealFails))
            && DoUnlock(Load(after).world, true).world.doc == Some(w.disk)
  {
    AppendKeepsOpenable(w, body, priority, io);
    CommitSeals(w, doc, body, priority, io);
    OpenableOpens(CommitWith(w, doc, body, priority, io).world);
    hide Openable;
    hide CommitWith;
    hide AfterAppend;
    hide Stage;
    hide DoUnlock;
    hide Load;
    hide RecordedAtHead;
  }

  /** An instance: adding a project is refused because the save failed, the unlock in place brings the project up all
      the same, and a restart loses it. */
  lemma RefusedSaveSurfaces(w: World, app: Project, body: Body, blank: Document)
    requires body.jsonLen == 100
    requires Create(AuditKey(7), Limits(10_000, 20_000), [], body, blank, NoFault, false).1 == Ok(w)
    ensures w.doc == Some(blank.(head := w.doc.value.head))
    ensures var r := CommitWith(w, w.doc.value.(projects := [app]), body, Ordinary, CommitIo(NoFault, false, false, true));
            && r.result == Err(StorageFailed)
            && DoUnlock(r.world, true).world.doc.Some? && DoUnlock(r.world, true).world.doc.value.projects == [app]
            && DoUnlock(Load(r.world).world, true).world.doc == w.doc
  {
    var io, asked := CommitIo(NoFault, false, false, true), w.doc.value.(projects := [app]);
    CreateIsOpenable(AuditKey(7), Limits(10_000, 20_000), [], body, blank, NoFault);
    EntryFits(w, body, blank);
    assert Stage(w.handle, w.log, body, w.key, Ordinary).Ok?;
    CommitIs(w, asked, body, Ordinary, io);
    AppendKeepsOpenable(w, body, Ordinary, io);
    hide Openable;
    hide Create;
    hide CommitWith;
    hide Stage;
    hide AfterAppend;
    hide DoUnlock;
    hide Load;
    hide RecordedAtHead;
    RefusedCommitAtUnlock(w, asked, body, Ordinary, io);
  }

  lemma EntryFits(w: World, body: Body, blank: Document)
    requires body.jsonLen == 100
    requires Create(AuditKey(7), Limits(10_000, 20_000), [], body, blank, NoFault, false).1 == Ok(w)
    ensures w.key.Some? && w.doc == Some(blank.(head := w.doc.value.head)) && w.envelope == w.disk == w.doc.value
    ensures Stage(w.handle, w.log, body, w.key, Ordinary).Ok?
  {
    assert |w.log| == 1 && w.log[..0] == [];
    assert FileLen(w.log) == FileLen(w.log[..0]) + LineLen(w.log[0]) + 1;
  }

  lemma LoadKeepsOpenable(w: World)
    requires Accepts(w.log, Some(w.owner)) && Named(w.log, w.disk)
    ensures Load(w).result.Ok? && Openable(Load(w).world) && Load(w).world.owner == w.owner
  {
    AcceptedIsReadable(w.log, Some(w.owner));
  }

  /** A restarted vault is locked, and its envelope is what the file holds; it starts exactly on a structurally valid log. */
  lemma RestartsLocked(w: World)
    ensures Load(w).result.Ok? <==> Accepts(w.log, None)
    ensures var w' := Load(w).world;
            Load(w).result.Ok? ==> w'.key.None? && w'.doc.None? && w'.envelope == w.disk && w'.disk == w.disk && w'.log == w.log
  {
    hide Accepts;
  }

  lemma LockedCommitsNothing(w: World, doc: Document, body: Body, priority: Priority, io: CommitIo)
    requires w.key.None?
    ensures CommitWith(w, doc, body, priority, io).world == w
  {
  }

  lemma DoKeepsOpenable(w: World, m: Move)
    requires Openable(w)
    ensures Openable(Do(w, m)) && Do(w, m).owner == w.owner
  {
    hide CommitWith;
    hide Note;
    hide Load;
    hide Accepts;
    hide Follows;
    hide Named;
    hide RecordedAtHead;
    match m
    case Notes(body, maced, priority, fault) => NoteKeepsOpenable(w, body, if maced then w.key else None, priority, fault);
    case Commits(doc, body, priority, io) =>
      if w.doc.Some? { CommitEffect(w, Carrying(w, doc), body, priority, io); } else { LockedCommitsNothing(w, doc, body, priority, io); }
    case Locks(body, now, io) =>
      if w.doc.Some? { CommitEffect(w, LockedDown(w.doc.value, now), body, Lifecycle, io); }
    case Unlocks(right, success, refused, fault) =>
      var r := DoUnlock(w, right);
      if r.result.Ok? { NoteKeepsOpenable(r.world, success, r.world.key, Lifecycle, fault); }
      else if r.result.error == AuthFailed { NoteKeepsOpenable(w, refused, None, Lifecycle, fault); }
    case Restarts => LoadKeepsOpenable(w);
    case CrashesInCommit(doc, body, priority, io, renamed) => CrashKeepsOpenable(w, doc, body, priority, io, renamed);
  }

  lemma CrashKeepsOpenable(w: World, doc: Document, body: Body, priority: Priority, io: CommitIo, renamed: bool)
    requires Openable(w)
    ensures Openable(Do(w, CrashesInCommit(doc, body, priority, io, renamed)))
    ensures Do(w, CrashesInCommit(doc, body, priority, io, renamed)).owner == w.owner
  {
    if w.doc.Some? {
      CommitEffect(w, Carrying(w, doc), body, priority, io);
      var after := CommitWith(w, Carrying(w, doc), body, priority, io).world;
      if !renamed { NamedAcross(w.log, after.log, w.disk); }
      LoadKeepsOpenable(if renamed then after else after.(disk := w.disk));
    } else {
      LoadKeepsOpenable(w);
    }
    hide CommitWith;
    hide Accepts;
    hide Follows;
    hide Named;
    hide RecordedAtHead;
  }

  lemma NamedAcross(file: seq<Line>, file': seq<Line>, d: Document)
    requires Named(file, d) && file <= file'
    ensures Named(file', d)
  {
    HeadOfPrefix(file', file, d.head.seqNo);
    assert file'[d.head.seqNo - 1] == file[d.head.seqNo - 1];
  }

  /** No MAC of the log was made with this key. A key drawn at random is unused. */
  predicate Unused(log: seq<Line>, key: Key) {
    forall i :: 0 <= i < |log| && log[i].Entry? && log[i].mac.Some? && log[i].mac.value.Hmac? ==> log[i].mac.value.key != key
  }

  predicate MacFree(log: seq<Line>) { forall i :: 0 <= i < |log| && log[i].Entry? ==> log[i].mac.None? }

  lemma UnusedKeyAccepts(log: seq<Line>, owner: Key)
    requires Accepts(log, None) && Unused(log, owner)
    ensures Accepts(log, Some(owner)) <==> MacFree(log)
  {
    forall i | 0 <= i < |log| ensures log[i].Entry? && (LineOk(log, i, Some(owner)) <==> log[i].mac.None?) {
      assert LineOk(log, i, None);
    }
  }

  /** A vault is created exactly on a log that is structurally valid and has room for the entry, if the entry and the vault
      can be written; the vault then holds the blank document, unlocked, checkpointed at that entry. */
  lemma CreateIff(owner: Key, limits: Limits, log: seq<Line>, body: Body, blank: Document, fault: AppendFault, saveFails: bool)
    ensures var (log', r) := Create(owner, limits, log, body, blank, fault, saveFails);
            && (r.Ok? <==> Accepts(log, None) && FileLen(log) + Space(body) <= limits.soft && fault == NoFault && !saveFails)
            && (r.Ok? ==> log' == log + [NextLine(log, body, Some(owner))] && r.value.log == log'
                          && r.value.disk == r.value.envelope == blank.(head := AuditHead(|log'|, log'[|log|].hash))
                          && r.value.doc == Some(r.value.disk) && r.value.key == Some(owner))
  {
    var h := Handle(|log|, Head(log, |log|), limits);
    StageIff(h, log, body, None, Ordinary);
    if Accepts(log, None) { ResyncReachesHead(h, log, None); }
    hide Accepts;
    hide FileLen;
    hide Head;
  }

  /** A created vault opens exactly when the log it was created on verifies under its new key, which is to say that
      the log holds no MAC at all. */
  lemma CreateIsOpenable(owner: Key, limits: Limits, log: seq<Line>, body: Body, blank: Document, fault: AppendFault)
    requires Create(owner, limits, log, body, blank, fault, false).1.Ok?
    ensures var w := Create(owner, limits, log, body, blank, fault, false).1.value;
            && w.owner == owner && log <= w.log
            && (Openable(w) <==> Accepts(log, Some(owner)))
            && (DoUnlock(w, true).result.Ok? <==> Accepts(log, Some(owner)))
            && (Unused(log, owner) ==> (Openable(w) <==> MacFree(log)))
            && (Unused(log, owner) ==> (DoUnlock(w, true).result.Ok? <==> MacFree(log)))
  {
    if Unused(log, owner) { UnusedKeyAccepts(log, owner); }
    var h := Handle(|log|, Head(log, |log|), limits);
    var maced := WithMac(Stage(h, log, body, None, Ordinary).value, owner);
    var w := Create(owner, limits, log, body, blank, fault, false).1.value;
    AcceptedIsReadable(log, None);
    assert w.log == log + [LineOf(maced)];
    HeadOfPrefix(w.log, log, |log|);
    assert LineOk(w.log, |log|, Some(owner));
    assert w.log[..|log|] == log;
    hide Unused;
    hide MacFree;
    if Accepts(log, Some(owner)) {
      AcceptsExtend(log, LineOf(maced), Some(owner));
      NamedIsCoherent(w.log, w.envelope, Some(owner));
    } else if Accepts(w.log, Some(owner)) {
      AcceptsPrefix(w.log, Some(owner), |log|);
    }
  }

  predicate Grows(w: World, w': World) { w.log <= w'.log && w'.owner == w.owner }

  lemma NoteGrows(w: World, body: Body, key: Option<Key>, priority: Priority, fault: AppendFault)
    ensures Grows(w, Note(w, body, key, priority, fault).world)
  {
    hide Stage;
    hide Resynced;
  }

  lemma CommitGrows(w: World, doc: Document, body: Body, priority: Priority, io: CommitIo)
    ensures Grows(w, CommitWith(w, doc, body, priority, io).world)
  {
    hide Stage;
    hide Resynced;
  }

  /** Nothing shortens the log, whatever state the vault is in. */
  lemma LogGrows(w: World, m: Move)
    ensures Grows(w, Do(w, m))
  {
    hide Note;
    hide CommitWith;
    hide Accepts;
    hide Coherent;
    match m
    case Notes(body, maced, priority, fault) => NoteGrows(w, body, if maced then w.key else None, priority, fault);
    case Commits(doc, body, priority, io) => CommitGrows(w, Carrying(w, doc), body, priority, io);
    case Locks(body, now, io) => if w.doc.Some? { CommitGrows(w, LockedDown(w.doc.value, now), body, Lifecycle, io); }
    case Unlocks(right, success, refused, fault) =>
      var r := DoUnlock(w, right);
      NoteGrows(r.world, success, r.world.key, Lifecycle, fault);
      NoteGrows(w, refused, None, Lifecycle, fault);
    case Restarts =>
    case CrashesInCommit(doc, body, priority, io, _) => CommitGrows(w, Carrying(w, doc), body, priority, io);
  }

  lemma {:induction false} LogGrowsAlways(w: World, moves: seq<Move>)
    ensures Grows(w, Live(w, moves))
  {
    if moves == [] {
    } else {
      LogGrowsAlways(w, moves[..|moves| - 1]);
      LogGrows(Live(w, moves[..|moves| - 1]), moves[|moves| - 1]);
      hide Do;
    }
  }

  /** A vault created on a log that holds a MAC never unlocks, in all its life. */
  lemma ForeignMacNeverUnlocks(owner: Key, limits: Limits, log: seq<Line>, body: Body, blank: Document, fault: AppendFault,
                               moves: seq<Move>)
    requires Create(owner, limits, log, body, blank, fault, false).1.Ok? && Unused(log, owner) && !MacFree(log)
    ensures DoUnlock(Live(Create(owner, limits, log, body, blank, fault, false).1.value, moves), true).result == Err(CorruptVault)
  {
    CreateIsOpenable(owner, limits, log, body, blank, fault);
    UnusedKeyAccepts(log, owner);
    var w := Create(owner, limits, log, body, blank, fault, false).1.value;
    LogGrowsAlways(w, moves);
    var later := Live(w, moves).log;
    assert log <= later && later == log + later[|log|..];
    RejectionIsPermanent(log, later[|log|..], Some(owner));
    hide Create;
    hide Accepts;
    hide Live;
  }

  /** The failing family: a create that wrote its entry and then failed to save leaves a MAC under a key that is lost.
      Every later create on that log, however it has grown, yields a vault that never unlocks. */
  lemma RetriedCreateNeverUnlocks(lost: Key, owner: Key, limits: Limits, log: seq<Line>, body: Body, blank: Document,
                                  fault: AppendFault, saveFails: bool, more: seq<Line>, again: Body, blank': Document,
                                  fault': AppendFault, moves: seq<Move>)
    requires Create(lost, limits, log, body, blank, fault, saveFails).0 != log
    requires var left := Create(lost, limits, log, body, blank, fault, saveFails).0 + more;
             Unused(left, owner) && Create(owner, limits, left, again, blank', fault', false).1.Ok?
    ensures var left := Create(lost, limits, log, body, blank, fault, saveFails).0 + more;
            DoUnlock(Live(Create(owner, limits, left, again, blank', fault', false).1.value, moves), true).result == Err(CorruptVault)
  {
    var grown := Create(lost, limits, log, body, blank, fault, saveFails).0;
    CreateLeavesItsMac(lost, limits, log, body, blank, fault, saveFails);
    var left := grown + more;
    assert left[|log|] == grown[|log|] && left[|log|].mac.Some?;
    assert !MacFree(left);
    ForeignMacNeverUnlocks(owner, limits, left, again, blank', fault', moves);
  }

  lemma CreateLeavesItsMac(lost: Key, limits: Limits, log: seq<Line>, body: Body, blank: Document, fault: AppendFault,
                           saveFails: bool)
    requires Create(lost, limits, log, body, blank, fault, saveFails).0 != log
    ensures var grown := Create(lost, limits, log, body, blank, fault, saveFails).0;
            |grown| == |log| + 1 && grown[|log|].Entry? && grown[|log|].mac.Some?
  {
  }

  /** Only the passphrase opens the vault: a wrong one changes nothing but the log. */
  lemma UnlockIff(w: World, right: bool, success: Body, refused: Body, fault: AppendFault)
    requires Openable(w)
    ensures var out := Unlock(w, right, success, refused, fault);
            && (out.result.Ok? <==> right)
            && out.world == (if right then w.(key := Some(w.owner), doc := Some(w.envelope)) else w)
                            .(handle := out.world.handle, log := out.world.log)
            && (!right ==> out.result == Err(AuthFailed))
  {
    NamedIsCoherent(w.log, w.envelope, Some(w.owner));
    hide Append;
    hide Coherent;
  }

  /** The invariant survives any life of the vault. */
  lemma {:induction false} EveryLifeStaysOpenable(w: World, moves: seq<Move>)
    requires Openable(w)
    ensures Openable(Live(w, moves)) && Live(w, moves).owner == w.owner
  {
    if moves == [] {
    } else {
      EveryLifeStaysOpenable(w, moves[..|moves| - 1]);
      DoKeepsOpenable(Live(w, moves[..|moves| - 1]), moves[|moves| - 1]);
    }
  }

  /** The right passphrase unlocks in place and after a restart. */
  predicate OpensNowAndLater(w: World) {
    && DoUnlock(w, true) == Outcome(w.(key := Some(w.owner), doc := Some(w.envelope)), Ok(()))
    && Load(w).result.Ok?
    && DoUnlock(Load(w).world, true).result.Ok?
    && DoUnlock(Load(w).world, true).world.doc == Some(w.disk)
  }

  /** The invariant is enough to open the vault: every MAC verifies and every checkpoint is met. */
  lemma OpenableOpens(w: World)
    requires Openable(w)
    ensures OpensNowAndLater(w)
  {
    NamedIsCoherent(w.log, w.envelope, Some(w.owner));
    LoadKeepsOpenable(w);
    NamedIsCoherent(w.log, w.disk, Some(w.owner));
  }

  /** No self-bricking. From a successful create on an empty log, after any sequence of operations, refusals, I/O
      failures and crashes, the checkpoints in memory, in the envelope and on disk all name existing entries, so
      the right passphrase unlocks the vault in place, and it also loads and unlocks after a restart. */
  lemma NoSelfBricking(owner: Key, limits: Limits, body: Body, blank: Document, moves: seq<Move>)
    requires Create(owner, limits, [], body, blank, NoFault, false).1.Ok?
    ensures var w := Live(Create(owner, limits, [], body, blank, NoFault, false).1.value, moves);
            Openable(w) && w.owner == owner && OpensNowAndLater(w)
  {
    hide Openable;
    hide Create;
    hide OpensNowAndLater;
    CreateIsOpenable(owner, limits, [], body, blank, NoFault);
    EveryLifeStaysOpenable(Create(owner, limits, [], body, blank, NoFault, false).1.value, moves);
    OpenableOpens(Live(Create(owner, limits, [], body, blank, NoFault, false).1.value, moves));
  }

  /** Why `create` must append before it saves: a document whose checkpoint is missing from the log never
      opens, whatever the passphrase. */
  lemma MissingEntryBricks(w: World)
    requires w.envelope.head.seqNo > |w.log|
    ensures DoUnlock(w, true).result == Err(CorruptVault)
  {
  }
}
