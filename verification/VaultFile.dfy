/** The commit protocol down to the bytes of the vault file: documents are serialized and sealed, the envelope is
    rendered, checked against the caps and saved through the file-system steps, and read back after a restart. */
module VaultFile {
  import opened Prelude
  import opened Audit
  import opened Model
  import opened Commit
  import E = Envelope
  import S = Store

  /** The cipher suite, the header's codec and the document's codec. */
  datatype Kit = Kit(x: E.Crypto, c: E.Codec, write: Document -> Bytes, read: Bytes -> Option<Document>)

  ghost predicate Trusted(k: Kit) {
    E.Lawful(k.x) && E.Lossless(k.c) && forall d :: k.read(k.write(d)) == Some(d)
  }

  /** The vault's directory, and the envelope in memory. */
  datatype Files = Files(dir: S.Disk, memory: E.Sealed)

  datatype Vault = Vault(w: World, files: Files)

  /** How one save goes: the nonce it draws, and what the file system answers until it is done or the process dies. */
  datatype Attempt = Attempt(nonce: Bytes, sealFails: bool, trace: seq<S.Event>)

  /** `load`: what the vault file parses to. */
  function Stored(k: Kit, files: Files): Result<E.Sealed, E.Fault> {
    if files.dir.target.None? then Err(E.Truncated) else E.Parsed(k.c, files.dir.target.value)
  }

  function SealedFor(k: Kit, keys: E.Keys, files: Files, doc: Document, a: Attempt): E.Sealed {
    E.Resealed(k.x, k.c, files.memory, k.write(doc), keys, a.nonce)
  }

  function SaveState(k: Kit, keys: E.Keys, files: Files, doc: Document, a: Attempt): S.State {
    S.Play(files.dir, E.Rendered(k.c, SealedFor(k, keys, files, doc, a)), a.trace)
  }

  /** Reseal, check the caps, save. */
  function FilesAfter(k: Kit, keys: E.Keys, files: Files, doc: Document, a: Attempt): Files {
    var e := SealedFor(k, keys, files, doc, a);
    if a.sealFails then files
    else if !E.Persistable(k.c, e) then files.(memory := e)
    else Files(SaveState(k, keys, files, doc, a).disk, e)
  }

  /** What the commit protocol sees of it. */
  function IoOf(k: Kit, keys: E.Keys, files: Files, doc: Document, append: AppendFault, a: Attempt): CommitIo {
    CommitIo(append, a.sealFails, !E.Persistable(k.c, SealedFor(k, keys, files, doc, a)),
             SaveState(k, keys, files, doc, a).pc != S.Done(true))
  }

  /** The document a commit seals, if it comes to that. */
  function ToSeal(w: World, doc: Document, body: Body, priority: Priority, append: AppendFault): Option<Document> {
    var (w1, recorded) := AfterAppend(w, body, priority, CommitIo(append, false, false, false));
    if w.key.Some? && (recorded || priority == Lifecycle) then Some(Sealing(w1, recorded, doc)) else None
  }

  function Committing(k: Kit, keys: E.Keys, v: Vault, doc: Document, body: Body, priority: Priority, append: AppendFault,
                      a: Attempt): (CommitIo, Files)
  {
    var sealed := ToSeal(v.w, doc, body, priority, append);
    if sealed.None? then (CommitIo(append, true, true, true), v.files)
    else (IoOf(k, keys, v.files, sealed.value, append, a), FilesAfter(k, keys, v.files, sealed.value, a))
  }

  /** A restart reads the file. */
  function Reopened(k: Kit, files: Files): Files {
    if Stored(k, files).Ok? then files.(memory := Stored(k, files).value) else files
  }

  /** One step of the vault's life, with its bytes. A crash leaves the save wherever its trace ends. */
  datatype Deed =
    | Notes(body: Body, maced: bool, priority: Priority, fault: AppendFault)
    | Commits(doc: Document, body: Body, priority: Priority, append: AppendFault, a: Attempt)
    | Crashes(doc: Document, body: Body, priority: Priority, append: AppendFault, a: Attempt)
    | Locks(body: Body, now: int, append: AppendFault, a: Attempt)
    | Unlocks(right: bool, success: Body, refused: Body, fault: AppendFault)
    | Restarts

  function Act(k: Kit, keys: E.Keys, v: Vault, deed: Deed): Vault {
    match deed
    case Notes(body, maced, priority, fault) => v.(w := Do(v.w, Move.Notes(body, maced, priority, fault)))
    case Commits(doc, body, priority, append, a) =>
      var (io, files) := Committing(k, keys, v, Carrying(v.w, doc), body, priority, append, a);
      Vault(Do(v.w, Move.Commits(doc, body, priority, io)), files)
    case Crashes(doc, body, priority, append, a) =>
      var (io, files) := Committing(k, keys, v, Carrying(v.w, doc), body, priority, append, a);
      Vault(Do(v.w, CrashesInCommit(doc, body, priority, io, !io.saveFails)), Reopened(k, files))
    case Locks(body, now, append, a) =>
      if v.w.key.None? || v.w.doc.None? then v.(w := Dropped(v.w))
      else
        var (io, files) := Committing(k, keys, v, LockedDown(v.w.doc.value, now), body, Lifecycle, append, a);
        Vault(Do(v.w, Move.Locks(body, now, io)), files)
    case Unlocks(right, success, refused, fault) => v.(w := Do(v.w, Move.Unlocks(right, success, refused, fault)))
    case Restarts => Vault(Do(v.w, Move.Restarts), Reopened(k, v.files))
  }

  function Run(k: Kit, keys: E.Keys, v: Vault, deeds: seq<Deed>): Vault {
    if deeds == [] then v else Act(k, keys, Run(k, keys, v, deeds[..|deeds| - 1]), deeds[|deeds| - 1])
  }

  /** File and memory hold the two documents of the abstract vault, under one header. */
  ghost predicate Represents(k: Kit, keys: E.Keys, h: E.Header, files: Files, w: World) {
    && E.Canonical(h) && files.memory.header == h
    && E.Holds(k.x, k.c, files.memory, keys, k.write(w.envelope))
    && Stored(k, files).Ok? && Stored(k, files).value.header == h
    && E.Holds(k.x, k.c, Stored(k, files).value, keys, k.write(w.disk))
  }

  predicate NonceOk(deed: Deed) { deed.Commits? || deed.Crashes? || deed.Locks? ==> |deed.a.nonce| == E.NONCE_LEN }

  // ----- one save ----------------------------------------------------------------------------------

  lemma SealHolds(k: Kit, keys: E.Keys, h: E.Header, files: Files, w: World, doc: Document, a: Attempt)
    requires Trusted(k) && Represents(k, keys, h, files, w) && |a.nonce| == E.NONCE_LEN
    ensures var e := SealedFor(k, keys, files, doc, a);
            && e.header == h && E.Holds(k.x, k.c, e, keys, k.write(doc))
            && (E.Persistable(k.c, e) ==> E.Parsed(k.c, E.Rendered(k.c, e)) == Ok(e))
  {
    var e := SealedFor(k, keys, files, doc, a);
    E.RoundTripsExactlyWhenPersistable(k.c, e);
    hide E.Parsed;
    hide E.Rendered;
    hide E.Persistable;
    hide E.Canonical;
  }

  /** The file is the new rendering once the save is through, and the old one until then. */
  lemma SaveEnds(k: Kit, keys: E.Keys, files: Files, doc: Document, a: Attempt)
    ensures SaveState(k, keys, files, doc, a).disk.target ==
              if SaveState(k, keys, files, doc, a).pc == S.Done(true)
              then Some(E.Rendered(k.c, SealedFor(k, keys, files, doc, a))) else files.dir.target
  {
    S.EveryInterruptionIsSafe(files.dir, E.Rendered(k.c, SealedFor(k, keys, files, doc, a)), a.trace);
    hide S.Play;
    hide E.Rendered;
  }

  /** Bytes and protocol agree on what a save leaves, wherever it is interrupted. */
  lemma SaveFollows(k: Kit, keys: E.Keys, h: E.Header, files: Files, w: World, doc: Document, append: AppendFault, a: Attempt)
    requires Trusted(k) && Represents(k, keys, h, files, w) && |a.nonce| == E.NONCE_LEN
    ensures Represents(k, keys, h, FilesAfter(k, keys, files, doc, a),
                       SealAndSave(w, doc, IoOf(k, keys, files, doc, append, a)).world)
  {
    SealHolds(k, keys, h, files, w, doc, a);
    SaveEnds(k, keys, files, doc, a);
    hide E.Parsed;
    hide E.Rendered;
    hide E.Persistable;
    hide E.Canonical;
    hide E.Holds;
    hide SealedFor;
    hide SaveState;
  }

  /** Only the three places of the documents matter to the files. */
  lemma RepresentsWhere(k: Kit, keys: E.Keys, h: E.Header, files: Files, w: World, w': World)
    requires Represents(k, keys, h, files, w) && w'.envelope == w.envelope && w'.disk == w.disk
    ensures Represents(k, keys, h, files, w')
  {
  }

  lemma OnlyTheAppendMatters(w: World, body: Body, priority: Priority, io: CommitIo, other: CommitIo)
    requires io.append == other.append
    ensures AfterAppend(w, body, priority, io) == AfterAppend(w, body, priority, other)
  {
  }

  lemma CommitFollows(k: Kit, keys: E.Keys, h: E.Header, v: Vault, doc: Document, body: Body, priority: Priority,
                      append: AppendFault, a: Attempt)
    requires Trusted(k) && Represents(k, keys, h, v.files, v.w) && Openable(v.w) && v.w.doc.Some? && |a.nonce| == E.NONCE_LEN
    ensures var (io, files) := Committing(k, keys, v, doc, body, priority, append, a);
            var r := CommitWith(v.w, doc, body, priority, io);
            && Represents(k, keys, h, files, r.world)
            && (io.saveFails ==> r.world.disk == v.w.disk)
  {
    assert v.w.key.Some?;
    hide Openable;
    hide CommitWith;
    hide RecordedAtHead;
    hide Represents;
    hide FilesAfter;
    hide AfterAppend;
    var (io, files) := Committing(k, keys, v, doc, body, priority, append, a);
    var (w1, recorded) := AfterAppend(v.w, body, priority, io);
    OnlyTheAppendMatters(v.w, body, priority, io, CommitIo(append, false, false, false));
    AppendKeepsOpenable(v.w, body, priority, io);
    CommitIs(v.w, doc, body, priority, io);
    RepresentsWhere(k, keys, h, v.files, v.w, w1);
    if recorded || priority == Lifecycle {
      SaveFollows(k, keys, h, v.files, w1, Sealing(w1, recorded, doc), append, a);
    }
  }

  lemma ReopenFollows(k: Kit, keys: E.Keys, h: E.Header, files: Files, w: World, w': World)
    requires Represents(k, keys, h, files, w) && w'.envelope == w.disk && w'.disk == w.disk
    ensures Represents(k, keys, h, Reopened(k, files), w')
  {
    hide E.Holds;
    hide E.Parsed;
    hide E.Canonical;
  }

  lemma ReloadedFrom(w: World)
    requires Openable(w)
    ensures Restarted(w).envelope == w.disk && Restarted(w).disk == w.disk
  {
    LoadKeepsOpenable(w);
    hide Openable;
  }

  lemma LockedLeavesFiles(k: Kit, keys: E.Keys, v: Vault, doc: Document, body: Body, priority: Priority,
                          append: AppendFault, a: Attempt)
    requires Openable(v.w)
    ensures v.w.doc.None? ==>
              var (io, files) := Committing(k, keys, v, doc, body, priority, append, a);
              files == v.files && CommitWith(v.w, doc, body, priority, io).world == v.w
  {
    hide AfterAppend;
  }

  lemma CrashFollows(k: Kit, keys: E.Keys, h: E.Header, v: Vault, deed: Deed)
    requires Trusted(k) && Represents(k, keys, h, v.files, v.w) && Openable(v.w) && NonceOk(deed) && deed.Crashes?
    ensures Represents(k, keys, h, Act(k, keys, v, deed).files, Act(k, keys, v, deed).w)
  {
    hide Represents;
    hide Openable;
    hide CommitWith;
    hide Committing;
    hide RecordedAtHead;
    hide Load;
    var doc := Carrying(v.w, deed.doc);
    var (io, files) := Committing(k, keys, v, doc, deed.body, deed.priority, deed.append, deed.a);
    var after := CommitWith(v.w, doc, deed.body, deed.priority, io).world;
    LockedLeavesFiles(k, keys, v, doc, deed.body, deed.priority, deed.append, deed.a);
    if v.w.doc.Some? {
      CommitFollows(k, keys, h, v, doc, deed.body, deed.priority, deed.append, deed.a);
      CommitEffect(v.w, doc, deed.body, deed.priority, io);
    }
    assert (if !io.saveFails then after else after.(disk := v.w.disk)) == after;
    ReloadedFrom(after);
    ReopenFollows(k, keys, h, files, after, Restarted(after));
  }

  lemma LockFollows(k: Kit, keys: E.Keys, h: E.Header, v: Vault, deed: Deed)
    requires Trusted(k) && Represents(k, keys, h, v.files, v.w) && Openable(v.w) && NonceOk(deed) && deed.Locks?
    ensures Represents(k, keys, h, Act(k, keys, v, deed).files, Act(k, keys, v, deed).w)
  {
    hide Openable;
    hide CommitWith;
    hide Committing;
    hide Represents;
    hide LockedDown;
    if v.w.key.None? || v.w.doc.None? {
      RepresentsWhere(k, keys, h, v.files, v.w, Dropped(v.w));
    } else {
      var doc := LockedDown(v.w.doc.value, deed.now);
      var (io, files) := Committing(k, keys, v, doc, deed.body, Lifecycle, deed.append, deed.a);
      CommitFollows(k, keys, h, v, doc, deed.body, Lifecycle, deed.append, deed.a);
      var after := CommitWith(v.w, doc, deed.body, Lifecycle, io).world;
      RepresentsWhere(k, keys, h, files, after, Dropped(after));
    }
  }

  lemma CommitsFollow(k: Kit, keys: E.Keys, h: E.Header, v: Vault, deed: Deed)
    requires Trusted(k) && Represents(k, keys, h, v.files, v.w) && Openable(v.w) && NonceOk(deed) && deed.Commits?
    ensures Represents(k, keys, h, Act(k, keys, v, deed).files, Act(k, keys, v, deed).w)
  {
    hide Represents;
    hide Openable;
    hide CommitWith;
    hide Committing;
    var doc := Carrying(v.w, deed.doc);
    LockedLeavesFiles(k, keys, v, doc, deed.body, deed.priority, deed.append, deed.a);
    if v.w.doc.Some? { CommitFollows(k, keys, h, v, doc, deed.body, deed.priority, deed.append, deed.a); }
  }

  lemma QuietDeedFollows(k: Kit, keys: E.Keys, h: E.Header, v: Vault, deed: Deed)
    requires Represents(k, keys, h, v.files, v.w) && Openable(v.w) && (deed.Notes? || deed.Unlocks? || deed.Restarts?)
    ensures Represents(k, keys, h, Act(k, keys, v, deed).files, Act(k, keys, v, deed).w)
  {
    hide Represents;
    hide Append;
    hide Accepts;
    hide Coherent;
    var v' := Act(k, keys, v, deed);
    if deed.Restarts? {
      ReloadedFrom(v.w);
      ReopenFollows(k, keys, h, v.files, v.w, v'.w);
    } else {
      RepresentsWhere(k, keys, h, v.files, v.w, v'.w);
    }
    hide Openable;
    hide Load;
  }

  // ----- whole lives ---------------------------------------------------------------------------------

  lemma ActOpens(k: Kit, keys: E.Keys, v: Vault, deed: Deed)
    requires Openable(v.w)
    ensures Openable(Act(k, keys, v, deed).w)
  {
    hide Do;
    hide Committing;
    var doc := if deed.Commits? || deed.Crashes? then Carrying(v.w, deed.doc) else v.w.disk;
    match deed
    case Notes(body, maced, priority, fault) => DoKeepsOpenable(v.w, Move.Notes(body, maced, priority, fault));
    case Commits(_, body, priority, append, a) =>
      DoKeepsOpenable(v.w, Move.Commits(deed.doc, body, priority, Committing(k, keys, v, doc, body, priority, append, a).0));
    case Crashes(_, body, priority, append, a) =>
      var io := Committing(k, keys, v, doc, body, priority, append, a).0;
      DoKeepsOpenable(v.w, CrashesInCommit(deed.doc, body, priority, io, !io.saveFails));
    case Locks(body, now, append, a) =>
      if v.w.doc.Some? {
        var io := Committing(k, keys, v, LockedDown(v.w.doc.value, now), body, Lifecycle, append, a).0;
        DoKeepsOpenable(v.w, Move.Locks(body, now, io));
      }
    case Unlocks(right, success, refused, fault) => DoKeepsOpenable(v.w, Move.Unlocks(right, success, refused, fault));
    case Restarts => DoKeepsOpenable(v.w, Move.Restarts);
  }

  lemma {:induction false} BytesFollow(k: Kit, keys: E.Keys, h: E.Header, v: Vault, deeds: seq<Deed>)
    requires Trusted(k) && Represents(k, keys, h, v.files, v.w) && Openable(v.w)
    requires forall i :: 0 <= i < |deeds| ==> NonceOk(deeds[i])
    ensures var v' := Run(k, keys, v, deeds); Represents(k, keys, h, v'.files, v'.w) && Openable(v'.w)
  {
    if deeds == [] {
    } else {
      var before, deed := Run(k, keys, v, deeds[..|deeds| - 1]), deeds[|deeds| - 1];
      BytesFollow(k, keys, h, v, deeds[..|deeds| - 1]);
      ActOpens(k, keys, before, deed);
      if deed.Commits? { CommitsFollow(k, keys, h, before, deed); }
      else if deed.Crashes? { CrashFollows(k, keys, h, before, deed); }
      else if deed.Locks? { LockFollows(k, keys, h, before, deed); }
      else { QuietDeedFollows(k, keys, h, before, deed); }
    }
    hide Represents;
    hide Openable;
    hide Act;
    hide Trusted;
  }

  /** The passphrase opens these bytes to this document. */
  ghost predicate Opens(k: Kit, e: E.Sealed, passphrase: Bytes, keys: E.Keys, doc: Document) {
    && E.Unlocked(k.x, e.header, passphrase) == Ok(keys)
    && E.OpenedDocument(k.x, k.c, e, keys).Ok?
    && k.read(E.OpenedDocument(k.x, k.c, e, keys).value) == Some(doc)
  }

  lemma RepresentedOpens(k: Kit, keys: E.Keys, h: E.Header, files: Files, w: World, slot: nat, passphrase: Bytes)
    requires Trusted(k) && Represents(k, keys, h, files, w)
    requires slot < |h.slots| && E.Wraps(k.x, h.slots[slot], passphrase, keys.mek) && E.OnlyOpens(k.x, h, passphrase, keys.mek)
    ensures Opens(k, files.memory, passphrase, keys, w.envelope)
    ensures Opens(k, Stored(k, files).value, passphrase, keys, w.disk)
  {
    E.HonestPassphraseUnlocks(k.x, k.c, files.memory, keys, k.write(w.envelope), slot, passphrase);
    E.HonestPassphraseUnlocks(k.x, k.c, Stored(k, files).value, keys, k.write(w.disk), slot, passphrase);
    hide E.Holds;
    hide E.Canonical;
    hide E.Unlocked;
    hide E.OpenedDocument;
    hide E.Wraps;
    hide E.OnlyOpens;
    hide Stored;
  }

  /** A vault as `create` leaves it, once its first save is through. */
  ghost predicate Fresh(k: Kit, v: Vault, owner: Key, limits: Limits, body: Body, blank: Document, passphrase: Bytes,
                        createdAt: int, draw: E.Draw, dir: S.Disk, trace: seq<S.Event>)
  {
    && Create(owner, limits, [], body, blank, NoFault, false).1 == Ok(v.w)
    && E.DrawOk(draw) && E.YEAR_0 <= createdAt < E.YEAR_10000
    && v.files.memory == E.Created(k.x, k.c, passphrase, k.write(v.w.envelope), createdAt, draw)
    && E.Persistable(k.c, v.files.memory)
    && S.Play(dir, E.Rendered(k.c, v.files.memory), trace) == S.State(v.files.dir, S.Done(true))
  }

  lemma FreshRepresents(k: Kit, v: Vault, owner: Key, limits: Limits, body: Body, blank: Document, passphrase: Bytes,
                        createdAt: int, draw: E.Draw, dir: S.Disk, trace: seq<S.Event>)
    requires Trusted(k) && Fresh(k, v, owner, limits, body, blank, passphrase, createdAt, draw, dir, trace)
    ensures Represents(k, E.Keys(draw.mek, draw.dek), v.files.memory.header, v.files, v.w) && Openable(v.w)
    ensures v.files.memory.header.slots != []
    ensures E.Wraps(k.x, v.files.memory.header.slots[0], passphrase, draw.mek)
    ensures E.OnlyOpens(k.x, v.files.memory.header, passphrase, draw.mek)
  {
    var e := v.files.memory;
    E.CreateIsHonest(k.x, k.c, passphrase, k.write(v.w.envelope), createdAt, draw);
    CreateIsOpenable(owner, limits, [], body, blank, NoFault);
    E.RoundTripsExactlyWhenPersistable(k.c, e);
    S.EveryInterruptionIsSafe(dir, E.Rendered(k.c, e), trace);
    assert v.w.disk == v.w.envelope;
    hide E.Parsed;
    hide E.Rendered;
    hide E.Persistable;
    hide E.Canonical;
    hide E.Wraps;
    hide E.OnlyOpens;
    hide Create;
    hide Openable;
    hide S.Play;
  }

  /** Down to the bytes, no life of a vault locks its owner out: after any sequence of commits, locks, unlocks, refusals,
      full disks, oversized documents and crashes at any file-system step, the vault file parses, the passphrase it was
      created with unlocks it, and what opens is exactly the document the protocol says is stored; the same holds of the
      envelope in memory, and the log accepts both. */
  lemma VaultOutlivesEverything(k: Kit, v: Vault, owner: Key, limits: Limits, body: Body, blank: Document, passphrase: Bytes,
                                createdAt: int, draw: E.Draw, dir: S.Disk, trace: seq<S.Event>, deeds: seq<Deed>)
    requires Trusted(k) && Fresh(k, v, owner, limits, body, blank, passphrase, createdAt, draw, dir, trace)
    requires forall i :: 0 <= i < |deeds| ==> NonceOk(deeds[i])
    ensures var keys := E.Keys(draw.mek, draw.dek);
            var v' := Run(k, keys, v, deeds);
            && Stored(k, v'.files).Ok?
            && Opens(k, Stored(k, v'.files).value, passphrase, keys, v'.w.disk)
            && Opens(k, v'.files.memory, passphrase, keys, v'.w.envelope)
            && OpensNowAndLater(v'.w)
  {
    var keys, h := E.Keys(draw.mek, draw.dek), v.files.memory.header;
    FreshRepresents(k, v, owner, limits, body, blank, passphrase, createdAt, draw, dir, trace);
    BytesFollow(k, keys, h, v, deeds);
    var v' := Run(k, keys, v, deeds);
    RepresentedOpens(k, keys, h, v'.files, v'.w, 0, passphrase);
    OpenableOpens(v'.w);
    hide Openable;
    hide Fresh;
    hide Run;
    hide Opens;
    hide OpensNowAndLater;
    hide E.Wraps;
    hide E.OnlyOpens;
    hide E.Holds;
  }
}
