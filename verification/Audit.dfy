/** The audit log: hash-chained entries, MACs, the handle that stages and appends, and the two readers
    (`walk` and `check_checkpoint`).

    SHA-256 and HMAC-SHA256 are ideal: a digest is the term that was hashed, so distinct inputs have
    distinct digests, and a MAC is the term that was authenticated. `Unrelated` values stand for
    digests and tags that nobody computed from an entry. */
module Audit {
  import opened Prelude

  datatype Digest = Zero | Sha(prev: Digest, event: Event) | Unrelated(tag: nat)

  /** A hex field as stored in a line. `hex` writes spelling 0; `unhex` accepts any letter case. */
  datatype Hex = Hex(digest: Digest, spelling: nat) | BadHex(text: string)

  /** What an event is about: the project, the names of the keys, the target, and the fields of a run as they are
      rendered. */
  datatype Detail = Detail(project: Option<string>, keys: seq<string>, target: Option<string>, run: string)

  /** Everything an event says besides its place in the chain. `jsonLen` is the length of its
      canonical JSON, the only thing about the encoder that the ceilings depend on. */
  datatype Body = Body(ts: int, actor: string, op: string, allowed: bool, reason: string, detail: Detail, jsonLen: nat)

  datatype Event = Event(seqNo: nat, prevHash: Hex, body: Body)

  /** `derive_audit_key`: an independent subkey of the master key. */
  datatype Key = AuditKey(mek: nat)

  datatype Mac = Hmac(key: Key, prev: Digest, event: Event) | BadMac(text: string)

  /** One non-empty line of the file; `Junk` does not parse as an audit line. */
  datatype Line = Junk(size: nat) | Entry(event: Event, hash: Hex, mac: Option<Mac>)

  datatype Priority = Ordinary | Lifecycle

  datatype Limits = Limits(soft: nat, hard: nat)

  datatype AuditError = Corrupt | Protocol | AuditFull | AuditWrite | IoError

  function Unhex(h: Hex): Option<Digest> {
    match h
    case Hex(d, _) => Some(d)
    case BadHex(_) => None
  }

  // ----- sizes ---------------------------------------------------------------

  function MacLen(mac: Option<Mac>): nat {
    match mac
    case None => 4                       // null
    case Some(Hmac(_, _, _)) => 66       // 64 hex digits in quotes
    case Some(BadMac(text)) => |text| + 2
  }

  function HexLen(h: Hex): nat {
    match h
    case Hex(_, _) => 64
    case BadHex(text) => |text|
  }

  /** Length of one line without its newline: the event's fields, then `,"hash":"…"`, then `,"mac":…`. */
  function LineLen(line: Line): nat {
    match line
    case Junk(size) => size
    case Entry(event, hash, mac) => event.body.jsonLen + 10 + HexLen(hash) + 7 + MacLen(mac)
  }

  function FileLen(file: seq<Line>): nat {
    if file == [] then 0 else FileLen(file[..|file| - 1]) + LineLen(file[|file| - 1]) + 1
  }

  // ----- the chain -------------------------------------------------------------

  /** The chain hash after the first `n` lines. */
  function Head(file: seq<Line>, n: nat): Digest
    requires n <= |file|
  {
    if n == 0 then Zero
    else match file[n - 1]
      case Junk(_) => Head(file, n - 1)
      case Entry(event, _, _) => Sha(Head(file, n - 1), event)
  }

  predicate Numbered(file: seq<Line>, i: nat)
    requires i < |file|
  {
    file[i].Entry? && file[i].event.seqNo == i + 1
  }

  /** What `walk` demands of line `i`. */
  predicate LineOk(file: seq<Line>, i: nat, key: Option<Key>)
    requires i < |file|
  {
    && Numbered(file, i)
    && Unhex(file[i].event.prevHash) == Some(Head(file, i))
    && Unhex(file[i].hash) == Some(Head(file, i + 1))
    && (file[i].mac.Some? && key.Some? ==> file[i].mac.value == Hmac(key.value, Head(file, i), file[i].event))
  }

  predicate Accepts(file: seq<Line>, key: Option<Key>) {
    forall i :: 0 <= i < |file| ==> LineOk(file, i, key)
  }

  datatype Report = Report(entries: nat, macsVerified: nat, macsNull: nat)

  function CountMacs(file: seq<Line>): nat {
    if file == [] then 0
    else CountMacs(file[..|file| - 1]) + (if file[|file| - 1].Entry? && file[|file| - 1].mac.Some? then 1 else 0)
  }

  lemma HeadOfPrefix(file: seq<Line>, other: seq<Line>, n: nat)
    requires n <= |file| && n <= |other| && file[..n] == other[..n]
    ensures Head(file, n) == Head(other, n)
  {
    if n == 0 {
    } else {
      assert file[n - 1] == file[..n][n - 1] == other[..n][n - 1] == other[n - 1];
      assert file[..n - 1] == file[..n][..n - 1] == other[..n][..n - 1] == other[..n - 1];
      HeadOfPrefix(file, other, n - 1);
    }
  }

  /** Prefixes of an accepted file are accepted: truncation alone is not visible to `walk`. */
  lemma AcceptsPrefix(file: seq<Line>, key: Option<Key>, n: nat)
    requires Accepts(file, key) && n <= |file|
    ensures Accepts(file[..n], key)
  {
    forall i | 0 <= i < n ensures LineOk(file[..n], i, key) {
      assert LineOk(file, i, key);
      HeadOfPrefix(file[..n], file, i);
      HeadOfPrefix(file[..n], file, i + 1);
    }
  }

  lemma AcceptsExtend(file: seq<Line>, line: Line, key: Option<Key>)
    requires Accepts(file, key)
    requires LineOk(file + [line], |file|, key)
    ensures Accepts(file + [line], key)
  {
    forall i | 0 <= i < |file| ensures LineOk(file + [line], i, key) {
      assert LineOk(file, i, key);
      HeadOfPrefix(file + [line], file, i);
      HeadOfPrefix(file + [line], file, i + 1);
    }
  }

  /** `AuditLog::walk`. */
  method Walk(file: seq<Line>, key: Option<Key>) returns (r: Result<(Report, Digest), AuditError>)
    ensures r.Ok? <==> Accepts(file, key)
    ensures r.Ok? ==> r.value.1 == Head(file, |file|)
    ensures r.Ok? ==> r.value.0.entries == |file| == r.value.0.macsVerified + r.value.0.macsNull
    ensures r.Ok? ==> r.value.0.macsVerified == if key.Some? then CountMacs(file) else 0
    ensures r.Err? ==> r.error == Corrupt
  {
    var prev, seqNo := Zero, 0;
    var report := Report(0, 0, 0);
    while seqNo < |file|
      invariant seqNo <= |file|
      invariant prev == Head(file, seqNo)
      invariant forall i :: 0 <= i < seqNo ==> LineOk(file, i, key)
      invariant report.entries == seqNo == report.macsVerified + report.macsNull
      invariant report.macsVerified == if key.Some? then CountMacs(file[..seqNo]) else 0
    {
      var line := file[seqNo];
      assert file[..seqNo + 1][..seqNo] == file[..seqNo];
      if line.Junk? { assert !Numbered(file, seqNo); assert !LineOk(file, seqNo, key); return Err(Corrupt); }
      if line.event.seqNo != seqNo + 1 { assert !LineOk(file, seqNo, key); return Err(Corrupt); }
      if Unhex(line.event.prevHash) != Some(prev) { assert !LineOk(file, seqNo, key); return Err(Corrupt); }
      var computed := Sha(prev, line.event);
      if Unhex(line.hash) != Some(computed) { assert !LineOk(file, seqNo, key); return Err(Corrupt); }
      if line.mac.Some? && key.Some? {
        if line.mac.value != Hmac(key.value, prev, line.event) { assert !LineOk(file, seqNo, key); return Err(Corrupt); }
        report := report.(macsVerified := report.macsVerified + 1);
      } else {
        report := report.(macsNull := report.macsNull + 1);
      }
      prev := computed;
      report := report.(entries := report.entries + 1);
      seqNo := seqNo + 1;
    }
    assert file[..|file|] == file;
    return Ok((report, prev));
  }

  /** The log has reached entry `seqNo`, which is spelled `hash` and hashes the entries before it. */
  predicate CheckpointOk(file: seq<Line>, seqNo: nat, hash: Hex) {
    && 1 <= seqNo <= |file|
    && (forall i :: 0 <= i < seqNo ==> Numbered(file, i))
    && hash.Hex? && hash.digest == Head(file, seqNo)
    && Numbered(file, seqNo - 1) && file[seqNo - 1].hash == hash
  }

  /** `check_checkpoint`. It never compares `prev_hash` fields and never looks past `headSeq`. */
  method CheckCheckpoint(file: seq<Line>, headSeq: nat, headHash: Hex) returns (r: Result<(), AuditError>)
    ensures r.Ok? <==> CheckpointOk(file, headSeq, headHash)
    ensures r.Err? ==> r.error == Corrupt
  {
    var prev, seqNo := Zero, 0;
    while seqNo < |file|
      invariant seqNo <= |file|
      invariant prev == Head(file, seqNo)
      invariant forall i :: 0 <= i < seqNo ==> Numbered(file, i)
      invariant headSeq == 0 || seqNo < headSeq
    {
      var line := file[seqNo];
      if line.Junk? || line.event.seqNo != seqNo + 1 {
        assert !Numbered(file, seqNo);
        return Err(Corrupt);
      }
      var computed := Sha(prev, line.event);
      seqNo := seqNo + 1;
      if seqNo == headSeq {
        if Unhex(line.hash) != Some(computed) || line.hash != headHash {
          return Err(Corrupt);
        }
        return Ok(());
      }
      prev := computed;
    }
    return Err(Corrupt);
  }

  // ----- a handle: stage, append, resync --------------------------------------------

  datatype Handle = Handle(seqNo: nat, lastHash: Digest, limits: Limits)

  datatype Staged = Staged(event: Event, hash: Hex, mac: Option<Mac>)

  /** What the file system does with one append: the line is written and synced, nothing is written,
      or the line is written and the sync reports an error. */
  datatype AppendFault = NoFault | NothingWritten | WrittenNotSynced

  predicate Readable(file: seq<Line>) {
    forall i :: 0 <= i < |file| ==> Numbered(file, i) && Unhex(file[i].hash).Some?
  }

  /** `resync`: adopt the file's tail when the file is ahead of the cached head, and never rewind. */
  function Resynced(h: Handle, file: seq<Line>): Handle {
    if Readable(file) && |file| > h.seqNo
    then h.(seqNo := |file|, lastHash := Unhex(file[|file| - 1].hash).value)
    else h
  }

  function ProbeLen(event: Event): nat {
    LineLen(Entry(event, Hex(Zero, 0), Some(Hmac(AuditKey(0), Zero, event))))
  }

  function Ceiling(limits: Limits, priority: Priority): nat {
    match priority
    case Ordinary => limits.soft
    case Lifecycle => limits.hard
  }

  function NextEvent(h: Handle, body: Body): Event {
    Event(h.seqNo + 1, Hex(h.lastHash, 0), body)
  }

  /** `stage`: build the entry that would follow the file, refusing one that does not fit. */
  function Stage(h: Handle, file: seq<Line>, body: Body, key: Option<Key>, priority: Priority)
    : (r: Result<Staged, AuditError>)
  {
    var synced := Resynced(h, file);
    var event := NextEvent(synced, body);
    if FileLen(file) + ProbeLen(event) + 1 > Ceiling(h.limits, priority)
    then Err(if priority == Ordinary then AuditFull else AuditWrite)
    else Ok(Staged(event, Hex(Sha(synced.lastHash, event), 0),
                   if key.Some? then Some(Hmac(key.value, synced.lastHash, event)) else None))
  }

  /** `mac_with`: attach the MAC of an already staged entry. */
  function WithMac(staged: Staged, key: Key): Staged {
    if Unhex(staged.event.prevHash).Some?
    then staged.(mac := Some(Hmac(key, Unhex(staged.event.prevHash).value, staged.event)))
    else staged
  }

  function LineOf(staged: Staged): Line { Entry(staged.event, staged.hash, staged.mac) }

  datatype Appended = Appended(handle: Handle, file: seq<Line>, result: Result<(), AuditError>)

  /** `append_staged`. */
  function AppendStaged(h: Handle, file: seq<Line>, staged: Staged, fault: AppendFault): Appended {
    var synced := Resynced(h, file);
    if staged.event.seqNo != synced.seqNo + 1 then Appended(synced, file, Err(Protocol))
    else if Unhex(staged.event.prevHash).None? then Appended(synced, file, Err(Corrupt))
    else if Unhex(staged.event.prevHash).value != synced.lastHash then Appended(synced, file, Err(Protocol))
    else
      var recomputed := Sha(synced.lastHash, staged.event);
      if Hex(recomputed, 0) != staged.hash then Appended(synced, file, Err(Protocol))
      else match fault
        case NothingWritten => Appended(synced, file, Err(IoError))
        case WrittenNotSynced => Appended(synced, file + [LineOf(staged)], Err(IoError))
        case NoFault =>
          Appended(synced.(seqNo := synced.seqNo + 1, lastHash := recomputed), file + [LineOf(staged)], Ok(()))
  }

  /** `append`: stage and write in one go. */
  function Append(h: Handle, file: seq<Line>, body: Body, key: Option<Key>, priority: Priority, fault: AppendFault)
    : Appended
  {
    match Stage(h, file, body, key, priority)
    case Err(e) => Appended(h, file, Err(e))
    case Ok(staged) => AppendStaged(h, file, staged, fault)
  }

  /** The file on disk, shared by every handle opened on it. */
  class LogFile {
    var lines: seq<Line>

    constructor ()
      ensures lines == []
    {
      lines := [];
    }
  }

  class AuditLog {
    const file: LogFile
    const limits: Limits
    var seqNo: nat
    var lastHash: Digest

    ghost function View(): Handle
      reads this
    {
      Handle(seqNo, lastHash, limits)
    }

    /** `load_or_init` on a file whose structure has been validated by `Walk`. */
    constructor (file: LogFile, limits: Limits, report: Report, last: Digest)
      ensures this.file == file && View() == Handle(report.entries, last, limits)
    {
      this.file, this.limits := file, limits;
      seqNo, lastHash := report.entries, last;
    }

    method Resync()
      modifies this
      ensures View() == Resynced(old(View()), file.lines)
    {
      var prev, n := Zero, 0;
      while n < |file.lines|
        invariant n <= |file.lines|
        invariant seqNo == old(seqNo) && lastHash == old(lastHash)
        invariant forall i :: 0 <= i < n ==> Numbered(file.lines, i) && Unhex(file.lines[i].hash).Some?
        invariant n > 0 ==> Some(prev) == Unhex(file.lines[n - 1].hash)
      {
        var line := file.lines[n];
        if line.Junk? || line.event.seqNo != n + 1 { assert !Numbered(file.lines, n); return; }
        if Unhex(line.hash).None? { return; }
        prev := Unhex(line.hash).value;
        n := n + 1;
      }
      if n > seqNo {
        seqNo, lastHash := n, prev;
      }
    }

    /** Staging works on a copy of the handle, so the handle itself does not move. */
    method StageEntry(body: Body, key: Option<Key>, priority: Priority) returns (r: Result<Staged, AuditError>)
      ensures r == Stage(View(), file.lines, body, key, priority)
    {
      var synced := new AuditLog(file, limits, Report(seqNo, 0, 0), lastHash);
      synced.Resync();
      var event := Event(synced.seqNo + 1, Hex(synced.lastHash, 0), body);
      var projected := FileLen(file.lines) + ProbeLen(event) + 1;
      if projected > Ceiling(limits, priority) {
        return Err(if priority == Ordinary then AuditFull else AuditWrite);
      }
      var hash := Sha(synced.lastHash, event);
      var mac := if key.Some? then Some(Hmac(key.value, synced.lastHash, event)) else None;
      return Ok(Staged(event, Hex(hash, 0), mac));
    }

    method AppendEntry(staged: Staged, fault: AppendFault) returns (r: Result<(), AuditError>)
      modifies this, file
      ensures Appended(View(), file.lines, r)
           == AppendStaged(old(View()), old(file.lines), staged, fault)
    {
      Resync();
      if staged.event.seqNo != seqNo + 1 { return Err(Protocol); }
      if Unhex(staged.event.prevHash).None? { return Err(Corrupt); }
      if Unhex(staged.event.prevHash).value != lastHash { return Err(Protocol); }
      var recomputed := Sha(lastHash, staged.event);
      if Hex(recomputed, 0) != staged.hash { return Err(Protocol); }
      if fault == NothingWritten { return Err(IoError); }
      file.lines := file.lines + [LineOf(staged)];
      if fault == WrittenNotSynced { return Err(IoError); }
      seqNo, lastHash := seqNo + 1, recomputed;
      return Ok(());
    }

    method AppendRecord(body: Body, key: Option<Key>, priority: Priority, fault: AppendFault)
      returns (r: Result<(), AuditError>)
      modifies this, file
      ensures Appended(View(), file.lines, r)
           == Append(old(View()), old(file.lines), body, key, priority, fault)
    {
      var staged := StageEntry(body, key, priority);
      if staged.Err? { return Err(staged.error); }
      r := AppendEntry(staged.value, fault);
    }
  }
}
