/** The vault file: its byte layout, caps, key slots, and the seal of the document under a fixed header.

    The header's JSON codec, Argon2id and the AEAD are parameters. What is assumed of them is stated by
    `Lossless`, `Lawful` and `OnlyOpens`. */
module Envelope {
  import opened Prelude

  datatype SlotType = Passphrase | Backup | Keychain | Sync | Other(name: string)
  datatype KdfParams = KdfParams(algo: string, mKib: nat, t: nat, p: nat)
  datatype Slot = Slot(id: string, kind: SlotType, kdf: KdfParams, salt: Bytes, nonce: Bytes, wrappedMek: Bytes)
  datatype WrappedKey = WrappedKey(nonce: Bytes, wrapped: Bytes)
  datatype Header = Header(createdAt: int, slots: seq<Slot>, dek: WrappedKey)
  datatype Sealed = Sealed(header: Header, docNonce: Bytes, docCt: Bytes)
  datatype Keys = Keys(mek: Bytes, dek: Bytes)

  datatype Fault =
    | Truncated | FileTooBig | BadMagic | BadVersion | HeaderTooBig | HeaderOutOfBounds | InvalidHeader | NoSlots
    | TooManySlots | BadSlotFields | BadDekFields | DocumentTruncated
    | VaultTooLarge | InsecureParams | WrongPassphrase | CorruptKeys | CorruptDocument

  const MAGIC: Bytes := [0x53, 0x56, 0x41, 0x55, 0x4C, 0x54]
  const VERSION: nat := 1
  const PREFIX: nat := 14
  const SALT_LEN: nat := 16
  const NONCE_LEN: nat := 24
  const KEY_LEN: nat := 32
  const TAG_LEN: nat := 16
  const MAX_SLOTS: nat := 8
  const MAX_HEADER_LEN: nat := 1024 * 1024
  const MAX_FILE_LEN: nat := 16 * 1024 * 1024
  const MIN_M_KIB: nat := 19456
  const MAX_M_KIB: nat := 262_144
  const MIN_T: nat := 2
  const MAX_T: nat := 10
  const MAX_P: nat := 8
  const U32: nat := 0x1_0000_0000

  // ----- the codecs -----------------------------------------------------------------

  datatype Codec = Codec(encode: Header -> Bytes, decode: Bytes -> Option<Header>)

  /** Slot types are written by name, so no unknown type bears a known one's name. */
  const KNOWN_KINDS: seq<string> := ["passphrase", "backup", "keychain", "sync"]

  /** RFC 3339 has four-digit years. */
  const YEAR_0: int := -62_167_219_200 * 1_000_000_000
  const YEAR_10000: int := 253_402_300_800 * 1_000_000_000

  predicate CanonicalSlot(s: Slot) {
    (s.kind.Other? ==> s.kind.name !in KNOWN_KINDS) && s.kdf.mKib < U32 && s.kdf.t < U32 && s.kdf.p < U32
  }

  /** The headers the source's types can hold. */
  predicate Canonical(h: Header) {
    YEAR_0 <= h.createdAt < YEAR_10000 && forall s :: s in h.slots ==> CanonicalSlot(s)
  }

  /** Decoding what was encoded gives it back. */
  ghost predicate Lossless(c: Codec) { forall h :: Canonical(h) ==> c.decode(c.encode(h)) == Some(h) }

  datatype Crypto = Crypto(kdf: (Bytes, KdfParams, Bytes) -> Bytes,
                           seal: (Bytes, Bytes, Bytes, Bytes) -> Bytes,
                           open: (Bytes, Bytes, Bytes, Bytes) -> Option<Bytes>)

  /** An AEAD opens what it sealed with the same key, nonce and associated data, and adds one tag. */
  ghost predicate Lawful(x: Crypto) {
    forall key, nonce, text, aad ::
      x.open(key, nonce, x.seal(key, nonce, text, aad), aad) == Some(text) && |x.seal(key, nonce, text, aad)| == |text| + TAG_LEN
  }

  /** Little endian; a length beyond 32 bits is truncated, as the source's cast does. */
  function Le32(n: nat): Bytes { [n % 256, n / 256 % 256, n / 256 / 256 % 256, n / 256 / 256 / 256 % 256] }

  function FromLe32(b: Bytes): nat
    requires |b| == 4
  {
    var b0: int, b1: int, b2: int, b3: int := b[0], b[1], b[2], b[3];
    b0 + 256 * (b1 + 256 * (b2 + 256 * b3))
  }

  lemma Le32RoundTrip(n: nat)
    ensures FromLe32(Le32(n)) == n % U32
  {
    var q1 := n / 256;
    var q2 := q1 / 256;
    var q3 := q2 / 256;
    var q4 := q3 / 256;
    assert n == 256 * q1 + n % 256 && q1 == 256 * q2 + q1 % 256 && q2 == 256 * q3 + q2 % 256 && q3 == 256 * q4 + q3 % 256;
    var v := n % 256 + 256 * (q1 % 256 + 256 * (q2 % 256 + 256 * (q3 % 256)));
    assert FromLe32(Le32(n)) == v;
    assert n == v + U32 * q4 && 0 <= v < U32;
  }

  lemma FromLe32Inverse(b: Bytes)
    requires |b| == 4
    ensures Le32(FromLe32(b)) == b
  {
    var b0: int, b1: int, b2: int, b3: int := b[0], b[1], b[2], b[3];
    var n3 := b3;
    var n2 := b2 + 256 * n3;
    var n1 := b1 + 256 * n2;
    var n0 := b0 + 256 * n1;
    assert n0 / 256 == n1 && n0 % 256 == b0;
    assert n1 / 256 == n2 && n1 % 256 == b1;
    assert n2 / 256 == n3 && n2 % 256 == b2;
    assert n3 % 256 == b3;
  }

  // ----- layout -------------------------------------------------------------------------

  function Rendered(c: Codec, e: Sealed): Bytes {
    MAGIC + Le32(VERSION) + Le32(|c.encode(e.header)|) + c.encode(e.header) + e.docNonce + e.docCt
  }

  predicate Known(kind: SlotType) { !kind.Other? }

  /** Structural checks apply only to slot types this version understands. */
  predicate SlotFieldsOk(s: Slot) {
    Known(s.kind) ==> |s.salt| == SALT_LEN && |s.nonce| == NONCE_LEN && |s.wrappedMek| == KEY_LEN + TAG_LEN
  }

  predicate DekFieldsOk(k: WrappedKey) { |k.nonce| == NONCE_LEN && |k.wrapped| == KEY_LEN + TAG_LEN }

  function HeaderFault(h: Header): Option<Fault> {
    if h.slots == [] then Some(NoSlots)
    else if |h.slots| > MAX_SLOTS then Some(TooManySlots)
    else if exists s :: s in h.slots && !SlotFieldsOk(s) then Some(BadSlotFields)
    else if !DekFieldsOk(h.dek) then Some(BadDekFields)
    else None
  }

  /** `Envelope::parse`. */
  function Parsed(c: Codec, b: Bytes): Result<Sealed, Fault> {
    if |b| < PREFIX + NONCE_LEN + TAG_LEN then Err(Truncated)
    else if |b| > MAX_FILE_LEN then Err(FileTooBig)
    else if b[..6] != MAGIC then Err(BadMagic)
    else if FromLe32(b[6..10]) != VERSION then Err(BadVersion)
    else
      var headerLen := FromLe32(b[10..14]);
      var rest := b[14..];
      if headerLen > MAX_HEADER_LEN then Err(HeaderTooBig)
      else if headerLen + NONCE_LEN + TAG_LEN > |rest| then Err(HeaderOutOfBounds)
      else
        var header := c.decode(rest[..headerLen]);
        if header.None? then Err(InvalidHeader)
        else if HeaderFault(header.value).Some? then Err(HeaderFault(header.value).value)
        else if |rest[headerLen + NONCE_LEN..]| < TAG_LEN then Err(DocumentTruncated)
        else Ok(Sealed(header.value, rest[headerLen..headerLen + NONCE_LEN], rest[headerLen + NONCE_LEN..]))
  }

  predicate WellFormed(e: Sealed) { HeaderFault(e.header).None? && |e.docNonce| == NONCE_LEN && |e.docCt| >= TAG_LEN }

  predicate Persistable(c: Codec, e: Sealed) {
    |c.encode(e.header)| <= MAX_HEADER_LEN && PREFIX + |c.encode(e.header)| + NONCE_LEN + |e.docCt| <= MAX_FILE_LEN
  }

  /** A header this version accepts: one to eight slots, whose fields have their sizes if their type is known, and a
      wrapped document key. */
  predicate Sound(h: Header) {
    && 1 <= |h.slots| <= 8 && |h.dek.nonce| == 24 && |h.dek.wrapped| == 48
    && forall s :: s in h.slots && !s.kind.Other? ==> |s.salt| == 16 && |s.nonce| == 24 && |s.wrappedMek| == 48
  }

  /** `b` is the magic, the version, the header's length, this header, and the sealed document. */
  predicate LaidOut(b: Bytes, header: Bytes, e: Sealed) {
    b == [0x53, 0x56, 0x41, 0x55, 0x4C, 0x54] + [1, 0, 0, 0] + Le32(|header|) + header + e.docNonce + e.docCt
  }

  lemma Joined(b: Bytes, n: nat)
    requires PREFIX + n + NONCE_LEN <= |b|
    ensures b == b[..6] + b[6..10] + b[10..14] + b[14..][..n] + b[14..][n..n + NONCE_LEN] + b[14..][n + NONCE_LEN..]
  {
  }

  lemma LaidOutParts(b: Bytes, header: Bytes, e: Sealed)
    requires LaidOut(b, header, e)
    ensures |b| == PREFIX + |header| + |e.docNonce| + |e.docCt|
    ensures b[..6] == MAGIC && b[6..10] == [1, 0, 0, 0] && b[10..14] == Le32(|header|) && b[14..] == header + e.docNonce + e.docCt
  {
    assert b == MAGIC + ([1, 0, 0, 0] + (Le32(|header|) + (header + e.docNonce + e.docCt)));
  }

  lemma RestParts(rest: Bytes, header: Bytes, nonce: Bytes, ct: Bytes)
    requires rest == header + nonce + ct
    ensures rest[..|header|] == header && rest[|header|..|header| + |nonce|] == nonce && rest[|header| + |nonce|..] == ct
  {
  }

  lemma LaidOutIsParsed(c: Codec, b: Bytes, header: Bytes, e: Sealed)
    requires LaidOut(b, header, e) && |header| <= MAX_HEADER_LEN && |b| <= MAX_FILE_LEN && c.decode(header) == Some(e.header)
    requires WellFormed(e)
    ensures Parsed(c, b) == Ok(e)
  {
    hide HeaderFault;
    hide Le32;
    hide FromLe32;
    hide LaidOut;
    LaidOutParts(b, header, e);
    RestParts(b[14..], header, e.docNonce, e.docCt);
    Le32RoundTrip(|header|);
    VersionBytes();
  }

  lemma VersionBytes()
    ensures FromLe32([1, 0, 0, 0]) == 1 && Le32(1) == [1, 0, 0, 0]
  {
  }

  lemma ParsedIsLaidOut(c: Codec, b: Bytes, e: Sealed) returns (header: Bytes)
    requires Parsed(c, b) == Ok(e)
    ensures |header| <= MAX_HEADER_LEN && LaidOut(b, header, e) && c.decode(header) == Some(e.header) && WellFormed(e)
    ensures |b| <= MAX_FILE_LEN
  {
    header := b[14..][..FromLe32(b[10..14])];
    hide HeaderFault;
    hide Le32;
    hide FromLe32;
    VersionBytes();
    FromLe32Inverse(b[6..10]);
    FromLe32Inverse(b[10..14]);
    Joined(b, FromLe32(b[10..14]));
  }

  lemma SoundIff(h: Header)
    ensures Sound(h) <==> HeaderFault(h).None?
  {
  }

  /** The file is laid out around a header of at most 1 MiB that decodes to the envelope's. */
  ghost predicate Carries(c: Codec, b: Bytes, e: Sealed) {
    exists header :: LaidOut(b, header, e) && |header| <= 1024 * 1024 && c.decode(header) == Some(e.header)
  }

  /** What the reader takes for a vault, and what it takes it for: exactly a file of at most 16 MiB that is laid out as the
      writer lays it out, around a header of at most 1 MiB that decodes to a sound one. */
  lemma ParsedIff(c: Codec, b: Bytes, e: Sealed)
    ensures Parsed(c, b) == Ok(e) <==>
              |b| <= 16 * 1024 * 1024 && |e.docNonce| == 24 && |e.docCt| >= 16 && Sound(e.header) && Carries(c, b, e)
  {
    hide HeaderFault;
    hide Parsed;
    hide LaidOut;
    hide Sound;
    SoundIff(e.header);
    if Parsed(c, b) == Ok(e) {
      var header := ParsedIsLaidOut(c, b, e);
    } else if Carries(c, b, e) && WellFormed(e) && |b| <= MAX_FILE_LEN {
      var header :| LaidOut(b, header, e) && |header| <= 1024 * 1024 && c.decode(header) == Some(e.header);
      LaidOutIsParsed(c, b, header, e);
    }
  }

  lemma RenderedParts(c: Codec, e: Sealed)
    ensures var b, h := Rendered(c, e), c.encode(e.header);
            && |b| == PREFIX + |h| + |e.docNonce| + |e.docCt|
            && b[..6] == MAGIC && b[6..10] == Le32(VERSION) && b[10..14] == Le32(|h|)
            && b[14..] == h + e.docNonce + e.docCt
  {
    var b, h := Rendered(c, e), c.encode(e.header);
    assert b == MAGIC + (Le32(VERSION) + (Le32(|h|) + (h + e.docNonce + e.docCt)));
  }

  /** Writer and reader agree: what the writer's check lets through is exactly what the reader gives back. */
  lemma RoundTripsExactlyWhenPersistable(c: Codec, e: Sealed)
    requires Lossless(c) && Canonical(e.header) && |e.docNonce| == NONCE_LEN
    ensures Parsed(c, Rendered(c, e)) == Ok(e) <==> WellFormed(e) && Persistable(c, e)
  {
    var b, h := Rendered(c, e), c.encode(e.header);
    RenderedParts(c, e);
    Le32RoundTrip(VERSION);
    Le32RoundTrip(|h|);
    var rest := b[14..];
    if |b| <= MAX_FILE_LEN {
      assert FromLe32(b[10..14]) == |h|;
      assert rest[..|h|] == h;
      assert rest[|h|..|h| + NONCE_LEN] == e.docNonce;
      assert rest[|h| + NONCE_LEN..] == e.docCt;
      assert c.decode(h) == Some(e.header);
    }
  }

  // ----- keys ---------------------------------------------------------------------------------

  predicate KdfOk(k: KdfParams) {
    k.algo == "argon2id" && MIN_M_KIB <= k.mKib <= MAX_M_KIB && MIN_T <= k.t <= MAX_T && 1 <= k.p <= MAX_P
  }

  function Ascii(s: string): Bytes { seq(|s|, i requires 0 <= i < |s| => s[i] as int % 256) }

  function MekAad(id: string): Bytes { Ascii("svault/v1/mek:" + id) }

  const DEK_AAD: Bytes := Ascii("svault/v1/dek")

  datatype Entry = Entry(index: nat, kdf: KdfParams, salt: Bytes)
  datatype Kek = Kek(index: nat, kek: Bytes)

  /** `KekRecipe::of` over the first `n` slots. */
  function RecipeUpTo(slots: seq<Slot>, n: nat): Result<seq<Entry>, Fault>
    requires n <= |slots|
  {
    if n == 0 then Ok([])
    else
      var before := RecipeUpTo(slots, n - 1);
      var s := slots[n - 1];
      if before.Err? || s.kind != Passphrase then before
      else if !KdfOk(s.kdf) then Err(InsecureParams)
      else if |s.salt| != SALT_LEN then Err(CorruptKeys)
      else Ok(before.value + [Entry(n - 1, s.kdf, s.salt)])
  }

  function Recipe(h: Header): Result<seq<Entry>, Fault> {
    var r := RecipeUpTo(h.slots, |h.slots|);
    if r.Ok? && r.value == [] then Err(WrongPassphrase) else r
  }

  function Derived(x: Crypto, recipe: seq<Entry>, passphrase: Bytes): seq<Kek> {
    seq(|recipe|, i requires 0 <= i < |recipe| => Kek(recipe[i].index, x.kdf(passphrase, recipe[i].kdf, recipe[i].salt)))
  }

  function UnwrapDek(x: Crypto, h: Header, mek: Bytes): Result<Keys, Fault> {
    if |h.dek.nonce| != NONCE_LEN then Err(CorruptKeys)
    else
      var dek := x.open(mek, h.dek.nonce, h.dek.wrapped, DEK_AAD);
      if dek.None? || |dek.value| != KEY_LEN then Err(CorruptKeys) else Ok(Keys(mek, dek.value))
  }

  /** `unlock_with`, from candidate `i` on: the first one that opens its slot decides. */
  function UnlockFrom(x: Crypto, h: Header, keks: seq<Kek>, i: nat): Result<Keys, Fault>
    requires i <= |keks|
    decreases |keks| - i
  {
    if i == |keks| then Err(WrongPassphrase)
    else if keks[i].index >= |h.slots| || h.slots[keks[i].index].kind != Passphrase then UnlockFrom(x, h, keks, i + 1)
    else
      var s := h.slots[keks[i].index];
      if |s.nonce| != NONCE_LEN then Err(CorruptKeys)
      else
        var mek := x.open(keks[i].kek, s.nonce, s.wrappedMek, MekAad(s.id));
        if mek.None? then UnlockFrom(x, h, keks, i + 1)
        else if |mek.value| != KEY_LEN then Err(CorruptKeys)
        else UnwrapDek(x, h, mek.value)
  }

  /** `unlock`. */
  function Unlocked(x: Crypto, h: Header, passphrase: Bytes): Result<Keys, Fault> {
    var recipe := Recipe(h);
    if recipe.Err? then Err(recipe.error) else UnlockFrom(x, h, Derived(x, recipe.value, passphrase), 0)
  }

  function OpenedDocument(x: Crypto, c: Codec, e: Sealed, keys: Keys): Result<Bytes, Fault> {
    var text := x.open(keys.dek, e.docNonce, e.docCt, c.encode(e.header));
    if text.None? then Err(CorruptDocument) else Ok(text.value)
  }

  function Resealed(x: Crypto, c: Codec, e: Sealed, document: Bytes, keys: Keys, nonce: Bytes): Sealed {
    e.(docNonce := nonce, docCt := x.seal(keys.dek, nonce, document, c.encode(e.header)))
  }

  // ----- an honest vault ------------------------------------------------------------------------

  function KekFor(x: Crypto, s: Slot, passphrase: Bytes): Bytes { x.kdf(passphrase, s.kdf, s.salt) }

  /** The slot wraps the master key under this passphrase. */
  predicate Wraps(x: Crypto, s: Slot, passphrase: Bytes, mek: Bytes) {
    s.kind == Passphrase && s.wrappedMek == x.seal(KekFor(x, s, passphrase), s.nonce, mek, MekAad(s.id))
  }

  /** Soundness of the AEAD for one passphrase: no slot opens to anything but the master key. */
  predicate OnlyOpens(x: Crypto, h: Header, passphrase: Bytes, mek: Bytes) {
    forall s :: s in h.slots && s.kind == Passphrase ==>
      x.open(KekFor(x, s, passphrase), s.nonce, s.wrappedMek, MekAad(s.id)) in {None, Some(mek)}
  }

  predicate Usable(s: Slot) { s.kind == Passphrase ==> KdfOk(s.kdf) && |s.salt| == SALT_LEN && |s.nonce| == NONCE_LEN }

  predicate Holds(x: Crypto, c: Codec, e: Sealed, keys: Keys, document: Bytes) {
    && WellFormed(e)
    && (forall s :: s in e.header.slots ==> Usable(s))
    && |keys.mek| == KEY_LEN && |keys.dek| == KEY_LEN
    && e.header.dek.wrapped == x.seal(keys.mek, e.header.dek.nonce, keys.dek, DEK_AAD)
    && e.docCt == x.seal(keys.dek, e.docNonce, document, c.encode(e.header))
  }

  /** The recipe lists the passphrase slots in order, and exists exactly when all of them are within bounds. */
  lemma {:induction false} RecipeLists(slots: seq<Slot>, n: nat)
    requires n <= |slots|
    ensures RecipeUpTo(slots, n).Ok? <==>
              forall i :: 0 <= i < n && slots[i].kind == Passphrase ==> KdfOk(slots[i].kdf) && |slots[i].salt| == SALT_LEN
    ensures RecipeUpTo(slots, n).Ok? ==>
              && (forall e :: e in RecipeUpTo(slots, n).value ==>
                    e.index < n && slots[e.index].kind == Passphrase
                    && e.kdf == slots[e.index].kdf && e.salt == slots[e.index].salt)
              && (forall i :: 0 <= i < n && slots[i].kind == Passphrase ==>
                    Entry(i, slots[i].kdf, slots[i].salt) in RecipeUpTo(slots, n).value)
  {
    if n == 0 {
    } else {
      RecipeLists(slots, n - 1);
    }
  }

  lemma {:induction false} UnlockScan(x: Crypto, h: Header, keks: seq<Kek>, i: nat, passphrase: Bytes, keys: Keys, k: nat)
    requires Lawful(x) && i <= k < |keks| && OnlyOpens(x, h, passphrase, keys.mek)
    requires |keys.mek| == KEY_LEN && |keys.dek| == KEY_LEN && |h.dek.nonce| == NONCE_LEN
    requires h.dek.wrapped == x.seal(keys.mek, h.dek.nonce, keys.dek, DEK_AAD)
    requires forall j :: 0 <= j < |keks| ==>
               && keks[j].index < |h.slots| && h.slots[keks[j].index].kind == Passphrase
               && |h.slots[keks[j].index].nonce| == NONCE_LEN
               && keks[j].kek == KekFor(x, h.slots[keks[j].index], passphrase)
    requires Wraps(x, h.slots[keks[k].index], passphrase, keys.mek)
    ensures UnlockFrom(x, h, keks, i) == Ok(keys)
    decreases |keks| - i
  {
    var s := h.slots[keks[i].index];
    assert s in h.slots;
    assert x.open(keys.mek, h.dek.nonce, h.dek.wrapped, DEK_AAD) == Some(keys.dek);
    assert keks[i].kek == KekFor(x, s, passphrase);
    var mek := x.open(keks[i].kek, s.nonce, s.wrappedMek, MekAad(s.id));
    if i == k {
      assert mek == Some(keys.mek);
    } else if mek.None? {
      UnlockScan(x, h, keks, i + 1, passphrase, keys, k);
    }
  }

  /** Every passphrase that wraps the master key in some slot unlocks the vault to the same keys, whatever other
      slots there are, and those keys open exactly the sealed document. */
  lemma HonestPassphraseUnlocks(x: Crypto, c: Codec, e: Sealed, keys: Keys, document: Bytes, slot: nat, passphrase: Bytes)
    requires Lawful(x) && Holds(x, c, e, keys, document)
    requires slot < |e.header.slots| && Wraps(x, e.header.slots[slot], passphrase, keys.mek)
    requires OnlyOpens(x, e.header, passphrase, keys.mek)
    ensures Unlocked(x, e.header, passphrase) == Ok(keys)
    ensures OpenedDocument(x, c, e, keys) == Ok(document)
  {
    var h := e.header;
    forall i | 0 <= i < |h.slots| ensures Usable(h.slots[i]) { assert h.slots[i] in h.slots; }
    RecipeLists(h.slots, |h.slots|);
    var recipe := RecipeUpTo(h.slots, |h.slots|).value;
    var entry := Entry(slot, h.slots[slot].kdf, h.slots[slot].salt);
    var k :| 0 <= k < |recipe| && recipe[k] == entry;
    var keks := Derived(x, recipe, passphrase);
    forall j | 0 <= j < |keks|
      ensures keks[j].index < |h.slots| && h.slots[keks[j].index].kind == Passphrase
              && |h.slots[keks[j].index].nonce| == NONCE_LEN && keks[j].kek == KekFor(x, h.slots[keks[j].index], passphrase)
    {
      assert recipe[j] in recipe;
    }
    UnlockScan(x, h, keks, 0, passphrase, keys, k);
  }

  /** A passphrase that opens no slot gets the one generic refusal, provided every passphrase slot is usable. */
  lemma WrongPassphraseIsGeneric(x: Crypto, h: Header, passphrase: Bytes)
    requires forall s :: s in h.slots ==> Usable(s)
    requires forall s :: s in h.slots && s.kind == Passphrase ==>
               x.open(KekFor(x, s, passphrase), s.nonce, s.wrappedMek, MekAad(s.id)) == None
    ensures Unlocked(x, h, passphrase) == Err(WrongPassphrase)
  {
    forall i | 0 <= i < |h.slots| ensures Usable(h.slots[i]) { assert h.slots[i] in h.slots; }
    RecipeLists(h.slots, |h.slots|);
    var recipe := RecipeUpTo(h.slots, |h.slots|).value;
    var keks := Derived(x, recipe, passphrase);
    forall j | 0 <= j < |keks|
      ensures keks[j].index < |h.slots| && h.slots[keks[j].index] in h.slots && h.slots[keks[j].index].kind == Passphrase
              && keks[j].kek == KekFor(x, h.slots[keks[j].index], passphrase)
    {
      assert recipe[j] in recipe;
    }
    NothingOpens(x, h, keks, 0, passphrase);
  }

  lemma {:induction false} NothingOpens(x: Crypto, h: Header, keks: seq<Kek>, i: nat, passphrase: Bytes)
    requires i <= |keks|
    requires forall s :: s in h.slots ==> Usable(s)
    requires forall s :: s in h.slots && s.kind == Passphrase ==>
               x.open(KekFor(x, s, passphrase), s.nonce, s.wrappedMek, MekAad(s.id)) == None
    requires forall j :: 0 <= j < |keks| ==>
               && keks[j].index < |h.slots| && h.slots[keks[j].index] in h.slots
               && h.slots[keks[j].index].kind == Passphrase
               && keks[j].kek == KekFor(x, h.slots[keks[j].index], passphrase)
    ensures UnlockFrom(x, h, keks, i) == Err(WrongPassphrase)
    decreases |keks| - i
  {
    if i == |keks| {
    } else {
      NothingOpens(x, h, keks, i + 1, passphrase);
    }
  }

  /** One passphrase slot outside the KDF bounds blocks every passphrase: the recipe fails closed before a single
      derivation. */
  lemma OneBadSlotBlocksAll(x: Crypto, h: Header, passphrase: Bytes)
    ensures Recipe(h).Ok? <==>
              && (forall i :: 0 <= i < |h.slots| && h.slots[i].kind == Passphrase ==>
                    var k := h.slots[i].kdf;
                    && k.algo == "argon2id" && 19_456 <= k.mKib <= 262_144 && 2 <= k.t <= 10 && 1 <= k.p <= 8
                    && |h.slots[i].salt| == 16)
              && (exists i :: 0 <= i < |h.slots| && h.slots[i].kind == Passphrase)
    ensures Recipe(h).Err? ==> Unlocked(x, h, passphrase).Err?
  {
    RecipeLists(h.slots, |h.slots|);
    var r := RecipeUpTo(h.slots, |h.slots|);
    if r.Ok? && r.value != [] {
      assert r.value[0] in r.value;
    }
    if exists i :: 0 <= i < |h.slots| && h.slots[i].kind == Passphrase {
      var i :| 0 <= i < |h.slots| && h.slots[i].kind == Passphrase;
      if r.Ok? { assert Entry(i, h.slots[i].kdf, h.slots[i].salt) in r.value; }
    }
  }

  /** The slot opens under this passphrase to this master key, which opens the wrapped document key. */
  predicate OpensWith(x: Crypto, h: Header, i: nat, passphrase: Bytes, keys: Keys) {
    && i < |h.slots| && h.slots[i].kind == Passphrase
    && x.open(KekFor(x, h.slots[i], passphrase), h.slots[i].nonce, h.slots[i].wrappedMek, MekAad(h.slots[i].id)) == Some(keys.mek)
    && x.open(keys.mek, h.dek.nonce, h.dek.wrapped, DEK_AAD) == Some(keys.dek)
    && |keys.mek| == 32 && |keys.dek| == 32
  }

  /** Nobody gets in any other way: the keys an unlock returns came out of a passphrase slot under this passphrase. */
  lemma UnlockOpenedASlot(x: Crypto, h: Header, passphrase: Bytes, keys: Keys)
    requires Unlocked(x, h, passphrase) == Ok(keys)
    ensures exists i :: OpensWith(x, h, i, passphrase, keys)
  {
    RecipeLists(h.slots, |h.slots|);
    var recipe := Recipe(h).value;
    var keks := Derived(x, recipe, passphrase);
    forall j | 0 <= j < |keks| && keks[j].index < |h.slots| ensures keks[j].kek == KekFor(x, h.slots[keks[j].index], passphrase) {
      assert recipe[j] in recipe;
    }
    ScanOpenedASlot(x, h, keks, 0, passphrase, keys);
  }

  lemma {:induction false} ScanOpenedASlot(x: Crypto, h: Header, keks: seq<Kek>, i: nat, passphrase: Bytes, keys: Keys)
    requires i <= |keks| && UnlockFrom(x, h, keks, i) == Ok(keys)
    requires forall j :: 0 <= j < |keks| && keks[j].index < |h.slots| ==> keks[j].kek == KekFor(x, h.slots[keks[j].index], passphrase)
    ensures exists k :: OpensWith(x, h, k, passphrase, keys)
    decreases |keks| - i
  {
    if keks[i].index >= |h.slots| || h.slots[keks[i].index].kind != Passphrase {
      ScanOpenedASlot(x, h, keks, i + 1, passphrase, keys);
    } else {
      var s := h.slots[keks[i].index];
      if x.open(keks[i].kek, s.nonce, s.wrappedMek, MekAad(s.id)).None? {
        ScanOpenedASlot(x, h, keks, i + 1, passphrase, keys);
      } else {
        assert OpensWith(x, h, keks[i].index, passphrase, keys);
      }
    }
  }

  // ----- any number of saves ----------------------------------------------------------------------

  datatype Save = Save(document: Bytes, nonce: Bytes)

  function Saved(x: Crypto, c: Codec, e: Sealed, keys: Keys, saves: seq<Save>): Sealed {
    if saves == [] then e
    else
      var last := saves[|saves| - 1];
      Resealed(x, c, Saved(x, c, e, keys, saves[..|saves| - 1]), last.document, keys, last.nonce)
  }

  function Latest(document: Bytes, saves: seq<Save>): Bytes {
    if saves == [] then document else saves[|saves| - 1].document
  }

  /** After any number of reseals, when the result is small enough to be written, reading the file back gives that
      envelope, every honest passphrase unlocks it, and it opens exactly the last sealed document. */
  lemma {:induction false} SavedVaultsReopen(x: Crypto, c: Codec, e: Sealed, keys: Keys, document: Bytes, saves: seq<Save>,
                                             slot: nat, passphrase: Bytes)
    requires Lawful(x) && Lossless(c) && Canonical(e.header) && Holds(x, c, e, keys, document)
    requires forall i :: 0 <= i < |saves| ==> |saves[i].nonce| == NONCE_LEN
    requires slot < |e.header.slots| && Wraps(x, e.header.slots[slot], passphrase, keys.mek)
    requires OnlyOpens(x, e.header, passphrase, keys.mek)
    ensures var e' := Saved(x, c, e, keys, saves);
            && Holds(x, c, e', keys, Latest(document, saves))
            && Unlocked(x, e'.header, passphrase) == Ok(keys)
            && OpenedDocument(x, c, e', keys) == Ok(Latest(document, saves))
            && (Parsed(c, Rendered(c, e')) == Ok(e') <==> Persistable(c, e'))
  {
    var e' := Saved(x, c, e, keys, saves);
    if saves == [] {
    } else {
      SavedVaultsReopen(x, c, e, keys, document, saves[..|saves| - 1], slot, passphrase);
    }
    SavedHeader(x, c, e, keys, saves);
    HonestPassphraseUnlocks(x, c, e', keys, Latest(document, saves), slot, passphrase);
    RoundTripsExactlyWhenPersistable(c, e');
  }

  lemma {:induction false} SavedHeader(x: Crypto, c: Codec, e: Sealed, keys: Keys, saves: seq<Save>)
    ensures Saved(x, c, e, keys, saves).header == e.header
  {
    if saves == [] {
    } else {
      SavedHeader(x, c, e, keys, saves[..|saves| - 1]);
    }
  }

  // ----- create -----------------------------------------------------------------------------------------

  /** The random values one `create` draws. */
  datatype Draw = Draw(mek: Bytes, dek: Bytes, salt: Bytes, nonce: Bytes, id: string, dekNonce: Bytes, docNonce: Bytes)

  predicate DrawOk(r: Draw) {
    |r.mek| == KEY_LEN && |r.dek| == KEY_LEN && |r.salt| == SALT_LEN && |r.nonce| == NONCE_LEN
    && |r.dekNonce| == NONCE_LEN && |r.docNonce| == NONCE_LEN
  }

  const KDF_DEFAULTS := KdfParams("argon2id", 65536, 3, 4)

  function Created(x: Crypto, c: Codec, passphrase: Bytes, document: Bytes, createdAt: int, r: Draw): Sealed {
    var kek := x.kdf(passphrase, KDF_DEFAULTS, r.salt);
    var slot := Slot(r.id, Passphrase, KDF_DEFAULTS, r.salt, r.nonce, x.seal(kek, r.nonce, r.mek, MekAad(r.id)));
    var header := Header(createdAt, [slot], WrappedKey(r.dekNonce, x.seal(r.mek, r.dekNonce, r.dek, DEK_AAD)));
    Sealed(header, r.docNonce, x.seal(r.dek, r.docNonce, document, c.encode(header)))
  }

  /** A created envelope is honest for its own passphrase. */
  lemma CreateIsHonest(x: Crypto, c: Codec, passphrase: Bytes, document: Bytes, createdAt: int, r: Draw)
    requires Lawful(x) && DrawOk(r)
    ensures var e := Created(x, c, passphrase, document, createdAt, r);
            && Holds(x, c, e, Keys(r.mek, r.dek), document)
            && Wraps(x, e.header.slots[0], passphrase, r.mek)
            && OnlyOpens(x, e.header, passphrase, r.mek)
            && (YEAR_0 <= createdAt < YEAR_10000 ==> Canonical(e.header))
  {
  }

  // ----- the object ------------------------------------------------------------------------------------------

  class EnvelopeObject {
    const codec: Codec
    const crypto: Crypto
    const header: Header
    var docNonce: Bytes
    var docCt: Bytes

    ghost function View(): Sealed
      reads this
    {
      Sealed(header, docNonce, docCt)
    }

    constructor (codec: Codec, crypto: Crypto, header: Header, docNonce: Bytes, docCt: Bytes)
      ensures this.codec == codec && this.crypto == crypto && View() == Sealed(header, docNonce, docCt)
    {
      this.codec, this.crypto, this.header, this.docNonce, this.docCt := codec, crypto, header, docNonce, docCt;
    }

    static method Parse(codec: Codec, crypto: Crypto, b: Bytes) returns (r: Result<EnvelopeObject, Fault>)
      ensures r.Ok? <==> Parsed(codec, b).Ok?
      ensures r.Ok? ==> fresh(r.value) && r.value.codec == codec && r.value.crypto == crypto
                        && r.value.View() == Parsed(codec, b).value
      ensures r.Err? ==> r.error == Parsed(codec, b).error
    {
      if |b| < PREFIX + NONCE_LEN + TAG_LEN { return Err(Truncated); }
      if |b| > MAX_FILE_LEN { return Err(FileTooBig); }
      if b[..6] != MAGIC { return Err(BadMagic); }
      if FromLe32(b[6..10]) != VERSION { return Err(BadVersion); }
      var headerLen := FromLe32(b[10..14]);
      if headerLen > MAX_HEADER_LEN { return Err(HeaderTooBig); }
      var rest := b[14..];
      if headerLen + NONCE_LEN + TAG_LEN > |rest| { return Err(HeaderOutOfBounds); }
      var decoded := codec.decode(rest[..headerLen]);
      if decoded.None? { return Err(InvalidHeader); }
      var header := decoded.value;
      if header.slots == [] { return Err(NoSlots); }
      if |header.slots| > MAX_SLOTS { return Err(TooManySlots); }
      for i := 0 to |header.slots|
        invariant forall s :: s in header.slots[..i] ==> SlotFieldsOk(s)
      {
        if !SlotFieldsOk(header.slots[i]) {
          assert header.slots[i] in header.slots;
          return Err(BadSlotFields);
        }
      }
      assert header.slots[..|header.slots|] == header.slots;
      if !DekFieldsOk(header.dek) { return Err(BadDekFields); }
      var docNonce, docCt := rest[headerLen..headerLen + NONCE_LEN], rest[headerLen + NONCE_LEN..];
      if |docCt| < TAG_LEN { return Err(DocumentTruncated); }
      var parsed := new EnvelopeObject(codec, crypto, header, docNonce, docCt);
      return Ok(parsed);
    }

    method ToBytes() returns (b: Bytes)
      ensures b == Rendered(codec, View())
    {
      var headerBytes := codec.encode(header);
      b := MAGIC;
      b := b + Le32(VERSION);
      b := b + Le32(|headerBytes|);
      b := b + headerBytes;
      b := b + docNonce;
      b := b + docCt;
    }

    /** `validate_persistable`: everything it lets through can be read back, given the fixed-size nonce and tag. */
    method ValidatePersistable() returns (r: Result<(), Fault>)
      ensures r.Ok? <==> Persistable(codec, View())
      ensures r.Err? ==> r.error == VaultTooLarge
    {
      var headerLen := |codec.encode(header)|;
      if headerLen > MAX_HEADER_LEN { return Err(VaultTooLarge); }
      if 6 + 4 + 4 + headerLen + NONCE_LEN + |docCt| > MAX_FILE_LEN { return Err(VaultTooLarge); }
      return Ok(());
    }

    /** `reseal_document`: only the nonce and the ciphertext change. */
    method ResealDocument(document: Bytes, keys: Keys, nonce: Bytes)
      modifies this
      ensures View() == Resealed(crypto, codec, old(View()), document, keys, nonce)
    {
      docNonce := nonce;
      docCt := crypto.seal(keys.dek, nonce, document, codec.encode(header));
    }

    method OpenDocument(keys: Keys) returns (r: Result<Bytes, Fault>)
      ensures r == OpenedDocument(crypto, codec, View(), keys)
    {
      var text := crypto.open(keys.dek, docNonce, docCt, codec.encode(header));
      return if text.None? then Err(CorruptDocument) else Ok(text.value);
    }

    /** `KekRecipe::of`. */
    method KekRecipe() returns (r: Result<seq<Entry>, Fault>)
      ensures r == Recipe(header)
    {
      var entries: seq<Entry> := [];
      for i := 0 to |header.slots|
        invariant RecipeUpTo(header.slots, i) == Ok(entries)
      {
        var slot := header.slots[i];
        if slot.kind == Passphrase {
          if !KdfOk(slot.kdf) { RecipeFails(i + 1); return Err(InsecureParams); }
          if |slot.salt| != SALT_LEN { RecipeFails(i + 1); return Err(CorruptKeys); }
          entries := entries + [Entry(i, slot.kdf, slot.salt)];
        }
      }
      if entries == [] { return Err(WrongPassphrase); }
      return Ok(entries);
    }

    lemma RecipeFails(n: nat)
      requires n <= |header.slots| && RecipeUpTo(header.slots, n).Err?
      ensures RecipeUpTo(header.slots, |header.slots|) == RecipeUpTo(header.slots, n)
      decreases |header.slots| - n
    {
      if n < |header.slots| { RecipeFails(n + 1); }
    }

    /** `KekRecipe::derive`. */
    method Derive(recipe: seq<Entry>, passphrase: Bytes) returns (keks: seq<Kek>)
      ensures keks == Derived(crypto, recipe, passphrase)
    {
      keks := [];
      for i := 0 to |recipe|
        invariant |keks| == i
        invariant forall j :: 0 <= j < i ==> keks[j] == Kek(recipe[j].index, crypto.kdf(passphrase, recipe[j].kdf, recipe[j].salt))
      {
        keks := keks + [Kek(recipe[i].index, crypto.kdf(passphrase, recipe[i].kdf, recipe[i].salt))];
      }
    }

    /** `unlock_with`: only the unwraps happen here. */
    method UnlockWith(keks: seq<Kek>) returns (r: Result<Keys, Fault>)
      ensures r == UnlockFrom(crypto, header, keks, 0)
    {
      for i := 0 to |keks|
        invariant UnlockFrom(crypto, header, keks, 0) == UnlockFrom(crypto, header, keks, i)
      {
        if keks[i].index < |header.slots| && header.slots[keks[i].index].kind == Passphrase {
          var slot := header.slots[keks[i].index];
          if |slot.nonce| != NONCE_LEN { return Err(CorruptKeys); }
          var mek := crypto.open(keks[i].kek, slot.nonce, slot.wrappedMek, MekAad(slot.id));
          if mek.Some? {
            if |mek.value| != KEY_LEN { return Err(CorruptKeys); }
            return UnwrapDek(crypto, header, mek.value);
          }
        }
      }
      return Err(WrongPassphrase);
    }

    method Unlock(passphrase: Bytes) returns (r: Result<Keys, Fault>)
      ensures r == Unlocked(crypto, header, passphrase)
    {
      var recipe := KekRecipe();
      if recipe.Err? { return Err(recipe.error); }
      var keks := Derive(recipe.value, passphrase);
      r := UnlockWith(keks);
    }
  }
}
