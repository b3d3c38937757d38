/**
 * The API-key vault (src/api_key_vault.rs:385-698): three file layouts behind one
 * map from slots to keys. Key derivation, AES-GCM and JSON decoding are uninterpreted.
 */
module Vault {
  import opened Options

  datatype Blob = Blob(iv: string, ct: string, tag: string)

  /** The cryptography as functions; a malformed salt makes encryption fail. */
  datatype Crypto = Crypto(
    validSalt: string -> bool,
    encrypt: (string, string, string, string) -> Option<Blob>,   // secret, plain, salt, iv
    decrypt: (string, Blob, string) -> Option<string>,           // secret, blob, salt
    decryptRust: (string, string, string) -> Option<string>,     // secret, blob, salt
    decryptTs: (string, string, string) -> Option<string>)       // secret, blob, salt

  ghost predicate Lawful(c: Crypto) {
    forall secret, plain, salt, iv ::
      var b := c.encrypt(secret, plain, salt, iv);
      && (b.Some? <==> c.validSalt(salt))
      && (b.Some? ==> c.decrypt(secret, b.value, salt) == Some(plain))
  }

  // ---- file layouts ----------------------------------------------------

  datatype Params = Params(n: nat, r: nat, p: nat)
  const DEFAULT_PARAMS := Params(16384, 8, 1)

  datatype V2File = V2File(kdf: string, params: Params, salt: string, slots: map<string, Blob>)
  datatype RustFile = RustFile(salts: map<string, string>, data: map<string, string>)
  datatype TsFile = TsFile(salt: string, data: map<string, string>)
  datatype AnyFile = V2(v2: V2File) | V1Rust(rust: RustFile) | V1Ts(ts: TsFile)

  /** What serde sees in a JSON text: the version number, two shape tests, and each structural decoding. */
  datatype Json = Json(
    version: Option<nat>, saltsIsObject: bool, saltIsString: bool,
    asV2: Option<V2File>, asRust: Option<RustFile>, asTs: Option<TsFile>)

  /** The vault path: no file, text that is not JSON, or JSON. */
  datatype Disk = Missing | NotJson | Text(json: Json)

  predicate Current(v: V2File) { v.kdf == "scrypt" && v.params == DEFAULT_PARAMS }

  function Parse(j: Json): Option<AnyFile> {
    var version := (if j.version.Some? then j.version.value else 0) % 0x1_0000_0000;
    if version == 2 then
      if j.asV2.Some? && Current(j.asV2.value) then Some(V2(j.asV2.value)) else None
    else if version == 1 && j.saltsIsObject then
      if j.asRust.Some? then Some(V1Rust(j.asRust.value)) else None
    else if version == 1 && j.saltIsString && j.asTs.Some? then Some(V1Ts(j.asTs.value))
    else None
  }

  function Empty(salt: string): V2File { V2File("scrypt", DEFAULT_PARAMS, salt, map[]) }

  function Load(d: Disk, freshSalt: string): AnyFile {
    match d
    case Text(j) => if Parse(j).Some? then Parse(j).value else V2(Empty(freshSalt))
    case _ => V2(Empty(freshSalt))
  }

  /** The JSON that `save` writes for a v2 file. */
  function Rendered(v: V2File): Disk { Text(Json(Some(2), false, true, Some(v), None, None)) }

  /** What is saved is what the next load parses. */
  lemma SavedFileLoads(v: V2File, freshSalt: string)
    requires Current(v)
    ensures Load(Rendered(v), freshSalt) == V2(v)
  {
  }

  // ---- reading and migrating -------------------------------------------

  function ReadSlot(c: Crypto, f: AnyFile, secret: string, slot: string): Option<string> {
    match f
    case V2(v) =>
      if slot in v.slots then c.decrypt(secret, v.slots[slot], v.salt) else None
    case V1Rust(v) =>
      if slot in v.data && slot in v.salts then c.decryptRust(secret, v.data[slot], v.salts[slot]) else None
    case V1Ts(v) =>
      if slot in v.data then c.decryptTs(secret, v.data[slot], v.salt) else None
  }

  function LegacySlots(f: AnyFile): set<string> {
    match f
    case V2(_) => {}
    case V1Rust(v) => v.data.Keys
    case V1Ts(v) => v.data.Keys
  }

  /** Re-encryption of the readable ones among `slots`. */
  function Reencrypted(
    c: Crypto, f: AnyFile, secret: string, slots: set<string>, salt: string, ivs: string -> string): map<string, Blob>
  {
    map s | s in slots && ReadSlot(c, f, secret, s).Some?
              && c.encrypt(secret, ReadSlot(c, f, secret, s).value, salt, ivs(s)).Some? ::
      c.encrypt(secret, ReadSlot(c, f, secret, s).value, salt, ivs(s)).value
  }

  lemma ReencryptedPlus(
    c: Crypto, f: AnyFile, secret: string, slots: set<string>, slot: string, salt: string, ivs: string -> string)
    ensures var plain := ReadSlot(c, f, secret, slot);
            var before := Reencrypted(c, f, secret, slots, salt, ivs);
            Reencrypted(c, f, secret, slots + {slot}, salt, ivs)
            == if plain.Some? && c.encrypt(secret, plain.value, salt, ivs(slot)).Some?
               then before[slot := c.encrypt(secret, plain.value, salt, ivs(slot)).value]
               else before
  {
  }

  function Migrated(c: Crypto, f: AnyFile, secret: string, salt: string, ivs: string -> string): V2File {
    match f
    case V2(v) => v
    case _ => Empty(salt).(slots := Reencrypted(c, f, secret, LegacySlots(f), salt, ivs))
  }

  /** Migration changes what no slot reads. */
  lemma MigrationKeepsReads(
    c: Crypto, f: AnyFile, secret: string, salt: string, ivs: string -> string, slot: string)
    requires Lawful(c) && c.validSalt(salt)
    ensures ReadSlot(c, V2(Migrated(c, f, secret, salt, ivs)), secret, slot) == ReadSlot(c, f, secret, slot)
  {
    var plain := ReadSlot(c, f, secret, slot);
    if !f.V2? && plain.Some? {
      assert c.encrypt(secret, plain.value, salt, ivs(slot)).Some?;
    }
  }

  // ---- trimming --------------------------------------------------------

  /** The White_Space property of Unicode. */
  predicate IsSpace(ch: char) {
    || '\t' <= ch <= '\r' || ch == ' ' || ch == '\U{0085}' || ch == '\U{00A0}' || ch == '\U{1680}'
    || '\U{2000}' <= ch <= '\U{200A}' || ch == '\U{2028}' || ch == '\U{2029}' || ch == '\U{202F}'
    || ch == '\U{205F}' || ch == '\U{3000}'
  }

  /** The 25 code points of the White_Space property. */
  const WHITE_SPACE: seq<char> := [
    '\U{0009}', '\U{000A}', '\U{000B}', '\U{000C}', '\U{000D}', '\U{0020}', '\U{0085}', '\U{00A0}', '\U{1680}',
    '\U{2000}', '\U{2001}', '\U{2002}', '\U{2003}', '\U{2004}', '\U{2005}', '\U{2006}', '\U{2007}', '\U{2008}',
    '\U{2009}', '\U{200A}', '\U{2028}', '\U{2029}', '\U{202F}', '\U{205F}', '\U{3000}']

  lemma SpacesAreListed(ch: char)
    ensures IsSpace(ch) <==> ch in WHITE_SPACE
  {
  }

  function TrimStart(s: string): string {
    if s != [] && IsSpace(s[0]) then TrimStart(s[1..]) else s
  }

  function TrimEnd(s: string): string {
    if s != [] && IsSpace(s[|s| - 1]) then TrimEnd(s[..|s| - 1]) else s
  }

  function Trim(s: string): string { TrimEnd(TrimStart(s)) }

  lemma {:induction false} TrimStartDrops(s: string)
    ensures |TrimStart(s)| <= |s| && TrimStart(s) == s[|s| - |TrimStart(s)|..]
    ensures forall i | 0 <= i < |s| - |TrimStart(s)| :: IsSpace(s[i])
    ensures TrimStart(s) != [] ==> !IsSpace(TrimStart(s)[0])
  {
    if s != [] && IsSpace(s[0]) {
      var t := s[1..];
      var r := TrimStart(t);
      assert TrimStart(s) == r;
      TrimStartDrops(t);
      assert r == s[|s| - |r|..];
      forall i | 0 <= i < |s| - |r| ensures IsSpace(s[i]) {
        assert i > 0 ==> s[i] == t[i - 1];
      }
    }
  }

  lemma {:induction false} TrimEndDrops(s: string)
    ensures |TrimEnd(s)| <= |s| && TrimEnd(s) == s[..|TrimEnd(s)|]
    ensures forall i | |TrimEnd(s)| <= i < |s| :: IsSpace(s[i])
    ensures TrimEnd(s) != [] ==> !IsSpace(TrimEnd(s)[|TrimEnd(s)| - 1])
  {
    if s != [] && IsSpace(s[|s| - 1]) {
      TrimEndDrops(s[..|s| - 1]);
    }
  }

  /** Trimming is the slice between two runs of spaces that neither starts nor ends with one. */
  lemma TrimStrips(s: string)
    ensures exists a, b | 0 <= a <= b <= |s| ::
      && Trim(s) == s[a..b]
      && (forall i | 0 <= i < a || b <= i < |s| :: IsSpace(s[i]))
      && (a < b ==> !IsSpace(s[a]) && !IsSpace(s[b - 1]))
  {
    TrimStartDrops(s);
    var t := TrimStart(s);
    TrimEndDrops(t);
    var a, b := |s| - |t|, |s| - |t| + |Trim(s)|;
    assert Trim(s) == s[a..b];
    forall i | b <= i < |s| ensures IsSpace(s[i]) {
      assert s[i] == t[i - a];
    }
  }

  // ---- setting a key ---------------------------------------------------

  /** One call: the value, fresh randomness, and whether the file write succeeds. */
  datatype Write = Write(slot: string, value: string, salt: string, iv: string, ivs: string -> string, ioOk: bool)

  /** The vault with `slot` set to an already trimmed value, or without it when blank. */
  function WithKey(c: Crypto, v: V2File, secret: string, slot: string, value: string, iv: string): Option<V2File> {
    if value == "" then Some(v.(slots := v.slots - {slot}))
    else
      var b := c.encrypt(secret, value, v.salt, iv);
      if b.Some? then Some(v.(slots := v.slots[slot := b.value])) else None
  }

  function Updated(c: Crypto, d: Disk, secret: string, w: Write): Option<V2File> {
    WithKey(c, Migrated(c, Load(d, w.salt), secret, w.salt, w.ivs), secret, w.slot, Trim(w.value), w.iv)
  }

  /** Whether `set_api_key` returns Ok. */
  predicate Succeeds(c: Crypto, catalog: set<string>, d: Disk, secret: string, w: Write) {
    w.slot in catalog && w.ioOk && Updated(c, d, secret, w).Some?
  }

  function AfterWrite(c: Crypto, catalog: set<string>, d: Disk, secret: string, w: Write): Disk {
    if Succeeds(c, catalog, d, secret, w) then Rendered(Updated(c, d, secret, w).value) else d
  }

  class ApiKeyVault {
    var disk: Disk
    const crypto: Crypto
    const catalog: set<string>

    constructor (disk: Disk, crypto: Crypto, catalog: set<string>)
      ensures this.disk == disk && this.crypto == crypto && this.catalog == catalog
    {
      this.disk, this.crypto, this.catalog := disk, crypto, catalog;
    }

    method LoadOrMigrate(secret: string, salt: string, ivs: string -> string) returns (v: V2File)
      ensures v == Migrated(crypto, Load(disk, salt), secret, salt, ivs)
    {
      var f := Load(disk, salt);
      if f.V2? {
        return f.v2;
      }
      v := Empty(salt);
      var todo := LegacySlots(f);
      while todo != {}
        invariant todo <= LegacySlots(f)
        invariant v == Empty(salt).(slots := Reencrypted(crypto, f, secret, LegacySlots(f) - todo, salt, ivs))
        decreases |todo|
      {
        var slot :| slot in todo;
        ghost var done := LegacySlots(f) - todo;
        todo := todo - {slot};
        ReencryptedPlus(crypto, f, secret, done, slot, salt, ivs);
        var plain := ReadSlot(crypto, f, secret, slot);
        if plain.Some? {
          var b := crypto.encrypt(secret, plain.value, salt, ivs(slot));
          if b.Some? {
            v := v.(slots := v.slots[slot := b.value]);
          }
        }
        assert LegacySlots(f) - todo == done + {slot};
      }
      assert LegacySlots(f) - todo == LegacySlots(f);
    }

    method SetApiKey(secret: string, w: Write) returns (ok: bool)
      modifies this
      ensures ok == Succeeds(crypto, catalog, old(disk), secret, w)
      ensures disk == AfterWrite(crypto, catalog, old(disk), secret, w)
    {
      if w.slot !in catalog {
        return false;
      }
      var v := LoadOrMigrate(secret, w.salt, w.ivs);
      var value := Trim(w.value);
      if value == "" {
        v := v.(slots := v.slots - {w.slot});
      } else {
        var b := crypto.encrypt(secret, value, v.salt, w.iv);
        if b.None? {
          return false;
        }
        v := v.(slots := v.slots[w.slot := b.value]);
      }
      if !w.ioOk {
        return false;
      }
      disk := Rendered(v);
      return true;
    }

    /** The vault's value wins; otherwise the trimmed environment value, if not blank. */
    method GetApiKey(secret: string, slot: string, env: Option<string>) returns (r: Option<string>)
      ensures var stored := Read(crypto, disk, secret, slot);
              r == if stored.Some? then stored
                   else if slot in catalog && env.Some? && Trim(env.value) != "" then Some(Trim(env.value))
                   else None
    {
      var f := Load(disk, "");
      r := ReadSlot(crypto, f, secret, slot);
      if r.None? && slot in catalog && env.Some? && Trim(env.value) != "" {
        r := Some(Trim(env.value));
      }
    }
  }

  // ---- what each layout reads ------------------------------------------

  /** The version number, of which the cast keeps the low 32 bits. */
  predicate HasVersion(j: Json, n: nat) { j.version.Some? && j.version.value % 0x1_0000_0000 == n }

  /** A v1 file of the Rust bot: each stored slot decrypts under its own salt, and nothing else is there. */
  lemma RustFileReads(c: Crypto, j: Json, secret: string, slot: string)
    requires HasVersion(j, 1) && j.saltsIsObject && j.asRust.Some?
    ensures Read(c, Text(j), secret, slot)
         == if slot in j.asRust.value.data && slot in j.asRust.value.salts
            then c.decryptRust(secret, j.asRust.value.data[slot], j.asRust.value.salts[slot]) else None
  {
  }

  /** A v1 file of the TypeScript bot: each stored slot decrypts under the file's salt. */
  lemma TsFileReads(c: Crypto, j: Json, secret: string, slot: string)
    requires HasVersion(j, 1) && !j.saltsIsObject && j.saltIsString && j.asTs.Some?
    ensures Read(c, Text(j), secret, slot)
         == if slot in j.asTs.value.data
            then c.decryptTs(secret, j.asTs.value.data[slot], j.asTs.value.salt) else None
  {
  }

  /** A v2 file with the one supported key derivation. */
  lemma V2FileReads(c: Crypto, j: Json, secret: string, slot: string)
    requires HasVersion(j, 2) && j.asV2.Some?
    requires j.asV2.value.kdf == "scrypt" && j.asV2.value.params == Params(16384, 8, 1)
    ensures Read(c, Text(j), secret, slot)
         == if slot in j.asV2.value.slots
            then c.decrypt(secret, j.asV2.value.slots[slot], j.asV2.value.salt) else None
  {
  }

  /** A text in none of the three layouts. */
  predicate Unsupported(j: Json) {
    && !(HasVersion(j, 2) && j.asV2.Some? && j.asV2.value.kdf == "scrypt"
         && j.asV2.value.params == Params(16384, 8, 1))
    && !(HasVersion(j, 1) && j.saltsIsObject && j.asRust.Some?)
    && !(HasVersion(j, 1) && !j.saltsIsObject && j.saltIsString && j.asTs.Some?)
  }

  /** No file, no JSON, and a text in none of the layouts read nothing. */
  lemma UnsupportedReadsNothing(c: Crypto, d: Disk, secret: string, slot: string)
    requires d.Text? ==> Unsupported(d.json)
    ensures Read(c, d, secret, slot) == None
  {
  }

  // ---- refinement of a map ---------------------------------------------

  /** What the vault holds for a slot. */
  function Read(c: Crypto, d: Disk, secret: string, slot: string): Option<string> {
    ReadSlot(c, Load(d, ""), secret, slot)
  }

  function Stored(w: Write): Option<string> { if Trim(w.value) == "" then None else Some(Trim(w.value)) }

  lemma FreshSaltUnread(c: Crypto, d: Disk, secret: string, slot: string, salt: string)
    ensures ReadSlot(c, Load(d, salt), secret, slot) == Read(c, d, secret, slot)
  {
  }

  lemma WithKeyReads(c: Crypto, v: V2File, secret: string, slot: string, value: string, iv: string, other: string)
    requires Lawful(c) && WithKey(c, v, secret, slot, value, iv).Some?
    ensures ReadSlot(c, V2(WithKey(c, v, secret, slot, value, iv).value), secret, other)
         == if other != slot then ReadSlot(c, V2(v), secret, other)
            else if value == "" then None else Some(value)
  {
  }

  lemma MigratedIsCurrent(c: Crypto, d: Disk, secret: string, salt: string, ivs: string -> string)
    ensures Current(Migrated(c, Load(d, salt), secret, salt, ivs))
  {
  }

  /** A successful write is one map update, whatever the layout was before; a failed one changes nothing. */
  lemma WriteIsMapUpdate(
    c: Crypto, catalog: set<string>, d: Disk, secret: string, w: Write, slot: string)
    requires Lawful(c) && c.validSalt(w.salt)
    ensures Read(c, AfterWrite(c, catalog, d, secret, w), secret, slot)
         == if Succeeds(c, catalog, d, secret, w) && slot == w.slot then Stored(w) else Read(c, d, secret, slot)
  {
    if Succeeds(c, catalog, d, secret, w) {
      var f := Load(d, w.salt);
      var v := Migrated(c, f, secret, w.salt, w.ivs);
      MigrationKeepsReads(c, f, secret, w.salt, w.ivs, slot);
      FreshSaltUnread(c, d, secret, slot, w.salt);
      WithKeyReads(c, v, secret, w.slot, Trim(w.value), w.iv, slot);
      MigratedIsCurrent(c, d, secret, w.salt, w.ivs);
      SavedFileLoads(Updated(c, d, secret, w).value, "");
    }
  }

  /** The file whose salt the write uses: the loaded v2 file's own, otherwise the fresh one. */
  function SaltInUse(d: Disk, w: Write): string {
    var f := Load(d, w.salt);
    if f.V2? then f.v2.salt else w.salt
  }

  /** A write to a known slot that reaches the disk fails only for a key under a malformed salt. */
  lemma WriteSucceedsIff(c: Crypto, catalog: set<string>, d: Disk, secret: string, w: Write)
    requires Lawful(c)
    ensures Succeeds(c, catalog, d, secret, w)
            <==> w.slot in catalog && w.ioOk && (Trim(w.value) == "" || c.validSalt(SaltInUse(d, w)))
  {
  }

  /** `ds[i]` is the vault path before call `i`, the last one the path after all of `ws`. */
  ghost predicate IsHistory(c: Crypto, catalog: set<string>, secret: string, ds: seq<Disk>, ws: seq<Write>) {
    && |ds| == |ws| + 1
    && forall i {:trigger ws[i]} | 0 <= i < |ws| ::
         c.validSalt(ws[i].salt) && ds[i + 1] == AfterWrite(c, catalog, ds[i], secret, ws[i])
  }

  /** The call `w` on `d` returned Ok and was to `slot`. */
  predicate Stores(c: Crypto, catalog: set<string>, secret: string, d: Disk, w: Write, slot: string) {
    w.slot == slot && Succeeds(c, catalog, d, secret, w)
  }

  lemma StoreReads(c: Crypto, catalog: set<string>, secret: string, d: Disk, w: Write, slot: string)
    requires Lawful(c) && c.validSalt(w.salt) && Stores(c, catalog, secret, d, w, slot)
    ensures Read(c, AfterWrite(c, catalog, d, secret, w), secret, slot) == Stored(w)
  {
    WriteIsMapUpdate(c, catalog, d, secret, w, slot);
  }

  /** No call from the `start`-th up to the `n`-th stored anything in `slot`. */
  ghost predicate Quiet(
    c: Crypto, catalog: set<string>, secret: string, ds: seq<Disk>, ws: seq<Write>, start: nat, n: nat, slot: string)
    requires n <= |ws| < |ds|
  {
    forall k: nat {:trigger ws[k]} | start <= k < n :: !Stores(c, catalog, secret, ds[k], ws[k], slot)
  }

  /** From any starting layout, a slot with no successful write still reads what it read then. */
  lemma {:induction false} UntouchedSlotKept(
    c: Crypto, catalog: set<string>, secret: string, ds: seq<Disk>, ws: seq<Write>, start: nat, n: nat, slot: string)
    requires Lawful(c) && start <= n <= |ws| && IsHistory(c, catalog, secret, ds, ws)
    requires Quiet(c, catalog, secret, ds, ws, start, n, slot)
    ensures Read(c, ds[n], secret, slot) == Read(c, ds[start], secret, slot)
  {
    if start < n {
      UntouchedSlotKept(c, catalog, secret, ds, ws, start, n - 1, slot);
      assert !Stores(c, catalog, secret, ds[n - 1], ws[n - 1], slot);
      WriteIsMapUpdate(c, catalog, ds[n - 1], secret, ws[n - 1], slot);
    }
  }

  /** A slot of a v1 Rust file that is never written keeps the key it decrypted to, through migration and every later write. */
  lemma RustSlotKept(
    c: Crypto, catalog: set<string>, secret: string, ds: seq<Disk>, ws: seq<Write>, j: Json, n: nat, slot: string)
    requires Lawful(c) && n <= |ws| && IsHistory(c, catalog, secret, ds, ws)
    requires ds[0] == Text(j) && HasVersion(j, 1) && j.saltsIsObject && j.asRust.Some?
    requires Quiet(c, catalog, secret, ds, ws, 0, n, slot)
    requires slot in j.asRust.value.data && slot in j.asRust.value.salts
    ensures Read(c, ds[n], secret, slot)
         == c.decryptRust(secret, j.asRust.value.data[slot], j.asRust.value.salts[slot])
  {
    UntouchedSlotKept(c, catalog, secret, ds, ws, 0, n, slot);
    RustFileReads(c, j, secret, slot);
  }

  /** The same for a v1 TypeScript file. */
  lemma TsSlotKept(
    c: Crypto, catalog: set<string>, secret: string, ds: seq<Disk>, ws: seq<Write>, j: Json, n: nat, slot: string)
    requires Lawful(c) && n <= |ws| && IsHistory(c, catalog, secret, ds, ws)
    requires ds[0] == Text(j) && HasVersion(j, 1) && !j.saltsIsObject && j.saltIsString && j.asTs.Some?
    requires Quiet(c, catalog, secret, ds, ws, 0, n, slot) && slot in j.asTs.value.data
    ensures Read(c, ds[n], secret, slot) == c.decryptTs(secret, j.asTs.value.data[slot], j.asTs.value.salt)
  {
    UntouchedSlotKept(c, catalog, secret, ds, ws, 0, n, slot);
    TsFileReads(c, j, secret, slot);
  }

  /** A slot reads the trimmed value of its last successful write, or nothing if that write was blank. */
  lemma LastWriteWins(
    c: Crypto, catalog: set<string>, secret: string, ds: seq<Disk>, ws: seq<Write>, k: nat, n: nat, slot: string)
    requires Lawful(c) && k < n <= |ws| && IsHistory(c, catalog, secret, ds, ws)
    requires Stores(c, catalog, secret, ds[k], ws[k], slot) && Quiet(c, catalog, secret, ds, ws, k + 1, n, slot)
    ensures Read(c, ds[n], secret, slot) == Stored(ws[k])
  {
    StoreReads(c, catalog, secret, ds[k], ws[k], slot);
    assert ds[k + 1] == AfterWrite(c, catalog, ds[k], secret, ws[k]);
    UntouchedSlotKept(c, catalog, secret, ds, ws, k + 1, n, slot);
  }
}
