/** The factory SKU manifest of `tools/factory_sku_manifest.py`: a 70-byte authenticated blob and its evidence. */
module SkuManifest {
  import opened Basics
  import opened OggCrc
  import opened Ogg
  import OggStream

  const AUTHENTICATED := 38
  const MANIFEST := 70
  const SKU := "VOICE_AGENT_KIT_BOX3"
  const BOARD := "esp32s3-box3"
  const SKU_ID: Byte := 2
  const HARDWARE := 1
  const KEY_SLOT := 5
  const HEADER: Bytes := [0x58, 0x53, 0x4B, 0x55, 1]
  const DOMAIN: Bytes := OggStream.Ascii("XIAOZHI-PRODUCT-SKU-MANIFEST-V1") + [0]

  // ----- Hexadecimal text -----

  function Digit(n: nat, ten: char): char
    requires n < 16 && (ten == 'a' || ten == 'A')
  {
    if n < 10 then '0' + n as char else ten + (n - 10) as char
  }

  function Nibble(c: char, ten: char): Option<nat>
    requires ten == 'a' || ten == 'A'
  {
    if '0' <= c <= '9' then Some((c - '0') as nat)
    else if ten <= c <= ten + 5 as char then Some((c - ten) as nat + 10)
    else None
  }

  /** A hexadecimal digit in either case. */
  function AnyNibble(c: char): Option<nat> {
    if Nibble(c, 'a').Some? then Nibble(c, 'a') else Nibble(c, 'A')
  }

  lemma NibbleRoundTrip(n: nat, c: char, ten: char)
    requires ten == 'a' || ten == 'A'
    ensures n < 16 ==> Nibble(Digit(n, ten), ten) == Some(n) && AnyNibble(Digit(n, ten)) == Some(n)
    ensures Nibble(c, ten).Some? ==> Nibble(c, ten).value < 16 && Digit(Nibble(c, ten).value, ten) == c
    ensures AnyNibble(c).Some? ==> AnyNibble(c).value < 16
  {
  }

  lemma PairRoundTrip(b: Byte, ten: char)
    requires ten == 'a' || ten == 'A'
    ensures Nibble(Digit(b as nat / 16, ten), ten) == AnyNibble(Digit(b as nat / 16, ten)) == Some(b as nat / 16)
    ensures Nibble(Digit(b as nat % 16, ten), ten) == AnyNibble(Digit(b as nat % 16, ten)) == Some(b as nat % 16)
    ensures 16 * (b as nat / 16) + b as nat % 16 == b as nat
  {
    NibbleRoundTrip(b as nat / 16, 'a', ten);
    NibbleRoundTrip(b as nat % 16, 'a', ten);
  }

  lemma PairIsCanonical(high: char, low: char)
    requires Nibble(high, 'a').Some? && Nibble(low, 'a').Some?
    ensures var b := 16 * Nibble(high, 'a').value + Nibble(low, 'a').value;
            b < 256 && Digit(b / 16, 'a') == high && Digit(b % 16, 'a') == low
  {
    NibbleRoundTrip(0, high, 'a');
    NibbleRoundTrip(0, low, 'a');
  }

  predicate MacShape(text: string) {
    |text| == 17 && forall k :: 0 <= k < 17 ==> if k % 3 == 2 then text[k] == ':' else AnyNibble(text[k]).Some?
  }

  function MacByte(text: string, i: nat): (b: Byte)
    requires MacShape(text) && i < 6
  {
    NibbleRoundTrip(0, text[3 * i], 'a');
    NibbleRoundTrip(0, text[3 * i + 1], 'a');
    (16 * AnyNibble(text[3 * i]).value + AnyNibble(text[3 * i + 1]).value) as Byte
  }

  /** `_base_mac`: the six octets of a device address. */
  function ParseMac(text: string): Option<Bytes> {
    if !MacShape(text) then None
    else
      var raw := seq(6, i requires 0 <= i < 6 => MacByte(text, i));
      if raw == [0, 0, 0, 0, 0, 0] || raw == [255, 255, 255, 255, 255, 255] || raw[0] % 2 == 1 then None else Some(raw)
  }

  function MacChar(raw: Bytes, k: nat): char
    requires |raw| == 6 && k < 17
  {
    if k % 3 == 2 then ':'
    else if k % 3 == 0 then Digit(raw[k / 3] as nat / 16, 'A')
    else Digit(raw[k / 3] as nat % 16, 'A')
  }

  function MacText(raw: Bytes): string
    requires |raw| == 6
  {
    seq(17, k requires 0 <= k < 17 => MacChar(raw, k))
  }

  predicate IdShape(text: string) {
    |text| == 32 && forall k :: 0 <= k < 32 ==> Nibble(text[k], 'a').Some?
  }

  function IdByte(text: string, i: nat): (b: Byte)
    requires IdShape(text) && i < 16
  {
    NibbleRoundTrip(0, text[2 * i], 'a');
    NibbleRoundTrip(0, text[2 * i + 1], 'a');
    (16 * Nibble(text[2 * i], 'a').value + Nibble(text[2 * i + 1], 'a').value) as Byte
  }

  function Repeated(b: Byte): Bytes {
    seq(16, _ => b)
  }

  /** `_manifest_id`: sixteen bytes, neither all zero nor all ones. */
  function ParseId(text: string): Option<Bytes> {
    if !IdShape(text) then None
    else
      var raw := seq(16, i requires 0 <= i < 16 => IdByte(text, i));
      if raw == Repeated(0) || raw == Repeated(255) then None else Some(raw)
  }

  function IdChar(raw: Bytes, k: nat): char
    requires |raw| == 16 && k < 32
  {
    if k % 2 == 0 then Digit(raw[k / 2] as nat / 16, 'a') else Digit(raw[k / 2] as nat % 16, 'a')
  }

  function IdText(raw: Bytes): string
    requires |raw| == 16
  {
    seq(32, k requires 0 <= k < 32 => IdChar(raw, k))
  }

  lemma MacTextParses(raw: Bytes)
    requires |raw| == 6
    ensures MacShape(MacText(raw)) && forall i :: 0 <= i < 6 ==> MacByte(MacText(raw), i) == raw[i]
  {
    var text := MacText(raw);
    forall k | 0 <= k < 17 ensures if k % 3 == 2 then text[k] == ':' else AnyNibble(text[k]).Some? {
      PairRoundTrip(raw[k / 3], 'A');
    }
    forall i | 0 <= i < 6 ensures MacByte(text, i) == raw[i] {
      PairRoundTrip(raw[i], 'A');
      assert text[3 * i] == MacChar(raw, 3 * i) && text[3 * i + 1] == MacChar(raw, 3 * i + 1);
    }
  }

  lemma IdTextParses(raw: Bytes)
    requires |raw| == 16
    ensures IdShape(IdText(raw)) && forall i :: 0 <= i < 16 ==> IdByte(IdText(raw), i) == raw[i]
  {
    var text := IdText(raw);
    forall k | 0 <= k < 32 ensures Nibble(text[k], 'a').Some? {
      PairRoundTrip(raw[k / 2], 'a');
    }
    forall i | 0 <= i < 16 ensures IdByte(text, i) == raw[i] {
      PairRoundTrip(raw[i], 'a');
      assert text[2 * i] == IdChar(raw, 2 * i) && text[2 * i + 1] == IdChar(raw, 2 * i + 1);
    }
  }

  /** Identifiers are canonical text: writing the parsed bytes gives the text back. */
  lemma IdIsCanonical(text: string)
    requires IdShape(text)
    ensures IdText(seq(16, i requires 0 <= i < 16 => IdByte(text, i))) == text
  {
    var raw := seq(16, i requires 0 <= i < 16 => IdByte(text, i));
    forall k | 0 <= k < 32 ensures IdText(raw)[k] == text[k] {
      var i := k / 2;
      assert raw[i] == IdByte(text, i) && IdText(raw)[k] == IdChar(raw, k);
      PairIsCanonical(text[2 * i], text[2 * i + 1]);
    }
  }

  // ----- The blob -----

  datatype Crypto = Crypto(hmac: (Bytes, Bytes) -> Bytes, sha: Bytes -> string)

  datatype Request = Request(
    baseMac: string, sku: string, board: string, hardware: int, chip: int, version: int, manifestId: string)

  datatype Evidence = Evidence(
    manifestId: string, sku: string, board: string, hardware: int, chip: int, baseMac: string, version: int,
    keySlot: int, size: nat, sha: string)

  datatype Refusal = BadKey | BadProfile | BadMac | BadChip | BadVersion | BadId | BadSize | BadHeader | BadTag

  /** The authenticated part, field by field. */
  function Authenticated(chip: nat, mac: Bytes, version: nat, id: Bytes): Bytes {
    HEADER + [SKU_ID] + Le(2, HARDWARE) + Le(2, chip) + [0, 0] + mac + Le(4, version) + id
  }

  function Tag(c: Crypto, key: Bytes, authenticated: Bytes): Bytes {
    c.hmac(key, DOMAIN + authenticated)
  }

  function EvidenceOf(c: Crypto, blob: Bytes, id: string, chip: int, mac: string, version: int): Evidence {
    Evidence(id, SKU, BOARD, HARDWARE, chip, mac, version, KEY_SLOT, |blob|, c.sha(blob))
  }

  /** The checks of `build_manifest` that come before the buffer is filled. */
  function Refuses(key: Bytes, q: Request): Option<Refusal> {
    if |key| != 32 then Some(BadKey)
    else if q.sku != SKU || q.board != BOARD || q.hardware != HARDWARE then Some(BadProfile)
    else if ParseMac(q.baseMac).None? then Some(BadMac)
    else if !(0 <= q.chip <= 999) then Some(BadChip)
    else if !(1 <= q.version < WORD) then Some(BadVersion)
    else if ParseId(q.manifestId).None? then Some(BadId)
    else None
  }

  function Build(c: Crypto, key: Bytes, q: Request): Result<(Bytes, Evidence), Refusal> {
    if Refuses(key, q).Some? then Err(Refuses(key, q).value)
    else
      var mac := ParseMac(q.baseMac).value;
      var authenticated := Authenticated(q.chip, mac, q.version, ParseId(q.manifestId).value);
      var blob := authenticated + Tag(c, key, authenticated);
      if |blob| != MANIFEST then Err(BadSize)
      else Ok((blob, EvidenceOf(c, blob, q.manifestId, q.chip, MacText(mac), q.version)))
  }

  /** `parse_and_verify_manifest`. */
  function Parse(c: Crypto, key: Bytes, blob: Bytes): Result<Evidence, Refusal> {
    if |key| != 32 then Err(BadKey)
    else if |blob| != MANIFEST then Err(BadSize)
    else if blob[..5] != HEADER || blob[10..12] != [0, 0] then Err(BadHeader)
    else if blob[AUTHENTICATED..] != Tag(c, key, blob[..AUTHENTICATED]) then Err(BadTag)
    else if blob[5] != SKU_ID || FromLe(blob[6..8]) != HARDWARE then Err(BadProfile)
    else if FromLe(blob[8..10]) > 999 then Err(BadChip)
    else if ParseMac(MacText(blob[12..18])).None? then Err(BadMac)
    else if FromLe(blob[18..22]) == 0 then Err(BadVersion)
    else if ParseId(IdText(blob[22..38])).None? then Err(BadId)
    else Ok(EvidenceOf(c, blob, IdText(blob[22..38]), FromLe(blob[8..10]), MacText(blob[12..18]), FromLe(blob[18..22])))
  }

  /** The buffer starts zeroed and its fields are written in place; bytes 10 and 11 stay zero. */
  method FillBuffer(header: Bytes, hardware: Bytes, chip: Bytes, mac: Bytes, version: Bytes, id: Bytes)
    returns (r: Bytes)
    requires |header| == 6 && |hardware| == 2 && |chip| == 2 && |mac| == 6 && |version| == 4 && |id| == 16
    ensures r == header + hardware + chip + [0, 0] + mac + version + id
  {
    var a := new Byte[AUTHENTICATED](_ => 0);
    ghost var s0 := a[..];
    OggStream.PackInto(a, 0, header);
    ghost var s1 := a[..];
    assert s1 == s0[..0] + header + s0[6..];
    OggStream.PackInto(a, 6, hardware);
    ghost var s2 := a[..];
    assert s2 == s1[..6] + hardware + s1[8..];
    OggStream.PackInto(a, 8, chip);
    ghost var s3 := a[..];
    assert s3 == s2[..8] + chip + s2[10..];
    OggStream.PackInto(a, 12, mac);
    ghost var s4 := a[..];
    assert s4 == s3[..12] + mac + s3[18..];
    OggStream.PackInto(a, 18, version);
    ghost var s5 := a[..];
    assert s5 == s4[..18] + version + s4[22..];
    OggStream.PackInto(a, 22, id);
    assert a[..] == s5[..22] + id + s5[38..];
    assert s0[10] == 0 && s0[11] == 0;
    Assembled(s0, s1, s2, s3, s4, s5, a[..], header, hardware, chip, mac, version, id);
    r := a[..];
  }

  lemma Assembled(s0: Bytes, s1: Bytes, s2: Bytes, s3: Bytes, s4: Bytes, s5: Bytes, s6: Bytes,
                  header: Bytes, hardware: Bytes, chip: Bytes, mac: Bytes, version: Bytes, id: Bytes)
    requires |header| == 6 && |hardware| == 2 && |chip| == 2 && |mac| == 6 && |version| == 4 && |id| == 16
    requires |s0| == AUTHENTICATED && s0[10] == 0 && s0[11] == 0
    requires s1 == s0[..0] + header + s0[6..] && s2 == s1[..6] + hardware + s1[8..]
    requires s3 == s2[..8] + chip + s2[10..] && s4 == s3[..12] + mac + s3[18..]
    requires s5 == s4[..18] + version + s4[22..] && s6 == s5[..22] + id + s5[38..]
    ensures s6 == header + hardware + chip + [0, 0] + mac + version + id
  {
    assert s3 == header + hardware + chip + s0[10..];
    assert s0[10..12] == [0, 0];
    assert s4 == header + hardware + chip + [0, 0] + mac + s0[18..];
    assert s5 == header + hardware + chip + [0, 0] + mac + version + s0[22..];
  }

  /** `build_manifest`. */
  method BuildManifest(c: Crypto, key: Bytes, q: Request) returns (r: Result<(Bytes, Evidence), Refusal>)
    ensures r == Build(c, key, q)
  {
    var refusal := Refuses(key, q);
    if refusal.Some? { return Err(refusal.value); }
    var mac, id := ParseMac(q.baseMac).value, ParseId(q.manifestId).value;
    var authenticated := FillBuffer(HEADER + [SKU_ID], Le(2, HARDWARE), Le(2, q.chip), mac, Le(4, q.version), id);
    assert authenticated == Authenticated(q.chip, mac, q.version, id);
    var blob := authenticated + Tag(c, key, authenticated);
    if |blob| != MANIFEST { return Err(BadSize); }
    r := Ok((blob, EvidenceOf(c, blob, q.manifestId, q.chip, MacText(mac), q.version)));
  }

  // ----- Round trips -----

  lemma Fields(chip: nat, mac: Bytes, version: nat, id: Bytes, rest: Bytes)
    requires |mac| == 6 && |id| == 16
    ensures var b := Authenticated(chip, mac, version, id) + rest;
            && |b| == AUTHENTICATED + |rest| && b[..AUTHENTICATED] == Authenticated(chip, mac, version, id)
            && b[AUTHENTICATED..] == rest && b[..5] == HEADER && b[5] == SKU_ID && b[6..8] == Le(2, HARDWARE)
            && b[8..10] == Le(2, chip) && b[10..12] == [0, 0] && b[12..18] == mac && b[18..22] == Le(4, version)
            && b[22..38] == id
  {
  }

  lemma LeCons(n: nat, x: Byte, rest: nat)
    ensures Le(n + 1, x as nat + 256 * rest) == [x] + Le(n, rest)
  {
    assert (x as nat + 256 * rest) / 256 == rest && (x as nat + 256 * rest) % 256 == x as nat;
  }

  lemma {:induction false} LeOfFromLe(b: Bytes)
    ensures Le(|b|, FromLe(b)) == b
  {
    if b != [] {
      LeOfFromLe(b[1..]);
      LeCons(|b| - 1, b[0], FromLe(b[1..]));
      assert b == [b[0]] + b[1..];
    }
  }

  lemma {:induction false} FromLeBound(b: Bytes)
    requires |b| == 2 || |b| == 4
    ensures |b| == 4 ==> FromLe(b) < WORD
    ensures |b| == 2 ==> FromLe(b) < 0x10000
  {
    var t := b[1..];
    var u := t[1..];
    if |b| == 4 { FromLeBound(u); }
    else { assert u == [] && FromLe(u) == 0; }
  }

  lemma SmallLe(v: nat)
    ensures v < 0x10000 ==> FromLe(Le(2, v)) == v
    ensures v < WORD ==> FromLe(Le(4, v)) == v
  {
    WordIsPow2();
    if v < WORD { LeRoundTrip(4, v); }
    if v < 0x10000 { Pow2Add(8, 8); LeRoundTrip(2, v); }
  }

  lemma MacSurvives(raw: Bytes)
    requires |raw| == 6
    ensures ParseMac(MacText(raw)).Some? ==> ParseMac(MacText(raw)) == Some(raw)
    ensures (exists text :: ParseMac(text) == Some(raw)) ==> ParseMac(MacText(raw)) == Some(raw)
  {
    MacTextParses(raw);
    assert seq(6, i requires 0 <= i < 6 => MacByte(MacText(raw), i)) == raw;
  }

  lemma IdSurvives(raw: Bytes)
    requires |raw| == 16
    ensures ParseId(IdText(raw)).Some? ==> ParseId(IdText(raw)) == Some(raw)
    ensures forall text :: ParseId(text) == Some(raw) ==> IdText(raw) == text && ParseId(IdText(raw)) == Some(raw)
  {
    IdTextParses(raw);
    assert seq(16, i requires 0 <= i < 16 => IdByte(IdText(raw), i)) == raw;
    forall text | ParseId(text) == Some(raw) ensures IdText(raw) == text { IdIsCanonical(text); }
  }

  /** Parsing what was built returns the builder's evidence. */
  lemma BuiltParses(c: Crypto, key: Bytes, q: Request)
    requires Build(c, key, q).Ok?
    ensures Parse(c, key, Build(c, key, q).value.0) == Ok(Build(c, key, q).value.1)
  {
    var mac, id := ParseMac(q.baseMac).value, ParseId(q.manifestId).value;
    var authenticated := Authenticated(q.chip, mac, q.version, id);
    Fields(q.chip, mac, q.version, id, Tag(c, key, authenticated));
    SmallLe(HARDWARE);
    SmallLe(q.chip);
    SmallLe(q.version);
    MacSurvives(mac);
    IdSurvives(id);
  }

  /** The request an evidence record answers. */
  function Again(e: Evidence): Request {
    Request(e.baseMac, e.sku, e.board, e.hardware, e.chip, e.version, e.manifestId)
  }

  lemma BuildFrom(c: Crypto, key: Bytes, q: Request, mac: Bytes, id: Bytes, tag: Bytes)
    requires Refuses(key, q).None? && ParseMac(q.baseMac) == Some(mac) && ParseId(q.manifestId) == Some(id)
    requires tag == Tag(c, key, Authenticated(q.chip, mac, q.version, id)) && |tag| == 32
    ensures var blob := Authenticated(q.chip, mac, q.version, id) + tag;
            Build(c, key, q) == Ok((blob, EvidenceOf(c, blob, q.manifestId, q.chip, MacText(mac), q.version)))
  {
    Fields(q.chip, mac, q.version, id, tag);
  }

  lemma ParsedTexts(c: Crypto, key: Bytes, blob: Bytes)
    requires Parse(c, key, blob).Ok?
    ensures ParseMac(MacText(blob[12..18])) == Some(blob[12..18]) && ParseId(IdText(blob[22..38])) == Some(blob[22..38])
  {
    var mac, id := blob[12..18], blob[22..38];
    assert ParseMac(MacText(mac)).Some? && ParseId(IdText(id)).Some?;
    MacSurvives(mac);
    IdSurvives(id);
  }

  lemma ParsedIsBuildable(c: Crypto, key: Bytes, blob: Bytes)
    requires Parse(c, key, blob).Ok?
    ensures Refuses(key, Again(Parse(c, key, blob).value)).None?
  {
    FromLeBound(blob[18..22]);
  }

  lemma ParsedBytes(c: Crypto, key: Bytes, blob: Bytes)
    requires Parse(c, key, blob).Ok?
    ensures Authenticated(FromLe(blob[8..10]), blob[12..18], FromLe(blob[18..22]), blob[22..38]) ==
            blob[..AUTHENTICATED]
  {
    LeOfFromLe(blob[6..8]);
    LeOfFromLe(blob[8..10]);
    LeOfFromLe(blob[18..22]);
    Reassembles(blob, FromLe(blob[8..10]), FromLe(blob[18..22]));
  }

  /** Rebuilding from an accepted blob's evidence reproduces it byte for byte. */
  lemma ParsedRebuilds(c: Crypto, key: Bytes, blob: Bytes)
    requires Parse(c, key, blob).Ok?
    ensures Build(c, key, Again(Parse(c, key, blob).value)) == Ok((blob, Parse(c, key, blob).value))
  {
    ParsedTexts(c, key, blob);
    ParsedIsBuildable(c, key, blob);
    ParsedBytes(c, key, blob);
    BuildFrom(c, key, Again(Parse(c, key, blob).value), blob[12..18], blob[22..38], blob[AUTHENTICATED..]);
    assert blob == blob[..AUTHENTICATED] + blob[AUTHENTICATED..];
  }

  lemma Reassembles(blob: Bytes, chip: nat, version: nat)
    requires |blob| == MANIFEST && blob[..5] == HEADER && blob[5] == SKU_ID && blob[6..8] == Le(2, HARDWARE)
    requires blob[8..10] == Le(2, chip) && blob[10..12] == [0, 0] && blob[18..22] == Le(4, version)
    ensures Authenticated(chip, blob[12..18], version, blob[22..38]) == blob[..AUTHENTICATED]
    ensures blob == blob[..AUTHENTICATED] + blob[AUTHENTICATED..]
  {
    assert blob[..AUTHENTICATED] == blob[..5] + [blob[5]] + blob[6..8] + blob[8..10] + blob[10..12] + blob[12..18]
                                    + blob[18..22] + blob[22..38];
  }

  /** So for every key the accepted blobs are exactly the built ones. */
  lemma AcceptedIsBuilt(c: Crypto, key: Bytes, blob: Bytes)
    ensures Parse(c, key, blob).Ok? <==> exists q :: Build(c, key, q).Ok? && Build(c, key, q).value.0 == blob
  {
    if Parse(c, key, blob).Ok? {
      ParsedRebuilds(c, key, blob);
      var q := Again(Parse(c, key, blob).value);
      assert Build(c, key, q).Ok? && Build(c, key, q).value.0 == blob;
    }
    if q :| Build(c, key, q).Ok? && Build(c, key, q).value.0 == blob { BuiltParses(c, key, q); }
  }
}
