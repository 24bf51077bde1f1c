/** Which 70 bytes are an accepted SKU manifest, byte by byte, and what its evidence says. */
module SkuLayout {
  import opened Basics
  import Ogg
  import OggStream
  import OggHeader
  import opened SkuManifest

  /** An individual device address: the group bit is clear, and it is not all zero. */
  predicate DeviceAddress(mac: Bytes) {
    |mac| == 6 && mac[0] % 2 == 0 && exists i :: 0 <= i < 6 && mac[i] != 0
  }

  /** Neither all zero nor all ones. */
  predicate Varied(id: Bytes) {
    |id| == 16 && (exists i :: 0 <= i < 16 && id[i] != 0) && exists i :: 0 <= i < 16 && id[i] != 255
  }

  /** Magic, schema 1, SKU 2, revision 1, chip, two zero bytes, address, record version and manifest ID. */
  predicate Laid(b: Bytes) {
    && |b| == 38 && OggHeader.Spelled(b[..4], "XSKU") && b[4] == 1 && b[5] == 2 && b[6] == 1 && b[7] == 0
    && b[8] as int + 256 * b[9] as int <= 999 && b[10] == 0 && b[11] == 0
    && DeviceAddress(b[12..18]) && (exists i :: 18 <= i < 22 && b[i] != 0) && Varied(b[22..38])
  }

  /** Tagged with the key over the domain's name, a zero byte and the authenticated part. */
  predicate Tagged(c: Crypto, key: Bytes, blob: Bytes)
    requires |blob| == 70
  {
    blob[38..] == c.hmac(key, OggStream.Ascii("XIAOZHI-PRODUCT-SKU-MANIFEST-V1\0") + blob[..38])
  }

  /** What the evidence says of the blob. */
  ghost predicate Describes(c: Crypto, blob: Bytes, e: Evidence)
    requires |blob| == 70
  {
    && e.sku == "VOICE_AGENT_KIT_BOX3" && e.board == "esp32s3-box3" && e.hardware == 1 && e.keySlot == 5
    && e.size == 70 && e.sha == c.sha(blob)
    && e.chip == blob[8] as int + 256 * blob[9] as int && e.version == Ogg.FromLe(blob[18..22])
    && ParseMac(e.baseMac) == Some(blob[12..18]) && e.baseMac == MacText(blob[12..18])
    && ParseId(e.manifestId) == Some(blob[22..38])
  }

  lemma TwoBytes(b: Bytes)
    requires |b| == 2
    ensures Ogg.FromLe(b) == b[0] as nat + 256 * b[1] as nat
  {
    assert b[1..][1..] == [] && Ogg.FromLe(b[1..]) == b[1] as nat;
  }

  lemma {:induction false} ZeroValue(b: Bytes)
    ensures Ogg.FromLe(b) == 0 <==> forall i :: 0 <= i < |b| ==> b[i] == 0
  {
    if b != [] {
      ZeroValue(b[1..]);
      assert forall i :: 1 <= i < |b| ==> b[i] == b[1..][i - 1];
    }
  }

  lemma MacExactly(raw: Bytes)
    requires |raw| == 6
    ensures ParseMac(MacText(raw)).Some? <==> DeviceAddress(raw)
  {
    MacTextParses(raw);
    assert seq(6, i requires 0 <= i < 6 => MacByte(MacText(raw), i)) == raw;
    SixOctets(raw);
  }

  lemma SixOctets(raw: Bytes)
    requires |raw| == 6
    ensures raw == [0, 0, 0, 0, 0, 0] <==> !exists i :: 0 <= i < 6 && raw[i] != 0
    ensures raw == [255, 255, 255, 255, 255, 255] ==> raw[0] % 2 == 1
  {
    if raw != [0, 0, 0, 0, 0, 0] { Differs(raw, [0, 0, 0, 0, 0, 0]); }
  }

  lemma Differs(a: Bytes, b: Bytes)
    requires |a| == |b| && a != b
    ensures exists i :: 0 <= i < |a| && a[i] != b[i]
  {
  }

  lemma IdExactly(raw: Bytes)
    requires |raw| == 16
    ensures ParseId(IdText(raw)).Some? <==> Varied(raw)
  {
    IdTextParses(raw);
    assert seq(16, i requires 0 <= i < 16 => IdByte(IdText(raw), i)) == raw;
  }

  /** An address may be given with digits in either case: each digit has one value. */
  lemma EitherCase(n: nat)
    requires n < 16
    ensures AnyNibble(Digit(n, 'a')) == Some(n) == AnyNibble(Digit(n, 'A'))
  {
    NibbleRoundTrip(n, 'a', 'a');
    NibbleRoundTrip(n, 'a', 'A');
  }

  lemma HeaderExactly(b: Bytes)
    requires |b| >= 12
    ensures b[..5] == HEADER <==> OggHeader.Spelled(b[..4], "XSKU") && b[4] == 1
    ensures b[10..12] == [0, 0] <==> b[10] == 0 && b[11] == 0
  {
    assert b[..5] == b[..4] + [b[4]];
    assert b[..4] == [b[0], b[1], b[2], b[3]] && b[10..12] == [b[10], b[11]];
  }

  lemma ProfileExactly(b: Bytes)
    requires |b| >= 12
    ensures Ogg.FromLe(b[6..8]) == HARDWARE <==> b[6] == 1 && b[7] == 0
    ensures Ogg.FromLe(b[8..10]) == b[8] as nat + 256 * b[9] as nat
  {
    TwoBytes(b[6..8]);
    TwoBytes(b[8..10]);
  }

  lemma VersionExactly(b: Bytes)
    requires |b| >= 22
    ensures Ogg.FromLe(b[18..22]) == 0 <==> !exists i :: 18 <= i < 22 && b[i] != 0
  {
    ZeroValue(b[18..22]);
    assert forall i :: 18 <= i < 22 ==> b[i] == b[18..22][i - 18];
  }

  lemma DomainText()
    ensures DOMAIN == OggStream.Ascii("XIAOZHI-PRODUCT-SKU-MANIFEST-V1\0")
  {
    var name := "XIAOZHI-PRODUCT-SKU-MANIFEST-V1";
    assert name + "\0" == "XIAOZHI-PRODUCT-SKU-MANIFEST-V1\0";
    assert OggStream.Ascii(name + "\0") == OggStream.Ascii(name) + [0];
  }

  lemma Prefix(blob: Bytes, i: nat, j: nat)
    requires |blob| == 70 && i <= j <= 38
    ensures blob[..38][i..j] == blob[i..j]
  {
  }

  /** For every key: a blob is accepted exactly when it is laid out and tagged so, and its evidence describes it. */
  lemma AcceptedExactly(c: Crypto, key: Bytes, blob: Bytes)
    ensures Parse(c, key, blob).Ok? <==> |key| == 32 && |blob| == 70 && Laid(blob[..38]) && Tagged(c, key, blob)
    ensures Parse(c, key, blob).Ok? ==> Describes(c, blob, Parse(c, key, blob).value)
  {
    if |blob| == 70 {
      HeaderExactly(blob);
      ProfileExactly(blob);
      VersionExactly(blob);
      DomainText();
      MacExactly(blob[12..18]);
      IdExactly(blob[22..38]);
      LaidAt(blob);
      if Parse(c, key, blob).Ok? { ParsedTexts(c, key, blob); }
    }
  }

  lemma LaidAt(blob: Bytes)
    requires |blob| == 70
    ensures Laid(blob[..38]) <==>
            && OggHeader.Spelled(blob[..4], "XSKU") && blob[4] == 1 && blob[5] == 2 && blob[6] == 1 && blob[7] == 0
            && blob[8] as int + 256 * blob[9] as int <= 999 && blob[10] == 0 && blob[11] == 0
            && DeviceAddress(blob[12..18]) && (exists i :: 18 <= i < 22 && blob[i] != 0) && Varied(blob[22..38])
  {
    var b := blob[..38];
    Prefix(blob, 0, 4);
    Prefix(blob, 12, 18);
    Prefix(blob, 22, 38);
    assert b[..4] == b[0..4] && blob[..4] == blob[0..4];
    assert forall i :: 0 <= i < 38 ==> b[i] == blob[i];
  }
}
