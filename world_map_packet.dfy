/** The world-map (portal descriptor) packet, opcode 0x2E: the name
    `field` + a three-digit field number, the number of portal entries,
    the marker 0x09, then one record per entry that has a destination.
    Field widths not visible in the source are assumptions: `PointX`,
    `PointY` and `AreaID` are written as 16-bit values. */
module WorldMapPacket {
  import opened Common
  import opened Text
  import opened Wire

  datatype Location = Location(x: int, y: int)

  /** A portal's target: the area and the position in it. */
  datatype Warp = Warp(areaId: int, location: Location)

  /** One entry of a world map; `destination` may be null. */
  datatype WorldPortal = WorldPortal(pointX: int, pointY: int, displayName: string, destination: Option<Warp>)

  /** A world-map template; its portal list may hold null entries. */
  datatype WorldMapTemplate = WorldMapTemplate(fieldNumber: int, portals: seq<Option<WorldPortal>>)

  /** A record as it reads back off the wire. */
  datatype WireRecord = WireRecord(pointY: u16, pointX: u16, displayName: seq<u8>, areaId: u16, destX: u16, destY: u16)

  /** A whole packet as it reads back off the wire. */
  datatype WireMap = WireMap(name: seq<u8>, count: u8, records: seq<WireRecord>)

  /** `string.Format("field{0:000}", n)`: at least three digits, zero-padded;
      a negative number keeps its sign in front of the padded digits. */
  function FieldName(n: int): (s: string)
    ensures |s| >= 8 && s[..5] == "field"
    ensures n >= 0 ==> AllDigits(s[5..]) && DecimalValue(s[5..]) == n
    ensures n < 0 ==> s[5] == '-' && AllDigits(s[6..]) && DecimalValue(s[6..]) == -n
    ensures 0 <= n < 1000 ==> |s| == 8
    ensures n >= 0 ==> |s| == 5 + (if |Digits(n)| < 3 then 3 else |Digits(n)|)
    ensures n < 0 ==> |s| == 6 + (if |Digits(-n)| < 3 then 3 else |Digits(-n)|)
  {
    if n < 0 then
      var d := ZeroPad(Digits(-n), 3);
      assert ("field-" + d)[6..] == d;
      "field-" + d
    else
      var d := ZeroPad(Digits(n), 3);
      assert ("field" + d)[5..] == d;
      DigitsBelowThousand(n);
      "field" + d
  }

  lemma DigitsBelowThousand(n: nat)
    ensures n < 1000 ==> |Digits(n)| <= 3
  {
    if 10 <= n < 1000 {
      assert |Digits(n)| == |Digits(n / 10)| + 1;
      if n >= 100 {
        assert |Digits(n / 10)| == |Digits(n / 100)| + 1;
      }
    }
  }

  /** The record a portal with destination `d` contributes: Y before X,
      the display name, the area and the destination X then Y. */
  function RecordBytes(p: WorldPortal, d: Warp): (r: seq<u8>)
    ensures |r| == 11 + |p.displayName|
    ensures r[4] == ToByte(|p.displayName|)
  {
    U16(p.pointY) + U16(p.pointX) + StringA(StringBytes(p.displayName))
      + U16(d.areaId) + U16(d.location.x) + U16(d.location.y)
  }

  /** A null entry, or one with a null destination, contributes nothing. */
  function EntryBytes(e: Option<WorldPortal>): seq<u8> {
    if e.Some? && e.value.destination.Some? then RecordBytes(e.value, e.value.destination.value) else []
  }

  function PortalsBytes(ps: seq<Option<WorldPortal>>): seq<u8> {
    Flatten(ps, EntryBytes)
  }

  /** The name, the entry count truncated to a byte (null entries included), the marker. */
  function HeaderBytes(m: WorldMapTemplate): (r: seq<u8>)
    ensures |r| == 3 + |FieldName(m.fieldNumber)| >= 11
    ensures r[0] == ToByte(|FieldName(m.fieldNumber)|)
    ensures r[|r| - 2] == ToByte(|m.portals|) && r[|r| - 1] == 0x09
  {
    StringA(StringBytes(FieldName(m.fieldNumber))) + [ToByte(|m.portals|), 0x09]
  }

  /** The whole packet: the count and the marker sit right after the name. */
  function WorldMapBytes(m: WorldMapTemplate): (r: seq<u8>)
    ensures |r| >= 3 + |FieldName(m.fieldNumber)| >= 11
    ensures var n := |FieldName(m.fieldNumber)|;
            r[0] == ToByte(n) && r[n + 1] == ToByte(|m.portals|) && r[n + 2] == 0x09
  {
    HeaderBytes(m) + PortalsBytes(m.portals)
  }

  /** Where the parts of a header sit, for a name that fits its length byte. */
  lemma HeaderSlices(name: seq<u8>, count: u8, rest: seq<u8>)
    requires |name| < 0x100
    ensures var s := StringA(name) + [count, 0x09] + rest;
            var n := |name|;
            |s| >= n + 3 && s[0] == n && s[1..n + 1] == name && s[n + 1] == count && s[n + 2] == 0x09
            && s[n + 3..] == rest
  {
  }

  /** What a portal with destination `d` should read back as. */
  function Expected(p: WorldPortal, d: Warp): WireRecord {
    WireRecord(ToUShort(p.pointY), ToUShort(p.pointX), StringBytes(p.displayName),
               ToUShort(d.areaId), ToUShort(d.location.x), ToUShort(d.location.y))
  }

  /** The records the entries should read back as, in list order, skipping nulls. */
  function ExpectedRecords(ps: seq<Option<WorldPortal>>): seq<WireRecord> {
    if ps == [] then []
    else
      var e := ps[0];
      (if e.Some? && e.value.destination.Some? then [Expected(e.value, e.value.destination.value)] else [])
        + ExpectedRecords(ps[1..])
  }

  /** Every display name fits the one-byte length prefix. */
  predicate ShortNames(ps: seq<Option<WorldPortal>>) {
    forall i :: 0 <= i < |ps| && ps[i].Some? ==> |ps[i].value.displayName| < 0x100
  }

  /** Total bytes of a list of records: 11 fixed bytes plus the name each. */
  function RecordsSize(rs: seq<WireRecord>): nat {
    if rs == [] then 0 else 11 + |rs[0].displayName| + RecordsSize(rs[1..])
  }

  function ParseRecord(s: seq<u8>): (r: Option<(WireRecord, seq<u8>)>)
    ensures r.Some? ==> |r.value.1| < |s|
  {
    if |s| < 5 then None
    else
      var n: int := s[4];
      if |s| < 11 + n then None
      else
        Some((WireRecord(DecodeU16(s[0..2]), DecodeU16(s[2..4]), s[5..5 + n],
                         DecodeU16(s[5 + n..7 + n]), DecodeU16(s[7 + n..9 + n]), DecodeU16(s[9 + n..11 + n])),
              s[11 + n..]))
  }

  /** Reads records until the payload is used up. */
  function ParseRecords(s: seq<u8>): Option<seq<WireRecord>>
    decreases |s|
  {
    if s == [] then Some([])
    else
      match ParseRecord(s)
      case None => None
      case Some((r, rest)) =>
        match ParseRecords(rest)
        case None => None
        case Some(rs) => Some([r] + rs)
  }

  /** Reads a whole packet: name, count, the 0x09 marker, then records. */
  function ParseWorldMap(s: seq<u8>): Option<WireMap> {
    if |s| < 1 then None
    else
      var n: int := s[0];
      if |s| < n + 3 || s[n + 2] != 0x09 then None
      else
        match ParseRecords(s[n + 3..])
        case None => None
        case Some(rs) => Some(WireMap(s[1..n + 1], s[n + 1], rs))
  }

  /** One record reads back as the portal it came from, and parsing resumes after it. */
  lemma ParseRecordOf(p: WorldPortal, d: Warp, rest: seq<u8>)
    requires |p.displayName| < 0x100
    ensures ParseRecord(RecordBytes(p, d) + rest) == Some((Expected(p, d), rest))
  {
    var name := StringBytes(p.displayName);
    var n := |name|;
    var s := RecordBytes(p, d) + rest;
    assert s == U16(p.pointY) + U16(p.pointX) + StringA(name) + U16(d.areaId)
                + U16(d.location.x) + U16(d.location.y) + rest;
    DecodeU16Of(p.pointY, []);
    DecodeU16Of(p.pointX, []);
    DecodeU16Of(d.areaId, []);
    DecodeU16Of(d.location.x, []);
    DecodeU16Of(d.location.y, []);
    assert s[0..2] == U16(p.pointY);
    assert s[2..4] == U16(p.pointX);
    assert s[4] == n;
    assert s[5..5 + n] == name;
    assert s[5 + n..7 + n] == U16(d.areaId);
    assert s[7 + n..9 + n] == U16(d.location.x);
    assert s[9 + n..11 + n] == U16(d.location.y);
    assert s[11 + n..] == rest;
  }

  /** The emitted records read back as the non-null entries, in order. */
  lemma {:induction false} ParseRecordsOf(ps: seq<Option<WorldPortal>>)
    requires ShortNames(ps)
    ensures ParseRecords(PortalsBytes(ps)) == Some(ExpectedRecords(ps))
  {
    if ps != [] {
      assert ShortNames(ps[1..]) by {
        forall i | 0 <= i < |ps[1..]| && ps[1..][i].Some?
          ensures |ps[1..][i].value.displayName| < 0x100
        {
          assert ps[1..][i] == ps[i + 1];
        }
      }
      ParseRecordsOf(ps[1..]);
      var e := ps[0];
      if e.Some? && e.value.destination.Some? {
        var d := e.value.destination.value;
        var r := Expected(e.value, d);
        ParseRecordOf(e.value, d, PortalsBytes(ps[1..]));
        var s := PortalsBytes(ps);
        assert s == RecordBytes(e.value, d) + PortalsBytes(ps[1..]);
        assert s != [] && ParseRecord(s) == Some((r, PortalsBytes(ps[1..])));
        assert ParseRecords(s) == Some([r] + ExpectedRecords(ps[1..]));
        assert ExpectedRecords(ps) == [r] + ExpectedRecords(ps[1..]);
      } else {
        assert PortalsBytes(ps) == [] + PortalsBytes(ps[1..]) == PortalsBytes(ps[1..]);
        assert ExpectedRecords(ps) == [] + ExpectedRecords(ps[1..]) == ExpectedRecords(ps[1..]);
      }
    }
  }

  /** The packet reads back as its name, the byte-truncated count of ALL
      entries (nulls included), and one record per non-null destination,
      in list order, with Y and X swapped back. */
  lemma WorldMapRoundTrip(m: WorldMapTemplate)
    requires |FieldName(m.fieldNumber)| < 0x100
    requires ShortNames(m.portals)
    ensures ParseWorldMap(WorldMapBytes(m))
         == Some(WireMap(StringBytes(FieldName(m.fieldNumber)), ToByte(|m.portals|), ExpectedRecords(m.portals)))
  {
    var name := StringBytes(FieldName(m.fieldNumber));
    assert WorldMapBytes(m) == StringA(name) + [ToByte(|m.portals|), 0x09] + PortalsBytes(m.portals);
    ParseHeaderOf(name, ToByte(|m.portals|), m.portals);
  }

  /** A header followed by the payload reads back as name, count and records. */
  lemma ParseHeaderOf(name: seq<u8>, count: u8, ps: seq<Option<WorldPortal>>)
    requires |name| < 0x100
    requires ShortNames(ps)
    ensures ParseWorldMap(StringA(name) + [count, 0x09] + PortalsBytes(ps)) == Some(WireMap(name, count, ExpectedRecords(ps)))
  {
    HeaderSlices(name, count, PortalsBytes(ps));
    ParseRecordsOf(ps);
  }

  /** The payload is as long as the emitted records read back. */
  lemma {:induction false} PortalsBytesSize(ps: seq<Option<WorldPortal>>)
    ensures |PortalsBytes(ps)| == RecordsSize(ExpectedRecords(ps))
  {
    if ps != [] {
      PortalsBytesSize(ps[1..]);
      var e := ps[0];
      if e.Some? && e.value.destination.Some? {
        var r := Expected(e.value, e.value.destination.value);
        assert ExpectedRecords(ps) == [r] + ExpectedRecords(ps[1..]);
        assert ([r] + ExpectedRecords(ps[1..]))[1..] == ExpectedRecords(ps[1..]);
      } else {
        assert ExpectedRecords(ps) == ExpectedRecords(ps[1..]);
      }
    }
  }

  /** Total length: an 11-byte header (for field numbers 0..999) plus the
      records of the non-null destinations only. */
  lemma WorldMapSize(m: WorldMapTemplate)
    requires 0 <= m.fieldNumber < 1000
    ensures |WorldMapBytes(m)| == 11 + RecordsSize(ExpectedRecords(m.portals))
  {
    PortalsBytesSize(m.portals);
  }

  /** The body of the loop for a portal with a destination. */
  method WriteRecord(writer: PacketWriter, p: WorldPortal, d: Warp)
    modifies writer
    ensures writer.buffer == old(writer.buffer) + RecordBytes(p, d)
  {
    writer.WriteUInt16(p.pointY);
    writer.WriteUInt16(p.pointX);
    writer.WriteStringA(p.displayName);
    writer.WriteUInt16(d.areaId);
    writer.WriteUInt16(d.location.x);
    writer.WriteUInt16(d.location.y);
    PrefixRecord(old(writer.buffer), p, d);
  }

  /** The six writes, appended one by one, append the record. */
  lemma PrefixRecord(b: seq<u8>, p: WorldPortal, d: Warp)
    ensures b + U16(p.pointY) + U16(p.pointX) + StringA(StringBytes(p.displayName))
              + U16(d.areaId) + U16(d.location.x) + U16(d.location.y)
            == b + RecordBytes(p, d)
  {
  }

  /** The `foreach` over the portal list: entries without a destination are skipped. */
  method WritePortals(writer: PacketWriter, ps: seq<Option<WorldPortal>>)
    modifies writer
    ensures writer.buffer == old(writer.buffer) + PortalsBytes(ps)
  {
    var i := 0;
    while i < |ps|
      invariant 0 <= i <= |ps|
      invariant writer.buffer == old(writer.buffer) + PortalsBytes(ps[..i])
    {
      var warps := ps[i];
      assert ps[..i + 1] == ps[..i] + [warps];
      FlattenSnoc(ps[..i], warps, EntryBytes);
      AppendAssoc(old(writer.buffer), PortalsBytes(ps[..i]), EntryBytes(warps));
      if warps.None? || warps.value.destination.None? {
        i := i + 1;
        continue;
      }
      WriteRecord(writer, warps.value, warps.value.destination.value);
      i := i + 1;
    }
    assert ps[..|ps|] == ps;
  }

  /** The 0x2E packet; `fieldNumber` is the user's portal-session field. */
  class ServerFormat2E {
    const fieldNumber: int
    const secured: bool := true
    const command: u8 := 0x2E

    constructor (userFieldNumber: int)
      ensures fieldNumber == userFieldNumber
    {
      fieldNumber := userFieldNumber;
    }

    /** The reader overload consumes nothing. */
    method Read(reader: PacketReader)
      ensures reader.position == old(reader.position) && reader.data == old(reader.data)
    {
    }

    /** Looks the field up in the world-map cache (a missing key makes the
        dictionary throw, and nothing is written) and appends the packet. */
    method Serialize(writer: PacketWriter, cache: map<int, WorldMapTemplate>) returns (found: bool)
      modifies writer
      ensures found == (fieldNumber in cache)
      ensures found ==> writer.buffer == old(writer.buffer) + WorldMapBytes(cache[fieldNumber])
      ensures !found ==> writer.buffer == old(writer.buffer)
    {
      if fieldNumber !in cache {
        return false;
      }
      found := true;
      var portal := cache[fieldNumber];
      writer.WriteStringA(FieldName(portal.fieldNumber));
      writer.WriteByte(ToByte(|portal.portals|));
      writer.WriteByte(0x09);
      ghost var header := StringA(StringBytes(FieldName(portal.fieldNumber))) + [ToByte(|portal.portals|), 0x09];
      AppendAssoc(old(writer.buffer), StringA(StringBytes(FieldName(portal.fieldNumber))), [ToByte(|portal.portals|)]);
      AppendAssoc(old(writer.buffer), StringA(StringBytes(FieldName(portal.fieldNumber))) + [ToByte(|portal.portals|)], [0x09]);
      assert writer.buffer == old(writer.buffer) + header;
      WritePortals(writer, portal.portals);
      AppendAssoc(old(writer.buffer), header, PortalsBytes(portal.portals));
    }
  }
}
