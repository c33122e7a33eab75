/** FLV framing: length-prefixed AVC payloads, the session muxer, and tags on the wire. */
module Flv {
  import opened Media
  import Timeline

  const MAX_PAYLOAD: int := 0x00ff_ffff
  const MIN_COMPOSITION: int := -0x0080_0000
  const MAX_COMPOSITION: int := 0x007f_ffff
  const UINT32_MAX: int := 0xffff_ffff

  // Big-endian numbers.

  function Be24(v: int): (r: seq<Byte>)
    requires 0 <= v <= MAX_PAYLOAD
    ensures |r| == 3
  {
    [v / 65536, v / 256 % 256, v % 256]
  }

  function Be32(v: int): (r: seq<Byte>)
    requires 0 <= v <= UINT32_MAX
    ensures |r| == 4
  {
    [v / 16777216, v / 65536 % 256, v / 256 % 256, v % 256]
  }

  function Read24(b: seq<Byte>): (v: int)
    requires |b| >= 3
    ensures 0 <= v <= MAX_PAYLOAD
  {
    (b[0] as int) * 65536 + (b[1] as int) * 256 + b[2] as int
  }

  function Read32(b: seq<Byte>): (v: int)
    requires |b| >= 4
    ensures 0 <= v <= UINT32_MAX
  {
    (b[0] as int) * 16777216 + (b[1] as int) * 65536 + (b[2] as int) * 256 + b[3] as int
  }

  lemma {:induction false} ReadBe24(v: int)
    requires 0 <= v <= MAX_PAYLOAD
    ensures Read24(Be24(v)) == v
  {}

  lemma {:induction false} ReadBe32(v: int)
    requires 0 <= v <= UINT32_MAX
    ensures Read32(Be32(v)) == v
  {
    assert v / 65536 == v / 16777216 * 256 + v / 65536 % 256;
    assert v / 256 == v / 65536 * 256 + v / 256 % 256;
  }

  lemma {:induction false} BeRead32(b: seq<Byte>)
    requires |b| == 4
    ensures Be32(Read32(b)) == b
  {
    var v := Read32(b);
    var x, y, z: int := b[0], b[1], b[2];
    assert v / 256 == x * 65536 + y * 256 + z;
    assert v / 65536 == x * 256 + y;
    assert v / 16777216 == x;
  }

  // AVC payloads.

  predicate Nal(n: seq<Byte>) { 0 < |n| <= UINT32_MAX }

  /** NAL units, each behind its length in four bytes. */
  function Framed(nals: seq<seq<Byte>>): seq<Byte>
    requires forall i :: 0 <= i < |nals| ==> Nal(nals[i])
  {
    if nals == [] then [] else assert Nal(nals[0]); Be32(|nals[0]|) + nals[0] + Framed(nals[1..])
  }

  ghost predicate FramesTo(nals: seq<seq<Byte>>, payload: seq<Byte>) {
    (forall i :: 0 <= i < |nals| ==> Nal(nals[i])) && Framed(nals) == payload
  }

  /** The payload is a list of NAL units. */
  ghost predicate Avc(payload: seq<Byte>) {
    exists nals :: FramesTo(nals, payload)
  }

  /** A payload is a list of NAL units in at most one way. */
  lemma {:induction false} FramingIsUnique(a: seq<seq<Byte>>, b: seq<seq<Byte>>)
    requires forall i :: 0 <= i < |a| ==> Nal(a[i])
    requires forall i :: 0 <= i < |b| ==> Nal(b[i])
    requires Framed(a) == Framed(b)
    ensures a == b
  {
    if a != [] && b != [] {
      FramedHead(a);
      FramedHead(b);
      assert a[0] == b[0];
      FramingIsUnique(a[1..], b[1..]);
      assert a == [a[0]] + a[1..] && b == [b[0]] + b[1..];
    }
  }

  /** Length, unit and rest can be read off the front. */
  lemma {:induction false} FramedHead(nals: seq<seq<Byte>>)
    requires nals != [] && forall i :: 0 <= i < |nals| ==> Nal(nals[i])
    ensures var f, n := Framed(nals), |nals[0]|;
      |f| >= 4 + n && Read32(f) == n && f[4..4 + n] == nals[0] && f[4 + n..] == Framed(nals[1..])
  {
    ReadBe32(|nals[0]|);
    var f := Framed(nals);
    assert f[..4] == Be32(|nals[0]|);
    assert Read32(f) == Read32(f[..4]);
  }

  /** A payload is framed exactly when its first unit fits and the rest is framed. */
  lemma {:induction false} AvcHead(payload: seq<Byte>)
    requires payload != []
    ensures Avc(payload) <==>
      |payload| >= 4 && 0 < Read32(payload) <= |payload| - 4 && Avc(payload[4 + Read32(payload)..])
  {
    if nals :| FramesTo(nals, payload) {
      FramedHead(nals);
      assert FramesTo(nals[1..], payload[4 + Read32(payload)..]);
    }
    if |payload| >= 4 && 0 < Read32(payload) <= |payload| - 4 && Avc(payload[4 + Read32(payload)..]) {
      var n := Read32(payload);
      var rest :| FramesTo(rest, payload[4 + n..]);
      var nals := [payload[4..4 + n]] + rest;
      BeRead32(payload[..4]);
      assert Read32(payload[..4]) == n;
      assert nals[1..] == rest;
      assert payload == payload[..4] + payload[4..4 + n] + payload[4 + n..];
      assert FramesTo(nals, payload);
    }
  }

  /** validate_avc_packet: scans the lengths, within bounds. */
  method ValidateAvc(payload: seq<Byte>) returns (ok: bool)
    ensures ok <==> Avc(payload)
  {
    hide Avc;
    var offset := 0;
    while offset < |payload|
      invariant 0 <= offset <= |payload|
      invariant Avc(payload) <==> Avc(payload[offset..])
      decreases |payload| - offset
    {
      var rest := payload[offset..];
      AvcHead(rest);
      if |payload| - offset < 4 { return false; }
      var size := Read32(payload[offset..offset + 4]);
      assert payload[offset..offset + 4] == rest[..4];
      Front32(rest);
      offset := offset + 4;
      if size == 0 || size > |payload| - offset { return false; }
      assert rest[4 + size..] == payload[offset + size..];
      offset := offset + size;
    }
    NothingIsAvc();
    assert payload[offset..] == [];
    return true;
  }

  lemma {:induction false} NothingIsAvc()
    ensures Avc([])
  {
    assert FramesTo([], []);
  }

  /** Three or four bytes that open a NAL unit in Annex B. */
  predicate StartCode(b: seq<Byte>) {
    |b| >= 3 && b[0] == 0 && b[1] == 0 && (b[2] == 1 || (|b| >= 4 && b[2] == 0 && b[3] == 1))
  }

  /** A framed payload looks as if it began with a start code exactly when its first unit has one byte, or 256 to 511. It is
      accepted all the same. */
  lemma {:induction false} StartCodeLookalike(nals: seq<seq<Byte>>)
    requires nals != [] && forall i :: 0 <= i < |nals| ==> Nal(nals[i])
    ensures StartCode(Framed(nals)) <==> |nals[0]| == 1 || 256 <= |nals[0]| <= 511
    ensures Avc(Framed(nals))
  {
    FramedHead(nals);
    assert FramesTo(nals, Framed(nals));
    var f := Framed(nals);
    var v := Read32(f);
    assert f[..4] == Be32(v) by { BeRead32(f[..4]); }
    assert f[0] == v / 16777216 && f[1] == v / 65536 % 256 && f[2] == v / 256 % 256 && f[3] == v % 256;
    FirstBytes(v);
  }

  lemma {:induction false} FirstBytes(v: int)
    requires 0 < v <= UINT32_MAX
    ensures v / 16777216 == 0 && v / 65536 % 256 == 0 && v / 256 % 256 == 1 <==> 256 <= v <= 511
    ensures v / 16777216 == 0 && v / 65536 % 256 == 0 && v / 256 % 256 == 0 && v % 256 == 1 <==> v == 1
  {
    assert v / 65536 == v / 16777216 * 256 + v / 65536 % 256;
    assert v / 256 == v / 65536 * 256 + v / 256 % 256;
  }

  // Tags.

  datatype FlvTag = FlvTag(kind: Kind, time: int, keyframe: bool, drain: bool, payload: seq<Byte>) {
    predicate Serializable() { 0 <= time <= UINT32_MAX && |payload| <= MAX_PAYLOAD }
  }

  /** What a tag says on the wire. */
  datatype WireTag = WireTag(kind: Kind, time: int, payload: seq<Byte>)

  function OnWire(t: FlvTag): WireTag { WireTag(t.kind, t.time, t.payload) }

  const FILE_HEADER: seq<Byte> := [0x46, 0x4c, 0x56, 0x01, 0x05, 0x00, 0x00, 0x00, 0x09, 0x00, 0x00, 0x00, 0x00]

  function TypeByte(kind: Kind): Byte { if kind.Audio? then 8 else 9 }

  function Serialize(t: FlvTag): (r: seq<Byte>)
    requires t.Serializable()
    ensures |r| == 15 + |t.payload|
  {
    [TypeByte(t.kind)] + Be24(|t.payload|) + Be24(t.time % 16777216) + [t.time / 16777216] + Be24(0) + t.payload + Be32(11 + |t.payload|)
  }

  function SerializeAll(tags: seq<FlvTag>): seq<Byte>
    requires forall i :: 0 <= i < |tags| ==> tags[i].Serializable()
  {
    if tags == [] then [] else Serialize(tags[0]) + SerializeAll(tags[1..])
  }

  /** A reader of the tag stream: tag header, payload, and the size of the tag behind it. */
  function Parse(b: seq<Byte>): Option<seq<WireTag>>
    decreases |b|
  {
    if b == [] then Some([])
    else if |b| < 15 || |b| < 15 + Read24(b[1..]) then None
    else
      var n := Read24(b[1..]);
      if b[0] !in {8, 9} || Read24(b[8..]) != 0 || Read32(b[11 + n..]) != 11 + n then None
      else
        var rest := Parse(b[15 + n..]);
        if rest.None? then None
        else Some([WireTag(if b[0] == 8 then Audio else Video, (b[7] as int) * 16777216 + Read24(b[4..]), b[11..11 + n])] + rest.value)
  }

  function ParseFile(b: seq<Byte>): Option<seq<WireTag>> {
    if FILE_HEADER <= b then Parse(b[|FILE_HEADER|..]) else None
  }

  function Wire(tags: seq<FlvTag>): (r: seq<WireTag>)
    ensures |r| == |tags| && forall i :: 0 <= i < |r| ==> r[i] == OnWire(tags[i])
  {
    if tags == [] then [] else [OnWire(tags[0])] + Wire(tags[1..])
  }

  /** The fields of a serialized tag stand where the reader looks for them. */
  lemma {:induction false} SerializedFields(t: FlvTag, rest: seq<Byte>)
    requires t.Serializable()
    ensures var b, n := Serialize(t) + rest, |t.payload|;
      && |b| >= 15 + n && b[0] == TypeByte(t.kind) && Read24(b[1..]) == n && Read24(b[4..]) == t.time % 16777216
      && b[7] == t.time / 16777216 && Read24(b[8..]) == 0 && b[11..11 + n] == t.payload
      && Read32(b[11 + n..]) == 11 + n && b[15 + n..] == rest
  {
    hide Be24, Be32, Read24, Read32;
    var n := |t.payload|;
    var b := Serialize(t) + rest;
    ReadBe24(n);
    ReadBe24(t.time % 16777216);
    ReadBe24(0);
    ReadBe32(11 + n);
    assert b[1..][..3] == Be24(n);
    assert b[4..][..3] == Be24(t.time % 16777216);
    assert b[8..][..3] == Be24(0);
    assert b[11 + n..][..4] == Be32(11 + n);
    Front24(b[1..]);
    Front24(b[4..]);
    Front24(b[8..]);
    Front32(b[11 + n..]);
  }

  lemma {:induction false} Front24(b: seq<Byte>)
    requires |b| >= 3
    ensures Read24(b) == Read24(b[..3])
  {}

  lemma {:induction false} Front32(b: seq<Byte>)
    requires |b| >= 4
    ensures Read32(b) == Read32(b[..4])
  {}

  /** Reading what was written gives every tag back. */
  lemma {:induction false} ParseSerialized(tags: seq<FlvTag>)
    requires forall i :: 0 <= i < |tags| ==> tags[i].Serializable()
    ensures Parse(SerializeAll(tags)) == Some(Wire(tags))
  {
    hide Serialize, Read24, Read32;
    if tags != [] {
      SerializedFields(tags[0], SerializeAll(tags[1..]));
      ParseSerialized(tags[1..]);
      assert tags[0].time / 16777216 * 16777216 + tags[0].time % 16777216 == tags[0].time;
    }
  }

  lemma {:induction false} FileRoundTrip(tags: seq<FlvTag>)
    requires forall i :: 0 <= i < |tags| ==> tags[i].Serializable()
    ensures ParseFile(FILE_HEADER + SerializeAll(tags)) == Some(Wire(tags))
  {
    ParseSerialized(tags);
    assert (FILE_HEADER + SerializeAll(tags))[|FILE_HEADER|..] == SerializeAll(tags);
  }

  // The session muxer.

  /** C++ division: towards zero. */
  function Quotient(a: int, b: int): int
    requires b > 0
  {
    if a >= 0 then a / b else -((-a) / b)
  }

  function Composition(p: Packet): int { Quotient(p.pts - p.dts, 1000) }

  /** The low 24 bits, read as a signed number. */
  function Signed24(v: int): int { if v < 8388608 then v else v - 16777216 }

  /** Everything the muxer checks of one packet but its place in time. */
  ghost predicate Muxable(p: Packet) {
    && p.payload != []
    && (p.kind.Video? ==> Avc(p.payload) && MIN_COMPOSITION <= Composition(p) <= MAX_COMPOSITION)
    && |p.payload| <= MAX_PAYLOAD - (if p.kind.Video? then 5 else 2)
  }

  /** The timeline of a session: the first and the last decode time. */
  datatype Clock = Clock(base: int, last: int)

  function After(c: Option<Clock>, p: Packet): Clock {
    Clock(if c.Some? then c.value.base else p.dts, p.dts)
  }

  ghost predicate InTime(c: Option<Clock>, p: Packet) {
    && (c.Some? ==> c.value.last <= p.dts)
    && 0 <= p.dts - After(c, p).base && (p.dts - After(c, p).base) / 1000 <= UINT32_MAX
  }

  function ClockAfter(c: Option<Clock>, packets: seq<Packet>): Option<Clock> {
    if packets == [] then c else Some(After(ClockAfter(c, packets[..|packets| - 1]), packets[|packets| - 1]))
  }

  /** A batch is accepted if each packet is muxable and comes in time after those before it. */
  ghost predicate Accepted(c: Option<Clock>, packets: seq<Packet>) {
    forall i :: 0 <= i < |packets| ==> Muxable(packets[i]) && InTime(ClockAfter(c, packets[..i]), packets[i])
  }

  /** What a tag must say of its packet. */
  predicate Carries(t: FlvTag, p: Packet, base: int) {
    && t.Serializable() && t.kind == p.kind && t.time == Timeline.WireTime(p.dts, base) && t.drain == p.drain
    && (p.kind.Video? ==>
          && t.keyframe == p.keyframe && |t.payload| >= 5 && t.payload[5..] == p.payload
          && t.payload[0] == (if p.keyframe then 0x17 else 0x27) && t.payload[1] == 1
          && Signed24(Read24(t.payload[2..])) == Composition(p))
    && (p.kind.Audio? ==> !t.keyframe && t.payload == [0xaf, 1] + p.payload)
  }

  /** A reader of the tag has the time of its picture, and when it is shown after that, up to the millisecond that is cut off
      towards zero. */
  lemma {:induction false} ReadsTimes(t: FlvTag, p: Packet, base: int)
    requires Carries(t, p, base) && p.kind.Video? && base <= p.dts
    ensures 1000 * t.time <= p.dts - base < 1000 * t.time + 1000
    ensures var shown, gap := Signed24(Read24(t.payload[2..])), p.pts - p.dts;
      if gap >= 0 then 1000 * shown <= gap < 1000 * shown + 1000 else 1000 * shown - 1000 < gap <= 1000 * shown
  {
    hide Read24, Signed24;
    Truncates(p.pts - p.dts);
  }

  lemma {:induction false} Truncates(a: int)
    ensures var q := Quotient(a, 1000); if a >= 0 then 1000 * q <= a < 1000 * q + 1000 else 1000 * q - 1000 < a <= 1000 * q
  {
    if a < 0 { assert (-a) / 1000 * 1000 <= -a < (-a) / 1000 * 1000 + 1000; }
  }

  function Tag(p: Packet, base: int): (t: FlvTag)
    requires 0 <= p.dts - base && (p.dts - base) / 1000 <= UINT32_MAX
    requires p.kind.Video? ==> MIN_COMPOSITION <= Composition(p) <= MAX_COMPOSITION
    requires |p.payload| <= MAX_PAYLOAD - (if p.kind.Video? then 5 else 2)
    ensures Carries(t, p, base)
  {
    ReadBe24(Composition(p) % 16777216);
    var head: seq<Byte> := if p.kind.Video? then [if p.keyframe then 0x17 else 0x27, 1] + Be24(Composition(p) % 16777216) else [0xaf, 1];
    FlvTag(p.kind, (p.dts - base) / 1000, p.kind.Video? && p.keyframe, p.drain, head + p.payload)
  }

  lemma {:induction false} ClockAfterSnoc(c: Option<Clock>, packets: seq<Packet>, i: nat)
    requires i < |packets|
    ensures ClockAfter(c, packets[..i + 1]) == Some(After(ClockAfter(c, packets[..i]), packets[i]))
  {
    assert packets[..i + 1][..i] == packets[..i];
  }

  lemma {:induction false} AcceptedSnoc(c: Option<Clock>, packets: seq<Packet>, i: nat)
    requires i < |packets|
    ensures Accepted(c, packets[..i + 1]) <==>
      Accepted(c, packets[..i]) && Muxable(packets[i]) && InTime(ClockAfter(c, packets[..i]), packets[i])
    ensures Accepted(c, packets) ==> Accepted(c, packets[..i + 1])
  {
    hide Muxable, InTime, ClockAfter;
    var s := packets[..i + 1];
    assert forall k :: 0 <= k <= i ==> s[..k] == packets[..k] && s[k] == packets[k];
    assert forall k :: 0 <= k < i ==> packets[..i][..k] == packets[..k] && packets[..i][k] == packets[k];
    if Accepted(c, s) {
      assert Muxable(s[i]) && InTime(ClockAfter(c, s[..i]), s[i]);
      forall k | 0 <= k < i ensures Muxable(packets[..i][k]) && InTime(ClockAfter(c, packets[..i][..k]), packets[..i][k]) {
        assert Muxable(s[k]) && InTime(ClockAfter(c, s[..k]), s[k]);
      }
    }
    if Accepted(c, packets[..i]) && Muxable(packets[i]) && InTime(ClockAfter(c, packets[..i]), packets[i]) {
      forall k | 0 <= k < |s| ensures Muxable(s[k]) && InTime(ClockAfter(c, s[..k]), s[k]) {
        if k < i { assert Muxable(packets[..i][k]) && InTime(ClockAfter(c, packets[..i][..k]), packets[..i][k]); }
      }
    }
    if Accepted(c, packets) {
      forall k | 0 <= k < |s| ensures Muxable(s[k]) && InTime(ClockAfter(c, s[..k]), s[k]) {
        assert Muxable(packets[k]) && InTime(ClockAfter(c, packets[..k]), packets[k]);
      }
    }
  }

  predicate CarriesAll(tags: seq<FlvTag>, packets: seq<Packet>, base: int) {
    |tags| == |packets| && forall i :: 0 <= i < |packets| ==> Carries(tags[i], packets[i], base)
  }

  /** All tags of a session: their times never go back, and the last one is that of the clock. */
  predicate Session(muxed: seq<FlvTag>, c: Option<Clock>) {
    && (forall i, j :: 0 <= i < j < |muxed| ==> muxed[i].time <= muxed[j].time)
    && (forall i :: 0 <= i < |muxed| ==> muxed[i].Serializable())
    && (c.None? ==> muxed == [])
    && (c.Some? ==> c.value.base <= c.value.last)
    && (c.Some? && muxed != [] ==> muxed[|muxed| - 1].time == Timeline.WireTime(c.value.last, c.value.base))
  }

  lemma {:induction false} SessionSnoc(muxed: seq<FlvTag>, c: Option<Clock>, p: Packet, t: FlvTag)
    requires Session(muxed, c) && InTime(c, p) && Carries(t, p, After(c, p).base)
    ensures Session(muxed + [t], Some(After(c, p)))
  {
    var u := muxed + [t];
    if muxed != [] {
      assert muxed[|muxed| - 1].time <= t.time;
      forall i, j | 0 <= i < j < |u| ensures u[i].time <= u[j].time {
        if j == |muxed| && i < |muxed| - 1 { assert muxed[i].time <= muxed[|muxed| - 1].time; }
      }
    }
  }

  /** Checks one packet and makes its tag. */
  method MuxOne(c: Option<Clock>, p: Packet) returns (t: Option<FlvTag>)
    ensures t.Some? <==> Muxable(p) && InTime(c, p)
    ensures t.Some? ==> Carries(t.value, p, After(c, p).base)
  {
    hide Avc, Carries;
    if p.payload == [] { return None; }
    if p.kind.Video? {
      var avc := ValidateAvc(p.payload);
      if !avc { return None; }
    }
    if |p.payload| > MAX_PAYLOAD - (if p.kind.Video? then 5 else 2) { return None; }
    if c.Some? && p.dts < c.value.last { return None; }
    var next := After(c, p);
    if p.dts - next.base < 0 || (p.dts - next.base) / 1000 > UINT32_MAX { return None; }
    if p.kind.Video? && (Composition(p) < MIN_COMPOSITION || Composition(p) > MAX_COMPOSITION) { return None; }
    return Some(Tag(p, next.base));
  }

  /** The decode time that a session counts from. */
  function BaseOf(c: Option<Clock>, packets: seq<Packet>): int {
    if c.Some? then c.value.base else if packets == [] then 0 else packets[0].dts
  }

  class FlvMuxer {
    var headers: CodecHeaders
    var clock: Option<Clock>
    ghost var muxed: seq<FlvTag>        // everything the session put out

    ghost predicate Valid()
      reads this
    {
      Session(muxed, clock)
    }

    constructor (headers: CodecHeaders)
      ensures Valid() && this.headers == headers && clock == None && muxed == []
    {
      this.headers, clock, muxed := headers, None, [];
    }

    /** mux: all packets of an acceptable batch become tags; of any other batch nothing remains. */
    method Mux(packets: seq<Packet>) returns (tags: Option<seq<FlvTag>>)
      requires Valid()
      modifies this`clock, this`muxed
      ensures Valid()
      ensures tags.Some? <==> Accepted(old(clock), packets)
      ensures tags.None? ==> clock == old(clock) && muxed == old(muxed)
      ensures tags.Some? ==> clock == ClockAfter(old(clock), packets) && muxed == old(muxed) + tags.value
      ensures tags.Some? && packets != [] ==> clock.Some? && CarriesAll(tags.value, packets, clock.value.base)
    {
      hide Accepted, Session, Muxable, InTime, Carries, ClockAfter;
      ClockNone(clock);
      var current, result: seq<FlvTag> := clock, [];
      assert muxed + [] == muxed;
      var i := 0;
      while i < |packets|
        invariant 0 <= i <= |packets| && current == ClockAfter(clock, packets[..i])
        invariant i == 0 ==> current == clock
        invariant i > 0 ==> current.Some? && current.value.base == BaseOf(clock, packets)
        invariant Accepted(clock, packets[..i]) && Session(muxed + result, current)
        invariant CarriesAll(result, packets[..i], BaseOf(clock, packets))
        modifies {}
      {
        ClockAfterSnoc(clock, packets, i);
        AcceptedSnoc(clock, packets, i);
        var t := MuxOne(current, packets[i]);
        if t.None? { return None; }
        SessionSnoc(muxed + result, current, packets[i], t.value);
        assert muxed + (result + [t.value]) == muxed + result + [t.value];
        result, current := result + [t.value], Some(After(current, packets[i]));
        i := i + 1;
      }
      assert packets[..i] == packets;
      clock, muxed := current, muxed + result;
      tags := Some(result);
    }

    lemma {:induction false} ClockNone(c: Option<Clock>)
      ensures ClockAfter(c, []) == c && Accepted(c, [])
    {}

    method ResetTimeline()
      requires Valid()
      modifies this`clock, this`muxed
      ensures Valid() && clock == None && muxed == []
    {
      clock, muxed := None, [];
    }

    method SetHeaders(h: CodecHeaders) returns (ok: bool)
      requires Valid()
      modifies this`headers
      ensures Valid() && ok == (h.avc != [] && h.aac != []) && headers == if ok then h else old(headers)
    {
      ok := h.avc != [] && h.aac != [];
      if ok { headers := h; }
    }
  }
}
