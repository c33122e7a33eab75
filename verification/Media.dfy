/** Values shared by every stage of the pipeline: encoded packets, codec headers and a few sequence helpers. */
module Media {

  type Byte = x: int | 0 <= x < 256

  const INT64_MAX: int := 0x7fff_ffff_ffff_ffff
  const INT64_MIN: int := -0x8000_0000_0000_0000

  datatype Option<+T> = None | Some(value: T)

  datatype Kind = Video | Audio

  /** One encoded packet. Times are microseconds; `drain` marks independent silence made by the coordinator. */
  datatype Packet = Packet(kind: Kind, payload: seq<Byte>, pts: int, dts: int, keyframe: bool, drain: bool) {
    predicate KeyVideo() { kind.Video? && keyframe }
  }

  datatype CodecHeaders = CodecHeaders(avc: seq<Byte>, aac: seq<Byte>)

  function Max(a: int, b: int): int { if a < b then b else a }

  function Min(a: int, b: int): int { if a < b then a else b }

  /** Total payload size of a list of packets. */
  function Bytes(s: seq<Packet>): nat
  {
    if s == [] then 0 else |s[0].payload| + Bytes(s[1..])
  }

  lemma {:induction false} BytesConcat(a: seq<Packet>, b: seq<Packet>)
    ensures Bytes(a + b) == Bytes(a) + Bytes(b)
  {
    if a == [] {
      assert a + b == b;
    } else {
      assert (a + b)[1..] == a[1..] + b;
      BytesConcat(a[1..], b);
    }
  }

  /** Decode times never go back. */
  predicate Ordered(s: seq<Packet>) {
    forall i, j :: 0 <= i < j < |s| ==> s[i].dts <= s[j].dts
  }
}
