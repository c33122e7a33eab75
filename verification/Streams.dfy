/** The video and the audio stream inside a list of packets. */
module Streams {
  import opened Media
  import opened Sorting

  function OfKind(s: seq<Packet>, kind: Kind): seq<Packet> {
    if s == [] then []
    else OfKind(s[..|s| - 1], kind) + if s[|s| - 1].kind == kind then [s[|s| - 1]] else []
  }

  lemma {:induction false} OfKindSnoc(s: seq<Packet>, x: Packet, kind: Kind)
    ensures OfKind(s + [x], kind) == OfKind(s, kind) + if x.kind == kind then [x] else []
  {
    assert (s + [x])[..|s|] == s;
  }

  lemma {:induction false} OfKindConcat(a: seq<Packet>, b: seq<Packet>, kind: Kind)
    ensures OfKind(a + b, kind) == OfKind(a, kind) + OfKind(b, kind)
  {
    if b == [] {
      assert a + b == a;
    } else {
      assert (a + b)[..|a + b| - 1] == a + b[..|b| - 1];
      OfKindConcat(a, b[..|b| - 1], kind);
    }
  }

  lemma {:induction false} OfKindCons(x: Packet, s: seq<Packet>)
    ensures forall kind :: OfKind([x] + s, kind) == (if x.kind == kind then [x] else []) + OfKind(s, kind)
  {
    forall kind ensures OfKind([x] + s, kind) == (if x.kind == kind then [x] else []) + OfKind(s, kind) {
      OfKindConcat([x], s, kind);
      assert [x][..0] == [];
    }
  }

  /** Every packet is part of its stream. */
  lemma {:induction false} OfKindAt(s: seq<Packet>, i: nat) returns (k: nat)
    requires i < |s|
    ensures k < |OfKind(s, s[i].kind)| && OfKind(s, s[i].kind)[k] == s[i]
  {
    if i == |s| - 1 { k := |OfKind(s[..i], s[i].kind)|; } else { k := OfKindAt(s[..|s| - 1], i); }
  }

  lemma {:induction false} OfKindKinds(s: seq<Packet>, kind: Kind)
    ensures forall i :: 0 <= i < |OfKind(s, kind)| ==> OfKind(s, kind)[i].kind == kind
  {
    if s != [] { OfKindKinds(s[..|s| - 1], kind); }
  }

  /** Decode time, then video before audio. */
  function Rank(p: Packet): int { 2 * p.dts + if p.kind.Audio? then 1 else 0 }

  function IsVideo(p: Packet): bool { p.kind.Video? }

  function IsAudio(p: Packet): bool { p.kind.Audio? }

  function IsKind(kind: Kind): Packet -> bool { if kind.Video? then IsVideo else IsAudio }

  lemma {:induction false} OfKindIsSelect(s: seq<Packet>, kind: Kind)
    ensures OfKind(s, kind) == Select(IsKind(kind), s)
  {
    if s != [] { OfKindIsSelect(s[..|s| - 1], kind); }
  }

  /** Sorting keeps a stream that is already in rank order. */
  lemma {:induction false} SortKeepsStream(rank: Packet -> int, s: seq<Packet>, kind: Kind)
    requires SortedBy(rank, OfKind(s, kind))
    ensures OfKind(StableSort(rank, s), kind) == OfKind(s, kind)
  {
    OfKindIsSelect(s, kind);
    OfKindIsSelect(StableSort(rank, s), kind);
    StableSortSelect(rank, IsKind(kind), s);
  }
}
