/** Two encoder streams are merged behind a watermark. What leaves the merge is a function of the two streams alone: it does
    not depend on the order in which their callbacks arrive. */
module Interleaver {
  import opened Media
  import opened Streams
  import opened Timeline

  const INGRESS_BYTES: int := 16 * 1024 * 1024
  const INGRESS_PACKETS: int := 4096
  const INTERLEAVE_BUDGET: int := 5000000

  predicate Increasing(s: seq<Packet>) {
    forall i, j :: 0 <= i < j < |s| ==> s[i].dts < s[j].dts
  }

  /** All packets of both streams by decode time, video first at equal times. */
  function Merge(v: seq<Packet>, a: seq<Packet>): seq<Packet>
    decreases |v| + |a|
  {
    if v == [] && a == [] then []
    else if VideoFirst(v, a) then [v[0]] + Merge(v[1..], a)
    else [a[0]] + Merge(v, a[1..])
  }

  predicate VideoFirst(v: seq<Packet>, a: seq<Packet>) {
    a == [] || (v != [] && v[0].dts <= a[0].dts)
  }

  /** How many leading packets lie before the limit. */
  function Cut(s: seq<Packet>, limit: int): (k: nat)
    ensures k <= |s| && (forall i :: 0 <= i < k ==> s[i].dts < limit) && (k < |s| ==> limit <= s[k].dts)
  {
    if s == [] || s[0].dts >= limit then 0 else 1 + Cut(s[1..], limit)
  }

  function Before(s: seq<Packet>, limit: int): seq<Packet> { s[..Cut(s, limit)] }

  function From(s: seq<Packet>, limit: int): seq<Packet> { s[Cut(s, limit)..] }

  function LastDts(s: seq<Packet>): Option<int> {
    if s == [] then None else Some(s[|s| - 1].dts)
  }

  /** Everything strictly before the last packet of the slower stream may be released; nothing before both streams started. */
  function Released(v: seq<Packet>, a: seq<Packet>): seq<Packet> {
    if v == [] || a == [] then []
    else var w := Min(v[|v| - 1].dts, a[|a| - 1].dts); Merge(Before(v, w), Before(a, w))
  }

  function Held(s: seq<Packet>, v: seq<Packet>, a: seq<Packet>): seq<Packet> {
    if v == [] || a == [] then s else From(s, Min(v[|v| - 1].dts, a[|a| - 1].dts))
  }

  lemma {:induction false} CutIs(s: seq<Packet>, limit: int, k: nat)
    requires Increasing(s) && k <= |s|
    requires k > 0 ==> s[k - 1].dts < limit
    requires k < |s| ==> limit <= s[k].dts
    ensures Cut(s, limit) == k
  {}

  lemma {:induction false} Split(s: seq<Packet>, limit: int)
    requires Increasing(s)
    ensures s == Before(s, limit) + From(s, limit)
    ensures forall i :: 0 <= i < |From(s, limit)| ==> limit <= From(s, limit)[i].dts
    ensures Increasing(Before(s, limit)) && Increasing(From(s, limit))
  {}

  /** A later limit takes more from what was held back. */
  lemma {:induction false} SplitAgain(s: seq<Packet>, w: int, w': int)
    requires Increasing(s) && w <= w'
    ensures Before(s, w') == Before(s, w) + Before(From(s, w), w')
    ensures From(s, w') == From(From(s, w), w')
  {
    hide Cut, Increasing;
    var k, m := Cut(s, w), Cut(From(s, w), w');
    CutAgain(s, w, w');
    assert s[..k] + s[k..][..m] == s[..k + m] && s[k..][m..] == s[k + m..];
  }

  lemma {:induction false} CutAgain(s: seq<Packet>, w: int, w': int)
    requires Increasing(s) && w <= w'
    ensures Cut(s, w') == Cut(s, w) + Cut(From(s, w), w')
  {
    CutIs(s, w', Cut(s, w) + Cut(From(s, w), w'));
  }

  lemma {:induction false} BeforeSnoc(s: seq<Packet>, x: Packet, w: int)
    requires Increasing(s + [x]) && w <= x.dts
    ensures Before(s + [x], w) == Before(s, w) && From(s + [x], w) == From(s, w) + [x]
  {
    var u := s + [x];
    assert forall i :: 0 <= i < |s| ==> u[i] == s[i];
    CutIs(u, w, Cut(s, w));
  }

  predicate AllBefore(s: seq<Packet>, w: int) { forall i :: 0 <= i < |s| ==> s[i].dts < w }

  predicate StartsAt(s: seq<Packet>, w: int) { s != [] ==> w <= s[0].dts }

  /** Which stream comes first is decided by the front parts, as long as one is left. */
  lemma {:induction false} FrontDecides(p: seq<Packet>, q: seq<Packet>, v: seq<Packet>, a: seq<Packet>, w: int)
    requires AllBefore(p, w) && AllBefore(q, w) && StartsAt(v, w) && StartsAt(a, w) && (p != [] || q != [])
    ensures VideoFirst(p + v, q + a) == VideoFirst(p, q) && (if VideoFirst(p, q) then p != [] else q != [])
  {
    if p == [] { assert p + v == v; }
    if q == [] { assert q + a == a; }
  }

  lemma {:induction false} Behead(p: seq<Packet>, v: seq<Packet>, w: int)
    requires p != [] && AllBefore(p, w)
    ensures p + v != [] && (p + v)[0] == p[0] && (p + v)[1..] == p[1..] + v && AllBefore(p[1..], w)
  {}

  lemma {:induction false} ConsConcat(x: Packet, s: seq<Packet>, t: seq<Packet>)
    ensures [x] + (s + t) == [x] + s + t
  {}

  /** Merging in two steps, when the first parts lie before the second. */
  lemma {:induction false} MergeSplit(p: seq<Packet>, q: seq<Packet>, v: seq<Packet>, a: seq<Packet>, w: int)
    requires AllBefore(p, w) && AllBefore(q, w) && StartsAt(v, w) && StartsAt(a, w)
    ensures Merge(p + v, q + a) == Merge(p, q) + Merge(v, a)
    decreases |p| + |q|
  {
    hide Merge, AllBefore, StartsAt, VideoFirst;
    if p == [] && q == [] {
      MergeNothing(v, a);
      assert p + v == v && q + a == a;
    } else {
      FrontDecides(p, q, v, a, w);
      if VideoFirst(p, q) {
        Behead(p, v, w);
        MergeSplit(p[1..], q, v, a, w);
        ConsConcat(p[0], Merge(p[1..], q), Merge(v, a));
      } else {
        Behead(q, a, w);
        MergeSplit(p, q[1..], v, a, w);
        ConsConcat(q[0], Merge(p, q[1..]), Merge(v, a));
      }
      MergeStep(p + v, q + a);
      MergeStep(p, q);
    }
  }

  lemma {:induction false} MergeNothing(v: seq<Packet>, a: seq<Packet>)
    ensures Merge([], []) == [] && [] + Merge(v, a) == Merge(v, a)
  {}

  lemma {:induction false} MergeStep(v: seq<Packet>, a: seq<Packet>)
    requires v != [] || a != []
    ensures Merge(v, a) == if VideoFirst(v, a) then [v[0]] + Merge(v[1..], a) else [a[0]] + Merge(v, a[1..])
  {}

  /** The merge keeps each stream. */
  lemma {:induction false} MergeKeepsStreams(v: seq<Packet>, a: seq<Packet>)
    requires forall i :: 0 <= i < |v| ==> v[i].kind.Video?
    requires forall i :: 0 <= i < |a| ==> a[i].kind.Audio?
    ensures OfKind(Merge(v, a), Video) == v && OfKind(Merge(v, a), Audio) == a
    decreases |v| + |a|
  {
    hide Merge, OfKind;
    if v == [] && a == [] {
      MergeNothing(v, a);
      NothingRanked();
    } else if VideoFirst(v, a) {
      MergeStep(v, a);
      MergeKeepsStreams(v[1..], a);
      OfKindCons(v[0], Merge(v[1..], a));
      assert v == [v[0]] + v[1..];
    } else {
      MergeStep(v, a);
      MergeKeepsStreams(v, a[1..]);
      OfKindCons(a[0], Merge(v, a[1..]));
      assert a == [a[0]] + a[1..];
    }
  }

  lemma {:induction false} MergeMembers(v: seq<Packet>, a: seq<Packet>)
    ensures forall x :: x in Merge(v, a) <==> x in v || x in a
    decreases |v| + |a|
  {
    if v == [] && a == [] {
    } else if VideoFirst(v, a) {
      MergeMembers(v[1..], a);
      assert v == [v[0]] + v[1..];
    } else {
      MergeMembers(v, a[1..]);
      assert a == [a[0]] + a[1..];
    }
  }

  /** The merge is in rank order. */
  lemma {:induction false} MergeIsOrdered(v: seq<Packet>, a: seq<Packet>)
    requires Increasing(v) && Increasing(a)
    requires forall i :: 0 <= i < |v| ==> v[i].kind.Video?
    requires forall i :: 0 <= i < |a| ==> a[i].kind.Audio?
    ensures Ranked(Merge(v, a))
    decreases |v| + |a|
  {
    if v == [] && a == [] {
    } else if VideoFirst(v, a) {
      MergeIsOrdered(v[1..], a);
      MergeMembers(v[1..], a);
      HeadFirst(v[0], v[1..], a, Merge(v[1..], a));
    } else {
      MergeIsOrdered(v, a[1..]);
      MergeMembers(v, a[1..]);
      HeadFirst(a[0], a[1..], v, Merge(v, a[1..]));
    }
  }

  predicate Ranked(s: seq<Packet>) {
    forall i, j :: 0 <= i < j < |s| ==> Rank(s[i]) < Rank(s[j])
  }

  lemma {:induction false} HeadFirst(x: Packet, own: seq<Packet>, other: seq<Packet>, rest: seq<Packet>)
    requires forall y :: y in rest <==> y in own || y in other
    requires forall i :: 0 <= i < |own| ==> Rank(x) < Rank(own[i])
    requires forall i :: 0 <= i < |other| ==> Rank(x) < Rank(other[i])
    ensures forall i :: 0 <= i < |rest| ==> Rank(x) < Rank(rest[i])
  {
    forall i | 0 <= i < |rest| ensures Rank(x) < Rank(rest[i]) { assert rest[i] in rest; }
  }

  // Arrival of one packet.

  /** What a new packet of one stream releases, and what stays held. */
  lemma {:induction false} Arrival(v: seq<Packet>, a: seq<Packet>, v': seq<Packet>, a': seq<Packet>, x: Packet)
    requires Increasing(v') && Increasing(a')
    requires if x.kind.Video? then v' == v + [x] && a' == a else a' == a + [x] && v' == v
    requires v' != [] && a' != []
    ensures var w := Min(v'[|v'| - 1].dts, a'[|a'| - 1].dts);
      var vq := if x.kind.Video? then Held(v, v, a) + [x] else Held(v, v, a);
      var aq := if x.kind.Video? then Held(a, v, a) else Held(a, v, a) + [x];
      && Increasing(vq) && Increasing(aq)
      && Released(v', a') == Released(v, a) + Merge(Before(vq, w), Before(aq, w))
      && Held(v', v', a') == From(vq, w) && Held(a', v', a') == From(aq, w)
  {
    hide Cut, Merge, Before, From;
    var w' := Min(v'[|v'| - 1].dts, a'[|a'| - 1].dts);
    if v == [] || a == [] {
      assert [] + Merge(Before(v', w'), Before(a', w')) == Merge(Before(v', w'), Before(a', w'));
      if x.kind.Video? { assert v' == Held(v, v, a) + [x]; } else { assert a' == Held(a, v, a) + [x]; }
    } else {
      var w := Min(v[|v| - 1].dts, a[|a| - 1].dts);
      if x.kind.Video? {
        assert v'[|v| - 1] == v[|v| - 1] && v'[|v|] == x;
        BeforeSnoc(v, x, w);
      } else {
        assert a'[|a| - 1] == a[|a| - 1] && a'[|a|] == x;
        BeforeSnoc(a, x, w);
      }
      LaterLimit(v', a', w, w');
    }
  }

  lemma {:induction false} LaterLimit(v: seq<Packet>, a: seq<Packet>, w: int, w': int)
    requires Increasing(v) && Increasing(a) && w <= w'
    ensures Increasing(From(v, w)) && Increasing(From(a, w))
    ensures Merge(Before(v, w'), Before(a, w')) ==
            Merge(Before(v, w), Before(a, w)) + Merge(Before(From(v, w), w'), Before(From(a, w), w'))
    ensures From(v, w') == From(From(v, w), w') && From(a, w') == From(From(a, w), w')
  {
    SplitAgain(v, w, w');
    SplitAgain(a, w, w');
    Split(v, w);
    Split(a, w);
    MergeSplit(Before(v, w), Before(a, w), Before(From(v, w), w'), Before(From(a, w), w'), w);
  }

  /** Releases both queues up to the watermark, video first at equal times. */
  method Drain(video: seq<Packet>, audio: seq<Packet>, watermark: int) returns (v: seq<Packet>, a: seq<Packet>, output: seq<Packet>)
    requires Increasing(video) && Increasing(audio)
    ensures output == Merge(Before(video, watermark), Before(audio, watermark))
    ensures v == From(video, watermark) && a == From(audio, watermark)
    ensures Bytes(video) + Bytes(audio) == Bytes(v) + Bytes(a) + Bytes(output)
  {
    hide Merge, Before, From, Cut, Increasing;
    BytesNone();
    v, a, output := video, audio, [];
    while v != [] || a != []
      invariant Increasing(v) && Increasing(a)
      invariant Merge(Before(video, watermark), Before(audio, watermark)) == output + Merge(Before(v, watermark), Before(a, watermark))
      invariant From(video, watermark) == From(v, watermark) && From(audio, watermark) == From(a, watermark)
      invariant Bytes(video) + Bytes(audio) == Bytes(v) + Bytes(a) + Bytes(output)
      decreases |v| + |a|
    {
      var fromVideo := VideoFirst(v, a);
      var next := if fromVideo then v[0] else a[0];
      if next.dts >= watermark { break; }
      DrainStep(v, a, watermark);
      BytesConcat(output, [next]);
      BytesOne(next);
      output := output + [next];
      if fromVideo { v := v[1..]; } else { a := a[1..]; }
    }
    DrainEnd(v, a, watermark);
  }

  lemma {:induction false} DrainStep(v: seq<Packet>, a: seq<Packet>, w: int)
    requires Increasing(v) && Increasing(a) && (v != [] || a != [])
    requires (if VideoFirst(v, a) then v[0] else a[0]).dts < w
    ensures if VideoFirst(v, a) then
        && Merge(Before(v, w), Before(a, w)) == [v[0]] + Merge(Before(v[1..], w), Before(a, w))
        && From(v, w) == From(v[1..], w) && Increasing(v[1..])
      else
        && Merge(Before(v, w), Before(a, w)) == [a[0]] + Merge(Before(v, w), Before(a[1..], w))
        && From(a, w) == From(a[1..], w) && Increasing(a[1..])
  {
    var p, q := Before(v, w), Before(a, w);
    if VideoFirst(v, a) {
      assert p[1..] == Before(v[1..], w);
      assert VideoFirst(p, q);
    } else {
      assert q[1..] == Before(a[1..], w);
      assert !VideoFirst(p, q);
    }
    MergeStep(p, q);
  }

  lemma {:induction false} DrainEnd(v: seq<Packet>, a: seq<Packet>, w: int)
    requires (v == [] && a == []) || (if VideoFirst(v, a) then v[0] else a[0]).dts >= w
    ensures Before(v, w) == [] && Before(a, w) == [] && From(v, w) == v && From(a, w) == a
    ensures Merge(Before(v, w), Before(a, w)) == []
  {}

  /** Both queues, and everything released so far, as the arrived packets determine them. */
  ghost predicate Merged(arrived: seq<Packet>, released: seq<Packet>, vq: seq<Packet>, aq: seq<Packet>, lastVideo: Option<int>, lastAudio: Option<int>) {
    var v, a := OfKind(arrived, Video), OfKind(arrived, Audio);
    && Increasing(v) && Increasing(a)
    && lastVideo == LastDts(v) && lastAudio == LastDts(a)
    && released == Released(v, a) && vq == Held(v, v, a) && aq == Held(a, v, a)
  }

  lemma {:induction false} IncreasingSnoc(s: seq<Packet>, x: Packet)
    requires Increasing(s) && (LastDts(s).Some? ==> LastDts(s).value < x.dts)
    ensures Increasing(s + [x]) && LastDts(s + [x]) == Some(x.dts)
  {}

  /** A packet joins its stream. */
  lemma {:induction false} MergedArrival(arrived: seq<Packet>, released: seq<Packet>, vq: seq<Packet>, aq: seq<Packet>,
                                         lastVideo: Option<int>, lastAudio: Option<int>, x: Packet)
    requires Merged(arrived, released, vq, aq, lastVideo, lastAudio)
    requires var last := if x.kind.Video? then lastVideo else lastAudio; last.Some? ==> last.value < x.dts
    ensures var vq', aq' := if x.kind.Video? then vq + [x] else vq, if x.kind.Video? then aq else aq + [x];
      var lv, la := if x.kind.Video? then Some(x.dts) else lastVideo, if x.kind.Video? then lastAudio else Some(x.dts);
      && Increasing(vq') && Increasing(aq')
      && (lv.None? || la.None? ==> Merged(arrived + [x], released, vq', aq', lv, la))
      && (lv.Some? && la.Some? ==>
            var w := Min(lv.value, la.value);
            Merged(arrived + [x], released + Merge(Before(vq', w), Before(aq', w)), From(vq', w), From(aq', w), lv, la))
  {
    hide OfKind, Merge, Released, Held, Cut, Increasing, Before, From;
    var v, a := OfKind(arrived, Video), OfKind(arrived, Audio);
    OfKindSnoc(arrived, x, Video);
    OfKindSnoc(arrived, x, Audio);
    var v', a' := OfKind(arrived + [x], Video), OfKind(arrived + [x], Audio);
    assert v + [] == v && a + [] == a;
    if x.kind.Video? { IncreasingSnoc(v, x); } else { IncreasingSnoc(a, x); }
    ArrivalCases(v, a, v', a', x);
  }

  lemma {:induction false} ArrivalCases(v: seq<Packet>, a: seq<Packet>, v': seq<Packet>, a': seq<Packet>, x: Packet)
    requires Increasing(v') && Increasing(a') && Increasing(v) && Increasing(a)
    requires if x.kind.Video? then v' == v + [x] && a' == a else a' == a + [x] && v' == v
    ensures var vq := if x.kind.Video? then Held(v, v, a) + [x] else Held(v, v, a);
      var aq := if x.kind.Video? then Held(a, v, a) else Held(a, v, a) + [x];
      && Increasing(vq) && Increasing(aq)
      && (v' == [] || a' == [] ==> Released(v', a') == Released(v, a) && vq == Held(v', v', a') && aq == Held(a', v', a'))
      && (v' != [] && a' != [] ==>
            var w := Min(v'[|v'| - 1].dts, a'[|a'| - 1].dts);
            && Released(v', a') == Released(v, a) + Merge(Before(vq, w), Before(aq, w))
            && Held(v', v', a') == From(vq, w) && Held(a', v', a') == From(aq, w))
  {
    hide Merge, Before, From, Cut;
    if v' != [] && a' != [] { Arrival(v, a, v', a', x); }
  }

  lemma {:induction false} BytesOne(x: Packet)
    ensures Bytes([x]) == |x.payload|
  {}

  lemma {:induction false} BytesNone()
    ensures Bytes([]) == 0
  {}

  /** The capture side of the pipeline owner. */
  class Ingress {
    var videoIngress: seq<Packet>
    var audioIngress: seq<Packet>
    var packets: seq<Packet>            // merged, for the owner's worker to take
    var videoInput: Option<int>
    var audioInput: Option<int>
    var captureFloor: Option<int>
    var ingressBytes: int
    var packetBytes: int
    var captureEpoch: nat
    var stopping: bool
    var failed: bool
    ghost var arrived: seq<Packet>      // accepted since capture was last revoked, in order of arrival
    ghost var taken: seq<Packet>        // merged and taken since then

    /** What left the merge is determined by the two streams. */
    ghost predicate Valid()
      reads this
    {
      !failed ==>
        && Merged(arrived, taken + packets, videoIngress, audioIngress, videoInput, audioInput)
        && ingressBytes == Bytes(videoIngress) + Bytes(audioIngress) && packetBytes == Bytes(packets)
        && (captureFloor.Some? ==> videoInput == None && AllAbove(arrived, captureFloor.value))
        && AllTimely(arrived)
    }

    constructor ()
      ensures Valid() && arrived == [] && taken == [] && !failed && captureEpoch == 1
    {
      hide Merged, AllTimely, AllAbove, Bytes;
      NothingMerged(0);
      BytesNone();
      videoIngress, audioIngress, packets := [], [], [];
      videoInput, audioInput, captureFloor := None, None, None;
      ingressBytes, packetBytes, captureEpoch, stopping, failed := 0, 0, 1, false, false;
      arrived, taken := [], [];
    }

    /** Media up to the floor that a dump left behind. */
    predicate BelowFloor(p: Packet)
      reads this`captureFloor
    {
      captureFloor.Some? && p.dts <= captureFloor.value
    }

    /** What fails the pipeline: bad timing, a clock that does not advance, a full queue, or a stalled peer. */
    predicate Faulty(p: Packet)
      reads this
    {
      var last := if p.kind.Video? then videoInput else audioInput;
      var queue := if p.kind.Video? then videoIngress else audioIngress;
      || !TimingOk(p)
      || (!BelowFloor(p) &&
          (|| (last.Some? && p.dts <= last.value)
           || p.payload == [] || ingressBytes + packetBytes + |p.payload| > INGRESS_BYTES || |p.payload| > INGRESS_BYTES
           || |videoIngress| + |audioIngress| + |packets| >= INGRESS_PACKETS
           || (queue != [] && p.dts - queue[0].dts > INTERLEAVE_BUDGET)))
    }

    /** enqueue_uninterleaved: false if the packet was refused; a fault latches the failure of the pipeline. Media up to the
        floor that a dump left behind is dropped until video goes on above it. */
    method Enqueue(packet: Packet, token: nat) returns (ok: bool)
      requires Valid()
      modifies this`videoIngress, this`audioIngress, this`packets, this`videoInput, this`audioInput, this`captureFloor
      modifies this`ingressBytes, this`packetBytes, this`failed, this`arrived
      ensures Valid()
      ensures ok == (!stopping && token == captureEpoch && !old(failed) && !old(Faulty(packet)))
      ensures failed == (old(failed) || (!stopping && token == captureEpoch && old(Faulty(packet))))
      ensures arrived == if ok && !old(BelowFloor(packet)) then old(arrived) + [packet] else old(arrived)
      ensures captureFloor == if ok && !old(BelowFloor(packet)) && packet.kind.Video? then None else old(captureFloor)
      ensures old(packets) <= packets
    {
      hide Merged, Bytes, AllAbove, AllTimely;
      if stopping || token != captureEpoch || failed { return false; }
      if !TimingOk(packet) { failed := true; return false; }
      if captureFloor.Some? && packet.dts <= captureFloor.value { return true; }
      var last := if packet.kind.Video? then videoInput else audioInput;
      var queue := if packet.kind.Video? then videoIngress else audioIngress;
      if last.Some? && packet.dts <= last.value { failed := true; return false; }
      if packet.payload == [] || |packet.payload| > INGRESS_BYTES || ingressBytes + packetBytes > INGRESS_BYTES - |packet.payload| ||
         |videoIngress| + |audioIngress| + |packets| >= INGRESS_PACKETS { failed := true; return false; }
      if queue != [] && packet.dts - queue[0].dts > INTERLEAVE_BUDGET { failed := true; return false; }
      Accept(packet);
      return true;
    }

    /** The packet joins its stream, and what the streams now allow is released. */
    method Accept(packet: Packet)
      requires Valid() && !failed && TimingOk(packet)
      requires var last := if packet.kind.Video? then videoInput else audioInput; last.Some? ==> last.value < packet.dts
      requires captureFloor.Some? ==> captureFloor.value < packet.dts
      modifies this`videoIngress, this`audioIngress, this`packets, this`videoInput, this`audioInput, this`captureFloor
      modifies this`ingressBytes, this`packetBytes, this`arrived
      ensures Valid() && arrived == old(arrived) + [packet] && old(packets) <= packets
      ensures captureFloor == if packet.kind.Video? then None else old(captureFloor)
    {
      hide Merged, Merge, Before, From, Increasing, Bytes, AllAbove, AllTimely;
      MergedArrival(arrived, taken + packets, videoIngress, audioIngress, videoInput, audioInput, packet);
      Grows(arrived, packet, captureFloor);
      Join(packet);
      if videoInput.Some? && audioInput.Some? {
        var v, a, released := Drain(videoIngress, audioIngress, Min(videoInput.value, audioInput.value));
        BytesConcat(packets, released);
        assert taken + packets + released == taken + (packets + released);
        ingressBytes, packetBytes := ingressBytes - Bytes(released), packetBytes + Bytes(released);
        packets := packets + released;
        videoIngress, audioIngress := v, a;
      }
    }

    /** The packet is appended to its queue. */
    method Join(packet: Packet)
      requires ingressBytes == Bytes(videoIngress) + Bytes(audioIngress)
      modifies this`videoIngress, this`audioIngress, this`videoInput, this`audioInput, this`captureFloor, this`ingressBytes, this`arrived
      ensures ingressBytes == Bytes(videoIngress) + Bytes(audioIngress) && arrived == old(arrived) + [packet]
      ensures videoIngress == (if packet.kind.Video? then old(videoIngress) + [packet] else old(videoIngress))
      ensures audioIngress == (if packet.kind.Video? then old(audioIngress) else old(audioIngress) + [packet])
      ensures videoInput == (if packet.kind.Video? then Some(packet.dts) else old(videoInput))
      ensures audioInput == (if packet.kind.Video? then old(audioInput) else Some(packet.dts))
      ensures captureFloor == if packet.kind.Video? then None else old(captureFloor)
    {
      hide Bytes;
      BytesConcat(videoIngress, [packet]);
      BytesConcat(audioIngress, [packet]);
      BytesOne(packet);
      if packet.kind.Video? {
        captureFloor, videoInput, videoIngress := None, Some(packet.dts), videoIngress + [packet];
      } else {
        audioInput, audioIngress := Some(packet.dts), audioIngress + [packet];
      }
      arrived, ingressBytes := arrived + [packet], ingressBytes + |packet.payload|;
    }

    /** Everything merged so far is in order, and its clocks are sound. */
    lemma {:induction false} MergedInOrder()
      requires Valid() && !failed
      ensures Ordered(taken + packets) && AllTimely(taken + packets)
    {
      hide Released, AllTimely, Increasing;
      var v, a := OfKind(arrived, Video), OfKind(arrived, Audio);
      OfKindKinds(arrived, Video);
      OfKindKinds(arrived, Audio);
      ReleasedInOrder(v, a);
      ReleasedTimely(arrived);
    }

    /** The worker takes what was merged. */
    method Take() returns (result: seq<Packet>)
      requires Valid()
      modifies this`packets, this`packetBytes, this`taken
      ensures Valid() && result == old(packets) && packets == [] && taken == old(taken) + result
    {
      hide Merged, AllAbove, AllTimely, Bytes;
      BytesNone();
      result := packets;
      taken := taken + packets;
      packets, packetBytes := [], 0;
      assert taken + [] == taken;
    }

    /** An action that discards the buffer revokes captured media and leaves a floor behind. */
    method Revoke()
      requires Valid()
      modifies this`videoIngress, this`audioIngress, this`packets, this`videoInput, this`audioInput, this`captureFloor
      modifies this`ingressBytes, this`packetBytes, this`captureEpoch, this`arrived, this`taken
      ensures Valid() && captureEpoch == old(captureEpoch) + 1 && arrived == [] && taken == [] && packets == []
      ensures captureFloor == if old(videoInput).Some? || old(audioInput).Some? then Some(FloorOf(old(videoInput), old(audioInput))) else old(captureFloor)
      ensures !failed && old(arrived) != [] ==> captureFloor.Some? && AllUpTo(old(arrived), captureFloor.value)
    {
      hide Merged, AllAbove, AllUpTo, AllTimely, Bytes, FloorOf, Ordered, OfKind, TimingOk;
      if !failed { FloorCovers(arrived, taken + packets, videoIngress, audioIngress, videoInput, audioInput); }
      if videoInput.Some? || audioInput.Some? { captureFloor := Some(FloorOf(videoInput, audioInput)); }
      captureEpoch := captureEpoch + 1;
      ClearCapture();
    }

    /** clear_capture_locked: nothing is captured, and the streams start afresh. */
    method ClearCapture()
      modifies this`videoIngress, this`audioIngress, this`packets, this`videoInput, this`audioInput
      modifies this`ingressBytes, this`packetBytes, this`arrived, this`taken
      ensures Valid() && arrived == [] && taken == [] && packets == []
    {
      hide Merged, AllAbove, AllTimely, Bytes;
      BytesNone();
      NothingMerged(if captureFloor.Some? then captureFloor.value else 0);
      videoIngress, audioIngress, packets, videoInput, audioInput := [], [], [], None, None;
      ingressBytes, packetBytes := 0, 0;
      arrived, taken := [], [];
    }
  }

  predicate AllTimely(s: seq<Packet>) { forall i :: 0 <= i < |s| ==> TimingOk(s[i]) }

  predicate AllAbove(s: seq<Packet>, floor: int) { forall i :: 0 <= i < |s| ==> floor < s[i].dts }

  predicate AllUpTo(s: seq<Packet>, limit: int) { forall i :: 0 <= i < |s| ==> s[i].dts <= limit }

  lemma {:induction false} Grows(arrived: seq<Packet>, packet: Packet, floor: Option<int>)
    requires AllTimely(arrived) && TimingOk(packet)
    requires floor.Some? ==> AllAbove(arrived, floor.value) && floor.value < packet.dts
    ensures AllTimely(arrived + [packet]) && (floor.Some? ==> AllAbove(arrived + [packet], floor.value))
  {}

  lemma {:induction false} ReleasedMembers(v: seq<Packet>, a: seq<Packet>, x: Packet)
    requires x in Released(v, a)
    ensures x in v || x in a
  {
    hide Merge;
    var w := Min(v[|v| - 1].dts, a[|a| - 1].dts);
    MergeMembers(Before(v, w), Before(a, w));
  }

  lemma {:induction false} ReleasedTimely(arrived: seq<Packet>)
    requires AllTimely(arrived)
    ensures AllTimely(Released(OfKind(arrived, Video), OfKind(arrived, Audio)))
  {
    hide Released, OfKind, TimingOk;
    var v, a := OfKind(arrived, Video), OfKind(arrived, Audio);
    OfKindFrom(arrived, Video);
    OfKindFrom(arrived, Audio);
    forall x | x in Released(v, a) ensures TimingOk(x) {
      ReleasedMembers(v, a, x);
    }
  }

  lemma {:induction false} OfKindFrom(s: seq<Packet>, kind: Kind)
    ensures forall x :: x in OfKind(s, kind) ==> x in s
  {
    if s == [] {
    } else {
      OfKindFrom(s[..|s| - 1], kind);
    }
  }

  /** The later of the last video and the last audio. */
  function FloorOf(lastVideo: Option<int>, lastAudio: Option<int>): int {
    Max(if lastVideo.Some? then lastVideo.value else INT64_MIN, if lastAudio.Some? then lastAudio.value else INT64_MIN)
  }

  lemma {:induction false} NothingMerged(floor: int)
    ensures Merged([] + [], [] + [], [], [], None, None) && Merged([], [], [], [], None, None)
    ensures AllTimely([]) && AllAbove([], floor)
  {}

  lemma {:induction false} LastIsLatest(s: seq<Packet>, k: nat)
    requires Increasing(s) && k < |s|
    ensures LastDts(s).Some? && s[k].dts <= LastDts(s).value
  {
    if k < |s| - 1 { assert s[k].dts < s[|s| - 1].dts; }
  }

  lemma {:induction false} FloorCovers(arrived: seq<Packet>, released: seq<Packet>, vq: seq<Packet>, aq: seq<Packet>, lastVideo: Option<int>, lastAudio: Option<int>)
    requires Merged(arrived, released, vq, aq, lastVideo, lastAudio)
    ensures AllUpTo(arrived, FloorOf(lastVideo, lastAudio))
    ensures arrived != [] ==> lastVideo.Some? || lastAudio.Some?
  {
    hide Released, Held, OfKind, Increasing, LastDts;
    forall i | 0 <= i < |arrived|
      ensures var last := if arrived[i].kind.Video? then lastVideo else lastAudio; last.Some? && arrived[i].dts <= last.value
    {
      var k := OfKindAt(arrived, i);
      LastIsLatest(OfKind(arrived, arrived[i].kind), k);
    }
    if arrived != [] { var k := OfKindAt(arrived, 0); }
  }

  /** Confluence: two captures that accepted the same two streams, in whatever order their callbacks came, have released the
      same packets, hold back the same ones, and released them in rank order with each stream in its own order. */
  lemma {:induction false} ArrivalOrderDoesNotMatter(x: Ingress, y: Ingress)
    requires x.Valid() && y.Valid() && !x.failed && !y.failed
    requires OfKind(x.arrived, Video) == OfKind(y.arrived, Video) && OfKind(x.arrived, Audio) == OfKind(y.arrived, Audio)
    ensures x.taken + x.packets == y.taken + y.packets && x.videoIngress == y.videoIngress && x.audioIngress == y.audioIngress
    ensures var released := x.taken + x.packets;
      && Ranked(released) && Ordered(released)
      && OfKind(released, Video) <= OfKind(x.arrived, Video) && OfKind(released, Audio) <= OfKind(x.arrived, Audio)
  {
    OfKindKinds(x.arrived, Video);
    OfKindKinds(x.arrived, Audio);
    ReleasedInOrder(OfKind(x.arrived, Video), OfKind(x.arrived, Audio));
  }

  lemma {:induction false} ReleasedInOrder(v: seq<Packet>, a: seq<Packet>)
    requires Increasing(v) && Increasing(a)
    requires (forall i :: 0 <= i < |v| ==> v[i].kind.Video?) && forall i :: 0 <= i < |a| ==> a[i].kind.Audio?
    ensures Ranked(Released(v, a)) && Ordered(Released(v, a))
    ensures OfKind(Released(v, a), Video) <= v && OfKind(Released(v, a), Audio) <= a
  {
    hide OfKind, Merge, Ranked, Cut;
    if v != [] && a != [] {
      var w := Min(v[|v| - 1].dts, a[|a| - 1].dts);
      MergeIsOrdered(Before(v, w), Before(a, w));
      MergeKeepsStreams(Before(v, w), Before(a, w));
      RankedOrdered(Released(v, a));
    } else {
      NothingRanked();
    }
  }

  lemma {:induction false} NothingRanked()
    ensures Ranked([]) && OfKind([], Video) == [] && OfKind([], Audio) == []
  {}

  lemma {:induction false} RankedOrdered(s: seq<Packet>)
    requires Ranked(s)
    ensures Ordered(s)
  {
    forall i, j | 0 <= i < j < |s| ensures s[i].dts <= s[j].dts { assert Rank(s[i]) < Rank(s[j]); }
  }

}
