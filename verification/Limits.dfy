/** When placing what a feed hands over may fail at all. */
module Limits {
  import opened Media
  import opened Timeline
  import opened Splice
  import opened Sorting
  import opened Plans
  import opened Placement

  /** An eighth of the range of timestamps: at microseconds, more than thirty thousand years. */
  const FAR: int := INT64_MAX / 8

  /** Times that no sum of a few of them can take out of range. */
  predicate Near(t: int) { -FAR <= t <= FAR }

  predicate EndsNear(e: Ends, slack: int) { e.output <= FAR + slack && e.audio <= FAR + slack && e.video <= FAR + slack }

  predicate AllNear(s: seq<Packet>) { forall i :: 0 <= i < |s| ==> Near(s[i].dts) && Near(s[i].pts) }

  predicate JointNear(j: Joint) { AllNear(j.boundary) && (j.selected.Some? ==> Near(j.offset)) }

  predicate InTiming(s: seq<Packet>) { forall i :: 0 <= i < |s| ==> TimingOk(s[i]) }

  /** The sound of a resumed programme would start more than a second behind the end of the old one. */
  predicate GapTooLong(e: Ends, j: Joint, silent: seq<Byte>) {
    && Placeable(j, e.output) && j.desired.Programme? && e.output >= 0 && silent != []
    && var packets := FromKey(j.boundary, j.boundary[0].pts);
    && HasSound(packets) && packets[FirstSound(packets)].pts + JoinTime(e) - j.cutoff.value - e.audio > RESUME_BRIDGE_LIMIT
  }

  /** The same for a join that starts at `next`. */
  predicate GapAt(e: Ends, j: Joint, silent: seq<Byte>, next: int) {
    && j.desired.Programme? && e.output >= 0 && silent != [] && j.boundary != [] && j.cutoff.Some?
    && var packets := FromKey(j.boundary, j.boundary[0].pts);
    && HasSound(packets) && packets[FirstSound(packets)].pts + next - j.cutoff.value - e.audio > RESUME_BRIDGE_LIMIT
  }

  lemma {:induction false} GapHere(e: Ends, j: Joint, silent: seq<Byte>, next: int)
    requires GapAt(e, j, silent, next) && next == JoinTime(e) && HasSound(j.boundary)
    ensures GapTooLong(e, j, silent)
  {
    hide FromKey, FirstSound;
    var packets := FromKey(j.boundary, j.boundary[0].pts);
    FromKeyMembers(j.boundary, j.boundary[0].pts);
    var x := packets[FirstSound(packets)];
    assert x in packets;
    var i :| 0 <= i < |j.boundary| && j.boundary[i] == x;
    assert j.boundary[0].pts <= j.boundary[i].pts;
  }

  lemma {:induction false} GatherNear(j: Joint, input: seq<Packet>)
    requires AllNear(j.boundary) && AllNear(input)
    ensures AllNear(Gather(j, input).boundary)
  {
    GatherFrame(j, input);
    var g := Gather(j, input);
    forall i | 0 <= i < |g.boundary| ensures Near(g.boundary[i].dts) && Near(g.boundary[i].pts) {
      assert g.boundary[i] in j.boundary || g.boundary[i] in input;
    }
  }

  lemma {:induction false} FromKeyNear(s: seq<Packet>, first: int)
    requires AllNear(s)
    ensures AllNear(FromKey(s, first))
  {
    FromKeyMembers(s, first);
    var f := FromKey(s, first);
    forall i | 0 <= i < |f| ensures Near(f[i].dts) && Near(f[i].pts) { assert f[i] in s; }
  }

  /** Where a join may start. */
  lemma {:induction false} JoinNear(e: Ends, j: Joint)
    requires EndsNear(e, 50000) && 0 <= e.audio && AllNear(j.boundary) && j.boundary != [] && j.cutoff == Some(j.boundary[0].dts)
    ensures CeilFits(Max(e.output + 1000, Max(e.audio, e.video + 1000)))
    ensures -4 * FAR <= JoinTime(e) - j.cutoff.value <= 4 * FAR
  {}
}
