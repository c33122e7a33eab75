/** Where the coordinator places what a feed hands it: a specification of publish in terms of the plan before and after. */
module Placement {
  import opened Media
  import opened Timeline
  import opened Sorting
  import opened Splice
  import opened Plans

  const QUEUE_BYTES: int := 16 * 1024 * 1024
  const QUEUE_PACKETS: int := 4096
  const QUEUE_SPAN: int := 2000000

  /** A pacing queue has room for one more packet. */
  predicate Fits(q: Queue, p: Packet) {
    && q.bytes + |p.payload| <= QUEUE_BYTES && |q.packets| < QUEUE_PACKETS
    && (q.packets != [] ==> p.dts - q.packets[0].dts <= QUEUE_SPAN)
  }

  function Push(q: Queue, more: seq<Packet>): Queue { Queue(q.packets + more, q.bytes + Bytes(more)) }

  // Collecting a join.

  /** A packet is part of the join: it opens it with a key picture, or follows one that does. */
  predicate Belongs(j: Joint, p: Packet) {
    if j.cutoff.None? then p.KeyVideo() else j.cutoff.value <= p.dts
  }

  function GatherOne(j: Joint, p: Packet): Joint {
    if !Belongs(j, p) then j
    else j.(cutoff := Some(if j.cutoff.Some? then j.cutoff.value else p.dts), bytes := j.bytes + |p.payload|, boundary := j.boundary + [p])
  }

  function Gather(j: Joint, input: seq<Packet>): Joint {
    if input == [] then j else GatherOne(Gather(j, input[..|input| - 1]), input[|input| - 1])
  }

  predicate Roomy(j: Joint, p: Packet) {
    && j.bytes + |p.payload| <= QUEUE_BYTES && |j.boundary| < QUEUE_PACKETS
    && (j.cutoff.Some? ==> p.dts - j.cutoff.value <= QUEUE_SPAN)
  }

  /** Every packet that belongs to the join finds room. */
  predicate Gathers(j: Joint, input: seq<Packet>) {
    forall i :: 0 <= i < |input| && Belongs(Gather(j, input[..i]), input[i]) ==> Roomy(Gather(j, input[..i]), input[i])
  }

  lemma {:induction false} GatherNone(j: Joint)
    ensures Gather(j, []) == j
  {}

  lemma {:induction false} GatherSnoc(j: Joint, input: seq<Packet>, i: nat)
    requires i < |input|
    ensures Gather(j, input[..i + 1]) == GatherOne(Gather(j, input[..i]), input[i])
  {
    assert input[..i + 1][..i] == input[..i];
  }

  /** It makes no difference how the packets of a feed are split into calls. */
  lemma {:induction false} GatherConcat(j: Joint, a: seq<Packet>, b: seq<Packet>)
    ensures Gather(j, a + b) == Gather(Gather(j, a), b)
  {
    if b == [] {
      assert a + b == a;
    } else {
      GatherConcat(j, a, b[..|b| - 1]);
      assert (a + b)[..|a + b| - 1] == a + b[..|b| - 1];
    }
  }

  /** Gathers packets until one finds no room. */
  method Take(j: Joint, input: seq<Packet>) returns (g: Joint, fits: bool)
    ensures fits <==> Gathers(j, input)
    ensures fits ==> g == Gather(j, input)
  {
    hide Gather;
    GatherNone(j);
    g := j;
    for i := 0 to |input|
      invariant g == Gather(j, input[..i])
      invariant forall k :: 0 <= k < i && Belongs(Gather(j, input[..k]), input[k]) ==> Roomy(Gather(j, input[..k]), input[k])
    {
      var p := input[i];
      GatherSnoc(j, input, i);
      if g.cutoff.None? && !p.KeyVideo() { continue; }
      if g.cutoff.Some? && p.dts < g.cutoff.value { continue; }
      var from := if g.cutoff.Some? then g.cutoff.value else p.dts;
      var bytes := g.bytes + |p.payload|;
      if bytes > QUEUE_BYTES || |g.boundary| >= QUEUE_PACKETS || p.dts - from > QUEUE_SPAN { return g, false; }
      g := g.(cutoff := Some(from), bytes := bytes, boundary := g.boundary + [p]);
    }
    assert input[..|input|] == input;
    fits := true;
  }

  /** Only the cutoff, the collected packets and their size change, and a cutoff never does. */
  lemma {:induction false} GatherFrame(j: Joint, input: seq<Packet>)
    ensures var g := Gather(j, input);
            && g == j.(cutoff := g.cutoff, boundary := g.boundary, bytes := g.bytes)
            && j.boundary <= g.boundary && (j.cutoff.Some? ==> g.cutoff == j.cutoff)
            && (forall p :: p in g.boundary ==> p in j.boundary || p in input)
  {
    if input == [] {
    } else {
      GatherFrame(j, input[..|input| - 1]);
    }
  }

  lemma {:induction false} GatherMembers(j: Joint, input: seq<Packet>, fed: Supply)
    requires j.selected.None? && Collected(j, fed) && forall i :: 0 <= i < |input| ==> Supplied(input[i], j.desired, fed)
    ensures Collected(Gather(j, input), fed)
  {
    hide Supplied;
    if input == [] {
    } else {
      GatherMembers(j, input[..|input| - 1], fed);
      GatherFrame(j, input[..|input| - 1]);
    }
  }

  lemma {:induction false} GatherOrdered(j: Joint, input: seq<Packet>, last: Option<int>)
    requires Ordered(j.boundary) && UpTo(j.boundary, last) && Ordered(input) && UpTo(input, last)
    requires forall b, k :: 0 <= b < |j.boundary| && 0 <= k < |input| ==> j.boundary[b].dts <= input[k].dts
    ensures Ordered(Gather(j, input).boundary) && UpTo(Gather(j, input).boundary, last)
  {
    if input == [] {
    } else {
      var init, x := input[..|input| - 1], input[|input| - 1];
      GatherOrdered(j, init, last);
      GatherFrame(j, init);
      forall p | p in Gather(j, init).boundary ensures p.dts <= x.dts {
        if p in j.boundary {
          var b :| 0 <= b < |j.boundary| && j.boundary[b] == p;
          assert j.boundary[b].dts <= input[|input| - 1].dts;
        }
      }
    }
  }

  /** What is gathered stays a join of supplied packets, in order if the feed is. */
  lemma {:induction false} GatherCollected(j: Joint, input: seq<Packet>, waiting: seq<Packet>, output: int, fed: Supply)
    requires j.selected.None? && Collected(j, fed) && forall i :: 0 <= i < |input| ==> Supplied(input[i], j.desired, fed)
    requires fed.inOrder ==> InFeedOrder(j, waiting, output, fed) && Follows(j, input, output, fed)
    ensures var g := Gather(j, input);
            && g == j.(cutoff := g.cutoff, boundary := g.boundary, bytes := g.bytes) && Collected(g, fed)
            && (fed.inOrder ==> Ordered(g.boundary) && UpTo(g.boundary, fed.Last(j.desired)))
  {
    hide Collected, Gather, Ordered, UpTo;
    GatherFrame(j, input);
    GatherMembers(j, input, fed);
    if fed.inOrder { GatherOrdered(j, input, fed.Last(j.desired)); }
  }

  function From(cutoff: int): Packet -> bool { (p: Packet) => cutoff <= p.dts }

  lemma {:induction false} GatherOpen(j: Joint, input: seq<Packet>)
    requires j.cutoff.Some?
    ensures var g := Gather(j, input);
            g == j.(boundary := g.boundary, bytes := g.bytes) && g.boundary == j.boundary + Select(From(j.cutoff.value), input)
  {
    if input == [] {
      assert j.boundary + [] == j.boundary;
    } else {
      GatherOpen(j, input[..|input| - 1]);
    }
  }

  /** A join holds the first key picture of the feed and everything behind it that is not earlier, in order. */
  lemma {:induction false} GatherFromKey(j: Joint, input: seq<Packet>)
    requires j.cutoff.None? && j.boundary == []
    ensures var k := FirstKey(input); var g := Gather(j, input);
            if k == |input| then g == j
            else g.cutoff == Some(input[k].dts) && g.boundary == Select(From(input[k].dts), input[k..])
  {
    hide Gather, Select;
    var k := FirstKey(input);
    GatherNothing(j, input[..k]);
    if k == |input| {
      assert input[..k] == input;
    } else {
      assert input == input[..k] + input[k..];
      GatherConcat(j, input[..k], input[k..]);
      GatherKey(j, input[k..]);
    }
  }

  lemma {:induction false} GatherKey(j: Joint, input: seq<Packet>)
    requires j.cutoff.None? && j.boundary == [] && input != [] && input[0].KeyVideo()
    ensures Gather(j, input).cutoff == Some(input[0].dts) && Gather(j, input).boundary == Select(From(input[0].dts), input)
  {
    hide Gather, Select;
    var key, rest, open := input[0], input[1..], GatherOne(j, input[0]);
    assert input == [key] + rest;
    GatherNone(j);
    GatherSnoc(j, [key], 0);
    assert [key][..0 + 1] == [key] && [key][..0] == [];
    GatherConcat(j, [key], rest);
    GatherOpen(open, rest);
    SelectConcat(From(key.dts), [key], rest);
    SelectOne(From(key.dts), key);
  }

  lemma {:induction false} SelectOne(keep: Packet -> bool, x: Packet)
    requires keep(x)
    ensures Select(keep, [x]) == [x]
  {
    assert [x][..0] == [];
  }

  lemma {:induction false} GatherNothing(j: Joint, input: seq<Packet>)
    requires j.cutoff.None? && forall i :: 0 <= i < |input| ==> !input[i].KeyVideo()
    ensures Gather(j, input) == j
  {
    if input == [] {
    } else {
      GatherNothing(j, input[..|input| - 1]);
    }
  }

  // Placing it.

  /** A join can be placed: some sound is there, and for a programme that resumes, some that is not before its picture. */
  predicate Placeable(j: Joint, output: int) {
    && j.cutoff.Some? && j.boundary != [] && HasSound(j.boundary)
    && (j.desired.Programme? && output >= 0 ==>
          exists i :: 0 <= i < |j.boundary| && j.boundary[i].kind.Audio? && j.boundary[0].pts <= j.boundary[i].pts)
  }

  /** The whole millisecond at which a joining feed starts: one millisecond and all of the old sound and pictures later. */
  function JoinTime(e: Ends): int {
    var base := Max(e.output + 1000, Max(e.audio, e.video + 1000));
    if 0 <= base then CeilMs(base) else 0
  }

  /** The frame of silence that precedes a switch to holding. */
  function DrainFrame(e: Ends, payload: seq<Byte>): Item {
    var base := Max(e.output + 1000, e.audio);
    var t := if 0 <= base then CeilMs(base) else 0;
    Item(Holding, Packet(Audio, payload, t, t, false, true))
  }

  /** A feed joins `before`: silence up to its first sound where the programme resumes or the drain went ahead, then what
      was collected, moved so that its key picture starts at JoinTime. */
  ghost predicate Spliced(before: seq<Item>, j: Joint, drained: bool, silent: seq<Byte>, after: seq<Item>, silent': seq<Byte>, c: Clock) {
    exists bridge: seq<Packet>, packets: seq<Packet> :: SplicedBy(before, j, drained, silent, bridge, packets, after, silent', c)
  }

  ghost predicate SplicedBy(before: seq<Item>, j: Joint, drained: bool, silent: seq<Byte>, bridge: seq<Packet>, packets: seq<Packet>,
                            after: seq<Item>, silent': seq<Byte>, c: Clock) {
    && j.cutoff.Some? && j.boundary != [] && HasSound(j.boundary)
    && var e := EndsOf(before, c); var offset := JoinTime(e) - j.cutoff.value;
    && after == before + Label(j.desired, Batched(bridge, packets, j.cutoff.value, offset))
    && silent' == SilenceAfter(j.desired, Batched(bridge, packets, j.cutoff.value, offset), silent)
    && Bridges(e, j, offset, drained, silent, bridge, packets, c.aac)
  }

  /** The silence of a join, and the packets behind it. */
  ghost predicate Bridges(e: Ends, j: Joint, offset: int, drained: bool, silent: seq<Byte>, bridge: seq<Packet>, packets: seq<Packet>, aac: int)
    requires j.boundary != []
  {
    if j.desired.Programme? && e.output >= 0 && silent != [] then
      && packets == FromKey(j.boundary, j.boundary[0].pts) && HasSound(packets)
      && var start := packets[FirstSound(packets)].pts + offset;
      && start - e.audio <= RESUME_BRIDGE_LIMIT && Fills(bridge, silent, Max(e.audio, e.output), aac, start)
    else if drained then
      packets == j.boundary && exists first :: Earliest(j.boundary, first) && Fills(bridge, silent, e.audio, aac, first + offset)
    else
      packets == j.boundary && bridge == []
  }

  const RESUME_BRIDGE_LIMIT: int := 1000000

  predicate Earliest(s: seq<Packet>, first: int) {
    && (exists i :: 0 <= i < |s| && s[i].kind.Audio? && s[i].pts == first)
    && (forall i :: 0 <= i < |s| && s[i].kind.Audio? ==> first <= s[i].pts)
  }

  lemma {:induction false} ResumeBridges(e: Ends, j: Joint, offset: int, drained: bool, silent: seq<Byte>, bridge: seq<Packet>, aac: int)
    requires j.boundary != [] && j.desired.Programme? && e.output >= 0 && silent != []
    requires var packets := FromKey(j.boundary, j.boundary[0].pts);
      && HasSound(packets) && var start := packets[FirstSound(packets)].pts + offset;
      && start - e.audio <= RESUME_BRIDGE_LIMIT && Fills(bridge, silent, Max(e.audio, e.output), aac, start)
    ensures Bridges(e, j, offset, drained, silent, bridge, FromKey(j.boundary, j.boundary[0].pts), aac)
    ensures var packets := FromKey(j.boundary, j.boundary[0].pts);
      Silence(bridge, silent, Max(e.audio, e.output), aac, packets[FirstSound(packets)].pts + offset)
  {
    hide Silence, FromKey;
  }

  lemma {:induction false} DrainBridges(e: Ends, j: Joint, offset: int, silent: seq<Byte>, bridge: seq<Packet>, first: int, aac: int)
    requires j.boundary != [] && j.desired.Holding? && Earliest(j.boundary, first) && Fills(bridge, silent, e.audio, aac, first + offset)
    ensures Bridges(e, j, offset, true, silent, bridge, j.boundary, aac) && Silence(bridge, silent, e.audio, aac, first + offset)
    ensures exists i :: 0 <= i < |j.boundary| && j.boundary[i].kind.Audio? && j.boundary[i].pts == first
    ensures forall i :: 0 <= i < |j.boundary| && j.boundary[i].kind.Audio? ==> first <= j.boundary[i].pts
  {
    hide Silence;
  }

  lemma {:induction false} BareBridges(e: Ends, j: Joint, offset: int, silent: seq<Byte>, aac: int)
    requires j.boundary != [] && !(j.desired.Programme? && e.output >= 0 && silent != [])
    ensures Bridges(e, j, offset, false, silent, [], j.boundary, aac)
  {}

  function JoinedAt(j: Joint, next: int): Joint {
    j.(selected := Some(j.desired), boundary := [], bytes := 0, offset := next - if j.cutoff.Some? then j.cutoff.value else 0)
  }

  lemma {:induction false} SplicedHere(before: seq<Item>, j: Joint, drained: bool, silent: seq<Byte>, bridge: seq<Packet>, packets: seq<Packet>,
                                       after: seq<Item>, silent': seq<Byte>, c: Clock)
    requires SplicedBy(before, j, drained, silent, bridge, packets, after, silent', c)
    ensures Spliced(before, j, drained, silent, after, silent', c)
  {}

  /** The drain that goes out ahead of a join. */
  function OwedDrain(g: Joint, draining: bool, e: Ends): seq<Item> {
    if draining && HasSound(g.boundary) then [DrainFrame(e, g.boundary[FirstSound(g.boundary)].payload)] else []
  }

  /** A feed joins the plan, behind the drain if one is owed. */
  ghost predicate Entered(plan: seq<Item>, g: Joint, draining: bool, silent: seq<Byte>,
                          plan': seq<Item>, j': Joint, silent': seq<Byte>, c: Clock) {
    && g.cutoff.Some? && HasSound(g.boundary)
    && var payload := if draining then g.boundary[FirstSound(g.boundary)].payload else silent;
    && var before := if draining then plan + [DrainFrame(EndsOf(plan, c), payload)] else plan;
    && j' == JoinedAt(g, JoinTime(EndsOf(before, c)))
    && Spliced(before, g, draining, payload, plan', silent', c)
  }

  /** What publish makes of the packets of the desired feed. `draining`: a switch to holding still owes its drain. */
  ghost predicate Published(plan: seq<Item>, j: Joint, draining: bool, silent: seq<Byte>, input: seq<Packet>,
                            plan': seq<Item>, j': Joint, silent': seq<Byte>, c: Clock) {
    if input == [] then
      plan' == plan && j' == j && silent' == silent
    else if j.selected.Some? then
      && j.cutoff.Some? && j' == j && plan' == plan + Label(j.desired, Batched([], input, j.cutoff.value, j.offset))
      && silent' == SilenceAfter(j.desired, Batched([], input, j.cutoff.value, j.offset), silent)
    else
      var g := Gather(j, input);
      if !Placeable(g, EndsOf(plan, c).output) then plan' == plan && j' == g && silent' == silent
      else Entered(plan, g, draining, silent, plan', j', silent', c)
  }

  // When the promise about sound is kept.

  /** The guard under which a programme joins from behind a holding picture with sound in front of its key picture: no silence
      of the holding feed is kept to bridge with. */
  predicate Exposes(plan: seq<Item>, j: Joint, silent: seq<Byte>, input: seq<Packet>, c: Clock) {
    var g := Gather(j, input);
    && input != [] && j.selected.None? && Placeable(g, EndsOf(plan, c).output)
    && g.desired.Programme? && OnScreen(plan).Holding? && silent == [] && !SoundAfterKey(g.boundary)
  }

  lemma {:induction false} HidesNothing(plan: seq<Item>, j: Joint, silent: seq<Byte>, input: seq<Packet>, c: Clock)
    requires input == [] || j.desired.Holding?
    ensures !Exposes(plan, j, silent, input, c)
  {
    GatherFrame(j, input);
  }

  /** The same for packets that are released to the programme. */
  predicate ReleaseExposes(plan: seq<Item>, j: Joint, silent: seq<Byte>, ready: seq<Packet>, moved: bool, c: Clock) {
    if j.desired.Programme? then Exposes(plan, j, silent, ready, c)
    else moved && Exposes(plan, Joint(Programme, None, None, [], 0, j.offset), silent, ready[FirstKey(ready)..], c)
  }

  predicate InOrderAndPlaced(t: seq<Item>) { NeverBack(t) && forall i :: 0 <= i < |t| ==> Placed(t[i].packet) }

  lemma {:induction false} ContinuesFrom(plan: seq<Item>, output: seq<Packet>, feed: Feed)
    requires output != [] && InOrderAndPlaced(plan + Label(feed, output))
    ensures Continues(plan, Label(feed, output), feed)
  {
    var xs := Label(feed, output);
    assert forall i :: 0 <= i < |xs| ==> (plan + xs)[|plan| + i] == xs[i];
  }

  /** The drain neither breaks nor mends the promise about sound, and leaves the picture on screen. */
  lemma {:induction false} DrainSound(plan: seq<Item>, payload: seq<Byte>, fed: Supply, c: Clock)
    requires Kept(plan, fed, c) && c.Admitted() && plan != []
    ensures var u := plan + [DrainFrame(EndsOf(plan, c), payload)];
      && (NoSoundUnderHolding(u, c) <==> NoSoundUnderHolding(plan, c)) && OnScreen(u) == OnScreen(plan)
      && InOrderAndPlaced(u) && PicturesDisjoint(u, c) && EndsOf(u, c).output <= EndsOf(u, c).audio
  {
    hide NoSoundUnderHolding, PicturesDisjoint;
    var x := DrainFrame(EndsOf(plan, c), payload);
    EndsFloor(plan, c);
    EndsAppend(plan, x, c);
    SummariesBound(plan, c);
    PicturesAppend(plan, [x], Holding, c);
    if NoSoundUnderHolding(plan, c) {
      AppendSilence(plan, x, c);
    } else if NoSoundUnderHolding(plan + [x], c) {
      NoSoundPrefix(plan, plan + [x], c);
    }
  }

  /** A joining feed keeps the promise about sound exactly when it is no programme with early sound behind a holding picture. */
  lemma {:induction false} SplicedSound(before: seq<Item>, g: Joint, drained: bool, silent: seq<Byte>, after: seq<Item>, silent': seq<Byte>, fed: Supply, c: Clock)
    requires InOrderAndPlaced(before) && PicturesDisjoint(before, c) && c.Admitted()
    requires Collected(g, fed) && g.selected.None? && (silent == [] || silent in fed.holdingSound)
    requires drained ==> EndsOf(before, c).output <= EndsOf(before, c).audio && silent in fed.holdingSound
    requires Spliced(before, g, drained, silent, after, silent', c)
    ensures NoSoundUnderHolding(after, c) <==>
      NoSoundUnderHolding(before, c) && (g.desired.Programme? && OnScreen(before).Holding? && silent == [] ==> SoundAfterKey(g.boundary))
  {
    hide NoSoundUnderHolding, PicturesDisjoint, NeverBack, Label, Batched, OnScreen, SoundAfterKey, Collected, Joinable, Bridging, Clears,
      EndsOf, JoinTime, FromKey, SplicedBy, InOrderAndPlaced, HasSound;
    var bridge, packets :| SplicedBy(before, g, drained, silent, bridge, packets, after, silent', c);
    var from, until := SplicedParts(before, g, drained, silent, bridge, packets, after, silent', fed, c);
    PlacedParts(before);
    JoinSoundExactly(before, bridge, packets, g.cutoff.value, JoinTime(EndsOf(before, c)), g.desired, silent, from, until, fed, c);
    if g.desired.Programme? && silent != [] && OnScreen(before).Holding? { FromKeySoundAfter(g, fed); }
  }

  lemma {:induction false} PlacedParts(t: seq<Item>)
    requires InOrderAndPlaced(t)
    ensures NeverBack(t) && forall i :: 0 <= i < |t| ==> Placed(t[i].packet)
  {}

  lemma {:induction false} SplicedParts(before: seq<Item>, g: Joint, drained: bool, silent: seq<Byte>, bridge: seq<Packet>, packets: seq<Packet>,
                                        after: seq<Item>, silent': seq<Byte>, fed: Supply, c: Clock) returns (from: int, until: int)
    requires SplicedBy(before, g, drained, silent, bridge, packets, after, silent', c)
    requires InOrderAndPlaced(before) && c.Admitted()
    requires Collected(g, fed) && g.selected.None? && (silent == [] || silent in fed.holdingSound)
    requires drained ==> EndsOf(before, c).output <= EndsOf(before, c).audio && silent in fed.holdingSound
    ensures var next := JoinTime(EndsOf(before, c));
      && g.cutoff.Some? && g.boundary != [] && Joinable(packets, g.cutoff.value, g.desired, fed) && Clears(before, next, c) && 0 <= next
      && Bridging(before, bridge, silent, from, until, fed, c)
      && after == before + Label(g.desired, Batched(bridge, packets, g.cutoff.value, next - g.cutoff.value))
    ensures packets == g.boundary || packets == FromKey(g.boundary, g.boundary[0].pts)
    ensures silent == [] || g.desired.Holding? ==> packets == g.boundary
    ensures g.desired.Programme? && silent != [] && OnScreen(before).Holding? ==> packets == FromKey(g.boundary, g.boundary[0].pts)
  {
    hide NeverBack, Label, Batched, OnScreen, Collected, Joinable, Silence, FromKey, HasSound, Bridges, SilenceAfter, LastOutput, AudioEnd, VideoTail;
    var e := EndsOf(before, c);
    EndsFloor(before, c);
    EndsAre(before, c);
    if OnScreen(before).Holding? { var _ := OnScreenHolding(before); }
    from, until := BridgeSpan(e, g, JoinTime(e) - g.cutoff.value, drained, silent, bridge, packets, c.aac);
    BridgedSound(e, g, JoinTime(e) - g.cutoff.value, drained, silent, bridge, packets, c.aac);
    CollectedJoinable(g, packets, fed);
  }

  lemma {:induction false} BridgeSpan(e: Ends, j: Joint, offset: int, drained: bool, silent: seq<Byte>, bridge: seq<Packet>, packets: seq<Packet>, aac: int)
    returns (from: int, until: int)
    requires j.boundary != [] && Bridges(e, j, offset, drained, silent, bridge, packets, aac) && 0 <= e.audio
    requires drained ==> e.output <= e.audio
    ensures Silence(bridge, silent, from, aac, until) && Max(0, Max(e.output, e.audio)) <= from
    ensures bridge != [] ==> drained || silent != []
    ensures packets == j.boundary || packets == FromKey(j.boundary, j.boundary[0].pts)
    ensures packets == if j.desired.Programme? && e.output >= 0 && silent != [] then FromKey(j.boundary, j.boundary[0].pts) else j.boundary
  {
    from, until := Max(e.output, e.audio), 0;
    if j.desired.Programme? && e.output >= 0 && silent != [] {
      until := packets[FirstSound(packets)].pts + offset;
    } else if drained {
      var first :| Earliest(j.boundary, first) && Fills(bridge, silent, e.audio, aac, first + offset);
      until := first + offset;
    }
  }

  lemma {:induction false} BridgedSound(e: Ends, j: Joint, offset: int, drained: bool, silent: seq<Byte>, bridge: seq<Packet>, packets: seq<Packet>, aac: int)
    requires j.boundary != [] && HasSound(j.boundary) && Bridges(e, j, offset, drained, silent, bridge, packets, aac)
    ensures HasSound(packets)
  {}

  lemma {:induction false} FromKeySoundAfter(j: Joint, fed: Supply)
    requires Collected(j, fed) && j.selected.None? && j.cutoff.Some?
    ensures SoundAfterKey(FromKey(j.boundary, j.boundary[0].pts))
  {
    FromKeySound(j, fed);
  }

  /** The promise about sound survives a call of publish exactly when the call does not expose it. */
  lemma {:induction false} PublishedSound(plan: seq<Item>, j: Joint, draining: bool, silent: seq<Byte>, input: seq<Packet>,
                                          plan': seq<Item>, j': Joint, silent': seq<Byte>, fed: Supply, c: Clock)
    requires Kept(plan, fed, c) && (NoSoundUnderHolding(plan, c) ==> Joined(plan, j.selected, c)) && InOrderAndPlaced(plan') && c.Admitted()
    requires Collected(j, fed) && forall i :: 0 <= i < |input| ==> Supplied(input[i], j.desired, fed)
    requires (silent == [] || silent in fed.holdingSound) && (draining ==> j.desired.Holding? && plan != [])
    requires j.selected.Some? ==> j.selected.value == j.desired && PicturesJoined(plan, j.selected, c)
    requires Published(plan, j, draining, silent, input, plan', j', silent', c)
    ensures NoSoundUnderHolding(plan', c) <==> NoSoundUnderHolding(plan, c) && !Exposes(plan, j, silent, input, c)
  {
    hide NoSoundUnderHolding, Joined, PicturesDisjoint, NeverBack, Label, Batched, OnScreen, SoundAfterKey, Collected, Gather, Spliced, Placeable, Supplied;
    if input == [] {
    } else if j.selected.Some? {
      var output := Batched([], input, j.cutoff.value, j.offset);
      if output == [] {
        QueueEmpty(plan, j.desired);
      } else {
        ContinuesFrom(plan, output, j.desired);
        ContinueSound(plan, Label(j.desired, output), j.desired, c);
      }
    } else if Placeable(Gather(j, input), EndsOf(plan, c).output) {
      var g := Gather(j, input);
      GatherFrame(j, input);
      GatherMembers(j, input, fed);
      if draining {
        var payload := g.boundary[FirstSound(g.boundary)].payload;
        GatheredSilence(g, fed);
        DrainSound(plan, payload, fed, c);
        SplicedSound(plan + [DrainFrame(EndsOf(plan, c), payload)], g, true, payload, plan', silent', fed, c);
      } else {
        SplicedSound(plan, g, false, silent, plan', silent', fed, c);
      }
    }
  }

  lemma {:induction false} GatheredSilence(g: Joint, fed: Supply)
    requires Collected(g, fed) && HasSound(g.boundary) && g.desired.Holding?
    ensures g.boundary[FirstSound(g.boundary)].payload in fed.holdingSound
  {}

  /** The programme takes over from holding at its first key picture, in an epoch of its own. */
  ghost predicate Switched(plan: seq<Item>, j: Joint, silent: seq<Byte>, ready: seq<Packet>,
                           plan': seq<Item>, j': Joint, silent': seq<Byte>, moved: bool, c: Clock) {
    if !moved then plan' == plan && j' == j && silent' == silent
    else FirstKey(ready) < |ready| &&
         Published(plan, Joint(Programme, None, None, [], 0, j.offset), false, silent, ready[FirstKey(ready)..], plan', j', silent', c)
  }

  /** What release_ready makes of programme packets. `moved`: the epoch was left. */
  ghost predicate Released(plan: seq<Item>, j: Joint, draining: bool, silent: seq<Byte>, ready: seq<Packet>,
                           plan': seq<Item>, j': Joint, silent': seq<Byte>, moved: bool, c: Clock) {
    if ready == [] then plan' == plan && j' == j && silent' == silent && !moved
    else if j.desired.Holding? then Switched(plan, j, silent, ready, plan', j', silent', moved, c)
    else Published(plan, j, draining, silent, ready, plan', j', silent', c) && !moved
  }

  /** The programme waits from its first key picture on. */
  function Queued(q: Queue, released: seq<Packet>): Queue {
    if q.packets == [] && FirstKey(released) == |released| then q else Push(q, released)
  }

  predicate RoomFor(q: Queue, released: seq<Packet>) {
    forall i :: 0 <= i < |released| ==> Fits(Push(q, released[..i]), released[i])
  }

  /** The silence kept for bridges: the first sound of the holding feed. */
  function KeptSilence(silent: seq<Byte>, packets: seq<Packet>): seq<Byte> {
    if silent == [] && HasSound(packets) then packets[FirstSound(packets)].payload else silent
  }
}
