/** Why the coordinator relies on capture to admit no empty packet. Taken by itself and fed an empty holding sound while
    holding is only scheduled, it ends with programme sound under a holding picture once the programme is requested
    directly. */
module EmptySilence {
  import opened Media
  import opened Timeline
  import opened Sorting
  import opened Splice
  import opened Dispatcher
  import opened Plans
  import opened Placement
  import opened Awaited
  import opened Coordinator

  const CLOCK: Clock := Clock(21334, 40000, 40000)
  const HEADERS: CodecHeaders := CodecHeaders([1], [2])

  const PICTURE: Packet := Packet(Video, [1], 0, 0, true, false)
  const SOUND: Packet := Packet(Audio, [1], 0, 0, false, false)
  const EMPTY: Packet := Packet(Audio, [], 1000, 1000, false, false)
  const JOIN: seq<Packet> := [PICTURE, SOUND]

  const KEY: Packet := Packet(Video, [1], 100000, 0, true, false)
  const EARLY: Packet := Packet(Audio, [1], 20000, 20000, false, false)
  const LATE: Packet := Packet(Audio, [1], 100000, 100000, false, false)
  const PROGRAMME: seq<Packet> := [KEY, EARLY, LATE]

  predicate Fresh(j: Joint, desired: Feed) {
    j.desired == desired && j == Joint(desired, None, None, [], 0, j.offset)
  }

  predicate AllHolding(t: seq<Item>) { forall i :: 0 <= i < |t| ==> t[i].feed.Holding? }

  predicate Filled(t: seq<Item>) { forall i :: 0 <= i < |t| ==> t[i].packet.payload != [] }

  lemma {:induction false} HoldingStaysOn(t: seq<Item>)
    requires AllHolding(t) && HasHoldingPicture(t)
    ensures OnScreen(t).Holding?
  {
    if !Picture(t[|t| - 1]) {
      var i :| 0 <= i < |t| && HoldingPicture(t[i]);
      assert t[..|t| - 1][i] == t[i];
      HoldingStaysOn(t[..|t| - 1]);
    }
  }

  /** What is collected of packets that start with a key picture at time zero is all of them. */
  lemma {:induction false} GathersAll(j: Joint, input: seq<Packet>)
    requires Fresh(j, j.desired) && input != [] && input[0].KeyVideo() && input[0].dts == 0
    requires forall i :: 0 <= i < |input| ==> 0 <= input[i].dts
    ensures var g := Gather(j, input);
      g == j.(cutoff := Some(0), boundary := input, bytes := g.bytes)
  {
    GatherKey(j, input);
    GatherFrame(j, input);
    SelectAll(From(0), input, true);
  }

  lemma {:induction false} BatchOf(packets: seq<Packet>, offset: int, feed: Feed)
    requires forall i :: 0 <= i < |packets| ==> 0 <= packets[i].dts && packets[i].payload != []
    ensures var xs := Label(feed, Batched([], packets, 0, offset));
      && Filled(xs) && (feed.Holding? ==> AllHolding(xs))
      && (feed.Holding? && packets != [] && packets[0].kind.Video? ==> HasHoldingPicture(xs))
  {
    var output := Batched([], packets, 0, offset);
    var xs := Label(feed, output);
    forall i | 0 <= i < |xs| ensures xs[i].packet.payload != [] {
      var k := BatchedMember([], packets, 0, offset, i);
    }
    if feed.Holding? && packets != [] && packets[0].kind.Video? {
      RebaseAll(packets, 0, offset);
      var moved := [] + Rebase(packets, 0, offset);
      assert moved[0] == Shift(packets[0], offset);
      var k := SortPosition(moved, 0);
      assert HoldingPicture(xs[k]);
    }
  }

  lemma {:induction false} BatchOfEmpty(offset: int, silent: seq<Byte>)
    ensures SilenceAfter(Holding, Batched([], [EMPTY], 0, offset), silent) == []
  {
    hide StableSort;
    var moved := [Shift(EMPTY, offset)];
    RebaseAll([EMPTY], 0, offset);
    assert [] + Rebase([EMPTY], 0, offset) == moved;
    StableSortIdentity(Dts, moved);
  }

  /** The first holding scene: nothing was published before, so that it goes out at once. */
  lemma {:induction false} FirstScene(j: Joint, silent: seq<Byte>, plan': seq<Item>, j': Joint, silent': seq<Byte>)
    requires Fresh(j, Holding) && Published([], j, false, silent, JOIN, plan', j', silent', CLOCK)
    ensures AllHolding(plan') && HasHoldingPicture(plan') && Filled(plan')
  {
    hide Label, Batched, SilenceAfter;
    GathersAll(j, JOIN);
    var g := Gather(j, JOIN);
    assert HasSound(g.boundary) by { assert g.boundary[1] == SOUND; }
    var bridge, packets :| SplicedBy([], g, false, silent, bridge, packets, plan', silent', CLOCK);
    BatchOf(JOIN, JoinTime(EndsOf([], CLOCK)), Holding);
    assert plan' == Label(Holding, Batched([], JOIN, 0, JoinTime(EndsOf([], CLOCK))));
  }

  /** The second one follows its drain, and is only scheduled. */
  lemma {:induction false} SecondScene(plan: seq<Item>, j: Joint, silent: seq<Byte>, plan': seq<Item>, j': Joint, silent': seq<Byte>)
    requires Fresh(j, Holding) && Published(plan, j, true, silent, JOIN, plan', j', silent', CLOCK) && AllHolding(plan)
    ensures AllHolding(plan') && j'.desired.Holding? && j'.selected == Some(Holding) && j'.cutoff == Some(0)
    ensures OwedDrain(Gather(j, JOIN), true, EndsOf(plan, CLOCK)) == [DrainFrame(EndsOf(plan, CLOCK), [1])]
  {
    hide Label, Batched, SilenceAfter, EndsOf, DrainFrame, JoinTime;
    GathersAll(j, JOIN);
    var g := Gather(j, JOIN);
    assert HasSound(g.boundary) by { assert g.boundary[1] == SOUND; }
    assert g.boundary[FirstSound(g.boundary)] == SOUND;
    var drain := DrainFrame(EndsOf(plan, CLOCK), [1]);
    var before := plan + [drain];
    var bridge, packets :| SplicedBy(before, g, true, [1], bridge, packets, plan', silent', CLOCK);
    DrainHolds(EndsOf(plan, CLOCK));
    LabelHolding(Batched(bridge, packets, 0, JoinTime(EndsOf(before, CLOCK))));
  }

  lemma {:induction false} DrainHolds(e: Ends)
    ensures DrainFrame(e, [1]).feed.Holding? && DrainFrame(e, [1]).packet.payload == [1]
  {}

  lemma {:induction false} LabelHolding(s: seq<Packet>)
    ensures AllHolding(Label(Holding, s))
  {}

  /** The direct programme is collected whole, with sound in front of its picture. */
  lemma {:induction false} ExposedBy(plan: seq<Item>, j: Joint)
    requires Fresh(j, Programme) && OnScreen(plan).Holding?
    ensures Exposes(plan, j, [], PROGRAMME, CLOCK)
  {
    hide EndsOf;
    GathersAll(j, PROGRAMME);
    var g := Gather(j, PROGRAMME);
    assert g.boundary[2] == LATE && g.boundary[1] == EARLY;
  }

  lemma {:induction false} ProgrammeFilled(plan: seq<Item>, j: Joint, plan': seq<Item>, j': Joint, silent': seq<Byte>)
    requires Fresh(j, Programme) && Published(plan, j, false, [], PROGRAMME, plan', j', silent', CLOCK) && Filled(plan)
    requires OnScreen(plan).Holding?
    ensures Filled(plan')
  {
    hide Label, Batched, SilenceAfter, EndsOf, JoinTime, OnScreen;
    GathersAll(j, PROGRAMME);
    var g := Gather(j, PROGRAMME);
    assert g.boundary[2] == LATE && g.boundary[1] == EARLY;
    var bridge, packets :| SplicedBy(plan, g, false, [], bridge, packets, plan', silent', CLOCK);
    BatchOf(PROGRAMME, JoinTime(EndsOf(plan, CLOCK)), Programme);
  }

  // The run.

  /** A holding picture was shown, and nothing else. */
  ghost predicate Shown(c: TransitionCoordinator)
    reads c, c.dispatcher
  {
    c.Valid() && c.failure == NoFailure && c.clock == CLOCK && AllHolding(c.trace) && HasHoldingPicture(c.trace) && Filled(c.trace)
  }

  /** A call failed, or another thread asked for an epoch in between. */
  predicate Disturbed(c: TransitionCoordinator)
    reads c, c.dispatcher
  {
    c.failure != NoFailure || c.epoch < c.dispatcher.floor
  }

  method ShowHolding(c: TransitionCoordinator, now: int) returns (done: bool)
    requires c.Valid() && c.failure == NoFailure && c.clock == CLOCK && c.trace == []
    modifies c, c.dispatcher
    ensures c.Valid() && (done ==> Shown(c)) && (done || Disturbed(c))
  {
    hide MayFail, Handles, Watched, Published, Exposes, NoSoundUnderHolding, Label, Batched, Gather, OwedDrain, SilenceAfter, HasHoldingPicture, Filled, AllHolding, TransitionCoordinator.Valid;
    done := false;
    c.Request(EmergencyDump, 0, true, true, now);
    if c.failure != NoFailure { return; }
    ghost var j, silent := c.joint, KeptSilence(c.silentAac, JOIN);
    c.HoldingPackets(JOIN, now);
    if c.failure != NoFailure || c.dispatcher.floor > c.epoch { return; }
    FirstScene(j, silent, c.Plan(), c.joint, c.silentAac);
    done := true;
  }

  lemma {:induction false} DrainAppended(t: seq<Item>, e: Ends)
    requires AllHolding(t) && HasHoldingPicture(t) && Filled(t)
    ensures var u := t + [DrainFrame(e, [1])]; AllHolding(u) && HasHoldingPicture(u) && Filled(u)
  {
    DrainHolds(e);
    var i :| 0 <= i < |t| && HoldingPicture(t[i]);
    assert (t + [DrainFrame(e, [1])])[i] == t[i];
  }

  lemma {:induction false} Continued(plan: seq<Item>, j: Joint, silent: seq<Byte>, plan': seq<Item>, j': Joint, silent': seq<Byte>)
    requires j.desired.Holding? && j.selected == Some(Holding) && j.cutoff == Some(0)
    requires Published(plan, j, false, silent, [EMPTY], plan', j', silent', CLOCK)
    ensures silent' == []
  {
    hide Label, Batched, SilenceAfter;
    BatchOfEmpty(j.offset, silent);
  }

  /** A second scene is scheduled behind its drain, and its feed goes on with an empty sound. Neither goes out yet. */
  method ScheduleEmpty(c: TransitionCoordinator, now: int) returns (done: bool)
    requires Shown(c)
    modifies c, c.dispatcher
    ensures c.Valid() && (done ==> Shown(c) && c.silentAac == []) && (done || Disturbed(c))
  {
    hide MayFail, Handles, Watched, Published, Exposes, NoSoundUnderHolding, Label, Batched, Gather, SilenceAfter, Filled, AllHolding, TransitionCoordinator.Valid,
      DrainFrame, EndsOf, PlanOf;
    done := false;
    ghost var t := c.trace;
    c.Request(EmergencyDump, 0, true, true, now);
    if c.failure != NoFailure { return; }
    c.Unfold();
    ghost var j, silent, ends := c.joint, KeptSilence(c.silentAac, JOIN), c.planned;
    c.HoldingPackets(JOIN, now);
    if c.failure != NoFailure || c.dispatcher.floor > c.epoch { return; }
    SecondScene(t, j, silent, c.Plan(), c.joint, c.silentAac);
    DrainAppended(t, ends);
    c.PacedModes();
    ghost var plan, u := c.Plan(), c.trace;
    assert u + [] == u;
    assert AllHolding(u) && HasHoldingPicture(u) && Filled(u);
    j, silent := c.joint, KeptSilence(c.silentAac, [EMPTY]);
    c.HoldingPackets([EMPTY], now);
    if c.failure != NoFailure || c.dispatcher.floor > c.epoch { return; }
    Continued(plan, j, silent, c.Plan(), c.joint, c.silentAac);
    done := true;
  }

  /** The programme is requested directly, and takes over with sound in front of its key picture. */
  method SwitchDirectly(c: TransitionCoordinator, now: int) returns (done: bool)
    requires Shown(c) && c.silentAac == []
    modifies c, c.dispatcher
    ensures c.Valid() && (done ==> c.failure == NoFailure && Filled(c.trace) && !NoSoundUnderHolding(c.trace, c.clock)) && (done || Disturbed(c))
  {
    hide MayFail, Handles, Watched, Published, Exposes, NoSoundUnderHolding, Label, Batched, Gather, SilenceAfter, Filled, AllHolding, HasHoldingPicture, OnScreen,
      TransitionCoordinator.Valid, EndsOf, PlanOf;
    done := false;
    ghost var t := c.trace;
    c.Request(SetDelay, 0, true, true, now);
    if c.failure != NoFailure { return; }
    HoldingStaysOn(t);
    c.PacedModes();
    ghost var j := c.joint;
    ExposedBy(t, j);
    c.ProgrammePacket(KEY, true, PROGRAMME, now);
    if c.failure != NoFailure || c.dispatcher.floor > c.epoch { return; }
    assert [] + PROGRAMME == PROGRAMME;
    ProgrammeFilled(t, j, c.Plan(), c.joint, c.silentAac);
    done := true;
  }

  /** Undisturbed, the run breaks the promise, and nothing that was handed out has an empty payload. */
  method Run(now: int) returns (c: TransitionCoordinator)
    ensures c.Valid() && (Disturbed(c) || (Filled(c.trace) && !NoSoundUnderHolding(c.trace, c.clock)))
  {
    hide NoSoundUnderHolding, Filled, AllHolding, HasHoldingPicture, TransitionCoordinator.Valid;
    var dispatcher := new ReleasedPacketDispatcher();
    c := new TransitionCoordinator(dispatcher, 1, HEADERS, CLOCK, now);
    if c.failure != NoFailure { return; }
    c.HoldingReady(HEADERS, true);
    if c.failure != NoFailure { return; }
    var done := ShowHolding(c, now);
    if done { done := ScheduleEmpty(c, now); }
    if done { done := SwitchDirectly(c, now); }
  }
}
