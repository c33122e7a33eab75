/** The coordinator's plan as a value: what was handed over, what may follow, and why each kind of continuation is safe. */
module Plans {
  import opened Media
  import opened Timeline
  import opened Sorting
  import opened Splice
  import opened Dispatcher

  /** What the feeds have supplied so far. */
  datatype Supply = Supply(
    holdingSound: set<seq<Byte>>,  // payloads of the holding feed's audio
    inOrder: bool,                 // each feed in decode order since it last restarted
    programmeLast: Option<int>,    // last decode time of each feed
    holdingLast: Option<int>)
  {
    /** No holding sound was empty. */
    predicate Voiced() { [] !in holdingSound }

    function Last(feed: Feed): Option<int> { if feed.Programme? then programmeLast else holdingLast }
  }

  /** More supply never strengthens a promise. */
  predicate Grows(fed: Supply, fed': Supply) {
    fed.holdingSound <= fed'.holdingSound && (fed'.inOrder ==> fed.inOrder)
  }

  /** A packet as a feed supplies it. */
  predicate Supplied(p: Packet, feed: Feed, fed: Supply) {
    TimingOk(p) && !p.drain && (feed.Holding? && p.kind.Audio? ==> p.payload in fed.holdingSound)
  }

  /** Ends of a timeline: last decode time, end of the sound, end of the pictures. */
  datatype Ends = Ends(output: int, audio: int, video: int)

  function EndsOf(t: seq<Item>, c: Clock): Ends { Ends(LastOutput(t), AudioEnd(t, c), VideoTail(t, c)) }

  lemma {:induction false} EndsAppend(t: seq<Item>, x: Item, c: Clock)
    ensures EndsOf(t + [x], c) == Ends(x.packet.dts,
              if Sound(x) then x.packet.pts + c.aac else EndsOf(t, c).audio,
              if Picture(x) then Max(EndsOf(t, c).video, PictureEnd(x, c)) else EndsOf(t, c).video)
    ensures OnScreen(t + [x]) == if Picture(x) then x.feed else OnScreen(t)
  {
    SummariesAppend(t, x, c);
  }

  /** How a feed is being joined: packets collected from `cutoff` on until the join can be placed. */
  datatype Joint = Joint(desired: Feed, selected: Option<Feed>, cutoff: Option<int>, boundary: seq<Packet>, bytes: int, offset: int)

  datatype Queue = Queue(packets: seq<Packet>, bytes: int)

  /** Which pacing is active and how far it has come. */
  datatype Pace = Pace(
    drainRequired: bool, guardActive: bool, holding: bool, programme: bool, boundarySent: bool, boundaryDelivered: bool,
    drainAck: Option<int>, drainTime: int, resumeOrigin: int, resumeTime: int,
    drainTicket: nat, holdingTicket: nat, programmeTicket: nat)

  datatype Deadlines = Deadlines(boundary: int, programme: Option<int>, programmeKey: int)

  function PlanOf(t: seq<Item>, p: Pace, scheduled: seq<Packet>): seq<Item> {
    t + Label(if p.holding then Holding else Programme, scheduled)
  }

  predicate UpTo(s: seq<Packet>, last: Option<int>) {
    s != [] ==> last.Some? && forall i :: 0 <= i < |s| ==> s[i].dts <= last.value
  }

  lemma {:induction false} LabelSnoc(t: seq<Item>, feed: Feed, packets: seq<Packet>, i: nat)
    requires i < |packets|
    ensures t + Label(feed, packets[..i + 1]) == t + Label(feed, packets[..i]) + [Item(feed, packets[i])]
  {
    assert packets[..i + 1] == packets[..i] + [packets[i]];
    LabelConcat(feed, packets[..i], [packets[i]]);
  }

  /** What holds of every timeline the coordinator builds. */
  ghost predicate Kept(t: seq<Item>, fed: Supply, c: Clock) {
    && NeverBack(t)
    && (forall i :: 0 <= i < |t| ==> Placed(t[i].packet))
    && (forall i :: 0 <= i < |t| && t[i].packet.drain ==> Sound(t[i]) && t[i].packet.payload in fed.holdingSound)
    && PicturesDisjoint(t, c)
    && (fed.Voiced() ==> NoSoundUnderHolding(t, c))
    && (fed.inOrder ==> SilenceDisjoint(t, c))
  }

  /** A timeline t at whose end the selected feed may go on. */
  ghost predicate Joining(t: seq<Item>, selected: Option<Feed>, silentAac: seq<Byte>, fed: Supply, c: Clock) {
    && Kept(t, fed, c)
    && (selected.Some? ==> t != [])
    && (selected == Some(Holding) && fed.Voiced() ==> silentAac != [])
    && PicturesJoined(t, selected, c)
    && (NoSoundUnderHolding(t, c) ==> Joined(t, selected, c))
    && (fed.inOrder ==> Muted(t, selected, c))
    && (fed.Voiced() && silentAac == [] ==> !HasHoldingPicture(t))
  }

  /** Everything handed over so far, under epochs up to `epoch`. */
  ghost predicate Past(t: seq<Item>, sent: seq<Batch>, epoch: nat, silentAac: seq<Byte>, fed: Supply, c: Clock) {
    && t == Items(sent)
    && EpochsOpenWithHeaders(sent)
    && (forall i :: 0 <= i < |sent| ==> sent[i].epoch <= epoch)
    && Kept(t, fed, c)
    && (fed.Voiced() && silentAac == [] ==> !HasHoldingPicture(t))
    && (silentAac != [] ==> silentAac in fed.holdingSound)
  }

  predicate OpenedIn(sent: seq<Batch>, epoch: nat) {
    sent != [] && sent[|sent| - 1].epoch == epoch
  }

  /** Which modes go together. `begun` says that the current epoch has been sent a batch. */
  ghost predicate Modes(j: Joint, p: Pace, waiting: seq<Packet>, scheduled: seq<Packet>, headers: Option<CodecHeaders>,
                        planned: Ends, holdingReady: bool, begun: bool) {
    && (j.selected.Some? ==> j.selected.value == j.desired)
    && (j.selected.None? ==> scheduled == [] && !p.programme)
    && (p.holding ==> j.desired.Holding? && !p.programme)
    && (p.programme ==> j.selected == Some(Programme))
    && (j.desired.Holding? ==> !p.boundarySent && !p.boundaryDelivered && holdingReady)
    && (scheduled != [] ==> p.holding || p.programme)
    && (waiting != [] ==> j.desired.Holding?)
    && (p.drainRequired ==> p.holding && j.selected.None? && 0 <= planned.output && p.drainTicket == 0)
    && (forall i :: 0 <= i < |waiting| ==> !waiting[i].drain)
    && (j.selected.Some? && !begun ==> p.programme && headers.Some? && scheduled != [])
    && (p.holding && !p.drainRequired ==> begun)
    && (p.boundarySent || p.boundaryDelivered ==> begun)
  }

  /** What has been collected for a join starts with the key picture at the cutoff. */
  ghost predicate Collected(j: Joint, fed: Supply) {
    && (j.selected.Some? ==> j.cutoff.Some? && j.boundary == [])
    && (j.boundary != [] ==> j.cutoff.Some?)
    && (j.selected.None? && j.cutoff.Some? ==> j.boundary != [] && j.boundary[0].KeyVideo() && j.boundary[0].dts == j.cutoff.value)
    && (forall i :: 0 <= i < |j.boundary| ==> Supplied(j.boundary[i], j.desired, fed) && j.cutoff.value <= j.boundary[i].dts)
  }

  /** The feeds come in decode order, and so does what was taken from them. */
  ghost predicate InFeedOrder(j: Joint, waiting: seq<Packet>, output: int, fed: Supply) {
    && Ordered(j.boundary) && Ordered(waiting)
    && UpTo(j.boundary, fed.Last(j.desired))
    && UpTo(waiting, fed.programmeLast)
    && (j.selected.Some? ==> fed.Last(j.desired).Some? && output <= fed.Last(j.desired).value + j.offset)
  }

  /** The whole plan: trace, queue, and the join in progress. */
  ghost predicate Planning(t: seq<Item>, j: Joint, p: Pace, waiting: seq<Packet>, scheduled: seq<Packet>, headers: Option<CodecHeaders>,
                           planned: Ends, holdingReady: bool, begun: bool, silentAac: seq<Byte>, fed: Supply, c: Clock) {
    && Modes(j, p, waiting, scheduled, headers, planned, holdingReady, begun)
    && Collected(j, fed)
    && planned == EndsOf(PlanOf(t, p, scheduled), c)
    && Joining(PlanOf(t, p, scheduled), j.selected, silentAac, fed, c)
    && (fed.inOrder ==> InFeedOrder(j, waiting, planned.output, fed))
  }

  lemma {:induction false} PastLater(t: seq<Item>, sent: seq<Batch>, epoch: nat, epoch': nat, silentAac: seq<Byte>, fed: Supply, c: Clock)
    requires Past(t, sent, epoch, silentAac, fed, c) && epoch <= epoch'
    ensures Past(t, sent, epoch', silentAac, fed, c)
    ensures epoch < epoch' ==> !OpenedIn(sent, epoch')
    ensures epoch < epoch' ==> forall i :: 0 <= i < |sent| ==> sent[i].epoch < epoch'
  {}

  lemma {:induction false} PastSnoc(t: seq<Item>, sent: seq<Batch>, b: Batch, silentAac: seq<Byte>, fed: Supply, c: Clock)
    requires Past(t, sent, b.epoch, silentAac, fed, c)
    requires b.headers.Some? || OpenedIn(sent, b.epoch)
    requires Kept(t + b.items, fed, c)
    requires fed.Voiced() && silentAac == [] ==> !HasHoldingPicture(t + b.items)
    ensures Past(t + b.items, sent + [b], b.epoch, silentAac, fed, c)
    ensures OpenedIn(sent + [b], b.epoch)
  {
    ItemsSnoc(sent, b);
    EpochsSnoc(sent, b);
  }

  lemma {:induction false} PastFed(t: seq<Item>, sent: seq<Batch>, epoch: nat, silentAac: seq<Byte>, fed: Supply, fed': Supply, c: Clock)
    requires Past(t, sent, epoch, silentAac, fed, c) && Grows(fed, fed')
    ensures Past(t, sent, epoch, silentAac, fed', c)
  {}

  lemma {:induction false} JoiningFed(t: seq<Item>, selected: Option<Feed>, silentAac: seq<Byte>, fed: Supply, fed': Supply, c: Clock)
    requires Joining(t, selected, silentAac, fed, c) && Grows(fed, fed')
    ensures Joining(t, selected, silentAac, fed', c)
  {}

  lemma {:induction false} NothingYet(epoch: nat, silentAac: seq<Byte>, fed: Supply, c: Clock)
    requires silentAac == []
    ensures Joining([], None, silentAac, fed, c)
    ensures Past([], [], epoch, silentAac, fed, c)
  {}

  lemma {:induction false} QueueEmpty(t: seq<Item>, feed: Feed)
    ensures t + Label(feed, []) == t
  {}

  /** Whatever was handed over can be continued by a feed that starts afresh. */
  lemma {:induction false} StartOver(t: seq<Item>, sent: seq<Batch>, epoch: nat, silentAac: seq<Byte>, fed: Supply, c: Clock)
    requires Past(t, sent, epoch, silentAac, fed, c)
    ensures Joining(t, None, silentAac, fed, c)
    ensures Joining(t, None, silentAac, fed.(programmeLast := None), c)
    ensures Past(t, sent, epoch, silentAac, fed.(programmeLast := None), c)
    ensures 0 <= EndsOf(t, c).output <==> t != []
  {
    PastFed(t, sent, epoch, silentAac, fed, fed.(programmeLast := None), c);
    JoiningFed(t, None, silentAac, fed, fed.(programmeLast := None), c);
  }
  /** After a restart nothing is queued or collected. */
  lemma {:induction false} PlanAfresh(t: seq<Item>, j: Joint, p: Pace, holdingReady: bool, begun: bool, silentAac: seq<Byte>, fed: Supply, c: Clock)
    requires Joining(t, None, silentAac, fed, c)
    requires j.selected == None && j.cutoff == None && j.boundary == [] && !p.programme && !p.boundarySent && !p.boundaryDelivered
    requires (j.desired.Holding? ==> holdingReady) && p.holding == p.drainRequired
    requires p.drainRequired ==> j.desired.Holding? && 0 <= EndsOf(t, c).output && p.drainTicket == 0
    ensures PlanOf(t, p, []) == t
    ensures Planning(t, j, p, [], [], None, EndsOf(t, c), holdingReady, begun, silentAac, fed, c)
  {
    QueueEmpty(t, if p.holding then Holding else Programme);
  }

  lemma {:induction false} PlanningReady(t: seq<Item>, j: Joint, p: Pace, waiting: seq<Packet>, scheduled: seq<Packet>, headers: Option<CodecHeaders>,
                                         planned: Ends, holdingReady: bool, begun: bool, silentAac: seq<Byte>, fed: Supply, c: Clock)
    requires Planning(t, j, p, waiting, scheduled, headers, planned, holdingReady, begun, silentAac, fed, c)
    ensures Planning(t, j, p, waiting, scheduled, headers, planned, true, begun, silentAac, fed, c)
  {}

  function Shift(p: Packet, offset: int): Packet { p.(dts := p.dts + offset, pts := p.pts + offset) }

  /** The packets from `cutoff` on, moved by `offset`. */
  function Rebase(s: seq<Packet>, cutoff: int, offset: int): seq<Packet>
  {
    if s == [] then []
    else Rebase(s[..|s| - 1], cutoff, offset) + if cutoff <= s[|s| - 1].dts then [Shift(s[|s| - 1], offset)] else []
  }

  lemma {:induction false} RebaseMember(s: seq<Packet>, cutoff: int, offset: int, i: nat) returns (k: nat)
    requires i < |Rebase(s, cutoff, offset)|
    ensures k < |s| && cutoff <= s[k].dts && Rebase(s, cutoff, offset)[i] == Shift(s[k], offset)
  {
    var init := Rebase(s[..|s| - 1], cutoff, offset);
    if i < |init| { k := RebaseMember(s[..|s| - 1], cutoff, offset, i); } else { k := |s| - 1; }
  }

  lemma {:induction false} RebaseAll(s: seq<Packet>, cutoff: int, offset: int)
    requires forall i :: 0 <= i < |s| ==> cutoff <= s[i].dts
    ensures |Rebase(s, cutoff, offset)| == |s|
    ensures forall i :: 0 <= i < |s| ==> Rebase(s, cutoff, offset)[i] == Shift(s[i], offset)
  {
    if s != [] { RebaseAll(s[..|s| - 1], cutoff, offset); }
  }

  /** The batch that a bridge and the packets behind it become. */
  function Batched(bridge: seq<Packet>, packets: seq<Packet>, cutoff: int, offset: int): seq<Packet> {
    StableSort(Dts, bridge + Rebase(packets, cutoff, offset))
  }

  lemma {:induction false} BatchedSorted(bridge: seq<Packet>, packets: seq<Packet>, cutoff: int, offset: int)
    ensures SortedBy(Dts, Batched(bridge, packets, cutoff, offset))
  {
    StableSortSorted(Dts, bridge + Rebase(packets, cutoff, offset));
  }

  /** Each packet of a batch is a silent frame of the bridge or a moved packet. */
  lemma {:induction false} BatchedMember(bridge: seq<Packet>, packets: seq<Packet>, cutoff: int, offset: int, i: nat) returns (k: nat)
    requires i < |Batched(bridge, packets, cutoff, offset)|
    ensures var x := Batched(bridge, packets, cutoff, offset)[i];
      || (k < |bridge| && x == bridge[k])
      || (k < |packets| && cutoff <= packets[k].dts && x == Shift(packets[k], offset))
  {
    hide StableSort, SortedBy, Rebase;
    var all := bridge + Rebase(packets, cutoff, offset);
    StableSortSorted(Dts, all);
    assert Batched(bridge, packets, cutoff, offset)[i] in multiset(all);
    var m :| 0 <= m < |all| && all[m] == Batched(bridge, packets, cutoff, offset)[i];
    if m < |bridge| { k := m; } else { k := RebaseMember(packets, cutoff, offset, m - |bridge|); }
  }

  /** A sorted batch no earlier than the plan continues it. */
  lemma {:induction false} BatchContinues(plan: seq<Item>, bridge: seq<Packet>, packets: seq<Packet>, cutoff: int, offset: int, feed: Feed,
                                          fed: Supply, c: Clock)
    requires NeverBack(plan) && Batched(bridge, packets, cutoff, offset) != []
    requires forall i :: 0 <= i < |bridge| ==> bridge[i].drain && bridge[i].kind.Audio? && Placed(bridge[i]) && bridge[i].payload in fed.holdingSound
    requires forall i :: 0 <= i < |packets| ==> Supplied(packets[i], feed, fed)
    requires forall i :: 0 <= i < |Batched(bridge, packets, cutoff, offset)| ==> Max(0, LastOutput(plan)) <= Batched(bridge, packets, cutoff, offset)[i].dts
    ensures Continues(plan, Label(feed, Batched(bridge, packets, cutoff, offset)), feed)
    ensures forall x :: x in Batched(bridge, packets, cutoff, offset) && x.drain ==> x.kind.Audio? && x.payload in fed.holdingSound
    ensures bridge == [] ==> forall x :: x in Batched(bridge, packets, cutoff, offset) ==> !x.drain
  {
    hide StableSort, Rebase, NeverBack, LastOutput, SortedBy;
    var output := Batched(bridge, packets, cutoff, offset);
    StableSortSorted(Dts, bridge + Rebase(packets, cutoff, offset));
    forall i | 0 <= i < |output|
      ensures Placed(output[i]) && (output[i].drain ==> output[i].kind.Audio? && output[i].payload in fed.holdingSound)
      ensures bridge == [] ==> !output[i].drain
    {
      var k := BatchedMember(bridge, packets, cutoff, offset, i);
    }
    NeverBackAppend(plan, output, feed);
  }

  lemma {:induction false} NeverBackAppend(plan: seq<Item>, output: seq<Packet>, feed: Feed)
    requires NeverBack(plan) && SortedBy(Dts, output)
    requires forall i :: 0 <= i < |output| ==> LastOutput(plan) <= output[i].dts
    ensures NeverBack(plan + Label(feed, output))
  {
    var u := plan + Label(feed, output);
    forall i, j | 0 <= i < j < |u| ensures u[i].packet.dts <= u[j].packet.dts {
      if |plan| <= j {
        assert u[j].packet == output[j - |plan|];
        if |plan| <= i {
          assert u[i].packet == output[i - |plan|];
          assert Dts(output[i - |plan|]) <= Dts(output[j - |plan|]);
        } else {
          assert u[i] == plan[i] && plan[i].packet.dts <= plan[|plan| - 1].packet.dts;
        }
      } else {
        assert u[i] == plan[i] && u[j] == plan[j];
      }
    }
  }

  lemma {:induction false} HoldingPictures(plan: seq<Item>, xs: seq<Item>)
    requires !HasHoldingPicture(plan) && forall i :: 0 <= i < |xs| ==> xs[i].feed.Programme?
    ensures !HasHoldingPicture(plan + xs)
  {
    var u := plan + xs;
    forall i | 0 <= i < |u| ensures !HoldingPicture(u[i]) {
      if i < |plan| { assert u[i] == plan[i]; } else { assert u[i] == xs[i - |plan|]; }
    }
  }

  /** Kept for a longer timeline, given what each promise needs. */
  lemma {:induction false} KeptAppend(plan: seq<Item>, xs: seq<Item>, feed: Feed, silentAac: seq<Byte>, silentAac': seq<Byte>, fed: Supply, c: Clock)
    requires Kept(plan, fed, c) && Continues(plan, xs, feed)
    requires fed.Voiced() && silentAac == [] ==> !HasHoldingPicture(plan)
    requires forall i :: 0 <= i < |xs| && xs[i].packet.drain ==> Sound(xs[i]) && xs[i].packet.payload in fed.holdingSound
    requires PicturesDisjoint(plan + xs, c) && PicturesJoined(plan + xs, Some(feed), c)
    requires fed.Voiced() ==> NoSoundUnderHolding(plan + xs, c)
    requires NoSoundUnderHolding(plan + xs, c) ==> Joined(plan + xs, Some(feed), c)
    requires fed.inOrder ==> Muted(plan + xs, Some(feed), c)
    requires silentAac' == silentAac || silentAac' in fed.holdingSound
    requires feed.Holding? && fed.Voiced() ==> silentAac' != []
    ensures Joining(plan + xs, Some(feed), silentAac', fed, c)
  {
    var u := plan + xs;
    forall i | 0 <= i < |u| ensures Placed(u[i].packet) && (u[i].packet.drain ==> Sound(u[i]) && u[i].packet.payload in fed.holdingSound) {
      if i < |plan| { assert u[i] == plan[i]; } else { assert u[i] == xs[i - |plan|]; }
    }
    if fed.Voiced() && silentAac' == [] { HoldingPictures(plan, xs); }
  }

  lemma {:induction false} NoSoundPrefix(t: seq<Item>, u: seq<Item>, c: Clock)
    requires t <= u && NoSoundUnderHolding(u, c)
    ensures NoSoundUnderHolding(t, c)
  {
    forall h: nat, s: nat | h < |t| && s < |t| && HoldingPicture(t[h]) && ProgrammeSound(t[s]) ensures Apart(t, h, s, c) {
      assert Apart(u, h, s, c);
      ApartPrefix(t, u, h, s, c);
    }
  }

  /** A feed that goes on neither breaks nor mends the promise about sound. */
  lemma {:induction false} ContinueSound(plan: seq<Item>, xs: seq<Item>, feed: Feed, c: Clock)
    requires NeverBack(plan) && PicturesDisjoint(plan, c) && forall i :: 0 <= i < |plan| ==> Placed(plan[i].packet)
    requires NoSoundUnderHolding(plan, c) ==> Joined(plan, Some(feed), c)
    requires Continues(plan, xs, feed)
    ensures NoSoundUnderHolding(plan + xs, c) <==> NoSoundUnderHolding(plan, c)
    ensures NoSoundUnderHolding(plan + xs, c) ==> Joined(plan + xs, Some(feed), c)
  {
    hide NoSoundUnderHolding, Joined, NeverBack, PicturesDisjoint;
    if NoSoundUnderHolding(plan, c) {
      assert Safe(plan, c);
      if feed.Programme? { ContinueProgramme(plan, xs, c); } else { ContinueHolding(plan, xs, c); }
    } else if NoSoundUnderHolding(plan + xs, c) {
      NoSoundPrefix(plan, plan + xs, c);
    }
  }

  /** The selected feed goes on. */
  lemma {:induction false} ContinuePlan(plan: seq<Item>, packets: seq<Packet>, cutoff: int, offset: int, feed: Feed,
                                        silentAac: seq<Byte>, silentAac': seq<Byte>, fed: Supply, c: Clock)
    requires Joining(plan, Some(feed), silentAac, fed, c)
    requires forall i :: 0 <= i < |packets| ==> Supplied(packets[i], feed, fed)
    requires Batched([], packets, cutoff, offset) != []
    requires forall i :: 0 <= i < |Batched([], packets, cutoff, offset)| ==> LastOutput(plan) <= Batched([], packets, cutoff, offset)[i].dts
    requires silentAac' == silentAac || silentAac' in fed.holdingSound
    ensures Joining(plan + Label(feed, Batched([], packets, cutoff, offset)), Some(feed), silentAac', fed, c)
  {
    var output := Batched([], packets, cutoff, offset);
    var xs := Label(feed, output);
    assert plan[|plan| - 1].packet.dts >= 0;
    BatchContinues(plan, [], packets, cutoff, offset, feed, fed, c);
    assert forall i :: 0 <= i < |xs| ==> xs[i].packet == output[i] && output[i] in output;
    ContinuePictures(plan, xs, feed, c);
    ContinueSound(plan, xs, feed, c);
    if fed.inOrder { ContinueMuted(plan, xs, feed, c); }
    KeptAppend(plan, xs, feed, silentAac, silentAac', fed, c);
  }

  /** What a join starts from: the key picture at the cutoff, then packets of the feed up to the first sound and beyond. */
  ghost predicate Joinable(packets: seq<Packet>, cutoff: int, feed: Feed, fed: Supply) {
    && packets != [] && packets[0].KeyVideo() && packets[0].dts == cutoff
    && (forall i :: 0 <= i < |packets| ==> Supplied(packets[i], feed, fed) && cutoff <= packets[i].dts)
    && (exists i :: 0 <= i < |packets| && packets[i].kind.Audio?)
  }

  /** A bridge that starts after everything planned and ends before the first sound of the joining feed. */
  ghost predicate Bridging(plan: seq<Item>, bridge: seq<Packet>, silentAac: seq<Byte>, from: int, until: int, fed: Supply, c: Clock) {
    && Silence(bridge, silentAac, from, c.aac, until)
    && Max(0, Max(LastOutput(plan), AudioEnd(plan, c))) <= from
    && (bridge != [] ==> silentAac in fed.holdingSound)
  }

  lemma {:induction false} BridgePlaced(plan: seq<Item>, bridge: seq<Packet>, silentAac: seq<Byte>, from: int, until: int, fed: Supply, c: Clock)
    requires Bridging(plan, bridge, silentAac, from, until, fed, c) && 0 < c.aac
    ensures SortedBy(Dts, bridge)
    ensures forall i :: 0 <= i < |bridge| ==> bridge[i].drain && bridge[i].kind.Audio? && Placed(bridge[i]) && bridge[i].payload in fed.holdingSound
  {}

  lemma {:induction false} JoinMembers(plan: seq<Item>, bridge: seq<Packet>, packets: seq<Packet>, cutoff: int, next: int, feed: Feed, silentAac: seq<Byte>,
                                       from: int, until: int, fed: Supply, c: Clock)
    requires Bridging(plan, bridge, silentAac, from, until, fed, c) && Clears(plan, next, c) && 0 <= next
    requires Joinable(packets, cutoff, feed, fed)
    ensures var output := Batched(bridge, packets, cutoff, next - cutoff);
      && (forall i :: 0 <= i < |output| ==> Max(0, LastOutput(plan)) <= output[i].dts)
      && (forall i :: 0 <= i < |output| && output[i].kind.Video? ==> next <= output[i].dts)
  {
    var output := Batched(bridge, packets, cutoff, next - cutoff);
    forall i | 0 <= i < |output|
      ensures Max(0, LastOutput(plan)) <= output[i].dts && (output[i].kind.Video? ==> next <= output[i].dts)
    {
      var k := BatchedMember(bridge, packets, cutoff, next - cutoff, i);
    }
  }

  /** The key picture of a join lands exactly at `next`. */
  lemma {:induction false} JoinKey(bridge: seq<Packet>, packets: seq<Packet>, cutoff: int, next: int, feed: Feed, fed: Supply) returns (k: nat)
    requires Joinable(packets, cutoff, feed, fed)
    ensures k < |Batched(bridge, packets, cutoff, next - cutoff)| && Batched(bridge, packets, cutoff, next - cutoff)[k].dts == next
  {
    RebaseAll(packets, cutoff, next - cutoff);
    k := SortPosition(bridge + Rebase(packets, cutoff, next - cutoff), |bridge|);
  }

  /** Nothing of a join goes before the plan, and something of it goes at or after `next`. */
  lemma {:induction false} JoinFloor(plan: seq<Item>, bridge: seq<Packet>, packets: seq<Packet>, cutoff: int, next: int, feed: Feed, silentAac: seq<Byte>,
                                     from: int, until: int, fed: Supply, c: Clock)
    requires Bridging(plan, bridge, silentAac, from, until, fed, c) && Clears(plan, next, c) && 0 <= next && 0 < c.aac && NeverBack(plan)
    requires Joinable(packets, cutoff, feed, fed)
    ensures var output := Batched(bridge, packets, cutoff, next - cutoff);
      && Continues(plan, Label(feed, output), feed)
      && (forall i :: 0 <= i < |output| ==> Max(0, LastOutput(plan)) <= output[i].dts)
      && (forall i :: 0 <= i < |output| && output[i].kind.Video? ==> next <= output[i].dts)
      && next <= LastOutput(plan + Label(feed, output))
      && (forall x :: x in output && x.drain ==> x.kind.Audio? && x.payload in fed.holdingSound)
  {
    hide SortedBy, StableSort, Batched, NeverBack, TimingOk, Clears, AudioEnd, VideoTail;
    var output := Batched(bridge, packets, cutoff, next - cutoff);
    BridgePlaced(plan, bridge, silentAac, from, until, fed, c);
    JoinMembers(plan, bridge, packets, cutoff, next, feed, silentAac, from, until, fed, c);
    var k := JoinKey(bridge, packets, cutoff, next, feed, fed);
    BatchContinues(plan, bridge, packets, cutoff, next - cutoff, feed, fed, c);
    var xs := Label(feed, output);
    ContinuesFloor(plan, xs, feed);
    assert xs[k].packet == output[k];
  }

  /** Silence of a join overlaps no sound, if the feed is in order. */
  lemma {:induction false} JoinMuted(plan: seq<Item>, bridge: seq<Packet>, packets: seq<Packet>, cutoff: int, next: int, feed: Feed, silentAac: seq<Byte>,
                                     from: int, until: int, fed: Supply, c: Clock)
    requires Bridging(plan, bridge, silentAac, from, until, fed, c) && Clears(plan, next, c) && 0 <= next && 0 < c.aac
    requires Kept(plan, fed, c) && Muted(plan, None, c)
    requires Joinable(packets, cutoff, feed, fed)
    requires AudioEnd(plan, c) <= until
    requires forall i :: 0 <= i < |packets| && packets[i].kind.Audio? ==> until <= packets[i].dts + next - cutoff
    ensures Muted(plan + Label(feed, Batched(bridge, packets, cutoff, next - cutoff)), Some(feed), c)
  {
    var moved := Rebase(packets, cutoff, next - cutoff);
    RebaseAll(packets, cutoff, next - cutoff);
    var a :| 0 <= a < |packets| && packets[a].kind.Audio?;
    assert moved[a].kind.Audio?;
    BridgeApart(bridge, moved, silentAac, from, AudioEnd(plan, c), until, c.aac);
    JoinFloor(plan, bridge, packets, cutoff, next, feed, silentAac, from, until, fed, c);
    StartMuted(plan, Batched(bridge, packets, cutoff, next - cutoff), AudioEnd(plan, c), until, feed, c);
  }

  lemma {:induction false} JoinProgrammeSafe(plan: seq<Item>, bridge: seq<Packet>, packets: seq<Packet>, cutoff: int, next: int, silentAac: seq<Byte>,
                                             from: int, until: int, fed: Supply, c: Clock)
    requires Bridging(plan, bridge, silentAac, from, until, fed, c) && Clears(plan, next, c) && 0 <= next && c.Admitted() && Safe(plan, c)
    requires Joinable(packets, cutoff, Programme, fed)
    requires HasHoldingPicture(plan) ==> forall i :: 0 <= i < |packets| && packets[i].kind.Audio? ==> packets[0].pts <= packets[i].pts
    ensures var xs := Label(Programme, Batched(bridge, packets, cutoff, next - cutoff));
      Safe(plan + xs, c) && Joined(plan + xs, Some(Programme), c)
  {
    hide NeverBack, AudioEnd, VideoTail, LastOutput, StableSort, Safe, Joined, Clears;
    BridgePlaced(plan, bridge, silentAac, from, until, fed, c);
    JoinFloor(plan, bridge, packets, cutoff, next, Programme, silentAac, from, until, fed, c) by { SafeNeverBack(plan, c); }
    var key, rest := JoinMoved(packets, cutoff, next, Programme, fed);
    assert bridge + Rebase(packets, cutoff, next - cutoff) == bridge + [key] + rest;
    StartProgramme(plan, bridge, key, rest, next, c);
  }

  lemma {:induction false} SafeNeverBack(t: seq<Item>, c: Clock)
    requires Safe(t, c)
    ensures NeverBack(t)
  {}

  /** The moved packets of a join: the key picture at `next`, then the rest. */
  lemma {:induction false} JoinMoved(packets: seq<Packet>, cutoff: int, next: int, feed: Feed, fed: Supply) returns (key: Packet, rest: seq<Packet>)
    requires Joinable(packets, cutoff, feed, fed) && 0 <= next
    ensures Rebase(packets, cutoff, next - cutoff) == [key] + rest
    ensures key.kind.Video? && Placed(key) && key.dts == next && key.pts == packets[0].pts + next - cutoff
    ensures forall i :: 0 <= i < |rest| ==> Placed(rest[i]) && next <= rest[i].dts
    ensures |rest| + 1 == |packets| && forall i :: 0 <= i < |rest| ==> rest[i] == Shift(packets[i + 1], next - cutoff)
    ensures exists i :: 0 <= i < |rest| && rest[i].kind.Audio?
  {
    hide Rebase;
    var moved := Rebase(packets, cutoff, next - cutoff);
    RebaseAll(packets, cutoff, next - cutoff);
    key, rest := moved[0], moved[1..];
    assert moved == [key] + rest;
    forall i | 0 <= i < |rest| ensures rest[i] == Shift(packets[i + 1], next - cutoff) && Placed(rest[i]) && next <= rest[i].dts {
      assert rest[i] == moved[i + 1] && cutoff <= packets[i + 1].dts;
    }
    var a :| 0 <= a < |packets| && packets[a].kind.Audio?;
    assert rest[a - 1].kind.Audio?;
  }

  /** The sound of a join comes no earlier than its key picture. */
  predicate SoundAfterKey(packets: seq<Packet>) {
    forall i :: 0 <= i < |packets| && packets[i].kind.Audio? ==> packets[0].pts <= packets[i].pts
  }

  lemma {:induction false} OnScreenHolding(t: seq<Item>) returns (h: nat)
    requires OnScreen(t).Holding?
    ensures h < |t| && HoldingPicture(t[h]) && forall i :: h < i < |t| ==> !Picture(t[i])
    ensures HasHoldingPicture(t)
  {
    if Picture(t[|t| - 1]) {
      h := |t| - 1;
    } else {
      h := OnScreenHolding(t[..|t| - 1]);
      assert forall i :: h < i < |t| - 1 ==> t[..|t| - 1][i] == t[i];
    }
  }

  /** Where the programme is on screen, it has ended every holding display before a new feed can start. */
  lemma {:induction false} OnScreenCovers(t: seq<Item>, next: int, c: Clock)
    requires OnScreen(t).Programme? && Clears(t, next, c) && c.Admitted()
    requires NeverBack(t) && forall i :: 0 <= i < |t| ==> Placed(t[i].packet)
    ensures Covered(t, next)
  {
    hide LastOutput, AudioEnd, VideoTail, NeverBack;
    SummariesBound(t, c);
    forall h: nat | h < |t| && HoldingPicture(t[h]) ensures EndedBy(t, h, |t|, next) {
      var k := OnScreenProgramme(t, h);
      FirstResumeAt(t, h, k);
      var j: nat :| j <= k && ResumesAt(t, h, j);
      assert PictureEnd(t[j], c) <= VideoTail(t, c);
    }
  }

  lemma {:induction false} OnScreenProgramme(t: seq<Item>, h: nat) returns (k: nat)
    requires OnScreen(t).Programme? && h < |t| && HoldingPicture(t[h])
    ensures h < k < |t| && ProgrammePicture(t[k])
  {
    if Picture(t[|t| - 1]) {
      k := |t| - 1;
    } else {
      k := OnScreenProgramme(t[..|t| - 1], h);
    }
  }

  /** A programme joins a programme. */
  lemma {:induction false} JoinCovered(plan: seq<Item>, xs: seq<Item>, next: int, c: Clock)
    requires Safe(plan, c) && OnScreen(plan).Programme? && Clears(plan, next, c) && c.Admitted() && Continues(plan, xs, Programme)
    requires forall i :: 0 <= i < |xs| && !xs[i].packet.drain ==> next <= xs[i].packet.dts
    requires forall i :: 0 <= i < |xs| && xs[i].packet.drain ==> Sound(xs[i])
    requires next <= LastOutput(plan + xs)
    ensures Safe(plan + xs, c) && Joined(plan + xs, Some(Programme), c)
  {
    hide LastOutput, AudioEnd, VideoTail, NeverBack, NoSoundUnderHolding, PicturesDisjoint;
    SummariesBound(plan, c);
    OnScreenCovers(plan, next, c);
    AppendProgramme(plan, xs, next, c);
    CoveredLater(plan + xs, next, LastOutput(plan + xs));
  }

  /** A programme that joins behind a holding picture with sound before its key picture is heard under that picture. */
  lemma {:induction false} EarlySoundIsHeard(plan: seq<Item>, bridge: seq<Packet>, packets: seq<Packet>, cutoff: int, next: int, fed: Supply, c: Clock)
    requires OnScreen(plan).Holding? && Joinable(packets, cutoff, Programme, fed) && 0 <= next && !SoundAfterKey(packets)
    requires SortedBy(Dts, bridge) && forall i :: 0 <= i < |bridge| ==> bridge[i].kind.Audio?
    ensures !NoSoundUnderHolding(plan + Label(Programme, Batched(bridge, packets, cutoff, next - cutoff)), c)
  {
    hide Label, StableSort, OnScreen, Rebase;
    var key, rest := JoinMoved(packets, cutoff, next, Programme, fed);
    assert bridge + Rebase(packets, cutoff, next - cutoff) == bridge + [key] + rest;
    var pre, post := SortKeepsFront(Dts, bridge, key, rest);
    var output := pre + [key] + post;
    var u := plan + Label(Programme, output);
    var h := OnScreenHolding(plan);
    var a :| 0 <= a < |packets| && packets[a].kind.Audio? && packets[a].pts < packets[0].pts;
    var s := EarlySound(pre, key, post, bridge, rest, packets, a, next - cutoff);
    var k, m := |plan| + s, |plan| + |pre|;
    assert u[k].packet == output[s] && u[m].packet == key;
    assert ProgrammeSound(u[k]) && HoldingPicture(u[h]);
    assert forall i :: |plan| <= i < m ==> u[i].packet == bridge[i - |plan|];
    assert !EndedBy(u, h, k, u[k].packet.pts) by {
      forall j: nat | j < k && ResumesAt(u, h, j) ensures j == m {
        assert ProgrammePicture(u[m]) && h < m;
      }
    }
    assert !Apart(u, h, k, c);
  }

  lemma {:induction false} EarlySound(pre: seq<Packet>, key: Packet, post: seq<Packet>, bridge: seq<Packet>, rest: seq<Packet>,
                                      packets: seq<Packet>, a: nat, offset: int) returns (s: nat)
    requires multiset(pre + post) == multiset(bridge + rest) && a < |packets| && packets[a].kind.Audio? && packets[0].kind.Video?
    requires |rest| + 1 == |packets| && forall i :: 0 <= i < |rest| ==> rest[i] == Shift(packets[i + 1], offset)
    ensures s < |pre + [key] + post| && (pre + [key] + post)[s] == Shift(packets[a], offset)
  {
    var x := Shift(packets[a], offset);
    assert rest[a - 1] == x && x in multiset(bridge + rest) by { assert (bridge + rest)[|bridge| + a - 1] == x; }
    assert x in pre + post;
    var i :| 0 <= i < |pre + post| && (pre + post)[i] == x;
    s := if i < |pre| then i else i + 1;
  }

  /** A feed that joins breaks the promise about sound exactly when it is a programme with sound before its key picture, and
      a holding picture is on screen. */
  lemma {:induction false} JoinSoundExactly(plan: seq<Item>, bridge: seq<Packet>, packets: seq<Packet>, cutoff: int, next: int, feed: Feed,
                                            silentAac: seq<Byte>, from: int, until: int, fed: Supply, c: Clock)
    requires Bridging(plan, bridge, silentAac, from, until, fed, c) && Clears(plan, next, c) && 0 <= next && c.Admitted()
    requires Joinable(packets, cutoff, feed, fed)
    requires NeverBack(plan) && PicturesDisjoint(plan, c) && forall i :: 0 <= i < |plan| ==> Placed(plan[i].packet)
    ensures var u := plan + Label(feed, Batched(bridge, packets, cutoff, next - cutoff));
      && (NoSoundUnderHolding(u, c) <==>
            NoSoundUnderHolding(plan, c) && (feed.Programme? && OnScreen(plan).Holding? ==> SoundAfterKey(packets)))
      && (NoSoundUnderHolding(u, c) ==> Joined(u, Some(feed), c))
  {
    hide NoSoundUnderHolding, Joined, NeverBack, PicturesDisjoint, AudioEnd, VideoTail, LastOutput, StableSort, Batched, Joinable, Clears, Label;
    var xs := Label(feed, Batched(bridge, packets, cutoff, next - cutoff));
    if !NoSoundUnderHolding(plan, c) {
      if NoSoundUnderHolding(plan + xs, c) { NoSoundPrefix(plan, plan + xs, c); }
    } else {
      assert Safe(plan, c);
      JoinFloor(plan, bridge, packets, cutoff, next, feed, silentAac, from, until, fed, c);
      if feed.Holding? {
        JoinLabels(bridge, packets, cutoff, next, feed);
        StartHolding(plan, xs, next, c);
      } else if SoundAfterKey(packets) {
        JoinProgrammeSafe(plan, bridge, packets, cutoff, next, silentAac, from, until, fed, c);
      } else if OnScreen(plan).Programme? {
        JoinLabels(bridge, packets, cutoff, next, feed);
        JoinMovedLater(plan, bridge, packets, cutoff, next, feed, silentAac, from, until, fed, c);
        JoinCovered(plan, xs, next, c);
      } else {
        BridgePlaced(plan, bridge, silentAac, from, until, fed, c);
        EarlySoundIsHeard(plan, bridge, packets, cutoff, next, fed, c);
      }
    }
  }

  lemma {:induction false} JoinLabels(bridge: seq<Packet>, packets: seq<Packet>, cutoff: int, next: int, feed: Feed)
    ensures var output := Batched(bridge, packets, cutoff, next - cutoff); var xs := Label(feed, output);
      |xs| == |output| && forall i :: 0 <= i < |xs| ==> xs[i] == Item(feed, output[i]) && output[i] in output
  {}

  /** All but the silence of a join starts at `next` or later. */
  lemma {:induction false} JoinMovedLater(plan: seq<Item>, bridge: seq<Packet>, packets: seq<Packet>, cutoff: int, next: int, feed: Feed, silentAac: seq<Byte>,
                                          from: int, until: int, fed: Supply, c: Clock)
    requires Bridging(plan, bridge, silentAac, from, until, fed, c) && Joinable(packets, cutoff, feed, fed)
    ensures var output := Batched(bridge, packets, cutoff, next - cutoff);
      forall i :: 0 <= i < |output| && !output[i].drain ==> next <= output[i].dts
  {
    hide StableSort, AudioEnd, LastOutput;
    var output := Batched(bridge, packets, cutoff, next - cutoff);
    forall i | 0 <= i < |output| && !output[i].drain ensures next <= output[i].dts {
      var k := BatchedMember(bridge, packets, cutoff, next - cutoff, i);
    }
  }

  lemma {:induction false} JoinPictures(plan: seq<Item>, bridge: seq<Packet>, packets: seq<Packet>, cutoff: int, next: int, feed: Feed,
                                        silentAac: seq<Byte>, from: int, until: int, fed: Supply, c: Clock)
    requires Kept(plan, fed, c) && Bridging(plan, bridge, silentAac, from, until, fed, c) && Clears(plan, next, c) && 0 <= next
    requires c.Admitted() && Joinable(packets, cutoff, feed, fed)
    ensures var xs := Label(feed, Batched(bridge, packets, cutoff, next - cutoff));
      && Continues(plan, xs, feed) && PicturesDisjoint(plan + xs, c) && PicturesJoined(plan + xs, Some(feed), c)
      && forall i :: 0 <= i < |xs| && xs[i].packet.drain ==> Sound(xs[i]) && xs[i].packet.payload in fed.holdingSound
  {
    hide NoSoundUnderHolding, Joined, NeverBack, PicturesDisjoint, PicturesJoined, Muted, AudioEnd, VideoTail, LastOutput, Batched, Clears;
    var output := Batched(bridge, packets, cutoff, next - cutoff);
    var xs := Label(feed, output);
    JoinFloor(plan, bridge, packets, cutoff, next, feed, silentAac, from, until, fed, c);
    assert forall i :: 0 <= i < |xs| ==> xs[i].packet == output[i] && output[i] in output;
    StartPictures(plan, xs, next, feed, c);
  }

  /** A feed joins the plan: every promise is kept, and none of its packets would go back in time. */
  lemma {:induction false} JoinPlan(plan: seq<Item>, bridge: seq<Packet>, packets: seq<Packet>, cutoff: int, next: int, feed: Feed,
                                    silentAac: seq<Byte>, silentAac': seq<Byte>, from: int, until: int, fed: Supply, c: Clock)
    requires Joining(plan, None, silentAac, fed, c) && c.Admitted()
    requires Bridging(plan, bridge, silentAac, from, until, fed, c) && Clears(plan, next, c) && 0 <= next
    requires Joinable(packets, cutoff, feed, fed)
    requires feed.Programme? && fed.Voiced() && HasHoldingPicture(plan) ==>
      forall i :: 0 <= i < |packets| && packets[i].kind.Audio? ==> packets[0].pts <= packets[i].pts
    requires fed.inOrder ==> AudioEnd(plan, c) <= until
    requires fed.inOrder ==> forall i :: 0 <= i < |packets| && packets[i].kind.Audio? ==> until <= packets[i].dts + next - cutoff
    requires silentAac' == silentAac || silentAac' in fed.holdingSound
    requires feed.Holding? ==> silentAac' in fed.holdingSound
    ensures Joining(plan + Label(feed, Batched(bridge, packets, cutoff, next - cutoff)), Some(feed), silentAac', fed, c)
  {
    hide NoSoundUnderHolding, Joined, NeverBack, PicturesDisjoint, PicturesJoined, Muted, AudioEnd, VideoTail, LastOutput, Batched, Clears, Continues, Label;
    var xs := Label(feed, Batched(bridge, packets, cutoff, next - cutoff));
    JoinPictures(plan, bridge, packets, cutoff, next, feed, silentAac, from, until, fed, c);
    JoinSoundExactly(plan, bridge, packets, cutoff, next, feed, silentAac, from, until, fed, c);
    if fed.Voiced() && OnScreen(plan).Holding? { var _ := OnScreenHolding(plan); }
    if fed.inOrder { JoinMuted(plan, bridge, packets, cutoff, next, feed, silentAac, from, until, fed, c); }
    KeptAppend(plan, xs, feed, silentAac, silentAac', fed, c);
  }

  /** The drain frame: one silent frame after everything that was planned. */
  lemma {:induction false} DrainPlan(plan: seq<Item>, payload: seq<Byte>, t: int, silentAac: seq<Byte>, fed: Supply, c: Clock)
    requires Joining(plan, None, silentAac, fed, c) && payload in fed.holdingSound
    requires 0 <= t && LastOutput(plan) <= t && AudioEnd(plan, c) <= t
    ensures Joining(plan + [Item(Holding, Packet(Audio, payload, t, t, false, true))], None, payload, fed, c)
  {
    var x := Item(Holding, Packet(Audio, payload, t, t, false, true));
    var u := plan + [x];
    SummariesBound(plan, c);
    PicturesAppend(plan, [x], Holding, c);
    if NoSoundUnderHolding(plan, c) { AppendSilence(plan, x, c); }
    DrainInOrder(plan, x);
    if fed.inOrder { DrainMuted(plan, x, c); }
  }

  lemma {:induction false} DrainInOrder(plan: seq<Item>, x: Item)
    requires NeverBack(plan) && (forall i :: 0 <= i < |plan| ==> plan[i].packet.dts <= x.packet.dts)
    requires Placed(x.packet) && forall i :: 0 <= i < |plan| ==> Placed(plan[i].packet)
    ensures NeverBack(plan + [x]) && forall i :: 0 <= i < |plan + [x]| ==> Placed((plan + [x])[i].packet)
  {
    var u := plan + [x];
    forall i, j | 0 <= i < j < |u| ensures u[i].packet.dts <= u[j].packet.dts {
      if j < |plan| { assert u[j] == plan[j]; }
    }
  }

  lemma {:induction false} DrainMuted(plan: seq<Item>, x: Item, c: Clock)
    requires SilenceDisjoint(plan, c) && forall i :: 0 <= i < |plan| && Sound(plan[i]) ==> plan[i].packet.pts + c.aac <= x.packet.pts
    ensures SilenceDisjoint(plan + [x], c)
  {
    var u := plan + [x];
    forall i, j | 0 <= i < j < |u| && Sound(u[i]) && Sound(u[j]) && (u[i].packet.drain || u[j].packet.drain)
      ensures u[i].packet.pts + c.aac <= u[j].packet.pts
    {
      if j < |plan| { assert u[j] == plan[j]; }
    }
  }

  /** No packet of a batch is later than the feed itself. */
  lemma {:induction false} BatchUpTo(bridge: seq<Packet>, packets: seq<Packet>, cutoff: int, offset: int, last: int)
    requires forall i :: 0 <= i < |packets| ==> packets[i].dts <= last
    requires forall i :: 0 <= i < |bridge| ==> bridge[i].dts <= last + offset
    ensures forall i :: 0 <= i < |Batched(bridge, packets, cutoff, offset)| ==> Batched(bridge, packets, cutoff, offset)[i].dts <= last + offset
  {
    forall i | 0 <= i < |Batched(bridge, packets, cutoff, offset)| ensures Batched(bridge, packets, cutoff, offset)[i].dts <= last + offset {
      var k := BatchedMember(bridge, packets, cutoff, offset, i);
    }
  }

  lemma {:induction false} BatchNotBefore(packets: seq<Packet>, cutoff: int, offset: int, floor: int)
    requires forall i :: 0 <= i < |packets| ==> floor <= packets[i].dts + offset
    ensures forall i :: 0 <= i < |Batched([], packets, cutoff, offset)| ==> floor <= Batched([], packets, cutoff, offset)[i].dts
  {
    forall i | 0 <= i < |Batched([], packets, cutoff, offset)| ensures floor <= Batched([], packets, cutoff, offset)[i].dts {
      var k := BatchedMember([], packets, cutoff, offset, i);
    }
  }

  lemma {:induction false} QueueMore(t: seq<Item>, p: Pace, scheduled: seq<Packet>, more: seq<Packet>)
    ensures PlanOf(t, p, scheduled + more) == PlanOf(t, p, scheduled) + Label(if p.holding then Holding else Programme, more)
  {
    LabelConcat(if p.holding then Holding else Programme, scheduled, more);
  }

  /** Handing over the front of the queue leaves the plan as it is. */
  lemma {:induction false} QueueLess(t: seq<Item>, p: Pace, due: seq<Packet>, rest: seq<Packet>)
    ensures PlanOf(t + Label(if p.holding then Holding else Programme, due), p, rest) == PlanOf(t, p, due + rest)
  {
    LabelConcat(if p.holding then Holding else Programme, due, rest);
  }

  lemma {:induction false} KeptPrefix(t: seq<Item>, u: seq<Item>, selected: Option<Feed>, silentAac: seq<Byte>, fed: Supply, c: Clock)
    requires t <= u && Joining(u, selected, silentAac, fed, c)
    ensures Kept(t, fed, c) && (fed.Voiced() && silentAac == [] ==> !HasHoldingPicture(t))
  {
    if fed.Voiced() { NoSoundPrefix(t, u, c); }
  }

  lemma {:induction false} PastSilence(t: seq<Item>, sent: seq<Batch>, epoch: nat, silentAac: seq<Byte>, silentAac': seq<Byte>, fed: Supply, c: Clock)
    requires Past(t, sent, epoch, silentAac, fed, c) && silentAac' in fed.holdingSound
    ensures Past(t, sent, epoch, silentAac', fed, c)
  {}

  // What the feeds supply.

  ghost function SupplyProgramme(fed: Supply, packets: seq<Packet>): Supply {
    if packets == [] then fed
    else fed.(inOrder := fed.inOrder && Ordered(packets) && (fed.programmeLast.Some? ==> fed.programmeLast.value <= packets[0].dts),
              programmeLast := Some(packets[|packets| - 1].dts))
  }

  ghost function SupplyHolding(fed: Supply, packets: seq<Packet>): Supply {
    if packets == [] then fed
    else fed.(holdingSound := fed.holdingSound + set i | 0 <= i < |packets| && packets[i].kind.Audio? :: packets[i].payload,
              inOrder := fed.inOrder && Ordered(packets) && (fed.holdingLast.Some? ==> fed.holdingLast.value <= packets[0].dts),
              holdingLast := Some(packets[|packets| - 1].dts))
  }

  /** The packets come after everything already taken from the desired feed. */
  ghost predicate Follows(j: Joint, packets: seq<Packet>, output: int, fed: Supply) {
    && Ordered(packets)
    && UpTo(packets, fed.Last(j.desired))
    && (forall i, k :: 0 <= i < |j.boundary| && 0 <= k < |packets| ==> j.boundary[i].dts <= packets[k].dts)
    && (j.selected.Some? ==> forall i :: 0 <= i < |packets| ==> output <= packets[i].dts + j.offset)
  }

  lemma {:induction false} ProgrammeSupplied(j: Joint, waiting: seq<Packet>, output: int, fed: Supply, ready: seq<Packet>)
    requires fed.inOrder ==> InFeedOrder(j, waiting, output, fed)
    ensures Grows(fed, SupplyProgramme(fed, ready))
    ensures SupplyProgramme(fed, ready).inOrder ==>
      && InFeedOrder(j, waiting, output, SupplyProgramme(fed, ready))
      && (j.desired.Programme? ==> Follows(j, ready, output, SupplyProgramme(fed, ready)))
      && Ordered(waiting + ready) && UpTo(waiting + ready, SupplyProgramme(fed, ready).programmeLast)
  {}

  lemma {:induction false} HoldingSupplied(j: Joint, waiting: seq<Packet>, output: int, fed: Supply, packets: seq<Packet>)
    requires fed.inOrder ==> InFeedOrder(j, waiting, output, fed)
    ensures Grows(fed, SupplyHolding(fed, packets))
    ensures SupplyHolding(fed, packets).inOrder ==>
      && InFeedOrder(j, waiting, output, SupplyHolding(fed, packets))
      && (j.desired.Holding? ==> Follows(j, packets, output, SupplyHolding(fed, packets)))
    ensures forall i :: 0 <= i < |packets| && packets[i].kind.Audio? ==> packets[i].payload in SupplyHolding(fed, packets).holdingSound
  {}

  lemma {:induction false} OrderPlaced(j: Joint, j': Joint, waiting: seq<Packet>, output: int, output': int, fed: Supply)
    requires InFeedOrder(j, waiting, output, fed) && j'.desired == j.desired && j'.boundary == []
    requires fed.Last(j.desired).Some? && output' <= fed.Last(j.desired).value + j'.offset
    ensures InFeedOrder(j', waiting, output', fed)
  {}

  // Steps of the plan.

  lemma {:induction false} PlanningFed(t: seq<Item>, j: Joint, p: Pace, waiting: seq<Packet>, scheduled: seq<Packet>, headers: Option<CodecHeaders>,
                                       planned: Ends, ready: bool, begun: bool, silentAac: seq<Byte>, fed: Supply, fed': Supply, c: Clock)
    requires Planning(t, j, p, waiting, scheduled, headers, planned, ready, begun, silentAac, fed, c) && Grows(fed, fed')
    requires fed'.inOrder ==> InFeedOrder(j, waiting, planned.output, fed')
    ensures Planning(t, j, p, waiting, scheduled, headers, planned, ready, begun, silentAac, fed', c)
  {
    JoiningFed(PlanOf(t, p, scheduled), j.selected, silentAac, fed, fed', c);
  }

  lemma {:induction false} PlanningSilence(t: seq<Item>, j: Joint, p: Pace, waiting: seq<Packet>, scheduled: seq<Packet>, headers: Option<CodecHeaders>,
                                           planned: Ends, ready: bool, begun: bool, silentAac: seq<Byte>, silentAac': seq<Byte>, fed: Supply, c: Clock)
    requires Planning(t, j, p, waiting, scheduled, headers, planned, ready, begun, silentAac, fed, c) && silentAac' in fed.holdingSound
    ensures Planning(t, j, p, waiting, scheduled, headers, planned, ready, begun, silentAac', fed, c)
  {}

  /** Only the collected packets of a join change. */
  lemma {:induction false} PlanningCollected(t: seq<Item>, j: Joint, j': Joint, p: Pace, waiting: seq<Packet>, scheduled: seq<Packet>,
                                             headers: Option<CodecHeaders>, planned: Ends, ready: bool, begun: bool, silentAac: seq<Byte>, fed: Supply, c: Clock)
    requires Planning(t, j, p, waiting, scheduled, headers, planned, ready, begun, silentAac, fed, c)
    requires j.selected.None? && j' == j.(cutoff := j'.cutoff, boundary := j'.boundary, bytes := j'.bytes)
    requires Collected(j', fed)
    requires fed.inOrder ==> Ordered(j'.boundary) && UpTo(j'.boundary, fed.Last(j.desired))
    ensures Planning(t, j', p, waiting, scheduled, headers, planned, ready, begun, silentAac, fed, c)
  {}

  /** Silence kept for bridges after a batch: a holding batch leaves its last sound. */
  function SilenceAfter(feed: Feed, output: seq<Packet>, silentAac: seq<Byte>): seq<Byte> {
    if output == [] then silentAac
    else if feed.Holding? && output[|output| - 1].kind.Audio? then output[|output| - 1].payload
    else SilenceAfter(feed, output[..|output| - 1], silentAac)
  }

  lemma {:induction false} SilenceKept(feed: Feed, output: seq<Packet>, silentAac: seq<Byte>)
    ensures output == [] || feed.Programme? ==> SilenceAfter(feed, output, silentAac) == silentAac
  {
    if output == [] {
    } else {
      SilenceKept(feed, output[..|output| - 1], silentAac);
    }
  }

  lemma {:induction false} SilenceAfterOrigin(feed: Feed, output: seq<Packet>, silentAac: seq<Byte>, fed: Supply)
    requires SoundsKnown(output, feed, fed)
    ensures var s := SilenceAfter(feed, output, silentAac);
      && (s == silentAac || s in fed.holdingSound)
      && (feed.Holding? && (exists i :: 0 <= i < |output| && output[i].kind.Audio?) ==> s in fed.holdingSound)
  {
    if output != [] {
      var init := output[..|output| - 1];
      SilenceAfterOrigin(feed, init, silentAac, fed);
      if i :| 0 <= i < |output| && output[i].kind.Audio? && i < |output| - 1 { assert init[i].kind.Audio?; }
    }
  }

  /** A placed batch is queued behind the pacing of its feed. */
  lemma {:induction false} PlanningQueued(t: seq<Item>, j: Joint, j': Joint, p: Pace, p': Pace, waiting: seq<Packet>, scheduled: seq<Packet>, more: seq<Packet>,
                                          headers: Option<CodecHeaders>, headers': Option<CodecHeaders>, planned: Ends, planned': Ends, ready: bool, begun: bool,
                                          silentAac: seq<Byte>, fed: Supply, c: Clock)
    requires Modes(j, p, waiting, scheduled, headers, planned, ready, begun) && !p.drainRequired && more != []
    requires j'.desired == j.desired && j'.selected == Some(j.desired) && j'.cutoff.Some? && j'.boundary == []
    requires if j.selected.Some? then headers' == headers else headers'.Some?
    requires p' == p || (j.selected.None? && j.desired.Programme? &&
                         p' == p.(programme := true, boundarySent := false, resumeOrigin := p'.resumeOrigin, resumeTime := p'.resumeTime))
    requires if j.desired.Holding? then p'.holding else p'.programme
    requires planned' == EndsOf(PlanOf(t, p, scheduled) + Label(j.desired, more), c)
    requires Joining(PlanOf(t, p, scheduled) + Label(j.desired, more), Some(j.desired), silentAac, fed, c)
    requires fed.inOrder ==> InFeedOrder(j', waiting, planned'.output, fed)
    ensures PlanOf(t, p', scheduled + more) == PlanOf(t, p, scheduled) + Label(j.desired, more)
    ensures Planning(t, j', p', waiting, scheduled + more, headers', planned', ready, begun, silentAac, fed, c)
  {
    QueueMore(t, p', scheduled, more);
    assert p'.holding == p.holding;
  }

  /** A placed batch of an unpaced feed is handed over at once. */
  lemma {:induction false} PlanningSent(t: seq<Item>, j: Joint, j': Joint, p: Pace, waiting: seq<Packet>, scheduled: seq<Packet>, more: seq<Packet>,
                                        headers: Option<CodecHeaders>, planned: Ends, planned': Ends, ready: bool, begun: bool, silentAac: seq<Byte>, fed: Supply, c: Clock)
    requires Modes(j, p, waiting, scheduled, headers, planned, ready, begun) && !p.drainRequired
    requires j'.desired == j.desired && j'.selected == Some(j.desired) && j'.cutoff.Some? && j'.boundary == []
    requires if j.desired.Holding? then !p.holding else !p.programme
    requires planned' == EndsOf(PlanOf(t, p, scheduled) + Label(j.desired, more), c)
    requires Joining(PlanOf(t, p, scheduled) + Label(j.desired, more), Some(j.desired), silentAac, fed, c)
    requires fed.inOrder ==> InFeedOrder(j', waiting, planned'.output, fed)
    ensures scheduled == [] && PlanOf(t, p, scheduled) == t && PlanOf(t + Label(j.desired, more), p, []) == t + Label(j.desired, more)
    ensures j.selected.Some? ==> begun
    ensures Planning(t + Label(j.desired, more), j', p, waiting, [], headers, planned', ready, true, silentAac, fed, c)
  {
    QueueEmpty(t, if p.holding then Holding else Programme);
    QueueEmpty(t + Label(j.desired, more), if p.holding then Holding else Programme);
  }

  lemma {:induction false} RebaseSnoc(s: seq<Packet>, i: nat, cutoff: int, offset: int)
    requires i < |s|
    ensures Rebase(s[..i + 1], cutoff, offset) == Rebase(s[..i], cutoff, offset) + if cutoff <= s[i].dts then [Shift(s[i], offset)] else []
  {
    assert s[..i + 1][..i] == s[..i];
  }

  predicate SoundsKnown(output: seq<Packet>, feed: Feed, fed: Supply) {
    feed.Holding? ==> forall i :: 0 <= i < |output| && output[i].kind.Audio? ==> output[i].payload in fed.holdingSound
  }

  /** Every sound of a holding batch comes from the holding feed. */
  lemma {:induction false} BatchSounds(bridge: seq<Packet>, packets: seq<Packet>, cutoff: int, offset: int, feed: Feed, fed: Supply)
    requires forall i :: 0 <= i < |bridge| ==> bridge[i].payload in fed.holdingSound
    requires forall i :: 0 <= i < |packets| ==> Supplied(packets[i], feed, fed)
    ensures SoundsKnown(Batched(bridge, packets, cutoff, offset), feed, fed)
  {
    forall i | feed.Holding? && 0 <= i < |Batched(bridge, packets, cutoff, offset)| && Batched(bridge, packets, cutoff, offset)[i].kind.Audio?
      ensures Batched(bridge, packets, cutoff, offset)[i].payload in fed.holdingSound
    {
      var k := BatchedMember(bridge, packets, cutoff, offset, i);
    }
  }

  // The join.

  /** A feed of boundary packets without the sound that precedes its first picture. */
  function FromKey(s: seq<Packet>, firstPts: int): seq<Packet> {
    if s == [] then []
    else FromKey(s[..|s| - 1], firstPts) +
         if s[|s| - 1].kind.Audio? && s[|s| - 1].pts < firstPts then [] else [s[|s| - 1]]
  }

  lemma {:induction false} FromKeyMembers(s: seq<Packet>, firstPts: int)
    ensures forall x :: x in FromKey(s, firstPts) <==> x in s && !(x.kind.Audio? && x.pts < firstPts)
  {
    if s != [] {
      assert s == s[..|s| - 1] + [s[|s| - 1]];
      FromKeyMembers(s[..|s| - 1], firstPts);
    }
  }

  lemma {:induction false} FromKeyOrdered(s: seq<Packet>, firstPts: int)
    requires Ordered(s)
    ensures Ordered(FromKey(s, firstPts))
  {
    if s != [] {
      var init := s[..|s| - 1];
      FromKeyOrdered(init, firstPts);
      FromKeyMembers(init, firstPts);
      forall x | x in init ensures x.dts <= s[|s| - 1].dts {}
    }
  }

  lemma {:induction false} FromKeyFirst(s: seq<Packet>, firstPts: int)
    requires s != [] && s[0].kind.Video?
    ensures FromKey(s, firstPts) != [] && FromKey(s, firstPts)[0] == s[0]
  {
    if |s| > 1 { FromKeyFirst(s[..|s| - 1], firstPts); }
  }

  predicate HasSound(s: seq<Packet>) {
    exists i :: 0 <= i < |s| && s[i].kind.Audio?
  }

  /** Position of the first sound. */
  function FirstSound(s: seq<Packet>): (k: nat)
    requires HasSound(s)
    ensures k < |s| && s[k].kind.Audio? && forall i :: 0 <= i < k ==> !s[i].kind.Audio?
  {
    if s[0].kind.Audio? then 0 else (
      assert HasSound(s[1..]) by { var i :| 0 <= i < |s| && s[i].kind.Audio?; assert s[1..][i - 1].kind.Audio?; }
      1 + FirstSound(s[1..]))
  }

  /** Position of the first key picture, or the length if there is none. */
  function FirstKey(s: seq<Packet>): (k: nat)
    ensures k <= |s| && (k < |s| ==> s[k].KeyVideo()) && forall i :: 0 <= i < k ==> !s[i].KeyVideo()
  {
    if s == [] || s[0].KeyVideo() then 0 else 1 + FirstKey(s[1..])
  }

  /** Presentation time of the earliest sound. */
  method EarliestSound(s: seq<Packet>) returns (t: int)
    requires HasSound(s)
    ensures exists i :: 0 <= i < |s| && s[i].kind.Audio? && s[i].pts == t
    ensures forall i :: 0 <= i < |s| && s[i].kind.Audio? ==> t <= s[i].pts
  {
    var first: Option<int> := None;
    var i := 0;
    while i < |s|
      invariant 0 <= i <= |s|
      invariant first.None? ==> !HasSound(s[..i])
      invariant first.Some? ==> exists k :: 0 <= k < i && s[k].kind.Audio? && s[k].pts == first.value
      invariant first.Some? ==> forall k :: 0 <= k < i && s[k].kind.Audio? ==> first.value <= s[k].pts
    {
      if s[i].kind.Audio? && (first.None? || s[i].pts < first.value) { first := Some(s[i].pts); }
      i := i + 1;
    }
    assert s[..i] == s;
    t := first.value;
  }

  /** Everything a join needs: packets from a key picture on, a time at which the plan is clear, and a bridge up to the
      first sound. */
  ghost predicate Spliceable(plan: seq<Item>, bridge: seq<Packet>, packets: seq<Packet>, cutoff: int, next: int, feed: Feed,
                             silentAac: seq<Byte>, from: int, until: int, fed: Supply, c: Clock) {
    && Joinable(packets, cutoff, feed, fed)
    && Clears(plan, next, c) && 0 <= next
    && Bridging(plan, bridge, silentAac, from, until, fed, c)
    && (feed.Programme? && fed.Voiced() && HasHoldingPicture(plan) ==>
          forall i :: 0 <= i < |packets| && packets[i].kind.Audio? ==> packets[0].pts <= packets[i].pts)
    && (fed.inOrder ==>
          && AudioEnd(plan, c) <= until
          && UpTo(packets, fed.Last(feed)) && until <= fed.Last(feed).value + next - cutoff
          && forall i :: 0 <= i < |packets| && packets[i].kind.Audio? ==> until <= packets[i].dts + next - cutoff)
  }

  /** What the batch of a join keeps. */
  lemma {:induction false} JoinPlaced(plan: seq<Item>, bridge: seq<Packet>, packets: seq<Packet>, cutoff: int, next: int, feed: Feed,
                                      silentAac: seq<Byte>, from: int, until: int, fed: Supply, c: Clock)
    requires Joining(plan, None, silentAac, fed, c) && c.Admitted()
    requires Spliceable(plan, bridge, packets, cutoff, next, feed, silentAac, from, until, fed, c)
    ensures var output := Batched(bridge, packets, cutoff, next - cutoff);
      && output != [] && SoundsKnown(output, feed, fed)
      && Joining(plan + Label(feed, output), Some(feed), SilenceAfter(feed, output, silentAac), fed, c)
      && (forall i :: 0 <= i < |output| ==> EndsOf(plan, c).output <= output[i].dts)
      && (fed.inOrder ==> fed.Last(feed).Some? && forall i :: 0 <= i < |output| ==> output[i].dts <= fed.Last(feed).value + next - cutoff)
  {
    hide Joining, SortedBy, StableSort, Batched, NeverBack, TimingOk, Clears, AudioEnd, VideoTail, LastOutput, SilenceAfter;
    var output := Batched(bridge, packets, cutoff, next - cutoff);
    JoiningNeverBack(plan, None, silentAac, fed, c);
    JoinFloor(plan, bridge, packets, cutoff, next, feed, silentAac, from, until, fed, c);
    BatchSounds(bridge, packets, cutoff, next - cutoff, feed, fed);
    JoinSound(bridge, packets, cutoff, next, feed, fed);
    SilenceAfterOrigin(feed, output, silentAac, fed);
    JoinPlan(plan, bridge, packets, cutoff, next, feed, silentAac, SilenceAfter(feed, output, silentAac), from, until, fed, c);
    if fed.inOrder { BatchUpTo(bridge, packets, cutoff, next - cutoff, fed.Last(feed).value); }
  }

  /** Every packet of a joining feed is on the wire strictly later than everything planned before it, whatever the base of
      the wire clock; silence in front of it is not earlier than what was planned. */
  lemma {:induction false} JoinLater(plan: seq<Item>, bridge: seq<Packet>, packets: seq<Packet>, cutoff: int, next: int, feed: Feed,
                                     silentAac: seq<Byte>, from: int, until: int, fed: Supply, c: Clock, k: nat, i: nat, base: int)
    requires Joining(plan, None, silentAac, fed, c) && c.Admitted()
    requires Spliceable(plan, bridge, packets, cutoff, next, feed, silentAac, from, until, fed, c)
    requires k < |plan| && i < |Batched(bridge, packets, cutoff, next - cutoff)|
    ensures var x := Batched(bridge, packets, cutoff, next - cutoff)[i];
      && WireTime(plan[k].packet.dts, base) <= WireTime(x.dts, base)
      && (!x.drain ==> WireTime(plan[k].packet.dts, base) < WireTime(x.dts, base))
  {
    hide Batched, AudioEnd, VideoTail, Joined, Muted, Safe, SilenceDisjoint, WireTime;
    var m := BatchedMember(bridge, packets, cutoff, next - cutoff, i);
    var x := Batched(bridge, packets, cutoff, next - cutoff)[i];
    assert plan[k].packet.dts <= LastOutput(plan);
    WireTimeSteps(plan[k].packet.dts, x.dts, base);
  }

  /** The first silent frame of a resume bridge shares the wire tick of the last planned packet exactly when that packet is
      on a whole millisecond and no sound outlasts it. */
  lemma {:induction false} BridgeSharesTick(planned: Ends, base: int)
    requires 0 <= planned.audio && 0 <= planned.output && base % 1000 == 0
    ensures WireTime(CeilMs(Max(planned.audio, planned.output)), base) == WireTime(planned.output, base) <==>
      planned.audio <= planned.output && planned.output % 1000 == 0
  {
    var t := CeilMs(Max(planned.audio, planned.output));
    assert (t - base) % 1000 == 0;
  }

  lemma {:induction false} JoiningNeverBack(t: seq<Item>, selected: Option<Feed>, silentAac: seq<Byte>, fed: Supply, c: Clock)
    requires Joining(t, selected, silentAac, fed, c)
    ensures NeverBack(t)
  {}

  /** Some sound is part of the batch of a join. */
  lemma {:induction false} JoinSound(bridge: seq<Packet>, packets: seq<Packet>, cutoff: int, next: int, feed: Feed, fed: Supply)
    requires Joinable(packets, cutoff, feed, fed)
    ensures HasSound(Batched(bridge, packets, cutoff, next - cutoff))
  {
    hide StableSort, Rebase;
    RebaseAll(packets, cutoff, next - cutoff);
    var a :| 0 <= a < |packets| && packets[a].kind.Audio?;
    var moved := Rebase(packets, cutoff, next - cutoff);
    assert (bridge + moved)[|bridge| + a] == Shift(packets[a], next - cutoff);
    var k := SortPosition(bridge + moved, |bridge| + a);
  }

  /** Ends of a kept timeline are at least those of an empty one. */
  lemma {:induction false} EndsFloor(t: seq<Item>, c: Clock)
    requires 0 < c.aac && 0 < c.programmeFrame && 0 < c.holdingFrame && forall i :: 0 <= i < |t| ==> Placed(t[i].packet)
    ensures -1000 <= EndsOf(t, c).output && 0 <= EndsOf(t, c).audio && -1000 <= EndsOf(t, c).video
    ensures 0 <= EndsOf(t, c).output <==> t != []
  {
    if t != [] { EndsFloor(t[..|t| - 1], c); }
  }

  /** One drain frame was handed over: the join goes on after it. */
  lemma {:induction false} PlanningDrained(t: seq<Item>, j: Joint, p: Pace, p': Pace, waiting: seq<Packet>, scheduled: seq<Packet>, headers: Option<CodecHeaders>,
                                           planned: Ends, ready: bool, begun: bool, silentAac: seq<Byte>, payload: seq<Byte>, time: int, fed: Supply, c: Clock)
    requires Planning(t, j, p, waiting, scheduled, headers, planned, ready, begun, silentAac, fed, c) && p.drainRequired
    requires p' == p.(drainRequired := false, drainTime := p'.drainTime, drainTicket := p'.drainTicket, drainAck := p'.drainAck)
    requires payload in fed.holdingSound && 0 <= time && planned.output <= time && planned.audio <= time
    ensures var x := Item(Holding, Packet(Audio, payload, time, time, false, true));
      && scheduled == [] && PlanOf(t, p, scheduled) == t && planned == EndsOf(t, c)
      && Joining(t + [x], None, payload, fed, c)
      && PlanOf(t + [x], p', scheduled) == t + [x]
      && EndsOf(t + [x], c) == Ends(time, time + c.aac, planned.video)
      && Planning(t + [x], j, p', waiting, scheduled, headers, EndsOf(t + [x], c), ready, true, payload, fed, c)
  {
    hide Joining, EndsOf, Kept;
    var x := Item(Holding, Packet(Audio, payload, time, time, false, true));
    QueueEmpty(t, Holding);
    QueueEmpty(t + [x], Holding);
    EndsAppend(t, x, c);
    DrainPlan(t, payload, time, silentAac, fed, c) by { EndsAre(t, c); }
  }

  /** A plan that awaits its drain has nothing queued, and the collected sound comes from the holding feed. */
  lemma {:induction false} DrainReady(t: seq<Item>, j: Joint, p: Pace, waiting: seq<Packet>, scheduled: seq<Packet>, headers: Option<CodecHeaders>,
                                      planned: Ends, ready: bool, begun: bool, silentAac: seq<Byte>, fed: Supply, c: Clock)
    requires Planning(t, j, p, waiting, scheduled, headers, planned, ready, begun, silentAac, fed, c)
    requires p.drainRequired && HasSound(j.boundary) && c.Admitted()
    ensures ready && p.holding && j.desired.Holding? && scheduled == [] && PlanOf(t, p, scheduled) == t
    ensures 0 <= planned.output && 0 <= planned.audio
    ensures j.boundary[FirstSound(j.boundary)].payload in fed.holdingSound
  {
    QueueEmpty(t, Holding);
    EndsFloor(t, c);
  }

  lemma {:induction false} DrainsToHolding(t: seq<Item>, j: Joint, p: Pace, waiting: seq<Packet>, scheduled: seq<Packet>, headers: Option<CodecHeaders>,
                                           planned: Ends, ready: bool, begun: bool, silentAac: seq<Byte>, fed: Supply, c: Clock)
    requires Planning(t, j, p, waiting, scheduled, headers, planned, ready, begun, silentAac, fed, c)
    ensures p.drainRequired ==> j.desired.Holding?
  {}

  lemma {:induction false} DrainAcknowledged(t: seq<Item>, j: Joint, p: Pace, waiting: seq<Packet>, scheduled: seq<Packet>, headers: Option<CodecHeaders>,
                                             planned: Ends, ready: bool, begun: bool, silentAac: seq<Byte>, fed: Supply, c: Clock, ack: Option<int>)
    requires Planning(t, j, p, waiting, scheduled, headers, planned, ready, begun, silentAac, fed, c)
    ensures Planning(t, j, p.(drainAck := ack), waiting, scheduled, headers, planned, ready, begun, silentAac, fed, c)
  {}

  lemma {:induction false} EndsAre(t: seq<Item>, c: Clock)
    ensures EndsOf(t, c) == Ends(LastOutput(t), AudioEnd(t, c), VideoTail(t, c))
  {}

  /** The first time at which a feed may join. */
  predicate ClearAt(planned: Ends, next: int) {
    && 0 <= planned.audio && -1000 <= planned.output
    && planned.output + 1000 <= next && planned.audio <= next && planned.video + 1000 <= next
  }

  /** What has been collected, with or without the sound before its picture, can be joined. */
  lemma {:induction false} CollectedJoinable(j: Joint, packets: seq<Packet>, fed: Supply)
    requires Collected(j, fed) && j.selected.None? && j.cutoff.Some?
    requires packets == j.boundary || packets == FromKey(j.boundary, j.boundary[0].pts)
    requires HasSound(packets)
    ensures Joinable(packets, j.cutoff.value, j.desired, fed)
  {
    if packets != j.boundary {
      FromKeyMembers(j.boundary, j.boundary[0].pts);
      FromKeyFirst(j.boundary, j.boundary[0].pts);
      forall i | 0 <= i < |packets| ensures Supplied(packets[i], j.desired, fed) && j.cutoff.value <= packets[i].dts {
        assert packets[i] in packets;
        assert packets[i] in j.boundary;
      }
    }
  }

  /** A resume bridge is fit for a join: the sound before the picture is gone. */
  lemma {:induction false} ResumeSpliceable(plan: seq<Item>, j: Joint, waiting: seq<Packet>, bridge: seq<Packet>, next: int,
                                            silentAac: seq<Byte>, fed: Supply, c: Clock)
    requires Collected(j, fed) && j.selected.None? && j.cutoff.Some? && j.desired.Programme?
    requires j.boundary != [] && j.boundary[0].kind.Video? && HasSound(FromKey(j.boundary, j.boundary[0].pts))
    requires ClearAt(EndsOf(plan, c), next) && silentAac in fed.holdingSound && 0 < c.aac
    requires fed.inOrder ==> InFeedOrder(j, waiting, EndsOf(plan, c).output, fed)
    requires var packets := FromKey(j.boundary, j.boundary[0].pts);
      Silence(bridge, silentAac, Max(EndsOf(plan, c).audio, EndsOf(plan, c).output), c.aac, packets[FirstSound(packets)].pts + next - j.cutoff.value)
    ensures var packets := FromKey(j.boundary, j.boundary[0].pts);
      Spliceable(plan, bridge, packets, j.cutoff.value, next, Programme, silentAac, Max(EndsOf(plan, c).audio, EndsOf(plan, c).output),
                 packets[FirstSound(packets)].pts + next - j.cutoff.value, fed, c)
  {
    hide LastOutput, AudioEnd, VideoTail, FromKey, Joinable, Silence, Collected, InFeedOrder, HasHoldingPicture;
    var packets := FromKey(j.boundary, j.boundary[0].pts);
    CollectedJoinable(j, packets, fed);
    FromKeySound(j, fed);
    if fed.inOrder { FromKeyInOrder(j, waiting, EndsOf(plan, c).output, next, fed); }
  }

  lemma {:induction false} FromKeySound(j: Joint, fed: Supply)
    requires j.boundary != [] && j.boundary[0].kind.Video?
    ensures var packets := FromKey(j.boundary, j.boundary[0].pts);
      packets != [] && forall i :: 0 <= i < |packets| && packets[i].kind.Audio? ==> packets[0].pts <= packets[i].pts
  {
    hide FromKey;
    var packets := FromKey(j.boundary, j.boundary[0].pts);
    FromKeyMembers(j.boundary, j.boundary[0].pts);
    FromKeyFirst(j.boundary, j.boundary[0].pts);
    forall i | 0 <= i < |packets| && packets[i].kind.Audio? ensures packets[0].pts <= packets[i].pts {
      assert packets[i] in packets;
    }
  }

  /** The first sound behind a key picture is the earliest, if the feed is in decode order. */
  lemma {:induction false} FromKeyInOrder(j: Joint, waiting: seq<Packet>, output: int, next: int, fed: Supply)
    requires Collected(j, fed) && j.selected.None? && j.cutoff.Some? && InFeedOrder(j, waiting, output, fed)
    requires HasSound(FromKey(j.boundary, j.boundary[0].pts))
    ensures var packets := FromKey(j.boundary, j.boundary[0].pts);
      var first := packets[FirstSound(packets)].pts;
      && UpTo(packets, fed.Last(j.desired)) && j.cutoff.value <= first <= fed.Last(j.desired).value
      && forall i :: 0 <= i < |packets| && packets[i].kind.Audio? ==> first <= packets[i].dts
  {
    hide FromKey;
    var packets := FromKey(j.boundary, j.boundary[0].pts);
    FromKeyMembers(j.boundary, j.boundary[0].pts);
    FromKeyOrdered(j.boundary, j.boundary[0].pts);
    forall i | 0 <= i < |packets|
      ensures packets[i].dts <= fed.Last(j.desired).value && j.cutoff.value <= packets[i].dts
      ensures packets[i].kind.Audio? ==> packets[i].pts == packets[i].dts
    {
      assert packets[i] in packets;
      assert packets[i] in j.boundary;
    }
  }

  /** A bridge behind the drain is fit for a join. */
  lemma {:induction false} DrainSpliceable(plan: seq<Item>, j: Joint, waiting: seq<Packet>, bridge: seq<Packet>, next: int, first: int,
                                           silentAac: seq<Byte>, fed: Supply, c: Clock)
    requires Collected(j, fed) && j.selected.None? && j.cutoff.Some? && j.desired.Holding? && HasSound(j.boundary)
    requires ClearAt(EndsOf(plan, c), next) && silentAac in fed.holdingSound && 0 < c.aac && EndsOf(plan, c).output <= EndsOf(plan, c).audio
    requires fed.inOrder ==> InFeedOrder(j, waiting, EndsOf(plan, c).output, fed)
    requires exists i :: 0 <= i < |j.boundary| && j.boundary[i].kind.Audio? && j.boundary[i].pts == first
    requires forall i :: 0 <= i < |j.boundary| && j.boundary[i].kind.Audio? ==> first <= j.boundary[i].pts
    requires Silence(bridge, silentAac, EndsOf(plan, c).audio, c.aac, first + next - j.cutoff.value)
    ensures Spliceable(plan, bridge, j.boundary, j.cutoff.value, next, Holding, silentAac, EndsOf(plan, c).audio,
                       first + next - j.cutoff.value, fed, c)
  {
    CollectedJoinable(j, j.boundary, fed);
  }

  /** A join that needs no bridge. */
  lemma {:induction false} BareSpliceable(plan: seq<Item>, j: Joint, waiting: seq<Packet>, next: int, silentAac: seq<Byte>, fed: Supply, c: Clock)
    requires Collected(j, fed) && j.selected.None? && j.cutoff.Some? && HasSound(j.boundary)
    requires ClearAt(EndsOf(plan, c), next)
    requires fed.inOrder ==> InFeedOrder(j, waiting, EndsOf(plan, c).output, fed)
    requires j.desired.Programme? && fed.Voiced() ==> !HasHoldingPicture(plan)
    ensures Spliceable(plan, [], j.boundary, j.cutoff.value, next, j.desired, silentAac, Max(EndsOf(plan, c).audio, EndsOf(plan, c).output),
                       EndsOf(plan, c).audio, fed, c)
  {
    CollectedJoinable(j, j.boundary, fed);
    if fed.inOrder { assert j.boundary[0].dts <= fed.Last(j.desired).value; }
  }

  /** A programme may join without a bridge only where no holding picture was ever placed. */
  lemma {:induction false} NoHoldingYet(plan: seq<Item>, silentAac: seq<Byte>, fed: Supply, c: Clock)
    requires Joining(plan, None, silentAac, fed, c)
    requires silentAac == [] || EndsOf(plan, c).output < 0
    ensures fed.Voiced() ==> !HasHoldingPicture(plan)
  {
    if plan != [] { assert Placed(plan[|plan| - 1].packet); }
  }

  // Pacing.

  /** The due part of a queue, in order; what remains is not yet due. */
  method TakeDue(q: Queue, origin: int, start: int, now: int) returns (due: seq<Packet>, rest: Queue)
    ensures due + rest.packets == q.packets
    ensures forall i :: 0 <= i < |due| ==> origin + due[i].dts - start <= now
    ensures rest.packets != [] ==> now < origin + rest.packets[0].dts - start
    ensures rest.bytes == q.bytes - Bytes(due)
  {
    due, rest := [], q;
    while rest.packets != [] && now >= origin + rest.packets[0].dts - start
      invariant due + rest.packets == q.packets
      invariant forall i :: 0 <= i < |due| ==> origin + due[i].dts - start <= now
      invariant rest.bytes == q.bytes - Bytes(due)
      decreases |rest.packets|
    {
      var p := rest.packets[0];
      BytesConcat(due, [p]);
      due, rest := due + [p], Queue(rest.packets[1..], rest.bytes - |p.payload|);
    }
  }

  /** From item `from` on, nothing goes out before its time: `origin` on the clock is `start` on the timeline. */
  predicate InTime(t: seq<Item>, from: nat, origin: int, start: int, now: int) {
    forall i :: from <= i < |t| ==> origin + t[i].packet.dts - start <= now
  }

  lemma {:induction false} DueInTime(t: seq<Item>, feed: Feed, due: seq<Packet>, origin: int, start: int, now: int)
    requires forall i :: 0 <= i < |due| ==> origin + due[i].dts - start <= now
    ensures InTime(t, |t|, origin, start, now) && InTime(t + Label(feed, due), |t|, origin, start, now)
  {}

  /** Fields of the pace that the plan does not depend on may change. */
  predicate SamePlan(p: Pace, p': Pace, desired: Feed, begun: bool) {
    && p' == p.(guardActive := p'.guardActive, drainAck := p'.drainAck, holdingTicket := p'.holdingTicket, programmeTicket := p'.programmeTicket,
               boundarySent := p'.boundarySent, boundaryDelivered := p'.boundaryDelivered)
    && (desired.Holding? || !begun ==> p'.boundarySent == p.boundarySent && p'.boundaryDelivered == p.boundaryDelivered)
  }

  lemma {:induction false} NotesKeepPlan(p: Pace, desired: Feed, begun: bool)
    ensures SamePlan(p, p, desired, begun)
    ensures forall ack :: SamePlan(p, p.(drainAck := ack), desired, begun)
    ensures forall ticket :: SamePlan(p, p.(holdingTicket := ticket), desired, begun)
    ensures SamePlan(p, p.(guardActive := false), desired, begun)
  {}

  lemma {:induction false} PlanningPaced(t: seq<Item>, j: Joint, p: Pace, p': Pace, waiting: seq<Packet>, scheduled: seq<Packet>, headers: Option<CodecHeaders>,
                                         planned: Ends, ready: bool, begun: bool, silentAac: seq<Byte>, fed: Supply, c: Clock)
    requires Planning(t, j, p, waiting, scheduled, headers, planned, ready, begun, silentAac, fed, c)
    requires SamePlan(p, p', j.desired, begun)
    ensures PlanOf(t, p', scheduled) == PlanOf(t, p, scheduled)
    ensures Planning(t, j, p', waiting, scheduled, headers, planned, ready, begun, silentAac, fed, c)
  {}

  /** The due part of the queue may be handed over; the plan stays what it was. */
  lemma {:induction false} PlanningDue(t: seq<Item>, j: Joint, p: Pace, p': Pace, waiting: seq<Packet>, due: seq<Packet>, rest: seq<Packet>,
                                       headers: Option<CodecHeaders>, planned: Ends, ready: bool, begun: bool, silentAac: seq<Byte>, fed: Supply, c: Clock)
    requires Planning(t, j, p, waiting, due + rest, headers, planned, ready, begun, silentAac, fed, c) && due != []
    requires SamePlan(p, p', j.desired, true)
    ensures headers.Some? || begun
    ensures var u := t + Label(j.desired, due);
      && Kept(u, fed, c) && (fed.Voiced() && silentAac == [] ==> !HasHoldingPicture(u))
      && PlanOf(u, p', rest) == PlanOf(t, p, due + rest)
      && Planning(u, j, p', waiting, rest, None, planned, ready, true, silentAac, fed, c)
  {
    hide Joining, Kept, EndsOf, InFeedOrder, Collected;
    QueueLess(t, p, due, rest);
    KeptPrefix(t + Label(j.desired, due), PlanOf(t, p, due + rest), j.selected, silentAac, fed, c);
  }

  /** Pacing ends with the queue empty. */
  lemma {:induction false} PlanningUnpaced(t: seq<Item>, j: Joint, p: Pace, waiting: seq<Packet>, headers: Option<CodecHeaders>,
                                           planned: Ends, ready: bool, begun: bool, silentAac: seq<Byte>, fed: Supply, c: Clock)
    requires Planning(t, j, p, waiting, [], headers, planned, ready, begun, silentAac, fed, c) && !p.drainRequired && (p.programme ==> begun)
    ensures PlanOf(t, p, []) == t
    ensures Planning(t, j, p.(holding := false), waiting, [], headers, planned, ready, begun, silentAac, fed, c)
    ensures Planning(t, j, p.(programme := false), waiting, [], headers, planned, ready, begun, silentAac, fed, c)
  {
    QueueEmpty(t, Programme);
    QueueEmpty(t, Holding);
  }

  /** The programme queued behind a paced holding scene. */
  lemma {:induction false} PlanningWaiting(t: seq<Item>, j: Joint, p: Pace, waiting: seq<Packet>, waiting': seq<Packet>, scheduled: seq<Packet>, headers: Option<CodecHeaders>,
                                           planned: Ends, ready: bool, begun: bool, silentAac: seq<Byte>, fed: Supply, c: Clock)
    requires Planning(t, j, p, waiting, scheduled, headers, planned, ready, begun, silentAac, fed, c)
    requires waiting' != [] ==> j.desired.Holding?
    requires forall i :: 0 <= i < |waiting'| ==> !waiting'[i].drain
    requires fed.inOrder ==> Ordered(waiting') && UpTo(waiting', fed.programmeLast)
    ensures Planning(t, j, p, waiting', scheduled, headers, planned, ready, begun, silentAac, fed, c)
  {}

  /** The programme starts afresh behind the holding scene. */
  lemma {:induction false} PlanningSwitched(t: seq<Item>, j: Joint, j': Joint, p: Pace, waiting: seq<Packet>, scheduled: seq<Packet>, headers: Option<CodecHeaders>,
                                            planned: Ends, ready: bool, begun: bool, begun': bool, silentAac: seq<Byte>, fed: Supply, c: Clock)
    requires Planning(t, j, p, waiting, scheduled, headers, planned, ready, begun, silentAac, fed, c) && j.desired.Holding? && !p.holding
    requires j'.desired.Programme? && j'.selected == None && j'.cutoff == None && j'.boundary == []
    ensures Planning(t, j', p, [], scheduled, headers, planned, ready, begun', silentAac, fed, c)
  {}
}
