/** The coordinator splices the programme and the holding scene into one outgoing timeline. Its ghost `trace` is every
    item handed to the dispatcher; its plan is the trace followed by what is scheduled. */
module Coordinator {
  import opened Media
  import opened Timeline
  import opened Sorting
  import opened Splice
  import opened Dispatcher
  import opened Plans
  import opened Placement
  import opened Awaited
  import opened CodecInForce
  import opened Limits

  const DEADLINE: int := 5000000

  /** The exceptions a call may end with. The owner stops the pipeline on any of them. */
  datatype Failure =
    | NoFailure | HoldingNotReady | CodecUnsupported | ControllerFailed | DrainInvalid | GuardOverflow | GuardTimeout
    | BoundaryOverflow | BoundaryTimeout | KeyframeTimeout | TimingUnsupported | TimestampOverflow | DtsRegression
    | EpochOverflow | ConsumerFailed

  datatype Action = SetDelay | ReturnLive | EmergencyDump

  /** The silence in front of a resumed programme. Its sound may be missing for at most a second; what precedes its first
      picture is dropped. */
  method ResumeBridge(planned: Ends, silent: seq<Byte>, aac: int, boundary: seq<Packet>, offset: int)
    returns (error: Failure, packets: seq<Packet>, bridge: seq<Packet>)
    requires 0 < aac && 0 <= planned.audio && boundary != [] && HasSound(FromKey(boundary, boundary[0].pts))
    ensures packets == FromKey(boundary, boundary[0].pts)
    ensures error in {NoFailure, TimingUnsupported, TimestampOverflow}
    ensures error == TimingUnsupported <==> packets[FirstSound(packets)].pts + offset - planned.audio > RESUME_BRIDGE_LIMIT
    ensures error == NoFailure ==> Fills(bridge, silent, Max(planned.audio, planned.output), aac, packets[FirstSound(packets)].pts + offset)
    ensures error == NoFailure ==> |bridge| * aac <= RESUME_BRIDGE_LIMIT
    ensures error == TimestampOverflow ==>
      Max(Max(planned.audio, planned.output), packets[FirstSound(packets)].pts + offset) > INT64_MAX - 999
  {
    packets, bridge := FromKey(boundary, boundary[0].pts), [];
    var audioStart := packets[FirstSound(packets)].pts + offset;
    if audioStart - planned.audio > RESUME_BRIDGE_LIMIT { return TimingUnsupported, packets, []; }
    var b := Splice.Bridge(silent, Max(planned.audio, planned.output), aac, audioStart);
    if b.None? { return TimestampOverflow, packets, []; }
    SilenceCount(b.value, silent, Max(planned.audio, planned.output), aac, audioStart);
    return NoFailure, packets, b.value;
  }

  /** The silence between the drain and the first sound of the holding feed. */
  method DrainBridge(planned: Ends, silent: seq<Byte>, aac: int, packets: seq<Packet>, offset: int)
    returns (error: Failure, bridge: seq<Packet>, ghost first: int)
    requires 0 < aac && 0 <= planned.audio && HasSound(packets)
    ensures Earliest(packets, first)
    ensures error in {NoFailure, TimestampOverflow}
    ensures error == NoFailure ==> Fills(bridge, silent, planned.audio, aac, first + offset)
    ensures error == TimestampOverflow ==> Max(planned.audio, first + offset) > INT64_MAX - 999
  {
    var earliest := EarliestSound(packets);
    first := earliest;
    var b := Splice.Bridge(silent, planned.audio, aac, earliest + offset);
    if b.None? { return TimestampOverflow, [], first; }
    return NoFailure, b.value, first;
  }

  /** The first sound of a list of packets. */
  predicate SoundsFirst(s: seq<Packet>, payload: seq<Byte>) { HasSound(s) && payload == s[FirstSound(s)].payload }

  /** Why placing packets of a feed may fail: an inadmissible packet, or sound missing for more than a second; a join that
      does not come together within its limits; a paced batch that finds no room; times out of range; a batch that goes back
      in time; a consumer. */
  predicate MayFail(f: Failure, input: seq<Packet>, e: Ends, j: Joint, silent: seq<Byte>, paced: bool, q: Queue) {
    match f
    case NoFailure => InTiming(input) && (j.selected.None? ==> Gathers(j, input))
    case TimingUnsupported => !InTiming(input) || (j.selected.None? && Gathers(j, input) && GapTooLong(e, Gather(j, input), silent))
    case BoundaryOverflow => InTiming(input) && j.selected.None? && !Gathers(j, input)
    case GuardOverflow => paced && (j.selected.Some? && j.cutoff.Some? ==> !RoomFor(q, Batched([], input, j.cutoff.value, j.offset)))
    case TimestampOverflow => !(EndsNear(e, 0) && JointNear(j) && AllNear(input))
    case DtsRegression => true
    case ConsumerFailed => true
    case _ => false
  }

  /** Released programme that cannot go out yet: it waits behind a paced scene, or has no key picture to take over with. */
  predicate Starts(holding: bool, desired: Feed, queued: seq<Packet>, released: seq<Packet>) {
    if holding then released != [] && (queued != [] || FirstKey(released) < |released|)
    else desired.Holding? && queued + released != [] && FirstKey(queued + released) == |queued + released|
  }

  /** The time that released programme may wait. */
  function WaitUntil(until: Option<int>, starts: bool, now: int): Option<int> {
    if starts && until.None? then Some(now + DEADLINE) else until
  }

  /** What the programme hands over: behind a holding scene, from its first key picture on, to a join of its own. */
  function Handed(j: Joint, ready: seq<Packet>): seq<Packet> {
    if j.desired.Holding? then ready[FirstKey(ready)..] else ready
  }

  function HandedTo(j: Joint): Joint {
    if j.desired.Holding? then Joint(Programme, None, None, [], 0, j.offset) else j
  }

  /** What decides how released programme is handled. */
  datatype Instant = Instant(joint: Joint, holding: bool, mayPace: bool, waiting: Queue, scheduled: Queue, planned: Ends, silentAac: seq<Byte>,
                             deadlines: Deadlines, epoch: nat) {
    /** A key picture of the programme puts off the deadline for the next one. */
    function Renewed(packet: Packet, now: int): Instant {
      if packet.KeyVideo() then this.(deadlines := deadlines.(programmeKey := now + DEADLINE)) else this
    }
  }

  /** How the handling of released programme may fail, and what it does to the deadlines: a switch of feeds starts them
      all afresh, and programme that cannot go out may wait for so long. */
  predicate Handles(b: Instant, released: seq<Packet>, now: int, f: Failure, epoch: nat, deadlines: Deadlines) {
    && (f !in {NoFailure, EpochOverflow} ==>
          if b.holding then f == GuardOverflow && !RoomFor(b.waiting, released)
          else MayFail(f, Handed(b.joint, b.waiting.packets + released), b.planned, HandedTo(b.joint), b.silentAac, b.mayPace, b.scheduled))
    && (f == EpochOverflow ==> EPOCH_MAX <= epoch)
    && deadlines == if epoch != b.epoch then Deadlines(now + DEADLINE, None, now + DEADLINE) else
         b.deadlines.(programme := WaitUntil(b.deadlines.programme, Starts(b.holding, b.joint.desired, b.waiting.packets, released), now))
  }

  class TransitionCoordinator {
    const clock: Clock
    const dispatcher: ReleasedPacketDispatcher
    const programmeHeaders: CodecHeaders
    var holdingHeaders: Option<CodecHeaders>
    var failure: Failure
    var epoch: nat

    var ticket: nat
    var planned: Ends              // last_output_, audio_end_, video_tail_
    var published: Ends            // the same for what was handed over
    var publishedFeed: Feed
    var joint: Joint
    var silentAac: seq<Byte>
    var pace: Pace
    var waiting: Queue
    var scheduled: Queue
    var scheduledHeaders: Option<CodecHeaders>
    var tickNow: int
    var deadlines: Deadlines
    ghost var trace: seq<Item>
    ghost var fed: Supply

    ghost function Plan(): seq<Item>
      reads this`trace, this`pace, this`scheduled
    {
      PlanOf(trace, pace, scheduled.packets)
    }

    ghost predicate Opened()
      reads this`epoch, dispatcher`sent
    {
      OpenedIn(dispatcher.sent, epoch)
    }

    /** What holds even after a failure. */
    ghost predicate History()
      reads this, dispatcher
    {
      && clock.Admitted()
      && published == EndsOf(trace, clock)
      && publishedFeed == OnScreen(trace)
      && Past(trace, dispatcher.sent, epoch, silentAac, fed, clock)
      && epoch <= dispatcher.floor && Ticketed(dispatcher.sent, ticket)
      && (dispatcher.reported <==> failure == ConsumerFailed)
      && (holdingHeaders.Some? ==> programmeHeaders.aac == holdingHeaders.value.aac)
      && Decodable(dispatcher.sent, programmeHeaders, holdingHeaders)
    }

    /** What the coordinator waits for was sent, and what it noted as delivered was answered so; the headers of the selected
        feed are in force, or go out with the first of its packets. */
    ghost predicate Watching()
      reads this`pace, this`joint, this`epoch, this`scheduled, this`scheduledHeaders, this`holdingHeaders, dispatcher`sent, dispatcher`answers
    {
      && Watched(pace, joint.desired, joint.selected, epoch, dispatcher.sent, dispatcher.answers)
      && Provided(joint.selected, scheduledHeaders, scheduled.packets, epoch, dispatcher.sent, programmeHeaders, holdingHeaders)
    }

    ghost predicate Planned()
      reads this, dispatcher
    {
      Planning(trace, joint, pace, waiting.packets, scheduled.packets, scheduledHeaders, planned, holdingHeaders.Some?,
               Opened(), silentAac, fed, clock)
    }

    ghost predicate Valid()
      reads this, dispatcher
    {
      && History()
      && (failure == NoFailure ==> Planned() && Watching())
      && (fed.inOrder ==> failure != DtsRegression)
    }

    constructor (dispatcher: ReleasedPacketDispatcher, epoch: nat, headers: CodecHeaders, clock: Clock, now: int)
      requires clock.Admitted() && dispatcher.sent == [] && !dispatcher.reported
      modifies dispatcher`floor
      ensures Valid() && this.dispatcher == dispatcher && this.clock == clock
      ensures trace == [] && dispatcher.sent == [] && fed.Voiced()
      ensures failure in {NoFailure, EpochOverflow} && (failure == EpochOverflow ==> EPOCH_MAX <= Max(dispatcher.floor, epoch - 1))
      ensures failure == NoFailure ==> epoch <= this.epoch && deadlines == Deadlines(now + DEADLINE, None, now + DEADLINE)
    {
      hide Decodable, Provided, Watched, Past, Kept, Joining, OnScreen, Label, OpenedIn, Ticketed, Planning, PlanOf, Valid;
      this.dispatcher := dispatcher;
      this.clock := clock;
      programmeHeaders := headers;
      holdingHeaders := None;
      ticket, planned, published, publishedFeed := 0, Ends(-1000, 0, -1000), Ends(-1000, 0, -1000), Programme;
      joint := Joint(Programme, None, None, [], 0, 0);
      silentAac := [];
      pace := Pace(false, false, false, false, false, false, None, 0, now, 0, 0, 0, 0);
      waiting, scheduled, scheduledHeaders := Queue([], 0), Queue([], 0), None;
      tickNow, deadlines := now, Deadlines(now + DEADLINE, None, now + DEADLINE);
      trace, fed := [], Supply({}, true, None, None);
      failure, this.epoch := NoFailure, 0;
      new;
      var e := dispatcher.ReserveEpoch(if epoch == 0 then 0 else epoch - 1);
      if e.Some? { this.epoch := e.value; } else { failure := EpochOverflow; }
      NothingYet(this.epoch, silentAac, fed, clock);
      NoTickets();
      PlanAfresh([], joint, pace, false, Opened(), silentAac, fed, clock);
      WatchedAfresh(pace, Programme, this.epoch, [], dispatcher.answers);
      NothingProvided(this.epoch, [], headers, None);
      Founded();
    }

    lemma {:induction false} Founded()
      requires clock.Admitted() && trace == [] && published == Ends(-1000, 0, -1000) && publishedFeed == Programme && fed.inOrder
      requires Past(trace, dispatcher.sent, epoch, silentAac, fed, clock) && epoch <= dispatcher.floor && failure != DtsRegression
      requires Ticketed(dispatcher.sent, ticket) && Planned() && Watching() && !dispatcher.reported && failure != ConsumerFailed
      requires holdingHeaders.None? && dispatcher.sent == []
      ensures Valid()
    {
      hide Provided, Watched, Past, Planning, Ticketed;
    }

    /** What was handed out after every call, failed or not: the items of all batches never go back in time and open each
        epoch with headers, tickets rise, all inserted silence comes from the holding feed, and pictures of the two feeds
        follow one another. Programme sound is heard at no instant at which a holding picture is shown: capture admits no
        empty packet, and while no holding sound was empty every call keeps it so. */
    lemma {:induction false} ViewersGet(h: nat, s: nat, x: int)
      requires Valid()
      ensures trace == Items(dispatcher.sent) && EpochsOpenWithHeaders(dispatcher.sent) && Ticketed(dispatcher.sent, ticket)
      ensures Decodable(dispatcher.sent, programmeHeaders, holdingHeaders)
      ensures NeverBack(trace) && forall i :: 0 <= i < |trace| && trace[i].packet.drain ==> Sound(trace[i]) && trace[i].packet.payload in fed.holdingSound
      ensures PicturesDisjoint(trace, clock) && (fed.Voiced() ==> NoSoundUnderHolding(trace, clock))
      ensures NoSoundUnderHolding(trace, clock) && h < |trace| && s < |trace| && HeardAt(trace, s, x, clock) ==> !ShownAt(trace, h, x)
      ensures fed.inOrder ==> SilenceDisjoint(trace, clock) && failure != DtsRegression
    {
      hide NeverBack, EpochsOpenWithHeaders, Ticketed, PicturesDisjoint, SilenceDisjoint, ShownAt, HeardAt, Planning, NoSoundUnderHolding, Watched, Provided, Decodable;
      if NoSoundUnderHolding(trace, clock) && h < |trace| && s < |trace| && HeardAt(trace, s, x, clock) { NeverHeardUnderHolding(trace, clock, h, s, x); }
    }

    /** Ends the session with an exception other than a timestamp regression. */
    method Fail(f: Failure)
      requires History() && failure == NoFailure && f !in {NoFailure, DtsRegression, ConsumerFailed}
      modifies this`failure
      ensures Valid() && failure == f
    {
      hide Decodable, Provided, Watched, Past, Kept, Joining, EndsOf, OnScreen, Label, OpenedIn, Ticketed, Planning, Modes, Collected, InFeedOrder;
      failure := f;
    }

    /** record_publication: what is handed over now ends the published timeline. */
    method RecordPublication(packets: seq<Packet>, feed: Feed)
      requires published == EndsOf(trace, clock) && publishedFeed == OnScreen(trace)
      modifies this`published, this`publishedFeed
      ensures published == EndsOf(trace + Label(feed, packets), clock)
      ensures publishedFeed == OnScreen(trace + Label(feed, packets))
    {
      hide Decodable, Provided, Watched, Past, Kept, Joining, EndsOf, OnScreen, Label, OpenedIn, Ticketed, Planning, Modes, Collected, InFeedOrder;
      var i := 0;
      QueueEmpty(trace, feed);
      while i < |packets|
        invariant 0 <= i <= |packets|
        invariant published == EndsOf(trace + Label(feed, packets[..i]), clock)
        invariant publishedFeed == OnScreen(trace + Label(feed, packets[..i]))
      {
        var p := packets[i];
        ghost var t := trace + Label(feed, packets[..i]);
        EndsAppend(t, Item(feed, p), clock);
        LabelSnoc(trace, feed, packets, i);
        published := published.(output := p.dts);
        if p.kind.Audio? {
          published := published.(audio := p.pts + clock.aac);
        } else {
          publishedFeed := feed;
          published := published.(video := Max(published.video, p.pts + clock.Frame(feed)));
        }
        i := i + 1;
      }
      assert packets[..i] == packets;
    }

    /** The pictures of a batch find the headers of their feed in force. */
    ghost predicate Suits(b: Batch)
      reads this`holdingHeaders, dispatcher`sent
    {
      Matches(b, if b.headers.Some? then b.headers else InForce(dispatcher.sent, b.epoch), programmeHeaders, holdingHeaders)
    }

    /** Records a batch as published and hands it to the dispatcher under the next ticket. */
    method Send(feed: Feed, packets: seq<Packet>, headers: Option<CodecHeaders>)
      requires History() && packets != [] && failure == NoFailure
      requires headers.Some? || Opened()
      requires Kept(trace + Label(feed, packets), fed, clock)
      requires Suits(Batch(epoch, Label(feed, packets), headers, ticket + 1))
      requires fed.Voiced() && silentAac == [] ==> !HasHoldingPicture(trace + Label(feed, packets))
      modifies this`published, this`publishedFeed, this`ticket, this`trace, this`failure
      modifies dispatcher`floor, dispatcher`sent, dispatcher`reported
      ensures trace == old(trace) + Label(feed, packets)
      ensures dispatcher.sent == old(dispatcher.sent) + [Batch(epoch, Label(feed, packets), headers, ticket)]
      ensures ticket == old(ticket) + 1 && dispatcher.answers == old(dispatcher.answers)
      ensures History() && Opened()
      ensures failure == NoFailure || failure == ConsumerFailed
    {
      hide Decodable, Provided, Watched, Past, Kept, Joining, EndsOf, OnScreen, Label, OpenedIn, Ticketed, Planning, Modes, Collected, InFeedOrder;
      RecordPublication(packets, feed);
      ticket := ticket + 1;
      var batch := Batch(epoch, Label(feed, packets), headers, ticket);
      ghost var sent := dispatcher.sent;
      var failed := dispatcher.Dispatch(batch);
      PastSnoc(trace, sent, batch, silentAac, fed, clock);
      TicketedSnoc(sent, old(ticket), batch);
      DecodableSnoc(sent, batch, programmeHeaders, holdingHeaders);
      trace := trace + Label(feed, packets);
      if failed { failure := ConsumerFailed; }
    }

    /** invalidate with a reserved epoch: nothing is selected any more. */
    method Invalidate(reserved: nat, now: int)
      requires History() && failure == NoFailure && epoch < reserved <= dispatcher.floor
      modifies this`epoch, this`failure, this`deadlines, this`joint, dispatcher`floor, dispatcher`reported
      ensures History() && !Opened() && epoch == reserved && NoneSent(dispatcher.sent, epoch)
      ensures deadlines == Deadlines(now + DEADLINE, None, now + DEADLINE)
      ensures joint == Joint(old(joint.desired), None, None, [], 0, old(joint.offset))
      ensures failure == NoFailure || failure == ConsumerFailed
    {
      hide Decodable, Provided, Watched, Past, Kept, Joining, EndsOf, OnScreen, Label, OpenedIn, Ticketed, Planning, Modes, Collected, InFeedOrder;
      epoch := reserved;
      deadlines := Deadlines(now + DEADLINE, None, now + DEADLINE);
      joint := joint.(selected := None, cutoff := None, boundary := [], bytes := 0);
      var failed := dispatcher.DispatchDiscontinuity(epoch);
      PastLater(trace, dispatcher.sent, old(epoch), epoch, silentAac, fed, clock);
      if failed { failure := ConsumerFailed; }
    }

    /** invalidate without a reserved epoch: steps to the next epoch, unless an action was accepted meanwhile. */
    method StepEpoch(now: int) returns (done: bool)
      requires History() && failure == NoFailure
      modifies this`epoch, this`failure, this`deadlines, this`joint, dispatcher`floor, dispatcher`reported
      ensures History()
      ensures done ==> !Opened() && epoch == old(epoch) + 1 && NoneSent(dispatcher.sent, epoch)
      ensures done ==> deadlines == Deadlines(now + DEADLINE, None, now + DEADLINE)
      ensures done ==> joint == Joint(old(joint.desired), None, None, [], 0, old(joint.offset))
      ensures done ==> failure == NoFailure || failure == ConsumerFailed
      ensures !done ==> unchanged(this`epoch, this`joint, this`deadlines)
      ensures !done ==> failure == if EPOCH_MAX <= epoch then EpochOverflow else NoFailure
      ensures !done && failure == NoFailure ==> epoch < dispatcher.floor
    {
      hide Decodable, Provided, Watched, Past, Kept, Joining, EndsOf, OnScreen, Label, OpenedIn, Ticketed, Planning, Modes, Collected, InFeedOrder;
      var moved := dispatcher.AdvanceEpoch(epoch);
      if moved.None? { failure := EpochOverflow; return false; }
      if !moved.value { return false; }
      Invalidate(epoch + 1, now);
      return true;
    }

    /** holding_ready: the holding feed's headers, admitted once and never changed. */
    method HoldingReady(headers: CodecHeaders, admitted: bool)
      requires Valid() && failure == NoFailure
      modifies this`holdingHeaders, this`failure
      ensures Valid() && Plan() == old(Plan())
      ensures failure in {NoFailure, CodecUnsupported}
      ensures failure == NoFailure <==>
        if old(holdingHeaders).Some? then old(holdingHeaders) == Some(headers) else admitted && programmeHeaders.aac == headers.aac
      ensures holdingHeaders == if failure == NoFailure then Some(headers) else old(holdingHeaders)
    {
      hide Decodable, Provided, Watched, Past, Kept, Joining, EndsOf, OnScreen, Label, OpenedIn, Ticketed, Planning, Modes, Collected, InFeedOrder;
      if holdingHeaders.Some? {
        if holdingHeaders.value != headers { Fail(CodecUnsupported); }
        return;
      }
      if !admitted || programmeHeaders.aac != headers.aac { Fail(CodecUnsupported); return; }
      PlanningReady(trace, joint, pace, waiting.packets, scheduled.packets, scheduledHeaders, planned, holdingHeaders.Some?,
                    Opened(), silentAac, fed, clock);
      DecodableReady(dispatcher.sent, programmeHeaders, headers);
      ProvidedReady(joint.selected, scheduledHeaders, scheduled.packets, epoch, dispatcher.sent, programmeHeaders, headers) by { PacedModes(); }
      holdingHeaders := Some(headers);
    }

    /** In rewind mode, a change of delay and a return to live go from programme to programme. */
    static predicate Direct(action: Action, rewindMode: bool) { action != EmergencyDump && rewindMode }

    /** request: an accepted action opens a new epoch and cancels whatever was planned but not published. */
    method Request(action: Action, reserved: nat, rewindMode: bool, controllerOk: bool, now: int)
      requires Valid() && failure == NoFailure
      requires reserved != 0 ==> epoch < reserved <= dispatcher.floor
      modifies this`epoch, this`deadlines, this`joint, this`planned, this`waiting, this`scheduled, this`scheduledHeaders, this`pace, this`fed
      modifies this`failure, dispatcher`floor, dispatcher`reported
      ensures Valid() && fed.holdingSound == old(fed.holdingSound)
      ensures failure in {NoFailure, HoldingNotReady, ControllerFailed, EpochOverflow, ConsumerFailed}
      ensures failure == HoldingNotReady <==> holdingHeaders.None?
      ensures failure == ControllerFailed <==> holdingHeaders.Some? && !Direct(action, rewindMode) && !controllerOk
      ensures failure == EpochOverflow ==> reserved == 0 && EPOCH_MAX <= Max(dispatcher.floor, epoch)
      ensures failure == ConsumerFailed <==> dispatcher.reported
      ensures failure == NoFailure ==> deadlines == Deadlines(now + DEADLINE, None, now + DEADLINE) && (reserved != 0 ==> epoch == reserved)
      ensures failure == NoFailure ==> pace.holding == pace.drainRequired == pace.guardActive
      ensures failure == NoFailure && old(NoSoundUnderHolding(Plan(), clock)) ==> NoSoundUnderHolding(Plan(), clock)
      ensures failure == NoFailure ==> joint == Joint(joint.desired, None, None, [], 0, old(joint.offset)) && waiting.packets == [] && !pace.programme
      ensures failure == NoFailure ==> Plan() == trace && joint.selected == None && old(epoch) < epoch
      ensures failure == NoFailure ==> pace.drainRequired == (joint.desired.Holding? && trace != [])
      ensures failure == NoFailure ==> joint.desired == if Direct(action, rewindMode) then Programme else Holding
    {
      hide NoSoundUnderHolding, NoneSent, Decodable, Provided, Watched, Past, Kept, Joining, EndsOf, OnScreen, Label, OpenedIn, Ticketed, Planning, Modes, Collected, InFeedOrder;
      if NoSoundUnderHolding(Plan(), clock) { NoSoundPrefix(trace, Plan(), clock); }
      if holdingHeaders.None? { Fail(HoldingNotReady); return; }
      var direct := Direct(action, rewindMode);
      if !direct && !controllerOk { Fail(ControllerFailed); return; }
      OpenEpoch(reserved, now);
      if failure != NoFailure { return; }
      ForgetProgramme();
      Restart(if direct then Programme else Holding);
      CheckCodecs();
    }

    /** The last test of request never fails: headers that do not match are not admitted in the first place. */
    method CheckCodecs()
      requires Valid() && holdingHeaders.Some?
      ensures programmeHeaders.aac == holdingHeaders.value.aac
    {
      hide Decodable, Provided, Watched, Past, Planning, Ticketed;
      if pace.drainRequired && programmeHeaders.aac != holdingHeaders.value.aac { assert false; }
    }

    /** The epoch of an action: the one reserved on its acceptance, or else a fresh one. */
    method OpenEpoch(reserved: nat, now: int)
      requires Valid() && failure == NoFailure
      requires reserved != 0 ==> epoch < reserved <= dispatcher.floor
      modifies this`epoch, this`deadlines, this`joint, this`failure, dispatcher`floor, dispatcher`reported
      ensures History() && (failure != NoFailure ==> Valid()) && failure in {NoFailure, EpochOverflow, ConsumerFailed}
      ensures failure == EpochOverflow ==> reserved == 0 && EPOCH_MAX <= Max(dispatcher.floor, epoch)
      ensures failure == NoFailure ==>
        && !Opened() && NoneSent(dispatcher.sent, epoch) && old(epoch) < epoch && (reserved != 0 ==> epoch == reserved)
        && joint == Joint(old(joint.desired), None, None, [], 0, old(joint.offset)) && deadlines == Deadlines(now + DEADLINE, None, now + DEADLINE)
    {
      hide Decodable, Provided, Watched, Past, Kept, Joining, EndsOf, OnScreen, Label, OpenedIn, Ticketed, Planning, Modes, Collected, InFeedOrder;
      var opening := reserved;
      if reserved == 0 {
        var e := dispatcher.ReserveEpoch(epoch);
        if e.None? { Fail(EpochOverflow); return; }
        opening := e.value;
      }
      Invalidate(opening, now);
      if failure != NoFailure { Failed(); }
    }

    /** The rest of request: plan afresh from what was published. */
    method Restart(feed: Feed)
      requires History() && failure == NoFailure && !Opened() && holdingHeaders.Some? && NoneSent(dispatcher.sent, epoch)
      requires joint.selected == None && joint.cutoff == None && joint.boundary == [] && fed.programmeLast.None?
      modifies this`joint, this`planned, this`waiting, this`scheduled, this`scheduledHeaders, this`pace
      ensures Valid()
      ensures Plan() == trace && joint == old(joint).(desired := feed) && waiting.packets == [] && !pace.programme
      ensures pace.drainRequired == (feed.Holding? && trace != []) && pace.holding == pace.drainRequired && pace.guardActive == pace.drainRequired
    {
      hide NoneSent, Decodable, Provided, Watched, Past, Kept, Joining, EndsOf, OnScreen, Label, OpenedIn, Ticketed, Planning, Modes, Collected, InFeedOrder, PlanOf, Valid, Ordered, UpTo, Follows;
      var drain := feed.Holding? && published.output >= 0;
      var paced := Pace(drain, drain, drain, false, false, false, None, pace.drainTime, pace.resumeOrigin, pace.resumeTime, 0, 0, 0);
      Afresh(feed, paced);
      joint, planned, waiting, pace := joint.(desired := feed), published, Queue([], 0), paced;
      scheduled, scheduledHeaders := Queue([], 0), None;
      WatchedAfresh(paced, feed, epoch, dispatcher.sent, dispatcher.answers);
      NothingProvided(epoch, dispatcher.sent, programmeHeaders, holdingHeaders);
      Fold();
    }

    /** The programme starts over, at any time. */
    ghost method ForgetProgramme()
      requires History() && !Opened()
      modifies this`fed
      ensures History() && fed == old(fed).(programmeLast := None)
    {
      hide Decodable, Provided, Watched, Past, Kept, Joining, EndsOf, OnScreen, Label, OpenedIn, Ticketed, Planning, Modes, Collected, InFeedOrder, PlanOf, Valid;
      StartOver(trace, dispatcher.sent, epoch, silentAac, fed, clock);
      fed := fed.(programmeLast := None);
    }

    lemma {:induction false} Afresh(feed: Feed, paced: Pace)
      requires History() && !Opened() && joint.selected == None && joint.cutoff == None && joint.boundary == [] && fed.programmeLast.None?
      requires paced.holding == paced.drainRequired == (feed.Holding? && published.output >= 0)
      requires !paced.programme && !paced.boundarySent && !paced.boundaryDelivered && paced.drainTicket == 0
      ensures PlanOf(trace, paced, []) == trace
      ensures Planning(trace, joint.(desired := feed), paced, [], [], None, published, true, Opened(), silentAac, fed, clock)
      ensures published.output >= 0 <==> trace != []
    {
      hide Decodable, Provided, Watched, Past, Kept, Joining, EndsOf, OnScreen, Label, OpenedIn, Ticketed, Planning, Modes, Collected, InFeedOrder, PlanOf, Valid;
      StartOver(trace, dispatcher.sent, epoch, silentAac, fed, clock);
      assert fed.(programmeLast := None) == fed;
      PlanAfresh(trace, joint.(desired := feed), paced, true, Opened(), silentAac, fed, clock);
    }

    /** A feed goes out unpaced: holding without a drain, or a programme that joins without a bridge. */
    predicate Quiet(feed: Feed)
      reads this`pace, this`silentAac
    {
      if feed.Holding? then !pace.holding else !pace.programme && silentAac == []
    }

    /** Whether packets of a feed that is being joined, or goes on, are queued rather than handed over. */
    predicate MayPace(feed: Feed)
      reads this`pace, this`silentAac
    {
      if feed.Holding? then pace.holding else pace.programme || (silentAac != [] && pace.drainTicket != 0)
    }

    /** publish: places packets of the desired feed on the timeline. Until the feed is selected it collects a join: a key
        picture, some sound, and for a resumed programme some sound not before that picture. */
    method Publish(feed: Feed, input: seq<Packet>, now: int)
      requires Valid() && failure == NoFailure && joint.desired == feed
      requires forall i :: 0 <= i < |input| ==> !input[i].drain
      requires feed.Holding? ==> forall i :: 0 <= i < |input| && input[i].kind.Audio? ==> input[i].payload in fed.holdingSound
      requires fed.inOrder ==> Follows(joint, input, planned.output, fed)
      modifies this`joint, this`planned, this`published, this`publishedFeed, this`silentAac, this`scheduled, this`scheduledHeaders
      modifies this`pace, this`ticket, this`trace, this`failure, dispatcher
      ensures Onwards(old(dispatcher.sent), dispatcher.sent, old(dispatcher.answers), dispatcher.answers, epoch)
      ensures MayFail(failure, input, old(planned), old(joint), old(silentAac), old(MayPace(feed)), old(scheduled))
      ensures failure in {NoFailure, TimingUnsupported, BoundaryOverflow, TimestampOverflow, DtsRegression, GuardOverflow, ConsumerFailed}
      ensures pace.holding == old(pace.holding)
      ensures Valid() && joint.desired == feed && old(trace) <= trace
      ensures failure == NoFailure && feed.Holding? && old(pace.holding) ==>
        trace == old(trace) || trace == old(trace) + OwedDrain(Gather(old(joint), input), old(pace.drainRequired), old(planned))
      ensures failure == NoFailure ==> forall i :: 0 <= i < |input| ==> TimingOk(input[i])
      ensures failure == NoFailure && old(Plan() == trace && Quiet(feed)) ==> Plan() == trace
      ensures failure == NoFailure ==>
        (NoSoundUnderHolding(Plan(), clock) <==>
           old(NoSoundUnderHolding(Plan(), clock)) && !old(Exposes(Plan(), joint, silentAac, input, clock)))
      ensures failure == NoFailure ==>
        Published(old(Plan()), old(joint), old(pace.drainRequired), old(silentAac), input, Plan(), joint, silentAac, clock)
    {
      hide MayFail, Onwards, Decodable, Provided, Watched, Past, Kept, Joining, EndsOf, OnScreen, Label, OpenedIn, Ticketed, Planning, Modes, Collected, InFeedOrder, Published, NoSoundUnderHolding, Exposes, PlanOf;
      ghost var plan, j, draining, silent := Plan(), joint, pace.drainRequired, silentAac;
      Founds();
      Insert(feed, input, now);
      if failure == NoFailure {
        Founds();
        PublishedSound(plan, j, draining, silent, input, Plan(), joint, silentAac, fed, clock);
      }
    }

    /** What the promise about sound rests on. */
    lemma {:induction false} Founds()
      requires Valid() && failure == NoFailure
      ensures Kept(Plan(), fed, clock) && (NoSoundUnderHolding(Plan(), clock) ==> Joined(Plan(), joint.selected, clock)) && InOrderAndPlaced(Plan())
      ensures clock.Admitted() && Collected(joint, fed) && (silentAac == [] || silentAac in fed.holdingSound)
      ensures pace.drainRequired ==> joint.desired.Holding? && Plan() != []
      ensures joint.selected.Some? ==> joint.selected.value == joint.desired && PicturesJoined(Plan(), joint.selected, clock)
    {
      hide NoSoundUnderHolding, Joined, NeverBack, PicturesDisjoint, PicturesJoined;
      EndsFloor(Plan(), clock);
    }

    method Insert(feed: Feed, input: seq<Packet>, now: int)
      requires Valid() && failure == NoFailure && joint.desired == feed
      requires forall i :: 0 <= i < |input| ==> !input[i].drain
      requires feed.Holding? ==> forall i :: 0 <= i < |input| && input[i].kind.Audio? ==> input[i].payload in fed.holdingSound
      requires fed.inOrder ==> Follows(joint, input, planned.output, fed)
      modifies this`joint, this`planned, this`published, this`publishedFeed, this`silentAac, this`scheduled, this`scheduledHeaders
      modifies this`pace, this`ticket, this`trace, this`failure, dispatcher
      ensures Onwards(old(dispatcher.sent), dispatcher.sent, old(dispatcher.answers), dispatcher.answers, epoch)
      ensures MayFail(failure, input, old(planned), old(joint), old(silentAac), old(MayPace(feed)), old(scheduled))
      ensures failure in {NoFailure, TimingUnsupported, BoundaryOverflow, TimestampOverflow, DtsRegression, GuardOverflow, ConsumerFailed}
      ensures pace.holding == old(pace.holding)
      ensures Valid() && joint.desired == feed && old(trace) <= trace
      ensures failure == NoFailure && feed.Holding? && old(pace.holding) ==>
        trace == old(trace) || trace == old(trace) + OwedDrain(Gather(old(joint), input), old(pace.drainRequired), old(planned))
      ensures failure == NoFailure ==> forall i :: 0 <= i < |input| ==> TimingOk(input[i])
      ensures failure == NoFailure && old(Plan() == trace && Quiet(feed)) ==> Plan() == trace
      ensures failure == NoFailure ==>
        Published(old(Plan()), old(joint), old(pace.drainRequired), old(silentAac), input, Plan(), joint, silentAac, clock)
    {
      hide AllNear, EndsNear, GapTooLong, Onwards, Decodable, Provided, Watched, Past, Kept, Joining, EndsOf, OnScreen, Label, OpenedIn, Ticketed, Planning, Modes, Collected, InFeedOrder, Entered, Gather, PlanOf;
      OnwardsSame(dispatcher.sent, dispatcher.answers, epoch);
      Unfold();
      if input == [] { return; }
      if exists i :: 0 <= i < |input| && !TimingOk(input[i]) { Fail(TimingUnsupported); return; }
      assert forall i :: 0 <= i < |input| ==> Supplied(input[i], feed, fed);
      if joint.selected.Some? {
        Continue(feed, input);
        return;
      }
      Attempt(feed, input, now);
    }

    /** A join that has not come together yet takes the packets. */
    method Attempt(feed: Feed, input: seq<Packet>, now: int)
      requires Valid() && failure == NoFailure && joint.desired == feed && joint.selected.None? && InTiming(input)
      requires forall i :: 0 <= i < |input| ==> Supplied(input[i], feed, fed)
      requires fed.inOrder ==> Follows(joint, input, planned.output, fed)
      modifies this`joint, this`planned, this`published, this`publishedFeed, this`silentAac, this`scheduled, this`scheduledHeaders
      modifies this`pace, this`ticket, this`trace, this`failure, dispatcher
      ensures Onwards(old(dispatcher.sent), dispatcher.sent, old(dispatcher.answers), dispatcher.answers, epoch)
      ensures MayFail(failure, input, old(planned), old(joint), old(silentAac), old(MayPace(feed)), old(scheduled))
      ensures pace.holding == old(pace.holding)
      ensures Valid() && joint.desired == feed && old(trace) <= trace
      ensures failure == NoFailure && feed.Holding? && old(pace.holding) ==>
        trace == old(trace) || trace == old(trace) + OwedDrain(Gather(old(joint), input), old(pace.drainRequired), old(planned))
      ensures failure == NoFailure && old(Plan() == trace && Quiet(feed)) ==> Plan() == trace
      ensures failure == NoFailure ==>
        var g := Gather(old(joint), input);
        if Placeable(g, old(planned.output)) then
          Entered(old(Plan()), g, old(pace.drainRequired), old(silentAac), Plan(), joint, silentAac, clock)
        else Plan() == old(Plan()) && joint == g && silentAac == old(silentAac)
    {
      hide Onwards, Decodable, Provided, Watched, Past, Kept, Joining, EndsOf, OnScreen, Label, OpenedIn, Ticketed, Planning, Modes, Collected, InFeedOrder, Entered, Gather, PlanOf;
      hide Placeable, Valid, AllNear, InTiming, GapTooLong, Gathers, Follows, TransitionCoordinator.Valid;
      OnwardsSame(dispatcher.sent, dispatcher.answers, epoch);
      Collect(feed, input);
      if AllNear(old(joint.boundary)) && AllNear(input) { GatherNear(old(joint), input); }
      if failure == NoFailure { Complete(feed, now); }
    }

    /** Joins as soon as enough has been collected. */
    method Complete(feed: Feed, now: int)
      requires Valid() && failure == NoFailure && joint.desired == feed && joint.selected.None? && (joint.cutoff.Some? ==> joint.boundary != [])
      modifies this`joint, this`planned, this`published, this`publishedFeed, this`silentAac, this`scheduled, this`scheduledHeaders
      modifies this`pace, this`ticket, this`trace, this`failure, dispatcher
      ensures Onwards(old(dispatcher.sent), dispatcher.sent, old(dispatcher.answers), dispatcher.answers, epoch)
      ensures failure == TimestampOverflow ==> !(EndsNear(old(planned), 0) && AllNear(old(joint.boundary)))
      ensures failure == GuardOverflow ==> old(MayPace(feed))
      ensures failure == TimingUnsupported ==> GapTooLong(old(planned), old(joint), old(silentAac))
      ensures failure in {NoFailure, TimingUnsupported, TimestampOverflow, DtsRegression, GuardOverflow, ConsumerFailed}
      ensures pace.holding == old(pace.holding)
      ensures Valid() && joint.desired == feed && old(trace) <= trace
      ensures failure == NoFailure && feed.Holding? && old(pace.holding) ==>
        trace == old(trace) || trace == old(trace) + OwedDrain(old(joint), old(pace.drainRequired), old(planned))
      ensures failure == NoFailure && old(Plan() == trace && Quiet(feed)) ==> Plan() == trace
      ensures failure == NoFailure ==>
        if old(Placeable(joint, planned.output)) then
          Entered(old(Plan()), old(joint), old(pace.drainRequired), old(silentAac), Plan(), joint, silentAac, clock)
        else Plan() == old(Plan()) && joint == old(joint) && silentAac == old(silentAac)
    {
      hide AllNear, EndsNear, GapTooLong, Onwards, Decodable, Provided, Watched, Past, Kept, Joining, EndsOf, OnScreen, Label, OpenedIn, Ticketed, Planning, Modes, Collected, InFeedOrder, Entered, PlanOf, Valid, FromKey;
      OnwardsSame(dispatcher.sent, dispatcher.answers, epoch);
      if joint.cutoff.None? || !HasSound(joint.boundary) { return; }
      var firstPts := joint.boundary[0].pts;
      if feed.Programme? && planned.output >= 0 &&
         !exists i :: 0 <= i < |joint.boundary| && joint.boundary[i].kind.Audio? && firstPts <= joint.boundary[i].pts { return; }
      FromKeyMembers(joint.boundary, firstPts);
      Join(feed, now);
    }

    /** Collects packets for a join, from the first key picture on and within the queue limits. */
    method Collect(feed: Feed, input: seq<Packet>)
      requires Valid() && failure == NoFailure && joint.desired == feed && joint.selected.None?
      requires forall i :: 0 <= i < |input| ==> Supplied(input[i], feed, fed)
      requires fed.inOrder ==> Follows(joint, input, planned.output, fed)
      modifies this`joint, this`failure
      ensures Valid() && joint.desired == feed && joint.selected.None?
      ensures joint.cutoff.Some? ==> joint.boundary != []
      ensures if Gathers(old(joint), input) then failure == NoFailure && joint == Gather(old(joint), input) else failure == BoundaryOverflow
    {
      hide Decodable, Provided, Watched, Past, Kept, Joining, EndsOf, OnScreen, Label, OpenedIn, Ticketed, Modes, Planning, InFeedOrder, Gather, Gathers, Follows, Valid;
      Unfold();
      var j, fits := Take(joint, input);
      if !fits { Fail(BoundaryOverflow); return; }
      GatherCollected(joint, input, waiting.packets, planned.output, fed);
      PlanningCollected(trace, joint, j, pace, waiting.packets, scheduled.packets, scheduledHeaders, planned, holdingHeaders.Some?,
                        Opened(), silentAac, fed, clock);
      joint := j;
      Fold();
    }

    /** The selected feed goes on. */
    method Continue(feed: Feed, input: seq<Packet>)
      requires Valid() && failure == NoFailure && joint.desired == feed && joint.selected.Some? && input != []
      requires forall i :: 0 <= i < |input| ==> Supplied(input[i], feed, fed)
      requires fed.inOrder ==> Follows(joint, input, planned.output, fed)
      modifies this`joint, this`planned, this`published, this`publishedFeed, this`silentAac, this`scheduled, this`scheduledHeaders
      modifies this`pace, this`ticket, this`trace, this`failure, dispatcher
      ensures Onwards(old(dispatcher.sent), dispatcher.sent, old(dispatcher.answers), dispatcher.answers, epoch)
      ensures failure == TimestampOverflow ==> !(Near(old(joint.offset)) && AllNear(input))
      ensures failure == GuardOverflow ==> old(MayPace(feed)) && !RoomFor(old(scheduled), Batched([], input, old(joint.cutoff.value), old(joint.offset)))
      ensures failure in {NoFailure, TimestampOverflow, DtsRegression, GuardOverflow, ConsumerFailed}
      ensures pace.holding == old(pace.holding)
      ensures Valid() && joint.desired == feed && old(trace) <= trace
      ensures failure == NoFailure && feed.Holding? && old(pace.holding) ==> trace == old(trace)
      ensures failure == NoFailure ==> joint == old(joint)
      ensures failure == NoFailure ==>
        var output := Batched([], input, joint.cutoff.value, joint.offset);
        Plan() == old(Plan()) + Label(feed, output) && silentAac == SilenceAfter(feed, output, old(silentAac))
      ensures failure == NoFailure && old(Plan() == trace && Quiet(feed)) ==> Plan() == trace
    {
      hide Onwards, Decodable, Provided, Watched, Past, Kept, Joining, OnScreen, Label, OpenedIn, Ticketed, Ordered, StableSort;
      ghost var cutoff, offset := joint.cutoff.value, joint.offset;
      ghost var output := Batched([], input, cutoff, offset);
      ghost var silence := SilenceAfter(feed, output, silentAac);
      BatchSounds([], input, cutoff, offset, feed, fed);
      SilenceAfterOrigin(feed, output, silentAac, fed);
      if output != [] && forall i :: 0 <= i < |output| ==> planned.output <= output[i].dts {
        ContinuePlan(Plan(), input, cutoff, offset, feed, silentAac, silence, fed, clock);
      }
      if fed.inOrder {
        BatchNotBefore(input, cutoff, offset, planned.output);
        BatchUpTo([], input, cutoff, offset, fed.Last(feed).value);
      }
      Place(feed, joint, [], input, None);
    }

    /** The common tail of publish: rebases and sorts the packets of a batch, advances the planned ends, and queues the
        batch or hands it over. */
    method Place(feed: Feed, j: Joint, bridge: seq<Packet>, packets: seq<Packet>, headers: Option<CodecHeaders>)
      requires Valid() && failure == NoFailure && joint.desired == feed && !pace.drainRequired
      requires j.desired == feed && j.selected == Some(feed) && j.cutoff.Some? && j.boundary == []
      requires if joint.selected.Some? then j == joint && headers.None? && bridge == [] else headers.Some?
      requires headers.Some? ==> headers == HeadersOf(feed, programmeHeaders, holdingHeaders)
      requires SoundsKnown(Batched(bridge, packets, j.cutoff.value, j.offset), feed, fed)
      requires joint.selected.None? ==> Batched(bridge, packets, j.cutoff.value, j.offset) != []
      requires var output := Batched(bridge, packets, j.cutoff.value, j.offset);
        output != [] && (forall i :: 0 <= i < |output| ==> planned.output <= output[i].dts) ==>
          Joining(Plan() + Label(feed, output), Some(feed), SilenceAfter(feed, output, silentAac), fed, clock)
      requires fed.inOrder ==> var output := Batched(bridge, packets, j.cutoff.value, j.offset);
        forall i :: 0 <= i < |output| ==>
          planned.output <= output[i].dts && fed.Last(feed).Some? && output[i].dts <= fed.Last(feed).value + j.offset
      modifies this`joint, this`planned, this`published, this`publishedFeed, this`silentAac, this`scheduled, this`scheduledHeaders
      modifies this`pace, this`ticket, this`trace, this`failure, dispatcher
      ensures Onwards(old(dispatcher.sent), dispatcher.sent, old(dispatcher.answers), dispatcher.answers, epoch)
      ensures failure == TimestampOverflow ==> !(-4 * FAR <= j.offset <= 4 * FAR && AllNear(packets))
      ensures failure == GuardOverflow ==> old(MayPace(feed)) && !RoomFor(old(scheduled), Batched(bridge, packets, j.cutoff.value, j.offset))
      ensures failure in {NoFailure, TimestampOverflow, DtsRegression, GuardOverflow, ConsumerFailed}
      ensures pace.holding == old(pace.holding)
      ensures Valid() && joint.desired == feed && old(trace) <= trace
      ensures failure == NoFailure && feed.Holding? && old(pace.holding) ==> trace == old(trace)
      ensures var output := Batched(bridge, packets, j.cutoff.value, j.offset);
        failure == NoFailure ==>
          && joint == (if output == [] then old(joint) else j) && Plan() == old(Plan()) + Label(feed, output)
          && silentAac == SilenceAfter(feed, output, old(silentAac))
      ensures failure == NoFailure && old(Plan() == trace && Quiet(feed)) ==> Plan() == trace
    {
      hide AllNear, RoomFor, Onwards, Decodable, Provided, Watched, Past, Kept, Joining, EndsOf, OnScreen, Label, OpenedIn, Ticketed, Ordered, StableSort, Modes, Collected, SilenceAfter, Valid, InFeedOrder, Planning, Batched, SoundsKnown, PlanOf, Follows, UpTo, FromKey, SortedBy;
      OnwardsSame(dispatcher.sent, dispatcher.answers, epoch);
      QueueEmpty(Plan(), feed);
      SilenceKept(feed, Batched(bridge, packets, j.cutoff.value, j.offset), silentAac);
      var output, fits := Assemble(bridge, packets, j.cutoff.value, j.offset);
      if !fits { Unfold(); Fail(TimestampOverflow); return; }
      if output == [] { return; }
      BatchedSorted(bridge, packets, j.cutoff.value, j.offset);
      PlaceBatch(feed, j, output, headers);
    }

    /** Places a sorted batch. */
    method PlaceBatch(feed: Feed, j: Joint, output: seq<Packet>, headers: Option<CodecHeaders>)
      requires Valid() && failure == NoFailure && joint.desired == feed && !pace.drainRequired && output != [] && SortedBy(Dts, output)
      requires j.desired == feed && j.selected == Some(feed) && j.cutoff.Some? && j.boundary == []
      requires if joint.selected.Some? then j == joint && headers.None? else headers.Some?
      requires headers.Some? ==> headers == HeadersOf(feed, programmeHeaders, holdingHeaders)
      requires SoundsKnown(output, feed, fed)
      requires (forall i :: 0 <= i < |output| ==> planned.output <= output[i].dts) ==>
        Joining(Plan() + Label(feed, output), Some(feed), SilenceAfter(feed, output, silentAac), fed, clock)
      requires fed.inOrder ==> forall i :: 0 <= i < |output| ==>
        planned.output <= output[i].dts && fed.Last(feed).Some? && output[i].dts <= fed.Last(feed).value + j.offset
      modifies this`joint, this`planned, this`published, this`publishedFeed, this`silentAac, this`scheduled, this`scheduledHeaders
      modifies this`pace, this`ticket, this`trace, this`failure, dispatcher
      ensures Onwards(old(dispatcher.sent), dispatcher.sent, old(dispatcher.answers), dispatcher.answers, epoch)
      ensures failure in {NoFailure, DtsRegression, GuardOverflow, ConsumerFailed}
      ensures failure == GuardOverflow ==> old(MayPace(feed)) && !RoomFor(old(scheduled), output)
      ensures pace.holding == old(pace.holding)
      ensures Valid() && joint.desired == feed && old(trace) <= trace
      ensures failure == NoFailure && feed.Holding? && old(pace.holding) ==> trace == old(trace)
      ensures failure == NoFailure ==>
        joint == j && Plan() == old(Plan()) + Label(feed, output) && silentAac == SilenceAfter(feed, output, old(silentAac))
      ensures failure == NoFailure && old(Plan() == trace && Quiet(feed)) ==> Plan() == trace
    {
      hide RoomFor, Onwards, Decodable, Provided, Watched, Past, Kept, Joining, EndsOf, OnScreen, Label, OpenedIn, Ticketed, Ordered, Modes, Collected, SilenceAfter, Valid, InFeedOrder, Planning, SoundsKnown, PlanOf, SortedBy;
      OnwardsSame(dispatcher.sent, dispatcher.answers, epoch);
      SilenceKept(feed, output, silentAac);
      Unfold();
      ghost var before, silence := planned, silentAac;
      Advance(feed, output);
      if silentAac != silence { PastSilence(trace, dispatcher.sent, epoch, silence, silentAac, fed, clock); }
      if failure != NoFailure { Failed(); return; }
      if fed.inOrder { OrderPlaced(joint, j, waiting.packets, before.output, planned.output, fed); }
      Release(feed, j, output, headers, before);
    }

    lemma {:induction false} Unfold()
      requires Valid() && failure == NoFailure
      ensures History() && Planned() && Watching()
      ensures Modes(joint, pace, waiting.packets, scheduled.packets, scheduledHeaders, planned, holdingHeaders.Some?, Opened())
      ensures Collected(joint, fed) && planned == EndsOf(Plan(), clock) && Joining(Plan(), joint.selected, silentAac, fed, clock)
      ensures fed.inOrder ==> InFeedOrder(joint, waiting.packets, planned.output, fed)
    {}

    lemma {:induction false} Failed()
      requires History() && failure != NoFailure && (fed.inOrder ==> failure != DtsRegression)
      ensures Valid()
    {}

    lemma {:induction false} Fold()
      requires History() && Planned() && Watching() && failure != DtsRegression
      ensures Valid()
    {}

    /** Rebases the packets from the cutoff on, behind a bridge, and sorts them by decode time. */
    method Assemble(bridge: seq<Packet>, packets: seq<Packet>, cutoff: int, offset: int) returns (output: seq<Packet>, fits: bool)
      ensures output == Batched(bridge, packets, cutoff, offset)
      ensures fits ==> forall i :: 0 <= i < |packets| && cutoff <= packets[i].dts ==>
        INT64_MIN <= packets[i].dts + offset <= INT64_MAX && INT64_MIN <= packets[i].pts + offset <= INT64_MAX
      ensures -4 * FAR <= offset <= 4 * FAR && AllNear(packets) ==> fits
    {
      output, fits := bridge, true;
      var i := 0;
      while i < |packets|
        invariant 0 <= i <= |packets| && output == bridge + Rebase(packets[..i], cutoff, offset)
        invariant fits ==> forall k :: 0 <= k < i && cutoff <= packets[k].dts ==>
          INT64_MIN <= packets[k].dts + offset <= INT64_MAX && INT64_MIN <= packets[k].pts + offset <= INT64_MAX
        invariant -4 * FAR <= offset <= 4 * FAR && AllNear(packets) ==> fits
      {
        RebaseSnoc(packets, i, cutoff, offset);
        if cutoff <= packets[i].dts {
          var p := Shift(packets[i], offset);
          fits := fits && INT64_MIN <= p.dts <= INT64_MAX && INT64_MIN <= p.pts <= INT64_MAX;
          output := output + [p];
        }
        i := i + 1;
      }
      assert packets[..i] == packets;
      output := StableSort(Dts, output);
    }

    /** Checks that a sorted batch does not go back in time, and moves the planned ends past it. */
    method Advance(feed: Feed, output: seq<Packet>)
      requires failure == NoFailure && planned == EndsOf(Plan(), clock) && SortedBy(Dts, output)
      requires SoundsKnown(output, feed, fed)
      modifies this`planned, this`silentAac, this`failure
      ensures silentAac == old(silentAac) || silentAac in fed.holdingSound
      ensures if failure == NoFailure then
          && planned == EndsOf(Plan() + Label(feed, output), clock)
          && silentAac == SilenceAfter(feed, output, old(silentAac))
          && (forall i :: 0 <= i < |output| ==> old(planned.output) <= output[i].dts)
          && (output != [] ==> planned.output == output[|output| - 1].dts)
        else failure == DtsRegression && exists i :: 0 <= i < |output| && output[i].dts < old(planned.output)
    {
      hide EndsOf, OnScreen, Label, OpenedIn;
      var i := 0;
      QueueEmpty(Plan(), feed);
      while i < |output|
        invariant 0 <= i <= |output| && failure == NoFailure
        invariant planned == EndsOf(Plan() + Label(feed, output[..i]), clock)
        invariant silentAac == SilenceAfter(feed, output[..i], old(silentAac))
        invariant silentAac == old(silentAac) || silentAac in fed.holdingSound
        invariant planned.output == if i == 0 then old(planned.output) else output[i - 1].dts
        invariant forall k :: 0 <= k < i ==> old(planned.output) <= output[k].dts
      {
        var p := output[i];
        if i > 0 { assert Dts(output[i - 1]) <= Dts(p); }
        if p.dts < planned.output {
          failure := DtsRegression;
          return;
        }
        EndsAppend(Plan() + Label(feed, output[..i]), Item(feed, p), clock);
        LabelSnoc(Plan(), feed, output, i);
        assert output[..i + 1][..i] == output[..i];
        planned := planned.(output := p.dts);
        if p.kind.Audio? {
          planned := planned.(audio := p.pts + clock.aac);
          if feed.Holding? { silentAac := p.payload; }
        } else {
          planned := planned.(video := Max(planned.video, p.pts + clock.Frame(feed)));
        }
        i := i + 1;
      }
      assert output[..i] == output;
    }

    /** Appends packets to a pacing queue, within its limits of size, count and span. */
    method Enqueue(q: Queue, more: seq<Packet>) returns (queued: Queue, fits: bool)
      ensures fits <==> RoomFor(q, more)
      ensures fits ==> queued == Push(q, more)
    {
      queued := q;
      var i := 0;
      while i < |more|
        invariant 0 <= i <= |more| && queued == Push(q, more[..i])
        invariant forall k :: 0 <= k < i ==> Fits(Push(q, more[..k]), more[k])
        modifies {}
      {
        var p := more[i];
        var bytes := queued.bytes + |p.payload|;
        if bytes > QUEUE_BYTES || |queued.packets| >= QUEUE_PACKETS ||
           (queued.packets != [] && p.dts - queued.packets[0].dts > QUEUE_SPAN) { return queued, false; }
        assert more[..i + 1] == more[..i] + [p];
        BytesConcat(more[..i], [p]);
        queued := Queue(queued.packets + [p], bytes);
        i := i + 1;
      }
      assert more[..i] == more;
      fits := true;
    }

    /** A batch of the feed is released over time: the first programme batch behind a drain starts the pacing. */
    predicate Paced(feed: Feed, headers: Option<CodecHeaders>)
      reads this`pace, this`silentAac
    {
      if feed.Holding? then pace.holding else pace.programme || (headers.Some? && silentAac != [] && pace.drainTicket != 0)
    }

    /** A batch has been placed behind the plan, and the planned ends moved past it; it is still to be released. */
    ghost predicate Placing(feed: Feed, j: Joint, output: seq<Packet>, headers: Option<CodecHeaders>, before: Ends)
      reads this, dispatcher
    {
      && joint.desired == feed && !pace.drainRequired
      && Modes(joint, pace, waiting.packets, scheduled.packets, scheduledHeaders, before, holdingHeaders.Some?, Opened())
      && j.desired == feed && j.selected == Some(feed) && j.cutoff.Some? && j.boundary == []
      && (if joint.selected.Some? then headers.None? else headers.Some?)
      && (headers.Some? ==> headers == HeadersOf(feed, programmeHeaders, holdingHeaders))
      && planned == EndsOf(Plan() + Label(feed, output), clock)
      && Joining(Plan() + Label(feed, output), Some(feed), silentAac, fed, clock)
      && (fed.inOrder ==> InFeedOrder(j, waiting.packets, planned.output, fed))
    }

    /** Queues a placed batch behind the pacing of its feed, or hands it over at once. */
    method Release(feed: Feed, j: Joint, output: seq<Packet>, headers: Option<CodecHeaders>, ghost before: Ends)
      requires History() && Watching() && failure == NoFailure && joint.desired == feed && output != [] && Placing(feed, j, output, headers, before)
      modifies this`joint, this`published, this`publishedFeed, this`scheduled, this`scheduledHeaders
      modifies this`pace, this`ticket, this`trace, this`failure, dispatcher
      ensures Onwards(old(dispatcher.sent), dispatcher.sent, old(dispatcher.answers), dispatcher.answers, epoch)
      ensures pace.holding == old(pace.holding)
      ensures Valid() && joint.desired == feed && old(trace) <= trace
      ensures failure in {NoFailure, GuardOverflow, ConsumerFailed}
      ensures failure == GuardOverflow <==> old(Paced(feed, headers)) && !RoomFor(old(scheduled), output)
      ensures failure == NoFailure ==> joint == j && Plan() == old(Plan()) + Label(feed, output)
      ensures failure == NoFailure ==> if old(Paced(feed, headers)) then trace == old(trace) else trace == Plan()
    {
      hide Onwards, Decodable, Provided, Watched, Past, Kept, Joining, EndsOf, OnScreen, Label, OpenedIn, Ticketed, Modes, Planning, InFeedOrder, Plan, RoomFor, History, Placing;
      OnwardsSame(dispatcher.sent, dispatcher.answers, epoch);
      var paced := pace;
      if feed.Programme? && headers.Some? && silentAac != [] && pace.drainTicket != 0 {
        paced := paced.(programme := true, boundarySent := false, resumeOrigin := tickNow, resumeTime := output[0].dts);
      }
      if (feed.Holding? && paced.holding) || (feed.Programme? && paced.programme) {
        var queued, fits := Enqueue(scheduled, output);
        if !fits { Fail(GuardOverflow); return; }
        QueueUp(feed, j, paced, output, queued, headers, before);
      } else {
        HandOver(feed, j, output, headers, before);
      }
    }

    lemma {:induction false} PlacingModes(feed: Feed, j: Joint, output: seq<Packet>, headers: Option<CodecHeaders>, before: Ends)
      requires Placing(feed, j, output, headers, before)
      ensures joint.desired == feed && (joint.selected.Some? ==> joint.selected.value == feed) && (pace.programme ==> joint.selected == Some(Programme))
      ensures pace.holding ==> feed.Holding? && !pace.programme
      ensures joint.selected.None? ==> !pace.programme
      ensures headers.Some? ==> joint.selected.None? && headers == HeadersOf(feed, programmeHeaders, holdingHeaders)
      ensures headers.None? ==> joint.selected.Some?
      ensures scheduled.packets != [] ==> pace.holding || pace.programme
      ensures j.desired == feed && j.selected == Some(feed)
    {
      hide EndsOf, Joining, InFeedOrder, OpenedIn;
    }

    method QueueUp(feed: Feed, j: Joint, paced: Pace, ghost output: seq<Packet>, queued: Queue, headers: Option<CodecHeaders>, ghost before: Ends)
      requires History() && Watching() && failure == NoFailure && output != [] && Placing(feed, j, output, headers, before)
      requires paced == pace || (headers.Some? && feed.Programme? &&
                 paced == pace.(programme := true, boundarySent := false, resumeOrigin := paced.resumeOrigin, resumeTime := paced.resumeTime))
      requires if feed.Holding? then paced.holding else paced.programme
      requires queued.packets == scheduled.packets + output
      modifies this`joint, this`scheduled, this`scheduledHeaders, this`pace
      ensures pace.holding == old(pace.holding)
      ensures Valid() && joint == j && joint.desired == feed && Plan() == old(Plan()) + Label(feed, output)
    {
      hide Decodable, Provided, Watched, Past, Kept, Joining, EndsOf, OnScreen, Label, OpenedIn, Ticketed, Modes, Planning, InFeedOrder, PlanOf;
      var carried := if headers.Some? then headers else scheduledHeaders;
      PlanningQueued(trace, joint, j, pace, paced, waiting.packets, scheduled.packets, output, scheduledHeaders, carried, before, planned,
                     holdingHeaders.Some?, Opened(), silentAac, fed, clock);
      PlacingModes(feed, j, output, headers, before);
      ProvidedQueued(joint.selected, headers, scheduledHeaders, scheduled.packets, queued.packets, feed, epoch, dispatcher.sent,
                     programmeHeaders, holdingHeaders);
      WatchedQueued(pace, paced, feed, joint.selected, epoch, dispatcher.sent, dispatcher.answers);
      joint, pace, scheduledHeaders, scheduled := j, paced, carried, queued;
    }

    method HandOver(feed: Feed, j: Joint, output: seq<Packet>, headers: Option<CodecHeaders>, ghost before: Ends)
      requires History() && Watching() && failure == NoFailure && output != [] && Placing(feed, j, output, headers, before)
      requires if feed.Holding? then !pace.holding else !pace.programme
      modifies this`joint, this`published, this`publishedFeed, this`ticket, this`trace, this`failure, dispatcher
      ensures Onwards(old(dispatcher.sent), dispatcher.sent, old(dispatcher.answers), dispatcher.answers, epoch)
      ensures Valid() && joint == j && joint.desired == feed && trace == old(trace) + Label(feed, output)
      ensures Plan() == trace == old(Plan()) + Label(feed, output)
      ensures failure == NoFailure || failure == ConsumerFailed
    {
      hide Onwards, Decodable, Provided, Watched, Past, Kept, Joining, EndsOf, OnScreen, Label, OpenedIn, Ticketed, Modes, Planning, InFeedOrder, PlanOf;
      PlanningSent(trace, joint, j, pace, waiting.packets, scheduled.packets, output, scheduledHeaders, before, planned,
                   holdingHeaders.Some?, Opened(), silentAac, fed, clock);
      KeptPrefix(trace + Label(feed, output), trace + Label(feed, output), Some(feed), silentAac, fed, clock);
      HandedNoted(feed, j, output, headers, before);
      OnwardsSent(dispatcher.sent, Batch(epoch, Label(feed, output), headers, ticket + 1), dispatcher.answers);
      joint := j;
      Send(feed, output, headers);
    }

    lemma {:induction false} HandedNoted(feed: Feed, j: Joint, output: seq<Packet>, headers: Option<CodecHeaders>, before: Ends)
      requires Watching() && Placing(feed, j, output, headers, before)
      requires if feed.Holding? then !pace.holding else !pace.programme
      ensures var b := Batch(epoch, Label(feed, output), headers, ticket + 1);
        && j.desired == feed && j.selected == Some(feed) && Suits(b)
        && Watched(pace, feed, Some(feed), epoch, dispatcher.sent + [b], dispatcher.answers)
        && Provided(Some(feed), scheduledHeaders, scheduled.packets, epoch, dispatcher.sent + [b], programmeHeaders, holdingHeaders)
    {
      hide Provided, Watched, Placing, Matches, InForce;
      PlacingModes(feed, j, output, headers, before);
      var b := Batch(epoch, Label(feed, output), headers, ticket + 1);
      WatchedUnpaced(pace, feed, joint.selected, dispatcher.sent, dispatcher.answers, b);
      ProvidedHanded(joint.selected, scheduledHeaders, scheduled.packets, feed, output, dispatcher.sent, b, programmeHeaders, holdingHeaders);
    }

    /** Places the join of a feed: the drain first if a switch to holding requires it, then silence up to the first sound. */
    method Join(feed: Feed, now: int)
      requires Valid() && failure == NoFailure && joint.desired == feed && joint.selected.None? && joint.cutoff.Some?
      requires HasSound(joint.boundary)
      requires feed.Programme? && planned.output >= 0 ==> joint.boundary != [] && HasSound(FromKey(joint.boundary, joint.boundary[0].pts))
      modifies this`joint, this`planned, this`published, this`publishedFeed, this`silentAac, this`scheduled, this`scheduledHeaders
      modifies this`pace, this`ticket, this`trace, this`failure, dispatcher
      ensures Onwards(old(dispatcher.sent), dispatcher.sent, old(dispatcher.answers), dispatcher.answers, epoch)
      ensures failure == TimestampOverflow ==> !(EndsNear(old(planned), 0) && AllNear(old(joint.boundary)))
      ensures failure == GuardOverflow ==> old(MayPace(feed))
      ensures failure == TimingUnsupported ==> GapTooLong(old(planned), old(joint), old(silentAac))
      ensures failure in {NoFailure, TimingUnsupported, TimestampOverflow, DtsRegression, GuardOverflow, ConsumerFailed}
      ensures pace.holding == old(pace.holding)
      ensures Valid() && joint.desired == feed && old(trace) <= trace
      ensures failure == NoFailure && feed.Holding? && old(pace.holding) ==> trace == old(trace) + OwedDrain(old(joint), old(pace.drainRequired), old(planned))
      ensures failure == NoFailure && old(Plan() == trace && Quiet(feed)) ==> Plan() == trace
      ensures failure == NoFailure ==> Entered(old(Plan()), old(joint), old(pace.drainRequired), old(silentAac), Plan(), joint, silentAac, clock)
    {
      hide AllNear, GapTooLong, Onwards, Decodable, Provided, Watched, Past, Kept, Joining, EndsOf, OnScreen, Label, OpenedIn, Ticketed, Ordered, StableSort, Modes, Collected, InFeedOrder, Planning, Valid, PlanOf, Spliced;
      OnwardsSame(dispatcher.sent, dispatcher.answers, epoch);
      Unfold();
      DrainsToHolding(trace, joint, pace, waiting.packets, scheduled.packets, scheduledHeaders, planned, holdingHeaders.Some?, Opened(), silentAac, fed, clock);
      if planned.output > INT64_MAX - 1000 { Fail(TimestampOverflow); return; }
      var drained := feed.Holding? && pace.drainRequired;
      if drained {
        Drain(now);
        if failure != NoFailure { return; }
        Unfold();
      }
      ghost var sent, heard := dispatcher.sent, dispatcher.answers;
      SpliceFeed(feed, drained);
      OnwardsTwice(old(dispatcher.sent), sent, dispatcher.sent, old(dispatcher.answers), heard, dispatcher.answers, epoch);
    }

    /** The drain was handed over behind `before`: one silent frame of the holding feed after everything published, under
        the codec of the picture on screen. */
    ghost predicate Drained(before: seq<Item>, sent: seq<Batch>)
      reads this, dispatcher
    {
      var frame := Item(Holding, Packet(Audio, silentAac, planned.output, planned.output, false, true));
      && !pace.drainRequired && pace.drainTicket == ticket && silentAac in fed.holdingSound
      && trace == before + [frame] && Plan() == trace
      && planned.audio == planned.output + clock.aac && AudioEnd(before, clock) <= planned.output
      && holdingHeaders.Some?
      && dispatcher.sent == sent + [Batch(epoch, [frame], Some(DrainHeaders(OnScreen(before))), ticket)]
    }

    function DrainHeaders(shown: Feed): CodecHeaders
      requires holdingHeaders.Some?
      reads this
    {
      CodecHeaders(if shown.Programme? then programmeHeaders.avc else holdingHeaders.value.avc, holdingHeaders.value.aac)
    }

    method Drain(now: int)
      requires Valid() && failure == NoFailure && pace.drainRequired && HasSound(joint.boundary)
      modifies this`planned, this`published, this`publishedFeed, this`silentAac, this`pace, this`ticket, this`trace, this`failure, dispatcher
      ensures Onwards(old(dispatcher.sent), dispatcher.sent, old(dispatcher.answers), dispatcher.answers, epoch)
      ensures failure == TimestampOverflow ==> !EndsNear(old(planned), 0)
      ensures failure == NoFailure && EndsNear(old(planned), 0) ==> EndsNear(planned, 50000)
      ensures failure in {NoFailure, TimestampOverflow, ConsumerFailed}
      ensures pace.holding == old(pace.holding)
      ensures Valid() && old(trace) <= trace
      ensures failure == NoFailure ==> Drained(old(trace), old(dispatcher.sent))
      ensures failure == NoFailure ==> SoundsFirst(joint.boundary, silentAac)
      ensures failure == NoFailure ==> Plan() == old(Plan()) + [DrainFrame(old(planned), silentAac)]
    {
      hide Onwards, Decodable, Provided, Watched, Past, Kept, Joining, EndsOf, OnScreen, Label, OpenedIn, Ticketed, Ordered, InFeedOrder, Valid, Collected, Modes, Planning, AudioEnd, Drained, PlanOf;
      OnwardsSame(dispatcher.sent, dispatcher.answers, epoch);
      Unfold();
      DrainReady(trace, joint, pace, waiting.packets, scheduled.packets, scheduledHeaders, planned, holdingHeaders.Some?, Opened(), silentAac, fed, clock);
      var silent := joint.boundary[FirstSound(joint.boundary)].payload;
      var base := Max(planned.output + 1000, planned.audio);
      if !CeilFits(base) { Fail(TimestampOverflow); return; }
      DrainOut(silent, CeilMs(base), now);
    }

    /** The drain goes out, and is perhaps delivered at once. */
    method DrainOut(silent: seq<Byte>, time: int, now: int)
      requires Valid() && failure == NoFailure && pace.drainRequired && holdingHeaders.Some?
      requires silent in fed.holdingSound && 0 <= time && planned.output <= time && planned.audio <= time
      modifies this`planned, this`published, this`publishedFeed, this`silentAac, this`pace, this`ticket, this`trace, this`failure, dispatcher
      ensures Onwards(old(dispatcher.sent), dispatcher.sent, old(dispatcher.answers), dispatcher.answers, epoch)
      ensures failure == NoFailure ==> planned == Ends(time, time + clock.aac, old(planned.video))
      ensures failure in {NoFailure, ConsumerFailed}
      ensures pace.holding == old(pace.holding)
      ensures Valid() && old(trace) <= trace
      ensures failure == NoFailure ==> Drained(old(trace), old(dispatcher.sent)) && silentAac == silent
      ensures failure == NoFailure ==> Plan() == old(Plan()) + [Item(Holding, Packet(Audio, silent, time, time, false, true))]
    {
      hide Onwards, Decodable, Provided, Watched, Past, Kept, Joining, EndsOf, OnScreen, Label, OpenedIn, Ticketed, Ordered, InFeedOrder, Valid, Collected, Modes, Planning, AudioEnd, Drained, PlanOf;
      SendDrain(silent, time);
      if failure == NoFailure {
        ghost var heard := dispatcher.answers;
        AcknowledgeDrain(now, old(trace), old(dispatcher.sent));
        OnwardsMore(old(dispatcher.sent), dispatcher.sent, old(dispatcher.answers), heard, dispatcher.answers, epoch);
      }
    }

    method AcknowledgeDrain(now: int, ghost before: seq<Item>, ghost sent: seq<Batch>)
      requires Valid() && failure == NoFailure && Drained(before, sent)
      modifies this`pace, dispatcher`floor, dispatcher`answers
      ensures pace.holding == old(pace.holding)
      ensures Valid() && Drained(before, sent) && Plan() == trace && old(dispatcher.answers) <= dispatcher.answers
    {
      hide Decodable, Provided, Watched, Past, Kept, Joining, EndsOf, OnScreen, Label, OpenedIn, Ticketed, Ordered, InFeedOrder, Valid, Collected, Modes, Planning, AudioEnd;
      Unfold();
      var delivered := dispatcher.Delivered(epoch, pace.drainTicket);
      WatchedAnswer(pace, joint.desired, joint.selected, epoch, dispatcher.sent, old(dispatcher.answers), Answer(epoch, pace.drainTicket, delivered));
      if delivered {
        WatchedNote(pace, pace.(drainAck := Some(now)), joint.desired, joint.selected, epoch, dispatcher.sent, dispatcher.answers);
        DrainAcknowledged(trace, joint, pace, waiting.packets, scheduled.packets, scheduledHeaders, planned, holdingHeaders.Some?, Opened(),
                          silentAac, fed, clock, Some(now));
        pace := pace.(drainAck := Some(now));
      }
      Fold();
    }

    method SendDrain(silent: seq<Byte>, time: int)
      requires Valid() && failure == NoFailure && pace.drainRequired && holdingHeaders.Some?
      requires silent in fed.holdingSound && 0 <= time && planned.output <= time && planned.audio <= time
      modifies this`planned, this`published, this`publishedFeed, this`silentAac, this`pace, this`ticket, this`trace, this`failure, dispatcher
      ensures Onwards(old(dispatcher.sent), dispatcher.sent, old(dispatcher.answers), dispatcher.answers, epoch)
      ensures failure == NoFailure ==> planned == Ends(time, time + clock.aac, old(planned.video))
      ensures failure in {NoFailure, ConsumerFailed}
      ensures pace.holding == old(pace.holding)
      ensures Valid() && old(trace) <= trace
      ensures failure == NoFailure ==> Drained(old(trace), old(dispatcher.sent)) && silentAac == silent && planned.output == time
      ensures failure == NoFailure ==> old(Plan()) == old(trace) && trace == old(trace) + [Item(Holding, Packet(Audio, silent, time, time, false, true))]
    {
      hide Onwards, Decodable, Provided, Watched, Past, Kept, Joining, EndsOf, OnScreen, Label, OpenedIn, Ticketed, Ordered, InFeedOrder, Valid, Collected, Modes, Planning, PlanOf, AudioEnd;
      var frame := Packet(Audio, silent, time, time, false, true);
      var headers := DrainHeaders(publishedFeed);
      var paced := pace.(drainRequired := false, drainTime := planned.output, drainTicket := ticket + 1);
      DrainPlanned(silent, time, paced);
      DrainNoted(frame, headers, paced);
      OnwardsSent(dispatcher.sent, Batch(epoch, Label(Holding, [frame]), Some(headers), ticket + 1), dispatcher.answers);
      silentAac := silent;
      Send(Holding, [frame], Some(headers));
      planned := planned.(output := time, audio := time + clock.aac);
      pace := paced;
      if failure == NoFailure { Fold(); } else { Failed(); }
    }

    lemma {:induction false} DrainNoted(frame: Packet, headers: CodecHeaders, paced: Pace)
      requires Valid() && failure == NoFailure && pace.drainRequired && frame.kind.Audio? && frame.drain
      requires paced == pace.(drainRequired := false, drainTime := paced.drainTime, drainTicket := ticket + 1)
      ensures var b := Batch(epoch, Label(Holding, [frame]), Some(headers), ticket + 1);
        && Watched(paced, joint.desired, joint.selected, epoch, dispatcher.sent + [b], dispatcher.answers) && Suits(b)
        && Provided(joint.selected, scheduledHeaders, scheduled.packets, epoch, dispatcher.sent + [b], programmeHeaders, holdingHeaders)
    {
      hide Decodable, Provided, Watched, Past, Kept, Joining, EndsOf, OnScreen, OpenedIn, Ticketed, Planning, Modes, Collected, InFeedOrder, Valid, Matches, InForce;
      PacedModes();
      Unfold();
      var b := Batch(epoch, Label(Holding, [frame]), Some(headers), ticket + 1);
      WatchedDrain(pace, paced, joint.desired, dispatcher.sent, dispatcher.answers, b);
      SilenceProvided(joint.selected, scheduledHeaders, scheduled.packets, dispatcher.sent, b, programmeHeaders, holdingHeaders);
    }

    /** The drain frame fits behind what was published, and the plan with it is as good as before. */
    lemma {:induction false} DrainPlanned(silent: seq<Byte>, time: int, paced: Pace)
      requires Valid() && failure == NoFailure && pace.drainRequired && silent in fed.holdingSound
      requires 0 <= time && planned.output <= time && planned.audio <= time
      requires paced == pace.(drainRequired := false, drainTime := planned.output, drainTicket := ticket + 1)
      ensures var x := Item(Holding, Packet(Audio, silent, time, time, false, true));
        && Label(Holding, [x.packet]) == [x] && scheduled.packets == [] && PlanOf(trace, pace, scheduled.packets) == trace
        && PlanOf(trace + [x], paced, scheduled.packets) == trace + [x]
        && Kept(trace + [x], fed, clock) && (fed.Voiced() && silent == [] ==> !HasHoldingPicture(trace + [x]))
        && published == EndsOf(trace, clock) && publishedFeed == OnScreen(trace) && AudioEnd(trace, clock) <= time
        && EndsOf(trace + [x], clock) == Ends(time, time + clock.aac, planned.video)
        && Planning(trace + [x], joint, paced, waiting.packets, scheduled.packets, scheduledHeaders, EndsOf(trace + [x], clock),
                    holdingHeaders.Some?, true, silent, fed, clock)
      ensures Past(trace, dispatcher.sent, epoch, silent, fed, clock) && History()
    {
      hide Decodable, Provided, Watched, Past, Kept, Joining, OnScreen, OpenedIn, Ticketed, Ordered, InFeedOrder, Valid, Collected, Modes, Planning, PlanOf, AudioEnd, HasHoldingPicture;
      Unfold();
      var x := Item(Holding, Packet(Audio, silent, time, time, false, true));
      assert Label(Holding, [x.packet]) == [x];
      PlanningDrained(trace, joint, pace, paced, waiting.packets, scheduled.packets, scheduledHeaders, planned, holdingHeaders.Some?, Opened(),
                      silentAac, silent, time, fed, clock);
      KeptPrefix(trace + [x], trace + [x], None, silent, fed, clock);
      PastSilence(trace, dispatcher.sent, epoch, silentAac, silent, fed, clock);
      EndsAre(trace, clock);
    }

    /** Chooses where the joining feed starts, bridges the span before its first sound with silence, and places it. */
    method SpliceFeed(feed: Feed, drained: bool)
      requires Valid() && failure == NoFailure && joint.desired == feed && joint.selected.None? && joint.cutoff.Some?
      requires !pace.drainRequired && HasSound(joint.boundary) && (drained ==> feed.Holding? && silentAac in fed.holdingSound && planned.output <= planned.audio)
      requires feed.Programme? && planned.output >= 0 ==> joint.boundary != [] && HasSound(FromKey(joint.boundary, joint.boundary[0].pts))
      modifies this`joint, this`planned, this`published, this`publishedFeed, this`silentAac, this`scheduled, this`scheduledHeaders
      modifies this`pace, this`ticket, this`trace, this`failure, dispatcher
      ensures Onwards(old(dispatcher.sent), dispatcher.sent, old(dispatcher.answers), dispatcher.answers, epoch)
      ensures failure == TimestampOverflow ==> !(EndsNear(old(planned), 50000) && AllNear(old(joint.boundary)))
      ensures failure == GuardOverflow ==> old(MayPace(feed))
      ensures failure == TimingUnsupported ==> !drained && GapTooLong(old(planned), old(joint), old(silentAac))
      ensures failure in {NoFailure, TimingUnsupported, TimestampOverflow, DtsRegression, GuardOverflow, ConsumerFailed}
      ensures pace.holding == old(pace.holding)
      ensures Valid() && joint.desired == feed && old(trace) <= trace
      ensures failure == NoFailure && feed.Holding? && old(pace.holding) ==> trace == old(trace)
      ensures failure == NoFailure ==> joint == JoinedAt(old(joint), JoinTime(old(planned)))
      ensures failure == NoFailure && old(Plan() == trace && Quiet(feed)) ==> Plan() == trace
      ensures failure == NoFailure ==> Spliced(old(Plan()), old(joint), drained, old(silentAac), Plan(), silentAac, clock)
    {
      hide FromKey, FirstSound, Spliced, AllNear, EndsNear, GapTooLong, GapAt, Onwards, Decodable, Provided, Watched, Past, Kept, Joining, EndsOf, OnScreen, Label, OpenedIn, Ticketed, Ordered, StableSort, Modes, Collected, InFeedOrder, Planning, Valid, Spliceable, Plan;
      hide Bridges, Batched, JoinsAt, CeilMs, SoundsKnown;
      OnwardsSame(dispatcher.sent, dispatcher.answers, epoch);
      Unfold();
      PlannedFloor();
      if EndsNear(planned, 50000) && AllNear(joint.boundary) { JoinNear(planned, joint); }
      var cutoff := joint.cutoff.value;
      var base := Max(planned.output + 1000, Max(planned.audio, planned.video + 1000));
      var next := if CeilFits(base) then CeilMs(base) else 0;
      if !CeilFits(base) || next - cutoff < INT64_MIN || next - cutoff > INT64_MAX { Fail(TimestampOverflow); return; }
      var error, packets, bridge, from, until := ChooseBridge(feed, drained, next, cutoff);
      if error != NoFailure {
        if error == TimingUnsupported { GapHere(planned, joint, silentAac, next); }
        Fail(error);
        return;
      }
      JoinsHere(feed, cutoff, next, bridge, packets, from, until);
      PlaceJoin(feed, drained, cutoff, next, bridge, packets);
    }

    /** Places a join, behind its silence. */
    method PlaceJoin(feed: Feed, ghost drained: bool, cutoff: int, next: int, bridge: seq<Packet>, packets: seq<Packet>)
      requires Valid() && failure == NoFailure && joint.desired == feed && joint.selected.None? && joint.cutoff == Some(cutoff)
      requires !pace.drainRequired && joint.boundary != [] && HasSound(joint.boundary) && next == JoinTime(planned)
      requires Bridges(planned, joint, next - cutoff, drained, silentAac, bridge, packets, clock.aac)
      requires JoinsAt(feed, cutoff, next, bridge, packets)
      modifies this`joint, this`planned, this`published, this`publishedFeed, this`silentAac, this`scheduled, this`scheduledHeaders
      modifies this`pace, this`ticket, this`trace, this`failure, dispatcher
      ensures Onwards(old(dispatcher.sent), dispatcher.sent, old(dispatcher.answers), dispatcher.answers, epoch)
      ensures failure in {NoFailure, TimestampOverflow, DtsRegression, GuardOverflow, ConsumerFailed}
      ensures failure == TimestampOverflow ==> !(-4 * FAR <= next - cutoff <= 4 * FAR && AllNear(packets))
      ensures failure == GuardOverflow ==> old(MayPace(feed))
      ensures pace.holding == old(pace.holding)
      ensures Valid() && joint.desired == feed && old(trace) <= trace
      ensures failure == NoFailure && feed.Holding? && old(pace.holding) ==> trace == old(trace)
      ensures failure == NoFailure ==> joint == JoinedAt(old(joint), JoinTime(old(planned)))
      ensures failure == NoFailure && old(Plan() == trace && Quiet(feed)) ==> Plan() == trace
      ensures failure == NoFailure ==> Spliced(old(Plan()), old(joint), drained, old(silentAac), Plan(), silentAac, clock)
    {
      hide AllNear, Onwards, Decodable, Provided, Watched, Past, Kept, Joining, EndsOf, OnScreen, Label, OpenedIn, Ticketed, Ordered, StableSort, Modes, Collected, InFeedOrder, Planning, Valid, Plan, Bridges, Batched, RoomFor;
      Unfold();
      PlannedFloor();
      var headers := if feed.Programme? then programmeHeaders else holdingHeaders.value;
      ghost var plan, j, silent := Plan(), joint, silentAac;
      Place(feed, joint.(selected := Some(feed), boundary := [], bytes := 0, offset := next - cutoff), bridge, packets, Some(headers));
      if failure == NoFailure { SplicedHere(plan, j, drained, silent, bridge, packets, Plan(), silentAac, clock); }
    }

    lemma {:induction false} JoinsHere(feed: Feed, cutoff: int, next: int, bridge: seq<Packet>, packets: seq<Packet>, from: int, until: int)
      requires Valid() && failure == NoFailure && joint.selected.None?
      requires Spliceable(Plan(), bridge, packets, cutoff, next, feed, silentAac, from, until, fed, clock)
      ensures JoinsAt(feed, cutoff, next, bridge, packets)
    {
      hide Decodable, Provided, Watched, Past, Joining, EndsOf, Label, OpenedIn, Ticketed, Modes, Collected, InFeedOrder, Planning, Valid, Spliceable, Plan, Batched, SoundsKnown, SilenceAfter;
      Unfold();
      JoinPlaced(Plan(), bridge, packets, cutoff, next, feed, silentAac, from, until, fed, clock);
    }

    /** What Place demands of a join. */
    ghost predicate JoinsAt(feed: Feed, cutoff: int, next: int, bridge: seq<Packet>, packets: seq<Packet>)
      reads this
    {
      var output := Batched(bridge, packets, cutoff, next - cutoff);
      && SoundsKnown(output, feed, fed) && output != []
      && ((forall i :: 0 <= i < |output| ==> planned.output <= output[i].dts) ==>
            Joining(Plan() + Label(feed, output), Some(feed), SilenceAfter(feed, output, silentAac), fed, clock))
      && (fed.inOrder ==> forall i :: 0 <= i < |output| ==>
            planned.output <= output[i].dts && fed.Last(feed).Some? && output[i].dts <= fed.Last(feed).value + next - cutoff)
    }

    /** The silence, if any, in front of a joining feed, and the packets that follow it. */
    method ChooseBridge(feed: Feed, drained: bool, next: int, cutoff: int)
      returns (error: Failure, packets: seq<Packet>, bridge: seq<Packet>, ghost from: int, ghost until: int)
      requires Valid() && failure == NoFailure && joint.desired == feed && joint.selected.None? && joint.cutoff == Some(cutoff)
      requires HasSound(joint.boundary) && ClearAt(planned, next)
      requires drained ==> feed.Holding? && silentAac in fed.holdingSound && planned.output <= planned.audio
      requires feed.Programme? && planned.output >= 0 ==> joint.boundary != [] && HasSound(FromKey(joint.boundary, joint.boundary[0].pts))
      ensures error in {NoFailure, TimingUnsupported, TimestampOverflow}
      ensures error == TimingUnsupported ==> !drained && GapAt(planned, joint, silentAac, next)
      ensures error == TimestampOverflow && AllNear(joint.boundary) && EndsNear(planned, 50000) ==> next - cutoff > 4 * FAR
      ensures error == NoFailure && AllNear(joint.boundary) ==> AllNear(packets)
      ensures error == NoFailure ==> Spliceable(Plan(), bridge, packets, cutoff, next, feed, silentAac, from, until, fed, clock)
      ensures error == NoFailure ==> joint.boundary != [] && Bridges(planned, joint, next - cutoff, drained, silentAac, bridge, packets, clock.aac)
    {
      hide Decodable, Provided, Watched, Past, Kept, Joining, EndsOf, OnScreen, Label, OpenedIn, Ticketed, Ordered, StableSort, Modes, Collected, InFeedOrder, Planning, Valid, Spliceable, Plan;
      hide Fills, Silence, FromKey, FirstSound, Earliest, Bridges;
      Unfold();
      PlannedFloor();
      if AllNear(joint.boundary) { FromKeyNear(joint.boundary, joint.boundary[0].pts); }
      error, packets, bridge := NoFailure, joint.boundary, [];
      from, until := Max(planned.audio, planned.output), planned.audio;
      if feed.Programme? && planned.output >= 0 && silentAac != [] {
        error, packets, bridge := ResumeBridge(planned, silentAac, clock.aac, joint.boundary, next - cutoff);
        until := packets[FirstSound(packets)].pts + next - cutoff;
        if error == NoFailure {
          ResumeBridges(planned, joint, next - cutoff, drained, silentAac, bridge, clock.aac);
          ResumeSpliceable(Plan(), joint, waiting.packets, bridge, next, silentAac, fed, clock);
        }
      } else if drained {
        ghost var first;
        error, bridge, first := DrainBridge(planned, silentAac, clock.aac, joint.boundary, next - cutoff);
        from, until := planned.audio, first + next - cutoff;
        if error == NoFailure {
          DrainBridges(planned, joint, next - cutoff, silentAac, bridge, first, clock.aac);
          DrainSpliceable(Plan(), joint, waiting.packets, bridge, next, first, silentAac, fed, clock);
        }
      } else {
        BareBridges(planned, joint, next - cutoff, silentAac, clock.aac);
        if feed.Programme? { NoHoldingYet(Plan(), silentAac, fed, clock); }
        BareSpliceable(Plan(), joint, waiting.packets, next, silentAac, fed, clock);
      }
    }

    lemma {:induction false} PlannedFloor()
      requires Valid() && failure == NoFailure
      ensures 0 <= planned.audio && -1000 <= planned.output && (silentAac != [] ==> silentAac in fed.holdingSound)
      ensures joint.desired.Holding? ==> holdingHeaders.Some?
      ensures HasSound(joint.boundary) && joint.selected.None? ==> joint.boundary[0].kind.Video?
      ensures joint.selected.None? && joint.cutoff.Some? ==> joint.boundary != [] && joint.boundary[0].dts == joint.cutoff.value
    {
      EndsFloor(Plan(), clock);
    }

    function Now(): Instant
      reads this`joint, this`pace, this`waiting, this`scheduled, this`planned, this`silentAac, this`deadlines, this`epoch
    {
      Instant(joint, pace.holding, MayPace(Programme), waiting, scheduled, planned, silentAac, deadlines, epoch)
    }

    /** programme: hands one packet to the delay controller and publishes what the controller releases. While an accepted
        action is pending nothing is taken from the controller; behind a paced holding scene the programme waits. */
    method ProgrammePacket(packet: Packet, controllerOk: bool, released: seq<Packet>, now: int)
      requires Valid() && failure == NoFailure && forall i :: 0 <= i < |released| ==> !released[i].drain
      modifies this`joint, this`planned, this`published, this`publishedFeed, this`silentAac, this`scheduled, this`scheduledHeaders
      modifies this`pace, this`ticket, this`trace, this`failure, this`fed, this`waiting, this`epoch, this`deadlines, dispatcher
      ensures Valid() && old(trace) <= trace && fed.holdingSound == old(fed.holdingSound)
      ensures failure == NoFailure && old(!pace.holding && joint.desired.Programme? && Plan() == trace && Quiet(Programme)) ==> Plan() == trace
      ensures failure == NoFailure && old(NoSoundUnderHolding(Plan(), clock)) && !NoSoundUnderHolding(Plan(), clock) ==>
        ReleaseExposes(old(Plan()), old(joint), old(silentAac), old(waiting.packets) + released, epoch != old(epoch), clock)
      ensures failure == NoFailure && !old(pace.holding) && dispatcher.floor <= epoch ==>
        var exposes := ReleaseExposes(old(Plan()), old(joint), old(silentAac), old(waiting.packets) + released, epoch != old(epoch), clock);
        (NoSoundUnderHolding(Plan(), clock) <==> old(NoSoundUnderHolding(Plan(), clock)) && !exposes)
      ensures failure == DrainInvalid <==> packet.drain
      ensures failure == ControllerFailed <==> !packet.drain && !controllerOk
      ensures packet.drain || !controllerOk ==> trace == old(trace)
      ensures failure !in {DrainInvalid, ControllerFailed} && dispatcher.floor <= epoch ==>
        Handles(old(Now()).Renewed(packet, now), released, now, failure, epoch, deadlines)
      ensures failure !in {DrainInvalid, ControllerFailed} && epoch < dispatcher.floor ==>
        || Handles(old(Now()).Renewed(packet, now), released, now, failure, epoch, deadlines)
        || (failure == NoFailure && epoch == old(epoch) && deadlines == old(deadlines))
      ensures failure == NoFailure && old(pace.holding) ==> Plan() == old(Plan()) && joint == old(joint)
      ensures failure == NoFailure && old(pace.holding) && dispatcher.floor <= epoch ==> waiting == Queued(old(waiting), released)
      ensures failure == NoFailure && !old(pace.holding) && dispatcher.floor <= epoch ==>
        Released(old(Plan()), old(joint), old(pace.drainRequired), old(silentAac), old(waiting.packets) + released, Plan(), joint, silentAac,
                 epoch != old(epoch), clock)
      ensures failure == NoFailure && !old(pace.holding) && epoch < dispatcher.floor ==>
        || (Plan() == old(Plan()) && joint == old(joint) && waiting == old(waiting) && epoch == old(epoch))
        || Released(old(Plan()), old(joint), old(pace.drainRequired), old(silentAac), old(waiting.packets) + released, Plan(), joint, silentAac,
                    epoch != old(epoch), clock)
    {
      hide Handles, Decodable, Provided, Watched, Past, Kept, Joining, EndsOf, OnScreen, Label, OpenedIn, Ticketed, Planning, Modes, Collected, InFeedOrder, Valid, Released, Queued, PlanOf, NoSoundUnderHolding, Exposes, ReleaseExposes, FirstKey, UpTo, Follows, Ordered, SupplyProgramme, RoomFor;
      Unfold();
      if packet.drain { Fail(DrainInvalid); return; }
      var stale := Stale();
      if stale {
        if !controllerOk { Unfold(); Fail(ControllerFailed); }
        return;
      }
      PassOn(packet, controllerOk, released, now);
    }

    /** The rest of programme while no accepted action is pending. */
    method PassOn(packet: Packet, controllerOk: bool, released: seq<Packet>, now: int)
      requires Valid() && failure == NoFailure && forall i :: 0 <= i < |released| ==> !released[i].drain
      modifies this`joint, this`planned, this`published, this`publishedFeed, this`silentAac, this`scheduled, this`scheduledHeaders
      modifies this`pace, this`ticket, this`trace, this`failure, this`fed, this`waiting, this`epoch, this`deadlines, dispatcher
      ensures Valid() && old(trace) <= trace && fed.holdingSound == old(fed.holdingSound)
      ensures failure == ControllerFailed <==> !controllerOk
      ensures !controllerOk ==> trace == old(trace)
      ensures failure != ControllerFailed ==>
        failure != DrainInvalid && Handles(old(Now()).Renewed(packet, now), released, now, failure, epoch, deadlines)
      ensures failure == NoFailure && old(!pace.holding && joint.desired.Programme? && Plan() == trace && Quiet(Programme)) ==> Plan() == trace
      ensures failure == NoFailure && old(pace.holding) ==> Plan() == old(Plan()) && joint == old(joint) && waiting == Queued(old(waiting), released)
      ensures failure == NoFailure && !old(pace.holding) ==>
        var exposes := ReleaseExposes(old(Plan()), old(joint), old(silentAac), old(waiting.packets) + released, epoch != old(epoch), clock);
        && (NoSoundUnderHolding(Plan(), clock) <==> old(NoSoundUnderHolding(Plan(), clock)) && !exposes)
        && Released(old(Plan()), old(joint), old(pace.drainRequired), old(silentAac), old(waiting.packets) + released, Plan(), joint, silentAac,
                    epoch != old(epoch), clock)
    {
      hide Handles, Decodable, Provided, Watched, Past, Kept, Joining, EndsOf, OnScreen, Label, OpenedIn, Ticketed, Planning, Modes, Collected, InFeedOrder, Valid, Released, Queued, PlanOf, NoSoundUnderHolding, Exposes, ReleaseExposes, FirstKey, UpTo, Follows, Ordered, SupplyProgramme, RoomFor;
      Unfold();
      if packet.KeyVideo() { deadlines := deadlines.(programmeKey := now + DEADLINE); }
      if !controllerOk { Fail(ControllerFailed); return; }
      Fold();
      Pass(released, now);
    }

    /** The rest of programme: what the controller released waits, or goes on. */
    method Pass(released: seq<Packet>, now: int)
      requires Valid() && failure == NoFailure && forall i :: 0 <= i < |released| ==> !released[i].drain
      modifies this`joint, this`planned, this`published, this`publishedFeed, this`silentAac, this`scheduled, this`scheduledHeaders
      modifies this`pace, this`ticket, this`trace, this`failure, this`fed, this`waiting, this`epoch, this`deadlines, dispatcher
      ensures Valid() && old(trace) <= trace && fed.holdingSound == old(fed.holdingSound)
      ensures Handles(old(Now()), released, now, failure, epoch, deadlines) && failure !in {DrainInvalid, ControllerFailed}
      ensures failure == NoFailure && old(!pace.holding && joint.desired.Programme? && Plan() == trace && Quiet(Programme)) ==> Plan() == trace
      ensures failure == NoFailure && old(pace.holding) ==> Plan() == old(Plan()) && joint == old(joint) && waiting == Queued(old(waiting), released)
      ensures failure == NoFailure && !old(pace.holding) ==>
        var exposes := ReleaseExposes(old(Plan()), old(joint), old(silentAac), old(waiting.packets) + released, epoch != old(epoch), clock);
        && (NoSoundUnderHolding(Plan(), clock) <==> old(NoSoundUnderHolding(Plan(), clock)) && !exposes)
        && Released(old(Plan()), old(joint), old(pace.drainRequired), old(silentAac), old(waiting.packets) + released, Plan(), joint, silentAac,
                    epoch != old(epoch), clock)
    {
      hide MayFail, Handed, HandedTo, Starts, WaitUntil, Decodable, Provided, Watched, Past, Kept, Joining, EndsOf, OnScreen, Label, OpenedIn, Ticketed, Planning, Modes, Collected, InFeedOrder, Valid, Released, Queued, PlanOf,
        NoSoundUnderHolding, Exposes, ReleaseExposes, FirstKey, UpTo, Follows, Ordered, SupplyProgramme, RoomFor;
      TakeReleased(released);
      if pace.holding { Wait(released, now); } else { ReleaseReady(released, now); }
    }

    ghost method TakeReleased(released: seq<Packet>)
      requires Valid() && failure == NoFailure && forall i :: 0 <= i < |released| ==> !released[i].drain
      modifies this`fed
      ensures Valid() && fed == SupplyProgramme(old(fed), released) && fed.holdingSound == old(fed.holdingSound)
      ensures fed.inOrder ==> Ordered(waiting.packets + released) && UpTo(waiting.packets + released, fed.programmeLast)
      ensures fed.inOrder && joint.desired.Programme? ==> Follows(joint, released, planned.output, fed)
    {
      hide Decodable, Provided, Watched, Past, Kept, Joining, EndsOf, OnScreen, Label, OpenedIn, Ticketed, Planning, Modes, Collected, InFeedOrder, Valid, Ordered, UpTo, Follows;
      Unfold();
      var more := SupplyProgramme(fed, released);
      ProgrammeSupplied(joint, waiting.packets, planned.output, fed, released);
      PlanningFed(trace, joint, pace, waiting.packets, scheduled.packets, scheduledHeaders, planned, holdingHeaders.Some?, Opened(),
                  silentAac, fed, more, clock);
      PastFed(trace, dispatcher.sent, epoch, silentAac, fed, more, clock);
      fed := more;
      Fold();
    }

    /** The programme waits behind a paced holding scene, from a key picture on and within the queue limits. */
    method Wait(released: seq<Packet>, now: int)
      requires Valid() && failure == NoFailure && pace.holding && forall i :: 0 <= i < |released| ==> !released[i].drain
      requires fed.inOrder ==> Ordered(waiting.packets + released) && UpTo(waiting.packets + released, fed.programmeLast)
      modifies this`waiting, this`deadlines, this`failure
      ensures Valid()
      ensures deadlines == old(deadlines).(programme := WaitUntil(old(deadlines.programme), Starts(true, joint.desired, old(waiting.packets), released), now))
      ensures failure == NoFailure ==> waiting == Queued(old(waiting), released)
      ensures failure in {NoFailure, GuardOverflow}
      ensures failure == GuardOverflow <==> Queued(old(waiting), released) != old(waiting) && !RoomFor(old(waiting), released)
    {
      hide Decodable, Provided, Watched, Past, Kept, Joining, EndsOf, OnScreen, Label, OpenedIn, Ticketed, Planning, Modes, Collected, InFeedOrder, Valid, Ordered, UpTo;
      if waiting.packets == [] && forall i :: 0 <= i < |released| ==> !released[i].KeyVideo() { return; }
      if released != [] { LimitWaiting(now); }
      HoldingPaced();
      var queued, fits := Enqueue(waiting, released);
      if !fits { Unfold(); Fail(GuardOverflow); return; }
      SetWaiting(queued);
    }

    /** The first programme that waits may do so for only so long. */
    method LimitWaiting(now: int)
      requires Valid() && failure == NoFailure
      modifies this`deadlines
      ensures Valid() && deadlines == old(deadlines).(programme := WaitUntil(old(deadlines.programme), true, now))
    {
      hide Decodable, Provided, Watched, Past, Kept, Joining, EndsOf, OnScreen, Label, OpenedIn, Ticketed, Planning, Modes, Collected, InFeedOrder, Valid;
      Unfold();
      if deadlines.programme.None? { deadlines := deadlines.(programme := Some(now + DEADLINE)); }
      Fold();
    }

    lemma {:induction false} HoldingPaced()
      requires Valid() && failure == NoFailure
      ensures pace.holding ==> joint.desired.Holding?
      ensures joint.desired.Programme? ==> waiting.packets == []
      ensures forall i :: 0 <= i < |waiting.packets| ==> !waiting.packets[i].drain
    {}

    /** release_ready: the programme goes on, or takes over from the holding scene at its next key picture. */
    method ReleaseReady(released: seq<Packet>, now: int)
      requires Valid() && failure == NoFailure && !pace.holding && forall i :: 0 <= i < |released| ==> !released[i].drain
      requires fed.inOrder ==> Ordered(waiting.packets + released) && UpTo(waiting.packets + released, fed.programmeLast)
      requires fed.inOrder && joint.desired.Programme? ==> Follows(joint, released, planned.output, fed)
      modifies this`joint, this`planned, this`published, this`publishedFeed, this`silentAac, this`scheduled, this`scheduledHeaders
      modifies this`pace, this`ticket, this`trace, this`failure, this`waiting, this`epoch, this`deadlines, dispatcher
      ensures Onwards(old(dispatcher.sent), dispatcher.sent, old(dispatcher.answers), dispatcher.answers, epoch)
      ensures epoch != old(epoch) ==> deadlines == Deadlines(now + DEADLINE, None, now + DEADLINE)
      ensures epoch == old(epoch) ==>
        deadlines == old(deadlines).(programme := WaitUntil(old(deadlines.programme), Starts(false, old(joint.desired), old(waiting.packets), released), now))
      ensures failure !in {NoFailure, EpochOverflow} ==>
        MayFail(failure, Handed(old(joint), old(waiting.packets) + released), old(planned), HandedTo(old(joint)), old(silentAac), old(MayPace(Programme)), old(scheduled))
      ensures old(joint.desired).Holding? && epoch == old(epoch) ==> joint == old(joint)
      ensures failure in {NoFailure, TimingUnsupported, BoundaryOverflow, TimestampOverflow, DtsRegression, GuardOverflow, ConsumerFailed, EpochOverflow}
      ensures failure == EpochOverflow ==> EPOCH_MAX <= epoch
      ensures old(epoch) <= epoch && (old(joint.desired).Holding? && epoch == old(epoch) ==> dispatcher.sent == old(dispatcher.sent))
      ensures pace.holding == old(pace.holding)
      ensures Valid() && old(trace) <= trace
      ensures failure == NoFailure && old(joint.desired).Programme? && old(Plan() == trace && Quiet(Programme)) ==> Plan() == trace
      ensures failure == NoFailure ==>
        (NoSoundUnderHolding(Plan(), clock) <==> old(NoSoundUnderHolding(Plan(), clock)) && !ReleaseExposes(old(Plan()), old(joint), old(silentAac), old(waiting.packets) + released, epoch != old(epoch), clock))
      ensures failure == NoFailure ==> waiting.packets == []
      ensures failure == NoFailure ==>
        var ready := old(waiting.packets) + released;
        && Released(old(Plan()), old(joint), old(pace.drainRequired), old(silentAac), ready, Plan(), joint, silentAac, epoch != old(epoch), clock)
        && (old(joint.desired).Holding? && FirstKey(ready) < |ready| && epoch == old(epoch) ==> epoch < dispatcher.floor)
    {
      hide Onwards, Decodable, Provided, Watched, Past, Kept, Joining, EndsOf, OnScreen, Label, OpenedIn, Ticketed, Planning, Modes, Collected, InFeedOrder, Valid, Follows, Published, Switched, PlanOf, NoSoundUnderHolding, Exposes;
      OnwardsSame(dispatcher.sent, dispatcher.answers, epoch);
      HoldingPaced();
      var ready := waiting.packets + released;
      if waiting.packets != [] { SetWaiting(Queue([], 0)); }
      HidesNothing(Plan(), joint, silentAac, [], clock);
      if ready == [] { return; }
      if joint.desired.Holding? {
        SwitchBack(ready, now);
      } else {
        assert ready == released;
        Publish(Programme, ready, now);
      }
    }

    method SetWaiting(queued: Queue)
      requires Valid() && failure == NoFailure && (queued.packets != [] ==> joint.desired.Holding?)
      requires forall i :: 0 <= i < |queued.packets| ==> !queued.packets[i].drain
      requires fed.inOrder ==> Ordered(queued.packets) && UpTo(queued.packets, fed.programmeLast)
      modifies this`waiting
      ensures Valid() && waiting == queued
    {
      hide Decodable, Provided, Watched, Past, Kept, Joining, EndsOf, OnScreen, Label, OpenedIn, Ticketed, Planning, Modes, Collected, InFeedOrder, Valid, Ordered, UpTo;
      Unfold();
      PlanningWaiting(trace, joint, pace, waiting.packets, queued.packets, scheduled.packets, scheduledHeaders, planned, holdingHeaders.Some?, Opened(),
                      silentAac, fed, clock);
      waiting := queued;
      Fold();
    }

    /** The programme takes over at its first key picture, in an epoch of its own, unless an accepted action is pending. */
    method SwitchBack(ready: seq<Packet>, now: int)
      requires Valid() && failure == NoFailure && !pace.holding && joint.desired.Holding? && waiting.packets == []
      requires forall i :: 0 <= i < |ready| ==> !ready[i].drain
      requires fed.inOrder ==> Ordered(ready) && UpTo(ready, fed.programmeLast)
      modifies this`joint, this`planned, this`published, this`publishedFeed, this`silentAac, this`scheduled, this`scheduledHeaders
      modifies this`pace, this`ticket, this`trace, this`failure, this`epoch, this`deadlines, dispatcher
      ensures Onwards(old(dispatcher.sent), dispatcher.sent, old(dispatcher.answers), dispatcher.answers, epoch)
      ensures epoch != old(epoch) ==> deadlines == Deadlines(now + DEADLINE, None, now + DEADLINE)
      ensures epoch == old(epoch) ==> deadlines == old(deadlines).(programme := WaitUntil(old(deadlines.programme), FirstKey(ready) == |ready|, now))
      ensures failure !in {NoFailure, EpochOverflow} ==>
        MayFail(failure, Handed(old(joint), ready), old(planned), HandedTo(old(joint)), old(silentAac), old(MayPace(Programme)), old(scheduled))
      ensures epoch == old(epoch) ==> joint == old(joint)
      ensures failure in {NoFailure, TimingUnsupported, BoundaryOverflow, TimestampOverflow, DtsRegression, GuardOverflow, ConsumerFailed, EpochOverflow}
      ensures failure == EpochOverflow ==> EPOCH_MAX <= epoch
      ensures old(epoch) <= epoch && (epoch == old(epoch) ==> dispatcher.sent == old(dispatcher.sent))
      ensures pace.holding == old(pace.holding)
      ensures Valid() && old(trace) <= trace
      ensures failure == NoFailure ==>
        (NoSoundUnderHolding(Plan(), clock) <==> old(NoSoundUnderHolding(Plan(), clock)) && !ReleaseExposes(old(Plan()), old(joint), old(silentAac), ready, epoch != old(epoch), clock))
      ensures failure == NoFailure ==>
        Switched(old(Plan()), old(joint), old(silentAac), ready, Plan(), joint, silentAac, epoch != old(epoch), clock)
      ensures failure == NoFailure && FirstKey(ready) < |ready| && epoch == old(epoch) ==> epoch < dispatcher.floor
    {
      hide Onwards, Decodable, Provided, Watched, Past, Kept, Joining, EndsOf, OnScreen, Label, OpenedIn, Ticketed, Planning, Modes, Collected, InFeedOrder, Valid, Published, PlanOf, NoSoundUnderHolding, Exposes;
      OnwardsSame(dispatcher.sent, dispatcher.answers, epoch);
      PacedModes();
      var k := FirstKey(ready);
      if k == |ready| {
        Unfold();
        if deadlines.programme.None? { deadlines := deadlines.(programme := Some(now + DEADLINE)); }
        Fold();
        return;
      }
      var done := EnterProgramme(now);
      OnwardsSame(dispatcher.sent, dispatcher.answers, epoch);
      if done && failure == NoFailure { Publish(Programme, ready[k..], now); }
    }

    method EnterProgramme(now: int) returns (done: bool)
      requires Valid() && failure == NoFailure && !pace.holding && joint.desired.Holding? && waiting.packets == []
      modifies this`joint, this`failure, this`epoch, this`deadlines, dispatcher`floor, dispatcher`reported
      ensures Valid()
      ensures done ==> deadlines == Deadlines(now + DEADLINE, None, now + DEADLINE)
      ensures done ==> failure in {NoFailure, ConsumerFailed}
      ensures !done ==> deadlines == old(deadlines) && failure == if EPOCH_MAX <= epoch then EpochOverflow else NoFailure
      ensures done ==> epoch == old(epoch) + 1 && joint == Joint(Programme, None, None, [], 0, old(joint.offset))
      ensures !done ==> joint == old(joint) && epoch == old(epoch) && (failure == NoFailure ==> epoch < dispatcher.floor)
    {
      hide Decodable, Provided, Watched, Past, Kept, Joining, EndsOf, OnScreen, Label, OpenedIn, Ticketed, Planning, Modes, Collected, InFeedOrder, Valid;
      Unfold();
      ghost var j, begun := joint, Opened();
      PacedModes();
      done := StepEpoch(now);
      if !done {
        if failure == NoFailure { Fold(); } else { Failed(); }
        return;
      }
      joint := joint.(desired := Programme);
      WatchedSwitch(pace, j.selected, old(epoch), epoch, dispatcher.sent, dispatcher.answers);
      ProvidedNever(j.selected, scheduledHeaders, old(epoch), epoch, dispatcher.sent, programmeHeaders, holdingHeaders);
      PlanningSwitched(trace, j, joint, pace, waiting.packets, scheduled.packets, scheduledHeaders, planned, holdingHeaders.Some?, begun, Opened(),
                       silentAac, fed, clock);
      if failure == NoFailure { Fold(); } else { Failed(); }
    }

    /** holding: packets of the holding feed. Its first sound is kept for bridges; the rest is published while holding is
        wanted and no programme is queued behind it. */
    method HoldingPackets(packets: seq<Packet>, now: int)
      requires Valid() && failure == NoFailure && forall i :: 0 <= i < |packets| ==> !packets[i].drain
      modifies this`joint, this`planned, this`published, this`publishedFeed, this`silentAac, this`scheduled, this`scheduledHeaders
      modifies this`pace, this`ticket, this`trace, this`failure, this`fed, dispatcher
      ensures Valid() && old(trace) <= trace
      ensures old(fed.Voiced()) && (forall i :: 0 <= i < |packets| && packets[i].kind.Audio? ==> packets[i].payload != []) ==> fed.Voiced()
      ensures pace.holding == old(pace.holding)
      ensures failure == NoFailure && old(pace.holding) ==>
        trace == old(trace) || trace == old(trace) + OwedDrain(Gather(old(joint), packets), old(pace.drainRequired), old(planned))
      ensures failure == NoFailure && old(Plan() == trace && Quiet(Holding)) ==> Plan() == trace
      ensures failure == NoFailure ==> (NoSoundUnderHolding(Plan(), clock) <==> old(NoSoundUnderHolding(Plan(), clock)))
      ensures joint.desired == old(joint.desired)
      ensures joint.desired.Programme? ==> trace == old(trace)
      ensures failure != NoFailure ==> Wanted(old(joint), old(waiting.packets))
      ensures failure != NoFailure ==>
        MayFail(failure, packets, old(planned), old(joint), KeptSilence(old(silentAac), packets), old(pace.holding), old(scheduled))
      ensures failure == NoFailure ==>
        || (Plan() == old(Plan()) && joint == old(joint) && silentAac == KeptSilence(old(silentAac), packets))
        || (Wanted(old(joint), old(waiting.packets)) &&
            Published(old(Plan()), old(joint), old(pace.drainRequired), KeptSilence(old(silentAac), packets), packets, Plan(), joint, silentAac, clock))
      ensures failure == NoFailure && dispatcher.floor <= epoch && Wanted(old(joint), old(waiting.packets)) ==>
        Published(old(Plan()), old(joint), old(pace.drainRequired), KeptSilence(old(silentAac), packets), packets, Plan(), joint, silentAac, clock)
    {
      hide MayFail, Decodable, Provided, Watched, Past, Kept, Joining, EndsOf, OnScreen, Label, OpenedIn, Ticketed, Planning, Modes, Collected, InFeedOrder, Valid, Follows, UpTo, Ordered, Published, PlanOf, NoSoundUnderHolding;
      TakeHolding(packets);
      if silentAac == [] && HasSound(packets) { KeepSilence(packets[FirstSound(packets)].payload); }
      var stale := Stale();
      if stale { return; }
      if joint.desired.Holding? && (waiting.packets == [] || joint.selected.None?) {
        HidesNothing(Plan(), joint, silentAac, packets, clock);
        Publish(Holding, packets, now);
      }
    }

    /** Holding is still wanted, and no programme is queued behind it. */
    predicate Wanted(j: Joint, queued: seq<Packet>) {
      j.desired.Holding? && (queued == [] || j.selected.None?)
    }

    /** Whether an accepted action has not been processed yet. */
    method Stale() returns (b: bool)
      requires Valid() && failure == NoFailure
      modifies dispatcher`floor
      ensures Valid()
      ensures if b then epoch < dispatcher.floor else old(dispatcher.floor) <= epoch
    {
      hide Decodable, Provided, Watched, Past, Kept, Joining, EndsOf, OnScreen, Label, OpenedIn, Ticketed, Planning, Modes, Collected, InFeedOrder, Valid;
      Unfold();
      var accepted := dispatcher.PublicationEpoch();
      b := epoch < accepted;
      Fold();
    }

    method KeepSilence(payload: seq<Byte>)
      requires Valid() && failure == NoFailure && payload in fed.holdingSound
      modifies this`silentAac
      ensures Valid() && silentAac == payload
    {
      hide Decodable, Provided, Watched, Past, Kept, Joining, EndsOf, OnScreen, Label, OpenedIn, Ticketed, Planning, Modes, Collected, InFeedOrder, Valid;
      Unfold();
      PlanningSilence(trace, joint, pace, waiting.packets, scheduled.packets, scheduledHeaders, planned, holdingHeaders.Some?, Opened(),
                      silentAac, payload, fed, clock);
      PastSilence(trace, dispatcher.sent, epoch, silentAac, payload, fed, clock);
      silentAac := payload;
      Fold();
    }

    ghost method TakeHolding(packets: seq<Packet>)
      requires Valid() && failure == NoFailure
      modifies this`fed
      ensures Valid() && fed == SupplyHolding(old(fed), packets)
      ensures fed.inOrder && joint.desired.Holding? ==> Follows(joint, packets, planned.output, fed)
      ensures forall i :: 0 <= i < |packets| && packets[i].kind.Audio? ==> packets[i].payload in fed.holdingSound
    {
      hide Decodable, Provided, Watched, Past, Kept, Joining, EndsOf, OnScreen, Label, OpenedIn, Ticketed, Planning, Modes, Collected, InFeedOrder, Valid, Ordered, UpTo, Follows;
      Unfold();
      var more := SupplyHolding(fed, packets);
      HoldingSupplied(joint, waiting.packets, planned.output, fed, packets);
      PlanningFed(trace, joint, pace, waiting.packets, scheduled.packets, scheduledHeaders, planned, holdingHeaders.Some?, Opened(),
                  silentAac, fed, more, clock);
      PastFed(trace, dispatcher.sent, epoch, silentAac, fed, more, clock);
      fed := more;
      Fold();
    }

    /** The first real sound of a paced feed is the one to wait for. */
    ghost predicate Noting(due: seq<Packet>, paced: Pace)
      reads this`pace, this`ticket
    {
      if pace.holding then !pace.programme && paced == if pace.holdingTicket == 0 && Audible(due) then pace.(holdingTicket := ticket + 1) else pace
      else
        var heard := pace.boundarySent || Audible(due);
        pace.programme && paced == pace.(boundarySent := heard, programmeTicket := if heard && pace.programmeTicket == 0 then ticket + 1 else pace.programmeTicket)
    }

    lemma {:induction false} DuePlanned(due: seq<Packet>, rest: Queue, paced: Pace)
      requires Valid() && failure == NoFailure && due != [] && scheduled.packets == due + rest.packets && SamePlan(pace, paced, joint.desired, true)
      ensures scheduledHeaders.Some? || Opened()
      ensures var u := trace + Label(joint.desired, due);
        && History() && Kept(u, fed, clock) && (fed.Voiced() && silentAac == [] ==> !HasHoldingPicture(u))
        && PlanOf(u, paced, rest.packets) == Plan()
        && Planning(u, joint, paced, waiting.packets, rest.packets, None, planned, holdingHeaders.Some?, true, silentAac, fed, clock)
    {
      hide Decodable, Provided, Watched, Past, Kept, Joining, EndsOf, OnScreen, Label, OpenedIn, Ticketed, Planning, Modes, Collected, InFeedOrder, Valid, PlanOf, SamePlan, HasHoldingPicture;
      Unfold();
      PlanningDue(trace, joint, pace, paced, waiting.packets, due, rest.packets, scheduledHeaders, planned, holdingHeaders.Some?, Opened(),
                  silentAac, fed, clock);
    }

    lemma {:induction false} NotedDue(due: seq<Packet>, rest: Queue, paced: Pace)
      requires Valid() && failure == NoFailure && due != [] && scheduled.packets == due + rest.packets && Noting(due, paced)
      ensures var b := Batch(epoch, Label(joint.desired, due), scheduledHeaders, ticket + 1);
        && Watched(paced, joint.desired, joint.selected, epoch, dispatcher.sent + [b], dispatcher.answers) && Suits(b)
        && Provided(joint.selected, None, rest.packets, epoch, dispatcher.sent + [b], programmeHeaders, holdingHeaders)
    {
      hide Decodable, Provided, Watched, Past, Kept, Joining, EndsOf, OnScreen, Label, OpenedIn, Ticketed, Planning, Modes, Collected, InFeedOrder, Valid, RealSound, Audible;
      PacedModes();
      Unfold();
      var b := Batch(epoch, Label(joint.desired, due), scheduledHeaders, ticket + 1);
      RealSoundOf(b, joint.desired, due);
      WatchedDue(pace, paced, joint.desired, joint.selected, dispatcher.sent, dispatcher.answers, b);
      ProvidedDue(joint.selected, scheduled.packets, rest.packets, due, dispatcher.sent, b, programmeHeaders, holdingHeaders);
    }

    /** Hands over the due front of the queue. */
    method SendDue(due: seq<Packet>, rest: Queue, paced: Pace)
      requires Valid() && failure == NoFailure && due != [] && scheduled.packets == due + rest.packets
      requires SamePlan(pace, paced, joint.desired, true) && Noting(due, paced)
      modifies this`scheduled, this`scheduledHeaders, this`pace, this`published, this`publishedFeed, this`ticket, this`trace, this`failure, dispatcher
      ensures Onwards(old(dispatcher.sent), dispatcher.sent, old(dispatcher.answers), dispatcher.answers, epoch)
      ensures failure in {NoFailure, ConsumerFailed}
      ensures Valid() && trace == old(trace) + Label(joint.desired, due) && ticket == old(ticket) + 1
      ensures failure == NoFailure ==> scheduled == rest && pace == paced && Plan() == old(Plan()) && Opened()
    {
      hide HasHoldingPicture, Noting, Audible, SamePlan, Onwards, Decodable, Provided, Watched, Past, Kept, Joining, EndsOf, OnScreen, Label, OpenedIn, Ticketed, Planning, Modes, Collected, InFeedOrder, Valid, PlanOf, Ordered, UpTo, Follows;
      DuePlanned(due, rest, paced);
      var headers := scheduledHeaders;
      OnwardsSent(dispatcher.sent, Batch(epoch, Label(joint.desired, due), headers, ticket + 1), dispatcher.answers);
      NotedDue(due, rest, paced);
      scheduled, scheduledHeaders, pace := rest, None, paced;
      Send(joint.desired, due, headers);
      if failure == NoFailure { Fold(); } else { Failed(); }
    }

    /** Notes what the plan does not depend on. */
    method SetPace(paced: Pace)
      requires Valid() && failure == NoFailure && SamePlan(pace, paced, joint.desired, Opened())
      requires Watched(paced, joint.desired, joint.selected, epoch, dispatcher.sent, dispatcher.answers)
      modifies this`pace
      ensures Valid() && pace == paced && Plan() == old(Plan())
    {
      hide Decodable, Provided, Watched, Past, Kept, Joining, EndsOf, OnScreen, Label, OpenedIn, Ticketed, Planning, Modes, Collected, InFeedOrder, Valid, PlanOf, SamePlan;
      Unfold();
      PlanningPaced(trace, joint, pace, paced, waiting.packets, scheduled.packets, scheduledHeaders, planned, holdingHeaders.Some?, Opened(),
                    silentAac, fed, clock);
      pace := paced;
      Fold();
    }

    method Acknowledged(awaited: nat) returns (b: bool)
      requires Valid() && failure == NoFailure
      modifies dispatcher`floor, dispatcher`answers
      ensures Valid() && dispatcher.answers == old(dispatcher.answers) + [Answer(epoch, awaited, b)]
    {
      hide Decodable, Provided, Watched, Past, Kept, Joining, EndsOf, OnScreen, Label, OpenedIn, Ticketed, Planning, Modes, Collected, InFeedOrder, Valid;
      Unfold();
      b := dispatcher.Delivered(epoch, awaited);
      WatchedAnswer(pace, joint.desired, joint.selected, epoch, dispatcher.sent, old(dispatcher.answers), Answer(epoch, awaited, b));
      Fold();
    }

    lemma {:induction false} PacedModes()
      requires Valid() && failure == NoFailure
      ensures pace.holding ==> joint.desired.Holding? && !pace.programme
      ensures pace.programme ==> joint.desired.Programme?
      ensures pace.drainTicket != 0 ==> !pace.drainRequired
      ensures pace.boundarySent || pace.boundaryDelivered ==> Opened()
      ensures pace.programme ==> !pace.drainRequired
      ensures pace.drainRequired ==> pace.holding && joint.selected.None?
      ensures joint.selected.Some? ==> joint.selected.value == joint.desired
      ensures scheduled.packets != [] ==> joint.selected.Some? && (pace.holding || pace.programme)
    {}

    /** check_deadline for a paced holding scene: once the drain was delivered, holding is released no earlier than its
        place on the timeline, and no later. The scene ends only if everyone has got the drain, real sound of the scene and
        the last batch of its epoch; and it does end once that is so, unless no programme waits. */
    method HoldingTick(now: int)
      requires Valid() && failure == NoFailure && pace.holding
      modifies this`joint, this`planned, this`published, this`publishedFeed, this`silentAac, this`scheduled, this`scheduledHeaders
      modifies this`pace, this`ticket, this`trace, this`failure, this`waiting, this`epoch, this`deadlines, dispatcher
      ensures deadlines == if epoch != old(epoch) then Deadlines(now + DEADLINE, None, now + DEADLINE) else old(deadlines).(programme := deadlines.programme)
      ensures Valid() && old(trace) <= trace && old(epoch) <= epoch
      ensures failure == GuardTimeout <==> old(pace.guardActive) && now >= old(deadlines.boundary)
      ensures failure !in {BoundaryTimeout, KeyframeTimeout} && (failure == EpochOverflow ==> EPOCH_MAX <= epoch)
      ensures failure !in {NoFailure, EpochOverflow, ConsumerFailed, GuardTimeout} ==>
        MayFail(failure, Handed(old(joint), old(waiting.packets)), old(planned), HandedTo(old(joint)), old(silentAac), old(MayPace(Programme)), old(scheduled))
      ensures failure == GuardTimeout ==> trace == old(trace)
      ensures failure == NoFailure && old(NoSoundUnderHolding(Plan(), clock)) && !NoSoundUnderHolding(Plan(), clock) ==>
        ReleaseExposes(old(Plan()), old(joint), old(silentAac), old(waiting.packets), epoch != old(epoch), clock)
      ensures old(pace.drainTicket) == 0 ==> trace == old(trace)
      ensures failure == NoFailure && pace.holding ==> Plan() == old(Plan()) && joint == old(joint) && epoch == old(epoch) && waiting == old(waiting)
      ensures failure == NoFailure && pace.holding && trace != old(trace) ==>
        pace.drainAck.Some? && InTime(trace, |old(trace)|, pace.drainAck.value, pace.drainTime, now)
      ensures failure == NoFailure && pace.holding ==> GoesOn(old(dispatcher.answers), now)
      ensures failure == NoFailure && !pace.holding ==> Over(old(epoch), old(pace.drainTicket)) && (pace.programme ==> old(epoch) < epoch)
      ensures failure == NoFailure && !pace.holding ==>
        Released(old(Plan()), old(joint), false, old(silentAac), old(waiting.packets), Plan(), joint, silentAac, epoch != old(epoch), clock)
    {
      hide MayFail, Handed, HandedTo, Decodable, Provided, Watched, Past, Kept, Joining, EndsOf, OnScreen, Label, OpenedIn, Ticketed, Planning, Modes, Collected, InFeedOrder, Valid, Plan, NoSoundUnderHolding, Exposes, ReleaseExposes, GoesOn, Over, Released, PlanOf;
      Unfold();
      if pace.guardActive && now >= deadlines.boundary { Fail(GuardTimeout); return; }
      if pace.drainTicket == 0 {
        NotDrained(now);
        return;
      }
      var drained := Acknowledged(pace.drainTicket);
      if !drained {
        DrainDenied(old(dispatcher.answers), now);
        return;
      }
      HoldingGoes(now, old(dispatcher.answers));
    }

    /** Why a paced holding scene goes on after a tick: the drain was not sent or not delivered yet; or packets wait for
        their time; or no programme waits; or real sound of the scene was not sent or not delivered, or the last batch not
        delivered. */
    ghost predicate GoesOn(before: seq<Answer>, now: int)
      reads this`pace, this`epoch, this`ticket, this`scheduled, this`waiting, dispatcher`answers
    {
      pace.drainTicket == 0 || Denied(before, dispatcher.answers, epoch, pace.drainTicket) ||
      (&& (pace.guardActive ==> pace.holdingTicket == 0 || Denied(before, dispatcher.answers, epoch, pace.holdingTicket))
       && (scheduled.packets != [] ==> pace.drainAck.Some? && now < pace.drainAck.value + scheduled.packets[0].dts - pace.drainTime)
       && (scheduled.packets != [] || waiting.packets == [] || pace.guardActive || Denied(before, dispatcher.answers, epoch, ticket)))
    }

    /** Everyone has got the drain of a holding scene, real sound of it, and its last batch. */
    ghost predicate Over(scene: nat, drain: nat)
      reads dispatcher`sent, dispatcher`answers
    {
      Answer(scene, drain, true) in dispatcher.answers && SoundHeard(dispatcher.sent, dispatcher.answers, scene) &&
      LastHeard(dispatcher.sent, dispatcher.answers, scene)
    }

    lemma {:induction false} NotDrained(now: int)
      requires pace.drainTicket == 0
      ensures forall before :: GoesOn(before, now)
    {}

    lemma {:induction false} DrainDenied(before: seq<Answer>, now: int)
      requires dispatcher.answers == before + [Answer(epoch, pace.drainTicket, false)]
      ensures GoesOn(before, now)
    {
      DeniedLast(before, Answer(epoch, pace.drainTicket, false));
    }

    /** A tick of a holding scene whose drain was delivered. */
    method HoldingGoes(now: int, ghost before: seq<Answer>)
      requires Valid() && failure == NoFailure && pace.holding && pace.drainTicket != 0
      requires before <= dispatcher.answers && Answer(epoch, pace.drainTicket, true) in dispatcher.answers
      modifies this`joint, this`planned, this`published, this`publishedFeed, this`silentAac, this`scheduled, this`scheduledHeaders
      modifies this`pace, this`ticket, this`trace, this`failure, this`waiting, this`epoch, this`deadlines, dispatcher
      ensures deadlines == if epoch != old(epoch) then Deadlines(now + DEADLINE, None, now + DEADLINE) else old(deadlines).(programme := deadlines.programme)
      ensures Valid() && old(trace) <= trace && old(epoch) <= epoch
      ensures failure !in {GuardTimeout, BoundaryTimeout, KeyframeTimeout} && (failure == EpochOverflow ==> EPOCH_MAX <= epoch)
      ensures failure !in {NoFailure, EpochOverflow, ConsumerFailed} ==>
        MayFail(failure, Handed(old(joint), old(waiting.packets)), old(planned), HandedTo(old(joint)), old(silentAac), old(MayPace(Programme)), old(scheduled))
      ensures failure == NoFailure && old(NoSoundUnderHolding(Plan(), clock)) && !NoSoundUnderHolding(Plan(), clock) ==>
        ReleaseExposes(old(Plan()), old(joint), old(silentAac), old(waiting.packets), epoch != old(epoch), clock)
      ensures failure == NoFailure && pace.holding ==> Plan() == old(Plan()) && joint == old(joint) && epoch == old(epoch) && waiting == old(waiting)
      ensures failure == NoFailure && pace.holding && trace != old(trace) ==>
        pace.drainAck.Some? && InTime(trace, |old(trace)|, pace.drainAck.value, pace.drainTime, now)
      ensures failure == NoFailure && pace.holding ==> GoesOn(before, now)
      ensures failure == NoFailure && !pace.holding ==> Over(old(epoch), old(pace.drainTicket)) && (pace.programme ==> old(epoch) < epoch)
      ensures failure == NoFailure && !pace.holding ==>
        Released(old(Plan()), old(joint), false, old(silentAac), old(waiting.packets), Plan(), joint, silentAac, epoch != old(epoch), clock)
    {
      hide Decodable, Provided, Watched, Past, Kept, Joining, EndsOf, OnScreen, Label, OpenedIn, Ticketed, Planning, Modes, Collected, InFeedOrder, Valid, Plan, NoSoundUnderHolding, Exposes, ReleaseExposes, Over, Released, PlanOf, Denied, InTime;
      PacedModes();
      HoldingDue(now);
      if failure != NoFailure { return; }
      PacedModes();
      AskGuard(before);
      if !pace.guardActive && waiting.packets != [] && scheduled.packets == [] {
        ghost var heard := dispatcher.answers;
        var flushed := Acknowledged(ticket);
        if flushed {
          EndHoldingPace(now);
        } else {
          DeniedNow(before, heard, Answer(epoch, ticket, false));
        }
      }
    }

    /** The guard comes down as soon as everyone has got real sound of the scene. */
    method AskGuard(ghost before: seq<Answer>)
      requires Valid() && failure == NoFailure && pace.holding && before <= dispatcher.answers
      modifies this`pace, dispatcher`floor, dispatcher`answers
      ensures Valid() && Plan() == old(Plan()) && pace == old(pace).(guardActive := pace.guardActive)
      ensures old(dispatcher.answers) <= dispatcher.answers
      ensures pace.guardActive ==> pace.holdingTicket == 0 || Denied(before, dispatcher.answers, epoch, pace.holdingTicket)
    {
      hide Decodable, Provided, Watched, Past, Kept, Joining, EndsOf, OnScreen, Label, OpenedIn, Ticketed, Planning, Modes, Collected, InFeedOrder, Valid, PlanOf, Denied, SamePlan;
      NotesKeepPlan(pace, joint.desired, Opened());
      if pace.holdingTicket != 0 {
        var heard := Acknowledged(pace.holdingTicket);
        if heard {
          WatchedNote(pace, pace.(guardActive := false), joint.desired, joint.selected, epoch, dispatcher.sent, dispatcher.answers) by { Unfold(); }
          SetPace(pace.(guardActive := false));
        } else {
          DeniedNow(before, old(dispatcher.answers), Answer(epoch, pace.holdingTicket, false));
        }
      } else {
        GuardStays();
      }
    }

    /** Without real sound of the scene there is nothing to wait for yet, and the guard is up. */
    lemma {:induction false} GuardStays()
      requires Valid() && failure == NoFailure && pace.holding && pace.holdingTicket == 0
      ensures pace.guardActive && !SoundSent(dispatcher.sent, epoch)
    {
      hide Past, Planned, SoundUnder, SoundHeard, SoundSent, DrainUnder;
    }

    /** Releases the holding packets that are due; the first real sound among them is the one to wait for. */
    method HoldingDue(now: int)
      requires Valid() && failure == NoFailure && pace.holding && pace.drainTicket != 0
      requires Answer(epoch, pace.drainTicket, true) in dispatcher.answers
      modifies this`scheduled, this`scheduledHeaders, this`pace, this`published, this`publishedFeed, this`ticket, this`trace, this`failure, dispatcher
      ensures Onwards(old(dispatcher.sent), dispatcher.sent, old(dispatcher.answers), dispatcher.answers, epoch)
      ensures failure in {NoFailure, ConsumerFailed}
      ensures Valid() && old(trace) <= trace
      ensures failure == NoFailure ==> Plan() == old(Plan())
      ensures failure == NoFailure ==> pace.holding && pace.drainAck.Some? && pace.drainTime == old(pace.drainTime) && pace.drainTicket == old(pace.drainTicket)
      ensures failure == NoFailure ==> InTime(trace, |old(trace)|, pace.drainAck.value, pace.drainTime, now)
      ensures failure == NoFailure && scheduled.packets != [] ==> now < pace.drainAck.value + scheduled.packets[0].dts - pace.drainTime
    {
      hide Onwards, Decodable, Provided, Watched, Past, Kept, Joining, EndsOf, OnScreen, Label, OpenedIn, Ticketed, Planning, Modes, Collected, InFeedOrder, Valid, Plan, SamePlan, InTime, PlanOf, InTime, Ordered, UpTo, RoomFor;
      OnwardsSame(dispatcher.sent, dispatcher.answers, epoch);
      PacedModes();
      NoteDrain(now);
      NotesKeepPlan(pace, joint.desired, true);
      var due, rest := TakeDue(scheduled, pace.drainAck.value, pace.drainTime, now);
      DueInTime(trace, joint.desired, due, pace.drainAck.value, pace.drainTime, now);
      if due == [] { return; }
      var heard := exists i :: 0 <= i < |due| && due[i].kind.Audio? && !due[i].drain;
      SendDue(due, rest, if pace.holdingTicket == 0 && heard then pace.(holdingTicket := ticket + 1) else pace);
    }

    /** The paced queue counts from the moment the drain was first seen delivered. */
    method NoteDrain(now: int)
      requires Valid() && failure == NoFailure && !pace.drainRequired && Answer(epoch, pace.drainTicket, true) in dispatcher.answers
      modifies this`pace
      ensures Valid() && pace == old(pace).(drainAck := Some(if old(pace.drainAck).Some? then old(pace.drainAck).value else now))
      ensures Plan() == old(Plan())
    {
      hide Decodable, Provided, Watched, Past, Kept, Joining, EndsOf, OnScreen, Label, OpenedIn, Ticketed, Planning, Modes, Collected, InFeedOrder, PlanOf, SamePlan, TransitionCoordinator.Valid;
      NotesKeepPlan(pace, joint.desired, Opened());
      if pace.drainAck.None? {
        WatchedNote(pace, pace.(drainAck := Some(now)), joint.desired, joint.selected, epoch, dispatcher.sent, dispatcher.answers) by { Unfold(); }
        SetPace(pace.(drainAck := Some(now)));
      }
    }

    method EndHoldingPace(now: int)
      requires Valid() && failure == NoFailure && pace.holding && pace.drainTicket != 0 && scheduled.packets == []
      requires !pace.guardActive && Answer(epoch, pace.drainTicket, true) in dispatcher.answers && Answer(epoch, ticket, true) in dispatcher.answers
      modifies this`joint, this`planned, this`published, this`publishedFeed, this`silentAac, this`scheduled, this`scheduledHeaders
      modifies this`pace, this`ticket, this`trace, this`failure, this`waiting, this`epoch, this`deadlines, dispatcher
      ensures Onwards(old(dispatcher.sent), dispatcher.sent, old(dispatcher.answers), dispatcher.answers, epoch)
      ensures deadlines == if epoch != old(epoch) then Deadlines(now + DEADLINE, None, now + DEADLINE) else old(deadlines).(programme := deadlines.programme)
      ensures failure !in {NoFailure, EpochOverflow} ==>
        MayFail(failure, Handed(old(joint), old(waiting.packets)), old(planned), HandedTo(old(joint)), old(silentAac), old(MayPace(Programme)), old(scheduled))
      ensures Over(old(epoch), old(pace.drainTicket)) && (failure == NoFailure && pace.programme ==> old(epoch) < epoch)
      ensures failure in {NoFailure, TimingUnsupported, BoundaryOverflow, TimestampOverflow, DtsRegression, GuardOverflow, ConsumerFailed, EpochOverflow}
      ensures failure == EpochOverflow ==> EPOCH_MAX <= epoch
      ensures old(epoch) <= epoch && (epoch == old(epoch) ==> dispatcher.sent == old(dispatcher.sent))
      ensures Valid() && old(trace) <= trace
      ensures failure == NoFailure ==>
        (NoSoundUnderHolding(Plan(), clock) <==> old(NoSoundUnderHolding(Plan(), clock)) && !ReleaseExposes(old(Plan()), old(joint), old(silentAac), old(waiting.packets), epoch != old(epoch), clock))
      ensures failure == NoFailure ==> !pace.holding && waiting.packets == []
      ensures failure == NoFailure ==>
        Released(old(Plan()), old(joint), false, old(silentAac), old(waiting.packets), Plan(), joint, silentAac, epoch != old(epoch), clock)
    {
      hide Onwards, Decodable, Provided, Watched, Past, Kept, Joining, EndsOf, OnScreen, Label, OpenedIn, Ticketed, Planning, Modes, Collected, InFeedOrder, Valid, UpTo, Follows, Ordered, Released, PlanOf, NoSoundUnderHolding, Exposes;
      OnwardsSame(dispatcher.sent, dispatcher.answers, epoch);
      ghost var sent, heard, scene := dispatcher.sent, dispatcher.answers, epoch;
      IsOver();
      assert waiting.packets + [] == waiting.packets;
      PacedModes();
      EndPace(pace.(holding := false));
      WaitingOrdered();
      ReleaseReady([], now);
      HeardOnwards(sent, dispatcher.sent, heard, dispatcher.answers, scene, epoch);
      if failure == NoFailure { PacedModes(); }
    }

    lemma {:induction false} IsOver()
      requires Valid() && failure == NoFailure && pace.holding && pace.drainTicket != 0 && !pace.guardActive
      requires Answer(epoch, pace.drainTicket, true) in dispatcher.answers && Answer(epoch, ticket, true) in dispatcher.answers
      ensures Over(epoch, pace.drainTicket)
    {
      hide Past, SoundUnder, SoundHeard, SoundSent, DrainUnder, LastHeard, Joining, EndsOf, Collected, InFeedOrder, Kept;
      LastIsHeard(dispatcher.sent, dispatcher.answers, epoch, ticket);
    }

    lemma {:induction false} WaitingOrdered()
      requires Valid() && failure == NoFailure
      ensures fed.inOrder ==> Ordered(waiting.packets + []) && UpTo(waiting.packets + [], fed.programmeLast)
      ensures joint.desired.Programme? ==> waiting.packets == []
      ensures fed.inOrder && joint.desired.Programme? ==> Follows(joint, [], planned.output, fed)
    {
      assert waiting.packets + [] == waiting.packets;
    }

    /** A feed whose queue is empty is no longer paced. */
    method EndPace(paced: Pace)
      requires Valid() && failure == NoFailure && scheduled.packets == [] && !pace.drainRequired && (pace.programme ==> Opened())
      requires paced == pace.(holding := false) || (paced == pace.(programme := false) && pace.programme)
      modifies this`pace
      ensures Valid() && pace == paced && Plan() == trace == old(Plan())
    {
      hide Decodable, Provided, Watched, Past, Kept, Joining, EndsOf, OnScreen, Label, OpenedIn, Ticketed, Planning, Modes, Collected, InFeedOrder, Valid;
      Unfold();
      QueueEmpty(trace, Holding);
      QueueEmpty(trace, Programme);
      PlanningUnpaced(trace, joint, pace, waiting.packets, scheduledHeaders, planned, holdingHeaders.Some?, Opened(), silentAac, fed, clock);
      WatchedEnd(pace, paced, joint.desired, joint.selected, epoch, dispatcher.sent, dispatcher.answers);
      pace := paced;
      Fold();
    }

    /** check_deadline for a paced programme: released no earlier than its place on the timeline, and no later, until
        everyone has got its first real sound; then the rest goes at once. It fails if that takes until the deadline. */
    method ProgrammeTick(now: int)
      requires Valid() && failure == NoFailure && pace.programme
      modifies this`scheduled, this`scheduledHeaders, this`pace, this`published, this`publishedFeed, this`ticket, this`trace, this`failure, dispatcher
      ensures Onwards(old(dispatcher.sent), dispatcher.sent, old(dispatcher.answers), dispatcher.answers, epoch)
      ensures failure in {NoFailure, GuardTimeout, ConsumerFailed}
      ensures failure == NoFailure ==> pace.holding == old(pace.holding)
      ensures Valid() && old(trace) <= trace
      ensures failure == NoFailure ==> Plan() == old(Plan())
      ensures failure == GuardTimeout ==> pace.programme && !pace.boundaryDelivered && now >= deadlines.boundary
      ensures failure != ConsumerFailed && !pace.boundaryDelivered ==> Paces(old(dispatcher.answers), now)
      ensures failure == NoFailure && !pace.boundaryDelivered ==>
        now < deadlines.boundary && pace.programme && InTime(trace, |old(trace)|, pace.resumeOrigin, pace.resumeTime, now)
      ensures failure == NoFailure && pace.boundaryDelivered ==>
        !pace.programme && Plan() == trace && SoundHeard(dispatcher.sent, dispatcher.answers, epoch)
    {
      hide Onwards, Decodable, Provided, Watched, Past, Kept, Joining, EndsOf, OnScreen, Label, OpenedIn, Ticketed, Planning, Modes, Collected, InFeedOrder, Valid, Plan, Denied, SoundHeard, InTime;
      ProgrammeDue(now);
      if failure != NoFailure { return; }
      ghost var sent, heard := dispatcher.sent, dispatcher.answers;
      OnwardsKeeps(old(dispatcher.sent), sent, old(dispatcher.answers), heard, epoch);
      AskBoundary(old(dispatcher.answers), now);
      OnwardsMore(old(dispatcher.sent), sent, old(dispatcher.answers), heard, dispatcher.answers, epoch);
      if !pace.boundaryDelivered && now >= deadlines.boundary { Unfold(); Fail(GuardTimeout); return; }
      if pace.boundaryDelivered {
        heard := dispatcher.answers;
        BoundaryWasSent();
        ReleaseRest();
        OnwardsTwice(old(dispatcher.sent), sent, dispatcher.sent, old(dispatcher.answers), heard, dispatcher.answers, epoch);
        HeardOnwards(sent, dispatcher.sent, heard, dispatcher.answers, epoch, epoch);
      }
    }

    /** Why a paced programme is still paced after a tick: what is left waits for its time, and its first real sound was
        not sent or not delivered yet. */
    ghost predicate Paces(before: seq<Answer>, now: int)
      reads this`pace, this`epoch, this`scheduled, dispatcher`answers
    {
      && (pace.boundarySent ==> Denied(before, dispatcher.answers, epoch, pace.programmeTicket))
      && (scheduled.packets != [] ==> now < pace.resumeOrigin + scheduled.packets[0].dts - pace.resumeTime)
    }

    /** The boundary is delivered as soon as everyone has got the first real sound of the programme. */
    method AskBoundary(ghost before: seq<Answer>, now: int)
      requires Valid() && failure == NoFailure && pace.programme && before <= dispatcher.answers
      requires scheduled.packets != [] ==> now < pace.resumeOrigin + scheduled.packets[0].dts - pace.resumeTime
      modifies this`pace, dispatcher`floor, dispatcher`answers
      ensures Valid() && Plan() == old(Plan()) && pace == old(pace).(boundaryDelivered := pace.boundaryDelivered)
      ensures old(dispatcher.answers) <= dispatcher.answers
      ensures !pace.boundaryDelivered ==> Paces(before, now)
    {
      hide Decodable, Provided, Watched, Past, Kept, Joining, EndsOf, OnScreen, Label, OpenedIn, Ticketed, Planning, Modes, Collected, InFeedOrder, Valid, PlanOf, Denied;
      PacedModes();
      if pace.boundarySent {
        var heard := Acknowledged(pace.programmeTicket);
        if heard {
          WatchedNote(pace, pace.(boundaryDelivered := true), joint.desired, joint.selected, epoch, dispatcher.sent, dispatcher.answers) by { Unfold(); }
          SetPace(pace.(boundaryDelivered := true));
        } else {
          DeniedNow(before, old(dispatcher.answers), Answer(epoch, pace.programmeTicket, false));
        }
      }
    }

    method ProgrammeDue(now: int)
      requires Valid() && failure == NoFailure && pace.programme
      modifies this`scheduled, this`scheduledHeaders, this`pace, this`published, this`publishedFeed, this`ticket, this`trace, this`failure, dispatcher
      ensures Onwards(old(dispatcher.sent), dispatcher.sent, old(dispatcher.answers), dispatcher.answers, epoch)
      ensures failure in {NoFailure, ConsumerFailed}
      ensures failure == NoFailure ==> pace.holding == old(pace.holding)
      ensures Valid() && old(trace) <= trace
      ensures failure == NoFailure ==> Plan() == old(Plan()) && pace.programme
      ensures failure == NoFailure ==> pace.resumeOrigin == old(pace.resumeOrigin) && pace.resumeTime == old(pace.resumeTime)
      ensures failure == NoFailure ==> InTime(trace, |old(trace)|, pace.resumeOrigin, pace.resumeTime, now)
      ensures failure == NoFailure && scheduled.packets != [] ==> now < pace.resumeOrigin + scheduled.packets[0].dts - pace.resumeTime
    {
      hide Onwards, Decodable, Provided, Watched, Past, Kept, Joining, EndsOf, OnScreen, Label, OpenedIn, Ticketed, Planning, Modes, Collected, InFeedOrder, Valid, Plan, InTime;
      OnwardsSame(dispatcher.sent, dispatcher.answers, epoch);
      PacedModes();
      var due, rest := TakeDue(scheduled, pace.resumeOrigin, pace.resumeTime, now);
      DueInTime(trace, joint.desired, due, pace.resumeOrigin, pace.resumeTime, now);
      if due == [] { return; }
      var heard := pace.boundarySent || exists i :: 0 <= i < |due| && due[i].kind.Audio? && !due[i].drain;
      SendDue(due, rest, pace.(boundarySent := heard,
                               programmeTicket := if heard && pace.programmeTicket == 0 then ticket + 1 else pace.programmeTicket));
    }

    lemma {:induction false} BoundaryWasSent()
      requires Valid() && failure == NoFailure && pace.programme && pace.boundaryDelivered
      ensures pace.boundarySent && pace.programmeTicket != 0 && !pace.holding && SoundHeard(dispatcher.sent, dispatcher.answers, epoch)
    {
      hide Past, Planned, SoundUnder, SoundHeard, SoundSent, DrainUnder;
      PacedModes();
    }

    method ReleaseRest()
      requires Valid() && failure == NoFailure && pace.programme && pace.boundaryDelivered
      modifies this`scheduled, this`scheduledHeaders, this`pace, this`published, this`publishedFeed, this`ticket, this`trace, this`failure, dispatcher
      ensures Onwards(old(dispatcher.sent), dispatcher.sent, old(dispatcher.answers), dispatcher.answers, epoch)
      ensures failure in {NoFailure, ConsumerFailed}
      ensures failure == NoFailure ==> pace.holding == old(pace.holding)
      ensures Valid() && old(trace) <= trace
      ensures failure == NoFailure ==> pace == old(pace).(programme := false) && Plan() == trace == old(Plan())
    {
      hide Onwards, Decodable, Provided, Watched, Past, Kept, Joining, EndsOf, OnScreen, Label, OpenedIn, Ticketed, Planning, Modes, Collected, InFeedOrder, Valid, Plan;
      OnwardsSame(dispatcher.sent, dispatcher.answers, epoch);
      PacedModes();
      BoundaryWasSent();
      if scheduled.packets != [] {
        assert scheduled.packets == scheduled.packets + [];
        SendDue(scheduled.packets, Queue([], 0), pace);
        if failure != NoFailure { return; }
      }
      PacedModes();
      EndPace(pace.(programme := false));
    }

    /** check_deadline: one tick of the owner's clock. */
    method CheckDeadline(now: int, building: bool)
      requires Valid() && failure == NoFailure
      modifies this`joint, this`planned, this`published, this`publishedFeed, this`silentAac, this`scheduled, this`scheduledHeaders
      modifies this`pace, this`ticket, this`trace, this`failure, this`waiting, this`epoch, this`deadlines, this`tickNow, dispatcher
      ensures Valid() && old(trace) <= trace && tickNow == now
      ensures failure == NoFailure && old(NoSoundUnderHolding(Plan(), clock)) && !NoSoundUnderHolding(Plan(), clock) ==>
        ReleaseExposes(old(Plan()), old(joint), old(silentAac), old(waiting.packets), epoch != old(epoch), clock)
      ensures failure == NoFailure && epoch == old(epoch) && !(old(pace.holding) && !pace.holding) ==> Plan() == old(Plan()) && joint == old(joint)
      ensures deadlines == if epoch != old(epoch) then Deadlines(now + DEADLINE, None, now + DEADLINE) else old(deadlines).(programme := deadlines.programme)
      // What ends a scene, and what keeps it going.
      ensures failure == NoFailure && old(pace.holding) && !pace.holding ==> Over(old(epoch), old(pace.drainTicket))
      ensures failure == NoFailure && old(pace.holding) && pace.holding && dispatcher.floor <= epoch ==> GoesOn(old(dispatcher.answers), now)
      ensures failure == NoFailure && old(pace.programme) && !pace.programme ==> SoundHeard(dispatcher.sent, dispatcher.answers, epoch)
      ensures failure == NoFailure && old(pace.programme) && pace.programme && dispatcher.floor <= epoch ==> Paces(old(dispatcher.answers), now)
      // What is late ends the session, and nothing else does.
      ensures failure == NoFailure && dispatcher.floor <= epoch ==>
        && (joint.selected.None? ==> now < deadlines.boundary)
        && (deadlines.programme.Some? ==> now < deadlines.programme.value)
        && (building ==> now < deadlines.programmeKey)
        && (pace.programme ==> now < deadlines.boundary)
        && (old(pace.holding && pace.guardActive) ==> now < old(deadlines.boundary))
      ensures failure == GuardTimeout ==>
        (old(pace.holding && pace.guardActive) && now >= old(deadlines.boundary)) || (pace.programme && now >= deadlines.boundary)
      ensures failure == BoundaryTimeout ==>
        (joint.selected.None? && now >= deadlines.boundary) || (deadlines.programme.Some? && now >= deadlines.programme.value)
      ensures failure == KeyframeTimeout ==> building && now >= deadlines.programmeKey
      ensures failure == EpochOverflow ==> EPOCH_MAX <= epoch
      ensures failure !in {NoFailure, EpochOverflow, ConsumerFailed, GuardTimeout, BoundaryTimeout, KeyframeTimeout} ==>
        MayFail(failure, Handed(old(joint), old(waiting.packets)), old(planned), HandedTo(old(joint)), old(silentAac), old(MayPace(Programme)), old(scheduled))
    {
      hide MayFail, Handed, HandedTo, Onwards, Decodable, Provided, Watched, Past, Kept, Joining, EndsOf, OnScreen, Label, OpenedIn, Ticketed, Planning, Modes, Collected, InFeedOrder, Valid, PlanOf, Released, NoSoundUnderHolding, Exposes, ReleaseExposes;
      hide Denied, SoundHeard, LastHeard;
      Unfold();
      tickNow := now;
      Fold();
      var stale := Stale();
      if stale { return; }
      Ticks(now);
      if failure == NoFailure { Expire(now, building); }
    }

    /** A tick of whichever feed is paced; a programme that takes over in this tick has its first one at once. */
    method Ticks(now: int)
      requires Valid() && failure == NoFailure
      modifies this`joint, this`planned, this`published, this`publishedFeed, this`silentAac, this`scheduled, this`scheduledHeaders
      modifies this`pace, this`ticket, this`trace, this`failure, this`waiting, this`epoch, this`deadlines, dispatcher
      ensures Valid() && old(trace) <= trace && failure !in {BoundaryTimeout, KeyframeTimeout}
      ensures failure == NoFailure && old(NoSoundUnderHolding(Plan(), clock)) && !NoSoundUnderHolding(Plan(), clock) ==>
        ReleaseExposes(old(Plan()), old(joint), old(silentAac), old(waiting.packets), epoch != old(epoch), clock)
      ensures failure == NoFailure && epoch == old(epoch) && !(old(pace.holding) && !pace.holding) ==> Plan() == old(Plan()) && joint == old(joint)
      ensures deadlines == if epoch != old(epoch) then Deadlines(now + DEADLINE, None, now + DEADLINE) else old(deadlines).(programme := deadlines.programme)
      ensures failure == NoFailure && old(pace.holding) && !pace.holding ==> Over(old(epoch), old(pace.drainTicket))
      ensures failure == NoFailure && old(pace.holding) && pace.holding ==> GoesOn(old(dispatcher.answers), now)
      ensures failure == NoFailure && old(pace.programme) && !pace.programme ==> SoundHeard(dispatcher.sent, dispatcher.answers, epoch)
      ensures failure == NoFailure && old(pace.programme) && pace.programme ==> Paces(old(dispatcher.answers), now)
      ensures failure == NoFailure ==>
        (pace.programme ==> now < deadlines.boundary) && (old(pace.holding && pace.guardActive) ==> now < old(deadlines.boundary))
      ensures failure == GuardTimeout ==>
        (old(pace.holding && pace.guardActive) && now >= old(deadlines.boundary)) || (pace.programme && now >= deadlines.boundary)
      ensures failure == EpochOverflow ==> EPOCH_MAX <= epoch
      ensures failure !in {NoFailure, EpochOverflow, ConsumerFailed, GuardTimeout} ==>
        MayFail(failure, Handed(old(joint), old(waiting.packets)), old(planned), HandedTo(old(joint)), old(silentAac), old(MayPace(Programme)), old(scheduled))
    {
      hide MayFail, Handed, HandedTo, Onwards, Decodable, Provided, Watched, Past, Kept, Joining, EndsOf, OnScreen, Label, OpenedIn, Ticketed, Planning, Modes, Collected, InFeedOrder, Valid, PlanOf, Released, NoSoundUnderHolding, Exposes, ReleaseExposes;
      hide Denied, SoundHeard, LastHeard, InTime;
      PacedModes();
      if pace.holding { HoldingTick(now); }
      if failure == NoFailure { PacedModes(); }
      ghost var sent, heard, scene := dispatcher.sent, dispatcher.answers, epoch;
      if failure == NoFailure && pace.programme {
        ProgrammeTick(now);
        OverOnwards(sent, heard, old(epoch), old(pace.drainTicket));
      }
    }

    lemma {:induction false} OverOnwards(sent: seq<Batch>, heard: seq<Answer>, scene: nat, drain: nat)
      requires Onwards(sent, dispatcher.sent, heard, dispatcher.answers, epoch)
      ensures scene < epoch && Answer(scene, drain, true) in heard && SoundHeard(sent, heard, scene) && LastHeard(sent, heard, scene) ==> Over(scene, drain)
    {
      hide SoundHeard, LastHeard, Onwards;
      HeardOnwards(sent, dispatcher.sent, heard, dispatcher.answers, scene, epoch);
    }

    method Expire(now: int, building: bool)
      requires Valid() && failure == NoFailure
      modifies this`failure
      ensures Valid()
      ensures failure == BoundaryTimeout <==> (joint.selected.None? && now >= deadlines.boundary) ||
                                               (deadlines.programme.Some? && now >= deadlines.programme.value)
      ensures failure == KeyframeTimeout <==> failure != BoundaryTimeout && building && now >= deadlines.programmeKey
      ensures failure in {NoFailure, BoundaryTimeout, KeyframeTimeout}
    {
      hide Decodable, Provided, Watched, Past, Kept, Joining, EndsOf, OnScreen, Label, OpenedIn, Ticketed, Planning, Modes, Collected, InFeedOrder, Valid, Plan;
      Unfold();
      if (joint.selected.None? && now >= deadlines.boundary) || (deadlines.programme.Some? && now >= deadlines.programme.value) {
        Fail(BoundaryTimeout);
      } else if building && now >= deadlines.programmeKey {
        Fail(KeyframeTimeout);
      }
    }
  }
}
