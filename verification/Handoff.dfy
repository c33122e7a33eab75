/** The way from the coordinator to one destination: the comparison with the floor, the gate of the destination's consumer,
    and its sender. Whatever gets through makes an orderly session of the sender. */
module Handoff {
  import opened Media
  import opened Dispatcher
  import opened SenderQueue
  import opened SenderState
  import opened SenderSteps
  import opened SenderProofs
  import opened SenderIntake
  import Runs = SenderRuns
  import Coordinator

  /** What the consumer remembers: its epoch, and whether that epoch still lacks headers. */
  datatype Gate = Gate(epoch: nat, needsHeaders: bool)

  /** `next`: the batch that the coordinator hands out next; `flight`: it has passed the comparison with the floor.
      `failed`: the consumer has thrown, and nothing more is handed to it. */
  datatype Dest = Dest(next: nat, floor: nat, flight: bool, gate: Gate, sender: View, failed: bool)

  function Start(headers: seq<Tag>): Dest { Dest(0, 0, false, Gate(0, false), Started(headers), false) }

  /** One tag for each item; the last one bears the ticket of the batch. */
  predicate Muxed(b: Batch, tags: seq<Tag>, headers: seq<Tag>) {
    && |tags| == |b.items| > 0 && tags[|tags| - 1].ticket == b.ticket && (forall i :: 0 <= i < |tags| - 1 ==> tags[i].ticket == 0)
    && (headers == [] <==> b.headers.None?)
  }

  datatype Event =
    | Raise(to: nat)                                                    // another thread asks for an epoch
    | Discontinue(epoch: nat)                                           // and announces it
    | Check                                                             // dispatch looks at the floor
    | Consume(tags: seq<Tag>, headers: seq<Tag>, muxable: bool)         // and calls the consumer
    | Work(step: Runs.Step)                                             // anything else the sender does

  ghost predicate Enabled(sent: seq<Batch>, d: Dest, e: Event) {
    match e
    case Raise(_) => true
    case Discontinue(epoch) => epoch <= d.floor
    case Check => !d.failed && !d.flight && d.next < |sent|
    case Consume(tags, headers, _) => !d.failed && d.flight && d.next < |sent| && Muxed(sent[d.next], tags, headers)
    case Work(step) => !Runs.TurnsEpoch(step)
  }

  /** discontinuity: an announced epoch closes the gate until headers come. */
  function Announced(d: Dest, epoch: nat): Dest {
    if epoch <= d.gate.epoch then d else d.(gate := Gate(epoch, true), sender := Invalidate(d.sender, epoch))
  }

  /** consume: stale media is ignored; an epoch that was not announced, missing headers and bad packets are errors. */
  function Consumed(b: Batch, d: Dest, tags: seq<Tag>, headers: seq<Tag>, muxable: bool): Dest {
    var u := d.(next := d.next + 1, flight := false);
    if b.epoch < d.gate.epoch then u
    else if (d.gate.epoch != 0 && b.epoch > d.gate.epoch) || (d.gate.needsHeaders && b.headers.None?) || !muxable then u.(failed := true)
    else u.(gate := Gate(b.epoch, d.gate.needsHeaders && b.headers.None?),
            sender := if b.epoch < d.sender.s.epoch then d.sender else Admit(d.sender, tags, b.epoch, headers))
  }

  ghost function Apply(sent: seq<Batch>, d: Dest, e: Event): Dest {
    if !Enabled(sent, d, e) then d else
    match e
    case Raise(to) => d.(floor := NatMax(d.floor, to))
    case Discontinue(epoch) => Announced(d, epoch)
    case Check => if sent[d.next].epoch < d.floor then d.(next := d.next + 1) else d.(flight := true)
    case Consume(tags, headers, muxable) => Consumed(sent[d.next], d, tags, headers, muxable)
    case Work(step) => d.(sender := Runs.Apply(d.sender, step), failed := d.failed || step.DoRefuse?)
  }

  ghost function Exec(sent: seq<Batch>, d: Dest, events: seq<Event>): Dest
    decreases |events|
  {
    if events == [] then d else Exec(sent, Apply(sent, d, events[0]), events[1..])
  }

  /** Tickets handed in so far lie below those to come, an open gate means that the sender has headers, and a batch that got
      through left the gate at its epoch. */
  predicate InStep(sent: seq<Batch>, d: Dest) {
    && d.next <= |sent| && d.sender.g.orderly && d.gate.epoch == d.sender.s.epoch
    && (forall k :: d.next <= k < |sent| ==> d.sender.g.last < sent[k].ticket)
    && (!d.gate.needsHeaders ==> d.sender.g.headed)
    && (d.flight ==> d.next < |sent|)
    && (0 < d.next ==> sent[d.next - 1].epoch <= d.gate.epoch || sent[d.next - 1].epoch < d.floor)
    && (d.flight && 0 < d.next && sent[d.next - 1].epoch == sent[d.next].epoch ==> sent[d.next].epoch <= d.gate.epoch)
  }

  predicate Joined(sent: seq<Batch>, d: Dest) {
    Inv(d.sender) && (!d.failed ==> InStep(sent, d))
  }

  /** A batch of the coordinator keeps the sender's session orderly. */
  lemma {:induction false} AdmittedOrderly(v: View, b: Batch, tags: seq<Tag>, headers: seq<Tag>)
    requires Muxed(b, tags, headers) && v.g.orderly && v.g.last < b.ticket && v.s.epoch <= b.epoch
    requires b.headers.Some? || (b.epoch == v.s.epoch && v.g.headed)
    ensures var u := Admit(v, tags, b.epoch, headers); u.g.orderly && u.g.headed && u.g.last == b.ticket && u.s.epoch == b.epoch
  {
    MaxTicketGood(tags, v.g.last);
  }

  lemma {:induction false} ConsumeKeeps(sent: seq<Batch>, last: nat, d: Dest, tags: seq<Tag>, headers: seq<Tag>, muxable: bool)
    requires Joined(sent, d) && EpochsOpenWithHeaders(sent) && Ticketed(sent, last) && Enabled(sent, d, Consume(tags, headers, muxable))
    ensures Joined(sent, Apply(sent, d, Consume(tags, headers, muxable)))
  {
    hide Inv, Muxed, Admit;
    var b, u := sent[d.next], Apply(sent, d, Consume(tags, headers, muxable));
    if d.gate.epoch <= b.epoch && !u.failed {
      if b.headers.None? { assert 0 < d.next && sent[d.next - 1].epoch == b.epoch; }
      AdmitKeeps(d.sender, tags, b.epoch, headers);
      AdmittedOrderly(d.sender, b, tags, headers);
    }
  }

  /** A batch of the gate's epoch, or of a first or newer one that nobody announced otherwise, gets through if it brings the
      headers that are missing: then the sender has it under its ticket, and no error is thrown. */
  lemma {:induction false} BatchIsAdmitted(sent: seq<Batch>, last: nat, d: Dest, tags: seq<Tag>, headers: seq<Tag>)
    requires Joined(sent, d) && EpochsOpenWithHeaders(sent) && Ticketed(sent, last) && Enabled(sent, d, Consume(tags, headers, true))
    requires var b := sent[d.next]; (b.epoch == d.gate.epoch || d.gate.epoch == 0) && (d.gate.needsHeaders ==> b.headers.Some?)
    ensures var b, u := sent[d.next], Apply(sent, d, Consume(tags, headers, true));
      && !u.failed && u.next == d.next + 1 && u.gate == Gate(b.epoch, false)
      && u.sender.s.epoch == b.epoch && u.sender.g.last == b.ticket <= u.sender.s.enqueued && u.sender.g.orderly
      && u.sender.s.headers == (if headers == [] then d.sender.s.headers else headers)
  {
    hide Inv, Muxed, GoodBatch;
    var b := sent[d.next];
    if b.headers.None? { assert 0 < d.next && sent[d.next - 1].epoch == b.epoch; }
    MuxedTicket(b, tags, headers);
    AdmittedOrderly(d.sender, b, tags, headers);
  }

  lemma {:induction false} MuxedTicket(b: Batch, tags: seq<Tag>, headers: seq<Tag>)
    requires Muxed(b, tags, headers) && 0 < b.ticket
    ensures MaxTicket(tags) == b.ticket && (headers == [] <==> b.headers.None?)
  {
    MaxTicketGood(tags, 0);
  }

  lemma {:induction false} AnnounceKeeps(sent: seq<Batch>, d: Dest, epoch: nat)
    requires Joined(sent, d)
    ensures Joined(sent, Announced(d, epoch))
  {
    hide Inv;
    InvalidateKeeps(d.sender, epoch);
  }

  lemma {:induction false} WorkKeeps(sent: seq<Batch>, d: Dest, step: Runs.Step)
    requires Joined(sent, d) && !Runs.TurnsEpoch(step)
    ensures Joined(sent, Apply(sent, d, Work(step)))
  {
    hide Inv, Runs.Apply, Level;
    Runs.StepKeeps(d.sender, step);
    Runs.StepLeaves(d.sender, step);
  }

  lemma {:induction false} StepKeeps(sent: seq<Batch>, last: nat, d: Dest, e: Event)
    requires Joined(sent, d) && EpochsOpenWithHeaders(sent) && Ticketed(sent, last)
    ensures Joined(sent, Apply(sent, d, e))
  {
    hide Inv, Consumed, Announced, Muxed, Runs.Apply, Runs.TurnsEpoch, Ticketed;
    if Enabled(sent, d, e) {
      match e
      case Discontinue(epoch) => AnnounceKeeps(sent, d, epoch);
      case Consume(tags, headers, muxable) => ConsumeKeeps(sent, last, d, tags, headers, muxable);
      case Work(step) => WorkKeeps(sent, d, step);
      case _ =>
    }
  }

  lemma {:induction false} RunKeeps(sent: seq<Batch>, last: nat, d: Dest, events: seq<Event>)
    requires Joined(sent, d) && EpochsOpenWithHeaders(sent) && Ticketed(sent, last)
    ensures Joined(sent, Exec(sent, d, events))
    decreases |events|
  {
    hide Joined, EpochsOpenWithHeaders, Ticketed, Apply;
    if events == [] {
    } else {
      StepKeeps(sent, last, d, events[0]);
      RunKeeps(sent, last, Apply(sent, d, events[0]), events[1..]);
    }
  }

  /** Whatever the coordinator hands out, and however the floor, discontinuities and the sender's threads go on: as long as
      the consumer has thrown no error, its sender has an orderly session, and video goes out in GOP prefixes. */
  lemma {:induction false} SendersAreOrderly(c: Coordinator.TransitionCoordinator, headers: seq<Tag>, events: seq<Event>)
    requires c.Valid() && headers != []
    ensures var d := Exec(c.dispatcher.sent, Start(headers), events);
      Inv(d.sender) && (!d.failed ==> d.sender.g.orderly && GopPrefixes(d.sender.conn))
  {
    hide Inv, Exec, EpochsOpenWithHeaders, Started, GopPrefixes;
    c.ViewersGet(0, 0, 0);
    StartedKeeps(headers);
    assert Joined(c.dispatcher.sent, Start(headers)) by { FirstLast(headers); }
    RunKeeps(c.dispatcher.sent, c.ticket, Start(headers), events);
    GopOf(Exec(c.dispatcher.sent, Start(headers), events).sender);
  }

  lemma {:induction false} FirstLast(headers: seq<Tag>)
    ensures var v := Started(headers); v.g.orderly && v.g.headed && v.g.last == 0 && v.s.epoch == 0
  {}
}
