/** How an accepted action, a failure or a stop fences media that is already on its way, while capture threads, the owner's
    worker and every destination go on in any order. One step stands for one locked section, one atomic operation or one
    visit to a destination. Only programme media is followed; each piece bears the capture token it was captured under. */
module PublicationFence {
  import opened Media

  /** An accepted action. `token` is the capture token after it. */
  datatype Request = Request(epoch: nat, revokes: bool, token: nat)

  /** What is announced to the destinations: an action that keeps or discards the captured media, a stop, or anything else. */
  datatype Cause = Keeping | Discarding | Stopping | Other

  /** Visiting the destinations in turn with a discontinuity. `marked`: the next one is locked and knows the epoch already,
      but its sender does not. */
  datatype Fencing = Fencing(epoch: nat, cause: Cause, next: nat, marked: bool)

  /** A batch being handed to the destinations in turn. `checked`: it was compared with the floor, and some are still to come. */
  datatype Flight = Flight(epoch: nat, tokens: set<nat>, headers: bool, next: nat, checked: bool)

  datatype Tag = Tag(epoch: nat, token: nat)

  /** A destination: epoch and header gate of its consumer, epoch of its sender, and what the sender holds. */
  datatype Dest = Dest(epoch: nat, needsHeaders: bool, sender: nat, queue: set<Tag>, hand: Option<Tag>, isolated: bool, locked: bool)

  /** The worker between two locked sections: it has swapped its inputs, or it has also seen that no failure was latched. */
  datatype Phase = Swapped | Run | Exit

  datatype Sys = Sys(
    floor: nat, token: nat, ingress: set<nat>, requests: seq<Request>, request: Option<Fencing>,
    failed: Option<nat>, cutoff: Option<Fencing>, stopped: Option<nat>,
    lost: bool,   // a destination that counts latched a failure of its own, which reserves no epoch
    phase: Phase, swapped: seq<Request>, packets: set<nat>, inside: set<nat>, epoch: nat, begun: bool,
    own: Option<Fencing>, flight: Option<Flight>, dests: seq<Dest>,
    since: nat)   // epoch of the last action or stop that revoked captured media

  function Start(epoch: nat, count: nat): Sys {
    Sys(epoch, 1, {}, [], None, None, None, None, false, Run, [], {}, {}, epoch, false, None, None, Fresh(count), 0)
  }

  function Fresh(count: nat): (r: seq<Dest>)
    ensures |r| == count && forall i :: 0 <= i < count ==> r[i] == Dest(0, false, 0, {}, None, false, false)
  {
    if count == 0 then [] else Fresh(count - 1) + [Dest(0, false, 0, {}, None, false, false)]
  }

  /** The error of the pipeline is latched, by whomever. */
  predicate Failed(s: Sys) { s.failed.Some? || s.lost }

  // Capture and actions.

  /** A capture thread hands in a packet under the current token. */
  function Capture(s: Sys): Sys
    requires s.stopped.None? && !Failed(s)
  {
    s.(ingress := s.ingress + {s.token})
  }

  /** request and request_stop hold the owner's mutex: an epoch is reserved, every destination is visited, and then ... */
  function BeginRequest(s: Sys, raise: nat, cause: Cause): Sys
    requires s.request.None? && s.stopped.None?
  {
    s.(floor := s.floor + raise + 1, request := Some(Fencing(s.floor + raise + 1, cause, 0, false)))
  }

  predicate Visited(s: Sys) { s.request.Some? && s.request.value.next == |s.dests| }

  /** ... request returns true: the action is queued, and captured media is revoked if the action discards the buffer. */
  function EndRequest(s: Sys): Sys
    requires Visited(s) && !s.request.value.cause.Stopping?
  {
    var f := s.request.value;
    var revokes := f.cause.Discarding?;
    var token := if revokes then s.token + 1 else s.token;
    s.(request := None, requests := s.requests + [Request(f.epoch, revokes, token)], token := token,
       ingress := if revokes then {} else s.ingress, since := if revokes then f.epoch else s.since)
  }

  /** ... request_stop returns: captured media and queued actions are gone. */
  function EndStop(s: Sys): Sys
    requires Visited(s) && s.request.value.cause.Stopping?
  {
    s.(request := None, requests := [], token := s.token + 1, ingress := {}, since := s.request.value.epoch,
       stopped := Some(s.request.value.epoch))
  }

  /** failure: latches, and reserves an epoch above everything. It holds a mutex of its own. */
  function BeginCutoff(s: Sys, raise: nat): Sys
    requires !Failed(s)
  {
    s.(floor := s.floor + raise + 1, failed := Some(s.floor + raise + 1), cutoff := Some(Fencing(s.floor + raise + 1, Other, 0, false)))
  }

  /** The error callback of the consumer: the first error is kept, and nothing is fenced off. */
  function LoseConsumer(s: Sys): Sys
    requires !Failed(s)
  {
    s.(lost := true)
  }

  // Visits of a discontinuity. The consumer's mutex is held from Mark to Invalidate.

  function Mark(d: Dest, epoch: nat): Dest {
    if d.isolated || epoch <= d.epoch then d else d.(epoch := epoch, needsHeaders := true, locked := true)
  }

  function Invalidate(d: Dest, epoch: nat): Dest {
    if d.locked then d.(locked := false, sender := epoch, queue := {}) else d
  }

  /** The two halves of a visit. */
  predicate CanVisit(s: Sys, f: Fencing) {
    f.next < |s.dests| && (!f.marked ==> !s.dests[f.next].locked)
  }

  function VisitDest(d: Dest, f: Fencing): Dest {
    if !f.marked then Mark(d, f.epoch) else Invalidate(d, f.epoch)
  }

  /** If the first half changed nothing, there is no second half. */
  function AfterVisit(d: Dest, f: Fencing): Fencing {
    if !f.marked && Mark(d, f.epoch) != d then f.(marked := true) else f.(next := f.next + 1, marked := false)
  }

  function VisitRequest(s: Sys): Sys
    requires s.request.Some? && CanVisit(s, s.request.value)
  {
    var f := s.request.value;
    s.(dests := s.dests[f.next := VisitDest(s.dests[f.next], f)], request := Some(AfterVisit(s.dests[f.next], f)))
  }

  function VisitCutoff(s: Sys): Sys
    requires s.cutoff.Some? && CanVisit(s, s.cutoff.value)
  {
    var f := s.cutoff.value;
    s.(dests := s.dests[f.next := VisitDest(s.dests[f.next], f)], cutoff := Some(AfterVisit(s.dests[f.next], f)))
  }

  function VisitOwn(s: Sys): Sys
    requires s.own.Some? && CanVisit(s, s.own.value)
  {
    var f := s.own.value;
    s.(dests := s.dests[f.next := VisitDest(s.dests[f.next], f)], own := Some(AfterVisit(s.dests[f.next], f)))
  }

  function EndOwn(s: Sys): Sys
    requires s.own.Some? && s.own.value.next == |s.dests|
  {
    s.(own := None)
  }

  // The owner's worker.

  predicate Idle(s: Sys) { s.phase.Run? && s.flight.None? && s.own.None? }

  /** The worker takes queued actions and captured media together, or ends after a stop. */
  function Swap(s: Sys): Sys
    requires Idle(s) && s.swapped == [] && s.packets == {}
  {
    if s.stopped.Some? then s.(phase := Exit)
    else s.(phase := Swapped, swapped := s.requests, requests := [], packets := s.ingress, ingress := {})
  }

  function CheckFailure(s: Sys): Sys
    requires s.phase.Swapped?
  {
    s.(phase := if Failed(s) then Exit else Run)
  }

  /** The coordinator enters the epoch of an action; an action that discards the buffer clears the controller. */
  function Process(s: Sys): Sys
    requires Idle(s) && s.swapped != []
  {
    var r := s.swapped[0];
    s.(swapped := s.swapped[1..], epoch := r.epoch, begun := false, inside := if r.revokes then {} else s.inside)
  }

  function Ingest(s: Sys, token: nat): Sys
    requires Idle(s) && s.swapped == [] && token in s.packets
  {
    s.(packets := s.packets - {token}, inside := s.inside + {token})
  }

  /** The coordinator moves on by itself, unless an action was accepted. */
  function Advance(s: Sys): Sys
    requires Idle(s) && s.swapped == []
  {
    if s.floor != s.epoch then s
    else s.(floor := s.floor + 1, epoch := s.epoch + 1, begun := false, own := Some(Fencing(s.epoch + 1, Other, 0, false)))
  }

  /** A batch of what the coordinator holds; the first one of an epoch carries headers. */
  function Publish(s: Sys, tokens: set<nat>, headers: bool): Sys
    requires Idle(s) && s.swapped == [] && tokens <= s.inside && (headers || s.begun)
  {
    s.(flight := Some(Flight(s.epoch, tokens, headers, 0, false)), begun := true)
  }

  /** dispatch compares with the floor once, before the one consumer that hands the batch on to all destinations. */
  function Check(s: Sys): Sys
    requires s.flight.Some? && !s.flight.value.checked
  {
    var f := s.flight.value;
    if f.next == |s.dests| || f.epoch < s.floor then s.(flight := None) else s.(flight := Some(f.(checked := true)))
  }

  /** What a consumer answers to a batch. */
  datatype Outcome = Taken(d: Dest) | NotCoordinated | HeadersMissing

  function Consume(d: Dest, f: Flight): Outcome {
    if d.isolated || f.epoch < d.epoch then Taken(d)
    else if d.epoch != 0 && f.epoch > d.epoch then NotCoordinated
    else if d.needsHeaders && !f.headers then HeadersMissing
    else Taken(d.(epoch := f.epoch, needsHeaders := d.needsHeaders && !f.headers, sender := f.epoch,
                  queue := d.queue + set k | k in f.tokens :: Tag(f.epoch, k)))
  }

  predicate CanDeliver(s: Sys) {
    s.flight.Some? && s.flight.value.checked && s.flight.value.next < |s.dests| && !s.dests[s.flight.value.next].locked
  }

  function Deliver(s: Sys): Sys
    requires CanDeliver(s) && Consume(s.dests[s.flight.value.next], s.flight.value).Taken?
  {
    var f := s.flight.value;
    s.(dests := s.dests[f.next := Consume(s.dests[f.next], f).d], flight := Some(f.(next := f.next + 1, checked := f.next + 1 < |s.dests|)))
  }

  // The destinations.

  function TakeTag(s: Sys, i: nat, t: Tag): Sys
    requires i < |s.dests| && t in s.dests[i].queue
  {
    s.(dests := s.dests[i := s.dests[i].(queue := s.dests[i].queue - {t}, hand := Some(t))])
  }

  /** A destination that is cut off has been asked to stop. */
  function Isolate(s: Sys, i: nat): Sys
    requires i < |s.dests| && !s.dests[i].locked
  {
    s.(dests := s.dests[i := s.dests[i].(isolated := true)])
  }

  /** A write of the tag in hand may begin. */
  predicate CanWrite(d: Dest) { !d.isolated && d.hand.Some? && d.hand.value.epoch == d.sender }

  /** Media may leave a destination at any time: written, shed, or dropped with a connection. */
  function Lose(s: Sys, i: nat, kept: set<Tag>): Sys
    requires i < |s.dests| && kept <= s.dests[i].queue
  {
    s.(dests := s.dests[i := s.dests[i].(queue := kept, hand := None)])
  }

  // What holds after every step.

  function Pending(s: Sys): seq<Request> { s.swapped + s.requests }

  /** Some queued action discards what was captured under token k. */
  predicate Revoked(p: seq<Request>, k: nat) {
    exists i :: 0 <= i < |p| && p[i].revokes && k < p[i].token
  }

  predicate Rising(p: seq<Request>) {
    forall i, j :: 0 <= i < j < |p| ==> p[i].epoch < p[j].epoch
  }

  predicate Within(p: seq<Request>, above: nat, below: nat) {
    forall i :: 0 <= i < |p| ==> above < p[i].epoch < below
  }

  predicate RevokedBy(p: seq<Request>, token: nat, since: nat) {
    forall i :: 0 <= i < |p| ==> p[i].token <= token && (p[i].revokes ==> p[i].epoch <= since)
  }

  /** Epochs: queued actions are in order and ahead of the coordinator, and nobody is ahead of the floor. */
  predicate Epochs(s: Sys) {
    && s.epoch <= s.floor && s.since <= s.floor
    && Rising(Pending(s)) && Within(Pending(s), s.epoch, s.floor + 1) && RevokedBy(Pending(s), s.token, s.since)
    && (s.request.Some? ==> Reserved(s.request.value.epoch, s))
    && (s.failed.Some? ==> s.epoch < s.failed.value <= s.floor && (s.phase.Run? ==> Within(s.swapped, s.epoch, s.failed.value)))
    && (s.cutoff.Some? ==> s.failed == Some(s.cutoff.value.epoch))
    && (s.stopped.Some? ==>
          && s.epoch < s.stopped.value == s.since && s.requests == [] && s.request.None?
          && Within(s.swapped, s.epoch, s.since))
    && (s.own.Some? ==> s.own.value.epoch == s.epoch && s.flight.None? && s.phase.Run? && !s.begun)
    && (s.flight.Some? ==> InFlight(s.flight.value, s))
  }

  /** The epoch of an action that is being announced lies above everything but a later cutoff. */
  predicate Reserved(e: nat, s: Sys) {
    && s.epoch < e <= s.floor && s.since < e && Within(Pending(s), s.epoch, e)
    && (s.cutoff.Some? ==> s.cutoff.value.epoch != e)
  }

  predicate InFlight(f: Flight, s: Sys) {
    && f.epoch == s.epoch && s.begun && s.phase.Run? && f.next <= |s.dests| && (f.checked ==> f.next < |s.dests|)
  }

  predicate TokenOk(k: nat, s: Sys, p: seq<Request>) {
    k <= s.token && (k < s.token ==> s.stopped.Some? || Revoked(p, k))
  }

  /** Media captured under an older token is still in front of the action that discards it, or bears an older epoch. */
  predicate Captured(s: Sys) {
    && (forall k :: k in s.ingress ==> k == s.token)
    && (forall k :: k in s.inside ==> TokenOk(k, s, Pending(s)))
    && (forall k :: k in s.packets ==> TokenOk(k, s, s.requests))
    && (s.flight.Some? ==> forall k :: k in s.flight.value.tokens ==> TagOk(Tag(s.flight.value.epoch, k), s.epoch, s.token, s.since))
  }

  predicate TagOk(t: Tag, epoch: nat, token: nat, since: nat) {
    t.epoch <= epoch && t.token <= token && (t.token < token ==> t.epoch < since)
  }

  predicate DestOk(d: Dest, epoch: nat, token: nat, since: nat, floor: nat) {
    && d.sender <= d.epoch <= floor && (!d.locked ==> d.sender == d.epoch)
    && (forall t :: t in d.queue ==> TagOk(t, epoch, token, since))
    && (d.hand.Some? ==> TagOk(d.hand.value, epoch, token, since))
    && (!d.isolated ==> since <= d.sender)
  }

  /** Every queued action has been announced to every destination that is not cut off. */
  predicate Announced(d: Dest, p: seq<Request>) {
    !d.isolated ==> forall j :: 0 <= j < |p| ==> p[j].epoch <= d.sender
  }

  predicate Visits(f: Fencing, dests: seq<Dest>) {
    && f.next <= |dests|
    && (forall i :: 0 <= i < f.next && !dests[i].isolated ==> f.epoch <= dests[i].sender)
    && (f.marked ==> f.next < |dests| && dests[f.next].locked && dests[f.next].epoch == f.epoch)
  }

  predicate Destinations(s: Sys) {
    && (forall i :: 0 <= i < |s.dests| ==> DestOk(s.dests[i], s.epoch, s.token, s.since, s.floor) && Announced(s.dests[i], Pending(s)))
    && (s.request.Some? ==> Visits(s.request.value, s.dests))
    && (s.cutoff.Some? ==> Visits(s.cutoff.value, s.dests))
    && (s.own.Some? ==> Visits(s.own.value, s.dests))
  }

  /** The coordinator's epoch was announced, except where its own discontinuity is still to come. */
  predicate Coordinated(d: Dest, i: nat, s: Sys) {
    d.isolated || d.epoch == 0 || s.epoch <= d.epoch || (s.own.Some? && s.own.value.next <= i)
  }

  /** A destination that waits for headers of the coordinator's epoch gets them from the batch in flight, unless the epoch
      is over. */
  predicate HeadersCome(d: Dest, i: nat, s: Sys) {
    s.begun && d.needsHeaders && !d.isolated && d.epoch <= s.epoch ==>
      || (s.flight.Some? && s.flight.value.headers && s.flight.value.next <= i)
      || (s.epoch < s.floor && !(s.flight.Some? && s.flight.value.checked && s.flight.value.next <= i))
  }

  predicate Gates(s: Sys) {
    forall i :: 0 <= i < |s.dests| ==> Coordinated(s.dests[i], i, s) && HeadersCome(s.dests[i], i, s)
  }

  predicate Inv(s: Sys) { Epochs(s) && Captured(s) && Destinations(s) && Gates(s) }
}
