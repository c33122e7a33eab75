/** Every step of the publication protocol keeps its invariant, and what that means for the media that goes out. */
module PublicationFenceProofs {
  import opened Media
  import opened PublicationFence

  lemma {:induction false} Snoc(p: seq<Request>, r: Request, above: nat, token: nat, since: nat)
    requires Rising(p) && Within(p, above, r.epoch) && RevokedBy(p, token, since) && above < r.epoch && token <= r.token && since <= r.epoch
    ensures Rising(p + [r]) && Within(p + [r], above, r.epoch + 1)
    ensures RevokedBy(p + [r], r.token, if r.revokes then r.epoch else since)
    ensures forall k: nat :: Revoked(p, k) || (r.revokes && k < r.token) ==> Revoked(p + [r], k)
  {
    var u := p + [r];
    assert forall i :: 0 <= i < |p| ==> u[i] == p[i];
    forall k: nat | Revoked(p, k) || (r.revokes && k < r.token) ensures Revoked(u, k) {
      if Revoked(p, k) {
        var i :| 0 <= i < |p| && p[i].revokes && k < p[i].token;
        assert u[i].revokes && k < u[i].token;
      } else {
        assert u[|p|] == r;
      }
    }
  }

  lemma {:induction false} EndPending(s: Sys)
    requires Visited(s) && !s.request.value.cause.Stopping?
    ensures var u := EndRequest(s); Pending(u) == Pending(s) + [u.requests[|s.requests|]] && u.requests == s.requests + [u.requests[|s.requests|]]
  {}

  lemma {:induction false} SwapPending(s: Sys)
    requires s.swapped == []
    ensures Pending(s) == s.requests && [] + s.requests == s.requests && s.requests + [] == s.requests
  {}

  /** The first queued action leaves. */
  lemma {:induction false} Uncons(p: seq<Request>, above: nat, below: nat, token: nat, since: nat)
    requires p != [] && Rising(p) && Within(p, above, below) && RevokedBy(p, token, since)
    ensures Rising(p[1..]) && Within(p[1..], p[0].epoch, below) && RevokedBy(p[1..], token, since)
    ensures forall k: nat :: Revoked(p, k) && !(p[0].revokes && k < p[0].token) ==> Revoked(p[1..], k)
  {
    var u := p[1..];
    forall k: nat | Revoked(p, k) && !(p[0].revokes && k < p[0].token) ensures Revoked(u, k) {
      var i :| 0 <= i < |p| && p[i].revokes && k < p[i].token;
      assert u[i - 1] == p[i];
    }
  }

  lemma {:induction false} Parts(a: seq<Request>, b: seq<Request>, above: nat, below: nat)
    requires Within(a + b, above, below)
    ensures Within(a, above, below) && Within(b, above, below)
  {
    assert forall i :: 0 <= i < |a| ==> (a + b)[i] == a[i];
    assert forall i :: 0 <= i < |b| ==> (a + b)[|a| + i] == b[i];
  }

  lemma {:induction false} RequestsRevoke(s: Sys)
    requires Visited(s) && !s.request.value.cause.Stopping?
    ensures var u := EndRequest(s); forall k: nat :: Revoked(s.requests, k) || (s.request.value.cause.Discarding? && k <= s.token) ==> Revoked(u.requests, k)
  {
    var u := EndRequest(s);
    assert forall i :: 0 <= i < |s.requests| ==> u.requests[i] == s.requests[i];
    forall k: nat | Revoked(s.requests, k) || (s.request.value.cause.Discarding? && k <= s.token) ensures Revoked(u.requests, k) {
      if Revoked(s.requests, k) {
        var i :| 0 <= i < |s.requests| && s.requests[i].revokes && k < s.requests[i].token;
        assert u.requests[i].revokes && k < u.requests[i].token;
      } else {
        assert u.requests[|s.requests|].revokes;
      }
    }
  }

  lemma {:induction false} ProcessPending(s: Sys)
    requires Idle(s) && s.swapped != []
    ensures Pending(s) != [] && Pending(s)[0] == s.swapped[0] && Pending(Process(s)) == Pending(s)[1..]
  {}

  lemma {:induction false} CaptureKeeps(s: Sys)
    requires Inv(s) && s.stopped.None? && !Failed(s)
    ensures Inv(Capture(s))
  {}

  lemma {:induction false} BeginRequestKeeps(s: Sys, raise: nat, cause: Cause)
    requires Inv(s) && s.request.None? && s.stopped.None?
    ensures Inv(BeginRequest(s, raise, cause))
  {}

  lemma {:induction false} EndRequestKeeps(s: Sys)
    requires Inv(s) && Visited(s) && !s.request.value.cause.Stopping?
    ensures Inv(EndRequest(s))
  {
    EndPending(s);
    Snoc(Pending(s), EndRequest(s).requests[|s.requests|], s.epoch, s.token, s.since);
    RequestsRevoke(s);
  }

  lemma {:induction false} EndStopKeeps(s: Sys)
    requires Inv(s) && Visited(s) && s.request.value.cause.Stopping?
    ensures Inv(EndStop(s))
  {
    assert Pending(EndStop(s)) == s.swapped;
    assert forall i :: 0 <= i < |s.swapped| ==> Pending(s)[i] == s.swapped[i];
  }

  lemma {:induction false} BeginCutoffKeeps(s: Sys, raise: nat)
    requires Inv(s) && !Failed(s)
    ensures Inv(BeginCutoff(s, raise))
  {
    Parts(s.swapped, s.requests, s.epoch, s.floor + 1);
  }

  lemma {:induction false} LoseConsumerKeeps(s: Sys)
    requires Inv(s) && !Failed(s)
    ensures Inv(LoseConsumer(s))
  {
    hide Rising, Within, RevokedBy, Revoked, TagOk, DestOk, Announced, Visits;
    assert Pending(LoseConsumer(s)) == Pending(s);
  }

  /** A visit leaves a destination in order. */
  lemma {:induction false} VisitOne(d: Dest, f: Fencing, epoch: nat, token: nat, since: nat, floor: nat, p: seq<Request>)
    requires DestOk(d, epoch, token, since, floor) && Announced(d, p) && f.epoch <= floor && (f.marked ==> d.locked && d.epoch == f.epoch)
    ensures DestOk(VisitDest(d, f), epoch, token, since, floor) && Announced(VisitDest(d, f), p)
  {
    hide TagOk;
  }

  /** What has been announced stays announced. */
  lemma {:induction false} Visiting(dests: seq<Dest>, f: Fencing)
    requires Visits(f, dests) && f.next < |dests| && (!f.marked ==> !dests[f.next].locked)
    requires dests[f.next].sender <= dests[f.next].epoch && (!dests[f.next].locked ==> dests[f.next].sender == dests[f.next].epoch)
    ensures Visits(AfterVisit(dests[f.next], f), dests[f.next := VisitDest(dests[f.next], f)])
  {}

  /** ... of the other discontinuities, too. */
  lemma {:induction false} VisitingMeanwhile(dests: seq<Dest>, f: Fencing, g: Fencing)
    requires Visits(f, dests) && Visits(g, dests) && f.next < |dests| && (!f.marked ==> !dests[f.next].locked) && f.epoch != g.epoch
    requires dests[f.next].sender <= dests[f.next].epoch
    ensures Visits(g, dests[f.next := VisitDest(dests[f.next], f)])
  {}

  lemma {:induction false} VisitRequestKeeps(s: Sys)
    requires Inv(s) && s.request.Some? && CanVisit(s, s.request.value)
    ensures Inv(VisitRequest(s))
  {
    hide Epochs, Captured, Destinations, Gates;
    VisitRequestEpochs(s);
    VisitRequestDests(s);
    VisitRequestGates(s);
  }

  lemma {:induction false} VisitRequestEpochs(s: Sys)
    requires Epochs(s) && Captured(s) && s.request.Some? && CanVisit(s, s.request.value)
    ensures Epochs(VisitRequest(s)) && Captured(VisitRequest(s))
  {
    hide Rising, Within, RevokedBy, Revoked, TagOk;
  }

  lemma {:induction false} VisitRequestDests(s: Sys)
    requires Epochs(s) && Destinations(s) && s.request.Some? && CanVisit(s, s.request.value)
    ensures Destinations(VisitRequest(s))
  {
    hide Rising, Within, RevokedBy, Announced, InFlight, TagOk;
    var f := s.request.value;
    VisitOne(s.dests[f.next], f, s.epoch, s.token, s.since, s.floor, Pending(s));
    Visiting(s.dests, f);
    assert Pending(VisitRequest(s)) == Pending(s);
    if s.cutoff.Some? { VisitingMeanwhile(s.dests, f, s.cutoff.value); }
    if s.own.Some? { VisitingMeanwhile(s.dests, f, s.own.value); }
  }

  lemma {:induction false} VisitRequestGates(s: Sys)
    requires Epochs(s) && Destinations(s) && Gates(s) && s.request.Some? && CanVisit(s, s.request.value)
    ensures Gates(VisitRequest(s))
  {
    hide Rising, Within, RevokedBy, DestOk, Announced;
  }

  lemma {:induction false} VisitCutoffKeeps(s: Sys)
    requires Inv(s) && s.cutoff.Some? && CanVisit(s, s.cutoff.value)
    ensures Inv(VisitCutoff(s))
  {
    hide Epochs, Captured, Destinations, Gates;
    VisitCutoffEpochs(s);
    VisitCutoffDests(s);
    VisitCutoffGates(s);
  }

  lemma {:induction false} VisitCutoffEpochs(s: Sys)
    requires Epochs(s) && Captured(s) && s.cutoff.Some? && CanVisit(s, s.cutoff.value)
    ensures Epochs(VisitCutoff(s)) && Captured(VisitCutoff(s))
  {
    hide Rising, Within, RevokedBy, Revoked, TagOk;
  }

  lemma {:induction false} VisitCutoffDests(s: Sys)
    requires Epochs(s) && Destinations(s) && s.cutoff.Some? && CanVisit(s, s.cutoff.value)
    ensures Destinations(VisitCutoff(s))
  {
    hide Rising, Within, RevokedBy, Announced, InFlight, TagOk;
    var f := s.cutoff.value;
    VisitOne(s.dests[f.next], f, s.epoch, s.token, s.since, s.floor, Pending(s));
    Visiting(s.dests, f);
    assert Pending(VisitCutoff(s)) == Pending(s);
    if s.request.Some? { VisitingMeanwhile(s.dests, f, s.request.value); }
    if s.own.Some? { VisitingMeanwhile(s.dests, f, s.own.value); }
  }

  lemma {:induction false} VisitCutoffGates(s: Sys)
    requires Epochs(s) && Destinations(s) && Gates(s) && s.cutoff.Some? && CanVisit(s, s.cutoff.value)
    ensures Gates(VisitCutoff(s))
  {
    hide Rising, Within, RevokedBy, DestOk, Announced;
  }

  lemma {:induction false} VisitOwnKeeps(s: Sys)
    requires Inv(s) && s.own.Some? && CanVisit(s, s.own.value)
    ensures Inv(VisitOwn(s))
  {
    hide Epochs, Captured, Destinations, Gates;
    VisitOwnEpochs(s);
    VisitOwnDests(s);
    VisitOwnGates(s);
  }

  lemma {:induction false} VisitOwnEpochs(s: Sys)
    requires Epochs(s) && Captured(s) && s.own.Some? && CanVisit(s, s.own.value)
    ensures Epochs(VisitOwn(s)) && Captured(VisitOwn(s))
  {
    hide Rising, Within, RevokedBy, Revoked, TagOk;
  }

  lemma {:induction false} VisitOwnDests(s: Sys)
    requires Epochs(s) && Destinations(s) && s.own.Some? && CanVisit(s, s.own.value)
    ensures Destinations(VisitOwn(s))
  {
    hide Rising, Within, RevokedBy, Announced, InFlight, TagOk;
    var f := s.own.value;
    VisitOne(s.dests[f.next], f, s.epoch, s.token, s.since, s.floor, Pending(s));
    Visiting(s.dests, f);
    assert Pending(VisitOwn(s)) == Pending(s);
    if s.request.Some? { VisitingMeanwhile(s.dests, f, s.request.value); }
    if s.cutoff.Some? { VisitingMeanwhile(s.dests, f, s.cutoff.value); }
  }

  lemma {:induction false} VisitOwnGates(s: Sys)
    requires Epochs(s) && Destinations(s) && Gates(s) && s.own.Some? && CanVisit(s, s.own.value)
    ensures Gates(VisitOwn(s))
  {
    hide Rising, Within, RevokedBy, DestOk, Announced;
  }

  lemma {:induction false} EndOwnKeeps(s: Sys)
    requires Inv(s) && s.own.Some? && s.own.value.next == |s.dests|
    ensures Inv(EndOwn(s))
  {}

  lemma {:induction false} SwapKeeps(s: Sys)
    requires Inv(s) && Idle(s) && s.swapped == [] && s.packets == {}
    ensures Inv(Swap(s))
  {
    hide Rising, Within, RevokedBy, Revoked, Announced, DestOk;
    SwapPending(s);
  }

  lemma {:induction false} CheckFailureKeeps(s: Sys)
    requires Inv(s) && s.phase.Swapped?
    ensures Inv(CheckFailure(s))
  {}

  lemma {:induction false} ProcessKeeps(s: Sys)
    requires Inv(s) && Idle(s) && s.swapped != []
    ensures Inv(Process(s))
  {
    ProcessPending(s);
    assert forall i :: 0 <= i < |s.swapped| ==> Pending(s)[i] == s.swapped[i];
    Uncons(Pending(s), s.epoch, s.floor + 1, s.token, s.since);
    if s.request.Some? { Uncons(Pending(s), s.epoch, s.request.value.epoch, s.token, s.since); }
  }

  lemma {:induction false} IngestKeeps(s: Sys, token: nat)
    requires Inv(s) && Idle(s) && s.swapped == [] && token in s.packets
    ensures Inv(Ingest(s, token))
  {
    hide Epochs, Captured, Destinations, Gates;
    IngestEpochs(s, token);
    IngestCaptured(s, token);
    IngestDests(s, token);
  }

  lemma {:induction false} IngestEpochs(s: Sys, token: nat)
    requires Epochs(s) && Idle(s) && s.swapped == [] && token in s.packets
    ensures Epochs(Ingest(s, token))
  {
    hide Rising, Within, RevokedBy;
  }

  lemma {:induction false} IngestCaptured(s: Sys, token: nat)
    requires Captured(s) && Idle(s) && s.swapped == [] && token in s.packets
    ensures Captured(Ingest(s, token))
  {
    hide Revoked, TagOk;
    SwapPending(s);
  }

  lemma {:induction false} IngestDests(s: Sys, token: nat)
    requires Destinations(s) && Gates(s) && Idle(s) && s.swapped == [] && token in s.packets
    ensures Destinations(Ingest(s, token)) && Gates(Ingest(s, token))
  {
    hide DestOk, Announced, Visits;
    assert Pending(Ingest(s, token)) == Pending(s);
  }

  lemma {:induction false} AdvanceKeeps(s: Sys)
    requires Inv(s) && Idle(s) && s.swapped == []
    ensures Inv(Advance(s))
  {}

  lemma {:induction false} PublishKeeps(s: Sys, tokens: set<nat>, headers: bool)
    requires Inv(s) && Idle(s) && s.swapped == [] && tokens <= s.inside && (headers || s.begun)
    ensures Inv(Publish(s, tokens, headers))
  {}

  lemma {:induction false} CheckKeeps(s: Sys)
    requires Inv(s) && s.flight.Some? && !s.flight.value.checked
    ensures Inv(Check(s))
  {
    hide Epochs, Captured, Destinations, Gates;
    CheckEpochs(s);
    CheckDests(s);
    CheckGates(s);
  }

  lemma {:induction false} CheckEpochs(s: Sys)
    requires Epochs(s) && Captured(s) && s.flight.Some? && !s.flight.value.checked
    ensures Epochs(Check(s)) && Captured(Check(s))
  {
    hide Rising, Within, RevokedBy, Revoked, TagOk;
  }

  lemma {:induction false} CheckDests(s: Sys)
    requires Destinations(s) && s.flight.Some? && !s.flight.value.checked
    ensures Destinations(Check(s))
  {
    hide DestOk, Announced, Visits;
    assert Pending(Check(s)) == Pending(s);
  }

  lemma {:induction false} CheckGates(s: Sys)
    requires Epochs(s) && Gates(s) && s.flight.Some? && !s.flight.value.checked
    ensures Gates(Check(s))
  {
    hide Rising, Within, RevokedBy;
  }

  lemma {:induction false} DeliverKeeps(s: Sys)
    requires Inv(s) && CanDeliver(s) && Consume(s.dests[s.flight.value.next], s.flight.value).Taken?
    ensures Inv(Deliver(s))
  {
    hide Epochs, Captured, Destinations, Gates;
    DeliverEpochs(s);
    DeliverDests(s);
    DeliverGates(s);
  }

  lemma {:induction false} DeliverEpochs(s: Sys)
    requires Epochs(s) && Captured(s) && CanDeliver(s) && Consume(s.dests[s.flight.value.next], s.flight.value).Taken?
    ensures Epochs(Deliver(s)) && Captured(Deliver(s))
  {
    hide Rising, Within, RevokedBy, Revoked, TagOk;
  }

  lemma {:induction false} DeliverDests(s: Sys)
    requires Epochs(s) && Captured(s) && Destinations(s) && CanDeliver(s) && Consume(s.dests[s.flight.value.next], s.flight.value).Taken?
    ensures Destinations(Deliver(s))
  {
    hide Rising, Within, RevokedBy, Revoked;
    assert Pending(Deliver(s)) == Pending(s);
  }

  lemma {:induction false} DeliverGates(s: Sys)
    requires Epochs(s) && Destinations(s) && Gates(s) && CanDeliver(s) && Consume(s.dests[s.flight.value.next], s.flight.value).Taken?
    ensures Gates(Deliver(s))
  {
    hide Rising, Within, RevokedBy, Announced, TagOk, Visits;
  }

  /** A step of a destination concerns nobody else. */
  lemma {:induction false} DestinationStep(s: Sys, u: Sys)
    requires Epochs(s) && Captured(s) && u == s.(dests := u.dests) && |u.dests| == |s.dests|
    ensures Epochs(u) && Captured(u) && Pending(u) == Pending(s)
  {
    hide Rising, Within, RevokedBy, Revoked, TagOk;
  }

  lemma {:induction false} TakeTagKeeps(s: Sys, i: nat, t: Tag)
    requires Inv(s) && i < |s.dests| && t in s.dests[i].queue
    ensures Inv(TakeTag(s, i, t))
  {
    hide Epochs, Captured, Destinations, Gates;
    DestinationStep(s, TakeTag(s, i, t));
    TakeTagDests(s, i, t);
    TakeTagGates(s, i, t);
  }

  lemma {:induction false} TakeTagDests(s: Sys, i: nat, t: Tag)
    requires Destinations(s) && i < |s.dests| && t in s.dests[i].queue
    ensures Destinations(TakeTag(s, i, t))
  {
    hide TagOk;
    assert Pending(TakeTag(s, i, t)) == Pending(s);
  }

  lemma {:induction false} TakeTagGates(s: Sys, i: nat, t: Tag)
    requires Gates(s) && i < |s.dests| && t in s.dests[i].queue
    ensures Gates(TakeTag(s, i, t))
  {}

  lemma {:induction false} IsolateKeeps(s: Sys, i: nat)
    requires Inv(s) && i < |s.dests| && !s.dests[i].locked
    ensures Inv(Isolate(s, i))
  {
    hide Epochs, Captured, TagOk;
    DestinationStep(s, Isolate(s, i));
  }

  lemma {:induction false} LoseKeeps(s: Sys, i: nat, kept: set<Tag>)
    requires Inv(s) && i < |s.dests| && kept <= s.dests[i].queue
    ensures Inv(Lose(s, i, kept))
  {
    hide Epochs, Captured, Destinations, Gates;
    DestinationStep(s, Lose(s, i, kept));
    LoseDests(s, i, kept);
    LoseGates(s, i, kept);
  }

  lemma {:induction false} LoseDests(s: Sys, i: nat, kept: set<Tag>)
    requires Destinations(s) && i < |s.dests| && kept <= s.dests[i].queue
    ensures Destinations(Lose(s, i, kept))
  {
    hide TagOk;
    var u := Lose(s, i, kept);
    assert Pending(u) == Pending(s);
  }

  lemma {:induction false} LoseGates(s: Sys, i: nat, kept: set<Tag>)
    requires Gates(s) && i < |s.dests| && kept <= s.dests[i].queue
    ensures Gates(Lose(s, i, kept))
  {}

  lemma {:induction false} StartKeeps(epoch: nat, count: nat)
    ensures Inv(Start(epoch, count))
  {}

  // Runs.

  /** One step of any thread, with the choices it makes. */
  datatype Step =
    | DoCapture | DoBeginRequest(raise: nat, cause: Cause) | DoEndRequest | DoEndStop | DoBeginCutoff(raise: nat) | DoLoseConsumer
    | DoVisitRequest | DoVisitCutoff | DoVisitOwn | DoEndOwn
    | DoSwap | DoCheckFailure | DoProcess | DoIngest(token: nat) | DoAdvance | DoPublish(tokens: set<nat>, headers: bool)
    | DoCheck | DoDeliver | DoTakeTag(i: nat, tag: Tag) | DoIsolate(i: nat) | DoLose(i: nat, kept: set<Tag>)

  predicate Enabled(s: Sys, a: Step) {
    match a
    case DoCapture => s.stopped.None? && !Failed(s)
    case DoBeginRequest(_, _) => s.request.None? && s.stopped.None?
    case DoEndRequest => Visited(s) && !s.request.value.cause.Stopping?
    case DoEndStop => Visited(s) && s.request.value.cause.Stopping?
    case DoBeginCutoff(_) => !Failed(s)
    case DoLoseConsumer => !Failed(s)
    case DoVisitRequest => s.request.Some? && CanVisit(s, s.request.value)
    case DoVisitCutoff => s.cutoff.Some? && CanVisit(s, s.cutoff.value)
    case DoVisitOwn => s.own.Some? && CanVisit(s, s.own.value)
    case DoEndOwn => s.own.Some? && s.own.value.next == |s.dests|
    case DoSwap => Idle(s) && s.swapped == [] && s.packets == {}
    case DoCheckFailure => s.phase.Swapped?
    case DoProcess => Idle(s) && s.swapped != []
    case DoIngest(token) => Idle(s) && s.swapped == [] && token in s.packets
    case DoAdvance => Idle(s) && s.swapped == []
    case DoPublish(tokens, headers) => Idle(s) && s.swapped == [] && tokens <= s.inside && (headers || s.begun)
    case DoCheck => s.flight.Some? && !s.flight.value.checked
    case DoDeliver => CanDeliver(s) && Consume(s.dests[s.flight.value.next], s.flight.value).Taken?
    case DoTakeTag(i, tag) => i < |s.dests| && tag in s.dests[i].queue
    case DoIsolate(i) => i < |s.dests| && !s.dests[i].locked
    case DoLose(i, kept) => i < |s.dests| && kept <= s.dests[i].queue
  }

  /** A step that is not enabled waits. */
  function Apply(s: Sys, a: Step): Sys {
    if !Enabled(s, a) then s else
    match a
    case DoCapture => Capture(s)
    case DoBeginRequest(raise, cause) => BeginRequest(s, raise, cause)
    case DoEndRequest => EndRequest(s)
    case DoEndStop => EndStop(s)
    case DoBeginCutoff(raise) => BeginCutoff(s, raise)
    case DoLoseConsumer => LoseConsumer(s)
    case DoVisitRequest => VisitRequest(s)
    case DoVisitCutoff => VisitCutoff(s)
    case DoVisitOwn => VisitOwn(s)
    case DoEndOwn => EndOwn(s)
    case DoSwap => Swap(s)
    case DoCheckFailure => CheckFailure(s)
    case DoProcess => Process(s)
    case DoIngest(token) => Ingest(s, token)
    case DoAdvance => Advance(s)
    case DoPublish(tokens, headers) => Publish(s, tokens, headers)
    case DoCheck => Check(s)
    case DoDeliver => Deliver(s)
    case DoTakeTag(i, tag) => TakeTag(s, i, tag)
    case DoIsolate(i) => Isolate(s, i)
    case DoLose(i, kept) => Lose(s, i, kept)
  }

  function Exec(s: Sys, steps: seq<Step>): Sys
    decreases |steps|
  {
    if steps == [] then s else Exec(Apply(s, steps[0]), steps[1..])
  }

  lemma {:induction false} StepKeeps(s: Sys, a: Step)
    requires Inv(s)
    ensures Inv(Apply(s, a))
  {
    hide Inv;
    if Enabled(s, a) {
      match a
      case DoCapture => CaptureKeeps(s);
      case DoBeginRequest(raise, cause) => BeginRequestKeeps(s, raise, cause);
      case DoEndRequest => EndRequestKeeps(s);
      case DoEndStop => EndStopKeeps(s);
      case DoBeginCutoff(raise) => BeginCutoffKeeps(s, raise);
      case DoLoseConsumer => LoseConsumerKeeps(s);
      case DoVisitRequest => VisitRequestKeeps(s);
      case DoVisitCutoff => VisitCutoffKeeps(s);
      case DoVisitOwn => VisitOwnKeeps(s);
      case DoEndOwn => EndOwnKeeps(s);
      case DoSwap => SwapKeeps(s);
      case DoCheckFailure => CheckFailureKeeps(s);
      case DoProcess => ProcessKeeps(s);
      case DoIngest(token) => IngestKeeps(s, token);
      case DoAdvance => AdvanceKeeps(s);
      case DoPublish(tokens, headers) => PublishKeeps(s, tokens, headers);
      case DoCheck => CheckKeeps(s);
      case DoDeliver => DeliverKeeps(s);
      case DoTakeTag(i, tag) => TakeTagKeeps(s, i, tag);
      case DoIsolate(i) => IsolateKeeps(s, i);
      case DoLose(i, kept) => LoseKeeps(s, i, kept);
    }
  }

  lemma {:induction false} RunKeeps(s: Sys, steps: seq<Step>)
    requires Inv(s)
    ensures Inv(Exec(s, steps))
    decreases |steps|
  {
    hide Inv, Apply;
    if steps == [] {
    } else {
      StepKeeps(s, steps[0]);
      RunKeeps(Apply(s, steps[0]), steps[1..]);
    }
  }

  /** What one step, and so a run, never takes back. */
  predicate Later(s: Sys, u: Sys) {
    && s.floor <= u.floor && s.token <= u.token && s.epoch <= u.epoch && |u.dests| == |s.dests|
    && (s.failed.Some? ==> u.failed == s.failed) && (s.stopped.Some? ==> u.stopped == s.stopped)
  }

  lemma {:induction false} StepLater(s: Sys, a: Step)
    requires Inv(s)
    ensures Later(s, Apply(s, a))
  {
    hide Captured, Destinations, Gates, Rising, RevokedBy;
    if a.DoProcess? && Enabled(s, a) { ProcessPending(s); }
  }

  lemma {:induction false} RunLater(s: Sys, steps: seq<Step>)
    requires Inv(s)
    ensures Later(s, Exec(s, steps))
    decreases |steps|
  {
    hide Inv, Apply;
    if steps == [] {
    } else {
      StepKeeps(s, steps[0]);
      StepLater(s, steps[0]);
      RunLater(Apply(s, steps[0]), steps[1..]);
    }
  }

  /** Reachable from the start of a broadcast. */
  ghost predicate Reachable(s: Sys) {
    exists epoch: nat, count: nat, steps: seq<Step> :: s == Exec(Start(epoch, count), steps)
  }

  lemma {:induction false} ReachableInv(s: Sys)
    requires Reachable(s)
    ensures Inv(s)
  {
    hide Inv, Start;
    var epoch: nat, count: nat, steps: seq<Step> :| s == Exec(Start(epoch, count), steps);
    StartKeeps(epoch, count);
    RunKeeps(Start(epoch, count), steps);
  }

  // What the invariant gives.

  /** A write only ever begins with media captured under the token that is current. */
  lemma {:induction false} WritesAreCurrent(s: Sys, d: Dest)
    requires Inv(s) && d in s.dests && CanWrite(d)
    ensures d.hand.value.token == s.token
  {
    hide Epochs, Captured, Gates;
    var i :| 0 <= i < |s.dests| && s.dests[i] == d;
  }

  /** Once an action that discards the buffer has returned true, or a stop has returned, no destination ever begins to
      write media captured before, however the capture threads, the owner's worker, a batch already being handed out and
      the destinations go on. */
  lemma {:induction false} DumpFence(s: Sys, more: seq<Step>, d: Dest)
    requires Reachable(s) && Visited(s) && (s.request.value.cause.Discarding? || s.request.value.cause.Stopping?)
    requires var u := if s.request.value.cause.Stopping? then EndStop(s) else EndRequest(s); d in Exec(u, more).dests && CanWrite(d)
    ensures s.token < d.hand.value.token
  {
    hide Inv;
    var u := if s.request.value.cause.Stopping? then EndStop(s) else EndRequest(s);
    ReachableInv(s);
    if s.request.value.cause.Stopping? { EndStopKeeps(s); } else { EndRequestKeeps(s); }
    RunKeeps(u, more);
    RunLater(u, more);
    WritesAreCurrent(Exec(u, more), d);
  }

  /** A consumer never finds a batch ahead of it, and never misses the headers of a new epoch. */
  lemma {:induction false} ConsumersAreCoordinated(s: Sys)
    requires Reachable(s) && CanDeliver(s)
    ensures Consume(s.dests[s.flight.value.next], s.flight.value).Taken?
  {
    ReachableInv(s);
    var i := s.flight.value.next;
    assert Coordinated(s.dests[i], i, s) && HeadersCome(s.dests[i], i, s);
  }

  /** Once the owner has latched a failure or a stop has returned, no batch passes the comparison with the floor any more, and
      the coordinator does not move on by itself. */
  lemma {:induction false} CutoffHolds(s: Sys, more: seq<Step>)
    requires Reachable(s) && (s.failed.Some? || s.stopped.Some?)
    ensures var u := Exec(s, more);
            && (u.flight.Some? && !u.flight.value.checked ==> Check(u).flight.None?)
            && (Idle(u) && u.swapped == [] ==> Advance(u) == u)
  {
    ReachableInv(s);
    RunKeeps(s, more);
    RunLater(s, more);
  }

  /** What is left of s after some of its front was dealt with. */
  predicate Rest<T(==)>(rest: seq<T>, s: seq<T>) { |rest| <= |s| && rest == s[|s| - |rest|..] }

  /** From a latched failure on, the worker goes on at most with what it had already taken. */
  predicate WindsUp(s: Sys, u: Sys) {
    Failed(u) && (u.phase.Run? ==> s.phase.Run? && u.packets <= s.packets && Rest(u.swapped, s.swapped))
  }

  lemma {:induction false} RestShrinks<T>(rest: seq<T>, s: seq<T>)
    requires Rest(rest, s) && rest != []
    ensures Rest(rest[1..], s)
  {}

  lemma {:induction false} StepWindsUp(s: Sys, u: Sys, a: Step)
    requires WindsUp(s, u)
    ensures WindsUp(s, Apply(u, a))
  {
    hide Rest;
    if a.DoProcess? && Enabled(u, a) { RestShrinks(u.swapped, s.swapped); }
  }

  /** The same for a failure that a destination latches: it fences nothing off, but the worker takes no further action and no
      further media, and its next look at the failure is its last. */
  lemma {:induction false} FailureWindsUp(s: Sys, more: seq<Step>)
    requires Failed(s)
    ensures var u := Exec(s, more); WindsUp(s, u) && (u.phase.Swapped? ==> CheckFailure(u).phase.Exit?)
  {
    hide Apply;
    assert Rest(s.swapped, s.swapped);
    RunWindsUp(s, s, more);
  }

  lemma {:induction false} RunWindsUp(s: Sys, u: Sys, more: seq<Step>)
    requires WindsUp(s, u)
    ensures WindsUp(s, Exec(u, more))
    decreases |more|
  {
    hide Apply, WindsUp;
    if more == [] {
    } else {
      StepWindsUp(s, u, more[0]);
      RunWindsUp(s, Apply(u, more[0]), more[1..]);
    }
  }

  /** A batch that is already on its way when a destination latches a failure still passes. */
  lemma {:induction false} LostConsumerFencesNothing()
    ensures var s := Exec(Start(0, 1), [DoPublish({}, true), DoLoseConsumer]);
      Reachable(s) && Failed(s) && s.flight.Some? && !s.flight.value.checked && Check(s).flight.Some?
  {
    var steps := [DoPublish({}, true), DoLoseConsumer];
    var first := Publish(Start(0, 1), {}, true);
    assert steps[1..] == [DoLoseConsumer] && [DoLoseConsumer][1..] == [];
    assert Exec(first, [DoLoseConsumer]) == Exec(LoseConsumer(first), []);
    assert Exec(Start(0, 1), steps) == Exec(first, [DoLoseConsumer]);
  }

  /** Epochs are handed out in order, whoever asks: an action's is above the floor and the coordinator's, above every action
      still queued, and above every action accepted before, whether it was dealt with since or not. */
  lemma {:induction false} EpochsRise(s: Sys, more: seq<Step>, raise: nat, cause: Cause)
    requires Reachable(s)
    requires var u := Exec(s, more); u.request.None? && u.stopped.None?
    ensures var u := Exec(s, more); var e := BeginRequest(u, raise, cause).request.value.epoch;
      && s.floor <= u.floor < e && s.epoch <= u.epoch < e
      && (forall r :: r in Pending(s) ==> s.epoch < r.epoch < e) && (forall r :: r in Pending(u) ==> u.epoch < r.epoch < e)
  {
    ReachableInv(s);
    RunKeeps(s, more);
    RunLater(s, more);
  }

  lemma {:induction false} PendingIsAhead(s: Sys)
    requires Inv(s)
    ensures Pending(s) == [] || s.epoch < s.floor
  {
    if Pending(s) != [] { assert s.epoch < Pending(s)[0].epoch; }
  }

  /** The coordinator moves on by itself exactly while nobody reserved an epoch above its own; then no accepted action, failure
      or stop is waiting for it. */
  lemma {:induction false} AdvanceJumpsNothing(s: Sys)
    requires Reachable(s) && Idle(s) && s.swapped == []
    ensures Advance(s) != s <==> s.floor == s.epoch
    ensures s.floor == s.epoch ==>
      && Pending(s) == [] && s.request.None? && s.failed.None? && s.stopped.None?
      && Advance(s).epoch == Advance(s).floor == s.epoch + 1 && Advance(s).own.Some?
  {
    ReachableInv(s);
    PendingIsAhead(s);
  }

  // What is kept.

  /** The captured media that the owner still holds: handed in, taken by the worker, or inside the controller. */
  function Held(s: Sys): set<nat> { s.ingress + s.packets + s.inside }

  predicate Discards(c: Cause) { c.Discarding? || c.Stopping? }

  /** Some action that discards the buffer, or a stop, is being announced or was accepted and not dealt with yet. */
  predicate Discarded(s: Sys) {
    || (s.request.Some? && Discards(s.request.value.cause))
    || (exists i :: 0 <= i < |s.swapped| && s.swapped[i].revokes)
    || (exists i :: 0 <= i < |s.requests| && s.requests[i].revokes)
  }

  predicate Keeps(a: Step) { !(a.DoBeginRequest? && Discards(a.cause)) }

  /** Something was captured in the course of a run. */
  predicate Captures(s: Sys, steps: seq<Step>)
    decreases |steps|
  {
    steps != [] && ((steps[0].DoCapture? && Enabled(s, steps[0])) || Captures(Apply(s, steps[0]), steps[1..]))
  }

  lemma {:induction false} StepConserves(s: Sys, a: Step)
    requires !Discarded(s) && Keeps(a)
    ensures var u := Apply(s, a); !Discarded(u) && u.token == s.token
    ensures Held(Apply(s, a)) == Held(s) + if a.DoCapture? && Enabled(s, a) then {s.token} else {}
  {}

  /** As long as nobody asks for a dump or a stop, no captured media is lost and none is revoked, whatever is changed, fails
      or is cut off meanwhile: the owner holds exactly what it held and what was captured since, all under the same token. */
  lemma {:induction false} BufferIsKept(s: Sys, more: seq<Step>)
    requires !Discarded(s) && forall a :: a in more ==> Keeps(a)
    ensures var u := Exec(s, more); !Discarded(u) && u.token == s.token
    ensures Held(Exec(s, more)) == Held(s) + if Captures(s, more) then {s.token} else {}
    decreases |more|
  {
    hide Apply, Discarded, Keeps, Enabled;
    if more == [] {
    } else {
      StepConserves(s, more[0]);
      BufferIsKept(Apply(s, more[0]), more[1..]);
    }
  }

  /** A batch on its way that nothing fences off: it was compared with the floor, and no visit is under way. */
  predicate OnItsWay(s: Sys, f: Flight) {
    s.floor == s.epoch == f.epoch && s.flight == Some(f) && f.checked && f.next < |s.dests| && forall d :: d in s.dests ==> !d.locked
  }

  function Deliveries(count: nat): (r: seq<Step>)
    ensures |r| == count && forall i :: 0 <= i < count ==> r[i] == DoDeliver
  {
    if count == 0 then [] else [DoDeliver] + Deliveries(count - 1)
  }

  /** A destination has a batch, and may begin to write any of it. */
  predicate Has(d: Dest, f: Flight) {
    forall k :: k in f.tokens ==> Tag(f.epoch, k) in d.queue && CanWrite(d.(hand := Some(Tag(f.epoch, k))))
  }

  lemma {:induction false} DeliverHands(s: Sys, f: Flight)
    requires Inv(s) && OnItsWay(s, f)
    ensures Enabled(s, DoDeliver) && Deliver(s).dests == s.dests[f.next := Deliver(s).dests[f.next]]
    ensures Deliver(s).dests[f.next].isolated == s.dests[f.next].isolated && (!s.dests[f.next].isolated ==> Has(Deliver(s).dests[f.next], f))
    ensures f.next + 1 < |s.dests| ==> OnItsWay(Deliver(s), f.(next := f.next + 1))
  {
    hide Captured, Rising, Within, RevokedBy, TagOk, Announced, Visits;
    var d := s.dests[f.next];
    assert d in s.dests && DestOk(d, s.epoch, s.token, s.since, s.floor);
    assert Coordinated(d, f.next, s) && HeadersCome(d, f.next, s);
    DeliverUnlocked(s, f);
  }

  lemma {:induction false} DeliverUnlocked(s: Sys, f: Flight)
    requires OnItsWay(s, f) && CanDeliver(s) && Consume(s.dests[f.next], f).Taken?
    ensures forall d :: d in Deliver(s).dests ==> !d.locked
  {
    var u := Deliver(s);
    forall d | d in u.dests ensures !d.locked {
      var i :| 0 <= i < |u.dests| && u.dests[i] == d;
      assert s.dests[i] in s.dests;
    }
  }

  /** A batch that nothing fences off reaches every destination that is not cut off: nobody refuses it or waits for headers. */
  lemma {:induction false} BatchArrives(s: Sys, f: Flight, u: Sys)
    requires Inv(s) && OnItsWay(s, f) && u == Exec(s, Deliveries(|s.dests| - f.next))
    ensures |u.dests| == |s.dests| && forall i :: 0 <= i < f.next ==> u.dests[i] == s.dests[i]
    ensures forall i :: f.next <= i < |s.dests| && !s.dests[i].isolated ==> Has(u.dests[i], f)
    decreases |s.dests| - f.next
  {
    hide Inv, Has, Deliver, CanDeliver, Consume;
    var run := Deliveries(|s.dests| - f.next);
    DeliverHands(s, f);
    if f.next + 1 == |s.dests| {
      assert run[1..] == [];
    } else {
      StepKeeps(s, DoDeliver);
      assert run[1..] == Deliveries(|s.dests| - f.next - 1);
      BatchArrives(Deliver(s), f.(next := f.next + 1), u);
      HasIgnoresNext(u, f);
    }
  }

  lemma {:induction false} HasIgnoresNext(u: Sys, f: Flight)
    ensures forall i :: 0 <= i < |u.dests| ==> Has(u.dests[i], f) == Has(u.dests[i], f.(next := f.next + 1))
  {}

  /** A batch that is published while no newer epoch was reserved goes on its way. */
  lemma {:induction false} PublishedGoes(s: Sys, tokens: set<nat>, headers: bool)
    requires Enabled(s, DoPublish(tokens, headers)) && s.floor == s.epoch && s.dests != [] && forall d :: d in s.dests ==> !d.locked
    ensures var u := Apply(Apply(s, DoPublish(tokens, headers)), DoCheck);
      OnItsWay(u, Flight(s.epoch, tokens, headers, 0, true)) && u.dests == s.dests
  {}

  lemma {:induction false} Two(s: Sys, a: Step, b: Step, more: seq<Step>)
    ensures Exec(s, [a, b] + more) == Exec(Apply(Apply(s, a), b), more)
  {
    hide Apply;
    var run := [a, b] + more;
    assert run[1..][0] == b && run[1..][1..] == more;
    assert Exec(s, run) == Exec(Apply(s, a), run[1..]);
  }

  /** ... so it arrives everywhere. */
  lemma {:induction false} PublishedArrives(s: Sys, tokens: set<nat>, headers: bool)
    requires Inv(s) && Enabled(s, DoPublish(tokens, headers)) && s.floor == s.epoch
    requires s.dests != [] && forall d :: d in s.dests ==> !d.locked
    ensures var u := Exec(s, [DoPublish(tokens, headers), DoCheck] + Deliveries(|s.dests|));
      |u.dests| == |s.dests| && forall i :: 0 <= i < |s.dests| && !s.dests[i].isolated ==>
        forall k :: k in tokens ==> Tag(s.epoch, k) in u.dests[i].queue && CanWrite(u.dests[i].(hand := Some(Tag(s.epoch, k))))
  {
    hide Inv, Apply, Enabled, Exec, OnItsWay, Deliveries;
    var p := Apply(s, DoPublish(tokens, headers));
    StepKeeps(s, DoPublish(tokens, headers));
    StepKeeps(p, DoCheck);
    PublishedGoes(s, tokens, headers);
    Two(s, DoPublish(tokens, headers), DoCheck, Deliveries(|s.dests|));
    BatchArrives(Apply(p, DoCheck), Flight(s.epoch, tokens, headers, 0, true), Exec(Apply(p, DoCheck), Deliveries(|s.dests|)));
  }

  // Actions.

  /** The action that a step accepts, if any, and the one that it deals with. */
  function AcceptedBy(s: Sys, a: Step): seq<Request> {
    if a.DoEndRequest? && Enabled(s, a) then EndRequest(s).requests[|s.requests|..] else []
  }

  function DoneBy(s: Sys, a: Step): seq<Request> {
    if a.DoProcess? && Enabled(s, a) then s.swapped[..1] else []
  }

  /** The actions accepted in the course of a run, and those dealt with. */
  function Accepted(s: Sys, steps: seq<Step>): seq<Request>
    decreases |steps|
  {
    if steps == [] then [] else AcceptedBy(s, steps[0]) + Accepted(Apply(s, steps[0]), steps[1..])
  }

  function Done(s: Sys, steps: seq<Step>): seq<Request>
    decreases |steps|
  {
    if steps == [] then [] else DoneBy(s, steps[0]) + Done(Apply(s, steps[0]), steps[1..])
  }

  predicate Stops(s: Sys) { s.request.Some? && s.request.value.cause.Stopping? }

  predicate AsksToStop(a: Step) { a.DoBeginRequest? && a.cause.Stopping? }

  /** Only these steps concern the queue of actions. */
  lemma {:induction false} StepQueuesNothing(s: Sys, a: Step)
    requires !Stops(s) && !AsksToStop(a)
    ensures !Stops(Apply(s, a))
    ensures !(a.DoProcess? || a.DoEndRequest? || a.DoSwap?) || !Enabled(s, a) ==>
      Apply(s, a).swapped == s.swapped && Apply(s, a).requests == s.requests && AcceptedBy(s, a) == DoneBy(s, a) == []
  {}

  lemma {:induction false} Blank<T>(p: seq<T>)
    ensures [] + p == p == p + []
  {}

  lemma {:induction false} FirstAndRest<T>(p: seq<T>, q: seq<T>)
    requires p != []
    ensures p[..1] + (p[1..] + q) == p + q == (p + q) + []
  {}

  lemma {:induction false} StepQueues(s: Sys, a: Step)
    requires !Stops(s) && !AsksToStop(a)
    ensures !Stops(Apply(s, a))
    ensures DoneBy(s, a) + Pending(Apply(s, a)) == Pending(s) + AcceptedBy(s, a)
  {
    StepQueuesNothing(s, a);
    if Enabled(s, a) && a.DoProcess? {
      FirstAndRest(s.swapped, s.requests);
    } else if Enabled(s, a) && a.DoEndRequest? {
      EndPending(s);
      Blank(Pending(EndRequest(s)));
      assert AcceptedBy(s, a) == [EndRequest(s).requests[|s.requests|]];
    } else if Enabled(s, a) && a.DoSwap? {
      SwapPending(s);
      Blank(Pending(s));
      Blank(s.requests);
    } else {
      Blank(Pending(s));
    }
  }

  /** Unless somebody asks for a stop, accepted actions are dealt with once each, in the order in which they were accepted. */
  lemma {:induction false} ActionsAreKept(s: Sys, more: seq<Step>)
    requires !Stops(s) && forall a :: a in more ==> !AsksToStop(a)
    ensures Done(s, more) + Pending(Exec(s, more)) == Pending(s) + Accepted(s, more)
    decreases |more|
  {
    hide Apply, Stops, AsksToStop, Pending, DoneBy, AcceptedBy;
    if more == [] {
    } else {
      var next := Apply(s, more[0]);
      StepQueues(s, more[0]);
      ActionsAreKept(next, more[1..]);
      calc {
        Done(s, more) + Pending(Exec(s, more));
        DoneBy(s, more[0]) + (Done(next, more[1..]) + Pending(Exec(next, more[1..])));
        (DoneBy(s, more[0]) + Pending(next)) + Accepted(next, more[1..]);
        Pending(s) + Accepted(s, more);
      }
    }
  }

  /** The newest epoch that anybody reserved is on its way to the coordinator. */
  predicate Current(s: Sys) {
    s.failed.None? && s.stopped.None? ==>
      s.floor == (if s.request.Some? then s.request.value.epoch
                  else if s.requests != [] then s.requests[|s.requests| - 1].epoch
                  else if s.swapped != [] then s.swapped[|s.swapped| - 1].epoch else s.epoch)
  }

  predicate OfActions(a: Step) {
    a.DoBeginRequest? || a.DoEndRequest? || a.DoEndStop? || a.DoBeginCutoff? || a.DoSwap? || a.DoProcess? || a.DoAdvance?
  }

  lemma {:induction false} MediaStepCurrent(s: Sys, a: Step)
    requires Current(s) && !OfActions(a)
    ensures Current(Apply(s, a))
  {
    hide VisitDest, Mark;
  }

  lemma {:induction false} StepCurrent(s: Sys, a: Step)
    requires Inv(s) && Current(s)
    ensures Current(Apply(s, a))
  {
    hide Captured, Destinations, Gates, Rising, RevokedBy, InFlight;
    if !OfActions(a) { MediaStepCurrent(s, a); } else { ActionStepCurrent(s, a); }
  }

  lemma {:induction false} ActionStepCurrent(s: Sys, a: Step)
    requires Epochs(s) && Current(s) && OfActions(a)
    ensures Current(Apply(s, a))
  {
    hide Rising, RevokedBy, InFlight;
    if a.DoProcess? && Enabled(s, a) { ProcessPending(s); }
    if a.DoAdvance? && Enabled(s, a) && Pending(s) != [] { assert s.epoch < Pending(s)[0].epoch; }
  }

  lemma {:induction false} RunCurrent(s: Sys, steps: seq<Step>)
    requires Inv(s) && Current(s)
    ensures Current(Exec(s, steps))
    decreases |steps|
  {
    hide Inv, Current, Apply;
    if steps == [] {
    } else {
      StepKeeps(s, steps[0]);
      StepCurrent(s, steps[0]);
      RunCurrent(Apply(s, steps[0]), steps[1..]);
    }
  }

  /** Once every accepted action was dealt with, the coordinator is in the newest epoch, and what it publishes then arrives
      everywhere: no action leaves it behind. */
  lemma {:induction false} MediaFlowsAgain(s: Sys, tokens: set<nat>, headers: bool)
    requires Reachable(s) && Pending(s) == [] && s.request.None? && s.failed.None? && s.stopped.None?
    requires Enabled(s, DoPublish(tokens, headers)) && s.dests != [] && forall d :: d in s.dests ==> !d.locked
    ensures s.epoch == s.floor
    ensures var u := Exec(s, [DoPublish(tokens, headers), DoCheck] + Deliveries(|s.dests|));
      |u.dests| == |s.dests| && forall i :: 0 <= i < |s.dests| && !s.dests[i].isolated ==>
        forall k :: k in tokens ==> Tag(s.epoch, k) in u.dests[i].queue && CanWrite(u.dests[i].(hand := Some(Tag(s.epoch, k))))
  {
    hide Inv, Exec, Apply, Enabled, Deliveries, CanWrite;
    var epoch: nat, count: nat, steps: seq<Step> :| s == Exec(Start(epoch, count), steps);
    StartKeeps(epoch, count);
    RunCurrent(Start(epoch, count), steps);
    ReachableInv(s);
    PublishedArrives(s, tokens, headers);
  }
}
