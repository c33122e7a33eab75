/** The delivery gate over several destinations: the primary decides, and a secondary may hold it up for a second at most. */
module DeliveryGate {
  import opened Media
  import SenderState

  const POLL_GAP: int := 250000
  const STALL_LIMIT: int := 1000000

  /** One look at a destination that counts: a secondary that neither failed nor is resuming, and has not delivered. */
  datatype Poll = Poll(now: int, epoch: nat, progress: nat)

  datatype Event = Undelivered(poll: Poll) | Resumed

  /** since, polled, epoch and progress of a wait. */
  datatype Wait = Wait(since: Option<int>, polled: int, epoch: nat, progress: nat)

  const NO_WAIT: Wait := Wait(None, 0, 0, 0)

  function Step(w: Wait, p: Poll): Wait {
    if w.since.None? || w.epoch != p.epoch || w.progress != p.progress || p.now - w.polled > POLL_GAP then Wait(Some(p.now), p.now, p.epoch, p.progress)
    else w.(polled := p.now)
  }

  function Expired(w: Wait, p: Poll): bool {
    p.now - Step(w, p).since.value >= STALL_LIMIT
  }

  /** The wait that a history of events leaves. */
  function WaitOf(events: seq<Event>): Wait {
    if events == [] then NO_WAIT
    else var before := WaitOf(events[..|events| - 1]);
      match events[|events| - 1]
      case Undelivered(p) => Step(before, p)
      case Resumed => before.(since := None)
  }

  /** From event k on, only undelivered polls, of one epoch and without progress, at most a quarter of a second apart. */
  predicate Stalled(events: seq<Event>, k: nat) {
    && k < |events|
    && (forall i :: k <= i < |events| ==> events[i].Undelivered?)
    && (forall i :: k <= i < |events| ==> events[i].poll.epoch == events[k].poll.epoch && events[i].poll.progress == events[k].poll.progress)
    && (forall i, j :: k <= i < |events| && k <= j < |events| && j == i + 1 ==> events[j].poll.now - events[i].poll.now <= POLL_GAP)
  }

  lemma {:induction false} StalledSnoc(events: seq<Event>, k: nat, p: Poll)
    requires k < |events|
    ensures Stalled(events + [Undelivered(p)], k) <==>
      && Stalled(events, k) && events[k].poll.epoch == p.epoch && events[k].poll.progress == p.progress
      && p.now - events[|events| - 1].poll.now <= POLL_GAP
  {
    var u := events + [Undelivered(p)];
    assert forall i :: 0 <= i < |events| ==> u[i] == events[i];
    if Stalled(u, k) { assert u[|events|].poll.now - u[|events| - 1].poll.now <= POLL_GAP; }
  }

  /** A wait goes back to the start of the longest stall. */
  lemma {:induction false} WaitIsStall(events: seq<Event>) returns (k: nat)
    ensures WaitOf(events).since.Some? <==> k < |events|
    ensures k < |events| ==>
      && Stalled(events, k) && WaitOf(events).since == Some(events[k].poll.now)
      && WaitOf(events).epoch == events[k].poll.epoch && WaitOf(events).progress == events[k].poll.progress
      && WaitOf(events).polled == events[|events| - 1].poll.now
    ensures forall j :: 0 <= j < |events| && Stalled(events, j) ==> k <= j
  {
    if events == [] {
      k := 0;
    } else {
      var init, last := events[..|events| - 1], events[|events| - 1];
      var m := WaitIsStall(init);
      assert events == init + [last];
      match last {
        case Resumed =>
          k := |events|;
        case Undelivered(p) =>
          var w := WaitOf(init);
          k := if w.since.None? || w.epoch != p.epoch || w.progress != p.progress || p.now - w.polled > POLL_GAP then |events| - 1 else m;
          if m < |init| { StalledSnoc(init, m, p); }
          forall j | 0 <= j < |events| && Stalled(events, j) ensures k <= j {
            if j < |init| { StalledSnoc(init, j, p); }
          }
      }
    }
  }

  /** A poll expires a wait exactly when it ends a stall of a second. */
  lemma {:induction false} ExpiresExactly(events: seq<Event>, p: Poll)
    requires forall i, j :: 0 <= i < j < |events| && events[i].Undelivered? && events[j].Undelivered? ==> events[i].poll.now <= events[j].poll.now
    requires forall i :: 0 <= i < |events| && events[i].Undelivered? ==> events[i].poll.now <= p.now
    ensures var all := events + [Undelivered(p)];
      Expired(WaitOf(events), p) <==> exists k: nat :: Stalled(all, k) && p.now - all[k].poll.now >= STALL_LIMIT
  {
    var all := events + [Undelivered(p)];
    assert all[..|all| - 1] == events;
    var k := WaitIsStall(all);
    assert WaitOf(all) == Step(WaitOf(events), p);
    if j: nat :| Stalled(all, j) && p.now - all[j].poll.now >= STALL_LIMIT {
      assert k <= j;
      assert all[k].poll.now <= all[j].poll.now;
    }
  }

  // The gate.

  /** What a poll sees of one destination. */
  datatype Look = Look(status: SenderState.Status, reconnects: nat, published: nat, deliveredEpoch: nat, deliveredTicket: nat, delivered: bool, now: int) {
    predicate Resuming() { status.Reconnecting? || (status.Running? && reconnects != 0 && published == 0) }
  }

  datatype Worker = Worker(primary: bool, isolated: bool, stopRequested: bool, ticketWait: Wait, boundaryWait: Wait,
                           ticketEvents: seq<Event>, boundaryEvents: seq<Event>)
  {
    predicate Valid() { ticketWait == WaitOf(ticketEvents) && boundaryWait == WaitOf(boundaryEvents) }

    function Events(boundary: bool): seq<Event> { if boundary then boundaryEvents else ticketEvents }
  }

  function PollOf(look: Look, epoch: nat, boundary: bool): Poll {
    Poll(look.now, epoch, if boundary then look.published else if look.deliveredEpoch == epoch then look.deliveredTicket else 0)
  }

  /** The destination has delivered this ticket of the epoch. */
  predicate Has(look: Look, epoch: nat, ticket: nat) { look.deliveredEpoch == epoch && ticket <= look.deliveredTicket }

  /** Something was achieved, or lost, between two looks: another epoch published, or a ticket of this one delivered. */
  ghost predicate Moved(a: Look, b: Look, epoch: nat, boundary: bool) {
    if boundary then a.published != b.published else exists t: nat :: 0 < t && Has(a, epoch, t) != Has(b, epoch, t)
  }

  lemma {:induction false} MovedExactly(a: Look, b: Look, epoch: nat, boundary: bool)
    ensures Moved(a, b, epoch, boundary) <==> PollOf(a, epoch, boundary).progress != PollOf(b, epoch, boundary).progress
  {
    var x, y := PollOf(a, epoch, false).progress, PollOf(b, epoch, false).progress;
    if x < y { assert Has(a, epoch, y) != Has(b, epoch, y); }
    if y < x { assert Has(a, epoch, x) != Has(b, epoch, x); }
  }

  /** A wait goes on from one look to the next exactly if nothing moved and the looks are close together; otherwise it
      starts afresh. */
  lemma {:induction false} WaitGoesOnExactly(w: Wait, a: Look, b: Look, epoch: nat, boundary: bool)
    ensures var waiting := Step(w, PollOf(a, epoch, boundary));
      Step(waiting, PollOf(b, epoch, boundary)).since ==
        if Moved(a, b, epoch, boundary) || b.now - a.now > POLL_GAP then Some(b.now) else waiting.since
  {
    MovedExactly(a, b, epoch, boundary);
  }

  /** The gate takes no further notice of a destination. */
  predicate Ignored(w: Worker, look: Look) {
    !w.primary && (w.isolated || look.status.Failed? || look.Resuming())
  }

  /** What one poll does to one destination. */
  predicate Polled(w: Worker, w': Worker, look: Look, epoch: nat, boundary: bool) {
    && w'.Valid() && w'.primary == w.primary && (w.isolated ==> w'.isolated) && (w.primary ==> w' == w)
    && w'.Events(!boundary) == w.Events(!boundary)
    && (!w.isolated && w'.isolated ==>
          && !w.primary && !look.delivered && !Ignored(w, look) && w'.stopRequested
          && Expired(WaitOf(w.Events(boundary)), PollOf(look, epoch, boundary)))
    && w'.Events(boundary) == w.Events(boundary) + (
          if w.primary || w.isolated || look.status.Failed? then []
          else if look.Resuming() then [Resumed]
          else if look.delivered then []
          else [Undelivered(PollOf(look, epoch, boundary))])
  }

  lemma {:induction false} WaitSnoc(events: seq<Event>, p: Poll)
    ensures WaitOf(events + [Undelivered(p)]) == Step(WaitOf(events), p)
    ensures WaitOf(events + [Resumed]) == WaitOf(events).(since := None)
  {
    assert (events + [Undelivered(p)])[..|events|] == events;
    assert (events + [Resumed])[..|events|] == events;
  }

  /** A destination lets the gate through. */
  predicate Passes(w: Worker, w': Worker, look: Look) {
    Ignored(w, look) || look.delivered || (!w.primary && w'.isolated)
  }

  method PollOne(w: Worker, look: Look, epoch: nat, boundary: bool) returns (w': Worker, pass: bool)
    requires w.Valid()
    ensures Polled(w, w', look, epoch, boundary) && pass == Passes(w, w', look)
    ensures !pass && !w.primary ==> !Expired(WaitOf(w.Events(boundary)), PollOf(look, epoch, boundary))
  {
    hide WaitOf;
    w' := w;
    var poll := PollOf(look, epoch, boundary);
    WaitSnoc(w.Events(boundary), poll);
    if !w.primary && (w.isolated || look.status.Failed?) { return w', true; }
    var events, wait := w.Events(boundary), if boundary then w.boundaryWait else w.ticketWait;
    if !w.primary && look.Resuming() {
      events, wait := events + [Resumed], wait.(since := None);
      w' := if boundary then w.(boundaryWait := wait, boundaryEvents := events) else w.(ticketWait := wait, ticketEvents := events);
      return w', true;
    }
    if look.delivered { return w', true; }
    if w.primary { return w', false; }
    if wait.since.None? || wait.epoch != epoch || wait.progress != poll.progress || look.now - wait.polled > POLL_GAP {
      wait := wait.(epoch := epoch, progress := poll.progress, since := Some(look.now));
    }
    wait, events := wait.(polled := look.now), events + [Undelivered(poll)];
    w' := if boundary then w.(boundaryWait := wait, boundaryEvents := events) else w.(ticketWait := wait, ticketEvents := events);
    if look.now - wait.since.value < STALL_LIMIT { return w', false; }
    w' := w'.(isolated := true, stopRequested := true);
    return w', true;
  }

  class MultiTargetSender {
    var workers: seq<Worker>

    predicate Valid()
      reads this
    {
      forall i :: 0 <= i < |workers| ==> workers[i].Valid()
    }

    constructor (primary: nat, count: nat)
      requires primary < count
      ensures Valid() && |workers| == count && forall i :: 0 <= i < count ==> workers[i].primary == (i == primary) && !workers[i].isolated
    {
      var all: seq<Worker> := [];
      var i := 0;
      while i < count
        invariant 0 <= i <= count && |all| == i
        invariant forall k :: 0 <= k < i ==> all[k].Valid() && all[k].primary == (k == primary) && !all[k].isolated
      {
        all := all + [Worker(i == primary, false, false, NO_WAIT, NO_WAIT, [], [])];
        i := i + 1;
      }
      workers := all;
    }

    /** delivery_ready: every destination is polled once; the gate opens if all of them let it through. */
    method DeliveryReady(looks: seq<Look>, epoch: nat, boundary: bool) returns (ready: bool)
      requires Valid() && |looks| == |workers|
      modifies this`workers
      ensures Valid() && |workers| == old(|workers|)
      ensures forall i :: 0 <= i < |workers| ==> Polled(old(workers)[i], workers[i], looks[i], epoch, boundary)
      ensures ready <==> workers != [] && forall i :: 0 <= i < |workers| ==> Passes(old(workers)[i], workers[i], looks[i])
      ensures forall i :: 0 <= i < |workers| && !workers[i].primary && !Passes(old(workers)[i], workers[i], looks[i]) ==>
        !Expired(WaitOf(old(workers)[i].Events(boundary)), PollOf(looks[i], epoch, boundary))
    {
      hide WaitOf, Polled, Passes;
      if workers == [] { return false; }
      ready := true;
      var done: seq<Worker> := [];
      while |done| < |workers|
        invariant |done| <= |workers|
        invariant forall i :: 0 <= i < |done| ==> done[i].Valid() && Polled(workers[i], done[i], looks[i], epoch, boundary)
        invariant ready <==> forall i :: 0 <= i < |done| ==> Passes(workers[i], done[i], looks[i])
        invariant forall i :: 0 <= i < |done| && !workers[i].primary && !Passes(workers[i], done[i], looks[i]) ==>
          !Expired(WaitOf(workers[i].Events(boundary)), PollOf(looks[i], epoch, boundary))
        modifies {}
      {
        var k := |done|;
        var w, pass := PollOne(workers[k], looks[k], epoch, boundary);
        PolledValid(workers[k], w, looks[k], epoch, boundary);
        done := done + [w];
        ready := ready && pass;
      }
      KeepsPrimaries(workers, done, looks, epoch, boundary);
      workers := done;
    }

    lemma {:induction false} PolledValid(w: Worker, w': Worker, look: Look, epoch: nat, boundary: bool)
      requires Polled(w, w', look, epoch, boundary)
      ensures w'.Valid() && w'.primary == w.primary
    {}

    lemma {:induction false} KeepsPrimaries(before: seq<Worker>, done: seq<Worker>, looks: seq<Look>, epoch: nat, boundary: bool)
      requires |before| == |done| == |looks| && forall i :: 0 <= i < |done| ==> Polled(before[i], done[i], looks[i], epoch, boundary)
      ensures forall i :: 0 <= i < |done| ==> done[i].primary == before[i].primary
    {}
  }

  /** The primary is never isolated, and a secondary only by a poll that ends a stall of a second. */
  lemma {:induction false} IsolatedOnlyByStall(w: Worker, w': Worker, look: Look, epoch: nat, boundary: bool)
    requires Polled(w, w', look, epoch, boundary) && !w.isolated && w'.isolated
    requires var e := w.Events(boundary);
      && (forall i, j :: 0 <= i < j < |e| && e[i].Undelivered? && e[j].Undelivered? ==> e[i].poll.now <= e[j].poll.now)
      && (forall i :: 0 <= i < |e| && e[i].Undelivered? ==> e[i].poll.now <= look.now)
    ensures !w.primary
    ensures exists k: nat :: Stalled(w'.Events(boundary), k) && look.now - w'.Events(boundary)[k].poll.now >= STALL_LIMIT
  {
    ExpiresExactly(w.Events(boundary), PollOf(look, epoch, boundary));
  }
}
