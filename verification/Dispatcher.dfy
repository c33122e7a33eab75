/** The dispatcher as the coordinator sees it: a publication floor that other threads may raise between any two reads,
    and the list of batches handed to it. */
module Dispatcher {
  import opened Media
  import opened Timeline

  const EPOCH_MAX: nat := 0xffff_ffff_ffff_ffff

  datatype Batch = Batch(epoch: nat, items: seq<Item>, headers: Option<CodecHeaders>, ticket: nat)

  /** What the consumers answered when asked whether they delivered the batch with this ticket. */
  datatype Answer = Answer(epoch: nat, ticket: nat, yes: bool)

  function Items(sent: seq<Batch>): seq<Item> {
    if sent == [] then [] else Items(sent[..|sent| - 1]) + sent[|sent| - 1].items
  }

  lemma {:induction false} ItemsSnoc(sent: seq<Batch>, b: Batch)
    ensures Items(sent + [b]) == Items(sent) + b.items
  {
    assert (sent + [b])[..|sent|] == sent;
  }

  /** Epochs never go back, and the first batch of every epoch carries codec headers. */
  ghost predicate EpochsOpenWithHeaders(sent: seq<Batch>) {
    && (forall i, j :: 0 <= i < j < |sent| ==> sent[i].epoch <= sent[j].epoch)
    && (sent != [] ==> sent[0].headers.Some?)
    && (forall i, j :: 0 <= i < |sent| && 0 <= j < |sent| && j == i + 1 && sent[i].epoch != sent[j].epoch ==> sent[j].headers.Some?)
  }

  lemma {:induction false} EpochsSnoc(sent: seq<Batch>, b: Batch)
    requires EpochsOpenWithHeaders(sent)
    requires forall i :: 0 <= i < |sent| ==> sent[i].epoch <= b.epoch
    requires b.headers.Some? || (sent != [] && sent[|sent| - 1].epoch == b.epoch)
    ensures EpochsOpenWithHeaders(sent + [b])
  {
    var all := sent + [b];
    assert all[0] == if sent == [] then b else sent[0];
    assert forall i :: 0 <= i < |sent| ==> all[i] == sent[i];
  }

  /** Tickets rise from batch to batch, the last one given is on the last batch, and no batch is empty. */
  predicate Ticketed(sent: seq<Batch>, last: nat) {
    && (forall i :: 0 <= i < |sent| ==> 0 < sent[i].ticket <= last && sent[i].items != [])
    && (forall i, j :: 0 <= i < j < |sent| ==> sent[i].ticket < sent[j].ticket)
    && (sent != [] ==> sent[|sent| - 1].ticket == last)
  }

  lemma {:induction false} NoTickets()
    ensures Ticketed([], 0)
  {}

  lemma {:induction false} TicketedSnoc(sent: seq<Batch>, last: nat, b: Batch)
    requires Ticketed(sent, last) && b.ticket == last + 1 && b.items != []
    ensures Ticketed(sent + [b], last + 1)
  {
    var all := sent + [b];
    assert forall i :: 0 <= i < |sent| ==> all[i] == sent[i];
  }

  class ReleasedPacketDispatcher {
    var floor: nat
    ghost var sent: seq<Batch>
    ghost var answers: seq<Answer>
    ghost var reported: bool        // a consumer failed

    constructor ()
      ensures floor == 0 && sent == [] && answers == [] && !reported
    {
      floor := 0;
      sent, answers, reported := [], [], false;
    }

    /** Any other thread may reserve epochs here. */
    method Interfere()
      modifies this`floor
      ensures old(floor) <= floor
    {
      var raise: nat :| true;
      floor := floor + raise;
    }

    method PublicationEpoch() returns (e: nat)
      modifies this`floor
      ensures old(floor) <= e <= floor
    {
      Interfere();
      e := floor;
      Interfere();
    }

    /** A fresh epoch above the floor and above `after`; None when the counter is exhausted. */
    method ReserveEpoch(after: nat) returns (e: Option<nat>)
      modifies this`floor
      ensures old(floor) <= floor
      ensures e.Some? ==> old(floor) < e.value <= floor && after < e.value
      ensures e.None? ==> EPOCH_MAX <= Max(floor, after)
    {
      Interfere();
      var base := Max(floor, after);
      if base >= EPOCH_MAX { return None; }
      floor := base + 1;
      e := Some(floor);
      Interfere();
    }

    /** Moves the floor from `expected` to the next epoch, or does nothing; None when the counter is exhausted. */
    method AdvanceEpoch(expected: nat) returns (done: Option<bool>)
      modifies this`floor
      ensures old(floor) <= floor
      ensures done.None? <==> EPOCH_MAX <= expected
      ensures done == Some(true) ==> old(floor) <= expected < floor
      ensures done == Some(false) ==> old(floor) < expected || expected < floor
    {
      if expected >= EPOCH_MAX { return None; }
      Interfere();
      if floor == expected {
        floor := floor + 1;
        done := Some(true);
      } else {
        done := Some(false);
      }
      Interfere();
    }

    /** Hands a batch to the consumers still behind the floor; true if one of them failed. */
    method Dispatch(batch: Batch) returns (failed: bool)
      modifies this`floor, this`sent, this`reported
      ensures old(floor) <= floor
      ensures sent == old(sent) + [batch] && reported == (old(reported) || failed)
    {
      sent := sent + [batch];
      Interfere();
      failed := *;
      reported := reported || failed;
    }

    method DispatchDiscontinuity(epoch: nat) returns (failed: bool)
      modifies this`floor, this`reported
      ensures Max(old(floor), epoch) <= floor && reported == (old(reported) || failed)
    {
      floor := Max(floor, epoch);
      Interfere();
      failed := *;
      reported := reported || failed;
    }

    method Delivered(epoch: nat, ticket: nat) returns (b: bool)
      modifies this`floor, this`answers
      ensures old(floor) <= floor && answers == old(answers) + [Answer(epoch, ticket, b)]
    {
      var e := PublicationEpoch();
      b := *;
      b := b && e == epoch;
      answers := answers + [Answer(epoch, ticket, b)];
    }
  }
}
