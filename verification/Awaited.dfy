/** What the coordinator waits for: batches that every consumer delivered, as far as their answers say. */
module Awaited {
  import opened Media
  import opened Timeline
  import opened Dispatcher
  import opened Plans

  /** A batch with sound that is no inserted silence. */
  predicate RealSound(b: Batch) {
    exists i :: 0 <= i < |b.items| && Sound(b.items[i]) && !b.items[i].packet.drain
  }

  predicate Audible(s: seq<Packet>) { exists i :: 0 <= i < |s| && s[i].kind.Audio? && !s[i].drain }

  predicate NoneSent(sent: seq<Batch>, epoch: nat) { forall k :: 0 <= k < |sent| ==> sent[k].epoch < epoch }

  /** Real sound went out in this epoch, */
  predicate SoundSent(sent: seq<Batch>, epoch: nat) {
    exists k :: 0 <= k < |sent| && sent[k].epoch == epoch && RealSound(sent[k])
  }

  /** and under this ticket; */
  predicate SoundUnder(sent: seq<Batch>, epoch: nat, ticket: nat) {
    exists k :: 0 <= k < |sent| && sent[k].epoch == epoch && sent[k].ticket == ticket && RealSound(sent[k])
  }

  /** everyone has got it, */
  predicate SoundHeard(sent: seq<Batch>, answers: seq<Answer>, epoch: nat) {
    exists k :: 0 <= k < |sent| && sent[k].epoch == epoch && RealSound(sent[k]) && Answer(epoch, sent[k].ticket, true) in answers
  }

  /** and everyone has got the last batch of this epoch. */
  predicate LastHeard(sent: seq<Batch>, answers: seq<Answer>, epoch: nat) {
    exists k :: 0 <= k < |sent| && sent[k].epoch == epoch && Answer(epoch, sent[k].ticket, true) in answers
      && forall i :: k < i < |sent| ==> epoch < sent[i].epoch
  }

  /** The last batch was an inserted frame of silence, in front of everything else in its epoch. */
  predicate DrainUnder(sent: seq<Batch>, epoch: nat, ticket: nat) {
    exists k :: 0 <= k < |sent| && sent[k].epoch == epoch && sent[k].ticket == ticket
      && (forall i :: 0 <= i < |sent[k].items| ==> sent[k].items[i].packet.drain)
      && (forall i :: 0 <= i < k ==> sent[i].epoch < epoch)
  }

  /** A paced holding scene: its drain opened the epoch; its guard is up until real sound of the scene was heard, and
      `holdingTicket` is the ticket of such sound as soon as there is any. */
  ghost predicate HoldingWatch(p: Pace, epoch: nat, sent: seq<Batch>, answers: seq<Answer>) {
    && (if p.drainRequired then p.drainTicket == 0 && p.drainAck.None? && NoneSent(sent, epoch) else DrainUnder(sent, epoch, p.drainTicket))
    && (p.drainAck.Some? ==> Answer(epoch, p.drainTicket, true) in answers)
    && (if p.holdingTicket == 0 then p.guardActive && !SoundSent(sent, epoch) else SoundUnder(sent, epoch, p.holdingTicket))
    && (!p.guardActive ==> SoundHeard(sent, answers, epoch))
  }

  /** A paced programme: `programmeTicket` is the ticket of its first real sound. */
  ghost predicate ProgrammeWatch(p: Pace, epoch: nat, sent: seq<Batch>, answers: seq<Answer>) {
    && (if p.boundarySent then p.programmeTicket != 0 && SoundUnder(sent, epoch, p.programmeTicket) else p.programmeTicket == 0 && !SoundSent(sent, epoch))
    && (p.boundaryDelivered ==> p.boundarySent && SoundHeard(sent, answers, epoch))
  }

  ghost predicate Watched(p: Pace, desired: Feed, selected: Option<Feed>, epoch: nat, sent: seq<Batch>, answers: seq<Answer>) {
    && (p.holding ==> HoldingWatch(p, epoch, sent, answers))
    && (p.programme ==> ProgrammeWatch(p, epoch, sent, answers))
    && (!p.programme && selected != Some(Programme) ==> p.programmeTicket == 0 && !p.boundarySent && !p.boundaryDelivered)
    && (desired.Programme? && selected.None? ==> NoneSent(sent, epoch))
  }

  /** Batches and answers only come in at the end; what is new belongs to this epoch. */
  predicate Onwards(sent: seq<Batch>, sent': seq<Batch>, answers: seq<Answer>, answers': seq<Answer>, epoch: nat) {
    && sent <= sent' && answers <= answers' && forall i :: |sent| <= i < |sent'| ==> sent'[i].epoch == epoch
  }

  lemma {:induction false} OnwardsSame(sent: seq<Batch>, answers: seq<Answer>, epoch: nat)
    ensures Onwards(sent, sent, answers, answers, epoch)
  {}

  lemma {:induction false} OnwardsTwice(sent: seq<Batch>, mid: seq<Batch>, sent': seq<Batch>, answers: seq<Answer>, heard: seq<Answer>,
                                        answers': seq<Answer>, epoch: nat)
    requires Onwards(sent, mid, answers, heard, epoch) && Onwards(mid, sent', heard, answers', epoch)
    ensures Onwards(sent, sent', answers, answers', epoch)
  {}

  lemma {:induction false} OnwardsKeeps(sent: seq<Batch>, sent': seq<Batch>, answers: seq<Answer>, answers': seq<Answer>, epoch: nat)
    requires Onwards(sent, sent', answers, answers', epoch)
    ensures sent <= sent' && answers <= answers'
  {}

  lemma {:induction false} OnwardsMore(sent: seq<Batch>, sent': seq<Batch>, answers: seq<Answer>, heard: seq<Answer>, answers': seq<Answer>, epoch: nat)
    requires Onwards(sent, sent', answers, heard, epoch) && heard <= answers'
    ensures Onwards(sent, sent', answers, answers', epoch)
  {}

  lemma {:induction false} OnwardsSent(sent: seq<Batch>, b: Batch, answers: seq<Answer>)
    ensures Onwards(sent, sent + [b], answers, answers, b.epoch)
  {}

  lemma {:induction false} OnwardsAnswered(sent: seq<Batch>, answers: seq<Answer>, a: Answer, epoch: nat)
    ensures Onwards(sent, sent, answers, answers + [a], epoch)
  {}

  /** What was heard stays heard. */
  lemma {:induction false} HeardOnwards(sent: seq<Batch>, sent': seq<Batch>, answers: seq<Answer>, answers': seq<Answer>, epoch: nat, later: nat)
    requires Onwards(sent, sent', answers, answers', later)
    ensures SoundHeard(sent, answers, epoch) ==> SoundHeard(sent', answers', epoch)
    ensures LastHeard(sent, answers, epoch) && (epoch < later || sent' == sent) ==> LastHeard(sent', answers', epoch)
    ensures forall ticket: nat :: Answer(epoch, ticket, true) in answers ==> Answer(epoch, ticket, true) in answers'
    ensures forall ticket: nat :: DrainUnder(sent, epoch, ticket) ==> DrainUnder(sent', epoch, ticket)
  {
    if SoundHeard(sent, answers, epoch) {
      var k :| 0 <= k < |sent| && sent[k].epoch == epoch && RealSound(sent[k]) && Answer(epoch, sent[k].ticket, true) in answers;
      assert sent'[k] == sent[k];
    }
    if LastHeard(sent, answers, epoch) && (epoch < later || sent' == sent) {
      var k :| 0 <= k < |sent| && sent[k].epoch == epoch && Answer(epoch, sent[k].ticket, true) in answers
        && forall i :: k < i < |sent| ==> epoch < sent[i].epoch;
      assert sent'[k] == sent[k] && forall i :: k < i < |sent'| ==> epoch < sent'[i].epoch;
    }
    forall ticket: nat | DrainUnder(sent, epoch, ticket) ensures DrainUnder(sent', epoch, ticket) { DrainOnwards(sent, sent', epoch, ticket); }
  }

  lemma {:induction false} DrainOnwards(sent: seq<Batch>, sent': seq<Batch>, epoch: nat, ticket: nat)
    requires DrainUnder(sent, epoch, ticket) && sent <= sent'
    ensures DrainUnder(sent', epoch, ticket)
  {
    var k :| 0 <= k < |sent| && sent[k].epoch == epoch && sent[k].ticket == ticket
      && (forall i :: 0 <= i < |sent[k].items| ==> sent[k].items[i].packet.drain) && (forall i :: 0 <= i < k ==> sent[i].epoch < epoch);
    assert sent'[k] == sent[k];
  }

  /** An answer that came in. */
  lemma {:induction false} WatchedAnswer(p: Pace, desired: Feed, selected: Option<Feed>, epoch: nat, sent: seq<Batch>, answers: seq<Answer>, a: Answer)
    requires Watched(p, desired, selected, epoch, sent, answers)
    ensures Watched(p, desired, selected, epoch, sent, answers + [a])
  {
    hide SoundHeard, DrainUnder, SoundUnder, SoundSent;
    OnwardsAnswered(sent, answers, a, epoch);
    HeardOnwards(sent, sent, answers, answers + [a], epoch, epoch);
  }

  lemma {:induction false} UnderHeard(sent: seq<Batch>, answers: seq<Answer>, epoch: nat, ticket: nat)
    requires SoundUnder(sent, epoch, ticket) && Answer(epoch, ticket, true) in answers
    ensures SoundHeard(sent, answers, epoch)
  {}

  /** What is noted of the answers. */
  lemma {:induction false} WatchedNote(p: Pace, p': Pace, desired: Feed, selected: Option<Feed>, epoch: nat, sent: seq<Batch>, answers: seq<Answer>)
    requires Watched(p, desired, selected, epoch, sent, answers)
    requires
      || (exists now :: p' == p.(drainAck := Some(now)) && !p.drainRequired && Answer(epoch, p.drainTicket, true) in answers)
      || (p' == p.(guardActive := false) && p.holdingTicket != 0 && Answer(epoch, p.holdingTicket, true) in answers)
      || (p' == p.(boundaryDelivered := true) && p.programme && p.boundarySent && Answer(epoch, p.programmeTicket, true) in answers)
    ensures Watched(p', desired, selected, epoch, sent, answers)
  {
    hide SoundHeard, DrainUnder, SoundUnder, SoundSent;
    if p.holding && p' == p.(guardActive := false) && p.holdingTicket != 0 && Answer(epoch, p.holdingTicket, true) in answers {
      UnderHeard(sent, answers, epoch, p.holdingTicket);
    }
    if p.programme && p' == p.(boundaryDelivered := true) && p.boundarySent && Answer(epoch, p.programmeTicket, true) in answers {
      UnderHeard(sent, answers, epoch, p.programmeTicket);
    }
  }

  // A batch goes out.

  lemma {:induction false} RealSoundOf(b: Batch, feed: Feed, packets: seq<Packet>)
    requires b.items == Label(feed, packets)
    ensures RealSound(b) <==> Audible(packets)
  {
    if Audible(packets) {
      var i :| 0 <= i < |packets| && packets[i].kind.Audio? && !packets[i].drain;
      assert Sound(b.items[i]);
    }
    if RealSound(b) {
      var i :| 0 <= i < |b.items| && Sound(b.items[i]) && !b.items[i].packet.drain;
      assert packets[i].kind.Audio?;
    }
  }

  lemma {:induction false} SentSound(sent: seq<Batch>, b: Batch, epoch: nat, answers: seq<Answer>)
    requires b.epoch == epoch
    ensures SoundSent(sent + [b], epoch) <==> SoundSent(sent, epoch) || RealSound(b)
    ensures forall t: nat :: SoundUnder(sent, epoch, t) ==> SoundUnder(sent + [b], epoch, t)
    ensures RealSound(b) ==> SoundUnder(sent + [b], epoch, b.ticket)
    ensures forall t: nat :: DrainUnder(sent, epoch, t) ==> DrainUnder(sent + [b], epoch, t)
    ensures SoundHeard(sent, answers, epoch) ==> SoundHeard(sent + [b], answers, epoch)
  {
    hide RealSound, DrainUnder;
    var all := sent + [b];
    assert forall k :: 0 <= k < |sent| ==> all[k] == sent[k];
    assert all[|sent|] == b;
    OnwardsSent(sent, b, answers);
    HeardOnwards(sent, all, answers, answers, epoch, epoch);
    SoundSentSnoc(sent, b, epoch);
    forall t: nat | SoundUnder(sent, epoch, t) ensures SoundUnder(all, epoch, t) {
      var k :| 0 <= k < |sent| && sent[k].epoch == epoch && sent[k].ticket == t && RealSound(sent[k]);
      assert all[k] == sent[k];
    }
  }

  lemma {:induction false} SoundSentSnoc(sent: seq<Batch>, b: Batch, epoch: nat)
    requires b.epoch == epoch
    ensures SoundSent(sent + [b], epoch) <==> SoundSent(sent, epoch) || RealSound(b)
  {
    hide RealSound;
    var all := sent + [b];
    if SoundSent(all, epoch) && !RealSound(b) {
      var k :| 0 <= k < |all| && all[k].epoch == epoch && RealSound(all[k]);
      assert all[k] == sent[k];
    }
    if SoundSent(sent, epoch) {
      var k :| 0 <= k < |sent| && sent[k].epoch == epoch && RealSound(sent[k]);
      assert all[k] == sent[k];
    }
    assert all[|sent|] == b;
  }

  /** Due packets of a paced feed. */
  lemma {:induction false} WatchedDue(p: Pace, p': Pace, desired: Feed, selected: Option<Feed>, sent: seq<Batch>, answers: seq<Answer>, b: Batch)
    requires Watched(p, desired, selected, b.epoch, sent, answers) && selected.Some? && !p.drainRequired && 0 < b.ticket
    requires p.holding ==> !p.programme && p' == if p.holdingTicket == 0 && RealSound(b) then p.(holdingTicket := b.ticket) else p
    requires p.programme ==>
      var heard := p.boundarySent || RealSound(b);
      p' == p.(boundarySent := heard, programmeTicket := if heard && p.programmeTicket == 0 then b.ticket else p.programmeTicket)
    requires p.holding || p.programme
    ensures Watched(p', desired, selected, b.epoch, sent + [b], answers)
  {
    hide RealSound, SoundSent, SoundUnder, SoundHeard, DrainUnder;
    SentSound(sent, b, b.epoch, answers);
  }

  /** A batch that goes out at once. */
  lemma {:induction false} WatchedUnpaced(p: Pace, desired: Feed, selected: Option<Feed>, sent: seq<Batch>, answers: seq<Answer>, b: Batch)
    requires Watched(p, desired, selected, b.epoch, sent, answers) && !p.holding && !p.programme
    requires selected.Some? ==> selected.value == desired
    ensures Watched(p, desired, Some(desired), b.epoch, sent + [b], answers)
  {
    hide RealSound, SoundSent, SoundUnder, SoundHeard, DrainUnder;
  }

  /** The drain of a paced holding scene. */
  lemma {:induction false} WatchedDrain(p: Pace, p': Pace, desired: Feed, sent: seq<Batch>, answers: seq<Answer>, b: Batch)
    requires Watched(p, desired, None, b.epoch, sent, answers) && p.holding && p.drainRequired && !p.programme && desired.Holding?
    requires p' == p.(drainRequired := false, drainTime := p'.drainTime, drainTicket := b.ticket)
    requires forall i :: 0 <= i < |b.items| ==> b.items[i].packet.drain
    ensures Watched(p', desired, None, b.epoch, sent + [b], answers)
  {
    hide SoundUnder, SoundHeard;
    SoundSentSnoc(sent, b, b.epoch);
    var all := sent + [b];
    assert all[|sent|] == b && !RealSound(b);
    assert forall i :: 0 <= i < |sent| ==> all[i] == sent[i] && all[i].epoch < b.epoch;
    assert DrainUnder(all, b.epoch, b.ticket);
    NothingSent(sent, b.epoch);
  }

  lemma {:induction false} NothingSent(sent: seq<Batch>, epoch: nat)
    requires NoneSent(sent, epoch)
    ensures !SoundSent(sent, epoch) && forall t: nat :: !SoundUnder(sent, epoch, t)
    ensures forall answers :: !SoundHeard(sent, answers, epoch)
  {}

  /** A feed is selected, and its first batch waits in the queue. */
  lemma {:induction false} WatchedQueued(p: Pace, p': Pace, desired: Feed, selected: Option<Feed>, epoch: nat, sent: seq<Batch>, answers: seq<Answer>)
    requires Watched(p, desired, selected, epoch, sent, answers) && (p.programme ==> selected == Some(Programme))
    requires selected.Some? ==> selected.value == desired
    requires if desired.Holding? then p' == p && p.holding else
      (p' == p && p.programme) || (selected.None? && !p.holding && !p.programme &&
        p' == p.(programme := true, boundarySent := false, resumeOrigin := p'.resumeOrigin, resumeTime := p'.resumeTime))
    ensures Watched(p', desired, Some(desired), epoch, sent, answers)
  {
    hide SoundUnder, SoundHeard, DrainUnder, SoundSent;
    if selected.None? && desired.Programme? { NothingSent(sent, epoch); }
  }

  /** A new epoch with a fresh plan. */
  lemma {:induction false} WatchedAfresh(p: Pace, desired: Feed, epoch: nat, sent: seq<Batch>, answers: seq<Answer>)
    requires NoneSent(sent, epoch) && p.holdingTicket == 0 && p.programmeTicket == 0 && p.drainTicket == 0 && p.drainAck.None?
    requires !p.programme && !p.boundarySent && !p.boundaryDelivered
    requires p.holding ==> p.drainRequired && p.guardActive
    ensures Watched(p, desired, None, epoch, sent, answers)
  {
    NothingSent(sent, epoch);
  }

  /** The programme takes over in an epoch of its own. */
  lemma {:induction false} WatchedSwitch(p: Pace, selected: Option<Feed>, epoch: nat, epoch': nat, sent: seq<Batch>, answers: seq<Answer>)
    requires Watched(p, Holding, selected, epoch, sent, answers) && !p.holding && !p.programme && selected != Some(Programme)
    requires NoneSent(sent, epoch')
    ensures Watched(p, Programme, None, epoch', sent, answers)
  {}

  lemma {:induction false} WatchedEnd(p: Pace, p': Pace, desired: Feed, selected: Option<Feed>, epoch: nat, sent: seq<Batch>, answers: seq<Answer>)
    requires Watched(p, desired, selected, epoch, sent, answers)
    requires p' == p.(holding := false) || (p' == p.(programme := false) && selected == Some(Programme))
    ensures Watched(p', desired, selected, epoch, sent, answers)
  {
    hide SoundUnder, SoundHeard, DrainUnder, SoundSent;
  }

  /** Nothing newer was sent: an answer to the last ticket is an answer to the last batch. */
  lemma {:induction false} LastIsHeard(sent: seq<Batch>, answers: seq<Answer>, epoch: nat, ticket: nat)
    requires sent != [] && sent[|sent| - 1].epoch == epoch && sent[|sent| - 1].ticket == ticket && Answer(epoch, ticket, true) in answers
    ensures LastHeard(sent, answers, epoch)
  {}

  /** The answer was no, since `before`. */
  predicate Denied(before: seq<Answer>, answers: seq<Answer>, epoch: nat, ticket: nat) {
    exists i :: |before| <= i < |answers| && answers[i] == Answer(epoch, ticket, false)
  }

  lemma {:induction false} DeniedLast(before: seq<Answer>, a: Answer)
    requires !a.yes
    ensures Denied(before, before + [a], a.epoch, a.ticket)
  {
    assert (before + [a])[|before|] == a;
  }

  lemma {:induction false} DeniedNow(before: seq<Answer>, answers: seq<Answer>, a: Answer)
    requires before <= answers && !a.yes
    ensures Denied(before, answers + [a], a.epoch, a.ticket)
  {
    assert (answers + [a])[|answers|] == a;
  }

  lemma {:induction false} DeniedOnwards(before: seq<Answer>, answers: seq<Answer>, answers': seq<Answer>, epoch: nat, ticket: nat)
    requires answers <= answers' && Denied(before, answers, epoch, ticket)
    ensures Denied(before, answers', epoch, ticket)
  {}
}
