/** The sender of one destination. Every method is one atomic step: a section under the sender's mutex, or the pop from the
    queue. Producers may call theirs at any time; a step of the worker is enabled by its place in the loop, so that any
    order of calls is a run of the two threads. */
module RtmpSender {
  import opened Media
  import opened SenderQueue
  import opened SenderState
  import Steps = SenderSteps
  import opened SenderProofs
  import opened SenderIntake
  import opened SenderCongestion
  import Overtaking

  class RtmpSender {
    const queue: BoundedSenderQueue
    var shared: Shared
    var worker: Worker
    var ledger: Ledger                // labels for the proofs
    ghost var conn: seq<Entry>        // writes begun on the current connection
    ghost var past: seq<seq<Entry>>   // and on each earlier one

    ghost function State(): View
      reads this, queue
    {
      View(shared, queue.tags, worker, conn, ledger)
    }

    ghost function Limits(): Room
      reads queue`closed
    {
      Room(queue.maxTags, queue.maxBytes, queue.closed)
    }

    /** On every connection of an orderly session, video went out in GOP prefixes. */
    ghost predicate Valid()
      reads this, queue
    {
      && queue.Valid() && Inv(State())
      && (ledger.orderly ==> forall i :: 0 <= i < |past| ==> GopPrefixes(past[i]))
    }

    /** start: the worker is about to connect, with the codec headers of the session. */
    constructor (queue: BoundedSenderQueue, headers: seq<Tag>)
      requires queue.Valid() && queue.tags == [] && headers != []
      ensures Valid() && this.queue == queue && State() == Started(headers)
    {
      this.queue := queue;
      shared := Shared(0, 0, 0, 0, 0, 0, 0, false, false, false, false, headers, 0, 0, Starting, false);
      worker := Worker(ConnectDue(true), true, 0, 0);
      ledger := Ledger(0, 0, 0, true, 0, true);
      conn, past := [], [];
      new;
      StartedKeeps(headers);
    }

    // The worker: one method for each section under the mutex.

    method BeginConnect(timedOut: bool)
      requires Valid() && worker.pc.ConnectDue?
      modifies this`shared, this`worker, this`ledger
      ensures Valid() && State() == Steps.BeginConnect(old(State()), timedOut)
    {
      hide Inv, GopPrefixes;
      BeginConnectKeeps(State(), timedOut);
      var boot := worker.pc.boot;
      if shared.stop || timedOut {
        worker := worker.(pc := if boot then Lost else CancelDue(false));
        return;
      }
      shared := shared.(writing := true);
      worker := worker.(pc := Connecting(boot));
      ledger := ledger.(entry := shared.epoch);
    }

    method EndConnect(ok: bool)
      requires Valid() && worker.pc.Connecting?
      modifies this`shared, this`worker, this`conn, this`past
      ensures Valid() && State() == Steps.EndConnect(old(State()), ok)
    {
      hide Inv, GopPrefixes;
      EndConnectKeeps(State(), ok);
      GopOf(State());
      var boot := worker.pc.boot;
      shared := shared.(writing := false, acknowledged := shared.epoch);
      if ok {
        shared := shared.(cancelled := false);
        past, conn := past + [conn], [];
        worker := worker.(pc := Sending(FileHeader, boot));
      } else {
        worker := worker.(pc := if boot then Lost else CancelDue(false));
      }
    }

    method ReadConnectHeaders()
      requires Valid() && worker.pc.ReadHeaders?
      modifies this`worker
      ensures Valid() && State() == Steps.ReadConnectHeaders(old(State()))
    {
      hide Inv, GopPrefixes;
      ReadConnectHeadersKeeps(State());
      var boot := worker.pc.boot;
      var headers := Steps.SetEpoch(shared.headers, shared.epoch);
      worker := worker.(pc := if headers == [] then SetPrimed(boot, shared.revision)
                              else Sending(ConnectHeader(headers, shared.revision), boot));
    }

    method PrimeConnection()
      requires Valid() && worker.pc.SetPrimed?
      modifies this`shared, this`worker
      ensures Valid() && State() == Steps.PrimeConnection(old(State()))
    {
      hide Inv, GopPrefixes;
      PrimeConnectionKeeps(State());
      shared := shared.(primed := worker.pc.revision);
      worker := worker.(pc := Connected);
    }

    method EnterLoop(timedOut: bool)
      requires Valid() && worker.pc.Connected?
      modifies this`shared, this`worker
      ensures Valid() && State() == Steps.EnterLoop(old(State()), timedOut)
    {
      hide Inv, GopPrefixes;
      EnterLoopKeeps(State(), timedOut);
      if !shared.stop { shared := shared.(status := Running); }
      shared := shared.(resume := false);
      worker := worker.(pc := if timedOut then CloseDue(AtEnd, false) else Idle, awaiting := true);
    }

    method BeginSend()
      requires Valid() && worker.pc.Sending?
      modifies this`shared, this`worker, this`conn, this`ledger
      ensures Valid() && State() == Steps.BeginSend(old(State()))
    {
      hide Inv, GopPrefixes;
      BeginSendKeeps(State());
      SendingJob(State());
      var job, boot := worker.pc.job, worker.pc.boot;
      var wanted := Steps.JobEpoch(job);
      if (wanted.Some? && wanted.value != shared.epoch) || shared.stop {
        worker := worker.(pc := Steps.After(job, boot));
        return;
      }
      shared := shared.(writing := true);
      conn := conn + Steps.EntryOf(job);
      worker := worker.(pc := Writing(job, boot));
      ledger := ledger.(entry := shared.epoch);
    }

    method EndSend(ok: bool)
      requires Valid() && worker.pc.Writing?
      modifies this`shared, this`worker
      ensures Valid() && State() == Steps.EndSend(old(State()), ok)
    {
      hide Inv, GopPrefixes;
      EndSendKeeps(State(), ok);
      SendingJob(State());
      var job, boot := worker.pc.job, worker.pc.boot;
      shared := shared.(writing := false, acknowledged := shared.epoch);
      if ok { shared := shared.(cancelled := false); }
      worker := worker.(pc := if ok then Steps.After(job, boot) else Steps.Failing(job, boot));
    }

    method CheckEpoch()
      requires Valid() && worker.pc.Popped?
      modifies this`worker
      ensures Valid() && State() == Steps.CheckEpoch(old(State()))
    {
      hide Inv, GopPrefixes;
      CheckEpochKeeps(State());
      var x := worker.pc.tag;
      if x.epoch != shared.epoch {
        worker := worker.(pc := Idle);
        return;
      }
      if worker.mediaEpoch != x.epoch { worker := worker.(mediaEpoch := x.epoch, awaiting := true); }
      worker := worker.(pc := Priming(x));
    }

    method ReadLoopHeaders()
      requires Valid() && worker.pc.Priming?
      modifies this`worker
      ensures Valid() && State() == Steps.ReadLoopHeaders(old(State()))
    {
      hide Inv, GopPrefixes;
      ReadLoopHeadersKeeps(State());
      var x := worker.pc.tag;
      var headers := if shared.primed != shared.revision then Steps.SetEpoch(shared.headers, x.epoch) else [];
      worker := worker.(pc := if headers == [] then Confirm(x, shared.revision) else Sending(LoopHeader(x, headers, shared.revision), false));
    }

    method Select()
      requires Valid() && worker.pc.Confirm?
      modifies this`shared, this`worker
      ensures Valid() && State() == Steps.Select(old(State()))
    {
      hide Inv, GopPrefixes;
      SelectKeeps(State());
      var x := worker.pc.tag;
      if x.epoch != shared.epoch {
        worker := worker.(pc := Idle);
        return;
      }
      shared := shared.(primed := worker.pc.revision);
      var send := Sending(Media(x), false);
      if x.codecHeader {
        worker := worker.(pc := send);
      } else if x.drain {
        worker := worker.(pc := if x.kind.Audio? then send else CloseDue(AtEnd, false));
      } else {
        if worker.awaiting {
          if !(x.kind.Video? && x.keyframe) {
            worker := worker.(pc := Idle);
            return;
          }
          worker := worker.(awaiting := false, cutoff := x.time);
        }
        worker := worker.(pc := if x.kind.Audio? && x.time < worker.cutoff then Idle else send);
      }
    }

    method Acknowledge()
      requires Valid() && worker.pc.Delivered?
      modifies this`shared, this`worker
      ensures Valid() && State() == Steps.Acknowledge(old(State()))
    {
      hide Inv, GopPrefixes;
      AcknowledgeKeeps(State());
      var x := worker.pc.tag;
      if x.ticket > 0 && x.epoch == shared.epoch && !shared.stop {
        shared := shared.(deliveredEpoch := x.epoch, deliveredTicket := x.ticket);
      }
      worker := worker.(pc := Publishing(x));
    }

    method Publish()
      requires Valid() && worker.pc.Publishing?
      modifies this`shared, this`worker
      ensures Valid() && State() == Steps.Publish(old(State()))
    {
      hide Inv, GopPrefixes;
      PublishKeeps(State());
      var x := worker.pc.tag;
      if x.MediaAudio() && x.epoch == shared.epoch && !worker.awaiting { shared := shared.(published := x.epoch); }
      worker := worker.(pc := Idle);
    }

    method Reconnect()
      requires Valid() && worker.pc.Lost?
      modifies this`shared, this`worker, queue`tags, queue`bytes
      ensures Valid() && State() == Steps.Reconnect(old(State()))
    {
      hide Inv, GopPrefixes;
      ReconnectKeeps(State());
      if !shared.stop { shared := shared.(status := Reconnecting); }
      shared := shared.(published := 0, deliveredEpoch := 0, deliveredTicket := 0, resume := shared.cancelled);
      if !shared.resume {
        queue.DiscardPending();
        shared := Steps.AcknowledgeDropped(shared);
      }
      worker := worker.(pc := CloseDue(AfterLoss, false));
    }

    method BeginClose()
      requires Valid() && worker.pc.CloseDue?
      modifies this`shared, this`worker, this`ledger
      ensures Valid() && State() == Steps.BeginClose(old(State()))
    {
      hide Inv, GopPrefixes;
      BeginCloseKeeps(State());
      shared := shared.(writing := true);
      worker := worker.(pc := Closing(worker.pc.next, worker.pc.boot));
      ledger := ledger.(entry := shared.epoch);
    }

    method EndClose()
      requires Valid() && worker.pc.Closing?
      modifies this`shared, this`worker, queue`tags, queue`bytes, queue`closed
      ensures Valid() && State() == Steps.EndClose(old(State()))
    {
      hide Inv, GopPrefixes;
      EndCloseKeeps(State());
      var next, boot := worker.pc.next, worker.pc.boot;
      shared := shared.(writing := false, acknowledged := shared.epoch);
      match next {
        case AfterPrime =>
          worker := worker.(pc := if boot then Lost else CancelDue(false));
        case AfterLoss =>
          worker := worker.(pc := CancelDue(true));
        case AtEnd =>
          if !shared.stop { shared := shared.(status := Failed); }
          queue.Close();
          worker := worker.(pc := Dead);
      }
    }

    method TakeCancellation()
      requires Valid() && worker.pc.CancelDue?
      modifies this`shared, this`worker
      ensures Valid() && State() == Steps.TakeCancellation(old(State()))
    {
      hide Inv, GopPrefixes;
      TakeCancellationKeeps(State());
      var cut, first := shared.cancelled, worker.pc.first;
      shared := shared.(cancelled := false);
      worker := worker.(pc := if cut then ReplaceDue else if first then RetryDue else ResumeEnd(true, false));
    }

    method Replace(ok: bool)
      requires Valid() && worker.pc.ReplaceDue?
      modifies this`worker
      ensures Valid() && State() == Steps.Replace(old(State()), ok)
    {
      hide Inv, GopPrefixes;
      ReplaceKeeps(State(), ok);
      worker := worker.(pc := if ok || shared.stop then RetryDue else ResumeEnd(true, true));
    }

    method EndResume()
      requires Valid() && worker.pc.ResumeEnd?
      modifies this`shared, this`worker, queue`tags, queue`bytes
      ensures Valid() && State() == Steps.EndResume(old(State()))
    {
      hide Inv, GopPrefixes;
      EndResumeKeeps(State());
      if shared.resume && worker.pc.discard {
        queue.DiscardPending();
        shared := Steps.AcknowledgeDropped(shared);
      }
      shared := shared.(resume := false);
      worker := worker.(pc := if worker.pc.last then CloseDue(AtEnd, false) else RetryDue);
    }

    method RetryConnect(exhausted: bool)
      requires Valid() && worker.pc.RetryDue?
      modifies this`shared, this`worker
      ensures Valid() && State() == Steps.Retry(old(State()), exhausted)
    {
      hide Inv, GopPrefixes;
      RetryKeeps(State(), exhausted);
      if exhausted || shared.stop {
        worker := worker.(pc := ResumeEnd(false, true));
        return;
      }
      shared := shared.(status := Reconnecting);
      worker := worker.(pc := ConnectDue(false));
    }

    // Other threads.

    method InvalidateEpoch(epoch: nat)
      requires Valid()
      modifies this`shared, this`ledger, queue`tags, queue`bytes
      ensures Valid() && State() == Steps.Invalidate(old(State()), epoch)
    {
      hide Inv, GopPrefixes;
      InvalidateKeeps(State(), epoch);
      if epoch <= shared.epoch { return; }
      shared := shared.(epoch := epoch, enqueued := 0, carried := 0, dropVideo := false);
      queue.DiscardPending();
      shared := shared.(headers := [], revision := shared.revision + 1);
      if shared.writing {
        shared := shared.(cancelled := true);
      } else {
        shared := shared.(acknowledged := epoch);
      }
      ledger := ledger.(frames := 0, headed := false);
    }

    method RequestStop()
      requires Valid()
      modifies this`shared, queue`tags, queue`bytes, queue`closed
      ensures Valid() && State() == Steps.Stop(old(State())) && queue.closed
    {
      hide Inv, GopPrefixes;
      StopKeeps(State());
      shared := shared.(stop := true, status := Stopping);
      queue.Close();
    }

    /** enqueue_epoch: stale media is ignored, and media of an unconnected destination is dropped and counts as delivered.
        Otherwise the batch is queued behind what is pending, thinned only as far as congestion before it demands. Queued
        video is shed if the batch is three seconds late, or else does not fit; then the video queued is that of the batch
        from its first key picture on. Sound, guards and tickets stay in any case, and the batch is refused only if not even
        that fits. The worker may pop between any two uses of the queue. Acknowledgements of an epoch become inexact only by
        a batch without a key picture that ends in media video behind two other tags. */
    method EnqueueEpoch(tags: seq<Tag>, epoch: nat, headers: seq<Tag>) returns (ok: bool, ghost shed: bool)
      requires Valid()
      modifies this`shared, this`worker, this`ledger, queue`tags, queue`bytes
      ensures Valid() && queue.closed == old(queue.closed)
      ensures shared.epoch == NatMax(epoch, old(shared.epoch))
      ensures epoch < old(shared.epoch) ==> ok && State() == old(State())
      ensures epoch >= old(shared.epoch) && Waiting(old(shared)) ==>
        && ok && (shared.enqueued != 0 ==> Level(shared) == shared.enqueued)
        && State() == DropIncoming(Admit(old(State()), tags, epoch, headers), ledger.frames)
      ensures epoch >= old(shared.epoch) && !Waiting(old(shared)) && !Accepting(old(shared)) ==>
        !ok && State() == Refuse(Admit(old(State()), tags, epoch, headers))
      ensures epoch >= old(shared.epoch) && Accepting(old(shared)) ==>
        var admitted := Admit(old(State()), tags, epoch, headers);
        Queues(admitted, State(), Numbered(tags, epoch, MaxTicket(tags), admitted.g.frames), ok, shed, Limits())
      ensures !ok ==> !ledger.orderly && epoch >= old(shared.epoch)
      ensures ledger.orderly && ledger.exactFrom != old(ledger.exactFrom) ==> Overtaking.Risky(tags)
    {
      hide Inv, GopPrefixes, Ready, OneBatch, Overtaking.TicketLast, Overtaking.Risky, Sounds, Numbered, Pending, GoodBatch, MaxTicket, VideoCount, Admit, DropIncoming, Queues;
      shed := false;
      if epoch < shared.epoch { return true, shed; }
      AdmitSame(State(), tags, epoch, headers);
      var batch, frames := AdmitBatch(tags, epoch, headers);
      if Waiting(shared) {
        DropLevel(State(), frames);
        DropBatch(frames);
        return true, shed;
      }
      if !Accepting(shared) {
        RefuseKeeps(State());
        ledger := ledger.(orderly := false);
        return false, shed;
      }
      RiskyNumbered(tags, epoch, MaxTicket(tags), ledger.frames);
      ok, shed := QueueBatch(batch, frames, MaxTicket(tags));
    }

    lemma {:induction false} AdmitSame(v: View, tags: seq<Tag>, epoch: nat, headers: seq<Tag>)
      ensures var u := Admit(v, tags, epoch, headers);
        && Pending(u) == Pending(v) && u.s.epoch == epoch && u.q == v.q && u.g.exactFrom == v.g.exactFrom
        && u.s.status == v.s.status && u.s.resume == v.s.resume
        && u.g.frames == if epoch == v.s.epoch then v.g.frames else 0
    {}

    lemma {:induction false} DropLevel(v: View, frames: int)
      ensures var u := DropIncoming(v, frames);
        && u.s.epoch == v.s.epoch && u.s.status == v.s.status && u.s.resume == v.s.resume && u.s.enqueued == v.s.enqueued
        && u.g.frames == frames && (u.s.enqueued != 0 ==> Level(u.s) == u.s.enqueued) && u.g.exactFrom == v.g.exactFrom
    {}

    /** The batch makes its epoch current; its tags are labelled. */
    method AdmitBatch(tags: seq<Tag>, epoch: nat, headers: seq<Tag>) returns (batch: seq<Tag>, frames: int)
      requires Valid() && shared.epoch <= epoch
      modifies this`shared, this`ledger
      ensures Valid() && State() == Admit(old(State()), tags, epoch, headers)
      ensures batch == Numbered(tags, epoch, MaxTicket(tags), ledger.frames) && frames == ledger.frames + VideoCount(tags)
      ensures Ready(State(), batch, frames)
      ensures ledger.orderly ==> Overtaking.TicketLast(batch, MaxTicket(tags))
    {
      hide Inv, GopPrefixes, Ready, OneBatch, Overtaking.TicketLast, Overtaking.Risky, GoodBatch, MaxTicket, VideoCount, Numbered;
      AdmitKeeps(State(), tags, epoch, headers);
      AdmitReady(State(), tags, epoch, headers);
      var turned := epoch != shared.epoch;
      var start := if turned then 0 else ledger.frames;
      AdmittedOnce(tags, ledger.last, epoch, start);
      var enqueued;
      batch, frames, enqueued := LabelTags(tags, epoch, start, if turned then 0 else shared.enqueued);
      var s := if turned then shared.(epoch := epoch, carried := 0, dropVideo := false) else shared;
      if headers != [] { s := s.(headers := headers, revision := s.revision + 1); }
      shared := s.(enqueued := enqueued);
      var headed := headers != [] || (!turned && ledger.headed);
      ledger := Ledger(start, NatMax(ledger.last, MaxTicket(tags)), ledger.entry, ledger.orderly && headed && GoodBatch(tags, ledger.last),
                       ledger.exactFrom, headed);
    }

    lemma {:induction false} AdmittedOnce(tags: seq<Tag>, last: nat, epoch: nat, frames: int)
      ensures GoodBatch(tags, last) ==> Overtaking.TicketLast(Numbered(tags, epoch, MaxTicket(tags), frames), MaxTicket(tags))
    {
      if GoodBatch(tags, last) {
        AdmittedIsOneBatch(tags, last, epoch, frames);
        MaxTicketGood(tags, last);
      }
    }

    lemma {:induction false} RiskyNumbered(tags: seq<Tag>, epoch: nat, batch: nat, frames: int)
      ensures Overtaking.Risky(Numbered(tags, epoch, batch, frames)) <==> Overtaking.Risky(tags)
    {
      CountNumbered(tags, epoch, batch, frames);
      var l := Numbered(tags, epoch, batch, frames);
      assert forall i :: 0 <= i < |l| ==> l[i].MediaVideo() == tags[i].MediaVideo() && l[i].keyframe == tags[i].keyframe;
    }

    lemma {:induction false} CountNumbered(tags: seq<Tag>, epoch: nat, batch: nat, frames: int)
      ensures VideoCount(Numbered(tags, epoch, batch, frames)) == VideoCount(tags)
    {
      if tags != [] { CountNumbered(tags[..|tags| - 1], epoch, batch, frames); }
    }

    static method LabelTags(tags: seq<Tag>, epoch: nat, start: int, before: nat) returns (batch: seq<Tag>, frames: int, enqueued: nat)
      ensures batch == Numbered(tags, epoch, MaxTicket(tags), start) && frames == start + VideoCount(tags)
      ensures enqueued == NatMax(before, MaxTicket(tags))
    {
      batch, frames, enqueued := [], start, before;
      var i := 0;
      while i < |tags|
        invariant 0 <= i <= |tags| && frames == start + VideoCount(tags[..i])
        invariant batch == Numbered(tags[..i], epoch, MaxTicket(tags), start)
        invariant enqueued == NatMax(before, MaxTicket(tags[..i]))
      {
        assert tags[..i + 1][..i] == tags[..i];
        batch := batch + [tags[i].(epoch := epoch, batch := MaxTicket(tags), frame := frames)];
        enqueued := NatMax(enqueued, tags[i].ticket);
        if tags[i].MediaVideo() { frames := frames + 1; }
        i := i + 1;
      }
      assert tags[..i] == tags;
    }

    method DropBatch(frames: int)
      requires Valid() && Waiting(shared)
      modifies this`shared, this`ledger
      ensures Valid() && State() == DropIncoming(old(State()), frames)
    {
      hide Inv, GopPrefixes;
      DropIncomingKeeps(State(), frames);
      if shared.enqueued != 0 { shared := shared.(deliveredEpoch := shared.epoch, deliveredTicket := shared.enqueued); }
      shared := shared.(carried := 0, dropVideo := false);
      ledger := ledger.(frames := frames);
    }

    /** A step of the worker that may come in between, if it is waiting for a tag. */
    method MaybePop()
      requires Valid()
      modifies this`worker, queue`tags, queue`bytes
      ensures Valid() && (State() == old(State()) || (old(worker.pc).Idle? && State() == Steps.Pop(old(State()))))
      ensures Pending(State()) == old(Pending(State())) && Rear(queue.tags, old(queue.tags))
    {
      hide Inv, GopPrefixes, Coming;
      var now := *;
      if now && worker.pc.Idle? {
        PopSame(State());
        WaitPop();
      }
    }

    /** wait_pop, together with the test of the stop flag in front of it. */
    method WaitPop()
      requires Valid() && worker.pc.Idle?
      modifies this`worker, queue`tags, queue`bytes
      ensures Valid() && State() == Steps.Pop(old(State()))
    {
      hide Inv, GopPrefixes;
      PopKeeps(State());
      if shared.stop {
        worker := worker.(pc := CloseDue(AtEnd, false));
        return;
      }
      var x := queue.Pop();
      if x.Some? { worker := worker.(pc := Popped(x.value)); }
    }

    method QueueBatch(batch: seq<Tag>, frames: int, ghost ticket: nat) returns (ok: bool, ghost shed: bool)
      requires Valid() && Accepting(shared) && Ready(State(), batch, frames) && (ledger.orderly ==> Overtaking.TicketLast(batch, ticket))
      modifies this`shared, this`worker, this`ledger, queue`tags, queue`bytes
      ensures Valid() && shared == old(shared).(dropVideo := shared.dropVideo, carried := shared.carried)
      ensures Queues(old(State()), State(), batch, ok, shed, Limits())
      ensures !ok ==> !ledger.orderly
      ensures ledger.orderly ==> old(ledger.orderly) && (ledger.exactFrom == old(ledger.exactFrom) || Overtaking.Risky(batch))
    {
      hide Inv, GopPrefixes, Ready, OneBatch, Overtaking.TicketLast, Overtaking.Risky, Prepared, Retried, Queues, Thin, Pending, Room.Takes, Thinned;
      ghost var first := State();
      shed := ShedIfLate(batch, frames);
      ghost var before := State();
      QueuesPushed(first, before, batch, frames, shed, Limits());
      var kept;
      kept, ok := ThinAndPush(batch, frames);
      if !ok {
        ok := TryAgain(before, batch, kept, frames, ticket);
        QueuesRetried(first, before, State(), batch, frames, ok, shed, Limits());
        shed := true;
      }
    }

    /** A batch that is three seconds late sheds what is queued. */
    method ShedIfLate(batch: seq<Tag>, frames: int) returns (ghost shed: bool)
      requires Valid() && Accepting(shared) && Ready(State(), batch, frames)
      modifies this`shared, this`worker, queue`tags, queue`bytes
      ensures Valid() && Ready(State(), batch, frames) && Prepared(old(State()), State(), batch, frames, shed, Limits())
      ensures shared == old(shared).(dropVideo := shared.dropVideo, carried := shared.carried)
    {
      hide Inv, GopPrefixes, Ready, Sounds, Pending, Frames, Thin, WireBytes, MaxTicket, Shed, Rear, Room.Takes, Room.TakesShed, FromKeyOn;
      ghost var first := State();
      var front := queue.FrontTimestamp();
      Interleave(batch, frames);
      ghost var second := State();
      shed := Late(first.q, batch, shared.dropVideo);
      if !shared.dropVideo && front.Some? && batch != [] && batch[|batch| - 1].time >= front.value &&
         batch[|batch| - 1].time - front.value >= CONGESTION_DROP_MS { ShedVideo(batch, frames); }
      Interleave(batch, frames);
      ReadyEpoch(State(), batch, frames);
      if shed { ShedOnce(first, second, State(), batch, frames, Limits()); } else { NotShed(first, second, State(), batch, Limits()); }
    }

    /** The tags did not fit: congestion is flagged, the queue is shed, and they are tried once more. */
    method TryAgain(ghost before: View, ghost batch: seq<Tag>, kept: seq<Tag>, frames: int, ghost ticket: nat) returns (ok: bool)
      requires queue.Valid() && Inv(before) && Accepting(shared) && Ready(before, batch, frames)
      requires before.g.orderly ==> Overtaking.TicketLast(batch, ticket)
      requires State() == Blocked(before, batch) && kept == Thinned(before, batch).kept
      requires ledger.orderly ==> forall i :: 0 <= i < |past| ==> GopPrefixes(past[i])
      modifies this`shared, this`worker, this`ledger, queue`tags, queue`bytes
      ensures Valid() && Retried(Crowded(before, batch), State(), kept, ok, Limits())
      ensures shared == old(shared).(dropVideo := shared.dropVideo, carried := shared.carried)
      ensures forall i :: 0 <= i < |batch| ==> batch[i].epoch == before.s.epoch
      ensures !ok ==> !ledger.orderly
      ensures ledger.orderly ==> before.g.orderly && (ledger.exactFrom == before.g.exactFrom || Overtaking.Risky(batch))
    {
      hide Inv, GopPrefixes, Ready, OneBatch, Overtaking.TicketLast, Overtaking.Risky, Retried, Thin, Room.Takes;
      ReadyEpoch(before, batch, frames);
      Flag(before, batch, kept, frames, ticket);
      ok := Retry(kept, frames);
    }

    /** The tags did not fit: from here on congestion is flagged, which the worker cannot see before the mutex is free. */
    method Flag(ghost before: View, ghost batch: seq<Tag>, kept: seq<Tag>, ghost frames: int, ghost ticket: nat)
      requires queue.Valid() && Inv(before) && Ready(before, batch, frames) && (before.g.orderly ==> Overtaking.TicketLast(batch, ticket))
      requires State() == Blocked(before, batch) && kept == Thinned(before, batch).kept
      requires ledger.orderly ==> forall i :: 0 <= i < |past| ==> GopPrefixes(past[i])
      modifies this`shared, this`ledger
      ensures Valid() && State() == Crowded(before, batch) && Ready(State(), kept, frames)
      ensures shared == old(shared).(dropVideo := true)
      ensures ledger.orderly && ledger.exactFrom != before.g.exactFrom ==> Overtaking.Risky(batch)
    {
      hide Inv, GopPrefixes, Ready, OneBatch, Overtaking.Risky, Thin;
      CrowdedKeeps(before, batch, frames);
      CrowdedReadyInv(before, batch, frames, ticket);
      if before.g.orderly { Overtaking.OvertakesExactly(batch, ticket, before.s.dropVideo, before.s.carried); }
      if |kept| >= 2 && shared.carried >= kept[0].batch {
        ledger := ledger.(exactFrom := NatMax(ledger.exactFrom, shared.epoch + 1));
      }
      shared := shared.(dropVideo := true);
    }

    /** The queue is shed and the tags are tried once more. */
    method Retry(kept: seq<Tag>, frames: int) returns (ok: bool)
      requires Valid() && Accepting(shared) && Ready(State(), kept, frames)
      modifies this`shared, this`worker, this`ledger, queue`tags, queue`bytes
      ensures Valid() && Retried(old(State()), State(), kept, ok, Limits())
      ensures shared == old(shared).(dropVideo := shared.dropVideo, carried := shared.carried)
      ensures !ok ==> !ledger.orderly
      ensures ledger.exactFrom == old(ledger.exactFrom) && (ledger.orderly ==> old(ledger.orderly))
    {
      hide Inv, GopPrefixes, Ready, Sounds, Pending, Thin, Frames, WireBytes, MaxTicket, Shed, Rear, Retried, Room.Takes, Room.TakesShed;
      ghost var first := State();
      Interleave(kept, frames);
      ghost var crowded := State();
      ShedVideo(kept, frames);
      Interleave(kept, frames);
      ghost var before := State();
      ReadyEpoch(before, kept, frames);
      ShedAgain(first, crowded, before, kept, frames, Limits());
      var again;
      again, ok := ThinAndPush(kept, frames);
      if !ok {
        RefusedKeeps(before, shared.carried, shared.dropVideo);
        ledger := ledger.(orderly := false);
        RetriedNot(first, State(), kept, Limits());
      }
    }

    lemma {:induction false} ReadyEpoch(v: View, l: seq<Tag>, frames: int)
      requires Ready(v, l, frames)
      ensures forall i :: 0 <= i < |l| ==> l[i].epoch == v.s.epoch
    {
      hide FramesReady, TicketsReady;
    }

    /** thin_incoming_video_locked and try_push. */
    method ThinAndPush(l: seq<Tag>, frames: int) returns (kept: seq<Tag>, ok: bool)
      requires Valid() && Accepting(shared) && Ready(State(), l, frames)
      modifies this`shared, this`ledger, queue`tags, queue`bytes
      ensures kept == Thinned(old(State()), l).kept
      ensures ok == Limits().Takes(old(queue.tags), kept)
      ensures shared == old(shared).(dropVideo := shared.dropVideo, carried := shared.carried)
      ensures !ok ==> ledger == old(ledger)
      ensures ok ==> Valid() && State() == Push(old(State()), l, frames)
      ensures !ok ==> queue.Valid() && State() == Blocked(old(State()), l)
    {
      hide Inv, GopPrefixes, Ready, Thin;
      PushKeeps(State(), l, frames);
      var drop, carried;
      kept, drop, carried := ThinTags(l, shared.dropVideo, shared.carried);
      shared := shared.(dropVideo := drop, carried := carried);
      ok := queue.TryPush(kept);
      if ok { ledger := ledger.(frames := frames); }
    }

    static method ThinTags(l: seq<Tag>, drop: bool, carried: nat) returns (kept: seq<Tag>, dropping: bool, left: nat)
      ensures Thinning(kept, dropping, left) == Thin(l, drop, carried)
    {
      if !drop && carried == 0 {
        ThinNothing(l);
        return l, drop, carried;
      }
      kept, dropping, left := [], drop, carried;
      var i := 0;
      while i < |l|
        invariant 0 <= i <= |l| && Thinning(kept, dropping, left) == Thin(l[..i], drop, carried)
      {
        var x := l[i];
        assert l[..i + 1][..i] == l[..i];
        i := i + 1;
        if dropping && x.MediaVideo() && !x.keyframe {
          left := NatMax(left, x.ticket);
          continue;
        }
        if x.MediaVideo() { dropping := false; }
        kept, left := kept + [x.(ticket := NatMax(x.ticket, left))], 0;
      }
      assert l[..i] == l;
    }

    /** The worker may pop here. */
    method Interleave(ghost l: seq<Tag>, ghost frames: int)
      requires Valid() && Ready(State(), l, frames)
      modifies this`worker, queue`tags, queue`bytes
      ensures Valid() && Ready(State(), l, frames) && Pending(State()) == old(Pending(State())) && Rear(queue.tags, old(queue.tags))
    {
      hide Inv, GopPrefixes, Ready;
      if worker.pc.Idle? { PopReady(State(), l, frames); }
      MaybePop();
    }

    method ShedVideo(ghost l: seq<Tag>, ghost frames: int)
      requires Valid() && Ready(State(), l, frames)
      modifies this`shared, queue`tags, queue`bytes
      ensures Valid() && State() == ShedQueue(old(State())) && Ready(State(), l, frames)
      ensures Sounds(Pending(State())) == old(Sounds(Pending(State()))) && TopTicket(State()) == old(TopTicket(State()))
    {
      hide Inv, GopPrefixes, Ready, Shed;
      ShedTop(State());
      ShedKeeps(State());
      ShedReadyInv(State(), l, frames);
      ShedPending(State());
      var dropped, carried := queue.DropVideo();
      shared := shared.(carried := NatMax(shared.carried, carried), dropVideo := true);
    }
  }
}
