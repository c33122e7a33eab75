/** A run from the start of a session in which the ticket of a batch is acknowledged while a tag of that batch is still
    queued. Every step is one that the sender takes; the queue holds three tags at most. */
module EarlyAcknowledgement {
  import opened Media
  import opened SenderQueue
  import opened SenderState
  import opened SenderSteps
  import opened SenderIntake
  import opened Overtaking

  const CAPACITY: nat := 3

  function Picture(keyframe: bool, time: nat, ticket: nat): Tag { Tag(Video, false, keyframe, false, time, 1, 0, ticket, 0, 0) }

  function Sound(time: nat, ticket: nat): Tag { Tag(Audio, false, false, false, time, 1, 0, ticket, 0, 0) }

  /** The tag in the worker's hands can be written and acknowledged without further ado. */
  predicate Deliverable(v: View) {
    && v.w.pc.Popped? && !v.s.stop && v.s.primed == v.s.revision && v.w.mediaEpoch == v.s.epoch
    && var x := v.w.pc.tag;
      && x.epoch == v.s.epoch && !x.codecHeader && !x.drain
      && (v.w.awaiting ==> x.kind.Video? && x.keyframe) && (x.kind.Audio? ==> v.w.cutoff <= x.time)
  }

  /** Eight steps of the worker: the tag in its hands is chosen, written and acknowledged. */
  function Deliver(v: View): View
    requires Deliverable(v)
  {
    Publish(Acknowledge(EndSend(BeginSend(Select(ReadLoopHeaders(CheckEpoch(v)))), true)))
  }

  lemma {:induction false} Delivers(v: View)
    requires Deliverable(v)
    ensures var u, x := Deliver(v), v.w.pc.tag;
      && u.q == v.q && u.g == v.g.(entry := v.s.epoch)
      && u.w == Worker(Idle, false, if v.w.awaiting then x.time else v.w.cutoff, v.w.mediaEpoch)
      && u.s == v.s.(writing := false, cancelled := false, acknowledged := v.s.epoch,
                     published := if x.MediaAudio() then v.s.epoch else v.s.published,
                     deliveredEpoch := if x.ticket > 0 then v.s.epoch else v.s.deliveredEpoch,
                     deliveredTicket := if x.ticket > 0 then x.ticket else v.s.deliveredTicket)
  {}

  /** The first connection comes up: connect, file header, codec header, and into the loop. */
  function Connect(h: Tag): (v: View)
    ensures v.w == Worker(Idle, true, 0, 0) && v.q == [] && v.g == Ledger(0, 0, 0, true, 0, true)
    ensures v.s == Shared(0, 0, 0, 0, 0, 0, 0, false, false, false, false, [h], 0, 0, Running, false)
  {
    var sending := EndConnect(BeginConnect(Started([h]), false), true);
    var reading := EndSend(BeginSend(sending), true);
    var primed := EndSend(BeginSend(ReadConnectHeaders(reading)), true);
    EnterLoop(PrimeConnection(primed), false)
  }

  function Label(v: View, tags: seq<Tag>): seq<Tag> { Numbered(tags, 0, MaxTicket(tags), v.g.frames) }

  /** A batch is handed in and fits, with or without video being shed before. */
  function Offer(v: View, tags: seq<Tag>, congested: bool): View {
    var u := Admit(v, tags, 0, []);
    Push(if congested then ShedQueue(u) else u, Label(v, tags), v.g.frames + VideoCount(tags))
  }

  /** The batch that will be overtaken by its own ticket. */
  function LastBatch(): seq<Tag> { [Sound(4000, 0), Sound(4000, 0), Picture(false, 4000, 4)] }

  lemma {:induction false} LabelSnoc(s: seq<Tag>, x: Tag, batch: nat, frames: int)
    ensures MaxTicket(s + [x]) == NatMax(MaxTicket(s), x.ticket)
    ensures VideoCount(s + [x]) == VideoCount(s) + if x.MediaVideo() then 1 else 0
    ensures Numbered(s + [x], 0, batch, frames) ==
      Numbered(s, 0, batch, frames) + [x.(epoch := 0, batch := batch, frame := frames + VideoCount(s))]
  {
    assert (s + [x])[..|s|] == s;
  }

  lemma {:induction false} LabelNone(batch: nat, frames: int)
    ensures MaxTicket([]) == 0 && VideoCount([]) == 0 && Numbered([], 0, batch, frames) == []
  {}

  lemma {:induction false} OneLabelled(v: View, x: Tag)
    ensures Label(v, [x]) == [x.(epoch := 0, batch := x.ticket, frame := v.g.frames)] && MaxTicket([x]) == x.ticket
    ensures VideoCount([x]) == if x.MediaVideo() then 1 else 0
  {
    hide MaxTicket, VideoCount, Numbered;
    assert [] + [x] == [x];
    LabelNone(x.ticket, v.g.frames);
    LabelSnoc([], x, x.ticket, v.g.frames);
  }

  lemma {:induction false} LastLabelled(v: View)
    ensures MaxTicket(LastBatch()) == 4 && VideoCount(LastBatch()) == 1
    ensures var a := Sound(4000, 0).(batch := 4, frame := v.g.frames);
      Label(v, LastBatch()) == [a, a, Picture(false, 4000, 4).(batch := 4, frame := v.g.frames)]
  {
    hide MaxTicket, VideoCount, Numbered;
    var s, x := Sound(4000, 0), Picture(false, 4000, 4);
    assert [] + [s] == [s] && [s] + [s] == [s, s] && [s, s] + [x] == [s, s, x];
    LabelNone(4, v.g.frames);
    LabelSnoc([], s, 4, v.g.frames);
    LabelSnoc([s], s, 4, v.g.frames);
    LabelSnoc([s, s], x, 4, v.g.frames);
  }

  /** While video is dropped, the ticket of the picture is left over. */
  lemma {:induction false} LastThinned(a: Tag, x: Tag)
    requires !a.MediaVideo() && a.ticket == 0 && x.MediaVideo() && !x.keyframe && x.ticket == 4
    ensures Thin([a, a, x], true, 0) == Thinning([a, a], true, 4)
    ensures Thin([a, a], true, 4) == Thinning([a.(ticket := 4), a], true, 0)
  {
    var l := [a, a, x];
    assert l[..2] == [a, a] && [a, a][..1] == [a] && [a][..0] == [];
    assert a.(ticket := 0) == a;
    assert Thin([a], true, 0) == Thinning([a], true, 0);
    assert Thin([a, a], true, 0) == Thinning([a, a], true, 0);
    assert Thin([a], true, 4) == Thinning([a.(ticket := 4)], true, 0);
  }

  /** A batch of one tag is handed in while nothing is dropped; if that sheds the queue, only sound is in it. */
  lemma {:induction false} OffersOne(v: View, x: Tag, congested: bool)
    requires v.s.epoch == 0 && v.g.headed && v.g.orderly && v.s.carried == 0 && !v.s.dropVideo && v.g.last < x.ticket
    requires congested ==> !x.MediaVideo() && |v.q| == 1 && !v.q[0].MediaVideo()
    ensures var u := Offer(v, [x], congested);
      && u.w == v.w && u.q == v.q + [x.(epoch := 0, batch := x.ticket, frame := v.g.frames)]
      && u.s == v.s.(enqueued := NatMax(v.s.enqueued, x.ticket), dropVideo := congested)
      && u.g == v.g.(frames := v.g.frames + if x.MediaVideo() then 1 else 0, last := x.ticket)
  {
    hide MaxTicket, VideoCount, Numbered, Thin, Shed;
    OneLabelled(v, x);
    OneThinned(Label(v, [x])[0], congested);
    if congested {
      OneShed(v.q[0]);
      assert v.q == [v.q[0]];
    }
  }

  lemma {:induction false} OneThinned(x: Tag, drop: bool)
    requires drop ==> !x.MediaVideo()
    ensures Thin([x], drop, 0) == Thinning([x], drop, 0)
  {
    assert [x][..0] == [] && x.(ticket := NatMax(x.ticket, 0)) == x;
  }

  lemma {:induction false} OneShed(x: Tag)
    requires !x.MediaVideo()
    ensures Shed([x]) == Thinning([x], true, 0)
  {
    assert [x][..0] == [] && x.(ticket := NatMax(x.ticket, 0)) == x;
  }

  /** The last batch does not fit: the worker pops the one sound in front, and the retry fits. */
  function Overtake(v: View): View {
    var u := Admit(v, LastBatch(), 0, []);
    var l := Label(v, LastBatch());
    Push(ShedQueue(MayPop(Crowded(u, l), true)), Thinned(u, l).kept, v.g.frames + 1)
  }

  lemma {:induction false} Overtook(v: View)
    requires v.s.epoch == 0 && v.g.headed && v.g.orderly && v.s.carried == 0 && v.s.dropVideo && v.g.last == 3 == v.s.enqueued
    requires v.w.pc.Idle? && !v.s.stop && |v.q| == 2 && !v.q[0].MediaVideo() && !v.q[1].MediaVideo()
    ensures |v.q| + 2 > CAPACITY
    ensures var u, a := Overtake(v), Sound(4000, 0).(batch := 4, frame := v.g.frames);
      && u.w == v.w.(pc := Popped(v.q[0])) && u.q == [v.q[1], a.(ticket := 4), a] && |u.q| <= CAPACITY
      && u.s == v.s.(enqueued := 4)
      && u.g.orderly
  {
    hide MaxTicket, VideoCount, Numbered, Thin, Shed;
    var a, x := Sound(4000, 0).(batch := 4, frame := v.g.frames), Picture(false, 4000, 4).(batch := 4, frame := v.g.frames);
    LastLabelled(v);
    LastThinned(a, x);
    OneShed(v.q[1]);
    assert v.q[1..] == [v.q[1]];
  }

  /** A key picture is delivered; then sound is queued, four seconds of it, so that congestion is flagged. Of the next batch
      the worker writes the first tag: batch 4 counts as delivered although a tag of it is still in the queue. */
  lemma {:induction false} AcknowledgedEarly(h: Tag) returns (key: View, playing: View, congested: View, taken: View, last: View, end: View)
    ensures key == Offer(Connect(h), [Picture(true, 0, 1)], false)
    ensures key.w.pc.Idle? && Deliverable(Pop(key)) && playing == Deliver(Pop(key))
    ensures congested == Offer(Offer(playing, [Sound(0, 2)], false), [Sound(4000, 3)], true)
    ensures |congested.q| + 2 > CAPACITY && taken == Overtake(congested) && |taken.q| <= CAPACITY && Deliverable(taken)
    ensures Deliver(taken).w.pc.Idle? && Deliverable(Pop(Deliver(taken))) && last == Deliver(Pop(Deliver(taken)))
    ensures last.w.pc.Idle? && Deliverable(Pop(last)) && end == Deliver(Pop(last))
    ensures end.g.orderly && Alive(end) && Level(end.s) == 4 && |Pending(end)| == 1 && Pending(end)[0].batch == 4
  {
    hide Connect, Offer, Overtake, Deliver;
    key, playing := Begin(h);
    congested := Congest(playing);
    Overtook(congested);
    taken := Overtake(congested);
    Delivers(taken);
    Delivers(Pop(Deliver(taken)));
    last := Deliver(Pop(Deliver(taken)));
    Delivers(Pop(last));
    end := Deliver(Pop(last));
  }

  lemma {:induction false} Begin(h: Tag) returns (key: View, playing: View)
    ensures key == Offer(Connect(h), [Picture(true, 0, 1)], false)
    ensures key.w.pc.Idle? && Deliverable(Pop(key)) && playing == Deliver(Pop(key))
    ensures playing.w == Worker(Idle, false, 0, 0) && playing.q == [] && playing.g == Ledger(1, 1, 0, true, 0, true)
    ensures playing.s == Shared(0, 0, 0, 0, 1, 1, 0, false, false, false, false, [h], 0, 0, Running, false)
  {
    hide Offer, Deliver;
    var up := Connect(h);
    OffersOne(up, Picture(true, 0, 1), false);
    key := Offer(up, [Picture(true, 0, 1)], false);
    Delivers(Pop(key));
    playing := Deliver(Pop(key));
  }

  lemma {:induction false} Congest(playing: View) returns (v: View)
    requires playing.w == Worker(Idle, false, 0, 0) && playing.q == [] && playing.g == Ledger(1, 1, 0, true, 0, true)
    requires playing.s.epoch == 0 && playing.s.enqueued == 1 && playing.s.carried == 0 && !playing.s.dropVideo
    ensures v == Offer(Offer(playing, [Sound(0, 2)], false), [Sound(4000, 3)], true)
    ensures v.w == playing.w && v.q == [Sound(0, 2).(batch := 2, frame := 1), Sound(4000, 3).(batch := 3, frame := 1)]
    ensures v.g == Ledger(1, 3, 0, true, 0, true) && v.s == playing.s.(enqueued := 3, dropVideo := true)
  {
    hide Offer;
    OffersOne(playing, Sound(0, 2), false);
    OffersOne(Offer(playing, [Sound(0, 2)], false), Sound(4000, 3), true);
    v := Offer(Offer(playing, [Sound(0, 2)], false), [Sound(4000, 3)], true);
  }
}
