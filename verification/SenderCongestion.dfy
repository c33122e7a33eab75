/** When a sender sheds video, what is left then, and that no ticket gets lost on the way. */
module SenderCongestion {
  import opened Media
  import opened SenderQueue
  import opened SenderState
  import opened SenderProofs
  import opened SenderIntake

  const CONGESTION_DROP_MS: int := 3000

  /** The batch ends three seconds or more behind the oldest queued tag, and video is not being dropped yet. */
  predicate Late(q: seq<Tag>, l: seq<Tag>, drop: bool) {
    !drop && q != [] && l != [] && l[|l| - 1].time - q[0].time >= CONGESTION_DROP_MS
  }

  /** The limits of a queue. */
  datatype Room = Room(maxTags: nat, maxBytes: nat, closed: bool) {
    /** Behind q there is room for l. */
    predicate Takes(q: seq<Tag>, l: seq<Tag>) {
      !closed && |q| + |l| <= maxTags && WireBytes(q) + WireBytes(l) <= maxBytes
    }

    /** Behind what is left of q there is room for what is left of l, both without video up to a key picture. */
    predicate TakesShed(q: seq<Tag>, l: seq<Tag>) { Takes(Sounds(q), FromKey(l)) }
  }

  /** What is left of a batch of which media video leaves up to the first key picture. */
  function FromKey(l: seq<Tag>): seq<Tag> { Thin(l, true, 0).kept }

  /** As many tags, of the same size. */
  predicate SameSize(a: seq<Tag>, b: seq<Tag>) { |a| == |b| && WireBytes(a) == WireBytes(b) }

  lemma {:induction false} WireBytesSnoc(s: seq<Tag>, x: Tag)
    ensures WireBytes(s + [x]) == WireBytes(s) + x.size
  {
    assert (s + [x])[..|s|] == s;
  }

  lemma {:induction false} ShedSize(s: seq<Tag>)
    ensures SameSize(Shed(s).kept, Sounds(s))
  {
    if s != [] {
      var init, x := s[..|s| - 1], s[|s| - 1];
      var before := Shed(init);
      ShedSize(init);
      WireBytesSnoc(before.kept, x.(ticket := NatMax(x.ticket, before.carried)));
      WireBytesSnoc(Sounds(init), x.(ticket := 0));
      assert Sounds(init) + [] == Sounds(init);
    }
  }

  lemma {:induction false} SameSounds(a: seq<Tag>, b: seq<Tag>)
    requires Sounds(a) == Sounds(b)
    ensures SameSize(Shed(a).kept, Shed(b).kept)
  {
    ShedSize(a);
    ShedSize(b);
  }

  predicate Rear<T(==)>(a: seq<T>, b: seq<T>) { |a| <= |b| && a == b[|b| - |a|..] }

  /** The end of a queue takes no more room than the whole. */
  lemma {:induction false} EndIsSmaller(a: seq<Tag>, b: seq<Tag>, epoch: nat)
    requires Rear(a, b)
    ensures |a| <= |b| && WireBytes(a) <= WireBytes(b) && |Sounds(a)| <= |Sounds(b)| && WireBytes(Sounds(a)) <= WireBytes(Sounds(b))
    ensures Frames(b, epoch) == [] ==> Frames(a, epoch) == []
  {
    var front := b[..|b| - |a|];
    assert b == front + a;
    WireBytesConcat(front, a);
    SoundsConcat(front, a);
    WireBytesConcat(Sounds(front), Sounds(a));
    FramesConcat(front, a, epoch);
  }

  /** A second thinning that drops video leaves as much as if the first had. */
  lemma {:induction false} ThinTwice(l: seq<Tag>, drop: bool, carried: nat, again: nat)
    ensures var once, twice, all := Thin(l, drop, carried), Thin(Thin(l, drop, carried).kept, true, again), Thin(l, true, 0);
      SameSize(twice.kept, all.kept) && twice.drop == all.drop && (once.drop ==> all.drop)
  {
    if l != [] {
      var init, x := l[..|l| - 1], l[|l| - 1];
      ThinTwice(init, drop, carried, again);
      var once, all := Thin(init, drop, carried), Thin(init, true, 0);
      var y := x.(ticket := NatMax(x.ticket, once.carried));
      var twice := Thin(once.kept, true, again);
      ThinSnoc(once.kept, y, again);
      WireBytesSnoc(twice.kept, y.(ticket := NatMax(y.ticket, twice.carried)));
      WireBytesSnoc(all.kept, x.(ticket := NatMax(x.ticket, all.carried)));
    }
  }

  lemma {:induction false} ThinSnoc(s: seq<Tag>, x: Tag, carried: nat)
    ensures var before, t := Thin(s, true, carried), Thin(s + [x], true, carried);
      t == if before.drop && x.MediaVideo() && !x.keyframe then before.Drop(x)
           else if x.MediaVideo() then before.Keep(x).(drop := false) else before.Keep(x)
  {
    assert (s + [x])[..|s|] == s;
  }

  lemma {:induction false} FirstKeyTwice(f: seq<Frame>)
    ensures FromFirstKey(FromFirstKey(f)) == FromFirstKey(f)
  {
    if f != [] {
      FirstKeyTwice(f[..|f| - 1]);
      FromFirstKeySnoc(FromFirstKey(f[..|f| - 1]), f[|f| - 1]);
    }
  }

  // Tickets.

  /** The largest ticket that is pending or carried. */
  function TopTicket(v: View): nat { NatMax(MaxTicket(Pending(v)), v.s.carried) }

  lemma {:induction false} MaxTicketConcat(a: seq<Tag>, b: seq<Tag>)
    ensures MaxTicket(a + b) == NatMax(MaxTicket(a), MaxTicket(b))
  {
    if b == [] {
      assert a + b == a;
    } else {
      assert (a + b)[..|a + b| - 1] == a + b[..|b| - 1];
      MaxTicketConcat(a, b[..|b| - 1]);
    }
  }

  lemma {:induction false} NumberedTicket(s: seq<Tag>, epoch: nat, batch: nat, frames: int)
    ensures MaxTicket(Numbered(s, epoch, batch, frames)) == MaxTicket(s)
  {
    if s != [] {
      NumberedTicket(s[..|s| - 1], epoch, batch, frames);
      var l := Numbered(s, epoch, batch, frames);
      assert l[..|s| - 1] == Numbered(s[..|s| - 1], epoch, batch, frames);
    }
  }

  lemma {:induction false} ShedTop(v: View)
    ensures TopTicket(ShedQueue(v)) == TopTicket(v)
  {
    hide MaxTicket, Shed;
    ShedKeepsTickets(v.q);
    MaxTicketConcat(Current(v.w.pc), v.q);
    MaxTicketConcat(Current(v.w.pc), Shed(v.q).kept);
  }

  lemma {:induction false} PushTop(v: View, l: seq<Tag>, frames: int)
    ensures TopTicket(Push(v, l, frames)) == NatMax(TopTicket(v), MaxTicket(l))
  {
    hide MaxTicket, Thin;
    ThinKeepsTickets(l, v.s.dropVideo, v.s.carried);
    assert Pending(Push(v, l, frames)) == Pending(v) + Thinned(v, l).kept;
    MaxTicketConcat(Pending(v), Thinned(v, l).kept);
  }

  lemma {:induction false} CrowdTop(v: View, l: seq<Tag>)
    ensures NatMax(TopTicket(Crowded(v, l)), MaxTicket(Thinned(v, l).kept)) == NatMax(TopTicket(v), MaxTicket(l))
  {
    hide MaxTicket, Thin;
    ThinKeepsTickets(l, v.s.dropVideo, v.s.carried);
  }

  // What a push leaves in the queue.

  /** Behind a queue without media video, only the video from the first key picture on is queued. */
  lemma {:induction false} PushFromKey(v: View, l: seq<Tag>, frames: int)
    requires v.s.dropVideo && Frames(v.q, v.s.epoch) == [] && forall i :: 0 <= i < |l| ==> l[i].epoch == v.s.epoch
    ensures var u, f := Push(v, l, frames), FromFirstKey(Frames(l, v.s.epoch)); Frames(u.q, u.s.epoch) == f && u.s.dropVideo == (f == [])
  {
    hide Thin, Frames;
    ThinFrames(l, v.s.dropVideo, v.s.carried, v.s.epoch);
    FramesConcat(v.q, Thinned(v, l).kept, v.s.epoch);
  }

  /** Whether or not the first attempt thinned the batch. */
  lemma {:induction false} KeptFromKey(v: View, l: seq<Tag>)
    requires forall i :: 0 <= i < |l| ==> l[i].epoch == v.s.epoch
    ensures FromFirstKey(Frames(Thinned(v, l).kept, v.s.epoch)) == FromFirstKey(Frames(l, v.s.epoch))
    ensures SameSize(FromKey(Thinned(v, l).kept), FromKey(l))
  {
    hide Thin, Frames;
    ThinFrames(l, v.s.dropVideo, v.s.carried, v.s.epoch);
    FirstKeyTwice(Frames(l, v.s.epoch));
    ThinTwice(l, v.s.dropVideo, v.s.carried, 0);
  }

  /** The ticket carried on does not matter for what is kept. */
  lemma {:induction false} ThinSize(l: seq<Tag>, carried: nat)
    ensures SameSize(Thin(l, true, carried).kept, FromKey(l)) && Thin(l, true, carried).drop == Thin(l, true, 0).drop
  {
    if l != [] {
      var init, x := l[..|l| - 1], l[|l| - 1];
      ThinSize(init, carried);
      var a, b := Thin(init, true, carried), Thin(init, true, 0);
      WireBytesSnoc(a.kept, x.(ticket := NatMax(x.ticket, a.carried)));
      WireBytesSnoc(b.kept, x.(ticket := NatMax(x.ticket, b.carried)));
    }
  }

  predicate FromKeyOn(v: View, l: seq<Tag>) {
    Frames(v.q, v.s.epoch) == FromFirstKey(Frames(l, v.s.epoch)) && v.s.dropVideo == (Frames(v.q, v.s.epoch) == [])
  }

  /** The worker only makes room: between `was` and `mid` it may pop, then the queue is shed, and it may pop again. */
  lemma {:induction false} ShedFits(was: seq<Tag>, mid: seq<Tag>, q: seq<Tag>, l: seq<Tag>, carried: nat, room: Room)
    requires Rear(mid, was) && Rear(q, Shed(mid).kept)
    ensures room.TakesShed(was, l) ==> room.Takes(q, Thin(l, true, carried).kept)
  {
    hide Thin, Shed, Sounds, WireBytes, Rear;
    EndIsSmaller(mid, was, 0);
    EndIsSmaller(q, Shed(mid).kept, 0);
    ShedSize(mid);
    ThinSize(l, carried);
  }

  lemma {:induction false} ShedEnds(mid: seq<Tag>, q: seq<Tag>, epoch: nat)
    requires Rear(q, Shed(mid).kept)
    ensures Frames(q, epoch) == []
  {
    ShedFrames(mid, epoch);
    EndIsSmaller(q, Shed(mid).kept, epoch);
  }

  lemma {:induction false} PushFromKeyOn(v: View, l: seq<Tag>, frames: int)
    requires v.s.dropVideo && Frames(v.q, v.s.epoch) == [] && forall i :: 0 <= i < |l| ==> l[i].epoch == v.s.epoch
    ensures FromKeyOn(Push(v, l, frames), l)
  {
    PushFromKey(v, l, frames);
  }

  /** What becomes of a batch that is handed to a sender with a connection: v before, u after. */
  ghost predicate Queues(v: View, u: View, l: seq<Tag>, ok: bool, shed: bool, room: Room)
  {
    var t := Thinned(v, l);
    && u.s == v.s.(dropVideo := u.s.dropVideo, carried := u.s.carried)
    // Queued video is shed exactly if the batch is late, or else only if it does not fit.
    && (Late(v.q, l, v.s.dropVideo) ==> shed)
    && (shed ==> Late(v.q, l, v.s.dropVideo) || !room.Takes(v.q, t.kept))
    && (!shed ==> ok && Pending(u) == Pending(v) + t.kept && u.s.dropVideo == t.drop && u.s.carried == t.carried)
    // Then the queue has the video of the batch from its first key picture on, and no other.
    && (shed && ok ==> FromKeyOn(u, l))
    // Everything else stays, and so does the ticket to wait for.
    && (ok ==> Sounds(Pending(u)) == Sounds(Pending(v)) + Sounds(l) && TopTicket(u) == NatMax(TopTicket(v), MaxTicket(l)))
    // The batch is refused only if it does not fit without video.
    && (!ok ==> !room.TakesShed(v.q, l))
  }

  /** Without congestion, and with room for it, the whole batch is queued. */
  lemma {:induction false} QueuesAll(v: View, u: View, l: seq<Tag>, ok: bool, shed: bool, room: Room)
    requires Queues(v, u, l, ok, shed, room) && !v.s.dropVideo && v.s.carried == 0 && !Late(v.q, l, false)
    requires room.Takes(v.q, l)
    ensures ok && Pending(u) == Pending(v) + l && u.s == v.s
  {
    ThinNothing(l);
  }

  /** The queue was not shed: the worker can only have made room. */
  lemma {:induction false} NotShed(v: View, mid: View, u: View, l: seq<Tag>, room: Room)
    requires Rear(mid.q, v.q) && Rear(u.q, mid.q) && u.s == v.s
    ensures Thinned(u, l) == Thinned(v, l)
    ensures room.Takes(v.q, Thinned(v, l).kept) ==> room.Takes(u.q, Thinned(v, l).kept)
    ensures room.TakesShed(v.q, l) ==> room.TakesShed(u.q, Thinned(u, l).kept)
  {
    hide Rear, Thin, Sounds, WireBytes;
    EndIsSmaller(mid.q, v.q, 0);
    EndIsSmaller(u.q, mid.q, 0);
    ThinTwice(l, u.s.dropVideo, u.s.carried, 0);
  }

  /** It was shed because the batch was late. */
  lemma {:induction false} ShedOnce(v: View, mid: View, u: View, l: seq<Tag>, frames: int, room: Room)
    requires Rear(mid.q, v.q) && Rear(u.q, Shed(mid.q).kept) && u.s.dropVideo && forall i :: 0 <= i < |l| ==> l[i].epoch == u.s.epoch
    ensures FromKeyOn(Push(u, l, frames), l)
    ensures room.TakesShed(v.q, l) ==> room.TakesShed(u.q, Thinned(u, l).kept)
  {
    hide Rear, Thin, Shed, Sounds, WireBytes, Frames;
    ShedEnds(mid.q, u.q, u.s.epoch);
    PushFromKey(u, l, frames);
    EndIsSmaller(mid.q, v.q, 0);
    EndIsSmaller(u.q, Shed(mid.q).kept, 0);
    ShedSounds(mid.q);
    ThinTwice(l, u.s.dropVideo, u.s.carried, 0);
  }

  /** A batch is about to be queued: v before the queue was shed, if it was, and u after. */
  ghost predicate Prepared(v: View, u: View, l: seq<Tag>, frames: int, shed: bool, room: Room)
  {
    && shed == Late(v.q, l, v.s.dropVideo) && u.s == v.s.(dropVideo := u.s.dropVideo, carried := u.s.carried)
    && Sounds(Pending(u)) == Sounds(Pending(v)) && TopTicket(u) == TopTicket(v)
    && (!shed ==> Pending(u) == Pending(v) && u.s == v.s)
    && (!shed && room.Takes(v.q, Thinned(v, l).kept) ==> room.Takes(u.q, Thinned(u, l).kept))
    && (shed ==> FromKeyOn(Push(u, l, frames), l))
    && (room.TakesShed(v.q, l) ==> room.TakesShed(u.q, Thinned(u, l).kept))
  }

  /** A second attempt, behind a queue that was shed. */
  ghost predicate Retried(v: View, u: View, l: seq<Tag>, ok: bool, room: Room)
  {
    && u.s == v.s.(dropVideo := u.s.dropVideo, carried := u.s.carried)
    && (ok ==> FromKeyOn(u, l) && Sounds(Pending(u)) == Sounds(Pending(v)) + Sounds(l) && TopTicket(u) == NatMax(TopTicket(v), MaxTicket(l)))
    && (!ok ==> !room.TakesShed(v.q, l))
  }

  /** The second attempt: the worker may pop before the queue is shed, and after. */
  lemma {:induction false} ShedAgain(v: View, mid: View, u: View, l: seq<Tag>, frames: int, room: Room)
    requires mid.s == v.s && Rear(mid.q, v.q) && u.s == ShedQueue(mid).s && Rear(u.q, Shed(mid.q).kept)
    requires Sounds(Pending(u)) == Sounds(Pending(v)) && TopTicket(u) == TopTicket(v) && forall i :: 0 <= i < |l| ==> l[i].epoch == u.s.epoch
    ensures Retried(v, Push(u, l, frames), l, true, room)
    ensures room.TakesShed(v.q, l) ==> room.Takes(u.q, Thinned(u, l).kept)
  {
    hide Rear, Thin, Shed, Sounds, WireBytes, Frames, Pending, TopTicket, FromKeyOn, MaxTicket, Room.Takes, Room.TakesShed;
    ShedEnds(mid.q, u.q, u.s.epoch);
    PushFromKeyOn(u, l, frames);
    PushPending(u, l, frames);
    PushTop(u, l, frames);
    ShedFits(v.q, mid.q, u.q, l, u.s.carried, room);
  }

  lemma {:induction false} RetriedNot(v: View, u: View, l: seq<Tag>, room: Room)
    requires u.s == v.s.(dropVideo := u.s.dropVideo, carried := u.s.carried) && !room.TakesShed(v.q, l)
    ensures Retried(v, u, l, false, room)
  {}

  lemma {:induction false} QueuesPushed(v: View, u: View, l: seq<Tag>, frames: int, shed: bool, room: Room)
    requires Prepared(v, u, l, frames, shed, room)
    ensures Queues(v, Push(u, l, frames), l, true, shed, room)
  {
    hide Thin, Sounds, Pending, TopTicket, FromKeyOn, Room.Takes, Room.TakesShed, MaxTicket;
    PushPending(u, l, frames);
    PushTop(u, l, frames);
  }

  lemma {:induction false} QueuesRetried(v: View, u: View, w: View, l: seq<Tag>, frames: int, ok: bool, shed: bool, room: Room)
    requires Prepared(v, u, l, frames, shed, room)
    requires Retried(Crowded(u, l), w, Thinned(u, l).kept, ok, room) && forall i :: 0 <= i < |l| ==> l[i].epoch == u.s.epoch
    requires !room.Takes(u.q, Thinned(u, l).kept)
    ensures Queues(v, w, l, ok, true, room)
  {
    hide Thin, Sounds, Pending, TopTicket, Room.Takes, Room.TakesShed, MaxTicket, Frames;
    CrowdTop(u, l);
    KeptFromKey(u, l);
    KeptPending(u, l);
  }

  lemma {:induction false} KeptPending(v: View, l: seq<Tag>)
    ensures Sounds(Thinned(v, l).kept) == Sounds(l) && Pending(Crowded(v, l)) == Pending(v)
  {
    ThinSounds(l, v.s.dropVideo, v.s.carried);
  }
}
