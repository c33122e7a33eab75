/** Handing media to a sender: how tags are admitted, thinned under congestion and queued, and why that keeps the
    sender's invariant. */
module SenderIntake {
  import opened Media
  import opened SenderQueue
  import opened SenderState
  import opened SenderSteps
  import opened SenderProofs

  function VideoCount(s: seq<Tag>): nat {
    if s == [] then 0 else VideoCount(s[..|s| - 1]) + if s[|s| - 1].MediaVideo() then 1 else 0
  }

  /** The tags of a batch, with their epoch, the ticket of the batch, and their place among the media video of the epoch. */
  function Numbered(s: seq<Tag>, epoch: nat, batch: nat, frames: int): (r: seq<Tag>)
    ensures |r| == |s|
    ensures forall i :: 0 <= i < |r| ==> r[i] == s[i].(epoch := epoch, batch := batch, frame := r[i].frame)
  {
    if s == [] then []
    else Numbered(s[..|s| - 1], epoch, batch, frames) +
         [s[|s| - 1].(epoch := epoch, batch := batch, frame := frames + VideoCount(s[..|s| - 1]))]
  }

  /** The last tag carries the ticket, and it is larger than every ticket before. */
  predicate GoodBatch(s: seq<Tag>, last: nat) {
    s != [] && last < s[|s| - 1].ticket && forall i :: 0 <= i < |s| - 1 ==> s[i].ticket == 0
  }

  // Frames of a batch.

  lemma {:induction false} NumberedFrames(s: seq<Tag>, epoch: nat, batch: nat, frames: int)
    ensures var f := Frames(Numbered(s, epoch, batch, frames), epoch);
      |f| == VideoCount(s) && forall i :: 0 <= i < |f| ==> f[i].number == frames + i
  {
    if s != [] { NumberedFrames(s[..|s| - 1], epoch, batch, frames); }
  }

  /** The frames from the first key picture on. */
  function FromFirstKey(f: seq<Frame>): seq<Frame> {
    if f == [] then []
    else var before := FromFirstKey(f[..|f| - 1]);
      if before != [] || f[|f| - 1].key then before + [f[|f| - 1]] else []
  }

  lemma {:induction false} FromFirstKeyLinked(f: seq<Frame>)
    requires Linked(f)
    ensures var g := FromFirstKey(f);
      Linked(g) && (g != [] ==> g[0].key && g[|g| - 1] == f[|f| - 1])
  {
    if f != [] {
      var init := f[..|f| - 1];
      FromFirstKeyLinked(init);
    }
  }

  lemma {:induction false} FromFirstKeySnoc(f: seq<Frame>, x: Frame)
    ensures FromFirstKey(f + [x]) == if FromFirstKey(f) != [] || x.key then FromFirstKey(f) + [x] else []
  {
    assert (f + [x])[..|f|] == f;
  }

  /** Thinning keeps all frames, or while video is dropped those from the first key picture on. */
  lemma {:induction false} ThinFrames(s: seq<Tag>, drop: bool, carried: nat, epoch: nat)
    requires forall i :: 0 <= i < |s| ==> s[i].epoch == epoch
    ensures var t, f := Thin(s, drop, carried), Frames(s, epoch);
      && Frames(t.kept, epoch) == (if drop then FromFirstKey(f) else f)
      && t.drop == (drop && FromFirstKey(f) == [])
  {
    if s != [] {
      var init, x := s[..|s| - 1], s[|s| - 1];
      ThinFrames(init, drop, carried, epoch);
      var before := Thin(init, drop, carried);
      var y := x.(ticket := NatMax(x.ticket, before.carried));
      FramesConcat(before.kept, [y], epoch);
      FramesOne(y, epoch);
      if x.MediaVideo() {
        FromFirstKeySnoc(Frames(init, epoch), Frame(x.frame, x.keyframe));
      } else {
        assert Frames(init, epoch) + [] == Frames(init, epoch);
        assert Frames(before.kept, epoch) + [] == Frames(before.kept, epoch);
      }
    }
  }

  lemma {:induction false} ShedFrames(s: seq<Tag>, epoch: nat)
    ensures Frames(Shed(s).kept, epoch) == []
  {
    if s != [] {
      var before, x := Shed(s[..|s| - 1]), s[|s| - 1];
      ShedFrames(s[..|s| - 1], epoch);
      FramesConcat(before.kept, [x.(ticket := NatMax(x.ticket, before.carried))], epoch);
      FramesOne(x.(ticket := NatMax(x.ticket, before.carried)), epoch);
    }
  }

  // Tickets of a batch.

  /** What thinning keeps is part of what came in, up to tickets. */
  lemma {:induction false} ThinMember(s: seq<Tag>, drop: bool, carried: nat, i: nat) returns (k: nat)
    requires i < |Thin(s, drop, carried).kept|
    ensures k < |s| && Thin(s, drop, carried).kept[i] == s[k].(ticket := Thin(s, drop, carried).kept[i].ticket)
    decreases |s|
  {
    var before := Thin(s[..|s| - 1], drop, carried);
    if i < |before.kept| { k := ThinMember(s[..|s| - 1], drop, carried, i); } else { k := |s| - 1; }
  }

  lemma {:induction false} ShedMember(s: seq<Tag>, i: nat) returns (k: nat)
    requires i < |Shed(s).kept|
    ensures k < |s| && Shed(s).kept[i] == s[k].(ticket := Shed(s).kept[i].ticket)
    decreases |s|
  {
    var before := Shed(s[..|s| - 1]);
    if i < |before.kept| { k := ShedMember(s[..|s| - 1], i); } else { k := |s| - 1; }
  }

  /** A list p of pending tags, the tags kept behind it, and the carried ticket are in line. */
  predicate Line(p: seq<Tag>, t: Thinning, from: nat) {
    && Ascending(p + t.kept, from)
    && (t.carried > 0 ==> AllBelow(p + t.kept, t.carried))
  }

  /** The next tag comes behind everything so far. */
  predicate Precedes(p: seq<Tag>, t: Thinning, x: Tag, from: nat) {
    && (forall i :: 0 <= i < |p + t.kept| ==> Follows((p + t.kept)[i], x, from))
    && t.carried < Ceiling(x, from) && (x.ticket > 0 ==> t.carried < x.ticket)
  }

  lemma {:induction false} LineDrop(p: seq<Tag>, t: Thinning, x: Tag, from: nat)
    requires Line(p, t, from) && Precedes(p, t, x, from)
    ensures Line(p, t.Drop(x), from)
  {}

  lemma {:induction false} LineKeep(p: seq<Tag>, t: Thinning, x: Tag, from: nat)
    requires Line(p, t, from) && Precedes(p, t, x, from)
    ensures Line(p, t.Keep(x), from)
  {
    var y := x.(ticket := NatMax(x.ticket, t.carried));
    assert p + (t.kept + [y]) == (p + t.kept) + [y];
  }

  /** The same for a later tag, whichever of the two happens to x. */
  lemma {:induction false} PrecedesStep(p: seq<Tag>, t: Thinning, x: Tag, y: Tag, from: nat)
    requires Precedes(p, t, y, from) && Follows(x, y, from)
    ensures Precedes(p, t.Drop(x), y, from) && Precedes(p, t.Keep(x), y, from)
  {
    var z := x.(ticket := NatMax(x.ticket, t.carried));
    assert p + (t.kept + [z]) == (p + t.kept) + [z];
  }

  predicate PrecedesAll(p: seq<Tag>, t: Thinning, rest: seq<Tag>, from: nat) {
    forall i :: 0 <= i < |rest| ==> Precedes(p, t, rest[i], from)
  }

  /** Once the first tag is dealt with, the rest stays in line. */
  lemma {:induction false} ThinLine(p: seq<Tag>, s: seq<Tag>, n: nat, drop: bool, carried: nat, from: nat)
    requires 1 <= n <= |s| && Ascending(p + s, from)
    requires Line(p, Thin(s[..1], drop, carried), from) && PrecedesAll(p, Thin(s[..1], drop, carried), s[1..], from)
    ensures Line(p, Thin(s[..n], drop, carried), from) && PrecedesAll(p, Thin(s[..n], drop, carried), s[n..], from)
  {
    if n > 1 {
      ThinLine(p, s, n - 1, drop, carried, from);
      assert s[..n][..n - 1] == s[..n - 1];
      NextLine(p, s, n - 1, Thin(s[..n - 1], drop, carried), from);
    }
  }

  lemma {:induction false} ShedLine(p: seq<Tag>, s: seq<Tag>, n: nat, from: nat)
    requires n <= |s| && Ascending(p + s, from) && PrecedesAll(p, Thinning([], true, 0), s, from)
    ensures Line(p, Shed(s[..n]), from) && PrecedesAll(p, Shed(s[..n]), s[n..], from)
  {
    if n == 0 {
      assert p + [] == p;
      assert forall i :: 0 <= i < |p| ==> (p + s)[i] == p[i];
      assert s[0..] == s;
    } else {
      ShedLine(p, s, n - 1, from);
      assert s[..n][..n - 1] == s[..n - 1];
      NextLine(p, s, n - 1, Shed(s[..n - 1]), from);
    }
  }

  lemma {:induction false} NextLine(p: seq<Tag>, s: seq<Tag>, n: nat, t: Thinning, from: nat)
    requires n < |s| && Ascending(p + s, from) && Line(p, t, from) && PrecedesAll(p, t, s[n..], from)
    ensures Line(p, t.Drop(s[n]), from) && Line(p, t.Keep(s[n]), from)
    ensures PrecedesAll(p, t.Drop(s[n]), s[n + 1..], from) && PrecedesAll(p, t.Keep(s[n]), s[n + 1..], from)
  {
    hide Line, Precedes;
    assert s[n..][0] == s[n];
    LineDrop(p, t, s[n], from);
    LineKeep(p, t, s[n], from);
    var rest := s[n + 1..];
    forall i | 0 <= i < |rest| ensures Precedes(p, t.Drop(s[n]), rest[i], from) && Precedes(p, t.Keep(s[n]), rest[i], from) {
      assert s[n..][i + 1] == rest[i] == s[n + 1 + i];
      assert (p + s)[|p| + n] == s[n] && (p + s)[|p| + n + 1 + i] == s[n + 1 + i];
      PrecedesStep(p, t, s[n], rest[i], from);
    }
  }

  // Steps of a producer.

  /** The batch is admitted: its epoch becomes current and its ticket is the one to wait for. */
  function Admit(v: View, tags: seq<Tag>, epoch: nat, headers: seq<Tag>): View {
    var turned := epoch != v.s.epoch;
    var s0 := if turned then v.s.(epoch := epoch, enqueued := 0, carried := 0, dropVideo := false) else v.s;
    var s1 := if headers != [] then s0.(headers := headers, revision := s0.revision + 1) else s0;
    var headed := headers != [] || (!turned && v.g.headed);
    v.(s := s1.(enqueued := NatMax(s1.enqueued, MaxTicket(tags))),
       g := v.g.(frames := if turned then 0 else v.g.frames, last := NatMax(v.g.last, MaxTicket(tags)), headed := headed,
                 orderly := v.g.orderly && headed && GoodBatch(tags, v.g.last)))
  }

  /** Nothing is queued for a destination that is not connected. */
  function DropIncoming(v: View, frames: int): View {
    v.(s := AcknowledgeDropped(v.s), g := v.g.(frames := frames))
  }

  function ShedQueue(v: View): View {
    var t := Shed(v.q);
    v.(q := t.kept, s := v.s.(carried := NatMax(v.s.carried, t.carried), dropVideo := true))
  }

  function Thinned(v: View, l: seq<Tag>): Thinning { Thin(l, v.s.dropVideo, v.s.carried) }

  /** The thinned tags are queued; `frames` media video were handed in by then. */
  function Push(v: View, l: seq<Tag>, frames: int): View {
    var t := Thinned(v, l);
    v.(s := v.s.(carried := t.carried, dropVideo := t.drop), q := v.q + t.kept, g := v.g.(frames := frames))
  }

  /** A retry would put the ticket of the batch itself in front of several of its tags. */
  predicate Overtakes(t: Thinning) {
    |t.kept| >= 2 && t.carried >= t.kept[0].batch
  }

  /** The thinned tags did not fit: congestion is flagged and they are tried again. */
  function Crowded(v: View, l: seq<Tag>): View {
    var t := Thinned(v, l);
    v.(s := v.s.(carried := t.carried, dropVideo := true),
       g := v.g.(exactFrom := if Overtakes(t) then NatMax(v.g.exactFrom, v.s.epoch + 1) else v.g.exactFrom))
  }

  /** The thinned tags did not fit, and nothing was done about it yet. */
  function Blocked(v: View, l: seq<Tag>): View {
    v.(s := v.s.(carried := Thinned(v, l).carried, dropVideo := Thinned(v, l).drop))
  }

  function Refuse(v: View): View { v.(g := v.g.(orderly := false)) }

  /** Only these states take media; the caller checks. */
  predicate Accepting(s: Shared) { s.status.Running? || (s.status.Reconnecting? && s.resume) }

  /** Without a connection there is nothing to queue for, unless a transition cut it. */
  predicate Waiting(s: Shared) { (s.status.Starting? || s.status.Reconnecting?) && !s.resume }

  // Tags that are about to be queued.

  predicate FramesReady(v: View, l: seq<Tag>, frames: int) {
    var f := Frames(l, v.s.epoch);
    && Linked(f)
    && (f != [] ==> f[|f| - 1].number == frames - 1)
    && (!v.s.dropVideo && f == [] ==> frames == v.g.frames)
    && (!v.s.dropVideo && f != [] && EndOf(Anchor(v), Coming(v)).Some? ==>
          f[0].key || f[0].number == EndOf(Anchor(v), Coming(v)).value + 1)
  }

  /** The carried ticket may be put on the first tag, but stays in front of the others. */
  predicate CarriedBehind(l: seq<Tag>, carried: nat, from: nat) {
    forall i :: 1 <= i < |l| ==> carried < Ceiling(l[i], from) && (l[i].ticket > 0 ==> carried < l[i].ticket)
  }

  predicate TicketsReady(v: View, l: seq<Tag>) {
    && Ascending(Pending(v) + l, v.g.exactFrom)
    && AllBelow(l, v.g.last + 1) && BatchesUpTo(l, v.g.last)
    && CarriedBehind(l, v.s.carried, v.g.exactFrom)
    && v.s.enqueued == v.g.last
    && (v.s.deliveredEpoch == v.s.epoch && v.s.deliveredTicket > 0 ==> Beyond(l, v.s.deliveredTicket, v.g.exactFrom, v.s.epoch))
  }

  /** Tags of the current epoch, in line behind everything pending. */
  predicate Ready(v: View, l: seq<Tag>, frames: int) {
    && (forall i :: 0 <= i < |l| ==> l[i].epoch == v.s.epoch)
    && (v.g.orderly && Alive(v) ==> v.g.headed && FramesReady(v, l, frames) && TicketsReady(v, l))
  }

  lemma {:induction false} MaxTicketGood(s: seq<Tag>, last: nat)
    requires GoodBatch(s, last)
    ensures MaxTicket(s) == s[|s| - 1].ticket
  {
    MaxTicketZero(s[..|s| - 1]);
  }

  lemma {:induction false} MaxTicketZero(s: seq<Tag>)
    requires forall i :: 0 <= i < |s| ==> s[i].ticket == 0
    ensures MaxTicket(s) == 0
  {
    if s != [] { MaxTicketZero(s[..|s| - 1]); }
  }

  lemma {:induction false} AdmitKeeps(v: View, tags: seq<Tag>, epoch: nat, headers: seq<Tag>)
    requires Inv(v) && v.s.epoch <= epoch
    ensures Inv(Admit(v, tags, epoch, headers))
  {
    hide Fence, Staged, InHand, Gop, Tickets, Primed, Published;
    AdmitBasics(v, tags, epoch, headers);
    AdmitGop(v, tags, epoch, headers);
    AdmitTickets(v, tags, epoch, headers);
    AdmitRest(v, tags, epoch, headers);
  }

  lemma {:induction false} AdmitBasics(v: View, tags: seq<Tag>, epoch: nat, headers: seq<Tag>)
    requires Inv(v) && v.s.epoch <= epoch
    ensures var u := Admit(v, tags, epoch, headers); Fence(u) && Staged(u) && InHand(u)
  {
    hide Gop, Tickets, Primed, Published, GoodBatch, MaxTicket;
  }

  lemma {:induction false} AdmitGop(v: View, tags: seq<Tag>, epoch: nat, headers: seq<Tag>)
    requires Inv(v) && v.s.epoch <= epoch
    ensures Gop(Admit(v, tags, epoch, headers))
  {
    hide Tickets, Primed, Published, Staged, Frames, LastFrame, GoodBatch, MaxTicket, GopPrefixes;
    var u := Admit(v, tags, epoch, headers);
    if epoch != v.s.epoch { NothingComing(u); }
  }

  lemma {:induction false} AdmitTickets(v: View, tags: seq<Tag>, epoch: nat, headers: seq<Tag>)
    requires Inv(v) && v.s.epoch <= epoch
    ensures var u := Admit(v, tags, epoch, headers);
      && Tickets(u) && (HasEpoch(Pending(u), epoch) ==> epoch == v.s.epoch && HasEpoch(Pending(v), epoch))
  {
    hide Gop, Primed, Published, Staged, InHand, MaxTicket, Ascending, Beyond;
    var u := Admit(v, tags, epoch, headers);
    if GoodBatch(tags, v.g.last) { MaxTicketGood(tags, v.g.last); }
    assert Pending(u) == Pending(v);
  }

  lemma {:induction false} AdmitRest(v: View, tags: seq<Tag>, epoch: nat, headers: seq<Tag>)
    requires Inv(v) && v.s.epoch <= epoch
    ensures var u := Admit(v, tags, epoch, headers); Primed(u) && Published(u)
  {
    hide Gop, Tickets, Staged, HasEpoch, HasHeader, KeyWritten, GoodBatch, MaxTicket;
    AdmitTickets(v, tags, epoch, headers);
  }

  /** The admitted batch, numbered, is ready to be queued. */
  lemma {:induction false} AdmitReady(v: View, tags: seq<Tag>, epoch: nat, headers: seq<Tag>)
    requires Inv(v) && v.s.epoch <= epoch
    ensures var u := Admit(v, tags, epoch, headers);
      Ready(u, Numbered(tags, epoch, MaxTicket(tags), u.g.frames), u.g.frames + VideoCount(tags))
  {
    hide Inv, Gop, Tickets, MaxTicket, FramesReady, TicketsReady, Admit, Alive, Numbered, VideoCount;
    var u := Admit(v, tags, epoch, headers);
    AdmitGop(v, tags, epoch, headers);
    FenceEpochs(v);
    AdmitShape(v, tags, epoch, headers);
    if u.g.orderly && Alive(u) {
      NumberedReady(u, tags, epoch, MaxTicket(tags));
      AdmitLine(v, tags, epoch, headers);
    }
  }

  lemma {:induction false} FenceEpochs(v: View)
    requires Inv(v)
    ensures Fence(v) && Tickets(v)
  {}

  lemma {:induction false} AdmitShape(v: View, tags: seq<Tag>, epoch: nat, headers: seq<Tag>)
    ensures var u := Admit(v, tags, epoch, headers); u.s.epoch == epoch && (u.g.orderly ==> u.g.headed)
  {}

  lemma {:induction false} NumberedReady(u: View, tags: seq<Tag>, epoch: nat, batch: nat)
    requires Gop(u) && u.g.orderly && Alive(u) && u.s.epoch == epoch
    ensures FramesReady(u, Numbered(tags, epoch, batch, u.g.frames), u.g.frames + VideoCount(tags))
  {
    hide Frames, LastFrame, GopPrefixes, Coming, Anchor;
    NumberedFrames(tags, epoch, batch, u.g.frames);
  }

  lemma {:induction false} AdmitLine(v: View, tags: seq<Tag>, epoch: nat, headers: seq<Tag>)
    requires Tickets(v) && Fence(v) && v.s.epoch <= epoch
    requires var u := Admit(v, tags, epoch, headers); u.g.orderly && Alive(u)
    ensures var u := Admit(v, tags, epoch, headers); TicketsReady(u, Numbered(tags, epoch, MaxTicket(tags), u.g.frames))
  {
    hide MaxTicket;
    var u := Admit(v, tags, epoch, headers);
    var l := Numbered(tags, epoch, MaxTicket(tags), u.g.frames);
    MaxTicketGood(tags, v.g.last);
    assert Pending(u) == Pending(v);
    var p := Pending(v) + l;
    forall i, j | 0 <= i < j < |p| ensures Follows(p[i], p[j], v.g.exactFrom) {
      if j < |Pending(v)| { assert p[i] == Pending(v)[i] && p[j] == Pending(v)[j]; }
      else {
        assert p[j] == l[j - |Pending(v)|];
        if i < |Pending(v)| { assert p[i] == Pending(v)[i]; PendingEpochs(v, i); } else { assert p[i] == l[i - |Pending(v)|]; }
      }
    }
  }

  lemma {:induction false} PendingEpochs(v: View, i: nat)
    requires Fence(v) && i < |Pending(v)|
    ensures Pending(v)[i].epoch <= v.s.epoch
  {}

  // Bounds on tickets.

  /** Every ticket is larger than t. */
  predicate Above(s: seq<Tag>, t: nat) {
    forall i :: 0 <= i < |s| && s[i].ticket > 0 ==> t < s[i].ticket
  }

  lemma {:induction false} ShedBounds(s: seq<Tag>, limit: nat, t: nat)
    ensures AllBelow(s, limit) && 0 < limit ==> AllBelow(Shed(s).kept, limit) && Shed(s).carried < limit
    ensures Above(s, t) ==> Above(Shed(s).kept, t) && (Shed(s).carried > 0 ==> t < Shed(s).carried)
  {
    if s != [] { ShedBounds(s[..|s| - 1], limit, t); }
  }

  lemma {:induction false} ThinBounds(s: seq<Tag>, drop: bool, carried: nat, limit: nat, t: nat)
    ensures AllBelow(s, limit) && carried < limit ==> AllBelow(Thin(s, drop, carried).kept, limit) && Thin(s, drop, carried).carried < limit
    ensures Above(s, t) && (carried > 0 ==> t < carried) ==>
      Above(Thin(s, drop, carried).kept, t) && (Thin(s, drop, carried).carried > 0 ==> t < Thin(s, drop, carried).carried)
    ensures (carried > 0 ==> drop) ==> (Thin(s, drop, carried).carried > 0 ==> Thin(s, drop, carried).drop)
  {
    if s != [] { ThinBounds(s[..|s| - 1], drop, carried, limit, t); }
  }

  // Shedding the queue.

  lemma {:induction false} ShedKeeps(v: View)
    requires Inv(v)
    ensures Inv(ShedQueue(v))
  {
    hide Fence, Staged, InHand, Gop, HasEpoch, HasHeader, KeyWritten, Shed, Ascending, AllBelow, BatchesUpTo, Beyond;
    ShedBasics(v);
    ShedGop(v);
    if v.g.orderly && Alive(v) { ShedTickets(v); }
    ShedEpoch(v);
  }

  lemma {:induction false} ShedBasics(v: View)
    requires Inv(v)
    ensures var u := ShedQueue(v); Fence(u) && Staged(u) && InHand(u)
  {
    hide Gop, Tickets, Primed, Published;
    var u := ShedQueue(v);
    forall i | 0 <= i < |u.q| ensures u.q[i].epoch <= u.s.epoch { var k := ShedMember(v.q, i); }
  }

  lemma {:induction false} ShedGop(v: View)
    requires Gop(v)
    ensures Gop(ShedQueue(v))
  {
    hide Frames, LastFrame, GopPrefixes, Shed;
    ShedFrames(v.q, v.s.epoch);
    var u := ShedQueue(v);
    assert Coming(u) == HandFrames(v.w.pc, v.s.epoch);
    assert forall i :: 0 <= i < |Coming(u)| ==> Coming(v)[i] == Coming(u)[i];
  }

  lemma {:induction false} ShedEpoch(v: View)
    ensures HasEpoch(Pending(ShedQueue(v)), v.s.epoch) ==> HasEpoch(Pending(v), v.s.epoch)
  {
    var u := ShedQueue(v);
    if i :| 0 <= i < |Pending(u)| && Pending(u)[i].epoch == v.s.epoch {
      var n := |Current(v.w.pc)|;
      if i < n {
        assert Pending(v)[i] == Pending(u)[i];
      } else {
        var k := ShedMember(v.q, i - n);
        assert Pending(v)[n + k] == v.q[k];
      }
    }
  }

  /** Shedding keeps acknowledgements honest: every ticket still precedes what is pending behind it. */
  lemma {:induction false} ShedTickets(v: View)
    requires Tickets(v) && v.g.orderly && Alive(v)
    ensures Tickets(ShedQueue(v))
  {
    hide Ascending, AllBelow, BatchesUpTo, Beyond, Shed, HasEpoch, Above;
    var u := ShedQueue(v);
    var p, t := Current(v.w.pc), Shed(v.q);
    assert Pending(v) == p + v.q && Pending(u) == p + t.kept;
    BatchesAre(p + v.q, v.g.last);
    AboveBeyond(p + v.q, v.s.deliveredTicket, v.g.exactFrom, v.s.epoch);
    ShedInLine(p, v.q, v.g.exactFrom);
    PendingBounds(p, v.q, v.g.last + 1, 0);
    PendingBounds(p, v.q, v.s.carried, v.s.deliveredTicket);
    ShedBatches(p, v.q, v.g.last, v.s.deliveredTicket, v.g.exactFrom, v.s.epoch);
    ShedEpoch(v);
  }

  predicate HaveBatch(p: seq<Tag>) {
    forall i :: 0 <= i < |p| ==> 0 < p[i].batch
  }

  lemma {:induction false} BatchesAre(p: seq<Tag>, last: nat)
    requires BatchesUpTo(p, last)
    ensures HaveBatch(p)
  {}

  lemma {:induction false} BelowFirst(p: seq<Tag>, q: seq<Tag>, limit: nat)
    requires AllBelow(p + q, limit)
    ensures AllBelow(p, limit)
  {
    assert forall i :: 0 <= i < |p| ==> (p + q)[i] == p[i];
  }

  lemma {:induction false} ShedInLine(p: seq<Tag>, q: seq<Tag>, from: nat)
    requires Ascending(p + q, from) && HaveBatch(p + q)
    ensures Line(p, Shed(q), from)
  {
    assert forall i :: 0 <= i < |q| ==> (p + q)[|p| + i] == q[i];
    NothingKept(p, q, from);
    assert q[..|q|] == q;
    ShedLine(p, q, |q|, from);
  }

  /** Before anything is kept, the pending tags precede the rest. */
  lemma {:induction false} NothingKept(p: seq<Tag>, q: seq<Tag>, from: nat)
    requires Ascending(p + q, from) && HaveBatch(q)
    ensures PrecedesAll(p, Thinning([], true, 0), q, from)
  {
    assert p + [] == p;
    forall i | 0 <= i < |q| ensures Precedes(p, Thinning([], true, 0), q[i], from) {
      assert (p + q)[|p| + i] == q[i];
      assert forall j :: 0 <= j < |p| ==> (p + q)[j] == p[j];
    }
  }

  lemma {:induction false} PendingBounds(p: seq<Tag>, q: seq<Tag>, limit: nat, t: nat)
    ensures AllBelow(p + q, limit) && 0 < limit ==> AllBelow(p + Shed(q).kept, limit) && Shed(q).carried < limit
    ensures Above(p + q, t) ==> Above(p + Shed(q).kept, t) && (Shed(q).carried > 0 ==> t < Shed(q).carried)
  {
    hide Shed;
    ShedBounds(q, limit, t);
    assert forall i :: 0 <= i < |p| ==> (p + q)[i] == p[i];
    assert forall i :: 0 <= i < |q| ==> (p + q)[|p| + i] == q[i];
  }

  lemma {:induction false} ShedBatches(p: seq<Tag>, q: seq<Tag>, last: nat, t: nat, from: nat, epoch: nat)
    requires BatchesUpTo(p + q, last)
    ensures BatchesUpTo(p + Shed(q).kept, last)
    ensures Beyond(p + q, t, from, epoch) ==> Beyond(p + Shed(q).kept, t, from, epoch) && (Shed(q).carried > 0 ==> t < Shed(q).carried)
  {
    var kept := Shed(q).kept;
    if Beyond(p + q, t, from, epoch) { PendingBounds(p, q, 0, t); }
    forall i | 0 <= i < |p + kept|
      ensures 0 < (p + kept)[i].batch <= last
      ensures Beyond(p + q, t, from, epoch) ==> epoch <= (p + kept)[i].epoch && t < Ceiling((p + kept)[i], from)
    {
      if i < |p| {
        assert (p + q)[i] == (p + kept)[i];
      } else {
        var k := ShedMember(q, i - |p|);
        assert (p + q)[|p| + k] == q[k];
      }
    }
  }

  /** Shedding leaves the incoming tags ready. */
  lemma {:induction false} ShedReady(v: View, l: seq<Tag>, frames: int)
    requires Tickets(v) && Ready(v, l, frames)
    ensures Ready(ShedQueue(v), l, frames)
  {
    hide Frames, Shed, Ascending, AllBelow, BatchesUpTo, Beyond, Coming, Anchor;
    var u := ShedQueue(v);
    if v.g.orderly && Alive(v) {
      var p := Current(v.w.pc);
      assert Pending(v) == p + v.q && Pending(u) == p + Shed(v.q).kept;
      BatchesAre(p + v.q, v.g.last);
      BatchesAre(l, v.g.last);
      ShedBefore(p, v.q, l, v.g.exactFrom);
      CarriedMax(l, v.s.carried, Shed(v.q).carried, v.g.exactFrom);
    }
  }

  lemma {:induction false} CarriedMax(l: seq<Tag>, a: nat, b: nat, from: nat)
    ensures CarriedBehind(l, a, from) && CarriedBehind(l, b, from) ==> CarriedBehind(l, NatMax(a, b), from)
  {}

  lemma {:induction false} ShedBefore(p: seq<Tag>, q: seq<Tag>, l: seq<Tag>, from: nat)
    requires Ascending(p + q + l, from) && HaveBatch(p + q) && HaveBatch(l)
    ensures Ascending(p + Shed(q).kept + l, from) && CarriedBehind(l, Shed(q).carried, from)
  {
    var a, t := p + q, Shed(q);
    AscendingParts(a, l, from);
    ShedInLine(p, q, from);
    forall j | 0 <= j < |l|
      ensures forall i :: 0 <= i < |p + t.kept| ==> Follows((p + t.kept)[i], l[j], from)
      ensures t.carried < Ceiling(l[j], from) && (l[j].ticket > 0 ==> t.carried < l[j].ticket)
    {
      assert forall i :: 0 <= i < |a| ==> Follows(a[i], l[j], from) by {
        assert forall i :: 0 <= i < |a| ==> (a + l)[i] == a[i] && (a + l)[|a| + j] == l[j];
      }
      ShedFollowed(p, q, l[j], from);
    }
    AscendingJoin(p + t.kept, l, from);
  }

  /** What follows everything pending follows what shedding leaves of it. */
  lemma {:induction false} ShedFollowed(p: seq<Tag>, q: seq<Tag>, x: Tag, from: nat)
    requires 0 < x.batch && forall i :: 0 <= i < |p + q| ==> Follows((p + q)[i], x, from)
    ensures forall i :: 0 <= i < |p + Shed(q).kept| ==> Follows((p + Shed(q).kept)[i], x, from)
    ensures Shed(q).carried < Ceiling(x, from) && (x.ticket > 0 ==> Shed(q).carried < x.ticket)
  {
    var kept := Shed(q).kept;
    PendingBounds(p, q, Ceiling(x, from), 0);
    PendingBounds(p, q, x.ticket, 0);
    forall i | 0 <= i < |p + kept| ensures (p + kept)[i].epoch <= x.epoch {
      if i < |p| {
        assert (p + q)[i] == (p + kept)[i];
      } else {
        var k := ShedMember(q, i - |p|);
        assert (p + q)[|p| + k] == q[k];
      }
    }
  }

  lemma {:induction false} AscendingParts(a: seq<Tag>, b: seq<Tag>, from: nat)
    requires Ascending(a + b, from)
    ensures Ascending(a, from) && Ascending(b, from)
  {
    assert forall i :: 0 <= i < |a| ==> (a + b)[i] == a[i];
    assert forall i :: 0 <= i < |b| ==> (a + b)[|a| + i] == b[i];
  }

  lemma {:induction false} AscendingJoin(a: seq<Tag>, b: seq<Tag>, from: nat)
    requires Ascending(a, from) && Ascending(b, from)
    requires forall i, j :: 0 <= i < |a| && 0 <= j < |b| ==> Follows(a[i], b[j], from)
    ensures Ascending(a + b, from)
  {
    var u := a + b;
    forall i, j | 0 <= i < j < |u| ensures Follows(u[i], u[j], from) {
      if j < |a| { assert u[i] == a[i] && u[j] == a[j]; }
      else if i < |a| { assert u[i] == a[i] && u[j] == b[j - |a|]; }
      else { assert u[i] == b[i - |a|] && u[j] == b[j - |a|]; }
    }
  }

  // Queueing.

  lemma {:induction false} PopReady(v: View, l: seq<Tag>, frames: int)
    requires Ready(v, l, frames) && v.w.pc.Idle?
    ensures Ready(Pop(v), l, frames)
  {
    hide Frames, Ascending, AllBelow, BatchesUpTo, Beyond, LastFrame, Coming, Pending;
    PopSame(v);
  }

  lemma {:induction false} PushKeeps(v: View, l: seq<Tag>, frames: int)
    requires Inv(v) && Ready(v, l, frames) && (Alive(v) ==> Accepting(v.s))
    ensures Inv(Push(v, l, frames))
  {
    hide Fence, Staged, InHand, Gop, HasHeader, KeyWritten, Thin, Ascending, AllBelow, BatchesUpTo, Beyond, HasEpoch, FramesReady, TicketsReady;
    PushBasics(v, l, frames);
    PushGop(v, l, frames);
    if v.g.orderly && Alive(v) { PushTickets(v, l, frames); }
  }

  lemma {:induction false} PushBasics(v: View, l: seq<Tag>, frames: int)
    requires Inv(v) && Ready(v, l, frames) && (Alive(v) ==> Accepting(v.s))
    ensures var u := Push(v, l, frames); Fence(u) && Staged(u) && InHand(u)
  {
    hide Gop, Tickets, Primed, Published, FramesReady, TicketsReady;
    var u := Push(v, l, frames);
    var t := Thinned(v, l);
    forall i | 0 <= i < |u.q| ensures u.q[i].epoch <= u.s.epoch {
      if i >= |v.q| { var k := ThinMember(l, v.s.dropVideo, v.s.carried, i - |v.q|); }
    }
  }

  /** Frames that are queued follow the last one, or start at a key picture. */
  lemma {:induction false} PushGop(v: View, l: seq<Tag>, frames: int)
    requires Gop(v) && Ready(v, l, frames)
    ensures Gop(Push(v, l, frames))
  {
    hide TicketsReady, GopPrefixes, LastFrame, Coming, Thin, Frames, Attached, EndOf, FromFirstKey, Linked;
    var u := Push(v, l, frames);
    PushComing(v, l, frames);
    ThinFrames(l, v.s.dropVideo, v.s.carried, v.s.epoch);
    assert Anchor(u) == Anchor(v);
    if v.g.orderly && Alive(v) { PushFrames(Anchor(v), Coming(v), Frames(l, v.s.epoch), v.s.dropVideo, v.g.frames, frames); }
  }

  lemma {:induction false} PushComing(v: View, l: seq<Tag>, frames: int)
    ensures Coming(Push(v, l, frames)) == Coming(v) + Frames(Thinned(v, l).kept, v.s.epoch)
  {
    hide Thin, Frames;
    FramesConcat(v.q, Thinned(v, l).kept, v.s.epoch);
  }

  lemma {:induction false} PushFrames(anchor: Option<int>, coming: seq<Frame>, f: seq<Frame>, drop: bool, before: int, after: int)
    requires Attached(anchor, coming) && Linked(f) && (f != [] ==> f[|f| - 1].number == after - 1)
    requires !drop ==> (EndOf(anchor, coming).Some? ==> EndOf(anchor, coming).value == before - 1)
    requires !drop && f == [] ==> after == before
    requires !drop && f != [] && EndOf(anchor, coming).Some? ==> f[0].key || f[0].number == EndOf(anchor, coming).value + 1
    ensures var more := if drop then FromFirstKey(f) else f;
      && Attached(anchor, coming + more)
      && (!(drop && FromFirstKey(f) == []) && EndOf(anchor, coming + more).Some? ==> EndOf(anchor, coming + more).value == after - 1)
  {
    FromFirstKeyLinked(f);
    AttachedJoin(anchor, coming, if drop then FromFirstKey(f) else f);
  }

  lemma {:induction false} AttachedJoin(anchor: Option<int>, f: seq<Frame>, g: seq<Frame>)
    requires Attached(anchor, f) && Linked(g)
    requires g != [] && EndOf(anchor, f).Some? ==> g[0].key || g[0].number == EndOf(anchor, f).value + 1
    ensures Attached(anchor, f + g)
    ensures EndOf(anchor, f + g) == EndOf(EndOf(anchor, f), g)
  {
    var u := f + g;
    forall i, j | 0 <= i < |u| && 0 <= j < |u| && j == i + 1 ensures u[j].key || u[j].number == u[i].number + 1 {
      if j < |f| { assert u[i] == f[i] && u[j] == f[j]; }
      else if i < |f| { assert u[i] == f[|f| - 1] && u[j] == g[0]; }
      else { assert u[i] == g[i - |f|] && u[j] == g[j - |f|]; }
    }
  }

  lemma {:induction false} PushTickets(v: View, l: seq<Tag>, frames: int)
    requires Tickets(v) && Ready(v, l, frames) && v.g.orderly && Alive(v)
    ensures Tickets(Push(v, l, frames))
  {
    hide Ascending, AllBelow, BatchesUpTo, Beyond, Thin, HasEpoch, Above, FramesReady, CarriedBehind;
    var u := Push(v, l, frames);
    var p, t := Pending(v), Thinned(v, l);
    assert Pending(u) == p + t.kept;
    BatchesAre(l, v.g.last);
    ThinInLine(p, l, v.s.dropVideo, v.s.carried, v.g.exactFrom);
    ThinBounds(l, v.s.dropVideo, v.s.carried, v.g.last + 1, v.s.deliveredTicket);
    ThinBatches(p, l, v.s.dropVideo, v.s.carried, v.g.last, v.s.deliveredTicket, v.g.exactFrom, v.s.epoch);
    AboveBeyond(l, v.s.deliveredTicket, v.g.exactFrom, v.s.epoch);
    JoinBelow(p, t.kept, v.g.last + 1);
  }

  lemma {:induction false} AboveBeyond(s: seq<Tag>, t: nat, from: nat, epoch: nat)
    ensures Beyond(s, t, from, epoch) ==> Above(s, t)
  {}

  lemma {:induction false} JoinBelow(a: seq<Tag>, b: seq<Tag>, limit: nat)
    requires AllBelow(a, limit) && AllBelow(b, limit)
    ensures AllBelow(a + b, limit)
  {}

  lemma {:induction false} ThinBatches(p: seq<Tag>, l: seq<Tag>, drop: bool, carried: nat, last: nat, t: nat, from: nat, epoch: nat)
    requires BatchesUpTo(p, last) && BatchesUpTo(l, last)
    ensures BatchesUpTo(p + Thin(l, drop, carried).kept, last)
    ensures Beyond(p, t, from, epoch) && Beyond(l, t, from, epoch) && (carried > 0 ==> t < carried) ==>
      Beyond(p + Thin(l, drop, carried).kept, t, from, epoch)
  {
    hide Thin;
    var kept := Thin(l, drop, carried).kept;
    ThinBounds(l, drop, carried, 0, t);
    forall i | 0 <= i < |kept|
      ensures 0 < kept[i].batch <= last && (Beyond(l, t, from, epoch) ==> epoch <= kept[i].epoch && t < Ceiling(kept[i], from))
    {
      var k := ThinMember(l, drop, carried, i);
    }
    assert forall i :: 0 <= i < |p + kept| ==> (p + kept)[i] == if i < |p| then p[i] else kept[i - |p|];
  }

  /** Thinned tags stay in line behind what is pending. */
  lemma {:induction false} ThinInLine(p: seq<Tag>, l: seq<Tag>, drop: bool, carried: nat, from: nat)
    requires Ascending(p + l, from) && (carried > 0 ==> AllBelow(p, carried)) && CarriedBehind(l, carried, from)
    requires HaveBatch(l)
    ensures Line(p, Thin(l, drop, carried), from)
  {
    if |l| == 0 {
      assert p + [] == p == p + l;
    } else {
      FirstInLine(p, l, drop, carried, from);
      ThinLine(p, l, |l|, drop, carried, from);
      assert l[..|l|] == l;
    }
  }

  /** The first tag may take up the carried ticket or drop. */
  lemma {:induction false} FirstInLine(p: seq<Tag>, l: seq<Tag>, drop: bool, carried: nat, from: nat)
    requires l != [] && Ascending(p + l, from) && (carried > 0 ==> AllBelow(p, carried)) && CarriedBehind(l, carried, from)
    requires HaveBatch(l)
    ensures Line(p, Thin(l[..1], drop, carried), from) && PrecedesAll(p, Thin(l[..1], drop, carried), l[1..], from)
  {
    hide Follows, Thin;
    var x, none, rest := l[0], Thinning([], drop, carried), l[1..];
    assert forall i :: 0 <= i < |p| ==> Follows(p[i], x, from) by {
      assert forall i :: 0 <= i < |p| ==> (p + l)[i] == p[i] && (p + l)[|p|] == x;
    }
    AscendingParts(p, l, from);
    OneInLine(p, x, carried, drop, from);
    forall i | 0 <= i < |rest| ensures Precedes(p, none.Drop(x), rest[i], from) && Precedes(p, none.Keep(x), rest[i], from) {
      assert rest[i] == l[i + 1] == (p + l)[|p| + 1 + i] && l[0] == (p + l)[|p|];
      assert forall j :: 0 <= j < |p| ==> (p + l)[j] == p[j];
      NextPrecedes(p, none, rest[i], from);
      PrecedesStep(p, none, x, rest[i], from);
    }
    ThinOne(x, drop, carried);
    assert l[..1] == [x];
  }

  lemma {:induction false} ThinOne(x: Tag, drop: bool, carried: nat)
    ensures var t, none := Thin([x], drop, carried), Thinning([], drop, carried);
      t == none.Drop(x) || t == none.Keep(x) || t == none.Keep(x).(drop := false)
  {
    assert [x][..0] == [];
  }

  lemma {:induction false} NextPrecedes(p: seq<Tag>, none: Thinning, y: Tag, from: nat)
    requires none.kept == [] && none.carried < Ceiling(y, from) && (y.ticket > 0 ==> none.carried < y.ticket)
    requires forall i :: 0 <= i < |p| ==> Follows(p[i], y, from)
    ensures Precedes(p, none, y, from)
  {
    assert p + [] == p;
  }

  lemma {:induction false} OneInLine(p: seq<Tag>, x: Tag, carried: nat, drop: bool, from: nat)
    requires Ascending(p, from) && (forall i :: 0 <= i < |p| ==> Follows(p[i], x, from)) && (carried > 0 ==> AllBelow(p, carried))
    ensures Line(p, Thinning([], drop, carried).Drop(x), from) && Line(p, Thinning([], drop, carried).Keep(x), from)
  {
    var y := x.(ticket := NatMax(x.ticket, carried));
    assert [] + [y] == [y] && p + [] == p;
    OneKept(p, y, from);
  }

  lemma {:induction false} OneKept(p: seq<Tag>, y: Tag, from: nat)
    requires Ascending(p, from) && forall i :: 0 <= i < |p| ==> Follows(p[i], y, from)
    ensures Ascending(p + [y], from)
  {
    assert forall i :: 0 <= i < |p| ==> (p + [y])[i] == p[i] && (p + [y])[|p|] == y;
  }

  lemma {:induction false} CrowdedKeeps(v: View, l: seq<Tag>, frames: int)
    requires Inv(v) && Ready(v, l, frames)
    ensures Inv(Crowded(v, l))
  {
    hide Fence, Staged, InHand, Frames, LastFrame, GopPrefixes, HasHeader, KeyWritten, Thin, HasEpoch, FramesReady, TicketsReady, Ascending, AllBelow, BatchesUpTo, Beyond, Overtakes;
    CrowdedBasics(v, l);
    if v.g.orderly && Alive(v) { CrowdedTickets(v, l, frames); }
  }

  lemma {:induction false} CrowdedBasics(v: View, l: seq<Tag>)
    requires Inv(v)
    ensures var u := Crowded(v, l); Fence(u) && Staged(u) && InHand(u)
  {
    hide Gop, Tickets, Primed, Published, Thin, Overtakes;
  }

  lemma {:induction false} CrowdedTickets(v: View, l: seq<Tag>, frames: int)
    requires Tickets(v) && Ready(v, l, frames) && v.g.orderly && Alive(v)
    ensures Tickets(Crowded(v, l))
  {
    hide Ascending, BatchesUpTo, Beyond, Thin, HasEpoch, Above, FramesReady, Overtakes, AllBelow, CarriedBehind;
    var u := Crowded(v, l);
    var p, t := Pending(v), Thinned(v, l);
    assert Pending(u) == p;
    BatchesAre(l, v.g.last);
    ThinInLine(p, l, v.s.dropVideo, v.s.carried, v.g.exactFrom);
    ThinBounds(l, v.s.dropVideo, v.s.carried, v.g.last + 1, v.s.deliveredTicket);
    AboveBeyond(l, v.s.deliveredTicket, v.g.exactFrom, v.s.epoch);
    if t.carried > 0 { BelowFirst(p, t.kept, t.carried); }
    Loosened(p, v.s.deliveredTicket, v.g.exactFrom, u.g.exactFrom, v.s.epoch);
  }

  /** What is in line stays so when fewer epochs are held to it. */
  lemma {:induction false} Loosened(p: seq<Tag>, t: nat, from: nat, later: nat, epoch: nat)
    requires from <= later
    ensures Ascending(p, from) ==> Ascending(p, later)
    ensures Beyond(p, t, from, epoch) ==> Beyond(p, t, later, epoch)
  {}

  /** All tags belong to one batch, and only its own ticket is on them. */
  predicate OneBatch(l: seq<Tag>, n: nat) {
    0 < n && forall i :: 0 <= i < |l| ==> l[i].batch == n && (l[i].ticket == 0 || l[i].ticket == n)
  }

  /** If anything of one batch was kept, no other ticket is carried or put on a tag behind it. */
  lemma {:induction false} ThinCarries(l: seq<Tag>, n: nat, drop: bool, carried: nat)
    requires OneBatch(l, n)
    ensures var t := Thin(l, drop, carried);
      && (t.kept != [] ==> t.carried == 0 || t.carried == n)
      && forall i :: 1 <= i < |t.kept| ==> t.kept[i].ticket == 0 || t.kept[i].ticket == n
  {
    if l != [] { ThinCarries(l[..|l| - 1], n, drop, carried); }
  }

  /** After a refused push, the kept tags are ready for a retry. */
  lemma {:induction false} CrowdedReady(v: View, l: seq<Tag>, frames: int, n: nat)
    requires Gop(v) && Tickets(v) && Ready(v, l, frames) && (v.g.orderly ==> OneBatch(l, n))
    ensures Ready(Crowded(v, l), Thinned(v, l).kept, frames)
  {
    hide Thin, Overtakes, OneBatch, FramesReady, TicketsReady, Gop, Tickets;
    var u, t := Crowded(v, l), Thinned(v, l);
    forall i | 0 <= i < |t.kept| ensures t.kept[i].epoch == u.s.epoch { var k := ThinMember(l, v.s.dropVideo, v.s.carried, i); }
    if v.g.orderly && Alive(v) { CrowdedFrames(v, l, frames); }
    if v.g.orderly && Alive(v) { RetryTickets(v, l, frames, n); }
  }

  lemma {:induction false} CrowdedFrames(v: View, l: seq<Tag>, frames: int)
    requires FramesReady(v, l, frames) && forall i :: 0 <= i < |l| ==> l[i].epoch == v.s.epoch
    ensures FramesReady(Crowded(v, l), Thinned(v, l).kept, frames)
  {
    hide Thin, Frames, Overtakes, Coming, Anchor, Linked, EndOf;
    ThinFrames(l, v.s.dropVideo, v.s.carried, v.s.epoch);
    FromFirstKeyLinked(Frames(l, v.s.epoch));
  }

  lemma {:induction false} RetryTickets(v: View, l: seq<Tag>, frames: int, n: nat)
    requires Tickets(v) && Ready(v, l, frames) && OneBatch(l, n) && v.g.orderly && Alive(v)
    ensures TicketsReady(Crowded(v, l), Thinned(v, l).kept)
  {
    hide Thin, HasEpoch, FramesReady, Ascending, AllBelow, BatchesUpTo, Beyond, CarriedBehind, OneBatch, Overtakes;
    var u := Crowded(v, l);
    var p, t := Pending(v), Thinned(v, l);
    assert Pending(u) == p;
    BatchesAre(l, v.g.last);
    ThinInLine(p, l, v.s.dropVideo, v.s.carried, v.g.exactFrom);
    ThinBounds(l, v.s.dropVideo, v.s.carried, v.g.last + 1, v.s.deliveredTicket);
    NothingPending(v.g.last, 0, v.s.deliveredTicket, v.s.epoch, v.g.exactFrom);
    ThinBatches([], l, v.s.dropVideo, v.s.carried, v.g.last, v.s.deliveredTicket, v.g.exactFrom, v.s.epoch);
    assert [] + t.kept == t.kept;
    AboveBeyond(l, v.s.deliveredTicket, v.g.exactFrom, v.s.epoch);
    Loosened(p + t.kept, v.s.deliveredTicket, v.g.exactFrom, u.g.exactFrom, v.s.epoch);
    Loosened(t.kept, v.s.deliveredTicket, v.g.exactFrom, u.g.exactFrom, v.s.epoch);
    RetryBehind(v, l, n);
  }

  /** Either the carried ticket stays in front of what was kept, or the epoch is no longer held to it. */
  lemma {:induction false} RetryBehind(v: View, l: seq<Tag>, n: nat)
    requires OneBatch(l, n) && Line(Pending(v), Thinned(v, l), v.g.exactFrom)
    requires forall i :: 0 <= i < |l| ==> l[i].epoch == v.s.epoch
    ensures CarriedBehind(Thinned(v, l).kept, Crowded(v, l).s.carried, Crowded(v, l).g.exactFrom)
  {
    hide Thin, Ascending, CarriedBehind, AllBelow;
    var t := Thinned(v, l);
    ThinCarries(l, n, v.s.dropVideo, v.s.carried);
    forall i | 0 <= i < |t.kept| ensures t.kept[i].batch == n && t.kept[i].epoch == v.s.epoch { var k := ThinMember(l, v.s.dropVideo, v.s.carried, i); }
    if t.carried > 0 { BelowSecond(Pending(v), t.kept, t.carried); }
    BatchBehind(t.kept, n, v.s.epoch, t.carried, Crowded(v, l).g.exactFrom);
  }

  lemma {:induction false} BelowSecond(p: seq<Tag>, q: seq<Tag>, limit: nat)
    requires AllBelow(p + q, limit)
    ensures AllBelow(q, limit)
  {
    assert forall i :: 0 <= i < |q| ==> (p + q)[|p| + i] == q[i];
  }

  lemma {:induction false} BatchBehind(kept: seq<Tag>, n: nat, epoch: nat, carried: nat, from: nat)
    requires forall i :: 0 <= i < |kept| ==> kept[i].batch == n && kept[i].epoch == epoch
    requires forall i :: 1 <= i < |kept| ==> kept[i].ticket == 0 || kept[i].ticket == n
    requires 0 < n && (kept != [] ==> carried == 0 || carried == n) && (carried > 0 ==> AllBelow(kept, carried))
    requires |kept| >= 2 && carried >= n ==> epoch < from
    ensures CarriedBehind(kept, carried, from)
  {}

  lemma {:induction false} RefuseKeeps(v: View)
    requires Inv(v)
    ensures Inv(Refuse(v))
  {}

  /** A refusal may leave any congestion flags behind. */
  lemma {:induction false} RefusedKeeps(v: View, carried: nat, drop: bool)
    requires Inv(v)
    ensures Inv(Refuse(v.(s := v.s.(carried := carried, dropVideo := drop))))
  {}

  /** An admitted batch bears a single ticket. */
  lemma {:induction false} AdmittedIsOneBatch(tags: seq<Tag>, last: nat, epoch: nat, frames: int)
    requires GoodBatch(tags, last)
    ensures OneBatch(Numbered(tags, epoch, MaxTicket(tags), frames), MaxTicket(tags))
  {
    MaxTicketGood(tags, last);
  }

  lemma {:induction false} DropIncomingKeeps(v: View, frames: int)
    requires Inv(v) && !v.s.status.Running? && !v.s.status.Stopping? && !v.s.status.Failed? && !v.s.resume
    ensures Inv(DropIncoming(v, frames))
  {
    hide Fence, Staged, InHand, LastFrame, GopPrefixes, HasHeader, KeyWritten, Frames, Ascending, AllBelow, BatchesUpTo, Beyond, HasEpoch;
    DropBasics(v, frames);
    DropNothing(v);
    NothingPending(v.g.last, 0, v.s.enqueued, v.s.epoch, v.g.exactFrom);
  }

  lemma {:induction false} DropBasics(v: View, frames: int)
    requires Inv(v) && !v.s.status.Running? && !v.s.status.Stopping? && !v.s.status.Failed? && !v.s.resume
    ensures var u := DropIncoming(v, frames); Fence(u) && Staged(u) && InHand(u)
  {
    hide Gop, Tickets, Primed, Published;
  }

  lemma {:induction false} DropNothing(v: View)
    requires Inv(v) && !v.s.status.Running? && !v.s.resume
    ensures Alive(v) ==> !InLoop(v.w.pc) && v.q == [] && Pending(v) == [] && Coming(v) == []
  {
    hide Gop, Tickets, Primed, Published, Fence;
  }

  // Sound is never thinned.

  /** Everything but media video, whatever tickets it carries. */
  function Sounds(s: seq<Tag>): seq<Tag> {
    if s == [] then []
    else Sounds(s[..|s| - 1]) + if s[|s| - 1].MediaVideo() then [] else [s[|s| - 1].(ticket := 0)]
  }

  lemma {:induction false} SoundsConcat(a: seq<Tag>, b: seq<Tag>)
    ensures Sounds(a + b) == Sounds(a) + Sounds(b)
  {
    if b == [] {
      assert a + b == a;
    } else {
      assert (a + b)[..|a + b| - 1] == a + b[..|b| - 1];
      SoundsConcat(a, b[..|b| - 1]);
    }
  }

  lemma {:induction false} ThinSounds(s: seq<Tag>, drop: bool, carried: nat)
    ensures Sounds(Thin(s, drop, carried).kept) == Sounds(s)
  {
    if s != [] {
      var init, x := s[..|s| - 1], s[|s| - 1];
      ThinSounds(init, drop, carried);
      var before := Thin(init, drop, carried);
      SoundsConcat(before.kept, [x.(ticket := NatMax(x.ticket, before.carried))]);
      assert [x.(ticket := NatMax(x.ticket, before.carried))][..0] == [];
      assert Sounds(init) + [] == Sounds(init);
    }
  }

  lemma {:induction false} ShedSounds(s: seq<Tag>)
    ensures Sounds(Shed(s).kept) == Sounds(s)
  {
    if s != [] {
      var init, x := s[..|s| - 1], s[|s| - 1];
      ShedSounds(init);
      var before := Shed(init);
      SoundsConcat(before.kept, [x.(ticket := NatMax(x.ticket, before.carried))]);
      assert [x.(ticket := NatMax(x.ticket, before.carried))][..0] == [];
      assert Sounds(init) + [] == Sounds(init);
    }
  }

  lemma {:induction false} ShedPending(v: View)
    ensures Sounds(Pending(ShedQueue(v))) == Sounds(Pending(v))
  {
    SoundsConcat(Current(v.w.pc), v.q);
    SoundsConcat(Current(v.w.pc), Shed(v.q).kept);
    ShedSounds(v.q);
  }

  lemma {:induction false} PushPending(v: View, l: seq<Tag>, frames: int)
    ensures Sounds(Pending(Push(v, l, frames))) == Sounds(Pending(v)) + Sounds(l)
    ensures Pending(Push(v, l, frames)) == Pending(v) + Thinned(v, l).kept
  {
    hide Thin, Sounds, Current;
    ThinSounds(l, v.s.dropVideo, v.s.carried);
    SoundsConcat(Pending(v), Thinned(v, l).kept);
    assert Pending(Push(v, l, frames)) == Pending(v) + Thinned(v, l).kept;
  }

  lemma {:induction false} ShedReadyInv(v: View, l: seq<Tag>, frames: int)
    requires Inv(v) && Ready(v, l, frames)
    ensures Ready(ShedQueue(v), l, frames)
  {
    ShedReady(v, l, frames);
  }

  lemma {:induction false} CrowdedReadyInv(v: View, l: seq<Tag>, frames: int, n: nat)
    requires Inv(v) && Ready(v, l, frames) && (v.g.orderly ==> OneBatch(l, n))
    ensures Ready(Crowded(v, l), Thinned(v, l).kept, frames)
  {
    CrowdedReady(v, l, frames, n);
  }

  // What the invariant means.

  /** The largest batch of the current epoch that counts as delivered. */
  function Level(s: Shared): nat { if s.deliveredEpoch == s.epoch then s.deliveredTicket else 0 }

  /** An acknowledged ticket covers its batch and every earlier one: none of their tags is still on its way. */
  lemma {:induction false} AcknowledgedIsGone(v: View, i: nat)
    requires Inv(v) && v.g.orderly && Alive(v) && v.g.exactFrom <= v.s.epoch && 0 < Level(v.s) && i < |Pending(v)|
    ensures Level(v.s) < Pending(v)[i].batch
  {
    hide Gop, Fence, Staged, InHand, Primed, Published;
  }

  /** A lost connection takes an acknowledgement of the current epoch back exactly when a transition cut its I/O after
      media of that epoch was already counted as delivered. Only the first connection of a session can be lost like that. */
  lemma {:induction false} ReconnectTakesBack(v: View)
    requires Inv(v) && v.w.pc.Lost? && v.g.orderly && Alive(v)
    ensures Level(Reconnect(v).s) < Level(v.s) <==> v.s.cancelled && 0 < Level(v.s)
    ensures Level(Reconnect(v).s) < Level(v.s) ==> v.s.status.Starting?
  {
    hide Gop, Fence, InHand, Primed, Published;
  }

  lemma {:induction false} DropIncomingAdvances(v: View, frames: int)
    requires Inv(v) && v.g.orderly && Alive(v)
    ensures Level(v.s) <= Level(DropIncoming(v, frames).s)
  {
    hide Gop, Fence, Staged, InHand, Primed, Published;
  }

  lemma {:induction false} EndResumeAdvances(v: View)
    requires Inv(v) && v.w.pc.ResumeEnd? && v.g.orderly && Alive(v)
    ensures Level(v.s) <= Level(EndResume(v).s)
  {
    hide Gop, Fence, Staged, InHand, Primed, Published;
  }

  /** The acknowledgement of a tag goes beyond every earlier one of its epoch. */
  lemma {:induction false} AcknowledgeAdvances(v: View)
    requires Inv(v) && v.w.pc.Delivered? && v.g.orderly && Alive(v)
    ensures var x := v.w.pc.tag;
            if x.ticket > 0 && x.epoch == v.s.epoch then Level(v.s) < Level(Acknowledge(v).s) == x.ticket
            else Level(Acknowledge(v).s) == Level(v.s)
  {
    hide Fence, Staged, InHand, Gop, Primed, Published, Ascending, AllBelow, BatchesUpTo;
    assert Pending(v)[0] == v.w.pc.tag;
  }

  /** The state of a sender that was just started. */
  function Started(headers: seq<Tag>): View {
    View(Shared(0, 0, 0, 0, 0, 0, 0, false, false, false, false, headers, 0, 0, Starting, false), [],
         Worker(ConnectDue(true), true, 0, 0), [], Ledger(0, 0, 0, true, 0, true))
  }

  lemma {:induction false} StartedKeeps(headers: seq<Tag>)
    requires headers != []
    ensures Inv(Started(headers))
  {}

  /** A run in which an acknowledgement is taken back: the first connection is cut while media of the new epoch has
      already been dropped and acknowledged. */
  lemma {:induction false} AcknowledgementTakenBack(header: Tag, x: Tag)
    requires x.ticket == 7
    ensures var connecting := BeginConnect(Started([header]), false);
      var fenced := Invalidate(connecting, 1);
      var dropped := DropIncoming(Admit(fenced, [x], 1, [header]), 1);
      var lost := EndConnect(dropped, false);
      && lost.g.orderly && Level(lost.s) == 7 && lost.w.pc.Lost?
      && Reconnect(lost).s.epoch == 1 && Level(Reconnect(lost).s) == 0
  {
    assert [x][..0] == [];
    assert MaxTicket([x]) == 7;
  }

  /** The write of a tag begins only in its own epoch and not after a stop. */
  lemma {:induction false} BeginsInEpoch(v: View)
    requires Inv(v) && v.w.pc.Sending? && BeginSend(v).w.pc.Writing?
    ensures !v.s.stop && (JobEpoch(v.w.pc.job).Some? ==> JobEpoch(v.w.pc.job).value == v.s.epoch)
    ensures BeginSend(v).conn == v.conn + EntryOf(v.w.pc.job)
  {
    hide Gop, Tickets, Primed, Published, Staged;
  }

  /** Once an epoch is acknowledged, no write of older media is in progress. */
  lemma {:induction false} AcknowledgedFence(v: View)
    requires Inv(v) && v.w.pc.Writing? && v.w.pc.job.Media?
    ensures v.s.acknowledged <= v.w.pc.job.tag.epoch
  {
    hide Gop, Tickets, Primed, Published, Staged;
  }

  /** Publication of an epoch means headers, a key picture and then sound no earlier than it, on this connection. */
  lemma {:induction false} PublishedIsOnAir(v: View)
    requires Inv(v) && v.w.pc.Publishing? && v.g.orderly && Alive(v)
    ensures Publish(v).s.published != v.s.published ==>
      Publish(v).s.published == v.s.epoch && OnAir(v.conn, v.s.epoch)
  {
    hide Gop, Tickets, Staged, HasHeader;
    var x := v.w.pc.tag;
    if x.MediaAudio() && x.epoch == v.s.epoch && !v.w.awaiting {
      var k :| 0 <= k < |v.conn| && KeyAt(v.conn, k, v.s.epoch, v.w.cutoff);
      var a := |v.conn| - 1;
      assert v.conn[a] == MediaEntry(x) && k < a;
      assert KeyAt(v.conn, k, v.s.epoch, v.conn[k].tag.time);
    }
  }
}
