/** Every atomic step of a sender keeps its invariant. */
module SenderProofs {
  import opened Media
  import opened SenderQueue
  import opened SenderState
  import opened SenderSteps

  lemma {:induction false} FramesConcat(a: seq<Tag>, b: seq<Tag>, epoch: nat)
    ensures Frames(a + b, epoch) == Frames(a, epoch) + Frames(b, epoch)
  {
    if b == [] {
      assert a + b == a;
    } else {
      assert (a + b)[..|a + b| - 1] == a + b[..|b| - 1];
      FramesConcat(a, b[..|b| - 1], epoch);
    }
  }

  lemma {:induction false} FramesOne(x: Tag, epoch: nat)
    ensures Frames([x], epoch) == FrameOf(x, epoch)
  {
    assert [x][..0] == [];
  }

  lemma {:induction false} FramesNone(s: seq<Tag>, epoch: nat)
    requires forall i :: 0 <= i < |s| ==> s[i].epoch != epoch
    ensures Frames(s, epoch) == []
  {
    if s != [] { FramesNone(s[..|s| - 1], epoch); }
  }

  lemma {:induction false} FramesPop(x: Tag, rest: seq<Tag>, epoch: nat)
    ensures Frames([x] + rest, epoch) == FrameOf(x, epoch) + Frames(rest, epoch)
  {
    FramesConcat([x], rest, epoch);
    FramesOne(x, epoch);
  }

  lemma {:induction false} LastFrameSnoc(conn: seq<Entry>, x: Entry, epoch: nat)
    ensures LastFrame(conn + [x], epoch) ==
      if x.MediaEntry? && FrameOf(x.tag, epoch) != [] then Some(x.tag.frame) else LastFrame(conn, epoch)
  {
    assert (conn + [x])[..|conn|] == conn;
  }

  lemma {:induction false} LastFrameNone(conn: seq<Entry>, epoch: nat)
    requires forall i :: 0 <= i < |conn| && conn[i].MediaEntry? ==> conn[i].tag.epoch != epoch
    ensures LastFrame(conn, epoch) == None
  {
    if conn != [] { LastFrameNone(conn[..|conn| - 1], epoch); }
  }

  lemma {:induction false} GopSnoc(conn: seq<Entry>, x: Entry)
    requires GopPrefixes(conn)
    requires x.MediaEntry? && x.tag.MediaVideo() && !x.tag.keyframe ==> LastFrame(conn, x.tag.epoch) == Some(x.tag.frame - 1)
    ensures GopPrefixes(conn + [x])
  {
    var u := conn + [x];
    forall i | 0 <= i < |u| && u[i].MediaEntry? && u[i].tag.MediaVideo() && !u[i].tag.keyframe
      ensures LastFrame(u[..i], u[i].tag.epoch) == Some(u[i].tag.frame - 1)
    {
      assert u[..i] == conn[..i];
      if i == |conn| { assert conn[..i] == conn; }
    }
  }

  lemma {:induction false} HeaderSnoc(conn: seq<Entry>, x: Entry, epoch: nat)
    ensures HasHeader(conn + [x], epoch) <==> HasHeader(conn, epoch) || x == HeaderEntry(epoch)
  {
    var u := conn + [x];
    if HasHeader(conn, epoch) {
      var h :| 0 <= h < |conn| && conn[h] == HeaderEntry(epoch);
      assert u[h] == HeaderEntry(epoch);
    }
    assert u[|conn|] == x;
    if HasHeader(u, epoch) && x != HeaderEntry(epoch) {
      var h :| 0 <= h < |u| && u[h] == HeaderEntry(epoch);
      assert conn[h] == HeaderEntry(epoch);
    }
  }

  lemma {:induction false} KeySnoc(conn: seq<Entry>, x: Entry, epoch: nat, cutoff: nat)
    requires KeyWritten(conn, epoch, cutoff)
    ensures KeyWritten(conn + [x], epoch, cutoff)
  {
    var k :| 0 <= k < |conn| && KeyAt(conn, k, epoch, cutoff);
    assert (conn + [x])[..k] == conn[..k];
    assert KeyAt(conn + [x], k, epoch, cutoff);
  }

  // Parts of the invariant that most steps leave alone.

  predicate Suffix<T(==)>(a: seq<T>, b: seq<T>) {
    a == b || (b != [] && a == b[1..])
  }

  predicate SameTickets(v: View, u: View) {
    && u.g.last == v.g.last && u.g.orderly == v.g.orderly && u.g.exactFrom == v.g.exactFrom
    && (Alive(u) ==>
          && Alive(v) && Suffix(Pending(u), Pending(v))
          && u.s.carried == v.s.carried && u.s.dropVideo == v.s.dropVideo && u.s.enqueued == v.s.enqueued && u.s.epoch == v.s.epoch
          && u.s.deliveredEpoch == v.s.deliveredEpoch && u.s.deliveredTicket == v.s.deliveredTicket)
  }

  lemma {:induction false} TicketsSame(v: View, u: View)
    requires Tickets(v) && SameTickets(v, u)
    ensures Tickets(u)
  {
    hide InLine, Pending;
    if u.g.orderly && Alive(u) { InLineSuffix(Pending(v), Pending(u), v.s, u.s, v.g.last, v.g.exactFrom); }
  }

  lemma {:induction false} InLineSuffix(p: seq<Tag>, q: seq<Tag>, s: Shared, s': Shared, last: nat, from: nat)
    requires InLine(p, s, last, from) && Suffix(q, p)
    requires s'.carried == s.carried && s'.dropVideo == s.dropVideo && s'.enqueued == s.enqueued && s'.epoch == s.epoch
    requires s'.deliveredEpoch == s.deliveredEpoch && s'.deliveredTicket == s.deliveredTicket
    ensures InLine(q, s', last, from)
  {
    if q != p { EpochBehind(p[0], q, s.epoch); assert [p[0]] + q == p; }
  }

  /** The worker is in step with the decoder only if it sent or is about to send a key picture. */
  predicate InStep(v: View) {
    InLoop(v.w.pc) && !v.w.awaiting && v.w.mediaEpoch == v.s.epoch ==> LastFrame(v.conn, v.s.epoch).Some? || FreshKey(v.w)
  }

  predicate SameFrames(v: View, u: View) {
    && u.g.frames == v.g.frames && u.g.orderly == v.g.orderly
    && (Alive(u) ==>
          && Alive(v) && u.s.epoch == v.s.epoch && u.s.dropVideo == v.s.dropVideo
          && (|| (Coming(u) == Coming(v) && (Anchor(u) == Anchor(v) || Anchor(u) == None))
              || (Suffix(Coming(u), Coming(v)) && Anchor(u) == None)
              || (Coming(u) == Coming(v) && Coming(u) != [] && Coming(u)[0].key)))
  }

  lemma {:induction false} GopSame(v: View, u: View)
    requires Gop(v) && SameFrames(v, u) && (v.g.orderly ==> GopPrefixes(u.conn) && (Alive(u) ==> InStep(u)))
    ensures Gop(u)
  {
    hide Coming, Anchor, GopPrefixes, LastFrame;
  }

  lemma {:induction false} GopUse(v: View)
    requires Gop(v)
    ensures v.g.orderly ==> GopPrefixes(v.conn) && (Alive(v) ==> InStep(v))
  {}

  lemma {:induction false} HeadedSame(v: View, u: View)
    requires Primed(v) && u.s.headers == v.s.headers && u.g.headed == v.g.headed
    requires SameTickets(v, u)
    ensures u.g.headed ==> u.s.headers != []
    ensures u.g.orderly && Alive(u) && HasEpoch(Pending(u), u.s.epoch) ==> u.g.headed
  {
    if Alive(u) && Pending(u) != Pending(v) {
      EpochBehind(Pending(v)[0], Pending(u), u.s.epoch);
      assert [Pending(v)[0]] + Pending(u) == Pending(v);
    }
  }

  /** A tag of the current epoch in the worker's hands means that the epoch has headers. */
  lemma {:induction false} HandHeaded(v: View)
    requires Primed(v)
    ensures v.g.orderly && Alive(v) && Hand(v.w.pc) != [] && Hand(v.w.pc)[0].epoch == v.s.epoch ==> v.g.headed
  {
    if Hand(v.w.pc) != [] { assert Pending(v)[0] == Hand(v.w.pc)[0]; }
  }

  lemma {:induction false} PopSame(v: View)
    requires v.w.pc.Idle?
    ensures Coming(Pop(v)) == Coming(v) && Pending(Pop(v)) == Pending(v)
  {
    hide Frames;
    if v.q != [] && !v.s.stop {
      assert v.q == [v.q[0]] + v.q[1..];
      FramesPop(v.q[0], v.q[1..], v.s.epoch);
      assert [] + Frames(v.q, v.s.epoch) == Frames(v.q, v.s.epoch);
    }
  }

  // The steps.

  /** Steps outside the loop that touch neither the queue nor what the loop relies on. */
  predicate Quiet(v: View, u: View) {
    && !InLoop(v.w.pc) && !InLoop(u.w.pc) && (IsDoomed(v.w.pc) ==> IsDoomed(u.w.pc)) && v.s.stop == u.s.stop
    && (u.q == v.q || !Alive(u)) && u.g == v.g.(entry := u.g.entry) && (u.conn == v.conn || u.conn == [])
    && u.s.epoch == v.s.epoch && u.s.enqueued == v.s.enqueued && u.s.carried == v.s.carried && u.s.dropVideo == v.s.dropVideo
    && u.s.deliveredEpoch == v.s.deliveredEpoch && u.s.deliveredTicket == v.s.deliveredTicket
    && u.s.headers == v.s.headers && u.s.revision == v.s.revision
  }

  lemma {:induction false} QuietKeeps(v: View, u: View)
    requires Inv(v) && Quiet(v, u) && Fence(u) && Staged(u) && InHand(u)
    requires u.w.pc.Sending? ==> u.w.pc.job.FileHeader? || (u.w.pc.job.ConnectHeader? && ConnectPrimed(u))
    requires !u.w.pc.Writing? && (u.w.pc.SetPrimed? || u.w.pc.Connected? ==> ConnectPrimed(u))
    ensures Inv(u)
  {
    hide Fence, Staged, InHand, Gop, Tickets, HasEpoch, HasHeader, KeyWritten, LastFrame, GopPrefixes;
    QuietGop(v, u);
    QuietTickets(v, u);
  }

  /** The headers that are about to go out, or went out, belong to the current epoch. */
  predicate ConnectPrimed(v: View) {
    v.g.orderly && Alive(v) ==>
      && (v.w.pc.Connected? && v.s.primed == v.s.revision && v.g.headed ==> HasHeader(v.conn, v.s.epoch))
      && (v.w.pc.SetPrimed? && v.w.pc.revision == v.s.revision && v.g.headed ==> HasHeader(v.conn, v.s.epoch))
      && (v.w.pc.Sending? && v.w.pc.job.ConnectHeader? && v.w.pc.job.revision == v.s.revision ==>
            forall i :: 0 <= i < |v.w.pc.job.rest| ==> v.w.pc.job.rest[i].epoch == v.s.epoch)
  }

  lemma {:induction false} QuietGop(v: View, u: View)
    requires Gop(v) && Quiet(v, u)
    ensures Gop(u)
  {
    hide Frames, LastFrame;
    GopUse(v);
    if Alive(u) {
      assert Hand(u.w.pc) == [] && Hand(v.w.pc) == [];
      GopSame(v, u);
    }
  }

  lemma {:induction false} QuietTickets(v: View, u: View)
    requires Tickets(v) && Quiet(v, u)
    ensures Tickets(u)
    ensures Alive(u) ==> Alive(v) && Pending(u) == Pending(v)
  {
    hide InLine;
    if Alive(u) {
      assert Current(u.w.pc) == [] && Current(v.w.pc) == [];
      if v.g.orderly { InLineSuffix(Pending(v), Pending(u), v.s, u.s, v.g.last, v.g.exactFrom); }
    }
  }

  lemma {:induction false} BeginConnectBasics(v: View, timedOut: bool)
    requires Inv(v) && v.w.pc.ConnectDue?
    ensures var u := BeginConnect(v, timedOut); Fence(u) && Staged(u) && InHand(u) && Quiet(v, u)
  {
    hide Gop, Tickets, Primed, Published;
  }

  lemma {:induction false} BeginConnectKeeps(v: View, timedOut: bool)
    requires Inv(v) && v.w.pc.ConnectDue?
    ensures Inv(BeginConnect(v, timedOut))
  {
    hide Gop, Tickets, Published, Fence, Staged, InHand, Quiet, HasEpoch, HasHeader;
    BeginConnectBasics(v, timedOut);
    QuietKeeps(v, BeginConnect(v, timedOut));
  }

  lemma {:induction false} EndConnectBasics(v: View, ok: bool)
    requires Inv(v) && v.w.pc.Connecting?
    ensures var u := EndConnect(v, ok); Fence(u) && Staged(u) && InHand(u) && Quiet(v, u)
  {
    hide Gop, Tickets, Primed, Published;
  }

  lemma {:induction false} EndConnectKeeps(v: View, ok: bool)
    requires Inv(v) && v.w.pc.Connecting?
    ensures Inv(EndConnect(v, ok))
  {
    hide Gop, Tickets, Published, Fence, Staged, InHand, Quiet, HasEpoch, HasHeader;
    EndConnectBasics(v, ok);
    QuietKeeps(v, EndConnect(v, ok));
  }

  lemma {:induction false} ReadConnectHeadersBasics(v: View)
    requires Inv(v) && v.w.pc.ReadHeaders?
    ensures var u := ReadConnectHeaders(v); Fence(u) && Staged(u) && InHand(u) && Quiet(v, u)
  {
    hide Gop, Tickets, Primed, Published;
  }

  lemma {:induction false} ReadConnectHeadersKeeps(v: View)
    requires Inv(v) && v.w.pc.ReadHeaders?
    ensures Inv(ReadConnectHeaders(v))
  {
    hide Gop, Tickets, Published, Fence, Staged, InHand, Quiet, HasEpoch, HasHeader;
    ReadConnectHeadersBasics(v);
    QuietKeeps(v, ReadConnectHeaders(v));
  }

  lemma {:induction false} PrimeConnectionBasics(v: View)
    requires Inv(v) && v.w.pc.SetPrimed?
    ensures var u := PrimeConnection(v); Fence(u) && Staged(u) && InHand(u) && Quiet(v, u)
  {
    hide Gop, Tickets, Primed, Published;
  }

  lemma {:induction false} PrimeConnectionKeeps(v: View)
    requires Inv(v) && v.w.pc.SetPrimed?
    ensures Inv(PrimeConnection(v))
  {
    hide Gop, Tickets, Published, Fence, Staged, InHand, Quiet, HasEpoch, HasHeader;
    PrimeConnectionBasics(v);
    QuietKeeps(v, PrimeConnection(v));
  }

  lemma {:induction false} BeginCloseBasics(v: View)
    requires Inv(v) && v.w.pc.CloseDue?
    ensures var u := BeginClose(v); Fence(u) && Staged(u) && InHand(u) && Quiet(v, u)
  {
    hide Gop, Tickets, Primed, Published;
  }

  lemma {:induction false} BeginCloseKeeps(v: View)
    requires Inv(v) && v.w.pc.CloseDue?
    ensures Inv(BeginClose(v))
  {
    hide Gop, Tickets, Published, Fence, Staged, InHand, Quiet, HasEpoch, HasHeader;
    BeginCloseBasics(v);
    QuietKeeps(v, BeginClose(v));
  }

  lemma {:induction false} EndCloseBasics(v: View)
    requires Inv(v) && v.w.pc.Closing?
    ensures var u := EndClose(v); Fence(u) && Staged(u) && InHand(u)
  {
    hide Gop, Tickets, Primed, Published;
  }

  lemma {:induction false} EndCloseQuiet(v: View)
    requires v.w.pc.Closing?
    ensures Quiet(v, EndClose(v))
  {}

  lemma {:induction false} EndCloseKeeps(v: View)
    requires Inv(v) && v.w.pc.Closing?
    ensures Inv(EndClose(v))
  {
    hide Gop, Tickets, Published, Fence, Staged, InHand, Quiet, HasEpoch, HasHeader;
    EndCloseBasics(v);
    EndCloseQuiet(v);
    QuietKeeps(v, EndClose(v));
  }

  lemma {:induction false} TakeCancellationBasics(v: View)
    requires Inv(v) && v.w.pc.CancelDue?
    ensures var u := TakeCancellation(v); Fence(u) && Staged(u) && InHand(u) && Quiet(v, u)
  {
    hide Gop, Tickets, Primed, Published;
  }

  lemma {:induction false} TakeCancellationKeeps(v: View)
    requires Inv(v) && v.w.pc.CancelDue?
    ensures Inv(TakeCancellation(v))
  {
    hide Gop, Tickets, Published, Fence, Staged, InHand, Quiet, HasEpoch, HasHeader;
    TakeCancellationBasics(v);
    QuietKeeps(v, TakeCancellation(v));
  }

  lemma {:induction false} ReplaceBasics(v: View, ok: bool)
    requires Inv(v) && v.w.pc.ReplaceDue?
    ensures var u := Replace(v, ok); Fence(u) && Staged(u) && InHand(u) && Quiet(v, u)
  {
    hide Gop, Tickets, Primed, Published;
  }

  lemma {:induction false} ReplaceKeeps(v: View, ok: bool)
    requires Inv(v) && v.w.pc.ReplaceDue?
    ensures Inv(Replace(v, ok))
  {
    hide Gop, Tickets, Published, Fence, Staged, InHand, Quiet, HasEpoch, HasHeader;
    ReplaceBasics(v, ok);
    QuietKeeps(v, Replace(v, ok));
  }

  lemma {:induction false} RetryBasics(v: View, exhausted: bool)
    requires Inv(v) && v.w.pc.RetryDue?
    ensures var u := Retry(v, exhausted); Fence(u) && Staged(u) && InHand(u) && Quiet(v, u)
  {
    hide Gop, Tickets, Primed, Published;
  }

  lemma {:induction false} RetryKeeps(v: View, exhausted: bool)
    requires Inv(v) && v.w.pc.RetryDue?
    ensures Inv(Retry(v, exhausted))
  {
    hide Gop, Tickets, Published, Fence, Staged, InHand, Quiet, HasEpoch, HasHeader;
    RetryBasics(v, exhausted);
    QuietKeeps(v, Retry(v, exhausted));
  }

  lemma {:induction false} EnterLoopBasics(v: View, timedOut: bool)
    requires Inv(v) && v.w.pc.Connected?
    ensures var u := EnterLoop(v, timedOut); Fence(u) && Staged(u) && InHand(u) && SameTickets(v, u)
  {
    hide Gop, Tickets, Primed, Published;
  }

  lemma {:induction false} EnterLoopGop(v: View, timedOut: bool)
    requires Inv(v) && v.w.pc.Connected?
    ensures Gop(EnterLoop(v, timedOut))
  {
    hide Gop, Tickets, Primed, Published, Frames, LastFrame, GopPrefixes, Staged, Fence;
    GopUse(v);
    GopSame(v, EnterLoop(v, timedOut));
  }

  lemma {:induction false} EnterLoopRest(v: View, timedOut: bool)
    requires Inv(v) && v.w.pc.Connected?
    ensures Primed(EnterLoop(v, timedOut)) && Published(EnterLoop(v, timedOut))
  {
    hide Gop, Tickets, Staged, SameTickets, KeyWritten, HasHeader, HasEpoch, Pending, Current;
    EnterLoopBasics(v, timedOut);
    HeadedSame(v, EnterLoop(v, timedOut));
  }

  lemma {:induction false} EnterLoopKeeps(v: View, timedOut: bool)
    requires Inv(v) && v.w.pc.Connected?
    ensures Inv(EnterLoop(v, timedOut))
  {
    hide Gop, Fence, Staged, InHand, Primed, Published, Tickets, SameTickets;
    EnterLoopBasics(v, timedOut);
    EnterLoopGop(v, timedOut);
    EnterLoopRest(v, timedOut);
    TicketsSame(v, EnterLoop(v, timedOut));
  }

  lemma {:induction false} PopBasics(v: View)
    requires Inv(v) && v.w.pc.Idle?
    ensures var u := Pop(v); Fence(u) && Staged(u) && InHand(u) && SameTickets(v, u)
  {
    hide Gop, Tickets, Primed, Published, Coming;
    PopSame(v);
  }

  lemma {:induction false} PopGop(v: View)
    requires Inv(v) && v.w.pc.Idle?
    ensures Gop(Pop(v))
  {
    hide Gop, Tickets, Primed, Published, Frames, LastFrame, GopPrefixes, Staged, Fence;
    GopUse(v);
    PopSame(v);
    GopSame(v, Pop(v));
  }

  lemma {:induction false} PopRest(v: View)
    requires Inv(v) && v.w.pc.Idle?
    ensures Primed(Pop(v)) && Published(Pop(v))
  {
    hide Gop, Tickets, Staged, SameTickets, KeyWritten, HasHeader, HasEpoch, Pending, Current;
    PopBasics(v);
    HeadedSame(v, Pop(v));
  }

  lemma {:induction false} PopKeeps(v: View)
    requires Inv(v) && v.w.pc.Idle?
    ensures Inv(Pop(v))
  {
    hide Gop, Fence, Staged, InHand, Primed, Published, Tickets, SameTickets;
    PopBasics(v);
    PopGop(v);
    PopRest(v);
    TicketsSame(v, Pop(v));
  }

  lemma {:induction false} CheckEpochBasics(v: View)
    requires Inv(v) && v.w.pc.Popped?
    ensures var u := CheckEpoch(v); Fence(u) && Staged(u) && InHand(u) && SameTickets(v, u)
  {
    hide Gop, Tickets, Primed, Published;
  }

  lemma {:induction false} CheckEpochGop(v: View)
    requires Inv(v) && v.w.pc.Popped?
    ensures Gop(CheckEpoch(v))
  {
    hide Gop, Tickets, Primed, Published, Frames, LastFrame, GopPrefixes, Staged, Fence;
    GopUse(v);
    GopSame(v, CheckEpoch(v));
  }

  lemma {:induction false} CheckEpochRest(v: View)
    requires Inv(v) && v.w.pc.Popped?
    ensures Primed(CheckEpoch(v)) && Published(CheckEpoch(v))
  {
    hide Gop, Tickets, Staged, SameTickets, KeyWritten, HasHeader, HasEpoch, Pending, Current;
    CheckEpochBasics(v);
    HeadedSame(v, CheckEpoch(v));
  }

  lemma {:induction false} CheckEpochKeeps(v: View)
    requires Inv(v) && v.w.pc.Popped?
    ensures Inv(CheckEpoch(v))
  {
    hide Gop, Fence, Staged, InHand, Primed, Published, Tickets, SameTickets;
    CheckEpochBasics(v);
    CheckEpochGop(v);
    CheckEpochRest(v);
    TicketsSame(v, CheckEpoch(v));
  }

  lemma {:induction false} ReadLoopHeadersBasics(v: View)
    requires Inv(v) && v.w.pc.Priming?
    ensures var u := ReadLoopHeaders(v); Fence(u) && Staged(u) && InHand(u) && SameTickets(v, u)
  {
    hide Gop, Tickets, Primed, Published;
  }

  lemma {:induction false} ReadLoopHeadersGop(v: View)
    requires Inv(v) && v.w.pc.Priming?
    ensures Gop(ReadLoopHeaders(v))
  {
    hide Gop, Tickets, Primed, Published, Frames, LastFrame, GopPrefixes, Staged, Fence;
    GopUse(v);
    GopSame(v, ReadLoopHeaders(v));
  }

  lemma {:induction false} ReadLoopHeadersRest(v: View)
    requires Inv(v) && v.w.pc.Priming?
    ensures Primed(ReadLoopHeaders(v)) && Published(ReadLoopHeaders(v))
  {
    hide Gop, Tickets, Staged, SameTickets, KeyWritten, HasHeader, HasEpoch, Pending, Current;
    ReadLoopHeadersBasics(v);
    HeadedSame(v, ReadLoopHeaders(v));
    HandHeaded(v);
  }

  lemma {:induction false} ReadLoopHeadersKeeps(v: View)
    requires Inv(v) && v.w.pc.Priming?
    ensures Inv(ReadLoopHeaders(v))
  {
    hide Gop, Fence, Staged, InHand, Primed, Published, Tickets, SameTickets;
    ReadLoopHeadersBasics(v);
    ReadLoopHeadersGop(v);
    ReadLoopHeadersRest(v);
    TicketsSame(v, ReadLoopHeaders(v));
  }

  lemma {:induction false} PublishBasics(v: View)
    requires Inv(v) && v.w.pc.Publishing?
    ensures var u := Publish(v); Fence(u) && Staged(u) && InHand(u) && SameTickets(v, u)
  {
    hide Gop, Tickets, Primed, Published;
  }

  lemma {:induction false} PublishGop(v: View)
    requires Inv(v) && v.w.pc.Publishing?
    ensures Gop(Publish(v))
  {
    hide Gop, Tickets, Primed, Published, Frames, LastFrame, GopPrefixes, Staged, Fence;
    GopUse(v);
    GopSame(v, Publish(v));
  }

  lemma {:induction false} PublishRest(v: View)
    requires Inv(v) && v.w.pc.Publishing?
    ensures Primed(Publish(v)) && Published(Publish(v))
  {
    hide Gop, Tickets, Staged, SameTickets, KeyWritten, HasHeader, HasEpoch, Pending, Current;
    PublishBasics(v);
    HeadedSame(v, Publish(v));
  }

  lemma {:induction false} PublishKeeps(v: View)
    requires Inv(v) && v.w.pc.Publishing?
    ensures Inv(Publish(v))
  {
    hide Gop, Fence, Staged, InHand, Primed, Published, Tickets, SameTickets;
    PublishBasics(v);
    PublishGop(v);
    PublishRest(v);
    TicketsSame(v, Publish(v));
  }

  lemma {:induction false} SelectBasics(v: View)
    requires Inv(v) && v.w.pc.Confirm?
    ensures var u := Select(v); Fence(u) && Staged(u) && InHand(u) && SameTickets(v, u)
  {
    hide Gop, Tickets, Primed, Published;
  }

  lemma {:induction false} SelectGop(v: View)
    requires Inv(v) && v.w.pc.Confirm?
    ensures Gop(Select(v))
  {
    hide Gop, Tickets, Primed, Published, Frames, LastFrame, GopPrefixes, Staged, Fence;
    GopUse(v);
    GopSame(v, Select(v));
  }

  lemma {:induction false} SelectSame(v: View)
    requires Inv(v) && v.w.pc.Confirm?
    ensures SameTickets(v, Select(v)) && !Select(v).w.pc.Confirm?
    ensures Up(v.w.pc) && (Alive(Select(v)) ==> Alive(v)) && !Select(v).w.pc.SetPrimed?
    ensures Select(v).w.pc.Sending? || Select(v).w.pc.Writing? ==> Select(v).w.pc.job.Media?
    ensures var u := Select(v);
      && u.conn == v.conn && u.g == v.g && u.s.headers == v.s.headers && u.s.revision == v.s.revision && u.s.epoch == v.s.epoch
      && (u.s.primed == v.s.primed || v.w.pc.tag.epoch == v.s.epoch)
  {
    hide Fence, Staged, InHand, Gop, Tickets, Primed, Published, SameTickets;
    SelectBasics(v);
  }

  lemma {:induction false} SelectPrimed(v: View)
    requires Inv(v) && v.w.pc.Confirm?
    ensures Primed(Select(v))
  {
    hide Gop, Tickets, Staged, Fence, InHand, Published, SameTickets, KeyWritten, HasHeader, HasEpoch, Pending, Current, FreshKey, Select, Alive, Up;
    SelectSame(v);
    HeadedSame(v, Select(v));
  }

  lemma {:induction false} SelectPublished(v: View)
    requires Inv(v) && v.w.pc.Confirm?
    ensures Published(Select(v))
  {
    hide Gop, Tickets, Staged, Fence, KeyWritten, HasHeader, HasEpoch, Pending, Current;
  }

  lemma {:induction false} SelectKeeps(v: View)
    requires Inv(v) && v.w.pc.Confirm?
    ensures Inv(Select(v))
  {
    hide Gop, Fence, Staged, InHand, Primed, Published, Tickets, SameTickets;
    SelectBasics(v);
    SelectGop(v);
    SelectPrimed(v);
    SelectPublished(v);
    TicketsSame(v, Select(v));
  }

  lemma {:induction false} EndSendFence(v: View, ok: bool)
    requires Inv(v) && v.w.pc.Writing?
    ensures Fence(EndSend(v, ok)) && SameTickets(v, EndSend(v, ok))
  {
    hide Staged, Gop, Tickets, Primed, Published, InLoop, IsBoot, CutPending;
  }

  lemma {:induction false} EndSendStaged(v: View, ok: bool)
    requires Inv(v) && v.w.pc.Writing?
    ensures Staged(EndSend(v, ok))
  {
    hide Fence, Gop, Tickets, Primed, Published;
    assert v.s.writing by { Written(v); }
  }

  lemma {:induction false} Written(v: View)
    requires Inv(v) && v.w.pc.Writing?
    ensures v.s.writing
  {
    hide Staged, InHand, Gop, Tickets, Primed, Published;
  }

  lemma {:induction false} EndSendBasics(v: View, ok: bool)
    requires Inv(v) && v.w.pc.Writing?
    ensures var u := EndSend(v, ok); Fence(u) && Staged(u) && InHand(u) && SameTickets(v, u)
  {
    hide Fence, Staged, Gop, Tickets, Primed, Published, SameTickets;
    EndSendFence(v, ok);
    EndSendStaged(v, ok);
  }

  lemma {:induction false} EndSendGop(v: View, ok: bool)
    requires Inv(v) && v.w.pc.Writing?
    ensures Gop(EndSend(v, ok))
  {
    hide Gop, Tickets, Primed, Published, Frames, LastFrame, GopPrefixes, Staged, Fence;
    GopUse(v);
    GopSame(v, EndSend(v, ok));
  }

  lemma {:induction false} EndSendPrimed(v: View, ok: bool)
    requires Inv(v) && v.w.pc.Writing?
    ensures Primed(EndSend(v, ok))
  {
    hide Gop, Tickets, Staged, SameTickets, KeyWritten, HasHeader, HasEpoch, Pending, Current, FreshKey;
    EndSendBasics(v, ok);
    HeadedSame(v, EndSend(v, ok));
    HeaderLast(v.conn, v.s.epoch);
  }

  lemma {:induction false} EndSendPublished(v: View, ok: bool)
    requires Inv(v) && v.w.pc.Writing?
    ensures Published(EndSend(v, ok))
  {
    hide Gop, Tickets, Staged, Fence, KeyWritten, HasHeader, HasEpoch, Pending, Current;
  }

  lemma {:induction false} EndSendKeeps(v: View, ok: bool)
    requires Inv(v) && v.w.pc.Writing?
    ensures Inv(EndSend(v, ok))
  {
    hide Gop, Fence, Staged, InHand, Primed, Published, Tickets, SameTickets;
    EndSendBasics(v, ok);
    EndSendGop(v, ok);
    EndSendPrimed(v, ok);
    EndSendPublished(v, ok);
    TicketsSame(v, EndSend(v, ok));
  }

  lemma {:induction false} StopKeeps(v: View)
    requires Inv(v)
    ensures Inv(Stop(v))
  {}

  lemma {:induction false} BeginSendBasics(v: View)
    requires Inv(v) && v.w.pc.Sending?
    ensures Fence(BeginSend(v)) && Staged(BeginSend(v)) && InHand(BeginSend(v))
  {
    hide Gop, Tickets, Primed, Published;
  }

  /** Only a key picture, or the frame behind the last one written, goes out. */
  lemma {:induction false} BeginSendGop(v: View)
    requires Inv(v) && v.w.pc.Sending?
    ensures Gop(BeginSend(v))
  {
    hide Gop, Tickets, Primed, Published, Frames, LastFrame, GopPrefixes, Staged;
    if v.w.pc.job.Media? && v.w.pc.job.tag.MediaVideo() && v.w.pc.job.tag.epoch == v.s.epoch && !v.s.stop {
      BeginVideo(v);
    } else {
      BeginOther(v);
    }
  }

  lemma {:induction false} BeginOther(v: View)
    requires Inv(v) && v.w.pc.Sending?
    requires !(v.w.pc.job.Media? && v.w.pc.job.tag.MediaVideo() && v.w.pc.job.tag.epoch == v.s.epoch && !v.s.stop)
    ensures Gop(BeginSend(v))
  {
    hide Gop, Tickets, Primed, Published, Frames, LastFrame, GopPrefixes, Staged;
    var u := BeginSend(v);
    GopUse(v);
    if u.w.pc.Writing? && EntryOf(v.w.pc.job) != [] {
      var x := EntryOf(v.w.pc.job)[0];
      assert u.conn == v.conn + [x];
      LastFrameSnoc(v.conn, x, v.s.epoch);
      if v.g.orderly { GopSnoc(v.conn, x); }
    } else {
      assert v.conn + [] == v.conn;
    }
    GopSame(v, u);
  }

  lemma {:induction false} BeginVideo(v: View)
    requires Inv(v) && v.w.pc.Sending? && v.w.pc.job.Media? && !v.s.stop
    requires v.w.pc.job.tag.MediaVideo() && v.w.pc.job.tag.epoch == v.s.epoch
    ensures Gop(BeginSend(v))
  {
    hide Tickets, Primed, Published, Frames, LastFrame, GopPrefixes, Staged, Fence, Attached, EndOf;
    var u := BeginSend(v);
    var x := v.w.pc.job.tag;
    if v.g.orderly {
      assert Coming(v) == [Frame(x.frame, x.keyframe)] + Coming(u);
      FirstGone(Anchor(v), Frame(x.frame, x.keyframe), Coming(u));
      LastFrameSnoc(v.conn, MediaEntry(x), v.s.epoch);
      GopSnoc(v.conn, MediaEntry(x));
    }
  }

  /** The first frame on its way becomes the last one sent. */
  lemma {:induction false} FirstGone(anchor: Option<int>, f: Frame, rest: seq<Frame>)
    requires Attached(anchor, [f] + rest)
    ensures Attached(Some(f.number), rest) && EndOf(Some(f.number), rest) == EndOf(anchor, [f] + rest)
    ensures anchor.Some? ==> f.key || f.number == anchor.value + 1
  {
    var all := [f] + rest;
    assert all[1..] == rest && all[0] == f;
    forall i, j | 0 <= i < |rest| && 0 <= j < |rest| && j == i + 1 ensures rest[j].key || rest[j].number == rest[i].number + 1 {
      assert all[i + 1] == rest[i] && all[j + 1] == rest[j];
    }
    if rest != [] { assert all[1] == rest[0]; }
  }

  lemma {:induction false} BeginSendSame(v: View)
    requires Inv(v) && v.w.pc.Sending?
    ensures SameTickets(v, BeginSend(v))
  {
    hide Gop, Tickets, Primed, Published, Fence, Staged;
  }

  lemma {:induction false} BeginSendPrimed(v: View)
    requires Inv(v) && v.w.pc.Sending?
    ensures Primed(BeginSend(v))
  {
    hide Gop, Tickets, Staged, Published, SameTickets, KeyWritten, HasHeader, HasEpoch, Pending, Current, FreshKey;
    BeginSendSame(v);
    BeginSendBasics(v);
    HeadedSame(v, BeginSend(v));
    if EntryOf(v.w.pc.job) != [] { HeaderSnoc(v.conn, EntryOf(v.w.pc.job)[0], v.s.epoch); } else { assert v.conn + [] == v.conn; }
  }

  lemma {:induction false} BeginSendPublished(v: View)
    requires Inv(v) && v.w.pc.Sending?
    ensures Published(BeginSend(v))
  {
    hide Gop, Tickets, Staged, Fence, KeyWritten, HasHeader, HasEpoch, Pending, Current;
    var u := BeginSend(v);
    if u.w.pc.Writing? {
      if EntryOf(v.w.pc.job) != [] {
        var x := EntryOf(v.w.pc.job)[0];
        assert u.conn == v.conn + [x] && u.conn[|v.conn|] == x;
        if KeyWritten(v.conn, v.s.epoch, v.w.cutoff) { KeySnoc(v.conn, x, v.s.epoch, v.w.cutoff); }
        if FreshKey(v.w) && HasHeader(v.conn, v.s.epoch) && v.w.pc.job.tag.epoch == v.s.epoch { KeyNow(v.conn, v.w.pc.job.tag); }
      } else {
        assert v.conn + [] == v.conn;
      }
    }
  }

  lemma {:induction false} KeyNow(conn: seq<Entry>, x: Tag)
    requires x.MediaVideo() && x.keyframe && HasHeader(conn, x.epoch)
    ensures KeyWritten(conn + [MediaEntry(x)], x.epoch, x.time)
  {
    var u := conn + [MediaEntry(x)];
    assert u[..|conn|] == conn;
    assert KeyAt(u, |conn|, x.epoch, x.time);
  }

  lemma {:induction false} BeginSendKeeps(v: View)
    requires Inv(v) && v.w.pc.Sending?
    ensures Inv(BeginSend(v))
  {
    hide Gop, Fence, Staged, InHand, Primed, Published, Tickets, SameTickets;
    BeginSendBasics(v);
    BeginSendGop(v);
    BeginSendPrimed(v);
    BeginSendPublished(v);
    BeginSendSame(v);
    TicketsSame(v, BeginSend(v));
  }

  lemma {:induction false} HeaderLast(conn: seq<Entry>, epoch: nat)
    ensures conn != [] && conn[|conn| - 1] == HeaderEntry(epoch) ==> HasHeader(conn, epoch)
  {}

  lemma {:induction false} NothingPending(last: nat, limit: nat, t: nat, epoch: nat, from: nat)
    ensures Ascending([], from) && AllBelow([], last + 1) && AllBelow([], limit) && BatchesUpTo([], last) && Beyond([], t, from, epoch)
    ensures !HasEpoch([], epoch) && Frames([], epoch) == []
  {}

  lemma {:induction false} GopNothing(u: View)
    requires u.g.orderly ==> GopPrefixes(u.conn)
    requires Alive(u) ==> Anchor(u) == None && Coming(u) == [] && !InLoop(u.w.pc)
    ensures Gop(u)
  {
    hide Anchor, Coming, GopPrefixes, LastFrame;
  }

  lemma {:induction false} LinePrefix(a: seq<Tag>, b: seq<Tag>, last: nat, from: nat)
    requires Ascending(a + b, from) && AllBelow(a + b, last + 1) && BatchesUpTo(a + b, last)
    ensures Ascending(a, from) && AllBelow(a, last + 1) && BatchesUpTo(a, last)
  {
    assert forall i :: 0 <= i < |a| ==> (a + b)[i] == a[i];
  }

  lemma {:induction false} InvalidateKeeps(v: View, epoch: nat)
    requires Inv(v)
    ensures Inv(Invalidate(v, epoch))
  {
    hide Gop, Fence, Staged, InHand, Tickets, Primed, Published;
    if epoch > v.s.epoch {
      InvalidateBasics(v, epoch);
      InvalidateGop(v, epoch);
      InvalidateTickets(v, epoch);
      InvalidateRest(v, epoch);
    }
  }

  lemma {:induction false} InvalidateRest(v: View, epoch: nat)
    requires Inv(v) && v.s.epoch < epoch
    ensures var u := Invalidate(v, epoch); Primed(u) && Published(u)
  {
    hide Gop, Staged, Tickets, Frames, LastFrame, HasEpoch, HasHeader, KeyWritten, Pending, Current, FreshKey;
    InvalidateTickets(v, epoch);
  }

  lemma {:induction false} InvalidateTickets(v: View, epoch: nat)
    requires Inv(v) && v.s.epoch < epoch
    ensures var u := Invalidate(v, epoch); Tickets(u) && !HasEpoch(Pending(u), epoch)
  {
    hide Gop, Staged, InHand, Primed, Published, Ascending, AllBelow, BatchesUpTo, Beyond;
    var u := Invalidate(v, epoch);
    assert Pending(u) == Current(v.w.pc);
    if v.g.orderly && Alive(v) { LinePrefix(Current(v.w.pc), v.q, v.g.last, v.g.exactFrom); }
  }

  lemma {:induction false} InvalidateBasics(v: View, epoch: nat)
    requires Inv(v) && v.s.epoch < epoch
    ensures var u := Invalidate(v, epoch); Fence(u) && Staged(u) && InHand(u)
  {
    hide Gop, Tickets, Primed, Published;
  }

  lemma {:induction false} InvalidateGop(v: View, epoch: nat)
    requires Inv(v) && v.s.epoch < epoch
    ensures Gop(Invalidate(v, epoch))
  {
    hide Tickets, Primed, Published, Staged, Frames, LastFrame;
    var u := Invalidate(v, epoch);
    FramesNone([], epoch);
    NothingComing(u);
    assert v.g.orderly ==> GopPrefixes(u.conn);
  }

  /** In a new epoch nothing is on its way. */
  lemma {:induction false} NothingComing(u: View)
    requires forall i :: 0 <= i < |Current(u.w.pc)| ==> Current(u.w.pc)[i].epoch < u.s.epoch
    requires forall i :: 0 <= i < |u.q| ==> u.q[i].epoch < u.s.epoch
    ensures Coming(u) == []
  {
    FramesNone(u.q, u.s.epoch);
    assert Hand(u.w.pc) == [] || Hand(u.w.pc) == Current(u.w.pc);
  }

  lemma {:induction false} AcknowledgeKeeps(v: View)
    requires Inv(v) && v.w.pc.Delivered?
    ensures Inv(Acknowledge(v))
    ensures var u := Acknowledge(v);
      v.g.orderly && Alive(v) && v.s.deliveredEpoch == v.s.epoch ==> v.s.deliveredTicket <= u.s.deliveredTicket
  {
    AcknowledgeBasics(v);
    AcknowledgeTickets(v);
    AcknowledgeRest(v);
  }

  lemma {:induction false} AcknowledgeBasics(v: View)
    requires Inv(v) && v.w.pc.Delivered?
    ensures var u := Acknowledge(v); Fence(u) && Staged(u) && InHand(u)
  {
    hide Gop, Tickets, Primed, Published;
  }

  lemma {:induction false} AcknowledgeHeaded(v: View)
    requires Primed(v) && v.w.pc.Delivered?
    ensures var u := Acknowledge(v); u.g.orderly && Alive(u) && HasEpoch(Pending(u), u.s.epoch) ==> u.g.headed
  {
    hide HasEpoch, Pending, Current, Hand;
    AcknowledgePending(v);
    EpochBehind(v.w.pc.tag, v.q, v.s.epoch);
  }

  lemma {:induction false} EpochBehind(x: Tag, q: seq<Tag>, epoch: nat)
    ensures HasEpoch(q, epoch) || x.epoch == epoch ==> HasEpoch([x] + q, epoch)
  {
    assert ([x] + q)[0] == x;
    if i :| 0 <= i < |q| && q[i].epoch == epoch { assert ([x] + q)[i + 1] == q[i]; }
  }

  lemma {:induction false} AcknowledgeRest(v: View)
    requires Inv(v) && v.w.pc.Delivered?
    ensures var u := Acknowledge(v); Gop(u) && Primed(u) && Published(u)
  {
    hide Gop, Tickets, Staged, Fence, KeyWritten, HasHeader, HasEpoch, Frames, LastFrame, GopPrefixes;
    var u := Acknowledge(v);
    GopUse(v);
    GopSame(v, u);
    AcknowledgeHeaded(v);
  }

  /** Acknowledging a written tag covers every batch up to its ticket, and never takes an acknowledgement back. */
  lemma {:induction false} AcknowledgeTickets(v: View)
    requires Inv(v) && v.w.pc.Delivered?
    ensures Tickets(Acknowledge(v))
    ensures var u := Acknowledge(v);
      v.g.orderly && Alive(v) && v.s.deliveredEpoch == v.s.epoch ==> v.s.deliveredTicket <= u.s.deliveredTicket
  {
    hide Gop, Staged, Fence, InHand, Primed, Published, InLine, Pending;
    AcknowledgePending(v);
    if v.g.orderly && Alive(v) { AcknowledgeInLine(v.w.pc.tag, v.q, v.s, v.g.last, v.g.exactFrom); }
  }

  lemma {:induction false} AcknowledgeInLine(x: Tag, q: seq<Tag>, s: Shared, last: nat, from: nat)
    requires InLine([x] + q, s, last, from)
    ensures InLine(q, s, last, from)
    ensures x.ticket > 0 && x.epoch == s.epoch ==>
      && InLine(q, s.(deliveredEpoch := x.epoch, deliveredTicket := x.ticket), last, from)
      && (s.deliveredEpoch == s.epoch ==> s.deliveredTicket <= x.ticket)
  {
    hide Ascending, AllBelow, BatchesUpTo, Beyond, HasEpoch;
    AcknowledgeLine(x, q, last, s.carried, s.deliveredTicket, s.epoch, from);
  }

  lemma {:induction false} AcknowledgePending(v: View)
    requires v.w.pc.Delivered?
    ensures Pending(v) == [v.w.pc.tag] + v.q && Pending(Acknowledge(v)) == v.q
  {}

  /** Behind a tag with a ticket, everything belongs to later batches. */
  lemma {:induction false} AcknowledgeLine(x: Tag, q: seq<Tag>, last: nat, carried: nat, t: nat, epoch: nat, from: nat)
    requires Ascending([x] + q, from) && AllBelow([x] + q, last + 1) && BatchesUpTo([x] + q, last)
    ensures Ascending(q, from) && AllBelow(q, last + 1) && BatchesUpTo(q, last) && Beyond(q, x.ticket, from, x.epoch) && x.ticket <= last
    ensures AllBelow([x] + q, carried) ==> AllBelow(q, carried) && x.ticket < carried
    ensures Beyond([x] + q, t, from, epoch) ==> Beyond(q, t, from, epoch) && (x.ticket > 0 ==> t < x.ticket)
    ensures HasEpoch(q, epoch) || x.epoch == epoch ==> HasEpoch([x] + q, epoch)
  {
    var p := [x] + q;
    EpochBehind(x, q, epoch);
    assert q == p[1..] && p[0] == x;
  }

  lemma {:induction false} ReconnectKeeps(v: View)
    requires Inv(v) && v.w.pc.Lost?
    ensures Inv(Reconnect(v))
  {
    hide Fence, Staged, InHand, Gop, Tickets, Primed, Published;
    ReconnectBasics(v);
    ReconnectTickets(v);
    ReconnectGop(v);
    ReconnectRest(v);
  }

  lemma {:induction false} ReconnectTickets(v: View)
    requires Inv(v) && v.w.pc.Lost?
    ensures Tickets(Reconnect(v)) && (HasEpoch(Pending(Reconnect(v)), v.s.epoch) ==> HasEpoch(Pending(v), v.s.epoch))
  {
    hide Fence, InHand, Gop, Primed, Published, Ascending, AllBelow, BatchesUpTo, Beyond, HasEpoch;
    var u := Reconnect(v);
    assert Pending(v) == v.q && Pending(u) == u.q;
    NothingPending(v.g.last, 0, u.s.deliveredTicket, v.s.epoch, v.g.exactFrom);
  }

  lemma {:induction false} ReconnectRest(v: View)
    requires Inv(v) && v.w.pc.Lost?
    ensures Primed(Reconnect(v)) && Published(Reconnect(v))
  {
    hide Fence, Staged, InHand, Gop, Tickets, HasEpoch, Frames, LastFrame, GopPrefixes, KeyWritten, HasHeader;
    ReconnectTickets(v);
  }

  lemma {:induction false} ReconnectGop(v: View)
    requires Inv(v) && v.w.pc.Lost?
    ensures Gop(Reconnect(v))
  {
    hide Fence, InHand, Gop, Tickets, Primed, Published, Frames, LastFrame, GopPrefixes;
    var u := Reconnect(v);
    NothingPending(0, 0, 0, v.s.epoch, 0);
    GopUse(v);
    if u.q == [] { GopNothing(u); } else { GopSame(v, u); }
  }

  lemma {:induction false} ReconnectBasics(v: View)
    requires Inv(v) && v.w.pc.Lost?
    ensures var u := Reconnect(v); Fence(u) && Staged(u) && InHand(u)
  {
    hide Gop, Tickets, Primed, Published;
  }

  lemma {:induction false} EndResumeKeeps(v: View)
    requires Inv(v) && v.w.pc.ResumeEnd?
    ensures Inv(EndResume(v))
  {
    hide Fence, Staged, InHand, Gop, Tickets, Primed, Published;
    EndResumeBasics(v);
    EndResumeTickets(v);
    EndResumeGop(v);
    EndResumeRest(v);
  }

  lemma {:induction false} EndResumeTickets(v: View)
    requires Inv(v) && v.w.pc.ResumeEnd?
    ensures Tickets(EndResume(v)) && (HasEpoch(Pending(EndResume(v)), v.s.epoch) ==> HasEpoch(Pending(v), v.s.epoch))
  {
    hide Fence, InHand, Gop, Primed, Published, Ascending, AllBelow, BatchesUpTo, Beyond, HasEpoch;
    var u := EndResume(v);
    assert Pending(v) == v.q && Pending(u) == u.q;
    NothingPending(v.g.last, 0, u.s.deliveredTicket, v.s.epoch, v.g.exactFrom);
  }

  lemma {:induction false} EndResumeRest(v: View)
    requires Inv(v) && v.w.pc.ResumeEnd?
    ensures Primed(EndResume(v)) && Published(EndResume(v))
  {
    hide Fence, Staged, InHand, Gop, Tickets, HasEpoch, Frames, LastFrame, GopPrefixes, KeyWritten, HasHeader;
    EndResumeTickets(v);
  }

  lemma {:induction false} EndResumeGop(v: View)
    requires Inv(v) && v.w.pc.ResumeEnd?
    ensures Gop(EndResume(v))
  {
    hide Fence, InHand, Gop, Tickets, Primed, Published, Frames, LastFrame, GopPrefixes;
    var u := EndResume(v);
    NothingPending(0, 0, 0, v.s.epoch, 0);
    GopUse(v);
    if u.q == [] { GopNothing(u); } else { GopSame(v, u); }
  }

  lemma {:induction false} EndResumeBasics(v: View)
    requires Inv(v) && v.w.pc.ResumeEnd?
    ensures var u := EndResume(v); Fence(u) && Staged(u) && InHand(u)
  {
    hide Gop, Tickets, Primed, Published;
  }

  /** A worker that sends has something to send. */
  lemma {:induction false} SendingJob(v: View)
    requires Inv(v) && (v.w.pc.Sending? || v.w.pc.Writing?)
    ensures InHand(v) && (v.w.pc.job.ConnectHeader? || v.w.pc.job.LoopHeader? ==> v.w.pc.job.rest != [])
  {}

  lemma {:induction false} GopOf(v: View)
    requires Inv(v)
    ensures v.g.orderly ==> GopPrefixes(v.conn)
  {}
}
