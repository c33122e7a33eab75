/** State of one sender: what its mutex protects, where its worker stands, what it has written, and what holds of all of it
    after every atomic step. */
module SenderState {
  import opened Media
  import opened SenderQueue

  datatype Status = Starting | Running | Reconnecting | Stopping | Failed

  /** The fields behind the sender's mutex. */
  datatype Shared = Shared(
    epoch: nat, acknowledged: nat, published: nat, deliveredEpoch: nat, deliveredTicket: nat,
    enqueued: nat, carried: nat, dropVideo: bool, writing: bool, cancelled: bool, resume: bool,
    headers: seq<Tag>, revision: nat, primed: nat, status: Status, stop: bool)

  /** What a send of bytes is for, and what is left to do after it. */
  datatype Job =
    | FileHeader
    | ConnectHeader(rest: seq<Tag>, revision: nat)
    | LoopHeader(tag: Tag, rest: seq<Tag>, revision: nat)
    | Media(tag: Tag)

  datatype Next = AfterPrime | AfterLoss | AtEnd

  /** Where the worker stands between two atomic steps. `boot` marks the first connection. */
  datatype Pc =
    | ConnectDue(boot: bool)
    | Connecting(boot: bool)
    | ReadHeaders(boot: bool)
    | SetPrimed(boot: bool, revision: nat)
    | Connected
    | Sending(job: Job, boot: bool)
    | Writing(job: Job, boot: bool)
    | Idle
    | Popped(tag: Tag)
    | Priming(tag: Tag)
    | Confirm(tag: Tag, revision: nat)
    | Delivered(tag: Tag)
    | Publishing(tag: Tag)
    | Lost
    | CloseDue(next: Next, boot: bool)
    | Closing(next: Next, boot: bool)
    | CancelDue(first: bool)
    | ReplaceDue
    | ResumeEnd(discard: bool, last: bool)
    | RetryDue
    | Dead

  datatype Worker = Worker(pc: Pc, awaiting: bool, cutoff: nat, mediaEpoch: nat)

  /** A write that was begun on the current connection. */
  datatype Entry = HeaderEntry(epoch: nat) | MediaEntry(tag: Tag)

  /** Bookkeeping of the proofs: media video handed in during this epoch, the largest ticket handed in, the epoch at which
      the I/O in progress was entered, and how the callers behaved so far. */
  datatype Ledger = Ledger(
    frames: int, last: nat, entry: nat,
    orderly: bool,  // tickets rose from batch to batch, each epoch brought headers, nothing was handed in after a refusal
    exactFrom: nat, // since this epoch, no retry put the ticket of a batch in front of tags of the same batch
    headed: bool)   // the current epoch has headers

  datatype View = View(s: Shared, q: seq<Tag>, w: Worker, conn: seq<Entry>, g: Ledger)

  // Where the worker stands.

  predicate InLoop(pc: Pc) {
    || pc.Idle? || pc.Popped? || pc.Priming? || pc.Confirm? || pc.Delivered? || pc.Publishing?
    || ((pc.Sending? || pc.Writing?) && (pc.job.LoopHeader? || pc.job.Media?))
  }

  predicate IsDoomed(pc: Pc) {
    pc.Dead? || ((pc.CloseDue? || pc.Closing?) && pc.next.AtEnd?) || (pc.ResumeEnd? && pc.last)
  }

  /** An I/O that a transition may have cut is over, and nobody has looked yet. */
  predicate CutPending(pc: Pc) {
    pc.Lost? || pc.CloseDue? || pc.Closing? || pc.CancelDue? || pc.Dead?
  }

  /** Before the first connection is up. */
  predicate IsBoot(pc: Pc) {
    || ((pc.ConnectDue? || pc.Connecting? || pc.ReadHeaders? || pc.SetPrimed?) && pc.boot)
    || ((pc.Sending? || pc.Writing?) && !InLoop(pc) && pc.boot)
    || ((pc.CloseDue? || pc.Closing?) && pc.next.AfterPrime? && pc.boot)
  }

  predicate Alive(v: View) { !v.s.stop && !IsDoomed(v.w.pc) }

  /** The tag in the worker's hands whose write has not begun. */
  function Hand(pc: Pc): seq<Tag> {
    match pc
    case Popped(tag) => [tag]
    case Priming(tag) => [tag]
    case Confirm(tag, _) => [tag]
    case Sending(LoopHeader(tag, _, _), _) => [tag]
    case Writing(LoopHeader(tag, _, _), _) => [tag]
    case Sending(Media(tag), _) => [tag]
    case _ => []
  }

  /** The tag in the worker's hands that has not been acknowledged. */
  function Current(pc: Pc): seq<Tag> {
    match pc
    case Writing(Media(tag), _) => [tag]
    case Delivered(tag) => [tag]
    case _ => Hand(pc)
  }

  function Pending(v: View): seq<Tag> { Current(v.w.pc) + v.q }

  // Frames: media video of one epoch, in order.

  datatype Frame = Frame(number: int, key: bool)

  function FrameOf(x: Tag, epoch: nat): seq<Frame> {
    if x.MediaVideo() && x.epoch == epoch then [Frame(x.frame, x.keyframe)] else []
  }

  function Frames(s: seq<Tag>, epoch: nat): seq<Frame>
  {
    if s == [] then [] else Frames(s[..|s| - 1], epoch) + FrameOf(s[|s| - 1], epoch)
  }

  /** Each frame is a key picture or follows its predecessor. */
  predicate Linked(f: seq<Frame>) {
    forall i, j :: 0 <= i < |f| && 0 <= j < |f| && j == i + 1 ==> f[j].key || f[j].number == f[i].number + 1
  }

  /** Frames handed in next go on where the last one ended. */
  predicate Attached(anchor: Option<int>, f: seq<Frame>) {
    Linked(f) && (f != [] && anchor.Some? ==> f[0].key || f[0].number == anchor.value + 1)
  }

  function EndOf(anchor: Option<int>, f: seq<Frame>): Option<int> {
    if f != [] then Some(f[|f| - 1].number) else anchor
  }

  /** Number of the last media video of an epoch written on a connection. */
  function LastFrame(conn: seq<Entry>, epoch: nat): Option<int>
  {
    if conn == [] then None
    else if conn[|conn| - 1].MediaEntry? && FrameOf(conn[|conn| - 1].tag, epoch) != [] then Some(conn[|conn| - 1].tag.frame)
    else LastFrame(conn[..|conn| - 1], epoch)
  }

  /** Every written inter-frame follows its predecessor on the same connection in the same epoch. */
  predicate GopPrefixes(conn: seq<Entry>) {
    forall i :: 0 <= i < |conn| && conn[i].MediaEntry? && conn[i].tag.MediaVideo() && !conn[i].tag.keyframe ==>
      LastFrame(conn[..i], conn[i].tag.epoch) == Some(conn[i].tag.frame - 1)
  }

  /** The last frame the decoder of the current connection has, while the worker is in step with it. */
  function Anchor(v: View): Option<int> {
    if InLoop(v.w.pc) && !v.w.awaiting && v.w.mediaEpoch == v.s.epoch then LastFrame(v.conn, v.s.epoch) else None
  }

  /** The frames on their way to the decoder: the one in the worker's hands, then those in the queue. */
  function Coming(v: View): seq<Frame> { HandFrames(v.w.pc, v.s.epoch) + Frames(v.q, v.s.epoch) }

  function HandFrames(pc: Pc, epoch: nat): seq<Frame> { if Hand(pc) == [] then [] else FrameOf(Hand(pc)[0], epoch) }

  // What holds after every step.

  predicate Fence(v: View) {
    && (v.s.writing <==> v.w.pc.Connecting? || v.w.pc.Writing? || v.w.pc.Closing?)
    && (v.s.writing ==> v.s.acknowledged <= v.g.entry)
    && v.g.entry <= v.s.epoch && v.s.acknowledged <= v.s.epoch && v.s.deliveredEpoch <= v.s.epoch && v.s.published <= v.s.epoch
    && (v.w.pc.Writing? && v.w.pc.job.Media? ==> v.w.pc.job.tag.epoch == v.g.entry)
    && (v.w.pc.Writing? && (v.w.pc.job.ConnectHeader? || v.w.pc.job.LoopHeader?) ==>
          v.w.pc.job.rest != [] && v.w.pc.job.rest[0].epoch == v.g.entry)
    && v.s.primed <= v.s.revision && v.w.mediaEpoch <= v.s.epoch
    && (forall i :: 0 <= i < |v.q| ==> v.q[i].epoch <= v.s.epoch)
    && (forall i :: 0 <= i < |Current(v.w.pc)| ==> Current(v.w.pc)[i].epoch <= v.s.epoch)
    && (forall i :: 0 <= i < |v.conn| && v.conn[i].MediaEntry? ==> v.conn[i].tag.epoch <= v.s.epoch)
  }

  /** How the status goes with the place of the worker. */
  predicate Staged(v: View) {
    && (v.s.cancelled ==> v.s.writing || CutPending(v.w.pc))
    && (Alive(v) && v.s.cancelled && v.s.status.Running? ==> v.s.deliveredEpoch != v.s.epoch)
    && (Alive(v) ==>
          && (InLoop(v.w.pc) ==> v.s.status.Running? && !v.s.resume)
          && (v.w.pc.Lost? ==> (v.s.status.Running? || v.s.status.Starting?) && !v.s.resume)
          && (!InLoop(v.w.pc) && !v.w.pc.Lost? ==> v.s.status.Starting? || v.s.status.Reconnecting?)
          && (IsBoot(v.w.pc) ==> v.s.status.Starting?)
          && (v.s.status.Starting? ==> !v.s.resume)
          && (!v.s.status.Running? && !v.s.resume ==> v.q == []))
  }

  /** Place of the worker against the tag in its hands. */
  predicate InHand(v: View) {
    var w := v.w;
    && (w.pc.Sending? || w.pc.Writing? ==>
          && (w.pc.job.ConnectHeader? || w.pc.job.LoopHeader? ==> w.pc.job.rest != [])
          && (w.pc.job.LoopHeader? ==>
                w.mediaEpoch == w.pc.job.tag.epoch && forall i :: 0 <= i < |w.pc.job.rest| ==> w.pc.job.rest[i].epoch == w.mediaEpoch)
          && (w.pc.job.Media? ==> Taken(w, w.pc.job.tag)))
    && (w.pc.Priming? || w.pc.Confirm? ==> w.mediaEpoch == w.pc.tag.epoch)
    && (w.pc.SetPrimed? || w.pc.Confirm? ==> w.pc.revision <= v.s.revision)
    && ((w.pc.Sending? || w.pc.Writing?) && (w.pc.job.ConnectHeader? || w.pc.job.LoopHeader?) ==> w.pc.job.revision <= v.s.revision)
    && (w.pc.Delivered? || w.pc.Publishing? ==> Taken(w, w.pc.tag))
    && (w.pc.ResumeEnd? ==> w.pc.discard || w.pc.last)
  }

  predicate Taken(w: Worker, x: Tag) {
    && w.mediaEpoch == x.epoch
    && (x.drain && !x.codecHeader ==> x.kind.Audio?)
    && (x.MediaVideo() || x.MediaAudio() ==> !w.awaiting)
    && (x.MediaAudio() ==> w.cutoff <= x.time)
  }

  predicate FreshKey(w: Worker) {
    w.pc.Sending? && w.pc.job.Media? && w.pc.job.tag.MediaVideo() && w.pc.job.tag.keyframe && w.pc.job.tag.time == w.cutoff
  }

  /** Video goes out in GOP prefixes. */
  predicate Gop(v: View) {
    && (v.g.orderly ==> GopPrefixes(v.conn))
    && (v.g.orderly && Alive(v) ==>
          && Attached(Anchor(v), Coming(v))
          && (!v.s.dropVideo && EndOf(Anchor(v), Coming(v)).Some? ==> EndOf(Anchor(v), Coming(v)).value == v.g.frames - 1)
          && (InLoop(v.w.pc) && !v.w.awaiting && v.w.mediaEpoch == v.s.epoch ==>
                LastFrame(v.conn, v.s.epoch).Some? || FreshKey(v.w)))
  }

  // Tickets.

  /** Tickets in front of a tag stay below this: its batch, or where batches were overtaken, one more. */
  function Ceiling(x: Tag, from: nat): nat { if from <= x.epoch then x.batch else x.batch + 1 }

  /** A ticket on x does not cover y, which comes later. */
  predicate Follows(x: Tag, y: Tag, from: nat) {
    x.epoch <= y.epoch && x.ticket < Ceiling(y, from) && (y.ticket > 0 ==> x.ticket < y.ticket)
  }

  predicate Ascending(p: seq<Tag>, from: nat) {
    forall i, j :: 0 <= i < j < |p| ==> Follows(p[i], p[j], from)
  }

  predicate AllBelow(p: seq<Tag>, limit: nat) {
    forall i :: 0 <= i < |p| ==> p[i].ticket < limit
  }

  predicate HasEpoch(p: seq<Tag>, epoch: nat) {
    exists i :: 0 <= i < |p| && p[i].epoch == epoch
  }

  predicate BatchesUpTo(p: seq<Tag>, last: nat) {
    forall i :: 0 <= i < |p| ==> 0 < p[i].batch <= last
  }

  /** Nothing of this epoch up to ticket t is still on its way. */
  predicate Beyond(p: seq<Tag>, t: nat, from: nat, epoch: nat) {
    forall i :: 0 <= i < |p| ==> epoch <= p[i].epoch && t < Ceiling(p[i], from) && (p[i].ticket > 0 ==> t < p[i].ticket)
  }

  /** Pending tags p in line with what was handed in, carried and delivered. */
  predicate InLine(p: seq<Tag>, s: Shared, last: nat, from: nat) {
    && Ascending(p, from) && AllBelow(p, last + 1) && BatchesUpTo(p, last)
    && (s.carried > 0 ==> s.dropVideo && AllBelow(p, s.carried) && s.carried <= last)
    && (s.enqueued == 0 || s.enqueued == last)
    && (HasEpoch(p, s.epoch) ==> s.enqueued == last)
    && (s.deliveredEpoch == s.epoch && s.deliveredTicket > 0 ==>
          && Beyond(p, s.deliveredTicket, from, s.epoch) && s.deliveredTicket <= s.enqueued
          && (s.carried > 0 ==> s.deliveredTicket < s.carried))
  }

  /** An acknowledged ticket covers every batch up to it. */
  predicate Tickets(v: View) {
    v.g.orderly && Alive(v) ==> InLine(Pending(v), v.s, v.g.last, v.g.exactFrom)
  }

  // Publication.

  predicate HasHeader(conn: seq<Entry>, epoch: nat) {
    exists h :: 0 <= h < |conn| && conn[h] == HeaderEntry(epoch)
  }

  predicate KeyAt(conn: seq<Entry>, k: nat, epoch: nat, cutoff: nat)
    requires k < |conn|
  {
    && conn[k].MediaEntry? && conn[k].tag.MediaVideo() && conn[k].tag.keyframe
    && conn[k].tag.epoch == epoch && conn[k].tag.time == cutoff && HasHeader(conn[..k], epoch)
  }

  /** Headers and then a key picture of this epoch were written on this connection. */
  predicate KeyWritten(conn: seq<Entry>, epoch: nat, cutoff: nat) {
    exists k :: 0 <= k < |conn| && KeyAt(conn, k, epoch, cutoff)
  }

  /** Headers, a key picture and then sound no earlier than it, all of this epoch and on this connection. */
  predicate OnAir(conn: seq<Entry>, epoch: nat) {
    exists k, a :: 0 <= k < a < |conn| && conn[k].MediaEntry? && KeyAt(conn, k, epoch, conn[k].tag.time) &&
      conn[a].MediaEntry? && conn[a].tag.MediaAudio() && conn[a].tag.epoch == epoch && conn[k].tag.time <= conn[a].tag.time
  }

  predicate Up(pc: Pc) { InLoop(pc) || pc.Connected? }

  predicate Primed(v: View) {
    && (v.g.headed ==> v.s.headers != [])
    && (v.g.orderly && Alive(v) ==>
          && (HasEpoch(Pending(v), v.s.epoch) ==> v.g.headed)
          && (Up(v.w.pc) && v.s.primed == v.s.revision && v.g.headed ==> HasHeader(v.conn, v.s.epoch))
          && (v.w.pc.SetPrimed? && v.w.pc.revision == v.s.revision && v.g.headed ==> HasHeader(v.conn, v.s.epoch))
          && ((v.w.pc.Sending? || v.w.pc.Writing?) && v.w.pc.job.ConnectHeader? && v.w.pc.job.revision == v.s.revision ==>
                forall i :: 0 <= i < |v.w.pc.job.rest| ==> v.w.pc.job.rest[i].epoch == v.s.epoch)
          && (v.w.pc.Confirm? && v.w.pc.tag.epoch == v.s.epoch ==> HasHeader(v.conn, v.s.epoch)))
  }

  predicate Published(v: View) {
    v.g.orderly && Alive(v) ==>
      && (InLoop(v.w.pc) && !v.w.awaiting && v.w.mediaEpoch == v.s.epoch ==>
            KeyWritten(v.conn, v.s.epoch, v.w.cutoff) || (FreshKey(v.w) && HasHeader(v.conn, v.s.epoch)))
      && ((v.w.pc.Delivered? || v.w.pc.Publishing?) && v.w.pc.tag.epoch == v.s.epoch ==>
            v.conn != [] && v.conn[|v.conn| - 1] == MediaEntry(v.w.pc.tag))
      && (v.w.pc.Writing? && v.w.pc.job.Media? ==> v.conn != [] && v.conn[|v.conn| - 1] == MediaEntry(v.w.pc.job.tag))
      && (v.w.pc.Writing? && (v.w.pc.job.ConnectHeader? || v.w.pc.job.LoopHeader?) ==>
            v.w.pc.job.rest != [] && v.conn != [] && v.conn[|v.conn| - 1] == HeaderEntry(v.w.pc.job.rest[0].epoch))
  }

  predicate Inv(v: View) {
    Fence(v) && Staged(v) && InHand(v) && Gop(v) && Tickets(v) && Primed(v) && Published(v)
  }
}
