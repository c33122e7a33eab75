/** The atomic steps of a sender as functions on its state, and the proof that each of them keeps the invariant. */
module SenderSteps {
  import opened Media
  import opened SenderQueue
  import opened SenderState

  // Steps of other threads.

  /** invalidate_epoch: older media is fenced off; I/O in progress is given a grace period. */
  function Invalidate(v: View, epoch: nat): View {
    if epoch <= v.s.epoch then v else
      var fenced := v.s.(epoch := epoch, enqueued := 0, carried := 0, dropVideo := false, headers := [], revision := v.s.revision + 1);
      v.(s := if v.s.writing then fenced.(cancelled := true) else fenced.(acknowledged := epoch),
         q := [], g := v.g.(frames := 0, headed := false))
  }

  function Stop(v: View): View { v.(s := v.s.(stop := true, status := Stopping), q := []) }

  // Connecting.

  function BeginConnect(v: View, timedOut: bool): View
    requires v.w.pc.ConnectDue?
  {
    if v.s.stop || timedOut then v.(w := v.w.(pc := if v.w.pc.boot then Lost else CancelDue(false)))
    else v.(s := v.s.(writing := true), w := v.w.(pc := Connecting(v.w.pc.boot)), g := v.g.(entry := v.s.epoch))
  }

  function EndConnect(v: View, ok: bool): View
    requires v.w.pc.Connecting?
  {
    var done := v.s.(writing := false, acknowledged := v.s.epoch);
    if ok then v.(s := done.(cancelled := false), w := v.w.(pc := Sending(FileHeader, v.w.pc.boot)), conn := [])
    else v.(s := done, w := v.w.(pc := if v.w.pc.boot then Lost else CancelDue(false)))
  }

  function SetEpoch(s: seq<Tag>, epoch: nat): (r: seq<Tag>)
    ensures |r| == |s| && forall i :: 0 <= i < |r| ==> r[i] == s[i].(epoch := epoch)
  {
    if s == [] then [] else SetEpoch(s[..|s| - 1], epoch) + [s[|s| - 1].(epoch := epoch)]
  }

  function ReadConnectHeaders(v: View): View
    requires v.w.pc.ReadHeaders?
  {
    v.(w := v.w.(pc := if v.s.headers == [] then SetPrimed(v.w.pc.boot, v.s.revision)
                       else Sending(ConnectHeader(SetEpoch(v.s.headers, v.s.epoch), v.s.revision), v.w.pc.boot)))
  }

  function PrimeConnection(v: View): View
    requires v.w.pc.SetPrimed?
  {
    v.(s := v.s.(primed := v.w.pc.revision), w := v.w.(pc := Connected))
  }

  /** The connection is up: the loop starts over with a key picture, unless start-up took too long. */
  function EnterLoop(v: View, timedOut: bool): View
    requires v.w.pc.Connected?
  {
    v.(s := v.s.(resume := false, status := if v.s.stop then v.s.status else Running),
       w := v.w.(pc := if timedOut then CloseDue(AtEnd, false) else Idle, awaiting := true))
  }

  // Sending bytes.

  function JobEpoch(job: Job): Option<nat>
    requires job.ConnectHeader? || job.LoopHeader? ==> job.rest != []
  {
    match job
    case FileHeader => None
    case ConnectHeader(rest, _) => Some(rest[0].epoch)
    case LoopHeader(_, rest, _) => Some(rest[0].epoch)
    case Media(tag) => Some(tag.epoch)
  }

  function EntryOf(job: Job): seq<Entry>
    requires job.ConnectHeader? || job.LoopHeader? ==> job.rest != []
  {
    match job
    case FileHeader => []
    case ConnectHeader(rest, _) => [HeaderEntry(rest[0].epoch)]
    case LoopHeader(_, rest, _) => [HeaderEntry(rest[0].epoch)]
    case Media(tag) => [MediaEntry(tag)]
  }

  /** Where the worker goes on after its bytes were sent, or were not wanted any more. */
  function After(job: Job, boot: bool): Pc
    requires job.ConnectHeader? || job.LoopHeader? ==> job.rest != []
  {
    match job
    case FileHeader => ReadHeaders(boot)
    case ConnectHeader(rest, revision) =>
      if |rest| == 1 then SetPrimed(boot, revision) else Sending(ConnectHeader(rest[1..], revision), boot)
    case LoopHeader(tag, rest, revision) =>
      if |rest| == 1 then Confirm(tag, revision) else Sending(LoopHeader(tag, rest[1..], revision), false)
    case Media(tag) => Delivered(tag)
  }

  function Failing(job: Job, boot: bool): Pc {
    if job.FileHeader? || job.ConnectHeader? then CloseDue(AfterPrime, boot) else Lost
  }

  /** The write of a tag begins only in its own epoch. */
  function BeginSend(v: View): View
    requires v.w.pc.Sending? && InHand(v)
  {
    var job, boot := v.w.pc.job, v.w.pc.boot;
    if (JobEpoch(job).Some? && JobEpoch(job).value != v.s.epoch) || v.s.stop then v.(w := v.w.(pc := After(job, boot)))
    else v.(s := v.s.(writing := true), w := v.w.(pc := Writing(job, boot)), conn := v.conn + EntryOf(job), g := v.g.(entry := v.s.epoch))
  }

  function EndSend(v: View, ok: bool): View
    requires v.w.pc.Writing? && InHand(v)
  {
    var done := v.s.(writing := false, acknowledged := v.s.epoch);
    if ok then v.(s := done.(cancelled := false), w := v.w.(pc := After(v.w.pc.job, v.w.pc.boot)))
    else v.(s := done, w := v.w.(pc := Failing(v.w.pc.job, v.w.pc.boot)))
  }

  // The loop.

  function Pop(v: View): View
    requires v.w.pc.Idle?
  {
    if v.s.stop then v.(w := v.w.(pc := CloseDue(AtEnd, false)))
    else if v.q == [] then v
    else v.(q := v.q[1..], w := v.w.(pc := Popped(v.q[0])))
  }

  function CheckEpoch(v: View): View
    requires v.w.pc.Popped?
  {
    var x := v.w.pc.tag;
    if x.epoch != v.s.epoch then v.(w := v.w.(pc := Idle))
    else v.(w := v.w.(pc := Priming(x), mediaEpoch := x.epoch, awaiting := v.w.awaiting || v.w.mediaEpoch != x.epoch))
  }

  /** New codec headers go out in front of the tag. */
  function ReadLoopHeaders(v: View): View
    requires v.w.pc.Priming?
  {
    var x := v.w.pc.tag;
    v.(w := v.w.(pc := if v.s.primed == v.s.revision || v.s.headers == [] then Confirm(x, v.s.revision)
                       else Sending(LoopHeader(x, SetEpoch(v.s.headers, x.epoch), v.s.revision), false)))
  }

  /** A tag of the current epoch is sent, or skipped in front of the first key picture or of its sound. */
  function Select(v: View): View
    requires v.w.pc.Confirm?
  {
    var x, revision := v.w.pc.tag, v.w.pc.revision;
    if x.epoch != v.s.epoch then v.(w := v.w.(pc := Idle)) else
      var u := v.(s := v.s.(primed := revision));
      var key := x.kind.Video? && x.keyframe;
      if x.codecHeader then u.(w := v.w.(pc := Sending(Media(x), false)))
      else if x.drain then u.(w := v.w.(pc := if x.kind.Audio? then Sending(Media(x), false) else CloseDue(AtEnd, false)))
      else if v.w.awaiting && !key then u.(w := v.w.(pc := Idle))
      else
        var w := if v.w.awaiting then v.w.(awaiting := false, cutoff := x.time) else v.w;
        u.(w := w.(pc := if x.kind.Audio? && x.time < w.cutoff then Idle else Sending(Media(x), false)))
  }

  function Acknowledge(v: View): View
    requires v.w.pc.Delivered?
  {
    var x := v.w.pc.tag;
    var u := v.(w := v.w.(pc := Publishing(x)));
    if x.ticket > 0 && x.epoch == v.s.epoch && !v.s.stop then u.(s := v.s.(deliveredEpoch := x.epoch, deliveredTicket := x.ticket)) else u
  }

  function Publish(v: View): View
    requires v.w.pc.Publishing?
  {
    var x := v.w.pc.tag;
    var u := v.(w := v.w.(pc := Idle));
    if x.MediaAudio() && x.epoch == v.s.epoch && !v.w.awaiting then u.(s := v.s.(published := x.epoch)) else u
  }

  // Reconnecting.

  /** What is dropped never reaches this connection: the coordinator need not wait for it. */
  function AcknowledgeDropped(s: Shared): Shared {
    var u := s.(carried := 0, dropVideo := false);
    if s.enqueued != 0 then u.(deliveredEpoch := s.epoch, deliveredTicket := s.enqueued) else u
  }

  function Reconnect(v: View): View
    requires v.w.pc.Lost?
  {
    var s := v.s.(status := if v.s.stop then v.s.status else Reconnecting, published := 0, deliveredEpoch := 0, deliveredTicket := 0,
                  resume := v.s.cancelled);
    var u := v.(w := v.w.(pc := CloseDue(AfterLoss, false)));
    if s.resume then u.(s := s) else u.(s := AcknowledgeDropped(s), q := [])
  }

  function BeginClose(v: View): View
    requires v.w.pc.CloseDue?
  {
    v.(s := v.s.(writing := true), w := v.w.(pc := Closing(v.w.pc.next, v.w.pc.boot)), g := v.g.(entry := v.s.epoch))
  }

  function EndClose(v: View): View
    requires v.w.pc.Closing?
  {
    var done := v.s.(writing := false, acknowledged := v.s.epoch);
    match v.w.pc.next
    case AfterPrime => v.(s := done, w := v.w.(pc := if v.w.pc.boot then Lost else CancelDue(false)))
    case AfterLoss => v.(s := done, w := v.w.(pc := CancelDue(true)))
    case AtEnd => v.(s := done.(status := if v.s.stop then v.s.status else Failed), q := [], w := v.w.(pc := Dead))
  }

  function TakeCancellation(v: View): View
    requires v.w.pc.CancelDue?
  {
    v.(s := v.s.(cancelled := false),
       w := v.w.(pc := if v.s.cancelled then ReplaceDue else if v.w.pc.first then RetryDue else ResumeEnd(true, false)))
  }

  function Replace(v: View, ok: bool): View
    requires v.w.pc.ReplaceDue?
  {
    v.(w := v.w.(pc := if ok || v.s.stop then RetryDue else ResumeEnd(true, true)))
  }

  function EndResume(v: View): View
    requires v.w.pc.ResumeEnd?
  {
    var u := if v.s.resume && v.w.pc.discard then v.(s := AcknowledgeDropped(v.s), q := []) else v;
    u.(s := u.s.(resume := false), w := v.w.(pc := if v.w.pc.last then CloseDue(AtEnd, false) else RetryDue))
  }

  /** The next attempt, unless there is none left. */
  function Retry(v: View, exhausted: bool): View
    requires v.w.pc.RetryDue?
  {
    if exhausted || v.s.stop then v.(w := v.w.(pc := ResumeEnd(false, true)))
    else v.(s := v.s.(status := Reconnecting), w := v.w.(pc := ConnectDue(false)))
  }
}
