/** Runs of one sender: any order of the steps of its worker, of the threads that hand media in, and of those that fence it
    off or stop it. */
module SenderRuns {
  import opened Media
  import opened SenderQueue
  import opened SenderState
  import opened SenderSteps
  import opened SenderProofs
  import opened SenderIntake

  datatype Step =
    | DoBeginConnect(timedOut: bool) | DoEndConnect(ok: bool) | DoReadConnectHeaders | DoPrimeConnection | DoEnterLoop(timedOut: bool)
    | DoBeginSend | DoEndSend(ok: bool) | DoPop | DoCheckEpoch | DoReadLoopHeaders | DoSelect | DoAcknowledge | DoPublish
    | DoReconnect | DoBeginClose | DoEndClose | DoTakeCancellation | DoReplace(ok: bool) | DoEndResume | DoRetry(exhausted: bool)
    | DoInvalidate(epoch: nat) | DoStop
    | DoAdmit(tags: seq<Tag>, epoch: nat, headers: seq<Tag>) | DoDropIncoming(frames: int) | DoShed
    | DoPush(l: seq<Tag>, frames: int) | DoCrowd(l: seq<Tag>, frames: int) | DoRefuse(carried: nat, drop: bool)

  ghost predicate Enabled(v: View, a: Step) {
    match a
    case DoBeginConnect(_) => v.w.pc.ConnectDue?
    case DoEndConnect(_) => v.w.pc.Connecting?
    case DoReadConnectHeaders => v.w.pc.ReadHeaders?
    case DoPrimeConnection => v.w.pc.SetPrimed?
    case DoEnterLoop(_) => v.w.pc.Connected?
    case DoBeginSend => v.w.pc.Sending? && InHand(v)
    case DoEndSend(_) => v.w.pc.Writing? && InHand(v)
    case DoPop => v.w.pc.Idle?
    case DoCheckEpoch => v.w.pc.Popped?
    case DoReadLoopHeaders => v.w.pc.Priming?
    case DoSelect => v.w.pc.Confirm?
    case DoAcknowledge => v.w.pc.Delivered?
    case DoPublish => v.w.pc.Publishing?
    case DoReconnect => v.w.pc.Lost?
    case DoBeginClose => v.w.pc.CloseDue?
    case DoEndClose => v.w.pc.Closing?
    case DoTakeCancellation => v.w.pc.CancelDue?
    case DoReplace(_) => v.w.pc.ReplaceDue?
    case DoEndResume => v.w.pc.ResumeEnd?
    case DoRetry(_) => v.w.pc.RetryDue?
    case DoInvalidate(_) => true
    case DoStop => true
    case DoAdmit(_, epoch, _) => v.s.epoch <= epoch
    case DoDropIncoming(_) => !v.s.status.Running? && !v.s.status.Stopping? && !v.s.status.Failed? && !v.s.resume
    case DoShed => true
    case DoPush(l, frames) => Ready(v, l, frames) && (Alive(v) ==> Accepting(v.s))
    case DoCrowd(l, frames) => Ready(v, l, frames)
    case DoRefuse(_, _) => true
  }

  /** A step that is not enabled waits. */
  ghost function Apply(v: View, a: Step): View {
    if !Enabled(v, a) then v else
    match a
    case DoBeginConnect(timedOut) => BeginConnect(v, timedOut)
    case DoEndConnect(ok) => EndConnect(v, ok)
    case DoReadConnectHeaders => ReadConnectHeaders(v)
    case DoPrimeConnection => PrimeConnection(v)
    case DoEnterLoop(timedOut) => EnterLoop(v, timedOut)
    case DoBeginSend => BeginSend(v)
    case DoEndSend(ok) => EndSend(v, ok)
    case DoPop => Pop(v)
    case DoCheckEpoch => CheckEpoch(v)
    case DoReadLoopHeaders => ReadLoopHeaders(v)
    case DoSelect => Select(v)
    case DoAcknowledge => Acknowledge(v)
    case DoPublish => Publish(v)
    case DoReconnect => Reconnect(v)
    case DoBeginClose => BeginClose(v)
    case DoEndClose => EndClose(v)
    case DoTakeCancellation => TakeCancellation(v)
    case DoReplace(ok) => Replace(v, ok)
    case DoEndResume => EndResume(v)
    case DoRetry(exhausted) => Retry(v, exhausted)
    case DoInvalidate(epoch) => Invalidate(v, epoch)
    case DoStop => Stop(v)
    case DoAdmit(tags, epoch, headers) => Admit(v, tags, epoch, headers)
    case DoDropIncoming(frames) => DropIncoming(v, frames)
    case DoShed => ShedQueue(v)
    case DoPush(l, frames) => Push(v, l, frames)
    case DoCrowd(l, frames) => Crowded(v, l)
    case DoRefuse(carried, drop) => Refuse(v.(s := v.s.(carried := carried, dropVideo := drop)))
  }

  lemma {:induction false} StepKeeps(v: View, a: Step)
    requires Inv(v)
    ensures Inv(Apply(v, a))
  {
    hide Inv, Ready;
    if Enabled(v, a) {
      match a
      case DoBeginConnect(timedOut) => BeginConnectKeeps(v, timedOut);
      case DoEndConnect(ok) => EndConnectKeeps(v, ok);
      case DoReadConnectHeaders => ReadConnectHeadersKeeps(v);
      case DoPrimeConnection => PrimeConnectionKeeps(v);
      case DoEnterLoop(timedOut) => EnterLoopKeeps(v, timedOut);
      case DoBeginSend => BeginSendKeeps(v);
      case DoEndSend(ok) => EndSendKeeps(v, ok);
      case DoPop => PopKeeps(v);
      case DoCheckEpoch => CheckEpochKeeps(v);
      case DoReadLoopHeaders => ReadLoopHeadersKeeps(v);
      case DoSelect => SelectKeeps(v);
      case DoAcknowledge => AcknowledgeKeeps(v);
      case DoPublish => PublishKeeps(v);
      case DoReconnect => ReconnectKeeps(v);
      case DoBeginClose => BeginCloseKeeps(v);
      case DoEndClose => EndCloseKeeps(v);
      case DoTakeCancellation => TakeCancellationKeeps(v);
      case DoReplace(ok) => ReplaceKeeps(v, ok);
      case DoEndResume => EndResumeKeeps(v);
      case DoRetry(exhausted) => RetryKeeps(v, exhausted);
      case DoInvalidate(epoch) => InvalidateKeeps(v, epoch);
      case DoStop => StopKeeps(v);
      case DoAdmit(tags, epoch, headers) => AdmitKeeps(v, tags, epoch, headers);
      case DoDropIncoming(frames) => DropIncomingKeeps(v, frames);
      case DoShed => ShedKeeps(v);
      case DoPush(l, frames) => PushKeeps(v, l, frames);
      case DoCrowd(l, frames) => CrowdedKeeps(v, l, frames);
      case DoRefuse(carried, drop) => RefusedKeeps(v, carried, drop);
    }
  }

  predicate OfLoop(a: Step) {
    a.DoPop? || a.DoCheckEpoch? || a.DoReadLoopHeaders? || a.DoSelect? || a.DoAcknowledge? || a.DoPublish?
  }

  predicate Sends(a: Step) { a.DoBeginSend? || a.DoEndSend? }

  predicate OfQueue(a: Step) { a.DoStop? || a.DoShed? || a.DoPush? || a.DoCrowd? || a.DoDropIncoming? || a.DoRefuse? }

  predicate TurnsEpoch(a: Step) { a.DoInvalidate? || a.DoAdmit? }

  /** Steps that acknowledge, or take back. */
  predicate Counts(a: Step) { a.DoReconnect? || a.DoEndResume? || a.DoAcknowledge? || a.DoDropIncoming? }

  /** Most steps leave alone what was handed in and what counts as delivered. */
  predicate Leaves(v: View, u: View, counts: bool, refuses: bool) {
    && u.s.epoch == v.s.epoch && u.g.last == v.g.last && u.g.headed == v.g.headed && (!refuses ==> u.g.orderly == v.g.orderly)
    && (!counts ==> Level(u.s) == Level(v.s))
  }

  lemma {:induction false} LoopLeaves(v: View, a: Step)
    requires OfLoop(a)
    ensures Leaves(v, Apply(v, a), Counts(a), a.DoRefuse?)
  {
    hide Leaves, Select, Acknowledge, SetEpoch;
    if Enabled(v, a) && a.DoSelect? { SelectLeaves(v); }
    if Enabled(v, a) && a.DoAcknowledge? { AcknowledgeLeaves(v); }
    if !a.DoSelect? && !a.DoAcknowledge? { SimplyLeaves(v, Apply(v, a)); }
    if !Enabled(v, a) { SimplyLeaves(v, v); }
  }

  lemma {:induction false} SimplyLeaves(v: View, u: View)
    requires u.g == v.g && u.s.epoch == v.s.epoch && u.s.deliveredEpoch == v.s.deliveredEpoch && u.s.deliveredTicket == v.s.deliveredTicket
    ensures forall counts, refuses :: Leaves(v, u, counts, refuses)
  {}

  lemma {:induction false} SelectLeaves(v: View)
    requires v.w.pc.Confirm?
    ensures forall counts, refuses :: Leaves(v, Select(v), counts, refuses)
  {
    var u := Select(v);
    assert u.s == v.s || u.s == v.s.(primed := v.w.pc.revision);
    SimplyLeaves(v, u);
  }

  lemma {:induction false} AcknowledgeLeaves(v: View)
    requires v.w.pc.Delivered?
    ensures Leaves(v, Acknowledge(v), true, false)
  {}

  lemma {:induction false} SendLeaves(v: View, a: Step)
    requires Sends(a)
    ensures Leaves(v, Apply(v, a), false, false)
  {
    hide InHand, JobEpoch, EntryOf, After, Failing;
  }

  lemma {:induction false} QueueLeaves(v: View, a: Step)
    requires OfQueue(a)
    ensures Leaves(v, Apply(v, a), Counts(a), a.DoRefuse?)
  {
    hide Ready, Shed, Thin, Overtakes;
  }

  lemma {:induction false} ConnectionLeaves(v: View, a: Step)
    requires !OfLoop(a) && !Sends(a) && !OfQueue(a) && !TurnsEpoch(a)
    ensures Leaves(v, Apply(v, a), Counts(a), a.DoRefuse?)
  {
    hide Ready, SetEpoch;
  }

  lemma {:induction false} StepLeaves(v: View, a: Step)
    requires !TurnsEpoch(a)
    ensures Leaves(v, Apply(v, a), Counts(a), a.DoRefuse?)
  {
    hide Leaves, Apply, OfLoop, OfQueue;
    if OfLoop(a) { LoopLeaves(v, a); } else if Sends(a) { SendLeaves(v, a); } else if OfQueue(a) { QueueLeaves(v, a); } else { ConnectionLeaves(v, a); }
  }

  lemma {:induction false} InvalidateDelivered(v: View, epoch: nat)
    requires Inv(v)
    ensures var u := Invalidate(v, epoch); if u.s.epoch == v.s.epoch then Level(u.s) == Level(v.s) else Level(u.s) == 0
  {
    hide Gop, Tickets, Primed, Published, Staged, InHand;
  }

  lemma {:induction false} AdmitDelivered(v: View, tags: seq<Tag>, epoch: nat, headers: seq<Tag>)
    requires Inv(v) && v.s.epoch <= epoch
    ensures var u := Admit(v, tags, epoch, headers); if u.s.epoch == v.s.epoch then Level(u.s) == Level(v.s) else Level(u.s) == 0
  {
    hide Gop, Tickets, Primed, Published, Staged, InHand, GoodBatch, MaxTicket;
  }

  /** Within an epoch, what counts as delivered falls at one step only: a connection is given up after a transition cut its
      I/O, with media of that epoch already counted. That happens only while the session is starting. */
  lemma {:induction false} LevelFallsExactly(v: View, a: Step)
    requires Inv(v) && Enabled(v, a) && v.g.orderly && Alive(v) && Apply(v, a).s.epoch == v.s.epoch
    ensures Level(Apply(v, a).s) < Level(v.s) <==> a.DoReconnect? && v.s.cancelled && 0 < Level(v.s)
    ensures Level(Apply(v, a).s) < Level(v.s) ==> v.s.status.Starting?
  {
    hide Inv, Alive, Level, Ready, Reconnect, EndResume, Acknowledge, DropIncoming, Invalidate, Admit;
    match a
    case DoReconnect => ReconnectTakesBack(v);
    case DoEndResume => EndResumeAdvances(v);
    case DoAcknowledge => AcknowledgeAdvances(v);
    case DoDropIncoming(frames) => DropIncomingAdvances(v, frames);
    case DoInvalidate(epoch) => InvalidateDelivered(v, epoch);
    case DoAdmit(tags, epoch, headers) => AdmitDelivered(v, tags, epoch, headers);
    case _ => StepLeaves(v, a);
  }

  ghost function Exec(v: View, steps: seq<Step>): View
    decreases |steps|
  {
    if steps == [] then v else Exec(Apply(v, steps[0]), steps[1..])
  }

  /** Over every run from the start of a session, whoever goes on when. */
  lemma {:induction false} RunKeeps(v: View, steps: seq<Step>)
    requires Inv(v)
    ensures Inv(Exec(v, steps))
    decreases |steps|
  {
    hide Inv, Apply;
    if steps == [] {
    } else {
      StepKeeps(v, steps[0]);
      RunKeeps(Apply(v, steps[0]), steps[1..]);
    }
  }

  /** A session from its start: while its callers behave, video went out in GOP prefixes, and in an exact epoch nothing that
      counts as delivered is still pending. */
  lemma {:induction false} SessionIsSafe(headers: seq<Tag>, steps: seq<Step>, i: nat)
    requires headers != []
    ensures var v := Exec(Started(headers), steps);
      && Inv(v) && (v.g.orderly ==> GopPrefixes(v.conn))
      && (v.g.orderly && Alive(v) && v.g.exactFrom <= v.s.epoch && 0 < Level(v.s) && i < |Pending(v)| ==> Level(v.s) < Pending(v)[i].batch)
  {
    hide Inv, Exec, Started, GopPrefixes, Alive, Level, Pending;
    var v := Exec(Started(headers), steps);
    StartedKeeps(headers);
    RunKeeps(Started(headers), steps);
    GopOf(v);
    if v.g.orderly && Alive(v) && v.g.exactFrom <= v.s.epoch && 0 < Level(v.s) && i < |Pending(v)| { AcknowledgedIsGone(v, i); }
  }
}
