/** When an acknowledgement may come early: a retry after a refused push can put the ticket of a batch in front of tags of
    the same batch. When exactly that happens, and a run in which it does. */
module Overtaking {
  import opened Media
  import opened SenderQueue
  import opened SenderState
  import opened SenderSteps
  import opened SenderProofs
  import opened SenderIntake

  /** Whichever pending tag of this epoch is acknowledged first, it covers no batch that is still pending behind it. */
  predicate Honest(v: View) {
    forall i, j :: 0 <= i < j < |Pending(v)| && Pending(v)[i].epoch == v.s.epoch ==> Pending(v)[i].ticket < Pending(v)[j].batch
  }

  /** The acknowledgement of a tag covers finished batches only, exactly when its ticket is below every batch behind it. */
  lemma {:induction false} AcknowledgedExactly(v: View)
    requires v.w.pc.Delivered? && v.w.pc.tag.ticket > 0 && v.w.pc.tag.epoch == v.s.epoch && !v.s.stop
    ensures var u := Acknowledge(v);
      (forall i :: 0 <= i < |Pending(u)| ==> Level(u.s) < Pending(u)[i].batch) <==>
      (forall j :: 0 < j < |Pending(v)| ==> v.w.pc.tag.ticket < Pending(v)[j].batch)
  {
    hide Pending;
    var u := Acknowledge(v);
    AcknowledgePending(v);
    AllBehind(v.w.pc.tag, v.q, v.w.pc.tag.ticket);
  }

  predicate AllAbove(p: seq<Tag>, t: nat) { forall i :: 0 <= i < |p| ==> t < p[i].batch }

  /** What holds of a tail, place by place. */
  lemma {:induction false} AllBehind(x: Tag, q: seq<Tag>, t: nat)
    ensures AllAbove(q, t) <==> forall j :: 0 < j < |[x] + q| ==> t < ([x] + q)[j].batch
  {
    var p := [x] + q;
    if AllAbove(q, t) {
      forall j | 0 < j < |p| ensures t < p[j].batch { assert p[j] == q[j - 1]; }
    }
    if forall j :: 0 < j < |p| ==> t < p[j].batch {
      forall i | 0 <= i < |q| ensures t < q[i].batch { assert p[i + 1] == q[i]; }
    }
  }

  lemma {:induction false} ExactIsHonest(v: View)
    requires Inv(v) && v.g.orderly && Alive(v) && v.g.exactFrom <= v.s.epoch
    ensures Honest(v)
  {
    hide Fence, Staged, InHand, Gop, Primed, Published, Pending;
  }

  /** A batch without a key picture that ends in media video behind at least two other tags. */
  predicate Risky(l: seq<Tag>) {
    && (forall i :: 0 <= i < |l| ==> !(l[i].MediaVideo() && l[i].keyframe))
    && |l| - VideoCount(l) >= 2 && l[|l| - 1].MediaVideo()
  }

  /** The ticket n of the batch is on its last tag alone. */
  predicate TicketLast(l: seq<Tag>, n: nat) {
    OneBatch(l, n) && l != [] && l[|l| - 1].ticket == n && forall i :: 0 <= i < |l| - 1 ==> l[i].ticket == 0
  }

  lemma {:induction false} DropsUntilKey(l: seq<Tag>, drop: bool, carried: nat)
    ensures var t := Thin(l, drop, carried);
      && (t.drop <==> drop && forall i :: 0 <= i < |l| ==> !(l[i].MediaVideo() && l[i].keyframe))
      && (t.drop ==> |t.kept| == |l| - VideoCount(l))
  {
    if l != [] {
      var init := l[..|l| - 1];
      DropsUntilKey(init, drop, carried);
      assert forall i :: 0 <= i < |l| ==> l[i] == if i < |init| then init[i] else l[|l| - 1];
    }
  }

  /** A refused batch puts its own ticket in front of its tags exactly when video is being dropped and the batch is risky. */
  lemma {:induction false} OvertakesExactly(l: seq<Tag>, n: nat, drop: bool, carried: nat)
    requires TicketLast(l, n)
    ensures Overtakes(Thin(l, drop, carried)) <==> drop && Risky(l)
  {
    var t := Thin(l, drop, carried);
    DropsUntilKey(l, drop, carried);
    DropsUntilKey(l[..|l| - 1], drop, carried);
    if t.kept != [] { var k := ThinMember(l, drop, carried, 0); }
  }

  // A push that was refused, and tried again.

  /** The worker pops a tag if it waits for one. */
  function MayPop(v: View, now: bool): View { if now && v.w.pc.Idle? then Pop(v) else v }

  /** From the first refusal to the retry: congestion is flagged and the queue is shed; the worker may pop before or after. */
  function Retrying(v: View, l: seq<Tag>, first: bool, then': bool): View {
    MayPop(ShedQueue(MayPop(Crowded(v, l), first)), then')
  }

  /** The batch is queued at once, or after a refusal. */
  function Queued(v: View, l: seq<Tag>, frames: int, refused: bool, first: bool, then': bool): View {
    if refused then Push(Retrying(v, l, first, then'), Thinned(v, l).kept, frames) else Push(v, l, frames)
  }

  /** An honest sender stays honest unless the push is refused while video is being dropped, and the batch is risky. */
  lemma {:induction false} HonestExactly(v: View, l: seq<Tag>, frames: int, n: nat, refused: bool, first: bool, then': bool)
    requires Inv(v) && Ready(v, l, frames) && v.g.orderly && Alive(v) && Accepting(v.s) && v.g.exactFrom <= v.s.epoch
    requires TicketLast(l, n)
    ensures Honest(Queued(v, l, frames, refused, first, then')) <==> !(refused && v.s.dropVideo && Risky(l))
  {
    hide Inv, Ready, Thin, Honest, Risky, Pending;
    OvertakesExactly(l, n, v.s.dropVideo, v.s.carried);
    var u := Queued(v, l, frames, refused, first, then');
    if !refused {
      PushKeeps(v, l, frames);
      ExactIsHonest(u);
    } else {
      RetryKeeps(v, l, frames, n, first, then');
      if Overtakes(Thinned(v, l)) { RetryOvertakes(v, l, frames, n, first, then'); } else { ExactIsHonest(u); }
    }
  }

  lemma {:induction false} MayPopKeeps(v: View, l: seq<Tag>, frames: int, now: bool)
    requires Inv(v) && Ready(v, l, frames) && !v.s.stop
    ensures var u := MayPop(v, now); Inv(u) && Ready(u, l, frames) && u.s == v.s && u.g == v.g && (Alive(v) ==> Alive(u))
  {
    hide Inv, Ready;
    if now && v.w.pc.Idle? {
      PopKeeps(v);
      PopReady(v, l, frames);
    }
  }

  lemma {:induction false} RetryKeeps(v: View, l: seq<Tag>, frames: int, n: nat, first: bool, then': bool)
    requires Inv(v) && Ready(v, l, frames) && v.g.orderly && Alive(v) && Accepting(v.s) && OneBatch(l, n)
    ensures var u := Queued(v, l, frames, true, first, then');
      && Inv(u) && u.g.orderly && Alive(u) && u.s.epoch == v.s.epoch && u.g.exactFrom == Crowded(v, l).g.exactFrom
  {
    hide Inv, Ready, Thin, OneBatch, Shed, Overtakes;
    var kept := Thinned(v, l).kept;
    var crowded := Crowded(v, l);
    CrowdedKeeps(v, l, frames);
    CrowdedReadyInv(v, l, frames, n);
    MayPopKeeps(crowded, kept, frames, first);
    var popped := MayPop(crowded, first);
    ShedKeeps(popped);
    ShedReadyInv(popped, kept, frames);
    MayPopKeeps(ShedQueue(popped), kept, frames, then');
    PushKeeps(Retrying(v, l, first, then'), kept, frames);
  }

  /** While video is dropped, only other tags are kept, and dropping goes on as before. */
  lemma {:induction false} StillDropping(l: seq<Tag>, drop: bool, carried: nat)
    requires Thin(l, drop, carried).drop
    ensures forall i :: 0 <= i < |Thin(l, drop, carried).kept| ==> !Thin(l, drop, carried).kept[i].MediaVideo()
  {
    if l != [] { StillDropping(l[..|l| - 1], drop, carried); }
  }

  lemma {:induction false} KeepAll(s: seq<Tag>, carried: nat)
    requires s != [] && forall i :: 0 <= i < |s| ==> !s[i].MediaVideo()
    ensures var t := Thin(s, true, carried);
      |t.kept| == |s| && t.kept[0] == s[0].(ticket := NatMax(s[0].ticket, carried)) && t.carried == 0 && t.drop
    ensures forall i :: 0 <= i < |s| ==> Thin(s, true, carried).kept[i].batch == s[i].batch
  {
    if |s| == 1 { assert s[..0] == []; } else { KeepAll(s[..|s| - 1], carried); }
  }

  lemma {:induction false} RetryOvertakes(v: View, l: seq<Tag>, frames: int, n: nat, first: bool, then': bool)
    requires OneBatch(l, n) && Overtakes(Thinned(v, l)) && Ready(v, l, frames)
    ensures !Honest(Queued(v, l, frames, true, first, then'))
  {
    hide Shed, Thin, Inv, FramesReady, TicketsReady, Retrying, Honest;
    var t, w := Thinned(v, l), Retrying(v, l, first, then');
    var k0 := ThinMember(l, v.s.dropVideo, v.s.carried, 0);
    var k1 := ThinMember(l, v.s.dropVideo, v.s.carried, 1);
    CarriedDrops(l, v.s.dropVideo, v.s.carried);
    StillDropping(l, v.s.dropVideo, v.s.carried);
    KeepAll(t.kept, w.s.carried);
    WhileRetrying(v, l, first, then');
    QueuedBehind(w, t.kept, frames);
  }

  lemma {:induction false} WhileRetrying(v: View, l: seq<Tag>, first: bool, then': bool)
    ensures var w := Retrying(v, l, first, then'); w.s.dropVideo && Thinned(v, l).carried <= w.s.carried && w.s.epoch == v.s.epoch
  {
    hide Shed, Thin, Overtakes;
  }

  /** The first of the kept tags takes a ticket that covers the second. */
  lemma {:induction false} QueuedBehind(w: View, l: seq<Tag>, frames: int)
    requires var kept := Thinned(w, l).kept;
      |kept| >= 2 && kept[0].epoch == w.s.epoch && kept[0].ticket >= kept[1].batch
    ensures !Honest(Push(w, l, frames))
  {
    hide Thin;
    var kept, u, m := Thinned(w, l).kept, Push(w, l, frames), |Pending(w)|;
    assert Pending(u) == Pending(w) + kept;
    assert Pending(u)[m] == kept[0] && Pending(u)[m + 1] == kept[1];
  }

  /** A ticket is carried on only while video is dropped. */
  lemma {:induction false} CarriedDrops(l: seq<Tag>, drop: bool, carried: nat)
    ensures var t := Thin(l, drop, carried); l != [] && t.carried > 0 ==> t.drop
  {}
}
