/** What a sender writes when nothing comes between: headers, guards, and media from a key picture on. */
module SenderTurns {
  import opened Media
  import opened SenderQueue
  import opened SenderState
  import opened SenderSteps
  import opened SenderProofs
  import opened SenderIntake
  import opened SenderRuns

  predicate Opens(x: Tag) { x.kind.Video? && x.keyframe && !x.codecHeader && !x.drain }

  /** Where media goes on from: the time of the first key picture, if there was one. */
  function Since(x: Tag, from: Option<nat>): Option<nat> {
    if from.None? && Opens(x) then Some(x.time) else from
  }

  /** Headers and guards always go out, media once there was a key picture, and no sound that is older than it. */
  predicate Due(x: Tag, from: Option<nat>) {
    x.codecHeader || x.drain || (from.Some? && (x.kind.Video? || from.value <= x.time))
  }

  function Wanted(q: seq<Tag>, from: Option<nat>): seq<Tag> {
    if q == [] then []
    else (if Due(q[0], Since(q[0], from)) then [q[0]] else []) + Wanted(q[1..], Since(q[0], from))
  }

  function Entries(s: seq<Tag>): seq<Entry> {
    if s == [] then [] else [MediaEntry(s[0])] + Entries(s[1..])
  }

  /** The worker waits for tags of the current epoch, whose headers were sent; no drain frame is a picture. */
  predicate Calm(v: View) {
    && v.w.pc.Idle? && !v.s.stop && v.s.primed == v.s.revision
    && forall i :: 0 <= i < |v.q| ==> v.q[i].epoch == v.s.epoch && (v.q[i].drain && !v.q[i].codecHeader ==> v.q[i].kind.Audio?)
  }

  function FromOf(v: View): Option<nat> {
    if v.w.awaiting || v.w.mediaEpoch != v.s.epoch then None else Some(v.w.cutoff)
  }

  /** A tag is taken from the queue, and sent if it is due. A step that is not enabled does nothing. */
  const TURN: seq<Step> := [DoPop, DoCheckEpoch, DoReadLoopHeaders, DoSelect, DoBeginSend, DoEndSend(true), DoAcknowledge, DoPublish]

  /** Taken, looked at, and kept or skipped. */
  ghost function Chosen(v: View): View { Apply(Apply(Apply(Apply(v, DoPop), DoCheckEpoch), DoReadLoopHeaders), DoSelect) }

  ghost function Written(v: View): View { Apply(Apply(Apply(Apply(v, DoBeginSend), DoEndSend(true)), DoAcknowledge), DoPublish) }

  lemma {:induction false} ChosenIs(v: View)
    requires Calm(v) && v.q != []
    ensures var x, u := v.q[0], Chosen(v); var from := Since(x, FromOf(v));
      && u.w.pc == (if Due(x, from) then Sending(Media(x), false) else Idle)
      && u.q == v.q[1..] && u.conn == v.conn && u.s == v.s && u.g == v.g && u.w.mediaEpoch == v.s.epoch
      && u.w.awaiting == from.None? && (from.Some? ==> u.w.cutoff == from.value)
  {}

  lemma {:induction false} WrittenIs(v: View, x: Tag)
    requires v.w.pc == Sending(Media(x), false) && InHand(v) && !v.s.stop && x.epoch == v.s.epoch
    ensures var u := Written(v);
      && u.w == v.w.(pc := Idle) && u.q == v.q && u.conn == v.conn + [MediaEntry(x)]
      && u.s.epoch == v.s.epoch && !u.s.stop && u.s.primed == v.s.primed && u.s.revision == v.s.revision
      && Level(u.s) == (if x.ticket > 0 then x.ticket else Level(v.s))
  {}

  lemma {:induction false} NothingToWrite(v: View)
    requires v.w.pc.Idle?
    ensures Written(v) == v
  {}

  lemma {:induction false} ChosenKeeps(v: View)
    requires Inv(v)
    ensures Inv(Chosen(v)) && InHand(Chosen(v))
  {
    hide Apply, Gop, Tickets, Primed, Published, Staged, Fence, InHand;
    StepKeeps(v, DoPop);
    StepKeeps(Apply(v, DoPop), DoCheckEpoch);
    StepKeeps(Apply(Apply(v, DoPop), DoCheckEpoch), DoReadLoopHeaders);
    StepKeeps(Apply(Apply(Apply(v, DoPop), DoCheckEpoch), DoReadLoopHeaders), DoSelect);
  }

  lemma {:induction false} WrittenKeeps(v: View)
    requires Inv(v)
    ensures Inv(Written(v))
  {
    hide Apply, Inv;
    StepKeeps(v, DoBeginSend);
    StepKeeps(Apply(v, DoBeginSend), DoEndSend(true));
    StepKeeps(Apply(Apply(v, DoBeginSend), DoEndSend(true)), DoAcknowledge);
    StepKeeps(Apply(Apply(Apply(v, DoBeginSend), DoEndSend(true)), DoAcknowledge), DoPublish);
  }

  /** The acknowledged level after a tag was dealt with. */
  function LevelAfter(level: nat, x: Tag, from: Option<nat>): nat { if Due(x, from) && x.ticket > 0 then x.ticket else level }

  /** A turn of the loop without interference, on an open connection. */
  lemma {:induction false} TurnIs(v: View)
    requires Inv(v) && Calm(v) && v.q != []
    ensures var x, u := v.q[0], Written(Chosen(v)); var from := Since(x, FromOf(v));
      && Inv(u) && Calm(u) && u.q == v.q[1..] && u.s.epoch == v.s.epoch && FromOf(u) == from
      && u.conn == v.conn + (if Due(x, from) then [MediaEntry(x)] else [])
      && Level(u.s) == LevelAfter(Level(v.s), x, from)
  {
    hide Inv, InHand, Chosen, Written, Level;
    var x, c := v.q[0], Chosen(v);
    ChosenIs(v);
    ChosenKeeps(v);
    WrittenKeeps(c);
    if Due(x, Since(x, FromOf(v))) { WrittenIs(c, x); } else { NothingToWrite(c); }
  }

  lemma {:induction false} ExecConcat(v: View, a: seq<Step>, b: seq<Step>)
    ensures Exec(v, a + b) == Exec(Exec(v, a), b)
    decreases |a|
  {
    hide Apply;
    if a == [] {
      assert a + b == b;
    } else {
      assert (a + b)[1..] == a[1..] + b;
      ExecConcat(Apply(v, a[0]), a[1..], b);
    }
  }

  lemma {:induction false} Four(v: View, a: Step, b: Step, c: Step, d: Step)
    ensures Exec(v, [a, b, c, d]) == Apply(Apply(Apply(Apply(v, a), b), c), d)
  {
    hide Apply;
    var run := [a, b, c, d];
    assert run[1..] == [b, c, d] && [b, c, d][1..] == [c, d] && [c, d][1..] == [d] && [d][1..] == [];
    assert Exec(v, run) == Exec(Apply(v, a), [b, c, d]);
    assert Exec(Apply(v, a), [b, c, d]) == Exec(Apply(Apply(v, a), b), [c, d]);
    assert Exec(Apply(Apply(v, a), b), [c, d]) == Exec(Apply(Apply(Apply(v, a), b), c), [d]);
    assert Exec(Apply(Apply(Apply(v, a), b), c), [d]) == Exec(Apply(Apply(Apply(Apply(v, a), b), c), d), []);
  }

  lemma {:induction false} TurnIsRun(v: View)
    ensures Exec(v, TURN) == Written(Chosen(v))
  {
    hide Apply, Exec;
    var first, second := [DoPop, DoCheckEpoch, DoReadLoopHeaders, DoSelect], [DoBeginSend, DoEndSend(true), DoAcknowledge, DoPublish];
    assert TURN == first + second;
    ExecConcat(v, first, second);
    Four(v, DoPop, DoCheckEpoch, DoReadLoopHeaders, DoSelect);
    Four(Chosen(v), DoBeginSend, DoEndSend(true), DoAcknowledge, DoPublish);
  }

  function Turns(n: nat): seq<Step> { if n == 0 then [] else TURN + Turns(n - 1) }

  function LevelAtEnd(level: nat, q: seq<Tag>, from: Option<nat>): nat
    decreases |q|
  {
    if q == [] then level else LevelAtEnd(LevelAfter(level, q[0], Since(q[0], from)), q[1..], Since(q[0], from))
  }

  /** A connected sender that nobody disturbs writes what is due of its queue, all of it and in order, and counts it as
      delivered. */
  lemma {:induction false} EverythingDueIsWritten(v: View)
    requires Inv(v) && Calm(v)
    ensures var u := Exec(v, Turns(|v.q|));
      && Calm(u) && u.q == [] && u.s.epoch == v.s.epoch && u.conn == v.conn + Entries(Wanted(v.q, FromOf(v)))
      && Level(u.s) == LevelAtEnd(Level(v.s), v.q, FromOf(v))
    decreases |v.q|
  {
    hide Inv, Calm, FromOf, Since, Due, LevelAfter, Level, Chosen, Written;
    if v.q == [] {
      assert v.conn + [] == v.conn;
    } else {
      TurnIs(v);
      TurnIsRun(v);
      var u := Written(Chosen(v));
      ExecConcat(v, TURN, Turns(|v.q| - 1));
      EverythingDueIsWritten(u);
      Appended(v.conn, v.q, FromOf(v));
    }
  }

  lemma {:induction false} Appended(conn: seq<Entry>, q: seq<Tag>, from: Option<nat>)
    requires q != []
    ensures var f := Since(q[0], from);
      conn + Entries(Wanted(q, from)) == (conn + (if Due(q[0], f) then [MediaEntry(q[0])] else [])) + Entries(Wanted(q[1..], f))
  {
    hide Since, Due;
    var f := Since(q[0], from);
    if Due(q[0], f) {
      assert ([q[0]] + Wanted(q[1..], f))[1..] == Wanted(q[1..], f);
    } else {
      assert [] + Wanted(q[1..], f) == Wanted(q[1..], f);
    }
  }

  /** Once media is on air, nothing of a queue is skipped but sound from before its first picture. */
  lemma {:induction false} NothingIsSkipped(q: seq<Tag>, from: Option<nat>)
    requires from.Some? && forall i :: 0 <= i < |q| && q[i].MediaAudio() ==> from.value <= q[i].time
    ensures Wanted(q, from) == q
  {
    if q != [] {
      NothingIsSkipped(q[1..], from);
      assert q == [q[0]] + q[1..];
    }
  }
}
