/** The publication floor, an atomic counter that any number of threads read and compare-and-exchange at the same time.
    One step is one atomic operation; a weak exchange may fail for no reason. */
module EpochFloor {
  import opened Media
  import opened Timeline
  import opened Dispatcher

  datatype Call = Observe(epoch: nat) | Reserve(after: nat) | Advance(expected: nat)

  datatype Result = Observed | Reserved(epoch: nat) | Moved(done: bool) | Overflow

  /** A call in progress. `entry` is the floor when it was made, `seen` the value it would exchange. */
  datatype Thread = Thread(call: Call, entry: nat, seen: Option<nat>, result: Option<Result>)

  /** `handed` lists the epochs handed out by Reserve and Advance, in the order of their exchanges. */
  datatype State = State(floor: nat, threads: seq<Thread>, handed: seq<nat>)

  datatype Step = Enter(call: Call) | Load(i: nat) | Exchange(i: nat, spurious: bool)

  predicate Enabled(s: State, a: Step) {
    match a
    case Enter(_) => true
    case Load(i) => i < |s.threads| && s.threads[i].seen.None? && s.threads[i].result.None?
    case Exchange(i, _) => i < |s.threads| && s.threads[i].seen.Some? && s.threads[i].result.None?
  }

  function Finish(s: State, i: nat, floor: nat, handed: seq<nat>, r: Result): State
    requires i < |s.threads|
  {
    State(floor, s.threads[i := s.threads[i].(result := Some(r))], handed)
  }

  /** A failed exchange leaves the current value in `seen`. */
  function Retry(s: State, i: nat): State
    requires i < |s.threads|
  {
    s.(threads := s.threads[i := s.threads[i].(seen := Some(s.floor))])
  }

  /** One round of a loop, from the value it holds to its exchange. */
  function Round(s: State, i: nat, spurious: bool): State
    requires Enabled(s, Exchange(i, spurious))
  {
    var t := s.threads[i];
    match t.call
    case Observe(epoch) =>
      if epoch <= t.seen.value then Finish(s, i, s.floor, s.handed, Observed)
      else if s.floor == t.seen.value && !spurious then Finish(s, i, epoch, s.handed, Observed)
      else Retry(s, i)
    case Reserve(after) =>
      var base := Max(t.seen.value, after);
      if base >= EPOCH_MAX then Finish(s, i, s.floor, s.handed, Overflow)
      else if s.floor == t.seen.value && !spurious then Finish(s, i, base + 1, s.handed + [base + 1], Reserved(base + 1))
      else Retry(s, i)
    case Advance(expected) =>
      if expected >= EPOCH_MAX then Finish(s, i, s.floor, s.handed, Overflow)
      else if s.floor == expected then Finish(s, i, expected + 1, s.handed + [expected + 1], Moved(true))
      else Finish(s, i, s.floor, s.handed, Moved(false))
  }

  /** A step that is not enabled waits. */
  function Apply(s: State, a: Step): State {
    if !Enabled(s, a) then s else
    match a
    case Enter(call) => s.(threads := s.threads + [Thread(call, s.floor, None, None)])
    case Load(i) => Retry(s, i)
    case Exchange(i, spurious) => Round(s, i, spurious)
  }

  function Exec(s: State, steps: seq<Step>): State
    decreases |steps|
  {
    if steps == [] then s else Exec(Apply(s, steps[0]), steps[1..])
  }

  predicate Increasing(q: seq<nat>) {
    forall i, j :: 0 <= i < j < |q| ==> q[i] < q[j]
  }

  predicate ThreadOk(t: Thread, s: State) {
    && t.entry <= s.floor && (t.seen.Some? ==> t.entry <= t.seen.value <= s.floor)
    && match t.result
       case None => true
       case Some(Observed) => t.call.Observe? && t.call.epoch <= s.floor
       case Some(Reserved(e)) => t.call.Reserve? && t.entry < e && t.call.after < e && e in s.handed
       case Some(Moved(done)) => t.call.Advance? && (done ==> t.entry <= t.call.expected && t.call.expected + 1 in s.handed)
       case Some(Overflow) => true
  }

  predicate Inv(s: State) {
    && Increasing(s.handed) && (forall i :: 0 <= i < |s.handed| ==> s.handed[i] <= s.floor)
    && (forall i :: 0 <= i < |s.threads| ==> ThreadOk(s.threads[i], s))
  }

  /** Nothing is taken back: neither the floor, nor an epoch, nor who made a call when. */
  predicate Later(s: State, u: State) {
    && s.floor <= u.floor && s.handed <= u.handed && |s.threads| <= |u.threads|
    && forall i :: 0 <= i < |s.threads| ==> u.threads[i].call == s.threads[i].call && u.threads[i].entry == s.threads[i].entry
  }

  lemma {:induction false} ThreadGrows(t: Thread, s: State, u: State)
    requires ThreadOk(t, s) && s.floor <= u.floor && s.handed <= u.handed
    ensures ThreadOk(t, u)
  {
    assert forall e: nat :: e in s.handed ==> e in u.handed;
  }

  /** A round changes its own thread, and hands out at most one epoch, above all before. */
  lemma {:induction false} RoundShape(s: State, i: nat, spurious: bool)
    requires Inv(s) && Enabled(s, Exchange(i, spurious))
    ensures var u := Round(s, i, spurious);
            && u.threads == s.threads[i := u.threads[i]] && u.threads[i].call == s.threads[i].call && u.threads[i].entry == s.threads[i].entry
            && s.floor <= u.floor && (u.handed == s.handed || (u.handed == s.handed + [u.floor] && s.floor < u.floor))
    ensures ThreadOk(Round(s, i, spurious).threads[i], Round(s, i, spurious))
  {
    var u := Round(s, i, spurious);
    assert ThreadOk(s.threads[i], s);
    assert u.handed != s.handed ==> u.handed[|s.handed|] in u.handed;
  }

  lemma {:induction false} StepKeeps(s: State, a: Step)
    requires Inv(s)
    ensures var u := Apply(s, a); Inv(u) && Later(s, u)
  {
    hide Round;
    var u := Apply(s, a);
    if a.Exchange? && Enabled(s, a) { RoundShape(s, a.i, a.spurious); }
    forall i | 0 <= i < |u.threads| ensures ThreadOk(u.threads[i], u) {
      if i < |s.threads| { ThreadGrows(s.threads[i], s, u); }
    }
  }

  /** Over every run, whatever the threads do: the epochs handed out are distinct and rise in the order of their exchanges,
      a call gets an epoch above the floor it was made at and above the bound it gave, and the floor never goes back. */
  lemma {:induction false} RunKeeps(s: State, steps: seq<Step>)
    requires Inv(s)
    ensures var u := Exec(s, steps); Inv(u) && Later(s, u)
    decreases |steps|
  {
    hide Inv, Apply;
    if steps == [] {
    } else {
      StepKeeps(s, steps[0]);
      RunKeeps(Apply(s, steps[0]), steps[1..]);
    }
  }

  /** No two calls get the same epoch: a call made at any point of a run gets a later one than every call before. */
  lemma {:induction false} LaterCallsGetLaterEpochs(s: State, steps: seq<Step>, after: nat, more: seq<Step>)
    requires Inv(s)
    ensures var m := Exec(s, steps); var i := |m.threads|;
            var u := Exec(Apply(m, Enter(Reserve(after))), more);
            && i < |u.threads| && u.threads[i].call == Reserve(after)
            && (u.threads[i].result.Some? && u.threads[i].result.value.Reserved? ==>
                  forall e: nat :: e in m.handed || e == after ==> e < u.threads[i].result.value.epoch)
  {
    var m := Exec(s, steps);
    RunKeeps(s, steps);
    StepKeeps(m, Enter(Reserve(after)));
    RunKeeps(Apply(m, Enter(Reserve(after))), more);
    var u := Exec(Apply(m, Enter(Reserve(after))), more);
    assert ThreadOk(u.threads[|m.threads|], u);
  }

  /** What a call has to stay above. */
  function Bound(call: Call, floor: nat): nat {
    match call
    case Observe(_) => 0
    case Reserve(after) => Max(floor, after)
    case Advance(expected) => expected
  }

  /** Each loop has the effect of one uninterrupted operation on the floor it finds at its last exchange, and no effect
      before. It fails only if the epochs are used up. */
  lemma {:induction false} LoopsAreAtomic(s: State, i: nat, spurious: bool)
    requires Inv(s) && Enabled(s, Exchange(i, spurious))
    ensures var t := s.threads[i]; var u := Round(s, i, spurious); var r := u.threads[i].result;
            && (r.None? ==> u.floor == s.floor && u.handed == s.handed)
            && (r == Some(Overflow) ==> u.floor == s.floor && u.handed == s.handed && EPOCH_MAX <= Bound(t.call, s.floor))
            && (t.call.Observe? && r.Some? ==> u.floor == Max(s.floor, t.call.epoch))
            && (t.call.Reserve? && r.Some? && r.value.Reserved? ==>
                  r.value.epoch == u.floor == Max(s.floor, t.call.after) + 1 && u.handed == s.handed + [u.floor])
            && (t.call.Advance? && r == Some(Moved(true)) ==>
                  s.floor == t.call.expected && u.floor == t.call.expected + 1 && forall e: nat :: e in s.handed ==> e <= t.call.expected)
            && (t.call.Advance? && r == Some(Moved(false)) ==> s.floor != t.call.expected && u.floor == s.floor)
  {
    assert ThreadOk(s.threads[i], s);
  }

  /** An exchange that fails for a reason fails because another thread moved the floor, and the round after it, if nobody
      interferes, is the last. */
  lemma {:induction false} SomeoneGetsOn(s: State, i: nat)
    requires Inv(s) && Enabled(s, Exchange(i, false)) && Round(s, i, false).threads[i].result.None?
    ensures s.threads[i].seen.value < s.floor
    ensures Round(Round(s, i, false), i, false).threads[i].result.Some?
  {
    assert ThreadOk(s.threads[i], s);
  }
}
