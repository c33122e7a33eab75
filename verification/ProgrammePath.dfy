/** The programme's way from the encoders to the delay controller: capture threads merge behind the watermark, and the
    owner's worker takes what was merged and hands it to the controller, packet by packet. A session arms the controller
    before anything is captured, fills its history while nothing is broadcast yet, and then starts live, rewinds and returns
    any number of times; a controller that was never armed delays as its target says. */
module ProgrammePath {
  import opened Media
  import opened Timeline
  import opened Interleaver
  import D = DelayController

  predicate EndOf(s: seq<Packet>, all: seq<Packet>) { |s| <= |all| && s == all[|all| - |s|..] }

  class Programme {
    const ingress: Ingress
    const controller: D.DelayController
    var local: seq<Packet>          // taken by the worker, not yet handed on
    var dumping: bool               // an action that discards the buffer was accepted, and is not processed yet
    ghost var history: seq<Packet>  // handed to the controller since it was last cleared

    /** The controller never holds anything newer than the last packet it was given. */
    ghost predicate InStep()
      reads this, controller
    {
      controller.state != D.Error ==>
        && controller.clock.offset == None && !controller.clock.rebase
        && controller.clock.last == (if history == [] then None else Some(history[|history| - 1].dts))
        && D.Behind(controller.buffer.packets, controller.clock.last)
    }

    ghost predicate Valid()
      reads this, ingress, controller
    {
      && ingress.Valid() && controller.Valid() && InStep()
      && Ordered(history + local) && AllTimely(local)
      && (dumping ==> ingress.taken == [])
      && (!ingress.failed && !dumping ==> EndOf(history + local, ingress.taken))
    }

    constructor (maxDelay: int, maxBytes: int)
      requires 0 <= maxDelay
      ensures Valid() && fresh(ingress) && fresh(controller) && history == [] && local == [] && ingress.taken == [] && !dumping
      ensures controller.state == D.Live && controller.maxDelay == maxDelay
    {
      ingress := new Ingress();
      controller := new D.DelayController(maxDelay, maxBytes);
      local, dumping, history := [], false, [];
    }

    /** start: the controller is armed before anything is captured. */
    method Arm(length: int) returns (ok: bool)
      requires Valid() && history == [] && local == [] && !dumping && ingress.taken == [] && controller.state != D.Error
      modifies controller
      ensures Valid() && ok == (0 < length <= controller.maxDelay)
      ensures ok ==> controller.state == D.BuildingDelay && controller.mode.armed && !controller.mode.passthrough
      ensures ok ==> controller.target == length && controller.buffer.packets == []
    {
      hide Merged, D.Kept, Ordered, AllTimely;
      ok := controller.Arm(length);
    }

    // Capture threads and the user's thread.

    method Enqueue(packet: Packet, token: nat) returns (ok: bool)
      requires Valid()
      modifies ingress
      ensures Valid()
    {
      hide Merged, D.Kept, Ordered, AllTimely;
      ok := ingress.Enqueue(packet, token);
    }

    /** request of an action that discards the buffer. */
    method Revoke()
      requires Valid()
      modifies ingress, this`dumping
      ensures Valid() && dumping
    {
      hide Merged, D.Kept, Ordered, AllTimely;
      ingress.Revoke();
      dumping := true;
    }

    // The owner's worker.

    /** The worker takes actions and media together. An action that discards the buffer clears the controller first. */
    method Swap(target: int)
      requires Valid() && local == [] && !ingress.failed
      modifies this, ingress, controller
      ensures Valid() && local == old(ingress.packets) && !dumping
      ensures old(dumping) ==> history == []
    {
      hide Merged, D.Kept, Ordered, AllTimely, D.SuffixOf, D.Duration, D.Behind, EndOf;
      ingress.MergedInOrder();
      OrderedEnd(history, ingress.taken, ingress.packets, dumping);
      if dumping { Clear(target); }
      dumping := false;
      local := ingress.Take();
    }

    /** The controller is cleared, and given its target again. */
    method Clear(target: int)
      requires Valid() && local == [] && dumping
      modifies this`history, controller
      ensures Valid() && history == []
    {
      hide Merged, D.Kept, Ordered, AllTimely, D.SuffixOf, D.Duration, D.Behind, EndOf;
      controller.ReturnLive();
      var _ := controller.SetTarget(target);
      D.SuffixNothing(controller.buffer.packets);
      D.NothingBehind(controller.clock.last);
      JustLocal(history, local);
      assert [] + local == local;
      history := [];
    }

    /** The next packet is handed to the controller. It is never older than what the controller holds,
        and a rolling history fails only when it exceeds its limits. */
    method IngestNext()
      requires Valid() && local != []
      modifies this`local, this`history, controller
      ensures Valid() && local == old(local)[1..] && history == old(history) + [old(local)[0]]
      ensures old(controller.state) != D.Error ==> D.Normalized(old(controller.clock), old(local)[0]) == Some(old(local)[0])
      ensures old(controller.state) != D.Error ==> D.InOrder(old(controller.buffer), old(local)[0])
      ensures old(controller.state) != D.Error && old(controller.mode.armed) && controller.state == D.Error ==>
        var p := old(local)[0];
        D.OverLimit(D.Recent(old(controller.buffer.packets) + [p], D.Cutoff(D.Pushed(old(controller.buffer), p), controller.target)),
                    controller.maxBytes, controller.maxDelay)
    {
      hide Merged, D.Kept, Ordered, AllTimely, D.Recent, D.OverLimit, D.Passed, D.ReplayStep, D.Emitted;
      var p := local[0];
      FirstTimely(local);
      NextInOrder(history, local);
      HandOn(history, local);
      if controller.state != D.Error {
        D.Plain(controller.clock, p);
        D.BehindNext(controller.buffer, controller.clock.last, p);
      }
      controller.Ingest(p);
      D.EndsBehind(controller.buffer.packets, p);
      local, history := local[1..], history + [p];
    }

    /** An action that keeps the buffer sets another target. No delay at all drops what is held. The owner has ended the
        session before if the controller failed. */
    method SetTarget(target: int) returns (ok: bool)
      requires Valid() && controller.state != D.Error
      modifies controller, this`history
      ensures Valid() && ok == (!old(controller.mode.armed) && 0 <= target <= controller.maxDelay)
      ensures history == if ok && target == 0 then [] else old(history)
    {
      hide Merged, D.Kept, Ordered, AllTimely, D.SuffixOf, D.Duration, D.Behind, EndOf;
      D.SuffixBehind(controller.buffer.packets, controller.clock.last);
      ok := controller.SetTarget(target);
      if ok && target == 0 {
        D.NothingBehind(controller.clock.last);
        if !ingress.failed && !dumping { DropHistory(history, local, ingress.taken); }
        JustLocal(history, local);
        assert [] + local == local;
        history := [];
      }
    }

    /** The broadcast begins: programme goes out live, and the history goes on rolling. */
    method StartLive() returns (ok: bool)
      requires Valid()
      modifies controller
      ensures Valid() && ok == old(controller.mode.armed && !controller.mode.passthrough && controller.state != D.Error)
      ensures ok ==> controller.state == D.Live && controller.mode.passthrough && controller.mode.rewind
      ensures controller.buffer == old(controller.buffer)
    {
      hide Merged, D.Kept, Ordered, AllTimely;
      ok := controller.StartLive();
    }

    method Rewind() returns (ok: bool)
      requires Valid()
      modifies controller
      ensures Valid() && ok == old(controller.mode.passthrough && controller.PrebufferReady())
      ensures ok ==> controller.state == D.Delayed && controller.trace.replaying && controller.trace.replay == old(controller.buffer.packets)
    {
      hide Merged, D.Kept, Ordered, AllTimely;
      ok := controller.Rewind();
    }

    method ResumeLive() returns (ok: bool)
      requires Valid()
      modifies controller
      ensures Valid()
      ensures ok == old(controller.mode.rewind && !controller.mode.passthrough && controller.target > 0 && controller.state != D.Error)
      ensures ok ==> controller.state == D.Live && controller.mode.armed && controller.mode.passthrough
    {
      hide Merged, D.Kept, Ordered, AllTimely, D.Recent, D.Behind;
      if controller.state != D.Error {
        D.RecentBehind(controller.buffer.packets, D.Cutoff(controller.buffer, controller.target), controller.clock.last);
      }
      ok := controller.ResumeLive();
    }
  }

  /** What is taken next continues what was handed on. */
  lemma {:induction false} OrderedEnd(history: seq<Packet>, taken: seq<Packet>, packets: seq<Packet>, dumping: bool)
    requires Ordered(taken + packets) && AllTimely(taken + packets) && (!dumping ==> EndOf(history + [], taken))
    requires dumping ==> taken == []
    ensures var before := if dumping then [] else history;
      Ordered(before + packets) && AllTimely(packets) && EndOf(before + packets, taken + packets)
  {
    var all, before := taken + packets, if dumping then [] else history;
    var tail := before + packets;
    assert history + [] == history && |before| <= |taken|;
    assert tail == all[|all| - |tail|..];
    assert forall i :: 0 <= i < |tail| ==> tail[i] == all[|all| - |tail| + i];
    assert forall i :: 0 <= i < |packets| ==> all[|taken| + i] == packets[i];
  }

  lemma {:induction false} DropHistory(history: seq<Packet>, local: seq<Packet>, taken: seq<Packet>)
    requires EndOf(history + local, taken)
    ensures EndOf([] + local, taken)
  {
    assert [] + local == local == (history + local)[|history|..];
  }

  lemma {:induction false} JustLocal(history: seq<Packet>, local: seq<Packet>)
    requires Ordered(history + local)
    ensures Ordered(local)
  {
    var all, n := history + local, |history|;
    forall i, j | 0 <= i < j < |local| ensures local[i].dts <= local[j].dts { assert all[n + i] == local[i] && all[n + j] == local[j]; }
  }

  lemma {:induction false} FirstTimely(s: seq<Packet>)
    requires AllTimely(s) && s != []
    ensures TimingOk(s[0]) && AllTimely(s[1..])
  {}

  lemma {:induction false} NextInOrder(a: seq<Packet>, b: seq<Packet>)
    requires Ordered(a + b) && b != []
    ensures a != [] ==> a[|a| - 1].dts <= b[0].dts
  {
    if a != [] { assert (a + b)[|a| - 1].dts <= (a + b)[|a|].dts; }
  }

  lemma {:induction false} HandOn(a: seq<Packet>, b: seq<Packet>)
    requires b != []
    ensures (a + [b[0]]) + b[1..] == a + b && (a + [b[0]])[|a|] == b[0]
  {}
}
