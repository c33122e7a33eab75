/** What one destination receives: some of the batches handed out, in order. The floor holds back the rest. */
module Delivery {
  import opened Media
  import opened Timeline
  import opened Dispatcher
  import opened Flv
  import Coordinator

  /** Places of the batches that got through. */
  predicate Picks(picks: seq<nat>, n: nat) {
    && (forall i :: 0 <= i < |picks| ==> picks[i] < n)
    && (forall i, j :: 0 <= i < j < |picks| ==> picks[i] < picks[j])
  }

  function Received(sent: seq<Batch>, picks: seq<nat>): seq<Item>
    requires Picks(picks, |sent|)
  {
    if picks == [] then []
    else Received(sent, picks[..|picks| - 1]) + sent[picks[|picks| - 1]].items
  }

  function PacketsOf(t: seq<Item>): (r: seq<Packet>)
    ensures |r| == |t| && forall i :: 0 <= i < |t| ==> r[i] == t[i].packet
  {
    if t == [] then [] else PacketsOf(t[..|t| - 1]) + [t[|t| - 1].packet]
  }

  lemma {:induction false} ItemsUpTo(sent: seq<Batch>, n: nat)
    requires n <= |sent|
    ensures Items(sent[..n]) <= Items(sent)
    decreases |sent|
  {
    if n < |sent| {
      ItemsUpTo(sent[..|sent| - 1], n);
      assert sent[..|sent| - 1][..n] == sent[..n];
    } else {
      assert sent[..n] == sent;
    }
  }

  /** Received items come from the batches up to the last one that got through. */
  lemma {:induction false} ReceivedFrom(sent: seq<Batch>, picks: seq<nat>, n: nat)
    requires Picks(picks, n) && n <= |sent|
    ensures forall x :: x in Received(sent, picks) ==> x in Items(sent[..n])
    decreases |picks|
  {
    if picks == [] {
    } else {
      var k := picks[|picks| - 1];
      ReceivedFrom(sent, picks[..|picks| - 1], k);
      assert sent[..n][..k] == sent[..k] && sent[..n][..k + 1] == sent[..k + 1] && sent[..k + 1][..k] == sent[..k];
      ItemsUpTo(sent[..n], k);
      ItemsUpTo(sent[..n], k + 1);
      assert Items(sent[..k + 1]) == Items(sent[..k]) + sent[k].items;
      forall x | x in Received(sent, picks) ensures x in Items(sent[..n]) {
        assert x in Items(sent[..k + 1]);
        InLonger(x, Items(sent[..k + 1]), Items(sent[..n]));
      }
    }
  }

  lemma {:induction false} InLonger(x: Item, a: seq<Item>, b: seq<Item>)
    requires x in a && a <= b
    ensures x in b
  {
    var i :| 0 <= i < |a| && a[i] == x;
    assert b[i] == x;
  }

  /** Decode times do not go back for any destination. */
  lemma {:induction false} ReceivedNeverBack(sent: seq<Batch>, picks: seq<nat>)
    requires NeverBack(Items(sent)) && Picks(picks, |sent|)
    ensures NeverBack(Received(sent, picks))
    decreases |picks|
  {
    if picks == [] {
    } else {
      var init, k := picks[..|picks| - 1], picks[|picks| - 1];
      ReceivedNeverBack(sent, init);
      ReceivedFrom(sent, init, k);
      ItemsUpTo(sent, k + 1);
      assert sent[..k + 1][..k] == sent[..k];
      var before, own := Items(sent[..k]), sent[k].items;
      assert Items(sent[..k + 1]) == before + own && before + own <= Items(sent);
      BackAfter(Received(sent, init), before, own, Items(sent));
    }
  }

  lemma {:induction false} BackAfter(t: seq<Item>, before: seq<Item>, own: seq<Item>, all: seq<Item>)
    requires NeverBack(t) && NeverBack(all) && before + own <= all && forall x :: x in t ==> x in before
    ensures NeverBack(t + own)
  {
    forall i, j | 0 <= i < |t| && 0 <= j < |own| ensures t[i].packet.dts <= own[j].packet.dts {
      assert t[i] in t;
      var b :| 0 <= b < |before| && before[b] == t[i];
      assert all[b] == t[i] && all[|before| + j] == own[j];
    }
    forall i, j | 0 <= i < j < |own| ensures own[i].packet.dts <= own[j].packet.dts {
      assert all[|before| + i] == own[i] && all[|before| + j] == own[j];
    }
  }

  lemma {:induction false} PacketsInOrder(t: seq<Item>, own: seq<Item>)
    requires NeverBack(t + own)
    ensures Ordered(PacketsOf(t) + PacketsOf(own))
  {
    var all: seq<Packet> := PacketsOf(t) + PacketsOf(own);
    assert forall i :: 0 <= i < |all| ==> all[i] == (t + own)[i].packet;
  }

  lemma {:induction false} ClockIs(packets: seq<Packet>)
    ensures packets == [] ==> ClockAfter(None, packets) == None
    ensures packets != [] ==> ClockAfter(None, packets) == Some(Flv.Clock(packets[0].dts, packets[|packets| - 1].dts))
  {
    if |packets| > 1 { ClockIs(packets[..|packets| - 1]); }
  }

  lemma {:induction false} ClockConcat(c: Option<Flv.Clock>, a: seq<Packet>, b: seq<Packet>)
    ensures ClockAfter(ClockAfter(c, a), b) == ClockAfter(c, a + b)
  {
    if b == [] {
      assert a + b == a;
    } else {
      ClockConcat(c, a, b[..|b| - 1]);
      assert (a + b)[..|a + b| - 1] == a + b[..|b| - 1];
    }
  }

  /** Packets in order are refused only for what they are, or when a session outlasts 32 bits of milliseconds. */
  lemma {:induction false} OrderIsNeverRefused(before: seq<Packet>, batch: seq<Packet>)
    requires Ordered(before + batch)
    ensures Accepted(ClockAfter(None, before), batch) <==>
      forall i :: 0 <= i < |batch| ==> Muxable(batch[i]) && (batch[i].dts - (before + batch)[0].dts) / 1000 <= UINT32_MAX
  {
    hide Muxable;
    var c := ClockAfter(None, before);
    forall i | 0 <= i < |batch|
      ensures InTime(ClockAfter(c, batch[..i]), batch[i]) <==> (batch[i].dts - (before + batch)[0].dts) / 1000 <= UINT32_MAX
    {
      var all := before + batch[..i];
      ClockConcat(None, before, batch[..i]);
      ClockIs(all);
      assert all + [batch[i]] <= before + batch;
      assert (before + batch)[|all|] == batch[i] && (before + batch)[0].dts <= batch[i].dts;
      if all != [] { assert (before + batch)[|all| - 1] == all[|all| - 1] && all[0] == (before + batch)[0]; }
    }
  }

  /** The muxer of a destination never sees time go back, whichever batches get through to it: it refuses the next batch only
      for a packet that no session would take, or after 32 bits of milliseconds. */
  lemma {:induction false} MuxerNeverSeesTimeGoBack(c: Coordinator.TransitionCoordinator, picks: seq<nat>)
    requires c.Valid() && Picks(picks, |c.dispatcher.sent|) && picks != []
    ensures var sent, last := c.dispatcher.sent, |picks| - 1;
      var before, batch := PacketsOf(Received(sent, picks[..last])), PacketsOf(sent[picks[last]].items);
      && Ordered(before + batch)
      && (Accepted(ClockAfter(None, before), batch) <==>
            forall i :: 0 <= i < |batch| ==> Muxable(batch[i]) && (batch[i].dts - (before + batch)[0].dts) / 1000 <= UINT32_MAX)
  {
    hide Accepted, ClockAfter, Muxable, NeverBack, Ordered, Items, EpochsOpenWithHeaders, PicturesDisjoint, SilenceDisjoint, PacketsOf;
    var sent, last := c.dispatcher.sent, |picks| - 1;
    c.ViewersGet(0, 0, 0);
    ReceivedNeverBack(sent, picks);
    var t, own := Received(sent, picks[..last]), sent[picks[last]].items;
    assert Received(sent, picks) == t + own;
    PacketsInOrder(t, own);
    OrderIsNeverRefused(PacketsOf(t), PacketsOf(own));
  }
}
