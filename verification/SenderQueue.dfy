/** The bounded queue between a pipeline and the worker that writes to one destination. */
module SenderQueue {
  import opened Media

  /** One FLV tag on its way to the wire. `codecHeader` stands for a payload whose second byte is zero. `batch` and `frame`
      are labels for the proofs: the ticket of the batch that the tag was handed in with, and its position among the media
      video handed in during its epoch. */
  datatype Tag = Tag(kind: Kind, codecHeader: bool, keyframe: bool, drain: bool, time: nat, size: nat,
                     epoch: nat, ticket: nat, batch: nat, frame: int)
  {
    predicate MediaVideo() { kind.Video? && !codecHeader }

    predicate MediaAudio() { kind.Audio? && !codecHeader && !drain }
  }

  function NatMax(a: nat, b: nat): nat { if a < b then b else a }

  function WireBytes(s: seq<Tag>): nat
  {
    if s == [] then 0 else WireBytes(s[..|s| - 1]) + s[|s| - 1].size
  }

  lemma {:induction false} WireBytesConcat(a: seq<Tag>, b: seq<Tag>)
    ensures WireBytes(a + b) == WireBytes(a) + WireBytes(b)
  {
    if b == [] {
      assert a + b == a;
    } else {
      assert (a + b)[..|a + b| - 1] == a + b[..|b| - 1];
      WireBytesConcat(a, b[..|b| - 1]);
    }
  }

  /** Largest ticket of a list of tags. */
  function MaxTicket(s: seq<Tag>): nat
  {
    if s == [] then 0 else NatMax(MaxTicket(s[..|s| - 1]), s[|s| - 1].ticket)
  }

  lemma {:induction false} MaxTicketSnoc(s: seq<Tag>, x: Tag)
    ensures MaxTicket(s + [x]) == NatMax(MaxTicket(s), x.ticket)
  {
    assert (s + [x])[..|s|] == s;
  }

  /** A list under thinning: what was kept so far, whether media video is dropped until the next key picture, and the
      ticket of dropped video that waits for the next kept tag. */
  datatype Thinning = Thinning(kept: seq<Tag>, drop: bool, carried: nat) {
    function Drop(x: Tag): Thinning { this.(carried := NatMax(carried, x.ticket)) }

    function Keep(x: Tag): Thinning { this.(kept := kept + [x.(ticket := NatMax(x.ticket, carried))], carried := 0) }
  }

  /** All media video leaves. */
  function Shed(s: seq<Tag>): Thinning
  {
    if s == [] then Thinning([], true, 0)
    else var before, x := Shed(s[..|s| - 1]), s[|s| - 1];
      if x.MediaVideo() then before.Drop(x) else before.Keep(x)
  }

  /** Media video leaves until a key picture, if `drop` holds. */
  function Thin(s: seq<Tag>, drop: bool, carried: nat): Thinning
  {
    if s == [] then Thinning([], drop, carried)
    else var before, x := Thin(s[..|s| - 1], drop, carried), s[|s| - 1];
      if before.drop && x.MediaVideo() && !x.keyframe then before.Drop(x)
      else if x.MediaVideo() then before.Keep(x).(drop := false)
      else before.Keep(x)
  }

  /** Shedding keeps the running maximum of tickets at every kept tag, and carries the rest. */
  lemma {:induction false} ShedKeepsTickets(s: seq<Tag>)
    ensures NatMax(MaxTicket(Shed(s).kept), Shed(s).carried) == MaxTicket(s)
    ensures s != [] && !s[|s| - 1].MediaVideo() ==> Shed(s).carried == 0 && MaxTicket(Shed(s).kept) == MaxTicket(s)
  {
    if s != [] {
      var before, x := Shed(s[..|s| - 1]), s[|s| - 1];
      ShedKeepsTickets(s[..|s| - 1]);
      MaxTicketSnoc(before.kept, x.(ticket := NatMax(x.ticket, before.carried)));
    }
  }

  /** So does thinning, which also takes up the ticket carried from before. */
  lemma {:induction false} ThinKeepsTickets(s: seq<Tag>, drop: bool, carried: nat)
    ensures var t := Thin(s, drop, carried); NatMax(MaxTicket(t.kept), t.carried) == NatMax(MaxTicket(s), carried)
  {
    if s != [] {
      var before, x := Thin(s[..|s| - 1], drop, carried), s[|s| - 1];
      ThinKeepsTickets(s[..|s| - 1], drop, carried);
      MaxTicketSnoc(before.kept, x.(ticket := NatMax(x.ticket, before.carried)));
      assert MaxTicket(s) == NatMax(MaxTicket(s[..|s| - 1]), x.ticket);
      var t := Thin(s, drop, carried);
      assert t == before.Drop(x) || t == before.Keep(x) || t == before.Keep(x).(drop := false);
    }
  }

  /** Without congestion nothing is thinned. */
  lemma {:induction false} ThinNothing(s: seq<Tag>)
    ensures Thin(s, false, 0) == Thinning(s, false, 0)
  {
    if s != [] {
      ThinNothing(s[..|s| - 1]);
      var x := s[|s| - 1];
      assert x.(ticket := NatMax(x.ticket, 0)) == x;
      assert s == s[..|s| - 1] + [x];
    }
  }

  class BoundedSenderQueue {
    const maxTags: nat
    const maxBytes: nat
    var tags: seq<Tag>
    var bytes: int
    var closed: bool

    predicate Valid()
      reads this
    {
      bytes == WireBytes(tags) && |tags| <= maxTags && bytes <= maxBytes
    }

    constructor (maxTags: nat, maxBytes: nat)
      requires maxTags > 0 && maxBytes > 0
      ensures Valid() && tags == [] && !closed && this.maxTags == maxTags && this.maxBytes == maxBytes
    {
      this.maxTags, this.maxBytes := maxTags, maxBytes;
      tags, bytes, closed := [], 0, false;
    }

    /** The whole batch is queued, or nothing of it. */
    method TryPush(more: seq<Tag>) returns (ok: bool)
      requires Valid()
      modifies this`tags, this`bytes
      ensures Valid()
      ensures ok == (!closed && old(|tags|) + |more| <= maxTags && old(bytes) + WireBytes(more) <= maxBytes)
      ensures tags == if ok then old(tags) + more else old(tags)
    {
      var added := 0;
      var i := 0;
      while i < |more|
        invariant 0 <= i <= |more| && added == WireBytes(more[..i])
        modifies {}
      {
        assert more[..i + 1][..i] == more[..i];
        added := added + more[i].size;
        i := i + 1;
      }
      assert more[..i] == more;
      if closed || |more| > maxTags - Min(maxTags, |tags|) || added > maxBytes - Min(maxBytes, bytes) { return false; }
      WireBytesConcat(tags, more);
      tags, bytes := tags + more, bytes + added;
      return true;
    }

    /** Removes the queued media video and moves each removed ticket onto the next kept tag. */
    method DropVideo() returns (dropped: nat, carried: nat)
      requires Valid()
      modifies this`tags, this`bytes
      ensures Valid()
      ensures tags == Shed(old(tags)).kept && carried == Shed(old(tags)).carried
      ensures dropped == old(|tags|) - |tags|
    {
      var kept: seq<Tag> := [];
      var was, size := tags, bytes;
      dropped, carried := 0, 0;
      var i := 0;
      while i < |was|
        invariant 0 <= i <= |was|
        invariant Thinning(kept, true, carried) == Shed(was[..i])
        invariant size == bytes - WireBytes(was[..i]) + WireBytes(kept)
        invariant dropped == i - |kept| && 0 <= dropped
        invariant WireBytes(kept) <= WireBytes(was[..i])
        modifies {}
      {
        var x := was[i];
        assert was[..i + 1][..i] == was[..i];
        i := i + 1;
        if x.MediaVideo() {
          carried := NatMax(carried, x.ticket);
          size := size - x.size;
          dropped := dropped + 1;
        } else {
          var y := x.(ticket := NatMax(x.ticket, carried));
          carried := 0;
          WireBytesConcat(kept, [y]);
          assert [y][..0] == [] && WireBytes([y]) == y.size;
          kept := kept + [y];
        }
      }
      assert was[..i] == was;
      tags, bytes := kept, size;
    }

    method FrontTimestamp() returns (t: Option<nat>)
      ensures t == if tags == [] then None else Some(tags[0].time)
    {
      if tags == [] { return None; }
      return Some(tags[0].time);
    }

    /** The oldest tag leaves; None once the queue is empty (the caller then sees that it was closed). */
    method Pop() returns (x: Option<Tag>)
      requires Valid()
      modifies this`tags, this`bytes
      ensures Valid()
      ensures x.Some? <==> old(tags) != []
      ensures x.Some? ==> old(tags) == [x.value] + tags
      ensures x.None? ==> tags == []
    {
      if tags == [] { return None; }
      x := Some(tags[0]);
      WireBytesConcat([tags[0]], tags[1..]);
      assert [tags[0]][..0] == [] && WireBytes([tags[0]]) == tags[0].size;
      assert tags == [tags[0]] + tags[1..];
      tags, bytes := tags[1..], bytes - tags[0].size;
    }

    method DiscardPending()
      modifies this`tags, this`bytes
      ensures Valid() && tags == []
    {
      tags, bytes := [], 0;
    }

    method Close()
      modifies this`tags, this`bytes, this`closed
      ensures Valid() && tags == [] && closed
    {
      tags, bytes, closed := [], 0, true;
    }
  }
}
