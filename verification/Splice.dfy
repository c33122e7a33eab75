/** Joining a feed to the outgoing timeline: which batches keep the promises of Timeline, and the silence that bridges
    the joint. */
module Splice {
  import opened Media
  import opened Timeline
  import opened Sorting

  /** Rounds up to a whole millisecond. */
  function CeilMs(t: int): (r: int)
    requires 0 <= t
    ensures t <= r < t + 1000 && r % 1000 == 0
  {
    (t + 999) / 1000 * 1000
  }

  predicate CeilFits(t: int) { 0 <= t <= INT64_MAX - 999 }

  /** Silent frames on millisecond boundaries, none before `from`, none overlapping, the last over by `until`. */
  predicate Silence(b: seq<Packet>, payload: seq<Byte>, from: int, aac: int, until: int) {
    && (forall i :: 0 <= i < |b| ==> b[i] == Packet(Audio, payload, b[i].dts, b[i].dts, false, true))
    && (forall i :: 0 <= i < |b| ==> from <= b[i].dts && b[i].dts + aac <= until && b[i].dts % 1000 == 0)
    && (forall i, j :: 0 <= i < j < |b| ==> b[i].dts + aac <= b[j].dts)
  }

  /** Each frame starts less than a millisecond after `from` or the frame before it. */
  predicate Close(b: seq<Packet>, from: int, aac: int) {
    && (b != [] ==> b[0].dts < from + 1000)
    && (forall i, j :: 0 <= i < |b| && 0 <= j < |b| && j == i + 1 ==> b[j].dts < b[i].dts + aac + 1000)
  }

  function SilenceEnd(b: seq<Packet>, from: int, aac: int): int { if b == [] then from else b[|b| - 1].dts + aac }

  /** Silence without holes, also at the end: less than one frame and a millisecond is left. */
  predicate Fills(b: seq<Packet>, payload: seq<Byte>, from: int, aac: int, until: int) {
    && Silence(b, payload, from, aac, until) && Close(b, from, aac)
    && (from <= until ==> until - SilenceEnd(b, from, aac) < aac + 1000)
  }

  /** Fills [from, until) with silence. */
  method Bridge(payload: seq<Byte>, from: int, aac: int, until: int) returns (b: Option<seq<Packet>>)
    requires 0 <= from && 0 < aac
    ensures b.None? ==> Max(from, until) > INT64_MAX - 999
    ensures b.Some? ==> Fills(b.value, payload, from, aac, until)
  {
    hide CeilMs, Silence, Close;
    if !CeilFits(from) { return None; }
    var t := CeilMs(from);
    var silence: seq<Packet> := [];
    NoSilence(payload, from, aac, until);
    while t + aac <= until
      invariant from <= t && t % 1000 == 0 && SilenceEnd(silence, from, aac) <= t < SilenceEnd(silence, from, aac) + 1000
      invariant Silence(silence, payload, from, aac, until) && Close(silence, from, aac)
      decreases until - t
    {
      SilenceSnoc(silence, payload, from, aac, until, t);
      silence := silence + [Packet(Audio, payload, t, t, false, true)];
      if !CeilFits(t + aac) { return None; }
      t := CeilMs(t + aac);
    }
    b := Some(silence);
  }

  lemma {:induction false} NoSilence(payload: seq<Byte>, from: int, aac: int, until: int)
    ensures Silence([], payload, from, aac, until) && Close([], from, aac)
  {}

  lemma {:induction false} SilenceSnoc(b: seq<Packet>, payload: seq<Byte>, from: int, aac: int, until: int, t: int)
    requires Silence(b, payload, from, aac, until) && Close(b, from, aac) && 0 < aac
    requires from <= t && t % 1000 == 0 && t + aac <= until && SilenceEnd(b, from, aac) <= t < SilenceEnd(b, from, aac) + 1000
    ensures var more := b + [Packet(Audio, payload, t, t, false, true)];
      Silence(more, payload, from, aac, until) && Close(more, from, aac)
  {
    forall i | 0 <= i < |b| ensures b[i].dts + aac <= t {
      if i < |b| - 1 { assert b[i].dts + aac <= b[|b| - 1].dts; }
    }
  }

  /** How many silent frames fit: none if the span is shorter than a frame. */
  lemma {:induction false} SilenceCount(b: seq<Packet>, payload: seq<Byte>, from: int, aac: int, until: int)
    requires 0 < aac && Silence(b, payload, from, aac, until)
    ensures |b| * aac <= Max(0, until - from)
  {
    if b != [] {
      var init, last := b[..|b| - 1], b[|b| - 1];
      assert Silence(init, payload, from, aac, last.dts);
      SilenceCount(init, payload, from, aac, last.dts);
      assert |b| * aac == |init| * aac + aac;
    }
  }

  /** Where a joined feed stands: the other feed is over before its latest output. */
  ghost predicate Joined(plan: seq<Item>, selected: Option<Feed>, c: Clock) {
    match selected
    case None => true
    case Some(Programme) =>
      && Covered(plan, LastOutput(plan))
      && forall i :: 0 <= i < |plan| && HoldingPicture(plan[i]) ==> PictureEnd(plan[i], c) <= LastOutput(plan)
    case Some(Holding) =>
      forall i :: 0 <= i < |plan| ==>
        && (ProgrammeSound(plan[i]) ==> plan[i].packet.pts + c.aac <= LastOutput(plan))
        && (ProgrammePicture(plan[i]) ==> PictureEnd(plan[i], c) <= LastOutput(plan))
  }

  /** The pictures of the other feed are over before the latest output. */
  predicate PicturesJoined(plan: seq<Item>, selected: Option<Feed>, c: Clock) {
    selected.Some? ==> forall i :: 0 <= i < |plan| && Picture(plan[i]) && plan[i].feed != selected.value ==> PictureEnd(plan[i], c) <= LastOutput(plan)
  }

  /** Silence promises, with room left for the next sound of a joined feed. */
  ghost predicate Muted(plan: seq<Item>, selected: Option<Feed>, c: Clock) {
    && SilenceDisjoint(plan, c)
    && (selected.Some? ==> forall i :: 0 <= i < |plan| && Sound(plan[i]) && plan[i].packet.drain ==>
          plan[i].packet.pts + c.aac <= LastOutput(plan))
  }

  predicate HasHoldingPicture(plan: seq<Item>) {
    exists i :: 0 <= i < |plan| && HoldingPicture(plan[i])
  }

  /** The first time at which a new feed may start. */
  predicate Clears(plan: seq<Item>, next: int, c: Clock) {
    LastOutput(plan) + 1000 <= next && AudioEnd(plan, c) <= next && VideoTail(plan, c) + 1000 <= next
  }

  /** A well-placed continuation of the timeline by one feed. */
  predicate Continues(plan: seq<Item>, xs: seq<Item>, feed: Feed) {
    && xs != []
    && NeverBack(plan + xs)
    && forall i :: 0 <= i < |xs| ==> xs[i].feed == feed && Placed(xs[i].packet)
  }

  lemma {:induction false} ContinuesFloor(plan: seq<Item>, xs: seq<Item>, feed: Feed)
    requires Continues(plan, xs, feed)
    ensures forall i :: 0 <= i < |xs| ==> LastOutput(plan) <= xs[i].packet.dts <= LastOutput(plan + xs)
    ensures LastOutput(plan) <= LastOutput(plan + xs)
  {
    var u := plan + xs;
    assert LastOutput(u) == xs[|xs| - 1].packet.dts;
    forall i | 0 <= i < |xs| ensures LastOutput(plan) <= xs[i].packet.dts <= LastOutput(u) {
      assert u[|plan| + i] == xs[i];
      if plan != [] { assert u[|plan| - 1] == plan[|plan| - 1]; }
    }
  }

  /** Pictures of a feed that goes on follow those of the other feed. */
  lemma {:induction false} ContinuePictures(plan: seq<Item>, xs: seq<Item>, feed: Feed, c: Clock)
    requires PicturesDisjoint(plan, c) && PicturesJoined(plan, Some(feed), c) && Continues(plan, xs, feed)
    ensures PicturesDisjoint(plan + xs, c) && PicturesJoined(plan + xs, Some(feed), c)
  {
    hide LastOutput, NeverBack;
    ContinuesFloor(plan, xs, feed);
    PicturesAppend(plan, xs, feed, c);
  }

  /** So do those of a feed that joins where everything else is over. */
  lemma {:induction false} StartPictures(plan: seq<Item>, xs: seq<Item>, next: int, feed: Feed, c: Clock)
    requires PicturesDisjoint(plan, c) && Clears(plan, next, c) && Continues(plan, xs, feed)
    requires NeverBack(plan) && forall i :: 0 <= i < |plan| ==> Placed(plan[i].packet)
    requires forall i :: 0 <= i < |xs| && Picture(xs[i]) ==> next <= xs[i].packet.dts
    requires next <= LastOutput(plan + xs)
    ensures PicturesDisjoint(plan + xs, c) && PicturesJoined(plan + xs, Some(feed), c)
  {
    hide LastOutput, VideoTail, AudioEnd, NeverBack;
    SummariesBound(plan, c);
    PicturesAppend(plan, xs, feed, c);
  }

  lemma {:induction false} CoveredLater(t: seq<Item>, limit: int, limit': int)
    requires limit <= limit' && Covered(t, limit)
    ensures Covered(t, limit')
  {
    forall h: nat | h < |t| && HoldingPicture(t[h]) ensures EndedBy(t, h, |t|, limit') {
      EndedByLater(t, h, |t|, limit, |t|, limit');
    }
  }

  lemma {:induction false} ContinueProgramme(plan: seq<Item>, xs: seq<Item>, c: Clock)
    requires Safe(plan, c) && Joined(plan, Some(Programme), c) && Continues(plan, xs, Programme)
    ensures Safe(plan + xs, c) && Joined(plan + xs, Some(Programme), c)
  {
    ContinuesFloor(plan, xs, Programme);
    AppendProgramme(plan, xs, LastOutput(plan), c);
    CoveredLater(plan + xs, LastOutput(plan), LastOutput(plan + xs));
  }

  lemma {:induction false} ContinueHolding(plan: seq<Item>, xs: seq<Item>, c: Clock)
    requires Safe(plan, c) && Joined(plan, Some(Holding), c) && Continues(plan, xs, Holding)
    ensures Safe(plan + xs, c) && Joined(plan + xs, Some(Holding), c)
  {
    ContinuesFloor(plan, xs, Holding);
    AppendHolding(plan, xs, c);
  }

  /** The holding scene joins once everything of the programme is over. */
  lemma {:induction false} StartHolding(plan: seq<Item>, xs: seq<Item>, next: int, c: Clock)
    requires Safe(plan, c) && Clears(plan, next, c) && Continues(plan, xs, Holding)
    requires forall i :: 0 <= i < |xs| && Picture(xs[i]) ==> next <= xs[i].packet.dts
    requires next <= LastOutput(plan + xs)
    ensures Safe(plan + xs, c) && Joined(plan + xs, Some(Holding), c)
  {
    SummariesBound(plan, c);
    AppendHolding(plan, xs, c);
  }

  /** A silent frame after every sound keeps the promises. */
  lemma {:induction false} AppendSilence(plan: seq<Item>, x: Item, c: Clock)
    requires Safe(plan, c) && Sound(x) && x.packet.drain && x.feed.Holding? && Placed(x.packet)
    requires LastOutput(plan) <= x.packet.dts
    ensures Safe(plan + [x], c)
  {
    SummariesBound(plan, c);
    AppendHolding(plan, [x], c);
  }

  lemma {:induction false} LabelConcat(feed: Feed, a: seq<Packet>, b: seq<Packet>)
    ensures Label(feed, a + b) == Label(feed, a) + Label(feed, b)
  {}

  /** The programme rejoins at a key picture. If a holding scene was on screen, its sound is cut to start no earlier
      than that picture, and some sound does follow. */
  lemma {:induction false} StartProgramme(plan: seq<Item>, bridge: seq<Packet>, key: Packet, rest: seq<Packet>, next: int, c: Clock)
    requires c.Admitted() && Safe(plan, c) && Clears(plan, next, c)
    requires forall i :: 0 <= i < |bridge| ==> bridge[i].kind.Audio? && bridge[i].drain && Placed(bridge[i])
    requires SortedBy(Dts, bridge)
    requires key.kind.Video? && Placed(key) && next <= key.dts
    requires forall i :: 0 <= i < |rest| ==> Placed(rest[i]) && key.dts <= rest[i].dts
    requires Continues(plan, Label(Programme, StableSort(Dts, bridge + [key] + rest)), Programme)
    requires HasHoldingPicture(plan) ==>
      && (forall i :: 0 <= i < |rest| && rest[i].kind.Audio? ==> key.pts <= rest[i].pts)
      && (exists i :: 0 <= i < |rest| && rest[i].kind.Audio?)
    ensures Safe(plan + Label(Programme, StableSort(Dts, bridge + [key] + rest)), c)
    ensures Joined(plan + Label(Programme, StableSort(Dts, bridge + [key] + rest)), Some(Programme), c)
  {
    var output := StableSort(Dts, bridge + [key] + rest);
    var xs := Label(Programme, output);
    SummariesBound(plan, c);
    ContinuesFloor(plan, xs, Programme);
    if !HasHoldingPicture(plan) {
      AppendProgramme(plan, xs, LastOutput(plan), c);
      CoveredLater(plan + xs, LastOutput(plan), LastOutput(plan + xs));
    } else {
      ResumeProgramme(plan, bridge, key, rest, next, c);
    }
  }

  lemma {:induction false} ResumeProgramme(plan: seq<Item>, bridge: seq<Packet>, key: Packet, rest: seq<Packet>, next: int, c: Clock)
    requires c.Admitted() && Safe(plan, c) && Clears(plan, next, c)
    requires forall i :: 0 <= i < |bridge| ==> bridge[i].kind.Audio? && bridge[i].drain && Placed(bridge[i])
    requires SortedBy(Dts, bridge)
    requires key.kind.Video? && Placed(key) && next <= key.dts
    requires forall i :: 0 <= i < |rest| ==> Placed(rest[i]) && key.dts <= rest[i].dts
    requires Continues(plan, Label(Programme, StableSort(Dts, bridge + [key] + rest)), Programme)
    requires forall i :: 0 <= i < |rest| && rest[i].kind.Audio? ==> key.pts <= rest[i].pts
    requires exists i :: 0 <= i < |rest| && rest[i].kind.Audio?
    ensures Safe(plan + Label(Programme, StableSort(Dts, bridge + [key] + rest)), c)
    ensures Joined(plan + Label(Programme, StableSort(Dts, bridge + [key] + rest)), Some(Programme), c)
  {
    hide StableSort, SortedBy, LastOutput;
    var xs := Label(Programme, StableSort(Dts, bridge + [key] + rest));
    var x := Item(Programme, key);
    var front, back := ResumeShape(bridge, key, rest);
    JoinFour(plan, front, x, back);
    ResumeReaches(plan, bridge, key, rest);
    ResumeParts(plan, front, x, back, next, c);
  }

  lemma {:induction false} JoinFour(plan: seq<Item>, front: seq<Item>, x: Item, back: seq<Item>)
    ensures plan + (front + [x] + back) == plan + front + [x] + back
  {}

  /** The output goes on to the first picture at least, because sound follows it. */
  lemma {:induction false} ResumeReaches(plan: seq<Item>, bridge: seq<Packet>, key: Packet, rest: seq<Packet>)
    requires forall i :: 0 <= i < |rest| ==> Placed(rest[i]) && key.dts <= rest[i].dts
    requires forall i :: 0 <= i < |rest| && rest[i].kind.Audio? ==> key.pts <= rest[i].pts
    requires Continues(plan, Label(Programme, StableSort(Dts, bridge + [key] + rest)), Programme)
    requires exists i :: 0 <= i < |rest| && rest[i].kind.Audio?
    ensures key.pts <= LastOutput(plan + Label(Programme, StableSort(Dts, bridge + [key] + rest)))
  {
    hide StableSort;
    var xs := Label(Programme, StableSort(Dts, bridge + [key] + rest));
    var a :| 0 <= a < |rest| && rest[a].kind.Audio?;
    assert (bridge + [key] + rest)[|bridge| + 1 + a] == rest[a];
    var k := SortPosition(bridge + [key] + rest, |bridge| + 1 + a);
    ContinuesFloor(plan, xs, Programme);
    assert key.pts <= xs[k].packet.dts <= LastOutput(plan + xs);
  }

  /** A sorted programme batch: silence, then the key picture, then everything else. */
  lemma {:induction false} ResumeShape(bridge: seq<Packet>, key: Packet, rest: seq<Packet>) returns (front: seq<Item>, back: seq<Item>)
    requires forall i :: 0 <= i < |bridge| ==> bridge[i].kind.Audio? && bridge[i].drain && Placed(bridge[i])
    requires SortedBy(Dts, bridge)
    requires forall i :: 0 <= i < |rest| ==> Placed(rest[i]) && key.dts <= rest[i].dts
    requires forall i :: 0 <= i < |rest| && rest[i].kind.Audio? ==> key.pts <= rest[i].pts
    ensures Label(Programme, StableSort(Dts, bridge + [key] + rest)) == front + [Item(Programme, key)] + back
    ensures forall i :: 0 <= i < |front| ==> Sound(front[i]) && front[i].packet.drain && Placed(front[i].packet)
    ensures forall i :: 0 <= i < |back| ==> back[i].feed.Programme? && Placed(back[i].packet)
    ensures forall i :: 0 <= i < |back| && ProgrammeSound(back[i]) ==> key.pts <= back[i].packet.pts
  {
    var pre, post := SortKeepsFront(Dts, bridge, key, rest);
    front, back := Label(Programme, pre), Label(Programme, post);
    LabelConcat(Programme, pre + [key], post);
    LabelConcat(Programme, pre, [key]);
    PartsPlaced(bridge, rest, pre, post, key);
  }

  lemma {:induction false} PartsPlaced(bridge: seq<Packet>, rest: seq<Packet>, pre: seq<Packet>, post: seq<Packet>, key: Packet)
    requires pre <= bridge && multiset(pre + post) == multiset(bridge + rest)
    requires forall i :: 0 <= i < |bridge| ==> bridge[i].drain && Placed(bridge[i])
    requires forall i :: 0 <= i < |rest| ==> Placed(rest[i])
    requires forall i :: 0 <= i < |rest| && rest[i].kind.Audio? ==> key.pts <= rest[i].pts
    ensures forall i :: 0 <= i < |post| ==>
      Placed(post[i]) && (post[i].kind.Audio? && !post[i].drain ==> key.pts <= post[i].pts)
  {
    forall i | 0 <= i < |post| ensures Placed(post[i]) && (post[i].kind.Audio? && !post[i].drain ==> key.pts <= post[i].pts) {
      assert (pre + post)[|pre| + i] == post[i];
      assert post[i] in multiset(pre + post);
      assert post[i] in bridge + rest;
    }
  }

  lemma {:induction false} SortPosition(all: seq<Packet>, i: nat) returns (k: nat)
    requires i < |all|
    ensures k < |StableSort(Dts, all)| && StableSort(Dts, all)[k] == all[i]
  {
    StableSortSorted(Dts, all);
    var output := StableSort(Dts, all);
    assert all[i] in multiset(output);
    k :| 0 <= k < |output| && output[k] == all[i];
  }

  lemma {:induction false} ResumeParts(plan: seq<Item>, front: seq<Item>, x: Item, back: seq<Item>, next: int, c: Clock)
    requires c.Admitted() && Safe(plan, c) && Clears(plan, next, c) && NeverBack(plan + front + [x] + back)
    requires forall i :: 0 <= i < |front| ==> Sound(front[i]) && front[i].packet.drain && Placed(front[i].packet)
    requires ProgrammePicture(x) && Placed(x.packet) && next <= x.packet.dts
    requires forall i :: 0 <= i < |back| ==> back[i].feed.Programme? && Placed(back[i].packet)
    requires forall i :: 0 <= i < |back| && ProgrammeSound(back[i]) ==> x.packet.pts <= back[i].packet.pts
    requires x.packet.pts <= LastOutput(plan + front + [x] + back)
    ensures Safe(plan + front + [x] + back, c)
    ensures Joined(plan + front + [x] + back, Some(Programme), c)
  {
    hide NoSoundUnderHolding, PicturesDisjoint, Covered, AudioEnd, VideoTail, LastOutput;
    var v := plan + front + [x];
    var u := v + back;
    SummariesBound(plan, c);
    assert forall i :: 0 <= i < |v| ==> v[i] == u[i];
    AppendKey(plan, front, x, c);
    forall j | 0 <= j < |back| ensures x.packet.dts <= back[j].packet.dts {
      assert u[|v| - 1] == x && u[|v| + j] == back[j];
    }
    forall i, j | 0 <= i < |v| && HoldingPicture(v[i]) && 0 <= j < |back| && Picture(back[j])
      ensures PictureEnd(v[i], c) <= back[j].packet.pts
    {
      assert v[i] == plan[i];
    }
    AppendProgramme(v, back, x.packet.pts, c);
    CoveredLater(u, x.packet.pts, LastOutput(u));
    assert forall i :: 0 <= i < |u| && HoldingPicture(u[i]) ==> i < |plan| && u[i] == plan[i];
  }

  // Silence never overlaps sound, for feeds in decode order.

  lemma {:induction false} ContinueMuted(plan: seq<Item>, xs: seq<Item>, feed: Feed, c: Clock)
    requires Muted(plan, Some(feed), c) && Continues(plan, xs, feed)
    requires forall i :: 0 <= i < |xs| ==> !xs[i].packet.drain
    ensures Muted(plan + xs, Some(feed), c)
  {
    ContinuesFloor(plan, xs, feed);
  }

  /** Two kept elements of s appear in the same order in the selection. */
  lemma {:induction false} SelectPositions(keep: Packet -> bool, s: seq<Packet>, i: nat, j: nat) returns (a: nat, b: nat)
    requires i < j < |s| && keep(s[i]) && keep(s[j])
    ensures a < b < |Select(keep, s)| && Select(keep, s)[a] == s[i] && Select(keep, s)[b] == s[j]
  {
    if j == |s| - 1 {
      a := SelectPosition(keep, s[..j], i);
      b := |Select(keep, s[..j])|;
    } else {
      a, b := SelectPositions(keep, s[..|s| - 1], i, j);
    }
  }

  lemma {:induction false} SelectPosition(keep: Packet -> bool, s: seq<Packet>, i: nat) returns (a: nat)
    requires i < |s| && keep(s[i])
    ensures a < |Select(keep, s)| && Select(keep, s)[a] == s[i]
  {
    if i == |s| - 1 {
      a := |Select(keep, s[..i])|;
    } else {
      a := SelectPosition(keep, s[..|s| - 1], i);
    }
  }

  function IsDrain(p: Packet): bool { p.drain }

  lemma {:induction false} SelectAll(keep: Packet -> bool, s: seq<Packet>, all: bool)
    requires forall i :: 0 <= i < |s| ==> keep(s[i]) == all
    ensures Select(keep, s) == if all then s else []
  {
    if s != [] {
      SelectAll(keep, s[..|s| - 1], all);
      if all { assert s == s[..|s| - 1] + [s[|s| - 1]]; }
    }
  }

  /** Sorting a bridge into packets: silence comes from the bridge, the rest from the packets. */
  lemma {:induction false} SortMember(bridge: seq<Packet>, packets: seq<Packet>, k: nat) returns (i: nat)
    requires forall i :: 0 <= i < |bridge| ==> bridge[i].drain
    requires forall i :: 0 <= i < |packets| ==> !packets[i].drain
    requires k < |StableSort(Dts, bridge + packets)|
    ensures var x := StableSort(Dts, bridge + packets)[k];
      if x.drain then i < |bridge| && x == bridge[i] else i < |packets| && x == packets[i]
  {
    var all := bridge + packets;
    var output := StableSort(Dts, all);
    StableSortSorted(Dts, all);
    assert output[k] in multiset(output);
    var j :| 0 <= j < |all| && all[j] == output[k];
    i := if j < |bridge| then j else j - |bridge|;
  }

  /** What a sorted batch of a bridge and the packets behind it looks like. */
  predicate Bridged(output: seq<Packet>, first: int, until: int, aac: int) {
    && (forall k :: 0 <= k < |output| && output[k].kind.Audio? ==> output[k].pts == output[k].dts)
    && (forall k :: 0 <= k < |output| && output[k].kind.Audio? ==> first <= output[k].dts)
    && (forall k :: 0 <= k < |output| && output[k].drain ==> output[k].dts + aac <= until)
    && (exists k :: 0 <= k < |output| && until <= output[k].dts)
    && (forall i, j :: 0 <= i < j < |output| && output[i].kind.Audio? && output[j].kind.Audio? && (output[i].drain || output[j].drain) ==>
          output[i].pts + aac <= output[j].pts)
  }

  lemma {:induction false} BridgeApart(bridge: seq<Packet>, packets: seq<Packet>, payload: seq<Byte>, from: int, first: int, until: int, aac: int)
    requires 0 < aac && first <= from && Silence(bridge, payload, from, aac, until)
    requires forall i :: 0 <= i < |packets| ==> !packets[i].drain && Placed(packets[i])
    requires forall i :: 0 <= i < |packets| && packets[i].kind.Audio? ==> until <= packets[i].dts && first <= packets[i].dts
    requires exists i :: 0 <= i < |packets| && packets[i].kind.Audio?
    ensures Bridged(StableSort(Dts, bridge + packets), first, until, aac)
  {
    var all := bridge + packets;
    var output := StableSort(Dts, all);
    forall k | 0 <= k < |output|
      ensures output[k].kind.Audio? ==> output[k].pts == output[k].dts && first <= output[k].dts
      ensures output[k].drain ==> output[k].dts + aac <= until && output[k].kind.Audio?
      ensures !output[k].drain && output[k].kind.Audio? ==> until <= output[k].dts
    {
      var i := SortMember(bridge, packets, k);
    }
    var a :| 0 <= a < |packets| && packets[a].kind.Audio?;
    assert all[|bridge| + a] == packets[a];
    var last := SortPosition(all, |bridge| + a);
    StableSortSorted(Dts, all);
    forall i, j | 0 <= i < j < |output| && output[i].kind.Audio? && output[j].kind.Audio? && (output[i].drain || output[j].drain)
      ensures output[i].pts + aac <= output[j].pts
    {
      assert Dts(output[i]) <= Dts(output[j]);
      if output[i].drain && output[j].drain {
        SilenceInOrder(bridge, packets, payload, from, until, aac, i, j);
      }
    }
  }

  /** Sorting keeps the silent frames in their order. */
  lemma {:induction false} SilenceInOrder(bridge: seq<Packet>, packets: seq<Packet>, payload: seq<Byte>, from: int, until: int, aac: int, i: nat, j: nat)
    requires 0 < aac && Silence(bridge, payload, from, aac, until)
    requires forall k :: 0 <= k < |packets| ==> !packets[k].drain
    requires i < j < |StableSort(Dts, bridge + packets)|
    requires StableSort(Dts, bridge + packets)[i].drain && StableSort(Dts, bridge + packets)[j].drain
    ensures StableSort(Dts, bridge + packets)[i].dts + aac <= StableSort(Dts, bridge + packets)[j].dts
  {
    SelectConcat(IsDrain, bridge, packets);
    SelectAll(IsDrain, bridge, true);
    SelectAll(IsDrain, packets, false);
    StableSortSelect(Dts, IsDrain, bridge + packets);
    var a, b := SelectPositions(IsDrain, StableSort(Dts, bridge + packets), i, j);
    assert bridge[a].dts + aac <= bridge[b].dts;
  }

  /** A bridge between the last sound and the first sound of a joining feed overlaps neither. */
  lemma {:induction false} StartMuted(plan: seq<Item>, output: seq<Packet>, first: int, until: int, feed: Feed, c: Clock)
    requires Muted(plan, None, c) && AudioEnd(plan, c) <= first <= until
    requires NeverBack(plan) && forall i :: 0 <= i < |plan| ==> Placed(plan[i].packet)
    requires Bridged(output, first, until, c.aac) && 0 < c.aac
    requires Continues(plan, Label(feed, output), feed)
    ensures Muted(plan + Label(feed, output), Some(feed), c)
  {
    var xs := Label(feed, output);
    var u := plan + xs;
    SummariesBound(plan, c);
    ContinuesFloor(plan, xs, feed);
    var last :| 0 <= last < |output| && until <= output[last].dts;
    assert xs[last].packet.dts <= LastOutput(u);
    assert forall i :: |plan| <= i < |u| ==> u[i].packet == output[i - |plan|];
    StartDisjoint(plan, output, first, until, feed, c);
    forall i | 0 <= i < |u| && Sound(u[i]) && u[i].packet.drain ensures u[i].packet.pts + c.aac <= LastOutput(u) {
      if i < |plan| { assert u[i] == plan[i]; }
    }
  }

  lemma {:induction false} StartDisjoint(plan: seq<Item>, output: seq<Packet>, first: int, until: int, feed: Feed, c: Clock)
    requires SilenceDisjoint(plan, c) && AudioEnd(plan, c) <= first <= until && Bridged(output, first, until, c.aac) && 0 < c.aac
    requires forall i :: 0 <= i < |plan| && Sound(plan[i]) ==> plan[i].packet.pts + c.aac <= AudioEnd(plan, c)
    ensures SilenceDisjoint(plan + Label(feed, output), c)
  {
    hide AudioEnd;
    var u := plan + Label(feed, output);
    assert forall i :: |plan| <= i < |u| ==> u[i].packet == output[i - |plan|];
    forall i, j | 0 <= i < j < |u| && Sound(u[i]) && Sound(u[j]) && (u[i].packet.drain || u[j].packet.drain)
      ensures u[i].packet.pts + c.aac <= u[j].packet.pts
    {
      if j < |plan| { assert u[i] == plan[i] && u[j] == plan[j]; }
      else if i < |plan| { assert u[i] == plan[i]; }
      else { assert u[i].packet == output[i - |plan|] && u[j].packet == output[j - |plan|]; }
    }
  }
}
