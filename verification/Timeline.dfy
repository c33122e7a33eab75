/** The outgoing timeline: what a viewer sees and hears, independent of how the coordinator computes it. */
module Timeline {
  import opened Media

  datatype Feed = Programme | Holding

  /** A packet placed on the outgoing timeline, with the feed it was released for. */
  datatype Item = Item(feed: Feed, packet: Packet)

  /** Durations admitted by the codec contract: one AAC frame and one picture of either feed. */
  datatype Clock = Clock(aac: int, programmeFrame: int, holdingFrame: int) {
    predicate Admitted() {
      && (aac == 21334 || aac == 23220)
      && 4000 <= programmeFrame <= 100000
      && 4000 <= holdingFrame <= 100000
    }

    function Frame(feed: Feed): int { if feed.Programme? then programmeFrame else holdingFrame }
  }

  predicate Picture(x: Item) { x.packet.kind.Video? }

  predicate Sound(x: Item) { x.packet.kind.Audio? }

  predicate ProgrammePicture(x: Item) { Picture(x) && x.feed.Programme? }

  predicate HoldingPicture(x: Item) { Picture(x) && x.feed.Holding? }

  predicate ProgrammeSound(x: Item) { Sound(x) && x.feed.Programme? && !x.packet.drain }

  function Label(feed: Feed, packets: seq<Packet>): (r: seq<Item>)
    ensures |r| == |packets|
    ensures forall i :: 0 <= i < |r| ==> r[i] == Item(feed, packets[i])
  {
    if packets == [] then []
    else Label(feed, packets[..|packets| - 1]) + [Item(feed, packets[|packets| - 1])]
  }

  /** Decode times on the timeline never go back. */
  predicate NeverBack(t: seq<Item>) {
    forall i, j :: 0 <= i < j < |t| ==> t[i].packet.dts <= t[j].packet.dts
  }

  predicate TimingOk(p: Packet) {
    && 0 <= p.dts <= p.pts
    && p.dts <= INT64_MAX - 1000000
    && p.pts <= INT64_MAX - 1000000
    && p.pts - p.dts <= 250000
    && (p.kind.Audio? ==> p.pts == p.dts)
  }

  /** What rebasing keeps of TimingOk. */
  predicate Placed(p: Packet) {
    0 <= p.dts <= p.pts && (p.kind.Audio? ==> p.pts == p.dts)
  }

  // Summaries of a timeline: where the next item may go.

  function LastOutput(t: seq<Item>): int {
    if t == [] then -1000 else t[|t| - 1].packet.dts
  }

  function AudioEnd(t: seq<Item>, c: Clock): int {
    if t == [] then 0
    else if Sound(t[|t| - 1]) then t[|t| - 1].packet.pts + c.aac
    else AudioEnd(t[..|t| - 1], c)
  }

  function PictureEnd(x: Item, c: Clock): int { x.packet.pts + c.Frame(x.feed) }

  function VideoTail(t: seq<Item>, c: Clock): int {
    if t == [] then -1000
    else if Picture(t[|t| - 1]) then Max(VideoTail(t[..|t| - 1], c), PictureEnd(t[|t| - 1], c))
    else VideoTail(t[..|t| - 1], c)
  }

  /** The feed of the last picture; the programme before any picture. */
  function OnScreen(t: seq<Item>): Feed {
    if t == [] then Programme
    else if Picture(t[|t| - 1]) then t[|t| - 1].feed
    else OnScreen(t[..|t| - 1])
  }

  lemma {:induction false} SummariesAppend(t: seq<Item>, x: Item, c: Clock)
    ensures LastOutput(t + [x]) == x.packet.dts
    ensures AudioEnd(t + [x], c) == if Sound(x) then x.packet.pts + c.aac else AudioEnd(t, c)
    ensures VideoTail(t + [x], c) == if Picture(x) then Max(VideoTail(t, c), PictureEnd(x, c)) else VideoTail(t, c)
    ensures OnScreen(t + [x]) == if Picture(x) then x.feed else OnScreen(t)
  {
    assert (t + [x])[..|t|] == t;
  }

  /** The summaries bound every item of the timeline. */
  lemma {:induction false} SummariesBound(t: seq<Item>, c: Clock)
    requires NeverBack(t) && forall i :: 0 <= i < |t| ==> Placed(t[i].packet)
    ensures forall i :: 0 <= i < |t| ==> t[i].packet.dts <= LastOutput(t)
    ensures forall i :: 0 <= i < |t| && Sound(t[i]) ==> t[i].packet.pts + c.aac <= AudioEnd(t, c)
    ensures forall i :: 0 <= i < |t| && Picture(t[i]) ==> PictureEnd(t[i], c) <= VideoTail(t, c)
  {
    if t != [] {
      var init := t[..|t| - 1];
      SummariesBound(init, c);
      assert forall i :: 0 <= i < |t| - 1 ==> t[i] == init[i];
    }
  }

  // Safety of a timeline.

  /** Item j is the first programme picture after item i. */
  predicate ResumesAt(t: seq<Item>, i: nat, j: nat)
    requires i < |t| && j < |t|
  {
    i < j && ProgrammePicture(t[j]) && forall m :: i < m < j ==> !ProgrammePicture(t[m])
  }

  /** The holding display that picture h belongs to is ended in t[..end] by a programme picture starting by limit. */
  ghost predicate EndedBy(t: seq<Item>, h: nat, end: nat, limit: int)
    requires h < |t| && end <= |t|
  {
    exists j: nat :: j < end && ResumesAt(t, h, j) && t[j].packet.pts <= limit
  }

  /** Sound s is over before holding picture h starts, or starts once the display of h has ended. */
  ghost predicate Apart(t: seq<Item>, h: nat, s: nat, c: Clock)
    requires h < |t| && s < |t|
  {
    && (s < h ==> t[s].packet.pts + c.aac <= t[h].packet.pts)
    && (h < s ==> EndedBy(t, h, s, t[s].packet.pts))
  }

  /** No programme sound under a holding picture. */
  ghost predicate NoSoundUnderHolding(t: seq<Item>, c: Clock) {
    forall h: nat, s: nat :: h < |t| && s < |t| && HoldingPicture(t[h]) && ProgrammeSound(t[s]) ==> Apart(t, h, s, c)
  }

  /** A picture of one feed has left the screen before a picture of the other feed starts. */
  predicate PicturesDisjoint(t: seq<Item>, c: Clock) {
    forall i, j :: 0 <= i < j < |t| && Picture(t[i]) && Picture(t[j]) && t[i].feed != t[j].feed ==>
      PictureEnd(t[i], c) <= t[j].packet.pts
  }

  /** Inserted silence never overlaps another sound. */
  predicate SilenceDisjoint(t: seq<Item>, c: Clock) {
    forall i, j :: 0 <= i < j < |t| && Sound(t[i]) && Sound(t[j]) && (t[i].packet.drain || t[j].packet.drain) ==>
      t[i].packet.pts + c.aac <= t[j].packet.pts
  }

  /** Everything a viewer is promised about pictures and programme sound. */
  ghost predicate Safe(t: seq<Item>, c: Clock) {
    && NeverBack(t)
    && NoSoundUnderHolding(t, c)
    && PicturesDisjoint(t, c)
    && forall i :: 0 <= i < |t| ==> Placed(t[i].packet)
  }

  /** Every holding display in t has ended, by a programme picture that starts no later than limit. */
  ghost predicate Covered(t: seq<Item>, limit: int) {
    forall h: nat :: h < |t| && HoldingPicture(t[h]) ==> EndedBy(t, h, |t|, limit)
  }

  lemma {:induction false} EndedByPrefix(t: seq<Item>, u: seq<Item>, h: nat, end: nat, limit: int)
    requires t <= u && h < |t| && end <= |t|
    ensures EndedBy(t, h, end, limit) == EndedBy(u, h, end, limit)
  {
    if EndedBy(t, h, end, limit) {
      var j: nat :| j < end && ResumesAt(t, h, j) && t[j].packet.pts <= limit;
      assert ResumesAt(u, h, j);
    }
    if EndedBy(u, h, end, limit) {
      var j: nat :| j < end && ResumesAt(u, h, j) && u[j].packet.pts <= limit;
      assert ResumesAt(t, h, j);
    }
  }

  lemma {:induction false} ApartPrefix(t: seq<Item>, u: seq<Item>, h: nat, s: nat, c: Clock)
    requires t <= u && h < |t| && s < |t|
    ensures Apart(t, h, s, c) == Apart(u, h, s, c)
  {
    if h < s { EndedByPrefix(t, u, h, s, t[s].packet.pts); }
  }

  lemma {:induction false} PicturesAppend(t: seq<Item>, xs: seq<Item>, feed: Feed, c: Clock)
    requires PicturesDisjoint(t, c)
    requires forall i :: 0 <= i < |xs| && Picture(xs[i]) ==> xs[i].feed == feed
    requires forall i, j :: 0 <= i < |t| && Picture(t[i]) && t[i].feed != feed && 0 <= j < |xs| && Picture(xs[j]) ==>
      PictureEnd(t[i], c) <= xs[j].packet.pts
    ensures PicturesDisjoint(t + xs, c)
  {
    var u := t + xs;
    forall i, j | 0 <= i < j < |u| && Picture(u[i]) && Picture(u[j]) && u[i].feed != u[j].feed
      ensures PictureEnd(u[i], c) <= u[j].packet.pts
    {
      assert j < |t| ==> u[i] == t[i] && u[j] == t[j];
      assert |t| <= j ==> u[j] == xs[j - |t|];
    }
  }

  /** Programme items may follow once every holding display is covered. */
  lemma {:induction false} AppendProgramme(t: seq<Item>, xs: seq<Item>, limit: int, c: Clock)
    requires Safe(t, c) && Covered(t, limit) && NeverBack(t + xs)
    requires forall i :: 0 <= i < |xs| ==> xs[i].feed.Programme? && Placed(xs[i].packet)
    requires forall i :: 0 <= i < |xs| && ProgrammeSound(xs[i]) ==> limit <= xs[i].packet.pts
    requires forall i, j :: 0 <= i < |t| && HoldingPicture(t[i]) && 0 <= j < |xs| && Picture(xs[j]) ==>
      PictureEnd(t[i], c) <= xs[j].packet.pts
    ensures Safe(t + xs, c) && Covered(t + xs, limit)
  {
    var u := t + xs;
    PicturesAppend(t, xs, Programme, c);
    forall h: nat | h < |u| && HoldingPicture(u[h]) ensures h < |t| && EndedBy(u, h, |t|, limit) && EndedBy(u, h, |u|, limit) {
      assert EndedBy(t, h, |t|, limit);
      EndedByPrefix(t, u, h, |t|, limit);
      EndedByLater(u, h, |t|, limit, |u|, limit);
    }
    forall h: nat, s: nat | h < |u| && s < |u| && HoldingPicture(u[h]) && ProgrammeSound(u[s]) ensures Apart(u, h, s, c) {
      if s < |t| {
        assert Apart(t, h, s, c);
        ApartPrefix(t, u, h, s, c);
      } else {
        assert u[s] == xs[s - |t|];
        EndedByLater(u, h, |t|, limit, s, u[s].packet.pts);
      }
    }
  }

  lemma {:induction false} EndedByLater(t: seq<Item>, h: nat, end: nat, limit: int, end': nat, limit': int)
    requires h < |t| && end <= end' <= |t| && limit <= limit' && EndedBy(t, h, end, limit)
    ensures EndedBy(t, h, end', limit')
  {
    var j: nat :| j < end && ResumesAt(t, h, j) && t[j].packet.pts <= limit;
    assert j < end' && ResumesAt(t, h, j) && t[j].packet.pts <= limit';
  }

  /** Holding items may follow once every programme sound and picture is over. */
  lemma {:induction false} AppendHolding(t: seq<Item>, xs: seq<Item>, c: Clock)
    requires Safe(t, c) && NeverBack(t + xs)
    requires forall i :: 0 <= i < |xs| ==> xs[i].feed.Holding? && Placed(xs[i].packet)
    requires forall i, j :: 0 <= i < |t| && ProgrammeSound(t[i]) && 0 <= j < |xs| && Picture(xs[j]) ==>
      t[i].packet.pts + c.aac <= xs[j].packet.pts
    requires forall i, j :: 0 <= i < |t| && ProgrammePicture(t[i]) && 0 <= j < |xs| && Picture(xs[j]) ==>
      PictureEnd(t[i], c) <= xs[j].packet.pts
    ensures Safe(t + xs, c)
  {
    var u := t + xs;
    PicturesAppend(t, xs, Holding, c);
    forall h: nat, s: nat | h < |u| && s < |u| && HoldingPicture(u[h]) && ProgrammeSound(u[s]) ensures Apart(u, h, s, c) {
      if h < |t| {
        assert Apart(t, h, s, c);
        ApartPrefix(t, u, h, s, c);
      } else {
        assert u[h] == xs[h - |t|] && u[s] == t[s];
      }
    }
  }

  /** The first programme picture after some silence ends every holding display. */
  lemma {:induction false} AppendKey(t: seq<Item>, silence: seq<Item>, key: Item, c: Clock)
    requires Safe(t, c) && NeverBack(t + silence + [key])
    requires forall i :: 0 <= i < |silence| ==> Sound(silence[i]) && silence[i].packet.drain && Placed(silence[i].packet)
    requires ProgrammePicture(key) && Placed(key.packet)
    requires forall i :: 0 <= i < |t| && Picture(t[i]) ==> t[i].packet.pts <= key.packet.pts && PictureEnd(t[i], c) <= key.packet.pts
    ensures Safe(t + silence + [key], c) && Covered(t + silence + [key], key.packet.pts)
  {
    var v := t + silence;
    var u := v + [key];
    PicturesAppend(t, silence, Programme, c);
    PicturesAppend(v, [key], Programme, c) by {
      assert forall i :: 0 <= i < |v| && Picture(v[i]) ==> v[i] == t[i];
    }
    assert t <= u;
    forall i | |t| <= i < |v| ensures u[i] == silence[i - |t|] {}
    forall h: nat, s: nat | h < |u| && s < |u| && HoldingPicture(u[h]) && ProgrammeSound(u[s]) ensures Apart(u, h, s, c) {
      assert h < |t| && s < |t|;
      assert Apart(t, h, s, c);
      ApartPrefix(t, u, h, s, c);
    }
    forall h: nat | h < |u| && HoldingPicture(u[h]) ensures EndedBy(u, h, |u|, key.packet.pts) {
      assert h < |t|;
      FirstResume(u, h, |v|);
    }
  }

  /** A programme picture after h means that some first one ends the display of h. */
  lemma {:induction false} FirstResume(t: seq<Item>, h: nat, k: nat)
    requires h < k < |t| && ProgrammePicture(t[k])
    requires forall i :: h < i <= k && Picture(t[i]) ==> t[i].packet.pts <= t[k].packet.pts
    ensures EndedBy(t, h, |t|, t[k].packet.pts)
    decreases k
  {
    if m :| h < m < k && ProgrammePicture(t[m]) {
      FirstResumeAt(t, h, m);
      var j: nat :| j <= m && ResumesAt(t, h, j);
      assert ResumesAt(t, h, j) && t[j].packet.pts <= t[k].packet.pts;
    } else {
      assert ResumesAt(t, h, k);
    }
  }

  lemma {:induction false} FirstResumeAt(t: seq<Item>, h: nat, k: nat)
    requires h < k < |t| && ProgrammePicture(t[k])
    ensures exists j: nat :: j <= k && ResumesAt(t, h, j)
    decreases k
  {
    if m :| h < m < k && ProgrammePicture(t[m]) {
      FirstResumeAt(t, h, m);
    } else {
      assert ResumesAt(t, h, k);
    }
  }

  /** A viewer sees holding picture h at time x: it has started, and the first programme picture behind it has not. */
  ghost predicate ShownAt(t: seq<Item>, h: nat, x: int)
    requires h < |t|
  {
    HoldingPicture(t[h]) && t[h].packet.pts <= x && forall j: nat :: j < |t| && ResumesAt(t, h, j) ==> x < t[j].packet.pts
  }

  /** A viewer hears sound s of the programme at time x. */
  predicate HeardAt(t: seq<Item>, s: nat, x: int, c: Clock)
    requires s < |t|
  {
    ProgrammeSound(t[s]) && t[s].packet.pts <= x < t[s].packet.pts + c.aac
  }

  /** At no instant is programme sound heard while a holding picture is shown. */
  lemma {:induction false} NeverHeardUnderHolding(t: seq<Item>, c: Clock, h: nat, s: nat, x: int)
    requires NoSoundUnderHolding(t, c) && h < |t| && s < |t| && HeardAt(t, s, x, c)
    ensures !ShownAt(t, h, x)
  {
    if HoldingPicture(t[h]) && h < s {
      assert Apart(t, h, s, c);
      var j: nat :| j < s && ResumesAt(t, h, j) && t[j].packet.pts <= t[s].packet.pts;
    }
  }

  /** Milliseconds on the wire, counted from `base`. */
  function WireTime(dts: int, base: int): int { (dts - base) / 1000 }

  lemma {:induction false} WireTimeSteps(a: int, b: int, base: int)
    ensures a <= b ==> WireTime(a, base) <= WireTime(b, base)
    ensures a + 1000 <= b ==> WireTime(a, base) < WireTime(b, base)
  {
    if a + 1000 <= b { assert (b - base) / 1000 >= (a + 1000 - base) / 1000 == (a - base) / 1000 + 1; }
  }
}
