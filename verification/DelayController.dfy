/** The delay buffer: rolling history while live, replay after a rewind, and plain delay. */
module DelayController {
  import opened Media

  const HISTORY_PACKETS: int := 262144
  const HISTORY_SLACK: int := 5000000

  datatype State = Live | BuildingDelay | Delayed | Error

  datatype Mode = Mode(armed: bool, passthrough: bool, rewind: bool, waiting: bool, pendingTrim: bool)

  /** The compressed history and the last decode time of each stream in it. */
  datatype Buffer = Buffer(packets: seq<Packet>, bytes: int, videoMark: Option<int>, audioMark: Option<int>)

  const EMPTY: Buffer := Buffer([], 0, None, None)

  /** Rebasing of a restarted encoder's clock. */
  datatype TimeBase = TimeBase(last: Option<int>, offset: Option<int>, rebase: bool)

  const NO_CLOCK: TimeBase := TimeBase(None, None, false)

  function Duration(s: seq<Packet>): int {
    if |s| < 2 then 0 else Max(0, s[|s| - 1].dts - s[0].dts)
  }

  // Rolling history.

  function Cutoff(b: Buffer, target: int): Option<int> {
    if b.videoMark.None? || b.audioMark.None? then None else Some(Min(b.videoMark.value, b.audioMark.value) - target)
  }

  /** Position of the latest key picture at or before the cutoff; the front if there is none. */
  function Latest(s: seq<Packet>, cutoff: Option<int>): (k: nat)
    ensures s != [] ==> k < |s|
    ensures s == [] ==> k == 0
    ensures k > 0 ==> cutoff.Some? && s[k].KeyVideo() && s[k].dts <= cutoff.value
  {
    if |s| <= 1 || cutoff.None? then 0
    else if s[|s| - 1].KeyVideo() && s[|s| - 1].dts <= cutoff.value then |s| - 1
    else Latest(s[..|s| - 1], cutoff)
  }

  /** The history worth keeping: from the latest key picture that is old enough. */
  function Recent(s: seq<Packet>, cutoff: Option<int>): seq<Packet> { s[Latest(s, cutoff)..] }

  lemma {:induction false} LatestIsLatest(s: seq<Packet>, cutoff: Option<int>)
    ensures forall i :: Latest(s, cutoff) < i < |s| && s[i].KeyVideo() && cutoff.Some? ==> cutoff.value < s[i].dts
  {
    if |s| > 1 && cutoff.Some? && !(s[|s| - 1].KeyVideo() && s[|s| - 1].dts <= cutoff.value) {
      LatestIsLatest(s[..|s| - 1], cutoff);
      assert forall i :: 0 <= i < |s| - 1 ==> s[..|s| - 1][i] == s[i];
    }
  }

  lemma {:induction false} LatestIs(s: seq<Packet>, cutoff: Option<int>, k: nat)
    requires k < |s| && (k > 0 ==> cutoff.Some? && s[k].KeyVideo() && s[k].dts <= cutoff.value)
    requires forall i :: k < i < |s| && s[i].KeyVideo() && cutoff.Some? ==> cutoff.value < s[i].dts
    ensures Latest(s, cutoff) == k
  {
    LatestIsLatest(s, cutoff);
  }

  predicate NotLater(c: Option<int>, c': Option<int>) {
    c.Some? ==> c'.Some? && c.value <= c'.value
  }

  /** Rolling what was rolled before gives the same as rolling all of the history. */
  lemma {:induction false} RollAgain(s: seq<Packet>, x: Packet, c: Option<int>, c': Option<int>)
    requires NotLater(c, c')
    ensures Recent(s + [x], c') == Recent(Recent(s, c) + [x], c')
  {
    hide Latest;
    var all := s + [x];
    var k := Latest(s, c);
    var b := s[k..] + [x];
    assert b == all[k..];
    var m := Latest(b, c');
    LatestIsLatest(b, c');
    forall i | k + m < i < |all| && all[i].KeyVideo() && c'.Some? ensures c'.value < all[i].dts {
      assert all[i] == b[i - k];
    }
    assert k + m > 0 ==> all[k + m] == b[m];
    LatestIs(all, c', k + m);
    assert all[k..][m..] == all[k + m..];
  }

  // Timestamps of a restarted encoder.

  predicate InRange(t: int) { INT64_MIN <= t <= INT64_MAX }

  /** A packet on the running clock. */
  function Normalized(base: TimeBase, p: Packet): Option<Packet> {
    var restart := base.rebase && base.last.Some?;
    var shift := if restart then base.last.value + 1 - p.dts else if base.offset.Some? then base.offset.value else 0;
    if (restart && (!InRange(base.last.value + 1) || !InRange(shift))) || !InRange(p.dts + shift) || !InRange(p.pts + shift) then None
    else Some(p.(dts := p.dts + shift, pts := p.pts + shift))
  }

  /** Moves a packet onto the running clock; None if that cannot be represented. The first packet after a restart lands
      just behind the last one before it, and those that follow keep their distance to it. */
  method Normalize(base: TimeBase, p: Packet) returns (q: Option<Packet>, next: TimeBase)
    requires InRange(p.dts) && InRange(p.pts) && (base.offset.Some? ==> InRange(base.offset.value))
    ensures q == Normalized(base, p)
    ensures !next.rebase && (q.Some? ==> next.last == Some(q.value.dts))
    ensures q.Some? && base.rebase && base.last.Some? ==> q.value.dts == base.last.value + 1 && next.offset == Some(q.value.dts - p.dts)
    ensures q.Some? && !(base.rebase && base.last.Some?) ==> next.offset == base.offset
    ensures q.Some? ==> InRange(q.value.dts) && InRange(q.value.pts)
    ensures next.offset.Some? ==> InRange(next.offset.value)
  {
    next := base.(rebase := false);
    if base.rebase && base.last.Some? {
      var start := base.last.value + 1;
      if !InRange(start) || !InRange(start - p.dts) { return None, next; }
      next := next.(offset := Some(start - p.dts));
    }
    if next.offset.Some? {
      var dts, pts := p.dts + next.offset.value, p.pts + next.offset.value;
      if !InRange(dts) || !InRange(pts) { return None, next; }
      q := Some(p.(dts := dts, pts := pts));
    } else {
      q := Some(p);
    }
    next := next.(last := Some(q.value.dts));
  }

  // The buffer.

  lemma {:induction false} CutBytes(s: seq<Packet>, k: nat)
    requires k <= |s|
    ensures Bytes(s[k..]) == Bytes(s) - Bytes(s[..k])
  {
    BytesConcat(s[..k], s[k..]);
    assert s == s[..k] + s[k..];
  }

  lemma {:induction false} RollStops(s: seq<Packet>, cutoff: int, keep: nat, i: nat)
    requires Ordered(s) && keep < i <= |s| && (i < |s| ==> cutoff < s[i].dts)
    requires keep > 0 ==> s[keep].KeyVideo() && s[keep].dts <= cutoff
    requires forall j :: keep < j < i ==> !s[j].KeyVideo()
    ensures Latest(s, Some(cutoff)) == keep
  {
    forall j | keep < j < |s| && s[j].KeyVideo() ensures cutoff < s[j].dts {
      if i < j { assert s[i].dts <= s[j].dts; }
    }
    LatestIs(s, Some(cutoff), keep);
  }

  lemma {:induction false} RollNothing(s: seq<Packet>)
    ensures Latest(s, None) == 0 && (s == [] ==> forall c :: Latest(s, c) == 0)
  {}

  /** Drops the history in front of the latest key picture that is old enough. */
  method Roll(b: Buffer, target: int) returns (r: Buffer)
    requires Ordered(b.packets) && b.bytes == Bytes(b.packets)
    ensures r == b.(packets := Recent(b.packets, Cutoff(b, target)), bytes := Bytes(r.packets))
  {
    hide Bytes, Latest, Ordered;
    RollNothing(b.packets);
    if b.videoMark.None? || b.audioMark.None? || b.packets == [] { return b; }
    var cutoff := Min(b.videoMark.value, b.audioMark.value) - target;
    var keep := 0;
    var i := 1;
    while i < |b.packets| && b.packets[i].dts <= cutoff
      invariant 1 <= i && keep < i <= |b.packets|
      invariant keep > 0 ==> b.packets[keep].KeyVideo() && b.packets[keep].dts <= cutoff
      invariant forall j :: keep < j < i ==> !b.packets[j].KeyVideo()
      decreases |b.packets| - i
    {
      if b.packets[i].KeyVideo() { keep := i; }
      i := i + 1;
    }
    RollStops(b.packets, cutoff, keep, i);
    CutBytes(b.packets, keep);
    r := b.(packets := b.packets[keep..], bytes := b.bytes - Bytes(b.packets[..keep]));
  }

  /** Each of these packets is more than `limit` older than the last of the others. */
  predicate AllOlder(released: seq<Packet>, from: seq<Packet>, limit: int) {
    forall i :: 0 <= i < |released| ==> from != [] && from[|from| - 1].dts - released[i].dts > limit
  }

  /** Releases from the front while more than `limit` is held: in order, and each packet more than that older than the newest. */
  method PayOut(b: Buffer, limit: int) returns (r: Buffer, released: seq<Packet>)
    requires Ordered(b.packets) && b.bytes == Bytes(b.packets) && 0 <= limit
    ensures released + r.packets == b.packets && r == b.(packets := r.packets, bytes := Bytes(r.packets))
    ensures Duration(r.packets) <= limit && (b.packets != [] ==> r.packets != [])
    ensures AllOlder(released, b.packets, limit)
  {
    hide Ordered, Bytes;
    r, released := b, [];
    var n := 0;
    while Duration(r.packets) > limit
      invariant n <= |b.packets| && r.packets == b.packets[n..] && released == b.packets[..n]
      invariant r == b.(packets := r.packets, bytes := Bytes(r.packets))
      invariant b.packets != [] ==> r.packets != []
      invariant forall i :: 0 <= i < n ==> b.packets[|b.packets| - 1].dts - b.packets[i].dts > limit
      decreases |r.packets|
    {
      BytesHead(r.packets);
      released := released + [r.packets[0]];
      r := r.(packets := r.packets[1..], bytes := r.bytes - |r.packets[0].payload|);
      n := n + 1;
    }
  }

  lemma {:induction false} BytesHead(s: seq<Packet>)
    requires s != []
    ensures Bytes(s) == |s[0].payload| + Bytes(s[1..])
  {}

  predicate HasKey(s: seq<Packet>) { exists i :: 0 <= i < |s| && s[i].KeyVideo() }

  predicate NoKeyIn(s: seq<Packet>, from: nat, to: int) {
    to <= |s| && forall i :: from <= i < to ==> !s[i].KeyVideo()
  }

  /** Going on at any of the first n places that a key picture, or the front, offers leaves more than the target. */
  predicate TooLong(s: seq<Packet>, n: int, target: int) {
    n <= |s| && forall i :: 0 <= i < n && (i == 0 || s[i].KeyVideo()) ==> Duration(s[i..]) > target
  }

  predicate StartsWithKey(s: seq<Packet>) { s != [] && s[0].KeyVideo() }

  /** Where trimming ends: at the first place that leaves at most the target, or failing that at the last one. */
  predicate TrimsTo(s: seq<Packet>, target: int, k: nat) {
    && k <= |s| && (k > 0 ==> k < |s| && s[k].KeyVideo())
    && TooLong(s, k, target) && (Duration(s[k..]) > target ==> NoKeyIn(s, k + 1, |s|))
  }

  lemma {:induction false} TrimsToOnePlace(s: seq<Packet>, target: int, k: nat, m: nat)
    requires TrimsTo(s, target, k) && TrimsTo(s, target, m)
    ensures k == m
  {
    hide Duration;
  }

  ghost predicate TrimmedTo(s: seq<Packet>, target: int, rest: seq<Packet>) {
    exists k: nat :: TrimsTo(s, target, k) && rest == s[k..]
  }

  lemma {:induction false} TrimmedAt(s: seq<Packet>, target: int, k: nat)
    requires TrimsTo(s, target, k)
    ensures TrimmedTo(s, target, s[k..])
  {}

  predicate FirstKeyAt(s: seq<Packet>, f: nat) { f < |s| && s[f].KeyVideo() && NoKeyIn(s, 0, f) }

  /** Drops what precedes the first key picture, or the first one behind a key picture at the front. */
  method SkipToKey(b: Buffer, allowCurrent: bool) returns (r: Buffer, found: bool, ghost k: nat)
    requires b.bytes == Bytes(b.packets)
    ensures !found ==> r == b && k == 0
    ensures found ==> k < |b.packets| && b.packets[k].KeyVideo() && (!allowCurrent ==> 0 < k)
    ensures r == b.(packets := r.packets, bytes := Bytes(r.packets)) && k <= |b.packets| && r.packets == b.packets[k..]
    ensures found ==> StartsWithKey(r.packets)
    ensures allowCurrent ==> found == HasKey(b.packets)
    ensures NoKeyIn(b.packets, if allowCurrent then 0 else 1, if found then k else |b.packets|)
  {
    var n := if !allowCurrent && b.packets != [] && b.packets[0].KeyVideo() then 1 else 0;
    while n < |b.packets| && !b.packets[n].KeyVideo()
      invariant 0 <= n <= |b.packets|
      invariant !allowCurrent && b.packets != [] && b.packets[0].KeyVideo() ==> 0 < n
      invariant NoKeyIn(b.packets, if allowCurrent then 0 else 1, n)
      decreases |b.packets| - n
    {
      n := n + 1;
    }
    if n == |b.packets| {
      assert b.packets[0..] == b.packets;
      return b, false, 0;
    }
    CutBytes(b.packets, n);
    r, found, k := b.(packets := b.packets[n..], bytes := b.bytes - Bytes(b.packets[..n])), true, n;
  }

  lemma {:induction false} TooLongNone(s: seq<Packet>, target: int)
    ensures TooLong(s, 0, target)
  {}

  lemma {:induction false} TooLongStep(s: seq<Packet>, k: nat, n: nat, target: int)
    requires k + n <= |s| && TooLong(s, k, target) && Duration(s[k..]) > target && NoKeyIn(s[k..], 1, n)
    ensures TooLong(s, k + n, target)
  {
    hide Duration;
    forall i | k < i < k + n ensures !s[i].KeyVideo() {
      assert s[k..][i - k] == s[i];
    }
  }

  lemma {:induction false} NoKeyBehind(s: seq<Packet>, k: nat)
    requires k <= |s| && NoKeyIn(s[k..], 1, |s[k..]|)
    ensures NoKeyIn(s, k + 1, |s|)
  {
    forall i | k + 1 <= i < |s| ensures !s[i].KeyVideo() { assert s[k..][i - k] == s[i]; }
  }

  /** Drops whole groups of pictures, as few as possible, until at most the target is held; false if no number of them will do. */
  method TrimToTarget(b: Buffer, target: int) returns (r: Buffer, ok: bool, ghost k: nat)
    requires b.bytes == Bytes(b.packets) && 0 <= target
    ensures ok == (Duration(r.packets) <= target)
    ensures TooLong(b.packets, if ok then k else |b.packets|, target)
    ensures r == b.(packets := r.packets, bytes := Bytes(r.packets))
    ensures k <= |b.packets| && r.packets == b.packets[k..] && (k > 0 ==> k < |b.packets| && b.packets[k].KeyVideo())
    ensures TrimsTo(b.packets, target, k) && TrimmedTo(b.packets, target, r.packets)
  {
    hide Bytes, Duration, TooLong, NoKeyIn, TrimmedTo;
    TooLongNone(b.packets, target);
    r, k := b, 0;
    assert b.packets[0..] == b.packets;
    while Duration(r.packets) > target
      invariant k <= |b.packets| && r.packets == b.packets[k..] && (k > 0 ==> k < |b.packets| && b.packets[k].KeyVideo())
      invariant r == b.(packets := r.packets, bytes := Bytes(r.packets))
      invariant TooLong(b.packets, k, target)
      decreases |r.packets|
    {
      var found;
      ghost var n, was := 0, r.packets;
      r, found, n := SkipToKey(r, false);
      TooLongStep(b.packets, k, if found then n else |was|, target);
      if !found {
        NoKeyBehind(b.packets, k);
        TrimmedAt(b.packets, target, k);
        return r, false, k;
      }
      k := k + n;
    }
    TrimmedAt(b.packets, target, k);
    ok := true;
  }

  // The controller.

  /** What was accepted since the history was last cleared; where the rolling history starts in it; and, after a rewind,
      everything to be replayed and what of it was released. `current` says that the marks belong to this history. */
  datatype Trace = Trace(accepted: seq<Packet>, start: nat, replay: seq<Packet>, released: seq<Packet>, replaying: bool, current: bool)

  const CLEAR: Trace := Trace([], 0, [], [], false, true)

  predicate MarksOk(b: Buffer) {
    && (b.packets == [] ==> b.videoMark.None? && b.audioMark.None?)
    && (b.videoMark.Some? && b.packets != [] ==> b.videoMark.value <= b.packets[|b.packets| - 1].dts)
    && (b.audioMark.Some? && b.packets != [] ==> b.audioMark.value <= b.packets[|b.packets| - 1].dts)
  }

  predicate SuffixOf(s: seq<Packet>, all: seq<Packet>) {
    |s| <= |all| && s == all[|all| - |s|..]
  }

  /** A replay loses nothing, keeps the order, and starts with a key picture. */
  predicate Replays(b: Buffer, target: int, playback: Option<int>, t: Trace) {
    && playback.Some? && t.released + b.packets == t.replay && t.replay != [] && t.replay[0].KeyVideo()
    && Duration(b.packets) <= playback.value && (t.current ==> target <= playback.value)
  }

  /** The rolling history is what recomputation from everything accepted would keep. */
  predicate Rolled(b: Buffer, target: int, t: Trace) {
    t.start <= |t.accepted| && b.packets == Recent(t.accepted[t.start..], Cutoff(b, target))
  }

  /** Decode time of the last packet of a stream. */
  function LastOf(s: seq<Packet>, kind: Kind): Option<int> {
    if s == [] then None else if s[|s| - 1].kind == kind then Some(s[|s| - 1].dts) else LastOf(s[..|s| - 1], kind)
  }

  predicate Fresh(mark: Option<int>, s: seq<Packet>, kind: Kind) {
    LastOf(s, kind).Some? ==> mark == LastOf(s, kind)
  }

  /** What was accepted starts with a key picture and is in order, some of it is always held, and the marks are those of its
      streams once these have started. */
  predicate Historic(b: Buffer, t: Trace) {
    && Ordered(t.accepted) && Fresh(b.videoMark, t.accepted, Video) && Fresh(b.audioMark, t.accepted, Audio)
    && (t.accepted != [] ==> b.packets != [] && t.accepted[0].KeyVideo())
  }

  /** There is nothing left to roll. */
  predicate Settled(b: Buffer, target: int) { Latest(b.packets, Cutoff(b, target)) == 0 }

  predicate Kept(b: Buffer, m: Mode, target: int, playback: Option<int>, t: Trace) {
    && Historic(b, t) && (m.armed ==> Settled(b, target))
    && Ordered(b.packets) && b.bytes == Bytes(b.packets) && SuffixOf(b.packets, t.accepted)
    && 0 <= target && (playback.Some? ==> 0 <= playback.value)
    && (m.armed ==> 0 < target && !m.pendingTrim && !t.replaying && playback.None?)
    && (m.passthrough ==> m.armed)
    && (t.current ==> MarksOk(b))
    && (m.armed && t.current ==> Rolled(b, target, t))
    && (t.replaying ==> !m.pendingTrim && Replays(b, target, playback, t))
  }

  /** A packet in order is appended. */
  function Pushed(b: Buffer, q: Packet): Buffer {
    b.(packets := b.packets + [q], bytes := b.bytes + |q.payload|,
       videoMark := if q.kind.Video? then Some(q.dts) else b.videoMark, audioMark := if q.kind.Audio? then Some(q.dts) else b.audioMark)
  }

  predicate InOrder(b: Buffer, q: Packet) {
    b.packets != [] ==> b.packets[|b.packets| - 1].dts <= q.dts
  }

  lemma {:induction false} PushKeeps(b: Buffer, m: Mode, target: int, t: Trace, q: Packet)
    requires Ordered(b.packets) && b.bytes == Bytes(b.packets) && SuffixOf(b.packets, t.accepted) && InOrder(b, q)
    ensures var u := Pushed(b, q);
      && Ordered(u.packets) && u.bytes == Bytes(u.packets) && SuffixOf(u.packets, t.accepted + [q])
      && (MarksOk(b) ==> MarksOk(u) && NotLater(Cutoff(b, target), Cutoff(u, target)))
  {
    hide Bytes, SuffixOf;
    PushedSuffix(b, t.accepted, q);
  }

  lemma {:induction false} PushedSuffix(b: Buffer, accepted: seq<Packet>, q: Packet)
    requires b.bytes == Bytes(b.packets) && SuffixOf(b.packets, accepted)
    ensures Pushed(b, q).bytes == Bytes(Pushed(b, q).packets) && SuffixOf(Pushed(b, q).packets, accepted + [q])
  {
    BytesConcat(b.packets, [q]);
    assert Bytes([q]) == |q.payload|;
    assert (accepted + [q])[|accepted| - |b.packets|..] == b.packets + [q];
  }

  lemma {:induction false} PushHistoric(b: Buffer, t: Trace, q: Packet, t': Trace)
    requires Historic(b, t) && SuffixOf(b.packets, t.accepted) && InOrder(b, q) && (b.packets == [] ==> q.KeyVideo())
    requires t'.accepted == t.accepted + [q]
    ensures Historic(Pushed(b, q), t')
  {
    hide LastOf;
    LastOfSnoc(t.accepted, q, Video);
    LastOfSnoc(t.accepted, q, Audio);
    if b.packets != [] { assert b.packets[|b.packets| - 1] == t.accepted[|t.accepted| - 1]; }
    forall i | 0 <= i < |t.accepted| ensures t.accepted[i].dts <= q.dts {
      assert t.accepted[i].dts <= t.accepted[|t.accepted| - 1].dts;
    }
  }

  lemma {:induction false} LastOfSnoc(s: seq<Packet>, q: Packet, kind: Kind)
    ensures LastOf(s + [q], kind) == if q.kind == kind then Some(q.dts) else LastOf(s, kind)
  {
    assert (s + [q])[..|s|] == s;
  }

  /** Only the front of the buffer, and what is not history, may change. */
  lemma {:induction false} SameHistory(b: Buffer, t: Trace, r: Buffer, t': Trace)
    requires Historic(b, t) && t'.accepted == t.accepted && r.videoMark == b.videoMark && r.audioMark == b.audioMark
    requires b.packets != [] ==> r.packets != []
    ensures Historic(r, t')
  {}

  /** Every picture follows its key picture within `gap`. */
  predicate KeysWithin(s: seq<Packet>, gap: int) {
    forall i, j :: 0 <= i < j < |s| && s[i].KeyVideo() && s[j].kind.Video? && (forall m :: i < m < j ==> !s[m].KeyVideo()) ==>
      s[j].dts - s[i].dts <= gap
  }

  /** Both streams have started, and their last packets are at most `skew` apart. */
  predicate SkewWithin(s: seq<Packet>, skew: int) {
    && LastOf(s, Video).Some? && LastOf(s, Audio).Some?
    && LastOf(s, Video).value - LastOf(s, Audio).value <= skew && LastOf(s, Audio).value - LastOf(s, Video).value <= skew
  }

  lemma {:induction false} KeyGap(s: seq<Packet>, gap: int, i: nat, j: nat)
    requires KeysWithin(s, gap) && i < j < |s| && s[i].KeyVideo() && s[j].kind.Video?
    requires forall m :: i < m < j ==> !s[m].KeyVideo()
    ensures s[j].dts - s[i].dts <= gap
  {}

  lemma {:induction false} LastOfAt(s: seq<Packet>, kind: Kind) returns (k: nat)
    requires LastOf(s, kind).Some?
    ensures k < |s| && s[k].kind == kind && s[k].dts == LastOf(s, kind).value && forall i :: k < i < |s| ==> s[i].kind != kind
  {
    if s[|s| - 1].kind == kind {
      k := |s| - 1;
    } else {
      k := LastOfAt(s[..|s| - 1], kind);
    }
  }

  /** The last key picture up to place f. */
  lemma {:induction false} KeyUpTo(s: seq<Packet>, f: nat) returns (p: nat)
    requires f < |s| && s[0].KeyVideo()
    ensures p <= f && s[p].KeyVideo() && forall m :: p < m <= f ==> !s[m].KeyVideo()
  {
    p := f;
    while !s[p].KeyVideo()
      invariant p <= f && forall m :: p < m <= f ==> !s[m].KeyVideo()
      decreases p
    {
      p := p - 1;
    }
  }

  lemma {:induction false} KeyAfter(s: seq<Packet>, f: nat) returns (n: nat)
    requires f < |s|
    ensures f < n <= |s| && (n < |s| ==> s[n].KeyVideo()) && forall m :: f < m < n ==> !s[m].KeyVideo()
  {
    n := f + 1;
    while n < |s| && !s[n].KeyVideo()
      invariant f < n <= |s| && forall m :: f < m < n ==> !s[m].KeyVideo()
    {
      n := n + 1;
    }
  }

  /** The front of a settled history is at most the target and a key gap older than the slower stream. */
  lemma {:induction false} FrontRecent(b: Buffer, t: Trace, target: int, gap: int)
    requires Historic(b, t) && Settled(b, target) && SuffixOf(b.packets, t.accepted) && t.accepted != []
    requires 0 <= target && 0 <= gap && KeysWithin(t.accepted, gap)
    requires LastOf(t.accepted, Video).Some? && LastOf(t.accepted, Audio).Some?
    ensures Min(LastOf(t.accepted, Video).value, LastOf(t.accepted, Audio).value) - b.packets[0].dts <= target + gap
  {
    hide Ordered, KeysWithin, LastOf, Latest;
    var s, f := t.accepted, |t.accepted| - |b.packets|;
    var p := KeyUpTo(s, f);
    var n := KeyAfter(s, f);
    InOrderAt(s, p, f);
    if n < |s| {
      KeyGap(s, gap, p, n);
      LatestIsLatest(b.packets, Cutoff(b, target));
      assert s[n] == b.packets[n - f];
    } else {
      var v := LastOfAt(s, Video);
      if p < v { KeyGap(s, gap, p, v); }
    }
  }

  lemma {:induction false} InOrderAt(s: seq<Packet>, i: nat, j: nat)
    requires Ordered(s) && i <= j < |s|
    ensures s[i].dts <= s[j].dts
  {}

  /** The span of a settled history is at most the target, a key gap and the skew of the streams. */
  lemma {:induction false} HistorySpan(b: Buffer, t: Trace, target: int, gap: int, skew: int)
    requires Historic(b, t) && Settled(b, target) && SuffixOf(b.packets, t.accepted) && 0 <= target
    requires 0 <= gap && 0 <= skew && KeysWithin(t.accepted, gap) && SkewWithin(t.accepted, skew)
    ensures Duration(b.packets) <= target + gap + skew
  {
    hide Ordered, KeysWithin, Latest, Settled;
    FrontRecent(b, t, target, gap);
    var s := t.accepted;
    assert b.packets[|b.packets| - 1] == s[|s| - 1];
  }

  /** Rolled is rolled. */
  lemma {:induction false} RollSettles(s: seq<Packet>, c: Option<int>)
    ensures Latest(Recent(s, c), c) == 0
  {
    hide Latest;
    var r := Recent(s, c);
    LatestIsLatest(s, c);
    forall i | 0 < i < |r| && r[i].KeyVideo() && c.Some? ensures c.value < r[i].dts {
      assert r[i] == s[Latest(s, c) + i];
    }
    if r != [] { LatestIs(r, c, 0); } else { RollNothing(r); }
  }

  /** Rolling after a push still agrees with recomputation. */
  lemma {:induction false} RolledPush(b: Buffer, target: int, t: Trace, q: Packet, r: Buffer)
    requires Rolled(b, target, t) && NotLater(Cutoff(b, target), Cutoff(Pushed(b, q), target))
    requires r == Pushed(b, q).(packets := Recent(Pushed(b, q).packets, Cutoff(Pushed(b, q), target)), bytes := r.bytes)
    ensures Rolled(r, target, t.(accepted := t.accepted + [q]))
  {
    hide Recent, NotLater;
    var s := t.accepted[t.start..];
    RollAgain(s, q, Cutoff(b, target), Cutoff(Pushed(b, q), target));
    assert (t.accepted + [q])[t.start..] == s + [q];
  }

  lemma {:induction false} RecentSuffix(s: seq<Packet>, c: Option<int>, all: seq<Packet>)
    requires SuffixOf(s, all) && Ordered(s)
    ensures SuffixOf(Recent(s, c), all) && Ordered(Recent(s, c)) && (s != [] ==> Recent(s, c) != [] && Recent(s, c)[|Recent(s, c)| - 1] == s[|s| - 1])
  {
    hide Latest;
  }

  lemma {:induction false} DropSuffix(s: seq<Packet>, k: nat, all: seq<Packet>)
    requires SuffixOf(s, all) && Ordered(s) && k <= |s|
    ensures SuffixOf(s[k..], all) && Ordered(s[k..]) && (k < |s| ==> s[k..][|s[k..]| - 1] == s[|s| - 1])
  {}

  lemma {:induction false} SuffixDrop(s: seq<Packet>, k: nat, all: seq<Packet>)
    requires SuffixOf(s, all) && k <= |s|
    ensures SuffixOf(s[k..], all)
  {
    assert s[k..] == all[|all| - |s| + k..];
  }

  lemma {:induction false} SuffixOfSuffix(s: seq<Packet>, mid: seq<Packet>, all: seq<Packet>)
    requires SuffixOf(s, mid) && SuffixOf(mid, all)
    ensures SuffixOf(s, all)
  {
    SuffixDrop(mid, |mid| - |s|, all);
  }

  lemma {:induction false} LimitIs(b: Buffer, maxBytes: int, maxDelay: int)
    requires b.bytes == Bytes(b.packets)
    ensures OverLimit(b.packets, maxBytes, maxDelay) <==>
      b.bytes > maxBytes || |b.packets| > HISTORY_PACKETS || Duration(b.packets) > maxDelay + HISTORY_SLACK
  {}

  lemma {:induction false} Holds(s: seq<Packet>, c: Option<int>)
    ensures s != [] ==> Recent(s, c) != [] && Recent(s, c)[|Recent(s, c)| - 1] == s[|s| - 1]
    ensures Duration(s) > 0 ==> s != []
  {
    hide Latest;
  }

  lemma {:induction false} SuffixSelf(s: seq<Packet>)
    ensures SuffixOf(s, s) && SameLast(s, s)
  {}

  lemma {:induction false} SuffixNone(s: seq<Packet>)
    ensures SuffixOf([], s)
  {}

  // The clock of the packets handed in.

  predicate Behind(s: seq<Packet>, last: Option<int>) {
    s != [] ==> last.Some? && s[|s| - 1].dts <= last.value
  }

  lemma {:induction false} BehindNext(b: Buffer, last: Option<int>, p: Packet)
    requires Behind(b.packets, last) && (last.Some? ==> last.value <= p.dts)
    ensures InOrder(b, p) && Behind(b.packets, Some(p.dts))
  {}

  lemma {:induction false} EndsBehind(s: seq<Packet>, p: Packet)
    ensures EndsWith(s, p) ==> Behind(s, Some(p.dts))
  {}

  lemma {:induction false} RecentBehind(s: seq<Packet>, c: Option<int>, last: Option<int>)
    requires Behind(s, last)
    ensures Behind(Recent(s, c), last)
  {
    hide Latest;
  }

  lemma {:induction false} SuffixBehind(s: seq<Packet>, last: Option<int>)
    requires Behind(s, last)
    ensures forall r :: SuffixOf(r, s) ==> Behind(r, last)
  {}

  lemma {:induction false} NothingBehind(last: Option<int>)
    ensures Behind([], last) && Behind([], None)
  {}

  lemma {:induction false} SuffixNothing(s: seq<Packet>)
    ensures SuffixOf(s, []) ==> s == []
  {}

  /** Without a restart the clock is that of the encoder. */
  lemma {:induction false} Plain(base: TimeBase, p: Packet)
    requires base.offset == None && !base.rebase && InRange(p.dts) && InRange(p.pts)
    ensures Normalized(base, p) == Some(p)
  {}

  // Steps of the controller on values.

  function Ended(t: Trace): Trace { t.(replaying := false) }

  lemma {:induction false} ClearKept(m: Mode, target: int, bounds: Buffer, current: bool)
    requires 0 <= target && !m.passthrough && (m.armed ==> 0 < target && !m.pendingTrim && current)
    requires bounds.packets == [] && bounds.bytes == 0 && (current ==> bounds == EMPTY)
    ensures Kept(bounds, m, target, None, CLEAR.(current := current))
  {}

  lemma {:induction false} ModeKept(b: Buffer, m: Mode, m': Mode, target: int, playback: Option<int>, t: Trace)
    requires Kept(b, m, target, playback, t) && m'.armed == m.armed && m'.pendingTrim == m.pendingTrim && (m'.passthrough ==> m.armed)
    ensures Kept(b, m', target, playback, t)
  {}

  lemma {:induction false} FrontBack(s: seq<Packet>)
    requires Ordered(s) && s != []
    ensures s[0].dts <= s[|s| - 1].dts
  {}

  lemma {:induction false} RewindKept(b: Buffer, m: Mode, target: int, t: Trace)
    requires Kept(b, m, target, None, t) && m.armed && b.packets != [] && b.packets[0].KeyVideo()
    requires b.videoMark.Some? && b.audioMark.Some? && Min(b.videoMark.value, b.audioMark.value) - b.packets[0].dts >= target
    ensures Kept(b, m.(passthrough := false, armed := false), target, Some(b.packets[|b.packets| - 1].dts - b.packets[0].dts),
                 t.(replay := b.packets, released := [], replaying := true))
  {
    hide Recent, Bytes, SuffixOf, Ordered, Historic, Latest;
    assert [] + b.packets == b.packets;
    SameHistory(b, t, b, t.(replay := b.packets, released := [], replaying := true));
    FrontBack(b.packets);
  }

  lemma {:induction false} ResumeKept(b: Buffer, m: Mode, target: int, playback: Option<int>, t: Trace)
    requires Kept(b, m, target, playback, t) && 0 < target
    ensures Kept(b.(packets := Recent(b.packets, Cutoff(b, target)), bytes := Bytes(Recent(b.packets, Cutoff(b, target)))),
                 m.(armed := true, passthrough := true, waiting := true, pendingTrim := false), target, None,
                 Ended(t).(start := |t.accepted| - |b.packets|))
  {
    hide Bytes, Latest, Ordered, Historic;
    RecentSuffix(b.packets, Cutoff(b, target), t.accepted);
    RollSettles(b.packets, Cutoff(b, target));
    SameHistory(b, t, b.(packets := Recent(b.packets, Cutoff(b, target)), bytes := Bytes(Recent(b.packets, Cutoff(b, target)))),
                Ended(t).(start := |t.accepted| - |b.packets|));
  }

  lemma {:induction false} TargetKept(b: Buffer, m: Mode, target: int, playback: Option<int>, t: Trace, target': int, trim: bool)
    requires Kept(b, m, target, playback, t) && !m.armed && 0 <= target'
    ensures Kept(b, m.(pendingTrim := trim), target', None, Ended(t))
    ensures Kept(b, m.(pendingTrim := trim), target, None, Ended(t))
  {}

  /** Packets went from the front of a queue to the end of what is ready, in order. */
  predicate Moved(ready: seq<Packet>, ready': seq<Packet>, from: seq<Packet>, rest: seq<Packet>) {
    ready <= ready' && ready'[|ready|..] + rest == from
  }

  /** The same, after the front of the queue was dropped. */
  ghost predicate Passed(ready: seq<Packet>, ready': seq<Packet>, whole: seq<Packet>, rest: seq<Packet>) {
    exists from :: SuffixOf(from, whole) && Moved(ready, ready', from, rest)
  }

  lemma {:induction false} PassedFrom(ready: seq<Packet>, ready': seq<Packet>, whole: seq<Packet>, from: seq<Packet>, rest: seq<Packet>)
    requires SuffixOf(from, whole) && Moved(ready, ready', from, rest)
    ensures Passed(ready, ready', whole, rest)
  {}

  lemma {:induction false} NothingMoved(ready: seq<Packet>, rest: seq<Packet>)
    ensures Moved(ready, ready, rest, rest)
  {}

  lemma {:induction false} Unmoved(ready: seq<Packet>, s: seq<Packet>)
    ensures Moved(ready, ready, s, s) && SameLast(s, s)
  {}

  lemma {:induction false} MovedFront(ready: seq<Packet>, released: seq<Packet>, rest: seq<Packet>)
    ensures Moved(ready, ready + released, released + rest, rest)
    ensures rest != [] ==> SameLast(released + rest, rest)
  {}

  lemma {:induction false} LastIs(s: seq<Packet>, q: Packet, r: seq<Packet>)
    requires EndsWith(s, q)
    ensures SameLast(s, r) ==> EndsWith(r, q)
  {}

  predicate EndsWith(s: seq<Packet>, q: Packet) { s != [] && s[|s| - 1] == q }

  predicate SameLast(s: seq<Packet>, r: seq<Packet>) {
    s != [] ==> r != [] && r[|r| - 1] == s[|s| - 1]
  }

  lemma {:induction false} SameLastTwice(s: seq<Packet>, r: seq<Packet>, u: seq<Packet>)
    requires SameLast(s, r)
    ensures SameLast(s, s) && (SameLast(r, u) ==> SameLast(s, u))
  {}

  /** Dropping the front of an unarmed history. */
  lemma {:induction false} DropKept(b: Buffer, r: Buffer, m: Mode, m': Mode, target: int, playback: Option<int>, t: Trace, k: nat)
    requires Kept(b, m, target, playback, t) && !m.armed && !t.replaying && k <= |b.packets| && (k > 0 ==> k < |b.packets|)
    requires r == b.(packets := r.packets, bytes := Bytes(r.packets)) && r.packets == b.packets[k..]
    requires m' == m.(pendingTrim := m'.pendingTrim)
    ensures Kept(r, m', target, playback, t) && SuffixOf(r.packets, b.packets) && SameLast(b.packets, r.packets)
  {
    hide Bytes, Ordered, SuffixOf, Historic, Settled, MarksOk, Rolled, Replays, Recent;
    DropSuffix(b.packets, k, t.accepted);
    SuffixSelf(b.packets);
    SuffixDrop(b.packets, k, b.packets);
    SameHistory(b, t, r, t);
    MarksStay(b, r);
  }

  lemma {:induction false} MarksStay(b: Buffer, r: Buffer)
    requires r.videoMark == b.videoMark && r.audioMark == b.audioMark && SameLast(b.packets, r.packets)
    requires b.packets == [] ==> r.packets == []
    ensures MarksOk(b) ==> MarksOk(r)
  {}

  lemma {:induction false} EndedKept(b: Buffer, m: Mode, target: int, playback: Option<int>, t: Trace)
    requires Kept(b, m, target, playback, t)
    ensures Kept(b, m, target, playback, Ended(t))
  {}

  /** A packet behind an unarmed history. */
  lemma {:induction false} PushKept(b: Buffer, m: Mode, target: int, playback: Option<int>, t: Trace, q: Packet)
    requires Kept(b, m, target, playback, t) && InOrder(b, q) && !m.armed && (b.packets == [] ==> q.KeyVideo())
    ensures Kept(Pushed(b, q), m, target, playback, Ended(t).(accepted := t.accepted + [q]))
    ensures t.replaying ==> t.released + Pushed(b, q).packets == t.replay + [q]
  {
    hide Bytes, Ordered, SuffixOf, Recent, Historic;
    PushKeeps(b, m, target, t, q);
    PushHistoric(b, t, q, Ended(t).(accepted := t.accepted + [q]));
    assert t.released + (b.packets + [q]) == t.released + b.packets + [q];
  }

  /** A packet behind a rolling history. */
  lemma {:induction false} RollKept(b: Buffer, m: Mode, target: int, t: Trace, q: Packet)
    requires Kept(b, m, target, None, t) && InOrder(b, q) && m.armed && (b.packets == [] ==> q.KeyVideo())
    ensures var u := Pushed(b, q); var s := Recent(u.packets, Cutoff(u, target));
      Kept(u.(packets := s, bytes := Bytes(s)), m, target, None, t.(accepted := t.accepted + [q]))
  {
    hide Bytes, Ordered, Recent, SuffixOf, Historic, Latest;
    var u := Pushed(b, q);
    PushKeeps(b, m, target, t, q);
    RecentSuffix(u.packets, Cutoff(u, target), t.accepted + [q]);
    RollSettles(u.packets, Cutoff(u, target));
    PushHistoric(b, t, q, t.(accepted := t.accepted + [q]));
    SameHistory(u, t.(accepted := t.accepted + [q]),
                u.(packets := Recent(u.packets, Cutoff(u, target)), bytes := Bytes(Recent(u.packets, Cutoff(u, target)))),
                t.(accepted := t.accepted + [q]));
    if t.current {
      RolledPush(b, target, t, q, u.(packets := Recent(u.packets, Cutoff(u, target)), bytes := Bytes(Recent(u.packets, Cutoff(u, target)))));
    }
  }

  /** Releasing from the front. */
  lemma {:induction false} ReleaseKept(b: Buffer, m: Mode, target: int, playback: Option<int>, t: Trace, released: seq<Packet>, rest: seq<Packet>, replaying: bool)
    requires Kept(b, m, target, playback, t) && !m.armed && !t.replaying && b.packets == released + rest && (b.packets != [] ==> rest != [])
    requires replaying ==> !m.pendingTrim && playback.Some? && Duration(rest) <= playback.value && (t.current ==> target <= playback.value)
    requires replaying ==> t.released + b.packets == t.replay && t.replay != [] && t.replay[0].KeyVideo()
    ensures Kept(b.(packets := rest, bytes := Bytes(rest)), m, target, playback, t.(released := t.released + released, replaying := replaying))
  {
    hide Bytes, Ordered, SuffixOf, Historic, Settled, MarksOk, Rolled, Recent, Duration, Replays;
    var r, u := b.(packets := rest, bytes := Bytes(rest)), t.(released := t.released + released, replaying := replaying);
    ReleaseFront(released, rest, b.packets);
    DropSuffix(b.packets, |released|, t.accepted);
    SameHistory(b, t, r, u);
    MarksStay(b, r);
    if replaying { ReplayGoesOn(b, r, target, playback, t, u, released); }
  }

  lemma {:induction false} ReleaseFront(released: seq<Packet>, rest: seq<Packet>, whole: seq<Packet>)
    requires whole == released + rest && (whole != [] ==> rest != [])
    ensures |released| <= |whole| && whole[|released|..] == rest && SameLast(whole, rest)
  {}

  lemma {:induction false} ReplayGoesOn(b: Buffer, r: Buffer, target: int, playback: Option<int>, t: Trace, u: Trace, released: seq<Packet>)
    requires b.packets == released + r.packets && u.released == t.released + released && u.replay == t.replay && u.current == t.current
    requires playback.Some? && Duration(r.packets) <= playback.value && (t.current ==> target <= playback.value)
    requires t.released + b.packets == t.replay && t.replay != [] && t.replay[0].KeyVideo()
    ensures Replays(r, target, playback, u)
  {
    hide Duration;
    assert t.released + (released + r.packets) == (t.released + released) + r.packets;
  }

  // Live.

  /** Place of the first key picture, or the end. */
  function FirstKey(s: seq<Packet>): (k: nat)
    ensures k <= |s|
  {
    if s == [] || s[0].KeyVideo() then 0 else 1 + FirstKey(s[1..])
  }

  function NoOlderSound(s: seq<Packet>, from: int): seq<Packet> {
    if s == [] then []
    else NoOlderSound(s[..|s| - 1], from) + if s[|s| - 1].kind.Audio? && s[|s| - 1].dts < from then [] else [s[|s| - 1]]
  }

  /** What goes out of a live stream: everything from the first key picture on, without sound that is older than it. */
  function LiveOut(s: seq<Packet>): seq<Packet> {
    var k := FirstKey(s);
    if k == |s| then [] else NoOlderSound(s[k..], s[k].dts)
  }

  predicate LiveKept(s: seq<Packet>, waiting: bool, liveKey: int, out: seq<Packet>) {
    var k := FirstKey(s);
    waiting == (k == |s|) && (k < |s| ==> liveKey == s[k].dts) && out == LiveOut(s)
  }

  lemma {:induction false} FirstKeySnoc(s: seq<Packet>, q: Packet)
    ensures FirstKey(s + [q]) == if FirstKey(s) < |s| then FirstKey(s) else if q.KeyVideo() then |s| else |s| + 1
    ensures FirstKey(s) < |s| ==> s[FirstKey(s)].KeyVideo()
  {
    if s == [] {
      assert [q][1..] == [];
    } else {
      assert (s + [q])[1..] == s[1..] + [q];
      FirstKeySnoc(s[1..], q);
    }
  }

  lemma {:induction false} NoOlderSoundSnoc(s: seq<Packet>, q: Packet, from: int)
    ensures NoOlderSound(s + [q], from) == NoOlderSound(s, from) + if q.kind.Audio? && q.dts < from then [] else [q]
  {
    assert (s + [q])[..|s|] == s;
  }

  lemma {:induction false} LiveGoesOn(s: seq<Packet>, waiting: bool, liveKey: int, out: seq<Packet>, q: Packet)
    requires LiveKept(s, waiting, liveKey, out)
    ensures LiveKept(s + [q], waiting && !q.KeyVideo(), if waiting && q.KeyVideo() then q.dts else liveKey, out + Emitted(waiting, liveKey, q))
  {
    hide FirstKey, NoOlderSound;
    var k := FirstKey(s);
    FirstKeySnoc(s, q);
    if k < |s| {
      assert (s + [q])[k..] == s[k..] + [q];
      NoOlderSoundSnoc(s[k..], q, s[k].dts);
    } else if q.KeyVideo() {
      assert (s + [q])[|s|..] == [q];
      OneSound(q);
    }
  }

  lemma {:induction false} SoundKept(s: seq<Packet>, from: int, i: nat)
    requires i < |s| && (s[i].kind.Video? || from <= s[i].dts)
    ensures s[i] in NoOlderSound(s, from)
  {
    if i < |s| - 1 { SoundKept(s[..|s| - 1], from, i); }
  }

  lemma {:induction false} OneSound(q: Packet)
    requires q.KeyVideo()
    ensures NoOlderSound([q], q.dts) == [q]
  {
    assert [q][..0] == [];
  }

  lemma {:induction false} LiveTaken(taken: seq<Packet>, ready: seq<Packet>)
    ensures (taken + ready) + [] == taken + ready
  {}

  lemma {:induction false} LiveReady(taken: seq<Packet>, ready: seq<Packet>, more: seq<Packet>)
    ensures taken + (ready + more) == (taken + ready) + more
  {}

  /** A live packet goes out unless live still waits for its key picture, and sound only from the time of that picture on. */
  function Emitted(waiting: bool, liveKey: int, q: Packet): seq<Packet> {
    if (waiting && !q.KeyVideo()) || (q.kind.Audio? && q.dts < liveKey) then [] else [q]
  }

  /** A packet arrives during a replay: some packets are released, in order, each more than the playback delay older than
      the newest. */
  predicate ReplayStep(t: Trace, t': Trace, ready: seq<Packet>, ready': seq<Packet>, q: Packet, playback: Option<int>) {
    && t'.replaying && t'.replay == t.replay + [q]
    && t.released <= t'.released && ready' == ready + t'.released[|t.released|..]
    && playback.Some? && forall i :: |t.released| <= i < |t'.released| ==> q.dts - t'.released[i].dts > playback.value
  }

  /** A packet has arrived behind a replay that goes on. */
  predicate Replaying(b: Buffer, m: Mode, target: int, playback: Option<int>, before: Trace, q: Packet) {
    && playback.Some? && !m.pendingTrim && before.released + b.packets == before.replay + [q]
    && before.replay != [] && before.replay[0].KeyVideo() && (before.current ==> target <= playback.value)
  }

  /** Releases from the front exactly while more than `limit` is held. */
  predicate PaidOut(ready: seq<Packet>, ready': seq<Packet>, from: seq<Packet>, rest: seq<Packet>, limit: int) {
    && Moved(ready, ready', from, rest) && Duration(rest) <= limit
    && forall i :: |ready| <= i < |ready'| ==> from[|from| - 1].dts - ready'[i].dts > limit
  }

  /** A pending trim drops the front up to place k. */
  predicate Trimmed(s: seq<Packet>, trim: bool, target: int, k: nat) {
    if trim then TrimsTo(s, target, k) else k == 0
  }

  /** A buffer that is long enough begins to be delayed at its first key picture, and fails if it has none. */
  predicate Begun(s: seq<Packet>, state: State, target: int, rest: seq<Packet>, state': State) {
    if state == BuildingDelay && Duration(s) >= target then
      if HasKey(s) then state' == Delayed && StartsWithKey(rest) && DropsToKey(s, rest) else state' == Error && rest == s
    else state' == state && rest == s
  }

  predicate DropsToKey(s: seq<Packet>, rest: seq<Packet>) {
    |rest| <= |s| && FirstKeyAt(s, |s| - |rest|) && rest == s[|s| - |rest|..]
  }

  /** promote: what becomes of the held packets s. First a pending trim, and nothing else while it leaves too much; then the
      switch from building to delayed; then what is older than the delay goes out. */
  ghost predicate Promoted(s: seq<Packet>, trim: bool, state: State, target: int, limit: int, ready: seq<Packet>,
                           s': seq<Packet>, trim': bool, state': State, ready': seq<Packet>) {
    exists k: nat, begun: seq<Packet> :: PromotedFrom(k, begun, s, trim, state, target, limit, ready, s', trim', state', ready')
  }

  predicate PromotedFrom(k: nat, begun: seq<Packet>, s: seq<Packet>, trim: bool, state: State, target: int, limit: int,
                         ready: seq<Packet>, s': seq<Packet>, trim': bool, state': State, ready': seq<Packet>) {
    && k <= |s| && Trimmed(s, trim, target, k) && trim' == (trim && Duration(s[k..]) > target)
    && if trim' then begun == s[k..] && s' == s[k..] && state' == state && ready' == ready
       else Begun(s[k..], state, target, begun, state') && OutOf(begun, state', limit, ready, s', ready')
  }

  predicate OutOf(begun: seq<Packet>, state: State, limit: int, ready: seq<Packet>, s': seq<Packet>, ready': seq<Packet>) {
    if state == Delayed then PaidOut(ready, ready', begun, s', limit) else s' == begun && ready' == ready
  }

  predicate OverLimit(s: seq<Packet>, maxBytes: int, maxDelay: int) {
    Bytes(s) > maxBytes || |s| > HISTORY_PACKETS || Duration(s) > maxDelay + HISTORY_SLACK
  }

  /** The trace after a release. */
  ghost function Later(t: Trace, before: Trace, q: Packet, released: seq<Packet>): Trace {
    t.(replay := if before.replaying then before.replay + [q] else t.replay, released := t.released + released, replaying := before.replaying)
  }

  lemma {:induction false} EndsNow(s: seq<Packet>, q: Packet)
    ensures EndsWith(s + [q], q)
  {}

  /** What a release means for a replay. */
  lemma {:induction false} SteppedReplay(before: Trace, t: Trace, released: seq<Packet>, from: seq<Packet>, ready: seq<Packet>, q: Packet, playback: Option<int>)
    requires t.replay == before.replay + [q] && t.released == before.released && playback.Some? && EndsWith(from, q)
    requires AllOlder(released, from, playback.value)
    ensures ReplayStep(before, t.(released := t.released + released, replaying := true), ready, ready + released, q, playback)
  {
    assert forall i :: |t.released| <= i < |t.released + released| ==> (t.released + released)[i] == released[i - |t.released|];
    assert (t.released + released)[|t.released|..] == released;
  }

  lemma {:induction false} SkippedToKey(s: seq<Packet>, rest: seq<Packet>, k: nat)
    requires k < |s| && s[k].KeyVideo() && NoKeyIn(s, 0, k) && rest == s[k..]
    ensures DropsToKey(s, rest)
  {}

  lemma {:induction false} PaidFront(ready: seq<Packet>, released: seq<Packet>, from: seq<Packet>, rest: seq<Packet>, limit: int)
    requires from == released + rest && Duration(rest) <= limit
    requires AllOlder(released, from, limit)
    ensures PaidOut(ready, ready + released, from, rest, limit)
  {
    hide Duration;
    MovedFront(ready, released, rest);
    assert forall i :: |ready| <= i < |ready + released| ==> (ready + released)[i] == released[i - |ready|];
  }

  lemma {:induction false} PromotedAs(k: nat, begun: seq<Packet>, s: seq<Packet>, trim: bool, state: State, target: int, limit: int,
                                      ready: seq<Packet>, s': seq<Packet>, trim': bool, state': State, ready': seq<Packet>)
    requires k <= |s| && Trimmed(s, trim, target, k) && trim' == (trim && Duration(s[k..]) > target)
    requires trim' ==> begun == s[k..] && s' == s[k..] && state' == state && ready' == ready
    requires !trim' ==> Begun(s[k..], state, target, begun, state') && OutOf(begun, state', limit, ready, s', ready')
    ensures Promoted(s, trim, state, target, limit, ready, s', trim', state', ready')
  {
    hide Trimmed, Begun, OutOf, Duration;
    assert PromotedFrom(k, begun, s, trim, state, target, limit, ready, s', trim', state', ready');
  }

  /** The controller between two calls: what it holds, and what it has released. */
  datatype Snapshot = Snapshot(buffer: Buffer, mode: Mode, state: State, ready: seq<Packet>) {
    /** Nothing is kept before a key picture. */
    predicate Skips(q: Packet) {
      (state == BuildingDelay || mode.passthrough) && buffer.packets == [] && !q.KeyVideo()
    }

    ghost function Releasing(more: seq<Packet>): Snapshot { this.(ready := ready + more) }
  }

  /** What becomes of a packet that is kept, as history, or to delay or replay it: s before, u after. */
  ghost predicate Stores(s: Snapshot, u: Snapshot, q: Packet, target: int, limit: int, maxBytes: int, maxDelay: int) {
    if s.Skips(q) then u.buffer == s.buffer && u.state == s.state && u.ready == s.ready
    else if !InOrder(s.buffer, q) then u.state == Error
    else if s.mode.armed then
      var r := Recent(s.buffer.packets + [q], Cutoff(Pushed(s.buffer, q), target));
      if OverLimit(r, maxBytes, maxDelay) then u.state == Error && u.buffer == EMPTY && u.ready == []
      else u.state != Error && u.buffer.packets == r && u.ready == s.ready && EndsWith(u.buffer.packets, q)
    else
      && (if Pushed(s.buffer, q).bytes > maxBytes then u.state == Error else
            Promoted(s.buffer.packets + [q], s.mode.pendingTrim, s.state, target, limit, s.ready,
                     u.buffer.packets, u.mode.pendingTrim, u.state, u.ready))
      && (u.state != Error ==> Passed(s.ready, u.ready, s.buffer.packets + [q], u.buffer.packets) && EndsWith(u.buffer.packets, q))
  }

  lemma {:induction false} StoresWhileWaiting(s: Snapshot, u: Snapshot, q: Packet, target: int, limit: int, maxBytes: int, maxDelay: int, waiting: bool)
    ensures Stores(s.(mode := s.mode.(waiting := waiting)), u, q, target, limit, maxBytes, maxDelay)
       <==> Stores(s, u, q, target, limit, maxBytes, maxDelay)
  {
    hide Recent, OverLimit, Cutoff, Passed, Promoted, Pushed, EndsWith;
  }

  /** A history to rewind to: its latest key picture that is `target` behind w, and sound behind that picture up to w. */
  predicate Replayable(h: seq<Packet>, w: int, target: int) {
    exists i, j :: 0 <= i <= j < |h| && h[i].KeyVideo() && h[i].dts + target <= w
      && NoneBefore(h, i + 1, w - target) && h[j].kind.Audio? && h[i].dts <= h[j].dts <= w
  }

  predicate NoneBefore(h: seq<Packet>, from: nat, time: int) {
    forall m :: from <= m < |h| && h[m].KeyVideo() ==> time < h[m].dts
  }

  /** The rolled history begins at that picture. */
  lemma {:induction false} RecentReplayable(h: seq<Packet>, w: int, target: int, i: int)
    requires 0 <= i < |h| && h[i].KeyVideo() && h[i].dts + target <= w && NoneBefore(h, i + 1, w - target)
    ensures Latest(h, Some(w - target)) == i
  {
    LatestIs(h, Some(w - target), i);
  }

  /** A rolled history that can be replayed from its front. */
  predicate ReplayableFront(s: seq<Packet>, w: int, target: int) {
    && s != [] && s[0].KeyVideo() && w - s[0].dts >= target
    && exists j :: 0 <= j < |s| && s[j].kind.Audio? && s[0].dts <= s[j].dts <= w
  }

  lemma {:induction false} ReplayableInFront(h: seq<Packet>, w: int, target: int)
    requires Replayable(h, w, target)
    ensures ReplayableFront(Recent(h, Some(w - target)), w, target)
  {
    hide Latest;
    var i, j :| 0 <= i <= j < |h| && h[i].KeyVideo() && h[i].dts + target <= w
      && NoneBefore(h, i + 1, w - target) && h[j].kind.Audio? && h[i].dts <= h[j].dts <= w;
    RecentReplayable(h, w, target, i);
    assert h[i..][j - i] == h[j];
  }

  lemma {:induction false} FrontIsReplayable(h: seq<Packet>, w: int, target: int)
    requires ReplayableFront(Recent(h, Some(w - target)), w, target)
    ensures Replayable(h, w, target)
  {
    hide Latest;
    var k, s := Latest(h, Some(w - target)), Recent(h, Some(w - target));
    var j :| 0 <= j < |s| && s[j].kind.Audio? && s[0].dts <= s[j].dts <= w;
    LatestIsLatest(h, Some(w - target));
    assert h[k + j] == s[j] && h[k] == s[0] && NoneBefore(h, k + 1, w - target);
  }

  class DelayController {
    const maxDelay: int
    const maxBytes: int
    var state: State
    var mode: Mode
    var target: int
    var playback: Option<int>
    var buffer: Buffer
    var ready: seq<Packet>
    var clock: TimeBase
    var liveKey: int
    ghost var trace: Trace
    ghost var live: seq<Packet>    // what arrived since live began, on the running clock
    ghost var taken: seq<Packet>   // what was taken of it

    /** What is held, and a replay, are in order. */
    ghost predicate Stored()
      reads this
    {
      && 0 <= maxDelay && (clock.offset.Some? ==> InRange(clock.offset.value))
      && Kept(buffer, mode, target, playback, trace) && (trace.replaying ==> state == Delayed)
      && (state == Delayed ==> buffer.packets != [])
    }

    /** While live, what went out is just what is to go out of everything that arrived since live began. */
    ghost predicate Valid()
      reads this
    {
      Stored() && (state == Live ==> LiveKept(live, mode.waiting, liveKey, taken + ready))
    }

    constructor (maxDelay: int, maxBytes: int)
      requires 0 <= maxDelay
      ensures Valid() && state == Live && this.maxDelay == maxDelay && this.maxBytes == maxBytes
      ensures buffer == EMPTY && ready == [] && clock == NO_CLOCK && !mode.armed && live == taken == []
    {
      this.maxDelay, this.maxBytes := maxDelay, maxBytes;
      state, mode, target, playback := Live, Mode(false, false, false, true, false), 0, None;
      buffer, ready, clock, liveKey, trace := EMPTY, [], TimeBase(None, None, false), 0, CLEAR;
      live, taken := [], [];
    }

    /** arm: an empty rolling history of the given length. */
    method Arm(length: int) returns (ok: bool)
      requires Valid()
      modifies this
      ensures Valid() && ok == (0 < length <= maxDelay)
      ensures ok ==> state == BuildingDelay && mode.armed && !mode.passthrough && target == length && trace == CLEAR && ready == []
      ensures ok ==> buffer == EMPTY && clock == NO_CLOCK && playback == None && !mode.rewind
      ensures !ok ==> unchanged(this)
    {
      hide Kept;
      if length <= 0 || length > maxDelay { return false; }
      buffer, ready, clock, playback, target, state := EMPTY, [], TimeBase(None, None, false), None, length, BuildingDelay;
      mode := Mode(true, false, false, mode.waiting, false);
      trace := CLEAR;
      ClearKept(mode, target, EMPTY, true);
      return true;
    }

    /** prebuffer_ready: a key picture at the front, old enough, with sound behind it. */
    predicate PrebufferReady()
      reads this
    {
      && mode.armed && state != Error && buffer.packets != [] && buffer.videoMark.Some? && buffer.audioMark.Some?
      && var w := Min(buffer.videoMark.value, buffer.audioMark.value);
      && buffer.packets[0].KeyVideo() && w - buffer.packets[0].dts >= target
      && exists i :: 0 <= i < |buffer.packets| && buffer.packets[i].kind.Audio? &&
           buffer.packets[0].dts <= buffer.packets[i].dts <= w
    }

    /** The history can be replayed exactly if everything accepted since it was last cleared or taken over has a key picture
        that is old enough, with sound in time behind the latest one. */
    lemma {:induction false} PrebufferReadyExactly()
      requires Valid() && mode.armed && state != Error && trace.current
      ensures PrebufferReady() <==>
        && buffer.videoMark.Some? && buffer.audioMark.Some?
        && Replayable(trace.accepted[trace.start..], Min(buffer.videoMark.value, buffer.audioMark.value), target)
    {
      hide Historic, Settled, SuffixOf, Replays, Ordered, Bytes, MarksOk, Replayable, LiveKept, Recent;
      if buffer.videoMark.Some? && buffer.audioMark.Some? {
        var h, w := trace.accepted[trace.start..], Min(buffer.videoMark.value, buffer.audioMark.value);
        if Replayable(h, w, target) { ReplayableInFront(h, w, target); }
        if ReplayableFront(Recent(h, Some(w - target)), w, target) { FrontIsReplayable(h, w, target); }
      }
    }

    /** While live, the owner has been given everything from the first key picture on, without sound older than it. */
    lemma {:induction false} LiveIsWhole(i: nat)
      requires Valid() && state == Live && i < |live|
      ensures taken + ready == LiveOut(live)
      ensures live[i] in taken + ready <== FirstKey(live) <= i && (live[i].kind.Video? || live[FirstKey(live)].dts <= live[i].dts)
    {
      hide Kept, FirstKey;
      var k := FirstKey(live);
      if k <= i && (live[i].kind.Video? || live[k].dts <= live[i].dts) {
        assert live[k..][i - k] == live[i];
        SoundKept(live[k..], live[k].dts, i - k);
      }
    }

    method StartLive() returns (ok: bool)
      requires Valid()
      modifies this`ready, this`mode, this`state, this`live, this`taken
      ensures Valid() && ok == old(mode.armed && !mode.passthrough && state != Error)
      ensures ok ==> state == Live && mode.passthrough && mode.rewind && mode.waiting && ready == [] && live == taken == []
      ensures !ok ==> state == old(state) && mode == old(mode) && ready == old(ready) && live == old(live) && taken == old(taken)
    {
      hide Kept;
      if !mode.armed || mode.passthrough || state.Error? { return false; }
      ArmedIdle();
      ModeKept(buffer, mode, mode.(passthrough := true, rewind := true, waiting := true), target, playback, trace);
      ready, mode, state := [], mode.(passthrough := true, rewind := true, waiting := true), Live;
      live, taken := [], [];
      return true;
    }

    lemma {:induction false} ArmedIdle()
      requires Stored()
      ensures mode.armed ==> !trace.replaying && playback == None && !mode.pendingTrim && 0 < target
      ensures mode.passthrough ==> mode.armed
      ensures 0 <= target && (playback.Some? ==> 0 <= playback.value) && Ordered(buffer.packets) && buffer.bytes == Bytes(buffer.packets)
      ensures trace.replaying ==> playback.Some? && Replays(buffer, target, playback, trace) && !mode.pendingTrim
    {}

    /** While it rolls, from arm on or again after a replay, the history spans at most the target, a key gap and the skew of
        the two streams, whatever was accepted. */
    lemma {:induction false} RollingSpan(gap: int, skew: int)
      requires Stored() && mode.armed && 0 <= gap && 0 <= skew
      requires KeysWithin(trace.accepted, gap) && SkewWithin(trace.accepted, skew)
      ensures Duration(buffer.packets) <= target + gap + skew
    {
      hide Historic, Settled, KeysWithin, SkewWithin, Rolled, Replays, Ordered, SuffixOf;
      HistorySpan(buffer, trace, target, gap, skew);
    }

    /** rewind: replays the kept history from its first key picture, at the age it has. */
    method Rewind() returns (ok: bool)
      requires Valid()
      modifies this`ready, this`mode, this`state, this`playback, this`trace
      ensures Valid() && ok == old(mode.passthrough && PrebufferReady())
      ensures ok ==> state == Delayed && ready == [] && trace.replaying && trace.replay == buffer.packets && trace.released == []
      ensures ok ==> buffer.packets[0].KeyVideo() && playback == Some(buffer.packets[|buffer.packets| - 1].dts - buffer.packets[0].dts)
      ensures !ok ==> state == old(state) && mode == old(mode) && ready == old(ready) && playback == old(playback)
    {
      hide Kept, Replays, Ordered, Bytes;
      if !mode.passthrough || !PrebufferReady() { return false; }
      ArmedIdle();
      RewindKept(buffer, mode, target, trace);
      ready, mode, state := [], mode.(passthrough := false, armed := false), Delayed;
      playback := Some(buffer.packets[|buffer.packets| - 1].dts - buffer.packets[0].dts);
      trace := trace.(replay := buffer.packets, released := [], replaying := true);
      return true;
    }

    /** resume_live: what was not replayed yet becomes the rolling history of the next rewind. */
    method ResumeLive() returns (ok: bool)
      requires Valid()
      modifies this`ready, this`mode, this`state, this`playback, this`trace, this`buffer, this`live, this`taken
      ensures Valid() && ok == old(mode.rewind && !mode.passthrough && target > 0 && state != Error)
      ensures ok ==> state == Live && mode.armed && mode.passthrough && mode.waiting && ready == [] && playback == None && live == taken == []
      ensures buffer.packets == if ok then Recent(old(buffer.packets), Cutoff(old(buffer), target)) else old(buffer.packets)
      ensures !ok ==> live == old(live) && taken == old(taken)
      ensures !ok ==> state == old(state) && mode == old(mode) && ready == old(ready) && playback == old(playback)
    {
      hide Kept, Replays, Ordered, Bytes, Recent, SuffixOf;
      if !mode.rewind || mode.passthrough || target <= 0 || state.Error? { return false; }
      ArmedIdle();
      KeptSize();
      ResumeKept(buffer, mode, target, playback, trace);
      ready, playback, state := [], None, Live;
      mode := mode.(armed := true, passthrough := true, waiting := true, pendingTrim := false);
      trace := Ended(trace).(start := |trace.accepted| - |buffer.packets|);
      buffer := Roll(buffer, target);
      live, taken := [], [];
      return true;
    }

    lemma {:induction false} KeptSize()
      requires Stored()
      ensures |buffer.packets| <= |trace.accepted|
    {}

    /** return_live: everything is forgotten. */
    method ReturnLive()
      requires Valid()
      modifies this`ready, this`mode, this`state, this`playback, this`trace, this`buffer, this`target, this`clock, this`live, this`taken
      ensures Valid() && state == Live && ready == live == taken == [] && buffer == EMPTY && target == 0 && !mode.armed && !mode.passthrough && trace == CLEAR
      ensures mode.rewind == old(mode.rewind) && mode.waiting && clock == NO_CLOCK
    {
      hide Kept;
      mode := Mode(false, false, mode.rewind, true, false);
      ready, playback, state, buffer, target, clock := [], None, Live, EMPTY, 0, TimeBase(None, None, false);
      trace, live, taken := CLEAR, [], [];
      ClearKept(mode, 0, EMPTY, true);
    }

    method BeginTimestampEpoch()
      requires Valid()
      modifies this`clock
      ensures Valid() && clock == old(clock).(offset := None, rebase := true)
    {
      hide Kept;
      clock := clock.(offset := None, rebase := true);
    }

    method TakeReady() returns (result: seq<Packet>)
      requires Valid()
      modifies this`ready, this`taken
      ensures Valid() && result == old(ready) && ready == [] && taken == old(taken) + result
    {
      hide Kept, LiveKept;
      LiveTaken(taken, ready);
      result, ready, taken := ready, [], taken + ready;
    }

    /** An error ends a replay; a rolling history is forgotten. */
    method SetError()
      requires Stored()
      modifies this`state, this`buffer, this`ready, this`trace
      ensures Stored() && state == Error
      ensures if mode.armed then buffer == EMPTY && ready == [] else buffer == old(buffer) && ready == old(ready)
    {
      hide Kept, Bytes, Ordered, Replays;
      ArmedIdle();
      if mode.armed {
        buffer, ready, trace := EMPTY, [], CLEAR;
        ArmedClear(mode, target);
      } else {
        EndedKept(buffer, mode, target, playback, trace);
        trace := Ended(trace);
      }
      state := Error;
    }

    lemma {:induction false} ArmedClear(m: Mode, target: int)
      requires m.armed && 0 < target && !m.pendingTrim
      ensures Kept(EMPTY, m, target, None, CLEAR)
    {}

    /** set_target of an unarmed controller. */
    method SetTarget(t: int) returns (ok: bool)
      requires Valid()
      modifies this`ready, this`mode, this`state, this`playback, this`trace, this`buffer, this`target, this`clock, this`live, this`taken
      ensures Valid() && ok == (!old(mode.armed) && 0 <= t <= maxDelay)
      ensures ok ==> target == t && playback == None && !trace.replaying
      ensures ok && t == 0 ==> state == Live && buffer.packets == [] && ready == [] && mode.waiting && live == taken == []
      ensures ok && t > 0 && (old(state) == Live || t > Duration(old(buffer.packets))) ==> state == BuildingDelay && buffer == old(buffer) && !mode.pendingTrim
      ensures ok && t > 0 && old(state) != Live && t <= Duration(old(buffer.packets)) ==>
        && TrimmedTo(old(buffer.packets), t, buffer.packets) && mode.pendingTrim == (Duration(buffer.packets) > t)
        && state == if mode.pendingTrim then BuildingDelay else Delayed
      ensures clock == if ok && t == 0 then NO_CLOCK else old(clock)
      ensures SuffixOf(buffer.packets, old(buffer.packets))
      ensures ok && t > 0 ==> ready == if t != old(target) || old(state) == Live then [] else old(ready)
      ensures !ok ==> target == old(target) && buffer == old(buffer) && state == old(state) && ready == old(ready) && mode == old(mode)
      ensures playback == if old(mode.armed) then old(playback) else None
      ensures (live == old(live) && taken == old(taken)) || (ok && t == 0)
    {
      hide Kept, Bytes, Ordered, Replays, SuffixOf, Duration, SameLast, TooLong, EndsWith, TrimmedTo, TrimsTo, LiveKept;
      SuffixSelf(buffer.packets);
      SuffixNone(buffer.packets);
      if mode.armed { return false; }
      if t < 0 || t > maxDelay {
        Aim(target, mode.pendingTrim);
        return false;
      }
      var other := t != target;
      Aim(t, false);
      if t == 0 { Forget(); } else { Rebuild(other); }
      return true;
    }

    /** A delay is built from what is held, or trimmed to the new target. */
    method Rebuild(other: bool)
      requires Stored() && !mode.armed && !mode.pendingTrim && !trace.replaying && target > 0
      modifies this`ready, this`mode, this`state, this`buffer
      ensures Stored() && mode == old(mode).(pendingTrim := mode.pendingTrim) && SuffixOf(buffer.packets, old(buffer.packets))
      ensures state != Live
      ensures old(state) == Live || target > Duration(old(buffer.packets)) ==> state == BuildingDelay && buffer == old(buffer) && !mode.pendingTrim
      ensures old(state) != Live && target <= Duration(old(buffer.packets)) ==>
        && TrimmedTo(old(buffer.packets), target, buffer.packets)
        && mode.pendingTrim == (Duration(buffer.packets) > target) && state == if mode.pendingTrim then BuildingDelay else Delayed
      ensures ready == if other || old(state) == Live then [] else old(ready)
    {
      hide Kept, Bytes, Ordered, Replays, SuffixOf, Duration, SameLast, TooLong, EndsWith, TrimmedTo, TrimsTo, LiveKept;
      SuffixSelf(buffer.packets);
      if other { ready := []; }
      if state.Live? {
        ready, state := [], BuildingDelay;
      } else if target > Duration(buffer.packets) {
        state := BuildingDelay;
      } else {
        Holds(buffer.packets, None);
        Trim();
      }
    }

    /** Any target, even an invalid one, ends a replay. */
    method Aim(t: int, trim: bool)
      requires Stored() && !mode.armed && (0 <= t || t == target)
      modifies this`mode, this`playback, this`trace, this`target
      ensures Stored() && target == t && playback == None && mode == old(mode).(pendingTrim := trim) && trace == Ended(old(trace))
    {
      hide Kept, Bytes, Ordered, Replays, SuffixOf, Duration;
      ArmedIdle();
      TargetKept(buffer, mode, target, playback, trace, t, trim);
      playback, trace, target, mode := None, Ended(trace), t, mode.(pendingTrim := trim);
    }

    /** No delay: the buffer is dropped, and live starts over at a key picture. */
    method Forget()
      requires Stored() && !mode.armed && !mode.pendingTrim && target == 0 && playback == None
      modifies this`ready, this`mode, this`state, this`trace, this`buffer, this`clock, this`live, this`taken
      ensures Valid() && live == taken == [] && state == Live && buffer.packets == [] && ready == [] && mode == old(mode).(waiting := true) && !trace.replaying
      ensures clock == NO_CLOCK
    {
      hide Kept, Bytes, Ordered, Replays;
      ClearKept(mode.(passthrough := false), 0, buffer.(packets := [], bytes := 0), false);
      ArmedIdle();
      buffer, ready, clock := buffer.(packets := [], bytes := 0), [], TimeBase(None, None, false);
      mode, state, trace := mode.(waiting := true), Live, CLEAR.(current := false);
      live, taken := [], [];
      ModeKept(buffer, mode.(passthrough := false), mode, 0, None, trace);
    }

    /** Trims now if a key picture allows it, and remembers to do so later if not. */
    method Trim()
      requires Stored() && !mode.armed && !trace.replaying && buffer.packets != []
      modifies this`mode, this`state, this`buffer
      ensures Stored() && mode == old(mode).(pendingTrim := mode.pendingTrim)
      ensures SuffixOf(buffer.packets, old(buffer.packets)) && TrimmedTo(old(buffer.packets), target, buffer.packets)
      ensures if Duration(buffer.packets) > target then mode.pendingTrim && state == BuildingDelay else mode.pendingTrim == old(mode.pendingTrim) && state == Delayed
    {
      hide Kept, Bytes, Ordered, Replays, SuffixOf, Duration, SameLast, TooLong, TrimmedTo, TrimsTo;
      ArmedIdle();
      var trimmed;
      ghost var before, k := buffer, 0;
      buffer, trimmed, k := TrimToTarget(buffer, target);
      DropKept(before, buffer, mode, mode.(pendingTrim := if trimmed then mode.pendingTrim else true), target, playback, trace, k);
      state := Delayed;
      if !trimmed { mode, state := mode.(pendingTrim := true), BuildingDelay; }
    }

    /** The controller keeps packets: as rolling history, or to delay or replay them. */
    predicate Retaining()
      reads this
    {
      state != Error && (state != Live || mode.passthrough)
    }

    /** How much is held while delayed. */
    function Limit(): int
      reads this`playback, this`target
    {
      if playback.Some? then playback.value else target
    }

    ghost function Now(): Snapshot
      reads this`buffer, this`mode, this`state, this`ready
    {
      Snapshot(buffer, mode, state, ready)
    }

    /** ingest: live packets are released at once from a key picture on; the history takes what a replay or a delay needs.
        While a replay runs, packets are released in order, each more than the playback delay older than the newest. */
    method Ingest(p: Packet)
      requires Valid() && InRange(p.dts) && InRange(p.pts)
      modifies this`ready, this`mode, this`state, this`trace, this`buffer, this`clock, this`liveKey, this`live
      ensures Valid()
      ensures old(state) == Live && Normalized(old(clock), p).Some? ==>
        var q := Normalized(old(clock), p).value;
        && live == old(live) + [q] && mode.waiting == (old(mode.waiting) && !q.KeyVideo())
        && liveKey == if old(mode.waiting) && q.KeyVideo() then q.dts else old(liveKey)
      ensures old(state) != Live || Normalized(old(clock), p).None? ==>
        live == old(live) && mode.waiting == old(mode.waiting) && liveKey == old(liveKey)
      ensures mode == old(mode).(waiting := mode.waiting, pendingTrim := mode.pendingTrim)
      ensures old(state) == Error ==> state == Error && ready == old(ready) && buffer == old(buffer)
      ensures old(state) != Error && Normalized(old(clock), p).None? ==> state == Error
      ensures old(state) == Live && !old(mode.passthrough) && Normalized(old(clock), p).Some? ==>
        state == Live && buffer == old(buffer) && ready == old(ready) + Emitted(old(mode.waiting), old(liveKey), Normalized(old(clock), p).value)
      ensures old(Retaining()) && Normalized(old(clock), p).Some? ==>
        var q := Normalized(old(clock), p).value;
        var out := if old(state) == Live then Emitted(old(mode.waiting), old(liveKey), q) else [];
        Stores(old(Now()).Releasing(out), Now(), q, target, old(Limit()), maxBytes, maxDelay)
      ensures old(state) != Error && Normalized(old(clock), p).Some? ==>
        clock.last == Some(Normalized(old(clock), p).value.dts) && !clock.rebase && (!old(clock.rebase) ==> clock.offset == old(clock.offset))
      ensures old(state) != Error && Normalized(old(clock), p).None? ==> !clock.rebase
      ensures old(trace.replaying) && state != Error ==>
        Normalized(old(clock), p).Some? && ReplayStep(old(trace), trace, old(ready), ready, Normalized(old(clock), p).value, playback)
    {
      hide Kept, Bytes, Ordered, Replays, Normalized, Recent, OverLimit, SuffixOf, Moved, ReplayStep, Cutoff, Passed, Promoted, Pushed, InOrder, EndsWith, LiveKept, Emitted, Stores;
      if state.Error? { return; }
      ArmedIdle();
      var q;
      q, clock := Normalize(clock, p);
      if q.None? { SetError(); return; }
      Accept(q.value);
    }

    /** A packet on the running clock is released, stored, or both. */
    method Accept(q: Packet)
      requires Valid() && state != Error
      modifies this`ready, this`mode, this`state, this`trace, this`buffer, this`liveKey, this`live
      ensures Valid() && mode == old(mode).(waiting := mode.waiting, pendingTrim := mode.pendingTrim)
      ensures old(state) == Live ==>
        && live == old(live) + [q] && mode.waiting == (old(mode.waiting) && !q.KeyVideo())
        && liveKey == if old(mode.waiting) && q.KeyVideo() then q.dts else old(liveKey)
      ensures old(state) != Live ==> live == old(live) && mode.waiting == old(mode.waiting) && liveKey == old(liveKey)
      ensures old(state) == Live && !old(mode.passthrough) ==>
        state == Live && buffer == old(buffer) && ready == old(ready) + Emitted(old(mode.waiting), old(liveKey), q)
      ensures old(Retaining()) ==>
        var out := if old(state) == Live then Emitted(old(mode.waiting), old(liveKey), q) else [];
        Stores(old(Now()).Releasing(out), Now(), q, target, old(Limit()), maxBytes, maxDelay)
      ensures old(trace.replaying) && state != Error ==> ReplayStep(old(trace), trace, old(ready), ready, q, playback)
    {
      hide Kept, LiveKept, Emitted, Stores, ReplayStep;
      assert ready + [] == ready;
      if state.Live? {
        GoOut(q);
        if !mode.passthrough { return; }
      }
      ghost var before := Now();
      Store(q);
      StoresWhileWaiting(before, Now(), q, target, old(Limit()), maxBytes, maxDelay, old(mode.waiting));
    }

    /** A live packet goes out at once, or never. */
    method GoOut(q: Packet)
      requires Valid() && state == Live
      modifies this`ready, this`mode, this`liveKey, this`live
      ensures Valid() && ready == old(ready) + Emitted(old(mode.waiting), old(liveKey), q) && live == old(live) + [q]
      ensures mode == old(mode).(waiting := old(mode.waiting) && !q.KeyVideo())
      ensures liveKey == if old(mode.waiting) && q.KeyVideo() then q.dts else old(liveKey)
    {
      hide Kept, LiveKept;
      LiveGoesOn(live, mode.waiting, liveKey, taken + ready, q);
      LiveReady(taken, ready, Emitted(mode.waiting, liveKey, q));
      assert ready + [] == ready;
      live := live + [q];
      var emit := Emit(q);
      if emit { ready := ready + [q]; }
    }

    /** What is kept of a packet, as history, or to delay or replay it. */
    method Store(q: Packet)
      requires Valid() && Retaining()
      modifies this`ready, this`mode, this`state, this`trace, this`buffer
      ensures Valid() && mode == old(mode).(pendingTrim := mode.pendingTrim)
      ensures Stores(old(Now()), Now(), q, target, old(Limit()), maxBytes, maxDelay)
      ensures old(trace.replaying) && state != Error ==> ReplayStep(old(trace), trace, old(ready), ready, q, playback)
    {
      hide Kept, Bytes, Ordered, Replays, Recent, OverLimit, SuffixOf, Moved, ReplayStep, Cutoff, Passed, Promoted, Pushed, EndsWith, LiveKept;
      ArmedIdle();
      if (state.BuildingDelay? || mode.passthrough) && buffer.packets == [] && !q.KeyVideo() { return; }
      if buffer.packets != [] && q.dts < buffer.packets[|buffer.packets| - 1].dts { SetError(); return; }
      if mode.armed { IngestArmed(q); } else { IngestPlain(q); }
    }

    /** Whether a live packet goes out: nothing before the key picture that live starts with, and no older sound. */
    method Emit(q: Packet) returns (emit: bool)
      requires Stored()
      modifies this`mode, this`liveKey
      ensures Stored() && mode == old(mode).(waiting := mode.waiting)
      ensures emit <==> Emitted(old(mode.waiting), old(liveKey), q) != []
      ensures mode.waiting == (old(mode.waiting) && !q.KeyVideo())
      ensures liveKey == if old(mode.waiting) && q.KeyVideo() then q.dts else old(liveKey)
    {
      hide Kept;
      emit := true;
      ModeKept(buffer, mode, mode.(waiting := false), target, playback, trace) by { ArmedIdle(); }
      if mode.waiting {
        if !q.KeyVideo() {
          emit := false;
        } else {
          mode, liveKey := mode.(waiting := false), q.dts;
        }
      }
      if q.kind.Audio? && q.dts < liveKey { emit := false; }
    }

    /** The rolling history takes a packet and drops what is no longer needed. */
    method IngestArmed(q: Packet)
      requires Stored() && mode.armed && state != Error && InOrder(buffer, q) && (buffer.packets == [] ==> q.KeyVideo())
      modifies this`ready, this`state, this`trace, this`buffer
      ensures Stored()
      ensures var s := Recent(old(buffer.packets) + [q], Cutoff(Pushed(old(buffer), q), target));
        if OverLimit(s, maxBytes, maxDelay) then state == Error && buffer == EMPTY && ready == []
        else state != Error && buffer.packets == s && ready == old(ready) && EndsWith(buffer.packets, q)
      ensures state != Error ==> state == if mode.passthrough then old(state) else if PrebufferReady() then Delayed else BuildingDelay
    {
      hide Kept, Replays, Recent, SuffixOf, OverLimit, Duration, Bytes;
      ArmedIdle();
      RollKept(buffer, mode, target, trace, q);
      PushKeeps(buffer, mode, target, trace, q) by { KeptParts(); }
      buffer := Roll(Pushed(buffer, q), target);
      trace := trace.(accepted := trace.accepted + [q]);
      LimitIs(buffer, maxBytes, maxDelay);
      Holds(old(buffer.packets) + [q], Cutoff(Pushed(old(buffer), q), target));
      if !mode.passthrough { state := if PrebufferReady() then Delayed else BuildingDelay; }
      if buffer.bytes > maxBytes || |buffer.packets| > HISTORY_PACKETS || Duration(buffer.packets) > maxDelay + HISTORY_SLACK { SetError(); }
    }

    lemma {:induction false} KeptParts()
      requires Stored()
      ensures Ordered(buffer.packets) && buffer.bytes == Bytes(buffer.packets) && SuffixOf(buffer.packets, trace.accepted)
    {}

    method Append(q: Packet)
      requires Stored() && !mode.armed && state != Error && state != Live && InOrder(buffer, q) && (buffer.packets == [] ==> q.KeyVideo())
      modifies this`trace, this`buffer
      ensures Stored() && buffer == Pushed(old(buffer), q) && buffer.packets == old(buffer.packets) + [q] && trace == Ended(old(trace)).(accepted := old(trace.accepted) + [q])
      ensures old(trace.replaying) ==> state == Delayed && !mode.pendingTrim && Replaying(buffer, mode, target, playback, old(trace), q)
    {
      hide Kept, Bytes, Ordered, SuffixOf, Duration;
      ArmedIdle();
      PushKept(buffer, mode, target, playback, trace, q);
      buffer, trace := Pushed(buffer, q), Ended(trace).(accepted := trace.accepted + [q]);
    }

    /** A delayed or replayed programme takes a packet and releases what is old enough. */
    method IngestPlain(q: Packet)
      requires Stored() && !mode.armed && state != Error && state != Live && InOrder(buffer, q) && (buffer.packets == [] ==> q.KeyVideo())
      modifies this`ready, this`state, this`trace, this`buffer, this`mode
      ensures Stored() && state != Live && mode == old(mode).(pendingTrim := mode.pendingTrim)
      ensures if Pushed(old(buffer), q).bytes > maxBytes then state == Error else
        Promoted(old(buffer.packets) + [q], old(mode.pendingTrim), old(state), target, Limit(), old(ready),
                 buffer.packets, mode.pendingTrim, state, ready)
      ensures state != Error ==> Passed(old(ready), ready, old(buffer.packets) + [q], buffer.packets) && EndsWith(buffer.packets, q)
      ensures old(trace.replaying) && state != Error ==> ReplayStep(old(trace), trace, old(ready), ready, q, playback)
    {
      hide Kept, Bytes, Ordered, SuffixOf, Duration, SameLast, Moved, ReplayStep, Passed, Replaying, Pushed, InOrder, EndsWith,
        Promoted, PromotedFrom;
      ghost var before, was := trace, buffer.packets;
      Append(q);
      if buffer.bytes > maxBytes { SetError(); return; }
      EndsNow(was, q);
      Promote(before, q);
    }

    /** promote. `before` is the trace before the last push of q. */
    method Promote(ghost before: Trace, q: Packet)
      requires Stored() && !mode.armed && !trace.replaying && (state.BuildingDelay? || state.Delayed?) && EndsWith(buffer.packets, q)
      requires trace == Ended(before).(accepted := trace.accepted)
      requires before.replaying ==> state == Delayed && !mode.pendingTrim && Replaying(buffer, mode, target, playback, before, q)
      modifies this`ready, this`state, this`trace, this`buffer, this`mode
      ensures Stored() && state != Live && mode == old(mode).(pendingTrim := mode.pendingTrim)
      ensures Promoted(old(buffer.packets), old(mode.pendingTrim), old(state), target, Limit(), old(ready),
                       buffer.packets, mode.pendingTrim, state, ready)
      ensures state != Error ==> Passed(old(ready), ready, old(buffer.packets), buffer.packets) && EndsWith(buffer.packets, q)
      ensures before.replaying && state != Error ==> ReplayStep(before, trace, old(ready), ready, q, playback)
    {
      hide Kept, Bytes, Ordered, SuffixOf, Duration, SameLast, Moved, ReplayStep, Passed, Replaying, EndsWith, Promoted, PromotedFrom,
        Trimmed, Begun, OutOf, PaidOut;
      ghost var pending, whole, trim, was := ready, buffer.packets, mode.pendingTrim, state;
      var ok;
      ghost var k;
      ok, k := TrimPending();
      ghost var begun := buffer.packets;
      LastIs(whole, q, begun);
      NothingMoved(pending, begun);
      if ok {
        ghost var trimmed := begun;
        begun := Play(before, q);
        SuffixOfSuffix(begun, trimmed, whole);
        LastIs(trimmed, q, buffer.packets);
      }
      PromotedAs(k, begun, whole, trim, was, target, Limit(), pending, buffer.packets, mode.pendingTrim, state, ready);
      if state != Error { PassedFrom(pending, ready, whole, begun, buffer.packets); }
    }

    /** The rest of promote, once nothing is left to trim. */
    method Play(ghost before: Trace, q: Packet) returns (ghost begun: seq<Packet>)
      requires Stored() && !mode.armed && !trace.replaying && (state.BuildingDelay? || state.Delayed?) && EndsWith(buffer.packets, q)
      requires trace == Ended(before).(accepted := trace.accepted)
      requires before.replaying ==> state == Delayed && Replaying(buffer, mode, target, playback, before, q)
      modifies this`ready, this`state, this`trace, this`buffer
      ensures Stored() && state != Live
      ensures Begun(old(buffer.packets), old(state), target, begun, state) && OutOf(begun, state, Limit(), old(ready), buffer.packets, ready)
      ensures SuffixOf(begun, old(buffer.packets))
      ensures state != Error ==> Moved(old(ready), ready, begun, buffer.packets) && SameLast(old(buffer.packets), buffer.packets)
      ensures before.replaying && state != Error ==> ReplayStep(before, trace, old(ready), ready, q, playback)
    {
      hide Kept, Bytes, Ordered, SuffixOf, Duration, SameLast, Moved, ReplayStep, Replaying, EndsWith, Begun, PaidOut;
      ghost var whole := buffer.packets;
      BeginDelay();
      begun := buffer.packets;
      if state == Error { return; }
      LastIs(whole, q, begun);
      Release(before, q);
      SameLastTwice(whole, begun, buffer.packets);
    }

    /** The first part of promote: a trim that was put off. */
    method TrimPending() returns (ok: bool, ghost k: nat)
      requires Stored() && !mode.armed && !trace.replaying
      modifies this`buffer, this`mode
      ensures Stored() && SuffixOf(buffer.packets, old(buffer.packets)) && SameLast(old(buffer.packets), buffer.packets)
      ensures mode == old(mode).(pendingTrim := !ok) && ok == !(old(mode.pendingTrim) && Duration(buffer.packets) > target)
      ensures k <= |old(buffer.packets)| && Trimmed(old(buffer.packets), old(mode.pendingTrim), target, k)
      ensures buffer.packets == old(buffer.packets)[k..] && (!old(mode.pendingTrim) ==> buffer == old(buffer))
    {
      hide Kept, Bytes, Ordered, Replays, SuffixOf, Duration, NoKeyIn, TooLong, StartsWithKey, SameLast, TrimsTo;
      ArmedIdle();
      SuffixSelf(buffer.packets);
      ok, k := true, 0;
      if mode.pendingTrim {
        ghost var before := buffer;
        buffer, ok, k := TrimToTarget(buffer, target);
        DropKept(before, buffer, mode, mode.(pendingTrim := !ok), target, playback, trace, k);
        mode := mode.(pendingTrim := !ok);
      }
    }

    /** The second part: a buffer that is long enough begins to be delayed at its first key picture. */
    method BeginDelay()
      requires Stored() && !mode.armed && !trace.replaying && (state.BuildingDelay? || state.Delayed?)
      modifies this`state, this`trace, this`buffer, this`ready
      ensures Stored() && ready == old(ready) && SuffixOf(buffer.packets, old(buffer.packets)) && SameLast(old(buffer.packets), buffer.packets)
      ensures Begun(old(buffer.packets), old(state), target, buffer.packets, state)
      ensures state != Error ==> trace == old(trace)
      ensures old(state) == Delayed ==> buffer == old(buffer) && state == Delayed
      ensures state in {BuildingDelay, Delayed, Error}
    {
      hide Kept, Bytes, Ordered, Replays, SuffixOf, Duration, HasKey, NoKeyIn, TooLong, SameLast, StartsWithKey, FirstKeyAt;
      ArmedIdle();
      SuffixSelf(buffer.packets);
      if state.BuildingDelay? && Duration(buffer.packets) >= target {
        var held, found;
        ghost var k;
        held, found, k := SkipToKey(buffer, true);
        if !found { SetError(); return; }
        DropKept(buffer, held, mode, mode, target, playback, trace, k);
        SkippedToKey(buffer.packets, held.packets, k);
        buffer, state := held, Delayed;
      }
    }

    /** The third part: releases what is older than the delay. */
    method Release(ghost before: Trace, q: Packet)
      requires Stored() && !mode.armed && !trace.replaying && (state.BuildingDelay? || state.Delayed?)
      requires EndsWith(buffer.packets, q)
      requires trace == Ended(before).(accepted := trace.accepted)
      requires before.replaying ==> state.Delayed? && Replaying(buffer, mode, target, playback, before, q)
      modifies this`trace, this`buffer, this`ready
      ensures Stored()
      ensures Moved(old(ready), ready, old(buffer.packets), buffer.packets) && SameLast(old(buffer.packets), buffer.packets)
      ensures OutOf(old(buffer.packets), state, Limit(), old(ready), buffer.packets, ready)
      ensures before.replaying ==> ReplayStep(before, trace, old(ready), ready, q, playback)
    {
      hide Kept, Bytes, Ordered, Replays, SuffixOf, Moved, SameLast, Duration, PaidOut, ReplayStep, Replaying, EndsWith, AllOlder, Later;
      ArmedIdle();
      Unmoved(ready, buffer.packets);
      if state.Delayed? {
        var held, released := PayOut(buffer, Limit());
        MovedFront(ready, released, held.packets);
        PaidFront(ready, released, buffer.packets, held.packets, Limit());
        ghost var later, more := Later(trace, before, q, released), ready + released;
        ReleasedKept(before, q, held, released, later, more);
        buffer, ready, trace := held, ready + released, later;
      }
    }

    lemma {:induction false} ReleasedKept(before: Trace, q: Packet, held: Buffer, released: seq<Packet>, later: Trace, more: seq<Packet>)
      requires Stored() && !mode.armed && !trace.replaying && state == Delayed && EndsWith(buffer.packets, q)
      requires trace == Ended(before).(accepted := trace.accepted)
      requires before.replaying ==> Replaying(buffer, mode, target, playback, before, q)
      requires released + held.packets == buffer.packets && held == buffer.(packets := held.packets, bytes := Bytes(held.packets))
      requires Duration(held.packets) <= Limit() && (buffer.packets != [] ==> held.packets != [])
      requires AllOlder(released, buffer.packets, Limit())
      requires later == Later(trace, before, q, released) && more == ready + released
      ensures Kept(held, mode, target, playback, later)
      ensures before.replaying ==> ReplayStep(before, later, ready, more, q, playback)
    {
      hide Kept, Bytes, Ordered, Duration, ReplayStep, Replaying, EndsWith;
      var t := trace.(replay := if before.replaying then before.replay + [q] else trace.replay);
      Delaying(before, q);
      ReplayKept(buffer, mode, target, playback, trace, t);
      ReleaseKept(buffer, mode, target, playback, t, released, held.packets, before.replaying);
      if before.replaying { SteppedReplay(before, t, released, buffer.packets, ready, q, playback); }
    }

    /** What goes on to be replayed. */
    lemma {:induction false} Delaying(before: Trace, q: Packet)
      requires before.replaying ==> Replaying(buffer, mode, target, playback, before, q)
      ensures before.replaying ==>
        var replay := before.replay + [q];
        && playback.Some? && !mode.pendingTrim && before.released + buffer.packets == replay && replay != [] && replay[0].KeyVideo()
        && (before.current ==> target <= playback.value)
    {
      if before.replaying { assert (before.replay + [q])[0] == before.replay[0]; }
    }

    lemma {:induction false} ReplayKept(b: Buffer, m: Mode, target: int, playback: Option<int>, t: Trace, t': Trace)
      requires Kept(b, m, target, playback, t) && !t.replaying && t' == t.(replay := t'.replay)
      ensures Kept(b, m, target, playback, t')
    {}
  }
}
