/** The holding scene's queue: two encoder streams, sorted and released up to the watermark of the slower one. */
module HoldingFeed {
  import opened Media
  import opened Sorting
  import opened Streams

  const READINESS_LIMIT: int := 5000000
  const QUEUE_BYTES: int := 16 * 1024 * 1024
  const QUEUE_PACKETS: int := 4096
  const QUEUE_SPAN: int := 5000000

  datatype State = Stopped | Starting | Ready | Failed

  /** One session: what was admitted, what was released and what is queued. `reached` is the last watermark released up to. */
  ghost predicate Session(admitted: seq<Packet>, released: seq<Packet>, queued: seq<Packet>, reached: Option<int>,
                          lastVideo: Option<int>, lastAudio: Option<int>) {
    && multiset(admitted) == multiset(released) + multiset(queued)
    && StreamKept(admitted, released, queued, Video, lastVideo)
    && StreamKept(admitted, released, queued, Audio, lastAudio)
    && SortedBy(Dts, released)
    && (reached.None? ==> released == [])
    && (reached.Some? ==> Reached(released, queued, reached.value, lastVideo, lastAudio))
  }

  /** A stream keeps its order, which is that of its decode times. */
  ghost predicate StreamKept(admitted: seq<Packet>, released: seq<Packet>, queued: seq<Packet>, kind: Kind, last: Option<int>) {
    && OfKind(admitted, kind) == OfKind(released, kind) + OfKind(queued, kind)
    && SortedBy(Dts, OfKind(admitted, kind))
    && last == (if OfKind(admitted, kind) == [] then None else Some(OfKind(admitted, kind)[|OfKind(admitted, kind)| - 1].dts))
  }

  predicate Reached(released: seq<Packet>, queued: seq<Packet>, w: int, lastVideo: Option<int>, lastAudio: Option<int>) {
    && (forall i :: 0 <= i < |released| ==> released[i].dts <= w)
    && (forall i :: 0 <= i < |queued| ==> w <= queued[i].dts)
    && lastVideo.Some? && lastAudio.Some? && w <= lastVideo.value && w <= lastAudio.value
  }

  /** Queued packets lie within the span. */
  predicate Spans(queued: seq<Packet>, minimum: Option<int>, maximum: Option<int>) {
    && minimum.Some? == maximum.Some?
    && (queued != [] ==> minimum.Some?)
    && (minimum.Some? ==> minimum.value <= maximum.value <= minimum.value + QUEUE_SPAN)
    && (minimum.Some? ==> forall i :: 0 <= i < |queued| ==> minimum.value <= queued[i].dts <= maximum.value)
  }

  lemma {:induction false} NewSession()
    ensures Session([], [], [], None, None, None) && Spans([], None, None)
  {}

  /** A packet no earlier than the last one of its stream is admitted. */
  lemma {:induction false} Admitted(admitted: seq<Packet>, released: seq<Packet>, queued: seq<Packet>, reached: Option<int>,
                                    lastVideo: Option<int>, lastAudio: Option<int>, x: Packet)
    requires Session(admitted, released, queued, reached, lastVideo, lastAudio)
    requires var last := if x.kind.Video? then lastVideo else lastAudio; last.Some? ==> last.value <= x.dts
    ensures Session(admitted + [x], released, queued + [x], reached,
                    if x.kind.Video? then Some(x.dts) else lastVideo, if x.kind.Video? then lastAudio else Some(x.dts))
  {
    hide OfKind, StreamKept, SortedBy;
    AdmittedStream(admitted, released, queued, Video, lastVideo, x);
    AdmittedStream(admitted, released, queued, Audio, lastAudio, x);
  }

  lemma {:induction false} AdmittedStream(admitted: seq<Packet>, released: seq<Packet>, queued: seq<Packet>, kind: Kind, last: Option<int>, x: Packet)
    requires StreamKept(admitted, released, queued, kind, last)
    requires x.kind == kind && last.Some? ==> last.value <= x.dts
    ensures StreamKept(admitted + [x], released, queued + [x], kind, if x.kind == kind then Some(x.dts) else last)
  {
    hide OfKind;
    OfKindSnoc(admitted, x, kind);
    OfKindSnoc(queued, x, kind);
  }

  /** In decode order, and at equal times pictures before sound. */
  predicate PicturesFirst(s: seq<Packet>) {
    forall i, j :: 0 <= i < j < |s| ==> s[i].dts < s[j].dts || (s[i].dts == s[j].dts && (s[i].kind.Video? || s[j].kind.Audio?))
  }

  lemma {:induction false} RankedFirst(s: seq<Packet>)
    requires SortedBy(Rank, s)
    ensures PicturesFirst(s)
  {
    forall i, j | 0 <= i < j < |s| ensures s[i].dts < s[j].dts || (s[i].dts == s[j].dts && (s[i].kind.Video? || s[j].kind.Audio?)) {
      assert Rank(s[i]) <= Rank(s[j]);
    }
  }

  /** Each stream keeps its packets, in its own order. */
  predicate SameStreams(s: seq<Packet>, r: seq<Packet>) { OfKind(s, Video) == OfKind(r, Video) && OfKind(s, Audio) == OfKind(r, Audio) }

  /** Taking the front of the sorted queue keeps the session. */
  lemma {:induction false} Taken(admitted: seq<Packet>, released: seq<Packet>, queued: seq<Packet>, reached: Option<int>,
                                 lastVideo: Option<int>, lastAudio: Option<int>, out: seq<Packet>, rest: seq<Packet>, w: int)
    requires Session(admitted, released, queued, reached, lastVideo, lastAudio)
    requires lastVideo.Some? && lastAudio.Some? && w == Min(lastVideo.value, lastAudio.value)
    requires StableSort(Rank, queued) == out + rest
    requires forall i :: 0 <= i < |out| ==> out[i].dts <= w
    requires rest != [] ==> w < rest[0].dts
    ensures Session(admitted, released + out, rest, Some(w), lastVideo, lastAudio)
    ensures SortedBy(Rank, rest) && PicturesFirst(out + rest) && SameStreams(out + rest, queued)
  {
    hide OfKind, StableSort;
    StableSortSorted(Rank, queued);
    RankedFirst(out + rest);
    TakenStream(admitted, released, queued, Video, lastVideo, out, rest);
    TakenStream(admitted, released, queued, Audio, lastAudio, out, rest);
    TakenOrder(released, queued, reached, lastVideo, lastAudio, out, rest, w);
  }

  lemma {:induction false} RankDts(a: Packet, b: Packet)
    ensures Rank(a) <= Rank(b) ==> a.dts <= b.dts
    ensures a.kind == b.kind && a.dts <= b.dts ==> Rank(a) <= Rank(b)
  {}

  lemma {:induction false} TakenOrder(released: seq<Packet>, queued: seq<Packet>, reached: Option<int>, lastVideo: Option<int>, lastAudio: Option<int>,
                                      out: seq<Packet>, rest: seq<Packet>, w: int)
    requires SortedBy(Dts, released) && (reached.None? ==> released == [])
    requires reached.Some? ==> Reached(released, queued, reached.value, lastVideo, lastAudio)
    requires lastVideo.Some? && lastAudio.Some? && w == Min(lastVideo.value, lastAudio.value)
    requires SortedBy(Rank, out + rest) && multiset(out + rest) == multiset(queued)
    requires forall i :: 0 <= i < |out| ==> out[i].dts <= w
    requires rest != [] ==> w < rest[0].dts
    ensures SortedBy(Dts, released + out) && SortedBy(Rank, rest)
    ensures Reached(released + out, rest, w, lastVideo, lastAudio)
  {
    var all := out + rest;
    forall i, j | 0 <= i < j < |out| ensures out[i].dts <= out[j].dts {
      assert Rank(all[i]) <= Rank(all[j]);
      RankDts(out[i], out[j]);
    }
    forall i, j | 0 <= i < j < |rest| ensures Rank(rest[i]) <= Rank(rest[j]) && rest[i].dts <= rest[j].dts {
      assert all[|out| + i] == rest[i] && all[|out| + j] == rest[j];
      RankDts(rest[i], rest[j]);
    }
    if reached.Some? {
      forall j | 0 <= j < |out| ensures reached.value <= out[j].dts {
        assert all[j] in multiset(all);
        assert out[j] in queued;
      }
    }
  }

  lemma {:induction false} TakenStream(admitted: seq<Packet>, released: seq<Packet>, queued: seq<Packet>, kind: Kind, last: Option<int>,
                                       out: seq<Packet>, rest: seq<Packet>)
    requires StreamKept(admitted, released, queued, kind, last) && StableSort(Rank, queued) == out + rest
    ensures StreamKept(admitted, released + out, rest, kind, last) && OfKind(out + rest, kind) == OfKind(queued, kind)
  {
    hide StableSort, OfKind;
    OfKindKinds(queued, kind);
    var a, q := OfKind(admitted, kind), OfKind(queued, kind);
    var r := OfKind(released, kind);
    forall i, j | 0 <= i < j < |q| ensures Rank(q[i]) <= Rank(q[j]) {
      assert a[|r| + i] == q[i] && a[|r| + j] == q[j];
      assert Dts(a[|r| + i]) <= Dts(a[|r| + j]);
      RankDts(q[i], q[j]);
    }
    SortKeepsStream(Rank, queued, kind);
    OfKindConcat(out, rest, kind);
    OfKindConcat(released, out, kind);
  }

  /** The compressed queue and the last decode time of each stream. */
  datatype Queue = Queue(packets: seq<Packet>, bytes: int, minimum: Option<int>, maximum: Option<int>,
                         lastVideo: Option<int>, lastAudio: Option<int>)

  /** What the session has seen: a key picture, sound, and where the picture started. */
  datatype Seen = Seen(keyframe: bool, audio: bool, cutoff: int)

  datatype History = History(admitted: seq<Packet>, released: seq<Packet>, reached: Option<int>)

  const EMPTY: Queue := Queue([], 0, None, None, None, None)

  /** The queue of a session that is not over. */
  ghost predicate Kept(q: Queue, h: History, seen: Seen) {
    && Session(h.admitted, h.released, q.packets, h.reached, q.lastVideo, q.lastAudio)
    && Spans(q.packets, q.minimum, q.maximum)
    && q.bytes == Bytes(q.packets) <= QUEUE_BYTES && |q.packets| <= QUEUE_PACKETS
    && (seen.keyframe ==> q.lastVideo.Some?) && (seen.audio ==> q.lastAudio.Some?) && (!seen.keyframe ==> h.admitted == [])
  }

  lemma {:induction false} NothingKept()
    ensures Kept(EMPTY, History([], [], None), Seen(false, false, 0))
  {
    NewSession();
  }

  /** What a feed keeps of a packet: nothing before the first key picture, and no sound older than that picture. */
  function Admissible(seen: Seen, cutoff: int, p: Packet): seq<Packet> {
    if (!seen.keyframe && !p.KeyVideo()) || (p.kind.Audio? && p.dts < cutoff) then [] else [p]
  }

  class HoldingFeed {
    var state: State
    var headers: CodecHeaders
    var queue: Queue
    var seen: Seen
    var deadline: int
    ghost var history: History

    predicate Active() reads this`state { state.Starting? || state.Ready? }

    /** Nothing admitted in a session is lost or doubled, both streams keep their order, and a ready feed has both. */
    ghost predicate Valid()
      reads this
    {
      && (Active() ==> Kept(queue, history, seen))
      && (state.Ready? ==> seen.keyframe && seen.audio && headers.avc != [] && headers.aac != [])
      && (!Active() ==> queue.packets == [])
    }

    constructor ()
      ensures Valid() && state == Stopped
    {
      state, headers, queue, seen, deadline := Stopped, CodecHeaders([], []), EMPTY, Seen(false, false, 0), 0;
      history := History([], [], None);
    }

    method Begin(now: int)
      modifies this
      ensures Valid() && state == Starting && history == History([], [], None)
    {
      hide Kept;
      NothingKept();
      state, headers, queue, seen, deadline := Starting, CodecHeaders([], []), EMPTY, Seen(false, false, 0), now + READINESS_LIMIT;
      history := History([], [], None);
    }

    method Stop()
      modifies this`state, this`headers, this`queue, this`seen
      ensures Valid() && state == Stopped
    {
      state, headers, queue := Stopped, CodecHeaders([], []), queue.(packets := [], bytes := 0);
      seen := seen.(keyframe := false, audio := false);
    }

    method Fail()
      requires Active() || queue.packets == []
      modifies this`state, this`queue, this`headers
      ensures Valid() && state == if old(Active()) then Failed else old(state)
    {
      if !Active() { return; }
      state, queue, headers := Failed, queue.(packets := [], bytes := 0), CodecHeaders([], []);
    }

    /** Not ready in time. */
    predicate Late(now: int) reads this`state, this`deadline { state.Starting? && now >= deadline }

    method CheckDeadline(now: int)
      requires Valid()
      modifies this`state, this`queue, this`headers
      ensures Valid() && state == if old(Late(now)) then Failed else old(state)
      ensures !old(Late(now)) ==> headers == old(headers) && queue == old(queue)
    {
      hide Kept;
      if state.Starting? && now >= deadline { Fail(); }
    }

    method UpdateReady()
      requires Valid()
      modifies this`state
      ensures Valid() && state == if old(state).Starting? && seen.keyframe && seen.audio && headers.avc != [] && headers.aac != [] then Ready else old(state)
    {
      hide Kept;
      if state.Starting? && seen.keyframe && seen.audio && headers.avc != [] && headers.aac != [] { state := Ready; }
    }

    /** set_headers: a session keeps the codec configuration it was given first. */
    method SetHeaders(h: CodecHeaders, now: int)
      requires Valid()
      modifies this`state, this`queue, this`headers
      ensures Valid()
      ensures Active() == (old(Active()) && !old(Late(now)) && (old(headers) == h || (old(headers.avc) == [] && old(headers.aac) == [])))
      ensures Active() ==> headers == h && queue == old(queue)
      ensures Active() ==> (state.Ready? <==> old(state).Ready? || (seen.keyframe && seen.audio && h.avc != [] && h.aac != []))
    {
      hide Kept;
      CheckDeadline(now);
      if !Active() { return; }
      if (headers.avc != [] || headers.aac != []) && headers != h { Fail(); return; }
      headers := h;
      UpdateReady();
    }

    /** A packet is no earlier than its stream, and the queue has room for it. */
    predicate HasRoom(p: Packet)
      reads this`queue
    {
      var last := if p.kind.Video? then queue.lastVideo else queue.lastAudio;
      && (last.Some? ==> last.value <= p.dts)
      && queue.bytes + |p.payload| <= QUEUE_BYTES && |queue.packets| < QUEUE_PACKETS
      && Max(if queue.maximum.Some? then queue.maximum.value else p.dts, p.dts) -
         Min(if queue.minimum.Some? then queue.minimum.value else p.dts, p.dts) <= QUEUE_SPAN
    }

    /** ingest: everything from the first key picture on, and sound from the time of that picture on. */
    method Ingest(p: Packet, now: int)
      requires Valid()
      modifies this`state, this`queue, this`headers, this`seen, this`history
      ensures Valid()
      ensures Active() ==> headers == old(headers) && history.released == old(history.released)
      ensures Active() ==> history.admitted == old(history.admitted) + Admissible(old(seen), old(seen.cutoff), p)
      ensures Active() == (old(Active()) && !old(Late(now)) && (Admissible(old(seen), old(seen.cutoff), p) == [] || old(HasRoom(p))))
      ensures Active() && Admissible(old(seen), old(seen.cutoff), p) != [] ==>
        && seen == Seen(true, old(seen.audio) || p.kind.Audio?, if old(seen.keyframe) then old(seen.cutoff) else p.dts)
        && (state.Ready? <==> old(state).Ready? || (seen.audio && headers.avc != [] && headers.aac != []))
    {
      hide Kept;
      CheckDeadline(now);
      if !Active() { return; }
      var s := seen;
      if !s.keyframe {
        if !p.KeyVideo() { return; }
        s := s.(keyframe := true, cutoff := p.dts);
      }
      if p.kind.Audio? {
        if p.dts < s.cutoff { return; }
        s := s.(audio := true);
      }
      seen := s;
      var last := if p.kind.Video? then queue.lastVideo else queue.lastAudio;
      if last.Some? && p.dts < last.value { Fail(); return; }
      if |p.payload| > QUEUE_BYTES - queue.bytes || |queue.packets| >= QUEUE_PACKETS { Fail(); return; }
      var low := if queue.minimum.Some? then Min(queue.minimum.value, p.dts) else p.dts;
      var high := if queue.maximum.Some? then Max(queue.maximum.value, p.dts) else p.dts;
      if high - low > QUEUE_SPAN { Fail(); return; }
      KeptMore(queue, history, old(seen), s, p);
      queue := Queue(queue.packets + [p], queue.bytes + |p.payload|, Some(low), Some(high),
                     if p.kind.Video? then Some(p.dts) else queue.lastVideo, if p.kind.Video? then queue.lastAudio else Some(p.dts));
      history := history.(admitted := history.admitted + [p]);
      UpdateReady();
    }

    /** take_packets: the queue sorted, up to the slower stream. Everything handed out in a session is in decode order, and
        with what is still queued it is what was admitted. */
    method TakePackets() returns (result: seq<Packet>)
      requires Valid()
      modifies this`queue, this`history
      ensures Valid()
      ensures !state.Ready? ==> result == [] && history == old(history)
      ensures state.Ready? ==> history.released == old(history.released) + result && history.admitted == old(history.admitted)
      ensures state.Ready? ==> SortedBy(Dts, history.released)
      ensures state.Ready? ==> multiset(history.admitted) == multiset(history.released) + multiset(queue.packets)
      ensures state.Ready? ==> PicturesFirst(result + queue.packets) && SameStreams(result + queue.packets, old(queue.packets))
      ensures state.Ready? ==> queue.lastVideo.Some? && queue.lastAudio.Some?
      ensures state.Ready? ==> forall i :: 0 <= i < |result| ==> result[i].dts <= Min(queue.lastVideo.value, queue.lastAudio.value)
      ensures state.Ready? ==> forall i :: 0 <= i < |queue.packets| ==> queue.packets[i].dts > Min(queue.lastVideo.value, queue.lastAudio.value)
    {
      hide Kept, StableSort, Bytes, SortedBy, PicturesFirst, SameStreams;
      if !state.Ready? { return []; }
      KeptBoth(queue, history, seen);
      var watermark := Min(queue.lastVideo.value, queue.lastAudio.value);
      var rest;
      result, rest := TakeFront(StableSort(Rank, queue.packets), watermark);
      KeptLess(queue, history, seen, result, rest, watermark);
      queue := Queue(rest, queue.bytes - Bytes(result), if rest == [] then None else Some(rest[0].dts),
                     if rest == [] then None else Some(rest[|rest| - 1].dts), queue.lastVideo, queue.lastAudio);
      history := history.(released := history.released + result, reached := Some(watermark));
    }
  }

  lemma {:induction false} KeptBoth(q: Queue, h: History, seen: Seen)
    requires Kept(q, h, seen) && seen.keyframe && seen.audio
    ensures q.lastVideo.Some? && q.lastAudio.Some?
  {}

  lemma {:induction false} KeptMore(q: Queue, h: History, seen: Seen, seen': Seen, p: Packet)
    requires Kept(q, h, seen)
    requires seen'.keyframe && (seen.keyframe || p.kind.Video?) && seen'.audio == (seen.audio || p.kind.Audio?)
    requires var last := if p.kind.Video? then q.lastVideo else q.lastAudio; last.Some? ==> last.value <= p.dts
    requires |p.payload| <= QUEUE_BYTES - q.bytes && |q.packets| < QUEUE_PACKETS
    requires var low := if q.minimum.Some? then Min(q.minimum.value, p.dts) else p.dts;
      var high := if q.maximum.Some? then Max(q.maximum.value, p.dts) else p.dts; high - low <= QUEUE_SPAN
    ensures Kept(Queue(q.packets + [p], q.bytes + |p.payload|,
                       Some(if q.minimum.Some? then Min(q.minimum.value, p.dts) else p.dts),
                       Some(if q.maximum.Some? then Max(q.maximum.value, p.dts) else p.dts),
                       if p.kind.Video? then Some(p.dts) else q.lastVideo, if p.kind.Video? then q.lastAudio else Some(p.dts)),
                 h.(admitted := h.admitted + [p]), seen')
  {
    hide Session, Spans, Bytes;
    Admitted(h.admitted, h.released, q.packets, h.reached, q.lastVideo, q.lastAudio, p);
    SpanGrows(q.packets, q.minimum, q.maximum, p);
    BytesConcat(q.packets, [p]);
    BytesOne(p);
  }

  lemma {:induction false} KeptLess(q: Queue, h: History, seen: Seen, out: seq<Packet>, rest: seq<Packet>, w: int)
    requires Kept(q, h, seen) && q.lastVideo.Some? && q.lastAudio.Some? && w == Min(q.lastVideo.value, q.lastAudio.value)
    requires StableSort(Rank, q.packets) == out + rest && (rest != [] ==> w < rest[0].dts)
    requires forall i :: 0 <= i < |out| ==> out[i].dts <= w
    ensures var h' := h.(released := h.released + out, reached := Some(w));
      && Kept(Queue(rest, q.bytes - Bytes(out), if rest == [] then None else Some(rest[0].dts),
                    if rest == [] then None else Some(rest[|rest| - 1].dts), q.lastVideo, q.lastAudio), h', seen)
      && SortedBy(Dts, h'.released) && multiset(h'.admitted) == multiset(h'.released) + multiset(rest)
    ensures forall i :: 0 <= i < |rest| ==> w < rest[i].dts
    ensures PicturesFirst(out + rest) && SameStreams(out + rest, q.packets)
  {
    hide StableSort, Spans, Bytes, StreamKept, Reached, SortedBy, PicturesFirst, SameStreams;
    StableSortSorted(Rank, q.packets);
    Taken(h.admitted, h.released, q.packets, h.reached, q.lastVideo, q.lastAudio, out, rest, w);
    TakenSpan(q.packets, q.minimum, q.maximum, out, rest);
    TakenBytes(out, rest);
    SortBytes(q.packets);
    RestAbove(rest, w);
  }

  method TakeFront(sorted: seq<Packet>, watermark: int) returns (out: seq<Packet>, rest: seq<Packet>)
    ensures sorted == out + rest && (rest != [] ==> watermark < rest[0].dts)
    ensures forall i :: 0 <= i < |out| ==> out[i].dts <= watermark
  {
    out, rest := [], sorted;
    while rest != [] && rest[0].dts <= watermark
      invariant sorted == out + rest && forall i :: 0 <= i < |out| ==> out[i].dts <= watermark
      decreases |rest|
    {
      out, rest := out + [rest[0]], rest[1..];
    }
  }

  lemma {:induction false} SpanGrows(queued: seq<Packet>, minimum: Option<int>, maximum: Option<int>, p: Packet)
    requires Spans(queued, minimum, maximum)
    requires var low := if minimum.Some? then Min(minimum.value, p.dts) else p.dts;
      var high := if maximum.Some? then Max(maximum.value, p.dts) else p.dts; high - low <= QUEUE_SPAN
    ensures Spans(queued + [p], Some(if minimum.Some? then Min(minimum.value, p.dts) else p.dts),
                  Some(if maximum.Some? then Max(maximum.value, p.dts) else p.dts))
  {}

  lemma {:induction false} TakenSpan(queued: seq<Packet>, minimum: Option<int>, maximum: Option<int>, out: seq<Packet>, rest: seq<Packet>)
    requires Spans(queued, minimum, maximum) && multiset(out + rest) == multiset(queued) && SortedBy(Rank, out + rest)
    ensures Spans(rest, if rest == [] then None else Some(rest[0].dts), if rest == [] then None else Some(rest[|rest| - 1].dts))
    ensures |rest| <= |queued|
  {
    var all := out + rest;
    assert |multiset(all)| == |multiset(queued)|;
    forall i, j | 0 <= i <= j < |rest| ensures rest[i].dts <= rest[j].dts {
      assert all[|out| + i] == rest[i] && all[|out| + j] == rest[j];
      RankDts(rest[i], rest[j]);
    }
    forall i | 0 <= i < |rest| ensures minimum.Some? && minimum.value <= rest[i].dts <= maximum.value {
      assert all[|out| + i] in multiset(all);
      assert rest[i] in queued;
    }
  }

  lemma {:induction false} BytesOne(p: Packet)
    ensures Bytes([p]) == |p.payload|
  {}

  lemma {:induction false} TakenBytes(out: seq<Packet>, rest: seq<Packet>)
    ensures Bytes(rest) == Bytes(out + rest) - Bytes(out)
  {
    BytesConcat(out, rest);
  }

  lemma {:induction false} RestAbove(rest: seq<Packet>, w: int)
    requires SortedBy(Rank, rest) && (rest != [] ==> w < rest[0].dts)
    ensures forall i :: 0 <= i < |rest| ==> w < rest[i].dts
  {
    forall i | 0 <= i < |rest| ensures w < rest[i].dts {
      assert Rank(rest[0]) <= Rank(rest[i]);
      RankDts(rest[0], rest[i]);
    }
  }

  /** Sorting moves bytes around, no more. */
  lemma {:induction false} SortBytes(s: seq<Packet>)
    ensures Bytes(StableSort(Rank, s)) == Bytes(s)
  {
    if s != [] {
      SortBytes(s[..|s| - 1]);
      InsertBytes(StableSort(Rank, s[..|s| - 1]), s[|s| - 1]);
      BytesConcat(s[..|s| - 1], [s[|s| - 1]]);
      assert s == s[..|s| - 1] + [s[|s| - 1]];
    }
  }

  lemma {:induction false} InsertBytes(s: seq<Packet>, x: Packet)
    ensures Bytes(Insert(Rank, s, x)) == Bytes(s) + |x.payload|
  {
    if s == [] || Rank(s[|s| - 1]) <= Rank(x) {
      BytesConcat(s, [x]);
    } else {
      var last := s[|s| - 1];
      InsertBytes(s[..|s| - 1], x);
      BytesConcat(Insert(Rank, s[..|s| - 1], x), [last]);
      BytesConcat(s[..|s| - 1], [last]);
      assert s == s[..|s| - 1] + [last];
    }
  }
}
