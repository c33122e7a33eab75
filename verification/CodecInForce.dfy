/** Which codec headers are in force when a picture goes out: a destination that follows an epoch from its first batch on
    decodes every picture with the configuration of its own feed. */
module CodecInForce {
  import opened Media
  import opened Timeline
  import opened Dispatcher

  function HeadersOf(feed: Feed, programme: CodecHeaders, holding: Option<CodecHeaders>): Option<CodecHeaders> {
    if feed.Programme? then Some(programme) else holding
  }

  /** The last headers handed out in this epoch. */
  function InForce(sent: seq<Batch>, epoch: nat): Option<CodecHeaders> {
    if sent == [] || sent[|sent| - 1].epoch != epoch then None
    else if sent[|sent| - 1].headers.Some? then sent[|sent| - 1].headers
    else InForce(sent[..|sent| - 1], epoch)
  }

  predicate Matches(b: Batch, headers: Option<CodecHeaders>, programme: CodecHeaders, holding: Option<CodecHeaders>) {
    forall i :: 0 <= i < |b.items| && Picture(b.items[i]) ==> headers.Some? && headers == HeadersOf(b.items[i].feed, programme, holding)
  }

  predicate Decodable(sent: seq<Batch>, programme: CodecHeaders, holding: Option<CodecHeaders>) {
    forall k :: 0 <= k < |sent| ==> Matches(sent[k], InForce(sent[..k + 1], sent[k].epoch), programme, holding)
  }

  /** Headers wait in the queue in front of the first packets of a joining feed; once they went out, they are in force. */
  predicate Provided(selected: Option<Feed>, headers: Option<CodecHeaders>, queued: seq<Packet>, epoch: nat, sent: seq<Batch>,
                     programme: CodecHeaders, holding: Option<CodecHeaders>) {
    && (headers.Some? ==> selected.Some? && queued != [] && headers == HeadersOf(selected.value, programme, holding))
    && (selected.Some? && headers.None? ==> InForce(sent, epoch).Some? && InForce(sent, epoch) == HeadersOf(selected.value, programme, holding))
  }

  lemma {:induction false} InForceSnoc(sent: seq<Batch>, b: Batch)
    ensures InForce(sent + [b], b.epoch) == if b.headers.Some? then b.headers else InForce(sent, b.epoch)
  {
    assert (sent + [b])[..|sent|] == sent;
  }

  lemma {:induction false} DecodableSnoc(sent: seq<Batch>, b: Batch, programme: CodecHeaders, holding: Option<CodecHeaders>)
    requires Decodable(sent, programme, holding)
    requires Matches(b, if b.headers.Some? then b.headers else InForce(sent, b.epoch), programme, holding)
    ensures Decodable(sent + [b], programme, holding)
  {
    hide InForce, Matches;
    var all := sent + [b];
    InForceSnoc(sent, b);
    forall k | 0 <= k < |all| ensures Matches(all[k], InForce(all[..k + 1], all[k].epoch), programme, holding) {
      if k < |sent| { assert all[..k + 1] == sent[..k + 1]; } else { assert all[..k + 1] == all; }
    }
  }

  /** Packets of a feed, under its own headers. */
  lemma {:induction false} FeedMatches(b: Batch, feed: Feed, packets: seq<Packet>, headers: Option<CodecHeaders>, programme: CodecHeaders,
                                       holding: Option<CodecHeaders>)
    requires b.items == Label(feed, packets) && headers.Some? && headers == HeadersOf(feed, programme, holding)
    ensures Matches(b, headers, programme, holding)
  {}

  /** Silence needs none. */
  lemma {:induction false} SilenceMatches(b: Batch, headers: Option<CodecHeaders>, programme: CodecHeaders, holding: Option<CodecHeaders>)
    requires forall i :: 0 <= i < |b.items| ==> !Picture(b.items[i])
    ensures Matches(b, headers, programme, holding)
  {}

  /** Headers of the holding feed that come in change nothing for what went out. */
  lemma {:induction false} DecodableReady(sent: seq<Batch>, programme: CodecHeaders, holding: CodecHeaders)
    requires Decodable(sent, programme, None)
    ensures Decodable(sent, programme, Some(holding))
  {
    hide InForce;
    forall k | 0 <= k < |sent| ensures Matches(sent[k], InForce(sent[..k + 1], sent[k].epoch), programme, Some(holding)) {
      assert Matches(sent[k], InForce(sent[..k + 1], sent[k].epoch), programme, None);
    }
  }

  /** Nothing is selected, and nothing queued. */
  lemma {:induction false} NothingProvided(epoch: nat, sent: seq<Batch>, programme: CodecHeaders, holding: Option<CodecHeaders>)
    ensures Provided(None, None, [], epoch, sent, programme, holding)
  {}

  lemma {:induction false} ProvidedReady(selected: Option<Feed>, headers: Option<CodecHeaders>, queued: seq<Packet>, epoch: nat, sent: seq<Batch>,
                                         programme: CodecHeaders, holding: CodecHeaders)
    requires Provided(selected, headers, queued, epoch, sent, programme, None)
    ensures Provided(selected, headers, queued, epoch, sent, programme, Some(holding))
  {}

  /** With nothing queued, no headers wait, and none are needed before the next feed is selected. */
  lemma {:induction false} ProvidedNever(selected: Option<Feed>, headers: Option<CodecHeaders>, epoch: nat, epoch': nat, sent: seq<Batch>,
                                         programme: CodecHeaders, holding: Option<CodecHeaders>)
    requires Provided(selected, headers, [], epoch, sent, programme, holding)
    ensures Provided(None, headers, [], epoch', sent, programme, holding)
  {}

  /** A feed is queued, behind its headers if it joins. */
  lemma {:induction false} ProvidedQueued(selected: Option<Feed>, more: Option<CodecHeaders>, headers: Option<CodecHeaders>, queued: seq<Packet>,
                                          queued': seq<Packet>, feed: Feed, epoch: nat, sent: seq<Batch>, programme: CodecHeaders,
                                          holding: Option<CodecHeaders>)
    requires Provided(selected, headers, queued, epoch, sent, programme, holding) && queued' != []
    requires if more.Some? then more == HeadersOf(feed, programme, holding) else selected == Some(feed)
    ensures Provided(Some(feed), if more.Some? then more else headers, queued', epoch, sent, programme, holding)
  {}

  /** A feed is handed over, with its headers if it joins. */
  lemma {:induction false} ProvidedHanded(selected: Option<Feed>, headers: Option<CodecHeaders>, queued: seq<Packet>, feed: Feed, packets: seq<Packet>,
                                          sent: seq<Batch>, b: Batch, programme: CodecHeaders, holding: Option<CodecHeaders>)
    requires Provided(selected, headers, queued, b.epoch, sent, programme, holding) && queued == [] && b.items == Label(feed, packets)
    requires if b.headers.Some? then b.headers == HeadersOf(feed, programme, holding) else selected == Some(feed)
    ensures headers.None? && Provided(Some(feed), headers, queued, b.epoch, sent + [b], programme, holding)
    ensures Matches(b, if b.headers.Some? then b.headers else InForce(sent, b.epoch), programme, holding)
  {
    hide InForce;
    InForceSnoc(sent, b);
    FeedMatches(b, feed, packets, if b.headers.Some? then b.headers else InForce(sent, b.epoch), programme, holding);
  }

  /** A frame of silence goes out before anything is selected. */
  lemma {:induction false} SilenceProvided(selected: Option<Feed>, headers: Option<CodecHeaders>, queued: seq<Packet>, sent: seq<Batch>, b: Batch,
                                           programme: CodecHeaders, holding: Option<CodecHeaders>)
    requires Provided(selected, headers, queued, b.epoch, sent, programme, holding) && selected.None? && b.headers.Some?
    requires forall i :: 0 <= i < |b.items| ==> !Picture(b.items[i])
    ensures Provided(selected, headers, queued, b.epoch, sent + [b], programme, holding)
    ensures Matches(b, b.headers, programme, holding)
  {}

  /** Due packets go out, with the headers that wait for them, if any. */
  lemma {:induction false} ProvidedDue(selected: Option<Feed>, queued: seq<Packet>, rest: seq<Packet>, due: seq<Packet>, sent: seq<Batch>, b: Batch,
                                       programme: CodecHeaders, holding: Option<CodecHeaders>)
    requires Provided(selected, b.headers, queued, b.epoch, sent, programme, holding) && selected.Some? && b.items == Label(selected.value, due)
    ensures Provided(selected, None, rest, b.epoch, sent + [b], programme, holding)
    ensures Matches(b, if b.headers.Some? then b.headers else InForce(sent, b.epoch), programme, holding)
  {
    hide InForce;
    InForceSnoc(sent, b);
    FeedMatches(b, selected.value, due, if b.headers.Some? then b.headers else InForce(sent, b.epoch), programme, holding);
  }
}
