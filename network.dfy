/**
 * The relay's outbound calls: the two Graph API lookups and the POST to the
 * downstream automation endpoint. The network itself is not modelled; a
 * `Client` answers lookups from a fixed `GraphApi` and records every call it
 * is asked to make, in order, in `log`.
 */
module Network {
  import opened Wrappers
  import opened Graph
  import opened Events

  /** One outbound call, with the identifier or document it carries. */
  datatype Call =
    | FetchComment(commentId: string)
    | FetchMedia(mediaId: string)
    | Forward(event: NormalizedEvent)

  class Client {
    const api: GraphApi
    var log: seq<Call>

    constructor (api: GraphApi)
      ensures this.api == api && log == []
    {
      this.api := api;
      log := [];
    }

    /** getCommentDetails: one lookup; a failure is answered with `None`, never raised. */
    method GetCommentDetails(commentId: string) returns (details: Option<CommentDetails>)
      modifies this
      ensures details == api.comment(commentId)
      ensures log == old(log) + [FetchComment(commentId)]
    {
      log := log + [FetchComment(commentId)];
      details := api.comment(commentId);
    }

    /** getMediaDetails: one lookup; a failure is answered with `None`, never raised. */
    method GetMediaDetails(mediaId: string) returns (details: Option<MediaDetails>)
      modifies this
      ensures details == api.media(mediaId)
      ensures log == old(log) + [FetchMedia(mediaId)]
    {
      log := log + [FetchMedia(mediaId)];
      details := api.media(mediaId);
    }

    /** sendToZapier: one POST of the document; its failure is swallowed, so it returns nothing. */
    method SendToZapier(event: NormalizedEvent)
      modifies this
      ensures log == old(log) + [Forward(event)]
    {
      log := log + [Forward(event)];
    }
  }

  /** The documents forwarded by a log of calls, in order. */
  function Forwarded(calls: seq<Call>): seq<NormalizedEvent>
    decreases |calls|
  {
    if calls == [] then []
    else
      var last := calls[|calls| - 1];
      Forwarded(calls[..|calls| - 1]) + (if last.Forward? then [last.event] else [])
  }

  /** The Graph API lookups of a log of calls, in order. */
  function Lookups(calls: seq<Call>): seq<Call>
    decreases |calls|
  {
    if calls == [] then []
    else
      var last := calls[|calls| - 1];
      Lookups(calls[..|calls| - 1]) + (if last.Forward? then [] else [last])
  }

  lemma {:induction false} ForwardedAppend(a: seq<Call>, b: seq<Call>)
    ensures Forwarded(a + b) == Forwarded(a) + Forwarded(b)
    decreases |b|
  {
    if b == [] {
      assert a + b == a;
    } else {
      var b' := b[..|b| - 1];
      assert (a + b)[..|a + b| - 1] == a + b';
      ForwardedAppend(a, b');
    }
  }

  lemma {:induction false} LookupsAppend(a: seq<Call>, b: seq<Call>)
    ensures Lookups(a + b) == Lookups(a) + Lookups(b)
    decreases |b|
  {
    if b == [] {
      assert a + b == a;
    } else {
      var b' := b[..|b| - 1];
      assert (a + b)[..|a + b| - 1] == a + b';
      LookupsAppend(a, b');
    }
  }
}
