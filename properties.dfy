/**
 * What the notification dispatcher promises, stated against reference
 * definitions that are independent of `Run`: which changes are acted on,
 * which lookups and forwards they cause and in what order, where a
 * malformed payload stops the walk, and that the answer never depends on
 * what the lookups return.
 */
module DispatcherProperties {
  import opened Wrappers
  import opened Server
  import opened Signature
  import opened Graph
  import opened Events
  import opened Network
  import opened Dispatcher

  /** The changes on the "comments" field, in order. */
  function CommentChanges(cs: seq<ChangeEvent>): seq<ChangeEvent>
    decreases |cs|
  {
    if cs == [] then []
    else CommentChanges(cs[..|cs| - 1]) + (if IsCommentChange(cs[|cs| - 1]) then [cs[|cs| - 1]] else [])
  }

  /** The fault raised by the first malformed comment change, read from the front. */
  function FirstFault(cs: seq<ChangeEvent>): Option<Fault>
    decreases |cs|
  {
    if cs == [] then None
    else match Classify(cs[0])
      case Fail(f) => Some(f)
      case _ => FirstFault(cs[1..])
  }

  /** The changes before the first malformed comment change. */
  function Processed(cs: seq<ChangeEvent>): seq<ChangeEvent>
    decreases |cs|
  {
    if cs == [] || Classify(cs[0]).Fail? then [] else [cs[0]] + Processed(cs[1..])
  }

  /** The pair of lookups a well-formed comment change causes, comment first. */
  function LookupsFor(c: ChangeEvent): seq<Call>
  {
    match Classify(c)
    case Lookup(commentId, mediaId) => [FetchComment(commentId), FetchMedia(mediaId)]
    case _ => []
  }

  function ExpectedLookups(cs: seq<ChangeEvent>): seq<Call>
    decreases |cs|
  {
    if cs == [] then [] else ExpectedLookups(cs[..|cs| - 1]) + LookupsFor(cs[|cs| - 1])
  }

  /** The records of one change whose two lookups both answered: one pair, or none. */
  function Enrichment(c: ChangeEvent, api: GraphApi): seq<(CommentDetails, MediaDetails)>
  {
    match Classify(c)
    case Lookup(commentId, mediaId) =>
      if api.comment(commentId).Some? && api.media(mediaId).Some? then
        [(api.comment(commentId).value, api.media(mediaId).value)]
      else []
    case _ => []
  }

  /** The fetched records of the comment changes for which both lookups answered, in order. */
  function Enrichments(cs: seq<ChangeEvent>, api: GraphApi): seq<(CommentDetails, MediaDetails)>
    decreases |cs|
  {
    if cs == [] then [] else Enrichments(cs[..|cs| - 1], api) + Enrichment(cs[|cs| - 1], api)
  }

  /** The documents built from those records, the n-th stamped with `clock(n)`. */
  function Documents(ps: seq<(CommentDetails, MediaDetails)>, clock: nat -> string): seq<NormalizedEvent>
  {
    seq(|ps|, n requires 0 <= n < |ps| => Assemble(ps[n].0, ps[n].1, clock(n)))
  }

  lemma LookupPairCalls(commentId: string, mediaId: string)
    ensures Forwarded([FetchComment(commentId), FetchMedia(mediaId)]) == []
    ensures Lookups([FetchComment(commentId), FetchMedia(mediaId)]) == [FetchComment(commentId), FetchMedia(mediaId)]
  {
    var pair := [FetchComment(commentId), FetchMedia(mediaId)];
    assert pair[..1] == [FetchComment(commentId)];
    assert pair[..1][..0] == [];
    assert Forwarded(pair[..1]) == [];
    assert Lookups(pair[..1]) == [FetchComment(commentId)];
  }

  lemma DocumentsSnoc(ps: seq<(CommentDetails, MediaDetails)>, pair: (CommentDetails, MediaDetails), clock: nat -> string)
    ensures Documents(ps + [pair], clock) == Documents(ps, clock) + [Assemble(pair.0, pair.1, clock(|ps|))]
  {
  }

  /** The calls one well-formed comment change makes when both lookups answer, and when not. */
  lemma StepLookup(p: Progress, c: ChangeEvent, api: GraphApi, clock: nat -> string)
    requires p.fault.None? && Classify(c).Lookup?
    ensures var commentId, mediaId := Classify(c).commentId, Classify(c).mediaId;
      var fetched := p.calls + [FetchComment(commentId), FetchMedia(mediaId)];
      Step(p, c, api, clock) ==
        if |Enrichment(c, api)| == 1 then
          Progress(fetched + [Forward(Assemble(Enrichment(c, api)[0].0, Enrichment(c, api)[0].1, clock(p.sent)))], p.sent + 1, None)
        else Progress(fetched, p.sent, None)
  {
  }

  /** What one well-formed step adds to the lookups, and whether it raises. */
  lemma StepLookups(p: Progress, c: ChangeEvent, api: GraphApi, clock: nat -> string)
    requires p.fault.None?
    ensures Step(p, c, api, clock).fault == (if Classify(c).Fail? then Some(Classify(c).fault) else None)
    ensures Lookups(Step(p, c, api, clock).calls) == Lookups(p.calls) + LookupsFor(c)
    ensures |LookupsFor(c)| == (if Classify(c).Lookup? then 2 else 0)
    ensures Classify(c).Lookup? ==> IsCommentChange(c)
  {
    if Classify(c).Lookup? {
      var commentId, mediaId := Classify(c).commentId, Classify(c).mediaId;
      var fetched := [FetchComment(commentId), FetchMedia(mediaId)];
      StepLookup(p, c, api, clock);
      LookupPairCalls(commentId, mediaId);
      LookupsAppend(p.calls, fetched);
      if |Enrichment(c, api)| == 1 {
        var e := Forward(Assemble(Enrichment(c, api)[0].0, Enrichment(c, api)[0].1, clock(p.sent)));
        LookupsAppend(p.calls + fetched, [e]);
        assert [e][..0] == [];
      }
    }
  }

  /** What one well-formed step adds to the forwards and to the count. */
  lemma StepForwards(p: Progress, c: ChangeEvent, api: GraphApi, clock: nat -> string)
    requires p.fault.None?
    ensures |Enrichment(c, api)| <= 1 && (|Enrichment(c, api)| == 1 ==> Classify(c).Lookup?)
    ensures Step(p, c, api, clock).sent == p.sent + |Enrichment(c, api)|
    ensures Forwarded(Step(p, c, api, clock).calls) == Forwarded(p.calls) +
      (if |Enrichment(c, api)| == 1
       then [Assemble(Enrichment(c, api)[0].0, Enrichment(c, api)[0].1, clock(p.sent))]
       else [])
  {
    if Classify(c).Lookup? {
      var commentId, mediaId := Classify(c).commentId, Classify(c).mediaId;
      var fetched := [FetchComment(commentId), FetchMedia(mediaId)];
      StepLookup(p, c, api, clock);
      LookupPairCalls(commentId, mediaId);
      ForwardedAppend(p.calls, fetched);
      if |Enrichment(c, api)| == 1 {
        var e := Forward(Assemble(Enrichment(c, api)[0].0, Enrichment(c, api)[0].1, clock(p.sent)));
        ForwardedAppend(p.calls + fetched, [e]);
        assert [e][..0] == [];
      }
    }
  }

  lemma {:induction false} FirstFaultSnoc(a: seq<ChangeEvent>, c: ChangeEvent)
    ensures FirstFault(a + [c]) ==
      if FirstFault(a).Some? then FirstFault(a)
      else if Classify(c).Fail? then Some(Classify(c).fault) else None
    decreases |a|
  {
    if a == [] {
      assert (a + [c])[1..] == [];
    } else {
      assert (a + [c])[0] == a[0];
      assert (a + [c])[1..] == a[1..] + [c];
      FirstFaultSnoc(a[1..], c);
    }
  }

  /** The walk stops with a fault exactly when some comment change is malformed, and with the first one's. */
  lemma {:induction false} RunFaultIsFirstFault(cs: seq<ChangeEvent>, api: GraphApi, clock: nat -> string)
    ensures Run(cs, api, clock).fault == FirstFault(cs)
    decreases |cs|
  {
    if cs != [] {
      var init, last := cs[..|cs| - 1], cs[|cs| - 1];
      assert cs == init + [last];
      RunFaultIsFirstFault(init, api, clock);
      FirstFaultSnoc(init, last);
    }
  }

  lemma {:induction false} ProcessedShape(cs: seq<ChangeEvent>)
    ensures |Processed(cs)| <= |cs| && cs[..|Processed(cs)|] == Processed(cs)
    ensures FirstFault(Processed(cs)).None?
    ensures FirstFault(cs).None? ==> Processed(cs) == cs
    ensures FirstFault(cs).Some? ==>
      |Processed(cs)| < |cs| && Classify(cs[|Processed(cs)|]) == Fail(FirstFault(cs).value)
    decreases |cs|
  {
    if cs != [] && !Classify(cs[0]).Fail? {
      ProcessedShape(cs[1..]);
      var p := Processed(cs);
      assert p == [cs[0]] + Processed(cs[1..]);
      assert p[1..] == Processed(cs[1..]);
    }
  }

  /** A walk that reaches a raising change after a clean prefix keeps the prefix's calls. */
  lemma RunStopsAt(cs: seq<ChangeEvent>, k: nat, api: GraphApi, clock: nat -> string)
    requires k < |cs| && Run(cs[..k], api, clock).fault.None? && Classify(cs[k]).Fail?
    ensures Run(cs, api, clock).calls == Run(cs[..k], api, clock).calls
    ensures Run(cs, api, clock).sent == Run(cs[..k], api, clock).sent
  {
    var failed := cs[..k + 1];
    assert failed == cs[..k] + [cs[k]];
    RunSnoc(cs[..k], cs[k], api, clock);
    assert cs == failed + cs[k + 1..];
    FaultIsFinal(failed, cs[k + 1..], api, clock);
  }

  /**
   * A malformed comment change stops the walk: the request makes exactly the
   * calls of the changes before it (none of which is malformed), raises the
   * TypeError that change causes, and touches no later change.
   */
  lemma FaultHaltsDispatch(cs: seq<ChangeEvent>, api: GraphApi, clock: nat -> string)
    ensures Run(cs, api, clock).fault == FirstFault(cs)
    ensures |Processed(cs)| <= |cs| && Processed(cs) == cs[..|Processed(cs)|]
    ensures FirstFault(Processed(cs)).None?
    ensures Run(cs, api, clock).calls == Run(Processed(cs), api, clock).calls
    ensures Run(cs, api, clock).sent == Run(Processed(cs), api, clock).sent
    ensures FirstFault(cs).Some? ==>
      |Processed(cs)| < |cs| && Classify(cs[|Processed(cs)|]) == Fail(FirstFault(cs).value)
  {
    RunFaultIsFirstFault(cs, api, clock);
    ProcessedShape(cs);
    if FirstFault(cs).Some? {
      RunFaultIsFirstFault(Processed(cs), api, clock);
      RunStopsAt(cs, |Processed(cs)|, api, clock);
    }
  }

  /**
   * Changes on any field but "comments" cause no lookup and no forward:
   * walking all the changes and walking only the comment changes give the
   * same calls, count and fault.
   */
  lemma {:induction false} NonCommentChangesAreInert(cs: seq<ChangeEvent>, api: GraphApi, clock: nat -> string)
    ensures Run(cs, api, clock) == Run(CommentChanges(cs), api, clock)
    decreases |cs|
  {
    if cs != [] {
      var init, last := cs[..|cs| - 1], cs[|cs| - 1];
      NonCommentChangesAreInert(init, api, clock);
      assert Run(cs, api, clock) == Step(Run(init, api, clock), last, api, clock);
      if IsCommentChange(last) {
        assert CommentChanges(cs) == CommentChanges(init) + [last];
        RunSnoc(CommentChanges(init), last, api, clock);
      } else {
        assert Classify(last) == Ignore;
        assert CommentChanges(cs) == CommentChanges(init);
      }
    }
  }

  /** An entry without `changes` contributes no change, wherever it stands. */
  lemma EntryWithoutChangesIsInert(a: seq<EntryItem>, e: EntryItem, b: seq<EntryItem>)
    requires e.changes.None?
    ensures Changes(a + [e] + b) == Changes(a + b)
  {
    ChangesAppend(a + [e], b);
    ChangesAppend(a, [e]);
    ChangesAppend(a, b);
    assert [e][..0] == [];
  }

  /**
   * Counting: every forward is counted in `sent`, at most one forward and
   * exactly one pair of lookups happen per comment change, so there are
   * never more forwards than comment changes.
   */
  lemma {:induction false} ForwardsAtMostCommentChanges(cs: seq<ChangeEvent>, api: GraphApi, clock: nat -> string)
    ensures |Forwarded(Run(cs, api, clock).calls)| == Run(cs, api, clock).sent
    ensures 2 * Run(cs, api, clock).sent <= |Lookups(Run(cs, api, clock).calls)| <= 2 * |CommentChanges(cs)|
    decreases |cs|
  {
    if cs != [] {
      var init, last := cs[..|cs| - 1], cs[|cs| - 1];
      ForwardsAtMostCommentChanges(init, api, clock);
      var p := Run(init, api, clock);
      if p.fault.None? {
        StepLookups(p, last, api, clock);
        StepForwards(p, last, api, clock);
      }
    }
  }

  /**
   * On a well-formed walk, the lookups are exactly one pair per comment
   * change, comment before media, in the order of the changes.
   */
  lemma {:induction false} LookupsFollowCommentChanges(cs: seq<ChangeEvent>, api: GraphApi, clock: nat -> string)
    requires FirstFault(cs).None?
    ensures Lookups(Run(cs, api, clock).calls) == ExpectedLookups(cs)
    ensures |ExpectedLookups(cs)| == 2 * |CommentChanges(cs)|
    decreases |cs|
  {
    if cs != [] {
      var init, last := cs[..|cs| - 1], cs[|cs| - 1];
      assert cs == init + [last];
      FirstFaultSnoc(init, last);
      LookupsFollowCommentChanges(init, api, clock);
      RunFaultIsFirstFault(init, api, clock);
      StepLookups(Run(init, api, clock), last, api, clock);
    }
  }

  /**
   * On a well-formed walk, one document is forwarded per comment change
   * whose two lookups both answered, and no other: the forwards are the
   * documents built from those records, in the order of the changes (entry
   * by entry, change by change), the n-th stamped with the n-th clock
   * reading. A lookup that fails drops its own change only.
   */
  lemma {:induction false} ForwardsFollowChanges(cs: seq<ChangeEvent>, api: GraphApi, clock: nat -> string)
    requires FirstFault(cs).None?
    ensures Run(cs, api, clock).sent == |Enrichments(cs, api)|
    ensures Forwarded(Run(cs, api, clock).calls) == Documents(Enrichments(cs, api), clock)
    decreases |cs|
  {
    if cs != [] {
      var init, last := cs[..|cs| - 1], cs[|cs| - 1];
      assert cs == init + [last];
      FirstFaultSnoc(init, last);
      ForwardsFollowChanges(init, api, clock);
      RunFaultIsFirstFault(init, api, clock);
      StepForwards(Run(init, api, clock), last, api, clock);
      if |Enrichment(last, api)| == 1 {
        DocumentsSnoc(Enrichments(init, api), Enrichment(last, api)[0], clock);
        assert Enrichment(last, api) == [Enrichment(last, api)[0]];
      }
    }
  }

  /**
   * Changes are handled one after another: every call caused by the earlier
   * changes, their forwards included, is made before any call caused by a
   * later change, and the later changes only add calls.
   */
  lemma {:induction false} EarlierChangesCallFirst(a: seq<ChangeEvent>, b: seq<ChangeEvent>, api: GraphApi, clock: nat -> string)
    ensures Run(a, api, clock).calls <= Run(a + b, api, clock).calls
    ensures Run(a, api, clock).sent <= Run(a + b, api, clock).sent
    decreases |b|
  {
    if b == [] {
      assert a + b == a;
    } else {
      var b' := b[..|b| - 1];
      assert (a + b)[..|a + b| - 1] == a + b';
      EarlierChangesCallFirst(a, b', api, clock);
    }
  }

  /**
   * The answer to a notification never depends on what the lookups return
   * or when the documents are built: lookup and forward failures are
   * swallowed, so only the signature and the payload's shape decide it.
   */
  lemma ResponseIgnoresLookups(cfg: Config, hmacHex: (string, string) -> string, stringify: Envelope -> string,
                               body: Envelope, signature: Option<string>,
                               api1: GraphApi, clock1: nat -> string, api2: GraphApi, clock2: nat -> string)
    ensures Dispatch(cfg, hmacHex, stringify, body, signature, api1, clock1).outcome
         == Dispatch(cfg, hmacHex, stringify, body, signature, api2, clock2).outcome
  {
    if body.entry.Some? {
      RunFaultIsFirstFault(Changes(body.entry.value), api1, clock1);
      RunFaultIsFirstFault(Changes(body.entry.value), api2, clock2);
    }
  }

  /**
   * When a notification raises: under a valid signature and the "instagram"
   * object, exactly when `entry` is missing (then at once, with no call) or
   * some comment change lacks `value` or `value.media` (then with the first
   * such change's error).
   */
  lemma WhenDispatchRaises(cfg: Config, hmacHex: (string, string) -> string, stringify: Envelope -> string,
                           body: Envelope, signature: Option<string>, api: GraphApi, clock: nat -> string)
    requires VerifySignature(hmacHex, cfg.appSecret, stringify(body), signature)
    requires body.platform == Some(Instagram)
    ensures Dispatch(cfg, hmacHex, stringify, body, signature, api, clock).outcome.Threw? <==>
      body.entry.None? || FirstFault(Changes(body.entry.value)).Some?
    ensures body.entry.None? ==>
      Dispatch(cfg, hmacHex, stringify, body, signature, api, clock) == Handled([], Threw(EntryMissing))
    ensures body.entry.Some? && FirstFault(Changes(body.entry.value)).Some? ==>
      Dispatch(cfg, hmacHex, stringify, body, signature, api, clock).outcome
        == Threw(FirstFault(Changes(body.entry.value)).value)
  {
    if body.entry.Some? {
      RunFaultIsFirstFault(Changes(body.entry.value), api, clock);
    }
  }

  /**
   * A valid, well-formed Instagram notification is acknowledged with 200
   * "OK", and what it forwards is one document per comment change whose
   * lookups both answered, in order.
   */
  lemma WellFormedNotification(cfg: Config, hmacHex: (string, string) -> string, stringify: Envelope -> string,
                               body: Envelope, signature: Option<string>, api: GraphApi, clock: nat -> string)
    requires VerifySignature(hmacHex, cfg.appSecret, stringify(body), signature)
    requires body.platform == Some(Instagram) && body.entry.Some?
    requires FirstFault(Changes(body.entry.value)).None?
    ensures Dispatch(cfg, hmacHex, stringify, body, signature, api, clock).outcome == Responded(Acknowledged)
    ensures Forwarded(Dispatch(cfg, hmacHex, stringify, body, signature, api, clock).calls)
         == Documents(Enrichments(Changes(body.entry.value), api), clock)
    ensures Lookups(Dispatch(cfg, hmacHex, stringify, body, signature, api, clock).calls)
         == ExpectedLookups(Changes(body.entry.value))
  {
    var cs := Changes(body.entry.value);
    RunFaultIsFirstFault(cs, api, clock);
    ForwardsFollowChanges(cs, api, clock);
    LookupsFollowCommentChanges(cs, api, clock);
  }
}
