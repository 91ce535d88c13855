/**
 * POST /webhook: the notification dispatcher. After the signature check it
 * walks `entry` in order and each entry's `changes` in order; for every
 * change on the "comments" field it looks up the comment and its media and,
 * when both lookups answer, forwards one normalized document.
 *
 * `Run` and `Dispatch` say, as functions of the payload, which calls the
 * handler makes and how it ends; `HandleWebhookPost` is the handler itself,
 * with its two nested loops, proved to make exactly those calls.
 */
module Dispatcher {
  import opened Wrappers
  import opened Server
  import opened Signature
  import opened Graph
  import opened Events
  import opened Network

  /**
   * An identifier field of the payload. Absent and null are kept apart,
   * because they reach the lookup URL differently.
   */
  datatype JsonId = Undefined | Null | Text(text: string)

  /**
   * The notification payload. Apart from identifiers, a field that is
   * absent or null is `None`; `platform` is the payload's `object` field
   * (a reserved word in Dafny).
   */
  datatype MediaRef = MediaRef(id: JsonId)
  datatype ChangeValue = ChangeValue(id: JsonId, media: Option<MediaRef>)
  datatype ChangeEvent = ChangeEvent(field: Option<string>, value: Option<ChangeValue>)
  datatype EntryItem = EntryItem(changes: Option<seq<ChangeEvent>>)
  datatype Envelope = Envelope(platform: Option<string>, entry: Option<seq<EntryItem>>)

  const Instagram := "instagram"
  const CommentsField := "comments"

  /**
   * The TypeErrors the handler raises on a malformed payload: iterating a
   * missing `entry`, reading `id` of a missing `change.value`, reading `id`
   * of a missing `change.value.media`.
   */
  datatype Fault = EntryMissing | ValueMissing | MediaMissing

  /** How the handler ends: with a response, or by raising before it sends one. */
  datatype Outcome = Responded(response: Response) | Threw(fault: Fault)

  /** The calls one request makes, and how it ends. */
  datatype Handled = Handled(calls: seq<Call>, outcome: Outcome)

  /**
   * An identifier as a template string writes it into the lookup URL:
   * a string as it is, an absent one as "undefined", null as "null".
   */
  function IdText(id: JsonId): (r: string)
    ensures id.Text? ==> r == id.text
    ensures id.Undefined? ==> r == "undefined"
    ensures id.Null? ==> r == "null"
  {
    match id
    case Text(s) => s
    case Undefined => "undefined"
    case Null => "null"
  }

  /** What the handler does with one change. */
  datatype Action = Ignore | Lookup(commentId: string, mediaId: string) | Fail(fault: Fault)

  /**
   * A change on another field is ignored. A "comments" change raises when
   * its `value` is missing, or else when `value.media` is missing; otherwise
   * it looks up the two identifiers as the URL spells them.
   */
  function Classify(c: ChangeEvent): (a: Action)
    ensures a.Ignore? <==> !IsCommentChange(c)
    ensures a == Fail(ValueMissing) <==> IsCommentChange(c) && c.value.None?
    ensures a == Fail(MediaMissing) <==> IsCommentChange(c) && c.value.Some? && c.value.value.media.None?
    ensures a.Lookup? <==> IsCommentChange(c) && c.value.Some? && c.value.value.media.Some?
    ensures a.Lookup? ==>
      a.commentId == IdText(c.value.value.id) && a.mediaId == IdText(c.value.value.media.value.id)
  {
    if c.field != Some(CommentsField) then Ignore
    else match c.value
      case None => Fail(ValueMissing)
      case Some(v) =>
        match v.media
        case None => Fail(MediaMissing)
        case Some(m) => Lookup(IdText(v.id), IdText(m.id))
  }

  predicate IsCommentChange(c: ChangeEvent)
  {
    c.field == Some(CommentsField)
  }

  /**
   * How far a request has got: the calls made so far, how many documents
   * have been forwarded (the clock is read once per document), and the fault
   * that stopped it, if any.
   */
  datatype Progress = Progress(calls: seq<Call>, sent: nat, fault: Option<Fault>)

  const Start := Progress([], 0, None)

  /**
   * Processes one change. `clock(n)` is the time read when the n-th
   * document of the request is built.
   */
  function Step(p: Progress, c: ChangeEvent, api: GraphApi, clock: nat -> string): Progress
  {
    if p.fault.Some? then p
    else match Classify(c)
      case Ignore => p
      case Fail(f) => p.(fault := Some(f))
      case Lookup(commentId, mediaId) =>
        var fetched := p.calls + [FetchComment(commentId), FetchMedia(mediaId)];
        var comment, media := api.comment(commentId), api.media(mediaId);
        if comment.Some? && media.Some? then
          Progress(fetched + [Forward(Assemble(comment.value, media.value, clock(p.sent)))], p.sent + 1, None)
        else
          Progress(fetched, p.sent, None)
  }

  /** Processes the changes in order, from the start of a request. */
  function Run(cs: seq<ChangeEvent>, api: GraphApi, clock: nat -> string): Progress
    decreases |cs|
  {
    if cs == [] then Start
    else Step(Run(cs[..|cs| - 1], api, clock), cs[|cs| - 1], api, clock)
  }

  /** The changes of the entries, entry by entry; an entry without `changes` has none. */
  function Changes(es: seq<EntryItem>): seq<ChangeEvent>
    decreases |es|
  {
    if es == [] then []
    else Changes(es[..|es| - 1]) + es[|es| - 1].changes.GetOr([])
  }

  /**
   * One POST /webhook, as a function of everything it depends on: the
   * configuration, the hash and serialization primitives, the parsed body,
   * the signature header, the Graph API's answers and the clock.
   */
  function Dispatch(cfg: Config, hmacHex: (string, string) -> string, stringify: Envelope -> string,
                    body: Envelope, signature: Option<string>, api: GraphApi, clock: nat -> string): (r: Handled)
    ensures !VerifySignature(hmacHex, cfg.appSecret, stringify(body), signature) ==>
      r.calls == [] && r.outcome == Responded(Forbidden)
    ensures VerifySignature(hmacHex, cfg.appSecret, stringify(body), signature) ==>
      r.outcome.Threw? || r.outcome == Responded(Acknowledged)
    ensures body.platform != Some(Instagram) ==> r.calls == [] && r.outcome.Responded?
  {
    if !VerifySignature(hmacHex, cfg.appSecret, stringify(body), signature) then
      Handled([], Responded(Forbidden))
    else if body.platform != Some(Instagram) then
      Handled([], Responded(Acknowledged))
    else if body.entry.None? then
      Handled([], Threw(EntryMissing))
    else
      var p := Run(Changes(body.entry.value), api, clock);
      Handled(p.calls, if p.fault.Some? then Threw(p.fault.value) else Responded(Acknowledged))
  }

  /**
   * One change: after a raise nothing changes; otherwise the fault is the
   * change's own. Calls are only appended, at most three. A forward happens
   * at most once, right after the comment-then-media lookup pair, and is
   * stamped with the next clock reading.
   */
  lemma StepShape(p: Progress, c: ChangeEvent, api: GraphApi, clock: nat -> string)
    ensures var r := Step(p, c, api, clock);
      && (p.fault.Some? ==> r == p)
      && (p.fault.None? ==> r.fault == (if Classify(c).Fail? then Some(Classify(c).fault) else None))
      && p.calls <= r.calls && |r.calls| <= |p.calls| + 3
      && (r.sent == p.sent || r.sent == p.sent + 1)
      && (r.sent == p.sent + 1 ==>
        && Classify(c).Lookup?
        && |r.calls| == |p.calls| + 3
        && r.calls[|p.calls|..] == [FetchComment(Classify(c).commentId), FetchMedia(Classify(c).mediaId), r.calls[|r.calls| - 1]]
        && r.calls[|r.calls| - 1].Forward?
        && r.calls[|r.calls| - 1].event.notificationTime == clock(p.sent))
  {
  }

  /** A walk of n changes makes at most 3n calls and at most n forwards, each with its two lookups. */
  lemma {:induction false} RunBounds(cs: seq<ChangeEvent>, api: GraphApi, clock: nat -> string)
    ensures Run(cs, api, clock).sent <= |cs| && |Run(cs, api, clock).calls| <= 3 * |cs|
    ensures 3 * Run(cs, api, clock).sent <= |Run(cs, api, clock).calls|
    decreases |cs|
  {
    if cs != [] {
      RunBounds(cs[..|cs| - 1], api, clock);
      StepShape(Run(cs[..|cs| - 1], api, clock), cs[|cs| - 1], api, clock);
    }
  }

  /** The walked changes are exactly the changes of the entries, in both directions. */
  lemma {:induction false} ChangesMembership(es: seq<EntryItem>)
    ensures forall c :: c in Changes(es) ==> exists k :: 0 <= k < |es| && c in es[k].changes.GetOr([])
    ensures forall k, c :: 0 <= k < |es| && c in es[k].changes.GetOr([]) ==> c in Changes(es)
    decreases |es|
  {
    if es != [] {
      var init := es[..|es| - 1];
      ChangesMembership(init);
      forall c | c in Changes(es)
        ensures exists k :: 0 <= k < |es| && c in es[k].changes.GetOr([])
      {
        if c in Changes(init) {
          var k :| 0 <= k < |init| && c in init[k].changes.GetOr([]);
          assert es[k] == init[k];
        } else {
          assert c in es[|es| - 1].changes.GetOr([]);
        }
      }
      forall k, c | 0 <= k < |es| && c in es[k].changes.GetOr([])
        ensures c in Changes(es)
      {
        if k < |init| {
          assert init[k] == es[k];
        }
      }
    }
  }

  lemma {:induction false} ChangesAppend(a: seq<EntryItem>, b: seq<EntryItem>)
    ensures Changes(a + b) == Changes(a) + Changes(b)
    decreases |b|
  {
    if b == [] {
      assert a + b == a;
    } else {
      var b' := b[..|b| - 1];
      assert (a + b)[..|a + b| - 1] == a + b';
      ChangesAppend(a, b');
    }
  }

  /** Once a change has raised, nothing after it is processed. */
  lemma {:induction false} FaultIsFinal(a: seq<ChangeEvent>, b: seq<ChangeEvent>, api: GraphApi, clock: nat -> string)
    requires Run(a, api, clock).fault.Some?
    ensures Run(a + b, api, clock) == Run(a, api, clock)
    decreases |b|
  {
    if b == [] {
      assert a + b == a;
    } else {
      var b' := b[..|b| - 1];
      assert (a + b)[..|a + b| - 1] == a + b';
      FaultIsFinal(a, b', api, clock);
    }
  }

  lemma RunSnoc(cs: seq<ChangeEvent>, c: ChangeEvent, api: GraphApi, clock: nat -> string)
    ensures Run(cs + [c], api, clock) == Step(Run(cs, api, clock), c, api, clock)
  {
  }

  /** A fault raised while walking the i-th entry is the outcome of the whole walk. */
  lemma StoppedIn(entries: seq<EntryItem>, i: nat, api: GraphApi, clock: nat -> string)
    requires i < |entries| && Run(Changes(entries[..i + 1]), api, clock).fault.Some?
    ensures Run(Changes(entries), api, clock) == Run(Changes(entries[..i + 1]), api, clock)
  {
    assert entries == entries[..i + 1] + entries[i + 1..];
    ChangesAppend(entries[..i + 1], entries[i + 1..]);
    FaultIsFinal(Changes(entries[..i + 1]), Changes(entries[i + 1..]), api, clock);
  }

  /** Processing one change from a log that already holds `prefix` appends the same calls. */
  lemma StepAfter(prefix: seq<Call>, p: Progress, c: ChangeEvent, api: GraphApi, clock: nat -> string)
    requires p.fault.None?
    ensures Step(Progress(prefix + p.calls, p.sent, None), c, api, clock)
         == var q := Step(p, c, api, clock); q.(calls := prefix + q.calls)
  {
  }

  /**
   * The body of the inner loop: one change. A change on the "comments" field
   * raises if its `value` or `value.media` is missing; otherwise both details
   * are looked up (comment first) and, when both answer, one document stamped
   * with `clock(sent)` is forwarded. The effect is exactly `Step`.
   */
  method ProcessChange(change: ChangeEvent, sent: nat, clock: nat -> string, net: Client)
    returns (sent': nat, fault: Option<Fault>)
    modifies net
    ensures Progress(net.log, sent', fault) == Step(Progress(old(net.log), sent, None), change, net.api, clock)
  {
    sent', fault := sent, None;
    if change.field == Some(CommentsField) {
      if change.value.None? {
        return sent, Some(ValueMissing);
      }
      var commentId := IdText(change.value.value.id);
      if change.value.value.media.None? {
        return sent, Some(MediaMissing);
      }
      var mediaId := IdText(change.value.value.media.value.id);
      var commentDetails := net.GetCommentDetails(commentId);
      var mediaDetails := net.GetMediaDetails(mediaId);
      if commentDetails.Some? && mediaDetails.Some? {
        var event := Assemble(commentDetails.value, mediaDetails.value, clock(sent));
        net.SendToZapier(event);
        sent' := sent + 1;
      }
    }
  }

  /**
   * One turn of the inner loop: if the log held `prefix` plus the calls of
   * the first j changes, processing change j leaves it holding the calls of
   * the first j + 1, and a fault there is the fault of the whole entry.
   */
  lemma AdvanceChange(prefix: seq<Call>, done: seq<ChangeEvent>, changes: seq<ChangeEvent>, j: nat,
                      api: GraphApi, clock: nat -> string, log: seq<Call>, sent: nat, fault: Option<Fault>)
    requires j < |changes| && Run(done + changes[..j], api, clock).fault.None?
    requires Progress(log, sent, fault) ==
      Step(Progress(prefix + Run(done + changes[..j], api, clock).calls, Run(done + changes[..j], api, clock).sent, None),
           changes[j], api, clock)
    ensures log == prefix + Run(done + changes[..j + 1], api, clock).calls
    ensures sent == Run(done + changes[..j + 1], api, clock).sent
    ensures fault == Run(done + changes[..j + 1], api, clock).fault
    ensures fault.Some? ==> Run(done + changes, api, clock) == Run(done + changes[..j + 1], api, clock)
  {
    var p := Run(done + changes[..j], api, clock);
    assert done + changes[..j + 1] == (done + changes[..j]) + [changes[j]];
    RunSnoc(done + changes[..j], changes[j], api, clock);
    StepAfter(prefix, p, changes[j], api, clock);
    if fault.Some? {
      assert done + changes == (done + changes[..j + 1]) + changes[j + 1..];
      FaultIsFinal(done + changes[..j + 1], changes[j + 1..], api, clock);
    }
  }

  /**
   * The inner loop of the POST handler: the changes of one entry, in order,
   * continuing a walk whose earlier changes `done` left `prefix` plus their
   * calls in the log. It stops at the first change that raises. Its calls,
   * count and fault are exactly those of `Run` over `done + changes`.
   */
  method WalkChanges(ghost prefix: seq<Call>, ghost done: seq<ChangeEvent>, changes: seq<ChangeEvent>,
                     sent: nat, clock: nat -> string, net: Client)
    returns (sent': nat, fault: Option<Fault>)
    requires net.log == prefix + Run(done, net.api, clock).calls
    requires Run(done, net.api, clock).sent == sent && Run(done, net.api, clock).fault.None?
    modifies net
    ensures net.log == prefix + Run(done + changes, net.api, clock).calls
    ensures sent' == Run(done + changes, net.api, clock).sent
    ensures fault == Run(done + changes, net.api, clock).fault
  {
    sent', fault := sent, None;
    assert done + changes[..0] == done;
    for j := 0 to |changes|
      invariant net.log == prefix + Run(done + changes[..j], net.api, clock).calls
      invariant Run(done + changes[..j], net.api, clock).sent == sent'
      invariant Run(done + changes[..j], net.api, clock).fault.None? && fault.None?
    {
      sent', fault := ProcessChange(changes[j], sent', clock, net);
      AdvanceChange(prefix, done, changes, j, net.api, clock, net.log, sent', fault);
      if fault.Some? {
        return;
      }
    }
    assert changes[..|changes|] == changes;
  }

  /**
   * The outer loop of the POST handler: every entry in order, walking the
   * changes of each entry that has them. It stops at the first change that
   * raises. Its calls and its fault are exactly those of `Run` over the
   * entries' changes.
   */
  method WalkEntries(entries: seq<EntryItem>, clock: nat -> string, net: Client)
    returns (fault: Option<Fault>)
    modifies net
    ensures net.log == old(net.log) + Run(Changes(entries), net.api, clock).calls
    ensures fault == Run(Changes(entries), net.api, clock).fault
  {
    ghost var before := net.log;
    var sent: nat := 0;
    fault := None;
    for i := 0 to |entries|
      invariant net.log == before + Run(Changes(entries[..i]), net.api, clock).calls
      invariant Run(Changes(entries[..i]), net.api, clock).sent == sent
      invariant Run(Changes(entries[..i]), net.api, clock).fault.None? && fault.None?
    {
      assert entries[..i + 1][..i] == entries[..i];
      if entries[i].changes.Some? {
        assert Changes(entries[..i + 1]) == Changes(entries[..i]) + entries[i].changes.value;
        sent, fault := WalkChanges(before, Changes(entries[..i]), entries[i].changes.value, sent, clock, net);
        if fault.Some? {
          StoppedIn(entries, i, net.api, clock);
          return;
        }
      } else {
        assert Changes(entries[..i + 1]) == Changes(entries[..i]);
      }
    }
    assert entries[..|entries|] == entries;
  }

  /**
   * The POST /webhook handler. It checks the signature of the re-serialized
   * body, walks the entries of an "instagram" notification, and answers
   * 200 "OK" unless the payload makes it raise. Every call it makes goes
   * through `net`.
   */
  method HandleWebhookPost(cfg: Config, hmacHex: (string, string) -> string, stringify: Envelope -> string,
                           body: Envelope, signature: Option<string>, clock: nat -> string, net: Client)
    returns (outcome: Outcome)
    modifies net
    ensures net.log == old(net.log) + Dispatch(cfg, hmacHex, stringify, body, signature, net.api, clock).calls
    ensures outcome == Dispatch(cfg, hmacHex, stringify, body, signature, net.api, clock).outcome
  {
    var payload := stringify(body);
    if !VerifySignature(hmacHex, cfg.appSecret, payload, signature) {
      return Responded(Forbidden);
    }
    if body.platform == Some(Instagram) {
      if body.entry.None? {
        return Threw(EntryMissing);
      }
      var fault := WalkEntries(body.entry.value, clock, net);
      if fault.Some? {
        return Threw(fault.value);
      }
    }
    return Responded(Acknowledged);
  }
}
