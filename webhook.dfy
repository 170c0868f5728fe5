/** The two `/webhook` routes: the subscription handshake (GET) and the event
    dispatch (POST). */
module Webhook {
  import opened Values
  import opened Messenger
  import opened Handlers

  // ---- GET /webhook ----

  const VerifyToken: string := "taskman"

  /** The `hub.mode`, `hub.verify_token` and `hub.challenge` query parameters. */
  datatype Query = Query(mode: Option<string>, token: Option<string>, challenge: Option<string>)

  /** The body `res.send(challenge)` writes: the challenge verbatim, or nothing. */
  function ChallengeBody(challenge: Option<string>): ResponseBody
  {
    if challenge.Some? then Body(challenge.value) else EmptyBody
  }

  /** The handshake. `None` means the handler writes no response at all. */
  method VerifyWebhook(q: Query) returns (res: Option<HttpResponse>)
    ensures res.None? <==> !(Truthy(q.mode) && Truthy(q.token))
    ensures res.Some? ==> res.value.status == 200 || res.value.status == 403
    ensures (res.Some? && res.value.status == 200) <==>
      q.mode == Some("subscribe") && q.token == Some(VerifyToken)
    ensures res.Some? && res.value.status == 200 ==> res.value.body == ChallengeBody(q.challenge)
    ensures res.Some? && res.value.status == 403 ==> res.value.body == StatusText
  {
    res := None;
    if Truthy(q.mode) && Truthy(q.token) {
      if q.mode == Some("subscribe") && q.token == Some(VerifyToken) {
        res := Some(HttpResponse(200, ChallengeBody(q.challenge)));
      } else {
        res := Some(HttpResponse(403, StatusText));
      }
    }
  }

  // ---- POST /webhook ----

  predicate IsPage(body: Envelope)
  {
    body.obj == Some("page")
  }

  /** Every entry has a `messaging[0]` to read. */
  predicate WellFormed(entries: seq<Entry>)
  {
    forall i | 0 <= i < |entries| :: |entries[i].messaging| > 0
  }

  /** The one event of an entry that is read. */
  function First(entry: Entry): Event
    requires |entry.messaging| > 0
  {
    entry.messaging[0]
  }

  /** The events the dispatch reads: `messaging[0]` of each entry, in entry order. */
  function FirstEvents(entries: seq<Entry>): (events: seq<Event>)
    requires WellFormed(entries)
    ensures |events| == |entries|
    ensures forall i | 0 <= i < |entries| :: events[i] == First(entries[i])
  {
    if entries == [] then [] else [First(entries[0])] + FirstEvents(entries[1..])
  }

  /** An event that reaches one of the two handlers. */
  predicate Handled(ev: Event)
  {
    ev.message.Some? || ev.postback.Some?
  }

  /** The handler an event is routed to, message before postback. */
  function HandlerEffect(ev: Event): (e: Effect)
    requires Handled(ev)
    ensures e.Psid() == ev.sender
  {
    if ev.message.Some? then MessageEffect(ev.sender, ev.message.value)
    else PostbackEffect(ev.sender, ev.postback.value)
  }

  /** The effects of one event: its handler's, or none. */
  function EventEffects(ev: Event): seq<Effect>
  {
    if Handled(ev) then [HandlerEffect(ev)] else []
  }

  /** The effects of a run of events, in order. */
  function Dispatch(events: seq<Event>): seq<Effect>
  {
    if events == [] then [] else EventEffects(events[0]) + Dispatch(events[1..])
  }

  /** The POST handler: walks the entries in order, calls the handler of each
      entry's first event, and answers 200 "EVENT_RECEIVED"; a body that is not a
      page subscription gets 404 and no handler runs. */
  method HandleWebhookPost(body: Envelope) returns (res: HttpResponse, outbox: seq<Effect>)
    requires IsPage(body) ==> WellFormed(body.entry)
    ensures IsPage(body) ==> res == HttpResponse(200, Body("EVENT_RECEIVED"))
    ensures !IsPage(body) ==> res == HttpResponse(404, StatusText) && outbox == []
    ensures IsPage(body) ==> outbox == Dispatch(FirstEvents(body.entry))
  {
    outbox := [];
    if body.obj == Some("page") {
      ghost var events := FirstEvents(body.entry);
      var i := 0;
      while i < |body.entry|
        invariant 0 <= i <= |body.entry|
        invariant outbox == Dispatch(events[..i])
      {
        var webhookEvent := body.entry[i].messaging[0];
        assert webhookEvent == events[i];
        DispatchStep(events, i);
        var senderPsid := webhookEvent.sender;
        if webhookEvent.message.Some? {
          var e := HandleMessage(senderPsid, webhookEvent.message.value);
          assert EventEffects(webhookEvent) == [e];
          outbox := outbox + [e];
        } else if webhookEvent.postback.Some? {
          var e := HandlePostback(senderPsid, webhookEvent.postback.value);
          assert EventEffects(webhookEvent) == [e];
          outbox := outbox + [e];
        }
        i := i + 1;
      }
      assert events[..i] == events;
      res := HttpResponse(200, Body("EVENT_RECEIVED"));
    } else {
      res := HttpResponse(404, StatusText);
    }
  }

  // ---- what the dispatch promises ----

  /** Dispatching a run of events is dispatching its parts one after the other. */
  lemma {:induction false} DispatchAppend(a: seq<Event>, b: seq<Event>)
    ensures Dispatch(a + b) == Dispatch(a) + Dispatch(b)
  {
    if a == [] {
      assert a + b == b;
    } else {
      var head, tail := EventEffects(a[0]), a[1..];
      assert (a + b)[0] == a[0];
      assert (a + b)[1..] == tail + b;
      DispatchAppend(tail, b);
      calc {
        Dispatch(a + b);
        head + Dispatch(tail + b);
        head + (Dispatch(tail) + Dispatch(b));
        (head + Dispatch(tail)) + Dispatch(b);
        Dispatch(a) + Dispatch(b);
      }
    }
  }

  /** One more event adds its own effects at the end. */
  lemma DispatchStep(events: seq<Event>, i: nat)
    requires i < |events|
    ensures Dispatch(events[..i + 1]) == Dispatch(events[..i]) + EventEffects(events[i])
  {
    assert events[..i + 1] == events[..i] + [events[i]];
    DispatchAppend(events[..i], [events[i]]);
    assert Dispatch([events[i]]) == EventEffects(events[i]) by {
      assert [events[i]][1..] == [];
    }
  }

  /** At most one effect per event; exactly one each when every event is handled;
      none when no event is. */
  lemma {:induction false} DispatchCount(events: seq<Event>)
    ensures |Dispatch(events)| <= |events|
    ensures (forall i | 0 <= i < |events| :: Handled(events[i])) ==> |Dispatch(events)| == |events|
    ensures (forall i | 0 <= i < |events| :: !Handled(events[i])) ==> Dispatch(events) == []
  {
    if events != [] {
      var tail := events[1..];
      DispatchCount(tail);
      assert forall i | 0 <= i < |tail| :: tail[i] == events[i + 1];
    }
  }

  /** The number of events that carry a message or a postback. */
  function CountHandled(events: seq<Event>): nat
  {
    if events == [] then 0 else (if Handled(events[0]) then 1 else 0) + CountHandled(events[1..])
  }

  /** Exactly one effect per event that carries a message or a postback. */
  lemma {:induction false} DispatchLength(events: seq<Event>)
    ensures |Dispatch(events)| == CountHandled(events)
  {
    if events != [] {
      DispatchLength(events[1..]);
    }
  }

  /** Where the effect of event `i` sits in the outbox: after those of the events before it. */
  function Position(events: seq<Event>, i: nat): nat
    requires i <= |events|
  {
    |Dispatch(events[..i])|
  }

  /** A handled event leaves exactly its handler's effect, at its position. */
  lemma EffectOfEvent(events: seq<Event>, i: nat)
    requires i < |events| && Handled(events[i])
    ensures Position(events, i) < |Dispatch(events)|
    ensures Dispatch(events)[Position(events, i)] == HandlerEffect(events[i])
    ensures Position(events, i + 1) == Position(events, i) + 1
  {
    var before, rest := events[..i], events[i..];
    assert events == before + rest;
    DispatchAppend(before, rest);
    assert rest[0] == events[i];
    assert events[..i + 1] == before + [events[i]];
    DispatchAppend(before, [events[i]]);
    assert Dispatch([events[i]]) == [HandlerEffect(events[i])] by {
      assert [events[i]][1..] == [];
    }
  }

  /** Effects keep event order: a later handled event's effect comes later. */
  lemma EffectsInOrder(events: seq<Event>, i: nat, j: nat)
    requires i < j < |events| && Handled(events[i]) && Handled(events[j])
    ensures Position(events, i) < Position(events, j)
  {
    EffectOfEvent(events, i);
    var front, middle := events[..i + 1], events[i + 1..j];
    assert events[..j] == front + middle;
    DispatchAppend(front, middle);
  }

  /** Every effect in the outbox comes from some handled event and concerns that
      event's sender. */
  lemma {:induction false} EffectProvenance(events: seq<Event>, k: nat)
    requires k < |Dispatch(events)|
    ensures exists i | 0 <= i < |events| ::
      Handled(events[i]) && Dispatch(events)[k] == HandlerEffect(events[i])
      && Dispatch(events)[k].Psid() == events[i].sender
  {
    var head := EventEffects(events[0]);
    if k < |head| {
      assert Dispatch(events)[k] == HandlerEffect(events[0]);
    } else {
      var tail := events[1..];
      EffectProvenance(tail, k - |head|);
      var i :| 0 <= i < |tail| && Handled(tail[i])
        && Dispatch(tail)[k - |head|] == HandlerEffect(tail[i]);
      assert tail[i] == events[i + 1];
    }
  }

  /** Only `messaging[0]` of each entry matters: batches that agree on the first
      events dispatch alike, whatever else their entries carry. */
  lemma FirstEventOnly(a: seq<Entry>, b: seq<Entry>)
    requires WellFormed(a) && WellFormed(b) && |a| == |b|
    requires forall i | 0 <= i < |a| :: First(a[i]) == First(b[i])
    ensures Dispatch(FirstEvents(a)) == Dispatch(FirstEvents(b))
  {
    assert FirstEvents(a) == FirstEvents(b);
  }

  /** An event carrying both a message and a postback reaches the message handler only. */
  lemma MessageTakesPriority(ev: Event)
    requires ev.message.Some? && ev.postback.Some?
    ensures EventEffects(ev) == [MessageEffect(ev.sender, ev.message.value)]
  {
  }
}
