/** The temperature fan-out of app/temperatures.go (`sendTemperature`) and the
    loop of app/webhooks.go that feeds it (`webhookRoutine`). The HTTP client
    is an oracle `Transport`: for a URL and a payload it gives the error the
    POST returned, or Ok. */
module Notifier {
  import opened Outcomes
  import opened Model
  import opened WebhookStore

  const MissingFields: string := "Missing fields in temperature object"

  /** One POST: the result the transport reports for a URL and a body. */
  type Transport = (string, Payload) -> Outcome

  /** The outcome of one dispatch and the URLs posted to, in order. */
  datatype Delivery = Delivery(outcome: Outcome, attempted: seq<string>)

  /** The check `sendTemperature` makes before it looks at the store. */
  predicate IsComplete(t: Temperature) {
    t.cityId != 0 && t.timestamp != 0
  }

  /** The body posted for a reading: its city, maximum, minimum and time, under
      the keys the subscribers expect (the time under a capitalised key). */
  function BuildPayload(t: Temperature): (p: Payload)
    ensures p.Keys == {"city_id", "max", "min", "Timestamp"}
    ensures p["city_id"] == t.cityId && p["max"] == t.max && p["min"] == t.min
    ensures p["Timestamp"] == t.timestamp
  {
    map["city_id" := t.cityId, "max" := t.max, "min" := t.min, "Timestamp" := t.timestamp]
  }

  /** The callback URLs of the entries for a city, in store order. */
  function Receivers(hooks: seq<Webhook>, cityId: int): seq<string> {
    if hooks == [] then []
    else
      var last := hooks[|hooks| - 1];
      Receivers(hooks[..|hooks| - 1], cityId) + (if last.cityId == cityId then [last.callbackUrl] else [])
  }

  /** The URLs are gathered list by list: the receivers of two lists one after
      the other are those of the first followed by those of the second. With
      the one-entry case, this fixes the result, order included. */
  lemma {:induction false} ReceiversConcat(a: seq<Webhook>, b: seq<Webhook>, cityId: int)
    ensures Receivers(a + b, cityId) == Receivers(a, cityId) + Receivers(b, cityId)
    ensures Receivers([], cityId) == []
    ensures |b| == 1 ==> Receivers(b, cityId) == (if b[0].cityId == cityId then [b[0].callbackUrl] else [])
    decreases |b|
  {
    if b == [] {
      assert a + b == a;
    } else {
      var n := |b| - 1;
      assert (a + b)[..|a + b| - 1] == a + b[..n];
      assert (a + b)[|a + b| - 1] == b[n];
      ReceiversConcat(a, b[..n], cityId);
      if |b| == 1 {
        assert b[..n] == [];
      }
    }
  }

  /** A URL is a receiver exactly when some entry for the city has it, and
      there are at most as many receivers as entries. */
  lemma {:induction false} ReceiversMembers(hooks: seq<Webhook>, cityId: int, url: string)
    ensures url in Receivers(hooks, cityId) <==>
      exists i :: 0 <= i < |hooks| && hooks[i].cityId == cityId && hooks[i].callbackUrl == url
    ensures |Receivers(hooks, cityId)| <= |hooks|
    decreases |hooks|
  {
    if hooks != [] {
      var n := |hooks| - 1;
      var init := hooks[..n];
      ReceiversMembers(init, cityId, url);
      if url in Receivers(hooks, cityId) && !(url in Receivers(init, cityId)) {
        assert hooks[n].cityId == cityId && hooks[n].callbackUrl == url;
      }
      if exists i :: 0 <= i < |hooks| && hooks[i].cityId == cityId && hooks[i].callbackUrl == url {
        var i :| 0 <= i < |hooks| && hooks[i].cityId == cityId && hooks[i].callbackUrl == url;
        if i < n {
          assert init[i] == hooks[i];
        }
      }
    }
  }

  /** sendTemperature's posting loop: the URLs in list order, stopping at the
      first error, which becomes the result. */
  function Dispatch(urls: seq<string>, payload: Payload, post: Transport): Delivery {
    if urls == [] then Delivery(Ok, [])
    else
      var o := post(urls[0], payload);
      if o.Err? then Delivery(o, [urls[0]])
      else
        var rest := Dispatch(urls[1..], payload, post);
        Delivery(rest.outcome, [urls[0]] + rest.attempted)
  }

  /** The URLs posted to are a prefix of the list. The result is Ok exactly
      when every POST succeeded, and then every URL was posted to. Otherwise
      the last URL posted to is the first that failed, its error is the
      result, every earlier POST succeeded, and no later URL was tried. */
  lemma {:induction false} DispatchShortCircuits(urls: seq<string>, payload: Payload, post: Transport)
    ensures var d := Dispatch(urls, payload, post);
      && d.attempted <= urls
      && (d.outcome == Ok <==> forall i :: 0 <= i < |urls| ==> post(urls[i], payload) == Ok)
      && (d.outcome == Ok ==> d.attempted == urls)
      && (d.outcome.Err? ==>
            var k := |d.attempted| - 1;
            && k >= 0
            && d.outcome == post(urls[k], payload)
            && forall i :: 0 <= i < k ==> post(urls[i], payload) == Ok)
    decreases |urls|
  {
    if urls != [] {
      var o := post(urls[0], payload);
      if o == Ok {
        DispatchShortCircuits(urls[1..], payload, post);
        var rest := Dispatch(urls[1..], payload, post);
        assert urls == [urls[0]] + urls[1..];
        forall i | 0 < i < |urls| ensures urls[i] == urls[1..][i - 1] {}
        if rest.outcome == Ok {
          assert forall i :: 0 <= i < |urls| ==> post(urls[i], payload) == Ok by {
            forall i | 0 <= i < |urls| ensures post(urls[i], payload) == Ok {
              if i > 0 { assert post(urls[1..][i - 1], payload) == Ok; }
            }
          }
        } else {
          var k := |rest.attempted| - 1;
          assert urls[1..][k] == urls[k + 1];
          assert !(post(urls[k + 1], payload) == Ok);
        }
      }
    }
  }

  /** A dispatch that has already got past the first i URLs, all of which
      succeeded, posted to them and then did what dispatching the rest does. */
  lemma {:induction false} DispatchAfter(urls: seq<string>, payload: Payload, post: Transport, i: nat)
    requires i <= |urls|
    requires forall j :: 0 <= j < i ==> post(urls[j], payload) == Ok
    ensures var rest := Dispatch(urls[i..], payload, post);
      Dispatch(urls, payload, post) == Delivery(rest.outcome, urls[..i] + rest.attempted)
    decreases i
  {
    if i > 0 {
      DispatchAfter(urls, payload, post, i - 1);
      var before := Dispatch(urls[i - 1..], payload, post);
      var r := Dispatch(urls[i..], payload, post);
      assert urls[i - 1..][0] == urls[i - 1] && urls[i - 1..][1..] == urls[i..];
      assert post(urls[i - 1], payload) == Ok;
      assert before == Delivery(r.outcome, [urls[i - 1]] + r.attempted);
      assert urls[..i] == urls[..i - 1] + [urls[i - 1]];
      assert urls[..i - 1] + ([urls[i - 1]] + r.attempted) == urls[..i] + r.attempted;
    } else {
      assert urls[0..] == urls && urls[..0] + Dispatch(urls, payload, post).attempted == Dispatch(urls, payload, post).attempted;
    }
  }

  /** sendTemperature on the store's value. */
  function Notify(hooks: seq<Webhook>, t: Temperature, post: Transport): Delivery {
    if !IsComplete(t) then Delivery(Err(MissingFields), [])
    else
      var urls := Receivers(hooks, t.cityId);
      if urls == [] then Delivery(Ok, [])
      else Dispatch(urls, BuildPayload(t), post)
  }

  /** A reading without a city or a timestamp is refused before any POST; a
      complete one with no subscriber succeeds without any POST; otherwise
      the receivers of its city get its payload, with the short-circuit policy
      of `Dispatch`. */
  lemma NotifySpec(hooks: seq<Webhook>, t: Temperature, post: Transport)
    ensures (t.cityId == 0 || t.timestamp == 0) ==>
      Notify(hooks, t, post) == Delivery(Err("Missing fields in temperature object"), [])
    ensures IsComplete(t) && Receivers(hooks, t.cityId) == [] ==> Notify(hooks, t, post) == Delivery(Ok, [])
    ensures IsComplete(t) ==>
      Notify(hooks, t, post) == Dispatch(Receivers(hooks, t.cityId), BuildPayload(t), post)
  {
  }

  /** A reading for a city nobody subscribed to posts nothing and succeeds,
      however many webhooks other cities have. */
  lemma {:induction false} NoSubscriberNoPost(hooks: seq<Webhook>, t: Temperature, post: Transport)
    requires IsComplete(t)
    requires forall i :: 0 <= i < |hooks| ==> hooks[i].cityId != t.cityId
    ensures Notify(hooks, t, post) == Delivery(Ok, [])
  {
    if Receivers(hooks, t.cityId) != [] {
      var url := Receivers(hooks, t.cityId)[0];
      ReceiversMembers(hooks, t.cityId, url);
    }
  }

  /** Every URL posted to belongs to a webhook of the reading's city. */
  lemma PostsOnlyToSubscribers(hooks: seq<Webhook>, t: Temperature, post: Transport, url: string)
    requires url in Notify(hooks, t, post).attempted
    ensures exists i :: 0 <= i < |hooks| && hooks[i].cityId == t.cityId && hooks[i].callbackUrl == url
  {
    var urls := Receivers(hooks, t.cityId);
    DispatchShortCircuits(urls, BuildPayload(t), post);
    ReceiversMembers(hooks, t.cityId, url);
  }

  /** sendTemperature. The store is only read: the method may modify nothing. */
  method SendTemperature(store: Store, t: Temperature, post: Transport) returns (err: Outcome, ghost attempted: seq<string>)
    requires store.Valid()
    ensures err == Notify(store.Contents(), t, post).outcome
    ensures attempted == Notify(store.Contents(), t, post).attempted
  {
    attempted := [];
    if t.cityId == 0 || t.timestamp == 0 {
      return Err(MissingFields), attempted;
    }
    var receiverUrls: seq<string> := [];
    var i := 0;
    while i < store.len
      invariant 0 <= i <= store.len
      invariant receiverUrls == Receivers(store.Contents()[..i], t.cityId)
    {
      assert store.Contents()[..i + 1][..i] == store.Contents()[..i];
      var hook := store.buf[i];
      if hook.cityId == t.cityId {
        receiverUrls := receiverUrls + [hook.callbackUrl];
      }
      i := i + 1;
    }
    assert store.Contents()[..i] == store.Contents();
    if |receiverUrls| == 0 {
      return Ok, attempted;
    }
    var requestBody := BuildPayload(t);
    var k := 0;
    while k < |receiverUrls|
      invariant 0 <= k <= |receiverUrls|
      invariant attempted == receiverUrls[..k]
      invariant forall j :: 0 <= j < k ==> post(receiverUrls[j], requestBody) == Ok
    {
      var e := post(receiverUrls[k], requestBody);
      attempted := attempted + [receiverUrls[k]];
      if e.Err? {
        DispatchAfter(receiverUrls, requestBody, post, k);
        assert receiverUrls[k..][0] == receiverUrls[k];
        return e, attempted;
      }
      assert receiverUrls[..k + 1] == receiverUrls[..k] + [receiverUrls[k]];
      k := k + 1;
    }
    DispatchAfter(receiverUrls, requestBody, post, k);
    assert receiverUrls[k..] == [];
    assert receiverUrls[..k] + [] == receiverUrls;
    err := Ok;
  }

  /** The error lines webhookRoutine logs for a run of readings. */
  function NotifyLog(hooks: seq<Webhook>, events: seq<Temperature>, post: Transport): seq<string>
  {
    if events == [] then []
    else
      var d := Notify(hooks, events[0], post);
      (if d.outcome.Err? then [d.outcome.message] else []) + NotifyLog(hooks, events[1..], post)
  }

  /** webhookRoutine's log so far, plus what the remaining readings will log,
      stays the whole run's log after one more reading. */
  lemma NotifyLogStep(hooks: seq<Webhook>, events: seq<Temperature>, post: Transport, i: nat, logged: seq<string>)
    requires i < |events|
    requires logged + NotifyLog(hooks, events[i..], post) == NotifyLog(hooks, events, post)
    ensures var d := Notify(hooks, events[i], post);
      var line := if d.outcome.Err? then [d.outcome.message] else [];
      (logged + line) + NotifyLog(hooks, events[i + 1..], post) == NotifyLog(hooks, events, post)
  {
    var d := Notify(hooks, events[i], post);
    var line := if d.outcome.Err? then [d.outcome.message] else [];
    var rest := NotifyLog(hooks, events[i + 1..], post);
    assert events[i..][0] == events[i] && events[i..][1..] == events[i + 1..];
    assert NotifyLog(hooks, events[i..], post) == line + rest;
    assert logged + (line + rest) == (logged + line) + rest;
  }

  /** webhookRoutine, run over the readings it receives: sendTemperature once
      per reading, in order, with each error logged and the loop going on. */
  method WebhookRoutine(store: Store, events: seq<Temperature>, post: Transport)
      returns (logged: seq<string>, ghost deliveries: seq<Delivery>)
    requires store.Valid()
    ensures |deliveries| == |events|
    ensures forall i :: 0 <= i < |events| ==> deliveries[i] == Notify(store.Contents(), events[i], post)
    ensures logged == NotifyLog(store.Contents(), events, post)
  {
    logged, deliveries := [], [];
    ghost var hooks := store.Contents();
    var i := 0;
    while i < |events|
      invariant 0 <= i <= |events|
      invariant |deliveries| == i
      invariant forall j :: 0 <= j < i ==> deliveries[j] == Notify(hooks, events[j], post)
      invariant logged + NotifyLog(hooks, events[i..], post) == NotifyLog(hooks, events, post)
    {
      var err, attempted := SendTemperature(store, events[i], post);
      NotifyLogStep(hooks, events, post, i, logged);
      deliveries := deliveries + [Delivery(err, attempted)];
      var line := if err.Err? then [err.message] else [];
      logged := logged + line;
      i := i + 1;
    }
    assert events[i..] == [];
  }
}
