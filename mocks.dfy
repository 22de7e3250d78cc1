/** The mock transport of app/app.go: a registry of canned responses keyed by
    URL, and a switch that makes `sendRequest` answer from it instead of the
    network. It is the concrete transport the notifier is exercised with. */
module Mocks {
  import opened Outcomes
  import opened Model
  import opened WebhookStore
  import opened Notifier

  const NoMockup: string := "No mockup found for given request"

  /** The parts of an `*http.Response` the core passes along. */
  datatype Response = Response(statusCode: int, body: string)

  /** A canned answer for one URL; `response` is None for a nil response. */
  datatype Mock = Mock(url: string, httpMethod: string, response: Option<Response>, err: Outcome)

  /** The real client `http.Post`, which is not part of this model. */
  type Network = (string, Payload) -> (Option<Response>, Outcome)

  /** What sendRequest returns in a given registry state. */
  function Route(enabled: bool, mocks: map<string, Mock>, url: string, payload: Payload, network: Network): (Option<Response>, Outcome)
  {
    if !enabled then network(url, payload)
    else if url !in mocks then (None, Err(NoMockup))
    else (mocks[url].response, mocks[url].err)
  }

  /** sendRequest seen as the notifier's oracle: only its error is used. */
  function AsTransport(enabled: bool, mocks: map<string, Mock>, network: Network): (post: Transport)
    ensures forall u, p :: enabled && u !in mocks ==> post(u, p) == Err(NoMockup)
    ensures forall u, p :: enabled && u in mocks ==> post(u, p) == mocks[u].err
    ensures forall u, p :: !enabled ==> post(u, p) == network(u, p).1
  {
    (u: string, p: Payload) => Route(enabled, mocks, u, p, network).1
  }

  /** The package variables `enableMocks` and `mocks`. */
  class Registry {
    var enabled: bool
    var mocks: map<string, Mock>

    /** Their initial values: mocks off, no mock registered. */
    constructor ()
      ensures !enabled && mocks == map[]
    {
      enabled := false;
      mocks := map[];
    }

    method StartMockups()
      modifies this
      ensures enabled && mocks == old(mocks)
    {
      enabled := true;
    }

    method DisableMockups()
      modifies this
      ensures !enabled && mocks == old(mocks)
    {
      enabled := false;
    }

    method FlushMockups()
      modifies this
      ensures mocks == map[] && enabled == old(enabled)
    {
      mocks := map[];
    }

    /** Registers m under its URL, replacing an earlier mock for that URL. */
    method AddMockups(m: Mock)
      modifies this
      ensures enabled == old(enabled)
      ensures m.url in mocks && mocks[m.url] == m
      ensures mocks.Keys == old(mocks).Keys + {m.url}
      ensures forall u :: u in old(mocks) && u != m.url ==> mocks[u] == old(mocks)[u]
    {
      mocks := mocks[m.url := m];
    }

    /** sendRequest: with mocks on, the registered mock's response and error
        for the URL, or a nil response and "No mockup found for given request"
        when there is none; with mocks off, whatever the network gives. */
    method SendRequest(url: string, payload: Payload, network: Network) returns (resp: Option<Response>, err: Outcome)
      ensures enabled && url !in mocks ==> resp == None && err == Err("No mockup found for given request")
      ensures enabled && url in mocks ==> resp == mocks[url].response && err == mocks[url].err
      ensures !enabled ==> (resp, err) == network(url, payload)
      ensures (resp, err) == Route(enabled, mocks, url, payload, network)
      ensures err == Oracle(network)(url, payload)
    {
      if enabled {
        if url !in mocks {
          return None, Err(NoMockup);
        }
        var m := mocks[url];
        return m.response, m.err;
      }
      var answer := network(url, payload);
      resp, err := answer.0, answer.1;
    }

    /** The transport the registry gives the notifier in its current state. */
    function Oracle(network: Network): Transport
      reads this
    {
      AsTransport(enabled, mocks, network)
    }
  }

  /** With mocks on and a registry holding mocks only for some URLs, the
      notifier's POSTs stop at the first subscriber without a mock, and that
      is reported as "No mockup found for given request"; a registry with a
      mock for every subscriber returns the first mocked error, or Ok. */
  lemma {:induction false} MockedFanOut(hooks: seq<Webhook>, t: Temperature, mocks: map<string, Mock>, network: Network)
    requires IsComplete(t)
    ensures var urls := Receivers(hooks, t.cityId);
      var d := Notify(hooks, t, AsTransport(true, mocks, network));
      && (d.outcome == Ok <==> forall i :: 0 <= i < |urls| ==> urls[i] in mocks && mocks[urls[i]].err == Ok)
      && (d.outcome.Err? ==>
            var u := d.attempted[|d.attempted| - 1];
            d.outcome == (if u in mocks then mocks[u].err else Err("No mockup found for given request")))
  {
    var urls := Receivers(hooks, t.cityId);
    var post := AsTransport(true, mocks, network);
    var body := BuildPayload(t);
    if urls != [] {
      DispatchShortCircuits(urls, body, post);
      var d := Dispatch(urls, body, post);
      assert Notify(hooks, t, post) == d;
      if d.outcome.Err? {
        assert d.attempted[|d.attempted| - 1] == urls[|d.attempted| - 1];
      }
      forall i | 0 <= i < |urls|
        ensures (post(urls[i], body) == Ok) == (urls[i] in mocks && mocks[urls[i]].err == Ok)
      {
      }
    }
  }

  /** With mocks on and an empty registry, one subscriber for the reading's
      city: the first POST fails with "No mockup found for given request". */
  lemma NoMockupScenario(network: Network)
    ensures var hooks := [Webhook(1, 1, "https://my.service.com/high-temperature")];
      var t := Temperature(0, 1, 20, 10, 10000);
      Notify(hooks, t, AsTransport(true, map[], network))
        == Delivery(Err("No mockup found for given request"), ["https://my.service.com/high-temperature"])
  {
  }

  /** Two subscribers to one city where the first one's mock fails: the error
      is returned and the second is never posted to. */
  lemma FirstFailureStopsFanOut(network: Network)
    ensures var a := "https://a.example/hook";
      var b := "https://b.example/hook";
      var hooks := [Webhook(1, 5, a), Webhook(2, 5, b)];
      var mocks := map[a := Mock(a, "POST", None, Err("invalid response")), b := Mock(b, "POST", None, Ok)];
      Notify(hooks, Temperature(0, 5, 30, 10, 1000), AsTransport(true, mocks, network))
        == Delivery(Err("invalid response"), [a])
  {
    var a := "https://a.example/hook";
    var b := "https://b.example/hook";
    var hooks := [Webhook(1, 5, a), Webhook(2, 5, b)];
    var mocks := map[a := Mock(a, "POST", None, Err("invalid response")), b := Mock(b, "POST", None, Ok)];
    var first := [Webhook(1, 5, a)];
    assert hooks[..1] == first && first[..0] == [];
    assert Receivers(first, 5) == [a];
    var urls := Receivers(hooks, 5);
    assert urls == [a] + [b];
    assert mocks[a].err == Err("invalid response");
    var body := BuildPayload(Temperature(0, 5, 30, 10, 1000));
    var post := AsTransport(true, mocks, network);
    assert post(a, body) == Err("invalid response");
    assert Dispatch(urls, body, post) == Delivery(Err("invalid response"), [a]);
  }
}
