/** The scenarios of app/webhooks_test.go and app/temperatures_test.go, stated
    on the model: each lemma is one test's setting and its expected result. */
module Scenarios {
  import opened Outcomes
  import opened Model
  import opened WebhookStore
  import opened WebhookActor
  import opened Notifier

  /** An "add" of the zero webhook leaves an empty store empty. */
  lemma AddZeroWebhookIgnored()
    ensures ApplyAll([], [Action("add", Webhook(0, 0, ""))]) == []
    ensures ErrorLog([], [Action("add", Webhook(0, 0, ""))]) == ["Invalid webhook"]
  {
  }

  /** A "delete" for id 0 in a store holding only id 1 keeps its one entry;
      a "delete" for id 1 empties it. */
  lemma DeleteScenarios()
    ensures var hooks := [Webhook(1, 1, "http://google.com")];
      && ApplyAll(hooks, [Action("delete", Webhook(0, 0, ""))]) == hooks
      && ApplyAll(hooks, [Action("delete", Webhook(1, 0, ""))]) == []
  {
  }

  /** Restoring two stored webhooks of one city and then notifying that city
      posts to both, in the order the rows came back. */
  lemma {:induction false} RestoreThenNotify(actions: seq<Action>, post: Transport)
    requires IsReplayOf(actions, [Webhook(1, 5, "https://a.example/x"), Webhook(2, 5, "https://b.example/y")])
    requires forall u, p :: post(u, p) == Ok
    ensures var s := ApplyAll([], actions);
      && s == [Webhook(1, 5, "https://a.example/x"), Webhook(2, 5, "https://b.example/y")]
      && Notify(s, Temperature(0, 5, 30, 10, 1000), post)
           == Delivery(Ok, ["https://a.example/x", "https://b.example/y"])
  {
    var rows := [Webhook(1, 5, "https://a.example/x"), Webhook(2, 5, "https://b.example/y")];
    assert AllValid(rows);
    ReplayOfValidRows(rows, actions);
    ReceiversConcat([rows[0]], [rows[1]], 5);
    ReceiversConcat([], [rows[0]], 5);
    assert [rows[0]] + [rows[1]] == rows;
    var urls := ["https://a.example/x", "https://b.example/y"];
    assert Receivers(rows, 5) == urls;
    DispatchShortCircuits(urls, BuildPayload(Temperature(0, 5, 30, 10, 1000)), post);
  }

  /** One subscriber and one reading for its city: exactly one POST, to its
      URL, with the body {"city_id":5,"max":30,"min":10,"Timestamp":1000}. */
  lemma SingleSubscriberScenario(post: Transport)
    ensures var t := Temperature(0, 5, 30, 10, 1000);
      && Notify([Webhook(1, 5, "https://x/y")], t, post)
           == Delivery(post("https://x/y", BuildPayload(t)), ["https://x/y"])
      && BuildPayload(t) == map["city_id" := 5, "max" := 30, "min" := 10, "Timestamp" := 1000]
  {
  }

  /** The webhook routine given an empty reading logs the missing-fields
      error and posts nothing. */
  lemma EmptyReadingLogged(hooks: seq<Webhook>, post: Transport)
    ensures NotifyLog(hooks, [Temperature(0, 0, 0, 0, 0)], post) == ["Missing fields in temperature object"]
    ensures Notify(hooks, Temperature(0, 0, 0, 0, 0), post).attempted == []
  {
  }
}
