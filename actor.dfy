/** The single writer of the webhook store (app/webhooks.go): tagged actions
    are applied one at a time in arrival order, failures are logged and
    skipped; at startup the persisted rows are replayed as "add" actions.
    The queue between producers and the writer is the order of a sequence. */
module WebhookActor {
  import opened Outcomes
  import opened Model
  import opened WebhookStore

  /** One message on `webhookChan`. */
  datatype Action = Action(tag: string, webhook: Webhook)

  /** What the rows query of the persistence layer gave back. */
  datatype Fetch = Rows(rows: seq<Webhook>) | FetchFailed(message: string)

  /** The store operation an action selects: "add" adds, any other tag deletes. */
  function Apply(s: seq<Webhook>, a: Action): Update {
    if a.tag == "add" then Add(s, a.webhook) else Delete(s, a.webhook)
  }

  /** The list after the actions, applied from first to last. */
  function ApplyAll(s: seq<Webhook>, actions: seq<Action>): seq<Webhook>
    decreases |actions|
  {
    if actions == [] then s else ApplyAll(Apply(s, actions[0]).store, actions[1..])
  }

  /** What the actor logs for one result: the error's message, or nothing. */
  function LogLine(o: Outcome): seq<string> {
    if o.Err? then [o.message] else []
  }

  /** The error messages the actor logs while applying the actions, in order. */
  function ErrorLog(s: seq<Webhook>, actions: seq<Action>): seq<string>
    decreases |actions|
  {
    if actions == [] then []
    else
      var u := Apply(s, actions[0]);
      LogLine(u.outcome) + ErrorLog(u.store, actions[1..])
  }

  /** The actor's loop invariant survives one more action: what remains of
      the fold and of the log after it is what remained before, minus that
      action's own effect and log line. */
  lemma FoldInvariantStep(s0: seq<Webhook>, s: seq<Webhook>, actions: seq<Action>, i: nat, logged: seq<string>)
    requires i < |actions|
    requires ApplyAll(s, actions[i..]) == ApplyAll(s0, actions)
    requires logged + ErrorLog(s, actions[i..]) == ErrorLog(s0, actions)
    ensures var u := Apply(s, actions[i]);
      && ApplyAll(u.store, actions[i + 1..]) == ApplyAll(s0, actions)
      && (logged + LogLine(u.outcome)) + ErrorLog(u.store, actions[i + 1..]) == ErrorLog(s0, actions)
  {
    var u := Apply(s, actions[i]);
    var rest := ErrorLog(u.store, actions[i + 1..]);
    assert actions[i..][0] == actions[i] && actions[i..][1..] == actions[i + 1..];
    assert ErrorLog(s, actions[i..]) == LogLine(u.outcome) + rest;
    assert logged + (LogLine(u.outcome) + rest) == (logged + LogLine(u.outcome)) + rest;
  }

  /** The valid rows, in row order: what replaying them adds to the store. */
  function ValidOnly(rows: seq<Webhook>): seq<Webhook> {
    if rows == [] then []
    else (if IsValid(rows[0]) then [rows[0]] else []) + ValidOnly(rows[1..])
  }

  /** A failed action leaves the list as it was; the actor then goes on with
      the next one. */
  lemma FailedActionChangesNothing(s: seq<Webhook>, a: Action)
    ensures Apply(s, a).outcome.Err? ==> Apply(s, a).store == s
    ensures a.tag != "add" ==> Apply(s, a) == Delete(s, a.webhook)
  {
  }

  /** Processing one batch of actions and then another is processing their
      concatenation: the store's content depends only on the order in which
      actions reached the actor. */
  lemma {:induction false} ApplyAllConcat(s: seq<Webhook>, a: seq<Action>, b: seq<Action>)
    ensures ApplyAll(s, a + b) == ApplyAll(ApplyAll(s, a), b)
    ensures ErrorLog(s, a + b) == ErrorLog(s, a) + ErrorLog(ApplyAll(s, a), b)
    decreases |a|
  {
    if a == [] {
      assert a + b == b;
    } else {
      assert (a + b)[0] == a[0];
      assert (a + b)[1..] == a[1..] + b;
      ApplyAllConcat(Apply(s, a[0]).store, a[1..], b);
    }
  }

  /** One error is logged per failed action, so never more than there are
      actions. */
  lemma {:induction false} ErrorLogBounded(s: seq<Webhook>, actions: seq<Action>)
    ensures |ErrorLog(s, actions)| <= |actions|
    decreases |actions|
  {
    if actions != [] {
      ErrorLogBounded(Apply(s, actions[0]).store, actions[1..]);
    }
  }

  /** Whatever actions arrive, no invalid webhook ever enters the store. */
  lemma {:induction false} ApplyAllKeepsValid(s: seq<Webhook>, actions: seq<Action>)
    requires AllValid(s)
    ensures AllValid(ApplyAll(s, actions))
    decreases |actions|
  {
    if actions != [] {
      OperationsKeepValid(s, actions[0].webhook);
      ApplyAllKeepsValid(Apply(s, actions[0]).store, actions[1..]);
    }
  }

  /** The actions restoreWebhooks sends for the rows: one "add" per row, in
      row order. */
  predicate IsReplayOf(actions: seq<Action>, rows: seq<Webhook>) {
    |actions| == |rows| && forall i :: 0 <= i < |rows| ==> actions[i] == Action("add", rows[i])
  }

  lemma ReplayTail(actions: seq<Action>, rows: seq<Webhook>)
    requires IsReplayOf(actions, rows) && rows != []
    ensures IsReplayOf(actions[1..], rows[1..]) && actions[0] == Action("add", rows[0])
  {
  }

  /** Replaying fetched rows as "add" actions appends the valid rows to the
      store, in row order. */
  lemma {:induction false} ReplayAppendsValidRows(s: seq<Webhook>, rows: seq<Webhook>, actions: seq<Action>)
    requires IsReplayOf(actions, rows)
    ensures ApplyAll(s, actions) == s + ValidOnly(rows)
    decreases |rows|
  {
    if rows == [] {
      assert s + [] == s;
    } else {
      ReplayTail(actions, rows);
      var later := ValidOnly(rows[1..]);
      if IsValid(rows[0]) {
        var s' := s + [rows[0]];
        assert Apply(s, actions[0]).store == s';
        ReplayAppendsValidRows(s', rows[1..], actions[1..]);
        assert ApplyAll(s, actions) == s' + later;
        assert ValidOnly(rows) == [rows[0]] + later;
        assert s + ([rows[0]] + later) == s' + later;
      } else {
        assert Apply(s, actions[0]).store == s;
        ReplayAppendsValidRows(s, rows[1..], actions[1..]);
        assert ApplyAll(s, actions) == s + later;
        assert ValidOnly(rows) == later;
      }
    }
  }

  /** The same replay logs "Invalid webhook" once for each row that is not
      appended, and nothing else. */
  lemma {:induction false} ReplayLogsInvalidRows(s: seq<Webhook>, rows: seq<Webhook>, actions: seq<Action>)
    requires IsReplayOf(actions, rows)
    ensures |ErrorLog(s, actions)| + |ValidOnly(rows)| == |rows|
    ensures forall m :: m in ErrorLog(s, actions) ==> m == "Invalid webhook"
    decreases |rows|
  {
    if rows != [] {
      ReplayTail(actions, rows);
      var u := Add(s, rows[0]);
      assert Apply(s, actions[0]) == u;
      ReplayLogsInvalidRows(u.store, rows[1..], actions[1..]);
      assert ErrorLog(s, actions) == LogLine(u.outcome) + ErrorLog(u.store, actions[1..]);
    }
  }

  /** A restore of rows that are all valid into an empty store gives exactly
      the rows, in row order, and logs nothing. */
  lemma {:induction false} ReplayOfValidRows(rows: seq<Webhook>, actions: seq<Action>)
    requires AllValid(rows) && IsReplayOf(actions, rows)
    ensures ApplyAll([], actions) == rows
    ensures ErrorLog([], actions) == []
  {
    AllValidRowsKept(rows);
    ReplayAppendsValidRows([], rows, actions);
    ReplayLogsInvalidRows([], rows, actions);
    assert [] + rows == rows;
  }

  lemma {:induction false} AllValidRowsKept(rows: seq<Webhook>)
    requires AllValid(rows)
    ensures ValidOnly(rows) == rows
    decreases |rows|
  {
    if rows != [] {
      AllValidRowsKept(rows[1..]);
      assert [rows[0]] + rows[1..] == rows;
    }
  }

  /** The body of webhookStoreRoutine's loop for one received action: "add"
      goes to addWebhook, every other tag to deleteWebhook. */
  method Perform(store: Store, action: Action) returns (err: Outcome)
    requires store.Valid()
    modifies store.Repr
    ensures store.Valid() && fresh(store.Repr - old(store.Repr))
    ensures Update(store.Contents(), err) == Apply(old(store.Contents()), action)
  {
    if action.tag == "add" {
      err := store.AddWebhook(action.webhook);
    } else {
      err := store.DeleteWebhook(action.webhook);
    }
  }

  /** webhookStoreRoutine, run over the actions it receives: each action is
      applied to the store in order, and each failure's message is logged
      without stopping the loop. */
  method StoreRoutine(store: Store, actions: seq<Action>) returns (logged: seq<string>)
    requires store.Valid()
    modifies store.Repr
    ensures store.Valid() && fresh(store.Repr - old(store.Repr))
    ensures store.Contents() == ApplyAll(old(store.Contents()), actions)
    ensures logged == ErrorLog(old(store.Contents()), actions)
  {
    logged := [];
    ghost var s0 := store.Contents();
    var i := 0;
    while i < |actions|
      invariant 0 <= i <= |actions|
      invariant store.Valid() && fresh(store.Repr - old(store.Repr))
      invariant ApplyAll(store.Contents(), actions[i..]) == ApplyAll(s0, actions)
      invariant logged + ErrorLog(store.Contents(), actions[i..]) == ErrorLog(s0, actions)
    {
      FoldInvariantStep(s0, store.Contents(), actions, i, logged);
      var err := Perform(store, actions[i]);
      logged := logged + LogLine(err);
      i := i + 1;
    }
    assert actions[i..] == [];
  }

  /** restoreWebhooks: on a fetch error, log it and send nothing; otherwise one
      "add" action per row, in row order. */
  method RestoreWebhooks(fetched: Fetch) returns (actions: seq<Action>, logged: seq<string>)
    ensures fetched.FetchFailed? ==> actions == [] && logged == [fetched.message]
    ensures fetched.Rows? ==> logged == [] && |actions| == |fetched.rows|
    ensures fetched.Rows? ==> forall i :: 0 <= i < |actions| ==> actions[i] == Action("add", fetched.rows[i])
  {
    actions, logged := [], [];
    if fetched.FetchFailed? {
      logged := [fetched.message];
      return;
    }
    var rows := fetched.rows;
    var i := 0;
    while i < |rows|
      invariant 0 <= i <= |rows|
      invariant |actions| == i
      invariant forall j :: 0 <= j < i ==> actions[j] == Action("add", rows[j])
    {
      actions := actions + [Action("add", rows[i])];
      i := i + 1;
    }
  }

  /** Startup as a whole: the restore's actions pass through the actor, so the
      store gains the valid fetched rows in row order, and a failed fetch
      leaves it as it was. */
  method Restore(store: Store, fetched: Fetch) returns (logged: seq<string>)
    requires store.Valid()
    modifies store.Repr
    ensures store.Valid() && fresh(store.Repr - old(store.Repr))
    ensures fetched.FetchFailed? ==> store.Contents() == old(store.Contents()) && logged == [fetched.message]
    ensures fetched.Rows? ==> store.Contents() == old(store.Contents()) + ValidOnly(fetched.rows)
    ensures fetched.Rows? ==> |logged| + |ValidOnly(fetched.rows)| == |fetched.rows|
    ensures fetched.Rows? ==> forall m :: m in logged ==> m == "Invalid webhook"
  {
    var actions, fetchLog := RestoreWebhooks(fetched);
    var storeLog := StoreRoutine(store, actions);
    logged := fetchLog + storeLog;
    if fetched.Rows? {
      ReplayAppendsValidRows(old(store.Contents()), fetched.rows, actions);
      ReplayLogsInvalidRows(old(store.Contents()), fetched.rows, actions);
      assert logged == storeLog;
    }
  }
}
