/** The in-memory webhook store of app/webhooks.go: an ordered list of
    subscriptions that `addWebhook` appends to and `deleteWebhook` shrinks in
    place. The pure functions `Add` and `Delete` say what each operation does
    to the list; the class `Store` is the Go slice itself, with methods proved
    against them. */
module WebhookStore {
  import opened Outcomes
  import opened Model

  const InvalidWebhook: string := "Invalid webhook"
  const WebhookNotFound: string := "Webhook not found"

  /** The check `addWebhook` makes before it appends. */
  predicate IsValid(w: Webhook) {
    w.id != 0 && w.cityId != 0 && w.callbackUrl != ""
  }

  /** Every entry passed that check. */
  predicate AllValid(s: seq<Webhook>) {
    forall i :: 0 <= i < |s| ==> IsValid(s[i])
  }

  /** The list after an operation, and the error the operation returned. */
  datatype Update = Update(store: seq<Webhook>, outcome: Outcome)

  /** The index `deleteWebhook`'s scan ends with: the largest index whose
      entry has the given id, or -1 when there is none. */
  function LastIndexOf(s: seq<Webhook>, id: int): (r: int)
    ensures -1 <= r < |s|
    ensures r == -1 <==> forall j :: 0 <= j < |s| ==> s[j].id != id
    ensures r >= 0 ==> s[r].id == id && forall j :: r < j < |s| ==> s[j].id != id
  {
    if s == [] then -1
    else if s[|s| - 1].id == id then |s| - 1
    else LastIndexOf(s[..|s| - 1], id)
  }

  /** The list with the entry at index i taken out and the rest shifted down. */
  function RemoveAt(s: seq<Webhook>, i: nat): (r: seq<Webhook>)
    requires i < |s|
    ensures |r| == |s| - 1
    ensures forall j :: 0 <= j < i ==> r[j] == s[j]
    ensures forall j :: i <= j < |r| ==> r[j] == s[j + 1]
  {
    s[..i] + s[i + 1..]
  }

  /** addWebhook on the list's value. */
  function Add(s: seq<Webhook>, w: Webhook): Update {
    if IsValid(w) then Update(s + [w], Ok) else Update(s, Err(InvalidWebhook))
  }

  /** deleteWebhook on the list's value; only the id of `w` is looked at. */
  function Delete(s: seq<Webhook>, w: Webhook): Update {
    var i := LastIndexOf(s, w.id);
    if i < 0 then Update(s, Err(WebhookNotFound)) else Update(RemoveAt(s, i), Ok)
  }

  /** An invalid webhook is refused and the list stays as it was; a valid one,
      even one whose id is already present, is appended at the end. */
  lemma AddSpec(s: seq<Webhook>, w: Webhook)
    ensures Add(s, w).outcome == Ok <==> (w.id != 0 && w.cityId != 0 && w.callbackUrl != "")
    ensures Add(s, w).outcome.Err? ==> Add(s, w) == Update(s, Err("Invalid webhook"))
    ensures Add(s, w).outcome == Ok ==>
      var r := Add(s, w).store;
      |r| == |s| + 1 && r[..|s|] == s && r[|s|] == w
  {
  }

  /** Deleting succeeds exactly when some entry has the id. Then exactly one
      entry goes, the last one with that id, and the others keep their order;
      otherwise the list is unchanged and the error is "Webhook not found". */
  lemma DeleteSpec(s: seq<Webhook>, w: Webhook)
    ensures Delete(s, w).outcome == Ok <==> exists j :: 0 <= j < |s| && s[j].id == w.id
    ensures Delete(s, w).outcome.Err? ==> Delete(s, w) == Update(s, Err("Webhook not found"))
    ensures Delete(s, w).outcome == Ok ==>
      exists i :: 0 <= i < |s| && s[i].id == w.id
        && (forall j :: i < j < |s| ==> s[j].id != w.id)
        && Delete(s, w).store == s[..i] + s[i + 1..]
        && multiset(Delete(s, w).store) + multiset{s[i]} == multiset(s)
  {
    var i := LastIndexOf(s, w.id);
    if i >= 0 {
      assert s == s[..i] + [s[i]] + s[i + 1..];
      assert s[i].id == w.id;
    }
  }

  /** Adding a valid webhook and then deleting by its id gives back the list
      before the add. Because the last match is the one removed, this holds
      even when the id was already in the list. */
  lemma AddThenDelete(s: seq<Webhook>, w: Webhook, byId: Webhook)
    requires IsValid(w) && byId.id == w.id
    ensures Delete(Add(s, w).store, byId) == Update(s, Ok)
  {
  }

  /** The store's invariant that no entry has a zero id, zero city or empty URL
      is kept by both operations, whatever they are given. */
  lemma OperationsKeepValid(s: seq<Webhook>, w: Webhook)
    requires AllValid(s)
    ensures AllValid(Add(s, w).store) && AllValid(Delete(s, w).store)
  {
    var i := LastIndexOf(s, w.id);
    if i >= 0 {
      var r := RemoveAt(s, i);
      forall j | 0 <= j < |r| ensures IsValid(r[j]) {
        if j >= i { assert r[j] == s[j + 1]; }
      }
    }
  }

  /** Ids are not kept unique: the same valid webhook added twice is stored
      twice. */
  lemma DuplicateIdsKept(w: Webhook)
    requires IsValid(w)
    ensures Add(Add([], w).store, w).store == [w, w]
  {
  }

  /** The slice `a.Webhooks.Webhooks`: `buf[..len]` is the list, `buf` its
      backing array. When it is full, appending moves the list to a larger
      array, as Go's `append` does. */
  class Store {
    var buf: array<Webhook>
    var len: nat
    ghost var Repr: set<object>

    ghost predicate Valid()
      reads this, Repr
    {
      Repr == {this, buf} && len <= buf.Length
    }

    /** The webhooks in store order. */
    function Contents(): seq<Webhook>
      reads this, Repr
      requires Valid()
    {
      buf[..len]
    }

    /** The nil slice an `App` starts with. */
    constructor ()
      ensures Valid() && fresh(Repr) && Contents() == []
    {
      buf := new Webhook[0];
      len := 0;
      Repr := {this, buf};
    }

    /** addWebhook: validate, then append. */
    method AddWebhook(w: Webhook) returns (err: Outcome)
      requires Valid()
      modifies Repr
      ensures Valid() && fresh(Repr - old(Repr))
      ensures Update(Contents(), err) == Add(old(Contents()), w)
    {
      if !IsValid(w) {
        return Err(InvalidWebhook);
      }
      if len == buf.Length {
        var grown := new Webhook[2 * buf.Length + 1];
        forall i | 0 <= i < len {
          grown[i] := buf[i];
        }
        buf := grown;
        Repr := {this, buf};
      }
      buf[len] := w;
      len := len + 1;
      err := Ok;
    }

    /** deleteWebhook's scan: the whole list is walked, and the last index
        whose entry has the id is remembered. */
    method FindLast(id: int) returns (found: bool, index: nat)
      requires Valid()
      ensures found <==> LastIndexOf(Contents(), id) >= 0
      ensures found ==> index == LastIndexOf(Contents(), id)
      ensures !found ==> index == 0
    {
      ghost var s := Contents();
      index, found := 0, false;
      var i := 0;
      while i < len
        invariant 0 <= i <= len == |s|
        invariant found <==> LastIndexOf(s[..i], id) >= 0
        invariant found ==> index == LastIndexOf(s[..i], id)
        invariant !found ==> index == 0
      {
        assert s[..i + 1][..i] == s[..i];
        if buf[i].id == id {
          index := i;
          found := true;
        }
        i := i + 1;
      }
      assert s[..len] == s;
    }

    /** deleteWebhook's removal: the entries after the index move down by one,
        the freed last slot is cleared and the list is shortened. */
    method ShiftOut(index: nat)
      requires Valid() && index < len
      modifies Repr
      ensures Valid() && Repr == old(Repr)
      ensures Contents() == RemoveAt(old(Contents()), index)
    {
      ghost var s := Contents();
      var k := index;
      while k < len - 1
        invariant Valid() && Repr == old(Repr) && |s| == len
        invariant index <= k <= len - 1
        invariant forall j :: 0 <= j < index ==> buf[j] == s[j]
        invariant forall j :: index <= j < k ==> buf[j] == s[j + 1]
        invariant forall j :: k <= j < len ==> buf[j] == s[j]
      {
        buf[k] := buf[k + 1];
        k := k + 1;
      }
      buf[len - 1] := Webhook(0, 0, "");
      len := len - 1;
      assert buf[..len] == RemoveAt(s, index);
    }

    /** deleteWebhook: the scan, then the removal when the id was found. */
    method DeleteWebhook(w: Webhook) returns (err: Outcome)
      requires Valid()
      modifies Repr
      ensures Valid() && Repr == old(Repr)
      ensures Update(Contents(), err) == Delete(old(Contents()), w)
    {
      var found, index := FindLast(w.id);
      if !found {
        return Err(WebhookNotFound);
      }
      ShiftOut(index);
      err := Ok;
    }
  }
}
