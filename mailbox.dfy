/** The per-user error mailbox: a map from user id to a FIFO queue of
    messages, filled by the bus consumer and drained by the dashboard. */
module Mailbox {
  import opened Common

  /** The queue map; a user without an entry has no queue. */
  type Queues = map<string, seq<string>>

  /** A user's queued messages, oldest first; no queue reads as empty. */
  function Pending(m: Queues, user: string): seq<string>
  {
    if user in m then m[user] else []
  }

  /** addError on the state: a null user id is ignored, otherwise the
      message joins the end of that user's queue (created if absent). */
  function Enqueued(m: Queues, user: Option<string>, message: string): (r: Queues)
    ensures user.None? ==> r == m
    ensures user.Some? ==> Pending(r, user.value) == Pending(m, user.value) + [message]
    ensures forall u :: user != Some(u) ==> Pending(r, u) == Pending(m, u)
  {
    if user.None? then m else m[user.value := Pending(m, user.value) + [message]]
  }

  /** getAndClearErrors on the state: a non-empty queue is emptied (its
      entry stays); a missing or empty queue leaves the map as it was. */
  function Cleared(m: Queues, user: string): (r: Queues)
    ensures Pending(r, user) == []
    ensures Pending(m, user) == [] ==> r == m
    ensures forall u :: u != user ==> Pending(r, u) == Pending(m, u)
  {
    if Pending(m, user) == [] then m else m[user := []]
  }

  class ErrorNotificationService {
    var userErrors: Queues

    constructor ()
      ensures userErrors == map[]
    {
      userErrors := map[];
    }

    method AddError(userId: Option<string>, errorMessage: string)
      modifies this
      ensures userErrors == Enqueued(old(userErrors), userId, errorMessage)
    {
      if userId.Some? {
        var queue := if userId.value in userErrors then userErrors[userId.value] else [];
        userErrors := userErrors[userId.value := queue + [errorMessage]];
      }
    }

    /** Hands back the user's messages, oldest first, and empties the queue. */
    method GetAndClearErrors(userId: string) returns (result: seq<string>)
      modifies this
      ensures result == Pending(old(userErrors), userId)
      ensures userErrors == Cleared(old(userErrors), userId)
    {
      if userId !in userErrors || userErrors[userId] == [] {
        return [];
      }
      result := userErrors[userId];
      userErrors := userErrors[userId := []];
    }

    /** True exactly when the user has a non-empty queue. */
    method HasErrors(userId: string) returns (b: bool)
      ensures b <==> userId in userErrors && |userErrors[userId]| > 0
      ensures b <==> Pending(userErrors, userId) != []
    {
      b := userId in userErrors && userErrors[userId] != [];
    }
  }

  // ---------------------------------------------------------------------
  // Many deliveries
  // ---------------------------------------------------------------------

  /** One addError call: the user it is addressed to and the message. */
  datatype Delivery = Delivery(user: Option<string>, message: string)

  /** The state after the deliveries, in order. */
  function EnqueueAll(m: Queues, ds: seq<Delivery>): Queues
    decreases |ds|
  {
    if ds == [] then m
    else
      var last := ds[|ds| - 1];
      Enqueued(EnqueueAll(m, ds[..|ds| - 1]), last.user, last.message)
  }

  /** The messages of the deliveries addressed to `user`, in order. */
  function MessagesFor(ds: seq<Delivery>, user: string): seq<string>
    decreases |ds|
  {
    if ds == [] then []
    else
      var rest := MessagesFor(ds[..|ds| - 1], user);
      if ds[|ds| - 1].user == Some(user) then rest + [ds[|ds| - 1].message] else rest
  }

  /** After any series of addError calls a user's queue holds what it held
      before followed by exactly the messages addressed to that user, in
      the order they arrived; deliveries to others and to null never
      reach it. */
  lemma {:induction false} EnqueueAllIsFifo(m: Queues, ds: seq<Delivery>, user: string)
    ensures Pending(EnqueueAll(m, ds), user) == Pending(m, user) + MessagesFor(ds, user)
    decreases |ds|
  {
    if ds != [] {
      EnqueueAllIsFifo(m, ds[..|ds| - 1], user);
    }
  }

  /** Draining right after a series of deliveries yields exactly the
      messages addressed to the user, and a second drain yields none. */
  lemma DrainAfterDeliveries(ds: seq<Delivery>, user: string)
    ensures Pending(EnqueueAll(map[], ds), user) == MessagesFor(ds, user)
    ensures Pending(Cleared(EnqueueAll(map[], ds), user), user) == []
  {
    EnqueueAllIsFifo(map[], ds, user);
  }
}
