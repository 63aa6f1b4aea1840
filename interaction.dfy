/**
 * The interaction gate of `InteractionProvider`: `requireAuth` hands out a
 * promise that is settled at once when a user is signed in, and otherwise
 * joins a FIFO queue and opens the sign-in modal. The queue is settled as a
 * whole, with the user once one appears or with null when the modal is
 * dismissed. The user itself is an input the gate reads and never writes.
 */
module Interaction {
  import opened Wrappers
  import opened Identity

  /** Identifies the promise returned by one `requireAuth` call. */
  type RequestId = nat

  /** A promise as the caller holds it: settled on the spot, or waiting on a queued request. */
  datatype Promise = Settled(value: Option<User>) | Waiting(id: RequestId)

  /** Settle every request of `queue`, in order, with `v`. */
  function SettleAll(settled: map<RequestId, Option<User>>, queue: seq<RequestId>, v: Option<User>): map<RequestId, Option<User>>
    decreases |queue|
  {
    if queue == [] then settled
    else SettleAll(settled, queue[..|queue| - 1], v)[queue[|queue| - 1] := v]
  }

  /** Settling a queue gives each queued request the value `v` and leaves every other request as it was. */
  lemma {:induction false} SettleAllEffect(settled: map<RequestId, Option<User>>, queue: seq<RequestId>, v: Option<User>, id: RequestId)
    ensures id in queue ==> id in SettleAll(settled, queue, v) && SettleAll(settled, queue, v)[id] == v
    ensures id !in queue ==> (id in SettleAll(settled, queue, v) <==> id in settled)
    ensures id !in queue && id in settled ==> SettleAll(settled, queue, v)[id] == settled[id]
    decreases |queue|
  {
    if queue != [] {
      var init := queue[..|queue| - 1];
      assert queue == init + [queue[|queue| - 1]];
      SettleAllEffect(settled, init, v, id);
    }
  }

  class InteractionGate {
    /** `authModalOpen`: whether the sign-in modal is shown. */
    var authModalOpen: bool
    /** `pendingResolves`: the requests waiting for a user, oldest first. */
    var pending: seq<RequestId>
    /** How each settled request was resolved: `Some(user)` or null. */
    var settled: map<RequestId, Option<User>>
    /** Every request handed out so far has an id below this one. */
    var nextId: RequestId

    /** Queued requests are distinct, already issued and not yet settled. */
    ghost predicate QueueValid()
      reads this
    {
      && (forall i :: 0 <= i < |pending| ==> pending[i] < nextId && pending[i] !in settled)
      && (forall i, j :: 0 <= i < j < |pending| ==> pending[i] != pending[j])
      && (forall id :: id in settled ==> id < nextId)
    }

    /** The queue is well formed, and the modal is open exactly while requests wait. */
    ghost predicate Valid()
      reads this
    {
      QueueValid() && (authModalOpen <==> pending != [])
    }

    /** Initial state: modal closed, nothing queued. */
    constructor ()
      ensures Valid()
      ensures !authModalOpen && pending == [] && settled == map[] && nextId == 0
    {
      authModalOpen, pending, settled, nextId := false, [], map[], 0;
    }

    /** The resolution of request `id` so far, `None` while it waits. */
    function Resolution(id: RequestId): Option<Option<User>>
      reads this
    {
      if id in settled then Some(settled[id]) else None
    }

    /** `requireAuth()`. */
    method RequireAuth(user: Option<User>) returns (p: Promise)
      requires Valid()
      modifies this
      ensures Valid()
      ensures user.Some? ==> p == Settled(user)
      ensures user.Some? ==> authModalOpen == old(authModalOpen) && pending == old(pending)
                             && settled == old(settled) && nextId == old(nextId)
      ensures user.None? ==> p == Waiting(old(nextId)) && p.id !in old(pending) && p.id !in settled
      ensures user.None? ==> authModalOpen && pending == old(pending) + [p.id]
                             && settled == old(settled) && nextId == old(nextId) + 1
    {
      if user.Some? {
        return Settled(user);
      }
      authModalOpen := true;
      p := Waiting(nextId);
      pending := pending + [nextId];
      nextId := nextId + 1;
    }

    /** The effect that runs when `user` or `pendingResolves` changes. */
    method OnUserOrQueueChange(user: Option<User>)
      requires Valid()
      modifies this
      ensures Valid()
      ensures nextId == old(nextId)
      ensures user.Some? && old(pending) != [] ==>
                pending == [] && !authModalOpen && settled == SettleAll(old(settled), old(pending), user)
      ensures !(user.Some? && old(pending) != []) ==>
                pending == old(pending) && authModalOpen == old(authModalOpen) && settled == old(settled)
      ensures forall id :: id in old(settled) ==> id in settled && settled[id] == old(settled)[id]
    {
      if user.Some? && |pending| > 0 {
        SettleQueue(user);
        pending := [];
        authModalOpen := false;
      }
    }

    /** `handleCancelAuthModal()`. */
    method Cancel()
      requires Valid()
      modifies this
      ensures Valid()
      ensures nextId == old(nextId)
      ensures !authModalOpen && pending == []
      ensures settled == SettleAll(old(settled), old(pending), None)
      ensures forall id :: id in old(settled) ==> id in settled && settled[id] == old(settled)[id]
    {
      authModalOpen := false;
      SettleQueue(None);
      pending := [];
    }

    /** `pendingResolves.forEach((resolve) => resolve(v))`. */
    method SettleQueue(v: Option<User>)
      requires QueueValid()
      modifies this`settled
      ensures settled == SettleAll(old(settled), pending, v)
      ensures forall id :: id in settled ==> id < nextId
      ensures forall id :: id in old(settled) ==> id in settled && settled[id] == old(settled)[id]
    {
      var i := 0;
      while i < |pending|
        invariant 0 <= i <= |pending|
        invariant settled == SettleAll(old(settled), pending[..i], v)
        invariant forall id :: id in settled ==> id < nextId
      {
        assert pending[..i + 1][..i] == pending[..i];
        settled := settled[pending[i] := v];
        i := i + 1;
      }
      assert pending[..i] == pending;
      forall id | id in old(settled) ensures id in settled && settled[id] == old(settled)[id] {
        SettleAllEffect(old(settled), pending, v, id);
      }
    }
  }

  /**
   * Two actions asked for a user while signed out share one modal and one
   * queue; the sign-in that follows settles both with the same user.
   */
  method SignedOutBurst(u: User) returns (first: Option<Option<User>>, second: Option<Option<User>>, openAfter: bool, later: Promise)
    ensures first == second == Some(Some(u))
    ensures !openAfter
    ensures later == Settled(Some(u))
  {
    var gate := new InteractionGate();
    var p1 := gate.RequireAuth(None);
    var p2 := gate.RequireAuth(None);
    assert gate.authModalOpen && gate.pending == [p1.id, p2.id];
    gate.OnUserOrQueueChange(Some(u));
    SettleAllEffect(map[], [p1.id, p2.id], Some(u), p1.id);
    SettleAllEffect(map[], [p1.id, p2.id], Some(u), p2.id);
    first, second := gate.Resolution(p1.id), gate.Resolution(p2.id);
    later := gate.RequireAuth(Some(u));
    openAfter := gate.authModalOpen;
  }
}
