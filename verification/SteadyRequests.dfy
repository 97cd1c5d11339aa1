/** The request objects and slot of `AmaranLight`, each method one step of module `Arbiter`. */
module SteadyRequests {
  import opened Prelude
  import opened Arbiter

  class SteadyLightRequest {
    const target: Target
    /** The `superseded` event */
    var superseded: bool
    ghost var phase: Phase
    ghost const epoch: nat

    constructor (target: Target, ghost epoch: nat)
      ensures this.target == target && !superseded && phase == Waiting && this.epoch == epoch
    {
      this.target, superseded := target, false;
      phase, this.epoch := Waiting, epoch;
    }

    ghost function View(): Request
      reads this
    {
      Request(target, superseded, phase, epoch)
    }
  }

  ghost function Views(requests: seq<SteadyLightRequest>): (r: seq<Request>)
    reads requests
    ensures |r| == |requests| && forall i :: 0 <= i < |r| ==> r[i] == requests[i].View()
  {
    if |requests| == 0 then []
    else Views(requests[..|requests| - 1]) + [requests[|requests| - 1].View()]
  }

  lemma Registered(s: State, patch: Patch)
    requires patch.Parameterized()
    ensures Step(s, Register(patch))
            == s.(requests := Superseding(s, s.pending) + [Request(Merge(PendingTarget(s), patch), false, Waiting, s.epoch)],
                  pending := Some(|s.requests|), since := s.since + [patch])
  {
  }

  /** The merge as the method's branches compute it. */
  lemma MergeIs(t: Target, p: Patch, merged: Target)
    requires merged.intensity == if p.intensity.Some? then p.intensity else t.intensity
    requires p.hs.Some? ==> merged.kelvin.None? && merged.hs == p.hs
    requires p.hs.None? && p.kelvin.Some? ==> merged.kelvin == p.kelvin && merged.hs.None?
    requires p.hs.None? && p.kelvin.None? ==> merged.kelvin == t.kelvin && merged.hs == t.hs
    ensures merged == Merge(t, p)
  {
  }

  class AmaranLight {
    /** `_pending_steady_request` */
    var pending: SteadyLightRequest?
    /** The request holding `_operation_lock`, and whether a discrete command holds it instead. */
    var owner: SteadyLightRequest?
    var discrete: bool
    ghost var requests: seq<SteadyLightRequest>
    ghost var pendingAt: Option<nat>
    ghost var lock: Holder
    ghost var epoch: nat
    ghost var since: seq<Patch>
    ghost var begun: seq<Begun>

    ghost predicate Valid()
      reads this, requests
    {
      && (forall i, j :: 0 <= i < j < |requests| ==> requests[i] != requests[j])
      && (pendingAt.None? <==> pending == null)
      && (pendingAt.Some? ==> pendingAt.value < |requests| && requests[pendingAt.value] == pending)
      && (lock.Slider? ==> lock.i < |requests| && requests[lock.i] == owner)
      && (owner != null <==> lock.Slider?) && (discrete <==> lock.Discrete?)
    }

    ghost function View(): State
      reads this, requests
    {
      State(Views(requests), pendingAt, lock, epoch, since, begun)
    }

    constructor ()
      ensures Valid() && View() == START
    {
      pending, owner, discrete := null, null, false;
      requests, pendingAt, lock, epoch, since, begun := [], None, Nobody, 0, [], [];
    }

    /** `_register_steady_request` */
    method RegisterSteadyRequest(patch: Patch) returns (request: SteadyLightRequest)
      requires Valid() && patch.Parameterized()
      modifies this, if pending == null then {} else {pending}
      ensures Valid() && View() == Step(old(View()), Register(patch))
      ensures fresh(request) && requests == old(requests) + [request] && pending == request
    {
      hide Views, Step, Merge;
      ghost var before := View();
      Registered(before, patch);
      var previous := pending;
      var previousTarget := if previous != null then previous.target else NOTHING;
      var intensity := if patch.intensity.Some? then patch.intensity else previousTarget.intensity;
      var target;
      if patch.hs.Some? {
        target := Target(intensity, None, patch.hs);
      } else if patch.kelvin.Some? {
        target := Target(intensity, patch.kelvin, None);
      } else {
        target := Target(intensity, previousTarget.kelvin, previousTarget.hs);
      }
      assert target == Merge(previousTarget, patch) by {
        MergeIs(previousTarget, patch, target);
      }
      request := new SteadyLightRequest(target, epoch);
      if previous != null {
        previous.superseded := true;
      }
      pending := request;
      pendingAt, requests, since := Some(|requests|), requests + [request], since + [patch];
      forall j | 0 <= j < |old(requests)| ensures View().requests[j] == Superseding(before, before.pending)[j] {
        assert Some(j) != before.pending ==> old(requests)[j] != previous;
      }
    }

    /** `_invalidate_steady_requests` */
    method InvalidateSteadyRequests()
      requires Valid()
      modifies this, if pending == null then {} else {pending}
      ensures Valid() && View() == Step(old(View()), Invalidate) && requests == old(requests)
    {
      ghost var before := View();
      if pending != null {
        pending.superseded := true;
        pending := null;
      }
      pendingAt, since, epoch := None, [], epoch + 1;
      assert View().requests == Step(before, Invalidate).requests;
    }

    /** A call's request once it has the lock: obsolete already, or the transaction to run. */
    method Enter(request: SteadyLightRequest, ghost i: nat) returns (run: bool)
      requires Valid() && i < |requests| && requests[i] == request && request.phase == Waiting
      requires owner == null && !discrete
      modifies this, request
      ensures Valid() && View() == Step(old(View()), Acquire(i)) && requests == old(requests)
      ensures run <==> !old(request.superseded)
    {
      ghost var before := View();
      if request.superseded {
        Leave(request, i);
        return false;
      }
      request.phase, lock := Running, Slider(i);
      owner := request;
      begun := begun + [Begun(i, epoch, request.target)];
      assert View().requests == Step(before, Acquire(i)).requests;
      return true;
    }

    /** The end of the call: leave the lock, and the slot if it is still this request's. */
    method Leave(request: SteadyLightRequest, ghost i: nat)
      requires Valid() && i < |requests| && requests[i] == request
      modifies this, request`phase
      ensures Valid() && View() == End(old(View()), i) && requests == old(requests)
    {
      hide Views;
      ghost var before := View();
      assert pending == request <==> pendingAt == Some(i);
      assert owner == request <==> lock == Slider(i);
      request.phase := Finished;
      if owner == request {
        owner := null;
        lock := Nobody;
      }
      if pending == request {
        pending := null;
        pendingAt, since := None, [];
      }
      forall j | 0 <= j < |requests| ensures View().requests[j] == End(before, i).requests[j] {
        assert j != i ==> requests[j] != request;
      }
    }

    /** `except asyncio.CancelledError`, then the same end */
    method Cancelled(request: SteadyLightRequest, ghost i: nat)
      requires Valid() && i < |requests| && requests[i] == request && request.phase != Finished
      modifies this, request
      ensures Valid() && View() == Step(old(View()), Cancel(i)) && requests == old(requests)
    {
      ghost var before := View();
      request.superseded := true;
      assert View().requests == before.requests[i := before.requests[i].(superseded := true)];
      Leave(request, i);
    }
  }
}
