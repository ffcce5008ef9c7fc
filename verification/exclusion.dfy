/**
 How long a reservation lasts. It leaves its table only by its own publication or abort, or once
 it has expired; so two callers never hold a path at the same time.
 */
module Exclusion {
  import opened Keys
  import opened Catalog
  import opened Conditions
  import opened Protocol
  import opened Safety
  import opened Guarantees

  // ----- What ends a reservation -----

  /** The holder aborts the reservation, or publishes it so that the path names its token. */
  predicate Releases(e: Event, v: World, r: Reservation) {
    || (e.AbortEvent? && e.r == r)
    || ((e.CommitEvent? || e.TrustedEvent?) && e.r == r
        && r.Key() in v.store.paths && v.store.paths[r.Key()].token == r.token)
  }

  /** The step took the reservation out of its table. */
  predicate Leaves(w: World, v: World, r: Reservation) { Holds(w.store, r) && !Holds(v.store, r) }

  /** A collector, or a new request for the path, finds the reservation expired. */
  predicate FindsExpired(e: Event, r: Reservation) {
    (e.ClaimEvent? && r.expiresAt <= e.now) || (e.ReserveEvent? && e.req.Key() == r.Key() && r.expiresAt <= e.req.now)
  }

  lemma RequestEnds(s: State, req: ReserveRequest, ids: ReserveIds, r: Reservation)
    requires Holds(s, r)
    ensures Holds(Reserve(s, req, ids).state, r) || (req.Key() == r.Key() && r.expiresAt <= req.now)
  {
    hide Reserve, IsRequest, Grantee;
    ReserveGrantsIff(s, req, ids);
    if IsRequest(req) && IsOpen(s, req) {
      ReserveGrants(s, req, ids);
      var t := Reserve(s, req, ids).state;
      if r.Key() != req.Key() {
        assert r.Key() in t.reservations - {req.Key()};
      }
    }
  }

  lemma PublicationEnds(w: World, sha: Sha, e: Event, r: Reservation)
    requires Enabled(w, sha, e) && (e.CommitEvent? || e.TrustedEvent?) && Holds(w.store, r)
    ensures var v := ApplyEvent(w, sha, e); Holds(v.store, r) || Releases(e, v, r)
  {
    hide Commits, CommitPublication, ObjectKey, Enqueue, ValidText;
    CommitEffect(w.store, e.r, e.o, e.now);
  }

  lemma ReapedIsDue(s: State, now: Millis, limit: nat, c: ClaimChoice, p: PathKey)
    requires ValidChoice(s, now, limit, c) && p in c.reaped
    ensures p in s.reservations && s.reservations[p].expiresAt <= now
  {
    hide BeforeLeasing, AllReserved, AllQueued, Fresh, Distinct;
    assert p in DueReservations(s.reservations, now);
  }

  lemma ClaimEnds(w: World, sha: Sha, e: Event, r: Reservation)
    requires Enabled(w, sha, e) && e.ClaimEvent? && Holds(w.store, r)
    ensures Holds(ApplyEvent(w, sha, e).store, r) || r.expiresAt <= e.now
  {
    hide ApplyEvent, ValidChoice, Reap, MarkLeased, AllReserved, AllQueued, Leases, NewRecords;
    ClaimEventIs(w, sha, e.now, e.limit, e.choice);
    if ApplyEvent(w, sha, e) != w && r.Key() in e.choice.reaped {
      ReapedIsDue(w.store, e.now, e.limit, e.choice, r.Key());
    }
  }

  lemma OtherEventsEndNone(w: World, sha: Sha, e: Event, r: Reservation)
    requires Enabled(w, sha, e) && Holds(w.store, r)
    requires !e.ReserveEvent? && !e.CommitEvent? && !e.TrustedEvent? && !e.ClaimEvent?
    ensures Holds(ApplyEvent(w, sha, e).store, r) || (e.AbortEvent? && e.r == r)
  {
    hide Retire, LiveError, PreparePublish, PrepareTrusted, Acknowledge, FailLease, ObjectPath, ObjectKey, AnswersById;
    hide ValidText, ProviderMatches;
    if e.AbortEvent? && e.r.Key() in w.store.reservations {
      RetireTouches(w.store, e.r.Key());
    } else if e.AckEvent? {
      AckTouchesQueue(w.store, w.past.leases[e.index].lease);
    } else if e.FailEvent? && e.now > 0 {
      FailTouchesQueue(w.store, w.past.leases[e.index].lease, e.now);
    }
  }

  /** A reservation leaves its table only when its holder releases it or somebody finds it expired. */
  lemma ReservationsEndOnlyBy(w: World, sha: Sha, e: Event, v: World, r: Reservation)
    requires Step(w, sha, e, v) && Holds(w.store, r) && !Holds(v.store, r)
    ensures Releases(e, v, r) || FindsExpired(e, r)
  {
    hide ApplyEvent, Enabled, Holds;
    if e.ReserveEvent? {
      ReserveEventIs(w, sha, e);
      RequestEnds(w.store, e.req, e.ids, r);
    } else if e.CommitEvent? || e.TrustedEvent? {
      PublicationEnds(w, sha, e, r);
    } else if e.ClaimEvent? {
      ClaimEnds(w, sha, e, r);
    } else {
      OtherEventsEndNone(w, sha, e, r);
    }
  }

  lemma ReserveEventIs(w: World, sha: Sha, e: Event)
    requires Enabled(w, sha, e) && e.ReserveEvent?
    ensures ApplyEvent(w, sha, e).store == Reserve(w.store, e.req, e.ids).state
  {
    hide Reserve, DecideReserve, NewReservationRow, Fresh;
  }

  // ----- Along runs -----

  lemma {:induction false} HeldUntilEnded(sha: Sha, ws: seq<World>, es: seq<Event>, i: nat, j: nat, r: Reservation)
    returns (m: nat)
    requires Run(sha, ws, es) && i <= j <= |es| && |ws| == |es| + 1 && Holds(ws[i].store, r)
    ensures || Holds(ws[j].store, r)
            || (i <= m < j && Leaves(ws[m], ws[m + 1], r) && (Releases(es[m], ws[m + 1], r) || FindsExpired(es[m], r)))
    decreases j - i
  {
    hide Run, Step, Holds, Releases, FindsExpired;
    m := i;
    if i < j {
      m := HeldUntilEnded(sha, ws, es, i, j - 1, r);
      if Holds(ws[j - 1].store, r) && !Holds(ws[j].store, r) {
        RunStep(sha, ws, es, j - 1);
        ReservationsEndOnlyBy(ws[j - 1], sha, es[j - 1], ws[j], r);
        m := j - 1;
      }
    }
  }

  lemma ClockGoesOn(w: World, sha: Sha, e: Event, v: World)
    requires Step(w, sha, e, v) && OnTime(w, e)
    ensures w.past.clock <= v.past.clock && (IsTimed(e) ==> v.past.clock == TimeOf(e))
  {
    hide Reserve, Upload, CommitPublication, Abort, RetainForRead, ClaimGarbage, Acknowledge, FailGarbage, AnswersById;
    hide DecideReserve, NewReservationRow, LiveError, PreparePublish, PrepareTrusted, Commits, HoldsLease, Fresh;
    hide ValidChoice, ProviderMatches, Enabled;
  }

  lemma {:induction false} ClockOfRun(sha: Sha, ws: seq<World>, es: seq<Event>, i: nat, j: nat)
    requires ForwardRun(sha, ws, es) && i <= j <= |es| && |ws| == |es| + 1
    ensures ws[i].past.clock <= ws[j].past.clock
    decreases j - i
  {
    hide ForwardRun, Step, OnTime;
    if i < j {
      ClockOfRun(sha, ws, es, i, j - 1);
      ForwardRunStep(sha, ws, es, j - 1);
      ClockGoesOn(ws[j - 1], sha, es[j - 1], ws[j]);
    }
  }

  lemma FoundExpiredBefore(sha: Sha, ws: seq<World>, es: seq<Event>, m: nat, j: nat, r: Reservation)
    requires ForwardRun(sha, ws, es) && m < j < |es| && |ws| == |es| + 1 && FindsExpired(es[m], r) && es[j].ReserveEvent?
    ensures r.expiresAt <= es[j].req.now
  {
    hide ForwardRun, Step;
    ForwardRunStep(sha, ws, es, m);
    ForwardRunStep(sha, ws, es, j);
    ClockGoesOn(ws[m], sha, es[m], ws[m + 1]);
    ClockOfRun(sha, ws, es, m + 1, j);
  }

  lemma OpenIsFree(s: State, req: ReserveRequest, r: Reservation)
    requires IsOpen(s, req) && Holds(s, r) && r.Key() == req.Key()
    ensures r.expiresAt <= req.now
  {
    hide NamesCurrent;
  }

  lemma GranteeKey(s: State, req: ReserveRequest, ids: ReserveIds)
    requires IsRequest(req) && IsOpen(s, req)
    ensures Grantee(s, req, ids).Key() == req.Key()
  {
    hide IsRequest, IsOpen;
  }

  lemma GrantIsHeld(w: World, sha: Sha, e: Event, v: World)
    requires Step(w, sha, e, v) && e.ReserveEvent? && IsRequest(e.req) && IsOpen(w.store, e.req)
    ensures Holds(v.store, Grantee(w.store, e.req, e.ids))
  {
    hide ApplyEvent, Enabled, IsRequest, IsOpen, Holds;
    ReserveEventIs(w, sha, e);
    ReserveGrants(w.store, e.req, e.ids);
  }

  /**
   On a clock that never goes back, a second request for a path is granted only after every
   reservation granted for it before was published or aborted, or has expired by then.
   */
  lemma ReservationsExcludeEachOther(sha: Sha, ws: seq<World>, es: seq<Event>, i: nat, j: nat) returns (m: nat)
    requires ForwardRun(sha, ws, es) && i < j < |es| && |ws| == |es| + 1
    requires es[i].ReserveEvent? && IsRequest(es[i].req) && IsOpen(ws[i].store, es[i].req)
    requires es[j].ReserveEvent? && IsRequest(es[j].req) && IsOpen(ws[j].store, es[j].req)
    requires es[i].req.Key() == es[j].req.Key()
    ensures var r := Grantee(ws[i].store, es[i].req, es[i].ids);
            || r.expiresAt <= es[j].req.now
            || (i < m < j && Leaves(ws[m], ws[m + 1], r) && Releases(es[m], ws[m + 1], r))
  {
    hide ForwardRun, Run, Step, IsRequest, IsOpen, Releases, FindsExpired, Holds, Leaves, Grantee;
    var r := Grantee(ws[i].store, es[i].req, es[i].ids);
    ForwardRunStep(sha, ws, es, i);
    GrantIsHeld(ws[i], sha, es[i], ws[i + 1]);
    GranteeKey(ws[i].store, es[i].req, es[i].ids);
    m := HeldUntilEnded(sha, ws, es, i + 1, j, r);
    if Holds(ws[j].store, r) {
      OpenIsFree(ws[j].store, es[j].req, r);
    } else if !Releases(es[m], ws[m + 1], r) {
      FoundExpiredBefore(sha, ws, es, m, j, r);
    }
  }
}
