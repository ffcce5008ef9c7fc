/** What every run of the store guarantees to its callers. */
module Guarantees {
  import opened Keys
  import opened Catalog
  import opened Protocol
  import opened Generations
  import opened Safety
  import opened Publications
  import opened LeaseRules

  // ----- The invariant holds in every world of a run -----

  ghost predicate AllInv(w: World, sha: Sha) {
    Inv(w, sha) && PubInv(w) && TokensInv(w)
  }

  function Tick(w: World, t: Millis): World {
    w.(past := w.past.(clock := t))
  }

  lemma TickKeeps(w: World, sha: Sha, t: Millis)
    ensures Inv(w, sha) ==> Inv(Tick(w, t), sha)
    ensures PubInv(w) ==> PubInv(Tick(w, t))
    ensures TokensInv(w) ==> TokensInv(Tick(w, t))
    ensures w.past.clock <= t && ForwardInv(w) ==> ForwardInv(Tick(w, t))
  {
    TickKeepsInv(w, sha, t);
    if PubInv(w) {
      QuietKeeps(w, Tick(w, t));
    }
    if w.past.clock <= t && ForwardInv(w) {
      TickKeepsForward(w, t);
    }
  }

  lemma TickKeepsInv(w: World, sha: Sha, t: Millis)
    ensures Inv(w, sha) ==> Inv(Tick(w, t), sha)
    ensures forall g :: PlacesOf(Tick(w, t), g) == PlacesOf(w, g)
  {
    assert forall g :: PlacesOf(Tick(w, t), g) == PlacesOf(w, g) by {
      hide ObjectKey;
    }
    if Inv(w, sha) {
      SameGenerationsKeep(w, Tick(w, t));
      hide PlacesOf, GenInv, LocalObservation, Fits, PrefixedKey;
      BodiesStay(w, sha, Tick(w, t));
    }
  }

  lemma TickKeepsForward(w: World, t: Millis)
    requires w.past.clock <= t && ForwardInv(w)
    ensures ForwardInv(Tick(w, t))
  {
    var v := Tick(w, t);
    forall i | 0 <= i < |v.past.leases| ensures Accounted(v, i) {
      assert Accounted(w, i);
    }
    forall q | q in v.past.promises ensures Honoured(v, q.0, q.1) {
      assert Honoured(w, q.0, q.1);
    }
  }

  lemma TickFirstPublication(w: World, sha: Sha, e: Event)
    requires Enabled(w, sha, e) && (e.CommitEvent? || e.TrustedEvent? || e.ClaimEvent?)
    ensures Enabled(Tick(w, TimeOf(e)), sha, e)
    ensures Apply(w, sha, e) == ApplyEvent(Tick(w, TimeOf(e)), sha, e)
  {
    hide ValidChoice, ClaimGarbage, CommitPublication, PublishTrusted, Commits, NewRecords;
  }

  /** No event reads the clock of the history. */
  lemma TickFirst(w: World, sha: Sha, e: Event)
    requires Enabled(w, sha, e) && IsTimed(e)
    ensures Enabled(Tick(w, TimeOf(e)), sha, e)
    ensures Apply(w, sha, e) == ApplyEvent(Tick(w, TimeOf(e)), sha, e)
  {
    hide Apply, ApplyEvent, Enabled;
    if e.CommitEvent? || e.TrustedEvent? || e.ClaimEvent? {
      TickFirstPublication(w, sha, e);
    } else {
      TickFirstOther(w, sha, e);
    }
  }

  lemma TickFirstOther(w: World, sha: Sha, e: Event)
    requires Enabled(w, sha, e) && IsTimed(e) && !e.CommitEvent? && !e.TrustedEvent? && !e.ClaimEvent?
    ensures Enabled(Tick(w, TimeOf(e)), sha, e)
    ensures Apply(w, sha, e) == ApplyEvent(Tick(w, TimeOf(e)), sha, e)
  {
    hide Reserve, FailGarbage, RetainForRead, Upload, LiveError, DecideReserve, Fresh, AnswersById, NewReservationRow;
  }

  ghost predicate NothingLost(w: World, v: World) {
    Forward(w, v) && Extends(w, v) && Grows(w, v)
  }

  lemma TickLosesNothing(w: World, t: Millis)
    ensures NothingLost(w, Tick(w, t)) && ReceiptsStay(w, Tick(w, t))
  {
    assert forall g :: PlacesOf(Tick(w, t), g) == PlacesOf(w, g) by {
      hide ObjectKey;
    }
    assert forall k :: Live(Tick(w, t), k) == Live(w, k);
    hide PlacesOf, Live;
  }

  lemma NothingLostComposes(u: World, w: World, v: World)
    ensures NothingLost(u, u)
    ensures NothingLost(u, w) && NothingLost(w, v) ==> NothingLost(u, v)
  {
    hide PlacesOf, Grows;
    GrowsComposes(u, w, v);
  }

  lemma StepKeeps(w: World, sha: Sha, e: Event, v: World)
    requires AllInv(w, sha) && Step(w, sha, e, v)
    ensures AllInv(v, sha) && NothingLost(w, v) && ReceiptsStay(w, v)
  {
    EventKeeps(w, sha, e);
    EventKeepsPub(w, sha, e);
    EventKeepsTokens(w, sha, e);
    EventGrows(w, sha, e);
    var u := ApplyEvent(w, sha, e);
    assert NothingLost(w, u) by {
      hide Forward, Extends, Grows;
    }
    hide Inv, PubInv, TokensInv, NothingLost, ApplyEvent, Enabled, Forward, Extends, Grows;
    if IsTimed(e) {
      TickKeeps(u, sha, TimeOf(e));
      TickLosesNothing(u, TimeOf(e));
      NothingLostComposes(w, u, v);
    }
  }

  lemma ForwardStepKeeps(w: World, sha: Sha, e: Event, v: World)
    requires AllInv(w, sha) && ForwardInv(w) && Step(w, sha, e, v) && OnTime(w, e)
    ensures ForwardInv(v)
  {
    if IsTimed(e) {
      TickKeeps(w, sha, TimeOf(e));
      TickFirst(w, sha, e);
      hide Inv, PubInv, TokensInv, ForwardInv, ApplyEvent, Enabled;
      EventKeepsForward(Tick(w, TimeOf(e)), sha, e);
    } else {
      hide Inv, PubInv, TokensInv, ForwardInv, ApplyEvent, Enabled;
      EventKeepsForward(w, sha, e);
    }
  }

  lemma RunStep(sha: Sha, ws: seq<World>, es: seq<Event>, i: nat)
    requires Run(sha, ws, es) && i < |es|
    ensures |ws| == |es| + 1 && Step(ws[i], sha, es[i], ws[i + 1])
  {
    hide Step;
  }

  lemma GenesisInvariant(sha: Sha)
    ensures AllInv(GENESIS, sha) && ForwardInv(GENESIS)
  {
  }

  lemma {:induction false} RunInvariant(sha: Sha, ws: seq<World>, es: seq<Event>, i: nat)
    requires Run(sha, ws, es) && i <= |es|
    ensures AllInv(ws[i], sha)
  {
    hide AllInv, ForwardInv, Step;
    GenesisInvariant(sha);
    if i > 0 {
      RunInvariant(sha, ws, es, i - 1);
      RunStep(sha, ws, es, i - 1);
      StepKeeps(ws[i - 1], sha, es[i - 1], ws[i]);
    }
  }

  lemma ForwardRunStep(sha: Sha, ws: seq<World>, es: seq<Event>, i: nat)
    requires ForwardRun(sha, ws, es) && i < |es|
    ensures Run(sha, ws, es) && |ws| == |es| + 1 && Step(ws[i], sha, es[i], ws[i + 1]) && OnTime(ws[i], es[i])
  {
    hide OnTime;
    RunStep(sha, ws, es, i);
  }

  lemma ForwardRunIsRun(sha: Sha, ws: seq<World>, es: seq<Event>)
    requires ForwardRun(sha, ws, es)
    ensures Run(sha, ws, es) && |ws| == |es| + 1 && ws[0] == GENESIS
  {
    hide Step, OnTime;
  }

  lemma {:induction false} ForwardRunInvariant(sha: Sha, ws: seq<World>, es: seq<Event>, i: nat)
    requires ForwardRun(sha, ws, es) && i <= |es|
    ensures Run(sha, ws, es) && AllInv(ws[i], sha) && ForwardInv(ws[i])
  {
    hide AllInv, ForwardInv, Run, ForwardRun, Step, OnTime;
    ForwardRunIsRun(sha, ws, es);
    RunInvariant(sha, ws, es, i);
    if i == 0 {
      GenesisInvariant(sha);
    } else {
      ForwardRunInvariant(sha, ws, es, i - 1);
      ForwardRunStep(sha, ws, es, i - 1);
      ForwardStepKeeps(ws[i - 1], sha, es[i - 1], ws[i]);
    }
  }

  /** Along a run nothing is forgotten: not a generation, a stored body, a grant or a publication. */
  lemma {:induction false} RunKeeps(sha: Sha, ws: seq<World>, es: seq<Event>, i: nat, j: nat)
    requires Run(sha, ws, es) && i <= j <= |es|
    ensures |ws| == |es| + 1 && NothingLost(ws[i], ws[j])
    decreases j - i
  {
    hide AllInv, Step, Run, NothingLost;
    RunLength(sha, ws, es);
    if i == j {
      NothingLostComposes(ws[i], ws[i], ws[i]);
    } else {
      RunKeeps(sha, ws, es, i, j - 1);
      RunInvariant(sha, ws, es, j - 1);
      RunStep(sha, ws, es, j - 1);
      StepKeeps(ws[j - 1], sha, es[j - 1], ws[j]);
      NothingLostComposes(ws[i], ws[j - 1], ws[j]);
    }
  }

  lemma RunLength(sha: Sha, ws: seq<World>, es: seq<Event>)
    requires Run(sha, ws, es)
    ensures |ws| == |es| + 1
  {
    hide Step;
  }
}
