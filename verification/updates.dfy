/**
 No lost updates: what callers may rely on when they reserve, publish and retry, in every
 run and whatever times the callers pass.
 */
module Updates {
  import opened Wrappers
  import opened Keys
  import opened Catalog
  import opened Protocol
  import opened Generations
  import opened Safety
  import opened Publications
  import opened LeaseRules
  import opened Guarantees

  // ----- The publications of one path -----

  lemma {:induction false} PathLogIsLogged(log: seq<Publication>, p: PathKey, i: nat) returns (n: nat)
    requires i < |PathLog(log, p)|
    ensures n < |log| && log[n] == PathLog(log, p)[i] && log[n].reference.Key() == p
  {
    var last := |log| - 1;
    var rest := PathLog(log[..last], p);
    if i < |rest| {
      n := PathLogIsLogged(log[..last], p, i);
    } else {
      n := last;
    }
  }

  lemma {:induction false} PathLogGrows(log: seq<Publication>, longer: seq<Publication>, p: PathKey)
    requires log <= longer
    ensures PathLog(log, p) <= PathLog(longer, p)
    decreases |longer|
  {
    if |log| < |longer| {
      var n := |longer| - 1;
      assert longer == longer[..n] + [longer[n]];
      PathLogGrows(log, longer[..n], p);
    } else {
      assert log == longer;
    }
  }

  /** The last publication of a path that has one. */
  function LastPublication(w: World, p: PathKey): Publication
    requires PathLog(w.past.log, p) != []
  {
    var chain := PathLog(w.past.log, p);
    chain[|chain| - 1]
  }

  lemma LastIsCurrent(w: World, p: PathKey)
    requires PubInv(w) && p in w.store.paths
    ensures PathLog(w.past.log, p) != [] && LastPublication(w, p).reference == RowReference(p, w.store.paths[p])
    ensures w.store.paths[p].revision == |PathLog(w.past.log, p)|
    ensures w.store.paths[p].artifactId == PathLog(w.past.log, p)[0].reference.artifactId
  {
    hide PathLog, TokenInv, OwnerInv, ReceiptInv, LocalInv;
    assert ChainEntry(w, p);
  }

  /**
   The publications of a path count revisions 1, 2, 3, … under one artifact id, each replaces
   the one before, which is the one its reservation named, and the last one is current.
   */
  lemma UpdatesAreChained(sha: Sha, ws: seq<World>, es: seq<Event>, i: nat, p: PathKey)
    requires Run(sha, ws, es) && i <= |es|
    ensures var chain, past := PathLog(ws[i].past.log, p), ws[i].past;
            && WellChained(chain)
            && (p in ws[i].store.paths <==> chain != [])
            && (chain != [] ==> chain[|chain| - 1].reference == RowReference(p, ws[i].store.paths[p]))
            && forall n | 0 <= n < |chain| ::
                 && chain[n].reference.Key() == p
                 && chain[n].reference.token in past.grants
                 && chain[n].replaced == past.grants[chain[n].reference.token].expected
  {
    hide PathLog, WellChained, Inv, TokensInv, Run, OwnerInv, ReceiptInv, LocalInv, Matches;
    RunLength(sha, ws, es);
    RunInvariant(sha, ws, es, i);
    var w := ws[i];
    assert ChainEntry(w, p);
    var chain := PathLog(w.past.log, p);
    forall n | 0 <= n < |chain|
      ensures && chain[n].reference.Key() == p
              && chain[n].reference.token in w.past.grants
              && chain[n].replaced == w.past.grants[chain[n].reference.token].expected
    {
      var m := PathLogIsLogged(w.past.log, p, n);
      assert LogEntry(w, w.past.log[m]);
    }
  }

  /**
   A published path stays published, keeps its artifact id, and its revision never goes back;
   while the revision is the same, so is the whole reference.
   */
  lemma RevisionsOnlyGrow(sha: Sha, ws: seq<World>, es: seq<Event>, i: nat, j: nat, p: PathKey)
    requires Run(sha, ws, es) && i <= j <= |es| && p in ws[i].store.paths
    ensures p in ws[j].store.paths
    ensures var a, b := ws[i].store.paths[p], ws[j].store.paths[p];
            && b.artifactId == a.artifactId && b.revision >= a.revision
            && (b.revision == a.revision ==> RowReference(p, b) == RowReference(p, a))
  {
    hide Run, Inv, PubInv, TokensInv, Forward, Extends;
    RunInvariant(sha, ws, es, i);
    RunInvariant(sha, ws, es, j);
    RunKeeps(sha, ws, es, i, j);
    LaterRow(ws[i], ws[j], p);
  }

  lemma LaterRow(w: World, v: World, p: PathKey)
    requires PubInv(w) && PubInv(v) && Grows(w, v) && p in w.store.paths
    ensures p in v.store.paths
    ensures var a, b := w.store.paths[p], v.store.paths[p];
            && b.artifactId == a.artifactId && b.revision >= a.revision
            && (b.revision == a.revision ==> RowReference(p, b) == RowReference(p, a))
  {
    LastIsCurrent(w, p);
    PathLogGrows(w.past.log, v.past.log, p);
    assert p in v.store.paths by {
      assert ChainEntry(v, p);
    }
    LastIsCurrent(v, p);
    hide PubInv, Grows, PathLog;
  }

  // ----- Compare and swap -----

  lemma GrantIsRecorded(w: World, sha: Sha, e: Event, v: World)
    requires Step(w, sha, e, v) && e.ReserveEvent? && DecideReserve(w.store, e.req).Grant?
    ensures Reserve(w.store, e.req, e.ids).result.Ok?
    ensures var r := Reserve(w.store, e.req, e.ids).result.value;
            && r.token == e.ids.token
            && r.token in v.past.grants && v.past.grants[r.token] == GrantRecord(r, e.req.expected)
  {
    hide DecideReserve, Retire, Install;
  }

  lemma CommitIsRecorded(w: World, sha: Sha, e: Event, v: World)
    requires Step(w, sha, e, v) && IsPublication(w, e)
    ensures |v.past.log| == |w.past.log| + 1 && v.past.log[..|w.past.log|] == w.past.log
    ensures var p, entry := e.r.Key(), v.past.log[|w.past.log|];
            && entry.reference == RowReference(p, NewPublishedRow(e.r, e.o, e.now))
            && entry.replaced == if p in w.store.paths then Some(w.store.paths[p].token) else None
  {
    hide Commits, CommitPublication, PublishTrusted, ReplayPublication;
  }

  /** The current row that a publication replaces is the one its reservation was granted for. */
  lemma PublicationReplacesWhatWasNamed(sha: Sha, ws: seq<World>, es: seq<Event>, i: nat, j: nat)
    requires Run(sha, ws, es) && i < j < |es|
    requires es[i].ReserveEvent? && DecideReserve(ws[i].store, es[i].req).Grant?
    requires IsPublication(ws[j], es[j]) && es[j].r.token == es[i].ids.token
    ensures var r, p := Reserve(ws[i].store, es[i].req, es[i].ids).result.value, es[i].req.Key();
            && es[j].r.Key() == p && es[j].r.revision == r.revision && es[j].r.artifactId == r.artifactId
            && es[i].req.expected == if p in ws[j].store.paths then Some(ws[j].store.paths[p].token) else None
  {
    assert Step(ws[i], sha, es[i], ws[i + 1]) && Step(ws[j], sha, es[j], ws[j + 1]);
    RunInvariant(sha, ws, es, j + 1);
    RunKeeps(sha, ws, es, i + 1, j + 1);
    hide DecideReserve, IsPublication, Step, Run;
    GrantIsRecorded(ws[i], sha, es[i], ws[i + 1]);
    CommitIsRecorded(ws[j], sha, es[j], ws[j + 1]);
    hide Inv, TokensInv, Forward, Extends, ChainInv, OwnerInv, ReceiptInv, LocalInv, Reserve;
    GrantedKey(ws[i].store, es[i].req, es[i].ids);
    assert LogEntry(ws[j + 1], ws[j + 1].past.log[|ws[j].past.log|]);
  }

  lemma GrantedKey(s: State, req: ReserveRequest, ids: ReserveIds)
    requires DecideReserve(s, req).Grant?
    ensures Reserve(s, req, ids).result.Ok? && Reserve(s, req, ids).result.value.Key() == req.Key()
  {
    hide DecideReserve, Retire, Install;
  }

  /** The lookup by artifact id has one possible answer, the row that carries the id. */
  lemma LookupByIdIsUnambiguous(
    sha: Sha, ws: seq<World>, es: seq<Event>, i: nat, scope: Scope, artifactId: string, found: Option<PathKey>, p: PathKey)
    requires Run(sha, ws, es) && i <= |es|
    requires AnswersById(ws[i].store, scope, artifactId, found)
    requires HoldsArtifact(ws[i].store, p, scope, artifactId)
    ensures found == Some(p) && GetFound(ws[i].store, found) == Get(ws[i].store, p)
  {
    hide Inv, TokensInv, Run, TokenInv, ChainInv, ReceiptInv, LocalInv;
    RunInvariant(sha, ws, es, i);
  }

  // ----- A mutation token is published at most once -----

  /** Two publications of a run never carry the same mutation token. */
  lemma PublishedAtMostOnce(sha: Sha, ws: seq<World>, es: seq<Event>, i: nat, j: nat)
    requires Run(sha, ws, es) && i < j < |es|
    requires IsPublication(ws[i], es[i]) && IsPublication(ws[j], es[j])
    ensures es[i].r.token != es[j].r.token
  {
    assert Step(ws[i], sha, es[i], ws[i + 1]) && Step(ws[j], sha, es[j], ws[j + 1]);
    RunInvariant(sha, ws, es, j + 1);
    RunKeeps(sha, ws, es, i + 1, j);
    hide IsPublication, Step, Run, Inv, TokensInv, Forward, Extends, ChainInv, OwnerInv, ReceiptInv, LocalInv;
    CommitIsRecorded(ws[i], sha, es[i], ws[i + 1]);
    CommitIsRecorded(ws[j], sha, es[j], ws[j + 1]);
    var n, m := |ws[i].past.log|, |ws[j].past.log|;
    assert ws[j + 1].past.log[n] == ws[j].past.log[n] == ws[i + 1].past.log[n];
    hide LogEntry;
  }

  lemma LoggedTokenIsDead(w: World, n: nat, r: Reservation, now: Millis)
    requires PubInv(w) && n < |w.past.log| && r.token == w.past.log[n].reference.token
    ensures LiveError(w.store, r, now).Some?
  {
    hide ChainInv, OwnerInv, ReceiptInv, LocalInv, Granted, LogEntry;
  }

  lemma OneReferencePerToken(w: World, n: nat, ref: ArtifactReference)
    requires TokenInv(w) && n < |w.past.log| && Logged(w.past.log, ref) && ref.token == w.past.log[n].reference.token
    ensures ref == w.past.log[n].reference
  {
    hide Granted, LogEntry;
    var m :| 0 <= m < |w.past.log| && w.past.log[m].reference == ref;
    assert m == n;
  }

  lemma CurrentIsLogged(w: World, p: PathKey)
    requires PubInv(w) && p in w.store.paths
    ensures Logged(w.past.log, RowReference(p, w.store.paths[p]))
  {
    hide PubInv;
    LastIsCurrent(w, p);
    var n := PathLogIsLogged(w.past.log, p, |PathLog(w.past.log, p)| - 1);
  }

  lemma CommitAgain(w: World, n: nat, r: Reservation, o: Observation, now: Millis)
    requires PubInv(w) && n < |w.past.log| && r.token == w.past.log[n].reference.token
    ensures var done := CommitPublication(w.store, r, o, now);
            && done.state == w.store
            && (done.result.Ok? ==> done.result.value == w.past.log[n].reference)
  {
    LoggedTokenIsDead(w, n, r, now);
    var p := r.Key();
    if p in w.store.paths {
      CurrentIsLogged(w, p);
      if w.store.paths[p].token == r.token {
        OneReferencePerToken(w, n, RowReference(p, w.store.paths[p]));
      }
    }
    hide PubInv, LiveError, Logged, ValidText;
  }

  lemma ReplayAgain(w: World, n: nat, r: Reservation, o: Observation)
    requires PubInv(w) && n < |w.past.log| && r.token == w.past.log[n].reference.token
    ensures ReplayPublication(w.store, r, o) == None
         || ReplayPublication(w.store, r, o) == Some(Err(BodyMismatch))
         || ReplayPublication(w.store, r, o) == Some(Ok(w.past.log[n].reference))
  {
    var key := TokenKey(r.scope, r.token);
    if key in w.store.publications {
      assert Answers(w, key, w.store.publications[key].reference);
      OneReferencePerToken(w, n, w.store.publications[key].reference);
    }
    hide PubInv;
  }

  /**
   Publishing again with a token that was published once changes no table, whatever the
   retry carries, and can only succeed with the reference of the original publication.
   */
  lemma RepublishingChangesNothing(
    sha: Sha, ws: seq<World>, es: seq<Event>, i: nat, n: nat, r: Reservation, o: Observation, now: Millis)
    requires Run(sha, ws, es) && i <= |es| && n < |ws[i].past.log| && r.token == ws[i].past.log[n].reference.token
    ensures var s, ref := ws[i].store, ws[i].past.log[n].reference;
            && Publish(s, sha, r, o, now).state == s
            && (Publish(s, sha, r, o, now).result.Ok? ==> Publish(s, sha, r, o, now).result.value == ref)
            && PublishTrusted(s, r, o, now).state == s
            && (PublishTrusted(s, r, o, now).result.Ok? ==> PublishTrusted(s, r, o, now).result.value == ref)
  {
    hide Inv, PubInv, TokensInv, Run;
    hide CommitPublication, ReplayPublication, ObjectPath, ObjectKey, ValidText;
    RunLength(sha, ws, es);
    RunInvariant(sha, ws, es, i);
    CommitAgain(ws[i], n, r, o, now);
    ReplayAgain(ws[i], n, r, o);
  }

  // ----- Reservations never come back -----

  lemma DeadTokenIsRefused(w: World, r: Reservation, now: Millis)
    requires TokenInv(w) && !Live(w, r.token)
    ensures LiveError(w.store, r, now).Some? && Abort(w.store, r).result.Err?
  {
    var p := r.Key();
    if p in w.store.reservations {
      assert Granted(w, p, w.store.reservations[p]);
    }
    hide TokenInv, Retire;
  }

  /**
   Once a granted reservation has left its table, by publication, abort, replacement or
   reaping, its token is refused forever: it can upload nothing, publish nothing and abort
   nothing.
   */
  lemma ReservationsNeverComeBack(sha: Sha, ws: seq<World>, es: seq<Event>, i: nat, j: nat, r: Reservation, now: Millis)
    requires Run(sha, ws, es) && i <= j <= |es|
    requires r.token in ws[i].past.grants && !Live(ws[i], r.token)
    ensures !Live(ws[j], r.token)
    ensures LiveError(ws[j].store, r, now).Some? && Abort(ws[j].store, r).result.Err?
  {
    hide Run, Inv, TokensInv, Forward, Extends, ChainInv, OwnerInv, ReceiptInv, LocalInv, Granted, LogEntry;
    RunInvariant(sha, ws, es, i);
    RunInvariant(sha, ws, es, j);
    RunKeeps(sha, ws, es, i, j);
    assert r.token in ws[i].store.minted;
    DeadTokenIsRefused(ws[j], r, now);
  }
}
