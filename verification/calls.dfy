/**
 The calls of the store object as steps of the protocol. A call that works outside one
 transaction is several steps: `publish` checks the body and then commits, a drain claims and
 then deletes and settles lease by lease. Every history of calls is the end of a run, so what
 is proved about runs holds of the object.
 */
module Calls {
  import opened Wrappers
  import opened Keys
  import opened Catalog
  import opened Protocol
  import opened Generations
  import opened Safety
  import opened Guarantees
  import opened Orphans

  /** The events `es` lead from `w` to `v`. */
  ghost predicate Reaches(w: World, sha: Sha, es: seq<Event>, v: World)
    decreases |es|
  {
    if es == [] then v == w
    else Enabled(w, sha, es[0]) && Reaches(Apply(w, sha, es[0]), sha, es[1..], v)
  }

  lemma {:induction false} ReachesOn(u: World, sha: Sha, first: seq<Event>, w: World, second: seq<Event>, v: World)
    requires Reaches(u, sha, first, w) && Reaches(w, sha, second, v)
    ensures Reaches(u, sha, first + second, v)
    decreases |first|
  {
    hide Enabled, Apply;
    if first == [] {
      assert first + second == second;
    } else {
      assert (first + second)[0] == first[0] && (first + second)[1..] == first[1..] + second;
      ReachesOn(Apply(u, sha, first[0]), sha, first[1..], w, second, v);
    }
  }

  lemma ReachesOne(w: World, sha: Sha, e: Event)
    requires Enabled(w, sha, e)
    ensures Reaches(w, sha, [e], Apply(w, sha, e))
  {
    hide Enabled, Apply;
    assert [e][1..] == [];
  }

  // ----- A drain -----

  /** Deletes and acknowledges, or fails, each lease, up to the first whose key has no file. */
  function SettleEvents(leases: seq<GarbageLease>, from: nat, now: Millis, stuck: set<string>): seq<Event>
    decreases |leases|
  {
    if leases == [] then []
    else
      var file := ObjectPath(leases[0].objectKey);
      if file.None? then []
      else (if file.value in stuck then [FailEvent(from, now)] else [DeleteEvent(from, ""), AckEvent(from)])
           + SettleEvents(leases[1..], from + 1, now, stuck)
  }

  /** The history holds the leases from `from` on, each under the key of its generation. */
  predicate AreRecorded(w: World, leases: seq<GarbageLease>, from: nat) {
    && from + |leases| <= |w.past.leases|
    && forall i | 0 <= i < |leases| ::
         && w.past.leases[from + i].lease == leases[i]
         && leases[i].objectKey == ObjectKey(leases[i].gen) && IsId(leases[i].gen.name)
  }

  lemma RecordedRest(w: World, v: World, leases: seq<GarbageLease>, from: nat)
    requires AreRecorded(w, leases, from) && leases != [] && v.past.leases == w.past.leases
    ensures AreRecorded(v, leases[1..], from + 1)
  {
    hide ObjectKey, IsId;
    forall i | 0 <= i < |leases[1..]|
      ensures v.past.leases[from + 1 + i].lease == leases[1..][i]
      ensures leases[1..][i].objectKey == ObjectKey(leases[1..][i].gen) && IsId(leases[1..][i].gen.name)
    {
      assert leases[1..][i] == leases[i + 1] && w.past.leases[from + (i + 1)].lease == leases[i + 1];
    }
  }

  lemma RecordedFirst(w: World, leases: seq<GarbageLease>, from: nat)
    requires AreRecorded(w, leases, from) && leases != []
    ensures from < |w.past.leases| && w.past.leases[from].lease == leases[0]
    ensures ObjectPath(leases[0].objectKey).Some? ==>
              ObjectPath(leases[0].objectKey).value == PrefixedKey("", leases[0].gen)
  {
    hide ObjectPath, ObjectKey, IsId;
    assert w.past.leases[from + 0].lease == leases[0];
    LocalKeyResolves(leases[0].gen);
  }

  lemma FailIsProtocol(w: World, sha: Sha, index: nat, now: StoredMillis) returns (v: World)
    requires index < |w.past.leases|
    ensures Reaches(w, sha, [FailEvent(index, now)], v)
    ensures v.store == FailLease(w.store, w.past.leases[index].lease, now) && v.past.leases == w.past.leases
    ensures v.past.stored == w.past.stored && v.past.acked == w.past.acked
  {
    hide FailLease;
    v := Apply(w, sha, FailEvent(index, now));
    ReachesOne(w, sha, FailEvent(index, now));
  }

  lemma DeleteIsProtocol(w: World, sha: Sha, index: nat) returns (v: World)
    requires index < |w.past.leases|
    ensures Reaches(w, sha, [DeleteEvent(index, ""), AckEvent(index)], v)
    ensures var lease := w.past.leases[index].lease;
            v.store == Acknowledge(w.store.(bodies := w.store.bodies - {PrefixedKey("", lease.gen)}), lease)
    ensures v.past.leases == w.past.leases && v.past.stored == w.past.stored
    ensures w.past.acked <= v.past.acked <= w.past.acked + {w.past.leases[index].lease.gen}
  {
    hide Acknowledge, PrefixedKey;
    var u := Apply(w, sha, DeleteEvent(index, ""));
    v := Apply(u, sha, AckEvent(index));
    ReachesOne(w, sha, DeleteEvent(index, ""));
    ReachesOne(u, sha, AckEvent(index));
    ReachesOn(w, sha, [DeleteEvent(index, "")], u, [AckEvent(index)], v);
    assert [DeleteEvent(index, "")] + [AckEvent(index)] == [DeleteEvent(index, ""), AckEvent(index)];
  }

  lemma {:induction false} SettlingIsProtocol(
    w: World, sha: Sha, leases: seq<GarbageLease>, from: nat, now: StoredMillis, stuck: set<string>, report: Report)
    returns (v: World)
    requires AreRecorded(w, leases, from)
    ensures Reaches(w, sha, SettleEvents(leases, from, now, stuck), v)
    ensures v.store == SettleLeases(w.store, leases, now, stuck, report).state
    decreases |leases|
  {
    hide AreRecorded, Reaches, Acknowledge, FailLease, ObjectPath, PrefixedKey;
    if leases == [] || ObjectPath(leases[0].objectKey).None? {
      v := w;
      ReachesNothing(w, sha);
    } else {
      RecordedFirst(w, leases, from);
      var file := ObjectPath(leases[0].objectKey).value;
      var u;
      if file in stuck {
        u := FailIsProtocol(w, sha, from, now);
        RecordedRest(w, u, leases, from);
        v := SettlingIsProtocol(u, sha, leases[1..], from + 1, now, stuck, report.(failed := report.failed + 1));
        ReachesOn(w, sha, [FailEvent(from, now)], u, SettleEvents(leases[1..], from + 1, now, stuck), v);
      } else {
        u := DeleteIsProtocol(w, sha, from);
        RecordedRest(w, u, leases, from);
        v := SettlingIsProtocol(u, sha, leases[1..], from + 1, now, stuck, report.(deleted := report.deleted + 1));
        ReachesOn(w, sha, [DeleteEvent(from, ""), AckEvent(from)], u, SettleEvents(leases[1..], from + 1, now, stuck), v);
      }
    }
  }

  lemma ReachesNothing(w: World, sha: Sha)
    ensures Reaches(w, sha, [], w)
  {
  }

  ghost function DrainEvents(w: World, now: Millis, limit: nat, c: ClaimChoice, stuck: set<string>): seq<Event>
    requires ValidGcRequest(now, limit) ==> ValidChoice(w.store, now, limit, c)
  {
    var claim := ClaimGarbage(w.store, now, limit, c).result;
    [ClaimEvent(now, limit, c)]
    + if claim.Ok? then SettleEvents(claim.value.leases, |w.past.leases|, now, stuck) else []
  }

  lemma ClaimIsRecorded(w: World, sha: Sha, now: Millis, limit: nat, c: ClaimChoice, v: World)
    requires GenInv(w) && (ValidGcRequest(now, limit) ==> ValidChoice(w.store, now, limit, c))
    requires Step(w, sha, ClaimEvent(now, limit, c), v)
    ensures var claim := ClaimGarbage(w.store, now, limit, c);
            && v.store == claim.state
            && (claim.result.Ok? ==> AreRecorded(v, claim.result.value.leases, |w.past.leases|))
  {
    hide ValidChoice, ObjectKey, IsId, GenInv, AreRecorded, ClaimGarbage;
    var claim := ClaimGarbage(w.store, now, limit, c);
    if claim.result.Ok? {
      var leases := claim.result.value.leases;
      FailedClaim(w.store, now, limit, c);
      ClaimKeepsGen(w, now, limit, c);
      assert v.past.leases == w.past.leases + NewRecords(leases, now);
      ClaimedLeases(w, now, limit, c);
      hide Step;
      GarbageIsRecorded(w, ClaimWorld(w, now, c), v, leases, now);
    }
  }

  lemma ClaimedLeases(w: World, now: Millis, limit: nat, c: ClaimChoice)
    requires ValidGcRequest(now, limit) && ValidChoice(w.store, now, limit, c) && ClaimFits(w.store, c)
    requires ClaimGarbage(w.store, now, limit, c).result.Ok?
    ensures ClaimWorld(w, now, c).past.leases ==
            w.past.leases + NewRecords(ClaimGarbage(w.store, now, limit, c).result.value.leases, now)
  {
    hide ValidChoice, ClaimFits, BeforeLeasing, AfterLeasing;
  }

  lemma GarbageIsRecorded(w: World, u: World, v: World, leases: seq<GarbageLease>, now: Millis)
    requires GenInv(u) && u.past.leases == v.past.leases && v.past.leases == w.past.leases + NewRecords(leases, now)
    ensures AreRecorded(v, leases, |w.past.leases|)
  {
    hide ObjectKey, IsId, PlacesOf, Phased;
    var from := |w.past.leases|;
    forall i | 0 <= i < |leases|
      ensures v.past.leases[from + i].lease == leases[i]
      ensures leases[i].objectKey == ObjectKey(leases[i].gen) && IsId(leases[i].gen.name)
    {
      assert v.past.leases[from + i].lease == leases[i];
      assert IsGarbage(u, u.past.leases[from + i].lease);
    }
  }

  /** A drain is a claim followed by the deletes, acknowledgements and failures of its leases. */
  lemma DrainIsProtocol(w: World, sha: Sha, now: Millis, limit: nat, c: ClaimChoice, stuck: set<string>)
    returns (v: World)
    requires GenInv(w) && (ValidGcRequest(now, limit) ==> ValidChoice(w.store, now, limit, c))
    ensures Reaches(w, sha, DrainEvents(w, now, limit, c, stuck), v)
    ensures v.store == DrainGarbage(w.store, now, limit, c, stuck).state
  {
    hide ValidChoice, Reaches, GenInv, ClaimGarbage, Apply, AreRecorded, SettleEvents, SettleLeases;
    var claim, e := ClaimGarbage(w.store, now, limit, c), ClaimEvent(now, limit, c);
    var u := Apply(w, sha, e);
    ReachesOne(w, sha, e);
    ClaimIsRecorded(w, sha, now, limit, c, u);
    FailedClaim(w.store, now, limit, c);
    if claim.result.Ok? {
      var garbage := claim.result.value;
      v := SettlingIsProtocol(u, sha, garbage.leases, |w.past.leases|, now, stuck, garbage.report);
      ReachesOn(w, sha, [e], u, SettleEvents(garbage.leases, |w.past.leases|, now, stuck), v);
    } else {
      v := u;
      assert [e] + [] == [e];
    }
  }

  lemma FailedClaim(s: State, now: Millis, limit: nat, c: ClaimChoice)
    requires ValidGcRequest(now, limit) ==> ValidChoice(s, now, limit, c)
    ensures ClaimGarbage(s, now, limit, c).result.Err? ==> ClaimGarbage(s, now, limit, c).state == s
    ensures ClaimGarbage(s, now, limit, c).result.Ok? ==> ValidGcRequest(now, limit)
  {
    hide ValidChoice;
  }

  // ----- A publication -----

  function PublishEvents(s: State, sha: Sha, r: Reservation, o: Observation, now: Millis): seq<Event> {
    if PreparePublish(s, sha, r, o).Some? then [] else [CheckBody(r, o), CommitEvent(r, o, now)]
  }

  /** `publish` answers at once, or checks the body and then commits. */
  lemma PublishIsProtocol(w: World, sha: Sha, r: Reservation, o: Observation, now: Millis) returns (v: World)
    ensures Reaches(w, sha, PublishEvents(w.store, sha, r, o, now), v)
    ensures v.store == Publish(w.store, sha, r, o, now).state
  {
    hide PreparePublish, CommitPublication, Commits, Reaches;
    if PreparePublish(w.store, sha, r, o).Some? {
      v := w;
      ReachesNothing(w, sha);
    } else {
      var check, commit := CheckBody(r, o), CommitEvent(r, o, now);
      var u := Apply(w, sha, check);
      v := Apply(u, sha, commit);
      ReachesOne(w, sha, check);
      ReachesOne(u, sha, commit);
      ReachesOn(w, sha, [check], u, [commit], v);
      assert [check] + [commit] == [check, commit];
    }
  }

  function TrustedEvents(s: State, r: Reservation, o: Observation, prefix: string, now: Millis): seq<Event> {
    [ObserveProvider(r, o, prefix)]
    + if PrepareTrusted(s, r, o).Some? then [] else [CheckReceipt(r, o), TrustedEvent(r, o, now)]
  }

  lemma TrustedCommitIsProtocol(w: World, sha: Sha, r: Reservation, o: Observation, now: Millis) returns (v: World)
    requires Check(r, o, false) in w.past.checked && PrepareTrusted(w.store, r, o).None?
    ensures Reaches(w, sha, [CheckReceipt(r, o), TrustedEvent(r, o, now)], v)
    ensures v.store == PublishTrusted(w.store, r, o, now).state
  {
    hide PrepareTrusted, CommitPublication, Commits, Reaches;
    var check, trust := CheckReceipt(r, o), TrustedEvent(r, o, now);
    var u := Apply(w, sha, check);
    v := Apply(u, sha, trust);
    ReachesOne(w, sha, check);
    ReachesOne(u, sha, trust);
    ReachesOn(w, sha, [check], u, [trust], v);
    assert [check] + [trust] == [check, trust];
  }

  /** A trusted publication follows an observation of the provider's object: it answers at once, or checks and commits. */
  lemma TrustedIsProtocol(w: World, sha: Sha, r: Reservation, o: Observation, prefix: string, now: Millis)
    returns (v: World)
    requires SlashFree(r.generation) && ProviderMatches(w.store, r, o, prefix)
    ensures Reaches(w, sha, TrustedEvents(w.store, r, o, prefix, now), v)
    ensures v.store == PublishTrusted(w.store, r, o, now).state
  {
    hide ProviderMatches, PrepareTrusted, CommitPublication, Reaches, SlashFree;
    var observe := ObserveProvider(r, o, prefix);
    var u := Apply(w, sha, observe);
    ReachesOne(w, sha, observe);
    if PrepareTrusted(w.store, r, o).Some? {
      v := u;
      assert [observe] + [] == [observe];
    } else {
      v := TrustedCommitIsProtocol(u, sha, r, o, now);
      ReachesOn(w, sha, [observe], u, [CheckReceipt(r, o), TrustedEvent(r, o, now)], v);
    }
  }

  // ----- An upload -----

  lemma UploadEffect(w: World, sha: Sha, r: Reservation, bytes: Bytes, now: Millis)
    requires GenInv(w) && Upload(w.store, sha, r, bytes, now).result.Ok?
    ensures LiveError(w.store, r, now).None?
    ensures Upload(w.store, sha, r, bytes, now).state ==
            w.store.(bodies := WriteOnce(w.store.bodies, PrefixedKey("", r.Gen()), bytes))
  {
    hide PlacesOf, ObjectPath, ObjectKey, ValidText, IsId, KeyedByGeneration, Phased, LeasedAreGarbage;
    assert ReservedGen(r.Key(), w.store.reservations[r.Key()]) == r.Gen();
    LocalKeyResolves(r.Gen());
  }

  /** An upload that succeeds is the check of its reservation and then the write, with nothing in between. */
  lemma UploadIsProtocol(w: World, sha: Sha, r: Reservation, bytes: Bytes, now: Millis) returns (v: World)
    requires GenInv(w) && Upload(w.store, sha, r, bytes, now).result.Ok?
    ensures Reaches(w, sha, [AdmitWrite(r, now), LateWrite(r.Gen(), "", bytes)], v)
    ensures v.store == Upload(w.store, sha, r, bytes, now).state
  {
    hide GenInv, Upload, LiveError, Reaches, PrefixedKey;
    UploadEffect(w, sha, r, bytes, now);
    var admit, write := AdmitWrite(r, now), LateWrite(r.Gen(), "", bytes);
    var u := Apply(w, sha, admit);
    v := Apply(u, sha, write);
    ReachesOne(w, sha, admit);
    ReachesOne(u, sha, write);
    ReachesOn(w, sha, [admit], u, [write], v);
    assert [admit] + [write] == [admit, write];
  }

  // ----- Histories of calls -----

  /** The tables, and the leases that claims handed out to their callers. */
  datatype Session = Session(store: State, leases: set<GarbageLease>)

  /**
   The calls that change the store, with what the environment decides during each. A caller who
   claimed garbage removes the files of his leases himself, and acknowledges or fails each.
   */
  datatype Call =
    | ReserveCall(req: ReserveRequest, ids: ReserveIds)
    | UploadCall(r: Reservation, bytes: Bytes, now: Millis)
    | PublishCall(r: Reservation, o: Observation, now: Millis)
    | TrustedCall(r: Reservation, o: Observation, prefix: string, now: Millis)
    | AbortCall(r: Reservation)
    | RetainCall(ref: ArtifactReference, now: Millis, until: Millis, found: Option<PathKey>)
    | ClaimCall(now: Millis, limit: nat, choice: ClaimChoice)
    | RemoveCall(lease: GarbageLease)
    | AckCall(lease: GarbageLease)
    | FailCall(lease: GarbageLease, now: Millis)
    | DrainCall(now: Millis, limit: nat, choice: ClaimChoice, stuck: set<string>)

  /**
   Identifiers are fresh, queries answer truthfully, a trusted observation is of a stored object,
   and a lease was handed out: its token is private to the store.
   */
  ghost predicate Allowed(x: Session, call: Call) {
    match call
    case ReserveCall(req, ids) => Fresh(x.store.minted, ids.All())
    case TrustedCall(r, o, prefix, now) => SlashFree(r.generation) && ProviderMatches(x.store, r, o, prefix)
    case RetainCall(ref, now, until, found) => AnswersById(x.store, ref.scope, ref.artifactId, found)
    case ClaimCall(now, limit, choice) => ValidGcRequest(now, limit) ==> ValidChoice(x.store, now, limit, choice)
    case RemoveCall(lease) => lease in x.leases
    case AckCall(lease) => lease in x.leases
    case FailCall(lease, now) => lease in x.leases
    case DrainCall(now, limit, choice, stuck) => ValidGcRequest(now, limit) ==> ValidChoice(x.store, now, limit, choice)
    case _ => true
  }

  /** The tables without the file of the lease. */
  function RemoveFile(s: State, lease: GarbageLease): State {
    var file := ObjectPath(lease.objectKey);
    if file.Some? then s.(bodies := s.bodies - {file.value}) else s
  }

  /** The tables after a call, as the method of the store object leaves them. */
  ghost function TablesAfter(x: Session, sha: Sha, call: Call): State
    requires Allowed(x, call)
  {
    match call
    case ReserveCall(req, ids) => Reserve(x.store, req, ids).state
    case UploadCall(r, bytes, now) => Upload(x.store, sha, r, bytes, now).state
    case PublishCall(r, o, now) => Publish(x.store, sha, r, o, now).state
    case TrustedCall(r, o, prefix, now) => PublishTrusted(x.store, r, o, now).state
    case AbortCall(r) => Abort(x.store, r).state
    case RetainCall(ref, now, until, found) => RetainForRead(x.store, ref, now, until, found).state
    case ClaimCall(now, limit, choice) => ClaimGarbage(x.store, now, limit, choice).state
    case RemoveCall(lease) => RemoveFile(x.store, lease)
    case AckCall(lease) => Acknowledge(x.store, lease)
    case FailCall(lease, now) => FailGarbage(x.store, lease, now).state
    case DrainCall(now, limit, choice, stuck) => DrainGarbage(x.store, now, limit, choice, stuck).state
  }

  /** The leases that callers hold after a call. */
  ghost function LeasesAfter(x: Session, call: Call): set<GarbageLease>
    requires Allowed(x, call)
  {
    if call.ClaimCall? && ClaimGarbage(x.store, call.now, call.limit, call.choice).result.Ok? then
      x.leases + Elements(ClaimGarbage(x.store, call.now, call.limit, call.choice).result.value.leases)
    else x.leases
  }

  ghost function After(x: Session, sha: Sha, call: Call): Session
    requires Allowed(x, call)
  {
    Session(TablesAfter(x, sha, call), LeasesAfter(x, call))
  }

  predicate IsRecord(records: seq<LeaseRecord>, lease: GarbageLease, i: nat) {
    i < |records| && records[i].lease == lease
  }

  /** Every lease in the hands of a caller is recorded. */
  ghost predicate AllRecorded(w: World, leases: set<GarbageLease>) {
    forall lease | lease in leases :: exists i: nat :: IsRecord(w.past.leases, lease, i)
  }

  ghost function IndexOf(w: World, leases: set<GarbageLease>, lease: GarbageLease): (i: nat)
    requires AllRecorded(w, leases) && lease in leases
    ensures IsRecord(w.past.leases, lease, i)
  {
    var i: nat :| IsRecord(w.past.leases, lease, i);
    i
  }

  ghost function EventsOf(w: World, sha: Sha, x: Session, call: Call): seq<Event>
    requires w.store == x.store && AllRecorded(w, x.leases) && Allowed(x, call)
  {
    match call
    case ReserveCall(req, ids) => [ReserveEvent(req, ids)]
    case UploadCall(r, bytes, now) => [UploadEvent(r, bytes, now)]
    case PublishCall(r, o, now) => PublishEvents(w.store, sha, r, o, now)
    case TrustedCall(r, o, prefix, now) => TrustedEvents(w.store, r, o, prefix, now)
    case AbortCall(r) => [AbortEvent(r)]
    case RetainCall(ref, now, until, found) => [RetainEvent(ref, now, until, found)]
    case ClaimCall(now, limit, choice) => [ClaimEvent(now, limit, choice)]
    case RemoveCall(lease) =>
      if ObjectPath(lease.objectKey).Some? then [DeleteEvent(IndexOf(w, x.leases, lease), "")] else []
    case AckCall(lease) => [AckEvent(IndexOf(w, x.leases, lease))]
    case FailCall(lease, now) => [FailEvent(IndexOf(w, x.leases, lease), now)]
    case DrainCall(now, limit, choice, stuck) => DrainEvents(w, now, limit, choice, stuck)
  }

  /** The call of a caller's session leads from `w` to `v`. */
  ghost predicate CallStep(w: World, sha: Sha, x: Session, call: Call, v: World) {
    && w.store == x.store && AllRecorded(w, x.leases) && Allowed(x, call)
    && Reaches(w, sha, EventsOf(w, sha, x, call), v)
    && v.store == TablesAfter(x, sha, call) && AllRecorded(v, LeasesAfter(x, call))
  }

  lemma OneEventCall(w: World, sha: Sha, x: Session, call: Call) returns (v: World)
    requires w.store == x.store && AllRecorded(w, x.leases) && Allowed(x, call)
    requires !call.PublishCall? && !call.TrustedCall? && !call.DrainCall?
    requires !call.RemoveCall? && !call.AckCall? && !call.FailCall?
    ensures Reaches(w, sha, EventsOf(w, sha, x, call), v) && v.store == TablesAfter(x, sha, call)
  {
    hide Reserve, DecideReserve, NewReservationRow, Fresh, Upload, Abort, RetainForRead, AnswersById, ClaimGarbage;
    hide ValidChoice, AllRecorded;
    var e := EventsOf(w, sha, x, call)[0];
    assert EventsOf(w, sha, x, call) == [e] && Enabled(w, sha, e);
    v := Apply(w, sha, e);
    ReachesOne(w, sha, e);
  }

  lemma LeaseFile(w: World, index: nat)
    requires GenInv(w) && index < |w.past.leases|
    ensures var lease := w.past.leases[index].lease;
            ObjectPath(lease.objectKey).Some? ==> ObjectPath(lease.objectKey).value == PrefixedKey("", lease.gen)
  {
    hide ObjectPath, ObjectKey, IsId, GenInv, IsGarbage;
    LeaseKey(w, index);
    LocalKeyResolves(w.past.leases[index].lease.gen);
  }

  lemma RemoveIsProtocol(w: World, sha: Sha, x: Session, call: Call) returns (v: World)
    requires GenInv(w) && w.store == x.store && AllRecorded(w, x.leases) && Allowed(x, call) && call.RemoveCall?
    ensures Reaches(w, sha, EventsOf(w, sha, x, call), v) && v.store == TablesAfter(x, sha, call)
  {
    hide GenInv, AllRecorded, ObjectPath, PrefixedKey, Reaches, IsId;
    var index := IndexOf(w, x.leases, call.lease);
    LeaseFile(w, index);
    if ObjectPath(call.lease.objectKey).None? {
      v := w;
      ReachesNothing(w, sha);
    } else {
      v := Apply(w, sha, DeleteEvent(index, ""));
      ReachesOne(w, sha, DeleteEvent(index, ""));
    }
  }

  /** Acknowledging a lease and failing it are the events of its record. */
  lemma LeaseCall(w: World, sha: Sha, x: Session, call: Call) returns (v: World)
    requires GenInv(w) && w.store == x.store && AllRecorded(w, x.leases) && Allowed(x, call)
    requires call.AckCall? || call.FailCall?
    ensures Reaches(w, sha, EventsOf(w, sha, x, call), v) && v.store == TablesAfter(x, sha, call)
  {
    hide GenInv, AllRecorded, PrefixedKey, Acknowledge, FailGarbage, HoldsLease, Reaches;
    var e := EventsOf(w, sha, x, call)[0];
    assert EventsOf(w, sha, x, call) == [e];
    v := Apply(w, sha, e);
    ReachesOne(w, sha, e);
  }

  lemma {:induction false} LeasesAlong(w: World, sha: Sha, es: seq<Event>, v: World)
    requires Reaches(w, sha, es, v)
    ensures w.past.leases <= v.past.leases
    decreases |es|
  {
    hide Enabled, ApplyEvent;
    if es != [] {
      LeasesAfterEvent(w, sha, es[0]);
      LeasesAlong(Apply(w, sha, es[0]), sha, es[1..], v);
    }
  }

  lemma LeasesAfterEvent(w: World, sha: Sha, e: Event)
    requires Enabled(w, sha, e)
    ensures w.past.leases <= Apply(w, sha, e).past.leases
  {
    hide Enabled, ApplyEvent;
    if e.ClaimEvent? {
      ClaimKeepsLeases(w, sha, e);
    } else {
      OtherEventsKeepLeases(w, sha, e);
    }
  }

  lemma RecordsStay(w: World, v: World, leases: set<GarbageLease>)
    requires AllRecorded(w, leases) && w.past.leases <= v.past.leases
    ensures AllRecorded(v, leases)
  {
    forall lease | lease in leases ensures exists i: nat :: IsRecord(v.past.leases, lease, i) {
      var i: nat :| IsRecord(w.past.leases, lease, i);
      assert IsRecord(v.past.leases, lease, i);
    }
  }

  lemma RecordedOnes(w: World, leases: seq<GarbageLease>, from: nat)
    requires AreRecorded(w, leases, from)
    ensures AllRecorded(w, Elements(leases))
  {
    hide ObjectKey, IsId;
    forall lease | lease in Elements(leases) ensures exists i: nat :: IsRecord(w.past.leases, lease, i) {
      var i :| 0 <= i < |leases| && leases[i] == lease;
      assert IsRecord(w.past.leases, lease, from + i);
    }
  }

  lemma HandedOut(w: World, sha: Sha, x: Session, call: Call, v: World)
    requires GenInv(w) && w.store == x.store && AllRecorded(w, x.leases) && Allowed(x, call)
    requires Reaches(w, sha, EventsOf(w, sha, x, call), v)
    ensures AllRecorded(v, LeasesAfter(x, call))
  {
    hide GenInv, AllRecorded, Reaches, EventsOf, ValidChoice, ClaimGarbage, AreRecorded;
    LeasesAlong(w, sha, EventsOf(w, sha, x, call), v);
    RecordsStay(w, v, x.leases);
    if call.ClaimCall? {
      ClaimHandsOut(w, sha, x, call, v);
    }
  }

  lemma ClaimHandsOut(w: World, sha: Sha, x: Session, call: Call, v: World)
    requires GenInv(w) && w.store == x.store && AllRecorded(w, x.leases) && Allowed(x, call) && call.ClaimCall?
    requires Reaches(w, sha, EventsOf(w, sha, x, call), v) && AllRecorded(v, x.leases)
    ensures AllRecorded(v, LeasesAfter(x, call))
  {
    hide GenInv, ValidChoice, ClaimGarbage, AreRecorded, Enabled, Apply, AllRecorded;
    var e, claim := ClaimEvent(call.now, call.limit, call.choice), ClaimGarbage(w.store, call.now, call.limit, call.choice);
    assert EventsOf(w, sha, x, call) == [e] && [e][1..] == [];
    ClaimIsRecorded(w, sha, call.now, call.limit, call.choice, v);
    if claim.result.Ok? {
      RecordedOnes(v, claim.result.value.leases, |w.past.leases|);
      BothRecorded(v, x.leases, Elements(claim.result.value.leases));
    }
  }

  lemma BothRecorded(w: World, a: set<GarbageLease>, b: set<GarbageLease>)
    requires AllRecorded(w, a) && AllRecorded(w, b)
    ensures AllRecorded(w, a + b)
  {
  }

  /** Every call is what its events make of the tables, and the leases it hands out are recorded. */
  lemma CallIsProtocol(w: World, sha: Sha, x: Session, call: Call) returns (v: World)
    requires GenInv(w) && w.store == x.store && AllRecorded(w, x.leases) && Allowed(x, call)
    ensures CallStep(w, sha, x, call, v)
  {
    hide GenInv, Reaches, PublishEvents, TrustedEvents, DrainEvents, Publish, PublishTrusted, DrainGarbage;
    hide ProviderMatches, ValidChoice, AllRecorded, LeasesAfter, ClaimGarbage;
    match call {
      case PublishCall(r, o, now) => v := PublishIsProtocol(w, sha, r, o, now);
      case TrustedCall(r, o, prefix, now) => v := TrustedIsProtocol(w, sha, r, o, prefix, now);
      case DrainCall(now, limit, choice, stuck) => v := DrainIsProtocol(w, sha, now, limit, choice, stuck);
      case RemoveCall(lease) => v := RemoveIsProtocol(w, sha, x, call);
      case AckCall(lease) => v := LeaseCall(w, sha, x, call);
      case FailCall(lease, now) => v := LeaseCall(w, sha, x, call);
      case _ => v := OneEventCall(w, sha, x, call);
    }
    HandedOut(w, sha, x, call, v);
  }

  /** Every write is that of an upload. */
  predicate AreAtomic(es: seq<Event>) {
    forall i | 0 <= i < |es| :: !es[i].LateWrite?
  }

  lemma {:induction false} SettlingIsAtomic(leases: seq<GarbageLease>, from: nat, now: Millis, stuck: set<string>)
    ensures AreAtomic(SettleEvents(leases, from, now, stuck))
    decreases |leases|
  {
    hide ObjectPath;
    if leases != [] {
      SettlingIsAtomic(leases[1..], from + 1, now, stuck);
    }
  }

  /** No call writes a body behind the back of its own check. */
  lemma CallIsAtomic(w: World, sha: Sha, x: Session, call: Call)
    requires w.store == x.store && AllRecorded(w, x.leases) && Allowed(x, call)
    ensures AreAtomic(EventsOf(w, sha, x, call))
  {
    hide PreparePublish, PrepareTrusted, ValidChoice, ClaimGarbage, SettleEvents, ProviderMatches, AnswersById, Fresh;
    hide AllRecorded, ObjectPath;
    if call.DrainCall? {
      var claim := ClaimGarbage(w.store, call.now, call.limit, call.choice).result;
      if claim.Ok? {
        SettlingIsAtomic(claim.value.leases, |w.past.leases|, call.now, call.stuck);
      }
    }
  }

  /** The sessions `xs` are what the calls make of the empty store, one after the other. */
  ghost predicate Calling(sha: Sha, xs: seq<Session>, calls: seq<Call>) {
    && |xs| == |calls| + 1
    && xs[0] == Session(EMPTY, {})
    && forall i | 0 <= i < |calls| :: Allowed(xs[i], calls[i]) && xs[i + 1] == After(xs[i], sha, calls[i])
  }

  lemma {:induction false} RunOn(sha: Sha, ws: seq<World>, es: seq<Event>, more: seq<Event>, v: World)
    returns (longer: seq<World>)
    requires Run(sha, ws, es) && Reaches(ws[|es|], sha, more, v)
    ensures Run(sha, longer, es + more) && longer[|es + more|] == v && ws <= longer
    decreases |more|
  {
    hide Run, Apply, Enabled;
    RunLength(sha, ws, es);
    if more == [] {
      longer := ws;
      assert es + more == es;
    } else {
      var u := Apply(ws[|es|], sha, more[0]);
      RunStepOn(sha, ws, es, more[0]);
      longer := RunOn(sha, ws + [u], es + [more[0]], more[1..], v);
      assert es + [more[0]] + more[1..] == es + more;
    }
  }

  lemma RunStepOn(sha: Sha, ws: seq<World>, es: seq<Event>, e: Event)
    requires Run(sha, ws, es) && Enabled(ws[|es|], sha, e)
    ensures Run(sha, ws + [Apply(ws[|es|], sha, e)], es + [e])
  {
    hide Enabled, Apply;
    var longer, events := ws + [Apply(ws[|es|], sha, e)], es + [e];
    forall i | 0 <= i < |events| ensures Step(longer[i], sha, events[i], longer[i + 1]) {
      if i < |es| {
        assert Step(ws[i], sha, es[i], ws[i + 1]);
      }
    }
  }

  lemma ShorterCalling(sha: Sha, xs: seq<Session>, calls: seq<Call>)
    requires Calling(sha, xs, calls) && calls != []
    ensures var n := |calls| - 1;
            && Calling(sha, xs[..n + 1], calls[..n]) && |xs| == n + 2
            && Allowed(xs[n], calls[n]) && xs[n + 1] == After(xs[n], sha, calls[n])
  {
    hide Allowed, After;
    var n := |calls| - 1;
    forall i | 0 <= i < n ensures Allowed(xs[..n + 1][i], calls[..n][i])
                             && xs[..n + 1][i + 1] == After(xs[..n + 1][i], sha, calls[..n][i]) {
      assert Allowed(xs[i], calls[i]) && xs[i + 1] == After(xs[i], sha, calls[i]);
    }
  }

  lemma StartOfCalling(sha: Sha, xs: seq<Session>, calls: seq<Call>)
    requires Calling(sha, xs, calls)
    ensures |xs| == |calls| + 1 && xs[0] == Session(GENESIS.store, {}) && Run(sha, [GENESIS], [])
    ensures AllRecorded(GENESIS, {})
  {
    hide Allowed, After;
  }

  /** The run goes through the sessions in order: the world at `at[i]` has the tables of `xs[i]`. */
  ghost predicate Traverses(sha: Sha, ws: seq<World>, xs: seq<Session>, calls: seq<Call>, at: seq<nat>) {
    && |at| == |xs| == |calls| + 1 && at[0] == 0
    && (forall i | 0 <= i < |at| :: at[i] < |ws| && ws[at[i]].store == xs[i].store && AllRecorded(ws[at[i]], xs[i].leases))
    && (forall i | 0 <= i < |calls| :: at[i] <= at[i + 1] && CallStep(ws[at[i]], sha, xs[i], calls[i], ws[at[i + 1]]))
  }

  lemma TraversesMore(
    sha: Sha, ws: seq<World>, xs: seq<Session>, calls: seq<Call>, at: seq<nat>, longer: seq<World>, call: Call, x: Session)
    requires Traverses(sha, ws, xs, calls, at) && ws <= longer && at[|calls|] < |longer| && ws != []
    requires CallStep(longer[at[|calls|]], sha, xs[|calls|], call, longer[|longer| - 1])
    requires x.store == longer[|longer| - 1].store && AllRecorded(longer[|longer| - 1], x.leases)
    ensures Traverses(sha, longer, xs + [x], calls + [call], at + [|longer| - 1])
  {
    hide CallStep, AllRecorded;
    var all, next, places := xs + [x], calls + [call], at + [|longer| - 1];
    forall i | 0 <= i < |places|
      ensures places[i] < |longer| && longer[places[i]].store == all[i].store
      ensures AllRecorded(longer[places[i]], all[i].leases)
    {
      if i < |at| {
        assert longer[at[i]] == ws[at[i]];
      }
    }
    forall i | 0 <= i < |next|
      ensures places[i] <= places[i + 1] && CallStep(longer[places[i]], sha, all[i], next[i], longer[places[i + 1]])
    {
      if i < |calls| {
        assert longer[at[i]] == ws[at[i]] && longer[at[i + 1]] == ws[at[i + 1]];
      }
    }
  }

  /** Every history of calls is a run without late writes, in which each of its tables occurs in order. */
  lemma {:induction false} CallsAreRuns(sha: Sha, xs: seq<Session>, calls: seq<Call>)
    returns (ws: seq<World>, es: seq<Event>, at: seq<nat>)
    requires Calling(sha, xs, calls)
    ensures Run(sha, ws, es) && |ws| == |es| + 1 && AreAtomic(es)
    ensures Traverses(sha, ws, xs, calls, at) && at[|calls|] == |es|
    decreases |calls|
  {
    hide Calling, Run, Allowed, TablesAfter, LeasesAfter, Reaches, GenInv, EventsOf, AllRecorded, CallStep;
    StartOfCalling(sha, xs, calls);
    if calls == [] {
      ws, es, at := [GENESIS], [], [0];
    } else {
      var n := |calls| - 1;
      ShorterCalling(sha, xs, calls);
      ws, es, at := CallsAreRuns(sha, xs[..n + 1], calls[..n]);
      RunHasGenerations(sha, ws, es);
      var w := ws[|es|];
      CallIsAtomic(w, sha, xs[n], calls[n]);
      var v := CallIsProtocol(w, sha, xs[n], calls[n]);
      StepLeads(w, sha, xs[n], calls[n], v);
      var more := EventsOf(w, sha, xs[n], calls[n]);
      var longer := RunOn(sha, ws, es, more, v);
      RunLength(sha, longer, es + more);
      TraversesMore(sha, ws, xs[..n + 1], calls[..n], at, longer, calls[n], xs[n + 1]);
      assert xs[..n + 1] + [xs[n + 1]] == xs && calls[..n] + [calls[n]] == calls;
      ws, es, at := longer, es + more, at + [|es + more|];
    }
  }

  lemma StepLeads(w: World, sha: Sha, x: Session, call: Call, v: World)
    requires CallStep(w, sha, x, call, v)
    ensures w.store == x.store && AllRecorded(w, x.leases) && Allowed(x, call)
    ensures Reaches(w, sha, EventsOf(w, sha, x, call), v)
    ensures v.store == After(x, sha, call).store && AllRecorded(v, After(x, sha, call).leases)
  {
    hide AllRecorded, Allowed, Reaches, EventsOf, TablesAfter, LeasesAfter;
  }

  lemma RunHasGenerations(sha: Sha, ws: seq<World>, es: seq<Event>)
    requires Run(sha, ws, es)
    ensures |ws| == |es| + 1 && GenInv(ws[|es|])
  {
    hide Run, GenInv, StoredInv, CheckInv, PathInv;
    RunLength(sha, ws, es);
    RunInvariant(sha, ws, es, |es|);
  }
}
