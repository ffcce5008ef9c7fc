/** The time and key rules under which the S3 adapter signs direct transfers. */
module Grants {
  import opened Wrappers
  import opened Keys
  import opened Catalog

  const MAX_PRESIGN_TTL_MS: int := 7 * 24 * 60 * 60 * 1_000

  /** The expiry of a grant, if it may be signed. */
  function GrantExpiry(now: Millis, ttl: Millis, reservationExpiry: Option<Millis>): Result<Millis, Error> {
    if now <= 0 || ttl <= 0 || ttl > MAX_PRESIGN_TTL_MS then Err(Invalid)
    else if now + ttl > I64_MAX then Err(Invalid)
    else if reservationExpiry.Some? && now + ttl > reservationExpiry.value then Err(Invalid)
    else Ok(now + ttl)
  }

  datatype BodyGrant = BodyGrant(objectKey: string, expiresAt: Millis)

  /** An upload grant: a single PUT of the reserved generation that must not find an object there. */
  function SignPut(prefix: string, r: Reservation, now: Millis, ttl: Millis): Result<BodyGrant, Error> {
    if !r.Valid() then Err(Invalid)
    else
      var expiry := GrantExpiry(now, ttl, Some(r.expiresAt));
      var key := GenerationKey(prefix, r.Gen());
      if expiry.Err? then Err(expiry.error)
      else if key.None? then Err(Invalid)
      else Ok(BodyGrant(key.value, expiry.value))
  }

  /** A download grant: a GET of exactly the published generation. */
  function SignGet(prefix: string, ref: ArtifactReference, now: Millis, ttl: Millis, retainedUntil: Millis)
    : Result<BodyGrant, Error>
  {
    if !ref.Valid() then Err(Invalid)
    else
      var expiry := GrantExpiry(now, ttl, None);
      if expiry.Err? then Err(expiry.error)
      else if retainedUntil < expiry.value then Err(Invalid)
      else if ref.body.Inline? then Err(BodyMismatch)
      else
        var key := GenerationKey(prefix, Generation(ref.scope, ref.body.generation));
        if key.None? then Err(Invalid)
        else if ref.body.objectKey != key.value then Err(BodyMismatch)
        else Ok(BodyGrant(key.value, expiry.value))
  }

  /** The adapter has a key for the generation: a safe name, a scope without dots, and room for the key. */
  predicate HasKey(prefix: string, g: Generation) {
    && g.name != "" && Utf8Length(g.name) <= 256 && !IsDot(g.name)
    && (forall i | 0 <= i < |g.name| ::
          g.name[i] != '/' && g.name[i] != '\\' && !IsControl(g.name[i]) && !IsWhitespace(g.name[i]))
    && !IsDot(g.scope.tenant) && !IsDot(g.scope.project)
    && Utf8Length(PrefixedKey(prefix, g)) <= 1_024
  }

  lemma KeyIff(prefix: string, g: Generation)
    requires prefix == "" || ValidKey(prefix)
    ensures GenerationKey(prefix, g).Some? <==> HasKey(prefix, g)
    ensures GenerationKey(prefix, g).Some? ==> GenerationKey(prefix, g).value == PrefixedKey(prefix, g)
  {
    hide ValidKey, PrefixedKey;
    GenerationKeyAccepts(prefix, g);
  }

  /** The window of a grant: seven days at the most, and a time that the clock can hold. */
  predicate IsWindow(now: Millis, ttl: Millis) {
    0 < now && 0 < ttl <= 7 * 86_400_000 && now + ttl <= I64_MAX
  }

  /**
   An upload grant is signed exactly for a well-formed reservation with a key, for a window that
   ends no later than the reservation; it ends with the window and names that key.
   */
  lemma PutGrantIff(prefix: string, r: Reservation, now: Millis, ttl: Millis)
    requires prefix == "" || ValidKey(prefix)
    ensures SignPut(prefix, r, now, ttl) ==
            if ValidText(r.token) && ValidText(r.generation)
               && IsWindow(now, ttl) && now + ttl <= r.expiresAt && HasKey(prefix, r.Gen())
            then Ok(BodyGrant(PrefixedKey(prefix, r.Gen()), now + ttl)) else Err(Invalid)
  {
    hide ValidKey, PrefixedKey, ValidText, GenerationKey, HasKey;
    KeyIff(prefix, r.Gen());
  }

  /**
   A download grant is signed exactly for a well-formed reference to an object under the key of
   its generation, for a window that the retention covers; it ends with the window and names
   that key.
   */
  lemma GetGrantIff(prefix: string, ref: ArtifactReference, now: Millis, ttl: Millis, retainedUntil: Millis)
    requires prefix == "" || ValidKey(prefix)
    ensures SignGet(prefix, ref, now, ttl, retainedUntil).Ok? <==>
            && ref.Valid() && ref.body.Object? && IsWindow(now, ttl) && now + ttl <= retainedUntil
            && HasKey(prefix, Generation(ref.scope, ref.body.generation))
            && ref.body.objectKey == PrefixedKey(prefix, Generation(ref.scope, ref.body.generation))
    ensures SignGet(prefix, ref, now, ttl, retainedUntil).Ok? ==>
              SignGet(prefix, ref, now, ttl, retainedUntil).value == BodyGrant(ref.body.objectKey, now + ttl)
  {
    hide ValidKey, PrefixedKey, ValidText, GenerationKey, HasKey;
    if ref.body.Object? {
      KeyIff(prefix, Generation(ref.scope, ref.body.generation));
    }
  }

  /** An upload grant ends after its lifetime: in the future, within seven days, not after its reservation. */
  lemma PutGrantsAreBounded(prefix: string, r: Reservation, now: Millis, ttl: Millis)
    requires SignPut(prefix, r, now, ttl).Ok?
    ensures var grant := SignPut(prefix, r, now, ttl).value;
            && grant.expiresAt == now + ttl
            && now < grant.expiresAt <= Min(r.expiresAt, now + MAX_PRESIGN_TTL_MS)
            && ParseKey(grant.objectKey) == Some((r.scope.tenant, r.scope.project, r.generation))
  {
    hide ParseKey, PrefixedKey, ValidKey, ValidText;
    ParsePrefixedKey(prefix, r.Gen());
  }

  /** A download grant ends after its lifetime: in the future, within seven days, not after its retention. */
  lemma GetGrantsAreBounded(prefix: string, ref: ArtifactReference, now: Millis, ttl: Millis, retainedUntil: Millis)
    requires SignGet(prefix, ref, now, ttl, retainedUntil).Ok?
    ensures var grant := SignGet(prefix, ref, now, ttl, retainedUntil).value;
            && grant.expiresAt == now + ttl
            && now < grant.expiresAt <= Min(retainedUntil, now + MAX_PRESIGN_TTL_MS)
            && ref.body.Object? && grant.objectKey == ref.body.objectKey
            && ParseKey(grant.objectKey) == Some((ref.scope.tenant, ref.scope.project, ref.body.generation))
  {
    hide ParseKey, PrefixedKey, ValidKey, ValidText;
    ParsePrefixedKey(prefix, Generation(ref.scope, ref.body.generation));
  }
}
