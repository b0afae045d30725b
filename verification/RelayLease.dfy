/** Signed, finite operator grants (ops/relay/relay_lease.py): admission of one lease. */
module RelayLease {
  import opened Options

  /** A decoded value of a request body; `NonFinite` is the decoder's NaN or infinity. */
  datatype Json = Text(text: string) | Whole(whole: int) | Fraction(fraction: real) | NonFinite | Otherwise

  datatype Field =
    | Schema | RelayInstance | Target | EncoderInstance | SenderInstance | RouteGeneration | AuthorityEpoch
    | Sequence | InputSequence | IssuedAt | ExpiresAt | GrantExpiresAt | Route | Unlisted(name: string)

  const FIELDS := {Schema, RelayInstance, Target, EncoderInstance, SenderInstance, RouteGeneration, AuthorityEpoch,
                   Sequence, InputSequence, IssuedAt, ExpiresAt, GrantExpiresAt, Route}

  type Body = map<Field, Json>

  /** The keyed digest is taken to be injective; `Forged` is a text that no key produces. */
  datatype Signature = Mac(body: Body, key: string) | Forged | NotText

  /** The typed content of a body that passed the type checks. */
  datatype Terms = Terms(
    target: string, encoderInstance: string, senderInstance: string, authorityEpoch: string, routeGeneration: int,
    sequence: int, inputSequence: int, issuedAt: real, expiresAt: real, grantExpiresAt: real)

  datatype Lease = Lease(terms: Terms, elapsedDeadline: real) {
    predicate Valid(wall: real, elapsed: real) {
      && elapsed < elapsedDeadline
      && wall < terms.expiresAt
      && wall < terms.grantExpiresAt
      && wall >= terms.issuedAt - 2.0
    }
  }

  datatype Rejection =
    | RelayHalted | GrantMismatch | SchemaInvalid | SignatureInvalid | IdentityInvalid | RouteOrInstanceMismatch
    | SequenceInvalid | Replay | TimeInvalid | ExpiredOrClockUnbound | GrantTooLong | ContinuousNotLeaseBound
    | IdentityChangedWithoutStop | SourceNotProgressing | Malformed | StorageFailed

  datatype Admission = Admitted(lease: Lease) | Rejected(why: Rejection)

  predicate IsIdentity(j: Json) {
    j.Text? && 1 <= |j.text| <= 256
  }

  predicate IsCount(j: Json) {
    j.Whole? && j.whole > 0
  }

  predicate IsTime(j: Json) {
    j.Whole? || j.Fraction?
  }

  function Number(j: Json): real
    requires IsTime(j)
  {
    if j.Whole? then j.whole as real else j.fraction
  }

  predicate WellTyped(body: Body) {
    && body.Keys == FIELDS
    && IsIdentity(body[Target]) && IsIdentity(body[EncoderInstance]) && IsIdentity(body[SenderInstance])
    && IsIdentity(body[AuthorityEpoch])
    && IsCount(body[Sequence]) && IsCount(body[InputSequence]) && IsCount(body[RouteGeneration])
    && IsTime(body[IssuedAt]) && IsTime(body[ExpiresAt]) && IsTime(body[GrantExpiresAt])
  }

  function TermsOf(body: Body): Terms
    requires WellTyped(body)
  {
    Terms(body[Target].text, body[EncoderInstance].text, body[SenderInstance].text, body[AuthorityEpoch].text,
          body[RouteGeneration].whole, body[Sequence].whole, body[InputSequence].whole,
          Number(body[IssuedAt]), Number(body[ExpiresAt]), Number(body[GrantExpiresAt]))
  }

  /** The fields that no renewal of a lease may change. */
  predicate SameIdentity(a: Terms, b: Terms, continuous: bool) {
    && a.target == b.target && a.encoderInstance == b.encoderInstance && a.senderInstance == b.senderInstance
    && a.routeGeneration == b.routeGeneration && a.authorityEpoch == b.authorityEpoch
    && (!continuous ==> a.grantExpiresAt == b.grantExpiresAt)
  }

  function Min(a: real, b: real): real {
    if a <= b then a else b
  }

  function Admit(body: Body, signature: Signature, key: string, relayInstance: string, highwater: int,
                 wall: real, elapsed: real, previous: Option<Lease>, continuous: bool): Admission
  {
    if body.Keys != FIELDS || body[Schema] != Text("stream.relay_lease.v1") then Rejected(SchemaInvalid)
    else if signature == NotText then Rejected(SignatureInvalid)
    else if NonFinite in body.Values then Rejected(Malformed)
    else if signature != Mac(body, key) then Rejected(SignatureInvalid)
    else if !(IsIdentity(body[RelayInstance]) && IsIdentity(body[Target]) && IsIdentity(body[EncoderInstance])
              && IsIdentity(body[SenderInstance]) && IsIdentity(body[AuthorityEpoch])) then Rejected(IdentityInvalid)
    else if body[RelayInstance] != Text(relayInstance) || body[Route] != Text("PRIMARY") then
      Rejected(RouteOrInstanceMismatch)
    else if !(IsCount(body[Sequence]) && IsCount(body[InputSequence]) && IsCount(body[RouteGeneration])) then
      Rejected(SequenceInvalid)
    else if body[Sequence].whole <= highwater then Rejected(Replay)
    else if !(IsTime(body[IssuedAt]) && IsTime(body[ExpiresAt]) && IsTime(body[GrantExpiresAt])) then
      Rejected(TimeInvalid)
    else AdmitTerms(TermsOf(body), wall, elapsed, previous, continuous)
  }

  function AdmitTerms(t: Terms, wall: real, elapsed: real, previous: Option<Lease>, continuous: bool): Admission {
    if !(0.0 < t.expiresAt - t.issuedAt <= 15.0) || !(t.issuedAt - 2.0 <= wall < t.expiresAt)
       || t.expiresAt > t.grantExpiresAt then
      Rejected(ExpiredOrClockUnbound)
    else if !(0.0 < t.grantExpiresAt - t.issuedAt <= 86400.0) then Rejected(GrantTooLong)
    else if continuous && t.grantExpiresAt != t.expiresAt then Rejected(ContinuousNotLeaseBound)
    else if previous.Some? && !SameIdentity(t, previous.value.terms, continuous) then
      Rejected(IdentityChangedWithoutStop)
    else if previous.Some? && t.inputSequence <= previous.value.terms.inputSequence then Rejected(SourceNotProgressing)
    else Admitted(Lease(t, elapsed + Min(15.0, t.expiresAt - wall)))
  }

  // ----- What an admission is worth

  /** An admitted lease is valid when admitted, authorises at most 15 s of boottime, never outlives its own
      expiry on a steady wall clock even when it was issued in the future, and ends with its grant. */
  lemma AdmittedIsBounded(body: Body, signature: Signature, key: string, relayInstance: string, highwater: int,
                          wall: real, elapsed: real, previous: Option<Lease>, continuous: bool, past: real)
    ensures
      var answer := Admit(body, signature, key, relayInstance, highwater, wall, elapsed, previous, continuous);
      answer.Admitted? ==>
        var lease := answer.lease;
        && signature == Mac(body, key) && WellTyped(body) && lease.terms == TermsOf(body)
        && lease.Valid(wall, elapsed)
        && (forall w, e :: lease.Valid(w, e) ==>
              e - elapsed < 15.0 && w < lease.terms.grantExpiresAt <= lease.terms.issuedAt + 86400.0)
        && (wall + past >= lease.terms.expiresAt ==> elapsed + past >= lease.elapsedDeadline)
        && lease.terms.sequence > highwater
        && (previous.Some? ==> SameIdentity(lease.terms, previous.value.terms, continuous))
        && (previous.Some? ==> lease.terms.inputSequence > previous.value.terms.inputSequence)
  {
  }

  predicate IsShortText(body: Body, field: Field) {
    field in body && body[field].Text? && 1 <= |body[field].text| <= 256
  }

  predicate IsPositive(body: Body, field: Field) {
    field in body && body[field].Whole? && body[field].whole > 0
  }

  predicate IsFinite(body: Body, field: Field) {
    field in body && (body[field].Whole? || body[field].Fraction?)
  }

  /** A signed body of exactly the listed fields, each of its type, for this relay on the primary route. */
  predicate Addressed(body: Body, signature: Signature, key: string, relayInstance: string) {
    && body.Keys == FIELDS && signature == Mac(body, key) && NonFinite !in body.Values
    && body[Schema] == Text("stream.relay_lease.v1") && body[Route] == Text("PRIMARY")
    && body[RelayInstance] == Text(relayInstance)
    && IsShortText(body, RelayInstance) && IsShortText(body, Target) && IsShortText(body, EncoderInstance)
    && IsShortText(body, SenderInstance) && IsShortText(body, AuthorityEpoch)
    && IsPositive(body, Sequence) && IsPositive(body, InputSequence) && IsPositive(body, RouteGeneration)
    && IsFinite(body, IssuedAt) && IsFinite(body, ExpiresAt) && IsFinite(body, GrantExpiresAt)
  }

  /** It lasts at most 15 s and its grant a day, it is neither over nor issued more than 2 s ahead, and in continuous
      mode it ends with its grant. */
  predicate WithinLimits(t: Terms, wall: real, continuous: bool) {
    && t.issuedAt < t.expiresAt <= t.issuedAt + 15.0 && t.expiresAt <= t.grantExpiresAt <= t.issuedAt + 86400.0
    && t.issuedAt - 2.0 <= wall < t.expiresAt
    && (continuous ==> t.grantExpiresAt == t.expiresAt)
  }

  /** It renews the lease held before: the same parties and route, a later input. */
  predicate Renews(t: Terms, before: Terms, continuous: bool) {
    && t == before.(sequence := t.sequence, inputSequence := t.inputSequence, issuedAt := t.issuedAt,
                    expiresAt := t.expiresAt, grantExpiresAt := t.grantExpiresAt)
    && (continuous || t.grantExpiresAt == before.grantExpiresAt)
    && t.inputSequence > before.inputSequence
  }

  /** Exactly which requests are admitted, and for how long on boottime. */
  lemma AdmittedExactlyWhen(body: Body, signature: Signature, key: string, relayInstance: string, highwater: int,
                            wall: real, elapsed: real, previous: Option<Lease>, continuous: bool)
    ensures
      var answer := Admit(body, signature, key, relayInstance, highwater, wall, elapsed, previous, continuous);
      && (answer.Admitted? <==>
            && Addressed(body, signature, key, relayInstance) && WellTyped(body)
            && TermsOf(body).sequence > highwater && WithinLimits(TermsOf(body), wall, continuous)
            && (previous.Some? ==> Renews(TermsOf(body), previous.value.terms, continuous)))
      && (answer.Admitted? ==>
            && answer.lease.terms == TermsOf(body)
            && answer.lease.elapsedDeadline - elapsed ==
                 if answer.lease.terms.expiresAt - wall > 15.0 then 15.0 else answer.lease.terms.expiresAt - wall)
  {
    hide AdmitTerms, WithinLimits, Renews;
    AddressedIsTyped(body, signature, key, relayInstance);
    if WellTyped(body) {
      TermsAdmitted(TermsOf(body), wall, elapsed, previous, continuous);
    }
  }

  lemma TermsAdmitted(t: Terms, wall: real, elapsed: real, previous: Option<Lease>, continuous: bool)
    ensures
      var answer := AdmitTerms(t, wall, elapsed, previous, continuous);
      && (answer.Admitted? <==>
            WithinLimits(t, wall, continuous) && (previous.Some? ==> Renews(t, previous.value.terms, continuous)))
      && (answer.Admitted? ==>
            && answer.lease.terms == t
            && answer.lease.elapsedDeadline - elapsed == if t.expiresAt - wall > 15.0 then 15.0 else t.expiresAt - wall)
  {
  }

  lemma AddressedIsTyped(body: Body, signature: Signature, key: string, relayInstance: string)
    ensures Addressed(body, signature, key, relayInstance) ==> WellTyped(body)
  {
  }

  /** The same signed body is never admitted twice, whatever the clocks say and whatever was admitted between. */
  lemma NoReplay(body: Body, signature: Signature, key: string, relayInstance: string,
                 highwater: int, wall: real, elapsed: real, previous: Option<Lease>, continuous: bool,
                 later: int, wall': real, elapsed': real, previous': Option<Lease>)
    ensures
      var answer := Admit(body, signature, key, relayInstance, highwater, wall, elapsed, previous, continuous);
      answer.Admitted? && later >= answer.lease.terms.sequence ==>
        Admit(body, signature, key, relayInstance, later, wall', elapsed', previous', continuous) == Rejected(Replay)
  {
  }
}
