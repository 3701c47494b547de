/**
 * Shared vocabulary of the petshop API model: optional values, results,
 * the error values the services report, KSUID identifiers, time, money
 * and password digests.
 */
module Common {

  datatype Option<+T> = None | Some(value: T)

  datatype Result<+T> = Ok(value: T) | Err(error: Error)

  /**
   * Every failure the modelled core reports. The first group are the
   * sentinel values of the domain error package; `Storage` is any failure
   * of the database other than "record not found"; the rest stand for the
   * formatted messages the services build.
   */
  datatype Error =
    // domain sentinels
    | NotFound | AlreadyExists | InvalidData | Unauthorized
    | CheckExistingOwner | SetPasswordFailed | CreateOwner | UpdateOwner | UpdateOwnerLocation
    // database failure other than "record not found"
    | Storage
    // malformed identifiers
    | InvalidDonoId | InvalidPetId | InvalidPetshopId | InvalidServicoId
    // referenced records
    | DonoNotFound | PetNotFound | PetshopNotFound | ServicoNotFound
    | CheckDonoFailed | CheckPetFailed | CheckPetshopFailed | CheckServicoFailed | CheckAgendamentoFailed
    | PetNotOwned | ServicoNotFromPetshop | ServicoInactive
    // dates and totals
    | InvalidDate | PastDate | FutureDate | TotalMismatch
    // appointment lifecycle
    | CancelledIsFinal | ConcludedIsFinal | CancelledNotEditable | ConcludedNotEditable
    // wrapped failures of a later step
    | CreateAgendamentoFailed | UpdateAgendamentoFailed | UpdateStatusFailed | FetchUpdatedFailed
    | FetchPetInfoFailed | FetchDonoInfoFailed | FetchPetshopInfoFailed | ListAgendamentosFailed
    | CreateProcedimentoFailed | ListProcedimentosFailed
    | CheckExistingServicoFailed | CreateServicoFailed | UpdateServicoFailed | ListServicosFailed
    | CheckExistingPetshop | CreatePetshopFailed | UpdatePetshopFailed | UpdateAddressFailed
    | FindByCityFailed | ListPetshopsFailed
    | CreatePetFailed | ListPetsFailed
    | FetchDonoFailed | FetchPetshopFailed | CreateDonoFailed
    // log-in through the token middleware
    | MissingLoginValues | FailedAuthentication

  /** One character of the base-62 alphabet KSUIDs are written in. */
  predicate IsBase62(c: char)
  {
    ('0' <= c <= '9') || ('A' <= c <= 'Z') || ('a' <= c <= 'z')
  }

  /** The textual form of a KSUID: exactly 27 base-62 characters. */
  predicate IsKsuidText(s: string)
  {
    |s| == 27 && forall i | 0 <= i < |s| :: IsBase62(s[i])
  }

  /** A KSUID, identified with its canonical text. */
  type Id = s: string | IsKsuidText(s) witness "000000000000000000000000000"

  /** The zero KSUID, carried by a record that has not been inserted yet. */
  const NilId: Id := "000000000000000000000000000"

  /** ksuid.Parse: the text is accepted exactly when it has the KSUID shape. */
  function ParseId(s: string): (r: Option<Id>)
    ensures r.Some? <==> IsKsuidText(s)
    ensures r.Some? ==> r.value == s
  {
    if IsKsuidText(s) then Some(s) else None
  }

  /** Instants, in the resolution the database stores them. */
  type Time = int

  /** Prices and totals. */
  type Money = real

  /** Left-to-right running total, the way the services accumulate prices. */
  function Sum(xs: seq<Money>): Money
  {
    if xs == [] then 0.0 else Sum(xs[..|xs| - 1]) + xs[|xs| - 1]
  }

  lemma SumSnoc(xs: seq<Money>, x: Money)
    ensures Sum(xs + [x]) == Sum(xs) + x
  {
    assert (xs + [x])[..|xs|] == xs;
  }

  /** The tolerance of one cent the procedure total is checked with. */
  const Epsilon: Money := 0.01

  /** `total` lies within one cent of `sum`, written as the source writes it. */
  predicate WithinEpsilon(total: Money, sum: Money)
  {
    !(total < sum - Epsilon || total > sum + Epsilon)
  }

  lemma WithinEpsilonIsDistance(total: Money, sum: Money)
    ensures WithinEpsilon(total, sum) <==> -Epsilon <= total - sum <= Epsilon
  {
  }

  /** A stored password hash. */
  datatype Digest = Digest(secret: string)

  /** bcrypt.GenerateFromPassword, as a total function. */
  function Hash(password: string): Digest
  {
    Digest(password)
  }

  /** bcrypt.CompareHashAndPassword succeeding. */
  predicate CheckPassword(d: Digest, password: string)
  {
    d == Hash(password)
  }
}
