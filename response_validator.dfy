/**
 * The accept/reject decisions a relying party applies to an inbound SAML 2.0
 * Web Browser SSO response: status, signature, issuer, issue-instant
 * freshness, destination binding, replay, opportunistic decryption of an
 * EncryptedID, and the single-logout key.
 *
 * The checks that read or write no state are functions over explicit inputs.
 * The validator's mutable configuration (the accepted clock skew) and the
 * peer entity context's "authenticated" flag live in classes.
 */
module ResponseValidation {
  import opened SamlTypes

  // ---------------------------------------------------------------------
  // Status
  // ---------------------------------------------------------------------

  /** A possibly-null string as Java string concatenation renders it. */
  function JavaText(s: Option<string>): (t: string)
    ensures s.Some? ==> t == s.value
    ensures s.None? ==> t == "null"
  {
    match s
    case Some(v) => v
    case None => "null"
  }

  /**
   * The "actual" status reported when a response is not a success: the
   * status code's value, followed by " / " and the status message's value
   * when a status message is present.
   */
  function StatusReport(code: StatusCode, message: Option<StatusMessage>): (report: string)
    ensures var head := JavaText(code.value);
      |head| <= |report| && report[..|head|] == head
    ensures message.None? ==> report == JavaText(code.value)
    ensures message.Some? ==>
      var text := JavaText(message.value.value);
      |text| <= |report| && report[|report| - |text|..] == text
  {
    var text := JavaText(code.value);
    if message.Some? then text + " / " + JavaText(message.value.value) else text
  }

  /**
   * A response is accepted only with a status carrying a status code whose
   * value is the Success URI. A missing status or status code is reported
   * as missing; any other code is reported with its value (and message).
   */
  function ValidateSuccess(status: Option<Status>): (r: Outcome)
    ensures r.Pass? <==>
      status.Some? && status.value.statusCode.Some? &&
      status.value.statusCode.value.value == Some(StatusSuccess)
    ensures r == Fail(MissingStatus) <==> status.None? || status.value.statusCode.None?
    ensures r.Fail? && r.error != MissingStatus ==>
      r.error == StatusNotSuccess(StatusReport(status.value.statusCode.value, status.value.statusMessage))
  {
    if status.None? || status.value.statusCode.None? then
      Fail(MissingStatus)
    else
      var statusValue := status.value.statusCode.value.value;
      if statusValue != Some(StatusSuccess) then
        Fail(StatusNotSuccess(StatusReport(status.value.statusCode.value, status.value.statusMessage)))
      else
        Pass
  }

  // ---------------------------------------------------------------------
  // Signature
  // ---------------------------------------------------------------------

  /**
   * Whether a string is empty once leading and trailing characters up to
   * and including the space character are trimmed, as Java's `String.trim`
   * does.
   */
  predicate IsBlank(s: string)
  {
    forall k :: 0 <= k < |s| ==> s[k] <= ' '
  }

  /**
   * Checks a signature: first its profile, then the trust engine's verdict
   * for the peer entity id. Each of the three failures has its own error,
   * and the trust engine is not consulted when the profile check faults.
   * The entity-id criterion handed to the engine refuses a null or blank id
   * with an unchecked error, so the engine is never asked about such an id.
   */
  function ValidateSignature(signature: Signature, idpEntityId: Option<string>,
                             profile: ProfileValidator, engine: TrustEngine): (r: Outcome)
    ensures r.Pass? <==>
      profile(signature) == ProfileValid && idpEntityId.Some? && !IsBlank(idpEntityId.value) &&
      engine(signature, idpEntityId.value) == Verdict(true)
    ensures profile(signature) == ProfileFault ==> r == Fail(SignatureProfile)
    ensures profile(signature) == ProfileValid ==>
      (r == Fail(CriterionRejected) <==> idpEntityId.None? || IsBlank(idpEntityId.value))
    ensures profile(signature) == ProfileValid && idpEntityId.Some? && !IsBlank(idpEntityId.value) ==>
      (r == Fail(SignatureValidation) <==> engine(signature, idpEntityId.value) == TrustFault) &&
      (r == Fail(SignatureNotTrusted) <==> engine(signature, idpEntityId.value) == Verdict(false))
  {
    match profile(signature)
    case ProfileFault => Fail(SignatureProfile)
    case ProfileValid =>
      if idpEntityId.None? || IsBlank(idpEntityId.value) then
        Fail(CriterionRejected)
      else
        match engine(signature, idpEntityId.value)
        case TrustFault => Fail(SignatureValidation)
        case Verdict(valid) => if !valid then Fail(SignatureNotTrusted) else Pass
  }

  /**
   * The peer entity context of a message: the entity id the peer claims and
   * whether the peer has been authenticated. The validator only ever sets
   * the flag, and only after a signature has been validated.
   */
  class PeerEntityContext {
    var entityId: Option<string>
    var authenticated: bool

    constructor (entityId: Option<string>)
      ensures this.entityId == entityId && !authenticated
    {
      this.entityId := entityId;
      authenticated := false;
    }
  }

  // ---------------------------------------------------------------------
  // Issuer
  // ---------------------------------------------------------------------

  /**
   * An issuer is accepted when its format, if set, is the entity format and
   * its value is exactly the peer entity id, which must be known. A wrong
   * format is reported before any comparison of values.
   */
  function ValidateIssuer(issuer: Issuer, entityId: Option<string>): (r: Outcome)
    ensures r.Pass? <==>
      (issuer.format.None? || issuer.format.value == EntityFormat) &&
      entityId.Some? && issuer.value == entityId
    ensures r.Fail? ==>
      (r.error.IssuerFormat? <==> issuer.format.Some? && issuer.format.value != EntityFormat)
    ensures r.Fail? && !r.error.IssuerFormat? ==> r.error == IssuerMismatch(issuer.value, entityId)
    ensures r.Fail? && r.error.IssuerFormat? ==> r.error.format == issuer.format.value
  {
    if issuer.format.Some? && issuer.format.value != EntityFormat then
      Fail(IssuerFormat(issuer.format.value))
    else if entityId.None? || Some(entityId.value) != issuer.value then
      Fail(IssuerMismatch(issuer.value, entityId))
    else
      Pass
  }

  /** An absent issuer is skipped; a present one must pass `ValidateIssuer`. */
  function ValidateIssuerIfItExists(issuer: Option<Issuer>, entityId: Option<string>): (r: Outcome)
    ensures issuer.None? ==> r == Pass
    ensures issuer.Some? ==> r == ValidateIssuer(issuer.value, entityId)
  {
    if issuer.Some? then ValidateIssuer(issuer.value, entityId) else Pass
  }

  // ---------------------------------------------------------------------
  // Destination / endpoints
  // ---------------------------------------------------------------------

  /** The comparator says the destination matches each of the first `n` endpoints. */
  predicate MatchesFirst(compare: UriComparator, destination: string, endpoints: seq<string>, n: nat)
    requires n <= |endpoints|
  {
    forall j :: 0 <= j < n ==> compare(destination, endpoints[j]) == Compared(true)
  }

  /**
   * Compares a destination with one endpoint: the comparator's boolean
   * answer, or an endpoint-mismatch error wrapping the comparator's fault.
   */
  function CompareEndpoints(compare: UriComparator, destination: string, endpoint: string): (r: Result<bool>)
    ensures r.Ok? <==> compare(destination, endpoint).Compared?
    ensures r.Ok? ==> r.value == compare(destination, endpoint).equal
    ensures r.Err? ==> r.error == EndpointMismatch(ComparatorFault)
  {
    match compare(destination, endpoint)
    case Compared(equal) => Ok(equal)
    case CompareFault => Err(EndpointMismatch(ComparatorFault))
  }

  /**
   * "Every endpoint matches the destination", evaluated left to right and
   * stopping at the first endpoint that does not match or whose comparison
   * faults; a fault is raised, not read as a mismatch. An empty list matches.
   */
  function AllEndpointsMatch(compare: UriComparator, destination: string, endpoints: seq<string>): (r: Result<bool>)
    ensures r == Ok(true) <==> MatchesFirst(compare, destination, endpoints, |endpoints|)
    ensures r == Ok(false) <==>
      exists i :: 0 <= i < |endpoints| && MatchesFirst(compare, destination, endpoints, i) &&
                  compare(destination, endpoints[i]) == Compared(false)
    ensures r.Err? <==>
      exists i :: 0 <= i < |endpoints| && MatchesFirst(compare, destination, endpoints, i) &&
                  compare(destination, endpoints[i]) == CompareFault
    ensures r.Err? ==> r.error == EndpointMismatch(ComparatorFault)
    decreases |endpoints|
  {
    if endpoints == [] then
      Ok(true)
    else
      match CompareEndpoints(compare, destination, endpoints[0])
      case Err(e) => Err(e)
      case Ok(equal) =>
        if !equal then Ok(false)
        else
          var rest := AllEndpointsMatch(compare, destination, endpoints[1..]);
          ShiftMatches(compare, destination, endpoints);
          rest
  }

  /** How the prefix predicate of a list relates to that of its tail. */
  lemma ShiftMatches(compare: UriComparator, destination: string, endpoints: seq<string>)
    requires endpoints != [] && compare(destination, endpoints[0]) == Compared(true)
    ensures forall i :: 0 <= i < |endpoints| ==>
      (MatchesFirst(compare, destination, endpoints, i + 1) <==>
       MatchesFirst(compare, destination, endpoints[1..], i))
  {
  }

  // ---------------------------------------------------------------------
  // Decryption and single-logout key
  // ---------------------------------------------------------------------

  /**
   * Decrypts an EncryptedID when there is both an EncryptedID and a
   * decrypter; without either the result is no NameID and no error. A
   * decryption fault is a NameID-decryption error. A plaintext that is not
   * a NameID fails the cast to NameID, an error outside the SAML hierarchy.
   */
  function DecryptEncryptedId(encryptedId: Option<EncryptedId>, decrypter: Option<Decrypter>): (r: Result<Option<NameId>>)
    ensures encryptedId.None? || decrypter.None? ==> r == Ok(None)
    ensures r == Err(NameIdDecryption) <==>
      encryptedId.Some? && decrypter.Some? && decrypter.value.decrypt(encryptedId.value) == DecryptionFault
    ensures r == Err(ClassCast) <==>
      encryptedId.Some? && decrypter.Some? && decrypter.value.decrypt(encryptedId.value).Decrypted? &&
      decrypter.value.decrypt(encryptedId.value).plain.OtherObject?
    ensures r.Ok? && r.value.Some? ==>
      encryptedId.Some? && decrypter.Some? &&
      decrypter.value.decrypt(encryptedId.value) == Decrypted(NameIdObject(r.value.value))
    ensures (encryptedId.Some? && decrypter.Some? &&
             decrypter.value.decrypt(encryptedId.value).Decrypted? &&
             decrypter.value.decrypt(encryptedId.value).plain.NameIdObject?) ==>
      r == Ok(Some(decrypter.value.decrypt(encryptedId.value).plain.nameId))
    ensures r.Err? ==> r.error == NameIdDecryption || r.error == ClassCast
  {
    if encryptedId.None? then Ok(None)
    else if decrypter.None? then Ok(None)
    else
      match decrypter.value.decrypt(encryptedId.value)
      case DecryptionFault => Err(NameIdDecryption)
      case Decrypted(plain) =>
        match plain
        case NameIdObject(nameId) => Ok(Some(nameId))
        case OtherObject(_) => Err(ClassCast)
  }

  /**
   * The key under which a session is recorded for single logout: the
   * session index takes precedence; otherwise the name identifier's value.
   */
  function ComputeSloKey(sessionIndex: Option<string>, nameId: Option<CredentialsNameId>): (key: Option<string>)
    ensures sessionIndex.Some? ==> key == sessionIndex
    ensures key.Some? <==> sessionIndex.Some? || (nameId.Some? && nameId.value.value.Some?)
    ensures key.Some? && sessionIndex.None? ==> key == nameId.value.value
  {
    if sessionIndex.Some? then sessionIndex
    else if nameId.Some? then nameId.value.value
    else None
  }

  // ---------------------------------------------------------------------
  // The validator's configuration and the checks that read it
  // ---------------------------------------------------------------------

  /** Entry expiry, in milliseconds, the replay handler is given for a skew in seconds. */
  function ReplayExpiryMillis(acceptedSkew: int): (millis: int)
    ensures millis % 1000 == 0 && millis / 1000 == acceptedSkew
  {
    acceptedSkew * 1000
  }

  class ResponseValidator {
    /** Compares a response's destination with an endpoint URL. */
    const uriComparator: UriComparator
    /** The replay cache, if one was configured. */
    const replayCache: Option<ReplayCacheProvider>
    /** Maximum clock skew, in seconds, between the relying party and the identity provider. */
    var acceptedSkew: int

    constructor (uriComparator: UriComparator, replayCache: Option<ReplayCacheProvider>)
      ensures this.uriComparator == uriComparator && this.replayCache == replayCache
      ensures acceptedSkew == DefaultAcceptedSkew
    {
      this.uriComparator := uriComparator;
      this.replayCache := replayCache;
      acceptedSkew := DefaultAcceptedSkew;
    }

    /** Overwrites the accepted skew; any value is taken, negative ones included. */
    method SetAcceptedSkew(acceptedSkew: int)
      modifies this`acceptedSkew
      ensures this.acceptedSkew == acceptedSkew
    {
      this.acceptedSkew := acceptedSkew;
    }

    /**
     * When a signature is present, validates it for the peer's entity id
     * and, only if it is accepted, marks the peer as authenticated. Without
     * a signature nothing is checked and nothing changes.
     */
    method ValidateSignatureIfItExists(signature: Option<Signature>, peer: PeerEntityContext,
                                       profile: ProfileValidator, engine: TrustEngine)
      returns (r: Outcome)
      modifies peer`authenticated
      ensures signature.None? ==> r == Pass && peer.authenticated == old(peer.authenticated)
      ensures signature.Some? ==> r == ValidateSignature(signature.value, peer.entityId, profile, engine)
      ensures peer.authenticated == (old(peer.authenticated) || (signature.Some? && r.Pass?))
      ensures peer.authenticated && !old(peer.authenticated) ==>
        peer.entityId.Some? && !IsBlank(peer.entityId.value)
    {
      if signature.Some? {
        var entityId := peer.entityId;
        r := ValidateSignature(signature.value, entityId, profile, engine);
        if r.Fail? {
          return;
        }
        peer.authenticated := true;
      } else {
        r := Pass;
      }
    }

    /**
     * Whether an instant lies strictly inside the window that opens
     * `acceptedSkew + interval` seconds before `now` and closes
     * `acceptedSkew` seconds after it.
     */
    function IsDateValid(now: int, issueInstant: int, interval: int): (valid: bool)
      reads this
      ensures valid <==> now - (acceptedSkew + interval) < issueInstant < now + acceptedSkew
    {
      var before := now + acceptedSkew;
      var after := now - (acceptedSkew + interval);
      issueInstant < before && issueInstant > after
    }

    /** An issue instant is fresh when it lies strictly within `acceptedSkew` of `now`, either way. */
    function IsIssueInstantValid(now: int, issueInstant: int): (valid: bool)
      reads this
      ensures valid <==> -acceptedSkew < issueInstant - now < acceptedSkew
    {
      IsDateValid(now, issueInstant, 0)
    }

    /**
     * Raises an issue-instant error exactly when a present instant is not
     * fresh. A missing instant is dereferenced while the window is checked,
     * which raises an unchecked null-reference error instead.
     */
    function ValidateIssueInstant(now: int, issueInstant: Option<int>): (r: Outcome)
      reads this
      ensures issueInstant.None? ==> r == Fail(NullReference)
      ensures issueInstant.Some? ==>
        (r.Pass? <==> now - acceptedSkew < issueInstant.value < now + acceptedSkew) &&
        (r.Fail? ==> r.error == IssueInstant)
    {
      match issueInstant
      case None => Fail(NullReference)
      case Some(instant) => if !IsIssueInstantValid(now, instant) then Fail(IssueInstant) else Pass
    }

    /**
     * A missing destination passes unless one is mandatory. A present one
     * must match every endpoint, by the comparator; a comparator fault is
     * raised as an endpoint mismatch, never taken as a plain "no".
     */
    function VerifyEndpoint(endpoints: seq<string>, destination: Option<string>,
                            isDestinationMandatory: bool): (r: Outcome)
      ensures destination.None? ==>
        (r.Pass? <==> !isDestinationMandatory) &&
        (r.Fail? ==> r.error == EndpointMismatch(NullDestination))
      ensures destination.Some? ==>
        (r.Pass? <==> forall j :: 0 <= j < |endpoints| ==>
                        uriComparator(destination.value, endpoints[j]) == Compared(true))
      ensures destination.Some? && r.Fail? ==>
        r.error == EndpointMismatch(NotMatched) || r.error == EndpointMismatch(ComparatorFault)
      ensures destination.Some? ==>
        (r == Fail(EndpointMismatch(ComparatorFault)) <==>
         exists i :: 0 <= i < |endpoints| && MatchesFirst(uriComparator, destination.value, endpoints, i) &&
                     uriComparator(destination.value, endpoints[i]) == CompareFault)
    {
      if destination.None? && !isDestinationMandatory then
        Pass
      else if destination.None? then
        Fail(EndpointMismatch(NullDestination))
      else
        match AllEndpointsMatch(uriComparator, destination.value, endpoints)
        case Err(e) => Fail(e)
        case Ok(verified) => if !verified then Fail(EndpointMismatch(NotMatched)) else Pass
    }

    /**
     * Without a replay cache the check is skipped. Otherwise a replay handler
     * whose entries expire after `acceptedSkew` seconds runs on the message:
     * a fault while initialising it is a generic error, any fault while
     * running it a replay error.
     */
    function VerifyMessageReplay(message: InboundMessage): (r: Outcome)
      reads this
      ensures replayCache.None? ==> r == Pass
      ensures replayCache.Some? ==>
        var outcome := replayCache.value.run(acceptedSkew * 1000, message);
        (r.Pass? <==> outcome == NotReplayed) &&
        (r == Fail(Init) <==> outcome == InitFault) &&
        (r == Fail(Replay) <==> outcome == HandlerFault)
    {
      if replayCache.None? then
        Pass
      else
        match replayCache.value.run(ReplayExpiryMillis(acceptedSkew), message)
        case InitFault => Fail(Init)
        case HandlerFault => Fail(Replay)
        case NotReplayed => Pass
    }
  }
}
