/**
 * Values the SAML 2.0 response validator works on: the parsed protocol
 * elements it inspects, the abstract outcomes of the collaborators it
 * consults (signature-profile validator, trust engine, URI comparator,
 * decrypter, replay handler) and the errors it raises.
 *
 * A Java reference that may be null is an `Option`; a Java exception
 * thrown by a check is the `Fail`/`Err` case of `Outcome`/`Result`.
 */
module SamlTypes {

  /** A possibly-null reference. */
  datatype Option<+T> = None | Some(value: T)

  /** Status code URI of a successful response (SAML 2.0 Core, section 3.2.2.2). */
  const StatusSuccess: string := "urn:oasis:names:tc:SAML:2.0:status:Success"

  /** Name identifier format URI of an entity identifier (SAML 2.0 Core, section 8.3.6). */
  const EntityFormat: string := "urn:oasis:names:tc:SAML:2.0:nameid-format:entity"

  /** Default tolerance, in seconds, between the clocks of the two parties. */
  const DefaultAcceptedSkew: int := 120

  /** Why a destination was refused. */
  datatype MismatchReason =
    | NullDestination   // no destination, but the configuration mandates one
    | NotMatched        // the comparator said an endpoint does not match
    | ComparatorFault   // the comparator itself failed; its fault is the cause

  /**
   * The errors the validator raises. In the Java code the three signature
   * errors are one exception class with three messages, and MissingStatus,
   * StatusNotSuccess and Init are the generic SAML exception; here each
   * failure gets its own tag.
   */
  datatype SamlError =
    | MissingStatus
    | StatusNotSuccess(actual: string)
    | SignatureProfile
    | SignatureValidation
    | SignatureNotTrusted
    | IssuerFormat(format: string)
    | IssuerMismatch(issuer: Option<string>, entityId: Option<string>)
    | IssueInstant
    | EndpointMismatch(reason: MismatchReason)
    | Replay
    | Init
    | NameIdDecryption
    | ClassCast          // an unchecked cast failure, outside the SAML error hierarchy
    | NullReference      // an unchecked null dereference, outside the SAML error hierarchy
    | CriterionRejected  // an entity-id criterion refused a null or blank id (unchecked)

  /** A check that either passes or raises an error. */
  datatype Outcome = Pass | Fail(error: SamlError)

  /** A computation that either yields a value or raises an error. */
  datatype Result<+T> = Ok(value: T) | Err(error: SamlError)

  // ---- Protocol elements (already parsed) ----

  datatype StatusCode = StatusCode(value: Option<string>)
  datatype StatusMessage = StatusMessage(value: Option<string>)
  datatype Status = Status(statusCode: Option<StatusCode>, statusMessage: Option<StatusMessage>)

  datatype Issuer = Issuer(format: Option<string>, value: Option<string>)

  /** An XML signature block, kept opaque: only the collaborators look inside. */
  datatype Signature = Signature(element: string)

  /** An EncryptedID element, kept opaque. */
  datatype EncryptedId = EncryptedId(cipherData: string)

  /** A SAML NameID element. */
  datatype NameId = NameId(format: Option<string>, value: Option<string>)

  /** What a decrypter can hand back: a NameID or some other SAML element (a BaseID, say). */
  datatype SamlObject = NameIdObject(nameId: NameId) | OtherObject(elementName: string)

  /** The name identifier as stored in the authentication credentials. */
  datatype CredentialsNameId = CredentialsNameId(format: Option<string>, value: Option<string>)

  /** The inbound message as the replay handler sees it. */
  datatype InboundMessage = InboundMessage(id: Option<string>, issueInstant: Option<int>)

  // ---- Abstract outcomes of the collaborators ----

  /** Verdict of the signature-profile validator. */
  datatype ProfileOutcome = ProfileValid | ProfileFault

  /** Verdict of the trust engine: a boolean answer or a security fault. */
  datatype TrustVerdict = Verdict(valid: bool) | TrustFault

  /** Answer of the URI comparator: a boolean answer or a fault. */
  datatype CompareOutcome = Compared(equal: bool) | CompareFault

  /** Result of decrypting an EncryptedID. */
  datatype DecryptOutcome = Decrypted(plain: SamlObject) | DecryptionFault

  /** Result of running a replay handler on a message. */
  datatype ReplayOutcome = NotReplayed | InitFault | HandlerFault

  /**
   * The signature-profile validator applied to a signature.
   */
  type ProfileValidator = Signature -> ProfileOutcome

  /**
   * The trust engine asked whether a signature is trusted under the criteria
   * set the validator builds: signing usage, the identity-provider role, the
   * SAML 2.0 protocol namespace and the given peer entity id. Only the entity
   * id varies between calls, so only it is an argument; the criterion only
   * ever holds a non-blank id.
   */
  type TrustEngine = (Signature, string) -> TrustVerdict

  /** The URI comparator applied to (destination, endpoint). */
  type UriComparator = (string, string) -> CompareOutcome

  /** A decrypter. */
  datatype Decrypter = Decrypter(decrypt: EncryptedId -> DecryptOutcome)

  /**
   * A replay cache provider: running a fresh replay handler bound to the
   * provider's cache, with the given entry expiry in milliseconds, on a message.
   */
  datatype ReplayCacheProvider = ReplayCacheProvider(run: (int, InboundMessage) -> ReplayOutcome)
}
