# SAML 2.0 response validation checks, modelled in Dafny

This project models the validation helpers of pac4j's
`AbstractSAML2ResponseValidator`. A relying party applies these accept/reject
decisions to an inbound SAML 2.0 Web Browser SSO response. Each check works on
values that are already parsed:

- **Status.** The response must carry a status with a status code whose value
  is `urn:oasis:names:tc:SAML:2.0:status:Success`. A missing status or code is
  reported as missing. Any other code is reported with its value, followed by
  `" / "` and the status message's value when there is a message. A null
  Java string is rendered as `"null"`.
- **Signature, when present.** The profile validator runs first, then the
  trust engine is asked for the peer entity id. A profile fault, a trust-engine
  fault and an "untrusted" verdict each give a different error. Only after
  success is the peer entity context's `authenticated` flag set.
- **Issuer, when present.** A format, if set, must be the entity format. The
  value must equal the peer entity id exactly, and that id must be known.
- **Issue-instant freshness.** An instant is accepted when it lies strictly
  between `now - (acceptedSkew + interval)` and `now + acceptedSkew`.
- **Destination binding.** A missing destination passes unless one is
  mandatory. A present destination must match every endpoint according to the
  URI comparator. The check runs left to right and stops at the first miss or
  fault. A comparator fault is raised as an endpoint mismatch.
- **Replay.** The check is skipped when no replay cache is configured.
  Otherwise a replay handler runs with an entry expiry of `acceptedSkew * 1000`
  milliseconds. A fault while initialising the handler is a generic error. A
  fault while running it is a replay error.
- **EncryptedID decryption.** This is opportunistic. Without an EncryptedID
  or without a decrypter the result is no NameID and no error.
- **Single-logout key.** The session index wins. Otherwise the key is the
  name identifier's value.
- **Accepted skew.** It starts at 120 seconds and can be overwritten with any
  value.

Layout:

- `saml_types.dfy` (module `SamlTypes`) holds the parsed elements, the error
  tags and the collaborators' outcomes. The collaborators are the profile
  validator, the trust engine, the URI comparator, the decrypter and the replay
  handler. Each is an arrow-typed oracle that returns either a result or a
  fault.
- `response_validator.dfy` (module `ResponseValidation`) holds the checks.
  The pure decisions are functions. The class `ResponseValidator` holds the
  mutable `acceptedSkew`, the configured URI comparator and the replay cache.
  The class `PeerEntityContext` holds the `authenticated` flag, which
  `ValidateSignatureIfItExists` sets.
- `validator_properties.dfy` (module `ValidatorProperties`) holds lemmas
  relating several calls or configurations, and concrete examples.

Points worth knowing about the code:

- The replay expiry might be read as `acceptedSkew` milliseconds. The code
  passes `Duration.ofMillis(acceptedSkew * 1000)`, which is `acceptedSkew`
  seconds.
- `setAcceptedSkew` does no range check, so a negative skew is accepted.
  `WindowNonEmpty` and `NonPositiveSkewRejectsEveryInstant` show what such a
  skew does: a skew of zero or less rejects every issue instant.
- The endpoint check is "every endpoint matches" (`allMatch`). Its error
  message says "doesn't match any of the endpoint URLs". With an exact
  comparator, two different registered endpoints can never both be matched
  (`DistinctEndpointsNeverAllMatch`).
- The decrypted object is cast to `NameID` without a check. If the plaintext
  is some other SAML element, the result is a `ClassCastException`, which is
  not one of the SAML exceptions. The model keeps this case as the
  `ClassCast` error.
- The entity-id criterion built for the trust engine
  (`new EntityIdCriterion(idpEntityId)`) refuses a null or blank id with an
  unchecked exception, before the trust engine is asked. The model keeps
  this as the `CriterionRejected` error. So a peer with no entity id is never
  marked authenticated.
- A missing issue instant is dereferenced by the freshness check, which
  throws a `NullPointerException` rather than the issue-instant error. The
  model keeps this as the `NullReference` error of `ValidateIssueInstant`.
- In Java the three signature failures are one exception class with three
  messages. Missing status, non-success status and replay-handler
  initialisation all raise the generic SAML exception. The model gives each
  failure its own tag.

## Model

| member | source | states |
|---|---|---|
| `ResponseValidation.ValidateSuccess` | pac4j-saml/src/main/java/org/pac4j/saml/profile/impl/AbstractSAML2ResponseValidator.java:88-101 | passes iff status and status code are present and the code's value is the Success URI; "missing" iff status or code is null; otherwise the error carries the code value and the message |
| `ResponseValidation.JavaText` | pac4j-saml/src/main/java/org/pac4j/saml/profile/impl/AbstractSAML2ResponseValidator.java:93-99 | a present string is rendered as itself and a null one as `"null"`, as Java string concatenation does |
| `ResponseValidation.StatusReport` | pac4j-saml/src/main/java/org/pac4j/saml/profile/impl/AbstractSAML2ResponseValidator.java:93-99 | the reported status starts with the code's value and, when a message is present, ends with the message's value; with no message it is exactly the code's value |
| `ResponseValidation.ValidateSignature` | pac4j-saml/src/main/java/org/pac4j/saml/profile/impl/AbstractSAML2ResponseValidator.java:129-156 | passes iff the profile check passes, the peer entity id is present and not blank, and the trust engine answers true for that id; a profile fault is a profile error whatever else holds; a null or blank id is the criterion error and the engine is not asked; an engine fault and a false verdict each give their own error |
| `ResponseValidation.ResponseValidator.ValidateSignatureIfItExists` | pac4j-saml/src/main/java/org/pac4j/saml/profile/impl/AbstractSAML2ResponseValidator.java:110-120 | an absent signature passes and leaves the flag alone; a present one gives the signature check's outcome; the flag becomes true exactly when a present signature passes and is otherwise unchanged, so a newly authenticated peer has a non-blank entity id; nothing else changes |
| `ResponseValidation.ValidateIssuer` | pac4j-saml/src/main/java/org/pac4j/saml/profile/impl/AbstractSAML2ResponseValidator.java:176-186 | passes iff the format is unset or the entity format, the peer entity id is known and the issuer value equals it exactly; a wrong format is reported as a format error before any value comparison; every other failure is a mismatch carrying both values |
| `ResponseValidation.ValidateIssuerIfItExists` | pac4j-saml/src/main/java/org/pac4j/saml/profile/impl/AbstractSAML2ResponseValidator.java:164-168 | an absent issuer passes; a present one is judged by the issuer check |
| `ResponseValidation.ResponseValidator.IsDateValid` | pac4j-saml/src/main/java/org/pac4j/saml/profile/impl/AbstractSAML2ResponseValidator.java:216-228 | valid iff the instant is strictly after `now - (acceptedSkew + interval)` and strictly before `now + acceptedSkew` |
| `ResponseValidation.ResponseValidator.IsIssueInstantValid` | pac4j-saml/src/main/java/org/pac4j/saml/profile/impl/AbstractSAML2ResponseValidator.java:205-207 | valid iff the instant is strictly less than `acceptedSkew` away from `now`, on either side |
| `ResponseValidation.ResponseValidator.ValidateIssueInstant` | pac4j-saml/src/main/java/org/pac4j/saml/profile/impl/AbstractSAML2ResponseValidator.java:193-221 | a null instant is the null-reference error; a present one passes iff it is in the open window around `now`, and its only failure is the issue-instant error |
| `ValidatorProperties.FreshnessExamples` | pac4j-saml/src/main/java/org/pac4j/saml/profile/impl/AbstractSAML2ResponseValidator.java:205-223 | with the default skew and `now` at noon, instants 119 s away on either side are fresh, and instants 120 s and 121 s away are not |
| `ValidatorProperties.LargerSkewAcceptsMore` | pac4j-saml/src/main/java/org/pac4j/saml/profile/impl/AbstractSAML2ResponseValidator.java:216-223 | the window is monotone in the skew: a validator with a larger skew accepts every instant a smaller one accepts |
| `ValidatorProperties.IntervalStretchesOnlyThePast` | pac4j-saml/src/main/java/org/pac4j/saml/profile/impl/AbstractSAML2ResponseValidator.java:216-223 | a non-negative interval changes nothing for instants not before `now`, and keeps every instant the plain freshness check accepts |
| `ValidatorProperties.WindowNonEmpty` | pac4j-saml/src/main/java/org/pac4j/saml/profile/impl/AbstractSAML2ResponseValidator.java:216-223 | over whole seconds some instant is accepted iff twice the skew plus the interval is at least 2 |
| `ValidatorProperties.NonPositiveSkewRejectsEveryInstant` | pac4j-saml/src/main/java/org/pac4j/saml/profile/impl/AbstractSAML2ResponseValidator.java:193-223 | after the skew is set to zero or less, every issue instant is rejected with the issue-instant error |
| `ResponseValidation.ResponseValidator.VerifyEndpoint` | pac4j-saml/src/main/java/org/pac4j/saml/profile/impl/AbstractSAML2ResponseValidator.java:237-252 | a null destination passes iff it is not mandatory, and otherwise fails as a null destination; a present destination passes iff the comparator answers true for every endpoint (so an empty list passes); it fails as a comparator fault iff the first comparison that is not true faults, and otherwise as a mismatch |
| `ResponseValidation.CompareEndpoints` | pac4j-saml/src/main/java/org/pac4j/saml/profile/impl/AbstractSAML2ResponseValidator.java:261-267 | yields the comparator's boolean answer, and turns a comparator fault into an endpoint-mismatch error |
| `ResponseValidation.AllEndpointsMatch` | pac4j-saml/src/main/java/org/pac4j/saml/profile/impl/AbstractSAML2ResponseValidator.java:245-246 | true iff every endpoint matches; false iff some endpoint's answer is false and every endpoint before it matched; a fault iff some endpoint's comparison faults and every endpoint before it matched |
| `ValidatorProperties.AllEndpointsMatchAppend` | pac4j-saml/src/main/java/org/pac4j/saml/profile/impl/AbstractSAML2ResponseValidator.java:245-246 | checking `first + second` is checking `first` and, only when all of it matched, then `second`; the evaluation is left to right and short-circuits |
| `ValidatorProperties.NonFaultingComparatorNeverFaults` | pac4j-saml/src/main/java/org/pac4j/saml/profile/impl/AbstractSAML2ResponseValidator.java:261-267 | helper for `DistinctEndpointsNeverAllMatch`, read off the contract of `AllEndpointsMatch`: a comparator that never faults never makes the endpoint check fault |
| `ValidatorProperties.MissWithoutFaultIsNo` | pac4j-saml/src/main/java/org/pac4j/saml/profile/impl/AbstractSAML2ResponseValidator.java:245-251 | helper for `DistinctEndpointsNeverAllMatch`, read off the contract of `AllEndpointsMatch`: when not every endpoint matches and no comparison faults, the check answers false |
| `ValidatorProperties.DistinctEndpointsNeverAllMatch` | pac4j-saml/src/main/java/org/pac4j/saml/profile/impl/AbstractSAML2ResponseValidator.java:245-251 | under exact string comparison, a list with two different endpoints is never matched by any destination |
| `ValidatorProperties.EndpointExamples` | pac4j-saml/src/main/java/org/pac4j/saml/profile/impl/AbstractSAML2ResponseValidator.java:237-252 | for one registered https endpoint: the same URL passes, a URL differing in scheme is a mismatch, and a null destination passes iff it is not mandatory |
| `ResponseValidation.ResponseValidator.VerifyMessageReplay` | pac4j-saml/src/main/java/org/pac4j/saml/profile/impl/AbstractSAML2ResponseValidator.java:274-291 | with no replay cache it passes; otherwise the handler runs with expiry `acceptedSkew * 1000` ms, and the check passes iff the handler does, fails with the generic error iff initialisation faults, and fails with the replay error iff the handler faults |
| `ResponseValidation.ReplayExpiryMillis` | pac4j-saml/src/main/java/org/pac4j/saml/profile/impl/AbstractSAML2ResponseValidator.java:282 | the handler's expiry in milliseconds is a whole number of seconds, namely `acceptedSkew` seconds |
| `ResponseValidation.DecryptEncryptedId` | pac4j-saml/src/main/java/org/pac4j/saml/profile/impl/AbstractSAML2ResponseValidator.java:301-317 | no EncryptedID or no decrypter gives no NameID and no error; a decryption fault gives the NameID-decryption error, and only then; a decrypted NameID is returned, and a NameID is returned only when the decrypter produced it; a non-NameID plaintext gives the cast error |
| `ValidatorProperties.DecryptionExamples` | pac4j-saml/src/main/java/org/pac4j/saml/profile/impl/AbstractSAML2ResponseValidator.java:301-317 | an EncryptedID with no decrypter gives no NameID; with a failing decrypter it gives the NameID-decryption error; with a decrypter producing a NameID it gives that NameID |
| `ResponseValidation.ComputeSloKey` | pac4j-saml/src/main/java/org/pac4j/saml/profile/impl/AbstractSAML2ResponseValidator.java:326-336 | a present session index is the key; a key exists iff there is a session index or a name identifier with a value; without a session index the key is the name identifier's value |
| `ValidatorProperties.SloKeyExamples` | pac4j-saml/src/main/java/org/pac4j/saml/profile/impl/AbstractSAML2ResponseValidator.java:326-336 | `"abc"` with no name id gives `"abc"`; the session index beats `"bob"`; no session index with name id `"bob"` gives `"bob"`; neither gives no key |
| `ResponseValidation.ResponseValidator.constructor` | pac4j-saml/src/main/java/org/pac4j/saml/profile/impl/AbstractSAML2ResponseValidator.java:62-81 | the comparator and replay cache are the ones given, and the accepted skew starts at 120 seconds |
| `ResponseValidation.ResponseValidator.SetAcceptedSkew` | pac4j-saml/src/main/java/org/pac4j/saml/profile/impl/AbstractSAML2ResponseValidator.java:340-342 | the skew becomes exactly the given value, with no range check, and nothing else changes |

## Left out

- Logging (the debug and warning messages) is not modelled.
- The system clock is not modelled. `now` is an integer parameter. Instants, skew and interval are whole seconds, so sub-second precision is not captured.
- Java `long` overflow is not modelled: not in `acceptedSkew * 1000`, and not in `now ± skew`. All arithmetic is on mathematical integers.
- `IsDateValid` and `IsIssueInstantValid` take a present instant; the null instant is modelled at `ValidateIssueInstant`, which is the member that receives it from callers.
- The rule that the entity-id criterion refuses a null or blank id belongs to the SAML library, whose code is not part of this model. The model states it as the library documents it: blank means empty after trimming characters up to the space character.
- XML signature verification, the SAML signature profile validator and the trust engine are abstract oracles. The criteria set holds signing usage, the IdP role, the SAML 2.0 protocol and the entity id. Its fixed parts are folded into the trust-engine oracle, and only the entity id is passed.
- URI normalisation inside the URI comparator is not modelled. The comparator is an oracle.
- The internals of `MessageReplaySecurityHandler` and of the replay cache are not modelled. This includes the cache's own promise to reject a message id seen again before its entry expires. Building, configuring and initialising the handler is one oracle call that receives the expiry and the message.
- AES/RSA decryption is not modelled. The decrypter is an oracle. The model has no case where the decrypter returns null instead of an object or a fault.
- Exception messages are not modelled, except the status text and the issuer values carried in the error. The other errors are tags. Cause chains are not modelled.
- The constructor's other collaborators are not modelled: the trust engine provider, the decrypter field and the logout handler. The validator's own methods never use them. Only subclasses do.
- Concurrent mutation of `acceptedSkew` is not modelled.
