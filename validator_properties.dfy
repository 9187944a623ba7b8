/**
 * Properties of the response validator that relate several calls, several
 * configurations, or the checks to concrete inputs.
 */
module ValidatorProperties {
  import opened SamlTypes
  import opened ResponseValidation

  // ---------------------------------------------------------------------
  // Destination / endpoints
  // ---------------------------------------------------------------------

  /**
   * Checking a list of endpoints split in two is checking the first part
   * and, only if every endpoint there matched, then the second part: the
   * check is strictly left to right and stops at the first miss or fault.
   */
  lemma {:induction false} AllEndpointsMatchAppend(compare: UriComparator, destination: string,
                                                   first: seq<string>, second: seq<string>)
    ensures AllEndpointsMatch(compare, destination, first + second) ==
      if AllEndpointsMatch(compare, destination, first) == Ok(true)
      then AllEndpointsMatch(compare, destination, second)
      else AllEndpointsMatch(compare, destination, first)
    decreases |first|
  {
    if first == [] {
      assert first + second == second;
    } else {
      var both := first + second;
      assert both[0] == first[0];
      assert both[1..] == first[1..] + second;
      AllEndpointsMatchAppend(compare, destination, first[1..], second);
    }
  }

  /** A comparator that never faults never makes the endpoint check fault. */
  lemma NonFaultingComparatorNeverFaults(compare: UriComparator, destination: string, endpoints: seq<string>)
    requires forall a, b :: compare(a, b).Compared?
    ensures AllEndpointsMatch(compare, destination, endpoints).Ok?
  {
  }

  /** When some endpoint does not match and nothing faults, the answer is "no". */
  lemma MissWithoutFaultIsNo(compare: UriComparator, destination: string, endpoints: seq<string>)
    requires !MatchesFirst(compare, destination, endpoints, |endpoints|)
    requires AllEndpointsMatch(compare, destination, endpoints).Ok?
    ensures AllEndpointsMatch(compare, destination, endpoints) == Ok(false)
  {
  }

  /**
   * Because every endpoint must match, a list holding two different URLs
   * can never be satisfied by one destination when the comparator is exact
   * string comparison.
   */
  lemma DistinctEndpointsNeverAllMatch(compare: UriComparator, destination: string,
                                       endpoints: seq<string>, i: nat, j: nat)
    requires forall a, b :: compare(a, b).Compared? && (compare(a, b).equal <==> a == b)
    requires i < |endpoints| && j < |endpoints| && endpoints[i] != endpoints[j]
    ensures AllEndpointsMatch(compare, destination, endpoints) == Ok(false)
  {
    assert !MatchesFirst(compare, destination, endpoints, |endpoints|);
    NonFaultingComparatorNeverFaults(compare, destination, endpoints);
    MissWithoutFaultIsNo(compare, destination, endpoints);
  }

  /**
   * One registered endpoint: the exact same URL passes, a URL differing only
   * in its scheme is an endpoint mismatch, and a missing destination passes
   * only when a destination is not mandatory.
   */
  lemma EndpointExamples(v: ResponseValidator)
    requires forall a, b :: v.uriComparator(a, b).Compared? && (v.uriComparator(a, b).equal <==> a == b)
    ensures v.VerifyEndpoint(["https://sp.example/acs"], Some("https://sp.example/acs"), true) == Pass
    ensures v.VerifyEndpoint(["https://sp.example/acs"], Some("http://sp.example/acs"), false)
            == Fail(EndpointMismatch(NotMatched))
    ensures v.VerifyEndpoint(["https://sp.example/acs"], None, false) == Pass
    ensures v.VerifyEndpoint(["https://sp.example/acs"], None, true) == Fail(EndpointMismatch(NullDestination))
  {
    var acs: seq<string> := ["https://sp.example/acs"];
    assert v.uriComparator("http://sp.example/acs", acs[0]) == Compared(false);
  }

  // ---------------------------------------------------------------------
  // Freshness
  // ---------------------------------------------------------------------

  /**
   * With the default skew of 120 seconds and `now` at 12:00:00, an instant
   * 119 seconds away on either side is fresh, one 121 seconds away is not,
   * and the bounds themselves, 120 seconds away, are excluded.
   */
  lemma FreshnessExamples(v: ResponseValidator)
    requires v.acceptedSkew == DefaultAcceptedSkew
    ensures var noon := 12 * 3600;
      v.IsIssueInstantValid(noon, noon - 119) && !v.IsIssueInstantValid(noon, noon - 121) &&
      v.IsIssueInstantValid(noon, noon + 119) && !v.IsIssueInstantValid(noon, noon + 121) &&
      !v.IsIssueInstantValid(noon, noon - 120) && !v.IsIssueInstantValid(noon, noon + 120)
  {
  }

  /** A larger skew accepts every instant a smaller one accepts. */
  lemma LargerSkewAcceptsMore(v: ResponseValidator, w: ResponseValidator, now: int, instant: int, interval: int)
    requires v.acceptedSkew <= w.acceptedSkew
    ensures v.IsDateValid(now, instant, interval) ==> w.IsDateValid(now, instant, interval)
  {
  }

  /**
   * The extra interval only stretches the window into the past: for an
   * instant not before `now` it changes nothing, and it keeps every instant
   * the plain freshness check accepts.
   */
  lemma IntervalStretchesOnlyThePast(v: ResponseValidator, now: int, instant: int, interval: int)
    requires interval >= 0
    ensures instant >= now ==> (v.IsDateValid(now, instant, interval) <==> v.IsIssueInstantValid(now, instant))
    ensures v.IsIssueInstantValid(now, instant) ==> v.IsDateValid(now, instant, interval)
  {
  }

  /**
   * Over whole seconds, the window accepts some instant exactly when twice
   * the skew plus the interval is at least two seconds; in particular a
   * skew of zero or less, which the setter does not refuse, rejects every
   * issue instant.
   */
  lemma WindowNonEmpty(v: ResponseValidator, now: int, interval: int)
    ensures (exists instant :: v.IsDateValid(now, instant, interval)) <==> 2 * v.acceptedSkew + interval >= 2
  {
    if 2 * v.acceptedSkew + interval >= 2 {
      var earliest := now - (v.acceptedSkew + interval) + 1;
      assert v.IsDateValid(now, earliest, interval);
    }
  }

  /** With a skew of zero or less no issue instant is fresh. */
  lemma NonPositiveSkewRejectsEveryInstant(v: ResponseValidator, now: int, instant: int)
    requires v.acceptedSkew <= 0
    ensures v.ValidateIssueInstant(now, Some(instant)) == Fail(IssueInstant)
  {
    WindowNonEmpty(v, now, 0);
  }

  // ---------------------------------------------------------------------
  // Decryption and single-logout key
  // ---------------------------------------------------------------------

  /**
   * An EncryptedID with no decrypter yields no NameID and no error; with a
   * decrypter that faults it yields a NameID-decryption error; with one that
   * produces a NameID it yields that NameID.
   */
  lemma DecryptionExamples(encryptedId: EncryptedId, failing: Decrypter, working: Decrypter, nameId: NameId)
    requires failing.decrypt(encryptedId) == DecryptionFault
    requires working.decrypt(encryptedId) == Decrypted(NameIdObject(nameId))
    ensures DecryptEncryptedId(Some(encryptedId), None) == Ok(None)
    ensures DecryptEncryptedId(Some(encryptedId), Some(failing)) == Err(NameIdDecryption)
    ensures DecryptEncryptedId(Some(encryptedId), Some(working)) == Ok(Some(nameId))
  {
  }

  /** The session index wins; the name identifier's value is the fallback. */
  lemma SloKeyExamples()
    ensures ComputeSloKey(Some("abc"), None) == Some("abc")
    ensures ComputeSloKey(Some("abc"), Some(CredentialsNameId(None, Some("bob")))) == Some("abc")
    ensures ComputeSloKey(None, Some(CredentialsNameId(None, Some("bob")))) == Some("bob")
    ensures ComputeSloKey(None, None) == None
  {
  }
}
