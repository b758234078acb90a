/** The algorithm-name resolution of `SignatureUtil.prepareSignature`: from a
    key's family and the caller's declared attributes to the JCA algorithm name
    and the provider to ask for it. */
module SignatureResolver {
  import opened Wrappers
  import opened SignatureTypes

  const RSA_SUFFIX: string := "WITHRSA"
  const MGF1_SUFFIX: string := "ANDMGF1"
  const ECDSA_SUFFIX: string := "WITHECDSA"

  /** `Enum.valueOf` applied to the reference of a declared attribute: fails
      when the attribute is absent or names no constant. */
  function ValueOf(declared: Declared, attribute: Attribute, constants: set<string>): (r: Result<string, Error>)
    ensures r.Success? <==> attribute in declared && declared[attribute] in constants
    ensures r.Success? ==> r.value == declared[attribute]
    ensures r.Failure? ==>
      r.error == if attribute in declared then UnknownValue(attribute, declared[attribute])
                 else MissingAttribute(attribute)
  {
    if attribute !in declared then Failure(MissingAttribute(attribute))
    else if declared[attribute] !in constants then Failure(UnknownValue(attribute, declared[attribute]))
    else Success(declared[attribute])
  }

  /** The resolver proper: one arm per family. RSA reads the scheme, then the
      digest; ECDSA reads its digest; the post-quantum families read nothing. */
  function ResolveAlgorithm(family: Family, declared: Declared, catalog: Catalog): (r: Result<AlgorithmId, Error>)
    ensures r.Success? <==> Resolvable(family, declared, catalog)
    ensures r.Success? ==> r.value.provider == ProviderFor(family)
    ensures r.Success? ==> Classify(r.value) == Some(Intended(family, declared, catalog))
  {
    match family
    case RSA =>
      assert RsaSigScheme in Needs(family) && RsaSigDigest in Needs(family);
      var scheme :- ValueOf(declared, RsaSigScheme, catalog.schemes);
      var digest :- ValueOf(declared, RsaSigDigest, catalog.digests.Keys);
      var name := catalog.digests[digest] + RSA_SUFFIX;
      var r := Success(AlgorithmId(if scheme == PSS then name + MGF1_SUFFIX else name, CLASSICAL_PROVIDER));
      assert Classify(r.value) == Some(Intended(family, declared, catalog)) by {
        ClassifyRsa(catalog.digests[digest], scheme == PSS);
      }
      r
    case ECDSA =>
      assert EcdsaSigDigest in Needs(family);
      var digest :- ValueOf(declared, EcdsaSigDigest, catalog.digests.Keys);
      var r := Success(AlgorithmId(catalog.digests[digest] + ECDSA_SUFFIX, CLASSICAL_PROVIDER));
      assert Classify(r.value) == Some(Intended(family, declared, catalog)) by {
        ClassifyEcdsa(catalog.digests[digest]);
      }
      r
    case FALCON => Success(AlgorithmId("FALCON", PQC_PROVIDER))
    case DILITHIUM => Success(AlgorithmId("DILITHIUM", PQC_PROVIDER))
    case SPHINCSPLUS => Success(AlgorithmId("SPHINCSPlus", PQC_PROVIDER))
    case Other(_) => Failure(NotSupported)
  }

  // ---------------------------------------------------------------------------
  // Reference definitions the resolver is checked against

  /** The families the resolver has an arm for. */
  predicate Supported(family: Family) {
    !family.Other?
  }

  /** The attributes each family's arm reads. */
  function Needs(family: Family): set<Attribute> {
    match family
    case RSA => {RsaSigScheme, RsaSigDigest}
    case ECDSA => {EcdsaSigDigest}
    case _ => {}
  }

  /** The enum whose constants an attribute must name. */
  function Constants(attribute: Attribute, catalog: Catalog): set<string> {
    if attribute == RsaSigScheme then catalog.schemes else catalog.digests.Keys
  }

  predicate Recognised(declared: Declared, attribute: Attribute, catalog: Catalog) {
    attribute in declared && declared[attribute] in Constants(attribute, catalog)
  }

  /** Resolution succeeds exactly for a supported family whose needed
      attributes are all present and recognised. */
  predicate Resolvable(family: Family, declared: Declared, catalog: Catalog) {
    Supported(family) && forall a | a in Needs(family) :: Recognised(declared, a, catalog)
  }

  /** Classical families go to BouncyCastle, post-quantum ones to BouncyCastle PQC. */
  function ProviderFor(family: Family): string {
    if family == RSA || family == ECDSA then CLASSICAL_PROVIDER else PQC_PROVIDER
  }

  /** The primitive a caller's choice denotes, independent of how it is spelt. */
  datatype Choice =
    | RsaChoice(digestName: string, pss: bool)
    | EcdsaChoice(digestName: string)
    | PostQuantumChoice(family: Family)

  function Intended(family: Family, declared: Declared, catalog: Catalog): Choice
    requires Resolvable(family, declared, catalog)
  {
    match family
    case RSA =>
      assert RsaSigDigest in Needs(family) && RsaSigScheme in Needs(family);
      RsaChoice(catalog.digests[declared[RsaSigDigest]], declared[RsaSigScheme] == PSS)
    case ECDSA =>
      assert EcdsaSigDigest in Needs(family);
      EcdsaChoice(catalog.digests[declared[EcdsaSigDigest]])
    case _ => PostQuantumChoice(family)
  }

  predicate HasSuffix(s: string, suffix: string) {
    |suffix| <= |s| && s[|s| - |suffix|..] == suffix
  }

  /** Reads a resolved identifier back into the choice it names. */
  function Classify(id: AlgorithmId): Option<Choice> {
    if id.provider == CLASSICAL_PROVIDER then
      if HasSuffix(id.name, RSA_SUFFIX + MGF1_SUFFIX) then
        Some(RsaChoice(id.name[..|id.name| - |RSA_SUFFIX + MGF1_SUFFIX|], true))
      else if HasSuffix(id.name, RSA_SUFFIX) then
        Some(RsaChoice(id.name[..|id.name| - |RSA_SUFFIX|], false))
      else if HasSuffix(id.name, ECDSA_SUFFIX) then
        Some(EcdsaChoice(id.name[..|id.name| - |ECDSA_SUFFIX|]))
      else None
    else if id.provider == PQC_PROVIDER then
      if id.name == "FALCON" then Some(PostQuantumChoice(FALCON))
      else if id.name == "DILITHIUM" then Some(PostQuantumChoice(DILITHIUM))
      else if id.name == "SPHINCSPlus" then Some(PostQuantumChoice(SPHINCSPLUS))
      else None
    else None
  }

  lemma ClassifyRsa(digestName: string, pss: bool)
    ensures var name := digestName + RSA_SUFFIX;
      Classify(AlgorithmId(if pss then name + MGF1_SUFFIX else name, CLASSICAL_PROVIDER))
        == Some(RsaChoice(digestName, pss))
  {
    var name := digestName + RSA_SUFFIX;
    if pss {
      var s := name + MGF1_SUFFIX;
      assert s == digestName + (RSA_SUFFIX + MGF1_SUFFIX);
      assert s[|s| - 14..] == RSA_SUFFIX + MGF1_SUFFIX;
      assert s[..|s| - 14] == digestName;
    } else {
      assert name[|name| - 1] == 'A';
      assert !HasSuffix(name, RSA_SUFFIX + MGF1_SUFFIX);
      assert name[|name| - 7..] == RSA_SUFFIX;
      assert name[..|name| - 7] == digestName;
    }
  }

  lemma ClassifyEcdsa(digestName: string)
    ensures Classify(AlgorithmId(digestName + ECDSA_SUFFIX, CLASSICAL_PROVIDER)) == Some(EcdsaChoice(digestName))
  {
    var name := digestName + ECDSA_SUFFIX;
    assert name[|name| - 1] == 'A' && name[|name| - 7] == 'T';
    assert !HasSuffix(name, RSA_SUFFIX + MGF1_SUFFIX);
    assert !HasSuffix(name, RSA_SUFFIX);
    assert name[|name| - 9..] == ECDSA_SUFFIX;
    assert name[..|name| - 9] == digestName;
  }

  // ---------------------------------------------------------------------------
  // Properties of the resolver

  /** RSA with any recognised scheme other than PSS (PKCS#1 v1.5): the digest's
      provider name followed by `WITHRSA`, from the classical provider. */
  lemma RsaPkcs1Name(declared: Declared, catalog: Catalog, scheme: string, digest: string)
    requires RsaSigScheme in declared && declared[RsaSigScheme] == scheme && scheme in catalog.schemes && scheme != PSS
    requires RsaSigDigest in declared && declared[RsaSigDigest] == digest && digest in catalog.digests
    ensures ResolveAlgorithm(RSA, declared, catalog)
      == Success(AlgorithmId(catalog.digests[digest] + "WITHRSA", CLASSICAL_PROVIDER))
  {
  }

  /** RSA with the PSS scheme: the PKCS#1 name with `ANDMGF1` appended. */
  lemma RsaPssName(declared: Declared, catalog: Catalog, digest: string)
    requires RsaSigScheme in declared && declared[RsaSigScheme] == PSS && PSS in catalog.schemes
    requires RsaSigDigest in declared && declared[RsaSigDigest] == digest && digest in catalog.digests
    ensures ResolveAlgorithm(RSA, declared, catalog)
      == Success(AlgorithmId(catalog.digests[digest] + "WITHRSA" + "ANDMGF1", CLASSICAL_PROVIDER))
  {
  }

  /** Switching a request from another scheme to PSS, with the same digest,
      appends exactly `ANDMGF1` and changes nothing else. */
  lemma PssExtendsOtherScheme(declared: Declared, catalog: Catalog, scheme: string)
    requires RsaSigScheme in declared && declared[RsaSigScheme] == PSS && PSS in catalog.schemes
    requires scheme in catalog.schemes && scheme != PSS
    requires ResolveAlgorithm(RSA, declared, catalog).Success?
    ensures var other := ResolveAlgorithm(RSA, declared[RsaSigScheme := scheme], catalog);
      && other.Success?
      && ResolveAlgorithm(RSA, declared, catalog).value
         == other.value.(name := other.value.name + "ANDMGF1")
  {
  }

  /** ECDSA: the digest's provider name followed by `WITHECDSA`, from the
      classical provider. */
  lemma EcdsaName(declared: Declared, catalog: Catalog, digest: string)
    requires EcdsaSigDigest in declared && declared[EcdsaSigDigest] == digest && digest in catalog.digests
    ensures ResolveAlgorithm(ECDSA, declared, catalog)
      == Success(AlgorithmId(catalog.digests[digest] + "WITHECDSA", CLASSICAL_PROVIDER))
  {
  }

  /** The post-quantum families resolve to fixed names at the PQC provider,
      whatever was declared. */
  lemma PostQuantumFixedNames(declared: Declared, catalog: Catalog)
    ensures ResolveAlgorithm(FALCON, declared, catalog) == Success(AlgorithmId("FALCON", PQC_PROVIDER))
    ensures ResolveAlgorithm(DILITHIUM, declared, catalog) == Success(AlgorithmId("DILITHIUM", PQC_PROVIDER))
    ensures ResolveAlgorithm(SPHINCSPLUS, declared, catalog) == Success(AlgorithmId("SPHINCSPlus", PQC_PROVIDER))
  {
  }

  /** A family without an arm fails with NotSupported and yields no name. */
  lemma OtherNotSupported(tag: string, declared: Declared, catalog: Catalog)
    ensures ResolveAlgorithm(Other(tag), declared, catalog) == Failure(NotSupported)
  {
  }

  /** Only the attributes a family needs are consulted: requests that agree on
      them resolve alike. So ECDSA never reads the RSA scheme, and the
      post-quantum families read nothing at all. */
  lemma ResolveReadsOnlyNeeded(family: Family, declared: Declared, declared': Declared, catalog: Catalog)
    requires forall a | a in Needs(family) :: (a in declared <==> a in declared')
    requires forall a | a in Needs(family) && a in declared :: declared[a] == declared'[a]
    ensures ResolveAlgorithm(family, declared, catalog) == ResolveAlgorithm(family, declared', catalog)
  {
    match family
    case RSA =>
      assert RsaSigScheme in Needs(family) && RsaSigDigest in Needs(family);
    case ECDSA =>
      assert EcdsaSigDigest in Needs(family);
    case _ =>
  }

  /** RSA reads the scheme first and then the digest: a missing or unknown
      scheme is reported whatever the digest, and only then the digest. */
  lemma RsaAttributeErrors(declared: Declared, catalog: Catalog)
    ensures RsaSigScheme !in declared
      ==> ResolveAlgorithm(RSA, declared, catalog) == Failure(MissingAttribute(RsaSigScheme))
    ensures RsaSigScheme in declared && declared[RsaSigScheme] !in catalog.schemes
      ==> ResolveAlgorithm(RSA, declared, catalog) == Failure(UnknownValue(RsaSigScheme, declared[RsaSigScheme]))
    ensures Recognised(declared, RsaSigScheme, catalog) && RsaSigDigest !in declared
      ==> ResolveAlgorithm(RSA, declared, catalog) == Failure(MissingAttribute(RsaSigDigest))
    ensures Recognised(declared, RsaSigScheme, catalog) && RsaSigDigest in declared
        && declared[RsaSigDigest] !in catalog.digests
      ==> ResolveAlgorithm(RSA, declared, catalog) == Failure(UnknownValue(RsaSigDigest, declared[RsaSigDigest]))
  {
  }

  /** ECDSA fails on a missing or unknown digest, naming the attribute. */
  lemma EcdsaAttributeErrors(declared: Declared, catalog: Catalog)
    ensures EcdsaSigDigest !in declared
      ==> ResolveAlgorithm(ECDSA, declared, catalog) == Failure(MissingAttribute(EcdsaSigDigest))
    ensures EcdsaSigDigest in declared && declared[EcdsaSigDigest] !in catalog.digests
      ==> ResolveAlgorithm(ECDSA, declared, catalog) == Failure(UnknownValue(EcdsaSigDigest, declared[EcdsaSigDigest]))
  {
  }

  /** Different choices never share an identifier: a resolved identifier
      fixes the family, the digest's provider name and the RSA padding. */
  lemma ResolveInjective(f: Family, d: Declared, f': Family, d': Declared, catalog: Catalog)
    requires ResolveAlgorithm(f, d, catalog).Success? && ResolveAlgorithm(f', d', catalog).Success?
    requires ResolveAlgorithm(f, d, catalog).value == ResolveAlgorithm(f', d', catalog).value
    ensures f == f'
    ensures Intended(f, d, catalog) == Intended(f', d', catalog)
  {
    var id := ResolveAlgorithm(f, d, catalog).value;
    assert Classify(id) == Some(Intended(f, d, catalog)) == Some(Intended(f', d', catalog));
  }
}
