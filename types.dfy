/** Entities shared by the resolver, the instance lookup and the signing lifecycle. */
module SignatureTypes {
  import opened Wrappers

  /** Algorithm family of a stored key (`KeyData.getAlgorithm()`). Families the
      resolver has no branch for are gathered under `Other`. */
  datatype Family = RSA | ECDSA | FALCON | DILITHIUM | SPHINCSPLUS | Other(tag: string)

  /** The parts of a stored key record the core reads. `length` is carried but
      never consulted. */
  datatype KeyData = KeyData(name: string, algorithm: Family, length: int)

  /** The three attribute constants the resolver looks up in the caller's list:
      the RSA signature scheme, the RSA digest and the ECDSA digest. */
  datatype Attribute = RsaSigScheme | RsaSigDigest | EcdsaSigDigest

  /** What looking an attribute up yields: the `reference` of its single string
      content. An attribute that is absent, or whose reference is null, has no
      entry. */
  type Declared = map<Attribute, string>

  /** The two enums the attributes name, given by their constants' names:
      `digests` maps each `DigestAlgorithm` constant to its provider name
      (`getProviderName()`), `schemes` holds the `RsaSignatureScheme` constants. */
  datatype Catalog = Catalog(digests: map<string, string>, schemes: set<string>)

  /** Name of the `RsaSignatureScheme.PSS` constant. */
  const PSS: string := "PSS"

  /** `BouncyCastleProvider.PROVIDER_NAME` and `BouncyCastlePQCProvider.PROVIDER_NAME`. */
  const CLASSICAL_PROVIDER: string := "BC"
  const PQC_PROVIDER: string := "BCPQC"

  /** A JCA signature algorithm name together with the provider asked for it. */
  datatype AlgorithmId = AlgorithmId(name: string, provider: string)

  newtype Byte = b: int | 0 <= b < 256

  /** Causes of the `SignatureException` raised by a JCA `Signature` object. */
  datatype SignatureFault =
    | NotInitialised                  // update before any successful init
    | NotInitialisedForSigning        // sign() while not in signing mode
    | NotInitialisedForVerification   // verify() while not in verification mode
    | EngineFault                     // the provider's engine failed to finish

  /** Everything the core can fail with. */
  datatype Error =
    | MissingAttribute(attribute: Attribute)              // null content or reference
    | UnknownValue(attribute: Attribute, value: string)   // `valueOf` rejects the reference
    | NotSupported                                        // NotSupportedException
    | InvalidAlgorithm                                    // IllegalStateException, NoSuchAlgorithmException
    | InvalidProvider                                     // IllegalStateException, NoSuchProviderException
    | InvalidKey(keyName: string)                         // IllegalStateException, InvalidKeyException
    | SignatureException(fault: SignatureFault)           // propagated unchanged

  /** The diagnostic text the source attaches to the exceptions it throws
      itself. The other errors carry no message of the source's own; their
      messages come from the Java runtime or the provider. */
  function Message(e: Error): (m: Option<string>)
    ensures m.Some? <==> e.NotSupported? || e.InvalidAlgorithm? || e.InvalidProvider? || e.InvalidKey?
  {
    match e
    case NotSupported => Some("Cryptographic algorithm not supported")
    case InvalidAlgorithm => Some("Invalid algorithm for signature")
    case InvalidProvider => Some("Invalid provider for signature")
    case InvalidKey(name) => Some("Invalid key '" + name + "'")
    case _ => None
  }

  /** The two lookup failures are told apart by their messages alone, since
      both are thrown as `IllegalStateException`. */
  lemma LookupMessagesDistinct()
    ensures Message(InvalidAlgorithm) != Message(InvalidProvider)
  {
    assert Message(InvalidAlgorithm).value[8] == 'a';
  }

  /** The invalid-key message carries the key's name, quoted, and so tells
      different keys apart. */
  lemma InvalidKeyMessageNamesKey(name: string, other: string)
    ensures var m := Message(InvalidKey(name)).value;
      |m| == |name| + 14 && m[13..|m| - 1] == name
    ensures Message(InvalidKey(name)) == Message(InvalidKey(other)) ==> name == other
  {
    var m := Message(InvalidKey(name)).value;
    assert m == "Invalid key '" + name + "'";
    assert m[13..|m| - 1] == name;
    var m' := Message(InvalidKey(other)).value;
    if m == m' {
      assert m'[13..|m'| - 1] == other;
    }
  }
}
