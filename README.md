# Signature algorithm resolution and the sign/verify lifecycle

This project models `SignatureUtil` of the CZERTAINLY software cryptography
provider in Dafny. The class does two things:

- **Resolution** (`prepareSignature`). It takes a stored key's algorithm family
  (RSA, ECDSA, FALCON, DILITHIUM, SPHINCSPLUS) and the caller's signature
  attributes. From them it builds a JCA signature-algorithm name and chooses a
  provider: BouncyCastle (`BC`) for RSA and ECDSA, or BouncyCastle PQC
  (`BCPQC`) for the post-quantum families.
  - RSA reads the scheme attribute first, then the digest attribute. It builds
    `<digest provider name>WITHRSA` and appends `ANDMGF1` for PSS.
  - ECDSA reads its digest attribute and builds `<digest provider name>WITHECDSA`.
  - FALCON, DILITHIUM and SPHINCSPLUS use the fixed names `FALCON`, `DILITHIUM`
    and `SPHINCSPlus`.
  - Any other family fails with NotSupported.
- **Acquisition and lifecycle**. `getInstanceSignature` asks the Java security
  framework for that algorithm at that provider. It turns "no such provider"
  and "no such algorithm" into two distinct fatal errors. The wrappers
  `initSigning` and `initVerification` bind key material to the JCA
  `Signature` object, and `signData` and `verifyData` drive it: first one
  `update` with the whole payload, then `sign` or `verify`.

Modules:

- `Wrappers`: the `Option`, `Result` and `Outcome` types.
- `SignatureTypes`: the entities (family, key record, attributes, enum catalog,
  algorithm identifier, errors) and the diagnostic messages.
- `SignatureResolver`: `ResolveAlgorithm` and the properties proved about it.
  - `Resolvable` is an independent definition of when resolution succeeds: the
    family is supported and each attribute it `Needs` is present and
    recognised.
  - `Classify` is the inverse. It reads an identifier back into the choice it
    names. From it, `ResolveInjective` proves that different choices never
    share a name.
- `SignatureInstance`: `GetInstanceSignature` over an abstract provider
  registry, and `PrepareSignature`, which resolves and then acquires.
- `SignatureLifecycle`:
  - A pure state machine `Step` for the JCA `Signature` object, and lemmas about
    every sequence of calls on it (`Run`).
  - A `Signature` class whose methods are specified by `Step`.
  - The four `SignatureUtil` wrappers as module-level methods that take a
    `Signature` object, like the static Java methods.
  - Two client methods that chain prepare, init and sign/verify.

Inputs the source gets from code outside this model become parameters:
- the attribute lookup (a map from the three attribute constants to the
  reference strings);
- the `DigestAlgorithm` and `RsaSignatureScheme` enums (a `Catalog` of constant
  names, with each digest's provider name);
- the provider registry;
- the key material from the keystore;
- the provider's engine for each algorithm (`Primitive`: whether it accepts a
  key, and the outcome of finishing a signature or a verification). Signing
  also takes the random bytes the engine draws for that call: the ECDSA nonce,
  or the PSS or Falcon salt. These come from the engine's `SecureRandom`. The
  model makes them an input to `sign`, `signData` and the signing client, so it
  does not claim that two signatures of the same data are equal. The client
  methods take one engine per identifier and use the one for the resolved
  identifier.

The model follows the code's own behaviour, including these points:
- The errors are the ones the code raises.
  - A missing attribute or null reference becomes `MissingAttribute`. In Java it
    is a `NullPointerException`.
  - An unrecognised value becomes `UnknownValue`, from `valueOf`.
  - The attribute carried by `MissingAttribute` and `UnknownValue` is the
    model's addition. Java's exceptions do not name it, so a failing RSA digest
    and a failing ECDSA digest cannot be told apart at run time.
  - Unsupported families raise `NotSupportedException`.
  - The lookup and key failures are `IllegalStateException`, told apart by
    message.
  - Signing and verification faults are the same `SignatureException`,
    propagated unchanged.
- Any recognised RSA scheme other than `PSS` gets no suffix. PKCS#1 is one
  such scheme, since the code tests only for `PSS`.
- The JCA object is not one-way. A finished `sign` or `verify` puts it back in
  its initialised mode with nothing pending, so a second finish is accepted.
- `signData` on an object initialised for verification appends the payload
  before `sign` fails, so the payload stays fed. `verifyData` on an object
  initialised for signing does the same.
- `signData` and `verifyData` are modelled with their error path, not with a
  precondition, because the source declares `throws SignatureException`. That
  calling them in the wrong mode never succeeds is stated in their
  postconditions and, for whole call sequences, in `SignedOnlyAfterInitSign`
  and `VerdictOnlyAfterInitVerify`.

## Model

| member | source | states |
|---|---|---|
| `SignatureTypes.Message` | src/main/java/com/czertainly/cp/soft/util/SignatureUtil.java:70-96 | exactly the four errors the source throws itself carry a message of its own; the other errors carry no message of the source's own, since theirs come from the Java runtime or the provider |
| `SignatureTypes.LookupMessagesDistinct` | src/main/java/com/czertainly/cp/soft/util/SignatureUtil.java:77-80 | the invalid-algorithm and invalid-provider errors, both IllegalStateExceptions, differ in their messages |
| `SignatureTypes.InvalidKeyMessageNamesKey` | src/main/java/com/czertainly/cp/soft/util/SignatureUtil.java:87-88 | the invalid-key message contains the key's name between the quotes, so different keys give different messages |
| `SignatureResolver.ResolveAlgorithm` | src/main/java/com/czertainly/cp/soft/util/SignatureUtil.java:20-71 | succeeds exactly when the family is supported and every attribute it needs is present and names an enum constant; the provider is BC for RSA and ECDSA and BCPQC otherwise; the resolved name reads back to the intended digest, padding and family |
| `SignatureResolver.ValueOf` | src/main/java/com/czertainly/cp/soft/util/SignatureUtil.java:25-34 | models `valueOf` applied to an attribute's reference, used for the RSA scheme and digest at 25-34 and the ECDSA digest at 44-48: it succeeds exactly when the attribute is present and its reference names a constant, and then returns that reference; otherwise it fails with UnknownValue for a present but unrecognised reference (`valueOf`'s IllegalArgumentException), or with MissingAttribute for an absent one (the NullPointerException) |
| `SignatureResolver.RsaPkcs1Name` | src/main/java/com/czertainly/cp/soft/util/SignatureUtil.java:36-41 | RSA with a recognised scheme other than PSS resolves to the digest's provider name + `WITHRSA` at BC |
| `SignatureResolver.RsaPssName` | src/main/java/com/czertainly/cp/soft/util/SignatureUtil.java:36-41 | RSA with PSS resolves to the digest's provider name + `WITHRSA` + `ANDMGF1` at BC |
| `SignatureResolver.PssExtendsOtherScheme` | src/main/java/com/czertainly/cp/soft/util/SignatureUtil.java:36-39 | with the same digest, the PSS identifier is the other scheme's identifier with exactly `ANDMGF1` appended to the name |
| `SignatureResolver.EcdsaName` | src/main/java/com/czertainly/cp/soft/util/SignatureUtil.java:43-52 | ECDSA resolves to the digest's provider name + `WITHECDSA` at BC |
| `SignatureResolver.PostQuantumFixedNames` | src/main/java/com/czertainly/cp/soft/util/SignatureUtil.java:54-69 | FALCON, DILITHIUM and SPHINCSPLUS resolve to `FALCON`, `DILITHIUM` and `SPHINCSPlus` at BCPQC for any attributes |
| `SignatureResolver.OtherNotSupported` | src/main/java/com/czertainly/cp/soft/util/SignatureUtil.java:70 | any other family fails with NotSupported, whatever the attributes |
| `SignatureResolver.ResolveReadsOnlyNeeded` | src/main/java/com/czertainly/cp/soft/util/SignatureUtil.java:23-70 | two requests that agree on the attributes the family needs resolve alike: ECDSA never consults the RSA scheme or digest, and the post-quantum families consult nothing |
| `SignatureResolver.RsaAttributeErrors` | src/main/java/com/czertainly/cp/soft/util/SignatureUtil.java:25-34 | for RSA a missing or unknown scheme fails naming the scheme whatever the digest; only with a recognised scheme does a missing or unknown digest fail naming the digest |
| `SignatureResolver.EcdsaAttributeErrors` | src/main/java/com/czertainly/cp/soft/util/SignatureUtil.java:44-48 | for ECDSA a missing or unknown digest fails naming the digest attribute and its value |
| `SignatureResolver.ResolveInjective` | src/main/java/com/czertainly/cp/soft/util/SignatureUtil.java:36-69 | two successful resolutions with the same identifier share the family, the digest's provider name and the PSS choice |
| `SignatureInstance.GetInstanceSignature` | src/main/java/com/czertainly/cp/soft/util/SignatureUtil.java:74-82 | succeeds exactly when the provider registers the algorithm and then returns the identifier unchanged; an absent provider fails with InvalidProvider and an absent algorithm with InvalidAlgorithm |
| `SignatureInstance.PrepareSignature` | src/main/java/com/czertainly/cp/soft/util/SignatureUtil.java:20-72 | succeeds exactly when resolution succeeds and the resolved pair is registered, returning the resolved identifier at the family's provider; a resolution error is returned before any lookup |
| `SignatureInstance.PrepareIgnoresNameAndLength` | src/main/java/com/czertainly/cp/soft/util/SignatureUtil.java:54-63 | the result does not depend on the key's name or length |
| `SignatureInstance.AcquisitionErrors` | src/main/java/com/czertainly/cp/soft/util/SignatureUtil.java:74-81 | after a successful resolution, preparation fails with InvalidProvider, fails with InvalidAlgorithm, or returns the resolved identifier, depending on the registry |
| `SignatureLifecycle.Step` | src/main/java/com/czertainly/cp/soft/util/SignatureUtil.java:84-108 | a signature comes only from a sign call in signing mode and a verdict only from a verify call in verification mode; an object left uninitialised is unchanged, and an initialised one never becomes uninitialised |
| `SignatureLifecycle.Run` | src/main/java/com/czertainly/cp/soft/util/SignatureUtil.java:84-108 | a sequence of calls on one object gives one reply per call |
| `SignatureLifecycle.ModeIsLastAcceptedInit` | src/main/java/com/czertainly/cp/soft/util/SignatureUtil.java:84-98 | after any calls, a new object's mode is the last initialisation the engine accepted |
| `SignatureLifecycle.NothingFedBeforeInit` | src/main/java/com/czertainly/cp/soft/util/SignatureUtil.java:100-101 | an object that has never been initialised holds no data: an update before init is refused |
| `SignatureLifecycle.SignedOnlyAfterInitSign` | src/main/java/com/czertainly/cp/soft/util/SignatureUtil.java:100-103 | each signature produced comes from a sign call after an accepted signing initialisation, and is the engine's signature, under that key, of the object's pending data at that point (`SigningSessionSignsPayload` identifies that data as the updates since the initialisation) |
| `SignatureLifecycle.VerdictOnlyAfterInitVerify` | src/main/java/com/czertainly/cp/soft/util/SignatureUtil.java:105-108 | each verdict comes from a verify call after an accepted verification initialisation, and is the engine's verdict on the object's pending data at that point and the candidate signature (`VerifyingSessionChecksPayload` identifies that data as the updates since the initialisation) |
| `SignatureLifecycle.UpdatesConcatenate` | src/main/java/com/czertainly/cp/soft/util/SignatureUtil.java:100-108 | on an initialised object, several updates feed the concatenation of their data, just as one update would, and each is accepted |
| `SignatureLifecycle.RunAppend` | src/main/java/com/czertainly/cp/soft/util/SignatureUtil.java:84-108 | running two call sequences one after the other gives the same final state and replies as running their concatenation |
| `SignatureLifecycle.SigningSessionSignsPayload` | src/main/java/com/czertainly/cp/soft/util/SignatureUtil.java:84-103 | after any earlier calls, an accepted signing initialisation with key k, then updates, then sign: the reply is the engine's signature under k of exactly the concatenation of the updates' data, with the random bytes given to that sign call, or its fault |
| `SignatureLifecycle.VerifyingSessionChecksPayload` | src/main/java/com/czertainly/cp/soft/util/SignatureUtil.java:92-108 | after any earlier calls, an accepted verification initialisation with key k, then updates, then verify: the reply is the engine's verdict under k on exactly the concatenation of the updates' data and the candidate signature, or its fault |
| `SignatureLifecycle.Signature.constructor` | src/main/java/com/czertainly/cp/soft/util/SignatureUtil.java:74-76 | the instance returned by the lookup is bound to its algorithm and starts uninitialised with nothing fed |
| `SignatureLifecycle.Signature.InitSign` | src/main/java/com/czertainly/cp/soft/util/SignatureUtil.java:86 | the object's new state and reply are those of `Step` for a signing initialisation |
| `SignatureLifecycle.Signature.InitVerify` | src/main/java/com/czertainly/cp/soft/util/SignatureUtil.java:94 | the object's new state and reply are those of `Step` for a verification initialisation |
| `SignatureLifecycle.Signature.Update` | src/main/java/com/czertainly/cp/soft/util/SignatureUtil.java:101 | the object's new state and reply are those of `Step` for an update |
| `SignatureLifecycle.Signature.Sign` | src/main/java/com/czertainly/cp/soft/util/SignatureUtil.java:102 | the object's new state and reply are those of `Step` for a sign call |
| `SignatureLifecycle.Signature.Verify` | src/main/java/com/czertainly/cp/soft/util/SignatureUtil.java:107 | the object's new state and reply are those of `Step` for a verify call |
| `SignatureLifecycle.InitSigning` | src/main/java/com/czertainly/cp/soft/util/SignatureUtil.java:84-90 | an accepted private key puts the object in signing mode with nothing fed; a rejected one fails with InvalidKey carrying the key's name and leaves the object unchanged |
| `SignatureLifecycle.InitVerification` | src/main/java/com/czertainly/cp/soft/util/SignatureUtil.java:92-98 | an accepted certificate puts the object in verification mode with nothing fed; a rejected one fails with InvalidKey carrying the key's name and leaves the object unchanged |
| `SignatureLifecycle.SignData` | src/main/java/com/czertainly/cp/soft/util/SignatureUtil.java:100-103 | succeeds only in signing mode, where it returns the engine's signature of pending data + payload, with the random bytes given to the call, and resets the pending data; in verification mode the payload stays fed and sign fails; uninitialised, nothing changes and update fails |
| `SignatureLifecycle.VerifyData` | src/main/java/com/czertainly/cp/soft/util/SignatureUtil.java:105-108 | returns a verdict only in verification mode, the engine's verdict on pending data + payload, and resets the pending data; in signing mode the payload stays fed and verify fails; uninitialised, nothing changes and update fails |
| `SignatureLifecycle.SignPayload` | src/main/java/com/czertainly/cp/soft/util/SignatureUtil.java:20-103 | prepare, initSigning and signData in order make the engine supplied for the resolved algorithm sign exactly the payload under the private key, or report the preparation error, then the invalid-key error, then the engine's fault |
| `SignatureLifecycle.VerifyPayload` | src/main/java/com/czertainly/cp/soft/util/SignatureUtil.java:20-108 | prepare, initVerification and verifyData in order make the engine supplied for the resolved algorithm check the candidate signature against exactly the payload, or report the preparation error, then the invalid-key error, then the engine's fault |

## Left out

- The cryptography: RSA, ECDSA, Falcon, Dilithium and SPHINCS+ arithmetic, and whether signatures are correct or resist tampering. It belongs to BouncyCastle and is represented only by the `Primitive` functions.
- The provider registry behind `Signature.getInstance`. It is an input map from provider name to algorithm names. JCA matches algorithm names case-insensitively; here that is left to the registry: it holds every spelling it accepts.
- `Signature.getInstance` throws an `IllegalArgumentException` for an empty provider name. This is not modelled, because the source only passes the two provider constants.
- `KeyStoreUtil.getPrivateKey` and `KeyStoreUtil.getCertificate` are not part of this model. Their results are inputs, and their own failures are not modelled.
- `AttributeDefinitionUtils` attribute lookup is not part of this model. Its result is an input map. A content of the wrong class (a `ClassCastException`) is not modelled.
- The contents of the `DigestAlgorithm` and `RsaSignatureScheme` enums are not part of this model. They are an input `Catalog` of constant names. The only fixed constant is `PSS`, which the code names.
- The commented-out choice of a Falcon variant by key length. It is dead code; the model proves the key length is never consulted.
- A null key family, attribute list or payload (a `NullPointerException` or `IllegalArgumentException` in Java): the model's inputs are always present.
- Sharing one `Signature` object between threads.
- An engine that fails during `update` is not modelled. JCA's `engineUpdate` may throw `SignatureException`, but `Primitive` has no update outcome. So an update on an initialised object always succeeds, and `UpdatesConcatenate` relies on that.
- How a provider's engine leaves its buffer after an InvalidKeyException or a failed finish cannot be determined here. The model leaves the object unchanged on a rejected initialisation, and empties the pending data after any finishing call made in the right mode.
