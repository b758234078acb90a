/** Acquiring the JCA `Signature` instance for a resolved identifier
    (`getInstanceSignature`) and the full `prepareSignature`. */
module SignatureInstance {
  import opened Wrappers
  import opened SignatureTypes
  import opened SignatureResolver

  /** The providers installed in the running JVM, each with the signature
      algorithm names it registers. The registry itself lives in the Java
      security framework. */
  datatype Registry = Registry(algorithms: map<string, set<string>>)

  predicate Registered(registry: Registry, id: AlgorithmId) {
    id.provider in registry.algorithms && id.name in registry.algorithms[id.provider]
  }

  /** `Signature.getInstance(algorithm, provider)` with its two checked
      exceptions mapped to fatal errors: the provider is looked up first
      (NoSuchProviderException), then the algorithm within it
      (NoSuchAlgorithmException). The returned instance stands for the
      identifier it was asked for. */
  function GetInstanceSignature(algorithm: string, provider: string, registry: Registry): (r: Result<AlgorithmId, Error>)
    ensures r.Success? <==> Registered(registry, AlgorithmId(algorithm, provider))
    ensures r.Success? ==> r.value == AlgorithmId(algorithm, provider)
    ensures r.Failure? ==> r.error == (if provider in registry.algorithms then InvalidAlgorithm else InvalidProvider)
  {
    if provider !in registry.algorithms then Failure(InvalidProvider)
    else if algorithm !in registry.algorithms[provider] then Failure(InvalidAlgorithm)
    else Success(AlgorithmId(algorithm, provider))
  }

  /** `prepareSignature`: resolve the identifier for the key's family, then
      acquire it. Resolution errors surface before any lookup is made. */
  function PrepareSignature(key: KeyData, declared: Declared, catalog: Catalog, registry: Registry): (r: Result<AlgorithmId, Error>)
    ensures r.Success? <==>
      Resolvable(key.algorithm, declared, catalog)
      && Registered(registry, ResolveAlgorithm(key.algorithm, declared, catalog).value)
    ensures r.Success? ==>
      r.value == ResolveAlgorithm(key.algorithm, declared, catalog).value
      && r.value.provider == ProviderFor(key.algorithm)
    ensures !Resolvable(key.algorithm, declared, catalog)
      ==> r.Failure? && r.error == ResolveAlgorithm(key.algorithm, declared, catalog).error
  {
    var id :- ResolveAlgorithm(key.algorithm, declared, catalog);
    GetInstanceSignature(id.name, id.provider, registry)
  }

  /** The key's name and length play no part in preparing its signature: in
      particular no Falcon variant is chosen by length. */
  lemma PrepareIgnoresNameAndLength(key: KeyData, name: string, length: int,
                                    declared: Declared, catalog: Catalog, registry: Registry)
    ensures PrepareSignature(key, declared, catalog, registry)
      == PrepareSignature(key.(name := name, length := length), declared, catalog, registry)
  {
  }

  /** A resolved identifier that is not registered fails with the error that
      names what was missing, and nothing else fails after resolution. */
  lemma AcquisitionErrors(key: KeyData, declared: Declared, catalog: Catalog, registry: Registry)
    requires Resolvable(key.algorithm, declared, catalog)
    ensures var id := ResolveAlgorithm(key.algorithm, declared, catalog).value;
      && (id.provider !in registry.algorithms
          ==> PrepareSignature(key, declared, catalog, registry) == Failure(InvalidProvider))
      && (id.provider in registry.algorithms && id.name !in registry.algorithms[id.provider]
          ==> PrepareSignature(key, declared, catalog, registry) == Failure(InvalidAlgorithm))
      && (Registered(registry, id) ==> PrepareSignature(key, declared, catalog, registry) == Success(id))
  {
  }
}
