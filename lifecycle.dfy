/** The sign/verify lifecycle around a JCA `Signature` object and the
    `SignatureUtil` wrappers that drive it. The object is an abstract state
    machine: which key it was initialised with, for which direction, and the
    bytes fed since. The cryptography is the provider's and appears only as
    the `Primitive` the object delegates to. */
module SignatureLifecycle {
  import opened Wrappers
  import opened SignatureTypes
  import opened SignatureInstance
  import opened SignatureResolver

  /** A private key or certificate handed over by the keystore. */
  datatype KeyMaterial = KeyMaterial(handle: nat)

  /** What the provider's engine does: whether it accepts a key for signing or
      for verification (otherwise InvalidKeyException), and the outcome of
      finishing a signature or a verification (`None` when the engine throws
      SignatureException). Signing also takes the random bytes the engine
      draws for that one call (the ECDSA nonce, the PSS or Falcon salt), so
      two signatures of the same data need not be equal. */
  datatype Primitive = Primitive(
    acceptsPrivate: KeyMaterial -> bool,
    acceptsPublic: KeyMaterial -> bool,
    sign: (KeyMaterial, seq<Byte>, seq<Byte>) -> Option<seq<Byte>>,
    verify: (KeyMaterial, seq<Byte>, seq<Byte>) -> Option<bool>)

  datatype Mode = Uninitialised | Signing(privateKey: KeyMaterial) | Verifying(publicKey: KeyMaterial)

  /** The state of a `Signature` object: its mode and the data fed since it
      was last initialised or finished. */
  datatype ObjectState = ObjectState(mode: Mode, pending: seq<Byte>)

  const Fresh: ObjectState := ObjectState(Uninitialised, [])

  /** The calls a `Signature` object accepts. */
  datatype Op =
    | InitSignOp(privateKey: KeyMaterial)
    | InitVerifyOp(publicKey: KeyMaterial)
    | UpdateOp(data: seq<Byte>)
    | SignOp(random: seq<Byte>)
    | VerifyOp(signature: seq<Byte>)

  /** What a call returns, or the exception it throws. */
  datatype Reply = Done | Rejected | Bytes(bytes: seq<Byte>) | Verdict(valid: bool) | Raised(fault: SignatureFault)

  /** One call on a `Signature` object. Initialisation may happen in any mode
      and discards what was fed; feeding needs some initialisation; each
      finishing call needs its own mode and returns the object to the state
      right after that initialisation. */
  function Step(p: Primitive, e: ObjectState, op: Op): (next: (ObjectState, Reply))
    ensures next.1.Bytes? ==> op.SignOp? && e.mode.Signing?
    ensures next.1.Verdict? ==> op.VerifyOp? && e.mode.Verifying?
    ensures next.0.mode.Uninitialised? ==> next.0 == e
    ensures !e.mode.Uninitialised? ==> !next.0.mode.Uninitialised?
  {
    match op
    case InitSignOp(k) =>
      if p.acceptsPrivate(k) then (ObjectState(Signing(k), []), Done) else (e, Rejected)
    case InitVerifyOp(k) =>
      if p.acceptsPublic(k) then (ObjectState(Verifying(k), []), Done) else (e, Rejected)
    case UpdateOp(data) =>
      if e.mode.Uninitialised? then (e, Raised(NotInitialised))
      else (e.(pending := e.pending + data), Done)
    case SignOp(random) =>
      if e.mode.Signing? then
        (e.(pending := []),
         match p.sign(e.mode.privateKey, e.pending, random)
         case Some(b) => Bytes(b)
         case None => Raised(EngineFault))
      else (e, Raised(NotInitialisedForSigning))
    case VerifyOp(s) =>
      if e.mode.Verifying? then
        (e.(pending := []),
         match p.verify(e.mode.publicKey, e.pending, s)
         case Some(v) => Verdict(v)
         case None => Raised(EngineFault))
      else (e, Raised(NotInitialisedForVerification))
  }

  /** A sequence of calls on one object, with the reply to each. */
  function Run(p: Primitive, e: ObjectState, ops: seq<Op>): (r: (ObjectState, seq<Reply>))
    ensures |r.1| == |ops|
    decreases |ops|
  {
    if ops == [] then (e, [])
    else
      var (before, replies) := Run(p, e, ops[..|ops| - 1]);
      var (after, reply) := Step(p, before, ops[|ops| - 1]);
      (after, replies + [reply])
  }

  /** Reference definition of the mode: the last initialisation the engine
      accepted. */
  function LastAcceptedInit(p: Primitive, ops: seq<Op>): Mode
    decreases |ops|
  {
    if ops == [] then Uninitialised
    else
      match ops[|ops| - 1]
      case InitSignOp(k) => if p.acceptsPrivate(k) then Signing(k) else LastAcceptedInit(p, ops[..|ops| - 1])
      case InitVerifyOp(k) => if p.acceptsPublic(k) then Verifying(k) else LastAcceptedInit(p, ops[..|ops| - 1])
      case _ => LastAcceptedInit(p, ops[..|ops| - 1])
  }

  /** The mode of a new object after any calls is fixed by its last accepted
      initialisation; no feeding or finishing call changes it. */
  lemma {:induction false} ModeIsLastAcceptedInit(p: Primitive, ops: seq<Op>)
    ensures Run(p, Fresh, ops).0.mode == LastAcceptedInit(p, ops)
    decreases |ops|
  {
    if ops != [] {
      ModeIsLastAcceptedInit(p, ops[..|ops| - 1]);
    }
  }

  /** A new object holds no data until it is initialised: updates before
      initialisation are refused, not buffered. */
  lemma {:induction false} NothingFedBeforeInit(p: Primitive, ops: seq<Op>)
    ensures Run(p, Fresh, ops).0.mode.Uninitialised? ==> Run(p, Fresh, ops).0 == Fresh
    decreases |ops|
  {
    if ops != [] {
      NothingFedBeforeInit(p, ops[..|ops| - 1]);
    }
  }

  /** The reply to call `i` is the reply of that call in the state the calls
      before it left. */
  lemma {:induction false} ReplyAt(p: Primitive, e: ObjectState, ops: seq<Op>, i: nat)
    requires i < |ops|
    ensures Run(p, e, ops).1[i] == Step(p, Run(p, e, ops[..i]).0, ops[i]).1
    decreases |ops|
  {
    var n := |ops| - 1;
    if i < n {
      ReplyAt(p, e, ops[..n], i);
      assert ops[..n][..i] == ops[..i];
    } else {
      assert ops[..n] == ops[..i];
    }
  }

  /** A signature is only ever produced after an accepted initialisation for
      signing with no accepted initialisation since, and it is the engine's
      signature, under that key, of the data fed since. */
  lemma SignedOnlyAfterInitSign(p: Primitive, ops: seq<Op>, i: nat)
    requires i < |ops| && Run(p, Fresh, ops).1[i].Bytes?
    ensures ops[i].SignOp?
    ensures LastAcceptedInit(p, ops[..i]).Signing?
    ensures p.sign(LastAcceptedInit(p, ops[..i]).privateKey, Run(p, Fresh, ops[..i]).0.pending, ops[i].random)
         == Some(Run(p, Fresh, ops).1[i].bytes)
  {
    ReplyAt(p, Fresh, ops, i);
    ModeIsLastAcceptedInit(p, ops[..i]);
  }

  /** Likewise a verdict is only ever returned after an accepted
      initialisation for verification. */
  lemma VerdictOnlyAfterInitVerify(p: Primitive, ops: seq<Op>, i: nat)
    requires i < |ops| && Run(p, Fresh, ops).1[i].Verdict?
    ensures ops[i].VerifyOp?
    ensures LastAcceptedInit(p, ops[..i]).Verifying?
    ensures p.verify(LastAcceptedInit(p, ops[..i]).publicKey, Run(p, Fresh, ops[..i]).0.pending, ops[i].signature)
         == Some(Run(p, Fresh, ops).1[i].valid)
  {
    ReplyAt(p, Fresh, ops, i);
    ModeIsLastAcceptedInit(p, ops[..i]);
  }

  predicate AllUpdates(ops: seq<Op>) {
    forall i | 0 <= i < |ops| :: ops[i].UpdateOp?
  }

  function Payload(ops: seq<Op>): seq<Byte>
    requires AllUpdates(ops)
    decreases |ops|
  {
    if ops == [] then [] else Payload(ops[..|ops| - 1]) + ops[|ops| - 1].data
  }

  /** Feeding data in several updates is the same as feeding their
      concatenation in one: the wrappers' single update loses nothing. */
  lemma {:induction false} UpdatesConcatenate(p: Primitive, e: ObjectState, ops: seq<Op>)
    requires !e.mode.Uninitialised? && AllUpdates(ops)
    ensures Run(p, e, ops).0 == e.(pending := e.pending + Payload(ops))
    ensures forall i | 0 <= i < |ops| :: Run(p, e, ops).1[i] == Done
    decreases |ops|
  {
    if ops != [] {
      var n := |ops| - 1;
      assert AllUpdates(ops[..n]);
      UpdatesConcatenate(p, e, ops[..n]);
      assert e.pending + Payload(ops[..n]) + ops[n].data == e.pending + Payload(ops);
    }
  }

  /** Running two call sequences one after the other is running their
      concatenation. */
  lemma {:induction false} RunAppend(p: Primitive, e: ObjectState, a: seq<Op>, b: seq<Op>)
    ensures Run(p, e, a + b).0 == Run(p, Run(p, e, a).0, b).0
    ensures Run(p, e, a + b).1 == Run(p, e, a).1 + Run(p, Run(p, e, a).0, b).1
    decreases |b|
  {
    if b == [] {
      assert a + b == a;
    } else {
      var n := |b| - 1;
      assert (a + b)[..|a + b| - 1] == a + b[..n];
      assert (a + b)[|a + b| - 1] == b[n];
      RunAppend(p, e, a, b[..n]);
    }
  }

  /** The state right after an accepted initialisation, whatever came before. */
  lemma InitResets(p: Primitive, pre: seq<Op>, op: Op)
    requires op.InitSignOp? ==> p.acceptsPrivate(op.privateKey)
    requires op.InitVerifyOp? ==> p.acceptsPublic(op.publicKey)
    requires op.InitSignOp? || op.InitVerifyOp?
    ensures Run(p, Fresh, pre + [op]).0
         == ObjectState(if op.InitSignOp? then Signing(op.privateKey) else Verifying(op.publicKey), [])
  {
    assert (pre + [op])[..|pre + [op]| - 1] == pre;
  }

  /** A signing session: after any earlier calls, an accepted signing
      initialisation, then updates, then sign. The engine signs, under that
      key, exactly the concatenation of the updates' data. */
  lemma SigningSessionSignsPayload(p: Primitive, pre: seq<Op>, k: KeyMaterial, updates: seq<Op>, random: seq<Byte>)
    requires p.acceptsPrivate(k) && AllUpdates(updates)
    ensures var ops := pre + [InitSignOp(k)] + updates + [SignOp(random)];
      Run(p, Fresh, ops).1[|ops| - 1]
        == match p.sign(k, Payload(updates), random)
           case Some(b) => Bytes(b)
           case None => Raised(EngineFault)
  {
    var init := pre + [InitSignOp(k)];
    var ops := init + updates + [SignOp(random)];
    InitResets(p, pre, InitSignOp(k));
    RunAppend(p, Fresh, init, updates);
    UpdatesConcatenate(p, Run(p, Fresh, init).0, updates);
    assert [] + Payload(updates) == Payload(updates);
    assert ops[..|ops| - 1] == init + updates;
  }

  /** A verification session: after any earlier calls, an accepted
      verification initialisation, then updates, then verify. The engine
      checks the candidate signature against exactly the concatenation of the
      updates' data. */
  lemma VerifyingSessionChecksPayload(p: Primitive, pre: seq<Op>, k: KeyMaterial, updates: seq<Op>, sig: seq<Byte>)
    requires p.acceptsPublic(k) && AllUpdates(updates)
    ensures var ops := pre + [InitVerifyOp(k)] + updates + [VerifyOp(sig)];
      Run(p, Fresh, ops).1[|ops| - 1]
        == match p.verify(k, Payload(updates), sig)
           case Some(v) => Verdict(v)
           case None => Raised(EngineFault)
  {
    var init := pre + [InitVerifyOp(k)];
    var ops := init + updates + [VerifyOp(sig)];
    InitResets(p, pre, InitVerifyOp(k));
    RunAppend(p, Fresh, init, updates);
    UpdatesConcatenate(p, Run(p, Fresh, init).0, updates);
    assert [] + Payload(updates) == Payload(updates);
    assert ops[..|ops| - 1] == init + updates;
  }

  /** The outcome of a finishing call as the wrappers report it. */
  function Finished<T>(outcome: Option<T>): Result<T, Error> {
    match outcome
    case Some(v) => Success(v)
    case None => Failure(SignatureException(EngineFault))
  }

  function ReplyOf<T>(r: Result<T, SignatureFault>, success: T -> Reply): Reply {
    match r
    case Success(v) => success(v)
    case Failure(f) => Raised(f)
  }

  /** A JCA `Signature` object bound to one algorithm of one provider. */
  class Signature {
    const algorithm: AlgorithmId
    const primitive: Primitive
    var mode: Mode
    var pending: seq<Byte>

    function Current(): ObjectState
      reads this
    {
      ObjectState(mode, pending)
    }

    /** The object `Signature.getInstance` returns: not yet initialised. */
    constructor (algorithm: AlgorithmId, primitive: Primitive)
      ensures this.algorithm == algorithm && this.primitive == primitive
      ensures Current() == Fresh
    {
      this.algorithm := algorithm;
      this.primitive := primitive;
      mode := Uninitialised;
      pending := [];
    }

    method InitSign(privateKey: KeyMaterial) returns (accepted: bool)
      modifies this
      ensures (Current(), if accepted then Done else Rejected) == Step(primitive, old(Current()), InitSignOp(privateKey))
    {
      accepted := primitive.acceptsPrivate(privateKey);
      if accepted {
        mode, pending := Signing(privateKey), [];
      }
    }

    method InitVerify(publicKey: KeyMaterial) returns (accepted: bool)
      modifies this
      ensures (Current(), if accepted then Done else Rejected) == Step(primitive, old(Current()), InitVerifyOp(publicKey))
    {
      accepted := primitive.acceptsPublic(publicKey);
      if accepted {
        mode, pending := Verifying(publicKey), [];
      }
    }

    method Update(data: seq<Byte>) returns (r: Outcome<SignatureFault>)
      modifies this
      ensures (Current(), if r.Pass? then Done else Raised(r.error)) == Step(primitive, old(Current()), UpdateOp(data))
    {
      if mode.Uninitialised? {
        r := Fail(NotInitialised);
      } else {
        pending := pending + data;
        r := Pass;
      }
    }

    method Sign(random: seq<Byte>) returns (r: Result<seq<Byte>, SignatureFault>)
      modifies this
      ensures (Current(), ReplyOf(r, b => Bytes(b))) == Step(primitive, old(Current()), SignOp(random))
    {
      if !mode.Signing? {
        return Failure(NotInitialisedForSigning);
      }
      var outcome := primitive.sign(mode.privateKey, pending, random);
      pending := [];
      r := if outcome.Some? then Success(outcome.value) else Failure(EngineFault);
    }

    method Verify(signature: seq<Byte>) returns (r: Result<bool, SignatureFault>)
      modifies this
      ensures (Current(), ReplyOf(r, v => Verdict(v))) == Step(primitive, old(Current()), VerifyOp(signature))
    {
      if !mode.Verifying? {
        return Failure(NotInitialisedForVerification);
      }
      var outcome := primitive.verify(mode.publicKey, pending, signature);
      pending := [];
      r := if outcome.Some? then Success(outcome.value) else Failure(EngineFault);
    }
  }

  // ---------------------------------------------------------------------------
  // The SignatureUtil wrappers

  /** `initSigning`: bind the key's private key for signing; a key the
      engine rejects is reported by the key's name and leaves the object as
      it was. */
  method InitSigning(signature: Signature, key: KeyData, privateKey: KeyMaterial) returns (r: Outcome<Error>)
    modifies signature
    ensures signature.primitive.acceptsPrivate(privateKey) ==>
      r == Pass && signature.Current() == ObjectState(Signing(privateKey), [])
    ensures !signature.primitive.acceptsPrivate(privateKey) ==>
      r == Fail(InvalidKey(key.name)) && signature.Current() == old(signature.Current())
  {
    var accepted := signature.InitSign(privateKey);
    r := if accepted then Pass else Fail(InvalidKey(key.name));
  }

  /** `initVerification`: bind the key's certificate for verification, with
      the same error mapping. */
  method InitVerification(signature: Signature, key: KeyData, certificate: KeyMaterial) returns (r: Outcome<Error>)
    modifies signature
    ensures signature.primitive.acceptsPublic(certificate) ==>
      r == Pass && signature.Current() == ObjectState(Verifying(certificate), [])
    ensures !signature.primitive.acceptsPublic(certificate) ==>
      r == Fail(InvalidKey(key.name)) && signature.Current() == old(signature.Current())
  {
    var accepted := signature.InitVerify(certificate);
    r := if accepted then Pass else Fail(InvalidKey(key.name));
  }

  /** `signData`: one update with the whole payload, then sign. It succeeds
      only on an object initialised for signing, and signs what was pending
      followed by the payload, with the random bytes the engine draws for
      this call. On an object initialised for verification the
      update goes through before sign throws, so the payload stays fed. */
  method SignData(signature: Signature, data: seq<Byte>, random: seq<Byte>) returns (r: Result<seq<Byte>, Error>)
    modifies signature
    ensures r.Success? ==> old(signature.mode).Signing?
    ensures old(signature.mode).Signing? ==>
      && signature.Current() == ObjectState(old(signature.mode), [])
      && r == Finished(signature.primitive.sign(old(signature.mode).privateKey, old(signature.pending) + data, random))
    ensures old(signature.mode).Verifying? ==>
      && signature.Current() == ObjectState(old(signature.mode), old(signature.pending) + data)
      && r == Failure(SignatureException(NotInitialisedForSigning))
    ensures old(signature.mode).Uninitialised? ==>
      && signature.Current() == old(signature.Current())
      && r == Failure(SignatureException(NotInitialised))
  {
    var fed := signature.Update(data);
    if fed.Fail? {
      return Failure(SignatureException(fed.error));
    }
    var signed := signature.Sign(random);
    r := match signed
      case Success(b) => Success(b)
      case Failure(f) => Failure(SignatureException(f));
  }

  /** `verifyData`: one update with the whole payload, then verify against
      the candidate signature. A verdict, `false` included, is returned only
      by an object initialised for verification. */
  method VerifyData(signature: Signature, data: seq<Byte>, sig: seq<Byte>) returns (r: Result<bool, Error>)
    modifies signature
    ensures r.Success? ==> old(signature.mode).Verifying?
    ensures old(signature.mode).Verifying? ==>
      && signature.Current() == ObjectState(old(signature.mode), [])
      && r == Finished(signature.primitive.verify(old(signature.mode).publicKey, old(signature.pending) + data, sig))
    ensures old(signature.mode).Signing? ==>
      && signature.Current() == ObjectState(old(signature.mode), old(signature.pending) + data)
      && r == Failure(SignatureException(NotInitialisedForVerification))
    ensures old(signature.mode).Uninitialised? ==>
      && signature.Current() == old(signature.Current())
      && r == Failure(SignatureException(NotInitialised))
  {
    var fed := signature.Update(data);
    if fed.Fail? {
      return Failure(SignatureException(fed.error));
    }
    var verified := signature.Verify(sig);
    r := match verified
      case Success(v) => Success(v)
      case Failure(f) => Failure(SignatureException(f));
  }

  // ---------------------------------------------------------------------------
  // The wrappers in the order their callers use them

  /** Prepare, initialise for signing, sign: the engine the provider supplies
      for the resolved algorithm (`engines`) signs exactly the payload, under
      the key's private key; every earlier failure is reported as it arose. */
  method SignPayload(key: KeyData, declared: Declared, catalog: Catalog, registry: Registry,
                     engines: AlgorithmId -> Primitive, privateKey: KeyMaterial, data: seq<Byte>, random: seq<Byte>)
    returns (r: Result<seq<Byte>, Error>)
    ensures PrepareSignature(key, declared, catalog, registry).Failure? ==>
      r == Failure(PrepareSignature(key, declared, catalog, registry).error)
    ensures PrepareSignature(key, declared, catalog, registry).Success? ==>
      var engine := engines(ResolveAlgorithm(key.algorithm, declared, catalog).value);
      r == if engine.acceptsPrivate(privateKey) then Finished(engine.sign(privateKey, data, random))
           else Failure(InvalidKey(key.name))
  {
    var prepared := PrepareSignature(key, declared, catalog, registry);
    if prepared.Failure? {
      return Failure(prepared.error);
    }
    var signature := new Signature(prepared.value, engines(prepared.value));
    var init := InitSigning(signature, key, privateKey);
    if init.Fail? {
      return Failure(init.error);
    }
    assert [] + data == data;
    r := SignData(signature, data, random);
  }

  /** Prepare, initialise for verification, verify: the engine supplied for
      the resolved algorithm checks the candidate signature against exactly
      the payload. */
  method VerifyPayload(key: KeyData, declared: Declared, catalog: Catalog, registry: Registry,
                       engines: AlgorithmId -> Primitive, certificate: KeyMaterial, data: seq<Byte>, sig: seq<Byte>)
    returns (r: Result<bool, Error>)
    ensures PrepareSignature(key, declared, catalog, registry).Failure? ==>
      r == Failure(PrepareSignature(key, declared, catalog, registry).error)
    ensures PrepareSignature(key, declared, catalog, registry).Success? ==>
      var engine := engines(ResolveAlgorithm(key.algorithm, declared, catalog).value);
      r == if engine.acceptsPublic(certificate) then Finished(engine.verify(certificate, data, sig))
           else Failure(InvalidKey(key.name))
  {
    var prepared := PrepareSignature(key, declared, catalog, registry);
    if prepared.Failure? {
      return Failure(prepared.error);
    }
    var signature := new Signature(prepared.value, engines(prepared.value));
    var init := InitVerification(signature, key, certificate);
    if init.Fail? {
      return Failure(init.error);
    }
    assert [] + data == data;
    r := VerifyData(signature, data, sig);
  }
}
