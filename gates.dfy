/**
 * The broker's configuration and its three gates: request signature
 * verification, the administrative key check and the machine allow-list.
 */
module Gates {
  import opened Wrappers
  import opened Messages

  /**
   * Process configuration, fixed for the lifetime of a broker.
   * `sign` is the keyed signer over the shared secret (uninterpreted here),
   * the `serialize...` functions are the canonical encoders of the three
   * message kinds, `adminKey` is empty when no administrative key is set,
   * and `allowed` is empty when no allow-list is set.
   */
  datatype Config = Config(
    sign: Bytes -> string,
    serializeJob: Job -> Bytes,
    serializePoll: PollReq -> Bytes,
    serializeAck: AckReq -> Bytes,
    adminKey: string,
    allowed: set<string>)

  /** Signature check: passes exactly when the tag is the signer's tag for the bytes. */
  function Verify(c: Config, sig: string, b: Bytes): (r: Outcome<Error>)
    ensures r.Pass? <==> sig == c.sign(b)
    ensures r.Fail? ==> r.error == BadSignature && StatusCode(r.error) == 401
  {
    if c.sign(b) == sig then Pass else Fail(BadSignature)
  }

  /** A tag verifies against the bytes it was computed from, and no other tag does. */
  lemma VerifyAcceptsExactlyTheSignerTag(c: Config, b: Bytes, sig: string)
    ensures Verify(c, c.sign(b), b) == Pass
    ensures sig != c.sign(b) ==> Verify(c, sig, b) == Fail(BadSignature)
  {
  }

  /**
   * Administrative gate: with a key configured, only that exact key passes
   * (a missing header fails); with none configured, everything passes.
   */
  function RequireAdmin(c: Config, key: Option<string>): (r: Outcome<Error>)
    ensures r.Fail? <==> c.adminKey != "" && key != Some(c.adminKey)
    ensures r.Fail? ==> r.error == BadAdminKey && StatusCode(r.error) == 401
  {
    if c.adminKey != "" && key != Some(c.adminKey) then Fail(BadAdminKey) else Pass
  }

  /** The allow-list gate: an empty list admits every machine. */
  predicate MachineAllowed(c: Config, machineId: string)
    ensures c.allowed == {} ==> MachineAllowed(c, machineId)
    ensures c.allowed != {} ==> (MachineAllowed(c, machineId) <==> machineId in c.allowed)
  {
    c.allowed == {} || machineId in c.allowed
  }

  /** With no administrative key configured the gate is open to every caller. */
  lemma AdminGateOpenWhenUnconfigured(c: Config, key: Option<string>)
    requires c.adminKey == ""
    ensures RequireAdmin(c, key) == Pass
  {
  }

  /** With a key configured, a missing key and every other key are rejected. */
  lemma AdminGateClosedToOtherKeys(c: Config, key: Option<string>)
    requires c.adminKey != ""
    ensures RequireAdmin(c, None).Fail?
    ensures RequireAdmin(c, Some(c.adminKey)) == Pass
    ensures key != Some(c.adminKey) ==> RequireAdmin(c, key) == Fail(BadAdminKey)
  {
  }
}
