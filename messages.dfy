/** The broker's data model: jobs, the three request bodies, replies and errors. */
module Messages {

  /** The canonical byte encoding of a message, as handed to the signer. */
  type Bytes = seq<bv8>

  /** A JSON-like parameter value (the entries of a job's `params` mapping). */
  datatype Value =
    | Null
    | Bool(b: bool)
    | Int(i: int)
    | Str(s: string)
    | List(items: seq<Value>)
    | Object(fields: map<string, Value>)

  /** A job record as stored in the job store; it never changes once stored. */
  datatype Job = Job(id: string, machineId: string, command: string, params: map<string, Value>, ts: int)

  /** Body of an enqueue request. */
  datatype EnqueueReq = EnqueueReq(machineId: string, command: string, params: map<string, Value>)

  /** Body of a poll request; `capabilities` only takes part in the signed bytes. */
  datatype PollReq = PollReq(machineId: string, capabilities: seq<string>)

  /** Body of an ack request; it is also the stored result, field for field. */
  datatype AckReq = AckReq(jobId: string, status: string, stdout: string, stderr: string, tookMs: int)

  /** The rejections the broker raises. */
  datatype Error = BadSignature | BadAdminKey | MachineNotAllowed

  /** The HTTP status each rejection is reported with. */
  function StatusCode(e: Error): (code: int)
    ensures code == 401 || code == 403
    ensures code == 403 <==> e == MachineNotAllowed
  {
    match e
    case BadSignature => 401
    case BadAdminKey => 401
    case MachineNotAllowed => 403
  }

  /** The detail text each rejection is reported with. */
  function Detail(e: Error): (text: string)
    ensures text == "Bad signature" <==> e == BadSignature
    ensures text == "Bad admin key" <==> e == BadAdminKey
    ensures text == "Machine not allowed" <==> e == MachineNotAllowed
  {
    match e
    case BadSignature => "Bad signature"
    case BadAdminKey => "Bad admin key"
    case MachineNotAllowed => "Machine not allowed"
  }

  /** Successful enqueue: the new job's id and the signature over its canonical form. */
  datatype Enqueued = Enqueued(jobId: string, sig: string)

  /** What a poll hands back: no job, or the claimed job and a fresh signature over it. */
  datatype PollReply = NoJob | Claimed(job: Job, sig: string)

  /** What a result lookup hands back: the last ack body, or the not-found marker. */
  datatype Lookup = Found(result: AckReq) | NotFound
}
