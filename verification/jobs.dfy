/**
 Queue entries: the frozen `Job` record and the JSON object it is stored as.

 Redis holds JSON text. `json.dumps` after `json.loads` is taken as lossless, so an entry is
 modelled by the JSON value it denotes, with the members of an object in their written order
 (two texts made by `to_json` are equal exactly when these values are).
 An ISO-8601 timestamp text is a `Stamp` of microseconds since the epoch.
 */
module Jobs {
  import opened Clock
  import opened Wrappers

  datatype Json =
    | Null
    | Number(n: int)
    | Text(text: string)
    | Stamp(at: Time)
    | Object(members: seq<(string, Json)>)

  const MAX_JOB_ERROR_LENGTH := 500

  datatype Job = Job(
    id: string,
    kind: string,
    payload: Json,
    attempts: int,
    requestId: Option<string>,
    lastError: Option<string>,
    failedAt: Option<Time>,
    startedAt: Option<Time>)
  {
    function WithProcessingStartedAt(at: Time): Job {
      this.(startedAt := Some(at))
    }

    function WithoutProcessingStartedAt(): Job {
      this.(startedAt := None)
    }

    function WithNextAttempt(): Job {
      this.(attempts := attempts + 1, startedAt := None)
    }

    function WithError(message: string): Job {
      this.(lastError := Some(Truncate(message)))
    }

    function WithFailedAt(at: Time): Job {
      this.(failedAt := Some(at))
    }
  }

  function Truncate(message: string): string {
    if |message| <= MAX_JOB_ERROR_LENGTH then message else message[..MAX_JOB_ERROR_LENGTH]
  }

  // ---- to_json ----

  function OptionalText(key: string, value: Option<string>): seq<(string, Json)> {
    match value
    case None => []
    case Some(text) => [(key, Text(text))]
  }

  function OptionalStamp(key: string, value: Option<Time>): seq<(string, Json)> {
    match value
    case None => []
    case Some(at) => [(key, Stamp(at))]
  }

  function ToJson(job: Job): Json {
    Object(
      [("id", Text(job.id)), ("type", Text(job.kind)), ("payload", job.payload), ("attempts", Number(job.attempts))]
      + OptionalText("request_id", job.requestId)
      + OptionalText("last_error", job.lastError)
      + OptionalStamp("failed_at", job.failedAt)
      + OptionalStamp("processing_started_at", job.startedAt))
  }

  // ---- from_json ----

  /** Member lookup; a repeated key takes its last value, as in a Python dict. */
  function Get(members: seq<(string, Json)>, key: string): Option<Json> {
    if members == [] then
      None
    else
      var last := members[|members| - 1];
      if last.0 == key then Some(last.1) else Get(members[..|members| - 1], key)
  }

  function ReadText(value: Option<Json>): Result<Option<string>, string> {
    match value
    case None => Success(None)
    case Some(Null) => Success(None)
    case Some(Text(text)) => Success(Some(text))
    case Some(_) => Failure("not a text")
  }

  function ReadStamp(value: Option<Json>): Result<Option<Time>, string> {
    match value
    case None => Success(None)
    case Some(Null) => Success(None)
    case Some(Stamp(at)) => Success(Some(at))
    case Some(_) => Failure("not a timestamp")
  }

  function ReadAttempts(value: Option<Json>): Result<int, string> {
    match value
    case None => Success(0)
    case Some(Number(n)) => Success(n)
    case Some(_) => Failure("not a number")
  }

  function FromJson(raw: Json): Result<Job, string> {
    if !raw.Object? then
      Failure("not an object")
    else
      var id := Get(raw.members, "id");
      var kind := Get(raw.members, "type");
      var payload := Get(raw.members, "payload");
      var attempts := ReadAttempts(Get(raw.members, "attempts"));
      var requestId := ReadText(Get(raw.members, "request_id"));
      var lastError := ReadText(Get(raw.members, "last_error"));
      var failedAt := ReadStamp(Get(raw.members, "failed_at"));
      var startedAt := ReadStamp(Get(raw.members, "processing_started_at"));
      if id.None? || !id.value.Text? then Failure("id")
      else if kind.None? || !kind.value.Text? then Failure("type")
      else if payload.None? then Failure("payload")
      else if attempts.Failure? then Failure("attempts")
      else if requestId.Failure? then Failure("request_id")
      else if lastError.Failure? then Failure("last_error")
      else if failedAt.Failure? then Failure("failed_at")
      else if startedAt.Failure? then Failure("processing_started_at")
      else
        Success(Job(id.value.text, kind.value.text, payload.value, attempts.value,
                    requestId.value, lastError.value, failedAt.value, startedAt.value))
  }

  /** The id an entry carries; entries that do not parse carry none. */
  function IdOf(raw: Json): Option<string> {
    match FromJson(raw)
    case Success(job) => Some(job.id)
    case Failure(_) => None
  }

  // ---- the codec is lossless ----

  lemma {:induction false} GetOfConcat(front: seq<(string, Json)>, back: seq<(string, Json)>, key: string)
    ensures Get(front + back, key) == if Get(back, key).Some? then Get(back, key) else Get(front, key)
    decreases |back|
  {
    if back == [] {
      assert front + back == front;
    } else {
      var n := |back| - 1;
      assert (front + back)[..|front + back| - 1] == front + back[..n];
      GetOfConcat(front, back[..n], key);
    }
  }

  lemma GetOptional(job: Job, key: string)
    ensures Get(OptionalText("request_id", job.requestId), key)
         == if key == "request_id" && job.requestId.Some? then Some(Text(job.requestId.value)) else None
    ensures Get(OptionalText("last_error", job.lastError), key)
         == if key == "last_error" && job.lastError.Some? then Some(Text(job.lastError.value)) else None
    ensures Get(OptionalStamp("failed_at", job.failedAt), key)
         == if key == "failed_at" && job.failedAt.Some? then Some(Stamp(job.failedAt.value)) else None
    ensures Get(OptionalStamp("processing_started_at", job.startedAt), key)
         == if key == "processing_started_at" && job.startedAt.Some? then Some(Stamp(job.startedAt.value)) else None
  {
  }

  /** What a lookup finds in the stored object: the optional members only when they are present. */
  lemma StoredMember(job: Job, key: string)
    ensures ToJson(job).Object?
    ensures Get(ToJson(job).members, key) ==
            if key == "id" then Some(Text(job.id))
            else if key == "type" then Some(Text(job.kind))
            else if key == "payload" then Some(job.payload)
            else if key == "attempts" then Some(Number(job.attempts))
            else if key == "request_id" && job.requestId.Some? then Some(Text(job.requestId.value))
            else if key == "last_error" && job.lastError.Some? then Some(Text(job.lastError.value))
            else if key == "failed_at" && job.failedAt.Some? then Some(Stamp(job.failedAt.value))
            else if key == "processing_started_at" && job.startedAt.Some? then Some(Stamp(job.startedAt.value))
            else None
  {
    var fixed := [("id", Text(job.id)), ("type", Text(job.kind)),
                  ("payload", job.payload), ("attempts", Number(job.attempts))];
    var r := OptionalText("request_id", job.requestId);
    var e := OptionalText("last_error", job.lastError);
    var f := OptionalStamp("failed_at", job.failedAt);
    var p := OptionalStamp("processing_started_at", job.startedAt);
    GetOfConcat(fixed + r + e + f, p, key);
    GetOfConcat(fixed + r + e, f, key);
    GetOfConcat(fixed + r, e, key);
    GetOfConcat(fixed, r, key);
    GetOptional(job, key);
    FixedMembers(fixed, job, key);
  }

  /** Decoding what was encoded gives the job back: omitted `None` fields come back as `None`. */
  lemma RoundTrip(job: Job)
    ensures FromJson(ToJson(job)) == Success(job)
  {
    hide ToJson, Get;
    StoredMember(job, "id");
    StoredMember(job, "type");
    StoredMember(job, "payload");
    StoredMember(job, "attempts");
    StoredMember(job, "request_id");
    StoredMember(job, "last_error");
    StoredMember(job, "failed_at");
    StoredMember(job, "processing_started_at");
  }

  lemma FixedMembers(fixed: seq<(string, Json)>, job: Job, key: string)
    requires fixed == [("id", Text(job.id)), ("type", Text(job.kind)),
                       ("payload", job.payload), ("attempts", Number(job.attempts))]
    ensures Get(fixed, key) ==
            if key == "id" then Some(Text(job.id))
            else if key == "type" then Some(Text(job.kind))
            else if key == "payload" then Some(job.payload)
            else if key == "attempts" then Some(Number(job.attempts))
            else None
  {
    hide Get;
    var a, b := [("id", Text(job.id))], [("type", Text(job.kind))];
    var c, d := [("payload", job.payload)], [("attempts", Number(job.attempts))];
    assert fixed == a + b + c + d;
    GetOfConcat(a + b + c, d, key);
    GetOfConcat(a + b, c, key);
    GetOfConcat(a, b, key);
    GetOfOne(a[0], key);
    GetOfOne(b[0], key);
    GetOfOne(c[0], key);
    GetOfOne(d[0], key);
  }

  lemma GetOfOne(member: (string, Json), key: string)
    ensures Get([member], key) == if member.0 == key then Some(member.1) else None
  {
    assert [member][..0] == [];
  }

  /** An entry with the three required members only reads as a job with no attempts and nothing else set. */
  lemma RequiredMembers(id: string, kind: string, payload: Json)
    ensures FromJson(Object([("id", Text(id)), ("type", Text(kind)), ("payload", payload)]))
         == Success(Job(id, kind, payload, 0, None, None, None, None))
  {
    hide Get;
    var a, b, c := [("id", Text(id))], [("type", Text(kind))], [("payload", payload)];
    assert [("id", Text(id)), ("type", Text(kind)), ("payload", payload)] == a + b + c;
    forall key
      ensures Get(a + b + c, key) == if key == "payload" then Some(payload) else if key == "type" then Some(Text(kind))
                                     else if key == "id" then Some(Text(id)) else None
    {
      GetOfConcat(a + b, c, key);
      GetOfConcat(a, b, key);
      GetOfOne(a[0], key);
      GetOfOne(b[0], key);
      GetOfOne(c[0], key);
    }
  }

  predicate NoneOrNull(value: Option<Json>) {
    value.None? || value.value.Null?
  }

  /** An entry without an id, a type or a payload cannot be read, nor one whose members have the wrong types. */
  lemma UnreadableIff(raw: Json)
    ensures FromJson(raw).Failure? <==>
              || !raw.Object?
              || Get(raw.members, "payload").None?
              || !(Get(raw.members, "id").Some? && Get(raw.members, "id").value.Text?)
              || !(Get(raw.members, "type").Some? && Get(raw.members, "type").value.Text?)
              || !(Get(raw.members, "attempts").None? || Get(raw.members, "attempts").value.Number?)
              || !(NoneOrNull(Get(raw.members, "request_id")) || Get(raw.members, "request_id").value.Text?)
              || !(NoneOrNull(Get(raw.members, "last_error")) || Get(raw.members, "last_error").value.Text?)
              || !(NoneOrNull(Get(raw.members, "failed_at")) || Get(raw.members, "failed_at").value.Stamp?)
              || !(NoneOrNull(Get(raw.members, "processing_started_at")) || Get(raw.members, "processing_started_at").value.Stamp?)
  {
    hide Get;
  }

  /** Two jobs stored as the same entry are the same job, so removal by exact match cannot confuse jobs. */
  lemma ToJsonInjective(a: Job, b: Job)
    requires ToJson(a) == ToJson(b)
    ensures a == b
  {
    hide FromJson, ToJson;
    RoundTrip(a);
    RoundTrip(b);
  }
}
