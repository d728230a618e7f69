/** The check battery of the API-quality profile and its verdict. */
module Evaluator {
  import opened Types
  import opened Json

  const PROFILE_ID: string := "x402/oracle-qa/api-quality/v1"
  const FIELD_PREFIX: string := "required_field:"

  /** The SLA document; `V` stands for parsed JSON values. */
  datatype SlaDocument<V> = SlaDocument(
    version: nat,
    profileId: Option<string>,
    endpoint: string,
    httpMethod: string,
    responseSchema: Option<V>,
    requiredFields: seq<string>,
    maxLatencyMs: nat,
    minStatusCode: nat,
    maxStatusCode: nat,
    minBodyLength: Option<nat>)

  datatype DeliveryEvidence<V> = DeliveryEvidence(
    statusCode: nat,
    latencyMs: nat,
    responseBody: V,
    timestamp: int)

  datatype SchemaOutcome = SchemaValid | SchemaInvalid(errors: string) | SchemaBroken(error: string)

  /** The library functions on JSON values: keys of an object, serialized length in bytes, validation. */
  datatype JsonOps<!V> = JsonOps(
    keys: V -> Option<set<string>>,
    size: V -> nat,
    validate: (V, V) -> SchemaOutcome)

  // The battery as the evaluator builds it.

  predicate HasField<V>(ops: JsonOps<V>, body: V, field: string) {
    ops.keys(body).Some? && field in ops.keys(body).value
  }

  /** The first six kinds of check, in the order in which they are made; fields are checked one by one. */
  datatype Kind = Version | Profile | StatusCode | Latency | Field(field: string) | Schema | BodyLength

  datatype Check = Check(kind: Kind, passed: bool, detail: string)

  function Name(k: Kind): string {
    match k
    case Version => "version"
    case Profile => "profile_id"
    case StatusCode => "status_code"
    case Latency => "latency"
    case Field(f) => FIELD_PREFIX + f
    case Schema => "json_schema"
    case BodyLength => "body_length"
  }

  /** The reason each kind of check stands for. */
  function ReasonOf(k: Kind): ResolutionReason {
    match k
    case Version => GeneralRejection
    case Profile => GeneralRejection
    case StatusCode => StatusCodeOutOfRange
    case Latency => LatencyExceeded
    case Field(_) => RequiredFieldsMissing
    case Schema => SchemaValidationFailed
    case BodyLength => BodyTooShort
  }

  /** The code recovers the reason from the check's name. */
  function Dispatch(name: string): ResolutionReason {
    if name == "profile_id" then GeneralRejection
    else if name == "version" then GeneralRejection
    else if name == "status_code" then StatusCodeOutOfRange
    else if name == "latency" then LatencyExceeded
    else if name == "json_schema" then SchemaValidationFailed
    else if name == "body_length" then BodyTooShort
    else if FIELD_PREFIX <= name then RequiredFieldsMissing
    else GeneralRejection
  }

  /** String and typed dispatch agree for every check, whatever a required field is called. */
  lemma DispatchAgrees(k: Kind)
    ensures Dispatch(Name(k)) == ReasonOf(k)
  {
  }

  function VersionChecks<V>(strict: bool, sla: SlaDocument<V>): seq<Check> {
    if strict || sla.version != 1
    then [Check(Version, sla.version == 1,
                if sla.version == 1 then "1" else "expected 1, got " + Decimal(sla.version))]
    else []
  }

  function ProfileChecks<V>(strict: bool, sla: SlaDocument<V>): seq<Check> {
    match sla.profileId
    case Some(pid) =>
      [Check(Profile, pid == PROFILE_ID,
             if pid == PROFILE_ID then PROFILE_ID else "expected '" + PROFILE_ID + "', got '" + pid + "'")]
    case None =>
      if strict then [Check(Profile, false, "missing; expected '" + PROFILE_ID + "'")] else []
  }

  predicate StatusOk<V>(sla: SlaDocument<V>, e: DeliveryEvidence<V>) {
    sla.minStatusCode <= e.statusCode <= sla.maxStatusCode
  }

  function StatusCheck<V>(sla: SlaDocument<V>, e: DeliveryEvidence<V>): Check {
    Check(StatusCode, StatusOk(sla, e),
          "Got " + Decimal(e.statusCode) + " (expected " + Decimal(sla.minStatusCode) + "-"
          + Decimal(sla.maxStatusCode) + ")")
  }

  function LatencyCheck<V>(sla: SlaDocument<V>, e: DeliveryEvidence<V>): Check {
    Check(Latency, e.latencyMs <= sla.maxLatencyMs,
          Decimal(e.latencyMs) + "ms (max " + Decimal(sla.maxLatencyMs) + "ms)")
  }

  function FieldChecks<V>(ops: JsonOps<V>, fields: seq<string>, body: V): seq<Check> {
    if fields == [] then []
    else
      var last := |fields| - 1;
      var present := HasField(ops, body, fields[last]);
      FieldChecks(ops, fields[..last], body)
      + [Check(Field(fields[last]), present, if present then "present" else "missing")]
  }

  function SchemaChecks<V>(ops: JsonOps<V>, sla: SlaDocument<V>, e: DeliveryEvidence<V>): seq<Check> {
    match sla.responseSchema
    case None => []
    case Some(schema) =>
      match ops.validate(schema, e.responseBody)
      case SchemaValid => [Check(Schema, true, "valid")]
      case SchemaInvalid(errors) => [Check(Schema, false, "invalid: " + errors)]
      case SchemaBroken(error) => [Check(Schema, false, "schema compile error: " + error)]
  }

  function LengthChecks<V>(ops: JsonOps<V>, sla: SlaDocument<V>, e: DeliveryEvidence<V>): seq<Check> {
    match sla.minBodyLength
    case None => []
    case Some(min) =>
      var size := ops.size(e.responseBody);
      [Check(BodyLength, size >= min, Decimal(size) + " bytes (min " + Decimal(min) + ")")]
  }

  function Battery<V>(strict: bool, ops: JsonOps<V>, sla: SlaDocument<V>, e: DeliveryEvidence<V>): seq<Check> {
    VersionChecks(strict, sla) + ProfileChecks(strict, sla) + [StatusCheck(sla, e), LatencyCheck(sla, e)]
    + FieldChecks(ops, sla.requiredFields, e.responseBody) + SchemaChecks(ops, sla, e) + LengthChecks(ops, sla, e)
  }

  function Report(cs: seq<Check>): (rs: seq<CheckResult>)
    ensures |rs| == |cs|
    ensures forall i :: 0 <= i < |cs| ==> rs[i] == CheckResult(Name(cs[i].kind), cs[i].passed, cs[i].detail)
  {
    seq(|cs|, i requires 0 <= i < |cs| => CheckResult(Name(cs[i].kind), cs[i].passed, cs[i].detail))
  }

  // The verdict as an ordered conjunction.

  datatype Verdict = Verdict(approved: bool, reason: ResolutionReason)

  function Rejected(reason: ResolutionReason): Verdict {
    Verdict(false, reason)
  }

  /** Section 6 of the normative profile document, checks 1 to 5: predicates in order, the first that fails
      names the reason. */
  function NormativeChecks<V>(ops: JsonOps<V>, sla: SlaDocument<V>, e: DeliveryEvidence<V>): Verdict {
    if !(sla.minStatusCode <= e.statusCode <= sla.maxStatusCode) then Rejected(StatusCodeOutOfRange)
    else if e.latencyMs > sla.maxLatencyMs then Rejected(LatencyExceeded)
    else if exists f :: f in sla.requiredFields &&
                        !(ops.keys(e.responseBody).Some? && f in ops.keys(e.responseBody).value)
      then Rejected(RequiredFieldsMissing)
    else if sla.responseSchema.Some? && !ops.validate(sla.responseSchema.value, e.responseBody).SchemaValid?
      then Rejected(SchemaValidationFailed)
    else if sla.minBodyLength.Some? && ops.size(e.responseBody) < sla.minBodyLength.value then Rejected(BodyTooShort)
    else Verdict(true, NoReason)
  }

  /** The whole of section 6, with the profile id as check 0. */
  function Normative<V>(ops: JsonOps<V>, sla: SlaDocument<V>, e: DeliveryEvidence<V>): Verdict {
    if sla.profileId.Some? && sla.profileId.value != "x402/oracle-qa/api-quality/v1" then Rejected(GeneralRejection)
    else NormativeChecks(ops, sla, e)
  }

  /** What the evaluator decides for every document and both modes. */
  function Adjudicate<V>(strict: bool, ops: JsonOps<V>, sla: SlaDocument<V>, e: DeliveryEvidence<V>): Verdict {
    if sla.version != 1 then Rejected(GeneralRejection)
    else if strict && sla.profileId.None? then Rejected(GeneralRejection)
    else Normative(ops, sla, e)
  }

  /** The verdict of a battery: its first failure. */
  function FirstFailure(cs: seq<Check>): Verdict {
    if cs == [] then Verdict(true, NoReason)
    else if !cs[0].passed then Rejected(ReasonOf(cs[0].kind))
    else FirstFailure(cs[1..])
  }

  lemma {:induction false} FirstFailureConcat(a: seq<Check>, b: seq<Check>)
    ensures FirstFailure(a + b) == if FirstFailure(a).approved then FirstFailure(b) else FirstFailure(a)
    decreases |a|
  {
    if a == [] {
      assert a + b == b;
    } else {
      assert (a + b)[1..] == a[1..] + b;
      FirstFailureConcat(a[1..], b);
    }
  }

  /** A field is missing from the list if it is missing before the last one or is the last one. */
  lemma MissingField<V>(ops: JsonOps<V>, fields: seq<string>, body: V)
    requires fields != []
    ensures var last := |fields| - 1;
      (exists f :: f in fields && !(ops.keys(body).Some? && f in ops.keys(body).value)) <==>
      (exists f :: f in fields[..last] && !(ops.keys(body).Some? && f in ops.keys(body).value)) ||
      !(ops.keys(body).Some? && fields[last] in ops.keys(body).value)
  {
    var last := |fields| - 1;
    assert fields == fields[..last] + [fields[last]];
    if f :| f in fields[..last] && !(ops.keys(body).Some? && f in ops.keys(body).value) {
      assert f in fields;
    }
    if !(ops.keys(body).Some? && fields[last] in ops.keys(body).value) {
      assert fields[last] in fields;
    }
  }

  lemma {:induction false} FieldsVerdict<V>(ops: JsonOps<V>, fields: seq<string>, body: V)
    ensures FirstFailure(FieldChecks(ops, fields, body))
         == if exists f :: f in fields && !(ops.keys(body).Some? && f in ops.keys(body).value)
            then Rejected(RequiredFieldsMissing) else Verdict(true, NoReason)
    decreases |fields|
  {
    if fields != [] {
      var last := |fields| - 1;
      var before := FieldChecks(ops, fields[..last], body);
      var present := HasField(ops, body, fields[last]);
      var check := Check(Field(fields[last]), present, if present then "present" else "missing");
      FieldsVerdict(ops, fields[..last], body);
      MissingField(ops, fields, body);
      FirstFailureConcat(before, [check]);
      assert fields == fields[..last] + [fields[last]];
      assert [check][1..] == [];
    }
  }

  lemma FirstOfOne(a: Check)
    ensures FirstFailure([a]) == if !a.passed then Rejected(ReasonOf(a.kind)) else Verdict(true, NoReason)
  {
    assert [a][1..] == [];
  }

  lemma FirstOfTwo(a: Check, b: Check)
    ensures FirstFailure([a, b])
         == if !a.passed then Rejected(ReasonOf(a.kind))
            else if !b.passed then Rejected(ReasonOf(b.kind)) else Verdict(true, NoReason)
  {
    assert [a, b] == [a] + [b];
    FirstFailureConcat([a], [b]);
    FirstOfOne(a);
    FirstOfOne(b);
  }

  /** The first failure of the body checks is the normative verdict of checks 1 to 5. */
  lemma BodyVerdict<V>(ops: JsonOps<V>, sla: SlaDocument<V>, e: DeliveryEvidence<V>)
    ensures FirstFailure([StatusCheck(sla, e), LatencyCheck(sla, e)]
                         + FieldChecks(ops, sla.requiredFields, e.responseBody)
                         + SchemaChecks(ops, sla, e) + LengthChecks(ops, sla, e))
         == NormativeChecks(ops, sla, e)
  {
    var two := [StatusCheck(sla, e), LatencyCheck(sla, e)];
    var fields := FieldChecks(ops, sla.requiredFields, e.responseBody);
    FirstOfTwo(StatusCheck(sla, e), LatencyCheck(sla, e));
    FieldsVerdict(ops, sla.requiredFields, e.responseBody);
    FirstFailureConcat(two, fields);
    FirstFailureConcat(two + fields, SchemaChecks(ops, sla, e));
    FirstFailureConcat(two + fields + SchemaChecks(ops, sla, e), LengthChecks(ops, sla, e));
    if sla.responseSchema.Some? {
      FirstOfOne(SchemaChecks(ops, sla, e)[0]);
    }
    if sla.minBodyLength.Some? {
      FirstOfOne(LengthChecks(ops, sla, e)[0]);
    }
  }

  /** Version and profile id, the checks on the document itself. */
  lemma HeadVerdict<V>(strict: bool, sla: SlaDocument<V>)
    ensures FirstFailure(VersionChecks(strict, sla) + ProfileChecks(strict, sla))
         == if sla.version != 1 || (strict && sla.profileId.None?)
               || (sla.profileId.Some? && sla.profileId.value != PROFILE_ID)
            then Rejected(GeneralRejection) else Verdict(true, NoReason)
  {
    var v, p := VersionChecks(strict, sla), ProfileChecks(strict, sla);
    FirstFailureConcat(v, p);
    if v != [] {
      FirstOfOne(v[0]);
    }
    if p != [] {
      FirstOfOne(p[0]);
    }
  }

  /** The battery's first failure is the adjudication. */
  lemma BatteryVerdict<V>(strict: bool, ops: JsonOps<V>, sla: SlaDocument<V>, e: DeliveryEvidence<V>)
    ensures FirstFailure(Battery(strict, ops, sla, e)) == Adjudicate(strict, ops, sla, e)
  {
    var head := VersionChecks(strict, sla) + ProfileChecks(strict, sla);
    var body := [StatusCheck(sla, e), LatencyCheck(sla, e)] + FieldChecks(ops, sla.requiredFields, e.responseBody)
                + SchemaChecks(ops, sla, e) + LengthChecks(ops, sla, e);
    assert Battery(strict, ops, sla, e) == head + body;
    FirstFailureConcat(head, body);
    HeadVerdict(strict, sla);
    BodyVerdict(ops, sla, e);
  }

  /** For version-1 documents in the default mode the evaluator is the normative specification. */
  lemma EvaluatorIsNormative<V>(ops: JsonOps<V>, sla: SlaDocument<V>, e: DeliveryEvidence<V>)
    requires sla.version == 1
    ensures FirstFailure(Battery(false, ops, sla, e)) == Normative(ops, sla, e)
  {
    BatteryVerdict(false, ops, sla, e);
  }

  /** Strict mode changes the verdict exactly for version-1 documents without a profile id, which it rejects. */
  lemma StrictDiffersExactly<V>(ops: JsonOps<V>, sla: SlaDocument<V>, e: DeliveryEvidence<V>)
    ensures FirstFailure(Battery(true, ops, sla, e)) != FirstFailure(Battery(false, ops, sla, e))
       <==> sla.version == 1 && sla.profileId.None?
    ensures sla.version == 1 && sla.profileId.None? ==>
              FirstFailure(Battery(true, ops, sla, e)) == Rejected(GeneralRejection)
  {
    BatteryVerdict(true, ops, sla, e);
    BatteryVerdict(false, ops, sla, e);
  }

  /** No reason is given exactly when the delivery is approved. */
  lemma {:induction false} ReasonIffRejected(cs: seq<Check>)
    ensures FirstFailure(cs).approved <==> FirstFailure(cs).reason == NoReason
    ensures FirstFailure(cs).approved <==> forall i :: 0 <= i < |cs| ==> cs[i].passed
    decreases |cs|
  {
    if cs != [] {
      ReasonIffRejected(cs[1..]);
      if forall i :: 0 <= i < |cs| ==> cs[i].passed {
        forall i | 0 <= i < |cs[1..]|
          ensures cs[1..][i].passed
        {
          assert cs[1..][i] == cs[i + 1];
        }
      }
      if FirstFailure(cs).approved {
        forall i | 0 <= i < |cs|
          ensures cs[i].passed
        {
          assert i > 0 ==> cs[i] == cs[1..][i - 1];
        }
      }
    }
  }

  // What the report says, check by check.

  /** One entry per required field, in order. */
  lemma {:induction false} FieldCheckAt<V>(ops: JsonOps<V>, fields: seq<string>, body: V, i: nat)
    requires i < |fields|
    ensures |FieldChecks(ops, fields, body)| == |fields|
    ensures var present := ops.keys(body).Some? && fields[i] in ops.keys(body).value;
      && FieldChecks(ops, fields, body)[i].detail == (if present then "present" else "missing")
      && Says(FieldChecks(ops, fields, body)[i], "required_field:" + fields[i], present)
    decreases |fields|
  {
    var last := |fields| - 1;
    FieldCount(ops, fields[..last], body);
    if i < last {
      FieldCheckAt(ops, fields[..last], body, i);
    }
  }

  lemma {:induction false} FieldCount<V>(ops: JsonOps<V>, fields: seq<string>, body: V)
    ensures |FieldChecks(ops, fields, body)| == |fields|
    decreases |fields|
  {
    if fields != [] {
      FieldCount(ops, fields[..|fields| - 1], body);
    }
  }

  /** Under which name each part of the battery reports what. `DispatchAgrees` and `FirstFailure` fix the order. */
  lemma PartsReport<V>(strict: bool, ops: JsonOps<V>, sla: SlaDocument<V>, e: DeliveryEvidence<V>)
    ensures Says(StatusCheck(sla, e), "status_code", sla.minStatusCode <= e.statusCode <= sla.maxStatusCode)
    ensures Says(LatencyCheck(sla, e), "latency", e.latencyMs <= sla.maxLatencyMs)
    ensures |VersionChecks(strict, sla)| == if strict || sla.version != 1 then 1 else 0
    ensures forall c :: c in VersionChecks(strict, sla) ==> Says(c, "version", sla.version == 1)
    ensures |ProfileChecks(strict, sla)| == if strict || sla.profileId.Some? then 1 else 0
    ensures forall c :: c in ProfileChecks(strict, sla) ==> Says(c, "profile_id", sla.profileId == Some(PROFILE_ID))
    ensures |SchemaChecks(ops, sla, e)| == if sla.responseSchema.Some? then 1 else 0
    ensures forall c :: c in SchemaChecks(ops, sla, e) ==>
              Says(c, "json_schema", ops.validate(sla.responseSchema.value, e.responseBody).SchemaValid?)
    ensures |LengthChecks(ops, sla, e)| == if sla.minBodyLength.Some? then 1 else 0
    ensures forall c :: c in LengthChecks(ops, sla, e) ==>
              Says(c, "body_length", ops.size(e.responseBody) >= sla.minBodyLength.value)
  {
  }

  /** A check under its name in the report. */
  predicate Says(check: Check, name: string, passed: bool) {
    Name(check.kind) == name && check.passed == passed
  }

  // The evaluator as written.

  /** The string match over the first failing check, `approved` over all of them. */
  method Conclude(checks: seq<CheckResult>, ghost typed: seq<Check>) returns (approved: bool, reason: ResolutionReason)
    requires checks == Report(typed)
    ensures Verdict(approved, reason) == FirstFailure(typed)
  {
    var i := 0;
    while i < |checks|
      invariant 0 <= i <= |checks|
      invariant FirstFailure(typed) == FirstFailure(typed[i..])
    {
      if !checks[i].passed {
        DispatchAgrees(typed[i].kind);
        return false, Dispatch(checks[i].name);
      }
      i := i + 1;
    }
    return true, NoReason;
  }

  /** Version and profile id. */
  method CheckDocument<V>(strict: bool, sla: SlaDocument<V>) returns (checks: seq<CheckResult>)
    ensures checks == Report(VersionChecks(strict, sla) + ProfileChecks(strict, sla))
  {
    checks := [];
    var versionOk := sla.version == 1;
    if strict || !versionOk {
      checks := checks + [CheckResult("version", versionOk,
                                      if versionOk then "1" else "expected 1, got " + Decimal(sla.version))];
    }
    if sla.profileId.Some? {
      var pid := sla.profileId.value;
      var ok := pid == PROFILE_ID;
      checks := checks + [CheckResult("profile_id", ok,
                                      if ok then PROFILE_ID
                                      else "expected '" + PROFILE_ID + "', got '" + pid + "'")];
    } else if strict {
      checks := checks + [CheckResult("profile_id", false, "missing; expected '" + PROFILE_ID + "'")];
    }
  }

  /** Status code and latency. */
  method CheckResponse<V>(sla: SlaDocument<V>, e: DeliveryEvidence<V>, before: seq<CheckResult>, ghost typed: seq<Check>)
    returns (checks: seq<CheckResult>)
    requires before == Report(typed)
    ensures checks == Report(typed + [StatusCheck(sla, e), LatencyCheck(sla, e)])
  {
    var statusOk := e.statusCode >= sla.minStatusCode && e.statusCode <= sla.maxStatusCode;
    checks := before + [CheckResult("status_code", statusOk,
                                    "Got " + Decimal(e.statusCode) + " (expected " + Decimal(sla.minStatusCode) + "-"
                                    + Decimal(sla.maxStatusCode) + ")")];
    var latencyOk := e.latencyMs <= sla.maxLatencyMs;
    checks := checks + [CheckResult("latency", latencyOk,
                                    Decimal(e.latencyMs) + "ms (max " + Decimal(sla.maxLatencyMs) + "ms)")];
  }

  /** The loop over required fields, appending to the checks made so far. */
  method CheckFields<V>(ops: JsonOps<V>, fields: seq<string>, body: V, before: seq<CheckResult>, ghost typed: seq<Check>)
    returns (checks: seq<CheckResult>)
    requires before == Report(typed)
    ensures checks == Report(typed + FieldChecks(ops, fields, body))
  {
    checks := before;
    var keys := ops.keys(body);
    assert fields[..0] == [] && typed + [] == typed;
    for i := 0 to |fields|
      invariant checks == Report(typed + FieldChecks(ops, fields[..i], body))
    {
      var present := keys.Some? && fields[i] in keys.value;
      checks := checks + [CheckResult(FIELD_PREFIX + fields[i], present, if present then "present" else "missing")];
      assert fields[..i + 1][..i] == fields[..i];
    }
    assert fields[..|fields|] == fields;
  }

  /** Schema validation and minimum body length, when the document asks for them. */
  method CheckBody<V>(ops: JsonOps<V>, sla: SlaDocument<V>, e: DeliveryEvidence<V>, before: seq<CheckResult>,
                      ghost typed: seq<Check>)
    returns (checks: seq<CheckResult>)
    requires before == Report(typed)
    ensures checks == Report(typed + SchemaChecks(ops, sla, e) + LengthChecks(ops, sla, e))
  {
    checks := before;
    if sla.responseSchema.Some? {
      match ops.validate(sla.responseSchema.value, e.responseBody) {
        case SchemaValid => checks := checks + [CheckResult("json_schema", true, "valid")];
        case SchemaInvalid(errors) => checks := checks + [CheckResult("json_schema", false, "invalid: " + errors)];
        case SchemaBroken(error) =>
          checks := checks + [CheckResult("json_schema", false, "schema compile error: " + error)];
      }
    }
    if sla.minBodyLength.Some? {
      var size := ops.size(e.responseBody);
      var lengthOk := size >= sla.minBodyLength.value;
      checks := checks + [CheckResult("body_length", lengthOk,
                                      Decimal(size) + " bytes (min " + Decimal(sla.minBodyLength.value) + ")")];
    }
  }

  method Evaluate<V>(strict: bool, ops: JsonOps<V>, sla: SlaDocument<V>, e: DeliveryEvidence<V>)
    returns (r: EvaluationResult)
    ensures Verdict(r.approved, r.reason) == Adjudicate(strict, ops, sla, e)
    ensures r.checks == Report(Battery(strict, ops, sla, e))
  {
    ghost var typed := VersionChecks(strict, sla) + ProfileChecks(strict, sla);
    var checks := CheckDocument(strict, sla);
    checks := CheckResponse(sla, e, checks, typed);
    typed := typed + [StatusCheck(sla, e), LatencyCheck(sla, e)];
    checks := CheckFields(ops, sla.requiredFields, e.responseBody, checks, typed);
    typed := typed + FieldChecks(ops, sla.requiredFields, e.responseBody);
    checks := CheckBody(ops, sla, e, checks, typed);
    var approved, reason := Conclude(checks, Battery(strict, ops, sla, e));
    BatteryVerdict(strict, ops, sla, e);
    r := EvaluationResult(approved, reason, checks);
  }
}
