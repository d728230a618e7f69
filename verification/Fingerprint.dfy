/** The resolution fingerprint: the JSON text behind `resolution_hash`. */
module Fingerprint {
  import opened Types
  import opened Json
  import opened Evaluator

  function Hex(b: Bytes): string {
    if b == [] then "" else [HEX[b[0] as int / 16], HEX[b[0] as int % 16]] + Hex(b[1..])
  }

  function CheckJson(c: CheckResult): Value {
    Object([Member("detail", String(c.detail)), Member("name", String(c.name)), Member("passed", Bool(c.passed))])
  }

  function ChecksJson(cs: seq<CheckResult>): (vs: seq<Value>)
    ensures |vs| == |cs| && forall i :: 0 <= i < |cs| ==> vs[i] == CheckJson(cs[i])
  {
    seq(|cs|, i requires 0 <= i < |cs| => CheckJson(cs[i]))
  }

  function OptionJson(s: Option<string>): Value {
    if s.Some? then String(s.value) else Null
  }

  /** The hashed document; members are in key order, as `serde_json` keeps maps sorted. `code` is the
      numbering of resolution reasons. */
  function Document(code: ResolutionReason -> nat, job: EvaluationJob, version: nat, profileId: Option<string>,
                    r: EvaluationResult): Value
  {
    Object([
      Member("approved", Bool(r.approved)),
      Member("checks", Array(ChecksJson(r.checks))),
      Member("deliveryHash", String(Hex(job.deliveryHash))),
      Member("paymentPubkey", String(job.pubkey.text)),
      Member("paymentUid", String(Hex(job.uid.bytes))),
      Member("profile", String("x402/oracle-qa/resolution/v1")),
      Member("resolutionReason", Number(code(r.reason))),
      Member("slaHash", String(Hex(job.slaHash))),
      Member("slaProfileId", OptionJson(profileId)),
      Member("slaVersion", Number(version))])
  }

  function Preimage<V>(code: ResolutionReason -> nat, job: EvaluationJob, sla: SlaDocument<V>, r: EvaluationResult)
    : string
  {
    Print(Document(code, job, sla.version, sla.profileId, r))
  }

  /** `digest` is SHA-256 over the UTF-8 bytes of the text. */
  function ResolutionHash<V>(digest: string -> Bytes32, code: ResolutionReason -> nat, job: EvaluationJob,
                             sla: SlaDocument<V>, r: EvaluationResult): Bytes32
  {
    digest(Preimage(code, job, sla, r))
  }

  lemma HexInjective(a: Bytes, b: Bytes)
    requires Hex(a) == Hex(b)
    ensures a == b
  {
    HexRoundTrips(a);
    HexRoundTrips(b);
  }

  lemma ChecksInjective(a: seq<CheckResult>, b: seq<CheckResult>)
    requires ChecksJson(a) == ChecksJson(b)
    ensures a == b
  {
    var va, vb := ChecksJson(a), ChecksJson(b);
    forall i | 0 <= i < |a|
      ensures a[i] == b[i]
    {
      assert va[i] == vb[i];
      assert CheckJson(a[i]).members == CheckJson(b[i]).members;
      assert forall k :: 0 <= k < 3 ==> CheckJson(a[i]).members[k] == CheckJson(b[i]).members[k];
    }
  }

  /** Two inputs with the same preimage agree on everything the fingerprint is meant to bind, whatever
      strings the checks contain. */
  lemma PreimageBindsEverything<V>(code: ResolutionReason -> nat, jobA: EvaluationJob, slaA: SlaDocument<V>, a: EvaluationResult,
                                   jobB: EvaluationJob, slaB: SlaDocument<V>, b: EvaluationResult)
    requires Preimage(code, jobA, slaA, a) == Preimage(code, jobB, slaB, b)
    ensures jobA.uid == jobB.uid && jobA.pubkey == jobB.pubkey
    ensures jobA.slaHash == jobB.slaHash && jobA.deliveryHash == jobB.deliveryHash
    ensures slaA.version == slaB.version && slaA.profileId == slaB.profileId
    ensures a.approved == b.approved && code(a.reason) == code(b.reason) && a.checks == b.checks
  {
    var x, y := Document(code, jobA, slaA.version, slaA.profileId, a), Document(code, jobB, slaB.version, slaB.profileId, b);
    PrintInjective(x, y);
    assert forall k :: 0 <= k < 10 ==> x.members[k].value == y.members[k].value;
    assert x.members[1].value == y.members[1].value;
    ChecksInjective(a.checks, b.checks);
    HexInjective(jobA.deliveryHash, jobB.deliveryHash);
    HexInjective(jobA.uid.bytes, jobB.uid.bytes);
    HexInjective(jobA.slaHash, jobB.slaHash);
    assert x.members[8].value == y.members[8].value;
  }

  /** Equal resolution hashes bind them too, or else the two preimages are a collision of the digest. */
  lemma HashBindsEverything<V>(digest: string -> Bytes32, code: ResolutionReason -> nat,
                               jobA: EvaluationJob, slaA: SlaDocument<V>, a: EvaluationResult,
                               jobB: EvaluationJob, slaB: SlaDocument<V>, b: EvaluationResult)
    requires forall q, r :: code(q) == code(r) ==> q == r
    requires ResolutionHash(digest, code, jobA, slaA, a) == ResolutionHash(digest, code, jobB, slaB, b)
    ensures var s, t := Preimage(code, jobA, slaA, a), Preimage(code, jobB, slaB, b);
      || (s != t && digest(s) == digest(t))
      || (a == b && jobA.uid == jobB.uid && jobA.pubkey == jobB.pubkey && jobA.slaHash == jobB.slaHash
          && jobA.deliveryHash == jobB.deliveryHash && slaA.version == slaB.version && slaA.profileId == slaB.profileId)
  {
    if Preimage(code, jobA, slaA, a) == Preimage(code, jobB, slaB, b) {
      PreimageBindsEverything(code, jobA, slaA, a, jobB, slaB, b);
    }
  }

  // What a reader of the text finds.

  /** The object has this value under this key. */
  predicate Holds(members: seq<Member>, key: string, value: Value) {
    Member(key, value) in members
  }

  /** Each key occurs once, so what is under it is unambiguous. */
  ghost predicate DistinctKeys(members: seq<Member>) {
    forall i, j :: 0 <= i < j < |members| ==> members[i].key != members[j].key
  }

  function Unhex(s: string): Option<Bytes> {
    if s == "" then Some([])
    else if |s| < 2 || HexDigit(s[0]).None? || HexDigit(s[1]).None? then None
    else
      match Unhex(s[2..])
      case None => None
      case Some(rest) => Some([(16 * HexDigit(s[0]).value + HexDigit(s[1]).value) as Byte] + rest)
  }

  /** Hex text, high digit first, is read back to the bytes it stands for. */
  lemma {:induction false} HexRoundTrips(b: Bytes)
    ensures Unhex(Hex(b)) == Some(b)
    decreases |b|
  {
    if b != [] {
      HexRoundTrips(b[1..]);
      HexRoundTrip(b[0] as int / 16);
      HexRoundTrip(b[0] as int % 16);
      UnhexStep(HEX[b[0] as int / 16], HEX[b[0] as int % 16], Hex(b[1..]), b[1..]);
      assert [b[0]] + b[1..] == b;
    }
  }

  lemma UnhexStep(high: char, low: char, more: string, rest: Bytes)
    requires HexDigit(high).Some? && HexDigit(low).Some? && Unhex(more) == Some(rest)
    ensures Unhex([high, low] + more) == Some([(16 * HexDigit(high).value + HexDigit(low).value) as Byte] + rest)
  {
    assert ([high, low] + more)[2..] == more;
  }

  /** The object describes this check. */
  ghost predicate DescribesCheck(item: Value, c: CheckResult) {
    && item.Object? && DistinctKeys(item.members)
    && Holds(item.members, "name", String(c.name)) && Holds(item.members, "passed", Bool(c.passed))
    && Holds(item.members, "detail", String(c.detail))
  }

  lemma CheckDescribed(c: CheckResult)
    ensures DescribesCheck(CheckJson(c), c)
  {
    var members := CheckJson(c).members;
    assert members[0] == Member("detail", String(c.detail));
    assert members[1] == Member("name", String(c.name));
    assert members[2] == Member("passed", Bool(c.passed));
    assert members[0].key[0] == 'd' && members[1].key[0] == 'n' && members[2].key[0] == 'p';
  }

  lemma DocumentKeysDistinct(code: ResolutionReason -> nat, job: EvaluationJob, version: nat, profileId: Option<string>,
                             r: EvaluationResult)
    ensures DistinctKeys(Document(code, job, version, profileId, r).members)
  {
    var keys := ["approved", "checks", "deliveryHash", "paymentPubkey", "paymentUid", "profile", "resolutionReason",
                 "slaHash", "slaProfileId", "slaVersion"];
    var members := Document(code, job, version, profileId, r).members;
    assert forall i :: 0 <= i < 10 ==> members[i].key == keys[i];
    assert |keys[0]| == 8 && |keys[1]| == 6 && |keys[2]| == 12 && |keys[3]| == 13 && |keys[4]| == 10;
    assert |keys[5]| == 7 && |keys[6]| == 16 && |keys[7]| == 7 && |keys[8]| == 12 && |keys[9]| == 10;
    assert keys[2][0] == 'd' && keys[8][0] == 's' && keys[4][0] == 'p' && keys[9][0] == 's';
    assert keys[5][0] == 'p' && keys[7][0] == 's';
  }

  /** What the document says about the verdict, under which names. */
  ghost predicate DescribesVerdict(members: seq<Member>, code: ResolutionReason -> nat, r: EvaluationResult) {
    && Holds(members, "approved", Bool(r.approved))
    && Holds(members, "resolutionReason", Number(code(r.reason)))
    && exists items :: Holds(members, "checks", Array(items)) && |items| == |r.checks|
                       && forall i :: 0 <= i < |items| ==> DescribesCheck(items[i], r.checks[i])
  }

  /** What it says about the payment and its commitments. */
  ghost predicate DescribesJob(members: seq<Member>, job: EvaluationJob) {
    && Holds(members, "slaHash", String(Hex(job.slaHash)))
    && Holds(members, "deliveryHash", String(Hex(job.deliveryHash)))
    && Holds(members, "paymentUid", String(Hex(job.uid.bytes)))
    && Holds(members, "paymentPubkey", String(job.pubkey.text))
  }

  /** What it says about the profile. */
  ghost predicate DescribesProfile<V>(members: seq<Member>, sla: SlaDocument<V>) {
    && Holds(members, "slaVersion", Number(sla.version))
    && Holds(members, "slaProfileId", if sla.profileId.Some? then String(sla.profileId.value) else Null)
    && Holds(members, "profile", String("x402/oracle-qa/resolution/v1"))
  }

  lemma Held(members: seq<Member>, i: nat, key: string, value: Value)
    requires i < |members| && members[i] == Member(key, value)
    ensures Holds(members, key, value)
  {
  }

  lemma ChecksDescribed(members: seq<Member>, i: nat, checks: seq<CheckResult>)
    requires i < |members| && members[i] == Member("checks", Array(ChecksJson(checks)))
    ensures exists items :: Holds(members, "checks", Array(items)) && |items| == |checks|
                            && forall k :: 0 <= k < |items| ==> DescribesCheck(items[k], checks[k])
  {
    var items := ChecksJson(checks);
    forall k | 0 <= k < |items|
      ensures DescribesCheck(items[k], checks[k])
    {
      CheckDescribed(checks[k]);
    }
    assert Holds(members, "checks", Array(items));
  }

  lemma DocumentDescribesVerdict<V>(code: ResolutionReason -> nat, job: EvaluationJob, sla: SlaDocument<V>,
                                    r: EvaluationResult)
    ensures DescribesVerdict(Document(code, job, sla.version, sla.profileId, r).members, code, r)
  {
    var members := Document(code, job, sla.version, sla.profileId, r).members;
    Held(members, 0, "approved", Bool(r.approved));
    Held(members, 6, "resolutionReason", Number(code(r.reason)));
    ChecksDescribed(members, 1, r.checks);
  }

  lemma DocumentDescribesJob<V>(code: ResolutionReason -> nat, job: EvaluationJob, sla: SlaDocument<V>,
                                r: EvaluationResult)
    ensures DescribesJob(Document(code, job, sla.version, sla.profileId, r).members, job)
  {
    var members := Document(code, job, sla.version, sla.profileId, r).members;
    Held(members, 7, "slaHash", String(Hex(job.slaHash)));
    Held(members, 2, "deliveryHash", String(Hex(job.deliveryHash)));
    Held(members, 4, "paymentUid", String(Hex(job.uid.bytes)));
    Held(members, 3, "paymentPubkey", String(job.pubkey.text));
  }

  lemma DocumentDescribesProfile<V>(code: ResolutionReason -> nat, job: EvaluationJob, sla: SlaDocument<V>,
                                    r: EvaluationResult)
    ensures DescribesProfile(Document(code, job, sla.version, sla.profileId, r).members, sla)
  {
    var members := Document(code, job, sla.version, sla.profileId, r).members;
    Held(members, 9, "slaVersion", Number(sla.version));
    Held(members, 8, "slaProfileId", OptionJson(sla.profileId));
    Held(members, 5, "profile", String("x402/oracle-qa/resolution/v1"));
  }

  /** Reading the hashed text back as JSON gives one object with distinct keys, which names the approval, the
      reason code and the ordered checks, the payment, both hashes, and the document's version and profile id.
      `HexRoundTrips` reads the hex texts back. */
  lemma PreimageReadsBack<V>(code: ResolutionReason -> nat, job: EvaluationJob, sla: SlaDocument<V>, r: EvaluationResult)
    returns (members: seq<Member>)
    ensures Parse(Preimage(code, job, sla, r)) == Some((Object(members), ""))
    ensures DistinctKeys(members)
    ensures DescribesVerdict(members, code, r) && DescribesJob(members, job) && DescribesProfile(members, sla)
  {
    var doc := Document(code, job, sla.version, sla.profileId, r);
    members := doc.members;
    RoundTrip(doc, "");
    assert Print(doc) + "" == Print(doc);
    DocumentKeysDistinct(code, job, sla.version, sla.profileId, r);
    DocumentDescribesVerdict(code, job, sla, r);
    DocumentDescribesJob(code, job, sla, r);
    DocumentDescribesProfile(code, job, sla, r);
  }
}
