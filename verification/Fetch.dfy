/** Evidence retrieval: registry mirrors in order, retries with exponential backoff, hash check before parsing. */
module Fetch {
  import opened Types

  const U64_MODULUS: nat := 0x1_0000_0000_0000_0000

  /** The answer to one GET: a status with a body that may fail to arrive, or no response at all. */
  datatype Response = Answer(status: nat, body: Option<Bytes>) | SendFailed

  /** A mirror, with its answers to the first, second, ... request of a fetch. */
  datatype Mirror = Mirror(url: string, script: nat -> Response)

  /** `evidence_fetch_max_retries` and `evidence_fetch_retry_base_ms`. */
  datatype Policy = Policy(retries: nat, baseMs: nat)

  datatype LastError = NothingTried | StatusReturned(status: nat, url: string) | BodyUnreadable | RequestFailed

  datatype FetchError =
    | InvalidAuthHeader
    | HashMismatch(got: Bytes32)
    | ParseFailed
    | Exhausted(last: LastError)

  /** The library functions a fetch relies on. */
  datatype Codec<D> = Codec(sha256: Bytes -> Bytes32, parse: Bytes -> Option<D>)

  predicate IsSuccess(status: nat) {
    200 <= status < 300
  }

  predicate IsServerError(status: nat) {
    500 <= status < 600
  }

  function Pow2(n: nat): (p: nat)
    ensures p > 0
  {
    if n == 0 then 1 else 2 * Pow2(n - 1)
  }

  /** `base * (1 << attempt)` on u64 without overflow checks: the shift amount and the product wrap. */
  function Backoff(base: nat, attempt: nat): nat {
    (base * Pow2(attempt % 64)) % U64_MODULUS
  }

  /** The first readable 2xx body decides, whatever it says. */
  function Judge<D>(codec: Codec<D>, hash: Bytes32, raw: Bytes): Result<D, FetchError> {
    if codec.sha256(raw) != hash then Failure(HashMismatch(codec.sha256(raw)))
    else
      match codec.parse(raw)
      case Some(d) => Success(d)
      case None => Failure(ParseFailed)
  }

  /** A body is parsed only if its hash is the one asked for, and then it is the document or a parse error. */
  lemma JudgeMeaning<D>(codec: Codec<D>, hash: Bytes32, raw: Bytes)
    ensures var r := Judge(codec, hash, raw);
      && (r.Success? <==> codec.sha256(raw) == hash && codec.parse(raw).Some?)
      && (r.Success? ==> codec.parse(raw) == Some(r.value))
      && (r == Failure(ParseFailed) <==> codec.sha256(raw) == hash && codec.parse(raw).None?)
      && (codec.sha256(raw) != hash ==> r == Failure(HashMismatch(codec.sha256(raw))))
  {
  }

  /** What a response means for the loop. */
  datatype Reaction = Decide(raw: Bytes) | AbandonMirror | UseUpAttempt

  function React(r: Response): Reaction {
    match r
    case SendFailed => UseUpAttempt
    case Answer(status, body) =>
      if IsSuccess(status) then (match body case Some(raw) => Decide(raw) case None => UseUpAttempt)
      else if IsServerError(status) then UseUpAttempt
      else AbandonMirror
  }

  /** What a stretch of the loop yields: the deciding body, if any, and its cost. */
  datatype Yield = Yield(raw: Option<Bytes>, requests: nat, sleptMs: nat)

  function TryMirror(script: nat -> Response, policy: Policy, attempt: nat): Yield
    decreases policy.retries - attempt
  {
    if attempt >= policy.retries then Yield(None, 0, 0)
    else
      match React(script(attempt))
      case Decide(raw) => Yield(Some(raw), 1, 0)
      case AbandonMirror => Yield(None, 1, 0)
      case UseUpAttempt =>
        var rest := TryMirror(script, policy, attempt + 1);
        var pause := if attempt + 1 < policy.retries then Backoff(policy.baseMs, attempt) else 0;
        Yield(rest.raw, 1 + rest.requests, pause + rest.sleptMs)
  }

  /** The first decisive response, mirror by mirror, attempt by attempt. */
  function TryMirrors(mirrors: seq<Mirror>, policy: Policy): Yield
    decreases |mirrors|
  {
    if mirrors == [] then Yield(None, 0, 0)
    else
      var first := TryMirror(mirrors[0].script, policy, 0);
      if first.raw.Some? then first
      else
        var rest := TryMirrors(mirrors[1..], policy);
        Yield(rest.raw, first.requests + rest.requests, first.sleptMs + rest.sleptMs)
  }

  function Add(a: Yield, b: Yield): Yield {
    Yield(b.raw, a.requests + b.requests, a.sleptMs + b.sleptMs)
  }

  /** `saturating_add` of the u64 failure counter. */
  function CountFailure(failures: nat): nat {
    if failures + 1 < U64_MODULUS then failures + 1 else U64_MODULUS - 1
  }

  lemma NextMirror(mirrors: seq<Mirror>, policy: Policy, i: nat)
    requires i < |mirrors|
    ensures var first := TryMirror(mirrors[i].script, policy, 0);
      TryMirrors(mirrors[i..], policy)
      == if first.raw.Some? then first else Add(first, TryMirrors(mirrors[i + 1..], policy))
  {
    assert mirrors[i..][1..] == mirrors[i + 1..];
  }

  /** The inner loop as written: the attempts on one mirror. `decided` is what the whole fetch returns. */
  method AskMirror<D>(codec: Codec<D>, mirror: Mirror, policy: Policy, hash: Bytes32, last0: LastError)
    returns (decided: Option<Result<D, FetchError>>, requests: nat, sleptMs: nat, last: LastError)
    ensures var y := TryMirror(mirror.script, policy, 0);
      && requests == y.requests && sleptMs == y.sleptMs
      && decided == match y.raw case Some(raw) => Some(Judge(codec, hash, raw)) case None => None
  {
    requests, sleptMs, last := 0, 0, last0;
    var attempt := 0;
    while attempt < policy.retries
      invariant 0 <= attempt <= policy.retries
      invariant TryMirror(mirror.script, policy, 0)
             == Add(Yield(None, requests, sleptMs), TryMirror(mirror.script, policy, attempt))
    {
      var response := mirror.script(attempt);
      requests := requests + 1;
      if response.Answer? {
        if !IsSuccess(response.status) {
          last := StatusReturned(response.status, mirror.url);
          if IsServerError(response.status) && attempt + 1 < policy.retries {
            sleptMs := sleptMs + Backoff(policy.baseMs, attempt);
            attempt := attempt + 1;
            continue;
          }
          break;
        }
        if response.body.Some? {
          var raw := response.body.value;
          var computed := codec.sha256(raw);
          if computed != hash {
            return Some(Failure(HashMismatch(computed))), requests, sleptMs, last;
          }
          var parsed := codec.parse(raw);
          if parsed.None? {
            return Some(Failure(ParseFailed)), requests, sleptMs, last;
          }
          return Some(Success(parsed.value)), requests, sleptMs, last;
        } else {
          last := BodyUnreadable;
        }
      } else {
        last := RequestFailed;
      }
      if attempt + 1 < policy.retries {
        sleptMs := sleptMs + Backoff(policy.baseMs, attempt);
      }
      attempt := attempt + 1;
    }
    decided := None;
  }

  /** The outer loop as written. `failures` is the process-wide counter of exhausted fetches. */
  method FetchEvidence<D>(codec: Codec<D>, mirrors: seq<Mirror>, policy: Policy, authHeaderValid: bool, hash: Bytes32,
                          failures: nat)
    returns (r: Result<D, FetchError>, requests: nat, sleptMs: nat, failures': nat)
    requires failures < U64_MODULUS
    ensures !authHeaderValid ==> r == Failure(InvalidAuthHeader) && requests == sleptMs == 0 && failures' == failures
    ensures authHeaderValid ==>
      var y := TryMirrors(mirrors, policy);
      && requests == y.requests && sleptMs == y.sleptMs
      && (y.raw.Some? ==> r == Judge(codec, hash, y.raw.value) && failures' == failures)
      && (y.raw.None? ==>
            && r.Failure? && r.error.Exhausted?
            && failures' == if failures + 1 < U64_MODULUS then failures + 1 else failures)
  {
    requests, sleptMs, failures' := 0, 0, failures;
    if !authHeaderValid {
      return Failure(InvalidAuthHeader), requests, sleptMs, failures';
    }
    var last := NothingTried;
    for i := 0 to |mirrors|
      invariant failures' == failures
      invariant TryMirrors(mirrors, policy)
             == Add(Yield(None, requests, sleptMs), TryMirrors(mirrors[i..], policy))
    {
      var decided, more, slept;
      NextMirror(mirrors, policy, i);
      decided, more, slept, last := AskMirror(codec, mirrors[i], policy, hash, last);
      requests, sleptMs := requests + more, sleptMs + slept;
      if decided.Some? {
        return decided.value, requests, sleptMs, failures';
      }
    }
    failures' := CountFailure(failures);
    return Failure(Exhausted(last)), requests, sleptMs, failures';
  }

  // What the recursion means.

  /** An answer that uses up an attempt, in numbers: none at all, a 2xx whose body does not arrive, or a 5xx. */
  predicate GoesOn(r: Response) {
    r.SendFailed? || (200 <= r.status <= 299 && r.body.None?) || 500 <= r.status <= 599
  }

  lemma ReactInNumbers(r: Response)
    ensures React(r).UseUpAttempt? <==> GoesOn(r)
    ensures forall raw :: React(r) == Decide(raw) <==> r.Answer? && 200 <= r.status <= 299 && r.body == Some(raw)
  {
  }

  /** The loop gets to this attempt of a mirror. */
  ghost predicate Reached(script: nat -> Response, j: nat) {
    forall k :: 0 <= k < j ==> GoesOn(script(k))
  }

  /** The answer to this attempt, within the retries, is the first that is a 2xx, and it has this body. */
  ghost predicate DecidedAt(script: nat -> Response, policy: Policy, j: nat, raw: Bytes) {
    && j < policy.retries && Reached(script, j)
    && script(j).Answer? && 200 <= script(j).status <= 299 && script(j).body == Some(raw)
  }

  /** The mirror decides at some attempt. */
  ghost predicate Decides(script: nat -> Response, policy: Policy) {
    exists j, raw :: 0 <= j && DecidedAt(script, policy, j, raw)
  }

  /** The body a mirror decides with on its own. */
  function Serves(m: Mirror, policy: Policy): Option<Bytes> {
    TryMirror(m.script, policy, 0).raw
  }

  lemma {:induction false} TryMirrorMeaning(script: nat -> Response, policy: Policy, attempt: nat, raw: Bytes)
    requires Reached(script, attempt)
    ensures TryMirror(script, policy, attempt).raw == Some(raw) <==>
            exists j :: attempt <= j && DecidedAt(script, policy, j, raw)
    decreases policy.retries - attempt
  {
    if attempt < policy.retries {
      ReactInNumbers(script(attempt));
      if GoesOn(script(attempt)) {
        TryMirrorMeaning(script, policy, attempt + 1, raw);
      } else {
        forall j | attempt < j
          ensures !Reached(script, j)
        {
          assert !GoesOn(script(attempt));
        }
        if React(script(attempt)) == Decide(raw) {
          assert DecidedAt(script, policy, attempt, raw);
        }
      }
    }
  }

  lemma ServesIffDecides(m: Mirror, policy: Policy)
    ensures Serves(m, policy).Some? <==> Decides(m.script, policy)
  {
    if Serves(m, policy).Some? {
      TryMirrorMeaning(m.script, policy, 0, Serves(m, policy).value);
    }
    if Decides(m.script, policy) {
      var j, raw :| 0 <= j && DecidedAt(m.script, policy, j, raw);
      TryMirrorMeaning(m.script, policy, 0, raw);
    }
  }

  /** In raw answers: the deciding body is the first 2xx body of the first mirror that has one before its
      retries are used up and before any other error status. */
  ghost predicate FirstDecided(mirrors: seq<Mirror>, policy: Policy, raw: Bytes) {
    exists i, j ::
      && 0 <= i < |mirrors| && 0 <= j && DecidedAt(mirrors[i].script, policy, j, raw)
      && forall h :: 0 <= h < i ==> !Decides(mirrors[h].script, policy)
  }

  lemma FirstDecisiveResponse(mirrors: seq<Mirror>, policy: Policy, raw: Bytes)
    ensures TryMirrors(mirrors, policy).raw == Some(raw) <==> FirstDecided(mirrors, policy, raw)
  {
    FirstServingMirror(mirrors, policy, raw);
    forall i | 0 <= i < |mirrors|
      ensures Serves(mirrors[i], policy) == Some(raw) <==>
              exists j :: 0 <= j && DecidedAt(mirrors[i].script, policy, j, raw)
      ensures Serves(mirrors[i], policy).Some? <==> Decides(mirrors[i].script, policy)
    {
      TryMirrorMeaning(mirrors[i].script, policy, 0, raw);
      ServesIffDecides(mirrors[i], policy);
    }
  }

  lemma {:induction false} FirstServingMirror(mirrors: seq<Mirror>, policy: Policy, raw: Bytes)
    ensures TryMirrors(mirrors, policy).raw == Some(raw) <==>
      exists i :: 0 <= i < |mirrors| && Serves(mirrors[i], policy) == Some(raw)
                  && forall h :: 0 <= h < i ==> Serves(mirrors[h], policy) == None
    decreases |mirrors|
  {
    if mirrors != [] {
      FirstServingMirror(mirrors[1..], policy, raw);
      if Serves(mirrors[0], policy) == None {
        if TryMirrors(mirrors, policy).raw == Some(raw) {
          var i :| 0 <= i < |mirrors[1..]| && Serves(mirrors[1..][i], policy) == Some(raw)
                   && forall h :: 0 <= h < i ==> Serves(mirrors[1..][h], policy) == None;
          assert Serves(mirrors[i + 1], policy) == Some(raw);
          forall h | 0 <= h < i + 1
            ensures Serves(mirrors[h], policy) == None
          {
            assert h > 0 ==> mirrors[h] == mirrors[1..][h - 1];
          }
        }
        if i :| 0 <= i < |mirrors| && Serves(mirrors[i], policy) == Some(raw)
                && forall h :: 0 <= h < i ==> Serves(mirrors[h], policy) == None {
          assert i > 0 && mirrors[1..][i - 1] == mirrors[i];
          forall h | 0 <= h < i - 1
            ensures Serves(mirrors[1..][h], policy) == None
          {
            assert mirrors[1..][h] == mirrors[h + 1];
          }
        }
      }
    }
  }

  /** Nothing decides exactly when no mirror serves a body. */
  lemma {:induction false} NothingDecides(mirrors: seq<Mirror>, policy: Policy)
    ensures TryMirrors(mirrors, policy).raw == None <==>
            forall i :: 0 <= i < |mirrors| ==> Serves(mirrors[i], policy) == None
    decreases |mirrors|
  {
    if mirrors != [] {
      NothingDecides(mirrors[1..], policy);
      if TryMirrors(mirrors, policy).raw == None {
        forall i | 0 <= i < |mirrors|
          ensures Serves(mirrors[i], policy) == None
        {
          assert i > 0 ==> mirrors[i] == mirrors[1..][i - 1];
        }
      }
    }
  }

  // Bounds.

  /** No shift and no product of the backoff overflows. */
  ghost predicate NoOverflow(policy: Policy) {
    forall a: nat :: a + 1 < policy.retries ==> a < 64 && policy.baseMs * Pow2(a) < U64_MODULUS
  }

  /** The pauses of a mirror that uses up every attempt from this one on. */
  function Pauses(policy: Policy, attempt: nat): nat
    decreases policy.retries - attempt
  {
    if attempt + 1 >= policy.retries then 0
    else policy.baseMs * Pow2(attempt) + Pauses(policy, attempt + 1)
  }

  lemma {:induction false} MirrorPauses(script: nat -> Response, policy: Policy, attempt: nat)
    requires NoOverflow(policy)
    ensures TryMirror(script, policy, attempt).sleptMs <= Pauses(policy, attempt)
    decreases policy.retries - attempt
  {
    if attempt < policy.retries {
      MirrorPauses(script, policy, attempt + 1);
      if attempt + 1 < policy.retries {
        BackoffWithoutOverflow(policy, attempt);
      }
    }
  }

  lemma BackoffWithoutOverflow(policy: Policy, attempt: nat)
    requires NoOverflow(policy) && attempt + 1 < policy.retries
    ensures Backoff(policy.baseMs, attempt) == policy.baseMs * Pow2(attempt)
  {
    var factor := Pow2(attempt);
    assert attempt < 64 && attempt % 64 == attempt;
    WithinModulus(policy.baseMs * factor);
  }

  lemma WithinModulus(x: nat)
    requires x < U64_MODULUS
    ensures x % U64_MODULUS == x
  {
  }

  lemma GeometricStep(base: int, attempt: nat, p: int)
    ensures base * Pow2(attempt) + base * (p - Pow2(attempt + 1)) == base * (p - Pow2(attempt))
  {
    Distribute(base, Pow2(attempt), p - Pow2(attempt + 1));
  }

  lemma Distribute(x: int, y: int, z: int)
    ensures x * y + x * z == x * (y + z)
  {
  }

  /** The pauses form a geometric series. */
  lemma {:induction false} PausesClosedForm(policy: Policy, attempt: nat)
    requires attempt < policy.retries
    ensures Pauses(policy, attempt) == policy.baseMs * (Pow2(policy.retries - 1) - Pow2(attempt))
    decreases policy.retries - attempt
  {
    if attempt + 1 < policy.retries {
      PausesClosedForm(policy, attempt + 1);
      GeometricStep(policy.baseMs, attempt, Pow2(policy.retries - 1));
    }
  }

  /** What a mirror costs, from an attempt on: it stops at the first answer that does not use up the attempt. */
  lemma {:induction false} MirrorCost(script: nat -> Response, policy: Policy, attempt: nat, j: nat)
    requires NoOverflow(policy) && attempt <= j < policy.retries
    requires (forall k :: attempt <= k < j ==> GoesOn(script(k))) && !GoesOn(script(j))
    ensures var y := TryMirror(script, policy, attempt);
      && y.requests == j + 1 - attempt
      && y.sleptMs == policy.baseMs * (Pow2(j) - Pow2(attempt))
      && y.raw == if 200 <= script(j).status <= 299 then script(j).body else None
    decreases j - attempt
  {
    ReactInNumbers(script(attempt));
    if attempt < j {
      MirrorCost(script, policy, attempt + 1, j);
      BackoffWithoutOverflow(policy, attempt);
      GeometricStep(policy.baseMs, attempt, Pow2(j));
    }
  }

  /** And if every answer uses up its attempt, it is tried as often as the retries allow. */
  lemma {:induction false} ExhaustedMirrorCost(script: nat -> Response, policy: Policy, attempt: nat)
    requires NoOverflow(policy) && attempt < policy.retries
    requires forall k :: attempt <= k < policy.retries ==> GoesOn(script(k))
    ensures var y := TryMirror(script, policy, attempt);
      && y.raw.None? && y.requests == policy.retries - attempt
      && y.sleptMs == policy.baseMs * (Pow2(policy.retries - 1) - Pow2(attempt))
    decreases policy.retries - attempt
  {
    ReactInNumbers(script(attempt));
    if attempt + 1 < policy.retries {
      ExhaustedMirrorCost(script, policy, attempt + 1);
      BackoffWithoutOverflow(policy, attempt);
      GeometricStep(policy.baseMs, attempt, Pow2(policy.retries - 1));
    }
  }

  /** The bounds on requests and pauses are attained when every answer of every mirror uses up its attempt. */
  lemma {:induction false} ExhaustedCost(mirrors: seq<Mirror>, policy: Policy)
    requires NoOverflow(policy) && policy.retries >= 1
    requires forall m, k :: m in mirrors && 0 <= k < policy.retries ==> GoesOn(m.script(k))
    ensures var y := TryMirrors(mirrors, policy);
      && y.raw.None? && y.requests == |mirrors| * policy.retries
      && y.sleptMs == |mirrors| * (policy.baseMs * (Pow2(policy.retries - 1) - 1))
    decreases |mirrors|
  {
    if mirrors != [] {
      ExhaustedMirrorCost(mirrors[0].script, policy, 0);
      ExhaustedCost(mirrors[1..], policy);
      OneMoreTimes(|mirrors[1..]|, policy.retries);
      OneMoreTimes(|mirrors[1..]|, policy.baseMs * (Pow2(policy.retries - 1) - 1));
    }
  }

  lemma OneMoreTimes(n: int, x: int)
    ensures (n + 1) * x == x + n * x
  {
  }

  lemma {:induction false} MirrorRequests(script: nat -> Response, policy: Policy, attempt: nat)
    requires attempt <= policy.retries
    ensures TryMirror(script, policy, attempt).requests <= policy.retries - attempt
    decreases policy.retries - attempt
  {
    if attempt < policy.retries {
      MirrorRequests(script, policy, attempt + 1);
    }
  }

  /** At most urls times retries requests, always. */
  lemma {:induction false} RequestBound(mirrors: seq<Mirror>, policy: Policy)
    ensures TryMirrors(mirrors, policy).requests <= |mirrors| * policy.retries
    decreases |mirrors|
  {
    if mirrors != [] {
      MirrorRequests(mirrors[0].script, policy, 0);
      RequestBound(mirrors[1..], policy);
      assert |mirrors| * policy.retries == policy.retries + |mirrors[1..]| * policy.retries;
    }
  }

  lemma OneMore(a: nat, b: nat, n: nat, each: nat)
    requires a <= each && b <= n * each
    ensures a <= (n + 1) * each && a + b <= (n + 1) * each
  {
    Distribute(each, n, 1);
  }

  lemma {:induction false} BackoffPerMirror(mirrors: seq<Mirror>, policy: Policy)
    requires NoOverflow(policy)
    ensures TryMirrors(mirrors, policy).sleptMs <= |mirrors| * Pauses(policy, 0)
    decreases |mirrors|
  {
    if mirrors != [] {
      MirrorPauses(mirrors[0].script, policy, 0);
      BackoffPerMirror(mirrors[1..], policy);
      var first, rest := TryMirror(mirrors[0].script, policy, 0).sleptMs, TryMirrors(mirrors[1..], policy).sleptMs;
      OneMore(first, rest, |mirrors[1..]|, Pauses(policy, 0));
    }
  }

  /** Total backoff is at most urls times base times 2^(retries-1) - 1 when nothing overflows. */
  lemma BackoffBound(mirrors: seq<Mirror>, policy: Policy)
    requires policy.retries >= 1 && NoOverflow(policy)
    ensures TryMirrors(mirrors, policy).sleptMs
         <= |mirrors| * (policy.baseMs * (Pow2(policy.retries - 1) - 1))
  {
    BackoffPerMirror(mirrors, policy);
    PausesClosedForm(policy, 0);
  }

  // The order of the mirrors.

  /** What collision resistance is relied on for: no two byte strings with this hash. */
  ghost predicate Binding(sha256: Bytes -> Bytes32, hash: Bytes32) {
    forall a, b :: sha256(a) == hash && sha256(b) == hash ==> a == b
  }

  /** The result a caller sees, apart from the text of an exhausted fetch. */
  function Verdict<D>(codec: Codec<D>, hash: Bytes32, mirrors: seq<Mirror>, policy: Policy)
    : Option<Result<D, FetchError>>
  {
    match TryMirrors(mirrors, policy).raw
    case None => None
    case Some(raw) => Some(Judge(codec, hash, raw))
  }

  /** If no mirror serves a body with a wrong hash, the order in which mirrors are listed does not matter. */
  lemma MirrorOrderIrrelevant<D>(codec: Codec<D>, hash: Bytes32, ms: seq<Mirror>, ns: seq<Mirror>, policy: Policy)
    requires Binding(codec.sha256, hash) && multiset(ms) == multiset(ns)
    requires forall m :: m in ms && Serves(m, policy).Some? ==> codec.sha256(Serves(m, policy).value) == hash
    ensures Verdict(codec, hash, ms, policy) == Verdict(codec, hash, ns, policy)
  {
    forall m
      ensures m in ms <==> m in ns
    {
      assert m in ms <==> m in multiset(ms);
      assert m in ns <==> m in multiset(ns);
    }
    NothingDecides(ms, policy);
    NothingDecides(ns, policy);
    if TryMirrors(ms, policy).raw == None {
      forall i | 0 <= i < |ns|
        ensures Serves(ns[i], policy) == None
      {
        assert ns[i] in ms;
      }
    } else {
      var i :| 0 <= i < |ms| && Serves(ms[i], policy) != None;
      assert ms[i] in ns;
      var raw := Serves(ms[i], policy).value;
      OnlyOneBody(codec, hash, ms, policy, ms[i], raw);
      OnlyOneBody(codec, hash, ns, policy, ms[i], raw);
    }
  }

  /** With matching hashes everywhere, there is only one body that can decide. */
  lemma OnlyOneBody<D>(codec: Codec<D>, hash: Bytes32, ms: seq<Mirror>, policy: Policy, m: Mirror, raw: Bytes)
    requires Binding(codec.sha256, hash) && m in ms && Serves(m, policy) == Some(raw)
    requires forall m :: m in ms && Serves(m, policy).Some? ==> codec.sha256(Serves(m, policy).value) == hash
    ensures TryMirrors(ms, policy).raw == Some(raw)
  {
    NothingDecides(ms, policy);
    var i :| 0 <= i < |ms| && ms[i] == m;
    assert Serves(ms[i], policy) != None;
    var got := TryMirrors(ms, policy).raw.value;
    FirstServingMirror(ms, policy, got);
    var k :| 0 <= k < |ms| && Serves(ms[k], policy) == Some(got);
    assert ms[k] in ms;
    assert codec.sha256(got) == hash == codec.sha256(raw);
  }

  /** The bytes the code goes on to parse. */
  function Accepted(sha256: Bytes -> Bytes32, hash: Bytes32, mirrors: seq<Mirror>, policy: Policy): Option<Bytes> {
    var raw := TryMirrors(mirrors, policy).raw;
    if raw.Some? && sha256(raw.value) == hash then raw else None
  }

  /** What the documentation promises: the first hash-valid response wins. */
  function Documented(sha256: Bytes -> Bytes32, hash: Bytes32, mirrors: seq<Mirror>, policy: Policy): Option<Bytes> {
    if mirrors == [] then None
    else
      var raw := Serves(mirrors[0], policy);
      if raw.Some? && sha256(raw.value) == hash then raw else Documented(sha256, hash, mirrors[1..], policy)
  }

  /** Code and documentation agree exactly when the first body served has the right hash, or none that is
      served has: a mismatch is fatal although a later mirror may be sound. */
  lemma {:induction false} DocumentedExactly(sha256: Bytes -> Bytes32, hash: Bytes32, mirrors: seq<Mirror>, policy: Policy)
    ensures var raw := TryMirrors(mirrors, policy).raw;
      Accepted(sha256, hash, mirrors, policy) == Documented(sha256, hash, mirrors, policy) <==>
      (raw.Some? ==> sha256(raw.value) == hash) ||
      forall i :: 0 <= i < |mirrors| && Serves(mirrors[i], policy).Some? ==>
        sha256(Serves(mirrors[i], policy).value) != hash
    decreases |mirrors|
  {
    DocumentedFinds(sha256, hash, mirrors, policy);
    NothingDecides(mirrors, policy);
    var raw := TryMirrors(mirrors, policy).raw;
    if raw.Some? && sha256(raw.value) == hash {
      FirstDocumented(sha256, hash, mirrors, policy);
    }
  }

  lemma {:induction false} DocumentedFinds(sha256: Bytes -> Bytes32, hash: Bytes32, mirrors: seq<Mirror>, policy: Policy)
    ensures Documented(sha256, hash, mirrors, policy) == None <==>
      forall i :: 0 <= i < |mirrors| && Serves(mirrors[i], policy).Some? ==>
        sha256(Serves(mirrors[i], policy).value) != hash
    decreases |mirrors|
  {
    if mirrors != [] {
      DocumentedFinds(sha256, hash, mirrors[1..], policy);
      if Documented(sha256, hash, mirrors, policy) == None {
        forall i | 0 <= i < |mirrors| && Serves(mirrors[i], policy).Some?
          ensures sha256(Serves(mirrors[i], policy).value) != hash
        {
          assert i > 0 ==> mirrors[i] == mirrors[1..][i - 1];
        }
      }
    }
  }

  lemma {:induction false} FirstDocumented(sha256: Bytes -> Bytes32, hash: Bytes32, mirrors: seq<Mirror>, policy: Policy)
    requires var raw := TryMirrors(mirrors, policy).raw; raw.Some? && sha256(raw.value) == hash
    ensures Documented(sha256, hash, mirrors, policy) == TryMirrors(mirrors, policy).raw
    decreases |mirrors|
  {
    if Serves(mirrors[0], policy).None? {
      FirstDocumented(sha256, hash, mirrors[1..], policy);
    }
  }

  function Always(status: nat, body: Bytes): nat -> Response {
    attempt => Answer(status, Some(body))
  }

  /** A witness: the first mirror serves another document, the second the committed one. The documentation
      takes the second, the code gives up. */
  lemma WrongFirstMirrorIsFatal(sha256: Bytes -> Bytes32, good: Bytes, bad: Bytes)
    requires sha256(good) != sha256(bad)
    ensures var mirrors := [Mirror("a", Always(200, bad)), Mirror("b", Always(200, good))];
      && Accepted(sha256, sha256(good), mirrors, Policy(1, 0)) == None
      && Documented(sha256, sha256(good), mirrors, Policy(1, 0)) == Some(good)
  {
    var a, b := Mirror("a", Always(200, bad)), Mirror("b", Always(200, good));
    var policy := Policy(1, 0);
    ServesAlways(bad, policy);
    ServesAlways(good, policy);
    assert [a, b][1..] == [b];
    assert Serves(a, policy) == Some(bad) && Serves(b, policy) == Some(good);
  }

  lemma ServesAlways(body: Bytes, policy: Policy)
    requires policy.retries > 0
    ensures TryMirror(Always(200, body), policy, 0) == Yield(Some(body), 1, 0)
  {
    assert React(Always(200, body)(0)) == Decide(body);
  }
}
