/** From a transaction to at most one evaluation job. */
module JobSelection {
  import opened Types
  import opened Accounts

  datatype Event = Event(uid: Uid, deliveryHash: Bytes32)

  /** An instruction; `data` is what its base58 text decodes to. */
  datatype Instruction =
    | Partial(program: string, data: Option<Bytes>, accounts: seq<string>)
    | FullyParsed
    | Compiled(programIndex: nat, data: Option<Bytes>, indices: seq<nat>)

  datatype Transaction = Transaction(
    jsonParsed: bool,
    instructions: seq<Instruction>,
    inner: seq<seq<Instruction>>,
    accountKeys: seq<string>,
    events: seq<Event>)

  /** What the selection is configured with and the chain it reads: our key, the escrow program, the
      discriminant of SubmitDelivery, key parsing, and one snapshot of the accounts. */
  datatype Context = Context(
    oracle: Pubkey,
    escrow: Pubkey,
    discriminant: Byte,
    parse: string -> Option<Pubkey>,
    read: Pubkey -> AccountRead)

  predicate IsSubmitDelivery(c: Context, data: Option<Bytes>) {
    data.Some? && data.value != [] && data.value[0] == c.discriminant
  }

  /** The payment account is the fifth of a SubmitDelivery instruction. */
  function PaymentOf(c: Context, keys: seq<string>, ix: Instruction): Option<Pubkey> {
    match ix
    case FullyParsed => None
    case Partial(program, data, accounts) =>
      if program != c.escrow.text || !IsSubmitDelivery(c, data) || |accounts| < 5 then None
      else c.parse(accounts[4])
    case Compiled(programIndex, data, indices) =>
      if programIndex >= |keys| || c.parse(keys[programIndex]) != Some(c.escrow) then None
      else if !IsSubmitDelivery(c, data) || |indices| < 5 || indices[4] >= |keys| then None
      else c.parse(keys[indices[4]])
  }

  function Candidates(c: Context, keys: seq<string>, ixs: seq<Instruction>): seq<Pubkey> {
    if ixs == [] then []
    else
      var last := |ixs| - 1;
      Candidates(c, keys, ixs[..last])
      + match PaymentOf(c, keys, ixs[last]) case Some(k) => [k] case None => []
  }

  function Flatten(groups: seq<seq<Instruction>>): seq<Instruction> {
    if groups == [] then [] else Flatten(groups[..|groups| - 1]) + groups[|groups| - 1]
  }

  /** Outer instructions first, then the inner groups. */
  function AllInstructions(t: Transaction): seq<Instruction> {
    t.instructions + Flatten(t.inner)
  }

  // Sorting by text, and removing neighbours that are equal.

  /** Strict lexicographic order. */
  predicate Before(a: string, b: string) {
    if b == "" then false
    else if a == "" then true
    else if a[0] != b[0] then a[0] < b[0]
    else Before(a[1..], b[1..])
  }

  lemma {:induction false} BeforeTransitive(a: string, b: string, c: string)
    requires Before(a, b) && Before(b, c)
    ensures Before(a, c)
    decreases |a|
  {
    if a != "" && a[0] == b[0] == c[0] {
      BeforeTransitive(a[1..], b[1..], c[1..]);
    }
  }

  lemma {:induction false} BeforeTotal(a: string, b: string)
    ensures Before(a, b) || Before(b, a) || a == b
    ensures !Before(a, a) && !(Before(a, b) && Before(b, a))
    decreases |a|
  {
    if a != "" && b != "" && a[0] == b[0] {
      BeforeTotal(a[1..], b[1..]);
      assert a == [a[0]] + a[1..] && b == [b[0]] + b[1..];
    } else if a != "" {
      BeforeTotal(a[1..], a[1..]);
    }
  }

  /** One text is before the other if it is a proper prefix of it or has the smaller character where they first
      differ. */
  lemma {:induction false} BeforeMeaning(a: string, b: string)
    ensures Before(a, b) <==>
            exists n :: 0 <= n <= |a| && n < |b| && a[..n] == b[..n] && (n == |a| || a[n] < b[n])
    decreases |a|
  {
    if a == "" || b == "" || a[0] != b[0] {
      if a == "" && b != "" {
        assert a[..0] == b[..0];
      }
      if b != "" && a != "" && a[0] < b[0] {
        assert a[..0] == b[..0];
      }
      forall n | 0 < n <= |a| && n < |b|
        ensures a[..n] != b[..n]
      {
        assert a[..n][0] == a[0] && b[..n][0] == b[0];
      }
    } else {
      BeforeMeaning(a[1..], b[1..]);
      if n :| 0 <= n <= |a[1..]| && n < |b[1..]| && a[1..][..n] == b[1..][..n] && (n == |a[1..]| || a[1..][n] < b[1..][n]) {
        assert a[..n + 1] == [a[0]] + a[1..][..n] && b[..n + 1] == [b[0]] + b[1..][..n];
      }
      if n :| 0 <= n <= |a| && n < |b| && a[..n] == b[..n] && (n == |a| || a[n] < b[n]) {
        assert n > 0;
        assert a[1..][..n - 1] == a[..n][1..] && b[1..][..n - 1] == b[..n][1..];
      }
    }
  }

  function Insert(k: Pubkey, sorted: seq<Pubkey>): seq<Pubkey> {
    if sorted == [] || !Before(sorted[0].text, k.text) then [k] + sorted
    else [sorted[0]] + Insert(k, sorted[1..])
  }

  /** `sort_by_key(to_string)`. */
  function SortByText(ks: seq<Pubkey>): seq<Pubkey> {
    if ks == [] then [] else Insert(ks[|ks| - 1], SortByText(ks[..|ks| - 1]))
  }

  /** `dedup`: drop an element that equals its successor. */
  function Dedup(ks: seq<Pubkey>): seq<Pubkey> {
    if |ks| <= 1 then ks
    else if ks[0] == ks[1] then Dedup(ks[1..])
    else [ks[0]] + Dedup(ks[1..])
  }

  predicate Ascending(ks: seq<Pubkey>) {
    forall i :: 0 <= i < |ks| - 1 ==> !Before(ks[i + 1].text, ks[i].text)
  }

  ghost predicate StrictlyAscending(ks: seq<Pubkey>) {
    forall i, j :: 0 <= i < j < |ks| ==> Before(ks[i].text, ks[j].text)
  }

  lemma {:induction false} InsertSorts(k: Pubkey, sorted: seq<Pubkey>)
    requires Ascending(sorted)
    ensures Ascending(Insert(k, sorted))
    ensures forall x :: x in Insert(k, sorted) <==> x == k || x in sorted
    decreases |sorted|
  {
    if sorted != [] {
      if Before(sorted[0].text, k.text) {
        var rest := Insert(k, sorted[1..]);
        InsertSorts(k, sorted[1..]);
        assert rest[0] == k || rest[0] == sorted[1];
        BeforeTotal(sorted[0].text, k.text);
        assert sorted == [sorted[0]] + sorted[1..];
      }
    }
  }

  lemma {:induction false} SortSorts(ks: seq<Pubkey>)
    ensures Ascending(SortByText(ks))
    ensures forall x :: x in SortByText(ks) <==> x in ks
    decreases |ks|
  {
    if ks != [] {
      var last := |ks| - 1;
      SortSorts(ks[..last]);
      InsertSorts(ks[last], SortByText(ks[..last]));
      assert ks == ks[..last] + [ks[last]];
    }
  }

  lemma {:induction false} DedupStrict(ks: seq<Pubkey>)
    requires Ascending(ks)
    ensures StrictlyAscending(Dedup(ks))
    ensures forall x :: x in Dedup(ks) <==> x in ks
    ensures ks != [] ==> Dedup(ks) != [] && Dedup(ks)[0] == ks[0]
    decreases |ks|
  {
    if |ks| > 1 {
      DedupStrict(ks[1..]);
      assert ks == [ks[0]] + ks[1..];
      var rest := Dedup(ks[1..]);
      if ks[0] != ks[1] {
        BeforeTotal(ks[0].text, ks[1].text);
        forall j | 0 <= j < |rest|
          ensures Before(ks[0].text, rest[j].text)
        {
          if j > 0 {
            BeforeTransitive(ks[0].text, rest[0].text, rest[j].text);
          }
        }
      }
    }
  }

  /** A strictly ascending list is determined by its elements. */
  lemma {:induction false} StrictUnique(a: seq<Pubkey>, b: seq<Pubkey>)
    requires StrictlyAscending(a) && StrictlyAscending(b)
    requires forall x :: x in a <==> x in b
    ensures a == b
    decreases |a|
  {
    assert b != [] ==> b[0] in b;
    if a != [] {
      assert a[0] in b && b[0] in b && b[0] in a;
      var i :| 0 <= i < |b| && b[i] == a[0];
      var j :| 0 <= j < |a| && a[j] == b[0];
      BeforeTotal(a[0].text, b[0].text);
      assert i == 0;
      forall x
        ensures x in a[1..] <==> x in b[1..]
      {
        InTail(a, x);
        InTail(b, x);
      }
      StrictUnique(a[1..], b[1..]);
      assert a == [a[0]] + a[1..] && b == [b[0]] + b[1..];
    }
  }

  lemma InTail(a: seq<Pubkey>, x: Pubkey)
    requires StrictlyAscending(a) && a != []
    ensures x in a[1..] <==> x in a && x != a[0]
  {
    if x in a[1..] {
      var j :| 0 <= j < |a[1..]| && a[1..][j] == x;
      BeforeTotal(a[0].text, a[0].text);
      assert a[j + 1] == x && Before(a[0].text, a[j + 1].text);
    }
    if x in a && x != a[0] {
      var j :| 0 <= j < |a| && a[j] == x;
      assert a[1..][j - 1] == x;
    }
  }

  /** The list the selection goes through. */
  function Ordered(c: Context, t: Transaction): seq<Pubkey> {
    Dedup(SortByText(Candidates(c, t.accountKeys, AllInstructions(t))))
  }

  // Selection.

  predicate EventMatches(events: seq<Event>, job: EvaluationJob) {
    events == [] || exists i :: 0 <= i < |events| && events[i].uid == job.uid && events[i].deliveryHash == job.deliveryHash
  }

  function JobAt(c: Context, k: Pubkey): Option<EvaluationJob> {
    match ReadPayment(c.oracle, k, c.read(k))
    case Success(Some(job)) => Some(job)
    case _ => None
  }

  /** The test each candidate job is put to; its second half is never needed, as `EventMatches` already
      accepts an empty event list. */
  predicate Acceptable(requireMatch: bool, events: seq<Event>, job: EvaluationJob) {
    EventMatches(events, job) || (!requireMatch && events == [])
  }

  function FirstAcceptable(c: Context, requireMatch: bool, events: seq<Event>, ks: seq<Pubkey>): Option<EvaluationJob> {
    if ks == [] then None
    else if JobAt(c, ks[0]).Some? && Acceptable(requireMatch, events, JobAt(c, ks[0]).value) then JobAt(c, ks[0])
    else FirstAcceptable(c, requireMatch, events, ks[1..])
  }

  function ParsedKeys(c: Context, keys: seq<string>): seq<Pubkey> {
    if keys == [] then []
    else
      (match c.parse(keys[0]) case Some(k) => [k] case None => []) + ParsedKeys(c, keys[1..])
  }

  /** The job of a transaction: by instruction layout, else (unless strict) by any of its account keys. */
  function Select(c: Context, requireMatch: bool, t: Transaction): Option<EvaluationJob> {
    if !t.jsonParsed then None
    else
      var structured := FirstAcceptable(c, requireMatch, t.events, Ordered(c, t));
      if structured.Some? || requireMatch then structured
      else FirstAcceptable(c, false, t.events, ParsedKeys(c, t.accountKeys))
  }

  // The selection as written.

  lemma CandidatesConcat(c: Context, keys: seq<string>, a: seq<Instruction>, b: seq<Instruction>)
    ensures Candidates(c, keys, a + b) == Candidates(c, keys, a) + Candidates(c, keys, b)
    decreases |b|
  {
    if b == [] {
      assert a + b == a;
    } else {
      var last := |b| - 1;
      assert (a + b)[..|a + b| - 1] == a + b[..last];
      CandidatesConcat(c, keys, a, b[..last]);
    }
  }

  method Collect(c: Context, keys: seq<string>, ixs: seq<Instruction>) returns (ks: seq<Pubkey>)
    ensures ks == Candidates(c, keys, ixs)
  {
    ks := [];
    for i := 0 to |ixs|
      invariant ks == Candidates(c, keys, ixs[..i])
    {
      var k := PaymentOf(c, keys, ixs[i]);
      if k.Some? {
        ks := ks + [k.value];
      }
      assert ixs[..i + 1][..i] == ixs[..i];
    }
    assert ixs[..|ixs|] == ixs;
  }

  /** Both candidate loops: stop at the first acceptable job. */
  method FirstJob(c: Context, requireMatch: bool, events: seq<Event>, ks: seq<Pubkey>)
    returns (job: Option<EvaluationJob>)
    ensures job == FirstAcceptable(c, requireMatch, events, ks)
  {
    for i := 0 to |ks|
      invariant FirstAcceptable(c, requireMatch, events, ks) == FirstAcceptable(c, requireMatch, events, ks[i..])
    {
      var r := ReadPayment(c.oracle, ks[i], c.read(ks[i]));
      if r.Success? && r.value.Some? {
        if EventMatches(events, r.value.value) || (!requireMatch && events == []) {
          return r.value;
        }
      }
    }
    return None;
  }

  /** The candidates of the outer instructions, extended by those of every inner group. */
  method CollectAll(c: Context, t: Transaction) returns (candidates: seq<Pubkey>)
    ensures candidates == Candidates(c, t.accountKeys, AllInstructions(t))
  {
    candidates := Collect(c, t.accountKeys, t.instructions);
    assert t.instructions + Flatten(t.inner[..0]) == t.instructions;
    for i := 0 to |t.inner|
      invariant candidates == CandidatesUpTo(c, t, i)
    {
      var more := Collect(c, t.accountKeys, t.inner[i]);
      NextGroup(c, t, i);
      candidates := candidates + more;
    }
    assert t.inner[..|t.inner|] == t.inner;
  }

  /** The candidates of the outer instructions and the first `n` inner groups. */
  function CandidatesUpTo(c: Context, t: Transaction, n: nat): seq<Pubkey>
    requires n <= |t.inner|
  {
    Candidates(c, t.accountKeys, t.instructions + Flatten(t.inner[..n]))
  }

  lemma NextGroup(c: Context, t: Transaction, i: nat)
    requires i < |t.inner|
    ensures CandidatesUpTo(c, t, i + 1) == CandidatesUpTo(c, t, i) + Candidates(c, t.accountKeys, t.inner[i])
  {
    var covered := t.instructions + Flatten(t.inner[..i]);
    FlattenSnoc(t.inner, i);
    assert t.instructions + Flatten(t.inner[..i + 1]) == covered + t.inner[i];
    CandidatesConcat(c, t.accountKeys, covered, t.inner[i]);
  }

  lemma FlattenSnoc(groups: seq<seq<Instruction>>, i: nat)
    requires i < |groups|
    ensures Flatten(groups[..i + 1]) == Flatten(groups[..i]) + groups[i]
  {
    assert groups[..i + 1][..i] == groups[..i];
  }

  method FetchDeliveryJob(c: Context, requireMatch: bool, t: Transaction) returns (job: Option<EvaluationJob>)
    ensures job == Select(c, requireMatch, t)
  {
    if !t.jsonParsed {
      return None;
    }
    var candidates := CollectAll(c, t);
    job := FirstJob(c, requireMatch, t.events, Dedup(SortByText(candidates)));
    if job.Some? || requireMatch {
      return;
    }
    job := FirstJob(c, false, t.events, ParsedKeys(c, t.accountKeys));
  }

  // What is selected.

  lemma {:induction false} CandidateSource(c: Context, keys: seq<string>, ixs: seq<Instruction>, k: Pubkey)
    ensures k in Candidates(c, keys, ixs) <==> exists ix :: ix in ixs && PaymentOf(c, keys, ix) == Some(k)
    decreases |ixs|
  {
    if ixs != [] {
      var last := |ixs| - 1;
      CandidateSource(c, keys, ixs[..last], k);
      assert ixs == ixs[..last] + [ixs[last]];
    }
  }

  lemma OrderedStrict(c: Context, t: Transaction)
    ensures StrictlyAscending(Ordered(c, t))
    ensures forall k :: k in Ordered(c, t) <==> exists ix :: ix in AllInstructions(t) && PaymentOf(c, t.accountKeys, ix) == Some(k)
  {
    var ks := Candidates(c, t.accountKeys, AllInstructions(t));
    SortSorts(ks);
    DedupStrict(SortByText(ks));
    forall k
      ensures k in ks <==> exists ix :: ix in AllInstructions(t) && PaymentOf(c, t.accountKeys, ix) == Some(k)
    {
      CandidateSource(c, t.accountKeys, AllInstructions(t), k);
    }
  }

  /** The order of instructions and inner groups does not matter, nor does repetition. */
  lemma InstructionOrderIrrelevant(c: Context, requireMatch: bool, t: Transaction, t': Transaction)
    requires t'.jsonParsed == t.jsonParsed && t'.accountKeys == t.accountKeys && t'.events == t.events
    requires forall ix :: ix in AllInstructions(t) <==> ix in AllInstructions(t')
    ensures Select(c, requireMatch, t) == Select(c, requireMatch, t')
  {
    OrderedStrict(c, t);
    OrderedStrict(c, t');
    StrictUnique(Ordered(c, t), Ordered(c, t'));
  }

  lemma {:induction false} FirstAcceptableMeaning(c: Context, requireMatch: bool, events: seq<Event>, ks: seq<Pubkey>)
    ensures var job := FirstAcceptable(c, requireMatch, events, ks);
      && (job.Some? ==>
            exists i ::
              && 0 <= i < |ks| && JobAt(c, ks[i]) == job && Acceptable(requireMatch, events, job.value)
              && forall h :: 0 <= h < i && JobAt(c, ks[h]).Some? ==>
                   !Acceptable(requireMatch, events, JobAt(c, ks[h]).value))
      && (job.None? ==> forall h :: 0 <= h < |ks| && JobAt(c, ks[h]).Some? ==>
                          !Acceptable(requireMatch, events, JobAt(c, ks[h]).value))
    decreases |ks|
  {
    if ks != [] {
      FirstAcceptableMeaning(c, requireMatch, events, ks[1..]);
      var job := FirstAcceptable(c, requireMatch, events, ks);
      if JobAt(c, ks[0]).Some? && Acceptable(requireMatch, events, JobAt(c, ks[0]).value) {
        assert JobAt(c, ks[0]) == job;
      } else if job.Some? {
        var i :| 0 <= i < |ks[1..]| && JobAt(c, ks[1..][i]) == job
                 && forall h :: 0 <= h < i && JobAt(c, ks[1..][h]).Some? ==>
                      !Acceptable(requireMatch, events, JobAt(c, ks[1..][h]).value);
        assert ks[i + 1] == ks[1..][i];
        forall h | 0 <= h < i + 1 && JobAt(c, ks[h]).Some?
          ensures !Acceptable(requireMatch, events, JobAt(c, ks[h]).value)
        {
          assert h > 0 ==> ks[h] == ks[1..][h - 1];
        }
      } else {
        forall h | 0 <= h < |ks| && JobAt(c, ks[h]).Some?
          ensures !Acceptable(requireMatch, events, JobAt(c, ks[h]).value)
        {
          assert h > 0 ==> ks[h] == ks[1..][h - 1];
        }
      }
    }
  }

  /** The key a transaction mentions: the payment of one of its instructions, or one of its accounts. */
  ghost predicate Mentioned(c: Context, t: Transaction, k: Pubkey) {
    || (exists ix :: ix in AllInstructions(t) && PaymentOf(c, t.accountKeys, ix) == Some(k))
    || k in ParsedKeys(c, t.accountKeys)
  }

  /** Any emitted job comes from an account of the transaction that is ours, delivered and unresolved, and
      it matches one of the transaction's events unless there are none. */
  lemma SelectedIsOurs(c: Context, requireMatch: bool, t: Transaction)
    requires Select(c, requireMatch, t).Some?
    ensures var job := Select(c, requireMatch, t).value;
      && Mentioned(c, t, job.pubkey)
      && c.read(job.pubkey).Found?
      && var p := c.read(job.pubkey).payment;
      && p.authority == c.oracle && p.deliveryTimestamp != 0 && p.resolutionState == 0
      && job == EvaluationJob(p.uid, job.pubkey, p.slaHash, p.deliveryHash, p.amount, p.mint, p.authority, p.expiresAt)
      && EventMatches(t.events, job)
  {
    FirstAcceptableMeaning(c, requireMatch, t.events, Ordered(c, t));
    FirstAcceptableMeaning(c, false, t.events, ParsedKeys(c, t.accountKeys));
    OrderedStrict(c, t);
  }

  /** Among several deliveries in one transaction only the one whose key comes first in text order is
      emitted: one job per transaction. */
  lemma OnlyFirstDeliveryEmitted(c: Context, requireMatch: bool, t: Transaction, k: Pubkey)
    requires t.jsonParsed && k in Ordered(c, t) && JobAt(c, k).Some? && EventMatches(t.events, JobAt(c, k).value)
    ensures Select(c, requireMatch, t).Some?
    ensures var first := Select(c, requireMatch, t).value.pubkey; first == k || Before(first.text, k.text)
  {
    FirstAcceptableMeaning(c, requireMatch, t.events, Ordered(c, t));
    OrderedStrict(c, t);
    var ks := Ordered(c, t);
    var i :| 0 <= i < |ks| && ks[i] == k;
    assert Acceptable(requireMatch, t.events, JobAt(c, ks[i]).value);
  }

  /** Whenever strict mode yields a job, the default mode yields the same one. */
  lemma StrictAgreesWithDefault(c: Context, t: Transaction)
    requires Select(c, true, t).Some?
    ensures Select(c, false, t) == Select(c, true, t)
  {
    SameAcceptance(c, t.events, Ordered(c, t));
  }

  /** On candidates both modes accept the same jobs; what strict mode drops is the fallback. */
  lemma {:induction false} SameAcceptance(c: Context, events: seq<Event>, ks: seq<Pubkey>)
    ensures FirstAcceptable(c, true, events, ks) == FirstAcceptable(c, false, events, ks)
    decreases |ks|
  {
    if ks != [] {
      SameAcceptance(c, events, ks[1..]);
    }
  }

  /** Strict mode emits a job without a matching event exactly when the transaction carries no event at all
      and one of its SubmitDelivery accounts is pending: it does not refuse empty event lists. */
  lemma StrictWithoutEventExactly(c: Context, t: Transaction)
    requires t.jsonParsed
    ensures (Select(c, true, t).Some? &&
             !exists i :: 0 <= i < |t.events| && t.events[i].uid == Select(c, true, t).value.uid
                          && t.events[i].deliveryHash == Select(c, true, t).value.deliveryHash)
       <==> t.events == [] && exists k :: k in Ordered(c, t) && JobAt(c, k).Some?
  {
    FirstAcceptableMeaning(c, true, t.events, Ordered(c, t));
    if t.events == [] && exists k :: k in Ordered(c, t) && JobAt(c, k).Some? {
      var k :| k in Ordered(c, t) && JobAt(c, k).Some?;
      var i :| 0 <= i < |Ordered(c, t)| && Ordered(c, t)[i] == k;
      assert Acceptable(true, t.events, JobAt(c, Ordered(c, t)[i]).value);
    }
  }

  /** A witness: one SubmitDelivery instruction for a pending payment of ours, and no event at all. */
  lemma StrictEmitsWithoutEvent(c: Context, key: string, payment: Payment)
    requires c.parse(key) == Some(Pubkey(key)) && c.read(Pubkey(key)) == Found(payment)
    requires payment.authority == c.oracle && payment.deliveryTimestamp != 0 && payment.resolutionState == 0
    ensures var ix := Partial(c.escrow.text, Some([c.discriminant]), ["", "", "", "", key]);
      var job := Select(c, true, Transaction(true, [ix], [], [], []));
      job.Some? && job.value.uid == payment.uid && job.value.pubkey == Pubkey(key)
  {
    var ix := Partial(c.escrow.text, Some([c.discriminant]), ["", "", "", "", key]);
    var t := Transaction(true, [ix], [], [], []);
    assert AllInstructions(t) == [ix];
    assert [ix][..0] == [];
    assert PaymentOf(c, [], ix) == Some(Pubkey(key));
    assert Candidates(c, [], [ix]) == [] + [Pubkey(key)] == [Pubkey(key)];
    assert [Pubkey(key)][..0] == [];
    assert SortByText([Pubkey(key)]) == Insert(Pubkey(key), []) == [Pubkey(key)];
    assert Ordered(c, t) == [Pubkey(key)];
  }

  // What is selected, in the fields of instructions, accounts and events.

  /** The instruction submits a delivery for this payment: it is the escrow program's, starts with the
      discriminant of SubmitDelivery, and has the payment as its fifth account. */
  predicate Submits(c: Context, keys: seq<string>, ix: Instruction, k: Pubkey) {
    match ix
    case FullyParsed => false
    case Partial(program, data, accounts) =>
      && program == c.escrow.text
      && data.Some? && |data.value| > 0 && data.value[0] == c.discriminant
      && |accounts| >= 5 && c.parse(accounts[4]) == Some(k)
    case Compiled(programIndex, data, indices) =>
      && programIndex < |keys| && c.parse(keys[programIndex]) == Some(c.escrow)
      && data.Some? && |data.value| > 0 && data.value[0] == c.discriminant
      && |indices| >= 5 && indices[4] < |keys| && c.parse(keys[indices[4]]) == Some(k)
  }

  /** The account is ours, delivered and unresolved, and an event names its payment and delivery, or there are
      no events. */
  predicate Qualifies(c: Context, events: seq<Event>, k: Pubkey) {
    && c.read(k).Found?
    && var p := c.read(k).payment;
    && p.authority == c.oracle && p.deliveryTimestamp != 0 && p.resolutionState == 0
    && (events == [] || exists i :: 0 <= i < |events| && events[i].uid == p.uid && events[i].deliveryHash == p.deliveryHash)
  }

  lemma PaymentOfSubmits(c: Context, keys: seq<string>, ix: Instruction, k: Pubkey)
    ensures PaymentOf(c, keys, ix) == Some(k) <==> Submits(c, keys, ix, k)
  {
  }

  lemma QualifiesIffAcceptable(c: Context, requireMatch: bool, events: seq<Event>, k: Pubkey)
    ensures Qualifies(c, events, k) <==> JobAt(c, k).Some? && Acceptable(requireMatch, events, JobAt(c, k).value)
    ensures JobAt(c, k).Some? ==> JobAt(c, k).value.pubkey == k
  {
  }

  /** The job comes from the first key that qualifies. */
  ghost predicate FromFirst(c: Context, events: seq<Event>, ks: seq<Pubkey>, job: Option<EvaluationJob>) {
    && (job.None? <==> forall k :: k in ks ==> !Qualifies(c, events, k))
    && (job.Some? ==>
          exists i :: 0 <= i < |ks| && ks[i] == job.value.pubkey && Qualifies(c, events, ks[i])
                      && forall h :: 0 <= h < i ==> !Qualifies(c, events, ks[h]))
  }

  lemma {:induction false} FirstQualifying(c: Context, requireMatch: bool, events: seq<Event>, ks: seq<Pubkey>)
    ensures FromFirst(c, events, ks, FirstAcceptable(c, requireMatch, events, ks))
    decreases |ks|
  {
    if ks != [] {
      var job := FirstAcceptable(c, requireMatch, events, ks);
      QualifiesIffAcceptable(c, requireMatch, events, ks[0]);
      FirstQualifying(c, requireMatch, events, ks[1..]);
      assert ks == [ks[0]] + ks[1..];
      if Qualifies(c, events, ks[0]) {
        assert ks[0] == job.value.pubkey;
      } else if job.Some? {
        var i :| 0 <= i < |ks[1..]| && ks[1..][i] == job.value.pubkey && Qualifies(c, events, ks[1..][i])
                 && forall h :: 0 <= h < i ==> !Qualifies(c, events, ks[1..][h]);
        assert ks[i + 1] == job.value.pubkey;
        forall h | 0 <= h < i + 1
          ensures !Qualifies(c, events, ks[h])
        {
          assert h > 0 ==> ks[h] == ks[1..][h - 1];
        }
      }
    }
  }

  /** Some instruction, outer or inner, submits a delivery for a payment that qualifies. */
  ghost predicate SubmissionQualifies(c: Context, t: Transaction) {
    exists ix, k :: ix in AllInstructions(t) && Submits(c, t.accountKeys, ix, k) && Qualifies(c, t.events, k)
  }

  lemma {:induction false} ParsedKey(c: Context, keys: seq<string>, k: Pubkey)
    ensures k in ParsedKeys(c, keys) <==> exists i :: 0 <= i < |keys| && c.parse(keys[i]) == Some(k)
    decreases |keys|
  {
    if keys != [] {
      ParsedKey(c, keys[1..], k);
      if i :| 0 <= i < |keys| && c.parse(keys[i]) == Some(k) {
        assert i > 0 ==> keys[1..][i - 1] == keys[i];
      }
      if i :| 0 <= i < |keys[1..]| && c.parse(keys[1..][i]) == Some(k) {
        assert keys[i + 1] == keys[1..][i];
      }
    }
  }

  /** Strict mode yields a job exactly when a submission qualifies. */
  lemma StrictSelectsExactly(c: Context, t: Transaction)
    requires t.jsonParsed
    ensures Select(c, true, t).Some? <==> SubmissionQualifies(c, t)
    ensures Select(c, true, t).Some? ==>
              exists ix :: ix in AllInstructions(t) && Submits(c, t.accountKeys, ix, Select(c, true, t).value.pubkey)
  {
    StructuredSelects(c, true, t);
  }

  lemma StructuredSelects(c: Context, requireMatch: bool, t: Transaction)
    ensures var job := FirstAcceptable(c, requireMatch, t.events, Ordered(c, t));
      && (job.Some? <==> SubmissionQualifies(c, t))
      && (job.Some? ==> exists ix :: ix in AllInstructions(t) && Submits(c, t.accountKeys, ix, job.value.pubkey))
  {
    var job := FirstAcceptable(c, requireMatch, t.events, Ordered(c, t));
    FirstQualifying(c, requireMatch, t.events, Ordered(c, t));
    if job.Some? {
      var i :| 0 <= i < |Ordered(c, t)| && Ordered(c, t)[i] == job.value.pubkey && Qualifies(c, t.events, Ordered(c, t)[i]);
      var ix := SubmittedBy(c, t, job.value.pubkey);
    }
    if SubmissionQualifies(c, t) {
      var ix, k :| ix in AllInstructions(t) && Submits(c, t.accountKeys, ix, k) && Qualifies(c, t.events, k);
      SubmittedIsOrdered(c, t, ix, k);
    }
  }

  lemma SubmittedBy(c: Context, t: Transaction, k: Pubkey) returns (ix: Instruction)
    requires k in Ordered(c, t)
    ensures ix in AllInstructions(t) && Submits(c, t.accountKeys, ix, k)
  {
    OrderedStrict(c, t);
    ix :| ix in AllInstructions(t) && PaymentOf(c, t.accountKeys, ix) == Some(k);
    PaymentOfSubmits(c, t.accountKeys, ix, k);
  }

  lemma SubmittedIsOrdered(c: Context, t: Transaction, ix: Instruction, k: Pubkey)
    requires ix in AllInstructions(t) && Submits(c, t.accountKeys, ix, k)
    ensures k in Ordered(c, t)
  {
    OrderedStrict(c, t);
    PaymentOfSubmits(c, t.accountKeys, ix, k);
  }

  /** The default mode also yields one when no submission qualifies but some account key of the transaction
      does, and then the job is that of the first such key. */
  lemma DefaultSelectsExactly(c: Context, t: Transaction)
    requires t.jsonParsed
    ensures Select(c, false, t).Some? <==>
            SubmissionQualifies(c, t)
            || exists i, k :: 0 <= i < |t.accountKeys| && c.parse(t.accountKeys[i]) == Some(k) && Qualifies(c, t.events, k)
    ensures !SubmissionQualifies(c, t) ==>
              FromFirst(c, t.events, ParsedKeys(c, t.accountKeys), Select(c, false, t))
  {
    StructuredSelects(c, false, t);
    FirstQualifying(c, false, t.events, ParsedKeys(c, t.accountKeys));
    forall k
      ensures k in ParsedKeys(c, t.accountKeys) <==>
              exists i :: 0 <= i < |t.accountKeys| && c.parse(t.accountKeys[i]) == Some(k)
    {
      ParsedKey(c, t.accountKeys, k);
    }
  }
}
