/** The startup scan: a newest-first walk over the program's signatures, page by page. */
module Backfill {
  import opened Types

  const PAGE_LIMIT: nat := 1000

  /** One entry of `getSignaturesForAddress`: `parses` says whether its signature text is well formed. */
  datatype Entry = Entry(signature: string, slot: nat, failed: bool, parses: bool)

  datatype Fetched = Job(job: EvaluationJob) | NoJob | FetchFailed

  /** What the scan is given: budget, old watermark, and the answers of the outside world: whether the
      n-th page request succeeds, what each transaction yields, whether the n-th send finds the channel open. */
  datatype Setup = Setup(
    max: nat,
    lastSeen: nat,
    rpc: nat -> bool,
    fetch: string -> Fetched,
    open: nat -> bool)

  datatype Stop = NoBudget | RpcError | EmptyPage | ShortPage | Watermark | ChannelClosed

  /** The loop's variables. `frontier` (how many of the newest entries have been examined) and `reread`
      (how often an entry was examined again) are history variables. */
  datatype Progress = Progress(
    scanned: nat,
    before: Option<string>,
    highest: nat,
    handed: seq<string>,
    emitted: seq<EvaluationJob>,
    pages: nat,
    frontier: nat,
    reread: nat)

  function Begin(s: Setup): Progress {
    Progress(0, None, s.lastSeen, [], [], 0, 0, 0)
  }

  predicate Skipped(e: Entry) {
    e.failed || !e.parses
  }

  predicate AtWatermark(s: Setup, e: Entry) {
    s.lastSeen > 0 && e.slot <= s.lastSeen
  }

  /** Where the page after the cursor begins. */
  function Start(history: seq<Entry>, before: Option<string>): (i: nat)
    ensures i <= |history|
  {
    if before.None? then 0 else AfterSignature(history, before.value, 0)
  }

  function AfterSignature(history: seq<Entry>, signature: string, i: nat): (k: nat)
    requires i <= |history|
    ensures k <= |history|
    decreases |history| - i
  {
    if i == |history| then i
    else if history[i].signature == signature then i + 1
    else AfterSignature(history, signature, i + 1)
  }

  /** The RPC's answer over a fixed history. */
  function Page(history: seq<Entry>, before: Option<string>, want: nat): seq<Entry> {
    var i := Start(history, before);
    history[i..Min(i + want, |history|)]
  }

  /** One entry, examined at position `at`; a stop ends the scan at once. */
  function Examine(s: Setup, e: Entry, at: nat, p: Progress): (Progress, Option<Stop>) {
    var seen := p.(scanned := p.scanned + 1, highest := Max(p.highest, e.slot),
                   frontier := Max(p.frontier, at + 1),
                   reread := p.reread + if at < p.frontier then 1 else 0);
    if AtWatermark(s, e) then (seen, Some(Watermark))
    else if Skipped(e) then (seen, None)
    else
      var handed := seen.(handed := seen.handed + [e.signature]);
      match s.fetch(e.signature)
      case Job(j) =>
        if !s.open(|p.emitted|) then (handed, Some(ChannelClosed))
        else (handed.(emitted := p.emitted + [j], before := Some(e.signature)), None)
      case _ => (handed.(before := Some(e.signature)), None)
  }

  /** The entries of one page, at positions `at` to `end`. */
  function Walk(s: Setup, history: seq<Entry>, at: nat, end: nat, p: Progress): (Progress, Option<Stop>)
    requires at <= end <= |history|
    decreases end - at
  {
    if at == end then (p, None)
    else
      var (p', stop) := Examine(s, history[at], at, p);
      if stop.Some? then (p', stop) else Walk(s, history, at + 1, end, p')
  }

  lemma {:induction false} WalkScans(s: Setup, history: seq<Entry>, at: nat, end: nat, p: Progress)
    requires at <= end <= |history|
    ensures var (p', stop) := Walk(s, history, at, end, p);
      && p.scanned <= p'.scanned <= p.scanned + (end - at)
      && (stop.None? ==> p'.scanned == p.scanned + (end - at))
    decreases end - at
  {
    if at < end {
      var (p', stop) := Examine(s, history[at], at, p);
      if stop.None? {
        WalkScans(s, history, at + 1, end, p');
      }
    }
  }

  /** What one turn of the outer loop does. */
  datatype Turn = Stopped(p: Progress, stop: Stop) | More(p: Progress)

  function AfterPage(p: Progress, stop: Option<Stop>, short: bool): Turn {
    if stop.Some? then Stopped(p, stop.value)
    else if short then Stopped(p, ShortPage)
    else More(p.(pages := p.pages + 1))
  }

  function ScanPage(s: Setup, history: seq<Entry>, p: Progress): (t: Turn)
    requires p.scanned <= s.max
    ensures p.scanned <= t.p.scanned <= s.max && (t.More? ==> p.scanned < t.p.scanned)
  {
    var want := Min(s.max - p.scanned, PAGE_LIMIT);
    if want == 0 then Stopped(p, NoBudget)
    else if !s.rpc(p.pages) then Stopped(p, RpcError)
    else
      var i := Start(history, p.before);
      var end := Min(i + want, |history|);
      if i == end then Stopped(p, EmptyPage)
      else
        WalkScans(s, history, i, end, p);
        var walked := Walk(s, history, i, end, p);
        AfterPage(walked.0, walked.1, end - i < want)
  }

  /** The scan from a page boundary on; the budget that is left is what shrinks. */
  function Scan(s: Setup, history: seq<Entry>, p: Progress): (Progress, Stop)
    requires p.scanned <= s.max
    decreases s.max - p.scanned
  {
    match ScanPage(s, history, p)
    case Stopped(q, stop) => (q, stop)
    case More(q) => Scan(s, history, q)
  }

  /** The inner loop: the entries of one batch, which starts at position `first` of the history. */
  method RunBatch(s: Setup, batch: seq<Entry>, scanned0: nat, before0: Option<string>, highest0: nat,
                  handed0: seq<string>, emitted0: seq<EvaluationJob>,
                  ghost history: seq<Entry>, ghost first: nat, ghost p: Progress)
    returns (scanned: nat, before: Option<string>, highest: nat, handed: seq<string>, emitted: seq<EvaluationJob>,
             stop: Option<Stop>, ghost frontier: nat, ghost reread: nat)
    requires p == Progress(scanned0, before0, highest0, handed0, emitted0, p.pages, p.frontier, p.reread)
    requires first + |batch| <= |history| && batch == history[first..first + |batch|]
    ensures var (q, halt) := Walk(s, history, first, first + |batch|, p);
      && stop == halt && scanned == q.scanned && before == q.before && highest == q.highest
      && handed == q.handed && emitted == q.emitted
    ensures Walk(s, history, first, first + |batch|, p).0
         == Progress(scanned, before, highest, handed, emitted, p.pages, frontier, reread)
  {
    scanned, before, highest, handed, emitted := scanned0, before0, highest0, handed0, emitted0;
    frontier, reread := p.frontier, p.reread;
    var k := 0;
    while k < |batch|
      invariant 0 <= k <= |batch|
      invariant Walk(s, history, first, first + |batch|, p)
             == Walk(s, history, first + k, first + |batch|,
                     Progress(scanned, before, highest, handed, emitted, p.pages, frontier, reread))
    {
      var entry := batch[k];
      assert entry == history[first + k];
      ghost var examined := Examine(s, entry, first + k,
                                    Progress(scanned, before, highest, handed, emitted, p.pages, frontier, reread));
      scanned := scanned + 1;
      if entry.slot > highest {
        highest := entry.slot;
      }
      reread := reread + if first + k < frontier then 1 else 0;
      frontier := Max(frontier, first + k + 1);
      k := k + 1;
      if s.lastSeen > 0 && entry.slot <= s.lastSeen {
        stop := Some(Watermark);
        return;
      }
      if !entry.failed && entry.parses {
        handed := handed + [entry.signature];
        var fetched := s.fetch(entry.signature);
        if fetched.Job? {
          if !s.open(|emitted|) {
            stop := Some(ChannelClosed);
            return;
          }
          emitted := emitted + [fetched.job];
        }
        before := Some(entry.signature);
      }
      assert examined
          == (Progress(scanned, before, highest, handed, emitted, p.pages, frontier, reread), None);
    }
    stop := None;
  }

  lemma PageTurn(s: Setup, history: seq<Entry>, p: Progress)
    requires p.scanned < s.max && s.rpc(p.pages)
    requires Page(history, p.before, Min(s.max - p.scanned, PAGE_LIMIT)) != []
    ensures var want := Min(s.max - p.scanned, PAGE_LIMIT);
      var batch, i := Page(history, p.before, want), Start(history, p.before);
      && i + |batch| <= |history| && batch == history[i..i + |batch|]
      && var walked := Walk(s, history, i, i + |batch|, p);
      && ScanPage(s, history, p) == AfterPage(walked.0, walked.1, |batch| < want)
  {
  }

  lemma NoPage(s: Setup, history: seq<Entry>, p: Progress) returns (stop: Stop)
    requires p.scanned <= s.max
    requires p.scanned == s.max || !s.rpc(p.pages) || Page(history, p.before, Min(s.max - p.scanned, PAGE_LIMIT)) == []
    ensures ScanPage(s, history, p) == Stopped(p, stop)
    ensures stop == if p.scanned == s.max then NoBudget else if !s.rpc(p.pages) then RpcError else EmptyPage
    ensures stop.EmptyPage? ==> Start(history, p.before) == |history|
  {
    stop := if p.scanned == s.max then NoBudget else if !s.rpc(p.pages) then RpcError else EmptyPage;
  }

  /** One turn of the outer loop: a page request and the entries it returns. Without a stop the scan goes on. */
  method RunPage(s: Setup, history: seq<Entry>, scanned0: nat, before0: Option<string>, highest0: nat,
                 handed0: seq<string>, emitted0: seq<EvaluationJob>, pages0: nat, ghost p: Progress)
    returns (scanned: nat, before: Option<string>, highest: nat, handed: seq<string>, emitted: seq<EvaluationJob>,
             pages: nat, stop: Option<Stop>, ghost frontier: nat, ghost reread: nat)
    requires p == Progress(scanned0, before0, highest0, handed0, emitted0, pages0, p.frontier, p.reread)
    requires scanned0 <= s.max
    ensures var t := ScanPage(s, history, p);
      && stop == (if t.Stopped? then Some(t.stop) else None)
      && scanned == t.p.scanned && before == t.p.before && highest == t.p.highest
      && handed == t.p.handed && emitted == t.p.emitted && pages == t.p.pages
    ensures ScanPage(s, history, p).p == Progress(scanned, before, highest, handed, emitted, pages, frontier, reread)
  {
    scanned, before, highest, handed, emitted, pages := scanned0, before0, highest0, handed0, emitted0, pages0;
    frontier, reread := p.frontier, p.reread;
    var want := Min(s.max - scanned, PAGE_LIMIT);
    if want == 0 {
      ghost var _ := NoPage(s, history, p);
      stop := Some(NoBudget);
      return;
    }
    if !s.rpc(pages) {
      ghost var _ := NoPage(s, history, p);
      stop := Some(RpcError);
      return;
    }
    var batch := Page(history, before, want);
    if batch == [] {
      ghost var _ := NoPage(s, history, p);
      stop := Some(EmptyPage);
      return;
    }
    ghost var first := Start(history, before);
    PageTurn(s, history, p);
    scanned, before, highest, handed, emitted, stop, frontier, reread :=
      RunBatch(s, batch, scanned, before, highest, handed, emitted, history, first, p);
    assert ScanPage(s, history, p)
        == AfterPage(Progress(scanned, before, highest, handed, emitted, pages, frontier, reread), stop, |batch| < want);
    if stop.None? {
      if |batch| < want {
        stop := Some(ShortPage);
      } else {
        pages := pages + 1;
      }
    }
  }

  /** The scan loop. */
  method Run(s: Setup, history: seq<Entry>)
    returns (scanned: nat, before: Option<string>, highest: nat, handed: seq<string>, emitted: seq<EvaluationJob>,
             pages: nat, stop: Stop, ghost frontier: nat, ghost reread: nat)
    ensures var (q, end) := Scan(s, history, Begin(s));
      && stop == end && scanned == q.scanned && before == q.before && highest == q.highest
      && handed == q.handed && emitted == q.emitted && pages == q.pages
    ensures Scan(s, history, Begin(s)).0
         == Progress(scanned, before, highest, handed, emitted, pages, frontier, reread)
  {
    scanned, before, highest, handed, emitted, pages := 0, None, s.lastSeen, [], [], 0;
    frontier, reread := 0, 0;
    while true
      invariant scanned <= s.max
      invariant Scan(s, history, Begin(s))
             == Scan(s, history, Progress(scanned, before, highest, handed, emitted, pages, frontier, reread))
      decreases s.max - scanned
    {
      ghost var p := Progress(scanned, before, highest, handed, emitted, pages, frontier, reread);
      var halt: Option<Stop>;
      scanned, before, highest, handed, emitted, pages, halt, frontier, reread :=
        RunPage(s, history, scanned, before, highest, handed, emitted, pages, p);
      if halt.Some? {
        stop := halt.value;
        return;
      }
    }
  }
}
