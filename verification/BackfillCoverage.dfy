/** What the startup scan covers, and what its watermark may be trusted for. */
module BackfillCoverage {
  import opened Types
  import opened Backfill

  ghost predicate Distinct(history: seq<Entry>) {
    forall i, j :: 0 <= i < j < |history| ==> history[i].signature != history[j].signature
  }

  /** The signatures a gapless scan of the newest `n` entries hands on, newest first. */
  function Handable(es: seq<Entry>, n: nat): seq<string>
    requires n <= |es|
  {
    if n == 0 then []
    else Handable(es, n - 1) + if es[n - 1].failed || !es[n - 1].parses then [] else [es[n - 1].signature]
  }

  function MaxSlot(floor: nat, es: seq<Entry>, n: nat): nat
    requires n <= |es|
  {
    if n == 0 then floor else Max(MaxSlot(floor, es, n - 1), es[n - 1].slot)
  }

  /** The jobs of the handed signatures, in order. */
  function JobsOf(s: Setup, handed: seq<string>): seq<EvaluationJob> {
    if handed == [] then []
    else
      var last := |handed| - 1;
      JobsOf(s, handed[..last])
      + match s.fetch(handed[last]) case Job(j) => [j] case _ => []
  }

  lemma JobsSnoc(s: Setup, handed: seq<string>, x: string)
    ensures JobsOf(s, handed + [x])
         == JobsOf(s, handed) + match s.fetch(x) case Job(j) => [j] case _ => []
  {
    assert (handed + [x])[..|handed|] == handed;
  }

  lemma CursorPosition(history: seq<Entry>, i: nat)
    requires Distinct(history) && i < |history|
    ensures Start(history, Some(history[i].signature)) == i + 1
  {
    FoundBehind(history, i, 0);
  }

  lemma {:induction false} FoundBehind(history: seq<Entry>, i: nat, from: nat)
    requires Distinct(history) && from <= i < |history|
    ensures AfterSignature(history, history[i].signature, from) == i + 1
    decreases i - from
  {
    if from < i {
      FoundBehind(history, i, from + 1);
    }
  }

  /** Between two entries, `at` being the next position: everything before the frontier has been handed on
      exactly once and in order, and whatever lies between cursor and frontier is skippable. */
  ghost predicate NoGap(s: Setup, history: seq<Entry>, p: Progress, at: nat) {
    && Start(history, p.before) <= at <= p.frontier <= |history|
    && p.scanned == p.frontier + p.reread
    && p.handed == Handable(history, p.frontier)
    && p.emitted == JobsOf(s, p.handed)
    && p.highest == MaxSlot(s.lastSeen, history, p.frontier)
    && (forall i :: Start(history, p.before) <= i < p.frontier ==> (history[i].failed || !history[i].parses))
    && (forall i :: 0 <= i < p.frontier ==> !AtWatermark(s, history[i]))
  }

  /** The entries the scan has dealt with; the one that shows the watermark is not handed on. */
  function Done(p: Progress, stop: Stop): nat {
    if stop.Watermark? && p.frontier > 0 then p.frontier - 1 else p.frontier
  }

  /** The state in which the scan stops. */
  ghost predicate Ended(s: Setup, history: seq<Entry>, p: Progress, stop: Stop) {
    && p.frontier <= |history|
    && p.scanned == p.frontier + p.reread
    && p.highest == MaxSlot(s.lastSeen, history, p.frontier)
    && p.handed == Handable(history, Done(p, stop))
    && (forall i :: 0 <= i < Done(p, stop) ==> !AtWatermark(s, history[i]))
    && (stop.Watermark? ==> p.frontier > 0 && AtWatermark(s, history[p.frontier - 1]))
    && (stop.EmptyPage? || stop.ShortPage? ==> p.frontier == |history|)
    && (stop.NoBudget? ==> p.scanned == s.max)
    && (if stop.ChannelClosed? then p.handed != [] && p.emitted == JobsOf(s, p.handed[..|p.handed| - 1])
        else p.emitted == JobsOf(s, p.handed))
  }

  /** A stop in the middle of a page. */
  ghost predicate StoppedWithin(s: Setup, history: seq<Entry>, p: Progress, stop: Stop) {
    (stop.Watermark? || stop.ChannelClosed?) && Ended(s, history, p, stop)
  }

  /** Examining a known entry again changes nothing but the counters: it is skippable. */
  lemma ExamineKnown(s: Setup, history: seq<Entry>, p: Progress, at: nat)
    requires at < p.frontier && NoGap(s, history, p, at)
    ensures var (p', stop) := Examine(s, history[at], at, p); stop.None? && NoGap(s, history, p', at + 1)
  {
    MaxSlotCovers(s.lastSeen, history, p.frontier, at);
    assert (history[at].failed || !history[at].parses) && !AtWatermark(s, history[at]);
    assert Examine(s, history[at], at, p).0 == p.(scanned := p.scanned + 1, reread := p.reread + 1);
  }

  lemma ExamineNew(s: Setup, history: seq<Entry>, p: Progress, at: nat)
    requires Distinct(history) && at == p.frontier < |history| && NoGap(s, history, p, at)
    ensures var (p', stop) := Examine(s, history[at], at, p);
      if stop.None? then NoGap(s, history, p', at + 1) else StoppedWithin(s, history, p', stop.value)
  {
    var e := history[at];
    if AtWatermark(s, e) {
      assert Examine(s, e, at, p).0.handed == Handable(history, at);
    } else if e.failed || !e.parses {
      assert Examine(s, e, at, p).0.before == p.before;
    } else {
      ExamineUsable(s, history, p, at);
    }
  }

  /** A usable entry whose transaction has been dealt with moves cursor and frontier behind it. */
  lemma HandedOnNoGap(s: Setup, history: seq<Entry>, p: Progress, at: nat, jobs: seq<EvaluationJob>)
    requires Distinct(history) && at == p.frontier < |history| && NoGap(s, history, p, at)
    requires !AtWatermark(s, history[at]) && !history[at].failed && history[at].parses
    requires jobs == match s.fetch(history[at].signature) case Job(j) => [j] case _ => []
    ensures NoGap(s, history,
                  Progress(p.scanned + 1, Some(history[at].signature), Max(p.highest, history[at].slot),
                           p.handed + [history[at].signature], p.emitted + jobs, p.pages, at + 1, p.reread), at + 1)
  {
    CursorPosition(history, at);
    JobsSnoc(s, p.handed, history[at].signature);
  }

  /** A closed channel stops the scan after the entry was handed on, before its job went out. */
  lemma ClosedChannelEnds(s: Setup, history: seq<Entry>, p: Progress, at: nat)
    requires at == p.frontier < |history| && NoGap(s, history, p, at)
    requires !AtWatermark(s, history[at]) && !history[at].failed && history[at].parses
    ensures StoppedWithin(s, history,
                          Progress(p.scanned + 1, p.before, Max(p.highest, history[at].slot),
                                   p.handed + [history[at].signature], p.emitted, p.pages, at + 1, p.reread),
                          ChannelClosed)
  {
    assert (p.handed + [history[at].signature])[..|p.handed|] == p.handed;
  }

  lemma ExamineUsable(s: Setup, history: seq<Entry>, p: Progress, at: nat)
    requires Distinct(history) && at == p.frontier < |history| && NoGap(s, history, p, at)
    requires !AtWatermark(s, history[at]) && !history[at].failed && history[at].parses
    ensures var (p', stop) := Examine(s, history[at], at, p);
      if stop.None? then NoGap(s, history, p', at + 1) else StoppedWithin(s, history, p', stop.value)
  {
    var fetched := s.fetch(history[at].signature);
    if fetched.Job? && !s.open(|p.emitted|) {
      ClosedChannelEnds(s, history, p, at);
    } else {
      var jobs := match fetched case Job(j) => [j] case _ => [];
      HandedOnNoGap(s, history, p, at, jobs);
      assert p.emitted + [] == p.emitted;
    }
  }

  lemma ExamineKeepsNoGap(s: Setup, history: seq<Entry>, p: Progress, at: nat)
    requires Distinct(history) && at < |history| && NoGap(s, history, p, at)
    ensures var (p', stop) := Examine(s, history[at], at, p);
      if stop.None? then NoGap(s, history, p', at + 1) else StoppedWithin(s, history, p', stop.value)
  {
    if at < p.frontier {
      ExamineKnown(s, history, p, at);
    } else {
      ExamineNew(s, history, p, at);
    }
  }

  lemma {:induction false} MaxSlotCovers(floor: nat, es: seq<Entry>, n: nat, i: nat)
    requires i < n <= |es|
    ensures es[i].slot <= MaxSlot(floor, es, n)
  {
    if i < n - 1 {
      MaxSlotCovers(floor, es, n - 1, i);
    }
  }

  lemma {:induction false} WalkKeepsNoGap(s: Setup, history: seq<Entry>, at: nat, end: nat, p: Progress)
    requires Distinct(history) && at <= end <= |history| && NoGap(s, history, p, at)
    ensures var (p', stop) := Walk(s, history, at, end, p);
      if stop.None? then NoGap(s, history, p', end) else StoppedWithin(s, history, p', stop.value)
    decreases end - at
  {
    if at < end {
      ExamineKeepsNoGap(s, history, p, at);
      var (p', stop) := Examine(s, history[at], at, p);
      if stop.None? {
        WalkKeepsNoGap(s, history, at + 1, end, p');
      }
    }
  }

  ghost predicate TurnOk(s: Setup, history: seq<Entry>, t: Turn) {
    if t.Stopped? then Ended(s, history, t.p, t.stop) else NoGap(s, history, t.p, Start(history, t.p.before))
  }

  lemma BoundaryStop(s: Setup, history: seq<Entry>, p: Progress, stop: Stop)
    requires NoGap(s, history, p, Start(history, p.before))
    requires stop.RpcError? || (stop.NoBudget? && p.scanned == s.max)
             || (stop.EmptyPage? && Start(history, p.before) == |history|)
    ensures TurnOk(s, history, Stopped(p, stop))
  {
  }

  lemma PageKeepsNoGap(s: Setup, history: seq<Entry>, p: Progress)
    requires Distinct(history) && p.scanned <= s.max && NoGap(s, history, p, Start(history, p.before))
    ensures TurnOk(s, history, ScanPage(s, history, p))
  {
    var batch := Page(history, p.before, Min(s.max - p.scanned, PAGE_LIMIT));
    if p.scanned == s.max || !s.rpc(p.pages) || batch == [] {
      var stop := NoPage(s, history, p);
      BoundaryStop(s, history, p, stop);
    } else {
      var i := Start(history, p.before);
      PageTurn(s, history, p);
      WalkedPageKeepsNoGap(s, history, p, i, i + |batch|, |batch| < Min(s.max - p.scanned, PAGE_LIMIT));
    }
  }

  lemma WalkedPageKeepsNoGap(s: Setup, history: seq<Entry>, p: Progress, i: nat, end: nat, short: bool)
    requires Distinct(history) && i <= end <= |history| && NoGap(s, history, p, i)
    requires short ==> end == |history|
    ensures var walked := Walk(s, history, i, end, p); TurnOk(s, history, AfterPage(walked.0, walked.1, short))
  {
    WalkKeepsNoGap(s, history, i, end, p);
    var walked := Walk(s, history, i, end, p);
    AfterPageKeepsNoGap(s, history, walked.0, walked.1, short, end);
  }

  lemma AfterPageKeepsNoGap(s: Setup, history: seq<Entry>, p: Progress, stop: Option<Stop>, short: bool, end: nat)
    requires if stop.None? then NoGap(s, history, p, end) else StoppedWithin(s, history, p, stop.value)
    requires short ==> end == |history|
    ensures TurnOk(s, history, AfterPage(p, stop, short))
  {
  }

  lemma {:induction false} ScanEnds(s: Setup, history: seq<Entry>, p: Progress)
    requires Distinct(history) && p.scanned <= s.max
    requires NoGap(s, history, p, Start(history, p.before))
    ensures var (q, stop) := Scan(s, history, p); Ended(s, history, q, stop) && q.scanned <= s.max
    decreases s.max - p.scanned
  {
    PageKeepsNoGap(s, history, p);
    var t := ScanPage(s, history, p);
    if t.More? {
      ScanEnds(s, history, t.p);
    }
  }

  /** The scan leaves no gap: the examined prefix is handed on completely, once, in order (up to the entry
      that shows the watermark), its jobs are emitted, and `max - scanned` never goes below zero. */
  lemma ScanCoverage(s: Setup, history: seq<Entry>)
    requires Distinct(history)
    ensures var (p, stop) := Scan(s, history, Begin(s)); Ended(s, history, p, stop) && p.scanned <= s.max
  {
    ScanEnds(s, history, Begin(s));
  }

  /** The same in the entries' own fields. Among the entries dealt with, exactly the successful ones with a
      well-formed signature are handed on, each once and in history order; none of them is at the watermark; and
      the jobs emitted are those the handed transactions yield (a closed channel holds back the last one). */
  lemma HandedInOwnFields(s: Setup, history: seq<Entry>)
    requires Distinct(history)
    ensures var (p, stop) := Scan(s, history, Begin(s));
      var done := if stop.Watermark? then p.frontier - 1 else p.frontier;
      && 0 <= done <= p.frontier <= |history|
      && (forall i :: 0 <= i < done ==>
            (history[i].signature in p.handed <==> !history[i].failed && history[i].parses))
      && (forall a, b :: 0 <= a < b < |p.handed| ==> InOrder(history, done, p.handed[a], p.handed[b]))
      && (forall x :: x in p.handed ==> exists i :: 0 <= i < done && history[i].signature == x)
      && (forall i :: 0 <= i < done ==> s.lastSeen == 0 || s.lastSeen < history[i].slot)
      && (stop.Watermark? ==> 0 < s.lastSeen && history[done].slot <= s.lastSeen)
      && (!stop.ChannelClosed? ==>
            forall j :: j in p.emitted <==> exists x :: x in p.handed && s.fetch(x) == Fetched.Job(j))
  {
    ScanCoverage(s, history);
    var (p, stop) := Scan(s, history, Begin(s));
    HandableInOwnFields(history, Done(p, stop));
    forall j
      ensures j in JobsOf(s, p.handed) <==> exists x :: x in p.handed && s.fetch(x) == Fetched.Job(j)
    {
      JobsMember(s, p.handed, j);
    }
  }

  lemma HandableInOwnFields(history: seq<Entry>, n: nat)
    requires Distinct(history) && n <= |history|
    ensures var handed := Handable(history, n);
      && (forall i :: 0 <= i < n ==> (history[i].signature in handed <==> !history[i].failed && history[i].parses))
      && (forall a, b :: 0 <= a < b < |handed| ==> InOrder(history, n, handed[a], handed[b]))
      && (forall x :: x in handed ==> exists i :: 0 <= i < n && history[i].signature == x)
  {
    var handed := Handable(history, n);
    forall i | 0 <= i < n
      ensures history[i].signature in handed <==> !history[i].failed && history[i].parses
    {
      HandedIffUsable(history, n, i);
    }
    forall a, b | 0 <= a < b < |handed|
      ensures InOrder(history, n, handed[a], handed[b])
    {
      HandableOrder(history, n, a, b);
    }
    forall x | x in handed
      ensures exists i :: 0 <= i < n && history[i].signature == x
    {
      var i := HandableFrom(history, n, x);
    }
  }

  /** One signature before the other among the newest `n` entries. */
  ghost predicate InOrder(history: seq<Entry>, n: nat, x: string, y: string)
    requires n <= |history|
  {
    exists i, j :: 0 <= i < j < n && history[i].signature == x && history[j].signature == y
  }

  lemma HandedIffUsable(history: seq<Entry>, n: nat, i: nat)
    requires Distinct(history) && i < n <= |history|
    ensures history[i].signature in Handable(history, n) <==> !history[i].failed && history[i].parses
  {
    if !history[i].failed && history[i].parses {
      HandableHas(history, n, i);
    } else if history[i].signature in Handable(history, n) {
      var _ := HandableFrom(history, n, history[i].signature);
    }
  }

  lemma {:induction false} HandableOrder(history: seq<Entry>, n: nat, a: nat, b: nat)
    requires n <= |history| && a < b < |Handable(history, n)|
    ensures InOrder(history, n, Handable(history, n)[a], Handable(history, n)[b])
  {
    var before := Handable(history, n - 1);
    if b < |before| {
      HandableOrder(history, n - 1, a, b);
      var i, j :| 0 <= i < j < n - 1 && history[i].signature == before[a] && history[j].signature == before[b];
    } else {
      assert before[a] in before;
      var i := HandableFrom(history, n - 1, before[a]);
      assert 0 <= i < n - 1 && history[n - 1].signature == Handable(history, n)[b];
    }
  }

  lemma {:induction false} JobsMember(s: Setup, handed: seq<string>, j: EvaluationJob)
    ensures j in JobsOf(s, handed) <==> exists x :: x in handed && s.fetch(x) == Fetched.Job(j)
    decreases |handed|
  {
    if handed != [] {
      var last := |handed| - 1;
      JobsMember(s, handed[..last], j);
      assert handed == handed[..last] + [handed[last]];
    }
  }

  // Which part of the budget is spent on new entries.

  lemma {:induction false} WalkReread(s: Setup, history: seq<Entry>, at: nat, end: nat, p: Progress)
    requires at <= end <= |history|
    ensures Walk(s, history, at, end, p).0.reread >= p.reread
    ensures at < p.frontier && at < end ==> Walk(s, history, at, end, p).0.reread > p.reread
    decreases end - at
  {
    if at < end {
      var (p', stop) := Examine(s, history[at], at, p);
      if stop.None? {
        WalkReread(s, history, at + 1, end, p');
      }
    }
  }

  lemma PageReread(s: Setup, history: seq<Entry>, p: Progress)
    requires p.scanned <= s.max
    ensures var t := ScanPage(s, history, p);
      && t.p.reread >= p.reread
      && (Start(history, p.before) < p.frontier <= |history| && p.scanned < s.max ==>
            t.p.reread > p.reread || (t.Stopped? && t.stop == RpcError))
  {
    var i := Start(history, p.before);
    var end := Min(i + Min(s.max - p.scanned, PAGE_LIMIT), |history|);
    WalkReread(s, history, i, end, p);
  }

  lemma {:induction false} ScanReread(s: Setup, history: seq<Entry>, p: Progress)
    requires p.scanned <= s.max
    ensures Scan(s, history, p).0.reread >= p.reread
    decreases s.max - p.scanned
  {
    PageReread(s, history, p);
    var t := ScanPage(s, history, p);
    if t.More? {
      ScanReread(s, history, t.p);
    }
  }

  /** Walking a page from the frontier on re-reads nothing, and the cursor ends up right behind the page
      exactly when the page's last entry is usable. */
  lemma {:induction false} FreshWalk(s: Setup, history: seq<Entry>, at: nat, end: nat, p: Progress)
    requires Distinct(history) && at <= end <= |history|
    requires p.frontier == at && Start(history, p.before) <= at
    ensures var (p', stop) := Walk(s, history, at, end, p);
      && p'.reread == p.reread && p'.pages == p.pages
      && (stop.None? ==> p'.frontier == end && Start(history, p'.before) <= end)
      && (stop.None? && at < end ==>
            (Start(history, p'.before) == end <==> (!history[end - 1].failed && history[end - 1].parses)))
    decreases end - at
  {
    if at < end {
      CursorPosition(history, at);
      var (p', stop) := Examine(s, history[at], at, p);
      if stop.None? {
        FreshWalk(s, history, at + 1, end, p');
      }
    }
  }

  /** At the start of page `k` nothing has been re-read yet. */
  ghost predicate Aligned(s: Setup, history: seq<Entry>, p: Progress, k: nat) {
    && p.scanned == p.frontier == Start(history, p.before) == k * PAGE_LIMIT <= |history|
    && p.scanned <= s.max && p.reread == 0
  }

  /** A page has at most 1000 entries. */
  function PageEnd(j: nat): nat {
    j * 1000
  }

  /** Some later full page that the budget goes beyond ends in a skippable entry. */
  ghost predicate BadPageEnd(s: Setup, history: seq<Entry>, from: nat) {
    exists j: nat :: from < PageEnd(j) < s.max && PageEnd(j) <= |history| &&
                     (history[PageEnd(j) - 1].failed || !history[PageEnd(j) - 1].parses)
  }

  /** A full page from an aligned start: the next page is aligned exactly when this one ends well. */
  lemma AlignedPage(s: Setup, history: seq<Entry>, p: Progress, k: nat)
    requires Distinct(history) && Aligned(s, history, p, k)
    ensures var t := ScanPage(s, history, p);
      && t.p.reread == 0
      && (t.More? ==>
            && t.p.scanned == t.p.frontier == Min(s.max, (k + 1) * PAGE_LIMIT) <= |history|
            && (Start(history, t.p.before) == t.p.frontier <==>
                (!history[t.p.frontier - 1].failed && history[t.p.frontier - 1].parses))
            && Start(history, t.p.before) <= t.p.frontier)
      && (t.Stopped? && t.stop == NoBudget ==> p.scanned == s.max)
  {
    var i := p.scanned;
    var end := Min(i + Min(s.max - p.scanned, PAGE_LIMIT), |history|);
    WalkScans(s, history, i, end, p);
    FreshWalk(s, history, i, end, p);
    WalkStops(s, history, i, end, p);
  }

  lemma {:induction false} WalkStops(s: Setup, history: seq<Entry>, at: nat, end: nat, p: Progress)
    requires at <= end <= |history|
    ensures var stop := Walk(s, history, at, end, p).1;
      stop.None? || stop == Some(Watermark) || stop == Some(ChannelClosed)
    ensures (forall n: nat :: s.open(n)) ==> Walk(s, history, at, end, p).1 != Some(ChannelClosed)
    decreases end - at
  {
    if at < end {
      var (p', stop) := Examine(s, history[at], at, p);
      if stop.None? {
        WalkStops(s, history, at + 1, end, p');
      }
    }
  }

  lemma {:induction false} AlignedScan(s: Setup, history: seq<Entry>, p: Progress, k: nat)
    requires Distinct(history) && Aligned(s, history, p, k)
    ensures var (q, stop) := Scan(s, history, p);
      stop == NoBudget ==> (q.reread == 0 <==> !BadPageEnd(s, history, p.scanned))
    decreases s.max - p.scanned
  {
    AlignedPage(s, history, p, k);
    var t := ScanPage(s, history, p);
    if t.More? {
      var end := t.p.scanned;
      if end == s.max {
        ScanAtLimit(s, history, t.p);
        NoPageEndBetween(s, history, p.scanned, k);
      } else {
        assert end == (k + 1) * PAGE_LIMIT;
        NoPageEndBefore(s, history, k);
        if history[end - 1].failed || !history[end - 1].parses {
          NextPageRereads(s, history, t.p);
        } else {
          AlignedScan(s, history, t.p, k + 1);
        }
      }
    }
  }

  lemma ScanAtLimit(s: Setup, history: seq<Entry>, p: Progress)
    requires p.scanned == s.max
    ensures Scan(s, history, p) == (p, NoBudget)
  {
  }

  lemma NoPageEndBetween(s: Setup, history: seq<Entry>, from: nat, k: nat)
    requires from == k * PAGE_LIMIT && s.max <= (k + 1) * PAGE_LIMIT
    ensures !BadPageEnd(s, history, from)
  {
  }

  /** The next page end after `k` pages is the one of page `k + 1`. */
  lemma NoPageEndBefore(s: Setup, history: seq<Entry>, k: nat)
    requires (k + 1) * PAGE_LIMIT < s.max && (k + 1) * PAGE_LIMIT <= |history|
    ensures BadPageEnd(s, history, k * PAGE_LIMIT)
       <==> history[(k + 1) * PAGE_LIMIT - 1].failed || !history[(k + 1) * PAGE_LIMIT - 1].parses
            || BadPageEnd(s, history, (k + 1) * PAGE_LIMIT)
  {
    var e := PageEnd(k + 1);
    if BadPageEnd(s, history, k * PAGE_LIMIT) && !history[e - 1].failed && history[e - 1].parses {
      var j: nat :| k * PAGE_LIMIT < PageEnd(j) < s.max && PageEnd(j) <= |history|
                    && (history[PageEnd(j) - 1].failed || !history[PageEnd(j) - 1].parses);
      assert j > k + 1;
    }
    if BadPageEnd(s, history, e) {
      var j: nat :| e < PageEnd(j) < s.max && PageEnd(j) <= |history|
                    && (history[PageEnd(j) - 1].failed || !history[PageEnd(j) - 1].parses);
      assert PageEnd(j) > k * PAGE_LIMIT;
    }
  }

  /** A cursor that lags behind the frontier makes the next page start with known entries. */
  lemma NextPageRereads(s: Setup, history: seq<Entry>, p: Progress)
    requires p.scanned < s.max && Start(history, p.before) < p.frontier <= |history|
    ensures var (q, stop) := Scan(s, history, p); stop == NoBudget ==> q.reread > 0
  {
    PageReread(s, history, p);
    var t := ScanPage(s, history, p);
    if t.More? {
      ScanReread(s, history, t.p);
    }
  }

  /** A scan that runs out of budget has covered the newest `max` signatures if and only if no full page
      before the last ended in a failed or unparsable entry. */
  lemma BudgetCoverage(s: Setup, history: seq<Entry>)
    requires Distinct(history)
    ensures var (p, stop) := Scan(s, history, Begin(s));
      stop == NoBudget ==> (p.frontier == s.max <==> !BadPageEnd(s, history, 0))
  {
    ScanCoverage(s, history);
    AlignedScan(s, history, Begin(s), 0);
  }

  lemma {:induction false} SkippableWalk(s: Setup, history: seq<Entry>, at: nat, end: nat, p: Progress)
    requires at <= end <= |history|
    requires forall i :: at <= i < end ==>
               (history[i].failed || !history[i].parses) && (s.lastSeen == 0 || s.lastSeen < history[i].slot)
    ensures var (p', stop) := Walk(s, history, at, end, p);
      stop.None? && p'.handed == p.handed && p'.before == p.before && p'.frontier <= Max(p.frontier, end)
    decreases end - at
  {
    if at < end {
      SkippableWalk(s, history, at + 1, end, Examine(s, history[at], at, p).0);
    }
  }

  ghost predicate Stuck(p: Progress) {
    p.before == None && p.handed == [] && p.frontier <= PAGE_LIMIT
  }

  lemma StuckPage(s: Setup, history: seq<Entry>, p: Progress)
    requires |history| >= PAGE_LIMIT && Stuck(p) && p.scanned <= s.max
    requires forall i :: 0 <= i < PAGE_LIMIT ==>
               (history[i].failed || !history[i].parses) && (s.lastSeen == 0 || s.lastSeen < history[i].slot)
    ensures Stuck(ScanPage(s, history, p).p)
  {
    var end := Min(s.max - p.scanned, PAGE_LIMIT);
    assert Start(history, p.before) == 0;
    SkippableWalk(s, history, 0, end, p);
  }

  lemma {:induction false} StuckScan(s: Setup, history: seq<Entry>, p: Progress)
    requires |history| >= PAGE_LIMIT && Stuck(p) && p.scanned <= s.max
    requires forall i :: 0 <= i < PAGE_LIMIT ==>
               (history[i].failed || !history[i].parses) && (s.lastSeen == 0 || s.lastSeen < history[i].slot)
    ensures Stuck(Scan(s, history, p).0)
    decreases s.max - p.scanned
  {
    StuckPage(s, history, p);
    var t := ScanPage(s, history, p);
    if t.More? {
      StuckScan(s, history, t.p);
    }
  }

  /** A newest page of failed entries stops the scan for good: whatever the budget, it re-reads that page
      until the budget is spent and never reaches the deliveries behind it. */
  lemma FailedPageBlocksScan(s: Setup, history: seq<Entry>)
    requires |history| >= PAGE_LIMIT
    requires forall i :: 0 <= i < PAGE_LIMIT ==>
               (history[i].failed || !history[i].parses) && (s.lastSeen == 0 || s.lastSeen < history[i].slot)
    ensures var p := Scan(s, history, Begin(s)).0; p.handed == [] && p.frontier <= PAGE_LIMIT
  {
    StuckScan(s, history, Begin(s));
  }

  // The watermark.

  ghost predicate NewestFirst(history: seq<Entry>) {
    forall i, j :: 0 <= i < j < |history| ==> history[j].slot <= history[i].slot
  }

  /** Everything usable between the old watermark and the new one has been handed on. */
  ghost predicate Sound(s: Setup, history: seq<Entry>, p: Progress) {
    forall i :: 0 <= i < |history| && !history[i].failed && history[i].parses
                && s.lastSeen < history[i].slot <= p.highest ==>
      history[i].signature in p.handed
  }

  lemma {:induction false} HandableHas(es: seq<Entry>, n: nat, i: nat)
    requires i < n <= |es| && !es[i].failed && es[i].parses
    ensures es[i].signature in Handable(es, n)
  {
    if i < n - 1 {
      HandableHas(es, n - 1, i);
    }
  }

  lemma {:induction false} HandableFrom(es: seq<Entry>, n: nat, x: string) returns (i: nat)
    requires n <= |es| && x in Handable(es, n)
    ensures i < n && !es[i].failed && es[i].parses && es[i].signature == x
  {
    if x in Handable(es, n - 1) {
      i := HandableFrom(es, n - 1, x);
    } else {
      i := n - 1;
    }
  }

  lemma {:induction false} MaxSlotSource(floor: nat, es: seq<Entry>, n: nat)
    requires n <= |es|
    ensures MaxSlot(floor, es, n) >= floor
    ensures MaxSlot(floor, es, n) == floor || exists i :: 0 <= i < n && es[i].slot == MaxSlot(floor, es, n)
  {
    if n > 0 {
      MaxSlotSource(floor, es, n - 1);
      assert MaxSlot(floor, es, n) == es[n - 1].slot || MaxSlot(floor, es, n) == MaxSlot(floor, es, n - 1);
    }
  }

  /** The new watermark is the old one or a slot that was examined, and no examined slot is above it. */
  lemma WatermarkIsMaximum(s: Setup, history: seq<Entry>)
    requires Distinct(history)
    ensures var p := Scan(s, history, Begin(s)).0;
      && p.frontier <= |history| && p.highest >= s.lastSeen
      && (forall i :: 0 <= i < p.frontier ==> history[i].slot <= p.highest)
      && (p.highest == s.lastSeen || exists i :: 0 <= i < p.frontier && history[i].slot == p.highest)
  {
    ScanCoverage(s, history);
    var p := Scan(s, history, Begin(s)).0;
    MaxSlotSource(s.lastSeen, history, p.frontier);
    forall i | 0 <= i < p.frontier
      ensures history[i].slot <= p.highest
    {
      MaxSlotCovers(s.lastSeen, history, p.frontier, i);
    }
  }

  /** A scan that ends by an empty page, a short page or at the old watermark leaves a sound watermark. */
  lemma WatermarkSoundAtEnd(s: Setup, history: seq<Entry>)
    requires Distinct(history) && NewestFirst(history)
    ensures var (p, stop) := Scan(s, history, Begin(s));
      stop.EmptyPage? || stop.ShortPage? || stop.Watermark? ==> Sound(s, history, p)
  {
    ScanCoverage(s, history);
    var (p, stop) := Scan(s, history, Begin(s));
    if stop.EmptyPage? || stop.ShortPage? || stop.Watermark? {
      var n := Done(p, stop);
      forall i | 0 <= i < |history| && !history[i].failed && history[i].parses
                 && s.lastSeen < history[i].slot <= p.highest
        ensures history[i].signature in p.handed
      {
        if i < n {
          HandableHas(history, n, i);
        } else {
          BelowWatermark(s, history, n, i);
        }
      }
    }
  }

  /** From an entry at the watermark on, nothing is above it. */
  lemma BelowWatermark(s: Setup, history: seq<Entry>, n: nat, i: nat)
    requires NewestFirst(history) && n <= i < |history| && (n < |history| ==> AtWatermark(s, history[n]))
    ensures history[i].slot <= s.lastSeen
  {
    if n < i {
      assert history[i].slot <= history[n].slot;
    }
  }

  /** However the scan stops, also after an RPC error or on a closed channel: its watermark is sound exactly
      when nothing was examined or the frontier has passed every usable entry above the old watermark. */
  lemma SoundExactlyToFrontier(s: Setup, history: seq<Entry>)
    requires Distinct(history) && NewestFirst(history)
    ensures var p := Scan(s, history, Begin(s)).0;
      Sound(s, history, p) <==>
      p.frontier == 0
      || forall i :: p.frontier <= i < |history| && !history[i].failed && history[i].parses ==>
           history[i].slot <= s.lastSeen
  {
    WatermarkIsMaximum(s, history);
    HandedExactly(s, history);
    var (p, stop) := Scan(s, history, Begin(s));
    SoundByFrontier(s, history, p, Done(p, stop));
  }

  lemma SoundByFrontier(s: Setup, history: seq<Entry>, p: Progress, done: nat)
    requires NewestFirst(history) && done <= p.frontier <= done + 1 && p.frontier <= |history|
    requires done < p.frontier ==> AtWatermark(s, history[done])
    requires p.highest >= s.lastSeen && (p.frontier == 0 ==> p.highest == s.lastSeen)
    requires p.frontier > 0 ==> history[0].slot <= p.highest
    requires forall i :: 0 <= i < |history| && !history[i].failed && history[i].parses ==>
               (history[i].signature in p.handed <==> i < done)
    ensures Sound(s, history, p) <==>
      p.frontier == 0
      || forall i :: p.frontier <= i < |history| && !history[i].failed && history[i].parses ==>
           history[i].slot <= s.lastSeen
  {
    if p.frontier > 0 {
      forall i | p.frontier <= i < |history|
        ensures history[i].slot <= p.highest
      {
        assert history[i].slot <= history[0].slot;
      }
    }
  }

  /** The usable entries handed on are those before the entry at which the scan was done. */
  lemma HandedExactly(s: Setup, history: seq<Entry>)
    requires Distinct(history)
    ensures var (p, stop) := Scan(s, history, Begin(s));
      && Done(p, stop) <= p.frontier
      && (Done(p, stop) < p.frontier ==> p.frontier <= |history| && AtWatermark(s, history[Done(p, stop)]))
      && p.frontier <= Done(p, stop) + 1
      && forall i :: 0 <= i < |history| && !history[i].failed && history[i].parses ==>
           (history[i].signature in p.handed <==> i < Done(p, stop))
  {
    ScanCoverage(s, history);
    var (p, stop) := Scan(s, history, Begin(s));
    forall i | 0 <= i < |history| && !history[i].failed && history[i].parses
      ensures history[i].signature in p.handed <==> i < Done(p, stop)
    {
      if i < Done(p, stop) {
        HandableHas(history, Done(p, stop), i);
      } else {
        NotHandedBeyond(history, Done(p, stop), i);
      }
    }
  }

  // What a caller can know before the scan.

  /** Every page request is answered and the channel stays open. */
  ghost predicate Answered(s: Setup) {
    forall n: nat :: s.rpc(n) && s.open(n)
  }

  /** Where the cursor is after the entries `at` to `end`: behind the last usable one, if there is one. */
  function CursorAfter(history: seq<Entry>, at: nat, end: nat, cursor: nat): (c: nat)
    requires cursor <= at <= end <= |history|
    ensures cursor <= c <= end
    decreases end - at
  {
    if at == end then cursor
    else CursorAfter(history, at + 1, end, if history[at].failed || !history[at].parses then cursor else at + 1)
  }

  /** How many of the newest entries a budget covers, given which of them are skippable: every page begins
      behind the last usable entry of the one before. */
  function Cover(history: seq<Entry>, cursor: nat, budget: nat): (n: nat)
    requires cursor <= |history|
    ensures cursor <= n <= |history|
    decreases budget
  {
    var want := Min(budget, PAGE_LIMIT);
    var end := Min(cursor + want, |history|);
    if end == cursor || end - cursor < want then end
    else Max(end, Cover(history, CursorAfter(history, cursor, end, cursor), budget - want))
  }

  lemma {:induction false} WalkCovers(s: Setup, history: seq<Entry>, at: nat, end: nat, p: Progress)
    requires Distinct(history) && at <= end <= |history| && Start(history, p.before) <= at
    ensures var (p', stop) := Walk(s, history, at, end, p);
      && p'.frontier <= Max(p.frontier, end)
      && (stop.None? ==>
            && Start(history, p'.before) == CursorAfter(history, at, end, Start(history, p.before))
            && p'.frontier == if at < end then Max(p.frontier, end) else p.frontier)
    decreases end - at
  {
    if at < end {
      CursorPosition(history, at);
      var (p', stop) := Examine(s, history[at], at, p);
      if stop.None? {
        WalkCovers(s, history, at + 1, end, p');
      }
    }
  }

  /** What a turn of an answered scan does to the frontier, for a page `cursor` to `end` out of `want`. */
  ghost predicate TurnCovers(history: seq<Entry>, p: Progress, t: Turn, cursor: nat, end: nat, want: nat)
    requires cursor <= end <= |history|
  {
    && t.p.frontier <= Max(p.frontier, end)
    && (if t.More? then
          && end - cursor == want > 0 && t.p.scanned == p.scanned + want
          && t.p.frontier == Max(p.frontier, end)
          && Start(history, t.p.before) == CursorAfter(history, cursor, end, cursor)
        else
          && (t.stop.NoBudget? || t.stop.EmptyPage? || t.stop.ShortPage? || t.stop.Watermark?)
          && (!t.stop.Watermark? ==>
                t.p.frontier == Max(p.frontier, end) && (end == cursor || end - cursor < want)))
  }

  lemma WalkedPageCovers(s: Setup, history: seq<Entry>, p: Progress, cursor: nat, end: nat, want: nat)
    requires Distinct(history) && Answered(s) && Start(history, p.before) == cursor <= p.frontier
    requires cursor < end <= |history| && end - cursor <= want
    ensures var walked := Walk(s, history, cursor, end, p);
      TurnCovers(history, p, AfterPage(walked.0, walked.1, end - cursor < want), cursor, end, want)
  {
    WalkCovers(s, history, cursor, end, p);
    WalkStops(s, history, cursor, end, p);
    WalkScans(s, history, cursor, end, p);
  }

  lemma PageCovers(s: Setup, history: seq<Entry>, p: Progress)
    requires Distinct(history) && Answered(s) && p.scanned <= s.max && Start(history, p.before) <= p.frontier
    ensures var cursor, want := Start(history, p.before), Min(s.max - p.scanned, PAGE_LIMIT);
      TurnCovers(history, p, ScanPage(s, history, p), cursor, Min(cursor + want, |history|), want)
  {
    var cursor, want := Start(history, p.before), Min(s.max - p.scanned, PAGE_LIMIT);
    if p.scanned == s.max || Page(history, p.before, want) == [] {
      var _ := NoPage(s, history, p);
    } else {
      PageTurn(s, history, p);
      WalkedPageCovers(s, history, p, cursor, Min(cursor + want, |history|), want);
    }
  }

  /** How an answered scan ends, from a frontier on, if the budget covers `n` entries. */
  ghost predicate EndsCovering(q: Progress, stop: Stop, frontier: nat, n: nat) {
    && (stop.NoBudget? || stop.EmptyPage? || stop.ShortPage? || stop.Watermark?)
    && q.frontier <= Max(frontier, n) && (!stop.Watermark? ==> q.frontier == Max(frontier, n))
  }

  lemma EndsCoveringFrom(q: Progress, stop: Stop, frontier: nat, end: nat, n: nat)
    requires EndsCovering(q, stop, Max(frontier, end), n)
    ensures EndsCovering(q, stop, frontier, Max(end, n))
  {
  }

  /** An answered scan that stops at this page has covered its budget. */
  lemma LastPage(s: Setup, history: seq<Entry>, p: Progress)
    requires Distinct(history) && Answered(s) && p.scanned <= s.max && Start(history, p.before) <= p.frontier
    requires ScanPage(s, history, p).Stopped?
    ensures var t := ScanPage(s, history, p);
      EndsCovering(t.p, t.stop, p.frontier, Cover(history, Start(history, p.before), s.max - p.scanned))
  {
    PageCovers(s, history, p);
    CoverEnds(history, Start(history, p.before), s.max - p.scanned);
  }

  /** Otherwise what is left to cover is what the rest of the budget covers from the next cursor. */
  lemma NextPage(s: Setup, history: seq<Entry>, p: Progress) returns (end: nat, rest: nat)
    requires Distinct(history) && Answered(s) && p.scanned <= s.max && Start(history, p.before) <= p.frontier
    requires ScanPage(s, history, p).More?
    ensures var t := ScanPage(s, history, p);
      && t.p.frontier == Max(p.frontier, end) && Start(history, t.p.before) <= end
      && rest == Cover(history, Start(history, t.p.before), s.max - t.p.scanned)
      && Cover(history, Start(history, p.before), s.max - p.scanned) == Max(end, rest)
  {
    var cursor, budget := Start(history, p.before), s.max - p.scanned;
    var t := ScanPage(s, history, p);
    var next := Start(history, t.p.before);
    PageCovers(s, history, p);
    end, rest := cursor + Min(budget, PAGE_LIMIT), Cover(history, next, s.max - t.p.scanned);
    CoverGoesOn(history, cursor, budget, end, next);
  }

  lemma ScanTurn(s: Setup, history: seq<Entry>, p: Progress)
    requires p.scanned <= s.max
    ensures var t := ScanPage(s, history, p);
      Scan(s, history, p) == if t.Stopped? then (t.p, t.stop) else Scan(s, history, t.p)
  {
  }

  lemma {:induction false} ScanCovers(s: Setup, history: seq<Entry>, p: Progress, n: nat)
    requires Distinct(history) && Answered(s) && p.scanned <= s.max && Start(history, p.before) <= p.frontier
    requires n == Cover(history, Start(history, p.before), s.max - p.scanned)
    ensures var (q, stop) := Scan(s, history, p); EndsCovering(q, stop, p.frontier, n)
    decreases s.max - p.scanned
  {
    var t := ScanPage(s, history, p);
    ScanTurn(s, history, p);
    if t.More? {
      var end, rest := NextPage(s, history, p);
      var (q, stop) := Scan(s, history, t.p);
      ScanCovers(s, history, t.p, rest);
      EndsCoveringFrom(q, stop, p.frontier, end, rest);
    } else {
      LastPage(s, history, p);
    }
  }

  lemma CoverEnds(history: seq<Entry>, cursor: nat, budget: nat)
    requires cursor <= |history|
    ensures var want := Min(budget, PAGE_LIMIT);
      var end := Min(cursor + want, |history|);
      Cover(history, cursor, budget) >= end &&
      (end == cursor || end - cursor < want ==> Cover(history, cursor, budget) == end)
  {
  }

  lemma CoverGoesOn(history: seq<Entry>, cursor: nat, budget: nat, end: nat, next: nat)
    requires budget > 0 && end == cursor + Min(budget, PAGE_LIMIT) <= |history|
    requires next == CursorAfter(history, cursor, end, cursor)
    ensures Cover(history, cursor, budget) == Max(end, Cover(history, next, budget - (end - cursor)))
  {
  }

  /** When the scan is answered, its watermark can be trusted if and only if no usable entry beyond what the
      budget covers lies above the old watermark. */
  lemma CoverDecidesSoundness(s: Setup, history: seq<Entry>)
    requires Distinct(history) && NewestFirst(history) && Answered(s) && s.max > 0
    ensures Sound(s, history, Scan(s, history, Begin(s)).0) <==>
            forall i :: Cover(history, 0, s.max) <= i < |history| && !history[i].failed && history[i].parses ==>
              history[i].slot <= s.lastSeen
  {
    var n := Cover(history, 0, s.max);
    ScanCovers(s, history, Begin(s), n);
    if Scan(s, history, Begin(s)).1.Watermark? {
      WatermarkSoundAtEnd(s, history);
      var frontier := WatermarkEntry(s, history);
      BeyondWatermark(s, history, frontier, n);
    } else {
      SoundExactlyToFrontier(s, history);
      CoverPositive(history, s.max);
    }
  }

  lemma CoverPositive(history: seq<Entry>, budget: nat)
    requires budget > 0
    ensures Cover(history, 0, budget) == 0 <==> history == []
  {
  }

  /** Behind an entry at the watermark nothing is above it. */
  lemma BeyondWatermark(s: Setup, history: seq<Entry>, frontier: nat, n: nat)
    requires NewestFirst(history) && 0 < frontier <= |history| && AtWatermark(s, history[frontier - 1]) && frontier <= n
    ensures forall i :: n <= i < |history| ==> history[i].slot <= s.lastSeen
  {
    forall i | n <= i < |history|
      ensures history[i].slot <= s.lastSeen
    {
      BelowWatermark(s, history, frontier - 1, i);
    }
  }

  /** A scan that stops at the watermark has just examined an entry at the watermark. */
  lemma WatermarkEntry(s: Setup, history: seq<Entry>) returns (frontier: nat)
    requires Distinct(history) && Scan(s, history, Begin(s)).1.Watermark?
    ensures frontier == Scan(s, history, Begin(s)).0.frontier <= s.max
    ensures 0 < frontier <= |history| && AtWatermark(s, history[frontier - 1])
  {
    ScanCoverage(s, history);
    frontier := Scan(s, history, Begin(s)).0.frontier;
  }

  /** In particular, when no full page before the last ends in a skippable entry: if and only if no usable
      entry beyond the newest `max` lies above the old watermark. */
  lemma BudgetDecidesSoundness(s: Setup, history: seq<Entry>)
    requires Distinct(history) && NewestFirst(history) && Answered(s) && s.max > 0
    requires !BadPageEnd(s, history, 0)
    ensures Sound(s, history, Scan(s, history, Begin(s)).0) <==>
            forall i :: s.max <= i < |history| && !history[i].failed && history[i].parses ==>
              history[i].slot <= s.lastSeen
  {
    ScanCovers(s, history, Begin(s), Cover(history, 0, s.max));
    var (p, stop) := Scan(s, history, Begin(s));
    if stop.NoBudget? {
      SpentBudget(s, history);
    } else {
      WatermarkSoundAtEnd(s, history);
      NothingBeyond(s, history);
    }
  }

  lemma SpentBudget(s: Setup, history: seq<Entry>)
    requires Distinct(history) && NewestFirst(history) && s.max > 0 && !BadPageEnd(s, history, 0)
    requires Scan(s, history, Begin(s)).1.NoBudget?
    ensures Sound(s, history, Scan(s, history, Begin(s)).0) <==>
            forall i :: s.max <= i < |history| && !history[i].failed && history[i].parses ==>
              history[i].slot <= s.lastSeen
  {
    BudgetCoverage(s, history);
    SoundExactlyToFrontier(s, history);
  }

  /** A scan that ends by an empty page, a short page or at the watermark leaves nothing beyond its budget
      above the old watermark. */
  lemma NothingBeyond(s: Setup, history: seq<Entry>)
    requires Distinct(history) && NewestFirst(history)
    requires var stop := Scan(s, history, Begin(s)).1; stop.EmptyPage? || stop.ShortPage? || stop.Watermark?
    ensures forall i :: s.max <= i < |history| ==> history[i].slot <= s.lastSeen
  {
    ScanCoverage(s, history);
    if Scan(s, history, Begin(s)).1.Watermark? {
      var frontier := WatermarkEntry(s, history);
      BeyondWatermark(s, history, frontier, s.max);
    }
  }

  /** And whatever fails or is cut short: a usable entry beyond the newest `max` that lies above the old
      watermark makes the new one unsound, once the first page has arrived. */
  lemma BeyondBudgetIsUnsound(s: Setup, history: seq<Entry>, i: nat)
    requires Distinct(history) && NewestFirst(history) && s.max > 0 && s.rpc(0)
    requires s.max <= i < |history| && !history[i].failed && history[i].parses && s.lastSeen < history[i].slot
    ensures !Sound(s, history, Scan(s, history, Begin(s)).0)
  {
    ScanCoverage(s, history);
    SoundExactlyToFrontier(s, history);
    FirstPageCounts(s, history);
  }

  lemma FirstPageCounts(s: Setup, history: seq<Entry>)
    requires s.max > 0 && s.rpc(0) && history != []
    ensures Scan(s, history, Begin(s)).0.frontier > 0
  {
    var t := ScanPage(s, history, Begin(s));
    FirstPageExamines(s, history);
    ScanTurn(s, history, Begin(s));
    if t.More? {
      ScanFrontierGrows(s, history, t.p);
    }
  }

  lemma FirstPageExamines(s: Setup, history: seq<Entry>)
    requires s.max > 0 && s.rpc(0) && history != []
    ensures ScanPage(s, history, Begin(s)).p.frontier > 0
  {
    var end := Min(Min(s.max, PAGE_LIMIT), |history|);
    PageTurn(s, history, Begin(s));
    FrontierGrows(s, history, 1, end, Examine(s, history[0], 0, Begin(s)).0);
  }

  lemma {:induction false} FrontierGrows(s: Setup, history: seq<Entry>, at: nat, end: nat, p: Progress)
    requires at <= end <= |history|
    ensures Walk(s, history, at, end, p).0.frontier >= p.frontier
    decreases end - at
  {
    if at < end {
      var (p', stop) := Examine(s, history[at], at, p);
      if stop.None? {
        FrontierGrows(s, history, at + 1, end, p');
      }
    }
  }

  lemma {:induction false} ScanFrontierGrows(s: Setup, history: seq<Entry>, p: Progress)
    requires p.scanned <= s.max
    ensures Scan(s, history, p).0.frontier >= p.frontier
    decreases s.max - p.scanned
  {
    var i := Start(history, p.before);
    FrontierGrows(s, history, i, Min(i + Min(s.max - p.scanned, PAGE_LIMIT), |history|), p);
    var t := ScanPage(s, history, p);
    if t.More? {
      ScanFrontierGrows(s, history, t.p);
    }
  }

  lemma NotHandedBeyond(history: seq<Entry>, n: nat, i: nat)
    requires Distinct(history) && n <= i < |history|
    ensures history[i].signature !in Handable(history, n)
  {
    if history[i].signature in Handable(history, n) {
      var _ := HandableFrom(history, n, history[i].signature);
    }
  }

  /** A scan hands on nothing that was already at its watermark. */
  lemma HandedAboveWatermark(s: Setup, history: seq<Entry>, x: string) returns (i: nat)
    requires Distinct(history) && x in Scan(s, history, Begin(s)).0.handed
    ensures i < |history| && history[i].signature == x && !AtWatermark(s, history[i])
  {
    ScanCoverage(s, history);
    var (p, stop) := Scan(s, history, Begin(s));
    i := HandableFrom(history, Done(p, stop), x);
  }

  /** What an unsound watermark skipped is lost: after a first scan, no later scan from its watermark hands
      on any entry of the old history, whatever has been added in front. */
  lemma SkippedIsNeverRecovered(s: Setup, history: seq<Entry>, later: Setup, newer: seq<Entry>, x: string)
    requires Distinct(history) && Distinct(newer + history) && NewestFirst(history)
    requires var p := Scan(s, history, Begin(s)).0; p.frontier > 0 && later.lastSeen == p.highest > 0
    requires x in Scan(later, newer + history, Begin(later)).0.handed
    ensures exists i :: 0 <= i < |newer| && newer[i].signature == x
  {
    WatermarkIsMaximum(s, history);
    var i := HandedAboveWatermark(later, newer + history, x);
    if i >= |newer| {
      OldAtWatermark(later, newer, history, i);
    }
    assert newer[i].signature == x;
  }

  lemma OldAtWatermark(later: Setup, newer: seq<Entry>, history: seq<Entry>, k: nat)
    requires NewestFirst(history) && |newer| <= k < |newer + history|
    requires later.lastSeen > 0 && history[0].slot <= later.lastSeen
    ensures AtWatermark(later, (newer + history)[k])
  {
    assert (newer + history)[k] == history[k - |newer|];
    assert history[k - |newer|].slot <= history[0].slot;
  }
}
