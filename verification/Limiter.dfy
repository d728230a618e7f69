/** The sliding-window limiter of manual evaluations. */
module Limiter {

  /** `Instant::duration_since` saturates at zero. */
  function Since(now: nat, t: nat): nat {
    if now >= t then now - t else 0
  }

  /** A configured window of zero milliseconds counts as one. */
  function EffectiveWindow(configured: nat): nat {
    if configured == 0 then 1 else configured
  }

  function Prune(deque: seq<nat>, now: nat, window: nat): seq<nat> {
    if deque != [] && Since(now, deque[0]) > window then Prune(deque[1..], now, window) else deque
  }

  /** One request against the pruned deque. */
  function Admit(deque: seq<nat>, now: nat, window: nat, limit: nat): (seq<nat>, bool) {
    var kept := Prune(deque, now, window);
    if |kept| >= limit then (kept, false) else (kept + [now], true)
  }

  /** The admissions in the window that ends now. */
  function InWindow(history: seq<nat>, now: nat, window: nat): seq<nat> {
    if history == [] then []
    else if Since(now, history[0]) <= window then [history[0]] + InWindow(history[1..], now, window)
    else InWindow(history[1..], now, window)
  }

  /** The reference: one request against the full admission history. */
  function AdmitByHistory(history: seq<nat>, now: nat, window: nat, limit: nat): (seq<nat>, bool) {
    if |InWindow(history, now, window)| >= limit then (history, false) else (history + [now], true)
  }

  function Answers(deque: seq<nat>, times: seq<nat>, window: nat, limit: nat): seq<bool>
    decreases |times|
  {
    if times == [] then []
    else
      var (d, ok) := Admit(deque, times[0], window, limit);
      [ok] + Answers(d, times[1..], window, limit)
  }

  function AnswersByHistory(history: seq<nat>, times: seq<nat>, window: nat, limit: nat): seq<bool>
    decreases |times|
  {
    if times == [] then []
    else
      var (h, ok) := AdmitByHistory(history, times[0], window, limit);
      [ok] + AnswersByHistory(h, times[1..], window, limit)
  }

  ghost predicate Sorted(s: seq<nat>) {
    forall i, j :: 0 <= i < j < |s| ==> s[i] <= s[j]
  }

  /** No element is later than `now`. */
  ghost predicate UpTo(s: seq<nat>, now: nat) {
    forall i :: 0 <= i < |s| ==> s[i] <= now
  }

  /** The shared deque, as the handler uses it under the write lock. */
  class RateLimiter {
    const limit: nat
    const window: nat
    var requests: seq<nat>

    constructor (limit: nat, configuredWindow: nat)
      ensures this.limit == limit && requests == []
      ensures window > 0 && (configuredWindow > 0 ==> window == configuredWindow) && (configuredWindow == 0 ==> window == 1)
    {
      this.limit, window, requests := limit, EffectiveWindow(configuredWindow), [];
    }

    method Authorize(now: nat) returns (ok: bool)
      modifies this
      ensures (requests, ok) == Admit(old(requests), now, window, limit)
    {
      while requests != [] && Since(now, requests[0]) > window
        invariant Prune(requests, now, window) == Prune(old(requests), now, window)
        decreases |requests|
      {
        requests := requests[1..];
      }
      if |requests| >= limit {
        return false;
      }
      requests := requests + [now];
      return true;
    }
  }

  /** Pruning from the front of a sorted deque keeps exactly the elements in the window. */
  lemma {:induction false} PruneIsWindow(deque: seq<nat>, now: nat, window: nat)
    requires Sorted(deque) && UpTo(deque, now)
    ensures Prune(deque, now, window) == InWindow(deque, now, window)
    decreases |deque|
  {
    if deque != [] {
      if Since(now, deque[0]) > window {
        PruneIsWindow(deque[1..], now, window);
      } else {
        AllInWindow(deque, now, window);
      }
    }
  }

  lemma {:induction false} AllInWindow(deque: seq<nat>, now: nat, window: nat)
    requires forall i :: 0 <= i < |deque| ==> Since(now, deque[i]) <= window
    ensures InWindow(deque, now, window) == deque
    decreases |deque|
  {
    if deque != [] {
      AllInWindow(deque[1..], now, window);
    }
  }

  lemma {:induction false} InWindowConcat(a: seq<nat>, b: seq<nat>, now: nat, window: nat)
    ensures InWindow(a + b, now, window) == InWindow(a, now, window) + InWindow(b, now, window)
    decreases |a|
  {
    if a == [] {
      assert a + b == b;
    } else {
      assert (a + b)[1..] == a[1..] + b;
      InWindowConcat(a[1..], b, now, window);
    }
  }

  /** Looking later through an earlier window loses nothing. */
  lemma {:induction false} WindowOfWindow(h: seq<nat>, earlier: nat, now: nat, window: nat)
    requires earlier <= now && UpTo(h, earlier)
    ensures InWindow(InWindow(h, earlier, window), now, window) == InWindow(h, now, window)
    decreases |h|
  {
    if h != [] {
      WindowOfWindow(h[1..], earlier, now, window);
    }
  }

  lemma {:induction false} WindowSorted(h: seq<nat>, now: nat, window: nat)
    requires Sorted(h)
    ensures Sorted(InWindow(h, now, window))
    ensures forall x :: x in InWindow(h, now, window) ==> x in h && Since(now, x) <= window
    decreases |h|
  {
    if h != [] {
      WindowSorted(h[1..], now, window);
      var rest := InWindow(h[1..], now, window);
      if Since(now, h[0]) <= window {
        forall j | 0 <= j < |rest|
          ensures h[0] <= rest[j]
        {
          assert rest[j] in h[1..];
        }
      }
    }
  }

  /** The deque is the history seen through the window that ended at the last request. */
  ghost predicate Agree(deque: seq<nat>, history: seq<nat>, last: nat, window: nat) {
    Sorted(history) && UpTo(history, last) && deque == InWindow(history, last, window)
  }

  lemma AdmitAgrees(deque: seq<nat>, history: seq<nat>, last: nat, now: nat, window: nat, limit: nat)
    requires last <= now && Agree(deque, history, last, window)
    ensures Admit(deque, now, window, limit).1 == AdmitByHistory(history, now, window, limit).1
    ensures Agree(Admit(deque, now, window, limit).0, AdmitByHistory(history, now, window, limit).0, now, window)
  {
    WindowSorted(history, last, window);
    assert UpTo(deque, now) by {
      forall i | 0 <= i < |deque|
        ensures deque[i] <= now
      {
        assert deque[i] in history;
      }
    }
    PruneIsWindow(deque, now, window);
    WindowOfWindow(history, last, now, window);
    InWindowConcat(history, [now], now, window);
  }

  lemma {:induction false} AnswersAgree(deque: seq<nat>, history: seq<nat>, last: nat, times: seq<nat>, window: nat, limit: nat)
    requires Agree(deque, history, last, window) && Sorted([last] + times)
    ensures Answers(deque, times, window, limit) == AnswersByHistory(history, times, window, limit)
    decreases |times|
  {
    if times != [] {
      assert ([last] + times)[0] == last && ([last] + times)[1] == times[0];
      AdmitAgrees(deque, history, last, times[0], window, limit);
      assert Sorted([times[0]] + times[1..]) by {
        assert [times[0]] + times[1..] == ([last] + times)[1..];
      }
      AnswersAgree(Admit(deque, times[0], window, limit).0, AdmitByHistory(history, times[0], window, limit).0,
                   times[0], times[1..], window, limit);
    }
  }

  /** For non-decreasing request times the pruned deque answers exactly as the full history would. */
  lemma LimiterRefinesHistory(times: seq<nat>, window: nat, limit: nat)
    requires Sorted(times)
    ensures Answers([], times, window, limit) == AnswersByHistory([], times, window, limit)
  {
    AnswersAgree([], [], 0, times, window, limit);
  }

  /** How many admissions fall into the closed window that starts at `from`. */
  function CountFrom(history: seq<nat>, from: nat, window: nat): nat {
    if history == [] then 0
    else CountFrom(history[..|history| - 1], from, window)
         + if from <= history[|history| - 1] <= from + window then 1 else 0
  }

  // The deque's own admissions, for requests that are processed out of order.

  /** The times the deque admits, in the order in which the requests are processed, after `admitted`. */
  function Admitted(admitted: seq<nat>, deque: seq<nat>, times: seq<nat>, window: nat, limit: nat): seq<nat>
    decreases |times|
  {
    if times == [] then admitted
    else
      var (deque', ok) := Admit(deque, times[0], window, limit);
      Admitted(if ok then admitted + [times[0]] else admitted, deque', times[1..], window, limit)
  }

  /** The deque after the requests. */
  function DequeAfter(deque: seq<nat>, times: seq<nat>, window: nat, limit: nat): seq<nat>
    decreases |times|
  {
    if times == [] then deque else DequeAfter(Admit(deque, times[0], window, limit).0, times[1..], window, limit)
  }

  /** How many entries the pruning loop pops in all. */
  function Pops(deque: seq<nat>, times: seq<nat>, window: nat, limit: nat): nat
    decreases |times|
  {
    if times == [] then 0
    else
      PruneIsSuffix(deque, times[0], window);
      |deque| - |Prune(deque, times[0], window)|
      + Pops(Admit(deque, times[0], window, limit).0, times[1..], window, limit)
  }

  lemma {:induction false} PruneIsSuffix(deque: seq<nat>, now: nat, window: nat)
    ensures |Prune(deque, now, window)| <= |deque|
    ensures Prune(deque, now, window) == deque[|deque| - |Prune(deque, now, window)|..]
    decreases |deque|
  {
    if deque != [] && Since(now, deque[0]) > window {
      PruneIsSuffix(deque[1..], now, window);
    }
  }

  /** The pops of all pruning loops together take off exactly the first admissions; what is left is the deque,
      never longer than the limit, whatever the request times. */
  lemma {:induction false} DequeIsUnpopped(
    admitted: seq<nat>, popped: nat, deque: seq<nat>, times: seq<nat>, window: nat, limit: nat)
    requires popped <= |admitted| && deque == admitted[popped..] && |deque| <= limit
    ensures var all, pops := Admitted(admitted, deque, times, window, limit), popped + Pops(deque, times, window, limit);
      && pops <= |all| && DequeAfter(deque, times, window, limit) == all[pops..]
      && |DequeAfter(deque, times, window, limit)| <= limit
    decreases |times|
  {
    if times != [] {
      var now := times[0];
      var kept := Prune(deque, now, window);
      var popped' := popped + |deque| - |kept|;
      PruneIsSuffix(deque, now, window);
      assert kept == admitted[popped'..];
      if |kept| >= limit {
        DequeIsUnpopped(admitted, popped', kept, times[1..], window, limit);
      } else {
        assert (admitted + [now])[popped'..] == kept + [now];
        DequeIsUnpopped(admitted + [now], popped', kept + [now], times[1..], window, limit);
      }
    }
  }

  /** Over any requests: pops never exceed pushes, their difference is the deque's length, and that never
      exceeds the limit. */
  lemma PopsWithinPushes(times: seq<nat>, window: nat, limit: nat)
    ensures var pushes, pops := |Admitted([], [], times, window, limit)|, Pops([], times, window, limit);
      pops <= pushes && pushes - pops == |DequeAfter([], times, window, limit)| <= limit
  {
    DequeIsUnpopped([], 0, [], times, window, limit);
  }

  lemma {:induction false} AdmittedSorted(admitted: seq<nat>, deque: seq<nat>, times: seq<nat>, window: nat, limit: nat)
    requires Sorted(admitted + times)
    ensures Sorted(Admitted(admitted, deque, times, window, limit))
    decreases |times|
  {
    if times == [] {
      assert admitted + times == admitted;
    } else {
      var (deque', ok) := Admit(deque, times[0], window, limit);
      assert admitted + times == (admitted + [times[0]]) + times[1..];
      if ok {
        AdmittedSorted(admitted + [times[0]], deque', times[1..], window, limit);
      } else {
        SortedWithout(admitted, times[0], times[1..]);
        AdmittedSorted(admitted, deque', times[1..], window, limit);
      }
    }
  }

  lemma SortedWithout(a: seq<nat>, x: nat, b: seq<nat>)
    requires Sorted((a + [x]) + b)
    ensures Sorted(a + b)
  {
    var s := (a + [x]) + b;
    forall i, j | 0 <= i < j < |a + b|
      ensures (a + b)[i] <= (a + b)[j]
    {
      assert (a + b)[i] == s[if i < |a| then i else i + 1] && (a + b)[j] == s[if j < |a| then j else j + 1];
    }
  }

  /** For requests in order the deque stays sorted. */
  lemma DequeStaysSorted(times: seq<nat>, window: nat, limit: nat)
    requires Sorted(times)
    ensures Sorted(DequeAfter([], times, window, limit))
  {
    assert [] + times == times;
    AdmittedSorted([], [], times, window, limit);
    DequeIsUnpopped([], 0, [], times, window, limit);
  }

  /** Each request is processed at most `d` after some request with a later time. */
  ghost predicate Tolerant(times: seq<nat>, d: nat) {
    forall i, j :: 0 <= i < j < |times| ==> times[i] <= times[j] + d
  }

  /** The deque holds the last admissions; those pruned lie more than a window before some processed request. */
  ghost predicate Tracks(admitted: seq<nat>, pruned: nat, deque: seq<nat>, latest: nat, window: nat) {
    && pruned <= |admitted| && deque == admitted[pruned..]
    && forall i :: 0 <= i < pruned ==> admitted[i] + window < latest
  }

  lemma {:induction false} PruneTracks(admitted: seq<nat>, pruned: nat, deque: seq<nat>, latest: nat, now: nat,
                                       window: nat)
    returns (pruned': nat)
    requires Tracks(admitted, pruned, deque, latest, window) && now <= latest
    ensures Tracks(admitted, pruned', Prune(deque, now, window), latest, window)
    decreases |deque|
  {
    pruned' := pruned;
    if deque != [] && Since(now, deque[0]) > window {
      pruned' := PruneTracks(admitted, pruned + 1, deque[1..], latest, now, window);
    }
  }

  lemma {:induction false} CountConcat(a: seq<nat>, b: seq<nat>, from: nat, window: nat)
    ensures CountFrom(a + b, from, window) == CountFrom(a, from, window) + CountFrom(b, from, window)
    decreases |b|
  {
    if b == [] {
      assert a + b == a;
    } else {
      var last := |b| - 1;
      assert (a + b)[..|a + b| - 1] == a + b[..last];
      CountConcat(a, b[..last], from, window);
    }
  }

  lemma {:induction false} CountAtMost(s: seq<nat>, from: nat, window: nat)
    ensures CountFrom(s, from, window) <= |s|
    ensures (forall i :: 0 <= i < |s| ==> s[i] < from) ==> CountFrom(s, from, window) == 0
    decreases |s|
  {
    if s != [] {
      CountAtMost(s[..|s| - 1], from, window);
    }
  }

  /** A request that is admitted inside a shortened window finds all earlier ones of that window in the deque. */
  lemma WindowInDeque(admitted: seq<nat>, pruned: nat, deque: seq<nat>, latest: nat, now: nat, window: nat, d: nat,
                      from: nat)
    requires Tracks(admitted, pruned, deque, latest, window) && latest <= now + d && d <= window
    requires now <= from + (window - d)
    ensures CountFrom(admitted, from, window - d) <= |deque|
  {
    assert admitted == admitted[..pruned] + admitted[pruned..];
    CountConcat(admitted[..pruned], deque, from, window - d);
    CountAtMost(admitted[..pruned], from, window - d);
    CountAtMost(deque, from, window - d);
  }

  lemma {:induction false} ToleratesDisorder(
    admitted: seq<nat>, pruned: nat, deque: seq<nat>, latest: nat, times: seq<nat>, window: nat, limit: nat, d: nat,
    from: nat)
    requires Tracks(admitted, pruned, deque, latest, window) && d <= window && Tolerant([latest] + times, d)
    requires CountFrom(admitted, from, window - d) <= limit
    ensures CountFrom(Admitted(admitted, deque, times, window, limit), from, window - d) <= limit
    decreases |times|
  {
    if times != [] {
      var now := times[0];
      var latest' := if now >= latest then now else latest;
      var kept := Prune(deque, now, window);
      assert ([latest] + times)[0] == latest && ([latest] + times)[1] == now;
      assert Tracks(admitted, pruned, deque, latest', window);
      var pruned' := PruneTracks(admitted, pruned, deque, latest', now, window);
      StaysTolerant(latest, times, d);
      if |kept| >= limit {
        ToleratesDisorder(admitted, pruned', kept, latest', times[1..], window, limit, d, from);
      } else {
        AdmittedCount(admitted, pruned', kept, latest', now, window, limit, d, from);
        assert (admitted + [now])[pruned'..] == kept + [now];
        ToleratesDisorder(admitted + [now], pruned', kept + [now], latest', times[1..], window, limit, d, from);
      }
    }
  }

  lemma AdmittedCount(admitted: seq<nat>, pruned: nat, kept: seq<nat>, latest: nat, now: nat, window: nat, limit: nat,
                      d: nat, from: nat)
    requires Tracks(admitted, pruned, kept, latest, window) && latest <= now + d && d <= window && |kept| < limit
    requires CountFrom(admitted, from, window - d) <= limit
    ensures CountFrom(admitted + [now], from, window - d) <= limit
  {
    assert (admitted + [now])[..|admitted|] == admitted;
    if now <= from + (window - d) {
      WindowInDeque(admitted, pruned, kept, latest, now, window, d, from);
    }
  }

  lemma StaysTolerant(latest: nat, times: seq<nat>, d: nat)
    requires times != [] && Tolerant([latest] + times, d)
    ensures Tolerant([if times[0] >= latest then times[0] else latest] + times[1..], d)
  {
    var before, after := [latest] + times, [if times[0] >= latest then times[0] else latest] + times[1..];
    forall i, j | 0 <= i < j < |after|
      ensures after[i] <= after[j] + d
    {
      assert after[j] == before[j + 1];
      assert before[0] <= before[j + 1] + d && before[1] <= before[j + 1] + d;
      assert i > 0 ==> after[i] == before[i + 1];
    }
  }

  /** If no request is processed more than `d` out of order, every closed window of the configured length less
      `d` contains at most `limit` admissions of the deque itself. */
  lemma ShortenedWindowsWithinLimit(times: seq<nat>, window: nat, limit: nat, d: nat, from: nat)
    requires Tolerant(times, d) && d <= window
    ensures CountFrom(Admitted([], [], times, window, limit), from, window - d) <= limit
  {
    assert Tolerant([0] + times, d) by {
      forall i, j | 0 <= i < j < |[0] + times|
        ensures ([0] + times)[i] <= ([0] + times)[j] + d
      {
        assert i > 0 ==> ([0] + times)[i] == times[i - 1] && ([0] + times)[j] == times[j - 1];
      }
    }
    ToleratesDisorder([], 0, [], 0, times, window, limit, d, from);
  }

  /** In order, no closed window of the configured length ever contains more than `limit` admissions. */
  lemma AtMostLimitPerWindow(times: seq<nat>, window: nat, limit: nat, from: nat)
    requires Sorted(times)
    ensures CountFrom(Admitted([], [], times, window, limit), from, window) <= limit
  {
    ShortenedWindowsWithinLimit(times, window, limit, 0, from);
  }

  lemma FirstAnswer(seen: seq<nat>, t: nat, rest: seq<nat>, window: nat, limit: nat)
    ensures Answers(seen, [t] + rest, window, limit)
         == [Admit(seen, t, window, limit).1] + Answers(Admit(seen, t, window, limit).0, rest, window, limit)
    ensures AnswersByHistory(seen, [t] + rest, window, limit)
         == [AdmitByHistory(seen, t, window, limit).1]
            + AnswersByHistory(AdmitByHistory(seen, t, window, limit).0, rest, window, limit)
  {
    assert ([t] + rest)[0] == t && ([t] + rest)[1..] == rest;
  }

  /** `now` is read before the lock is taken, so requests may be processed out of order, and then the deque
      errs both ways: an out-of-date request behind the front is not pruned and keeps a slot taken, and a
      pruned one is forgotten although an earlier `now` would still count it. */
  lemma OutOfOrderRequestsDiverge()
    ensures Answers([], [10, 0, 12], 5, 2) == [true, true, false]
    ensures AnswersByHistory([], [10, 0, 12], 5, 2) == [true, true, true]
    ensures Answers([], [10, 20, 14], 5, 2) == [true, true, true]
    ensures AnswersByHistory([], [10, 20, 14], 5, 2) == [true, true, false]
  {
    assert [10, 0, 12] == [10] + ([0] + ([12] + [])) && [10, 20, 14] == [10] + ([20] + ([14] + []));
    assert [] + [10] == [10] && [10] + [0] == [10, 0] && [10] + [20] == [10, 20] && [] + [20] == [20];
    assert [10, 0][1..] == [0] && [0][1..] == [] && [10, 20][1..] == [20] && [20][1..] == [] && [10][1..] == [];
    FirstAnswer([], 10, [0] + ([12] + []), 5, 2);
    FirstAnswer([10], 0, [12] + [], 5, 2);
    FirstAnswer([10, 0], 12, [], 5, 2);
    FirstAnswer([], 10, [20] + ([14] + []), 5, 2);
    FirstAnswer([10], 20, [14] + [], 5, 2);
    FirstAnswer([20], 14, [], 5, 2);
    FirstAnswer([10, 20], 14, [], 5, 2);
    assert InWindow([10, 0], 12, 5) == [10] && InWindow([10], 0, 5) == [10];
    assert InWindow([10, 20], 14, 5) == [10] + InWindow([20], 14, 5) && InWindow([10], 20, 5) == [];
    assert Prune([10], 20, 5) == [];
  }

  lemma NextAdmitted(admitted: seq<nat>, deque: seq<nat>, t: nat, rest: seq<nat>, window: nat, limit: nat)
    ensures Admitted(admitted, deque, [t] + rest, window, limit)
         == (var (deque', ok) := Admit(deque, t, window, limit);
             Admitted(if ok then admitted + [t] else admitted, deque', rest, window, limit))
  {
    assert ([t] + rest)[0] == t && ([t] + rest)[1..] == rest;
  }

  function Repeat(t: nat, k: nat): (s: seq<nat>)
    ensures |s| == k && forall i :: 0 <= i < k ==> s[i] == t
  {
    seq(k, _ => t)
  }

  /** Requests at one instant are admitted until the limit is reached. */
  lemma {:induction false} FillUp(admitted: seq<nat>, t: nat, j: nat, k: nat, rest: seq<nat>, window: nat, limit: nat)
    requires j + k <= limit
    ensures Admitted(admitted, Repeat(t, j), Repeat(t, k) + rest, window, limit)
         == Admitted(admitted + Repeat(t, k), Repeat(t, j + k), rest, window, limit)
    decreases k
  {
    if k == 0 {
      assert Repeat(t, 0) + rest == rest && admitted + Repeat(t, 0) == admitted;
    } else {
      assert Repeat(t, k) + rest == [t] + (Repeat(t, k - 1) + rest);
      NextAdmitted(admitted, Repeat(t, j), t, Repeat(t, k - 1) + rest, window, limit);
      assert Repeat(t, j) + [t] == Repeat(t, j + 1);
      FillUp(admitted + [t], t, j + 1, k - 1, rest, window, limit);
      assert admitted + [t] + Repeat(t, k - 1) == admitted + Repeat(t, k);
    }
  }

  lemma {:induction false} PruneAll(t: nat, j: nat, now: nat, window: nat)
    requires now > t + window
    ensures Prune(Repeat(t, j), now, window) == []
    decreases j
  {
    if j > 0 {
      assert Repeat(t, j)[1..] == Repeat(t, j - 1);
      PruneAll(t, j - 1, now, window);
    }
  }

  lemma {:induction false} CountRepeat(t: nat, k: nat, length: nat)
    ensures CountFrom(Repeat(t, k), t, length) == k
    decreases k
  {
    if k > 0 {
      assert Repeat(t, k)[..k - 1] == Repeat(t, k - 1);
      CountRepeat(t, k - 1, length);
    }
  }

  /** The shortening by `d` is needed in full: when a request may be `d` late, a window one unit longer can hold
      one admission more than the limit. */
  lemma ShorteningIsTight(window: nat, limit: nat, d: nat)
    requires limit >= 2 && 1 <= d <= window
    ensures exists times: seq<nat> :: Tolerant(times, d) &&
              CountFrom(Admitted([], [], times, window, limit), 0, window - d + 1) > limit
  {
    var last, late := window + 1, window + 1 - d;
    var times := Repeat(0, limit) + [last, late];
    FillUp([], 0, 0, limit, [last, late], window, limit);
    assert [] + Repeat(0, limit) == Repeat(0, limit) && Repeat(0, 0) == [];
    assert [last, late] == [last] + ([late] + []);
    NextAdmitted(Repeat(0, limit), Repeat(0, limit), last, [late], window, limit);
    PruneAll(0, limit, last, window);
    LateAdmitted(Repeat(0, limit) + [last], last, late, window, limit);
    assert Admitted([], [], times, window, limit) == Repeat(0, limit) + [last] + [late];
    CountConcat(Repeat(0, limit) + [last], [late], 0, window - d + 1);
    CountConcat(Repeat(0, limit), [last], 0, window - d + 1);
    CountRepeat(0, limit, window - d + 1);
    assert [late][..0] == [];
  }

  lemma LateAdmitted(admitted: seq<nat>, last: nat, late: nat, window: nat, limit: nat)
    requires late <= last && limit >= 2
    ensures Admitted(admitted, [] + [last], [late], window, limit) == admitted + [late]
  {
    assert [last] == [] + [last] && [late] == [late] + [];
    NextAdmitted(admitted, [last], late, [], window, limit);
  }

  /** The positions of the admissions that lie at most `window` before `now`. */
  function Recent(h: seq<nat>, now: nat, window: nat): set<nat> {
    set i: nat | i < |h| && now <= h[i] + window
  }

  lemma {:induction false} WindowCount(h: seq<nat>, now: nat, window: nat)
    ensures |InWindow(h, now, window)| == |Recent(h, now, window)|
    decreases |h|
  {
    if h != [] {
      var last := |h| - 1;
      var before := h[..last];
      assert h == before + [h[last]];
      InWindowConcat(before, [h[last]], now, window);
      WindowCount(before, now, window);
      if now <= h[last] + window {
        assert Recent(h, now, window) == Recent(before, now, window) + {last};
      } else {
        assert Recent(h, now, window) == Recent(before, now, window);
      }
    }
  }

  /** The reference admits a request exactly when fewer than `limit` admissions lie at most `window` before it. */
  lemma HistoryAdmitsIffRoom(history: seq<nat>, now: nat, window: nat, limit: nat)
    ensures var (after, ok) := AdmitByHistory(history, now, window, limit);
      && (ok <==> |set i: nat | i < |history| && now <= history[i] + window| < limit)
      && after == if ok then history + [now] else history
  {
    WindowCount(history, now, window);
  }
}
