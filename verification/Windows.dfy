/** Sliding windows over admission times: the queue a limiter keeps, with its rollback, against the
    full history of what was admitted (the limiters and the retry budget of resilience/control.py).
    Time is a real number; the clock never goes back between critical sections. */
module Windows {

  ghost predicate Sorted(h: seq<real>) {
    forall i, j :: 0 <= i < j < |h| ==> h[i] <= h[j]
  }

  // ------------------------------------------------------------------------------- the queue

  function Expired(events: seq<real>, cutoff: real): seq<real> {
    if events != [] && events[0] <= cutoff then Expired(events[1..], cutoff) else events
  }

  /** `_expire`. */
  method Expire(events: seq<real>, cutoff: real) returns (left: seq<real>)
    ensures left == Expired(events, cutoff)
  {
    left := events;
    while left != [] && left[0] <= cutoff
      invariant Expired(left, cutoff) == Expired(events, cutoff)
    {
      left := left[1..];
    }
  }

  datatype Verdict = Admitted | Refused(retryAfter: real)

  /** One try on a queue: expire, then admit below the limit. */
  function Take(events: seq<real>, width: real, limit: nat, now: real): (seq<real>, Verdict)
    requires limit > 0
  {
    var left := Expired(events, now - width);
    if |left| >= limit then (left, Refused(width - (now - left[0]))) else (left + [now], Admitted)
  }

  /** The rollback: the latest entry is taken out, whoever made it. */
  function Pop(events: seq<real>): seq<real> {
    if events == [] then [] else events[..|events| - 1]
  }

  // --------------------------------------------------------------------------- the full history

  /** The admissions after `cutoff`. */
  function Recent(h: seq<real>, cutoff: real): seq<real> {
    if h == [] then []
    else if h[|h| - 1] > cutoff then Recent(h[..|h| - 1], cutoff) + [h[|h| - 1]]
    else Recent(h[..|h| - 1], cutoff)
  }

  /** The admissions in the window `(lo, hi]`. */
  function Within(h: seq<real>, lo: real, hi: real): seq<real> {
    if h == [] then []
    else if lo < h[|h| - 1] <= hi then Within(h[..|h| - 1], lo, hi) + [h[|h| - 1]]
    else Within(h[..|h| - 1], lo, hi)
  }

  lemma RecentAppend(h: seq<real>, x: real, cutoff: real)
    ensures Recent(h + [x], cutoff) == if x > cutoff then Recent(h, cutoff) + [x] else Recent(h, cutoff)
  {
    assert (h + [x])[..|h|] == h;
  }

  /** Cutting twice is cutting at the later time. */
  lemma {:induction false} RecentTwice(h: seq<real>, c: real, d: real)
    requires c <= d
    ensures Recent(Recent(h, c), d) == Recent(h, d)
  {
    if h != [] {
      var rest, x := h[..|h| - 1], h[|h| - 1];
      RecentTwice(rest, c, d);
      if x > c {
        RecentAppend(Recent(rest, c), x, d);
      }
    }
  }

  lemma {:induction false} RecentNone(h: seq<real>, c: real)
    requires forall i | 0 <= i < |h| :: h[i] <= c
    ensures Recent(h, c) == []
  {
    if h != [] {
      RecentNone(h[..|h| - 1], c);
    }
  }

  lemma {:induction false} RecentElements(h: seq<real>, c: real)
    requires Sorted(h)
    ensures Sorted(Recent(h, c)) && |Recent(h, c)| <= |h|
    ensures forall i | 0 <= i < |Recent(h, c)| :: Recent(h, c)[i] > c
    ensures h != [] ==> forall i | 0 <= i < |Recent(h, c)| :: Recent(h, c)[i] <= h[|h| - 1]
  {
    if h != [] {
      var rest := h[..|h| - 1];
      RecentElements(rest, c);
      assert rest != [] ==> rest[|rest| - 1] == h[|h| - 2];
    }
  }

  lemma {:induction false} ExpiredAppend(h: seq<real>, x: real, cutoff: real)
    ensures Expired(h + [x], cutoff) ==
            if Expired(h, cutoff) == [] then (if x <= cutoff then [] else [x]) else Expired(h, cutoff) + [x]
  {
    if h == [] {
      assert h + [x] == [x];
      assert [x][1..] == [];
    } else {
      assert (h + [x])[1..] == h[1..] + [x];
      if h[0] <= cutoff {
        ExpiredAppend(h[1..], x, cutoff);
      }
    }
  }

  /** On a sorted queue, dropping from the front finds exactly the recent entries. */
  lemma {:induction false} ExpiredIsRecent(h: seq<real>, cutoff: real)
    requires Sorted(h)
    ensures Expired(h, cutoff) == Recent(h, cutoff)
  {
    if h != [] {
      var rest, x := h[..|h| - 1], h[|h| - 1];
      assert h == rest + [x];
      ExpiredIsRecent(rest, cutoff);
      ExpiredAppend(rest, x, cutoff);
      RecentElements(rest, cutoff);
      if Recent(rest, cutoff) != [] {
        assert rest[|rest| - 1] <= x;
        assert Recent(rest, cutoff)[0] > cutoff;
      }
    }
  }

  lemma {:induction false} RecentFewer(h: seq<real>, c: real, d: real)
    requires c <= d
    ensures |Recent(h, d)| <= |Recent(h, c)|
  {
    if h != [] {
      RecentFewer(h[..|h| - 1], c, d);
    }
  }

  // ------------------------------------------------------------------------------- refinement

  /** The queue is the recent part of the history, as of some time no later than the last cut. */
  ghost predicate Stands(events: seq<real>, h: seq<real>, width: real, clock: real) {
    exists c :: c <= clock - width && events == Recent(h, c)
  }

  /** When the i-th admission was made the limit was kept. */
  ghost predicate KeptAt(h: seq<real>, i: nat, width: real, limit: nat)
    requires i < |h|
  {
    |Recent(h[..i + 1], h[i] - width)| <= limit
  }

  /** The history is in order, and when each of its admissions was made the limit was kept. */
  ghost predicate Fits(h: seq<real>, width: real, limit: nat, clock: real) {
    && Sorted(h) && (h != [] ==> h[|h| - 1] <= clock)
    && forall i | 0 <= i < |h| :: KeptAt(h, i, width, limit)
  }

  ghost predicate Refines(events: seq<real>, h: seq<real>, width: real, limit: nat, clock: real) {
    Stands(events, h, width, clock) && Fits(h, width, limit, clock) && |events| <= limit
  }

  lemma ExpiredCuts(events: seq<real>, h: seq<real>, c: real, cut: real)
    requires Sorted(h) && events == Recent(h, c) && c <= cut
    ensures Expired(events, cut) == Recent(h, cut) && |Expired(events, cut)| <= |events|
  {
    RecentElements(h, c);
    ExpiredIsRecent(events, cut);
    RecentTwice(h, c, cut);
    ExpiredShorter(events, cut);
  }

  lemma TakeOf(events: seq<real>, width: real, limit: nat, now: real, left: seq<real>)
    requires limit > 0 && left == Expired(events, now - width)
    ensures var (after, v) := Take(events, width, limit, now);
            && (v == Admitted <==> |left| < limit)
            && after == (if v == Admitted then left + [now] else left)
  {
  }

  /** A try cuts the queue at its own time, and decides by what is left. */
  lemma TakeCuts(events: seq<real>, h: seq<real>, width: real, limit: nat, c: real, now: real)
    requires limit > 0 && width > 0.0 && Sorted(h) && events == Recent(h, c) && c <= now - width
    ensures var (left, v) := Take(events, width, limit, now);
            && (v == Admitted <==> |Recent(h, now - width)| < limit)
            && left == Recent(if v == Admitted then h + [now] else h, now - width)
            && (|events| <= limit ==> |left| <= limit)
  {
    var cut := now - width;
    ExpiredCuts(events, h, c, cut);
    TakeOf(events, width, limit, now, Expired(events, cut));
    assert Recent(h + [now], cut) == Recent(h, cut) + [now] by {
      RecentAppend(h, now, cut);
    }
  }

  /** A try admits exactly when fewer than `limit` requests were admitted in the window that ends
      now, and the queue goes on standing for the history. */
  lemma TakeRefines(events: seq<real>, h: seq<real>, width: real, limit: nat, clock: real, now: real)
    requires Refines(events, h, width, limit, clock) && clock <= now && limit > 0 && width > 0.0
    ensures var (left, v) := Take(events, width, limit, now);
            && (v == Admitted <==> |Recent(h, now - width)| < limit)
            && Refines(left, if v == Admitted then h + [now] else h, width, limit, now)
  {
    var c :| c <= clock - width && events == Recent(h, c);
    TakeCuts(events, h, width, limit, c, now);
    if Take(events, width, limit, now).1 == Admitted {
      FitsAppend(h, width, limit, clock, now);
    }
  }

  lemma FitsAppend(h: seq<real>, width: real, limit: nat, clock: real, now: real)
    requires Fits(h, width, limit, clock) && clock <= now && width > 0.0 && |Recent(h, now - width)| < limit
    ensures Fits(h + [now], width, limit, now)
  {
    var g := h + [now];
    forall i | 0 <= i < |g| ensures KeptAt(g, i, width, limit) {
      if i < |h| {
        assert KeptAt(h, i, width, limit);
        assert g[..i + 1] == h[..i + 1];
      } else {
        assert g[..i + 1] == g;
        RecentAppend(h, now, now - width);
      }
    }
  }

  lemma FitsPrefix(h: seq<real>, width: real, limit: nat, clock: real)
    requires Fits(h, width, limit, clock) && h != []
    ensures Fits(h[..|h| - 1], width, limit, clock)
  {
    var g := h[..|h| - 1];
    forall i | 0 <= i < |g| ensures KeptAt(g, i, width, limit) {
      assert KeptAt(h, i, width, limit);
      assert g[..i + 1] == h[..i + 1];
    }
  }

  /** Taking back the latest admission leaves no trace of it. */
  lemma PopRefines(events: seq<real>, h: seq<real>, width: real, limit: nat, clock: real)
    requires Refines(events, h, width, limit, clock) && h != []
    ensures Refines(Pop(events), h[..|h| - 1], width, limit, clock)
  {
    var c :| c <= clock - width && events == Recent(h, c);
    var rest, x := h[..|h| - 1], h[|h| - 1];
    FitsPrefix(h, width, limit, clock);
    if x <= c {
      RecentNone(h, c);
    }
    assert Pop(events) == Recent(rest, c);
  }

  /** No window of the given width ever holds more admissions than the limit, wherever it starts. */
  lemma {:induction false} WindowBound(h: seq<real>, width: real, limit: nat, clock: real, t: real)
    requires Fits(h, width, limit, clock)
    ensures |Within(h, t, t + width)| <= limit
  {
    if h != [] {
      var rest, x := h[..|h| - 1], h[|h| - 1];
      if t < x <= t + width {
        WithinIsRecent(h, t, t + width);
        RecentFewer(h, x - width, t);
        assert KeptAt(h, |h| - 1, width, limit) && h[..|h| - 1 + 1] == h;
      } else {
        FitsPrefix(h, width, limit, clock);
        WindowBound(rest, width, limit, clock, t);
      }
    }
  }

  lemma {:induction false} WithinIsRecent(h: seq<real>, lo: real, hi: real)
    requires forall i | 0 <= i < |h| :: h[i] <= hi
    ensures Within(h, lo, hi) == Recent(h, lo)
  {
    if h != [] {
      WithinIsRecent(h[..|h| - 1], lo, hi);
    }
  }

  /** The time to wait is exact: a queue that refuses, and is not tried successfully meanwhile,
      refuses at every moment before `t + retryAfter` and admits at every moment from then on. */
  lemma RefusalTimeExact(events: seq<real>, width: real, limit: nat, t: real, later: real)
    requires limit > 0 && width > 0.0 && Sorted(events) && |events| <= limit
    requires events != [] ==> events[|events| - 1] <= t
    requires Take(events, width, limit, t).1.Refused? && t <= later
    ensures var (left, v) := Take(events, width, limit, t);
            && v.retryAfter > 0.0
            && (Take(left, width, limit, later).1 == Admitted <==> later >= t + v.retryAfter)
            && (later < t + v.retryAfter ==> Take(left, width, limit, later).0 == left)
  {
    ExpiredIsRecent(events, t - width);
    RecentElements(events, t - width);
    var left := Expired(events, t - width);
    assert |left| == limit && left[0] > t - width;
    if later - width >= left[0] {
      ExpiredShorter(left[1..], later - width);
    }
  }

  lemma {:induction false} ExpiredShorter(h: seq<real>, cutoff: real)
    ensures |Expired(h, cutoff)| <= |h|
  {
    if h != [] && h[0] <= cutoff {
      ExpiredShorter(h[1..], cutoff);
    }
  }

  // ----------------------------------------------------------------- requests that overlap in time

  datatype Admission = Admission(id: nat, at: real)

  function Times(log: seq<Admission>): seq<real> {
    seq(|log|, i requires 0 <= i < |log| => log[i].at)
  }

  /** One queue with what it should stand for: the admissions made and not taken back. */
  datatype Bucket = Bucket(events: seq<real>, log: seq<Admission>, clock: real)

  datatype Op =
    | Try(id: nat, now: real)
    | TakeBack(i: nat)         // the request with the i-th admission of the log rolls back

  ghost predicate Step(b: Bucket, op: Op, b': Bucket, width: real, limit: nat)
    requires limit > 0
  {
    match op
    case Try(id, now) =>
      var (left, v) := Take(b.events, width, limit, now);
      b.clock <= now && b' == Bucket(left, if v == Admitted then b.log + [Admission(id, now)] else b.log, now)
    case TakeBack(i) =>
      i < |b.log| && b' == Bucket(Pop(b.events), b.log[..i] + b.log[i + 1..], b.clock)
  }

  ghost predicate BucketRun(run: seq<Bucket>, ops: seq<Op>, width: real, limit: nat)
    requires limit > 0
  {
    && |run| == |ops| + 1 && run[0].events == [] && run[0].log == []
    && forall i | 0 <= i < |ops| :: Step(run[i], ops[i], run[i + 1], width, limit)
  }

  /** The rollback takes out an entry of its own time, or finds the queue empty. */
  predicate TakesOwn(b: Bucket, i: nat)
    requires i < |b.log|
  {
    b.events == [] || b.log[i].at == b.log[|b.log| - 1].at
  }

  /** Every rollback among the first `n` events does. */
  ghost predicate OwnRollbacks(run: seq<Bucket>, ops: seq<Op>, n: nat)
    requires n <= |ops| < |run|
  {
    forall j | 0 <= j < n && ops[j].TakeBack? :: ops[j].i < |run[j].log| && TakesOwn(run[j], ops[j].i)
  }

  /** The queue stands for the admissions made and not taken back. */
  ghost predicate Agrees(b: Bucket, width: real, limit: nat) {
    Refines(b.events, Times(b.log), width, limit, b.clock)
  }

  /** No request of the same key is admitted between another's admission and its rollback. */
  predicate Unmixed(run: seq<Bucket>, ops: seq<Op>)
    requires |run| == |ops| + 1
  {
    forall i | 0 <= i < |ops| && ops[i].TakeBack? :: ops[i].i == |run[i].log| - 1
  }

  lemma TimesAppend(log: seq<Admission>, a: Admission)
    ensures Times(log + [a]) == Times(log) + [a.at]
  {
  }

  lemma {:induction false} RecentConcat(a: seq<real>, b: seq<real>, c: real)
    ensures Recent(a + b, c) == Recent(a, c) + Recent(b, c)
  {
    if b == [] {
      assert a + b == a;
    } else {
      assert (a + b)[..|a + b| - 1] == a + b[..|b| - 1];
      RecentConcat(a, b[..|b| - 1], c);
    }
  }

  lemma RecentBehind(front: seq<real>, tail: seq<real>, c: real)
    requires forall k | 0 <= k < |tail| :: tail[k] > c
    ensures Recent(front + tail, c) == Recent(front, c) + tail
  {
    RecentConcat(front, tail, c);
    AllRecent(tail, c);
  }

  /** A recent entry taken out: dropping the last one instead comes to the same exactly when both have
      one time. */
  lemma RecentRollback(h: seq<real>, c: real, i: nat)
    requires Sorted(h) && i < |h| && h[i] > c
    ensures Pop(Recent(h, c)) == Recent(h[..i] + h[i + 1..], c) <==> h[i] == h[|h| - 1]
  {
    var front, tail := h[..i], h[i..];
    assert h == front + tail && h[i + 1..] == tail[1..];
    RecentBehind(front, tail, c);
    RecentBehind(front, tail[1..], c);
    PopOrShift(Recent(front, c), tail);
  }

  lemma RecentSome(h: seq<real>, c: real, i: nat)
    requires Sorted(h) && i < |h| && h[i] > c
    ensures Recent(h, c) != []
  {
    assert i < |h| - 1 ==> h[i] <= h[|h| - 1];
  }

  /** An expired entry taken out changes nothing. */
  lemma ExpiredRollback(h: seq<real>, c: real, i: nat)
    requires i < |h| && h[i] <= c
    ensures Recent(h[..i] + h[i + 1..], c) == Recent(h, c)
  {
    var front, back := h[..i], h[i + 1..];
    assert h == front + ([h[i]] + back);
    RecentConcat(front, [h[i]] + back, c);
    RecentConcat([h[i]], back, c);
    RecentConcat(front, back, c);
    RecentNone([h[i]], c);
  }

  lemma PopsSomething(events: seq<real>)
    ensures Pop(events) == events <==> events == []
  {
    assert events != [] ==> |Pop(events)| < |events|;
  }

  /** A rollback leaves what stands for the other admissions exactly when the queue is empty or its own
      time is that of the latest admission. */
  lemma RollbackExact(h: seq<real>, c: real, i: nat)
    requires Sorted(h) && i < |h|
    ensures Pop(Recent(h, c)) == Recent(h[..i] + h[i + 1..], c) <==> Recent(h, c) == [] || h[i] == h[|h| - 1]
  {
    if h[i] > c {
      RecentRollback(h, c, i);
      RecentSome(h, c, i);
    } else {
      ExpiredRollback(h, c, i);
      PopsSomething(Recent(h, c));
      if h[i] == h[|h| - 1] {
        RecentNone(h, c);
      }
    }
  }

  /** Dropping the last entry is dropping the first of `tail` exactly when they are equal. */
  lemma PopOrShift(before: seq<real>, tail: seq<real>)
    requires tail != [] && Sorted(tail)
    ensures Pop(before + tail) == before + tail[1..] <==> tail[0] == tail[|tail| - 1]
  {
    var front := tail[..|tail| - 1];
    assert Pop(before + tail) == before + front;
    if before + front == before + tail[1..] {
      assert (before + front)[|before|..] == front && (before + tail[1..])[|before|..] == tail[1..];
      ShiftConstant(tail);
    }
    if tail[0] == tail[|tail| - 1] {
      assert front == tail[1..];
    }
  }

  lemma {:induction false} AllRecent(h: seq<real>, c: real)
    requires forall k | 0 <= k < |h| :: h[k] > c
    ensures Recent(h, c) == h
  {
    if h != [] {
      AllRecent(h[..|h| - 1], c);
      assert h == h[..|h| - 1] + [h[|h| - 1]];
    }
  }

  lemma {:induction false} ShiftConstant(s: seq<real>)
    requires s != [] && s[..|s| - 1] == s[1..]
    ensures s[0] == s[|s| - 1]
    decreases |s|
  {
    if |s| > 1 {
      var r := s[1..];
      assert r[..|r| - 1] == s[1..][..|s| - 2] == s[..|s| - 1][1..] == r[1..] by {
        forall k | 0 <= k < |r| - 1 ensures r[k] == r[k + 1] {
          assert s[..|s| - 1][k + 1] == s[1..][k + 1];
        }
      }
      ShiftConstant(r);
      assert s[..|s| - 1][0] == s[1..][0];
    }
  }

  // --------------------------------------------------------------------------------- whole runs

  /** The queue is cut at the time of the last try. */
  ghost predicate CutNow(b: Bucket, width: real) {
    b.events == Recent(Times(b.log), b.clock - width)
  }

  lemma TimesWithout(log: seq<Admission>, i: nat)
    requires i < |log|
    ensures Times(log[..i] + log[i + 1..]) == Times(log)[..i] + Times(log)[i + 1..]
  {
  }

  lemma TryKeeps(b: Bucket, op: Op, b': Bucket, width: real, limit: nat)
    requires limit > 0 && width > 0.0 && Step(b, op, b', width, limit) && op.Try?
    requires Agrees(b, width, limit) && CutNow(b, width)
    ensures Agrees(b', width, limit) && CutNow(b', width)
  {
    var h := Times(b.log);
    TimesAppend(b.log, Admission(op.id, op.now));
    assert Agrees(b', width, limit) by {
      TakeRefines(b.events, h, width, limit, b.clock, op.now);
    }
    TakeCuts(b.events, h, width, limit, b.clock - width, op.now);
  }

  lemma RecentOfFewer(front: seq<real>, x: real, back: seq<real>, c: real)
    ensures |Recent(front + back, c)| <= |Recent(front + ([x] + back), c)|
  {
    RecentConcat(front, back, c);
    RecentConcat(front, [x] + back, c);
    RecentConcat([x], back, c);
  }

  lemma KeptWithout(h: seq<real>, width: real, limit: nat, i: nat, g: seq<real>, j: nat)
    requires i <= j < |g| && i < |h| && g == h[..i] + h[i + 1..] && KeptAt(h, j + 1, width, limit)
    ensures KeptAt(g, j, width, limit)
  {
    var more := h[i + 1..j + 2];
    assert g[..j + 1] == h[..i] + more;
    assert h[..j + 1 + 1] == h[..i] + ([h[i]] + more);
    RecentOfFewer(h[..i], h[i], more, g[j] - width);
  }

  /** Fewer admissions keep the limit, too. */
  lemma FitsWithout(h: seq<real>, width: real, limit: nat, clock: real, i: nat)
    requires Fits(h, width, limit, clock) && i < |h|
    ensures Fits(h[..i] + h[i + 1..], width, limit, clock)
  {
    var g := h[..i] + h[i + 1..];
    assert forall k | 0 <= k < |g| :: g[k] == if k < i then h[k] else h[k + 1];
    assert |g| == |h| - 1 && Sorted(g);
    assert g != [] ==> g[|g| - 1] <= h[|h| - 1];
    forall j | 0 <= j < |g| ensures KeptAt(g, j, width, limit) {
      if j < i {
        assert KeptAt(h, j, width, limit);
        assert g[..j + 1] == h[..j + 1];
      } else {
        assert KeptAt(h, j + 1, width, limit);
        KeptWithout(h, width, limit, i, g, j);
      }
    }
  }

  /** A queue that does not stand for the log at its own cut does not at an earlier one either. */
  lemma WrongPop(h: seq<real>, c: real, g: seq<real>, d: real)
    requires Sorted(h) && d <= c && Pop(Recent(h, c)) != Recent(g, c)
    ensures Pop(Recent(h, c)) != Recent(g, d)
  {
    RecentElements(h, c);
    AllRecent(Pop(Recent(h, c)), c);
    RecentTwice(g, d, c);
  }

  lemma NeverStands(h: seq<real>, c: real, g: seq<real>, events: seq<real>)
    requires Sorted(h) && events == Pop(Recent(h, c)) != Recent(g, c)
    ensures forall d | d <= c :: events != Recent(g, d)
  {
    forall d | d <= c ensures events != Recent(g, d) {
      WrongPop(h, c, g, d);
    }
  }

  lemma PopExact(events: seq<real>, h: seq<real>, width: real, limit: nat, clock: real, i: nat, g: seq<real>)
    requires Refines(events, h, width, limit, clock) && events == Recent(h, clock - width)
    requires i < |h| && g == h[..i] + h[i + 1..]
    ensures Refines(Pop(events), g, width, limit, clock) <==> events == [] || h[i] == h[|h| - 1]
    ensures events == [] || h[i] == h[|h| - 1] ==> Pop(events) == Recent(g, clock - width)
  {
    var c := clock - width;
    assert Pop(events) == Recent(g, c) <==> events == [] || h[i] == h[|h| - 1] by {
      RollbackExact(h, c, i);
    }
    FitsWithout(h, width, limit, clock, i);
    if Pop(events) != Recent(g, c) {
      NeverStands(h, c, g, Pop(events));
    }
  }

  /** After a rollback the queue agrees with the log if and only if the rollback took out its own time,
      or found nothing. */
  lemma TakeBackExact(b: Bucket, op: Op, b': Bucket, width: real, limit: nat)
    requires limit > 0 && width > 0.0 && Step(b, op, b', width, limit) && op.TakeBack?
    requires Agrees(b, width, limit) && CutNow(b, width)
    ensures Agrees(b', width, limit) <==> TakesOwn(b, op.i)
    ensures TakesOwn(b, op.i) ==> CutNow(b', width)
  {
    TimesWithout(b.log, op.i);
    PopExact(b.events, Times(b.log), width, limit, b.clock, op.i, Times(b'.log));
  }

  /** While all rollbacks take out their own time the queue agrees with the log. */
  lemma {:induction false} OwnRollbacksAgree(run: seq<Bucket>, ops: seq<Op>, width: real, limit: nat, i: nat)
    requires limit > 0 && width > 0.0 && BucketRun(run, ops, width, limit) && i < |run| && OwnRollbacks(run, ops, i)
    ensures Agrees(run[i], width, limit) && CutNow(run[i], width)
  {
    if i == 0 {
      assert Times(run[0].log) == [];
      assert run[0].events == Recent([], run[0].clock - width);
    } else {
      OwnRollbacksAgree(run, ops, width, limit, i - 1);
      assert Step(run[i - 1], ops[i - 1], run[i], width, limit);
      if ops[i - 1].Try? {
        TryKeeps(run[i - 1], ops[i - 1], run[i], width, limit);
      } else {
        TakeBackExact(run[i - 1], ops[i - 1], run[i], width, limit);
      }
    }
  }

  /** Over any run, with requests overlapping as they may: the queue stands for the admissions made and
      not taken back in all its states if and only if every rollback finds the queue empty or takes
      out its own time. */
  lemma {:induction false} RunExact(run: seq<Bucket>, ops: seq<Op>, width: real, limit: nat, i: nat)
    requires limit > 0 && width > 0.0 && BucketRun(run, ops, width, limit) && i < |run|
    ensures (forall j | 0 <= j <= i :: Agrees(run[j], width, limit)) <==> OwnRollbacks(run, ops, i)
  {
    if i == 0 {
      OwnRollbacksAgree(run, ops, width, limit, 0);
    } else {
      RunExact(run, ops, width, limit, i - 1);
      if OwnRollbacks(run, ops, i - 1) {
        OwnRollbacksAgree(run, ops, width, limit, i - 1);
        assert Step(run[i - 1], ops[i - 1], run[i], width, limit);
        if ops[i - 1].Try? {
          TryKeeps(run[i - 1], ops[i - 1], run[i], width, limit);
        } else {
          TakeBackExact(run[i - 1], ops[i - 1], run[i], width, limit);
        }
      }
    }
  }

  /** Then no window holds more admissions than the limit, and every decision is the one the full
      history gives. */
  lemma RunKeepsLimit(run: seq<Bucket>, ops: seq<Op>, width: real, limit: nat, i: nat, t: real)
    requires limit > 0 && width > 0.0 && BucketRun(run, ops, width, limit) && i < |run| && OwnRollbacks(run, ops, i)
    ensures |Within(Times(run[i].log), t, t + width)| <= limit
  {
    OwnRollbacksAgree(run, ops, width, limit, i);
    WindowBound(Times(run[i].log), width, limit, run[i].clock, t);
  }

  lemma DecisionsExact(run: seq<Bucket>, ops: seq<Op>, width: real, limit: nat, i: nat)
    requires limit > 0 && width > 0.0 && BucketRun(run, ops, width, limit)
    requires i < |ops| && ops[i].Try? && OwnRollbacks(run, ops, i)
    ensures |run[i + 1].log| > |run[i].log| <==> |Recent(Times(run[i].log), ops[i].now - width)| < limit
  {
    OwnRollbacksAgree(run, ops, width, limit, i);
    assert Step(run[i], ops[i], run[i + 1], width, limit);
    TakeRefines(run[i].events, Times(run[i].log), width, limit, run[i].clock, ops[i].now);
  }

  /** Requests that do not overlap meet the condition. */
  lemma UnmixedIsOwn(run: seq<Bucket>, ops: seq<Op>, width: real, limit: nat)
    requires limit > 0 && BucketRun(run, ops, width, limit) && Unmixed(run, ops)
    ensures OwnRollbacks(run, ops, |ops|)
  {
    forall j | 0 <= j < |ops| && ops[j].TakeBack? ensures ops[j].i < |run[j].log| && TakesOwn(run[j], ops[j].i) {
      assert Step(run[j], ops[j], run[j + 1], width, limit);
    }
  }

  lemma {:induction false} WithinAll(h: seq<real>, lo: real, hi: real)
    requires forall k | 0 <= k < |h| :: lo < h[k] <= hi
    ensures |Within(h, lo, hi)| == |h|
  {
    if h != [] {
      WithinAll(h[..|h| - 1], lo, hi);
    }
  }

  const OVERLAP_OPS := [Try(1, 0.0), Try(2, 5.0), TakeBack(0), Try(3, 6.0), Try(4, 10.0)]

  const OVERLAP_RUN :=
    var a, b, d, e := Admission(1, 0.0), Admission(2, 5.0), Admission(3, 6.0), Admission(4, 10.0);
    [Bucket([], [], 0.0), Bucket([0.0], [a], 0.0), Bucket([0.0, 5.0], [a, b], 5.0),
     Bucket([0.0], [b], 5.0), Bucket([0.0, 6.0], [b, d], 6.0), Bucket([6.0, 10.0], [b, d, e], 10.0)]

  lemma OverlapStep(i: nat)
    requires i < 5
    ensures Step(OVERLAP_RUN[i], OVERLAP_OPS[i], OVERLAP_RUN[i + 1], 10.0, 2)
  {
    if i == 2 {
      var log := OVERLAP_RUN[2].log;
      assert log[..0] + log[1..] == OVERLAP_RUN[3].log;
      assert Pop([0.0, 5.0]) == [0.0];
    } else if i == 4 {
      assert [0.0, 6.0][1..] == [6.0];
      assert Expired([0.0, 6.0], 0.0) == [6.0];
    }
  }

  /** An overlap can break the limit: with two requests allowed in ten seconds, the rollback of the
      first of two overlapping requests removes the time of the second, and a window then holds
      three admitted requests. */
  lemma OverlapBreaksTheLimit()
    ensures BucketRun(OVERLAP_RUN, OVERLAP_OPS, 10.0, 2) && !OwnRollbacks(OVERLAP_RUN, OVERLAP_OPS, 5)
    ensures |Within(Times(OVERLAP_RUN[5].log), 4.0, 14.0)| > 2
  {
    forall i: nat | i < 5 ensures Step(OVERLAP_RUN[i], OVERLAP_OPS[i], OVERLAP_RUN[i + 1], 10.0, 2) {
      OverlapStep(i);
    }
    assert OVERLAP_OPS[2].TakeBack? && !TakesOwn(OVERLAP_RUN[2], 0);
    WithinAll(Times(OVERLAP_RUN[5].log), 4.0, 14.0);
  }
}
