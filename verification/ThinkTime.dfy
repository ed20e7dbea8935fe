/** The decaying think-time averages of the anticipatory and CFQ schedulers (as-iosched.c,
    cfq-iosched.c), in fixed point with 1.0 written as 256 and in wrapping machine words. */
module ThinkTime {

  /** The number of values of an unsigned long. */
  const WORD := 0x1_0000_0000_0000_0000

  type Word = x: int | 0 <= x < WORD

  /** An unsigned int, as the tunables are. */
  type Ticks = x: int | 0 <= x < 0x1_0000_0000

  function Wrapped(x: nat): Word {
    if x < WORD then x else x % WORD
  }

  /** The quotient in machine words. */
  function Quotient(x: Word, y: Word): (q: Word)
    requires y > 0
    ensures q * y <= x < q * y + y
  {
    var q := x / y;
    QuotientFits(x, y);
    q
  }

  lemma QuotientFits(x: nat, y: nat)
    requires y > 0
    ensures var q := x / y; q <= x && q * y <= x < q * y + y
  {
    var q, r := x / y, x % y;
    assert x == y * q + r;
    Scaled(q, 1, y);
  }

  /** An average over think times. */
  datatype Average = Average(samples: Word, total: Word, mean: Word)

  const NONE := Average(0, 0, 0)

  /** One step of the decay: seven eighths of the old and an eighth of the new. */
  function Decayed(was: Word, more: Word): (d: Word)
    ensures 7 * was + 256 * more < WORD ==> 8 * d <= 7 * was + 256 * more <= 8 * d + 7
  {
    Wrapped(7 * was + 256 * more) / 8
  }

  /** The average after one more think time. */
  function Updated(a: Average, ttime: Word): Average
    requires Decayed(a.samples, 1) > 0
  {
    var samples, total := Decayed(a.samples, 1), Decayed(a.total, ttime);
    Average(samples, total, Quotient(Wrapped(total + 128), samples))
  }

  ghost predicate AtMost(ts: seq<Word>, m: Word) {
    forall i | 0 <= i < |ts| :: ts[i] <= m
  }

  ghost predicate AtLeast(ts: seq<Word>, m: Word) {
    forall i | 0 <= i < |ts| :: ts[i] >= m
  }

  /** The largest number of samples the decay reaches. */
  const FULL := 249

  lemma MoreSamples(s: Word)
    requires s <= FULL
    ensures 32 <= Decayed(s, 1) <= FULL
    ensures s < FULL ==> Decayed(s, 1) > s
    ensures s == FULL ==> Decayed(s, 1) == FULL
    ensures s >= 60 ==> Decayed(s, 1) > 80
  {
  }

  /** The average after any think times: the samples never run out, so that the division is safe, and
      they grow until they are full. They are enough to be trusted (sample_valid) exactly from the
      third think time on. */
  function After(ts: seq<Word>): (a: Average)
    ensures a.samples <= FULL
    ensures ts != [] ==> a.samples >= 32
    ensures ts != [] ==> a.samples == FULL || a.samples >= 31 + |ts|
    ensures a.samples > 80 <==> |ts| >= 3
    ensures |ts| == 0 ==> a.samples == 0
    ensures |ts| == 1 ==> a.samples == 32
    ensures |ts| >= 2 ==> a.samples >= 60
  {
    if ts == [] then NONE
    else
      var before := After(ts[..|ts| - 1]);
      MoreSamples(before.samples);
      Updated(before, ts[|ts| - 1])
  }

  // ---------------------------------------------------------------- bounds

  /** No sum wraps as long as think times are at most `m`. */
  ghost predicate Fits(m: Word) {
    2048 * m + 128 < WORD
  }

  lemma Scaled(m: nat, a: nat, b: nat)
    requires a <= b
    ensures m * a <= m * b
  {
  }

  lemma Spread(m: int, k: int, s: int, c: int)
    ensures m * (k * s + c) == k * (m * s) + m * c
  {
  }

  lemma UpperStep(s: nat, t: nat, x: nat, m: nat)
    requires t <= m * (s + 7) && x <= m && s <= FULL
    ensures 7 * t + 256 * x <= 2048 * m
    ensures (7 * t + 256 * x) / 8 <= m * ((7 * s + 256) / 8 + 7)
  {
    var s1 := (7 * s + 256) / 8;
    Scaled(m, s + 7, 256);
    Scaled(m, 7 * s + 249, 8 * s1);
    Spread(m, 7, s, 249);
    Spread(m, 8, s1, 0);
    Spread(m, 1, s, 7);
    Spread(m, 1, s1, 7);
    assert 8 * (m * s1) >= 7 * (m * s) + 249 * m;
  }

  lemma LowerStep(s: nat, t: nat, x: nat, m: nat)
    requires t + 7 >= m * s && x >= m
    ensures (7 * t + 256 * x) / 8 + 7 >= m * ((7 * s + 256) / 8)
  {
    var s1 := (7 * s + 256) / 8;
    Scaled(m, 8 * s1, 7 * s + 256);
    Spread(m, 7, s, 256);
    Spread(m, 8, s1, 0);
  }

  lemma DecayedIs(was: Word, more: Word)
    requires 7 * was + 256 * more < WORD
    ensures Decayed(was, more) == (7 * was + 256 * more) / 8
  {}

  lemma AfterStep(ts: seq<Word>)
    requires ts != []
    ensures var a, b := After(ts[..|ts| - 1]), After(ts);
            b.samples == Decayed(a.samples, 1) && b.total == Decayed(a.total, ts[|ts| - 1])
  {}

  /** One more think time of at most `m`: nothing wraps. */
  lemma StepFits(a: Average, x: Word, m: Word)
    requires a.samples <= FULL && a.total <= m * (a.samples + 7) && x <= m && Fits(m)
    ensures Decayed(a.samples, 1) == (7 * a.samples + 256) / 8 && Decayed(a.total, x) == (7 * a.total + 256 * x) / 8
    ensures Decayed(a.total, x) <= m * (Decayed(a.samples, 1) + 7)
  {
    hide Decayed;
    UpperStep(a.samples, a.total, x, m);
    DecayedIs(a.samples, 1);
    DecayedIs(a.total, x);
  }

  lemma {:induction false} TotalAtMost(ts: seq<Word>, m: Word)
    requires AtMost(ts, m) && Fits(m)
    ensures After(ts).total <= m * (After(ts).samples + 7)
  {
    if ts != [] {
      hide After, Decayed, Fits;
      var before := ts[..|ts| - 1];
      TotalAtMost(before, m);
      StepFits(After(before), ts[|ts| - 1], m);
      AfterStep(ts);
    }
  }

  lemma {:induction false} TotalAtLeast(ts: seq<Word>, m: Word, top: Word)
    requires AtLeast(ts, m) && AtMost(ts, top) && Fits(top)
    ensures After(ts).total + 7 >= m * After(ts).samples
  {
    if ts != [] {
      hide After, Decayed, Fits;
      var before, x := ts[..|ts| - 1], ts[|ts| - 1];
      TotalAtLeast(before, m, top);
      TotalAtMost(before, top);
      StepFits(After(before), x, top);
      LowerStep(After(before).samples, After(before).total, x, m);
      AfterStep(ts);
    }
  }

  lemma MeanIs(ts: seq<Word>)
    requires ts != [] && After(ts).total + 128 < WORD
    ensures var a := After(ts); a.mean * a.samples <= a.total + 128 < a.mean * a.samples + a.samples
  {
  }

  lemma Cancelled(a: nat, b: nat, s: nat)
    requires a * s < b * s
    ensures a < b
  {
    if a >= b {
      Scaled(s, b, a);
    }
  }

  lemma MeanAtLeast(mean: nat, total: nat, s: nat, low: nat)
    requires low * s <= total + 7 && total + 128 < mean * s + s
    ensures low <= mean
  {
    assert (mean + 1) * s == mean * s + s;
    Cancelled(low, mean + 1, s);
  }

  lemma MeanAtMost(mean: nat, total: nat, s: nat, m: nat, k: nat)
    requires 32 <= k <= s && total <= m * (s + 7) && mean * s <= total + 128
    ensures mean <= m + (7 * m + 128) / k
  {
    if mean > m {
      var over := mean - m;
      Spread(s, 1, m, over);
      Spread(m, 1, s, 7);
      Scaled(over, k, s);
      AtMostQuotient(over, k, 7 * m + 128);
    }
  }

  lemma AtMostQuotient(over: nat, k: nat, n: nat)
    requires k > 0 && over * k <= n
    ensures over <= n / k
  {
    QuotientFits(n, k);
    var q := n / k;
    Spread(k, 1, q, 1);
    Cancelled(over, q + 1, k);
  }

  /** For every history of think times between `low` and `high` the mean is at least `low`, and above
      `high` by no more than the rounding of so many samples allows. */
  lemma MeanBounds(ts: seq<Word>, low: Word, high: Word)
    requires ts != [] && AtLeast(ts, low) && AtMost(ts, high) && Fits(high)
    ensures var k := if 31 + |ts| < FULL then 31 + |ts| else FULL;
            low <= After(ts).mean <= high + (7 * high + 128) / k
    ensures After(ts).mean <= high + (7 * high + 128) / 32
  {
    var a, k := After(ts), if 31 + |ts| < FULL then 31 + |ts| else FULL;
    hide Updated, After, AtMost, AtLeast;
    TotalAtMost(ts, high);
    TotalAtLeast(ts, low, high);
    Scaled(high, a.samples + 7, 256);
    MeanIs(ts);
    MeanAtLeast(a.mean, a.total, a.samples, low);
    MeanAtMost(a.mean, a.total, a.samples, high, k);
    MeanAtMost(a.mean, a.total, a.samples, high, 32);
  }

  /** A think time that stays the same is reported as it is in the long run if it is short, and is
      never reported too short. */
  lemma SteadyMean(ts: seq<Word>, t: Word)
    requires |ts| >= 218 && AtLeast(ts, t) && AtMost(ts, t) && Fits(t)
    ensures t <= After(ts).mean <= t + (7 * t + 128) / FULL
    ensures t <= 17 ==> After(ts).mean == t
  {
    MeanBounds(ts, t, t);
  }

  /** The ticks since the last completion, as far as they count. */
  function ThinkTicks(jiffies: Word, last: Word, sliceIdle: Ticks): (t: Word)
    ensures t <= 2 * sliceIdle
  {
    var elapsed := if jiffies >= last then jiffies - last else jiffies - last + WORD;
    var limit := 2 * sliceIdle;
    if elapsed < limit then elapsed else limit
  }

  /** The ticks are right even if the clock has wrapped, up to twice the idle slice. */
  lemma TicksCounted(last: Word, d: Word, sliceIdle: Ticks)
    ensures var limit := 2 * sliceIdle;
            ThinkTicks(Wrapped(last + d), last, sliceIdle) == if d < limit then d else limit
  {
    hide Wrapped;
    WrappedSum(last, d);
  }

  lemma WrappedSum(a: Word, b: Word)
    ensures Wrapped(a + b) == if a + b < WORD then a + b else a + b - WORD
  {}

  /** CFQ's mean is bounded for every idle slice: nothing wraps. */
  lemma CfqMean(ts: seq<Word>, sliceIdle: Ticks)
    requires ts != [] && AtMost(ts, 2 * sliceIdle)
    ensures After(ts).mean <= 2 * sliceIdle + (14 * sliceIdle + 128) / 32
  {
    MeanBounds(ts, 0, 2 * sliceIdle);
  }

  // ---------------------------------------------------------------- the schedulers' fields

  /** What both schedulers keep of a process. */
  class IoContext {
    var lastEndRequest: Word
    var average: Average
    ghost var history: seq<Word>

    ghost predicate Valid()
      reads this
    {
      average == After(history)
    }

    constructor ()
      ensures Valid() && history == []
    {
      lastEndRequest, average, history := 0, NONE, [];
    }

    /** The three updates the schedulers share. */
    method Update(ttime: Word)
      requires Valid()
      modifies this`average, this`history
      ensures Valid() && history == old(history) + [ttime]
    {
      history := history + [ttime];
      assert history[..|history| - 1] == old(history);
      average := Updated(average, ttime);
    }

    /** cfq_update_io_thinktime. */
    method UpdateIoThinktime(jiffies: Word, sliceIdle: Ticks)
      requires Valid()
      modifies this`average, this`history
      ensures Valid() && history == old(history) + [ThinkTicks(jiffies, lastEndRequest, sliceIdle)]
    {
      Update(ThinkTicks(jiffies, lastEndRequest, sliceIdle));
    }
  }

  /** What the anticipatory scheduler keeps of new processes. */
  class AsHistory {
    var newTtimeTotal: Word
    var newTtimeMean: Word
    var exitProb: Word
    ghost const top: Word

    /** The mean over new processes is no more than the longest think time, and the probability of an
        exit stays below one. */
    ghost predicate Valid()
      reads this
    {
      Fits(top) && newTtimeTotal <= 256 * top && newTtimeMean == newTtimeTotal / 256 <= top && exitProb <= FULL
    }

    constructor (longest: Word)
      requires Fits(longest)
      ensures Valid() && top == longest && exitProb == 0
    {
      newTtimeTotal, newTtimeMean, exitProb, top := 0, 0, 0, longest;
    }

    /** as_update_thinktime: only a process's first think time counts for new processes. */
    method UpdateThinktime(aic: IoContext, ttime: Word)
      requires Valid() && aic.Valid() && ttime <= top
      modifies this, aic`average, aic`history
      ensures Valid() && aic.Valid() && aic.history == old(aic.history) + [ttime]
      ensures old(aic.history) != [] ==> newTtimeTotal == old(newTtimeTotal) && exitProb == old(exitProb)
      ensures old(aic.history) == [] ==> newTtimeTotal == Decayed(old(newTtimeTotal), ttime) && exitProb == Decayed(old(exitProb), 0)
    {
      if aic.average.samples == 0 {
        newTtimeTotal := Decayed(newTtimeTotal, ttime);
        newTtimeMean := newTtimeTotal / 256;
        exitProb := Decayed(exitProb, 0);
      }
      aic.Update(ttime);
    }

    /** A process exits, or times out, before its first think time. */
    method NoteExit()
      requires Valid()
      modifies this`exitProb
      ensures Valid() && exitProb == Decayed(old(exitProb), 1) && exitProb >= 32
      ensures exitProb > old(exitProb) || exitProb == old(exitProb) == FULL
    {
      MoreSamples(exitProb);
      exitProb := Decayed(exitProb, 1);
    }
  }
}
