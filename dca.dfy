/**
 * The dollar-cost-averaging simulation of calculateDCA: the samples inside
 * the date window are sorted and walked once while a purchase cursor moves
 * along the schedule; every sample whose day is not before the cursor buys
 * `amount / price` units and moves the cursor one period on.
 */
module Dca {
  import opened Calendar
  import opened PriceSeries

  datatype Frequency = Daily | Weekly | Monthly

  /** A JavaScript Date as the engine sees it: a local calendar date and a time of day. */
  datatype Moment = Moment(date: CivilDate, msOfDay: int)

  predicate ValidMoment(m: Moment) {
    ValidDate(m.date) && 0 <= m.msOfDay < MsPerDay
  }

  /** m.getTime(), in local milliseconds since the epoch. */
  function Instant(m: Moment): int
    requires ValidMoment(m)
  {
    MidnightOf(DayNumber(m.date)) + m.msOfDay
  }

  /** startOfDay(m).getTime(): the instant at which m's calendar day begins. */
  function StartOfDay(m: Moment): (t: int)
    requires ValidMoment(m)
    ensures DayOf(t) == DayNumber(m.date)
    ensures t % MsPerDay == 0
    ensures t <= Instant(m) < t + MsPerDay
  {
    MidnightOf(DayNumber(m.date))
  }

  /** One entry of the running history: the sample's day, and the totals after that sample. */
  datatype HistoryPoint = HistoryPoint(day: int, invested: real, value: real, price: real)

  datatype InvestmentResult = InvestmentResult(
    totalInvested: real,
    currentValue: real,
    totalBitcoin: real,
    roi: real,
    history: seq<HistoryPoint>)

  /** The purchase cursor after one purchase: one day, one week or one calendar month later. */
  function Advance(c: CivilDate, f: Frequency): (r: CivilDate)
    requires ValidDate(c)
    ensures ValidDate(r)
    ensures f == Daily ==> DayNumber(r) == DayNumber(c) + 1
    ensures f == Weekly ==> DayNumber(r) == DayNumber(c) + 7
    ensures f == Monthly ==> r == AddOneMonth(c)
    ensures DayNumber(c) < DayNumber(r) <= DayNumber(c) + 31
  {
    match f
    case Daily => AddDays(c, 1)
    case Weekly => AddDays(c, 7)
    case Monthly => AddOneMonth(c)
  }

  /** The cursor after n purchases: start advanced by n periods. */
  function AdvanceN(start: CivilDate, f: Frequency, n: nat): (r: CivilDate)
    requires ValidDate(start)
    ensures ValidDate(r)
  {
    if n == 0 then start else Advance(AdvanceN(start, f, n - 1), f)
  }

  /** One more purchase moves the cursor at least one day forward. */
  lemma AdvanceNStep(start: CivilDate, f: Frequency, n: nat)
    requires ValidDate(start)
    ensures DayNumber(AdvanceN(start, f, n)) < DayNumber(AdvanceN(start, f, n + 1))
  {
  }

  /** A sequence of integers that grows at every step grows by at least the number of steps. */
  lemma {:induction false} StepsGrow(g: nat -> int, i: nat, j: nat)
    requires forall k: nat :: g(k) < g(k + 1)
    requires i <= j
    ensures g(i) + (j - i) <= g(j)
  {
    if i < j {
      StepsGrow(g, i, j - 1);
      assert g(j - 1) < g(j);
    }
  }

  /** Each purchase moves the cursor at least one day forward, so the cursor only moves forward. */
  lemma AdvanceNIncreasing(start: CivilDate, f: Frequency, i: nat, j: nat)
    requires ValidDate(start)
    requires i <= j
    ensures DayNumber(AdvanceN(start, f, i)) + (j - i) <= DayNumber(AdvanceN(start, f, j))
  {
    var g := (k: nat) => DayNumber(AdvanceN(start, f, k));
    forall k: nat ensures g(k) < g(k + 1) {
      AdvanceNStep(start, f, k);
    }
    StepsGrow(g, i, j);
  }

  /** !isBefore(startOfDay(p.date), cursor): the sample's day is not before the cursor's. */
  predicate Due(p: PricePoint, cursor: CivilDate)
    requires ValidDate(cursor)
  {
    DayOf(p.date) >= DayNumber(cursor)
  }

  /** No sample has a zero price, so amount / price is defined for each one. */
  predicate NonZeroPrices(s: seq<PricePoint>) {
    forall p | p in s :: p.price != 0.0
  }

  /**
   * The units one purchase of `amount` buys at `price`. A zero price (an
   * infinite quotient in JavaScript) never reaches the walk: CalculateDca
   * requires non-zero prices; the guard only keeps this function total.
   */
  function UnitsFor(amount: real, price: real): real {
    if price == 0.0 then 0.0 else amount / price
  }

  /** For a non-zero price, the units bought are the quotient amount / price. */
  lemma UnitsForQuotient(amount: real, price: real)
    requires price != 0.0
    ensures UnitsFor(amount, price) == amount / price
  {
  }

  /** What `units` are worth at `price`. */
  function Worth(units: real, price: real): real {
    units * price
  }

  /** The money n purchases of `amount` each cost. */
  function Spent(amount: real, n: nat): real {
    amount * n as real
  }

  /** One more purchase adds one more `amount`. */
  lemma OneMorePurchase(amount: real, n: nat)
    ensures Spent(amount, n + 1) == Spent(amount, n) + amount
  {
  }

  /**
   * The state of the walk over the sorted samples: the cursor, the units and
   * the money accumulated, the history emitted so far, and the samples that
   * triggered a purchase (in the order they did).
   */
  datatype Walk = Walk(
    cursor: CivilDate,
    units: real,
    invested: real,
    history: seq<HistoryPoint>,
    purchases: seq<PricePoint>)

  /** The loop body for one sample: buy if due, then record the running totals. */
  function Step(w: Walk, p: PricePoint, f: Frequency, amount: real): Walk
    requires ValidDate(w.cursor)
  {
    if Due(p, w.cursor) then
      var units := w.units + UnitsFor(amount, p.price);
      var invested := w.invested + amount;
      Walk(Advance(w.cursor, f), units, invested,
           w.history + [HistoryPoint(DayOf(p.date), invested, Worth(units, p.price), p.price)],
           w.purchases + [p])
    else
      Walk(w.cursor, w.units, w.invested,
           w.history + [HistoryPoint(DayOf(p.date), w.invested, Worth(w.units, p.price), p.price)],
           w.purchases)
  }

  /** What one step does to each part of the walk. */
  lemma StepFacts(w: Walk, p: PricePoint, f: Frequency, amount: real)
    requires ValidDate(w.cursor)
    ensures var n := Step(w, p, f, amount);
      && n.history == w.history + [HistoryPoint(DayOf(p.date), n.invested, Worth(n.units, p.price), p.price)]
      && (Due(p, w.cursor) ==>
            n.cursor == Advance(w.cursor, f) && n.units == w.units + UnitsFor(amount, p.price)
            && n.invested == w.invested + amount && n.purchases == w.purchases + [p])
      && (!Due(p, w.cursor) ==>
            n.cursor == w.cursor && n.units == w.units && n.invested == w.invested && n.purchases == w.purchases)
  {
  }

  /** The walk over the samples s, in order, with the cursor starting at start. */
  function Run(s: seq<PricePoint>, start: CivilDate, f: Frequency, amount: real): (w: Walk)
    requires ValidDate(start)
    ensures ValidDate(w.cursor)
  {
    if s == [] then Walk(start, 0.0, 0.0, [], [])
    else Step(Run(s[..|s| - 1], start, f, amount), s[|s| - 1], f, amount)
  }

  /** Extending a prefix of the samples by one more sample is one more step of the walk. */
  lemma RunExtend(s: seq<PricePoint>, i: nat, start: CivilDate, f: Frequency, amount: real)
    requires ValidDate(start) && i < |s|
    ensures Run(s[..i + 1], start, f, amount) == Step(Run(s[..i], start, f, amount), s[i], f, amount)
  {
    assert s[..i + 1][..i] == s[..i];
  }

  /** The units a list of purchases of `amount` each bought: the sum of amount / price. */
  function UnitsBought(amount: real, ps: seq<PricePoint>): real
  {
    if ps == [] then 0.0
    else UnitsBought(amount, ps[..|ps| - 1]) + UnitsFor(amount, ps[|ps| - 1].price)
  }

  /** The return on investment in percent, 0 when nothing was invested. */
  function Roi(value: real, invested: real): real {
    if invested > 0.0 then (value - invested) / invested * 100.0 else 0.0
  }

  /**
   * The ROI is the growth of the invested money in percent: positive exactly
   * on a gain, negative exactly on a loss, and 0 when nothing was invested.
   */
  lemma RoiMeaning(value: real, invested: real)
    ensures var r := Roi(value, invested);
      && (invested <= 0.0 ==> r == 0.0)
      && (invested > 0.0 ==> value == invested * (1.0 + r / 100.0))
      && (invested > 0.0 ==> (r > 0.0 <==> value > invested) && (r < 0.0 <==> value < invested))
  {
  }

  /** The samples calculateDCA walks: those in the window, sorted by date. */
  function Relevant(prices: seq<PricePoint>, startDate: Moment, endDate: Moment): seq<PricePoint>
    requires ValidMoment(startDate) && ValidMoment(endDate)
  {
    SortByDate(Window(prices, StartOfDay(startDate), StartOfDay(endDate)))
  }

  /** Every relevant sample comes from the input and lies between the two midnights. */
  lemma RelevantSamples(prices: seq<PricePoint>, startDate: Moment, endDate: Moment)
    requires ValidMoment(startDate) && ValidMoment(endDate)
    ensures SortedByDate(Relevant(prices, startDate, endDate))
    ensures forall p :: multiset(Relevant(prices, startDate, endDate))[p] ==
                        if StartOfDay(startDate) <= p.date <= StartOfDay(endDate) then multiset(prices)[p] else 0
    ensures forall p | p in Relevant(prices, startDate, endDate) ::
      p in prices
      && DayNumber(startDate.date) <= DayOf(p.date) <= DayNumber(endDate.date)
      && (DayOf(p.date) == DayNumber(endDate.date) ==> p.date == StartOfDay(endDate))
  {
    var startMs, endMs := StartOfDay(startDate), StartOfDay(endDate);
    var w := Window(prices, startMs, endMs);
    WindowContents(prices, startMs, endMs);
    SortByDateSortsAndPermutes(w);
    var r := SortByDate(w);
    forall p | p in r
      ensures p in prices
      ensures DayNumber(startDate.date) <= DayOf(p.date) <= DayNumber(endDate.date)
      ensures DayOf(p.date) == DayNumber(endDate.date) ==> p.date == endMs
    {
      assert multiset(r)[p] > 0;
      assert InWindow(p, startMs, endMs);
      DayOfMonotone(startMs, p.date);
      DayOfMonotone(p.date, endMs);
    }
  }

  /**
   * No relevant sample has a zero price when no input sample has one, so an
   * input free of zero prices meets CalculateDca's precondition.
   */
  lemma RelevantNonZero(prices: seq<PricePoint>, startDate: Moment, endDate: Moment)
    requires ValidMoment(startDate) && ValidMoment(endDate)
    requires NonZeroPrices(prices)
    ensures NonZeroPrices(Relevant(prices, startDate, endDate))
  {
    RelevantSamples(prices, startDate, endDate);
  }

  /**
   * Samples that share a timestamp are walked in their input order: the
   * filter keeps the order and the sort is stable.
   */
  lemma RelevantKeepsTies(prices: seq<PricePoint>, startDate: Moment, endDate: Moment, t: int)
    requires ValidMoment(startDate) && ValidMoment(endDate)
    requires StartOfDay(startDate) <= t <= StartOfDay(endDate)
    ensures Window(Relevant(prices, startDate, endDate), t, t) == Window(prices, t, t)
  {
    var w := Window(prices, StartOfDay(startDate), StartOfDay(endDate));
    SortByDateStable(w, t);
    WindowNarrow(prices, StartOfDay(startDate), StartOfDay(endDate), t, t);
  }

  lemma DayOfMonotone(s: int, t: int)
    requires s <= t
    ensures DayOf(s) <= DayOf(t)
  {
  }

  /** The whole of calculateDCA as a function of its inputs. */
  function Simulate(prices: seq<PricePoint>, amount: real, f: Frequency, startDate: Moment, endDate: Moment): InvestmentResult
    requires |prices| > 0
    requires ValidMoment(startDate) && ValidMoment(endDate)
  {
    var w := Run(Relevant(prices, startDate, endDate), startDate.date, f, amount);
    var currentValue := Worth(w.units, prices[|prices| - 1].price);
    InvestmentResult(w.invested, currentValue, w.units, Roi(currentValue, w.invested), w.history)
  }

  // ---------------------------------------------------------------------------
  // Properties of the walk
  // ---------------------------------------------------------------------------

  /** One history entry per sample, and at most one purchase per sample. */
  lemma {:induction false} RunLengths(s: seq<PricePoint>, start: CivilDate, f: Frequency, amount: real)
    requires ValidDate(start)
    ensures |Run(s, start, f, amount).history| == |s|
    ensures |Run(s, start, f, amount).purchases| <= |s|
  {
    if s != [] {
      var init := s[..|s| - 1];
      RunLengths(init, start, f, amount);
      StepFacts(Run(init, start, f, amount), s[|s| - 1], f, amount);
    }
  }

  /** The cursor is the start advanced by one period per purchase. */
  lemma {:induction false} RunCursor(s: seq<PricePoint>, start: CivilDate, f: Frequency, amount: real)
    requires ValidDate(start)
    ensures Run(s, start, f, amount).cursor == AdvanceN(start, f, |Run(s, start, f, amount).purchases|)
  {
    if s != [] {
      var init := s[..|s| - 1];
      RunCursor(init, start, f, amount);
      StepFacts(Run(init, start, f, amount), s[|s| - 1], f, amount);
    }
  }

  /** totalInvested is amount times the number of purchases. */
  lemma {:induction false} RunInvested(s: seq<PricePoint>, start: CivilDate, f: Frequency, amount: real)
    requires ValidDate(start)
    ensures Run(s, start, f, amount).invested == Spent(amount, |Run(s, start, f, amount).purchases|)
  {
    if s != [] {
      var init := s[..|s| - 1];
      RunInvested(init, start, f, amount);
      var w0 := Run(init, start, f, amount);
      StepFacts(w0, s[|s| - 1], f, amount);
      OneMorePurchase(amount, |w0.purchases|);
    }
  }

  /**
   * Counting in the walk: one history entry per sample; at most one purchase
   * per sample; the money invested is amount per purchase; and the cursor is
   * the start advanced by one period per purchase.
   */
  lemma RunBookkeeping(s: seq<PricePoint>, start: CivilDate, f: Frequency, amount: real)
    requires ValidDate(start)
    ensures var w := Run(s, start, f, amount);
      && |w.history| == |s|
      && |w.purchases| <= |s|
      && w.cursor == AdvanceN(start, f, |w.purchases|)
      && w.invested == Spent(amount, |w.purchases|)
  {
    RunLengths(s, start, f, amount);
    RunCursor(s, start, f, amount);
    RunInvested(s, start, f, amount);
  }

  /** totalBitcoin is the sum of amount / price over the samples that bought. */
  lemma {:induction false} RunUnits(s: seq<PricePoint>, start: CivilDate, f: Frequency, amount: real)
    requires ValidDate(start)
    ensures Run(s, start, f, amount).units == UnitsBought(amount, Run(s, start, f, amount).purchases)
  {
    if s != [] {
      var init, last := s[..|s| - 1], s[|s| - 1];
      RunUnits(init, start, f, amount);
      var w0 := Run(init, start, f, amount);
      StepFacts(w0, last, f, amount);
      if Due(last, w0.cursor) {
        assert (w0.purchases + [last])[..|w0.purchases|] == w0.purchases;
      }
    }
  }

  /** The purchases are samples of s, each sample bought at most once. */
  lemma {:induction false} PurchasesAreSamples(s: seq<PricePoint>, start: CivilDate, f: Frequency, amount: real)
    requires ValidDate(start)
    ensures multiset(Run(s, start, f, amount).purchases) <= multiset(s)
  {
    if s != [] {
      var init, last := s[..|s| - 1], s[|s| - 1];
      assert s == init + [last];
      assert multiset(s) == multiset(init) + multiset{last};
      PurchasesAreSamples(init, start, f, amount);
      var w0 := Run(init, start, f, amount);
      StepFacts(w0, last, f, amount);
      if Due(last, w0.cursor) {
        assert multiset(w0.purchases + [last]) == multiset(w0.purchases) + multiset{last};
      }
    }
  }

  /**
   * The purchase rule: the sample at position i buys exactly when its day is
   * not before the start advanced by one period per earlier purchase, and it
   * buys at most once.
   */
  lemma PurchaseRule(s: seq<PricePoint>, start: CivilDate, f: Frequency, amount: real, i: nat)
    requires ValidDate(start) && i < |s|
    ensures var before := Run(s[..i], start, f, amount).purchases;
      Run(s[..i + 1], start, f, amount).purchases ==
        before + (if Due(s[i], AdvanceN(start, f, |before|)) then [s[i]] else [])
  {
    assert s[..i + 1][..i] == s[..i];
    RunBookkeeping(s[..i], start, f, amount);
    StepFacts(Run(s[..i], start, f, amount), s[i], f, amount);
  }

  /** The k-th sample (from 0) falls on a day no earlier than the start advanced by k periods. */
  predicate OnSchedule(ps: seq<PricePoint>, start: CivilDate, f: Frequency)
    requires ValidDate(start)
  {
    forall k | 0 <= k < |ps| :: DayOf(ps[k].date) >= DayNumber(AdvanceN(start, f, k))
  }

  lemma OnScheduleSnoc(ps: seq<PricePoint>, p: PricePoint, start: CivilDate, f: Frequency)
    requires ValidDate(start) && OnSchedule(ps, start, f)
    requires Due(p, AdvanceN(start, f, |ps|))
    ensures OnSchedule(ps + [p], start, f)
  {
    var qs := ps + [p];
    forall k | 0 <= k < |qs| ensures DayOf(qs[k].date) >= DayNumber(AdvanceN(start, f, k)) {
      if k < |ps| {
        assert qs[k] == ps[k];
      }
    }
  }

  /** The k-th purchase (from 0) falls on a day no earlier than the start advanced by k periods. */
  lemma {:induction false} PurchasesFollowSchedule(s: seq<PricePoint>, start: CivilDate, f: Frequency, amount: real)
    requires ValidDate(start)
    ensures OnSchedule(Run(s, start, f, amount).purchases, start, f)
  {
    if s != [] {
      var init, last := s[..|s| - 1], s[|s| - 1];
      assert s == init + [last];
      PurchasesFollowSchedule(init, start, f, amount);
      var w0 := Run(init, start, f, amount);
      RunCursor(init, start, f, amount);
      StepFacts(w0, last, f, amount);
      if Due(last, w0.cursor) {
        OnScheduleSnoc(w0.purchases, last, start, f);
      }
    }
  }

  /** When sample i is on or after the i-th scheduled date, every sample buys: none is skipped. */
  lemma {:induction false} OnScheduleBuysEverySample(s: seq<PricePoint>, start: CivilDate, f: Frequency, amount: real)
    requires ValidDate(start)
    requires OnSchedule(s, start, f)
    ensures Run(s, start, f, amount).purchases == s
  {
    if s != [] {
      var init, last := s[..|s| - 1], s[|s| - 1];
      assert s == init + [last];
      assert OnSchedule(init, start, f) by {
        forall k | 0 <= k < |init| ensures DayOf(init[k].date) >= DayNumber(AdvanceN(start, f, k)) {
          assert init[k] == s[k];
        }
      }
      OnScheduleBuysEverySample(init, start, f, amount);
      var w0 := Run(init, start, f, amount);
      RunCursor(init, start, f, amount);
      assert w0.cursor == AdvanceN(start, f, |init|);
      assert Due(last, w0.cursor);
      StepFacts(w0, last, f, amount);
      assert Run(s, start, f, amount).purchases == init + [last];
    }
  }

  /** The history of a prefix of the samples is the same prefix of the history. */
  lemma {:induction false} HistoryPrefix(s: seq<PricePoint>, start: CivilDate, f: Frequency, amount: real, n: nat)
    requires ValidDate(start) && n <= |s|
    ensures var h := Run(s, start, f, amount).history;
      |h| == |s| && Run(s[..n], start, f, amount).history == h[..n]
  {
    RunLengths(s, start, f, amount);
    if n < |s| {
      var init := s[..|s| - 1];
      assert init[..n] == s[..n];
      HistoryPrefix(init, start, f, amount, n);
      var w0 := Run(init, start, f, amount);
      StepFacts(w0, s[|s| - 1], f, amount);
      assert Run(s, start, f, amount).history[..n] == w0.history[..n];
    } else {
      assert s[..n] == s;
    }
  }

  /**
   * Entry i of the history describes sample i with the totals after that
   * sample: a purchase made on sample i is already counted in entry i.
   */
  lemma HistoryEntry(s: seq<PricePoint>, start: CivilDate, f: Frequency, amount: real, i: nat)
    requires ValidDate(start) && i < |s|
    ensures var h := Run(s, start, f, amount).history;
      var after := Run(s[..i + 1], start, f, amount);
      |h| == |s| && h[i] == HistoryPoint(DayOf(s[i].date), after.invested, Worth(after.units, s[i].price), s[i].price)
  {
    HistoryPrefix(s, start, f, amount, i + 1);
    assert s[..i + 1][..i] == s[..i];
    StepFacts(Run(s[..i], start, f, amount), s[i], f, amount);
  }

  /** When the samples are in date order, so is the history. */
  lemma HistoryInDateOrder(s: seq<PricePoint>, start: CivilDate, f: Frequency, amount: real)
    requires ValidDate(start) && SortedByDate(s)
    ensures var h := Run(s, start, f, amount).history;
      |h| == |s| && forall i, j | 0 <= i < j < |h| :: h[i].day <= h[j].day
  {
    var h := Run(s, start, f, amount).history;
    RunBookkeeping(s, start, f, amount);
    forall i, j | 0 <= i < j < |h| ensures h[i].day <= h[j].day {
      HistoryEntry(s, start, f, amount, i);
      HistoryEntry(s, start, f, amount, j);
      DayOfMonotone(s[i].date, s[j].date);
    }
  }

  /** The invested column of the history never decreases and never exceeds the total. */
  predicate InvestedMonotone(w: Walk) {
    && (forall i | 0 <= i < |w.history| :: w.history[i].invested <= w.invested)
    && (forall i, j | 0 <= i <= j < |w.history| :: w.history[i].invested <= w.history[j].invested)
  }

  /** With a non-negative amount the invested column never decreases. */
  lemma {:induction false} InvestedNonDecreasing(s: seq<PricePoint>, start: CivilDate, f: Frequency, amount: real)
    requires ValidDate(start) && amount >= 0.0
    ensures InvestedMonotone(Run(s, start, f, amount))
  {
    if s != [] {
      var init := s[..|s| - 1];
      InvestedNonDecreasing(init, start, f, amount);
      var w0, w := Run(init, start, f, amount), Run(s, start, f, amount);
      StepFacts(w0, s[|s| - 1], f, amount);
      assert w0.invested <= w.invested;
      var n := |w0.history|;
      assert w.history[n].invested == w.invested;
      forall i | 0 <= i < |w.history| ensures w.history[i].invested <= w.invested {
        if i < n {
          assert w.history[i] == w0.history[i];
          assert w0.history[i].invested <= w0.invested;
        }
      }
      forall i, j | 0 <= i <= j < |w.history| ensures w.history[i].invested <= w.history[j].invested {
        if j < n {
          assert w.history[i] == w0.history[i] && w.history[j] == w0.history[j];
          assert w0.history[i].invested <= w0.history[j].invested;
        } else {
          assert w.history[i].invested <= w.invested;
        }
      }
    }
  }

  /** The samples on which calculateDCA buys. */
  function Purchases(prices: seq<PricePoint>, amount: real, f: Frequency, startDate: Moment, endDate: Moment): seq<PricePoint>
    requires ValidMoment(startDate) && ValidMoment(endDate)
  {
    Run(Relevant(prices, startDate, endDate), startDate.date, f, amount).purchases
  }

  /**
   * The totals calculateDCA reports: the money is amount per purchase, the
   * units are the sum of amount / price over the purchases, and the value is
   * those units at the last input price.
   */
  lemma SimulateTotals(prices: seq<PricePoint>, amount: real, f: Frequency, startDate: Moment, endDate: Moment)
    requires |prices| > 0
    requires ValidMoment(startDate) && ValidMoment(endDate)
    ensures Simulate(prices, amount, f, startDate, endDate).totalInvested
            == Spent(amount, |Purchases(prices, amount, f, startDate, endDate)|)
    ensures Simulate(prices, amount, f, startDate, endDate).totalBitcoin
            == UnitsBought(amount, Purchases(prices, amount, f, startDate, endDate))
    ensures Simulate(prices, amount, f, startDate, endDate).currentValue
            == Worth(Simulate(prices, amount, f, startDate, endDate).totalBitcoin, prices[|prices| - 1].price)
  {
    var s := Relevant(prices, startDate, endDate);
    RunBookkeeping(s, startDate.date, f, amount);
    RunUnits(s, startDate.date, f, amount);
  }

  /**
   * The history calculateDCA reports has one entry per relevant sample, in
   * date order, and every purchase is a distinct relevant sample.
   */
  lemma SimulateHistory(prices: seq<PricePoint>, amount: real, f: Frequency, startDate: Moment, endDate: Moment)
    requires |prices| > 0
    requires ValidMoment(startDate) && ValidMoment(endDate)
    ensures |Simulate(prices, amount, f, startDate, endDate).history| == |Relevant(prices, startDate, endDate)|
    ensures var h := Simulate(prices, amount, f, startDate, endDate).history;
      forall i, j | 0 <= i < j < |h| :: h[i].day <= h[j].day
    ensures multiset(Purchases(prices, amount, f, startDate, endDate)) <= multiset(Relevant(prices, startDate, endDate))
  {
    var s := Relevant(prices, startDate, endDate);
    RelevantSamples(prices, startDate, endDate);
    HistoryInDateOrder(s, startDate.date, f, amount);
    PurchasesAreSamples(s, startDate.date, f, amount);
  }

  /**
   * calculateDCA: keeps the samples between the two midnights, sorts them in
   * place, and walks them once, buying on every sample that is due and
   * recording the running totals after each sample.
   */
  method CalculateDca(prices: seq<PricePoint>, amount: real, frequency: Frequency, startDate: Moment, endDate: Moment)
    returns (result: InvestmentResult)
    requires |prices| > 0
    requires ValidMoment(startDate) && ValidMoment(endDate)
    requires NonZeroPrices(Relevant(prices, startDate, endDate))
    ensures result == Simulate(prices, amount, frequency, startDate, endDate)
  {
    var start := StartOfDay(startDate);
    var end := StartOfDay(endDate);
    var history: seq<HistoryPoint> := [];
    var window := Window(prices, start, end);
    var relevantPrices := new PricePoint[|window|](i requires 0 <= i < |window| => window[i]);
    assert relevantPrices[..] == window;
    SortByDateInPlace(relevantPrices);
    ghost var relevant := relevantPrices[..];
    assert relevant == Relevant(prices, startDate, endDate);
    assert forall k | 0 <= k < |relevant| :: relevant[k].price != 0.0 by {
      forall k | 0 <= k < |relevant| ensures relevant[k].price != 0.0 {
        assert relevant[k] in relevant;
      }
    }

    var nextInvestmentDate := startDate.date;
    var accumulatedBitcoin := 0.0;
    var accumulatedInvested := 0.0;
    ghost var purchases: seq<PricePoint> := [];
    for i := 0 to relevantPrices.Length
      invariant relevantPrices[..] == relevant
      invariant ValidDate(nextInvestmentDate)
      invariant Run(relevant[..i], startDate.date, frequency, amount)
                == Walk(nextInvestmentDate, accumulatedBitcoin, accumulatedInvested, history, purchases)
    {
      var point := relevantPrices[i];
      assert point == relevant[i];
      RunExtend(relevant, i, startDate.date, frequency, amount);
      ghost var before := Walk(nextInvestmentDate, accumulatedBitcoin, accumulatedInvested, history, purchases);
      ghost var next := Step(before, point, frequency, amount);
      StepFacts(before, point, frequency, amount);
      var pointDay := DayOf(point.date);
      if !(pointDay < DayNumber(nextInvestmentDate)) {
        if pointDay == DayNumber(nextInvestmentDate) || DayNumber(nextInvestmentDate) < pointDay {
          var btcBought := amount / point.price;
          accumulatedBitcoin := accumulatedBitcoin + btcBought;
          accumulatedInvested := accumulatedInvested + amount;
          match frequency {
            case Daily => nextInvestmentDate := AddDays(nextInvestmentDate, 1);
            case Weekly => nextInvestmentDate := AddDays(nextInvestmentDate, 7);
            case Monthly => nextInvestmentDate := AddOneMonth(nextInvestmentDate);
          }
          purchases := purchases + [point];
          UnitsForQuotient(amount, point.price);
          assert accumulatedBitcoin == next.units;
          assert nextInvestmentDate == next.cursor;
        }
      }
      assert accumulatedBitcoin == next.units;
      assert accumulatedInvested == next.invested;
      history := history + [HistoryPoint(pointDay, accumulatedInvested, Worth(accumulatedBitcoin, point.price), point.price)];
      assert Walk(nextInvestmentDate, accumulatedBitcoin, accumulatedInvested, history, purchases) == next;
    }
    assert relevant[..relevantPrices.Length] == relevant;

    var currentPrice := prices[|prices| - 1].price;
    var currentValue := Worth(accumulatedBitcoin, currentPrice);
    var roi := Roi(currentValue, accumulatedInvested);
    assert Run(relevant, startDate.date, frequency, amount)
           == Walk(nextInvestmentDate, accumulatedBitcoin, accumulatedInvested, history, purchases);
    result := InvestmentResult(accumulatedInvested, currentValue, accumulatedBitcoin, roi, history);
  }

  // ---------------------------------------------------------------------------
  // Worked cases
  // ---------------------------------------------------------------------------

  /**
   * After a gap in the data the cursor lags behind, so the walk buys on
   * consecutive samples until it catches up: with a weekly schedule, samples
   * on days 14 and 15 after the start both buy.
   */
  lemma CatchUpAfterGap(start: CivilDate, amount: real, p1: PricePoint, p2: PricePoint)
    requires ValidDate(start)
    requires DayOf(p1.date) == DayNumber(start) + 14 && DayOf(p2.date) == DayNumber(start) + 15
    ensures Run([p1, p2], start, Weekly, amount).purchases == [p1, p2]
  {
    assert [p1, p2][..1] == [p1];
    assert [p1][..0] == [];
    var w0 := Run([], start, Weekly, amount);
    StepFacts(w0, p1, Weekly, amount);
    var w1 := Step(w0, p1, Weekly, amount);
    StepFacts(w1, p2, Weekly, amount);
  }

  /** The monthly cursor keeps the clamped day: 2024-01-31, 2024-02-29, 2024-03-29. */
  lemma MonthlyClampCarriesOver()
    ensures ValidDate(CivilDate(2024, 1, 31))
    ensures AdvanceN(CivilDate(2024, 1, 31), Monthly, 1) == CivilDate(2024, 2, 29)
    ensures AdvanceN(CivilDate(2024, 1, 31), Monthly, 2) == CivilDate(2024, 3, 29)
  {
    assert IsLeap(2024);
  }

  /** One sample at 50000 on a one-day window with amount 100: 0.002 units, worth 100, ROI 0. */
  lemma SingleSampleOutcome(day: Moment)
    requires ValidMoment(day)
    ensures var p := PricePoint(StartOfDay(day), 50000.0);
      var r := Simulate([p], 100.0, Daily, day, day);
      r.totalInvested == 100.0 && r.totalBitcoin == 0.002 && r.currentValue == 100.0 && r.roi == 0.0
      && r.history == [HistoryPoint(DayNumber(day.date), 100.0, 100.0, 50000.0)]
  {
    var p := PricePoint(StartOfDay(day), 50000.0);
    assert [p][..0] == [];
    assert Window([p], StartOfDay(day), StartOfDay(day)) == [p];
    assert SortByDate([p]) == [p];
    var w0 := Run([], day.date, Daily, 100.0);
    StepFacts(w0, p, Daily, 100.0);
    assert Run([p], day.date, Daily, 100.0) == Step(w0, p, Daily, 100.0);
  }
}
