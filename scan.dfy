/** The accumulation loop of the pattern scan: for every ranked ticker, every
    bar from index 1 on whose date is on or after the cutoff is classified, and
    its date is appended to the ticker's list in the hammer, engulfing or
    piercing-line dict. A piercing line is not recorded on a date the ticker
    already has as engulfing. */
module PatternScan {
  import opened Dates
  import opened Candles

  type Ticker = string

  /** At most the first 50 ranked tickers are scanned (`symbols[:50]`). */
  const MaxTickers: nat := 50

  /** One key of a per-pattern dict with the dates appended under it. */
  datatype Entry = Entry(ticker: Ticker, dates: seq<CalendarDate>)

  /** A dict from ticker to date list. A dict keeps its keys in insertion
      order, which is the order in which the report lists the tickers. */
  type Table = seq<Entry>

  /** `d.get(ticker, [])`. */
  function Lookup(t: Table, ticker: Ticker): seq<CalendarDate> {
    if t == [] then []
    else if t[0].ticker == ticker then t[0].dates
    else Lookup(t[1..], ticker)
  }

  /** The keys, in insertion order. */
  function Tickers(t: Table): seq<Ticker> {
    seq(|t|, i requires 0 <= i < |t| => t[i].ticker)
  }

  /** `if ticker not in d: d[ticker] = []` followed by `d[ticker].append(date)`:
      only the ticker's list grows, by `date` at its end, and a new key goes last. */
  function Append(t: Table, ticker: Ticker, date: CalendarDate): (r: Table)
    ensures forall x :: Lookup(r, x) == if x == ticker then Lookup(t, x) + [date] else Lookup(t, x)
    ensures Tickers(r) == if ticker in Tickers(t) then Tickers(t) else Tickers(t) + [ticker]
  {
    if t == [] then [Entry(ticker, [date])]
    else if t[0].ticker == ticker then
      var r := [Entry(ticker, t[0].dates + [date])] + t[1..];
      assert Tickers(t)[0] == ticker;
      assert forall i :: 0 <= i < |t| ==> Tickers(r)[i] == Tickers(t)[i];
      r
    else
      var r := [t[0]] + Append(t[1..], ticker, date);
      assert Tickers(t) == [t[0].ticker] + Tickers(t[1..]);
      assert Tickers(r) == [t[0].ticker] + Tickers(Append(t[1..], ticker, date));
      r
  }

  /** Every key was created by an append (so its list is not empty), and no key repeats. */
  ghost predicate WellFormed(t: Table) {
    && (forall i :: 0 <= i < |t| ==> t[i].dates != [])
    && (forall i, j :: 0 <= i < j < |t| ==> t[i].ticker != t[j].ticker)
  }

  /** A new first key with a non-empty list keeps a dict well formed. */
  lemma ConsWellFormed(e: Entry, rest: Table)
    requires WellFormed(rest) && e.dates != [] && e.ticker !in Tickers(rest)
    ensures WellFormed([e] + rest)
  {
    forall j | 0 <= j < |rest|
      ensures rest[j].ticker != e.ticker
    {
      assert Tickers(rest)[j] == rest[j].ticker;
    }
  }

  lemma {:induction false} AppendWellFormed(t: Table, ticker: Ticker, date: CalendarDate)
    requires WellFormed(t)
    ensures WellFormed(Append(t, ticker, date))
  {
    if t != [] && t[0].ticker != ticker {
      var tail := t[1..];
      assert WellFormed(tail);
      AppendWellFormed(tail, ticker, date);
      var rest := Append(tail, ticker, date);
      assert t[0].ticker !in Tickers(tail) by {
        forall j | 0 <= j < |tail|
          ensures Tickers(tail)[j] != t[0].ticker
        {
          assert tail[j] == t[j + 1];
        }
      }
      assert t[0].ticker !in Tickers(rest);
      ConsWellFormed(t[0], rest);
      assert Append(t, ticker, date) == [t[0]] + rest;
    }
  }

  /** In a well-formed dict a ticker is a key exactly when it has at least one date. */
  lemma {:induction false} KeyIffDates(t: Table, x: Ticker)
    requires WellFormed(t)
    ensures x in Tickers(t) <==> Lookup(t, x) != []
  {
    if t != [] {
      KeyIffDates(t[1..], x);
      assert Tickers(t) == [t[0].ticker] + Tickers(t[1..]);
    }
  }

  /** The three dicts the scan fills. */
  datatype Report = Report(hammer: Table, engulfing: Table, piercing: Table)

  datatype Pattern = Hammer | Engulfing | Piercing

  function Of(r: Report, p: Pattern): Table {
    match p
    case Hammer => r.hammer
    case Engulfing => r.engulfing
    case Piercing => r.piercing
  }

  /** One iteration of the inner loop: bar `i` of `ticker`'s download. */
  function ScanBar(r: Report, ticker: Ticker, data: Series, i: nat, cutoff: Date): Report
    requires 1 <= i < |data|
  {
    var date := data[i].date;
    if !AtOrAfter(date, cutoff) then r
    else
      var hammer := if IsHammer(data[i], data, i) then Append(r.hammer, ticker, date) else r.hammer;
      var engulfing := if IsEngulfing(data, i) then Append(r.engulfing, ticker, date) else r.engulfing;
      var piercing :=
        if IsPiercingLine(data, i) && date !in Lookup(engulfing, ticker)
        then Append(r.piercing, ticker, date) else r.piercing;
      Report(hammer, engulfing, piercing)
  }

  /** The inner loop run over indices `1 .. n-1` of one download. */
  function ScanSeries(r: Report, ticker: Ticker, data: Series, cutoff: Date, n: nat): Report
    requires n <= |data|
  {
    if n <= 1 then r else ScanBar(ScanSeries(r, ticker, data, cutoff, n - 1), ticker, data, n - 1, cutoff)
  }

  /** The outer loop run over the first `k` tickers, each with its own download. */
  function ScanAll(symbols: seq<Ticker>, downloads: seq<Series>, cutoff: Date, k: nat): Report
    requires k <= |symbols| == |downloads|
  {
    if k == 0 then Report([], [], [])
    else
      var data := downloads[k - 1];
      ScanSeries(ScanAll(symbols, downloads, cutoff, k - 1), symbols[k - 1], data, cutoff, |data|)
  }

  function ScanCount(symbols: seq<Ticker>): nat {
    if |symbols| < MaxTickers then |symbols| else MaxTickers
  }

  /** The scan of `fin`: `downloads[k]` is the one-year daily download of
      `symbols[k]` (empty when nothing was found) and `cutoff` the date one week
      before now. */
  method Scan(symbols: seq<Ticker>, downloads: seq<Series>, cutoff: Date)
    returns (hammer: Table, engulfing: Table, piercing: Table)
    requires |downloads| == |symbols|
    ensures Report(hammer, engulfing, piercing) == ScanAll(symbols, downloads, cutoff, ScanCount(symbols))
  {
    hammer, engulfing, piercing := [], [], [];
    var count := ScanCount(symbols);
    for k := 0 to count
      invariant Report(hammer, engulfing, piercing) == ScanAll(symbols, downloads, cutoff, k)
    {
      var ticker, data := symbols[k], downloads[k];
      ghost var before := Report(hammer, engulfing, piercing);
      var i := 1;
      while i < |data|
        invariant 1 <= i && (i <= |data| || |data| <= 1)
        invariant Report(hammer, engulfing, piercing) == ScanSeries(before, ticker, data, cutoff, if i <= |data| then i else |data|)
      {
        var date := data[i].date;
        if AtOrAfter(date, cutoff) {
          if IsHammer(data[i], data, i) {
            hammer := Append(hammer, ticker, date);
          }
          if IsEngulfing(data, i) {
            engulfing := Append(engulfing, ticker, date);
          }
          if IsPiercingLine(data, i) {
            if date !in Lookup(engulfing, ticker) {
              piercing := Append(piercing, ticker, date);
            }
          }
        }
        i := i + 1;
      }
    }
  }

  // ----- what the scan records -----

  /** Bars are in strictly increasing date order, as a daily download is. */
  ghost predicate Chronological(data: Series) {
    forall j, k :: 0 <= j < k < |data| ==> Before(data[j].date, data[k].date)
  }

  /** Whether bar `i` is reported under pattern `p`: on or after the cutoff, the
      pattern holds, and for a piercing line the bar is not also engulfing. */
  predicate Reported(p: Pattern, data: Series, i: nat, cutoff: Date)
    requires 1 <= i < |data|
  {
    && AtOrAfter(data[i].date, cutoff)
    && match p
       case Hammer => IsHammer(data[i], data, i)
       case Engulfing => IsEngulfing(data, i)
       case Piercing => IsPiercingLine(data, i) && !IsEngulfing(data, i)
  }

  /** The dates of the bars among `1 .. n-1` reported under `p`, in bar order. */
  function PatternDates(p: Pattern, data: Series, cutoff: Date, n: nat): seq<CalendarDate>
    requires n <= |data|
  {
    if n <= 1 then []
    else PatternDates(p, data, cutoff, n - 1) + (if Reported(p, data, n - 1, cutoff) then [data[n - 1].date] else [])
  }

  lemma ScanBarWellFormed(r: Report, ticker: Ticker, data: Series, i: nat, cutoff: Date, p: Pattern)
    requires 1 <= i < |data| && WellFormed(Of(r, p))
    ensures WellFormed(Of(ScanBar(r, ticker, data, i, cutoff), p))
  {
    AppendWellFormed(Of(r, p), ticker, data[i].date);
  }

  lemma {:induction false} ScanSeriesWellFormed(r: Report, ticker: Ticker, data: Series, cutoff: Date, n: nat, p: Pattern)
    requires n <= |data| && WellFormed(Of(r, p))
    ensures WellFormed(Of(ScanSeries(r, ticker, data, cutoff, n), p))
  {
    if n > 1 {
      ScanSeriesWellFormed(r, ticker, data, cutoff, n - 1, p);
      ScanBarWellFormed(ScanSeries(r, ticker, data, cutoff, n - 1), ticker, data, n - 1, cutoff, p);
    }
  }

  /** Whatever the input, no key repeats in a dict the scan fills, and a ticker
      gets a key only with its first hit. */
  lemma {:induction false} ScanAllWellFormed(symbols: seq<Ticker>, downloads: seq<Series>, cutoff: Date, k: nat, p: Pattern)
    requires k <= |symbols| == |downloads|
    ensures WellFormed(Of(ScanAll(symbols, downloads, cutoff, k), p))
  {
    if k > 0 {
      ScanAllWellFormed(symbols, downloads, cutoff, k - 1, p);
      ScanSeriesWellFormed(ScanAll(symbols, downloads, cutoff, k - 1), symbols[k - 1], downloads[k - 1],
                           cutoff, |downloads[k - 1]|, p);
    }
  }

  /** Every listed date is the date of a reported bar with index at least 1, hence on or after the cutoff. */
  lemma {:induction false} PatternDatesFromBars(p: Pattern, data: Series, cutoff: Date, n: nat, d: Date)
    requires n <= |data| && d in PatternDates(p, data, cutoff, n)
    ensures exists j :: 1 <= j < n && data[j].date == d && Reported(p, data, j, cutoff)
    ensures AtOrAfter(d, cutoff)
  {
    if d !in PatternDates(p, data, cutoff, n - 1) {
      assert Reported(p, data, n - 1, cutoff) && data[n - 1].date == d;
    } else {
      PatternDatesFromBars(p, data, cutoff, n - 1, d);
    }
  }

  /** Each list keeps scan order: for a chronological download its dates strictly increase. */
  lemma {:induction false} PatternDatesChronological(p: Pattern, data: Series, cutoff: Date, n: nat)
    requires n <= |data| && Chronological(data)
    ensures forall a, b :: 0 <= a < b < |PatternDates(p, data, cutoff, n)| ==>
      Before(PatternDates(p, data, cutoff, n)[a], PatternDates(p, data, cutoff, n)[b])
  {
    if n > 1 {
      PatternDatesChronological(p, data, cutoff, n - 1);
      var prev := PatternDates(p, data, cutoff, n - 1);
      forall a | 0 <= a < |prev|
        ensures Before(prev[a], data[n - 1].date)
      {
        PatternDatesFromBars(p, data, cutoff, n - 1, prev[a]);
      }
    }
  }

  /** On a chronological download every date listed from the bars before `n`
      is earlier than the date of any bar from `n` on. */
  lemma PatternDatesBeforeBar(p: Pattern, data: Series, cutoff: Date, n: nat, i: nat)
    requires n <= i < |data| && Chronological(data)
    ensures forall e :: e in PatternDates(p, data, cutoff, n) ==> Before(e, data[i].date)
  {
    forall e | e in PatternDates(p, data, cutoff, n)
      ensures Before(e, data[i].date)
    {
      PatternDatesFromBars(p, data, cutoff, n, e);
      var j :| 1 <= j < n && data[j].date == e && Reported(p, data, j, cutoff);
      assert Before(data[j].date, data[i].date);
    }
  }

  /** One bar changes only `ticker`'s lists, and appends its date to exactly
      those of the patterns it is reported under, provided the ticker does not
      already hold that date as engulfing. */
  lemma ScanBarLookup(r: Report, ticker: Ticker, data: Series, i: nat, cutoff: Date, p: Pattern, x: Ticker)
    requires 1 <= i < |data| && data[i].date !in Lookup(r.engulfing, ticker)
    ensures Lookup(Of(ScanBar(r, ticker, data, i, cutoff), p), x) ==
      if x == ticker && Reported(p, data, i, cutoff) then Lookup(Of(r, p), x) + [data[i].date]
      else Lookup(Of(r, p), x)
  {
    var d := data[i].date;
    if AtOrAfter(d, cutoff) {
      var e := if IsEngulfing(data, i) then Append(r.engulfing, ticker, d) else r.engulfing;
      assert d in Lookup(e, ticker) <==> IsEngulfing(data, i);
    }
  }

  /** Before bar `i` of a chronological download, the ticker's engulfing list
      holds no date as late as bar `i`'s, when it started empty. */
  lemma NotYetEngulfing(r: Report, ticker: Ticker, data: Series, cutoff: Date, i: nat)
    requires i < |data| && Chronological(data) && Lookup(r.engulfing, ticker) == []
    ensures data[i].date !in Lookup(ScanSeries(r, ticker, data, cutoff, i).engulfing, ticker)
    decreases i, 2
  {
    ScanSeriesLookup(r, ticker, data, cutoff, i, Engulfing, ticker);
    PatternDatesBeforeBar(Engulfing, data, cutoff, i, i);
  }

  /** The list algebra of one step: appending a hit date to a list that
      extends `base` by `dates` extends `base` by `dates` and the hit. */
  lemma ExtendLookup(list: seq<CalendarDate>, base: seq<CalendarDate>, dates: seq<CalendarDate>,
                     d: CalendarDate, same: bool, hit: bool)
    requires list == if same then base + dates else base
    ensures (if same && hit then list + [d] else list) ==
      if same then base + (dates + (if hit then [d] else [])) else base
  {
  }

  /** The inductive step of `ScanSeriesLookup`: scanning bar `n - 1` extends the
      ticker's lists by that bar's reported dates. */
  lemma SeriesStep(r: Report, ticker: Ticker, data: Series, cutoff: Date, n: nat, p: Pattern, x: Ticker)
    requires 1 < n <= |data|
    requires data[n - 1].date !in Lookup(ScanSeries(r, ticker, data, cutoff, n - 1).engulfing, ticker)
    requires Lookup(Of(ScanSeries(r, ticker, data, cutoff, n - 1), p), x) ==
      if x == ticker then Lookup(Of(r, p), x) + PatternDates(p, data, cutoff, n - 1) else Lookup(Of(r, p), x)
    ensures Lookup(Of(ScanSeries(r, ticker, data, cutoff, n), p), x) ==
      if x == ticker then Lookup(Of(r, p), x) + PatternDates(p, data, cutoff, n) else Lookup(Of(r, p), x)
  {
    var before := ScanSeries(r, ticker, data, cutoff, n - 1);
    ScanBarLookup(before, ticker, data, n - 1, cutoff, p, x);
    ExtendLookup(Lookup(Of(before, p), x), Lookup(Of(r, p), x), PatternDates(p, data, cutoff, n - 1),
                 data[n - 1].date, x == ticker, Reported(p, data, n - 1, cutoff));
  }

  /** Scanning one ticker's download changes only that ticker's lists, and
      extends them by exactly the reported dates, provided no engulfing date was
      recorded for it before. */
  lemma {:induction false} ScanSeriesLookup(r: Report, ticker: Ticker, data: Series, cutoff: Date, n: nat, p: Pattern, x: Ticker)
    requires n <= |data| && Chronological(data) && Lookup(r.engulfing, ticker) == []
    ensures Lookup(Of(ScanSeries(r, ticker, data, cutoff, n), p), x) ==
      if x == ticker then Lookup(Of(r, p), x) + PatternDates(p, data, cutoff, n) else Lookup(Of(r, p), x)
    decreases n, 1
  {
    if n > 1 {
      NotYetEngulfing(r, ticker, data, cutoff, n - 1);
      ScanSeriesLookup(r, ticker, data, cutoff, n - 1, p, x);
      SeriesStep(r, ticker, data, cutoff, n, p, x);
    }
  }

  /** What the scan records, for distinct tickers and chronological downloads:
      a ticker's list under each pattern is exactly the dates of its reported
      bars, and a ticker that is not scanned has no list. */
  lemma {:induction false} ScanAllLookup(symbols: seq<Ticker>, downloads: seq<Series>, cutoff: Date, k: nat, p: Pattern, x: Ticker)
    requires k <= |symbols| == |downloads|
    requires forall a, b :: 0 <= a < b < k ==> symbols[a] != symbols[b]
    requires forall a :: 0 <= a < k ==> Chronological(downloads[a])
    ensures x !in symbols[..k] ==> Lookup(Of(ScanAll(symbols, downloads, cutoff, k), p), x) == []
    ensures forall a :: 0 <= a < k && symbols[a] == x ==>
      Lookup(Of(ScanAll(symbols, downloads, cutoff, k), p), x) == PatternDates(p, downloads[a], cutoff, |downloads[a]|)
  {
    if k > 0 {
      var t, data := symbols[k - 1], downloads[k - 1];
      var before := ScanAll(symbols, downloads, cutoff, k - 1);
      assert symbols[..k] == symbols[..k - 1] + [t];
      ScanAllLookup(symbols, downloads, cutoff, k - 1, p, x);
      ScanAllLookup(symbols, downloads, cutoff, k - 1, Engulfing, t);
      ScanSeriesLookup(before, t, data, cutoff, |data|, p, x);
      if x == t {
        ScanAllLookup(symbols, downloads, cutoff, k - 1, p, t);
      }
    }
  }

  /** On a chronological download no date is listed both as engulfing and as piercing line. */
  lemma {:induction false} PatternDatesDisjoint(data: Series, cutoff: Date, n: nat, d: Date)
    requires n <= |data| && Chronological(data)
    ensures !(d in PatternDates(Engulfing, data, cutoff, n) && d in PatternDates(Piercing, data, cutoff, n))
  {
    if n > 1 {
      PatternDatesDisjoint(data, cutoff, n - 1, d);
      if d == data[n - 1].date {
        PatternDatesBeforeBar(Engulfing, data, cutoff, n - 1, n - 1);
        PatternDatesBeforeBar(Piercing, data, cutoff, n - 1, n - 1);
      }
    }
  }

  /** The suppression rule: for distinct tickers with chronological downloads, no
      ticker has a date both in its engulfing list and in its piercing-line list,
      although every engulfing bar also passes the piercing-line test. */
  lemma EngulfingPiercingDisjoint(symbols: seq<Ticker>, downloads: seq<Series>, cutoff: Date, x: Ticker, d: Date)
    requires |symbols| == |downloads|
    requires forall a, b :: 0 <= a < b < ScanCount(symbols) ==> symbols[a] != symbols[b]
    requires forall a :: 0 <= a < ScanCount(symbols) ==> Chronological(downloads[a])
    ensures var r := ScanAll(symbols, downloads, cutoff, ScanCount(symbols));
      !(d in Lookup(r.engulfing, x) && d in Lookup(r.piercing, x))
  {
    var k := ScanCount(symbols);
    ScanAllLookup(symbols, downloads, cutoff, k, Engulfing, x);
    ScanAllLookup(symbols, downloads, cutoff, k, Piercing, x);
    if x in symbols[..k] {
      var a :| 0 <= a < k && symbols[a] == x;
      PatternDatesDisjoint(downloads[a], cutoff, |downloads[a]|, d);
    }
  }
}
