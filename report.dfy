/** The text of the scan report (`format_candle_patterns` inside `fin`): three
    headed sections, hammer, engulfing and piercing line, each with one
    `"TICKER: date date ..."` line per key of the matching dict. */
module ScanReport {
  import opened Wrappers
  import opened Dates
  import opened Candles
  import opened PatternScan

  const HammerHeader: string := "\n--- 망치형 ---"
  const EngulfingHeader: string := "\n--- 장악형 ---"
  const PiercingHeader: string := "\n--- 관통형 ---"

  /** `sep.join(parts)`. */
  function Join(sep: string, parts: seq<string>): string {
    if parts == [] then ""
    else if |parts| == 1 then parts[0]
    else Join(sep, parts[..|parts| - 1]) + sep + parts[|parts| - 1]
  }

  /** `[date.strftime("%Y. %m. %d") for date in dates]`. */
  function FormattedDates(dates: seq<CalendarDate>): seq<string> {
    seq(|dates|, i requires 0 <= i < |dates| => FormatDate(dates[i]))
  }

  /** `f"{ticker}: {' '.join(formatted_dates)}"`. */
  function EntryLine(e: Entry): string {
    e.ticker + ": " + Join(" ", FormattedDates(e.dates))
  }

  function EntryLines(t: Table): seq<string> {
    seq(|t|, i requires 0 <= i < |t| => EntryLine(t[i]))
  }

  /** The lines of `output`, in the order they are appended. */
  function ReportLines(hammer: Table, engulfing: Table, piercing: Table): seq<string> {
    [HammerHeader] + EntryLines(hammer)
    + [EngulfingHeader] + EntryLines(engulfing)
    + [PiercingHeader] + EntryLines(piercing)
  }

  /** One section of `format_candle_patterns`: the header, then one line per
      key of the dict, in key order. */
  method AppendSection(output: seq<string>, header: string, t: Table) returns (extended: seq<string>)
    ensures extended == output + [header] + EntryLines(t)
  {
    extended := output + [header];
    for j := 0 to |t|
      invariant extended == output + [header] + EntryLines(t[..j])
    {
      var formatted := FormattedDates(t[j].dates);
      var line := t[j].ticker + ": " + Join(" ", formatted);
      assert line == EntryLine(t[j]);
      assert EntryLines(t[..j + 1]) == EntryLines(t[..j]) + [line];
      extended := extended + [line];
    }
    assert t[..|t|] == t;
  }

  /** `format_candle_patterns`: builds `output` section by section and joins it with newlines. */
  method FormatCandlePatterns(hammer: Table, engulfing: Table, piercing: Table) returns (text: string)
    ensures text == Join("\n", ReportLines(hammer, engulfing, piercing))
  {
    var output: seq<string> := [];
    output := AppendSection(output, HammerHeader, hammer);
    output := AppendSection(output, EngulfingHeader, engulfing);
    output := AppendSection(output, PiercingHeader, piercing);
    assert output == ReportLines(hammer, engulfing, piercing);
    text := Join("\n", output);
  }

  /** `fin` after the symbol list is known: scan, then render. */
  method Fin(symbols: seq<Ticker>, downloads: seq<Series>, cutoff: Date) returns (text: string)
    requires |downloads| == |symbols|
    ensures var r := ScanAll(symbols, downloads, cutoff, ScanCount(symbols));
      text == Join("\n", ReportLines(r.hammer, r.engulfing, r.piercing))
  {
    var hammer, engulfing, piercing := Scan(symbols, downloads, cutoff);
    text := FormatCandlePatterns(hammer, engulfing, piercing);
  }

  // ----- layout of the report -----

  /** The report has the three headers in order, with each dict's lines, in key
      order, right after its header; an empty dict leaves its header alone. */
  lemma ReportLayout(hammer: Table, engulfing: Table, piercing: Table)
    ensures var lines := ReportLines(hammer, engulfing, piercing);
      && |lines| == 3 + |hammer| + |engulfing| + |piercing|
      && lines[0] == HammerHeader
      && lines[1 + |hammer|] == EngulfingHeader
      && lines[2 + |hammer| + |engulfing|] == PiercingHeader
      && (forall j :: 0 <= j < |hammer| ==> lines[1 + j] == EntryLine(hammer[j]))
      && (forall j :: 0 <= j < |engulfing| ==> lines[2 + |hammer| + j] == EntryLine(engulfing[j]))
      && (forall j :: 0 <= j < |piercing| ==> lines[3 + |hammer| + |engulfing| + j] == EntryLine(piercing[j]))
  {
  }

  lemma {:induction false} JoinFieldsLength(fields: seq<string>)
    requires fields != [] && forall i :: 0 <= i < |fields| ==> |fields[i]| == 12
    ensures |Join(" ", fields)| == 13 * |fields| - 1
  {
    if |fields| > 1 {
      JoinFieldsLength(fields[..|fields| - 1]);
    }
  }

  /** Twelve-character fields joined by single spaces sit at offsets `13 * k`. */
  lemma {:induction false} JoinFieldsAt(fields: seq<string>, k: nat)
    requires k < |fields| && forall i :: 0 <= i < |fields| ==> |fields[i]| == 12
    ensures |Join(" ", fields)| == 13 * |fields| - 1
    ensures Join(" ", fields)[13 * k .. 13 * k + 12] == fields[k]
  {
    JoinFieldsLength(fields);
    var n := |fields|;
    if n > 1 {
      var init := fields[..n - 1];
      var prefix := Join(" ", init);
      JoinFieldsLength(init);
      if k < n - 1 {
        JoinFieldsAt(init, k);
        assert (prefix + " " + fields[n - 1])[13 * k .. 13 * k + 12] == prefix[13 * k .. 13 * k + 12];
      } else {
        assert (prefix + " " + fields[n - 1])[13 * k .. 13 * k + 12] == fields[n - 1];
      }
    }
  }

  /** The dates of a line are 12-character fields one space apart, so the
      `k`-th date can be read back from its fixed offset. */
  lemma DatesTextLayout(dates: seq<CalendarDate>, k: nat)
    requires k < |dates|
    ensures |Join(" ", FormattedDates(dates))| == 13 * |dates| - 1
    ensures Join(" ", FormattedDates(dates))[13 * k .. 13 * k + 12] == FormatDate(dates[k])
  {
    JoinFieldsAt(FormattedDates(dates), k);
  }

  /** An entry's line is the ticker and `": "`, then 13 characters per date less one. */
  lemma EntryLineLayout(e: Entry)
    ensures |EntryLine(e)| == |e.ticker| + 2 + (if e.dates == [] then 0 else 13 * |e.dates| - 1)
    ensures EntryLine(e)[..|e.ticker| + 2] == e.ticker + ": "
  {
    if e.dates != [] {
      JoinFieldsLength(FormattedDates(e.dates));
    }
  }

  /** Every date listed on an entry's line reads back as that date. */
  lemma EntryLineDates(e: Entry, k: nat)
    requires k < |e.dates|
    ensures var start := |e.ticker| + 2 + 13 * k;
      start + 12 <= |EntryLine(e)| && ParseDate(EntryLine(e)[start .. start + 12]) == Some(e.dates[k])
  {
    DatesTextLayout(e.dates, k);
    var text := Join(" ", FormattedDates(e.dates));
    var start := |e.ticker| + 2 + 13 * k;
    assert EntryLine(e)[start .. start + 12] == text[13 * k .. 13 * k + 12];
    ParseFormatDate(e.dates[k]);
  }
}
