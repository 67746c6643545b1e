/** Request metrics: counters and a latency histogram per company and endpoint. */
module Metrics {

  const DEFAULT_BUCKETS: seq<real> := [0.5, 1.0, 2.5, 5.0, 10.0, 25.0, 50.0, 100.0, 250.0, 500.0]

  datatype SeriesKey = SeriesKey(company: string, endpoint: string)

  datatype Histogram = Histogram(buckets: seq<real>, counts: seq<nat>, sum: real, totalCount: nat)

  datatype Series = Series(
    requestsTotal: nat, bytesIn: nat, bytesOut: nat, tokensIn: nat, tokensOut: nat, streamEvents: nat,
    errorCounts: map<string, nat>, latency: Histogram)

  datatype Request = Request(
    latencyMs: real, bytesIn: nat, bytesOut: nat, tokensIn: nat, tokensOut: nat, streamEvents: nat, errorType: string)

  /** What happens to a series: a request is recorded, or an error alone. */
  datatype Entry = Recorded(request: Request) | ErrorOnly(errorType: string)

  /** What a scrape reports of a series; the last of `buckets` is the one without a bound. */
  datatype Rendered = Rendered(
    requestsTotal: nat, bytesIn: nat, bytesOut: nat, tokensIn: nat, tokensOut: nat, streamEvents: nat,
    errorCounts: map<string, nat>, buckets: seq<nat>, sum: real, count: nat)

  const EMPTY_SERIES := Series(0, 0, 0, 0, 0, 0, map[], Histogram([], [], 0.0, 0))

  // ----- What a history amounts to -----

  function CountAtMost(history: seq<Entry>, bound: real): nat
    decreases |history|
  {
    if history == [] then 0
    else
      var last := history[|history| - 1];
      CountAtMost(history[..|history| - 1], bound)
      + if last.Recorded? && last.request.latencyMs <= bound then 1 else 0
  }

  function CountRequests(history: seq<Entry>): nat
    decreases |history|
  {
    if history == [] then 0
    else CountRequests(history[..|history| - 1]) + if history[|history| - 1].Recorded? then 1 else 0
  }

  function SumLatency(history: seq<Entry>): real
    decreases |history|
  {
    if history == [] then 0.0
    else
      var last := history[|history| - 1];
      SumLatency(history[..|history| - 1]) + if last.Recorded? then last.request.latencyMs else 0.0
  }

  function ErrorOf(e: Entry): string {
    match e case Recorded(r) => r.errorType case ErrorOnly(t) => t
  }

  function CountErrors(history: seq<Entry>, errorType: string): nat
    decreases |history|
  {
    if history == [] then 0
    else
      CountErrors(history[..|history| - 1], errorType)
      + if errorType != "" && ErrorOf(history[|history| - 1]) == errorType then 1 else 0
  }

  // ----- The counters -----

  function CreateHistogram(): Histogram {
    Histogram(DEFAULT_BUCKETS, seq(|DEFAULT_BUCKETS| + 1, i => 0), 0.0, 0)
  }

  /** The first bucket a latency fits in; the last one takes what fits in none. */
  function Slot(buckets: seq<real>, latency: real): (i: nat)
    ensures i <= |buckets| && (i < |buckets| ==> latency <= buckets[i])
    ensures forall j :: 0 <= j < i ==> latency > buckets[j]
  {
    if buckets == [] || latency <= buckets[0] then 0
    else
      var i := Slot(buckets[1..], latency);
      assert forall k :: 0 <= k < i ==> buckets[1..][k] == buckets[k + 1];
      i + 1
  }

  function WithError(errorCounts: map<string, nat>, errorType: string): map<string, nat> {
    if errorType == "" then errorCounts
    else errorCounts[errorType := (if errorType in errorCounts then errorCounts[errorType] else 0) + 1]
  }

  function Started(s: Series): Series {
    if s.latency.buckets == [] then s.(latency := CreateHistogram()) else s
  }

  function AfterLatency(h: Histogram, latency: real): Histogram
    requires |h.counts| == |h.buckets| + 1
  {
    var i := Slot(h.buckets, latency);
    h.(counts := h.counts[i := h.counts[i] + 1], sum := h.sum + latency, totalCount := h.totalCount + 1)
  }

  predicate Shaped(s: Series) {
    s.latency.buckets == [] || (s.latency.buckets == DEFAULT_BUCKETS && |s.latency.counts| == |DEFAULT_BUCKETS| + 1)
  }

  function After(s: Series, e: Entry): (s': Series)
    requires Shaped(s)
    ensures Shaped(s')
  {
    match e
    case ErrorOnly(errorType) =>
      if errorType == "" then s
      else
        var s' := Started(s);
        s'.(errorCounts := WithError(s'.errorCounts, errorType))
    case Recorded(r) =>
      var s' := Started(s);
      s'.(requestsTotal := s'.requestsTotal + 1,
          bytesIn := s'.bytesIn + r.bytesIn, bytesOut := s'.bytesOut + r.bytesOut,
          tokensIn := s'.tokensIn + r.tokensIn, tokensOut := s'.tokensOut + r.tokensOut,
          streamEvents := s'.streamEvents + r.streamEvents, latency := AfterLatency(s'.latency, r.latencyMs),
          errorCounts := WithError(s'.errorCounts, r.errorType))
  }

  function Replay(history: seq<Entry>): (s: Series)
    ensures Shaped(s)
    decreases |history|
  {
    if history == [] then EMPTY_SERIES
    else After(Replay(history[..|history| - 1]), history[|history| - 1])
  }

  /** The first `n` counts, added up. */
  function Cumulative(counts: seq<nat>, n: nat): nat
    requires n <= |counts|
    decreases n
  {
    if n == 0 then 0 else Cumulative(counts, n - 1) + counts[n - 1]
  }

  /** The buckets a scrape reports. */
  function Buckets(h: Histogram): seq<nat>
    requires h.buckets == [] || |h.counts| == |h.buckets| + 1
  {
    if h.buckets == [] then []
    else seq(|h.counts|, i requires 0 <= i < |h.counts| => Cumulative(h.counts, i + 1))
  }

  function Render(s: Series): Rendered
    requires Shaped(s)
  {
    Rendered(s.requestsTotal, s.bytesIn, s.bytesOut, s.tokensIn, s.tokensOut, s.streamEvents, s.errorCounts,
             Buckets(s.latency), s.latency.sum, s.latency.totalCount)
  }

  class MetricsRegistry {
    var metricsBySeries: map<SeriesKey, Series>
    ghost var history: map<SeriesKey, seq<Entry>>

    constructor ()
      ensures Valid() && history == map[]
    {
      metricsBySeries, history := map[], map[];
    }

    ghost predicate Valid()
      reads this
    {
      && metricsBySeries.Keys == history.Keys
      && forall key :: key in history ==> metricsBySeries[key] == Replay(history[key])
    }

    ghost function HistoryOf(key: SeriesKey): seq<Entry>
      reads this
    {
      if key in history then history[key] else []
    }

    method IncrementError(key: SeriesKey, errorType: string)
      requires Valid()
      modifies this
      ensures Valid()
      ensures history == if errorType == "" then old(history)
                         else old(history)[key := old(HistoryOf(key)) + [ErrorOnly(errorType)]]
    {
      hide After, Replay;
      if errorType == "" {
        return;
      }
      ghost var before := HistoryOf(key);
      ReplayNothing();
      ReplayOneMore(before, ErrorOnly(errorType));
      var series := if key in metricsBySeries then metricsBySeries[key] else EMPTY_SERIES;
      series := AddError(series, errorType);
      metricsBySeries := metricsBySeries[key := series];
      history := history[key := before + [ErrorOnly(errorType)]];
    }

    method RecordRequest(key: SeriesKey, r: Request)
      requires Valid()
      modifies this
      ensures Valid()
      ensures history == old(history)[key := old(HistoryOf(key)) + [Recorded(r)]]
    {
      hide After, Replay;
      ghost var before := HistoryOf(key);
      ReplayNothing();
      ReplayOneMore(before, Recorded(r));
      var series := if key in metricsBySeries then metricsBySeries[key] else EMPTY_SERIES;
      series := AddRequest(series, r);
      metricsBySeries := metricsBySeries[key := series];
      history := history[key := before + [Recorded(r)]];
    }

    /** The values of a scrape, series by series. */
    method RenderPrometheus() returns (scrape: map<SeriesKey, Rendered>)
      requires Valid()
      ensures scrape.Keys == history.Keys
      ensures forall key :: key in history ==> scrape[key] == Render(Replay(history[key]))
    {
      scrape := map[];
      var keys := metricsBySeries.Keys;
      while keys != {}
        invariant keys <= metricsBySeries.Keys && scrape.Keys == metricsBySeries.Keys - keys
        invariant forall key :: key in scrape ==> scrape[key] == Render(metricsBySeries[key])
        decreases keys
      {
        var key :| key in keys;
        keys := keys - {key};
        var s := metricsBySeries[key];
        var buckets := RenderBuckets(s.latency);
        scrape := scrape[key := Rendered(
          s.requestsTotal, s.bytesIn, s.bytesOut, s.tokensIn, s.tokensOut, s.streamEvents, s.errorCounts,
          buckets, s.latency.sum, s.latency.totalCount)];
      }
    }
  }

  method AddError(s: Series, errorType: string) returns (s': Series)
    requires Shaped(s) && errorType != ""
    ensures s' == After(s, ErrorOnly(errorType))
  {
    s' := s;
    if s'.latency.buckets == [] {
      s' := s'.(latency := CreateHistogram());
    }
    var count := if errorType in s'.errorCounts then s'.errorCounts[errorType] else 0;
    s' := s'.(errorCounts := s'.errorCounts[errorType := count + 1]);
  }

  method AddRequest(s: Series, r: Request) returns (s': Series)
    requires Shaped(s)
    ensures s' == After(s, Recorded(r))
  {
    hide AfterLatency;
    s' := s;
    if s'.latency.buckets == [] {
      s' := s'.(latency := CreateHistogram());
    }
    s' := s'.(requestsTotal := s'.requestsTotal + 1,
              bytesIn := s'.bytesIn + r.bytesIn, bytesOut := s'.bytesOut + r.bytesOut,
              tokensIn := s'.tokensIn + r.tokensIn, tokensOut := s'.tokensOut + r.tokensOut,
              streamEvents := s'.streamEvents + r.streamEvents);
    var histogram := AddLatency(s'.latency, r.latencyMs);
    s' := s'.(latency := histogram);
    if r.errorType != "" {
      var count := if r.errorType in s'.errorCounts then s'.errorCounts[r.errorType] else 0;
      s' := s'.(errorCounts := s'.errorCounts[r.errorType := count + 1]);
    }
  }

  method AddLatency(h: Histogram, latency: real) returns (h': Histogram)
    requires |h.counts| == |h.buckets| + 1
    ensures h' == AfterLatency(h, latency)
  {
    var counts := h.counts;
    var bucketed := false;
    var i := 0;
    while i < |h.buckets|
      invariant 0 <= i <= |h.buckets| && !bucketed && counts == h.counts
      invariant forall j :: 0 <= j < i ==> latency > h.buckets[j]
    {
      if latency <= h.buckets[i] {
        SlotIsFirst(h.buckets, latency, i);
        counts := counts[i := counts[i] + 1];
        bucketed := true;
        break;
      }
      i := i + 1;
    }
    if !bucketed {
      SlotIsFirst(h.buckets, latency, |h.buckets|);
      counts := counts[|counts| - 1 := counts[|counts| - 1] + 1];
    }
    assert counts == h.counts[Slot(h.buckets, latency) := h.counts[Slot(h.buckets, latency)] + 1];
    h' := h.(counts := counts, sum := h.sum + latency, totalCount := h.totalCount + 1);
  }

  method RenderBuckets(h: Histogram) returns (lines: seq<nat>)
    requires h.buckets == [] || |h.counts| == |h.buckets| + 1
    ensures lines == Buckets(h)
  {
    lines := [];
    if h.buckets != [] {
      var cumulative := 0;
      for i := 0 to |h.buckets|
        invariant cumulative == Cumulative(h.counts, i) && |lines| == i
        invariant forall j :: 0 <= j < i ==> lines[j] == Cumulative(h.counts, j + 1)
      {
        cumulative := cumulative + h.counts[i];
        lines := lines + [cumulative];
      }
      cumulative := cumulative + h.counts[|h.counts| - 1];
      assert cumulative == Cumulative(h.counts, |h.buckets| + 1);
      lines := lines + [cumulative];
    }
  }

  lemma SlotIsFirst(buckets: seq<real>, latency: real, i: nat)
    requires i <= |buckets| && (i < |buckets| ==> latency <= buckets[i])
    requires forall j :: 0 <= j < i ==> latency > buckets[j]
    ensures Slot(buckets, latency) == i
  {}

  lemma ReplayNothing()
    ensures Replay([]) == EMPTY_SERIES
  {}

  lemma ReplayOneMore(history: seq<Entry>, e: Entry)
    ensures Replay(history + [e]) == After(Replay(history), e)
  {}

  // ----- What a scrape means -----

  /** Adding one to slot `i` raises exactly the cumulative counts from `i` on. */
  lemma {:induction false} CumulativeAfter(counts: seq<nat>, i: nat, n: nat)
    requires i < |counts| && n <= |counts|
    ensures Cumulative(counts[i := counts[i] + 1], n) == Cumulative(counts, n) + if i < n then 1 else 0
    decreases n
  {
    if n == 0 {
    } else {
      CumulativeAfter(counts, i, n - 1);
    }
  }

  lemma {:induction false} ZerosAddUp(counts: seq<nat>, n: nat)
    requires n <= |counts| && forall i :: 0 <= i < |counts| ==> counts[i] == 0
    ensures Cumulative(counts, n) == 0
    decreases n
  {
    if n == 0 {
    } else {
      ZerosAddUp(counts, n - 1);
    }
  }

  predicate Increasing(buckets: seq<real>) {
    forall i, j :: 0 <= i < j < |buckets| ==> buckets[i] < buckets[j]
  }

  lemma DefaultsIncrease()
    ensures Increasing(DEFAULT_BUCKETS)
  {}

  /** With increasing bounds, a latency is at most bound `n` exactly when its slot is at most `n`. */
  lemma SlotIsAtMost(buckets: seq<real>, latency: real, n: nat)
    requires Increasing(buckets) && n < |buckets|
    ensures Slot(buckets, latency) <= n <==> latency <= buckets[n]
  {}

  /** What the histogram says about the history of its series. */
  ghost predicate HistogramTells(h: Histogram, history: seq<Entry>) {
    && h.totalCount == CountRequests(history)
    && h.sum == SumLatency(history)
    && (h.buckets == [] ==> CountRequests(history) == 0)
    && (h.buckets != [] ==>
          && h.buckets == DEFAULT_BUCKETS && |h.counts| == |DEFAULT_BUCKETS| + 1
          && (forall n :: 0 <= n < |DEFAULT_BUCKETS| ==>
                Cumulative(h.counts, n + 1) == CountAtMost(history, DEFAULT_BUCKETS[n]))
          && Cumulative(h.counts, |h.counts|) == CountRequests(history))
  }

  ghost predicate ErrorsTell(errorCounts: map<string, nat>, history: seq<Entry>) {
    forall t :: CountErrors(history, t) == if t in errorCounts then errorCounts[t] else 0
  }

  ghost predicate Tells(s: Series, history: seq<Entry>) {
    && s.requestsTotal == CountRequests(history)
    && HistogramTells(s.latency, history)
    && ErrorsTell(s.errorCounts, history)
  }

  lemma {:induction false} NothingCounted(history: seq<Entry>, bound: real)
    requires CountRequests(history) == 0
    ensures CountAtMost(history, bound) == 0 && SumLatency(history) == 0.0
    decreases |history|
  {
    if history == [] {
    } else {
      NothingCounted(history[..|history| - 1], bound);
    }
  }

  lemma StartedTells(s: Series, history: seq<Entry>)
    requires Tells(s, history)
    ensures Tells(Started(s), history)
  {
    var h := CreateHistogram();
    if s.latency.buckets == [] {
      forall n | 0 <= n <= |h.counts|
        ensures Cumulative(h.counts, n) == 0
      {
        ZerosAddUp(h.counts, n);
      }
      NothingCounted(history, 0.0);
      forall bound: real
        ensures CountAtMost(history, bound) == 0 && SumLatency(history) == 0.0
      {
        NothingCounted(history, bound);
      }
    }
  }

  lemma ErrorTells(errorCounts: map<string, nat>, history: seq<Entry>, e: Entry)
    requires ErrorsTell(errorCounts, history)
    ensures ErrorsTell(WithError(errorCounts, ErrorOf(e)), history + [e])
  {}

  lemma CountsGrow(history: seq<Entry>, r: Request)
    ensures var history' := history + [Recorded(r)];
            && CountRequests(history') == CountRequests(history) + 1
            && SumLatency(history') == SumLatency(history) + r.latencyMs
            && forall bound: real ::
                 CountAtMost(history', bound) == CountAtMost(history, bound) + if r.latencyMs <= bound then 1 else 0
  {
    var history' := history + [Recorded(r)];
    assert history'[..|history|] == history;
  }

  lemma LatencyTells(h: Histogram, history: seq<Entry>, r: Request)
    requires HistogramTells(h, history) && h.buckets != []
    ensures HistogramTells(AfterLatency(h, r.latencyMs), history + [Recorded(r)])
  {
    hide Slot, Cumulative, CountAtMost, CountRequests, SumLatency;
    var i := Slot(DEFAULT_BUCKETS, r.latencyMs);
    var history' := history + [Recorded(r)];
    CountsGrow(history, r);
    CumulativeAfter(h.counts, i, |h.counts|);
    forall n | 0 <= n < |DEFAULT_BUCKETS|
      ensures Cumulative(AfterLatency(h, r.latencyMs).counts, n + 1) == CountAtMost(history', DEFAULT_BUCKETS[n])
    {
      DefaultsIncrease();
      CumulativeAfter(h.counts, i, n + 1);
      SlotIsAtMost(DEFAULT_BUCKETS, r.latencyMs, n);
    }
  }

  lemma StartedHasBuckets(s: Series)
    requires Shaped(s)
    ensures Started(s).latency.buckets != [] && Shaped(Started(s))
  {}

  lemma ErrorOnlyChangesNoHistogram(h: Histogram, history: seq<Entry>, e: Entry)
    requires HistogramTells(h, history) && e.ErrorOnly?
    ensures HistogramTells(h, history + [e])
  {}

  lemma EntryTells(s: Series, history: seq<Entry>, e: Entry)
    requires Shaped(s) && Tells(s, history)
    ensures Tells(After(s, e), history + [e])
  {
    hide Slot, AfterLatency, WithError, Cumulative, CountErrors, Started, HistogramTells, ErrorsTell, Shaped;
    StartedTells(s, history);
    StartedHasBuckets(s);
    RequestsAppend(history, e);
    match e
    case Recorded(r) =>
      LatencyTells(Started(s).latency, history, r);
      ErrorTells(Started(s).errorCounts, history, e);
    case ErrorOnly(errorType) =>
      ErrorOnlyChangesNoHistogram(s.latency, history, e);
      ErrorOnlyChangesNoHistogram(Started(s).latency, history, e);
      ErrorTells(s.errorCounts, history, e);
      ErrorTells(Started(s).errorCounts, history, e);
      NoError(s.errorCounts);
  }

  lemma NoError(errorCounts: map<string, nat>)
    ensures WithError(errorCounts, "") == errorCounts
  {}

  lemma RequestsAppend(history: seq<Entry>, e: Entry)
    ensures CountRequests(history + [e]) == CountRequests(history) + if e.Recorded? then 1 else 0
  {}

  lemma {:induction false} ReplayTells(history: seq<Entry>)
    ensures Tells(Replay(history), history)
    decreases |history|
  {
    hide Tells, After;
    if history == [] {
      NothingTells();
    } else {
      var init, last := history[..|history| - 1], history[|history| - 1];
      ReplayTells(init);
      EntryTells(Replay(init), init, last);
      assert history == init + [last];
    }
  }

  lemma NothingTells()
    ensures Tells(EMPTY_SERIES, [])
  {}

  /** After any history: each reported bucket counts the recorded latencies at or below its bound,
      the one without a bound, the histogram's count and the request total all count the recorded
      requests, and each error type counts the entries with that error. */
  lemma ScrapeTellsHistory(history: seq<Entry>)
    ensures var r := Render(Replay(history));
            && r.requestsTotal == CountRequests(history) && r.count == CountRequests(history)
            && r.sum == SumLatency(history)
            && (r.buckets == [] ==> CountRequests(history) == 0)
            && (r.buckets != [] ==>
                  && |r.buckets| == |DEFAULT_BUCKETS| + 1
                  && (forall n :: 0 <= n < |DEFAULT_BUCKETS| ==>
                        r.buckets[n] == CountAtMost(history, DEFAULT_BUCKETS[n]))
                  && r.buckets[|DEFAULT_BUCKETS|] == CountRequests(history))
            && (forall t :: CountErrors(history, t) == if t in r.errorCounts then r.errorCounts[t] else 0)
  {
    hide Replay, Cumulative, CountErrors, CountAtMost;
    ReplayTells(history);
  }

  /** What is added up over requests. */
  datatype Quantity = BytesIn | BytesOut | TokensIn | TokensOut | StreamEvents

  function Amount(q: Quantity, e: Entry): nat {
    if e.ErrorOnly? then 0
    else
      match q
      case BytesIn => e.request.bytesIn
      case BytesOut => e.request.bytesOut
      case TokensIn => e.request.tokensIn
      case TokensOut => e.request.tokensOut
      case StreamEvents => e.request.streamEvents
  }

  function SumOf(q: Quantity, history: seq<Entry>): nat
    decreases |history|
  {
    if history == [] then 0 else SumOf(q, history[..|history| - 1]) + Amount(q, history[|history| - 1])
  }

  /** After any history each counter of a scrape is the sum over the recorded requests. */
  lemma {:induction false} ScrapeTellsTotals(history: seq<Entry>)
    ensures var r := Render(Replay(history));
            && r.bytesIn == SumOf(BytesIn, history) && r.bytesOut == SumOf(BytesOut, history)
            && r.tokensIn == SumOf(TokensIn, history) && r.tokensOut == SumOf(TokensOut, history)
            && r.streamEvents == SumOf(StreamEvents, history)
    decreases |history|
  {
    hide CreateHistogram, AfterLatency, WithError, Buckets;
    if history == [] {
    } else {
      ScrapeTellsTotals(history[..|history| - 1]);
    }
  }

  /** The bounds of the buckets, in milliseconds. */
  lemma ScrapeBounds(history: seq<Entry>)
    requires Render(Replay(history)).buckets != []
    ensures var buckets := Render(Replay(history)).buckets;
            && |buckets| == 11
            && buckets[0] == CountAtMost(history, 0.5) && buckets[1] == CountAtMost(history, 1.0)
            && buckets[2] == CountAtMost(history, 2.5) && buckets[3] == CountAtMost(history, 5.0)
            && buckets[4] == CountAtMost(history, 10.0) && buckets[5] == CountAtMost(history, 25.0)
            && buckets[6] == CountAtMost(history, 50.0) && buckets[7] == CountAtMost(history, 100.0)
            && buckets[8] == CountAtMost(history, 250.0) && buckets[9] == CountAtMost(history, 500.0)
  {
    hide Replay, Render, CountAtMost;
    ScrapeTellsHistory(history);
    assert DEFAULT_BUCKETS[0] == 0.5 && DEFAULT_BUCKETS[1] == 1.0 && DEFAULT_BUCKETS[2] == 2.5;
    assert DEFAULT_BUCKETS[3] == 5.0 && DEFAULT_BUCKETS[4] == 10.0 && DEFAULT_BUCKETS[5] == 25.0;
    assert DEFAULT_BUCKETS[6] == 50.0 && DEFAULT_BUCKETS[7] == 100.0 && DEFAULT_BUCKETS[8] == 250.0;
    assert DEFAULT_BUCKETS[9] == 500.0;
  }

  // ----- One observation -----

  /** A request being observed.  Whether it has been recorded is decided by one atomic exchange. */
  datatype Observation = Observation(
    key: SeriesKey, bytesIn: nat, tokensIn: nat, tokensOut: nat, streamEvents: nat, completed: bool)

  datatype Call =
    | AddTokensIn(tokens: nat) | AddTokensOut(tokens: nat) | AddStreamEvents(events: nat)
    | Complete(
        latencyMs: real, status: nat, bytesOut: nat, finalTokensOut: nat, finalStreamEvents: nat, errorType: string)

  function ResolvedErrorType(status: nat, errorType: string): string {
    if errorType == "" && status >= 400 then (if status >= 500 then "http_5xx" else "http_4xx") else errorType
  }

  function RequestOf(o: Observation, c: Call): Request
    requires c.Complete?
  {
    Request(c.latencyMs, o.bytesIn, c.bytesOut, o.tokensIn, c.finalTokensOut, c.finalStreamEvents,
            ResolvedErrorType(c.status, c.errorType))
  }

  function AfterCall(o: Observation, c: Call): Observation {
    match c
    case AddTokensIn(n) => o.(tokensIn := o.tokensIn + n)
    case AddTokensOut(n) => o.(tokensOut := o.tokensOut + n)
    case AddStreamEvents(n) => o.(streamEvents := o.streamEvents + n)
    case Complete(_, _, _, tokensOut, streamEvents, _) =>
      if o.completed then o else o.(completed := true, tokensOut := tokensOut, streamEvents := streamEvents)
  }

  /** What the calls of an observation's life, in the order they take effect, put on record. */
  function Records(o: Observation, calls: seq<Call>): seq<Request>
    decreases |calls|
  {
    if calls == [] then []
    else
      (if calls[0].Complete? && !o.completed then [RequestOf(o, calls[0])] else [])
      + Records(AfterCall(o, calls[0]), calls[1..])
  }

  function AfterCalls(o: Observation, calls: seq<Call>): Observation
    decreases |calls|
  {
    if calls == [] then o else AfterCalls(AfterCall(o, calls[0]), calls[1..])
  }

  /** The call the destructor makes when nobody has completed the observation. */
  function Abandon(o: Observation, latencyMs: real): Call {
    Complete(latencyMs, 0, 0, o.tokensOut, o.streamEvents, "abandoned")
  }

  /** A whole life: any calls, and then destruction. */
  function LifeRecords(o: Observation, calls: seq<Call>, latencyMs: real): seq<Request> {
    var last := AfterCalls(o, calls);
    Records(o, calls) + if last.completed then [] else [RequestOf(last, Abandon(last, latencyMs))]
  }

  class RequestObservation {
    const registry: MetricsRegistry
    var observation: Observation

    constructor (registry: MetricsRegistry, key: SeriesKey, bytesIn: nat, tokensIn: nat)
      ensures this.registry == registry && observation == Observation(key, bytesIn, tokensIn, 0, 0, false)
    {
      this.registry, observation := registry, Observation(key, bytesIn, tokensIn, 0, 0, false);
    }

    method DoComplete(c: Call)
      requires c.Complete? && registry.Valid()
      modifies this, registry
      ensures registry.Valid() && observation == AfterCall(old(observation), c)
      ensures registry.history ==
                if old(observation).completed then old(registry.history)
                else old(registry.history)[observation.key := old(registry.HistoryOf(observation.key))
                                                              + [Recorded(RequestOf(old(observation), c))]]
    {
      if observation.completed {
        return;
      }
      observation := observation.(completed := true);
      var resolved := c.errorType;
      if resolved == "" && c.status >= 400 {
        if c.status >= 500 {
          resolved := "http_5xx";
        } else {
          resolved := "http_4xx";
        }
      }
      observation := observation.(tokensOut := c.finalTokensOut, streamEvents := c.finalStreamEvents);
      registry.RecordRequest(observation.key, Request(
        c.latencyMs, observation.bytesIn, c.bytesOut, observation.tokensIn, observation.tokensOut,
        observation.streamEvents, resolved));
    }

    /** The destructor. */
    method Destroy(latencyMs: real)
      requires registry.Valid()
      modifies this, registry
      ensures registry.Valid() && observation.completed
      ensures var abandoned := RequestOf(old(observation), Abandon(old(observation), latencyMs));
              registry.history ==
                if old(observation).completed then old(registry.history)
                else old(registry.history)[
                       observation.key := old(registry.HistoryOf(observation.key)) + [Recorded(abandoned)]]
    {
      if !observation.completed {
        DoComplete(Complete(latencyMs, 0, 0, observation.tokensOut, observation.streamEvents, "abandoned"));
      }
    }
  }

  lemma {:induction false} OneRecordAtMost(o: Observation, calls: seq<Call>)
    ensures |Records(o, calls)| == if !o.completed && AfterCalls(o, calls).completed then 1 else 0
    ensures o.completed ==> AfterCalls(o, calls).completed
    decreases |calls|
  {
    if calls == [] {
    } else {
      OneRecordAtMost(AfterCall(o, calls[0]), calls[1..]);
    }
  }

  /** Every observation is recorded exactly once, however often it is completed: with the values of
      the first completion, or as abandoned if there is none. */
  lemma RecordedExactlyOnce(o: Observation, before: seq<Call>, c: Call, after: seq<Call>, latencyMs: real)
    requires !o.completed && c.Complete? && forall i :: 0 <= i < |before| ==> !before[i].Complete?
    ensures LifeRecords(o, before + [c] + after, latencyMs) == [RequestOf(AfterCalls(o, before), c)]
    ensures LifeRecords(o, before, latencyMs)
              == [RequestOf(AfterCalls(o, before), Abandon(AfterCalls(o, before), latencyMs))]
  {
    hide RequestOf;
    var o1 := AfterCalls(o, before);
    NoCompletion(o, before);
    RecordsAppend(o, before, [c] + after);
    assert before + [c] + after == before + ([c] + after);
    assert ([c] + after)[1..] == after;
    OneRecordAtMost(AfterCall(o1, c), after);
  }

  lemma {:induction false} NoCompletion(o: Observation, calls: seq<Call>)
    requires !o.completed && forall i :: 0 <= i < |calls| ==> !calls[i].Complete?
    ensures !AfterCalls(o, calls).completed && Records(o, calls) == []
    decreases |calls|
  {
    if calls == [] {
    } else {
      NoCompletion(AfterCall(o, calls[0]), calls[1..]);
    }
  }

  lemma {:induction false} RecordsAppend(o: Observation, a: seq<Call>, b: seq<Call>)
    ensures Records(o, a + b) == Records(o, a) + Records(AfterCalls(o, a), b)
    ensures AfterCalls(o, a + b) == AfterCalls(AfterCalls(o, a), b)
    decreases |a|
  {
    if a == [] {
      assert a + b == b;
    } else {
      assert (a + b)[1..] == a[1..] + b;
      RecordsAppend(AfterCall(o, a[0]), a[1..], b);
    }
  }

  // ----- What exactly is recorded -----

  function TokensInAdded(calls: seq<Call>): nat {
    if calls == [] then 0
    else (if calls[0].AddTokensIn? then calls[0].tokens else 0) + TokensInAdded(calls[1..])
  }

  function TokensOutAdded(calls: seq<Call>): nat {
    if calls == [] then 0
    else (if calls[0].AddTokensOut? then calls[0].tokens else 0) + TokensOutAdded(calls[1..])
  }

  function EventsAdded(calls: seq<Call>): nat {
    if calls == [] then 0
    else (if calls[0].AddStreamEvents? then calls[0].events else 0) + EventsAdded(calls[1..])
  }

  lemma {:induction false} ObservationAddsUp(o: Observation, calls: seq<Call>)
    requires forall i :: 0 <= i < |calls| ==> !calls[i].Complete?
    ensures AfterCalls(o, calls) ==
              o.(tokensIn := o.tokensIn + TokensInAdded(calls), tokensOut := o.tokensOut + TokensOutAdded(calls),
                 streamEvents := o.streamEvents + EventsAdded(calls))
    decreases |calls|
  {
    if calls == [] {
    } else {
      ObservationAddsUp(AfterCall(o, calls[0]), calls[1..]);
    }
  }

  /** Spelled out: a completed request is recorded with the final numbers its completion gives, a failing
      status standing for an error that was not named; an abandoned one with what had been counted. */
  lemma RecordSpelledOut(o: Observation, before: seq<Call>, c: Call, after: seq<Call>, latencyMs: real)
    requires !o.completed && c.Complete? && forall i :: 0 <= i < |before| ==> !before[i].Complete?
    ensures LifeRecords(o, before + [c] + after, latencyMs) ==
              [Request(c.latencyMs, o.bytesIn, c.bytesOut, o.tokensIn + TokensInAdded(before),
                       c.finalTokensOut, c.finalStreamEvents,
                       if c.errorType != "" || c.status < 400 then c.errorType
                       else if c.status < 500 then "http_4xx" else "http_5xx")]
    ensures LifeRecords(o, before, latencyMs) ==
              [Request(latencyMs, o.bytesIn, 0, o.tokensIn + TokensInAdded(before),
                       o.tokensOut + TokensOutAdded(before), o.streamEvents + EventsAdded(before), "abandoned")]
  {
    hide LifeRecords, AfterCalls, RequestOf, Abandon, TokensInAdded, TokensOutAdded, EventsAdded;
    RecordedExactlyOnce(o, before, c, after, latencyMs);
    ObservationAddsUp(o, before);
    RequestSpelledOut(AfterCalls(o, before), c, latencyMs);
  }

  lemma RequestSpelledOut(o: Observation, c: Call, latencyMs: real)
    requires c.Complete?
    ensures RequestOf(o, c) ==
              Request(c.latencyMs, o.bytesIn, c.bytesOut, o.tokensIn, c.finalTokensOut, c.finalStreamEvents,
                      if c.errorType != "" || c.status < 400 then c.errorType
                      else if c.status < 500 then "http_4xx" else "http_5xx")
    ensures RequestOf(o, Abandon(o, latencyMs)) ==
              Request(latencyMs, o.bytesIn, 0, o.tokensIn, o.tokensOut, o.streamEvents, "abandoned")
  {}
}
