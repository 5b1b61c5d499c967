/**
 * The three summaries the dashboard derives from the fetched threat list
 * (frontend/src/app/app.component.ts): the risk score of each source IP, the
 * number of threats of each type, and the number of threats per day.
 */
module Aggregation {
  import opened Text
  import opened Tally
  import opened LexOrder
  import opened JsMap

  /** One element of the threat list as the API returns it. */
  datatype ThreatRecord = ThreatRecord(
    sourceIp: string,
    destinationIp: string,
    threatType: string,
    severity: int,
    timestamp: string,
    alert: string,
    recommendation: string)

  /** One row of `riskScores`. */
  datatype RiskScore = RiskScore(sourceIp: string, riskScore: int)

  /** What a chart is given: labels and one value per label. */
  datatype ChartData = ChartData(labels: seq<string>, data: seq<nat>)

  function SourceIps(history: seq<ThreatRecord>): seq<string>
  {
    seq(|history|, i requires 0 <= i < |history| => history[i].sourceIp)
  }

  function ThreatTypes(history: seq<ThreatRecord>): seq<string>
  {
    seq(|history|, i requires 0 <= i < |history| => history[i].threatType)
  }

  /** `timestamp.split('T')[0]`. */
  function DatePrefix(timestamp: string): string
  {
    Split(timestamp, 'T')[0]
  }

  /** The date prefix is the longest `T`-free prefix of the timestamp. */
  lemma {:induction false} DatePrefixSpec(timestamp: string)
    ensures |DatePrefix(timestamp)| <= |timestamp|
    ensures DatePrefix(timestamp) == timestamp[..|DatePrefix(timestamp)|]
    ensures 'T' !in DatePrefix(timestamp)
    ensures |DatePrefix(timestamp)| < |timestamp| ==> timestamp[|DatePrefix(timestamp)|] == 'T'
  {
    if timestamp != [] && timestamp[0] != 'T' {
      DatePrefixSpec(timestamp[1..]);
    }
  }

  function DatePrefixes(history: seq<ThreatRecord>): seq<string>
  {
    seq(|history|, i requires 0 <= i < |history| => DatePrefix(history[i].timestamp))
  }

  function RiskIps(scores: seq<RiskScore>): seq<string>
  {
    seq(|scores|, i requires 0 <= i < |scores| => scores[i].sourceIp)
  }

  /**
   * The source IPs of the records with a positive severity, in list order:
   * only those can raise the `|| 0` default of the risk loop.
   */
  function ScoredIps(history: seq<ThreatRecord>, n: nat): seq<string>
    requires n <= |history|
  {
    if n == 0 then []
    else ScoredIps(history, n - 1) + if history[n - 1].severity > 0 then [history[n - 1].sourceIp] else []
  }

  /** An IP is scored exactly when one of the first `n` records from it has a positive severity. */
  lemma {:induction false} ScoredIpsMembers(history: seq<ThreatRecord>, n: nat)
    requires n <= |history|
    ensures forall ip :: ip in ScoredIps(history, n) ==>
              exists k :: 0 <= k < n && history[k].sourceIp == ip && history[k].severity > 0
    ensures forall k :: 0 <= k < n && history[k].severity > 0 ==> history[k].sourceIp in ScoredIps(history, n)
  {
    if n > 0 {
      ScoredIpsMembers(history, n - 1);
    }
  }

  /**
   * With every severity at least 1 (the service's `ge=1` on every logged
   * record, and the form's `min(1)` on what it posts), every record is scored.
   */
  lemma {:induction false} ScoredIpsAllPositive(history: seq<ThreatRecord>, n: nat)
    requires n <= |history|
    requires forall k :: 0 <= k < |history| ==> history[k].severity >= 1
    ensures ScoredIps(history, n) == SourceIps(history)[..n]
  {
    if n > 0 {
      ScoredIpsAllPositive(history, n - 1);
      assert SourceIps(history)[..n] == SourceIps(history)[..n - 1] + [history[n - 1].sourceIp];
    }
  }

  /** `v` is the largest severity among the first `n` records from `ip`. */
  ghost predicate PeakSeverity(history: seq<ThreatRecord>, n: nat, ip: string, v: int)
    requires n <= |history|
  {
    && (exists k :: 0 <= k < n && history[k].sourceIp == ip && history[k].severity == v)
    && (forall k :: 0 <= k < n && history[k].sourceIp == ip ==> history[k].severity <= v)
  }

  /**
   * `scores` is the risk table of `history`: one row per source IP that has a
   * record of positive severity, in the order such a record is first met, and
   * each row holding the maximum severity of that IP.
   */
  ghost predicate IsRiskTable(history: seq<ThreatRecord>, scores: seq<RiskScore>)
  {
    && RiskIps(scores) == FirstSeen(ScoredIps(history, |history|))
    && (forall i :: 0 <= i < |scores| ==>
          PeakSeverity(history, |history|, scores[i].sourceIp, scores[i].riskScore))
  }

  /**
   * With every severity at least 1, the risk table has exactly one row per
   * distinct source IP, in first-seen order.
   */
  lemma RiskTableOnePerIp(history: seq<ThreatRecord>, scores: seq<RiskScore>)
    requires forall k :: 0 <= k < |history| ==> history[k].severity >= 1
    requires IsRiskTable(history, scores)
    ensures RiskIps(scores) == FirstSeen(SourceIps(history))
    ensures Distinct(RiskIps(scores))
    ensures forall k :: 0 <= k < |history| ==> history[k].sourceIp in RiskIps(scores)
    ensures forall ip :: ip in RiskIps(scores) ==> ip in SourceIps(history)
  {
    ScoredIpsAllPositive(history, |history|);
    assert SourceIps(history)[..|history|] == SourceIps(history);
    FirstSeenSpec(SourceIps(history));
    forall k | 0 <= k < |history|
      ensures history[k].sourceIp in RiskIps(scores)
    {
      assert history[k].sourceIp == SourceIps(history)[k];
    }
  }

  /** A risk table is determined by the history: two of them are equal. */
  lemma RiskTableUnique(history: seq<ThreatRecord>, scores: seq<RiskScore>, other: seq<RiskScore>)
    requires IsRiskTable(history, scores) && IsRiskTable(history, other)
    ensures scores == other
  {
    assert |scores| == |RiskIps(scores)| == |RiskIps(other)| == |other|;
    forall j | 0 <= j < |scores|
      ensures scores[j] == other[j]
    {
      assert scores[j].sourceIp == RiskIps(scores)[j] == RiskIps(other)[j] == other[j].sourceIp;
      var ip := scores[j].sourceIp;
      assert PeakSeverity(history, |history|, ip, scores[j].riskScore);
      assert PeakSeverity(history, |history|, ip, other[j].riskScore);
    }
  }

  /** `chart` counts the occurrences of each label of `keys`, labels in first-seen order. */
  ghost predicate IsFirstSeenHistogram(keys: seq<string>, chart: ChartData)
  {
    && chart.labels == FirstSeen(keys)
    && chart.data == CountsOf(keys, chart.labels)
  }

  /** `chart` counts the occurrences of each day, days strictly ascending and only days that occur. */
  ghost predicate IsDailySeries(dates: seq<string>, chart: ChartData)
  {
    && StrictlyAscending(chart.labels)
    && (forall d :: d in chart.labels ==> d in dates)
    && (forall d :: d in dates ==> d in chart.labels)
    && chart.data == CountsOf(dates, chart.labels)
  }

  /** `riskMap.get(ip) || 0`: the stored maximum, or 0 for an IP not yet in the map. */
  function CurrentMax(riskMap: InsertionMap<string, int>, ip: string): int
  {
    if ip in riskMap.entries then riskMap.entries[ip] else 0
  }

  /**
   * What the risk loop knows after its first `i` turns: the map's keys are the
   * first-seen scored IPs so far, each value is the severity of a record from
   * that IP (`peakAt` says which), and no record seen so far exceeds
   * `riskMap.get(ip) || 0` for its own IP.
   */
  ghost predicate RiskLoopState(history: seq<ThreatRecord>, i: nat, riskMap: InsertionMap<string, int>,
                                peakAt: map<string, nat>)
    requires i <= |history|
  {
    && riskMap.Valid()
    && riskMap.order == FirstSeen(ScoredIps(history, i))
    && (forall ip :: ip in riskMap.entries ==>
          && ip in peakAt && peakAt[ip] < i
          && history[peakAt[ip]].sourceIp == ip
          && history[peakAt[ip]].severity == riskMap.entries[ip] > 0)
    && (forall k :: 0 <= k < i ==> history[k].severity <= CurrentMax(riskMap, history[k].sourceIp))
  }

  /** The key order after one more turn of the risk loop. */
  lemma RiskOrderStep(history: seq<ThreatRecord>, i: nat, riskMap: InsertionMap<string, int>)
    requires i < |history|
    requires riskMap.Valid() && riskMap.order == FirstSeen(ScoredIps(history, i))
    requires forall ip :: ip in riskMap.entries ==> riskMap.entries[ip] > 0
    ensures history[i].severity > CurrentMax(riskMap, history[i].sourceIp) ==>
              riskMap.Set(history[i].sourceIp, history[i].severity).order == FirstSeen(ScoredIps(history, i + 1))
    ensures history[i].severity <= CurrentMax(riskMap, history[i].sourceIp) ==>
              riskMap.order == FirstSeen(ScoredIps(history, i + 1))
  {
    var ip := history[i].sourceIp;
    var before := ScoredIps(history, i);
    FirstSeenSpec(before);
    FirstSeenSnoc(before, ip);
    assert ip in riskMap.entries <==> ip in before;
    assert ScoredIps(history, i + 1) == before + if history[i].severity > 0 then [ip] else [];
    assert before + [] == before;
    if history[i].severity > 0 && history[i].severity <= CurrentMax(riskMap, ip) {
      assert ip in riskMap.entries;
    }
  }

  /** A turn of the risk loop whose severity beats `riskMap.get(ip) || 0`: `riskMap.set(ip, severity)`. */
  lemma RiskStepRaise(history: seq<ThreatRecord>, i: nat, riskMap: InsertionMap<string, int>, peakAt: map<string, nat>)
    requires i < |history| && RiskLoopState(history, i, riskMap, peakAt)
    requires history[i].severity > CurrentMax(riskMap, history[i].sourceIp)
    ensures RiskLoopState(history, i + 1, riskMap.Set(history[i].sourceIp, history[i].severity),
                          peakAt[history[i].sourceIp := i])
  {
    RiskOrderStep(history, i, riskMap);
    RiskPeaksRaise(history, i, riskMap, peakAt);
    RiskBoundRaise(history, i, riskMap);
  }

  lemma RiskPeaksRaise(history: seq<ThreatRecord>, i: nat, riskMap: InsertionMap<string, int>, peakAt: map<string, nat>)
    requires i < |history| && riskMap.Valid()
    requires forall ip :: ip in riskMap.entries ==>
               && ip in peakAt && peakAt[ip] < i
               && history[peakAt[ip]].sourceIp == ip
               && history[peakAt[ip]].severity == riskMap.entries[ip] > 0
    requires history[i].severity > CurrentMax(riskMap, history[i].sourceIp)
    ensures var next := riskMap.Set(history[i].sourceIp, history[i].severity);
            var nextPeak := peakAt[history[i].sourceIp := i];
            forall ip :: ip in next.entries ==>
              && ip in nextPeak && nextPeak[ip] < i + 1
              && history[nextPeak[ip]].sourceIp == ip
              && history[nextPeak[ip]].severity == next.entries[ip] > 0
  {
  }

  lemma RiskBoundRaise(history: seq<ThreatRecord>, i: nat, riskMap: InsertionMap<string, int>)
    requires i < |history| && riskMap.Valid()
    requires forall k :: 0 <= k < i ==> history[k].severity <= CurrentMax(riskMap, history[k].sourceIp)
    requires history[i].severity > CurrentMax(riskMap, history[i].sourceIp)
    ensures var next := riskMap.Set(history[i].sourceIp, history[i].severity);
            forall k :: 0 <= k < i + 1 ==> history[k].severity <= CurrentMax(next, history[k].sourceIp)
  {
    var next := riskMap.Set(history[i].sourceIp, history[i].severity);
    forall k | 0 <= k < i + 1
      ensures history[k].severity <= CurrentMax(next, history[k].sourceIp)
    {
      if k < i {
        assert history[k].severity <= CurrentMax(riskMap, history[k].sourceIp);
      }
    }
  }

  /** Before the first turn: an empty map, nothing seen. */
  lemma RiskLoopStart(history: seq<ThreatRecord>, riskMap: InsertionMap<string, int>, peakAt: map<string, nat>)
    requires riskMap.order == [] && riskMap.entries == map[] && peakAt == map[]
    ensures RiskLoopState(history, 0, riskMap, peakAt)
  {
    assert ScoredIps(history, 0) == [];
  }

  /** A turn of the risk loop whose severity does not beat `riskMap.get(ip) || 0` changes nothing. */
  lemma RiskStepKeep(history: seq<ThreatRecord>, i: nat, riskMap: InsertionMap<string, int>, peakAt: map<string, nat>)
    requires i < |history| && RiskLoopState(history, i, riskMap, peakAt)
    requires history[i].severity <= CurrentMax(riskMap, history[i].sourceIp)
    ensures RiskLoopState(history, i + 1, riskMap, peakAt)
  {
    RiskOrderStep(history, i, riskMap);
  }

  /**
   * `computeRiskScores`: for each threat, `riskMap.set(ip, severity)` when the
   * severity exceeds `riskMap.get(ip) || 0`; then the map's entries in order.
   */
  method ComputeRiskScores(history: seq<ThreatRecord>) returns (scores: seq<RiskScore>)
    ensures IsRiskTable(history, scores)
  {
    var riskMap: InsertionMap<string, int> := Empty();
    ghost var peakAt: map<string, nat> := map[];
    var i := 0;
    RiskLoopStart(history, riskMap, peakAt);
    while i < |history|
      invariant 0 <= i <= |history|
      invariant RiskLoopState(history, i, riskMap, peakAt)
    {
      var threat := history[i];
      var currentMax := CurrentMax(riskMap, threat.sourceIp);
      if threat.severity > currentMax {
        RiskStepRaise(history, i, riskMap, peakAt);
        riskMap := riskMap.Set(threat.sourceIp, threat.severity);
        peakAt := peakAt[threat.sourceIp := i];
      } else {
        RiskStepKeep(history, i, riskMap, peakAt);
      }
      i := i + 1;
    }
    RiskTableOfMap(history, riskMap, peakAt);
    scores := Rows(riskMap);
  }

  /** `Array.from(riskMap, ([source_ip, risk_score]) => ({ source_ip, risk_score }))`. */
  function Rows(riskMap: InsertionMap<string, int>): (scores: seq<RiskScore>)
    requires riskMap.Valid()
    ensures |scores| == |riskMap.order|
    ensures forall j :: 0 <= j < |scores| ==> scores[j] == RiskScore(riskMap.order[j], riskMap.entries[riskMap.order[j]])
  {
    seq(|riskMap.order|, j requires 0 <= j < |riskMap.order| =>
          RiskScore(riskMap.order[j], riskMap.entries[riskMap.order[j]]))
  }

  /** The rows read out of the finished map form the risk table. */
  lemma RiskTableOfMap(history: seq<ThreatRecord>, riskMap: InsertionMap<string, int>, peakAt: map<string, nat>)
    requires RiskLoopState(history, |history|, riskMap, peakAt)
    ensures IsRiskTable(history, Rows(riskMap))
  {
    var scores := Rows(riskMap);
    assert RiskIps(scores) == riskMap.order;
    forall j | 0 <= j < |scores|
      ensures PeakSeverity(history, |history|, scores[j].sourceIp, scores[j].riskScore)
    {
      var ip := scores[j].sourceIp;
      assert ip in riskMap.order;
      var k := peakAt[ip];
      assert history[k].sourceIp == ip && history[k].severity == scores[j].riskScore;
    }
  }

  /**
   * The `forEach` loop that both charts share:
   * `counts.set(key, (counts.get(key) || 0) + 1)` for every key in turn.
   */
  method CountByKey(keys: seq<string>) returns (counts: InsertionMap<string, nat>)
    ensures counts.Valid()
    ensures counts.order == FirstSeen(keys)
    ensures forall k :: k in counts.entries ==> counts.entries[k] == multiset(keys)[k]
  {
    counts := Empty();
    var i := 0;
    while i < |keys|
      invariant 0 <= i <= |keys|
      invariant counts.Valid()
      invariant counts.order == FirstSeen(keys[..i])
      invariant forall k :: k in counts.entries ==> counts.entries[k] == multiset(keys[..i])[k]
    {
      var key := keys[i];
      var count := if key in counts.entries then counts.entries[key] else 0;
      FirstSeenSpec(keys[..i]);
      assert keys[..i + 1] == keys[..i] + [key];
      assert key !in counts.entries ==> multiset(keys[..i])[key] == 0;
      counts := counts.Set(key, count + 1);
      i := i + 1;
    }
    assert keys[..|keys|] == keys;
  }

  /**
   * The bar chart's data: one count per threat type, types in first-seen
   * order, every count at least one and the counts adding up to the number of
   * records.
   */
  method ThreatTypeChart(history: seq<ThreatRecord>) returns (chart: ChartData)
    ensures IsFirstSeenHistogram(ThreatTypes(history), chart)
    ensures forall i :: 0 <= i < |chart.data| ==> chart.data[i] >= 1
    ensures Sum(chart.data) == |history|
  {
    var types := ThreatTypes(history);
    var counts := CountByKey(types);
    chart := ChartData(counts.order, counts.Values());
    FirstSeenSpec(types);
    CountsCoverLength(types, chart.labels);
    forall i | 0 <= i < |chart.data|
      ensures chart.data[i] >= 1
    {
      assert chart.labels[i] in types;
    }
  }

  /**
   * The line chart's data: the date prefixes sorted, and for each the number
   * of records of that day, read back from the map (`|| 0` never applies).
   */
  method TrendChart(history: seq<ThreatRecord>) returns (chart: ChartData)
    ensures IsDailySeries(DatePrefixes(history), chart)
    ensures forall i :: 0 <= i < |chart.data| ==> chart.data[i] >= 1
    ensures Sum(chart.data) == |history|
  {
    var dates := DatePrefixes(history);
    var dateCounts := CountByKey(dates);
    var sortedDates := SortAscending(dateCounts.order);
    var trendData := seq(|sortedDates|, i requires 0 <= i < |sortedDates| =>
                           if sortedDates[i] in dateCounts.entries then dateCounts.entries[sortedDates[i]] else 0);
    chart := ChartData(sortedDates, trendData);
    SortedDays(dates, dateCounts.order, sortedDates);
    forall i | 0 <= i < |sortedDates|
      ensures trendData[i] == multiset(dates)[sortedDates[i]]
    {
      assert sortedDates[i] in sortedDates;
      FirstSeenSpec(dates);
      assert sortedDates[i] in dateCounts.order;
    }
    assert trendData == CountsOf(dates, sortedDates);
    CountsCoverLength(dates, sortedDates);
  }

  /** Sorting the first-seen days keeps exactly the days that occur, each once and in ascending order. */
  lemma SortedDays(dates: seq<string>, days: seq<string>, sorted: seq<string>)
    requires days == FirstSeen(dates) && sorted == SortAscending(days)
    ensures StrictlyAscending(sorted) && Distinct(sorted)
    ensures forall d :: d in sorted ==> d in dates
    ensures forall d :: d in dates ==> d in sorted
    ensures forall i :: 0 <= i < |sorted| ==> multiset(dates)[sorted[i]] >= 1
  {
    FirstSeenSpec(dates);
    SortAscendingSpec(days);
    AscendingIsDistinct(sorted);
    forall d | d in sorted
      ensures d in dates
    {
      assert d in multiset(sorted);
    }
    forall d | d in dates
      ensures d in sorted
    {
      assert d in multiset(days);
    }
    forall i | 0 <= i < |sorted|
      ensures multiset(dates)[sorted[i]] >= 1
    {
      assert sorted[i] in sorted;
    }
  }
}
