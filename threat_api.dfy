/**
 * The analysis API (backend/main.py): request validation, the
 * severity/blacklist/age decision table, the in-memory threat log and its
 * lookup by source IP.
 *
 * Times are whole seconds on one UTC axis; `now` stands for
 * `datetime.utcnow()` and is passed in.
 */
module ThreatApi {
  import opened Outcomes
  import opened Text

  /** One `[0-9]{1,3}` group of `IP_REGEX`. */
  predicate LooseGroup(g: string)
  {
    1 <= |g| <= 3 && AllDigits(g)
  }

  /** Four dot-separated groups of one to three digits, with nothing around them. */
  predicate LooseQuad(s: string)
  {
    var groups := Split(s, '.');
    |groups| == 4 && forall i :: 0 <= i < 4 ==> LooseGroup(groups[i])
  }

  /**
   * `IP_REGEX.match(s)` for `^(?:[0-9]{1,3}\.){3}[0-9]{1,3}$`: `match` anchors
   * at the start, and Python's `$` matches at the very end or just before a
   * final line feed.
   */
  predicate MatchesIpRegex(s: string)
  {
    || LooseQuad(s)
    || (|s| > 0 && s[|s| - 1] == '\n' && LooseQuad(s[..|s| - 1]))
  }

  /** `s` is four groups of one to three digits joined by dots; no range check. */
  ghost predicate IsLooseQuad(s: string)
  {
    exists groups: seq<string> ::
      && |groups| == 4
      && (forall i :: 0 <= i < 4 ==> LooseGroup(groups[i]))
      && s == Join(groups, '.')
  }

  lemma LooseQuadSpec(s: string)
    ensures LooseQuad(s) <==> IsLooseQuad(s)
  {
    var groups := Split(s, '.');
    if LooseQuad(s) {
      JoinSplit(s, '.');
      assert s == Join(groups, '.');
    }
    if IsLooseQuad(s) {
      var quad :| && |quad| == 4
                  && (forall i :: 0 <= i < 4 ==> LooseGroup(quad[i]))
                  && s == Join(quad, '.');
      forall i | 0 <= i < 4
        ensures '.' !in quad[i]
      {
        assert forall k :: 0 <= k < |quad[i]| ==> IsDigit(quad[i][k]);
      }
      SplitJoin(quad, '.');
    }
  }

  /**
   * The regex accepts exactly a loose quad, optionally followed by one line
   * feed.
   */
  lemma IpRegexSpec(s: string)
    ensures MatchesIpRegex(s) <==> IsLooseQuad(s) || (exists q :: IsLooseQuad(q) && s == q + "\n")
  {
    LooseQuadSpec(s);
    if |s| > 0 && s[|s| - 1] == '\n' {
      LooseQuadSpec(s[..|s| - 1]);
      assert s == s[..|s| - 1] + "\n";
    }
    forall q | IsLooseQuad(q) && s == q + "\n"
      ensures MatchesIpRegex(s)
    {
      assert s[..|s| - 1] == q;
      LooseQuadSpec(q);
    }
  }

  /** The request body once parsed: the timestamp in seconds. */
  datatype ThreatData = ThreatData(
    sourceIp: string,
    destinationIp: string,
    threatType: string,
    severity: int,
    timestamp: int)

  /** One failed field check, in the order the fields are declared. */
  datatype FieldError = InvalidSourceIp | InvalidDestinationIp | SeverityOutOfRange | FutureTimestamp

  /** `timedelta(minutes=5)` */
  const FUTURE_SLACK: int := 300

  /**
   * The `ThreatData` checks: both addresses against `IP_REGEX`, severity
   * within `ge=1, le=10`, and a timestamp no more than five minutes after
   * `now`. The threat type only has to be present; an empty one passes.
   */
  function Validate(d: ThreatData, now: int): (errors: seq<FieldError>)
    ensures InvalidSourceIp in errors <==> !MatchesIpRegex(d.sourceIp)
    ensures InvalidDestinationIp in errors <==> !MatchesIpRegex(d.destinationIp)
    ensures SeverityOutOfRange in errors <==> !(1 <= d.severity <= 10)
    ensures FutureTimestamp in errors <==> d.timestamp > now + FUTURE_SLACK
    ensures errors == [] <==>
              && MatchesIpRegex(d.sourceIp) && MatchesIpRegex(d.destinationIp)
              && 1 <= d.severity <= 10 && d.timestamp <= now + FUTURE_SLACK
  {
    (if MatchesIpRegex(d.sourceIp) then [] else [InvalidSourceIp])
    + (if MatchesIpRegex(d.destinationIp) then [] else [InvalidDestinationIp])
    + (if 1 <= d.severity <= 10 then [] else [SeverityOutOfRange])
    + (if d.timestamp <= now + FUTURE_SLACK then [] else [FutureTimestamp])
  }

  /** A request valid at one moment stays valid later: the only time check is an upper bound. */
  lemma ValidateLater(d: ThreatData, now: int, later: int)
    requires now <= later && Validate(d, now) == []
    ensures Validate(d, later) == []
  {
  }

  /** `ip_in_blacklist` */
  predicate IpInBlacklist(ip: string): (listed: bool)
    ensures listed <==> ip == "192.168.1.100" || ip == "10.0.0.66"
  {
    ip in {"192.168.1.100", "10.0.0.66"}
  }

  /** The four rows of the decision table. */
  datatype Level = Critical | High | Medium | Low

  /** The `if`/`elif` chain of `analyze_threat`. */
  function Classify(severity: int, blacklisted: bool): (level: Level)
    ensures level == Critical <==> severity >= 9 || blacklisted
    ensures level == High <==> !blacklisted && 6 <= severity <= 8
    ensures level == Medium <==> !blacklisted && 3 <= severity <= 5
    ensures level == Low <==> !blacklisted && severity <= 2
  {
    if severity >= 9 || blacklisted then Critical
    else if 6 <= severity < 9 then High
    else if 3 <= severity < 6 then Medium
    else Low
  }

  function Rank(level: Level): nat
  {
    match level
    case Low => 0
    case Medium => 1
    case High => 2
    case Critical => 3
  }

  /** A higher severity never yields a lower level, and blacklisting never lowers it either. */
  lemma ClassifyMonotone(s1: int, s2: int, b1: bool, b2: bool)
    requires s1 <= s2 && (b1 ==> b2)
    ensures Rank(Classify(s1, b1)) <= Rank(Classify(s2, b2))
  {
  }

  function AlertText(level: Level): string
  {
    match level
    case Critical => "Critical Threat Detected"
    case High => "High Risk Threat"
    case Medium => "Medium Risk Threat"
    case Low => "Low Risk Threat"
  }

  function AdviceText(level: Level): string
  {
    match level
    case Critical => "Isolate node immediately and notify security team."
    case High => "Monitor closely and prepare mitigation."
    case Medium => "Log event and review regularly."
    case Low => "Monitor source for repeated suspicious activity."
  }

  const STALE_NOTE: string := " (Note: Threat data is older than 7 days.)"

  /** `timedelta(days=7)` */
  const WEEK: int := 604800

  /** The response body of `analyze_threat`. */
  datatype Verdict = Verdict(alert: string, recommendation: string)

  predicate EndsWith(s: string, suffix: string)
  {
    |suffix| <= |s| && s[|s| - |suffix|..] == suffix
  }

  /** What `analyze_threat` answers for `d` at time `now`. */
  function Assess(d: ThreatData, now: int): (v: Verdict)
    ensures v.alert == AlertText(Classify(d.severity, IpInBlacklist(d.sourceIp)))
    ensures AdviceText(Classify(d.severity, IpInBlacklist(d.sourceIp))) <= v.recommendation
    ensures |v.recommendation| == |AdviceText(Classify(d.severity, IpInBlacklist(d.sourceIp)))|
                                  + (if now - d.timestamp > WEEK then |STALE_NOTE| else 0)
  {
    var level := Classify(d.severity, IpInBlacklist(d.sourceIp));
    Verdict(AlertText(level), AdviceText(level) + if now - d.timestamp > WEEK then STALE_NOTE else "")
  }

  /** The age note is there exactly when the record is more than a week old. */
  lemma StaleNoteSpec(d: ThreatData, now: int)
    ensures EndsWith(Assess(d, now).recommendation, STALE_NOTE) <==> now - d.timestamp > WEEK
  {
    var advice := AdviceText(Classify(d.severity, IpInBlacklist(d.sourceIp)));
    assert advice[|advice| - 1] == '.';
    if now - d.timestamp <= WEEK {
      assert Assess(d, now).recommendation == advice;
      assert advice[|advice| - 1] != STALE_NOTE[|STALE_NOTE| - 1];
    } else {
      assert (advice + STALE_NOTE)[|advice|..] == STALE_NOTE;
    }
  }

  /** The age of a record never changes its alert, only the note. */
  lemma AlertIgnoresAge(d: ThreatData, now1: int, now2: int)
    ensures Assess(d, now1).alert == Assess(d, now2).alert
    ensures (now1 - d.timestamp > WEEK <==> now2 - d.timestamp > WEEK) ==> Assess(d, now1) == Assess(d, now2)
  {
  }

  /** One element of `threat_log_db`. */
  datatype LogEntry = LogEntry(
    sourceIp: string,
    destinationIp: string,
    threatType: string,
    severity: int,
    timestamp: int,
    alert: string,
    recommendation: string)

  function Entry(d: ThreatData, v: Verdict): LogEntry
  {
    LogEntry(d.sourceIp, d.destinationIp, d.threatType, d.severity, d.timestamp, v.alert, v.recommendation)
  }

  /** `[t for t in threat_log_db if t["source_ip"] == source_ip]` */
  function FromSource(entries: seq<LogEntry>, ip: string): (found: seq<LogEntry>)
  {
    if entries == [] then []
    else FromSource(entries[..|entries| - 1], ip)
         + if entries[|entries| - 1].sourceIp == ip then [entries[|entries| - 1]] else []
  }

  /** Every entry from `ip`, as often as it is logged, and nothing else. */
  lemma {:induction false} FromSourceCounts(entries: seq<LogEntry>, ip: string)
    ensures forall e :: multiset(FromSource(entries, ip))[e] == if e.sourceIp == ip then multiset(entries)[e] else 0
  {
    if entries != [] {
      var init := entries[..|entries| - 1];
      FromSourceCounts(init, ip);
      assert entries == init + [entries[|entries| - 1]];
    }
  }

  /** The filter keeps log order: it distributes over concatenation. */
  lemma {:induction false} FromSourceAppend(first: seq<LogEntry>, second: seq<LogEntry>, ip: string)
    ensures FromSource(first + second, ip) == FromSource(first, ip) + FromSource(second, ip)
  {
    if second == [] {
      assert first + second == first;
    } else {
      var init := second[..|second| - 1];
      FromSourceAppend(first, init, ip);
      assert (first + second)[..|first + second| - 1] == first + init;
    }
  }

  datatype HttpError = HttpError(status: nat, detail: string)

  const BAD_IP: HttpError := HttpError(400, "Invalid IP address format")
  const NO_THREATS: HttpError := HttpError(404, "No threats found for given source IP")

  /** `threat_log_db` and the endpoints that read and extend it. */
  class ThreatLog {
    var entries: seq<LogEntry>

    /** Only validated requests are logged, so every stored severity is in 1..10. */
    ghost predicate Valid()
      reads this
    {
      forall e :: e in entries ==> 1 <= e.severity <= 10
    }

    constructor ()
      ensures Valid()
      ensures entries == []
    {
      entries := [];
    }

    /**
     * `analyze_threat` on a request that passed validation: classify, add the
     * age note with `+=`, append the entry and answer with alert and
     * recommendation.
     */
    method AnalyzeThreat(data: ThreatData, now: int) returns (response: Verdict)
      requires Valid() && Validate(data, now) == []
      modifies this
      ensures Valid()
      ensures response == Assess(data, now)
      ensures entries == old(entries) + [Entry(data, response)]
    {
      var sourceBlacklisted := IpInBlacklist(data.sourceIp);
      var level := Classify(data.severity, sourceBlacklisted);
      var alert := AlertText(level);
      var recommendation := AdviceText(level);
      if now - data.timestamp > WEEK {
        recommendation := recommendation + STALE_NOTE;
      }
      var threatEntry := LogEntry(data.sourceIp, data.destinationIp, data.threatType, data.severity,
                                  data.timestamp, alert, recommendation);
      entries := entries + [threatEntry];
      response := Verdict(alert, recommendation);
    }

    /**
     * `POST /analyze-threat/`: a request failing validation is answered with
     * 422 and the failed checks, and leaves the log alone.
     */
    method PostAnalyzeThreat(data: ThreatData, now: int) returns (response: Result<Verdict, seq<FieldError>>)
      requires Valid()
      modifies this
      ensures Valid()
      ensures Validate(data, now) != [] ==> response == Err(Validate(data, now)) && entries == old(entries)
      ensures Validate(data, now) == [] ==>
                response == Ok(Assess(data, now)) && entries == old(entries) + [Entry(data, Assess(data, now))]
    {
      var errors := Validate(data, now);
      if errors != [] {
        return Err(errors);
      }
      var verdict := AnalyzeThreat(data, now);
      response := Ok(verdict);
    }

    /** `GET /threats/`: the whole log, in order. */
    method GetThreats() returns (threats: seq<LogEntry>)
      ensures threats == entries
    {
      threats := entries;
    }

    /** `GET /threats/{source_ip}`: 400 on a malformed address, 404 when nothing matches. */
    method GetThreatsBySource(sourceIp: string) returns (response: Result<seq<LogEntry>, HttpError>)
      ensures !MatchesIpRegex(sourceIp) ==> response == Err(BAD_IP)
      ensures MatchesIpRegex(sourceIp) && (forall e :: e in entries ==> e.sourceIp != sourceIp) ==>
                response == Err(NO_THREATS)
      ensures MatchesIpRegex(sourceIp) && (exists e :: e in entries && e.sourceIp == sourceIp) ==>
                response == Ok(FromSource(entries, sourceIp)) && response.value != []
    {
      if !MatchesIpRegex(sourceIp) {
        return Err(BAD_IP);
      }
      var results := FromSource(entries, sourceIp);
      FromSourceCounts(entries, sourceIp);
      if results == [] {
        forall e | e in entries
          ensures e.sourceIp != sourceIp
        {
          assert multiset(entries)[e] > 0;
        }
        return Err(NO_THREATS);
      }
      assert exists e :: e in entries && e.sourceIp == sourceIp by {
        var e := results[0];
        assert multiset(results)[e] > 0;
      }
      response := Ok(results);
    }
  }

  /** After a record is logged, looking up its source lists the earlier matches and then it. */
  lemma LoggedThenFound(entries: seq<LogEntry>, d: ThreatData, v: Verdict)
    ensures FromSource(entries + [Entry(d, v)], d.sourceIp) == FromSource(entries, d.sourceIp) + [Entry(d, v)]
  {
    FromSourceAppend(entries, [Entry(d, v)], d.sourceIp);
    assert FromSource([Entry(d, v)], d.sourceIp) == FromSource([], d.sourceIp) + [Entry(d, v)];
  }
}
