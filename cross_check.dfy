/**
 * How the dashboard's checks relate to the API's: every address the form
 * accepts is accepted by the API, but not the other way round, and a valid
 * form whose time is not in the future passes the API's validation.
 */
module CrossCheck {
  import opened Outcomes
  import opened Text
  import opened IpAddress
  import opened Dashboard
  import opened ThreatApi

  /** Each alternative of the form's group pattern is one to three digits. */
  lemma OctetIsLooseGroup(g: string)
    requires OctetPattern(g)
    ensures LooseGroup(g)
  {
    assert forall k :: 0 <= k < |g| ==> IsDigit(g[k]);
  }

  /** A non-empty address that passes `ipValidator` matches `IP_REGEX`. */
  lemma FrontendImpliesBackend(ip: string)
    requires ip != "" && IpValidator(ip).None?
    ensures MatchesIpRegex(ip)
  {
    var groups := Split(ip, '.');
    forall i | 0 <= i < 4
      ensures LooseGroup(groups[i])
    {
      OctetIsLooseGroup(groups[i]);
    }
  }

  /** A quad of short digit groups that splits back into itself. */
  lemma SplitQuad(a: string, b: string, c: string, d: string)
    requires LooseGroup(a) && LooseGroup(b) && LooseGroup(c) && LooseGroup(d)
    ensures Split(Join([a, b, c, d], '.'), '.') == [a, b, c, d]
  {
    var quad := [a, b, c, d];
    forall i | 0 <= i < 4
      ensures '.' !in quad[i]
    {
      assert forall k :: 0 <= k < |quad[i]| ==> IsDigit(quad[i][k]);
    }
    SplitJoin(quad, '.');
  }

  /** An octet above 255: the API takes it, the form refuses it. */
  lemma OutOfRangeOctet()
    ensures MatchesIpRegex("256.0.0.1")
    ensures IpValidator("256.0.0.1") == Some(InvalidIP)
  {
    assert Join(["256", "0", "0", "1"], '.') == "256.0.0.1";
    SplitQuad("256", "0", "0", "1");
    assert !OctetPattern("256");
  }

  /** A trailing line feed: the API takes it... */
  lemma TrailingLineFeedAccepted()
    ensures MatchesIpRegex("10.0.0.1\n")
  {
    assert Join(["10", "0", "0", "1"], '.') == "10.0.0.1";
    SplitQuad("10", "0", "0", "1");
    assert "10.0.0.1\n"[..8] == "10.0.0.1";
  }

  /** ...and the form refuses it: the last group is `1` followed by a line feed. */
  lemma TrailingLineFeedRefused()
    ensures IpValidator("10.0.0.1\n") == Some(InvalidIP)
  {
    var quad := ["10", "0", "0", "1\n"];
    assert Join(quad, '.') == "10.0.0.1\n";
    assert forall i :: 0 <= i < 4 ==> '.' !in quad[i];
    SplitJoin(quad, '.');
    assert !OctetPattern(quad[3]);
  }

  /**
   * The request the form posts, once the API has parsed its timestamp into
   * `utcSeconds`: addresses, type and severity are copied from the form.
   */
  function Request(f: FormValues, utcSeconds: int): ThreatData
    requires f.severity.Some?
  {
    ThreatData(f.sourceIp, f.destinationIp, f.threatType, f.severity.value, utcSeconds)
  }

  /** A valid form stamped no later than five minutes from now passes the API's validation. */
  lemma ValidFormAccepted(f: FormValues, utcSeconds: int, now: int)
    requires FormValid(f) && utcSeconds <= now + FUTURE_SLACK
    ensures Validate(Request(f, utcSeconds), now) == []
  {
    FrontendImpliesBackend(f.sourceIp);
    FrontendImpliesBackend(f.destinationIp);
  }

  /** A valid form stamped more than five minutes ahead is refused for that alone. */
  lemma FutureFormRefused(f: FormValues, utcSeconds: int, now: int)
    requires FormValid(f) && utcSeconds > now + FUTURE_SLACK
    ensures Validate(Request(f, utcSeconds), now) == [FutureTimestamp]
  {
    FrontendImpliesBackend(f.sourceIp);
    FrontendImpliesBackend(f.destinationIp);
  }
}
