/**
 * The dashboard's `ipValidator` (frontend/src/app/app.component.ts): a
 * dotted-quad IPv4 pattern whose groups are written as regular-expression
 * alternatives, and what that pattern accepts in plain terms.
 */
module IpAddress {
  import opened Outcomes
  import opened Text

  /** One group of the pattern, `25[0-5]|2[0-4][0-9]|[01]?[0-9][0-9]?`, alternative by alternative. */
  predicate OctetPattern(g: string)
  {
    || (|g| == 3 && g[0] == '2' && g[1] == '5' && '0' <= g[2] <= '5')      // 25[0-5]
    || (|g| == 3 && g[0] == '2' && '0' <= g[1] <= '4' && IsDigit(g[2]))    // 2[0-4][0-9]
    || (|g| == 1 && IsDigit(g[0]))                                         // [0-9]
    || (|g| == 2 && IsDigit(g[0]) && IsDigit(g[1]))                        // [0-9][0-9]
    || (|g| == 2 && g[0] in "01" && IsDigit(g[1]))                         // [01][0-9]
    || (|g| == 3 && g[0] in "01" && IsDigit(g[1]) && IsDigit(g[2]))        // [01][0-9][0-9]
  }

  /**
   * The whole pattern, anchored at both ends: four groups separated by `\.`.
   * No group can contain a dot, so a match is a split on every dot into four
   * groups that each match.
   */
  predicate MatchesIpPattern(s: string)
  {
    var groups := Split(s, '.');
    |groups| == 4 && forall i :: 0 <= i < 4 ==> OctetPattern(groups[i])
  }

  datatype IpError = InvalidIP

  /**
   * `ipValidator`: `None` stands for the `null` of a passing Angular validator.
   * An empty value passes here; `Validators.required` reports it separately.
   */
  function IpValidator(value: string): Option<IpError>
  {
    if value == "" then None
    else if MatchesIpPattern(value) then None
    else Some(InvalidIP)
  }

  /** An IPv4 octet in decimal: one to three digits (leading zeros allowed) with value at most 255. */
  predicate DecimalOctet(g: string)
  {
    1 <= |g| <= 3 && AllDigits(g) && DecimalValue(g) <= 255
  }

  /** `s` is four decimal octets joined by dots. */
  ghost predicate IsDottedQuad(s: string)
  {
    exists groups: seq<string> ::
      && |groups| == 4
      && (forall i :: 0 <= i < 4 ==> DecimalOctet(groups[i]))
      && s == Join(groups, '.')
  }

  lemma ShortDecimalValue(g: string)
    requires 1 <= |g| <= 3 && AllDigits(g)
    ensures |g| == 1 ==> DecimalValue(g) == DigitValue(g[0])
    ensures |g| == 2 ==> DecimalValue(g) == 10 * DigitValue(g[0]) + DigitValue(g[1])
    ensures |g| == 3 ==> DecimalValue(g) == 100 * DigitValue(g[0]) + 10 * DigitValue(g[1]) + DigitValue(g[2])
  {
    if |g| >= 2 {
      assert g[..|g| - 1][..|g| - 2] == g[..|g| - 2];
    }
    if |g| == 3 {
      assert g[..2][..1] == g[..1];
    }
  }

  /** The alternatives of one group accept exactly the decimal octets 0..255. */
  lemma OctetPatternValue(g: string)
    ensures OctetPattern(g) <==> DecimalOctet(g)
  {
    if 1 <= |g| <= 3 && AllDigits(g) {
      ShortDecimalValue(g);
    }
  }

  /**
   * A non-empty value passes `ipValidator` exactly when it is four decimal
   * octets (each 0..255, one to three digits) joined by dots.
   */
  lemma IpValidatorSpec(value: string)
    ensures value == "" ==> IpValidator(value).None?
    ensures value != "" ==> (IpValidator(value).None? <==> IsDottedQuad(value))
  {
    if value != "" {
      var groups := Split(value, '.');
      if MatchesIpPattern(value) {
        JoinSplit(value, '.');
        forall i | 0 <= i < 4
          ensures DecimalOctet(groups[i])
        {
          OctetPatternValue(groups[i]);
        }
        assert value == Join(groups, '.');
      }
      if IsDottedQuad(value) {
        var quad :| && |quad| == 4
                    && (forall i :: 0 <= i < 4 ==> DecimalOctet(quad[i]))
                    && value == Join(quad, '.');
        forall i | 0 <= i < 4
          ensures '.' !in quad[i] && OctetPattern(quad[i])
        {
          OctetPatternValue(quad[i]);
          assert forall k :: 0 <= k < |quad[i]| ==> IsDigit(quad[i][k]);
        }
        SplitJoin(quad, '.');
      }
    }
  }
}
