/**
 * The four risk tiers and the 75/50/25 thresholds that map a health score
 * to a tier. The Next.js scorer, the Python scorer and the demo data all
 * use this one mapping.
 */
module Risk {
  import opened Wrappers

  datatype Risk = Low | Medium | High | Critical

  /** How bad a tier is: `low` is 0, `critical` is 3. */
  function Severity(r: Risk): nat {
    match r
    case Low => 0
    case Medium => 1
    case High => 2
    case Critical => 3
  }

  /** `score >= 75 -> low`, `>= 50 -> medium`, `>= 25 -> high`, else `critical`. */
  function Tier(score: real): (r: Risk)
    ensures r == Low <==> score >= 75.0
    ensures r == Medium <==> 50.0 <= score < 75.0
    ensures r == High <==> 25.0 <= score < 50.0
    ensures r == Critical <==> score < 25.0
  {
    if score >= 75.0 then Low
    else if score >= 50.0 then Medium
    else if score >= 25.0 then High
    else Critical
  }

  /** A higher score never yields a more severe tier. */
  lemma TierMonotone(a: real, b: real)
    requires a <= b
    ensures Severity(Tier(b)) <= Severity(Tier(a))
  {
  }

  /** The tier's wire name. */
  function Name(r: Risk): string {
    match r
    case Low => "low"
    case Medium => "medium"
    case High => "high"
    case Critical => "critical"
  }

  /** `['low', 'medium', 'high', 'critical'].includes(s)`, returning the tier. */
  function Parse(s: string): (r: Option<Risk>)
    ensures r.Some? <==> s in {"low", "medium", "high", "critical"}
    ensures r.Some? ==> Name(r.value) == s
  {
    if s == "low" then Some(Low)
    else if s == "medium" then Some(Medium)
    else if s == "high" then Some(High)
    else if s == "critical" then Some(Critical)
    else None
  }

  /** Parsing a tier's name gives the tier back. */
  lemma ParseName(r: Risk)
    ensures Parse(Name(r)) == Some(r)
  {
  }

  /** A probability per tier. */
  datatype Distribution = Distribution(low: real, medium: real, high: real, critical: real) {
    function Of(r: Risk): real {
      match r
      case Low => low
      case Medium => medium
      case High => high
      case Critical => critical
    }
  }

  /**
   * The words that follow "Machine <id>" in both scorers' explanations; the
   * rest of each sentence depends on the tier as well.
   */
  function Lead(r: Risk): string {
    match r
    case Low => " shows excellent"
    case Medium => " shows moderate"
    case High => " shows concerning"
    case Critical => " is in critical"
  }

  /** The second and eighth characters of a lead tell the four tiers apart. */
  lemma LeadSignature(r: Risk)
    ensures |Lead(r)| > 7
    ensures Lead(r)[1] == (if r == Critical then 'i' else 's')
    ensures Lead(r)[7] == (match r case Low => 'e' case Medium => 'm' case _ => 'c')
  {
    var lead := Lead(r);
    match r
    case Low => assert lead[1] == 's' && lead[7] == 'e';
    case Medium => assert lead[1] == 's' && lead[7] == 'm';
    case High => assert lead[1] == 's' && lead[7] == 'c';
    case Critical => assert lead[1] == 'i' && lead[7] == 'c';
  }

  /** Two sentences that share a prefix and then open with tier leads name the same tier. */
  lemma LeadAfterPrefixDeterminesTier(prefix: string, x: string, y: string, a: Risk, b: Risk)
    requires prefix + Lead(a) + x == prefix + Lead(b) + y
    ensures a == b
  {
    LeadSignature(a);
    LeadSignature(b);
    var s, t := prefix + Lead(a) + x, prefix + Lead(b) + y;
    assert s[|prefix| + 1] == Lead(a)[1] && s[|prefix| + 7] == Lead(a)[7];
    assert t[|prefix| + 1] == Lead(b)[1] && t[|prefix| + 7] == Lead(b)[7];
  }
}
