/**
 * The district risk classifier of the dashboard (app.py, inside
 * load_all_data) and the mapping from a risk tier to its display:
 * the marker colour on the map and the CSS badge class of the status card.
 */
module Risk {

  /** The three risk tiers, from least to most severe. */
  datatype Tier = Normal | Warning | Critical

  type byte = x: int | 0 <= x < 256

  /** An RGBA colour as the map layer reads it. */
  datatype Rgba = Rgba(red: byte, green: byte, blue: byte, alpha: byte)

  /** A tier together with the colour of its map marker. */
  datatype Assessment = Assessment(tier: Tier, color: Rgba)

  const Red: Rgba := Rgba(220, 38, 38, 255)
  const Orange: Rgba := Rgba(249, 115, 22, 255)
  const Green: Rgba := Rgba(34, 197, 94, 255)

  /** The status string stored in each dashboard record. */
  function Label(t: Tier): (s: string)
    ensures s == "CRITICAL" <==> t == Critical
    ensures s == "WARNING" <==> t == Warning
    ensures s == "NORMAL" <==> t == Normal
  {
    match t
    case Normal => "NORMAL"
    case Warning => "WARNING"
    case Critical => "CRITICAL"
  }

  /** Rank of a tier: NORMAL < WARNING < CRITICAL. */
  function Severity(t: Tier): nat
  {
    match t
    case Normal => 0
    case Warning => 1
    case Critical => 2
  }

  /** The colour drawn for a tier. */
  function ColorOf(t: Tier): (c: Rgba)
    ensures c.alpha == 255
    ensures t == Critical <==> c.red > c.green && c.red > c.blue && c.green == c.blue
    ensures t == Normal <==> c.green > c.red && c.green > c.blue
  {
    match t
    case Critical => Red
    case Warning => Orange
    case Normal => Green
  }

  /**
   * Classifies the last predicted case count `val` (already rounded to an
   * integer) against a district's alert threshold. The first test that
   * holds wins: above the threshold is CRITICAL, above 0.7 times the
   * threshold is WARNING, anything else is NORMAL. Both comparisons are
   * strict, so a value on a boundary falls to the lower tier. The product
   * `threshold * 0.7` is compared exactly, as `10 * val > 7 * threshold`.
   */
  function Classify(val: int, threshold: int): (a: Assessment)
    ensures a.tier == Critical <==> val > threshold
    ensures a.tier == Warning <==> 7 * threshold < 10 * val && val <= threshold
    ensures a.tier == Normal <==> 10 * val <= 7 * threshold && val <= threshold
    ensures a.color == ColorOf(a.tier)
  {
    if val > threshold then
      Assessment(Critical, Red)
    else if 10 * val > 7 * threshold then
      Assessment(Warning, Orange)
    else
      Assessment(Normal, Green)
  }

  /** With a positive threshold the NORMAL band is exactly "at most 0.7 times the threshold". */
  lemma ClassifyPositiveThreshold(val: int, threshold: int)
    requires threshold > 0
    ensures Classify(val, threshold).tier == Normal <==> 10 * val <= 7 * threshold
    ensures Classify(val, threshold).tier == Warning <==> 7 * threshold < 10 * val <= 10 * threshold
  {
  }

  /** The tier never becomes less severe as the forecast grows. */
  lemma ClassifyMonotone(v1: int, v2: int, threshold: int)
    requires v1 <= v2
    ensures Severity(Classify(v1, threshold).tier) <= Severity(Classify(v2, threshold).tier)
  {
  }

  /** The boundary values: equality at either breakpoint falls to the lower tier. */
  lemma ClassifyBoundaries()
    ensures Classify(2001, 2000).tier == Critical
    ensures Classify(2000, 2000).tier == Warning
    ensures Classify(1401, 2000).tier == Warning
    ensures Classify(1400, 2000).tier == Normal
    ensures Classify(1000, 2000).tier == Normal
    ensures Classify(300, 300).tier == Warning && Classify(210, 300).tier == Normal
    ensures Classify(280, 400).tier == Normal && Classify(281, 400).tier == Warning
  {
  }

  /** Distinct tiers are drawn in distinct colours. */
  lemma ColorOfInjective(s: Tier, t: Tier)
    ensures ColorOf(s) == ColorOf(t) <==> s == t
  {
  }

  /** ASCII lower-casing of one character. */
  function LowerChar(c: char): char
  {
    if 'A' <= c <= 'Z' then (c as int + 32) as char else c
  }

  /** ASCII lower-casing of a string, character by character. */
  function Lower(s: string): (r: string)
    ensures |r| == |s|
    ensures forall i :: 0 <= i < |s| ==> r[i] == LowerChar(s[i])
  {
    seq(|s|, i requires 0 <= i < |s| => LowerChar(s[i]))
  }

  /**
   * The CSS class of a status badge: "badge-" followed by the lower-cased
   * status, except that NORMAL is shown as "badge-safe".
   */
  function BadgeClass(status: string): (b: string)
    ensures |b| >= 6 && b[..6] == "badge-"
    ensures status == "NORMAL" ==> b == "badge-safe"
    ensures status != "NORMAL" ==> |b| == 6 + |status|
    ensures status != "NORMAL" ==> forall i :: 0 <= i < |status| ==> b[6 + i] == LowerChar(status[i])
  {
    "badge-" + (if status != "NORMAL" then Lower(status) else "safe")
  }

  /** Lower-casing agrees with a given string when it does so character by character. */
  lemma LowerOfUpper(s: string, l: string)
    requires |s| == |l|
    requires forall i :: 0 <= i < |s| ==> LowerChar(s[i]) == l[i]
    ensures Lower(s) == l
  {
  }

  /** The CRITICAL label, lower-cased. */
  lemma LowerCritical()
    ensures Lower("CRITICAL") == "critical"
  {
    LowerOfUpper("CRITICAL", "critical");
  }

  /** The WARNING label, lower-cased. */
  lemma LowerWarning()
    ensures Lower("WARNING") == "warning"
  {
    LowerOfUpper("WARNING", "warning");
  }

  /** The badge class of the CRITICAL label. */
  lemma BadgeOfCritical()
    ensures BadgeClass("CRITICAL") == "badge-critical"
  {
    LowerCritical();
    assert BadgeClass("CRITICAL") == "badge-" + Lower("CRITICAL");
  }

  /** The badge class of the WARNING label. */
  lemma BadgeOfWarning()
    ensures BadgeClass("WARNING") == "badge-warning"
  {
    LowerWarning();
    assert BadgeClass("WARNING") == "badge-" + Lower("WARNING");
  }

  /** The badge class of each tier's label. */
  lemma BadgeOfTier(t: Tier)
    ensures t == Critical ==> BadgeClass(Label(t)) == "badge-critical"
    ensures t == Warning ==> BadgeClass(Label(t)) == "badge-warning"
    ensures t == Normal ==> BadgeClass(Label(t)) == "badge-safe"
  {
    match t
    case Critical => BadgeOfCritical();
    case Warning => BadgeOfWarning();
    case Normal =>
  }

  /** Distinct tiers get distinct labels and distinct badge classes. */
  lemma LabelAndBadgeInjective(s: Tier, t: Tier)
    ensures Label(s) == Label(t) <==> s == t
    ensures BadgeClass(Label(s)) == BadgeClass(Label(t)) <==> s == t
  {
    BadgeOfTier(s);
    BadgeOfTier(t);
  }
}
