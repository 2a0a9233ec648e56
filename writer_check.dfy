/** The browser compatibility check that runs before the AI features are offered: is
    this Chrome, is it recent enough, is the Writer API exposed, and what does the
    Writer API say about its own availability.
 */
module WriterApiCheck {
  import opened Outcomes
  import opened Text

  /** `{isAvailable, needsSetup, error?}`. */
  datatype Compatibility = Compatibility(isAvailable: bool, needsSetup: bool, error: Option<string>)

  const MinimumChromeVersion: nat := 138

  const ChromeRequired := "PrepMate requires Google Chrome to use AI features"
  const EnableInFlags := "Writer API needs to be enabled in Chrome flags"
  const WriterNotAvailable := "Writer API is not available"
  const ProbeFailed := "Failed to check Writer API availability"

  function VersionRequired(version: int): string {
    "Chrome version 138+ required (current: " + IntToString(version) + ")"
  }

  // ---------------------------------------------------------------- reading the version

  /** The regular expression `Chrome\/(\d+)` matches at `i`. */
  predicate ChromeTokenAt(ua: string, i: int) {
    OccursAt(ua, "Chrome/", i) && i + 7 < |ua| && IsDigit(ua[i + 7])
  }

  /** The leftmost match of `Chrome\/(\d+)` at or after `from`. */
  function FirstChromeToken(ua: string, from: nat): (r: Option<nat>)
    ensures r.Some? ==> from <= r.value && ChromeTokenAt(ua, r.value)
    ensures r.Some? ==> forall j :: from <= j < r.value ==> !ChromeTokenAt(ua, j)
    ensures r.None? ==> forall j :: from <= j ==> !ChromeTokenAt(ua, j)
    decreases |ua| - from
  {
    if from >= |ua| then None
    else if ChromeTokenAt(ua, from) then Some(from)
    else FirstChromeToken(ua, from + 1)
  }

  /** `match ? parseInt(match[1], 10) : 0`: the greedy digit run of the first match. */
  function ChromeVersion(ua: string): nat {
    match FirstChromeToken(ua, 0)
    case None => 0
    case Some(i) => DigitsValue(LeadingDigits(ua[i + 7..]))
  }

  /** A user agent that never mentions "Chrome/" reads as version 0. */
  lemma ChromeVersionAbsent(ua: string)
    requires !Contains(ua, "Chrome/")
    ensures ChromeVersion(ua) == 0
  {
    assert forall i :: ChromeTokenAt(ua, i) ==> 0 <= i <= |ua| && OccursAt(ua, "Chrome/", i);
  }

  /** The version written after the first "Chrome/" is the version read, whatever
      follows the digits. */
  lemma ChromeVersionReads(prefix: string, version: nat, rest: string)
    requires !Contains(prefix, "Chrome/")
    requires rest == [] || !IsDigit(rest[0])
    ensures ChromeVersion(prefix + "Chrome/" + NatToString(version) + rest) == version
  {
    var digits := NatToString(version);
    var ua := prefix + "Chrome/" + digits + rest;
    assert ua == prefix + "Chrome/" + (digits + rest);
    OccursInConcat(prefix, "Chrome/", digits + rest);
    assert ua[|prefix| + 7] == digits[0];
    assert ChromeTokenAt(ua, |prefix|);
    forall j | 0 <= j < |prefix| ensures !ChromeTokenAt(ua, j) {
      if j + 7 <= |prefix| {
        // the window lies inside the prefix, which has no match
        assert ua[j..j + 7] == prefix[j..j + 7];
        assert !OccursAt(prefix, "Chrome/", j);
      } else {
        // the window straddles the token's own 'C', which "Chrome/" has only at 0
        var t := |prefix| - j;
        assert 0 < t < 7;
        assert ua[|prefix|] == 'C';
        assert j + 7 <= |ua| ==> ua[j..j + 7][t] == 'C';
        assert "Chrome/"[t] != 'C';
      }
    }
    var i := FirstChromeToken(ua, 0);
    assert i == Some(|prefix|);
    assert ua[|prefix| + 7..] == digits + rest;
    LeadingDigitsOf(digits, rest);
  }

  /** A ChromeOS user agent, whose platform token holds a capital C, reads its version. */
  lemma CrOSVersionReads()
    ensures ChromeVersion("X11; CrOS x86_64) Chrome/" + NatToString(138) + ".0") == 138
  {
    var p := "X11; CrOS x86_64) ";
    assert !Contains(p, "Chrome/") by {
      forall i | 0 <= i <= |p| ensures !OccursAt(p, "Chrome/", i) {
        if i + 7 <= |p| {
          assert p[i..i + 7][1] == p[i + 1];
        }
      }
    }
    assert ".0"[0] == '.';
    ChromeVersionReads(p, 138, ".0");
    assert p + "Chrome/" == "X11; CrOS x86_64) Chrome/";
  }

  // ---------------------------------------------------------------- the decision ladder

  /** The guards before the availability probe all pass. */
  predicate ReachesProbe(ua: string, writerPresent: bool) {
    Contains(ua, "Chrome") && ChromeVersion(ua) >= MinimumChromeVersion && writerPresent
  }

  /** `checkWriterApiAvailability`, with the user agent, the presence of the Writer
      global and the settled `Writer.availability()` call as inputs; the probe is only
      consulted once every earlier guard has passed. */
  function CheckWriterApiAvailability(ua: string, writerPresent: bool, probe: Result<string>): (r: Compatibility)
    ensures r.isAvailable <==> ReachesProbe(ua, writerPresent) && probe == Ok("available")
    ensures r.needsSetup <==> !ReachesProbe(ua, writerPresent) || probe.Err? || probe == Ok("requires-install")
    ensures r.error.Some? <==> !ReachesProbe(ua, writerPresent) || probe.Err? || probe == Ok("unavailable")
    ensures r.isAvailable ==> !r.needsSetup && r.error.None?
    ensures !Contains(ua, "Chrome") ==> r.error == Some(ChromeRequired)
    ensures Contains(ua, "Chrome") && ChromeVersion(ua) < MinimumChromeVersion
            ==> r.error == Some(VersionRequired(ChromeVersion(ua)))
    ensures Contains(ua, "Chrome") && ChromeVersion(ua) >= MinimumChromeVersion && !writerPresent
            ==> r.error == Some(EnableInFlags)
    ensures ReachesProbe(ua, writerPresent) && probe.Err? ==> r.error == Some(ProbeFailed)
  {
    if !Contains(ua, "Chrome") then Compatibility(false, true, Some(ChromeRequired))
    else
      var version := ChromeVersion(ua);
      if version < MinimumChromeVersion then Compatibility(false, true, Some(VersionRequired(version)))
      else if !writerPresent then Compatibility(false, true, Some(EnableInFlags))
      else match probe
        case Err(_) => Compatibility(false, true, Some(ProbeFailed))
        case Ok(availability) =>
          Compatibility(availability == "available", availability == "requires-install",
                        if availability == "unavailable" then Some(WriterNotAvailable) else None)
  }

  /** The version error names the version that was read, and distinct versions give
      distinct errors. */
  lemma VersionErrorNamesVersion(a: nat, b: nat)
    ensures VersionRequired(a) == VersionRequired(b) <==> a == b
  {
    var head := "Chrome version 138+ required (current: ";
    if VersionRequired(a) == VersionRequired(b) {
      var sa, sb := VersionRequired(a), VersionRequired(b);
      assert sa[|head|..|sa| - 1] == IntToString(a);
      assert sb[|head|..|sb| - 1] == IntToString(b);
      IntToStringInjective(a, b);
    }
  }
}
