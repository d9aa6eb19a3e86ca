/** The plugin's configuration and the value providers that rewritten call
    sites invoke.  Single-precision floats are modelled as `real`. */
module Plugin {

  /** The three configured skill caps (Major, Minor, Talent + Minor). */
  datatype Caps = Caps(major: real, minor: real, talentMinor: real)

  /** The ranges the configuration entries declare. */
  predicate InDeclaredRange(caps: Caps) {
    && 100.0 <= caps.major <= 9999.0
    && 10.0 <= caps.minor <= 9999.0
    && 10.0 <= caps.talentMinor <= 9999.0
  }

  /** The configuration defaults. */
  const DefaultCaps := Caps(500.0, 350.0, 450.0)

  /** Caps equal to the host's own constants: primary 100, secondary 50, secondary with talent 60. */
  const VanillaCaps := Caps(100.0, 50.0, 60.0)

  /** The zero-argument providers a rewritten instruction may call. */
  datatype Provider = GetMajorCap | GetFillFactor | GetMinorFillMax | GetTalentMinorFillMax

  /** The hard limit a rewritten `Learn` compares against. */
  function MajorCap(caps: Caps): (r: real)
    ensures InDeclaredRange(caps) ==> 100.0 <= r <= 9999.0
  {
    caps.major
  }

  /** The bar fill per skill point: the reciprocal of the major cap. */
  function FillFactor(caps: Caps): (r: real)
    requires InDeclaredRange(caps)
    ensures r * caps.major == 1.0
    ensures 0.0 < r <= 0.01
  {
    1.0 / caps.major
  }

  /** The bar fill of a secondary skill at the minor cap. */
  function MinorFillMax(caps: Caps): (r: real)
    requires InDeclaredRange(caps)
    ensures r * caps.major == caps.minor
    ensures 0.0 < r
  {
    caps.minor / caps.major
  }

  /** The bar fill of a secondary skill at the talent cap. */
  function TalentMinorFillMax(caps: Caps): (r: real)
    requires InDeclaredRange(caps)
    ensures r * caps.major == caps.talentMinor
    ensures 0.0 < r
  {
    caps.talentMinor / caps.major
  }

  /** What a call to provider `p` returns under configuration `caps`: the
      major cap itself, or a fill value that the major cap scales back to at
      most the largest configurable cap. */
  function ProviderValue(p: Provider, caps: Caps): (r: real)
    requires InDeclaredRange(caps)
    ensures 0.0 < r
    ensures p == GetMajorCap ==> r == caps.major
    ensures p != GetMajorCap ==> r * caps.major <= 9999.0
  {
    match p
    case GetMajorCap => MajorCap(caps)
    case GetFillFactor => FillFactor(caps)
    case GetMinorFillMax => MinorFillMax(caps)
    case GetTalentMinorFillMax => TalentMinorFillMax(caps)
  }

  /** The fill factor maps a skill value onto the bar's 0..1 range: a skill at
      the major cap fills the bar, and skills at the minor caps fill it exactly
      up to the corresponding fill maximum. */
  lemma FillFactorScalesCaps(caps: Caps, val: real)
    requires InDeclaredRange(caps)
    ensures val * FillFactor(caps) == val / caps.major
    ensures caps.major * FillFactor(caps) == 1.0
    ensures caps.minor * FillFactor(caps) == MinorFillMax(caps)
    ensures caps.talentMinor * FillFactor(caps) == TalentMinorFillMax(caps)
  {
  }

  /** Secondary caps not above the major cap give fill maxima within the bar. */
  lemma FillMaximaWithinBar(caps: Caps)
    requires InDeclaredRange(caps)
    ensures caps.minor <= caps.major ==> 0.0 < MinorFillMax(caps) <= 1.0
    ensures caps.talentMinor <= caps.major ==> 0.0 < TalentMinorFillMax(caps) <= 1.0
  {
    RatioAtMostOne(caps.minor, caps.major, MinorFillMax(caps));
    RatioAtMostOne(caps.talentMinor, caps.major, TalentMinorFillMax(caps));
  }

  /** A ratio `r` with `r * d == n` is at most 1 when `n` is not above `d`. */
  lemma RatioAtMostOne(n: real, d: real, r: real)
    requires 0.0 < d && r * d == n
    ensures n <= d ==> r <= 1.0
  {
    if r > 1.0 {
      assert (r - 1.0) * d > 0.0;
      assert r * d - d > 0.0;
    }
  }

  /** With the host's own caps every provider returns the literal it replaces. */
  lemma VanillaCapsReproduceLiterals()
    ensures InDeclaredRange(VanillaCaps)
    ensures ProviderValue(GetMajorCap, VanillaCaps) == 100.0
    ensures ProviderValue(GetFillFactor, VanillaCaps) == 0.01
    ensures ProviderValue(GetMinorFillMax, VanillaCaps) == 0.5
    ensures ProviderValue(GetTalentMinorFillMax, VanillaCaps) == 0.6
  {
  }

  /** The defaults give the bar proportions 1/500, 350/500 and 450/500. */
  lemma DefaultCapsProportions()
    ensures InDeclaredRange(DefaultCaps)
    ensures ProviderValue(GetMajorCap, DefaultCaps) == 500.0
    ensures ProviderValue(GetFillFactor, DefaultCaps) == 0.002
    ensures ProviderValue(GetMinorFillMax, DefaultCaps) == 0.7
    ensures ProviderValue(GetTalentMinorFillMax, DefaultCaps) == 0.9
  {
  }
}
