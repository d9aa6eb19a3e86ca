/** Patches 1, 2 and 7: postfixes that remap the cap values the host's
    `GetSkillCap` and `GetSkillCap_Skill` return, and the host behaviour they
    rely on. */
module SkillCapPostfixes {
  import opened Plugin
  import opened Instructions
  import opened PatchLearn

  /** `characterScript.GetSkillCap`: a sandbox value (100 or more) and a
      disabled mod leave the result alone; otherwise a result above 50 (the
      talent value 60) becomes the talent cap and any other the minor cap. */
  function GetSkillCapPostfix(enabled: bool, caps: Caps, result: real): (r: real)
    ensures r == result || r == caps.minor || r == caps.talentMinor
  {
    if !enabled then result
    else if result >= 100.0 then result
    else if result > 50.0 then caps.talentMinor
    else caps.minor
  }

  /** `Menu_NewGameCEO.GetSkillCap`, written out separately in the source. */
  function CeoGetSkillCapPostfix(enabled: bool, caps: Caps, result: real): (r: real)
    ensures r == result || r == caps.minor || r == caps.talentMinor
  {
    if !enabled then result
    else if result >= 100.0 then result
    else if result > 50.0 then caps.talentMinor
    else caps.minor
  }

  /** `characterScript.GetSkillCap_Skill`: a result of exactly 100 becomes the
      major cap. */
  function GetSkillCapSkillPostfix(enabled: bool, caps: Caps, result: real): (r: real)
    ensures r == result || r == caps.major
  {
    if !enabled then result
    else if result == 100.0 then caps.major
    else result
  }

  /** The CEO screen applies the same rule as the employee. */
  lemma CeoPostfixIsSameRule(enabled: bool, caps: Caps, result: real)
    ensures CeoGetSkillCapPostfix(enabled, caps, result) == GetSkillCapPostfix(enabled, caps, result)
  {
  }

  /** The secondary-cap postfix changes nothing when the mod is off or the
      host reports a sandbox cap; otherwise it selects by the 50 threshold. */
  lemma GetSkillCapPostfixCases(enabled: bool, caps: Caps, result: real)
    ensures !enabled || result >= 100.0 ==> GetSkillCapPostfix(enabled, caps, result) == result
    ensures enabled && 50.0 < result < 100.0 ==> GetSkillCapPostfix(enabled, caps, result) == caps.talentMinor
    ensures enabled && result <= 50.0 ==> GetSkillCapPostfix(enabled, caps, result) == caps.minor
  {
  }

  /** The primary-cap postfix changes the result only when the mod is on and
      the result is exactly 100. */
  lemma GetSkillCapSkillPostfixChangesOnly100(enabled: bool, caps: Caps, result: real)
    ensures GetSkillCapSkillPostfix(enabled, caps, result) != result
            <==> enabled && result == 100.0 && caps.major != 100.0
  {
  }

  // ---- The host's cap lookup, as the source's comments describe it ---------

  /** Vanilla `GetSkillCap`: 100 in sandbox mode, 60 with the talent perk,
      50 without it. */
  function VanillaGetSkillCap(sandbox: bool, hasTalent: bool): (r: real)
    ensures r == 100.0 <==> sandbox
    ensures !sandbox ==> (r > 50.0 <==> hasTalent)
    ensures !sandbox && hasTalent ==> r == 60.0
    ensures !sandbox && !hasTalent ==> r == 50.0
    ensures r >= 50.0
  {
    if sandbox then 100.0 else if hasTalent then 60.0 else 50.0
  }

  /** Vanilla `GetSkillCap_Skill(i)`: 100 for the primary discipline, the
      (patched) `GetSkillCap` result for every other. */
  function VanillaGetSkillCapSkill(i: int, beruf: int, skillCap: real): (r: real)
    ensures beruf == i ==> r == 100.0
    ensures beruf != i ==> r == skillCap
  {
    if beruf == i then 100.0 else skillCap
  }

  /** Patch 1 maps the host's three values onto the configured caps; the cap
      it gives outside sandbox mode is the secondary cap the safety clamp
      enforces. */
  lemma GetSkillCapPostfixMapsVanilla(caps: Caps, sandbox: bool, perks: Option<seq<bool>>)
    ensures GetSkillCapPostfix(true, caps, VanillaGetSkillCap(sandbox, HasTalent(perks)))
            == if sandbox then 100.0 else MinorCap(caps, perks)
  {
  }

  /** The cap the patched host reports for slot `i`, with patch 2 as written. */
  function PatchedSlotCap(enabled: bool, caps: Caps, sandbox: bool, beruf: int, perks: Option<seq<bool>>, i: int): real {
    var secondary := GetSkillCapPostfix(enabled, caps, VanillaGetSkillCap(sandbox, HasTalent(perks)));
    GetSkillCapSkillPostfix(enabled, caps, VanillaGetSkillCapSkill(i, beruf, secondary))
  }

  /** Outside sandbox mode, and as long as the secondary cap in effect is not
      exactly 100, the patched lookup agrees with the cap the clamp enforces. */
  lemma PatchedSlotCapAgreesWithClamp(caps: Caps, beruf: int, perks: Option<seq<bool>>, i: int)
    requires MinorCap(caps, perks) != 100.0
    ensures PatchedSlotCap(true, caps, false, beruf, perks, i) == SlotCap(caps, beruf, perks, i)
  {
  }

  /** With a minor cap of exactly 100 (inside its declared range) patch 2
      turns a secondary skill's cap 100 into the major cap, while the safety
      clamp holds that skill at 100. */
  lemma PatchedSlotCapCounterexample()
    ensures InDeclaredRange(Caps(500.0, 100.0, 450.0))
    ensures PatchedSlotCap(true, Caps(500.0, 100.0, 450.0), false, 0, None, 1) == 500.0
    ensures SlotCap(Caps(500.0, 100.0, 450.0), 0, None, 1) == 100.0
  {
  }

  /** In sandbox mode patch 1 leaves the host's 100 alone on a secondary
      slot, patch 2 turns it into the major cap, and the clamp still holds the
      slot at the secondary cap, so the two disagree whenever the secondary
      cap in effect differs from the major cap.  With patch 2 corrected the
      lookup reports the host's 100 there. */
  lemma SandboxSlotCapDivergesFromClamp(caps: Caps, beruf: int, perks: Option<seq<bool>>, i: int)
    requires i != beruf
    ensures PatchedSlotCap(true, caps, true, beruf, perks, i) == caps.major
    ensures CorrectedSlotCap(true, caps, true, beruf, perks, i) == 100.0
    ensures SlotCap(caps, beruf, perks, i) == MinorCap(caps, perks)
    ensures MinorCap(caps, perks) != caps.major
            ==> PatchedSlotCap(true, caps, true, beruf, perks, i) != SlotCap(caps, beruf, perks, i)
  {
  }

  /** Patch 2 restricted to what its comment says it handles: the value 100
      of the primary discipline. */
  function GetSkillCapSkillPostfixFixed(enabled: bool, caps: Caps, i: int, beruf: int, result: real): (r: real)
    ensures r == result || r == caps.major
  {
    if !enabled then result
    else if i == beruf && result == 100.0 then caps.major
    else result
  }

  /** The cap the patched host reports for slot `i`, with patch 2 corrected. */
  function CorrectedSlotCap(enabled: bool, caps: Caps, sandbox: bool, beruf: int, perks: Option<seq<bool>>, i: int): real {
    var secondary := GetSkillCapPostfix(enabled, caps, VanillaGetSkillCap(sandbox, HasTalent(perks)));
    GetSkillCapSkillPostfixFixed(enabled, caps, i, beruf, VanillaGetSkillCapSkill(i, beruf, secondary))
  }

  /** Outside sandbox mode the corrected lookup agrees with the clamp for
      every configuration, and it differs from the lookup as written only on
      secondary slots. */
  lemma CorrectedSlotCapAgreesWithClamp(caps: Caps, beruf: int, perks: Option<seq<bool>>, i: int)
    ensures CorrectedSlotCap(true, caps, false, beruf, perks, i) == SlotCap(caps, beruf, perks, i)
    ensures i == beruf ==> CorrectedSlotCap(true, caps, false, beruf, perks, i) == PatchedSlotCap(true, caps, false, beruf, perks, i)
  {
  }
}
