# Custom Skill Cap — a verified model of the patch logic

Custom Skill Cap is a plugin for a management game. It raises the game's skill caps to three
configured values: a Major cap for an employee's primary discipline, and a Minor cap and a
Talent + Minor cap for the other disciplines. It also repairs a bug where secondary skills jump
to the maximum. This project models the logic the plugin applies to what it gets from the host,
and proves properties of that logic:

- **Plugin** (`plugin.dfy`): the three caps, their declared ranges, and the four zero-argument
  providers that rewritten call sites invoke (`GetMajorCap`, `GetFillFactor`, `GetMinorFillMax`,
  `GetTalentMinorFillMax`).
- **Instructions** (`instructions.dfy`): the opcodes and operands the transpilers test, the value
  an instruction pushes under a configuration, and `ChangedCount`, the number of positions at
  which two instruction lists differ.
- **PatchLearn** (`patch_learn.dfy`): the `Learn` transpiler, which replaces a literal 100 by a call
  of `GetMajorCap`, but only when a branch (`ble.un.s`, `ble.un`) or a field store (`stfld`) follows
  it. Also the safety postfix, which clamps the eight discipline skills of a `Character` in place
  after every learning tick.
- **BarPatchHelper** (`bar_patch_helper.dfy`): the pass shared by the three skill-bar transpilers. It
  replaces the literals 0.01, 0.5 and 0.6 by the fill providers, with no context check.
- **SkillCapPostfixes** (`skill_cap_postfixes.dfy`): the postfixes on `GetSkillCap` (employee and
  CEO screen) and `GetSkillCap_Skill`. It also holds the host's own cap lookup, as the comments at
  CustomSkillCap.cs:103-111 and 131-136 describe it. Composing the two gives the cap the patched
  host reports per slot, which is compared with the cap the safety clamp enforces.

The transpilers copy the host's instructions into a fresh list and rewrite that list in place.
They are modelled as methods that copy a sequence into a fresh array and loop over it. Each is
proved equal to a specification function (`LearnRewrite`, `BarRewrite`), and its count is proved
equal to the number of changed positions. An instruction carries its labels and exception
blocks. A rewritten position is a freshly built call that carries neither, so a label that only
a replaced literal carried is lost. Floats are modelled as `real`. The enabled flag and the
three caps are parameters.

The code has no generic rule engine, no batch method locator and no cached derived values. The
providers divide on every call, with no clamp between the caps and no floor on the major cap.
There is no rule list either: each transpiler tests its literals inline. The model follows the
code. The safety clamp does not call back into the cap lookup; it recomputes the caps itself.
The two differ in two places. Outside sandbox mode they differ only when the secondary cap in
effect is exactly 100; that case is the finding below. In sandbox mode they differ on every
secondary slot whenever the secondary cap in effect differs from the major cap. There the host reports 100, patch 1 leaves it alone, and
patch 2 turns it into the major cap, so the patched lookup reports the major cap (500 with the
defaults). The clamp still holds the slot at the secondary cap (350 with the defaults).
`SandboxSlotCapDivergesFromClamp` states this. The source does not say which of the two sandbox
caps is meant, so this is recorded as a divergence, not as a finding.

## Model

| member | source | states |
|---|---|---|
| `Plugin.MajorCap` | CustomSkillCap.cs:94 | the hard limit `GetMajorCap` returns lies in the major cap's declared range 100..9999 |
| `Plugin.FillFactor` | CustomSkillCap.cs:95 | `GetFillFactor` is the reciprocal of the major cap (its product with the major cap is 1), and lies in (0, 0.01] |
| `Plugin.MinorFillMax` | CustomSkillCap.cs:96 | `GetMinorFillMax` times the major cap gives back the minor cap, and is positive |
| `Plugin.TalentMinorFillMax` | CustomSkillCap.cs:97 | `GetTalentMinorFillMax` times the major cap gives back the talent cap, and is positive |
| `Plugin.ProviderValue` | CustomSkillCap.cs:94-97 | every provider returns a positive value; `GetMajorCap` returns the major cap, and each fill provider returns a value that the major cap scales back to at most 9999 |
| `Plugin.FillFactorScalesCaps` | CustomSkillCap.cs:94-97 | multiplying by the fill factor divides by the major cap; the major cap fills the bar to 1, and the minor and talent caps fill it exactly to their fill maxima |
| `Plugin.FillMaximaWithinBar` | CustomSkillCap.cs:94-97 | for caps in their declared ranges, a secondary cap not above the major cap gives a fill maximum in (0, 1]; the bound (0, 0.01] on the fill factor is `Plugin.FillFactor`'s own contract |
| `Plugin.VanillaCapsReproduceLiterals` | CustomSkillCap.cs:252-266 | with the host's own caps (100, 50, 60) every provider returns exactly the literal it replaces: 100, 0.01, 0.5, 0.6 |
| `Plugin.DefaultCapsProportions` | CustomSkillCap.cs:258-261 | with caps 500/350/450 the providers return 500, 0.002, 0.7 and 0.9 |
| `Instructions.ChangedCount` | CustomSkillCap.cs:176-195 | the number of differing positions is at most the length, and it is zero exactly when the lists are equal |
| `PatchLearn.Transpiler` | CustomSkillCap.cs:174-203 | the list handed back is `LearnRewrite` of the input, and `patched` is the number of positions at which it differs from the input |
| `PatchLearn.LearnChangesEqualSites` | CustomSkillCap.cs:180-195 | the rewrite changes exactly as many positions as there are hard-limit sites |
| `PatchLearn.LearnRewriteChangesOnlySites` | CustomSkillCap.cs:180-195 | position i changes if and only if it holds an `ldc.r4` within 0.001 of 100 followed by `ble.un.s`, `ble.un` or `stfld`; a changed position becomes a call of `GetMajorCap` |
| `PatchLearn.LearnRewriteKeepsLast` | CustomSkillCap.cs:185 | the last instruction is never rewritten |
| `PatchLearn.LearnRewriteSparesOtherContexts` | CustomSkillCap.cs:187-194 | a literal followed by any other opcode (an arithmetic use of 100) is left unchanged |
| `PatchLearn.LearnRewriteDropsLabels` | CustomSkillCap.cs:192 | a rewritten site is replaced by a new instruction with no labels and no exception blocks; every other position keeps its own |
| `PatchLearn.LearnRewriteMarks` | CustomSkillCap.cs:180-195 | a label is still carried by some instruction after the rewrite if and only if a position that is not a hard-limit site carried it |
| `PatchLearn.LearnRewriteIdempotent` | CustomSkillCap.cs:180-195 | a second pass over the output changes nothing and counts zero |
| `PatchLearn.LearnRewriteFaithfulUnderVanillaCaps` | CustomSkillCap.cs:180-195 | with the host's own caps every position pushes the same value before and after the rewrite, up to 0.001 |
| `PatchLearn.Character.SafetyClamp` | CustomSkillCap.cs:209-246 | the new skills are `ClampState` of the old: nothing changes when the mod is disabled; otherwise each secondary slot is lowered to the minor cap in effect and the primary slot to the major cap; the character keeps its eight slots |
| `PatchLearn.ClampRespectsCaps` | CustomSkillCap.cs:224-245 | after the clamp every slot is at or below its cap: the major cap for slot `beruf`, the minor cap in effect for the others |
| `PatchLearn.ClampOnlyLowers` | CustomSkillCap.cs:225-244 | the clamp never raises a skill, and a skill already at or below its cap is unchanged |
| `PatchLearn.ClampDisabledIsNoop` | CustomSkillCap.cs:211 | with the mod disabled no skill changes |
| `PatchLearn.ClampIdempotent` | CustomSkillCap.cs:224-245 | clamping twice gives the same skills as clamping once |
| `PatchLearn.ClampWithoutPrimary` | CustomSkillCap.cs:235-245 | when `beruf` is outside 0..7 every slot is clamped to the minor cap in effect, and none to the major cap |
| `PatchLearn.TalentNeedsPerk15` | CustomSkillCap.cs:218-221 | if the perk list is absent, has at most 15 entries, or has entry 15 unset, the secondary cap is the plain minor cap |
| `BarPatchHelper.Apply` | CustomSkillCap.cs:346-387 | the list handed back is `BarRewrite` of the input, and `patched` is the number of positions at which it differs from the input |
| `BarPatchHelper.BarChangesEqualLiterals` | CustomSkillCap.cs:356-379 | the pass changes exactly as many positions as there are bar literals |
| `BarPatchHelper.BarWindowsDisjoint` | CustomSkillCap.cs:361-378 | the three strict 0.0001 windows around 0.01, 0.5 and 0.6 are disjoint, so the order of the tests never decides the provider |
| `BarPatchHelper.BarRewriteChanges` | CustomSkillCap.cs:356-379 | an `ldc.r4` within 0.0001 of 0.01, 0.5 or 0.6 becomes the call of `GetFillFactor`, `GetMinorFillMax` or `GetTalentMinorFillMax`; a position changes if and only if it holds such a literal |
| `BarPatchHelper.BarRewriteIgnoresContext` | CustomSkillCap.cs:356-379 | what a position becomes depends on that instruction alone, not on the instruction after it |
| `BarPatchHelper.BarRewriteDropsLabels` | CustomSkillCap.cs:364-376 | a rewritten literal is replaced by a new instruction with no labels and no exception blocks; every other position keeps its own |
| `BarPatchHelper.BarRewriteMarks` | CustomSkillCap.cs:356-379 | a label is still carried by some instruction after the pass if and only if a position that is not a bar literal carried it; a branch target that was a bar literal is lost |
| `BarPatchHelper.BarRewriteIdempotent` | CustomSkillCap.cs:356-379 | a second pass over the output changes nothing and counts zero |
| `BarPatchHelper.BarRewriteFaithfulUnderVanillaCaps` | CustomSkillCap.cs:361-378 | with the host's own caps every position pushes the same value before and after the pass, up to less than 0.0001 |
| `SkillCapPostfixes.GetSkillCapPostfix` | CustomSkillCap.cs:117-125 | the result is the host's value, the minor cap or the talent cap |
| `SkillCapPostfixes.CeoGetSkillCapPostfix` | CustomSkillCap.cs:317-325 | the result is the host's value, the minor cap or the talent cap |
| `SkillCapPostfixes.GetSkillCapSkillPostfix` | CustomSkillCap.cs:142-148 | the result is the host's value or the major cap |
| `SkillCapPostfixes.CeoPostfixIsSameRule` | CustomSkillCap.cs:317-325 | the CEO-screen postfix gives the same result as the employee postfix for every input |
| `SkillCapPostfixes.GetSkillCapPostfixCases` | CustomSkillCap.cs:119-124 | a disabled mod or a result of 100 or more leaves the result alone; otherwise a result above 50 gives the talent cap and any other the minor cap |
| `SkillCapPostfixes.GetSkillCapSkillPostfixChangesOnly100` | CustomSkillCap.cs:144-146 | the result changes if and only if the mod is on, the result is exactly 100 and the major cap is not 100 |
| `SkillCapPostfixes.VanillaGetSkillCap` | CustomSkillCap.cs:103-107 | the host's value is 100 exactly in sandbox mode; outside it, the value is above 50 exactly when the talent perk is present ; it is exactly 60 with the perk and exactly 50 without it |
| `SkillCapPostfixes.VanillaGetSkillCapSkill` | CustomSkillCap.cs:131-133 | the host reports 100 for the primary discipline, and for every other slot exactly the (patched) `GetSkillCap` value |
| `SkillCapPostfixes.GetSkillCapPostfixMapsVanilla` | CustomSkillCap.cs:103-124 | on the host's values the postfix gives 100 in sandbox mode, and otherwise the same minor cap in effect that the safety clamp uses |
| `SkillCapPostfixes.PatchedSlotCapAgreesWithClamp` | CustomSkillCap.cs:131-148 | outside sandbox mode, with a secondary cap in effect other than 100, the cap the patched host reports for a slot equals the cap the clamp enforces |
| `SkillCapPostfixes.PatchedSlotCapCounterexample` | CustomSkillCap.cs:142-148 | with caps 500/100/450, no talent and primary slot 0, the patched host reports 500 for slot 1 while the clamp holds slot 1 at 100 |
| `SkillCapPostfixes.SandboxSlotCapDivergesFromClamp` | CustomSkillCap.cs:117-148 | in sandbox mode every secondary slot is reported at the major cap as written (at 100 with patch 2 corrected), while the clamp holds it at the secondary cap in effect; the two differ whenever that secondary cap is not the major cap |
| `SkillCapPostfixes.GetSkillCapSkillPostfixFixed` | CustomSkillCap.cs:135-146 | the result is the host's value or the major cap |
| `SkillCapPostfixes.CorrectedSlotCapAgreesWithClamp` | CustomSkillCap.cs:131-148 | outside sandbox mode, with patch 2 corrected, the reported cap equals the clamp's cap for every configuration, and on the primary slot it equals the as-written cap |

## Left out

- Plugin lifecycle is host framework code and is left out: `Awake`, the configuration binding, `PatchAll` and `UnpatchSelf` (CustomSkillCap.cs:52-91). The enabled flag and the caps are parameters; their declared ranges are `Plugin.InDeclaredRange`.
- Reflection (`GetMethod`, CustomSkillCap.cs:178, 352-354) is a foreign call. A provider method is the tag `Plugin.Provider`.
- The log messages after each transpiler (CustomSkillCap.cs:197-200, 381-384) are I/O. `patched` is returned instead. `BarPatchHelper.Apply` drops the caller name, which only feeds the log.
- The three one-line bar transpilers (CustomSkillCap.cs:274-275, 282-283, 337-338) only call `BarPatchHelper.Apply`. They are covered by it.
- `Patch_GetValColorEmployee.Prefix` (CustomSkillCap.cs:301-305) is one float formula with nothing to prove beyond that formula.
- IEEE single precision is not modelled. Literals, tolerances, caps and skills are exact reals. The rounding of `1f / Major`, of the other quotients, and of 0.001f and 0.0001f themselves is not captured.
- The host types (`characterScript`, `GUI_Main`, `Menu_NewGameCEO`) are closed source. A character is its primary discipline `beruf`, its perk list (absent as `None`) and eight skill slots. Vanilla `GetSkillCap` and `GetSkillCap_Skill` are modelled only as the source's comments describe them.
- What the host's runtime does with a branch whose label no instruction carries any more is not modelled. The model records labels and exception blocks as identifiers on each instruction. `PatchLearn.LearnRewriteMarks` and `BarPatchHelper.BarRewriteMarks` state which labels the rewrite loses. Whether the host's compiled code places a label on a replaced literal is host code and is not part of this model.
- Harmony's exception handling around hooks and the order in which it installs patches are host behaviour.

## Findings

| source | as written | input that shows it | evidently intended | confidence | as-written member | corrected member |
|---|---|---|---|---|---|---|
| CustomSkillCap.cs:145-146 | `GetSkillCap_Skill`'s postfix replaces every result of exactly 100 by the major cap. For a secondary slot that result is the already patched minor or talent cap. | Major 500, Minor 100 (the declared range is 10..9999), no talent perk, not sandbox, primary slot 0, slot 1: the lookup reports 500, but `SafetyClamp` holds slot 1 at 100 | only the primary discipline's 100 becomes the major cap (comment at CustomSkillCap.cs:135-136), so a secondary slot reports its own cap, as the clamp enforces | medium, not executed | `SkillCapPostfixes.PatchedSlotCapCounterexample` | `SkillCapPostfixes.CorrectedSlotCapAgreesWithClamp` |
