/** Patch 3 on the host's `Learn`: a transpiler that replaces the hard limit
    100 by a call of the major-cap provider, and a postfix that clamps the
    eight discipline skills after every learning tick. */
module PatchLearn {
  import opened Plugin
  import opened Instructions

  // ---- Transpiler ----------------------------------------------------------

  /** An `ldc.r4` of a float within 0.001 of 100. */
  predicate IsHardLimitLiteral(ins: Instruction) {
    match LoadedFloat(ins)
    case Some(f) => Abs(f - 100.0) <= 0.001
    case None => false
  }

  /** The opcodes that mark a hard-limit site: the comparison's branch or the
      assignment's field store. */
  predicate ConfirmsHardLimit(op: Opcode) {
    op == Ble_Un_S || op == Ble_Un || op == Stfld
  }

  /** Position `i` holds the hard limit: the literal is followed by a
      confirming opcode.  The last position never qualifies. */
  predicate IsHardLimitSite(codes: seq<Instruction>, i: nat)
    requires i < |codes|
  {
    IsHardLimitLiteral(codes[i]) && i + 1 < |codes| && ConfirmsHardLimit(codes[i + 1].opcode)
  }

  /** What position `i` holds after the transpiler has run. */
  function LearnAt(codes: seq<Instruction>, i: nat): Instruction
    requires i < |codes|
  {
    if IsHardLimitSite(codes, i) then CallTo(GetMajorCap) else codes[i]
  }

  /** The instruction list the transpiler hands back to the host. */
  function LearnRewrite(codes: seq<Instruction>): (r: seq<Instruction>)
    ensures |r| == |codes|
  {
    seq(|codes|, i requires 0 <= i < |codes| => LearnAt(codes, i))
  }

  /** The number of hard-limit sites among the first `n` positions. */
  function SiteCount(codes: seq<Instruction>, n: nat): nat
    requires n <= |codes|
  {
    if n == 0 then 0 else SiteCount(codes, n - 1) + (if IsHardLimitSite(codes, n - 1) then 1 else 0)
  }

  /** The rewrite changes exactly as many positions as there are sites. */
  lemma {:induction false} LearnChangesEqualSites(codes: seq<Instruction>, n: nat)
    requires n <= |codes|
    ensures ChangedCount(codes[..n], LearnRewrite(codes)[..n]) == SiteCount(codes, n)
  {
    if n > 0 {
      var r := LearnRewrite(codes);
      LearnChangesEqualSites(codes, n - 1);
      assert codes[..n] == codes[..n - 1] + [codes[n - 1]];
      assert r[..n] == r[..n - 1] + [r[n - 1]];
      ChangedCountSnoc(codes[..n - 1], r[..n - 1], codes[n - 1], r[n - 1]);
    }
  }

  /** The transpiler copies the instructions into a list, rewrites the list in
      place and counts the rewrites. */
  method Transpiler(instructions: seq<Instruction>) returns (result: seq<Instruction>, patched: nat)
    ensures result == LearnRewrite(instructions)
    ensures patched == ChangedCount(instructions, result)
  {
    var codes := new Instruction[|instructions|](k requires 0 <= k < |instructions| => instructions[k]);
    patched := 0;
    for i := 0 to codes.Length
      invariant codes.Length == |instructions|
      invariant forall j :: 0 <= j < i ==> codes[j] == LearnAt(instructions, j)
      invariant forall j :: i <= j < codes.Length ==> codes[j] == instructions[j]
      invariant patched == SiteCount(instructions, i)
    {
      if codes[i].opcode == Ldc_R4 && codes[i].operand.Float? {
        var f := codes[i].operand.value;
        if Abs(f - 100.0) <= 0.001 && i + 1 < codes.Length {
          var next := codes[i + 1].opcode;
          if next == Ble_Un_S || next == Ble_Un || next == Stfld {
            codes[i] := CallTo(GetMajorCap);
            patched := patched + 1;
          }
        }
      }
    }
    result := codes[..];
    assert result == LearnRewrite(instructions);
    LearnChangesEqualSites(instructions, |instructions|);
    assert instructions[..|instructions|] == instructions;
    assert result[..|result|] == result;
  }

  /** Exactly the hard-limit sites change, and each becomes a call of the
      major-cap provider. */
  lemma LearnRewriteChangesOnlySites(codes: seq<Instruction>, i: nat)
    requires i < |codes|
    ensures LearnRewrite(codes)[i] != codes[i] <==> IsHardLimitSite(codes, i)
    ensures LearnRewrite(codes)[i] != codes[i] ==> LearnRewrite(codes)[i] == CallTo(GetMajorCap)
  {
  }

  /** The last instruction is never rewritten. */
  lemma LearnRewriteKeepsLast(codes: seq<Instruction>)
    requires |codes| > 0
    ensures LearnRewrite(codes)[|codes| - 1] == codes[|codes| - 1]
  {
  }

  /** A literal 100 followed by anything but a branch or a field store (an
      arithmetic use of the same value) is left alone. */
  lemma LearnRewriteSparesOtherContexts(codes: seq<Instruction>, i: nat)
    requires i + 1 < |codes|
    requires !ConfirmsHardLimit(codes[i + 1].opcode)
    ensures LearnRewrite(codes)[i] == codes[i]
  {
  }

  /** A second pass finds nothing more to rewrite. */
  lemma LearnRewriteIdempotent(codes: seq<Instruction>)
    ensures LearnRewrite(LearnRewrite(codes)) == LearnRewrite(codes)
    ensures ChangedCount(LearnRewrite(codes), LearnRewrite(LearnRewrite(codes))) == 0
  {
  }

  /** A rewritten site loses the labels and exception blocks of its literal;
      every other position keeps its own. */
  lemma LearnRewriteDropsLabels(codes: seq<Instruction>, i: nat)
    requires i < |codes|
    ensures LearnRewrite(codes)[i].labels == if IsHardLimitSite(codes, i) then [] else codes[i].labels
    ensures LearnRewrite(codes)[i].blocks == if IsHardLimitSite(codes, i) then [] else codes[i].blocks
  {
  }

  /** A label stays marked after the rewrite exactly when some position that
      is not a hard-limit site carries it: a branch to a label that only a
      rewritten literal carried no longer lands anywhere. */
  lemma LearnRewriteMarks(codes: seq<Instruction>, l: nat)
    ensures Marks(LearnRewrite(codes), l)
            <==> exists j :: 0 <= j < |codes| && !IsHardLimitSite(codes, j) && l in codes[j].labels
  {
    var r := LearnRewrite(codes);
    if Marks(r, l) {
      var j :| 0 <= j < |r| && l in r[j].labels;
      assert !IsHardLimitSite(codes, j) && l in codes[j].labels;
    }
    if exists j :: 0 <= j < |codes| && !IsHardLimitSite(codes, j) && l in codes[j].labels {
      var j :| 0 <= j < |codes| && !IsHardLimitSite(codes, j) && l in codes[j].labels;
      assert l in r[j].labels;
    }
  }

  /** With the host's own caps the rewritten list pushes the same values as
      the original, up to the tolerance the transpiler accepts. */
  lemma LearnRewriteFaithfulUnderVanillaCaps(codes: seq<Instruction>, i: nat)
    requires i < |codes|
    ensures InDeclaredRange(VanillaCaps)
    ensures var before := PushedValue(codes[i], VanillaCaps);
            var after := PushedValue(LearnRewrite(codes)[i], VanillaCaps);
            before.Some? == after.Some? &&
            (before.Some? ==> Abs(before.value - after.value) <= 0.001)
  {
  }

  // ---- Safety postfix --------------------------------------------------------

  /** The eight disciplines: game design, programming, graphics, sound, PR,
      game tests, technology and research, in slot order 0..7. */
  const SlotCount := 8

  /** The talent perk is perk 15 of a perk list that may be absent or short. */
  predicate HasTalent(perks: Option<seq<bool>>) {
    perks.Some? && |perks.value| > 15 && perks.value[15]
  }

  /** The cap of a secondary skill. */
  function MinorCap(caps: Caps, perks: Option<seq<bool>>): real {
    if HasTalent(perks) then caps.talentMinor else caps.minor
  }

  /** The cap the clamp enforces on slot `k` for primary discipline `beruf`. */
  function SlotCap(caps: Caps, beruf: int, perks: Option<seq<bool>>, k: int): real {
    if k == beruf then caps.major else MinorCap(caps, perks)
  }

  /** Lowers `v` to `cap` when it is above it. */
  function ClampTo(v: real, cap: real): real {
    if v > cap then cap else v
  }

  /** The skills after one run of the postfix. */
  function ClampState(enabled: bool, caps: Caps, beruf: int, perks: Option<seq<bool>>, skills: seq<real>): (r: seq<real>)
    ensures |r| == |skills|
  {
    if !enabled then skills
    else seq(|skills|, k requires 0 <= k < |skills| => ClampTo(skills[k], SlotCap(caps, beruf, perks, k)))
  }

  /** The part of the host's character that the postfix reads and changes. */
  class Character {
    var beruf: int
    var perks: Option<seq<bool>>
    const skills: array<real>

    ghost predicate Valid()
      reads this
    {
      skills.Length == SlotCount
    }

    constructor (beruf: int, perks: Option<seq<bool>>, initial: seq<real>)
      requires |initial| == SlotCount
      ensures Valid() && fresh(skills)
      ensures this.beruf == beruf && this.perks == perks && skills[..] == initial
    {
      this.beruf := beruf;
      this.perks := perks;
      skills := new real[SlotCount](k requires 0 <= k < SlotCount => initial[k]);
    }

    /** Clamps every secondary skill to the minor cap, then the primary skill
        to the major cap. */
    method SafetyClamp(enabled: bool, caps: Caps)
      requires Valid()
      modifies skills
      ensures Valid()
      ensures skills[..] == ClampState(enabled, caps, beruf, perks, old(skills[..]))
    {
      if !enabled {
        return;
      }
      var hasTalent := perks.Some? && |perks.value| > 15 && perks.value[15];
      var minorCap := if hasTalent then caps.talentMinor else caps.minor;
      var majorCap := caps.major;
      ghost var target := ClampState(enabled, caps, beruf, perks, old(skills[..]));

      for k := 0 to SlotCount
        invariant forall j :: 0 <= j < k && j != beruf ==> skills[j] == target[j]
        invariant forall j :: 0 <= j < SlotCount && (k <= j || j == beruf) ==> skills[j] == old(skills[j])
      {
        if beruf != k && skills[k] > minorCap {
          skills[k] := minorCap;
        }
      }

      if 0 <= beruf < SlotCount && skills[beruf] > majorCap {
        skills[beruf] := majorCap;
      }
    }
  }

  /** After the clamp every slot is at or below its cap. */
  lemma ClampRespectsCaps(caps: Caps, beruf: int, perks: Option<seq<bool>>, skills: seq<real>, k: nat)
    requires k < |skills|
    ensures ClampState(true, caps, beruf, perks, skills)[k] <= SlotCap(caps, beruf, perks, k)
  {
  }

  /** The clamp never raises a skill, and leaves a skill already within its
      cap exactly as it was. */
  lemma ClampOnlyLowers(enabled: bool, caps: Caps, beruf: int, perks: Option<seq<bool>>, skills: seq<real>, k: nat)
    requires k < |skills|
    ensures ClampState(enabled, caps, beruf, perks, skills)[k] <= skills[k]
    ensures skills[k] <= SlotCap(caps, beruf, perks, k) ==> ClampState(enabled, caps, beruf, perks, skills)[k] == skills[k]
  {
  }

  /** A disabled mod leaves every skill unchanged. */
  lemma ClampDisabledIsNoop(caps: Caps, beruf: int, perks: Option<seq<bool>>, skills: seq<real>)
    ensures ClampState(false, caps, beruf, perks, skills) == skills
  {
  }

  /** Clamping twice gives the state of clamping once. */
  lemma ClampIdempotent(enabled: bool, caps: Caps, beruf: int, perks: Option<seq<bool>>, skills: seq<real>)
    ensures var once := ClampState(enabled, caps, beruf, perks, skills);
            ClampState(enabled, caps, beruf, perks, once) == once
  {
  }

  /** A primary discipline outside 0..7 puts every slot under the secondary
      cap, and none under the major cap. */
  lemma ClampWithoutPrimary(caps: Caps, beruf: int, perks: Option<seq<bool>>, skills: seq<real>, k: nat)
    requires !(0 <= beruf < SlotCount)
    requires k < |skills| == SlotCount
    ensures ClampState(true, caps, beruf, perks, skills)[k] == ClampTo(skills[k], MinorCap(caps, perks))
  {
  }

  /** Without a perk list of more than 15 entries whose entry 15 is set, the
      secondary cap is the plain minor cap. */
  lemma TalentNeedsPerk15(caps: Caps, perks: Option<seq<bool>>)
    requires perks.None? || |perks.value| <= 15 || !perks.value[15]
    ensures MinorCap(caps, perks) == caps.minor
  {
  }
}
