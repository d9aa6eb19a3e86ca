/** Patches 4, 5 and 8: the skill-bar transpilers share one pass that
    replaces the bar-proportion literals 0.01, 0.5 and 0.6 by calls of the
    plugin's fill providers, whatever instruction follows them. */
module BarPatchHelper {
  import opened Plugin
  import opened Instructions

  /** The provider replacing a literal `f`, tested in the order 0.01, 0.5,
      0.6, each within 0.0001 (strictly). */
  function BarProvider(f: real): Option<Provider> {
    if Abs(f - 0.01) < 0.0001 then Some(GetFillFactor)
    else if Abs(f - 0.5) < 0.0001 then Some(GetMinorFillMax)
    else if Abs(f - 0.6) < 0.0001 then Some(GetTalentMinorFillMax)
    else None
  }

  /** The replacement for an instruction, if it is a bar literal. */
  function BarReplacement(ins: Instruction): Option<Provider> {
    match LoadedFloat(ins)
    case Some(f) => BarProvider(f)
    case None => None
  }

  /** What an instruction becomes after the pass. */
  function BarAt(ins: Instruction): Instruction {
    match BarReplacement(ins)
    case Some(p) => CallTo(p)
    case None => ins
  }

  /** An instruction changes under the pass exactly when it is a bar literal. */
  lemma BarAtChangesIff(ins: Instruction)
    ensures BarAt(ins) != ins <==> BarReplacement(ins).Some?
  {
  }

  /** The instruction list the pass hands back to the host. */
  function BarRewrite(codes: seq<Instruction>): (r: seq<Instruction>)
    ensures |r| == |codes|
  {
    seq(|codes|, i requires 0 <= i < |codes| => BarAt(codes[i]))
  }

  /** The number of bar literals among the first `n` positions. */
  function LiteralCount(codes: seq<Instruction>, n: nat): nat
    requires n <= |codes|
  {
    if n == 0 then 0 else LiteralCount(codes, n - 1) + (if BarReplacement(codes[n - 1]).Some? then 1 else 0)
  }

  /** The pass changes exactly as many positions as there are bar literals. */
  lemma {:induction false} BarChangesEqualLiterals(codes: seq<Instruction>, n: nat)
    requires n <= |codes|
    ensures ChangedCount(codes[..n], BarRewrite(codes)[..n]) == LiteralCount(codes, n)
  {
    if n > 0 {
      var r := BarRewrite(codes);
      BarChangesEqualLiterals(codes, n - 1);
      assert codes[..n] == codes[..n - 1] + [codes[n - 1]];
      assert r[..n] == r[..n - 1] + [r[n - 1]];
      assert r[n - 1] == BarAt(codes[n - 1]);
      BarAtChangesIff(codes[n - 1]);
      ChangedCountSnoc(codes[..n - 1], r[..n - 1], codes[n - 1], r[n - 1]);
    }
  }

  /** The shared pass: copy the instructions into a list, rewrite it in place,
      count the rewrites.  The caller's name only feeds the log. */
  method Apply(instructions: seq<Instruction>) returns (result: seq<Instruction>, patched: nat)
    ensures result == BarRewrite(instructions)
    ensures patched == ChangedCount(instructions, result)
  {
    var codes := new Instruction[|instructions|](k requires 0 <= k < |instructions| => instructions[k]);
    patched := 0;
    for i := 0 to codes.Length
      invariant codes.Length == |instructions|
      invariant forall j :: 0 <= j < i ==> codes[j] == BarAt(instructions[j])
      invariant forall j :: i <= j < codes.Length ==> codes[j] == instructions[j]
      invariant patched == LiteralCount(instructions, i)
    {
      if codes[i].opcode == Ldc_R4 && codes[i].operand.Float? {
        var f := codes[i].operand.value;
        if Abs(f - 0.01) < 0.0001 {
          codes[i] := CallTo(GetFillFactor);
          patched := patched + 1;
        } else if Abs(f - 0.5) < 0.0001 {
          codes[i] := CallTo(GetMinorFillMax);
          patched := patched + 1;
        } else if Abs(f - 0.6) < 0.0001 {
          codes[i] := CallTo(GetTalentMinorFillMax);
          patched := patched + 1;
        }
      }
    }
    result := codes[..];
    assert result == BarRewrite(instructions);
    BarChangesEqualLiterals(instructions, |instructions|);
    assert instructions[..|instructions|] == instructions;
    assert result[..|result|] == result;
  }

  /** The three target windows are disjoint, so the order of the tests never
      decides which provider a literal gets. */
  lemma BarWindowsDisjoint(f: real)
    ensures Abs(f - 0.01) < 0.0001 ==> Abs(f - 0.5) >= 0.0001 && Abs(f - 0.6) >= 0.0001
    ensures Abs(f - 0.5) < 0.0001 ==> Abs(f - 0.6) >= 0.0001
  {
  }

  /** Every bar literal becomes the call of its provider, and every other
      instruction is left exactly as it was. */
  lemma BarRewriteChanges(codes: seq<Instruction>, i: nat)
    requires i < |codes|
    ensures LoadedFloat(codes[i]).Some? && Abs(LoadedFloat(codes[i]).value - 0.01) < 0.0001
            ==> BarRewrite(codes)[i] == CallTo(GetFillFactor)
    ensures LoadedFloat(codes[i]).Some? && Abs(LoadedFloat(codes[i]).value - 0.5) < 0.0001
            ==> BarRewrite(codes)[i] == CallTo(GetMinorFillMax)
    ensures LoadedFloat(codes[i]).Some? && Abs(LoadedFloat(codes[i]).value - 0.6) < 0.0001
            ==> BarRewrite(codes)[i] == CallTo(GetTalentMinorFillMax)
    ensures BarRewrite(codes)[i] != codes[i] <==> BarReplacement(codes[i]).Some?
  {
  }

  /** No context is consulted: the rewrite of a position depends on that
      instruction alone, not on its neighbours. */
  lemma BarRewriteIgnoresContext(codes: seq<Instruction>, other: seq<Instruction>, i: nat, j: nat)
    requires i < |codes| && j < |other| && codes[i] == other[j]
    ensures BarRewrite(codes)[i] == BarRewrite(other)[j]
  {
  }

  /** A second pass finds nothing more to rewrite. */
  lemma BarRewriteIdempotent(codes: seq<Instruction>)
    ensures BarRewrite(BarRewrite(codes)) == BarRewrite(codes)
    ensures ChangedCount(BarRewrite(codes), BarRewrite(BarRewrite(codes))) == 0
  {
  }

  /** A rewritten literal loses its labels and exception blocks; every other
      position keeps its own. */
  lemma BarRewriteDropsLabels(codes: seq<Instruction>, i: nat)
    requires i < |codes|
    ensures BarRewrite(codes)[i].labels == if BarReplacement(codes[i]).Some? then [] else codes[i].labels
    ensures BarRewrite(codes)[i].blocks == if BarReplacement(codes[i]).Some? then [] else codes[i].blocks
  {
  }

  /** A label stays marked after the pass exactly when some position that is
      not a bar literal carries it.  Where a literal 0.6 is the target of a
      conditional branch, as a compiled `talent ? 0.6f : 0.5f` may have it,
      that label is lost. */
  lemma BarRewriteMarks(codes: seq<Instruction>, l: nat)
    ensures Marks(BarRewrite(codes), l)
            <==> exists j :: 0 <= j < |codes| && BarReplacement(codes[j]).None? && l in codes[j].labels
  {
    var r := BarRewrite(codes);
    if Marks(r, l) {
      var j :| 0 <= j < |r| && l in r[j].labels;
      assert BarReplacement(codes[j]).None? && l in codes[j].labels;
    }
    if exists j :: 0 <= j < |codes| && BarReplacement(codes[j]).None? && l in codes[j].labels {
      var j :| 0 <= j < |codes| && BarReplacement(codes[j]).None? && l in codes[j].labels;
      assert l in r[j].labels;
    }
  }

  /** With the host's own caps the rewritten list pushes the same values as
      the original, up to the tolerance the pass accepts. */
  lemma BarRewriteFaithfulUnderVanillaCaps(codes: seq<Instruction>, i: nat)
    requires i < |codes|
    ensures InDeclaredRange(VanillaCaps)
    ensures var before := PushedValue(codes[i], VanillaCaps);
            var after := PushedValue(BarRewrite(codes)[i], VanillaCaps);
            before.Some? == after.Some? &&
            (before.Some? ==> Abs(before.value - after.value) < 0.0001)
  {
  }
}
