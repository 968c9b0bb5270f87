/**
 * `flow::conditional` (implementations.rs) on a tape laid out by hand, since no compiler in the
 * repository emits it: the count of branches and the end jump, then per branch its jump word,
 * a literal condition and a float literal, then the final float literal. Branch `i` starts at
 * word 3 + 4i. `move_to` moves only the pointer, so once a branch has been skipped the offset
 * counter lags behind it: branch `i` is read with the offset at 3 + 2i.
 */
module Conditionals {
  import opened Wrappers
  import opened Values
  import opened Words
  import opened TapeCursor
  import opened Semantics
  import opened Steps

  /** The four words of branch `i`. */
  ghost predicate BranchAt(code: Code, i: nat, jump: nat, cond: bool, val: Num) {
    && 7 + 4 * i <= |code.words| && 7 + 2 * i <= code.size
    && code.words[3 + 4 * i] == Offset(jump)
    && code.words[4 + 4 * i] == Op(if cond then OpTr else OpFl)
    && code.words[5 + 4 * i] == Op(OpFloat)
    && code.words[6 + 4 * i] == FloatBits(val)
  }

  /** A conditional with these branches and this final value, filling the whole tape. */
  ghost predicate IsConditional(code: Code, conds: seq<bool>, vals: seq<Num>, jumps: seq<nat>, final: Num, endJmp: nat) {
    && |vals| == |conds| && |jumps| == |conds|
    && |code.words| == 5 + 4 * |conds| && code.size == |code.words|
    && code.words[0] == Op(OpConditional) && code.words[1] == Offset(|conds|) && code.words[2] == Offset(endJmp)
    && (forall i :: 0 <= i < |conds| ==> BranchAt(code, i, jumps[i], conds[i], vals[i]))
    && code.words[3 + 4 * |conds|] == Op(OpFloat) && code.words[4 + 4 * |conds|] == FloatBits(final)
  }

  /** Jumps that land on the next branch: with the lagging offset, branch `i` must name 7 + 2i. */
  predicate Hops(jumps: seq<nat>) {
    forall i :: 0 <= i < |jumps| ==> jumps[i] == 7 + 2 * i
  }

  /** The first branch at or after `i` whose condition holds, or `|conds|` if there is none. */
  function FirstTrue(conds: seq<bool>, i: nat): (f: nat)
    requires i <= |conds|
    ensures i <= f <= |conds|
    ensures f < |conds| ==> conds[f]
    ensures forall j :: i <= j < f ==> !conds[j]
    decreases |conds| - i
  {
    if i == |conds| || conds[i] then i else FirstTrue(conds, i + 1)
  }

  /**
   * What the branch loop yields when branch `f` is the first truthy one (`f == |conds|`: none is):
   * its value with the pointer at `endJmp` shifted by the lag of the `f` branches skipped, or the
   * final value with the cursor just past it.
   */
  function Outcome(conds: seq<bool>, vals: seq<Num>, final: Num, endJmp: nat, f: nat, g: seq<Value>): Result<(Value, Machine)>
    requires |vals| == |conds| && f <= |conds|
  {
    if f < |conds| then Ok((Value.Float(vals[f]), Machine(Cursor(endJmp + 2 * f, 7 + 2 * f), g)))
    else Ok((Value.Float(final), Machine(Cursor(5 + 4 * |conds|, 5 + 2 * |conds|), g)))
  }

  /** A falsy branch: the pointer goes to its jump counted from the lagging offset, which moves two on. */
  lemma BranchSkips(fp: FloatOps, code: Code, fuel: nat, k: nat, endJmp: nat, i: nat, g: seq<Value>, jump: nat, val: Num)
    requires fuel >= 1 && k >= 1 && BranchAt(code, i, jump, false, val)
    ensures CondLoop(fp, code, fuel, k, endJmp, Machine(Cursor(3 + 4 * i, 3 + 2 * i), g))
         == CondLoop(fp, code, fuel, k - 1, endJmp, Machine(Cursor(jump + 2 * i, 5 + 2 * i), g))
  {
    var m1 := Machine(Cursor(4 + 4 * i, 4 + 2 * i), g);
    assert MIndex(code, Machine(Cursor(3 + 4 * i, 3 + 2 * i), g)) == Ok((jump, m1));
    BoolRuns(fp, code, fuel, 4 + 4 * i, 4 + 2 * i, g, false);
  }

  /** A truthy branch: its value, with the pointer moved to `endJmp` counted from the lagging offset. */
  lemma BranchTaken(fp: FloatOps, code: Code, fuel: nat, k: nat, endJmp: nat, i: nat, g: seq<Value>, jump: nat, val: Num)
    requires fuel >= 1 && k >= 1 && BranchAt(code, i, jump, true, val)
    ensures CondLoop(fp, code, fuel, k, endJmp, Machine(Cursor(3 + 4 * i, 3 + 2 * i), g))
         == Ok((Value.Float(val), Machine(Cursor(endJmp + 2 * i, 7 + 2 * i), g)))
  {
    var m1 := Machine(Cursor(4 + 4 * i, 4 + 2 * i), g);
    var m2 := Machine(Cursor(5 + 4 * i, 5 + 2 * i), g);
    assert MIndex(code, Machine(Cursor(3 + 4 * i, 3 + 2 * i), g)) == Ok((jump, m1));
    BoolRuns(fp, code, fuel, 4 + 4 * i, 4 + 2 * i, g, true);
    FloatRuns(fp, code, fuel, 5 + 4 * i, 5 + 2 * i, g, val);
  }

  /** No branch left: the final expression, read where the hops left the cursor. */
  lemma FinalRuns(fp: FloatOps, code: Code, fuel: nat, conds: seq<bool>, vals: seq<Num>, jumps: seq<nat>,
                  final: Num, endJmp: nat, g: seq<Value>)
    requires fuel >= 1 && IsConditional(code, conds, vals, jumps, final, endJmp)
    ensures var k := |conds|;
            CondLoop(fp, code, fuel, 0, endJmp, Machine(Cursor(3 + 4 * k, 3 + 2 * k), g))
              == Ok((Value.Float(final), Machine(Cursor(5 + 4 * k, 5 + 2 * k), g)))
  {
    var k := |conds|;
    FloatRuns(fp, code, fuel, 3 + 4 * k, 3 + 2 * k, g, final);
  }

  /** Branch `i` taken: the outcome for a first truthy branch `i`. */
  lemma TakenAt(fp: FloatOps, code: Code, fuel: nat, conds: seq<bool>, vals: seq<Num>,
                jumps: seq<nat>, final: Num, endJmp: nat, i: nat, g: seq<Value>)
    requires fuel >= 1 && IsConditional(code, conds, vals, jumps, final, endJmp) && i < |conds| && conds[i]
    ensures CondLoop(fp, code, fuel, |conds| - i, endJmp, Machine(Cursor(3 + 4 * i, 3 + 2 * i), g))
         == Outcome(conds, vals, final, endJmp, FirstTrue(conds, i), g)
  {
    assert BranchAt(code, i, jumps[i], conds[i], vals[i]);
    BranchTaken(fp, code, fuel, |conds| - i, endJmp, i, g, jumps[i], vals[i]);
  }

  /** Branch `i` skipped over a hopping jump: the loop and the first truthy branch both carry on from `i + 1`. */
  lemma SkippedAt(fp: FloatOps, code: Code, fuel: nat, conds: seq<bool>, vals: seq<Num>,
                  jumps: seq<nat>, final: Num, endJmp: nat, i: nat, g: seq<Value>)
    requires fuel >= 1 && IsConditional(code, conds, vals, jumps, final, endJmp) && Hops(jumps)
    requires i < |conds| && !conds[i]
    ensures CondLoop(fp, code, fuel, |conds| - i, endJmp, Machine(Cursor(3 + 4 * i, 3 + 2 * i), g))
         == CondLoop(fp, code, fuel, |conds| - (i + 1), endJmp, Machine(Cursor(3 + 4 * (i + 1), 3 + 2 * (i + 1)), g))
    ensures FirstTrue(conds, i) == FirstTrue(conds, i + 1)
  {
    assert BranchAt(code, i, jumps[i], conds[i], vals[i]);
    BranchSkips(fp, code, fuel, |conds| - i, endJmp, i, g, jumps[i], vals[i]);
  }

  /**
   * The branch loop from branch `i` on, over hopping jumps: the first truthy branch at or after
   * `i` yields its value with the pointer at `endJmp` (shifted by the lag), and with none the
   * final expression's value.
   */
  lemma {:induction false} BranchesFrom(fp: FloatOps, code: Code, fuel: nat, conds: seq<bool>, vals: seq<Num>,
                                        jumps: seq<nat>, final: Num, endJmp: nat, i: nat, g: seq<Value>)
    requires fuel >= 1 && IsConditional(code, conds, vals, jumps, final, endJmp) && Hops(jumps) && i <= |conds|
    ensures CondLoop(fp, code, fuel, |conds| - i, endJmp, Machine(Cursor(3 + 4 * i, 3 + 2 * i), g))
         == Outcome(conds, vals, final, endJmp, FirstTrue(conds, i), g)
    decreases |conds| - i
  {
    if i == |conds| {
      FinalRuns(fp, code, fuel, conds, vals, jumps, final, endJmp, g);
    } else if conds[i] {
      TakenAt(fp, code, fuel, conds, vals, jumps, final, endJmp, i, g);
    } else {
      SkippedAt(fp, code, fuel, conds, vals, jumps, final, endJmp, i, g);
      BranchesFrom(fp, code, fuel, conds, vals, jumps, final, endJmp, i + 1, g);
    }
  }

  /**
   * `conditional` from the start of the tape: the value of the first branch whose condition is
   * truthy, with the pointer moved to `endJmp` (plus the lag of the branches skipped before it),
   * and with no truthy branch the final expression's value, read just past the last branch.
   */
  lemma ConditionalRuns(fp: FloatOps, code: Code, globalsAmt: nat, fuel: nat, conds: seq<bool>, vals: seq<Num>,
                        jumps: seq<nat>, final: Num, endJmp: nat)
    requires fuel >= 2 && IsConditional(code, conds, vals, jumps, final, endJmp) && Hops(jumps)
    ensures Execute(fp, code, globalsAmt, fuel)
         == Outcome(conds, vals, final, endJmp, FirstTrue(conds, 0), Start(globalsAmt).globals)
  {
    var g := Start(globalsAmt).globals;
    ConditionalOpens(fp, code, fuel, 0, 0, g, |conds|, endJmp);
    BranchesFrom(fp, code, fuel - 1, conds, vals, jumps, final, endJmp, 0, g);
  }

  /** Two branches skipped over jumps 7 and 11: the pointer is at word 13 with the offset at 7. */
  lemma AbsoluteSkips(fp: FloatOps, code: Code, fuel: nat, endJmp: nat, g: seq<Value>, v0: Num, v1: Num)
    requires fuel >= 1 && BranchAt(code, 0, 7, false, v0) && BranchAt(code, 1, 11, false, v1)
    ensures CondLoop(fp, code, fuel, 3, endJmp, Machine(Cursor(3, 3), g))
         == CondLoop(fp, code, fuel, 1, endJmp, Machine(Cursor(13, 7), g))
  {
    var mid := Machine(Cursor(7, 5), g);
    BranchSkips(fp, code, fuel, 3, endJmp, 0, g, 7, v0);
    assert CondLoop(fp, code, fuel, 3, endJmp, Machine(Cursor(3, 3), g)) == CondLoop(fp, code, fuel, 2, endJmp, mid);
    BranchSkips(fp, code, fuel, 2, endJmp, 1, g, 11, v1);
  }

  /**
   * Jumps naming the next branch's word position, as a compiler counting words would lay them
   * out, go wrong on the second skipped branch: the lag puts the pointer two words into the
   * third branch, on its float opcode, where a jump word is expected.
   */
  lemma AbsoluteJumpsFail(fp: FloatOps, code: Code, globalsAmt: nat, fuel: nat, vals: seq<Num>, final: Num,
                          endJmp: nat, c: bool)
    requires fuel >= 2 && IsConditional(code, [false, false, c], vals, [7, 11, 15], final, endJmp)
    ensures Execute(fp, code, globalsAmt, fuel) == Err(IllTyped)
  {
    var g := Start(globalsAmt).globals;
    ConditionalOpens(fp, code, fuel, 0, 0, g, 3, endJmp);
    assert BranchAt(code, 0, 7, false, vals[0]) && BranchAt(code, 1, 11, false, vals[1]);
    AbsoluteSkips(fp, code, fuel - 1, endJmp, g, vals[0], vals[1]);
    assert BranchAt(code, 2, 15, c, vals[2]);
    assert MIndex(code, Machine(Cursor(13, 7), g)) == Err(IllTyped);
  }
}
