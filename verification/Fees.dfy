/** Fee policy: the per-op checks, the running minima and the outer fee choice. */
module Fees {
  import opened Types
  import opened Errors

  function CheckPerOpFees(c: Config, i: nat, op: UserOp, baseFee: U256): Result<(), BundlerError> {
    var required := SatAdd(baseFee, c.minPriorityFee);
    if op.maxPriorityFeePerGas > op.maxFeePerGas then Err(InvalidUserOp(i, TipAboveCap))
    else if op.maxPriorityFeePerGas < c.minPriorityFee then
      Err(PriorityFeeTooLow(i, op.maxPriorityFeePerGas, c.minPriorityFee))
    else if op.maxFeePerGas < required then Err(FeeCapTooLow(i, op.maxFeePerGas, required))
    else Ok(())
  }

  datatype OuterFees = OuterFees(tip: U256, cap: U256)

  function ChosenTip(c: Config, suggestedTip: U256, minTip: U256): U256 {
    Min(Max(c.minPriorityFee, suggestedTip), minTip)
  }

  function ChooseOuterFees(c: Config, baseFee: U256, suggestedTip: U256, minTip: U256, minCap: U256):
    Result<OuterFees, BundlerError>
  {
    var tip := ChosenTip(c, suggestedTip, minTip);
    var required := SatAdd(baseFee, tip);
    if minCap < required then Err(FeeCapTooLow(OUTER, minCap, required))
    else Ok(OuterFees(tip, minCap))
  }

  /** The running minimum: the slot is replaced unless it already holds something as small. */
  function UpdateMin(slot: Option<U256>, candidate: U256): Option<U256> {
    if slot.Some? && slot.value <= candidate then slot else Some(candidate)
  }

  function Tips(ops: seq<UserOp>): (r: seq<U256>)
    ensures |r| == |ops| && forall i :: 0 <= i < |ops| ==> r[i] == ops[i].maxPriorityFeePerGas
  {
    seq(|ops|, i requires 0 <= i < |ops| => ops[i].maxPriorityFeePerGas)
  }

  function Caps(ops: seq<UserOp>): (r: seq<U256>)
    ensures |r| == |ops| && forall i :: 0 <= i < |ops| ==> r[i] == ops[i].maxFeePerGas
  {
    seq(|ops|, i requires 0 <= i < |ops| => ops[i].maxFeePerGas)
  }

  ghost predicate IsLeast(m: U256, xs: seq<U256>) {
    m in xs && forall x :: x in xs ==> m <= x
  }

  /** A slot is exact for `xs` when it is empty for no values and their minimum otherwise. */
  ghost predicate ExactMin(slot: Option<U256>, xs: seq<U256>) {
    if xs == [] then slot == None else slot.Some? && IsLeast(slot.value, xs)
  }

  lemma UpdateMinExact(slot: Option<U256>, xs: seq<U256>, x: U256)
    requires ExactMin(slot, xs)
    ensures ExactMin(UpdateMin(slot, x), xs + [x])
  {
    var m := UpdateMin(slot, x).value;
    assert (xs + [x])[|xs|] == x;
    if slot.Some? && m == slot.value {
      var k :| 0 <= k < |xs| && xs[k] == m;
      assert (xs + [x])[k] == m;
    }
  }

  ghost function LeastOf(xs: seq<U256>): (m: U256)
    requires xs != []
    ensures IsLeast(m, xs)
  {
    if |xs| == 1 then xs[0]
    else
      var rest := LeastOf(xs[1..]);
      assert xs == [xs[0]] + xs[1..];
      Min(xs[0], rest)
  }

  lemma LeastUnique(a: U256, b: U256, xs: seq<U256>)
    requires IsLeast(a, xs) && IsLeast(b, xs)
    ensures a == b
  {
  }

  /** The whole fee verdict on a non-empty batch. */
  ghost function BatchFees(c: Config, baseFee: U256, suggestedTip: U256, ops: seq<UserOp>):
    Result<OuterFees, BundlerError>
    requires ops != []
  {
    ChooseOuterFees(c, baseFee, suggestedTip, LeastOf(Tips(ops)), LeastOf(Caps(ops)))
  }

  ghost predicate PerOpPass(c: Config, baseFee: U256, ops: seq<UserOp>) {
    forall i :: 0 <= i < |ops| ==> CheckPerOpFees(c, i, ops[i], baseFee).Ok?
  }

  ghost predicate FeesAccept(c: Config, baseFee: U256, suggestedTip: U256, ops: seq<UserOp>) {
    ops != [] && PerOpPass(c, baseFee, ops) && BatchFees(c, baseFee, suggestedTip, ops).Ok?
  }

  /** An operation pays the policy exactly when its tip is at least the minimum and at most its
      cap, and the cap covers the base fee plus the minimum or is the largest word. */
  predicate PaysPolicy(c: Config, op: UserOp, baseFee: U256) {
    && c.minPriorityFee <= op.maxPriorityFeePerGas <= op.maxFeePerGas
    && (baseFee + c.minPriorityFee <= op.maxFeePerGas || op.maxFeePerGas == MAX_U256)
  }

  /** The per-op check, acceptance and each rejection, in the order of the code. */
  lemma PerOpFeesIff(c: Config, i: nat, op: UserOp, baseFee: U256)
    ensures var r := CheckPerOpFees(c, i, op, baseFee);
            var tip, cap, min := op.maxPriorityFeePerGas, op.maxFeePerGas, c.minPriorityFee;
            && (r.Ok? <==> PaysPolicy(c, op, baseFee))
            && (r == Err(InvalidUserOp(i, TipAboveCap)) <==> tip > cap)
            && (r == Err(PriorityFeeTooLow(i, tip, min)) <==> tip <= cap && tip < min)
            && (r == Err(FeeCapTooLow(i, cap, Min(baseFee + min, MAX_U256))) <==>
                min <= tip <= cap && cap < Min(baseFee + min, MAX_U256))
  {
  }

  // --- Reimbursement -------------------------------------------------------

  /** Effective gas price of the Specification section of EIP-1559. */
  function EffectiveGasPrice(maxFee: nat, maxTip: nat, baseFee: nat): nat
    requires baseFee <= maxFee
  {
    baseFee + Min(maxTip, maxFee - baseFee)
  }

  /** The price per unit of gas that caps `maxFee` and `maxTip` amount to at a base fee; it is
      what the EntryPoint charges an operation. */
  function PriceAt(maxFee: nat, maxTip: nat, baseFee: nat): nat {
    Min(maxFee, baseFee + maxTip)
  }

  /** For a transaction that can be mined at `baseFee`, the two readings coincide. */
  lemma PriceIsEffective(maxFee: nat, maxTip: nat, baseFee: nat)
    requires baseFee <= maxFee
    ensures PriceAt(maxFee, maxTip, baseFee) == EffectiveGasPrice(maxFee, maxTip, baseFee)
  {
  }

  /** At every base fee, the sequencer pays no more per gas than each operation of an accepted
      batch reimburses. */
  lemma NeverUnderReimbursed(c: Config, observedBase: U256, suggestedTip: U256, ops: seq<UserOp>, i: nat, b: nat)
    requires FeesAccept(c, observedBase, suggestedTip, ops) && i < |ops|
    ensures var f := BatchFees(c, observedBase, suggestedTip, ops).value;
            PriceAt(f.cap, f.tip, b) <= PriceAt(ops[i].maxFeePerGas, ops[i].maxPriorityFeePerGas, b)
  {
    assert Tips(ops)[i] in Tips(ops);
    assert Caps(ops)[i] in Caps(ops);
  }

  /** The outer fees are ordered, honour the configured minimum and cover the observed base fee. */
  lemma OuterFeesSane(c: Config, observedBase: U256, suggestedTip: U256, ops: seq<UserOp>)
    requires FeesAccept(c, observedBase, suggestedTip, ops)
    ensures var f := BatchFees(c, observedBase, suggestedTip, ops).value;
            && c.minPriorityFee <= f.tip <= f.cap
            && SatAdd(observedBase, f.tip) <= f.cap
            && (f.cap < MAX_U256 ==> observedBase + f.tip <= f.cap)
            && IsLeast(f.cap, Caps(ops))
            && (forall i :: 0 <= i < |ops| ==> f.tip <= ops[i].maxPriorityFeePerGas)
            && f.tip <= Max(c.minPriorityFee, suggestedTip)
            && (f.tip == Max(c.minPriorityFee, suggestedTip) || IsLeast(f.tip, Tips(ops)))
  {
    var f := BatchFees(c, observedBase, suggestedTip, ops).value;
    var k :| 0 <= k < |ops| && Caps(ops)[k] == f.cap;
    assert Tips(ops)[k] in Tips(ops);
    var j :| 0 <= j < |ops| && Tips(ops)[j] == LeastOf(Tips(ops));
    assert CheckPerOpFees(c, j, ops[j], observedBase).Ok? && CheckPerOpFees(c, k, ops[k], observedBase).Ok?;
    forall i | 0 <= i < |ops| ensures f.tip <= ops[i].maxPriorityFeePerGas {
      assert Tips(ops)[i] in Tips(ops);
    }
  }

  // --- Late rejection ------------------------------------------------------

  /** What the least cap is finally compared with, in unbounded arithmetic clipped to a word. */
  ghost function LateRequirement(c: Config, baseFee: U256, suggestedTip: U256, ops: seq<UserOp>): U256
    requires ops != []
  {
    Min(baseFee + Min(Max(c.minPriorityFee, suggestedTip), LeastOf(Tips(ops))), MAX_U256)
  }

  /** Once every operation passed, the outer choice fails exactly when some cap is below the
      base fee plus the desired tip, or plus the least tip where that is smaller; the error
      names the least cap and what it should have been. */
  lemma LateRejectionIff(c: Config, baseFee: U256, suggestedTip: U256, ops: seq<UserOp>)
    requires ops != [] && PerOpPass(c, baseFee, ops)
    ensures BatchFees(c, baseFee, suggestedTip, ops).Err? <==>
            exists i :: 0 <= i < |ops| &&
                        ops[i].maxFeePerGas < LateRequirement(c, baseFee, suggestedTip, ops)
    ensures BatchFees(c, baseFee, suggestedTip, ops).Err? ==>
              BatchFees(c, baseFee, suggestedTip, ops) ==
              Err(FeeCapTooLow(0xFFFF_FFFF_FFFF_FFFF, LeastOf(Caps(ops)),
                               LateRequirement(c, baseFee, suggestedTip, ops)))
  {
    var required := LateRequirement(c, baseFee, suggestedTip, ops);
    var k :| 0 <= k < |ops| && Caps(ops)[k] == LeastOf(Caps(ops));
    assert ops[k].maxFeePerGas == LeastOf(Caps(ops));
    forall i | 0 <= i < |ops| ensures LeastOf(Caps(ops)) <= ops[i].maxFeePerGas {
      assert Caps(ops)[i] in Caps(ops);
    }
  }

  /** A late rejection needs a suggested tip and every operation's tip above the minimum. */
  lemma LateRejectionCause(c: Config, baseFee: U256, suggestedTip: U256, ops: seq<UserOp>)
    requires ops != [] && PerOpPass(c, baseFee, ops)
    requires BatchFees(c, baseFee, suggestedTip, ops).Err?
    ensures suggestedTip > c.minPriorityFee
    ensures forall i :: 0 <= i < |ops| ==> ops[i].maxPriorityFeePerGas > c.minPriorityFee
  {
    var k :| 0 <= k < |ops| && Caps(ops)[k] == LeastOf(Caps(ops));
    assert CheckPerOpFees(c, k, ops[k], baseFee).Ok?;
    forall i | 0 <= i < |ops| ensures ops[i].maxPriorityFeePerGas > c.minPriorityFee {
      assert Tips(ops)[i] in Tips(ops);
    }
  }

  // --- Composition ---------------------------------------------------------

  lemma LeastOfConcat(xs: seq<U256>, ys: seq<U256>)
    requires xs != [] && ys != []
    ensures LeastOf(xs + ys) == Min(LeastOf(xs), LeastOf(ys))
  {
    LeastUnique(LeastOf(xs + ys), Min(LeastOf(xs), LeastOf(ys)), xs + ys);
  }

  lemma PassConcat(c: Config, baseFee: U256, a: seq<UserOp>, b: seq<UserOp>)
    ensures PerOpPass(c, baseFee, a + b) <==> PerOpPass(c, baseFee, a) && PerOpPass(c, baseFee, b)
  {
    if PerOpPass(c, baseFee, a + b) {
      PassIsByMember(c, baseFee, a + b, a);
      PassIsByMember(c, baseFee, a + b, b);
    }
    if PerOpPass(c, baseFee, a) && PerOpPass(c, baseFee, b) {
      forall i | 0 <= i < |a + b| ensures CheckPerOpFees(c, i, (a + b)[i], baseFee).Ok? {
        if i < |a| {
          assert CheckPerOpFees(c, i, a[i], baseFee).Ok?;
        } else {
          assert CheckPerOpFees(c, i - |a|, b[i - |a|], baseFee).Ok?;
        }
      }
    }
  }

  /** Exactly when a merged batch is accepted: each operation passes on its own, and the
      smaller cap covers the base fee plus the desired tip, or plus the smaller of the least tips. */
  lemma MergedVerdict(c: Config, baseFee: U256, suggestedTip: U256, a: seq<UserOp>, b: seq<UserOp>)
    requires a != [] && b != []
    ensures var tip := Min(Max(c.minPriorityFee, suggestedTip), Min(LeastOf(Tips(a)), LeastOf(Tips(b))));
            var cap := Min(LeastOf(Caps(a)), LeastOf(Caps(b)));
            && (FeesAccept(c, baseFee, suggestedTip, a + b) <==>
                PerOpPass(c, baseFee, a) && PerOpPass(c, baseFee, b) && SatAdd(baseFee, tip) <= cap)
            && (SatAdd(baseFee, tip) <= cap ==>
                  BatchFees(c, baseFee, suggestedTip, a + b) == Ok(OuterFees(tip, cap)))
  {
    assert Tips(a + b) == Tips(a) + Tips(b);
    assert Caps(a + b) == Caps(a) + Caps(b);
    LeastOfConcat(Tips(a), Tips(b));
    LeastOfConcat(Caps(a), Caps(b));
    PassConcat(c, baseFee, a, b);
  }

  /** Two accepted batches may be merged; the merged fees are the pairwise minima. */
  lemma AcceptanceComposes(c: Config, baseFee: U256, suggestedTip: U256, a: seq<UserOp>, b: seq<UserOp>)
    requires FeesAccept(c, baseFee, suggestedTip, a) && FeesAccept(c, baseFee, suggestedTip, b)
    ensures FeesAccept(c, baseFee, suggestedTip, a + b)
    ensures var fa, fb := BatchFees(c, baseFee, suggestedTip, a).value, BatchFees(c, baseFee, suggestedTip, b).value;
            BatchFees(c, baseFee, suggestedTip, a + b) == Ok(OuterFees(Min(fa.tip, fb.tip), Min(fa.cap, fb.cap)))
  {
    MergedVerdict(c, baseFee, suggestedTip, a, b);
  }

  /** An operation that bids `tip` and `cap`; everything else is empty. */
  function Bid(tip: U256, cap: U256): UserOp {
    UserOp(ZERO_ADDRESS, 0, [], None, [], [], 0, 0, 0, cap, tip, None, 0, 0, [], [], [])
  }

  /** The converse fails: a batch rejected alone is rescued by a companion that lowers the tip. */
  lemma MergeCanRescue(c: Config)
    requires c.minPriorityFee == 1
    ensures !FeesAccept(c, 9, 5, [Bid(5, 12)])
    ensures FeesAccept(c, 9, 5, [Bid(1, 10)] + [Bid(5, 12)])
  {
    assert LeastOf(Tips([Bid(1, 10)])) == 1 && LeastOf(Caps([Bid(1, 10)])) == 10;
    assert LeastOf(Tips([Bid(5, 12)])) == 5 && LeastOf(Caps([Bid(5, 12)])) == 12;
    MergedVerdict(c, 9, 5, [Bid(1, 10)], [Bid(5, 12)]);
  }

  lemma SameMembers(a: seq<UserOp>, b: seq<UserOp>)
    requires multiset(a) == multiset(b)
    ensures forall op :: op in a <==> op in b
  {
    forall op ensures op in a <==> op in b {
      assert op in a <==> op in multiset(a);
    }
  }

  /** Minima depend only on the set of operations. */
  lemma MinimaOfMembers(a: seq<UserOp>, b: seq<UserOp>)
    requires a != [] && b != [] && forall op :: op in a ==> op in b
    ensures LeastOf(Tips(b)) <= LeastOf(Tips(a)) && LeastOf(Caps(b)) <= LeastOf(Caps(a))
  {
    var i :| 0 <= i < |a| && Tips(a)[i] == LeastOf(Tips(a));
    var k :| 0 <= k < |a| && Caps(a)[k] == LeastOf(Caps(a));
    assert a[i] in b && a[k] in b;
    var i' :| 0 <= i' < |b| && b[i'] == a[i];
    var k' :| 0 <= k' < |b| && b[k'] == a[k];
    assert Tips(b)[i'] in Tips(b) && Caps(b)[k'] in Caps(b);
  }

  /** The order of a batch is irrelevant to its fee verdict and its fees. */
  lemma OrderIrrelevant(c: Config, baseFee: U256, suggestedTip: U256, a: seq<UserOp>, b: seq<UserOp>)
    requires multiset(a) == multiset(b) && a != []
    ensures b != []
    ensures BatchFees(c, baseFee, suggestedTip, a) == BatchFees(c, baseFee, suggestedTip, b)
    ensures FeesAccept(c, baseFee, suggestedTip, a) <==> FeesAccept(c, baseFee, suggestedTip, b)
  {
    SameMembers(a, b);
    assert a[0] in b;
    MinimaOfMembers(a, b);
    MinimaOfMembers(b, a);
    if PerOpPass(c, baseFee, a) {
      PassIsByMember(c, baseFee, a, b);
    }
    if PerOpPass(c, baseFee, b) {
      PassIsByMember(c, baseFee, b, a);
    }
  }

  lemma PassIsByMember(c: Config, baseFee: U256, a: seq<UserOp>, b: seq<UserOp>)
    requires PerOpPass(c, baseFee, a) && forall op :: op in b ==> op in a
    ensures PerOpPass(c, baseFee, b)
  {
    forall i | 0 <= i < |b| ensures CheckPerOpFees(c, i, b[i], baseFee).Ok? {
      assert b[i] in a;
      var k :| 0 <= k < |a| && a[k] == b[i];
      assert CheckPerOpFees(c, k, a[k], baseFee).Ok?;
    }
  }
}
