/** The safety gate between the agent's writes and the ledger. */
module Policy {
  import opened Prelude
  import opened Text
  import opened Domain
  import opened Ledger
  import opened Park
  import Evolution
  import Tools

  const DEFAULT_THRESHOLD: Centavos := 5_000_000
  const MAX_WRITES: nat := 5

  /** The configured threshold, or the default when it is unset or not positive. */
  function Threshold(configured: Option<Centavos>): (r: Centavos)
    ensures r > 0
  {
    if configured.Some? && configured.value > 0 then configured.value else DEFAULT_THRESHOLD
  }

  datatype Reason = RemovesAndChanges | RemovesData | TooMany(n: nat) | LargeAmount | LargeTotal

  datatype Verdict = Safe | NeedsConfirmation(reason: Reason) | Reject

  function Severity(v: Verdict): nat {
    match v
    case Safe => 0
    case NeedsConfirmation(_) => 1
    case Reject => 2
  }

  const SPEND_CUES: seq<string> :=
    ["spent", "bought", "paid", "ordered", "logged", "grab", "lunch", "dinner", "coffee"]

  predicate LooksLikeOneOff(content: string) {
    var text := Lower(content);
    && (exists i :: 0 <= i < |text| && IsDigit(text[i]))
    && (exists i :: 0 <= i < |SPEND_CUES| && Tools.HasInfix(text, SPEND_CUES[i]))
  }

  predicate IsOneOffMemory(w: WriteIntent) {
    w.SaveMemory? && LooksLikeOneOff(w.content)
  }

  predicate IsConstructive(w: WriteIntent) {
    InsertsTransaction(w) || w.EditLast? || w.CreateGoal? || w.EditGoal? || w.SetBudget? || w.AddRecurring?
    || w.EditRecurring? || w.Transfer?
  }

  /** The amount the gate sees in a write. */
  function CountedAmount(w: WriteIntent): Option<Centavos> {
    match w
    case Transaction(_, _, amount, _, _, _, _) => Some(amount)
    case GoalContribution(_, _, amount, _) => Some(amount)
    case Transfer(_, amount, _, _, _, _) => Some(amount)
    case EditLast(_, _, _, amount, _, _) => amount
    case SetBudget(_, _, limit) => Some(limit)
    case CreateGoal(_, _, target, _) => Some(target)
    case _ => None
  }

  function SaturatingAbs(a: int): int {
    if a == I64_MIN then I64_MAX else if a < 0 then -a else a
  }

  function SaturatingAdd(a: int, b: int): int {
    Max(I64_MIN, Min(I64_MAX, a + b))
  }

  /** The fold over the counted amounts, in the order of the writes. */
  function TotalAmount(ws: seq<WriteIntent>): int {
    if ws == [] then 0
    else
      var rest, last := TotalAmount(ws[..|ws| - 1]), CountedAmount(ws[|ws| - 1]);
      if last.Some? then SaturatingAdd(rest, SaturatingAbs(last.value)) else rest
  }

  function MaxAmount(ws: seq<WriteIntent>): Option<int> {
    if ws == [] then None
    else
      var rest, last := MaxAmount(ws[..|ws| - 1]), CountedAmount(ws[|ws| - 1]);
      if last.None? then rest
      else Some(Max(Or(rest, last.value), last.value))
  }

  /** classify_writes, with its checks in the source's order. */
  function Classify(ws: seq<WriteIntent>, threshold: int): Verdict {
    var ledger := LedgerPart(ws);
    if ledger == [] then Safe
    else if exists w :: w in ledger && IsOneOffMemory(w) then Reject
    else if exists w :: w in ledger && Evolution.IsDestructive(w) then
      NeedsConfirmation(if exists w :: w in ledger && IsConstructive(w) then RemovesAndChanges else RemovesData)
    else if |ledger| > MAX_WRITES then NeedsConfirmation(TooMany(|ledger|))
    else if MaxAmount(ws).Some? && MaxAmount(ws).value >= threshold then NeedsConfirmation(LargeAmount)
    else if TotalAmount(ws) >= threshold then NeedsConfirmation(LargeTotal)
    else Safe
  }

  // ---------------------------------------------------------------- texts and answers

  function Describe(w: WriteIntent): string {
    match w
    case Transaction(_, kind, _, _, _, _, _) => if kind == TxKind.Income then "log income" else "log expense"
    case GoalContribution(_, _, _, _) => "add to a goal"
    case EditLast(_, _, _, _, _, _) => "edit the last entry"
    case DeleteLast(_, _, _) => "delete the last entry"
    case CreateGoal(_, _, _, _) => "create a goal"
    case SetBudget(_, _, _) => "set a budget"
    case RemoveBudget(_, _) => "remove a budget"
    case EditGoal(_, _, _, _, _) => "edit a goal"
    case DeleteGoal(_, _) => "delete a goal"
    case SaveMemory(_, _, _) => "save a memory"
    case ForgetMemory(_, _) => "forget a memory"
    case AddRecurring(_, _) => "add a recurring reminder"
    case RemoveRecurring(_, _) => "remove a recurring reminder"
    case EditRecurring(_, _, _, _, _, _, _) => "edit a recurring reminder"
    case Transfer(_, _, _, _, _, _) => "move money between accounts"
    case SaveTurn(_, _, _) => "note the conversation"
    case OutboundReply(_, _, _, _) => "note the conversation"
    case ConsumeConfirmation(_, _) => "apply a confirmed action"
  }

  function JoinComma(ws: seq<WriteIntent>): string {
    if ws == [] then ""
    else if |ws| == 1 then Describe(ws[0])
    else Describe(ws[0]) + ", " + JoinComma(ws[1..])
  }

  function Summarize(ws: seq<WriteIntent>): string {
    JoinComma(LedgerPart(ws))
  }

  datatype Answer = Yes | No

  const YES_WORDS: seq<string> :=
    ["yes", "y", "yeah", "yep", "yup", "confirm", "confirmed", "ok", "okay", "sure", "go ahead", "do it", "proceed",
     "g", "sige", "oo"]
  const NO_WORDS: seq<string> :=
    ["no", "n", "nope", "cancel", "stop", "nvm", "nevermind", "never mind", "wag", "huwag", "dont"]

  function DropLeadingMarks(s: string): string {
    if s == "" || IsAlnum(s[0]) then s else DropLeadingMarks(s[1..])
  }

  function DropTrailingMarks(s: string): string {
    if s == "" || IsAlnum(s[|s| - 1]) then s else DropTrailingMarks(s[..|s| - 1])
  }

  /** confirm_reply: only a bare yes or no answers a pending question. */
  function ConfirmReply(text: string): Option<Answer> {
    var word := DropTrailingMarks(DropLeadingMarks(Lower(Trim(text))));
    if word in YES_WORDS then Some(Yes) else if word in NO_WORDS then Some(No) else None
  }

  // ---------------------------------------------------------------- sums over a batch, in any order

  /** What a write adds to the plain, unsaturated total. */
  function AmountWeight(w: WriteIntent): nat {
    if CountedAmount(w).Some? then SaturatingAbs(CountedAmount(w).value) else 0
  }

  function LedgerWeight(w: WriteIntent): nat {
    if IsBookkeeping(w) then 0 else 1
  }

  function Sum(f: WriteIntent -> nat, ws: seq<WriteIntent>): nat {
    if ws == [] then 0 else Sum(f, ws[..|ws| - 1]) + f(ws[|ws| - 1])
  }

  lemma {:induction false} SumConcat(f: WriteIntent -> nat, a: seq<WriteIntent>, b: seq<WriteIntent>)
    ensures Sum(f, a + b) == Sum(f, a) + Sum(f, b)
  {
    if b == [] {
      assert a + b == a;
    } else {
      assert (a + b)[..|a + b| - 1] == a + b[..|b| - 1];
      SumConcat(f, a, b[..|b| - 1]);
    }
  }

  lemma SumWithout(f: WriteIntent -> nat, b: seq<WriteIntent>, k: nat)
    requires k < |b|
    ensures var rest := b[..k] + b[k + 1..];
            multiset(b) == multiset(rest) + multiset{b[k]} && Sum(f, b) == Sum(f, rest) + f(b[k])
  {
    var x := [b[k]];
    assert b == b[..k] + x + b[k + 1..];
    SumConcat(f, b[..k], b[k + 1..]);
    SumConcat(f, b[..k], x);
    SumConcat(f, b[..k] + x, b[k + 1..]);
    assert x[..0] == [];
  }

  /** A batch containing another, in whatever order, weighs at least as much. */
  lemma {:induction false} SumMonotone(f: WriteIntent -> nat, a: seq<WriteIntent>, b: seq<WriteIntent>)
    requires multiset(a) <= multiset(b)
    ensures Sum(f, a) <= Sum(f, b)
    decreases |a|
  {
    if a != [] {
      var x, init := a[|a| - 1], a[..|a| - 1];
      assert a == init + [x];
      assert multiset(a) == multiset(init) + multiset{x};
      assert x in multiset(b);
      var k :| 0 <= k < |b| && b[k] == x;
      SumWithout(f, b, k);
      var rest := b[..k] + b[k + 1..];
      assert multiset(init) <= multiset(rest) by {
        forall y
          ensures multiset(init)[y] <= multiset(rest)[y]
        {
          assert multiset(a)[y] <= multiset(b)[y];
        }
      }
      SumMonotone(f, init, rest);
    }
  }

  /** Saturation happens once, at the top: the fold is the plain sum, capped. */
  lemma {:induction false} TotalIsCappedSum(ws: seq<WriteIntent>)
    ensures TotalAmount(ws) == Min(I64_MAX, Sum(AmountWeight, ws))
  {
    if ws != [] {
      TotalIsCappedSum(ws[..|ws| - 1]);
    }
  }

  lemma {:induction false} MaxBelowSum(ws: seq<WriteIntent>)
    ensures MaxAmount(ws).Some? ==> MaxAmount(ws).value <= Sum(AmountWeight, ws) && MaxAmount(ws).value <= I64_MAX
  {
    if ws != [] {
      MaxBelowSum(ws[..|ws| - 1]);
    }
  }

  /** The largest counted amount is a property of the multiset of writes. */
  lemma {:induction false} MaxIsLargest(ws: seq<WriteIntent>)
    ensures MaxAmount(ws).Some? <==> exists w :: w in ws && CountedAmount(w).Some?
    ensures MaxAmount(ws).Some? ==> exists w :: w in ws && CountedAmount(w) == MaxAmount(ws)
    ensures forall w :: w in ws && CountedAmount(w).Some? ==> CountedAmount(w).value <= MaxAmount(ws).value
  {
    if ws != [] {
      var init := ws[..|ws| - 1];
      MaxIsLargest(init);
      forall w | w in ws && CountedAmount(w).Some?
        ensures MaxAmount(ws).Some? && CountedAmount(w).value <= MaxAmount(ws).value
      {
        assert w in init || w == ws[|ws| - 1];
      }
      if MaxAmount(ws).Some? {
        if MaxAmount(ws) == MaxAmount(init) {
          var w :| w in init && CountedAmount(w) == MaxAmount(init);
          assert w in ws;
        } else {
          assert ws[|ws| - 1] in ws;
        }
      }
    }
  }

  lemma {:induction false} LedgerPartMembers(ws: seq<WriteIntent>)
    ensures forall w :: w in LedgerPart(ws) <==> w in ws && !IsBookkeeping(w)
  {
    if ws != [] {
      LedgerPartMembers(ws[1..]);
    }
  }

  lemma {:induction false} LedgerPartSize(ws: seq<WriteIntent>)
    ensures |LedgerPart(ws)| == Sum(LedgerWeight, ws)
  {
    if ws != [] {
      LedgerPartSize(ws[1..]);
      assert ws == [ws[0]] + ws[1..];
      SumConcat(LedgerWeight, [ws[0]], ws[1..]);
      assert [ws[0]][..0] == [];
      assert Sum(LedgerWeight, [ws[0]]) == LedgerWeight(ws[0]);
    }
  }

  // ---------------------------------------------------------------- what the verdict means

  /** A turn commits at once exactly when it stores no one-off memory, removes nothing, holds at most
      five ledger writes and its counted amounts add up to less than the threshold. The separate
      largest-amount check never decides anything the total does not. */
  lemma SafeIff(ws: seq<WriteIntent>, threshold: Centavos)
    requires threshold > 0
    ensures Classify(ws, threshold) == Safe
            <==> && (forall w :: w in ws ==> !IsOneOffMemory(w) && !Evolution.IsDestructive(w))
                 && |LedgerPart(ws)| <= MAX_WRITES
                 && Sum(AmountWeight, ws) < threshold
    ensures MaxAmount(ws).Some? && MaxAmount(ws).value >= threshold ==> TotalAmount(ws) >= threshold
  {
    LedgerPartMembers(ws);
    TotalIsCappedSum(ws);
    MaxBelowSum(ws);
    if LedgerPart(ws) == [] {
      NothingCounted(ws);
    }
    hide LedgerPart, TotalAmount, MaxAmount, Sum, LooksLikeOneOff;
  }

  lemma {:induction false} NothingCounted(ws: seq<WriteIntent>)
    requires forall w :: w in ws ==> IsBookkeeping(w)
    ensures Sum(AmountWeight, ws) == 0
  {
    if ws != [] {
      assert ws[|ws| - 1] in ws;
      NothingCounted(ws[..|ws| - 1]);
    }
  }

  lemma RejectIff(ws: seq<WriteIntent>, threshold: int)
    ensures Classify(ws, threshold) == Reject <==> exists w :: w in ws && IsOneOffMemory(w)
  {
    LedgerPartMembers(ws);
    hide LooksLikeOneOff, TotalAmount, MaxAmount;
  }

  /** Adding writes anywhere in a turn, in any order, never makes the verdict milder. */
  lemma VerdictIsMonotone(a: seq<WriteIntent>, b: seq<WriteIntent>, threshold: Centavos)
    requires threshold > 0 && multiset(a) <= multiset(b)
    ensures Severity(Classify(a, threshold)) <= Severity(Classify(b, threshold))
  {
    forall w | w in a
      ensures w in b
    {
      assert w in multiset(a);
      assert w in multiset(b);
    }
    SafeIff(a, threshold);
    SafeIff(b, threshold);
    RejectIff(a, threshold);
    RejectIff(b, threshold);
    SumMonotone(AmountWeight, a, b);
    SumMonotone(LedgerWeight, a, b);
    LedgerPartSize(a);
    LedgerPartSize(b);
    hide Classify, LedgerPart, Sum, IsOneOffMemory;
  }

  /** The verdict, reason included, does not depend on the order of the writes. */
  lemma VerdictIgnoresOrder(a: seq<WriteIntent>, b: seq<WriteIntent>, threshold: int)
    requires multiset(a) == multiset(b)
    ensures Classify(a, threshold) == Classify(b, threshold)
  {
    forall w
      ensures w in a <==> w in b
    {
      assert w in a <==> w in multiset(a);
      assert w in b <==> w in multiset(b);
    }
    SumMonotone(AmountWeight, a, b);
    SumMonotone(AmountWeight, b, a);
    SumMonotone(LedgerWeight, a, b);
    SumMonotone(LedgerWeight, b, a);
    TotalIsCappedSum(a);
    TotalIsCappedSum(b);
    LedgerPartSize(a);
    LedgerPartSize(b);
    LedgerPartMembers(a);
    LedgerPartMembers(b);
    SameMax(a, b);
    hide LedgerPart, TotalAmount, MaxAmount, Sum, IsOneOffMemory, IsConstructive;
    SameVerdict(a, b, threshold);
  }

  lemma SameMax(a: seq<WriteIntent>, b: seq<WriteIntent>)
    requires forall w :: w in a <==> w in b
    ensures MaxAmount(a) == MaxAmount(b)
  {
    MaxIsLargest(a);
    MaxIsLargest(b);
    hide MaxAmount;
  }

  /** The verdict reads a batch only through these five things. */
  lemma SameVerdict(a: seq<WriteIntent>, b: seq<WriteIntent>, threshold: int)
    requires forall w :: w in LedgerPart(a) <==> w in LedgerPart(b)
    requires |LedgerPart(a)| == |LedgerPart(b)| && MaxAmount(a) == MaxAmount(b) && TotalAmount(a) == TotalAmount(b)
    ensures Classify(a, threshold) == Classify(b, threshold)
  {
    hide LedgerPart, TotalAmount, MaxAmount, IsOneOffMemory, IsConstructive;
    assert LedgerPart(a) == [] <==> LedgerPart(b) == [];
  }

  /** Turns, replies and consumes never influence the verdict. */
  lemma VerdictIgnoresBookkeeping(ws: seq<WriteIntent>, threshold: int)
    ensures Classify(ws, threshold) == Classify(LedgerPart(ws), threshold)
  {
    LedgerPartIsIdempotent(ws);
    AmountsIgnoreBookkeeping(ws);
    SameVerdict(ws, LedgerPart(ws), threshold);
  }

  lemma AmountsIgnoreBookkeeping(ws: seq<WriteIntent>)
    ensures TotalAmount(ws) == TotalAmount(LedgerPart(ws)) && MaxAmount(ws) == MaxAmount(LedgerPart(ws))
  {
    LedgerPartMembers(ws);
    TotalIsCappedSum(ws);
    TotalIsCappedSum(LedgerPart(ws));
    SumIgnoresBookkeeping(ws);
    MaxIsLargest(ws);
    MaxIsLargest(LedgerPart(ws));
    hide LedgerPart, MaxAmount, TotalAmount, Sum;
    assert forall w :: w in ws && CountedAmount(w).Some? ==> w in LedgerPart(ws);
  }

  lemma {:induction false} SumIgnoresBookkeeping(ws: seq<WriteIntent>)
    ensures Sum(AmountWeight, LedgerPart(ws)) == Sum(AmountWeight, ws)
  {
    if ws != [] {
      var x := [ws[0]];
      SumIgnoresBookkeeping(ws[1..]);
      assert ws == x + ws[1..];
      SumConcat(AmountWeight, x, ws[1..]);
      SumConcat(AmountWeight, x, LedgerPart(ws[1..]));
      assert x[..0] == [];
      assert [] + LedgerPart(ws[1..]) == LedgerPart(ws[1..]);
      assert IsBookkeeping(ws[0]) ==> Sum(AmountWeight, x) == 0;
    }
  }

  // ---------------------------------------------------------------- how far the amount gate reaches

  /** The amount a write asks the ledger to store, counted by the gate or not. */
  function StatedAmount(w: WriteIntent): Option<Centavos> {
    match w
    case EditGoal(_, _, _, target, _) => target
    case AddRecurring(_, r) => Some(r.amount)
    case EditRecurring(_, _, amount, _, _, _, _) => amount
    case _ => CountedAmount(w)
  }

  /** A single create or edit that states an amount at or above the threshold is held for confirmation,
      as documented, exactly when it is neither a goal edit nor a recurring item: those are not counted. */
  lemma LargeAmountIsHeldIff(w: WriteIntent, threshold: Centavos)
    requires threshold > 0 && StatedAmount(w).Some? && StatedAmount(w).value >= threshold
    ensures Classify([w], threshold).NeedsConfirmation? <==> !(w.EditGoal? || w.AddRecurring? || w.EditRecurring?)
  {
    SafeIff([w], threshold);
    RejectIff([w], threshold);
    assert [w][..0] == [];
    assert Sum(AmountWeight, [w]) == AmountWeight(w);
    assert [w][1..] == [];
    assert w in [w];
    hide Classify, LooksLikeOneOff;
  }
}
