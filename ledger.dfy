/** The wallet's derived metrics: total spent, remaining budget and the
    progress-bar fraction. Nothing here is stored; everything is recomputed
    from the expense list and the budget on every render. */
module Ledger {
  import opened Lists

  /** One row of the expense history: `{"item": ..., "amount": ...}`. */
  datatype Expense = Expense(item: string, amount: int)

  /** Python's `sum([x['amount'] for x in expenses])`, accumulated front to back. */
  function Sum(xs: seq<Expense>): int
  {
    if |xs| == 0 then 0 else xs[0].amount + Sum(xs[1..])
  }

  /** Every recorded amount is strictly positive, as the add form's guard ensures. */
  predicate AllPositive(xs: seq<Expense>)
  {
    forall k :: 0 <= k < |xs| ==> xs[k].amount > 0
  }

  /** Summing a concatenation is summing the parts. */
  lemma {:induction false} SumConcat(a: seq<Expense>, b: seq<Expense>)
    ensures Sum(a + b) == Sum(a) + Sum(b)
  {
    if |a| == 0 {
      assert a + b == b;
    } else {
      assert (a + b)[1..] == a[1..] + b;
      SumConcat(a[1..], b);
    }
  }

  /** Appending an expense adds exactly its amount to the total. */
  lemma SumAppend(xs: seq<Expense>, e: Expense)
    ensures Sum(xs + [e]) == Sum(xs) + e.amount
  {
    SumConcat(xs, [e]);
  }

  /** Deleting the row at `i` takes exactly its amount off the total. */
  lemma SumRemoveAt(xs: seq<Expense>, i: nat)
    requires i < |xs|
    ensures Sum(RemoveAt(xs, i)) == Sum(xs) - xs[i].amount
  {
    var front, back := xs[..i], xs[i + 1..];
    var tail := [xs[i]] + back;
    assert xs == front + tail;
    assert tail[1..] == back;
    SumConcat(front, tail);
    SumConcat(front, back);
  }

  /** The total does not depend on the order in which expenses were logged. */
  lemma {:induction false} SumPermutation(a: seq<Expense>, b: seq<Expense>)
    requires multiset(a) == multiset(b)
    ensures Sum(a) == Sum(b)
    decreases |a|
  {
    if |a| == 0 {
      assert |b| == |multiset(b)| == 0;
    } else {
      var x := a[0];
      assert x in multiset(b);
      var j :| 0 <= j < |b| && b[j] == x;
      var rest := RemoveAt(b, j);
      assert a == [x] + a[1..];
      assert multiset(a) == multiset{x} + multiset(a[1..]);
      assert multiset(a[1..]) == multiset(a) - multiset{x};
      assert multiset(rest) == multiset(b) - multiset{x};
      SumPermutation(a[1..], rest);
      SumRemoveAt(b, j);
    }
  }

  /** With positive amounts the total is at least one per row, so never negative. */
  lemma {:induction false} SumAtLeastLength(xs: seq<Expense>)
    requires AllPositive(xs)
    ensures Sum(xs) >= |xs| >= 0
  {
    if |xs| > 0 {
      assert AllPositive(xs[1..]) by {
        forall k | 0 <= k < |xs| - 1 ensures xs[1..][k].amount > 0 {
          assert xs[1..][k] == xs[k + 1];
        }
      }
      SumAtLeastLength(xs[1..]);
    }
  }

  /** `total_budget - total_spent`, deliberately not clamped: a negative value
      is the overspend signal. */
  function Remaining(budget: int, spent: int): (r: int)
    ensures r < 0 <==> spent > budget
    ensures r + spent == budget
  {
    budget - spent
  }

  function Min(x: real, y: real): real
  {
    if x <= y then x else y
  }

  /** The progress bar: `min(1.0, spent / budget)` when the budget is positive,
      otherwise 0, so a zero or negative budget never divides. */
  function Progress(spent: int, budget: int): (r: real)
    ensures budget <= 0 ==> r == 0.0
    ensures r <= 1.0
    ensures budget > 0 && spent >= budget ==> r == 1.0
    ensures budget > 0 && spent < budget ==> r * budget as real == spent as real
    ensures budget > 0 && spent >= 0 ==> r >= 0.0
  {
    if budget > 0 then Min(1.0, spent as real / budget as real) else 0.0
  }
}
