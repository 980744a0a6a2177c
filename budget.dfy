/** The per-worker task budget (bashtasks/executor.py, `tasks_nr_generator`):
    a generator over a mutable counter that counts down to 0 and stays
    there, or never moves when it starts at 0 or below. */
module Budget {

  /** One pass of the generator's loop body. */
  function Step(n: int): (m: int)
    ensures m <= n
    ensures m == n <==> n <= 0
    ensures n >= 0 ==> m >= 0
  {
    if n > 0 then n - 1 else n
  }

  /** The value the k-th `next()` yields on a generator started at `n`
      (`Remaining(n, 0)` is the starting value, never yielded). */
  function Remaining(n: int, k: nat): (r: int)
    ensures r <= n
    ensures n >= 0 ==> r >= 0
    ensures n <= 0 ==> r == n
    decreases k
  {
    if k == 0 then n else Step(Remaining(n, k - 1))
  }

  /** Closed form of the budget: a positive start counts down by one per
      message and then stays at 0; a start at 0 or below never changes. */
  lemma {:induction false} RemainingClosedForm(n: int, k: nat)
    ensures Remaining(n, k) == if n <= 0 then n else if k <= n then n - k else 0
  {
    if k > 0 {
      RemainingClosedForm(n, k - 1);
    }
  }

  /** From n > 0 the budget never goes below 0 and first yields 0 after the
      n-th message, so the stop fires exactly after the n-th message. */
  lemma PositiveBudgetStopsAfterN(n: int, k: nat)
    requires n > 0
    ensures Remaining(n, k) >= 0
    ensures Remaining(n, k) == 0 <==> k >= n
  {
    RemainingClosedForm(n, k);
  }

  /** A budget of 0 yields 0 at once (the first message stops the pool); a
      negative budget is never 0 (unbounded). */
  lemma NonPositiveBudgetIsConstant(n: int, k: nat)
    requires n <= 0
    ensures Remaining(n, k) == n
    ensures n < 0 ==> Remaining(n, k) != 0
  {
    RemainingClosedForm(n, k);
  }

  /** The generator object: `current` is the local `tasks_nr_gen`. */
  class TaskBudget {
    var current: int
    ghost const initial: int
    ghost var taken: nat

    ghost predicate Valid()
      reads this
    {
      current == Remaining(initial, taken)
    }

    /** `tasks_nr_generator(tasks_nr)` */
    constructor (tasksNr: int)
      ensures Valid() && initial == tasksNr && taken == 0 && current == tasksNr
    {
      current := tasksNr;
      initial := tasksNr;
      taken := 0;
    }

    /** `next(gen)`: run the loop body once and yield the counter. */
    method Next() returns (v: int)
      requires Valid()
      modifies this
      ensures Valid() && taken == old(taken) + 1
      ensures v == current && v == Remaining(initial, taken)
    {
      current := if current > 0 then current - 1 else current;
      taken := taken + 1;
      v := current;
    }
  }
}
