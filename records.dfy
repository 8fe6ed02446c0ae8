/**
 * Transaction records as the `registros` query returns them, and the folds over a list of them that the
 * dashboard aggregation is built from.
 */
module Records {
  import opened Optional

  /**
   * The `tipo` column. The declared type allows only 'Entrada' and 'Saída', but the data comes straight
   * from the database, and the aggregation tests `tipo` against the two strings separately, so any other
   * stored string is kept as `Unrecognised`; its `raw` is then neither of the two declared strings.
   */
  datatype Kind = Entrada | Saida | Unrecognised(raw: string)

  /** One `registros` row. `createdAt` is the parsed `created_at` instant, in milliseconds. */
  datatype Transaction = Transaction(
    id: string,
    createdAt: int,
    description: string,
    category: Option<string>,
    kind: Kind,
    amount: Option<int>,
    userId: string)

  /** `valor || 0`. */
  function Amount(t: Transaction): int
  {
    OrZero(t.amount)
  }

  /** `tipo === 'Entrada'`. */
  predicate IsIncome(t: Transaction)
  {
    t.kind == Entrada
  }

  /** Everything that is not 'Entrada' is summed as an expense. */
  predicate IsExpense(t: Transaction)
  {
    t.kind != Entrada
  }

  /** `tipo === 'Saída'`, the filter used for the top expense categories. */
  predicate IsOutflow(t: Transaction)
  {
    t.kind == Saida
  }

  /** `Array.prototype.filter`: the records satisfying `p`, in their original order. */
  function Filter(ts: seq<Transaction>, p: Transaction -> bool): (r: seq<Transaction>)
    ensures |r| <= |ts|
  {
    if ts == [] then []
    else
      var kept := Filter(ts[..|ts| - 1], p);
      var t := ts[|ts| - 1];
      if p(t) then kept + [t] else kept
  }

  /** A record is kept by the filter exactly when it occurs in the input and satisfies `p`. */
  lemma {:induction false} FilterMembers(ts: seq<Transaction>, p: Transaction -> bool, t: Transaction)
    ensures t in Filter(ts, p) <==> t in ts && p(t)
  {
    if ts != [] {
      var init := ts[..|ts| - 1];
      assert ts == init + [ts[|ts| - 1]];
      FilterMembers(init, p, t);
    }
  }

  /** The sum of the amounts of `ts`, a missing amount counting as zero. */
  function Total(ts: seq<Transaction>): int
  {
    if ts == [] then 0 else Total(ts[..|ts| - 1]) + Amount(ts[|ts| - 1])
  }

  /** The effect of `ts` on a balance: incomes added, everything else subtracted. */
  function Net(ts: seq<Transaction>): int
  {
    if ts == [] then 0
    else
      var t := ts[|ts| - 1];
      Net(ts[..|ts| - 1]) + (if IsIncome(t) then Amount(t) else -Amount(t))
  }

  function Incomes(ts: seq<Transaction>): seq<Transaction>
  {
    Filter(ts, IsIncome)
  }

  function Expenses(ts: seq<Transaction>): seq<Transaction>
  {
    Filter(ts, IsExpense)
  }

  function Outflows(ts: seq<Transaction>): seq<Transaction>
  {
    Filter(ts, IsOutflow)
  }

  /** The last record of a list moves the income or the expense count and total, by its kind. */
  lemma KindLast(ts: seq<Transaction>)
    requires ts != []
    ensures var init, t := ts[..|ts| - 1], ts[|ts| - 1];
      && |Incomes(ts)| == |Incomes(init)| + (if IsIncome(t) then 1 else 0)
      && Total(Incomes(ts)) == Total(Incomes(init)) + (if IsIncome(t) then Amount(t) else 0)
      && |Expenses(ts)| == |Expenses(init)| + (if IsExpense(t) then 1 else 0)
      && Total(Expenses(ts)) == Total(Expenses(init)) + (if IsExpense(t) then Amount(t) else 0)
  {
    var init, t := ts[..|ts| - 1], ts[|ts| - 1];
    assert (Incomes(init) + [t])[..|Incomes(init)|] == Incomes(init);
    assert (Expenses(init) + [t])[..|Expenses(init)|] == Expenses(init);
  }

  lemma {:induction false} TotalConcat(a: seq<Transaction>, b: seq<Transaction>)
    ensures Total(a + b) == Total(a) + Total(b)
    decreases |b|
  {
    if b != [] {
      var b' := b[..|b| - 1];
      assert (a + b)[..|a + b| - 1] == a + b';
      TotalConcat(a, b');
    } else {
      assert a + b == a;
    }
  }

  lemma {:induction false} FilterConcat(a: seq<Transaction>, b: seq<Transaction>, p: Transaction -> bool)
    ensures Filter(a + b, p) == Filter(a, p) + Filter(b, p)
    decreases |b|
  {
    if b != [] {
      var b' := b[..|b| - 1];
      assert (a + b)[..|a + b| - 1] == a + b';
      FilterConcat(a, b', p);
    } else {
      assert a + b == a;
    }
  }

  /** Every record is either an income or an expense: the counts and the amounts split exactly. */
  lemma {:induction false} KindsPartition(ts: seq<Transaction>)
    ensures |Incomes(ts)| + |Expenses(ts)| == |ts|
    ensures Total(Incomes(ts)) + Total(Expenses(ts)) == Total(ts)
  {
    if ts != [] {
      var init := ts[..|ts| - 1];
      var t := ts[|ts| - 1];
      KindsPartition(init);
      if IsIncome(t) {
        assert Total(Incomes(init) + [t]) == Total(Incomes(init)) + Amount(t) by {
          assert (Incomes(init) + [t])[..|Incomes(init)|] == Incomes(init);
        }
      } else {
        assert Total(Expenses(init) + [t]) == Total(Expenses(init)) + Amount(t) by {
          assert (Expenses(init) + [t])[..|Expenses(init)|] == Expenses(init);
        }
      }
    }
  }

  /** Income total minus expense total is the record-by-record signed sum. */
  lemma {:induction false} IncomeMinusExpensesIsNet(ts: seq<Transaction>)
    ensures Total(Incomes(ts)) - Total(Expenses(ts)) == Net(ts)
  {
    if ts != [] {
      var init := ts[..|ts| - 1];
      var t := ts[|ts| - 1];
      IncomeMinusExpensesIsNet(init);
      if IsIncome(t) {
        assert (Incomes(init) + [t])[..|Incomes(init)|] == Incomes(init);
      } else {
        assert (Expenses(init) + [t])[..|Expenses(init)|] == Expenses(init);
      }
    }
  }

  /**
   * When every `tipo` is one of the two declared strings, the expense filter of the totals and the
   * 'Saída' filter of the top expense categories select the same records.
   */
  lemma {:induction false} RecognisedKindsAgree(ts: seq<Transaction>)
    requires forall t :: t in ts ==> t.kind == Entrada || t.kind == Saida
    ensures Expenses(ts) == Outflows(ts)
  {
    if ts != [] {
      var init := ts[..|ts| - 1];
      assert forall t :: t in init ==> t in ts;
      RecognisedKindsAgree(init);
    }
  }

  /**
   * A record of any other `tipo` counts as an expense but is left out of the 'Saída' ranking. A stored
   * 'Entrada' or 'Saída' is always `Entrada` or `Saida`, never `Unrecognised`.
   */
  lemma UnrecognisedKindSplits(t: Transaction)
    requires t.kind.Unrecognised? && t.kind.raw != "Entrada" && t.kind.raw != "Saída"
    ensures Expenses([t]) == [t] && Outflows([t]) == []
  {
    assert [t][..0] == [];
  }
}
