/** The deposit operations of one deposit: retry chains and the sums of money they carry. */
module Journal {
  import opened Domain
  import opened Deals

  /** What operation `i` still has to move: itself while waiting, or failed with no retry taking it over. */
  ghost function OpenAmount(ops: seq<Operation>, i: nat): nat
    requires i < |ops|
  {
    if ops[i].status == Waiting || (ops[i].status == Failed && !HasRetry(ops, i)) then ops[i].amount else 0
  }

  /** Money of the first `n` operations that is neither refunded nor released yet. */
  ghost function Outstanding(ops: seq<Operation>, n: nat): nat
    requires n <= |ops|
  {
    if n == 0 then 0 else Outstanding(ops, n - 1) + OpenAmount(ops, n - 1)
  }

  /** Money of the first `n` operations of a kind that the provider confirmed. */
  ghost function Credited(ops: seq<Operation>, kind: OpKind, n: nat): nat
    requires n <= |ops|
  {
    if n == 0 then 0
    else Credited(ops, kind, n - 1) +
         if ops[n - 1].kind == kind && ops[n - 1].status == Succeeded then ops[n - 1].amount else 0
  }

  /**
   * Retry chains: a retry points back at a failed operation of the same kind and amount, no operation
   * is retried twice, and of each settlement kind only the latest operation is not retried.
   */
  ghost predicate Chained(ops: seq<Operation>) {
    && (forall i | 0 <= i < |ops| && ops[i].retryOf.Some? ::
          var p := ops[i].retryOf.value;
          p < i && ops[p].kind == ops[i].kind && ops[p].amount == ops[i].amount && ops[p].status == Failed &&
          ops[i].key.RetryOf? && ops[i].key.operation == p)
    && (forall i | 0 <= i < |ops| && ops[i].retryOf.None? :: !ops[i].key.RetryOf?)
    && (forall i, j | 0 <= i < j < |ops| && ops[i].retryOf.Some? :: ops[i].retryOf != ops[j].retryOf)
    && (forall i, j | 0 <= i < j < |ops| && ops[i].kind == ops[j].kind :: HasRetry(ops, i) && ops[j].retryOf.Some?)
    && (forall i | 0 <= i < |ops| && ops[i].providerId.Some? :: ops[i].status == Succeeded)
  }

  /** Two states of one operation. */
  predicate SameOrder(op: Operation, other: Operation) {
    op.kind == other.kind && op.amount == other.amount && op.key == other.key && op.retryOf == other.retryOf
  }

  /** The same operations up to their lease fields. */
  ghost predicate SameMoney(ops: seq<Operation>, next: seq<Operation>) {
    |ops| == |next| &&
    forall i | 0 <= i < |ops| ::
      next[i].kind == ops[i].kind && next[i].amount == ops[i].amount && next[i].status == ops[i].status &&
      next[i].key == ops[i].key && next[i].retryOf == ops[i].retryOf && next[i].providerId == ops[i].providerId
  }

  /** A deposit that was only held moved nothing yet. */
  lemma OnlyHeld(ops: seq<Operation>)
    requires |ops| == 1 && ops[0].kind == HoldOp && ops[0].status == Succeeded
    ensures Outstanding(ops, 1) == 0 && Credited(ops, RefundOp, 1) == 0 && Credited(ops, ReleaseOp, 1) == 0
  {
    assert Outstanding(ops, 0) == 0 && Credited(ops, RefundOp, 0) == 0 && Credited(ops, ReleaseOp, 0) == 0;
  }

  lemma OutstandingChange(ops: seq<Operation>, next: seq<Operation>, n: nat, k: nat)
    requires k < n <= |ops| && n <= |next|
    requires forall i | 0 <= i < n && i != k :: OpenAmount(next, i) == OpenAmount(ops, i)
    ensures Outstanding(next, n) - OpenAmount(next, k) == Outstanding(ops, n) - OpenAmount(ops, k)
  {
    if n - 1 == k { OutstandingSame(ops, next, k); } else { OutstandingChange(ops, next, n - 1, k); }
  }

  lemma OutstandingSame(ops: seq<Operation>, next: seq<Operation>, n: nat)
    requires n <= |ops| && n <= |next|
    requires forall i | 0 <= i < n :: OpenAmount(next, i) == OpenAmount(ops, i)
    ensures Outstanding(next, n) == Outstanding(ops, n)
  {
    if n > 0 { OutstandingSame(ops, next, n - 1); }
  }

  lemma CreditedSame(ops: seq<Operation>, next: seq<Operation>, kind: OpKind, n: nat)
    requires n <= |ops| && n <= |next|
    requires forall i | 0 <= i < n ::
               (next[i].kind == kind && next[i].status == Succeeded) ==
                   (ops[i].kind == kind && ops[i].status == Succeeded) &&
               next[i].amount == ops[i].amount
    ensures Credited(next, kind, n) == Credited(ops, kind, n)
  {
    if n > 0 { CreditedSame(ops, next, kind, n - 1); }
  }

  /** Operation `k` turns from waiting to succeeded: exactly its kind is credited, by its amount. */
  lemma CreditedGain(ops: seq<Operation>, op: Operation, kind: OpKind, n: nat, k: nat)
    requires k < n <= |ops| && ops[k].status == Waiting
    requires op.status == Succeeded && op.kind == ops[k].kind && op.amount == ops[k].amount
    ensures Credited(ops[k := op], kind, n) == Credited(ops, kind, n) + if op.kind == kind then op.amount else 0
  {
    if n - 1 == k { CreditedSame(ops, ops[k := op], kind, k); } else { CreditedGain(ops, op, kind, n - 1, k); }
  }

  lemma OpenWithin(ops: seq<Operation>, n: nat, k: nat)
    requires k < n <= |ops|
    ensures OpenAmount(ops, k) <= Outstanding(ops, n)
  {
    if n - 1 != k { OpenWithin(ops, n - 1, k); }
  }

  /** Money left means some operation still carries it. */
  lemma SomeOpen(ops: seq<Operation>, n: nat) returns (k: nat)
    requires n <= |ops| && Outstanding(ops, n) > 0
    ensures k < n && OpenAmount(ops, k) > 0
  {
    if OpenAmount(ops, n - 1) > 0 { k := n - 1; } else { k := SomeOpen(ops, n - 1); }
  }

  lemma NoneOpen(ops: seq<Operation>, n: nat)
    requires n <= |ops| && forall i | 0 <= i < n :: OpenAmount(ops, i) == 0
    ensures Outstanding(ops, n) == 0
  {
    if n > 0 { NoneOpen(ops, n - 1); }
  }

  lemma SameRetries(ops: seq<Operation>, next: seq<Operation>, i: nat)
    requires |ops| == |next| && forall j | 0 <= j < |ops| :: next[j].retryOf == ops[j].retryOf
    ensures HasRetry(next, i) == HasRetry(ops, i)
  {
    if HasRetry(ops, i) {
      var j :| 0 <= j < |ops| && ops[j].retryOf == Some(i);
      assert next[j].retryOf == Some(i);
    }
  }

  lemma SameMoneyKeeps(ops: seq<Operation>, next: seq<Operation>)
    requires SameMoney(ops, next)
    ensures Chained(ops) ==> Chained(next)
    ensures Outstanding(next, |next|) == Outstanding(ops, |ops|)
    ensures forall kind :: Credited(next, kind, |next|) == Credited(ops, kind, |ops|)
  {
    forall i | 0 <= i < |ops| ensures HasRetry(next, i) == HasRetry(ops, i) { SameRetries(ops, next, i); }
    OutstandingSame(ops, next, |ops|);
    forall kind ensures Credited(next, kind, |next|) == Credited(ops, kind, |ops|) {
      CreditedSame(ops, next, kind, |ops|);
    }
  }

  /** What was retried had failed. */
  lemma Predecessor(ops: seq<Operation>, i: nat)
    requires Chained(ops) && HasRetry(ops, i)
    ensures i < |ops| && ops[i].status == Failed
  {
    var j :| 0 <= j < |ops| && ops[j].retryOf == Some(i);
    assert ops[j].retryOf.value == i;
  }

  /** Of two operations of a kind the earlier one failed and was retried. */
  lemma EarlierFailed(ops: seq<Operation>, i: nat, j: nat)
    requires Chained(ops) && i < j < |ops| && ops[i].kind == ops[j].kind
    ensures ops[i].status == Failed && HasRetry(ops, i)
  {
    Predecessor(ops, i);
  }

  /** Deciding a waiting operation keeps the chains; nobody had retried it. */
  lemma DecidedChained(ops: seq<Operation>, i: nat, op: Operation)
    requires Chained(ops) && i < |ops| && ops[i].status == Waiting
    requires op.status != Waiting && SameOrder(op, ops[i]) && (op.providerId.Some? ==> op.status == Succeeded)
    ensures Chained(ops[i := op])
    ensures forall j | 0 <= j < |ops| :: HasRetry(ops[i := op], j) == HasRetry(ops, j)
    ensures !HasRetry(ops, i)
  {
    var next := ops[i := op];
    forall j | 0 <= j < |ops| ensures HasRetry(next, j) == HasRetry(ops, j) { SameRetries(ops, next, j); }
    if HasRetry(ops, i) { Predecessor(ops, i); }
    hide HasRetry;
    assert forall j | 0 <= j < |ops| && j != i :: next[j] == ops[j];
  }

  /** A waiting operation is nobody's predecessor, so failing it moves no money. */
  lemma FailKeeps(ops: seq<Operation>, i: nat, op: Operation)
    requires Chained(ops) && i < |ops| && ops[i].status == Waiting
    requires op == ops[i].(status := Failed, processingUntil := None)
    ensures Chained(ops[i := op])
    ensures Outstanding(ops[i := op], |ops|) == Outstanding(ops, |ops|)
    ensures forall kind :: Credited(ops[i := op], kind, |ops|) == Credited(ops, kind, |ops|)
  {
    var next := ops[i := op];
    DecidedChained(ops, i, op);
    hide Chained, HasRetry;
    OutstandingSame(ops, next, |ops|);
    forall kind ensures Credited(next, kind, |next|) == Credited(ops, kind, |ops|) {
      CreditedSame(ops, next, kind, |ops|);
    }
  }

  /** A success moves the operation's amount from outstanding to credited. */
  lemma SuccessMoves(ops: seq<Operation>, i: nat, op: Operation)
    requires Chained(ops) && i < |ops| && ops[i].status == Waiting
    requires op.status == Succeeded && SameOrder(op, ops[i])
    ensures Chained(ops[i := op])
    ensures Outstanding(ops, |ops|) == Outstanding(ops[i := op], |ops|) + op.amount
    ensures forall kind ::
              Credited(ops[i := op], kind, |ops|) == Credited(ops, kind, |ops|) +
              if kind == op.kind then op.amount else 0
  {
    DecidedChained(ops, i, op);
    hide Chained, HasRetry;
    OutstandingChange(ops, ops[i := op], |ops|, i);
    forall kind
      ensures Credited(ops[i := op], kind, |ops|) == Credited(ops, kind, |ops|) +
              if kind == op.kind then op.amount else 0
    {
      CreditedGain(ops, op, kind, |ops|, i);
    }
  }

  lemma AppendRetries(ops: seq<Operation>, op: Operation, i: nat)
    ensures HasRetry(ops + [op], i) == (HasRetry(ops, i) || op.retryOf == Some(i))
  {
    var next := ops + [op];
    if HasRetry(ops, i) {
      var j :| 0 <= j < |ops| && ops[j].retryOf == Some(i);
      assert next[j].retryOf == Some(i);
    }
    assert next[|ops|] == op;
  }

  lemma RetryChained(ops: seq<Operation>, i: nat, op: Operation)
    requires Chained(ops) && i < |ops| && ops[i].status == Failed && !HasRetry(ops, i)
    requires op.status == Waiting && op.kind == ops[i].kind && op.amount == ops[i].amount && op.retryOf == Some(i)
    requires op.key.RetryOf? && op.key.operation == i && op.providerId.None?
    ensures Chained(ops + [op])
    ensures forall j :: HasRetry(ops + [op], j) == (HasRetry(ops, j) || j == i)
    ensures !HasRetry(ops, |ops|)
  {
    forall j ensures HasRetry(ops + [op], j) == (HasRetry(ops, j) || j == i) { AppendRetries(ops, op, j); }
    if HasRetry(ops, |ops|) { Predecessor(ops, |ops|); }
    assert forall j | 0 <= j < |ops| && ops[j].retryOf.Some? :: ops[j].retryOf != Some(i);
    hide HasRetry;
    forall j, k | 0 <= j < k < |ops + [op]| && (ops + [op])[j].kind == (ops + [op])[k].kind
      ensures HasRetry(ops + [op], j) && (ops + [op])[k].retryOf.Some?
    {
      if k == |ops| && j < i { assert HasRetry(ops, j); }
    }
  }

  /** A retry takes over exactly the money of the failed operation it repeats. */
  lemma RetryTakesOver(ops: seq<Operation>, i: nat, op: Operation)
    requires Chained(ops) && i < |ops| && ops[i].status == Failed && !HasRetry(ops, i)
    requires op.status == Waiting && op.kind == ops[i].kind && op.amount == ops[i].amount && op.retryOf == Some(i)
    requires op.key.RetryOf? && op.key.operation == i && op.providerId.None?
    ensures Chained(ops + [op])
    ensures Outstanding(ops + [op], |ops| + 1) == Outstanding(ops, |ops|)
    ensures forall kind :: Credited(ops + [op], kind, |ops| + 1) == Credited(ops, kind, |ops|)
  {
    var next := ops + [op];
    var n := |ops|;
    RetryChained(ops, i, op);
    hide Chained, HasRetry;
    OutstandingChange(ops, next, n, i);
    forall kind ensures Credited(next, kind, n + 1) == Credited(ops, kind, n) { CreditedSame(ops, next, kind, n); }
  }

  lemma RootChained(ops: seq<Operation>, op: Operation)
    requires Chained(ops) && forall i | 0 <= i < |ops| :: ops[i].kind != op.kind
    requires op.status == Waiting && op.retryOf.None? && !op.key.RetryOf? && op.providerId.None?
    ensures Chained(ops + [op])
    ensures forall j :: HasRetry(ops + [op], j) == HasRetry(ops, j)
    ensures !HasRetry(ops, |ops|)
  {
    var next := ops + [op];
    forall j ensures HasRetry(next, j) == HasRetry(ops, j) { AppendRetries(ops, op, j); }
    hide HasRetry;
    if HasRetry(ops, |ops|) { Predecessor(ops, |ops|); }
    forall i, j | 0 <= i < j < |next| && next[i].kind == next[j].kind
      ensures HasRetry(next, i) && next[j].retryOf.Some?
    {
      assert j < |ops|;
      assert HasRetry(ops, i);
    }
  }

  /** A first operation of its kind opens a chain. */
  lemma RootOpens(ops: seq<Operation>, op: Operation)
    requires Chained(ops) && forall i | 0 <= i < |ops| :: ops[i].kind != op.kind
    requires op.status == Waiting && op.retryOf.None? && !op.key.RetryOf? && op.providerId.None?
    ensures Chained(ops + [op])
    ensures Outstanding(ops + [op], |ops| + 1) == Outstanding(ops, |ops|) + op.amount
    ensures forall kind :: Credited(ops + [op], kind, |ops| + 1) == Credited(ops, kind, |ops|)
  {
    var next := ops + [op];
    RootChained(ops, op);
    hide Chained, HasRetry;
    OutstandingSame(ops, next, |ops|);
    forall kind ensures Credited(next, kind, |ops| + 1) == Credited(ops, kind, |ops|) {
      CreditedSame(ops, next, kind, |ops|);
    }
  }
}
