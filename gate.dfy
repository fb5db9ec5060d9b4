/**
 * The call-gate returned by `times(count, fn)`: a closure over one counter
 * `i` that starts at 0. Every call increments `i`; the call that brings `i`
 * to `count` invokes `fn`; every call that brings `i` above `count` throws
 * `too many calls: <i> instead of <count>`.
 *
 * Invoking `fn` and throwing are made observable as the outcome of a call.
 */
module CallGate {

  /** What one call of the gate does: nothing, invoke `fn`, or throw. */
  datatype Outcome = Quiet | Fired | TooMany(calls: int, count: int)

  /** The outcome of the call that has just brought the counter to `i`. */
  function Step(i: int, count: int): Outcome
  {
    if i == count then Fired
    else if i > count then TooMany(i, count)
    else Quiet
  }

  /** The outcomes of the first `n` calls of a freshly created gate, in order. */
  function Trace(count: int, n: nat): (t: seq<Outcome>)
    ensures |t| == n
  {
    if n == 0 then [] else Trace(count, n - 1) + [Step(n, count)]
  }

  /** How many of the outcomes in `t` invoked `fn`. */
  function FireCount(t: seq<Outcome>): nat
  {
    if t == [] then 0
    else FireCount(t[..|t| - 1]) + (if t[|t| - 1].Fired? then 1 else 0)
  }

  /** The j-th call (0-based) sees the counter at j + 1, whatever came before. */
  lemma {:induction false} TraceAt(count: int, n: nat, j: nat)
    requires j < n
    ensures Trace(count, n)[j] == Step(j + 1, count)
  {
    if j < n - 1 {
      TraceAt(count, n - 1, j);
    }
  }

  /** A call invokes `fn` if and only if the counter after incrementing equals `count`. */
  lemma {:induction false} FiresIff(count: int, n: nat, j: nat)
    requires j < n
    ensures Trace(count, n)[j].Fired? <==> j + 1 == count
  {
    TraceAt(count, n, j);
  }

  /** A call that brings the counter above `count` throws, reporting the counter and `count`. */
  lemma {:induction false} TooManyReports(count: int, n: nat, j: nat)
    requires j < n
    ensures Trace(count, n)[j].TooMany? <==> j + 1 > count
    ensures j + 1 > count ==> Trace(count, n)[j] == TooMany(j + 1, count)
  {
    TraceAt(count, n, j);
  }

  /** Over any number of calls, `fn` is invoked at most once, and once exactly when the count is reached. */
  lemma {:induction false} FiresOnce(count: int, n: nat)
    ensures FireCount(Trace(count, n)) == if 1 <= count <= n then 1 else 0
  {
    if n > 0 {
      var t := Trace(count, n);
      assert t[..n - 1] == Trace(count, n - 1);
      FiresOnce(count, n - 1);
    }
  }

  /**
   * With count >= 1, `count` calls invoke `fn` exactly once, on the last of
   * them; every earlier call does nothing beyond counting.
   */
  lemma FiresOnLastCall(count: int)
    requires count >= 1
    ensures FireCount(Trace(count, count)) == 1
    ensures Trace(count, count)[count - 1] == Fired
    ensures forall j :: 0 <= j < count - 1 ==> Trace(count, count)[j] == Quiet
  {
    FiresOnce(count, count);
    forall j | 0 <= j < count
      ensures Trace(count, count)[j] == Step(j + 1, count)
    {
      TraceAt(count, count, j);
    }
  }

  /** With count == 0 the very first call throws and `fn` is never invoked. */
  lemma {:induction false} ZeroFailsAtOnce(n: nat)
    requires n >= 1
    ensures Trace(0, n)[0] == TooMany(1, 0)
    ensures FireCount(Trace(0, n)) == 0
  {
    TraceAt(0, n, 0);
    FiresOnce(0, n);
  }

  /** Once a call has thrown, every later call throws too and `fn` is never invoked again. */
  lemma FailureIsPermanent(count: int, n: nat, j: nat, k: nat)
    requires j <= k < n
    requires Trace(count, n)[j].TooMany?
    ensures Trace(count, n)[k].TooMany?
    ensures !Trace(count, n)[k].Fired?
  {
    TraceAt(count, n, j);
    TraceAt(count, n, k);
  }

  /** times(2, fn) called three times: nothing, then `fn`, then an error naming 3 and 2. */
  lemma CountTwoScenario()
    ensures Trace(2, 3) == [Quiet, Fired, TooMany(3, 2)]
  {
    TraceAt(2, 3, 0);
    TraceAt(2, 3, 1);
    TraceAt(2, 3, 2);
  }

  /** The closure returned by `times`: the captured counter and the target count. */
  class Gate {
    const count: int
    /** The captured counter, named as in the closure. */
    var i: nat
    /** The outcomes of all calls so far. */
    ghost var History: seq<Outcome>

    ghost predicate Valid()
      reads this
    {
      History == Trace(count, i)
    }

    /** times(count, fn): the counter starts at 0. */
    constructor (count: int)
      ensures Valid()
      ensures this.count == count && i == 0 && History == []
    {
      this.count := count;
      i := 0;
      History := [];
    }

    /** One call of the gate: increment, then invoke `fn` or throw as the counter says. */
    method Call() returns (o: Outcome)
      requires Valid()
      modifies this
      ensures Valid()
      ensures i == old(i) + 1
      ensures o.Fired? <==> i == count
      ensures o.TooMany? <==> i > count
      ensures o.TooMany? ==> o.calls == i && o.count == count
      ensures History == old(History) + [o]
    {
      i := i + 1;
      if i == count {
        o := Fired;
      } else if i > count {
        o := TooMany(i, count);
      } else {
        o := Quiet;
      }
      History := History + [o];
    }
  }
}
