/** Even distribution of numbered loads over workers. */
module LoadBalance {
  import opened Common

  datatype Interval = Interval(start: nat, end: nat)

  /** The share of worker i: the quotient, and one more for the first `load % workers` workers. */
  function Size(workers: nat, load: nat, i: nat): nat
    requires workers > 0
  {
    load / workers + (if i < load % workers then 1 else 0)
  }

  /** Where the share of worker i starts. */
  function Start(workers: nat, load: nat, i: nat): nat
    requires workers > 0
  {
    if i == 0 then 0 else Start(workers, load, i - 1) + Size(workers, load, i - 1)
  }

  lemma {:induction false} StartFormula(workers: nat, load: nat, i: nat)
    requires workers > 0
    ensures Start(workers, load, i) ==
            i * (load / workers) + (if i < load % workers then i else load % workers)
  {
    if i > 0 {
      StartFormula(workers, load, i - 1);
      var q := load / workers;
      assert i * q == (i - 1) * q + q;
    }
  }

  lemma StartEnd(workers: nat, load: nat)
    requires workers > 0
    ensures Start(workers, load, workers) == load
  {
    StartFormula(workers, load, workers);
  }

  lemma {:induction false} StartGrows(workers: nat, load: nat, i: nat, j: nat)
    requires workers > 0 && i <= j
    ensures Start(workers, load, i) <= Start(workers, load, j)
    decreases j
  {
    if i < j { StartGrows(workers, load, i, j - 1); }
  }

  /** The largest share is the load divided by the workers, rounded up. */
  function CeilDiv(load: nat, workers: nat): nat
    requires workers > 0
  {
    (load + workers - 1) / workers
  }

  lemma CeilIsSize(workers: nat, load: nat)
    requires workers > 0
    ensures var top := CeilDiv(load, workers); var q := load / workers; var r := load % workers;
            if r == 0 then top == q && load - (top - 1) * workers == workers
            else top == q + 1 && load - (top - 1) * workers == r
  {
    var q, r := load / workers, load % workers;
    assert load == q * workers + r;
    if r == 0 {
      assert load + workers - 1 == q * workers + (workers - 1);
      Quotient(load + workers - 1, workers, q, workers - 1);
      assert (q - 1) * workers == q * workers - workers;
    } else {
      assert (q + 1) * workers == q * workers + workers;
      Quotient(load + workers - 1, workers, q + 1, r - 1);
    }
  }

  lemma Quotient(a: nat, b: nat, q: nat, r: nat)
    requires a == q * b + r && r < b
    ensures a / b == q
  {
    var d: int := a / b - q;
    assert a == (a / b) * b + a % b;
    assert d * b == (a / b) * b - q * b;
    assert d >= 1 ==> d * b >= b;
    assert d < 0 ==> d * b + b <= 0;
  }

  /** Contiguous intervals that cover exactly the loads 0 to n-1 and differ in size by at most one. With no
      workers there is nothing to return, and the program panics unless there is no load either. */
  method BalanceLoad(workers: nat, load: nat) returns (r: Option<seq<Interval>>)
    ensures r == None <==> workers == 0 && load > 0
    ensures r.Some? ==> |r.value| == workers
    ensures r.Some? ==> forall i :: 0 <= i < workers ==>
              r.value[i] == Interval(Start(workers, load, i), Start(workers, load, i + 1))
    ensures workers > 0 ==> Start(workers, load, workers) == load
  {
    if workers == 0 {
      // The rounded quotient is not a number here, and no worker uses it.
      if load > 0 {
        return None;
      }
      return Some([]);
    }
    var top := CeilDiv(load, workers);
    var withTop := load - (top as int - 1) * workers;
    CeilIsSize(workers, load);
    StartEnd(workers, load);
    var distribution: seq<Interval> := [];
    var index := 0;
    var i := 0;
    while i < workers
      invariant 0 <= i <= workers && |distribution| == i
      invariant index == Start(workers, load, i)
      invariant forall k :: 0 <= k < i ==>
                  distribution[k] == Interval(Start(workers, load, k), Start(workers, load, k + 1))
    {
      var share := if i < withTop then top as int else top - 1;
      assert share == Size(workers, load, i);
      var start := index;
      index := index + share;
      distribution := distribution + [Interval(start, index)];
      i := i + 1;
    }
    if index != load {
      return None;
    }
    r := Some(distribution);
  }

  /** Every load belongs to exactly one worker. */
  lemma {:induction false} OwnerExists(workers: nat, load: nat, p: nat, upto: nat) returns (i: nat)
    requires workers > 0 && p < Start(workers, load, upto)
    ensures i < upto && Start(workers, load, i) <= p < Start(workers, load, i + 1)
  {
    if p >= Start(workers, load, upto - 1) {
      i := upto - 1;
    } else {
      i := OwnerExists(workers, load, p, upto - 1);
    }
  }

  lemma OwnerUnique(workers: nat, load: nat, p: nat, i: nat, j: nat)
    requires workers > 0
    requires Start(workers, load, i) <= p < Start(workers, load, i + 1)
    requires Start(workers, load, j) <= p < Start(workers, load, j + 1)
    ensures i == j
  {
    if i < j { StartGrows(workers, load, i + 1, j); }
    if j < i { StartGrows(workers, load, j + 1, i); }
  }

  /** With at most as many workers as loads, no worker is idle, and shares differ by at most one. */
  lemma SharesAreEven(workers: nat, load: nat, i: nat, j: nat)
    requires workers > 0
    ensures Size(workers, load, i) <= Size(workers, load, j) + 1
    ensures workers <= load ==> Size(workers, load, i) >= 1
  {
  }
}
