/**
 * The object pool: `ReusablePool` keeps a Python list of pre-created
 * `Reusable` objects and uses it as a LIFO stack. `acquire` is `list.pop()`
 * and `release` is `list.append`, with no locking, no bound and no check of
 * what is handed back.
 */
module ObjectPool {
  import opened Wrappers

  /** The exception `list.pop()` raises on an empty list (IndexError). */
  datatype PoolError = PopFromEmptyList

  /** No two positions of `s` hold the same object. */
  predicate Distinct<T(==)>(s: seq<T>) {
    forall i, j :: 0 <= i < j < |s| ==> s[i] != s[j]
  }

  /**
   * `list.pop()` on a value: the last element and the list without it,
   * or IndexError when the list is empty.
   */
  function Pop<T>(s: seq<T>): (r: Result<(T, seq<T>), PoolError>)
    ensures r.Failure? <==> s == []
    ensures r.Success? ==> r.value.1 + [r.value.0] == s
  {
    if s == [] then Failure(PopFromEmptyList) else Success((s[|s| - 1], s[..|s| - 1]))
  }

  /** `list.append(x)` on a value. */
  function Append<T>(s: seq<T>, x: T): (r: seq<T>)
    ensures |r| == |s| + 1 && r[..|s|] == s && r[|s|] == x
  {
    s + [x]
  }

  /** The pooled object. Its only behaviour, `do_task`, prints. */
  class Reusable {
    constructor () {}
  }

  class ReusablePool {
    /** `_reusables`: the idle objects, the top of the stack last. */
    var reusables: seq<Reusable>

    /**
     * `[Reusable() for _ in range(size)]`: `size` new, pairwise distinct
     * objects; a negative `size` gives an empty range, hence an empty pool.
     */
    constructor (size: int)
      ensures |reusables| == if size < 0 then 0 else size
      ensures Distinct(reusables)
      ensures forall k :: 0 <= k < |reusables| ==> fresh(reusables[k])
    {
      var objs: seq<Reusable> := [];
      var i := 0;
      while i < size
        invariant |objs| == if i < 0 then 0 else i
        invariant i <= size || i == 0
        invariant Distinct(objs)
        invariant forall k :: 0 <= k < |objs| ==> fresh(objs[k])
      {
        var o := new Reusable();
        objs := objs + [o];
        i := i + 1;
      }
      reusables := objs;
    }

    /**
     * `acquire`: pops the most recently added object. On an empty pool
     * `pop` raises and the list is left as it was.
     */
    method Acquire() returns (r: Result<Reusable, PoolError>)
      modifies this
      ensures old(reusables) == [] ==> r == Failure(PopFromEmptyList) && reusables == old(reusables)
      ensures old(reusables) != [] ==> r.Success? && Pop(old(reusables)) == Success((r.value, reusables))
    {
      if reusables == [] {
        r := Failure(PopFromEmptyList);
      } else {
        r := Success(reusables[|reusables| - 1]);
        reusables := reusables[..|reusables| - 1];
      }
    }

    /**
     * `release`: appends whatever it is given, without asking whether the
     * object came from this pool or is already in it.
     */
    method Release(reusable: Reusable)
      modifies this
      ensures reusables == Append(old(reusables), reusable)
    {
      reusables := reusables + [reusable];
    }
  }

  /** Releasing an object and acquiring straight after returns that object and restores the pool. */
  method ReleaseThenAcquire(pool: ReusablePool, x: Reusable) returns (r: Result<Reusable, PoolError>)
    modifies pool
    ensures r == Success(x) && pool.reusables == old(pool.reusables)
  {
    ghost var before := pool.reusables;
    pool.Release(x);
    PopAfterAppend(before, x);
    r := pool.Acquire();
  }

  /** LIFO on values: a pop right after an append undoes it. */
  lemma PopAfterAppend<T>(s: seq<T>, x: T)
    ensures Pop(Append(s, x)) == Success((x, s))
  {
  }

  /**
   * `release` checks nothing: handing back an object that is already idle
   * grows the pool past what it held and leaves a duplicate in it.
   */
  lemma ReleaseOfIdleDuplicates<T>(s: seq<T>, x: T)
    requires x in s
    ensures |Append(s, x)| == |s| + 1
    ensures !Distinct(Append(s, x))
  {
  }

  // ---------------------------------------------------------------------
  // A client that only hands back what it holds.

  /** A client's request: `acquire()` or `release(obj)`. */
  datatype Op<T> = Acquire | Release(obj: T)

  /** The idle list of the pool and the objects the client currently holds. */
  datatype World<T> = World(pool: seq<T>, held: set<T>)

  /**
   * Whether `op` may be issued: `acquire` needs a non-empty pool (otherwise
   * `pop` raises), and a disciplined client releases only an object it holds.
   */
  predicate Allowed<T>(w: World<T>, op: Op<T>) {
    match op
    case Acquire => w.pool != []
    case Release(x) => x in w.held
  }

  /** The effect of one allowed request: the pool changes by Pop or Append. */
  function Apply<T>(w: World<T>, op: Op<T>): (w': World<T>)
    requires Allowed(w, op)
    ensures op.Acquire? ==> Pop(w.pool) == Success((w.pool[|w.pool| - 1], w'.pool))
    ensures op.Release? ==> w'.pool == Append(w.pool, op.obj)
  {
    match op
    case Acquire =>
      var (x, rest) := Pop(w.pool).value;
      World(rest, w.held + {x})
    case Release(x) =>
      World(Append(w.pool, x), w.held - {x})
  }

  /**
   * Runs a sequence of requests; `None` as soon as one of them is not allowed
   * (an acquire that would raise, or the release of an object not held).
   */
  function Run<T>(w: World<T>, ops: seq<Op<T>>): Option<World<T>>
    decreases |ops|
  {
    if ops == [] then Some(w)
    else if !Allowed(w, ops[0]) then None
    else Run(Apply(w, ops[0]), ops[1..])
  }

  /**
   * What a disciplined client keeps true: idle objects are distinct, none
   * of them is held, and idle plus held objects number the initial size.
   */
  predicate Conserved<T>(w: World<T>, n: nat) {
    && Distinct(w.pool)
    && (forall k :: 0 <= k < |w.pool| ==> w.pool[k] !in w.held)
    && |w.pool| + |w.held| == n
  }

  /** One allowed request keeps `Conserved`. */
  lemma ApplyConserves<T>(w: World<T>, op: Op<T>, n: nat)
    requires Conserved(w, n) && Allowed(w, op)
    ensures Conserved(Apply(w, op), n)
  {
  }

  /**
   * Starting from a freshly built pool of `n` distinct objects and holding
   * nothing, every run of allowed requests keeps the idle objects distinct
   * and `|pool| + |held| == n`.
   */
  lemma {:induction false} RunConserves<T>(w: World<T>, ops: seq<Op<T>>, n: nat)
    requires Conserved(w, n)
    requires Run(w, ops).Some?
    ensures Conserved(Run(w, ops).value, n)
    decreases |ops|
  {
    if ops != [] {
      ApplyConserves(w, ops[0], n);
      RunConserves(Apply(w, ops[0]), ops[1..], n);
    }
  }

  /** A freshly constructed pool (distinct objects, none held) is conserved at its size. */
  lemma FreshPoolConserved<T>(s: seq<T>)
    requires Distinct(s)
    ensures Conserved(World(s, {}), |s|)
  {
  }
}
