/**
 * The singleton metaclass: every class created with `metaclass=Singleton`
 * gets its own `_instance` attribute, `None` at class creation, filled on the
 * first call of the class and returned by every later call.
 */
module Singleton {
  import opened Wrappers

  /**
   * `MyClass()` with arguments raises TypeError: the class defines neither
   * `__new__` nor `__init__`, so `object` rejects them.
   */
  datatype CallError = TypeError

  /** An instance of `MyClass`, the class that uses the metaclass. */
  class MyClass {
    constructor () {}
  }

  /** An instance of `MyClass2`, a plain class without the metaclass. */
  class MyClass2 {
    constructor () {}
  }

  /**
   * One `__call__` on the stored instance `stored`, with `argCount` call
   * arguments and `created` the object `type.__call__` would build: the new
   * value of `_instance` and what the call returns or raises.
   */
  function LazyCall<T>(stored: Option<T>, argCount: nat, created: T): (r: (Option<T>, Result<T, CallError>))
    ensures stored.Some? ==> r.0 == stored
    ensures r.1.Success? ==> r.0 == Some(r.1.value)
    ensures r.1.Failure? <==> stored.None? && argCount > 0
    ensures stored.None? && argCount == 0 ==> r.1 == Success(created)
  {
    match stored
    case Some(inst) => (stored, Success(inst))
    case None =>
      if argCount == 0 then (Some(created), Success(created)) else (None, Failure(TypeError))
  }

  /**
   * A sequence of calls from state `stored`, the i-th with `calls[i]`
   * (argument count, object that call would build): final state and the
   * outcome of every call.
   */
  function LazyCalls<T>(stored: Option<T>, calls: seq<(nat, T)>): (r: (Option<T>, seq<Result<T, CallError>>))
    ensures |r.1| == |calls|
    decreases |calls|
  {
    if calls == [] then (stored, [])
    else
      var (next, out) := LazyCall(stored, calls[0].0, calls[0].1);
      var (final, outs) := LazyCalls(next, calls[1..]);
      (final, [out] + outs)
  }

  /**
   * The per-class state the metaclass installs: `cls._instance`.
   * The constructor is `Singleton.__init__`, run when the class is created.
   */
  class Singleton {
    var instance: Option<MyClass>

    constructor ()
      ensures instance == None
    {
      instance := None;
    }

    /**
     * `Singleton.__call__`, i.e. `MyClass(*args)`: builds and stores a new
     * instance only while none is stored; afterwards returns the stored one
     * and ignores the arguments.
     */
    method Call(argCount: nat) returns (r: Result<MyClass, CallError>)
      modifies this
      ensures old(instance).None? && r.Success? ==> fresh(r.value)
      ensures r.Success? ==> (instance, r) == LazyCall(old(instance), argCount, r.value)
      ensures r.Failure? ==> old(instance).None? && argCount > 0 && instance == None && r == Failure(TypeError)
    {
      if instance.None? {
        if argCount == 0 {
          var created := new MyClass();
          instance := Some(created);
        } else {
          r := Failure(TypeError);
          return;
        }
      }
      r := Success(instance.value);
    }
  }

  /** A call that fails leaves no instance stored; the outcome of `LazyCall` on error. */
  lemma LazyCallFailure<T>(stored: Option<T>, argCount: nat, created: T)
    ensures LazyCall(stored, argCount, created).1.Failure? <==> stored.None? && argCount > 0
    ensures LazyCall(stored, argCount, created).1.Failure? ==> LazyCall(stored, argCount, created).0 == None
  {
  }

  /** Once `_instance` is set it never changes, whatever the arguments of the call. */
  lemma {:induction false} StoredNeverChanges<T>(inst: T, calls: seq<(nat, T)>)
    ensures LazyCalls(Some(inst), calls).0 == Some(inst)
    ensures forall i :: 0 <= i < |calls| ==> LazyCalls(Some(inst), calls).1[i] == Success(inst)
    decreases |calls|
  {
    if calls != [] {
      StoredNeverChanges(inst, calls[1..]);
    }
  }

  /**
   * Over any sequence of calls, every call that returns returns the same
   * object, and that object is the one stored at the end.
   */
  lemma {:induction false} SuccessfulCallsAgree<T>(stored: Option<T>, calls: seq<(nat, T)>, i: nat, j: nat)
    requires i < |calls| && j < |calls|
    requires LazyCalls(stored, calls).1[i].Success? && LazyCalls(stored, calls).1[j].Success?
    ensures LazyCalls(stored, calls).0.Some?
    ensures LazyCalls(stored, calls).1[i] == LazyCalls(stored, calls).1[j] == Success(LazyCalls(stored, calls).0.value)
    decreases |calls|
  {
    var (next, out) := LazyCall(stored, calls[0].0, calls[0].1);
    if next.Some? {
      StoredNeverChanges(next.value, calls[1..]);
    } else {
      assert out.Failure?;
      SuccessfulCallsAgree(next, calls[1..], i - 1, j - 1);
    }
  }

  /**
   * `main`: two calls of `MyClass()` give the same object; two calls of
   * `MyClass2()` give different objects; and a second class with the
   * metaclass has its own `_instance`, distinct from the first's.
   */
  method Demo() returns (m1: MyClass, m2: MyClass, m3: MyClass2, m4: MyClass2, other: MyClass)
    ensures m1 == m2
    ensures m3 != m4
    ensures other != m1
  {
    var myClass := new Singleton();
    var a := myClass.Call(0);
    var b := myClass.Call(0);
    m1, m2 := a.value, b.value;
    m3 := new MyClass2();
    m4 := new MyClass2();
    var anotherClass := new Singleton();
    var c := anotherClass.Call(0);
    other := c.value;
  }
}
