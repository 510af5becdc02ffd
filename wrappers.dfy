/** Option and Result, the two failure-carrying datatypes of the model.
    `Err` stands for a Python exception that propagates out of a call. */
module Wrappers {

  datatype Option<+T> = None | Some(value: T)

  datatype Result<+T> = Ok(value: T) | Err(reason: string)

  /** Running steps in order: every value if all succeed, otherwise the
      first failure (the exception that stops a loop). */
  function Collect<T>(rs: seq<Result<T>>): (r: Result<seq<T>>)
    ensures r.Ok? ==> |r.value| == |rs|
  {
    if rs == [] then Ok([])
    else match rs[0]
      case Err(e) => Err(e)
      case Ok(x) =>
        match Collect(rs[1..])
        case Err(e) => Err(e)
        case Ok(xs) => Ok([x] + xs)
  }

  /** Collecting succeeds exactly when every step does, and then keeps
      each step's value at its place. */
  lemma {:induction false} CollectAll<T>(rs: seq<Result<T>>)
    ensures var r := Collect(rs);
      && (r.Ok? ==> forall i :: 0 <= i < |rs| ==> rs[i] == Ok(r.value[i]))
      && (r.Err? <==> exists i :: 0 <= i < |rs| && rs[i].Err?)
  {
    if rs != [] {
      CollectAll(rs[1..]);
      assert forall i :: 1 <= i < |rs| ==> rs[i] == rs[1..][i - 1];
    }
  }

  /** One more successful step extends the values; a failing one stops. */
  lemma {:induction false} CollectAppend<T>(rs: seq<Result<T>>, x: Result<T>)
    requires Collect(rs).Ok?
    ensures Collect(rs + [x]) ==
      match x
      case Err(e) => Err(e)
      case Ok(v) => Ok(Collect(rs).value + [v])
  {
    if rs == [] {
      assert rs + [x] == [x] && [x][1..] == [];
      if x.Ok? {
        assert [x.value] + [] == [] + [x.value];
      }
    } else {
      assert (rs + [x])[0] == rs[0];
      assert (rs + [x])[1..] == rs[1..] + [x];
      CollectAppend(rs[1..], x);
      if x.Ok? {
        var head := rs[0].value;
        var tail := Collect(rs[1..]).value;
        assert [head] + (tail + [x.value]) == ([head] + tail) + [x.value];
      }
    }
  }

  /** A failure among the first `n` steps is the failure of the whole run. */
  lemma {:induction false} CollectPrefixErr<T>(rs: seq<Result<T>>, n: nat)
    requires 0 < n <= |rs|
    requires Collect(rs[..n]).Err?
    ensures Collect(rs) == Collect(rs[..n])
    decreases n
  {
    assert rs[..n][0] == rs[0];
    assert rs[..n][1..] == rs[1..][..n - 1];
    if rs[0].Ok? && 1 < n {
      CollectPrefixErr(rs[1..], n - 1);
    }
  }
}
