/** Putting the results of a loop together: all values in order, or the first error. */
module Joining {
  import opened Types

  function Flatten<T>(parts: seq<seq<T>>): seq<T> {
    if parts == [] then [] else Flatten(parts[..|parts| - 1]) + parts[|parts| - 1]
  }

  function JoinAll<T, E>(rs: seq<Result<seq<T>, E>>): Result<seq<T>, E> {
    if rs == [] then Success([])
    else
      var (init, last) := (JoinAll(rs[..|rs| - 1]), rs[|rs| - 1]);
      if init.Failure? then init else if last.Failure? then last else Success(init.value + last.value)
  }

  lemma JoinOneMore<T, E>(rs: seq<Result<seq<T>, E>>, i: nat)
    requires i < |rs|
    ensures JoinAll(rs[..i + 1]) ==
            if JoinAll(rs[..i]).Failure? then JoinAll(rs[..i])
            else if rs[i].Failure? then rs[i]
            else Success(JoinAll(rs[..i]).value + rs[i].value)
  {
    assert rs[..i + 1][..i] == rs[..i];
  }

  lemma {:induction false} JoinFails<T, E>(rs: seq<Result<seq<T>, E>>, i: nat)
    requires i <= |rs| && JoinAll(rs[..i]).Failure?
    ensures JoinAll(rs) == JoinAll(rs[..i])
    decreases |rs| - i
  {
    if i < |rs| {
      JoinOneMore(rs, i);
      JoinFails(rs, i + 1);
    } else {
      assert rs[..i] == rs;
    }
  }

  lemma {:induction false} JoinParts<T, E>(rs: seq<Result<seq<T>, E>>, parts: seq<seq<T>>, error: E)
    requires |rs| == |parts|
    requires forall i :: 0 <= i < |rs| ==> rs[i] == Success(parts[i]) || rs[i] == Failure(error)
    ensures JoinAll(rs) ==
            if forall i :: 0 <= i < |rs| ==> rs[i].Success? then Success(Flatten(parts)) else Failure(error)
  {
    if rs != [] {
      var last := |rs| - 1;
      JoinParts(rs[..last], parts[..last], error);
    }
  }

  lemma {:induction false} FlattenSingles<T>(parts: seq<seq<T>>, xs: seq<T>)
    requires |parts| == |xs| && forall i :: 0 <= i < |xs| ==> parts[i] == [xs[i]]
    ensures Flatten(parts) == xs
  {
    if xs != [] {
      var last := |xs| - 1;
      FlattenSingles(parts[..last], xs[..last]);
      assert xs[..last] + [xs[last]] == xs;
    }
  }

  lemma Regroup<T>(a: seq<T>, b: seq<T>, c: seq<T>)
    ensures a + (b + c) == a + b + c
  {
  }
}
