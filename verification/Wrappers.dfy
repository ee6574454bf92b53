// Failure-carrying values shared by the models.
module Wrappers {
  datatype Option<+T> = None | Some(value: T)

  datatype Result<+T, +E> = Ok(value: T) | Err(error: E)

  /** What a loop raises that attempts everything and remembers the earliest failure. */
  function FirstFailure<T, E>(results: seq<Result<T, E>>): (r: Option<E>)
    ensures r.None? <==> forall i | 0 <= i < |results| :: results[i].Ok?
    ensures r.Some? ==> exists i | 0 <= i < |results| ::
      results[i].Err? && results[i].error == r.value && forall j | 0 <= j < i :: results[j].Ok?
  {
    if results == [] then None
    else if results[0].Err? then Some(results[0].error)
    else
      var rest := FirstFailure(results[1..]);
      assert forall j | 1 <= j < |results| :: results[j] == results[1..][j - 1];
      assert rest.Some? ==> exists i | 0 <= i < |results| ::
        results[i].Err? && results[i].error == rest.value && forall j | 0 <= j < i :: results[j].Ok? by {
        if rest.Some? {
          var k :| 0 <= k < |results[1..]| && results[1..][k].Err? && results[1..][k].error == rest.value
                   && forall j | 0 <= j < k :: results[1..][j].Ok?;
          assert forall j | 1 <= j < k + 1 :: results[j] == results[1..][j - 1];
          assert results[k + 1] == results[1..][k];
        }
      }
      rest
  }

  lemma FirstFailureSnoc<T, E>(results: seq<Result<T, E>>, r: Result<T, E>)
    ensures FirstFailure(results + [r]) ==
      if FirstFailure(results).Some? then FirstFailure(results) else if r.Err? then Some(r.error) else None
  {
    if results == [] {
      assert results + [r] == [r] && [r][1..] == [];
    } else {
      assert (results + [r])[1..] == results[1..] + [r];
      FirstFailureSnoc(results[1..], r);
    }
  }

  /** A number that is greater than all of these. */
  ghost function UnusedIn(used: set<nat>): (id: nat)
    ensures forall x | x in used :: x < id
  {
    if used == {} then 0 else
      var x :| x in used;
      var rest := UnusedIn(used - {x});
      assert forall y | y in used :: y == x || y in used - {x};
      if x < rest then rest else x + 1
  }
}
