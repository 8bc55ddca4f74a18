/**
 * Lists gathered the way the discovery loops gather them: element by
 * element, in order, with the first exception ending the whole loop.
 */
module Outcomes {
  import opened Wrappers

  /** The values the successful outcomes hold, in order, or the first failure. */
  function Collect<T, E>(outs: seq<Result<Option<T>, E>>): (r: Result<seq<T>, E>)
    ensures r.Success? ==> |r.value| <= |outs|
    decreases |outs|
  {
    if outs == [] then Success([])
    else
      match Collect(outs[..|outs| - 1])
      case Failure(e) => Failure(e)
      case Success(list) =>
        match outs[|outs| - 1]
        case Failure(e) => Failure(e)
        case Success(None) => Success(list)
        case Success(Some(x)) => Success(list + [x])
  }

  /**
   * The values a loop acts on before the first failure stops it: all of
   * them when there is no failure.
   */
  function Sent<T, E>(outs: seq<Result<Option<T>, E>>): (r: seq<T>)
    ensures Collect(outs).Success? ==> r == Collect(outs).value
    decreases |outs|
  {
    if outs == [] then []
    else
      var init := outs[..|outs| - 1];
      if Collect(init).Failure? then Sent(init)
      else
        match outs[|outs| - 1]
        case Success(Some(x)) => Sent(init) + [x]
        case _ => Sent(init)
  }

  /** Once a prefix has failed, the rest does not matter. */
  lemma {:induction false} CollectStops<T, E>(outs: seq<Result<Option<T>, E>>, k: nat)
    requires k <= |outs| && Collect(outs[..k]).Failure?
    ensures Collect(outs) == Collect(outs[..k])
    ensures Sent(outs) == Sent(outs[..k])
    decreases |outs| - k
  {
    if k < |outs| {
      var init := outs[..|outs| - 1];
      assert init[..k] == outs[..k];
      CollectStops(init, k);
    } else {
      assert outs[..k] == outs;
    }
  }

  /** One more outcome: its value is appended, or its failure ends the whole gathering. */
  lemma CollectStep<T, E>(outs: seq<Result<Option<T>, E>>, i: nat)
    requires i < |outs| && Collect(outs[..i]).Success?
    ensures outs[i].Failure? ==> Collect(outs) == Failure(outs[i].error)
    ensures outs[i] == Success(None) ==> Collect(outs[..i + 1]) == Collect(outs[..i])
    ensures outs[i].Success? && outs[i].value.Some? ==>
      Collect(outs[..i + 1]) == Success(Collect(outs[..i]).value + [outs[i].value.value])
    ensures outs[i].Failure? ==> Sent(outs) == Sent(outs[..i])
    ensures outs[i].Success? ==>
      Sent(outs[..i + 1]) == Sent(outs[..i]) + (if outs[i].value.Some? then [outs[i].value.value] else [])
  {
    assert outs[..i + 1][..i] == outs[..i];
    if outs[i].Failure? {
      CollectStops(outs, i + 1);
    }
  }

  /** Gathering succeeds exactly when no outcome is a failure, and then holds exactly the values present. */
  lemma {:induction false} CollectMeaning<T, E>(outs: seq<Result<Option<T>, E>>)
    ensures Collect(outs).Success? <==> forall i :: 0 <= i < |outs| ==> outs[i].Success?
    ensures Collect(outs).Success? ==>
      forall x :: x in Collect(outs).value <==> exists i :: 0 <= i < |outs| && outs[i] == Success(Some(x))
    decreases |outs|
  {
    if outs != [] {
      var init := outs[..|outs| - 1];
      var last := outs[|outs| - 1];
      CollectMeaning(init);
      assert forall i :: 0 <= i < |init| ==> init[i] == outs[i];
      if Collect(outs).Success? {
        var list := Collect(init).value;
        forall x
          ensures x in Collect(outs).value <==> exists i :: 0 <= i < |outs| && outs[i] == Success(Some(x))
        {
          if x in list {
            var i :| 0 <= i < |init| && init[i] == Success(Some(x));
            assert outs[i] == Success(Some(x));
          }
          if last == Success(Some(x)) {
            assert outs[|outs| - 1] == Success(Some(x));
          }
        }
      }
    }
  }

  /** Every value acted on comes from an outcome that holds it. */
  lemma {:induction false} SentFrom<T, E>(outs: seq<Result<Option<T>, E>>, x: T)
    requires x in Sent(outs)
    ensures exists i :: 0 <= i < |outs| && outs[i] == Success(Some(x))
    decreases |outs|
  {
    var init := outs[..|outs| - 1];
    assert forall i :: 0 <= i < |init| ==> init[i] == outs[i];
    if x in Sent(init) {
      SentFrom(init, x);
      var i :| 0 <= i < |init| && init[i] == Success(Some(x));
      assert outs[i] == Success(Some(x));
    } else {
      assert outs[|outs| - 1] == Success(Some(x));
    }
  }

  /** When every outcome holds a value, gathering gives all of them, in order. */
  lemma {:induction false} CollectAllPresent<T, E>(outs: seq<Result<Option<T>, E>>)
    requires forall i :: 0 <= i < |outs| ==> outs[i].Success? && outs[i].value.Some?
    ensures Collect(outs).Success? && |Collect(outs).value| == |outs|
    ensures forall i :: 0 <= i < |outs| ==> Collect(outs).value[i] == outs[i].value.value
    decreases |outs|
  {
    if outs != [] {
      var init := outs[..|outs| - 1];
      assert forall i :: 0 <= i < |init| ==> init[i] == outs[i];
      CollectAllPresent(init);
    }
  }

  /** Among failing outcomes, gathering reports the first. */
  lemma {:induction false} CollectFirstFailure<T, E>(outs: seq<Result<Option<T>, E>>)
    requires Collect(outs).Failure?
    ensures exists k :: 0 <= k < |outs| && outs[k].Failure? && Collect(outs) == Failure(outs[k].error) &&
                        (forall i :: 0 <= i < k ==> outs[i].Success?)
    decreases |outs|
  {
    var init := outs[..|outs| - 1];
    var last := |outs| - 1;
    assert forall i :: 0 <= i < |init| ==> init[i] == outs[i];
    if Collect(init).Failure? {
      CollectFirstFailure(init);
      var k :| 0 <= k < |init| && init[k].Failure? && Collect(init) == Failure(init[k].error) &&
        forall i :: 0 <= i < k ==> init[i].Success?;
      assert outs[k] == init[k];
    } else {
      CollectMeaning(init);
      assert outs[last].Failure? && Collect(outs) == Failure(outs[last].error);
    }
  }

  /** The successful lists joined in order, or the first failure. */
  function Concat<T, E>(outs: seq<Result<seq<T>, E>>): (r: Result<seq<T>, E>)
    decreases |outs|
  {
    if outs == [] then Success([])
    else
      match Concat(outs[..|outs| - 1])
      case Failure(e) => Failure(e)
      case Success(list) =>
        match outs[|outs| - 1]
        case Failure(e) => Failure(e)
        case Success(more) => Success(list + more)
  }

  lemma {:induction false} ConcatStops<T, E>(outs: seq<Result<seq<T>, E>>, k: nat)
    requires k <= |outs| && Concat(outs[..k]).Failure?
    ensures Concat(outs) == Concat(outs[..k])
    decreases |outs| - k
  {
    if k < |outs| {
      var init := outs[..|outs| - 1];
      assert init[..k] == outs[..k];
      ConcatStops(init, k);
    } else {
      assert outs[..k] == outs;
    }
  }

  /** One more outcome: its list is appended, or its failure ends the whole join. */
  lemma ConcatStep<T, E>(outs: seq<Result<seq<T>, E>>, k: nat)
    requires k < |outs| && Concat(outs[..k]).Success?
    ensures outs[k].Failure? ==> Concat(outs) == Failure(outs[k].error)
    ensures outs[k].Success? ==> Concat(outs[..k + 1]) == Success(Concat(outs[..k]).value + outs[k].value)
  {
    assert outs[..k + 1][..k] == outs[..k];
    if outs[k].Failure? {
      ConcatStops(outs, k + 1);
    }
  }

  /** Joining succeeds exactly when every list was produced, and then holds exactly their elements. */
  lemma {:induction false} ConcatMeaning<T, E>(outs: seq<Result<seq<T>, E>>)
    ensures Concat(outs).Success? <==> forall k :: 0 <= k < |outs| ==> outs[k].Success?
    ensures Concat(outs).Success? ==>
      forall x :: x in Concat(outs).value <==> exists k :: 0 <= k < |outs| && outs[k].Success? && x in outs[k].value
    decreases |outs|
  {
    if outs != [] {
      var init := outs[..|outs| - 1];
      var last := outs[|outs| - 1];
      ConcatMeaning(init);
      assert forall k :: 0 <= k < |init| ==> init[k] == outs[k];
      if Concat(outs).Success? {
        var list := Concat(init).value;
        forall x
          ensures x in Concat(outs).value <==>
            exists k :: 0 <= k < |outs| && outs[k].Success? && x in outs[k].value
        {
          if x in list {
            var k :| 0 <= k < |init| && init[k].Success? && x in init[k].value;
            assert outs[k] == init[k];
          }
          if x in last.value {
            assert outs[|outs| - 1] == last;
          }
        }
      }
    }
  }
}
