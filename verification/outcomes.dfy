/** The bookkeeping shared by the batch loops: each item of a batch either yields a value or
    fails, and the loop keeps the values of the items that did not fail, in item order. */
module Outcomes {
  import opened Common

  /** The values of the items that succeeded, in item order: what a loop collects when it
      pushes each non-null result and skips the rest. */
  function Successes<T>(outs: seq<Option<T>>): (r: seq<T>)
    ensures |r| <= |outs|
    decreases |outs|
  {
    if outs == [] then []
    else
      Successes(outs[..|outs| - 1])
        + (match outs[|outs| - 1] case Some(x) => [x] case None => [])
  }

  /** Collecting over two batches one after the other is collecting over each: the values
      keep the items' order. */
  lemma {:induction false} SuccessesAppend<T>(a: seq<Option<T>>, b: seq<Option<T>>)
    ensures Successes(a + b) == Successes(a) + Successes(b)
    decreases |b|
  {
    if b == [] {
      assert a + b == a;
    } else {
      assert (a + b)[..|a + b| - 1] == a + b[..|b| - 1];
      SuccessesAppend(a, b[..|b| - 1]);
    }
  }

  /** One more item adds its value, if it has one, at the end. */
  lemma SuccessesSnoc<T>(outs: seq<Option<T>>, x: Option<T>)
    ensures Successes(outs + [x]) == Successes(outs) + (if x.Some? then [x.value] else [])
  {
    assert (outs + [x])[..|outs|] == outs;
  }

  /** A value is collected exactly when some item yielded it. */
  lemma {:induction false} SuccessesMember<T>(outs: seq<Option<T>>, x: T)
    ensures x in Successes(outs) <==> Some(x) in outs
    decreases |outs|
  {
    if outs != [] {
      var init := outs[..|outs| - 1];
      SuccessesMember(init, x);
      assert outs == init + [outs[|outs| - 1]];
    }
  }

  /** When every item succeeds, every value is collected, in item order. */
  lemma {:induction false} SuccessesAll<T>(outs: seq<Option<T>>)
    requires forall k :: 0 <= k < |outs| ==> outs[k].Some?
    ensures |Successes(outs)| == |outs|
    ensures forall k :: 0 <= k < |outs| ==> Successes(outs)[k] == outs[k].value
    decreases |outs|
  {
    if outs != [] {
      SuccessesAll(outs[..|outs| - 1]);
    }
  }

  /** When every item fails, nothing is collected. */
  lemma {:induction false} SuccessesNone<T>(outs: seq<Option<T>>)
    requires forall k :: 0 <= k < |outs| ==> outs[k].None?
    ensures Successes(outs) == []
    decreases |outs|
  {
    if outs != [] {
      SuccessesNone(outs[..|outs| - 1]);
    }
  }
}
