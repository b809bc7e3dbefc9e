/**
 * The two loop shapes the converter uses over and over: "append one converted
 * entry per source entry" and the same where a conversion may raise. Both are
 * defined by recursion on the LAST element, so that a loop over `s[..i]` is
 * one unfolding away from its invariant.
 */
module Folds {
  import opened Results

  /** One `f(x)` per element `x`, in the same order. */
  function MapAll<A, B>(s: seq<A>, f: A -> B): (r: seq<B>)
    ensures |r| == |s|
    ensures forall i :: 0 <= i < |s| ==> r[i] == f(s[i])
  {
    if s == [] then [] else MapAll(s[..|s| - 1], f) + [f(s[|s| - 1])]
  }

  /**
   * Converts every element in order and stops at the first one that raises:
   * the whole conversion fails exactly when some element fails, and then with
   * the error of the earliest failing element.
   */
  function TraverseAll<A, B, E>(s: seq<A>, f: A -> Result<B, E>): (r: Result<seq<B>, E>)
    ensures r.Ok? <==> forall i :: 0 <= i < |s| ==> f(s[i]).Ok?
    ensures r.Ok? ==> |r.value| == |s| && forall i :: 0 <= i < |s| ==> r.value[i] == f(s[i]).value
    ensures r.Err? ==> exists k :: 0 <= k < |s| && f(s[k]) == Err(r.error) &&
                                   forall j :: 0 <= j < k ==> f(s[j]).Ok?
  {
    if s == [] then Ok([])
    else
      var init := s[..|s| - 1];
      match TraverseAll(init, f)
      case Err(e) =>
        assert forall j :: 0 <= j < |init| ==> init[j] == s[j];
        Err(e)
      case Ok(prefix) =>
        match f(s[|s| - 1])
        case Err(e) => Err(e)
        case Ok(b) => Ok(prefix + [b])
  }

  /** Once a prefix has raised, no later element changes the outcome. */
  lemma {:induction false} TraverseStopsAtFailure<A, B, E>(s: seq<A>, f: A -> Result<B, E>, i: nat)
    requires i <= |s|
    requires TraverseAll(s[..i], f).Err?
    ensures TraverseAll(s, f) == TraverseAll(s[..i], f)
    decreases |s| - i
  {
    if i < |s| {
      assert s[..i] == s[..|s| - 1][..i];
      TraverseStopsAtFailure(s[..|s| - 1], f, i);
    } else {
      assert s[..i] == s;
    }
  }

  /** Growing a prefix that converted cleanly by one element. */
  lemma TraverseStep<A, B, E>(s: seq<A>, f: A -> Result<B, E>, i: nat)
    requires i < |s|
    ensures TraverseAll(s[..i + 1], f) ==
      match TraverseAll(s[..i], f)
      case Err(e) => Err(e)
      case Ok(prefix) => match f(s[i]) case Err(e) => Err(e) case Ok(b) => Ok(prefix + [b])
  {
    assert s[..i + 1][..i] == s[..i];
  }

  /** Growing a prefix by one element. */
  lemma MapStep<A, B>(s: seq<A>, f: A -> B, i: nat)
    requires i < |s|
    ensures MapAll(s[..i + 1], f) == MapAll(s[..i], f) + [f(s[i])]
  {
    assert s[..i + 1][..i] == s[..i];
  }
}
