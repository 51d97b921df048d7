/** Python's "a value or `None`" results. */
module Wrappers {

  datatype Option<+T> = None | Some(value: T) {

    /** Python's `x if x is not None else fallback`. */
    function GetOr(fallback: T): T {
      match this
      case Some(v) => v
      case None => fallback
    }
  }
}

/** Searches over sequences shared by the locators of the model. */
module Seqs {
  import opened Wrappers

  /** Index of the first element satisfying `p`, as a Python `for ... if ...: return`
      loop finds it; None when no element does. */
  function FirstIndex<T>(xs: seq<T>, p: T -> bool): (r: Option<nat>)
    ensures r.Some? ==> r.value < |xs| && p(xs[r.value])
    ensures r.Some? ==> forall j :: 0 <= j < r.value ==> !p(xs[j])
    ensures r.None? <==> forall j :: 0 <= j < |xs| ==> !p(xs[j])
  {
    if |xs| == 0 then None
    else if p(xs[0]) then Some(0)
    else
      match FirstIndex(xs[1..], p)
      case None => None
      case Some(k) => Some(k + 1)
  }

  /** The contract above pins the search down: an index that satisfies `p`
      with no earlier one that does is the one found. */
  lemma FirstIndexUnique<T>(xs: seq<T>, p: T -> bool, i: nat)
    requires i < |xs| && p(xs[i])
    requires forall j :: 0 <= j < i ==> !p(xs[j])
    ensures FirstIndex(xs, p) == Some(i)
  {
    assert FirstIndex(xs, p).Some?;
  }

  /** Searching a concatenation: a match in the first part wins; otherwise
      the second part's match, shifted by the first part's length. */
  lemma FirstIndexAppend<T>(xs: seq<T>, ys: seq<T>, p: T -> bool)
    ensures FirstIndex(xs + ys, p) ==
              match FirstIndex(xs, p)
              case Some(i) => Some(i)
              case None =>
                match FirstIndex(ys, p)
                case None => None
                case Some(k) => Some(|xs| + k)
  {
    var zs := xs + ys;
    match FirstIndex(xs, p)
    case Some(i) =>
      assert zs[i] == xs[i];
      forall j | 0 <= j < i ensures !p(zs[j]) {
        assert zs[j] == xs[j];
      }
      FirstIndexUnique(zs, p, i);
    case None =>
      match FirstIndex(ys, p)
      case None =>
        forall j | 0 <= j < |zs| ensures !p(zs[j]) {
          if j < |xs| { assert zs[j] == xs[j]; } else { assert zs[j] == ys[j - |xs|]; }
        }
      case Some(k) =>
        assert zs[|xs| + k] == ys[k];
        forall j | 0 <= j < |xs| + k ensures !p(zs[j]) {
          if j < |xs| { assert zs[j] == xs[j]; } else { assert zs[j] == ys[j - |xs|]; }
        }
        FirstIndexUnique(zs, p, |xs| + k);
  }
}
