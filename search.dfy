/** Linear first-match search, the `std::find_if` the dispatcher uses for every
    lookup over the region list and over a region's trigger list. An index equal
    to the length of the sequence plays the role of the `end()` iterator. */
module Search {

  /** The index of the first element of `s` that satisfies `p`, or `|s|` when
      no element does. */
  function FirstIndex<T>(s: seq<T>, p: T -> bool): (i: nat)
    ensures i <= |s|
    ensures forall j :: 0 <= j < i ==> !p(s[j])
    ensures i < |s| ==> p(s[i])
    decreases |s|
  {
    if s == [] then 0
    else if p(s[0]) then 0
    else 1 + FirstIndex(s[1..], p)
  }

  /** Being "before every match, and a match unless at the end" pins the
      first-match index down uniquely. */
  lemma FirstIndexUnique<T>(s: seq<T>, p: T -> bool, i: nat)
    requires i <= |s|
    requires forall j :: 0 <= j < i ==> !p(s[j])
    requires i < |s| ==> p(s[i])
    ensures i == FirstIndex(s, p)
  {
  }

  /** Some element satisfies `p` exactly when the search stops before the end. */
  lemma FirstIndexFound<T>(s: seq<T>, p: T -> bool)
    ensures FirstIndex(s, p) < |s| <==> exists j :: 0 <= j < |s| && p(s[j])
  {
  }

  /** `std::find_if(s.begin(), s.end(), p)`: scan from the front and stop at the
      first element that satisfies `p`. */
  method FindIf<T>(s: seq<T>, p: T -> bool) returns (i: nat)
    ensures i == FirstIndex(s, p)
  {
    i := 0;
    while i < |s| && !p(s[i])
      invariant i <= |s|
      invariant forall j :: 0 <= j < i ==> !p(s[j])
    {
      i := i + 1;
    }
    FirstIndexUnique(s, p, i);
  }
}
