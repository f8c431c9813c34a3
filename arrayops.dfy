/**
 * The two JavaScript array operations the handlers rely on: `findIndex`, which returns the
 * position of the first element a callback accepts or -1, and `splice(i, 1)`, which removes
 * one element in place and keeps the order of the rest.
 */
module ArrayOps {

  /** `s.findIndex(matches)`: the first position whose element matches, or -1 when none does. */
  function FindIndex<T>(s: seq<T>, matches: T -> bool): (i: int)
    ensures -1 <= i < |s|
    ensures 0 <= i ==> matches(s[i]) && forall j :: 0 <= j < i ==> !matches(s[j])
    ensures i == -1 <==> forall j :: 0 <= j < |s| ==> !matches(s[j])
    decreases |s|
  {
    if s == [] then -1
    else if matches(s[0]) then 0
    else
      var k := FindIndex(s[1..], matches);
      if k == -1 then -1 else k + 1
  }

  /** `s.splice(i, 1)` as a value: the element at `i` is gone, the rest keep their order. */
  function RemoveAt<T>(s: seq<T>, i: nat): (r: seq<T>)
    requires i < |s|
    ensures |r| == |s| - 1
    ensures forall j :: 0 <= j < i ==> r[j] == s[j]
    ensures forall j :: i <= j < |r| ==> r[j] == s[j + 1]
  {
    s[..i] + s[i + 1..]
  }

  /** `splice(i, 1)` loses exactly the one element it removes. */
  lemma RemoveAtLosesOne<T>(s: seq<T>, i: nat)
    requires i < |s|
    ensures multiset(RemoveAt(s, i)) + multiset{s[i]} == multiset(s)
  {
    assert s == s[..i] + [s[i]] + s[i + 1..];
  }

}
