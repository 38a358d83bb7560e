/** The one helper of lib/helpers.go that the generator's logic depends on. */
module Helpers {

  /**
   * StrInSlice: a scan of `l` that stops at the first element equal to `s`.
   * `index` is the position the scan stopped at: the first match, or |l| when
   * there is none.
   */
  method StrInSlice(s: string, l: seq<string>) returns (found: bool, ghost index: nat)
    ensures found <==> (exists i :: 0 <= i < |l| && l[i] == s)
    ensures index <= |l|
    ensures found ==> index < |l| && l[index] == s
    ensures forall i :: 0 <= i < index ==> l[i] != s
    ensures !found ==> index == |l|
  {
    var i := 0;
    while i < |l|
      invariant i <= |l|
      invariant forall j :: 0 <= j < i ==> l[j] != s
    {
      if l[i] == s {
        return true, i;
      }
      i := i + 1;
    }
    return false, i;
  }

  /** Appending elements to the slice never turns a match into a miss. */
  lemma InSliceAfterAppend(s: string, l: seq<string>, more: seq<string>)
    requires exists i :: 0 <= i < |l| && l[i] == s
    ensures exists i :: 0 <= i < |l + more| && (l + more)[i] == s
  {
    var i :| 0 <= i < |l| && l[i] == s;
    assert (l + more)[i] == s;
  }
}
