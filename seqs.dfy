/** Concatenation of a sequence of pieces: how every buffer of the generator grows. */
module Seqs {

  /** The concatenation of the first `n` pieces, in order. */
  function Join<T>(parts: seq<seq<T>>, n: nat): seq<T>
    requires n <= |parts|
  {
    if n == 0 then [] else Join(parts, n - 1) + parts[n - 1]
  }

  /** Join only looks at the first `n` pieces. */
  lemma {:induction false} JoinAgrees<T>(a: seq<seq<T>>, b: seq<seq<T>>, n: nat)
    requires n <= |a| && n <= |b|
    requires forall i :: 0 <= i < n ==> a[i] == b[i]
    ensures Join(a, n) == Join(b, n)
  {
    if n > 0 {
      JoinAgrees(a, b, n - 1);
    }
  }

  lemma ConcatAssoc<T>(a: seq<T>, b: seq<T>, c: seq<T>)
    ensures (a + b) + c == a + (b + c)
  {
  }

  /** What the first `m` pieces contribute comes before everything later pieces add. */
  lemma {:induction false} JoinPrefix<T>(parts: seq<seq<T>>, m: nat, n: nat)
    requires m <= n <= |parts|
    ensures |Join(parts, m)| <= |Join(parts, n)|
    ensures Join(parts, n)[..|Join(parts, m)|] == Join(parts, m)
  {
    if m < n {
      JoinPrefix(parts, m, n - 1);
      var early := Join(parts, m);
      var mid := Join(parts, n - 1);
      assert (mid + parts[n - 1])[..|early|] == mid[..|early|];
    }
  }

  lemma {:induction false} JoinEmpty<T>(parts: seq<seq<T>>, n: nat)
    requires n <= |parts|
    ensures Join(parts, n) == [] <==> forall i :: 0 <= i < n ==> parts[i] == []
  {
    if n > 0 {
      JoinEmpty(parts, n - 1);
    }
  }

  lemma {:induction false} JoinLength<T>(parts: seq<seq<T>>, n: nat, bound: nat)
    requires n <= |parts|
    requires forall i :: 0 <= i < n ==> |parts[i]| <= bound
    ensures |Join(parts, n)| <= bound * n
  {
    if n > 0 {
      JoinLength(parts, n - 1, bound);
    }
  }
}
