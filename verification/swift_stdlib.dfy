/** The few pieces of the Swift standard library that the macro relies on:
    optionals, throwing results, `compactMap`, `zip` and `dropLast`. */
module SwiftStdlib {

  /** Swift's `Optional`. */
  datatype Option<T> = None | Some(value: T)

  /** The outcome of a throwing function: a value, or the error it throws. */
  datatype Result<T, E> = Success(value: T) | Failure(error: E)

  function Min(a: int, b: int): int
  {
    if a <= b then a else b
  }

  /** `Sequence.compactMap(f)`: the non-nil results of `f`, in the order of `s`. */
  function CompactMap<A, B>(s: seq<A>, f: A -> Option<B>): (r: seq<B>)
    ensures |r| <= |s|
  {
    if s == [] then []
    else
      match f(s[0])
      case Some(b) => [b] + CompactMap(s[1..], f)
      case None => CompactMap(s[1..], f)
  }

  /** compactMap distributes over concatenation, so it preserves source order. */
  lemma {:induction false} CompactMapAppend<A, B>(a: seq<A>, b: seq<A>, f: A -> Option<B>)
    ensures CompactMap(a + b, f) == CompactMap(a, f) + CompactMap(b, f)
  {
    if a == [] {
      assert a + b == b;
    } else {
      assert (a + b)[1..] == a[1..] + b;
      CompactMapAppend(a[1..], b, f);
    }
  }

  /** When `f` yields a value only where `g` does, `f` keeps no more elements than `g`. */
  lemma {:induction false} CompactMapMonotone<A, B, C>(s: seq<A>, f: A -> Option<B>, g: A -> Option<C>)
    requires forall x :: f(x).Some? ==> g(x).Some?
    ensures |CompactMap(s, f)| <= |CompactMap(s, g)|
  {
    if s != [] {
      CompactMapMonotone(s[1..], f, g);
    }
  }

  /** When `f` never yields nil on `s`, compactMap is a plain map. */
  lemma {:induction false} CompactMapAllSome<A, B>(s: seq<A>, f: A -> Option<B>)
    requires forall i :: 0 <= i < |s| ==> f(s[i]).Some?
    ensures |CompactMap(s, f)| == |s|
    ensures forall i :: 0 <= i < |s| ==> CompactMap(s, f)[i] == f(s[i]).value
  {
    if s != [] {
      CompactMapAllSome(s[1..], f);
    }
  }

  /** `zip(a, b)`: pairs up elements by position and stops at the end of the shorter sequence. */
  function Zip<A, B>(a: seq<A>, b: seq<B>): (r: seq<(A, B)>)
    ensures |r| == Min(|a|, |b|)
    ensures forall i :: 0 <= i < |r| ==> r[i] == (a[i], b[i])
  {
    if a == [] || b == [] then [] else [(a[0], b[0])] + Zip(a[1..], b[1..])
  }

  /** `Collection.dropLast(k)`: everything but the last `k` elements; empty when there are at most `k`. */
  function DropLast<T>(s: seq<T>, k: nat): (r: seq<T>)
    ensures r <= s
    ensures |s| <= k ==> r == []
    ensures k < |s| ==> |r| == |s| - k
  {
    if |s| <= k then [] else s[..|s| - k]
  }
}
