/** Vocabulary shared by the models: optional values, sequence facts, and the
    idiom by which the backend reads an offset. */
module Common {

  datatype Option<+T> = None | Some(value: T)

  /** `int(x or -1)`: zero is falsy, so an offset of 0 is read as "absent". */
  function OrMinusOne(x: int): int {
    if x == 0 then -1 else x
  }

  predicate StartsWith(s: string, prefix: string) {
    |prefix| <= |s| && s[..|prefix|] == prefix
  }

  function Max(a: int, b: int): int {
    if a < b then b else a
  }

  function Min(a: int, b: int): int {
    if a < b then a else b
  }

  /** The integers lo, lo+1, .., hi-1; empty when hi <= lo. */
  function Range(lo: int, hi: int): (r: seq<int>)
    ensures |r| == Max(0, hi - lo)
    ensures forall i :: 0 <= i < |r| ==> r[i] == lo + i
  {
    seq(Max(0, hi - lo), i requires 0 <= i => lo + i)
  }

  lemma RangeExtend(lo: int, hi: int)
    requires lo <= hi
    ensures Range(lo, hi + 1) == Range(lo, hi) + [hi]
  {
  }

  lemma RangeHas(lo: int, hi: int, x: int)
    ensures x in Range(lo, hi) <==> lo <= x < hi
  {
    if lo <= x < hi { assert Range(lo, hi)[x - lo] == x; }
  }

  /** Moving the first element over. */
  lemma Regroup<T>(front: seq<T>, whole: seq<T>, rest: seq<T>)
    requires whole != [] && rest == whole[1..]
    ensures front + [whole[0]] + rest == front + whole
  {
  }

  lemma Associates<T>(a: seq<T>, b: seq<T>, c: seq<T>)
    ensures a + (b + c) == a + b + c
  {
  }

  lemma TailJoins<T>(x: seq<T>, y: seq<T>)
    requires x != []
    ensures x + y != [] && (x + y)[0] == x[0] && (x + y)[1..] == x[1..] + y
  {
  }

  predicate Ascending(s: seq<int>) {
    forall i, j :: 0 <= i < j < |s| ==> s[i] < s[j]
  }

  /** A bounded subscriber queue: when it is full, the oldest entry makes room. */
  function PutDropOldest(queue: seq<int>, offset: int, capacity: int): seq<int> {
    (if |queue| >= capacity && queue != [] then queue[1..] else queue) + [offset]
  }
}
