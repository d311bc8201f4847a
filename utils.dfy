/**
 * `reversed_enumerate` of the scraper's utilities (web_scrapper/utils/utils.py):
 * the prefix `sequence[:start]` enumerated from its last element back to
 * its first, as (index, element) pairs.
 */
module ScraperUtils {
  import opened Py

  /** `reversed(s)` */
  function Reverse<T>(s: seq<T>): (r: seq<T>)
    ensures |r| == |s|
    ensures forall k :: 0 <= k < |s| ==> r[k] == s[|s| - 1 - k]
  {
    if s == [] then [] else Reverse(s[1..]) + [s[0]]
  }

  /** `range(n)` */
  function Range(n: nat): (r: seq<int>)
    ensures |r| == n && forall i :: 0 <= i < n ==> r[i] == i
  {
    seq(n, i => i)
  }

  /** `zip(a, b)`: pairs up to the shorter length. */
  function Zip<A, B>(a: seq<A>, b: seq<B>): (r: seq<(A, B)>)
    ensures |r| == if |a| <= |b| then |a| else |b|
    ensures forall k :: 0 <= k < |r| ==> r[k] == (a[k], b[k])
  {
    if a == [] || b == [] then [] else [(a[0], b[0])] + Zip(a[1..], b[1..])
  }

  /** `reversed_enumerate(sequence, start)` */
  function ReversedEnumerate<T>(sequence: seq<T>, start: int): seq<(int, T)>
  {
    var prefix := Slice(sequence, 0, start);
    Zip(Reverse(Range(|prefix|)), Reverse(prefix))
  }

  /** Only `sequence[:start]` is enumerated, by indices descending from its
      last position to 0, each paired with the element it indexes. */
  lemma ReversedEnumeratePairs<T>(sequence: seq<T>, start: int)
    ensures var r := ReversedEnumerate(sequence, start);
      && |r| == |Slice(sequence, 0, start)|
      && (forall k :: 0 <= k < |r| ==> r[k].0 == |r| - 1 - k)
      && (forall k :: 0 <= k < |r| ==> 0 <= r[k].0 < |sequence| && r[k].1 == sequence[r[k].0])
  {
  }

  /** For a start of 0 or more, min(start, len) pairs; for a negative one
      the last -start elements are left out. */
  lemma ReversedEnumerateCount<T>(sequence: seq<T>, start: int)
    ensures start >= 0 ==> |ReversedEnumerate(sequence, start)| == if start <= |sequence| then start else |sequence|
    ensures start < 0 ==> |ReversedEnumerate(sequence, start)| == if start + |sequence| < 0 then 0 else start + |sequence|
    ensures start == 0 ==> ReversedEnumerate(sequence, start) == []
  {
  }
}
