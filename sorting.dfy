/** The orderings the handlers ask of Mongo (`.sort({ name: 1 })`,
    `{ $sort: { totalRevenue: -1 } }`, ...) and of `Array.prototype.sort`,
    as one insertion sort over a total preorder. */
module Sorting {

  /** `le` orders any two values and is transitive. */
  ghost predicate TotalPreorder<T(!new)>(le: (T, T) -> bool) {
    (forall a, b :: le(a, b) || le(b, a))
    && (forall a, b, c :: le(a, b) && le(b, c) ==> le(a, c))
  }

  ghost predicate Sorted<T>(s: seq<T>, le: (T, T) -> bool) {
    forall i, j :: 0 <= i < j < |s| ==> le(s[i], s[j])
  }

  function Insert<T(!new)>(x: T, s: seq<T>, le: (T, T) -> bool): (r: seq<T>)
    requires TotalPreorder(le) && Sorted(s, le)
    ensures Sorted(r, le)
    ensures multiset(r) == multiset(s) + multiset{x}
  {
    if s == [] || le(x, s[0]) then
      assert forall j :: 0 <= j < |s| ==> le(s[0], s[j]);
      [x] + s
    else
      var t := Insert(x, s[1..], le);
      assert s == [s[0]] + s[1..];
      assert forall j :: 0 <= j < |t| ==> le(s[0], t[j]) by {
        forall j | 0 <= j < |t| ensures le(s[0], t[j]) {
          assert t[j] in multiset(s[1..]) + multiset{x};
          if t[j] == x {
          } else {
            assert t[j] in s[1..];
          }
        }
      }
      [s[0]] + t
  }

  /** A sorted permutation of `s`. */
  function Sort<T(!new)>(s: seq<T>, le: (T, T) -> bool): (r: seq<T>)
    requires TotalPreorder(le)
    ensures Sorted(r, le)
    ensures multiset(r) == multiset(s)
    ensures |r| == |s|
  {
    if s == [] then []
    else
      assert s == [s[0]] + s[1..];
      Insert(s[0], Sort(s[1..], le), le)
  }
}
