/** The one sorted arrangement of a list, for any order. */
module Sorting {
  ghost predicate TotalOrder<T(!new)>(le: (T, T) -> bool) {
    && (forall a, b :: le(a, b) || le(b, a))
    && (forall a, b, c :: le(a, b) && le(b, c) ==> le(a, c))
  }

  ghost predicate InOrder<T>(le: (T, T) -> bool, s: seq<T>) {
    forall i, j :: 0 <= i < j < |s| ==> le(s[i], s[j])
  }

  function Insert<T>(le: (T, T) -> bool, x: T, s: seq<T>): (r: seq<T>)
    ensures |r| == |s| + 1
  {
    if s == [] || le(x, s[0]) then [x] + s else [s[0]] + Insert(le, x, s[1..])
  }

  function Sort<T>(le: (T, T) -> bool, s: seq<T>): (r: seq<T>)
    ensures |r| == |s|
  {
    if s == [] then [] else Insert(le, s[0], Sort(le, s[1..]))
  }

  lemma PrependInOrder<T(!new)>(le: (T, T) -> bool, x: T, s: seq<T>)
    requires TotalOrder(le) && InOrder(le, s) && (s != [] ==> le(x, s[0]))
    ensures InOrder(le, [x] + s)
  {
    var t := [x] + s;
    forall i, j | 0 <= i < j < |t| ensures le(t[i], t[j]) {
      if i > 0 {
        assert t[i] == s[i - 1] && t[j] == s[j - 1];
      } else if j > 1 {
        assert le(s[0], s[j - 1]) && t[j] == s[j - 1];
      }
    }
  }

  lemma {:induction false} InsertProperties<T(!new)>(le: (T, T) -> bool, x: T, s: seq<T>)
    requires TotalOrder(le) && InOrder(le, s)
    ensures InOrder(le, Insert(le, x, s)) && multiset(Insert(le, x, s)) == multiset(s) + multiset{x}
    ensures Insert(le, x, s)[0] == if s == [] || le(x, s[0]) then x else s[0]
  {
    if s == [] || le(x, s[0]) {
      PrependInOrder(le, x, s);
    } else {
      assert InOrder(le, s[1..]);
      InsertProperties(le, x, s[1..]);
      PrependInOrder(le, s[0], Insert(le, x, s[1..]));
      assert s == [s[0]] + s[1..];
    }
  }

  /** Sorting arranges the same elements in order. */
  lemma {:induction false} SortProperties<T(!new)>(le: (T, T) -> bool, s: seq<T>)
    requires TotalOrder(le)
    ensures InOrder(le, Sort(le, s)) && multiset(Sort(le, s)) == multiset(s)
  {
    hide TotalOrder, Insert;
    if s != [] {
      SortProperties(le, s[1..]);
      InsertProperties(le, s[0], Sort(le, s[1..]));
      assert s == [s[0]] + s[1..];
    }
  }
}
