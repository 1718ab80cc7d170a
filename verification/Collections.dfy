/** Options, results, and order queues with the maps they are paired with. */
module Collections {

  datatype Option<+T> = None | Some(value: T)

  datatype Result<+T, +E> = Ok(value: T) | Err(error: E)

  ghost predicate Distinct<T>(s: seq<T>) {
    forall i, j :: 0 <= i < j < |s| ==> s[i] != s[j]
  }

  /** The sequence visits every element of the set exactly once. */
  ghost predicate Lists<T(!new)>(s: seq<T>, elements: set<T>) {
    Distinct(s) && forall x :: x in s <==> x in elements
  }

  /** Queue and map hold the same keys, the queue without repetition. */
  ghost predicate Agree<K(!new), V>(order: seq<K>, m: map<K, V>) {
    Lists(order, m.Keys)
  }

  /** Every set can be visited in some order. */
  ghost function Listing<T(!new)>(elements: set<T>): (s: seq<T>)
    ensures Lists(s, elements)
  {
    if elements == {} then []
    else
      var x :| x in elements;
      [x] + Listing(elements - {x})
  }

  lemma VisitsExist<T(!new)>() returns (visit: set<T> -> seq<T>)
    ensures forall s :: Lists(visit(s), s)
  {
    visit := (s: set<T>) => Listing(s);
  }

  lemma {:induction false} ListsSize<T(!new)>(s: seq<T>, elements: set<T>)
    requires Lists(s, elements)
    ensures |s| == |elements|
    decreases |s|
  {
    if s == [] {
      assert elements == {};
    } else {
      var rest := elements - {s[0]};
      forall x ensures x in s[1..] <==> x in rest {
        if x in s[1..] {
          var i :| 0 <= i < |s[1..]| && s[1..][i] == x;
          assert s[i + 1] == x && s[0] != s[i + 1];
        }
        if x in rest {
          var i :| 0 <= i < |s| && s[i] == x;
          assert s[1..][i - 1] == x;
        }
      }
      ListsSize(s[1..], rest);
    }
  }

  lemma AgreeSize<K(!new), V>(order: seq<K>, m: map<K, V>)
    requires Agree(order, m)
    ensures |order| == |m|
  {
    ListsSize(order, m.Keys);
  }

  /** The queue after `retain(|x| x != gone)`. */
  function Without<T(==,!new)>(s: seq<T>, gone: T): (r: seq<T>)
    ensures forall x :: x in r <==> x in s && x != gone
    ensures |r| <= |s|
  {
    if s == [] then [] else if s[0] == gone then Without(s[1..], gone) else [s[0]] + Without(s[1..], gone)
  }

  lemma {:induction false} WithoutDistinct<T(!new)>(s: seq<T>, gone: T)
    requires Distinct(s)
    ensures Distinct(Without(s, gone))
  {
    if s != [] {
      WithoutDistinct(s[1..], gone);
      var rest := Without(s[1..], gone);
      if s[0] != gone {
        assert s[0] !in s[1..] && s[0] !in rest;
        assert Without(s, gone) == [s[0]] + rest;
      }
    }
  }

  lemma AgreeWithout<K(!new), V>(order: seq<K>, m: map<K, V>, gone: K)
    requires Agree(order, m)
    ensures Agree(Without(order, gone), m - {gone})
    ensures |m - {gone}| == |m| - if gone in m then 1 else 0
  {
    WithoutDistinct(order, gone);
    assert (m - {gone}).Keys == m.Keys - {gone};
    assert |m.Keys - {gone}| == |m.Keys| - if gone in m then 1 else 0;
  }

  lemma AgreePush<K(!new), V>(order: seq<K>, m: map<K, V>, key: K, value: V)
    requires Agree(order, m) && key !in m
    ensures Agree(order + [key], m[key := value])
  {}

  lemma AgreeUpdate<K(!new), V>(order: seq<K>, m: map<K, V>, key: K, value: V)
    requires Agree(order, m) && key in m
    ensures Agree(order, m[key := value])
  {}

  lemma AgreePop<K(!new), V>(order: seq<K>, m: map<K, V>)
    requires Agree(order, m) && order != []
    ensures order[0] in m && Agree(order[1..], m - {order[0]})
  {}

  // ----- counting -----

  function Count<T>(s: seq<T>, p: T -> bool): nat {
    if s == [] then 0 else Count(s[..|s| - 1], p) + if p(s[|s| - 1]) then 1 else 0
  }

}
