/** Shared vocabulary: optional values, identifiers, timestamps, and the
    order-preserving filter that every SwiftData query and view list uses. */
module Common {

  datatype Option<+T> = None | Some(value: T)

  /** Identifier of a stored entity (a UUID in the app). */
  type Id = nat

  /** A point in time, in seconds; `Date()` is always supplied by the caller. */
  type Time = int

  /** `addingTimeInterval(86400)`: the "tomorrow" default of the task editors. */
  const OneDay: int := 86400

  /** `addingTimeInterval(86400 * 30)`: the "in a month" default of the goal editors. */
  const ThirtyDays: int := 86400 * 30

  /** `Array.filter`: keeps, in order, the elements that satisfy `p`. */
  function Filter<T>(s: seq<T>, p: T -> bool): (r: seq<T>)
    ensures |r| <= |s|
    ensures forall x :: x in r ==> x in s && p(x)
  {
    if s == [] then []
    else if p(s[0]) then [s[0]] + Filter(s[1..], p)
    else Filter(s[1..], p)
  }

  /** Every element of `s` that satisfies `p` survives the filter. */
  lemma {:induction false} FilterKeeps<T>(s: seq<T>, p: T -> bool, x: T)
    requires x in s && p(x)
    ensures x in Filter(s, p)
  {
    if s[0] != x {
      FilterKeeps(s[1..], p, x);
    }
  }

  /** Membership in a filtered list, both directions. */
  lemma FilterMember<T>(s: seq<T>, p: T -> bool, x: T)
    ensures x in Filter(s, p) <==> x in s && p(x)
  {
    if x in s && p(x) {
      FilterKeeps(s, p, x);
    }
  }

  /** Filtering never changes how often a kept element occurs, and drops every
      element that fails `p`. */
  lemma {:induction false} FilterMultiset<T>(s: seq<T>, p: T -> bool, x: T)
    ensures multiset(Filter(s, p))[x] == if p(x) then multiset(s)[x] else 0
  {
    if s != [] {
      FilterMultiset(s[1..], p, x);
      assert s == [s[0]] + s[1..];
    }
  }

  /** A filter and its complement split a list: together they hold exactly
      the elements of the list, with their multiplicities. */
  lemma {:induction false} FilterSplit<T>(s: seq<T>, p: T -> bool)
    ensures multiset(Filter(s, p)) + multiset(Filter(s, x => !p(x))) == multiset(s)
  {
    if s != [] {
      FilterSplit(s[1..], p);
      assert s == [s[0]] + s[1..];
    }
  }

  /** Two filters with disjoint predicates together keep exactly what the
      filter by their disjunction keeps. */
  lemma {:induction false} FilterUnion<T>(s: seq<T>, p: T -> bool, q: T -> bool, r: T -> bool)
    requires forall x :: r(x) == (p(x) || q(x))
    requires forall x :: !(p(x) && q(x))
    ensures multiset(Filter(s, p)) + multiset(Filter(s, q)) == multiset(Filter(s, r))
  {
    if s != [] {
      FilterUnion(s[1..], p, q, r);
    }
  }

  /** Filtering distributes over concatenation. */
  lemma {:induction false} FilterAppend<T>(s: seq<T>, t: seq<T>, p: T -> bool)
    ensures Filter(s + t, p) == Filter(s, p) + Filter(t, p)
  {
    if s != [] {
      FilterAppend(s[1..], t, p);
      assert (s + t)[1..] == s[1..] + t;
    } else {
      assert s + t == t;
    }
  }

  /** Filtering with a predicate that every element satisfies changes nothing. */
  lemma {:induction false} FilterAll<T>(s: seq<T>, p: T -> bool)
    requires forall x :: x in s ==> p(x)
    ensures Filter(s, p) == s
  {
    if s != [] {
      FilterAll(s[1..], p);
    }
  }

  /** A filter keeps every element exactly when all of them satisfy `p`, and
      keeps none exactly when none does. */
  lemma {:induction false} FilterCount<T>(s: seq<T>, p: T -> bool)
    ensures |Filter(s, p)| == |s| <==> forall i :: 0 <= i < |s| ==> p(s[i])
    ensures |Filter(s, p)| == 0 <==> forall i :: 0 <= i < |s| ==> !p(s[i])
  {
    if s != [] {
      FilterCount(s[1..], p);
      assert forall i :: 1 <= i < |s| ==> s[i] == s[1..][i - 1];
    }
  }

  /** Two filters applied in turn give the same list in either order. */
  lemma {:induction false} FilterCommute<T>(s: seq<T>, p: T -> bool, q: T -> bool)
    ensures Filter(Filter(s, p), q) == Filter(Filter(s, q), p)
  {
    if s != [] {
      FilterCommute(s[1..], p, q);
    }
  }

  /** Filtering by `p` and then by `q` is filtering by their conjunction `r`. */
  lemma {:induction false} FilterConj<T>(s: seq<T>, p: T -> bool, q: T -> bool, r: T -> bool)
    requires forall x :: r(x) == (p(x) && q(x))
    ensures Filter(Filter(s, p), q) == Filter(s, r)
  {
    if s != [] {
      FilterConj(s[1..], p, q, r);
    }
  }

  /** The keys of the elements of `s` strictly increase along the list. */
  predicate KeysIncrease<T>(s: seq<T>, key: T -> int) {
    forall i, j :: 0 <= i < j < |s| ==> key(s[i]) < key(s[j])
  }

  /** A filtered list keeps the increasing order of keys. */
  lemma {:induction false} FilterKeysIncrease<T>(s: seq<T>, p: T -> bool, key: T -> int)
    requires KeysIncrease(s, key)
    ensures KeysIncrease(Filter(s, p), key)
  {
    if s != [] {
      FilterKeysIncrease(s[1..], p, key);
      assert KeysIncrease(s[1..], key);
      if p(s[0]) {
        var r := Filter(s, p);
        forall j | 0 < j < |r|
          ensures key(r[0]) < key(r[j])
        {
          assert r[j] in Filter(s[1..], p);
          var k :| 0 <= k < |s[1..]| && s[1..][k] == r[j];
          assert s[k + 1] == r[j];
        }
      }
    }
  }

  /** `Array.first(where:)`: the earliest element that satisfies `p`. */
  function FirstWhere<T>(s: seq<T>, p: T -> bool): (r: Option<T>)
    ensures r.Some? ==> r.value in s && p(r.value)
    ensures r.None? ==> forall x :: x in s ==> !p(x)
  {
    if s == [] then None
    else if p(s[0]) then Some(s[0])
    else FirstWhere(s[1..], p)
  }

  /** The link a picker produces: the selected id when it names an entry
      of `m`, and no link otherwise. */
  function Linked<T>(selected: Option<Id>, m: map<Id, T>): (r: Option<Id>)
    ensures r.Some? <==> selected.Some? && selected.value in m
    ensures r.Some? ==> r == selected
  {
    if selected.Some? && selected.value in m then selected else None
  }

  /** The entries of an id-keyed map listed in ascending id order over
      `[lo, hi)`: the fetch order of the store. */
  function InIdOrder<T>(m: map<Id, T>, lo: nat, hi: nat): (r: seq<T>)
    ensures |r| <= hi - lo || hi < lo
    decreases hi - lo
  {
    if hi <= lo then []
    else if lo in m then [m[lo]] + InIdOrder(m, lo + 1, hi)
    else InIdOrder(m, lo + 1, hi)
  }

  /** When every entry is keyed by its own id, the listing is in strictly
      increasing id order. */
  lemma {:induction false} InIdOrderKeysIncrease<T>(m: map<Id, T>, lo: nat, hi: nat, key: T -> int)
    requires forall k :: k in m ==> key(m[k]) == k
    ensures KeysIncrease(InIdOrder(m, lo, hi), key)
    ensures forall x :: x in InIdOrder(m, lo, hi) ==> lo <= key(x) < hi
    decreases hi - lo
  {
    if lo < hi {
      InIdOrderKeysIncrease(m, lo + 1, hi, key);
      var rest := InIdOrder(m, lo + 1, hi);
      if lo in m {
        assert InIdOrder(m, lo, hi) == [m[lo]] + rest;
        assert forall j :: 0 <= j < |rest| ==> rest[j] in rest;
      }
    }
  }

  /** A value is listed exactly when some id in range maps to it. */
  lemma {:induction false} InIdOrderMember<T>(m: map<Id, T>, lo: nat, hi: nat, x: T)
    ensures x in InIdOrder(m, lo, hi) <==> exists k :: lo <= k < hi && k in m && m[k] == x
    decreases hi - lo
  {
    if lo < hi {
      InIdOrderMember(m, lo + 1, hi, x);
      if lo in m && m[lo] == x {
      } else if x in InIdOrder(m, lo, hi) {
        var k :| lo + 1 <= k < hi && k in m && m[k] == x;
      }
    }
  }

  /** Listing the entries of a map is unaffected by ids outside the range. */
  lemma {:induction false} InIdOrderOutside<T>(m: map<Id, T>, lo: nat, hi: nat, k: Id, v: T)
    requires k < lo || hi <= k
    ensures InIdOrder(m[k := v], lo, hi) == InIdOrder(m, lo, hi)
    ensures InIdOrder(m - {k}, lo, hi) == InIdOrder(m, lo, hi)
    decreases hi - lo
  {
    if lo < hi {
      InIdOrderOutside(m, lo + 1, hi, k, v);
    }
  }

  /** Raising the top of the range past every key adds nothing to the listing. */
  lemma {:induction false} InIdOrderBeyond<T>(m: map<Id, T>, lo: nat, hi: nat, hi': nat)
    requires hi <= hi'
    requires forall k :: k in m ==> k < hi
    ensures InIdOrder(m, lo, hi') == InIdOrder(m, lo, hi)
    decreases hi' - lo
  {
    if lo < hi' {
      InIdOrderBeyond(m, lo + 1, hi, hi');
    }
  }

  /** Adding one entry at the top of the range appends it to the listing. */
  lemma {:induction false} InIdOrderAppend<T>(m: map<Id, T>, lo: nat, hi: nat, v: T)
    requires lo <= hi
    requires forall k :: k in m ==> k < hi
    ensures InIdOrder(m[hi := v], lo, hi + 1) == InIdOrder(m, lo, hi) + [v]
    decreases hi - lo
  {
    if lo < hi {
      InIdOrderAppend(m, lo + 1, hi, v);
    } else {
      InIdOrderOutside(m[hi := v], hi + 1, hi + 1, hi, v);
    }
  }
}
