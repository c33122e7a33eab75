/** Stable sorting of packets by an integer rank, and order-preserving selection of a sub-stream. */
module Sorting {
  import opened Media

  function Dts(p: Packet): int { p.dts }

  predicate SortedBy(rank: Packet -> int, s: seq<Packet>) {
    forall i, j :: 0 <= i < j < |s| ==> rank(s[i]) <= rank(s[j])
  }

  /** Inserts x into a sorted list, after every element of equal rank. */
  function Insert(rank: Packet -> int, s: seq<Packet>, x: Packet): seq<Packet>
  {
    if s == [] || rank(s[|s| - 1]) <= rank(x) then s + [x]
    else Insert(rank, s[..|s| - 1], x) + [s[|s| - 1]]
  }

  function StableSort(rank: Packet -> int, s: seq<Packet>): seq<Packet>
  {
    if s == [] then [] else Insert(rank, StableSort(rank, s[..|s| - 1]), s[|s| - 1])
  }

  function Select(keep: Packet -> bool, s: seq<Packet>): seq<Packet>
  {
    if s == [] then []
    else Select(keep, s[..|s| - 1]) + if keep(s[|s| - 1]) then [s[|s| - 1]] else []
  }

  lemma {:induction false} InsertSorted(rank: Packet -> int, s: seq<Packet>, x: Packet)
    requires SortedBy(rank, s)
    ensures SortedBy(rank, Insert(rank, s, x))
    ensures multiset(Insert(rank, s, x)) == multiset(s) + multiset{x}
    ensures |Insert(rank, s, x)| == |s| + 1
  {
    InsertMultiset(rank, s, x);
    InsertOrder(rank, s, x);
  }

  lemma {:induction false} InsertOrder(rank: Packet -> int, s: seq<Packet>, x: Packet)
    requires SortedBy(rank, s)
    ensures SortedBy(rank, Insert(rank, s, x))
  {
    if !(s == [] || rank(s[|s| - 1]) <= rank(x)) {
      InsertOrder(rank, s[..|s| - 1], x);
      InsertBelow(rank, s[..|s| - 1], x, s[|s| - 1]);
    }
  }

  lemma {:induction false} InsertBelow(rank: Packet -> int, s: seq<Packet>, x: Packet, last: Packet)
    requires rank(x) <= rank(last) && forall i :: 0 <= i < |s| ==> rank(s[i]) <= rank(last)
    ensures forall i :: 0 <= i < |Insert(rank, s, x)| ==> rank(Insert(rank, s, x)[i]) <= rank(last)
  {
    if !(s == [] || rank(s[|s| - 1]) <= rank(x)) { InsertBelow(rank, s[..|s| - 1], x, last); }
  }

  /** Sorting orders by rank and neither loses nor invents a packet. */
  lemma {:induction false} StableSortSorted(rank: Packet -> int, s: seq<Packet>)
    ensures SortedBy(rank, StableSort(rank, s))
    ensures multiset(StableSort(rank, s)) == multiset(s)
    ensures |StableSort(rank, s)| == |s|
  {
    if s != [] {
      StableSortSorted(rank, s[..|s| - 1]);
      assert s == s[..|s| - 1] + [s[|s| - 1]];
      InsertSorted(rank, StableSort(rank, s[..|s| - 1]), s[|s| - 1]);
    }
  }

  lemma {:induction false} SelectSnoc(keep: Packet -> bool, s: seq<Packet>, x: Packet)
    ensures Select(keep, s + [x]) == Select(keep, s) + if keep(x) then [x] else []
  {
    assert (s + [x])[..|s|] == s;
  }

  lemma {:induction false} SelectConcat(keep: Packet -> bool, a: seq<Packet>, b: seq<Packet>)
    ensures Select(keep, a + b) == Select(keep, a) + Select(keep, b)
  {
    if b == [] {
      assert a + b == a;
    } else {
      assert (a + b)[..|a + b| - 1] == a + b[..|b| - 1];
      SelectConcat(keep, a, b[..|b| - 1]);
    }
  }

  lemma {:induction false} SelectMembers(keep: Packet -> bool, s: seq<Packet>)
    ensures forall x :: x in Select(keep, s) <==> x in s && keep(x)
  {
    if s != [] {
      assert s == s[..|s| - 1] + [s[|s| - 1]];
      SelectMembers(keep, s[..|s| - 1]);
    }
  }

  /** Inserting a packet that follows every kept packet of its stream keeps the order of the stream. */
  lemma {:induction false} InsertSelect(rank: Packet -> int, keep: Packet -> bool, s: seq<Packet>, x: Packet)
    requires keep(x) ==> forall y :: y in s && keep(y) ==> rank(y) <= rank(x)
    ensures Select(keep, Insert(rank, s, x)) == Select(keep, s) + if keep(x) then [x] else []
  {
    if s == [] || rank(s[|s| - 1]) <= rank(x) {
      SelectSnoc(keep, s, x);
    } else {
      var init, last := s[..|s| - 1], s[|s| - 1];
      assert last in s;
      InsertSelect(rank, keep, init, x);
      SelectSnoc(keep, Insert(rank, init, x), last);
    }
  }

  /** Stability: a stream that is already in rank order keeps its order. */
  lemma {:induction false} StableSortSelect(rank: Packet -> int, keep: Packet -> bool, s: seq<Packet>)
    requires SortedBy(rank, Select(keep, s))
    ensures Select(keep, StableSort(rank, s)) == Select(keep, s)
  {
    if s != [] {
      var init, last := s[..|s| - 1], s[|s| - 1];
      assert forall i :: 0 <= i < |Select(keep, init)| ==> Select(keep, init)[i] == Select(keep, s)[i];
      StableSortSelect(rank, keep, init);
      StableSortSorted(rank, init);
      if keep(last) {
        forall y | y in StableSort(rank, init) && keep(y) ensures rank(y) <= rank(last) {
          assert y in multiset(StableSort(rank, init));
          assert y in init;
          SelectMembers(keep, init);
          var i :| 0 <= i < |Select(keep, init)| && Select(keep, init)[i] == y;
          assert Select(keep, s)[|Select(keep, init)|] == last && Select(keep, s)[i] == y;
        }
      }
      InsertSelect(rank, keep, StableSort(rank, init), last);
    }
  }

  lemma {:induction false} StableSortIdentity(rank: Packet -> int, s: seq<Packet>)
    requires SortedBy(rank, s)
    ensures StableSort(rank, s) == s
  {
    if s != [] {
      StableSortIdentity(rank, s[..|s| - 1]);
    }
  }

  lemma {:induction false} InsertSplit(rank: Packet -> int, pre: seq<Packet>, key: Packet, post: seq<Packet>, x: Packet)
    requires rank(key) <= rank(x)
    ensures Insert(rank, pre + [key] + post, x) == pre + [key] + Insert(rank, post, x)
    decreases |post|
  {
    var s := pre + [key] + post;
    if post != [] && rank(x) < rank(post[|post| - 1]) {
      var last := post[|post| - 1];
      assert s[..|s| - 1] == pre + [key] + post[..|post| - 1] && s[|s| - 1] == last;
      InsertSplit(rank, pre, key, post[..|post| - 1], x);
      assert pre + [key] + Insert(rank, post[..|post| - 1], x) + [last] == pre + [key] + (Insert(rank, post[..|post| - 1], x) + [last]);
    } else {
      assert s + [x] == pre + [key] + (post + [x]);
    }
  }

  /** A packet no later than those behind it stays in front of them: only earlier packets of `front` may precede it. */
  lemma {:induction false} SortKeepsFront(rank: Packet -> int, front: seq<Packet>, key: Packet, rest: seq<Packet>)
    returns (pre: seq<Packet>, post: seq<Packet>)
    requires SortedBy(rank, front)
    requires forall i :: 0 <= i < |rest| ==> rank(key) <= rank(rest[i])
    ensures StableSort(rank, front + [key] + rest) == pre + [key] + post
    ensures pre <= front
    ensures multiset(pre + post) == multiset(front + rest)
  {
    var all := front + [key] + rest;
    if rest == [] {
      assert all == front + [key];
      assert all[..|all| - 1] == front;
      StableSortIdentity(rank, front);
      pre, post := InsertFront(rank, front, key);
      assert pre + post == front;
    } else {
      var last := rest[|rest| - 1];
      var init := rest[..|rest| - 1];
      assert all[..|all| - 1] == front + [key] + init && all[|all| - 1] == last;
      var post0;
      pre, post0 := SortKeepsFront(rank, front, key, init);
      InsertSplit(rank, pre, key, post0, last);
      post := Insert(rank, post0, last);
      InsertMultiset(rank, post0, last);
      assert front + rest == front + init + [last];
    }
  }

  lemma {:induction false} InsertMultiset(rank: Packet -> int, s: seq<Packet>, x: Packet)
    ensures multiset(Insert(rank, s, x)) == multiset(s) + multiset{x}
    ensures |Insert(rank, s, x)| == |s| + 1
  {
    if !(s == [] || rank(s[|s| - 1]) <= rank(x)) {
      InsertMultiset(rank, s[..|s| - 1], x);
      assert s == s[..|s| - 1] + [s[|s| - 1]];
    }
  }

  lemma {:induction false} InsertFront(rank: Packet -> int, s: seq<Packet>, x: Packet) returns (pre: seq<Packet>, post: seq<Packet>)
    ensures Insert(rank, s, x) == pre + [x] + post && pre + post == s
  {
    if s == [] || rank(s[|s| - 1]) <= rank(x) {
      pre, post := s, [];
    } else {
      var post0;
      pre, post0 := InsertFront(rank, s[..|s| - 1], x);
      post := post0 + [s[|s| - 1]];
    }
  }
}
