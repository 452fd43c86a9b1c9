/**
 * The feed's sort orders (`getSortedMessages` in src/app/page.tsx): a copy of
 * the message list sorted with one of three comparators by JavaScript's
 * `Array.prototype.sort`, which is stable. The sort is modelled as a stable
 * insertion sort; the lemmas show its result is ordered by the comparator, is
 * a permutation of the input and keeps tied messages in their input order,
 * which together fix the result of any stable sort.
 */
module MessageOrder {
  import opened Messages

  datatype SortOption = Newest | Popular | Oldest

  /** The comparator handed to `sort` for each option; a negative value puts
      `a` before `b`. Popular compares likes first and falls back to recency
      when the likes are equal (`b.likes - a.likes || ...`). */
  function Compare(order: SortOption, a: Message, b: Message): (r: int)
    ensures order.Newest? ==>
      (r < 0 <==> a.createdAt > b.createdAt) && (r == 0 <==> a.createdAt == b.createdAt)
    ensures order.Oldest? ==>
      (r < 0 <==> a.createdAt < b.createdAt) && (r == 0 <==> a.createdAt == b.createdAt)
    ensures order.Popular? ==>
      && (r < 0 <==> a.likes > b.likes || (a.likes == b.likes && a.createdAt > b.createdAt))
      && (r == 0 <==> a.likes == b.likes && a.createdAt == b.createdAt)
  {
    match order
    case Newest => b.createdAt - a.createdAt
    case Oldest => a.createdAt - b.createdAt
    case Popular =>
      var byLikes := b.likes as int - a.likes as int;
      if byLikes != 0 then byLikes else b.createdAt - a.createdAt
  }

  /** `a` may stand before `b` in a sorted result. */
  predicate Precedes(order: SortOption, a: Message, b: Message) {
    Compare(order, a, b) <= 0
  }

  predicate Sorted(order: SortOption, s: seq<Message>) {
    forall i, j :: 0 <= i < j < |s| ==> Precedes(order, s[i], s[j])
  }

  /** Each comparator is antisymmetric and its ties are an equivalence, so it
      is a consistent comparator in the sense `Array.prototype.sort` needs. */
  lemma CompareConsistent(order: SortOption, a: Message, b: Message, c: Message)
    ensures Compare(order, a, b) == -Compare(order, b, a)
    ensures Precedes(order, a, b) && Precedes(order, b, c) ==> Precedes(order, a, c)
    ensures Compare(order, a, c) == 0 && Compare(order, b, c) == 0 ==> Compare(order, a, b) == 0
  {
  }

  /** A sorted list stays sorted with an element in front that may precede
      every element of it. */
  lemma SortedCons(order: SortOption, a: Message, t: seq<Message>)
    requires Sorted(order, t)
    requires forall y :: y in t ==> Precedes(order, a, y)
    ensures Sorted(order, [a] + t)
  {
    forall i, j | 0 <= i < j < |[a] + t|
      ensures Precedes(order, ([a] + t)[i], ([a] + t)[j])
    {
      if i > 0 {
        assert ([a] + t)[i] == t[i - 1] && ([a] + t)[j] == t[j - 1];
      } else {
        assert ([a] + t)[j] in t;
      }
    }
  }

  /** Places `x` before the first element it may precede, so after every
      element that must come before it. */
  function Insert(order: SortOption, x: Message, s: seq<Message>): (r: seq<Message>)
    requires Sorted(order, s)
    ensures Sorted(order, r)
    ensures multiset(r) == multiset(s) + multiset{x}
  {
    if s == [] then [x]
    else if Precedes(order, x, s[0]) then
      SortedCons(order, x, s);
      [x] + s
    else
      var rest := Insert(order, x, s[1..]);
      HeadBeforeRest(order, x, s, rest);
      [s[0]] + rest
  }

  /** The step of `Insert` that keeps the head in front. */
  lemma HeadBeforeRest(order: SortOption, x: Message, s: seq<Message>, rest: seq<Message>)
    requires Sorted(order, s) && s != [] && !Precedes(order, x, s[0])
    requires Sorted(order, rest) && multiset(rest) == multiset(s[1..]) + multiset{x}
    ensures Sorted(order, [s[0]] + rest)
    ensures multiset([s[0]] + rest) == multiset(s) + multiset{x}
  {
    assert s == [s[0]] + s[1..];
    CompareConsistent(order, s[0], x, x);
    forall y | y in rest
      ensures Precedes(order, s[0], y)
    {
      assert y in multiset(rest);
      if y != x {
        assert y in s[1..];
        var k :| 0 <= k < |s[1..]| && s[1..][k] == y;
        assert s[k + 1] == y;
      }
    }
    SortedCons(order, s[0], rest);
  }

  /** The sorted copy of `s`. */
  function Sort(order: SortOption, s: seq<Message>): (r: seq<Message>)
    ensures Sorted(order, r)
    ensures multiset(r) == multiset(s)
    ensures |r| == |s|
  {
    if s == [] then []
    else
      assert s == [s[0]] + s[1..];
      Insert(order, s[0], Sort(order, s[1..]))
  }

  /** What each option's order means for any two positions of the sorted copy. */
  lemma SortOrderMeaning(order: SortOption, s: seq<Message>, i: int, j: int)
    requires 0 <= i < j < |s|
    ensures var r := Sort(order, s);
      match order
      case Newest => r[i].createdAt >= r[j].createdAt
      case Oldest => r[i].createdAt <= r[j].createdAt
      case Popular =>
        r[i].likes > r[j].likes || (r[i].likes == r[j].likes && r[i].createdAt >= r[j].createdAt)
  {
    var r := Sort(order, s);
    assert Precedes(order, r[i], r[j]);
  }

  /** The tie list of `m` with a head of its own. */
  function TieHead(order: SortOption, a: Message, m: Message): seq<Message> {
    if Compare(order, a, m) == 0 then [a] else []
  }

  /** The messages of `s`, in order, that tie with `m` under the comparator. */
  function Ties(order: SortOption, s: seq<Message>, m: Message): seq<Message> {
    if s == [] then []
    else TieHead(order, s[0], m) + Ties(order, s[1..], m)
  }

  lemma SortedTail(order: SortOption, s: seq<Message>)
    requires Sorted(order, s) && s != []
    ensures Sorted(order, s[1..])
  {
    forall i, j | 0 <= i < j < |s| - 1
      ensures Precedes(order, s[1..][i], s[1..][j])
    {
      assert s[1..][i] == s[i + 1] && s[1..][j] == s[j + 1];
    }
  }

  lemma TiesCons(order: SortOption, a: Message, t: seq<Message>, m: Message)
    ensures Ties(order, [a] + t, m) == TieHead(order, a, m) + Ties(order, t, m)
  {
    assert ([a] + t)[1..] == t;
  }

  /** Two messages where the first must follow the second cannot both tie
      with a third. */
  lemma NotBothTie(order: SortOption, x: Message, y: Message, m: Message)
    requires !Precedes(order, x, y)
    ensures TieHead(order, x, m) == [] || TieHead(order, y, m) == []
  {
    CompareConsistent(order, x, y, m);
  }

  lemma SwapHeads(tx: seq<Message>, t0: seq<Message>, rest: seq<Message>)
    requires tx == [] || t0 == []
    ensures t0 + (tx + rest) == tx + (t0 + rest)
  {
    if tx == [] {
      assert tx + rest == rest;
    } else {
      assert t0 + rest == rest;
    }
  }

  lemma {:induction false} InsertTies(order: SortOption, x: Message, s: seq<Message>, m: Message)
    requires Sorted(order, s)
    ensures Ties(order, Insert(order, x, s), m) == TieHead(order, x, m) + Ties(order, s, m)
  {
    if s == [] {
      TiesCons(order, x, [], m);
    } else if Precedes(order, x, s[0]) {
      TiesCons(order, x, s, m);
    } else {
      SortedTail(order, s);
      var rest := Insert(order, x, s[1..]);
      var tx, t0 := TieHead(order, x, m), TieHead(order, s[0], m);
      calc {
        Ties(order, Insert(order, x, s), m);
        Ties(order, [s[0]] + rest, m);
        { TiesCons(order, s[0], rest, m); }
        t0 + Ties(order, rest, m);
        { InsertTies(order, x, s[1..], m); }
        t0 + (tx + Ties(order, s[1..], m));
        { NotBothTie(order, x, s[0], m); SwapHeads(tx, t0, Ties(order, s[1..], m)); }
        tx + (t0 + Ties(order, s[1..], m));
        { assert s == [s[0]] + s[1..]; TiesCons(order, s[0], s[1..], m); }
        tx + Ties(order, s, m);
      }
    }
  }

  /** The sort is stable: messages that tie keep their relative input order. */
  lemma {:induction false} SortIsStable(order: SortOption, s: seq<Message>, m: Message)
    ensures Ties(order, Sort(order, s), m) == Ties(order, s, m)
  {
    if s != [] {
      SortIsStable(order, s[1..], m);
      InsertTies(order, s[0], Sort(order, s[1..]), m);
    }
  }
}
