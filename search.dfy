/** `performSearch`: the product cards are re-appended to their container,
    those whose name contains the query first, then the rest, each group in
    the original page order. Cards are identified by their position in the
    original list, captured once at page load. */
module Search {
  import opened Common
  import opened Text

  /** Where a card lands, and whether it carries the `highlight` class. */
  datatype Placement = Placement(card: nat, highlighted: bool)

  /** `String(q || '').trim().toLowerCase()`. */
  function Query(q: string): (query: string)
    ensures query == [] <==> forall i :: 0 <= i < |q| ==> IsWhiteSpace(q[i])
  {
    TrimEmptyIffBlank(q);
    ToLower(Trim(q))
  }

  /** A card matches when the lowercased text of its `<p>` element contains the
      query; a card without one (`name` is `None`) reads as the empty name. */
  function CardMatches(name: Option<string>, query: string): (b: bool)
    ensures name.None? ==> (b <==> query == [])
    ensures name.Some? ==> (b <==> exists i :: OccursAt(ToLower(name.value), query, i))
  {
    if name.Some? then
      var text := ToLower(name.value);
      var b := Includes(text, query);
      if b then
        var i :| OccursAt(text, query, i);
        assert OccursAt(ToLower(name.value), query, i);
        b
      else b
    else Includes("", query)
  }

  function Filter<T>(p: T -> bool, s: seq<T>): (r: seq<T>)
    ensures |r| <= |s|
  {
    if s == [] then [] else (if p(s[0]) then [s[0]] else []) + Filter(p, s[1..])
  }

  lemma {:induction false} FilterMembers<T>(p: T -> bool, s: seq<T>)
    ensures forall x :: x in Filter(p, s) <==> x in s && p(x)
  {
    if s != [] {
      FilterMembers(p, s[1..]);
    }
  }

  ghost predicate Increasing(s: seq<nat>) {
    forall i, j :: 0 <= i < j < |s| ==> s[i] < s[j]
  }

  lemma {:induction false} FilterIncreasing(p: nat -> bool, s: seq<nat>)
    requires Increasing(s)
    ensures Increasing(Filter(p, s))
  {
    if s != [] {
      FilterIncreasing(p, s[1..]);
      FilterMembers(p, s[1..]);
      var rest := Filter(p, s[1..]);
      assert forall x :: x in rest ==> s[0] < x;
      assert forall j :: 0 <= j < |rest| ==> rest[j] in rest;
    }
  }

  /** Two complementary filters together keep exactly as many elements as there are. */
  lemma {:induction false} ComplementaryFilters<T>(p: T -> bool, q: T -> bool, s: seq<T>)
    requires forall x :: x in s ==> q(x) == !p(x)
    ensures |Filter(p, s)| + |Filter(q, s)| == |s|
  {
    if s != [] {
      assert forall x :: x in s[1..] ==> x in s;
      ComplementaryFilters(p, q, s[1..]);
    }
  }

  /** The positions 0 .. n-1 in page order. */
  function Positions(n: nat): (r: seq<nat>)
    ensures |r| == n && forall i :: 0 <= i < n ==> r[i] == i
  {
    seq(n, i => i)
  }

  /** The indices of the matching cards in page order (the `matches` array). */
  function Matches(cards: seq<Option<string>>, query: string): (r: seq<nat>)
    ensures forall x: nat :: x in r <==> x < |cards| && CardMatches(cards[x], query)
  {
    var p := (i: nat) => i < |cards| && CardMatches(cards[i], query);
    PositionsMembers(|cards|);
    FilterMembers(p, Positions(|cards|));
    Filter(p, Positions(|cards|))
  }

  function Place(cards: seq<nat>, highlighted: bool): (r: seq<Placement>)
    ensures |r| == |cards| && forall i :: 0 <= i < |cards| ==> r[i] == Placement(cards[i], highlighted)
  {
    seq(|cards|, i requires 0 <= i < |cards| => Placement(cards[i], highlighted))
  }

  /** Card `c` has a place in `r`. */
  ghost predicate Placed(r: seq<Placement>, c: nat) {
    exists i :: 0 <= i < |r| && r[i].card == c
  }

  /** `r` is the matching cards, highlighted, in page order, followed by the
      other cards, not highlighted, in page order, every card exactly once. */
  ghost predicate MatchesFirst(cards: seq<Option<string>>, query: string, r: seq<Placement>, k: nat) {
    && k <= |r| == |cards|
    && (forall i :: 0 <= i < |r| ==> r[i].card < |cards|)
    && (forall c :: 0 <= c < |cards| ==> Placed(r, c))
    && (forall i :: 0 <= i < k ==> r[i].highlighted && CardMatches(cards[r[i].card], query))
    && (forall i :: k <= i < |r| ==> !r[i].highlighted && !CardMatches(cards[r[i].card], query))
    && (forall i, j :: 0 <= i < j < k ==> r[i].card < r[j].card)
    && (forall i, j :: k <= i < j < |r| ==> r[i].card < r[j].card)
  }

  /** The indices of the other cards in page order (the `nonMatches` array:
      the original cards not included in `matches`). */
  function NonMatches(cards: seq<Option<string>>, query: string): (r: seq<nat>)
    ensures forall x: nat :: x in r <==> x < |cards| && !CardMatches(cards[x], query)
  {
    var matches := Matches(cards, query);
    var q := (i: nat) => i !in matches;
    PositionsMembers(|cards|);
    FilterMembers(q, Positions(|cards|));
    Filter(q, Positions(|cards|))
  }

  lemma PositionsMembers(n: nat)
    ensures Increasing(Positions(n))
    ensures forall x: nat :: x < n ==> x in Positions(n)
    ensures forall x :: x in Positions(n) ==> x < n
  {
    forall x: nat | x < n
      ensures x in Positions(n)
    {
      assert Positions(n)[x] == x;
    }
  }

  /** The matching cards are those whose name contains the query, each once,
      in page order. */
  lemma MatchesShape(cards: seq<Option<string>>, query: string)
    ensures Increasing(Matches(cards, query))
    ensures forall x: nat :: x in Matches(cards, query) <==> x < |cards| && CardMatches(cards[x], query)
  {
    var p := (i: nat) => i < |cards| && CardMatches(cards[i], query);
    PositionsMembers(|cards|);
    FilterMembers(p, Positions(|cards|));
    FilterIncreasing(p, Positions(|cards|));
  }

  /** The other cards are those whose name does not contain the query, each
      once, in page order; the two groups together are as many as the cards. */
  lemma NonMatchesShape(cards: seq<Option<string>>, query: string)
    ensures Increasing(NonMatches(cards, query))
    ensures forall x: nat :: x in NonMatches(cards, query) <==> x < |cards| && !CardMatches(cards[x], query)
    ensures |Matches(cards, query)| + |NonMatches(cards, query)| == |cards|
  {
    var matches := Matches(cards, query);
    var p := (i: nat) => i < |cards| && CardMatches(cards[i], query);
    var q := (i: nat) => i !in matches;
    MatchesShape(cards, query);
    PositionsMembers(|cards|);
    FilterMembers(q, Positions(|cards|));
    FilterIncreasing(q, Positions(|cards|));
    ComplementaryFilters(p, q, Positions(|cards|));
  }

  /** `performSearch(q)` over the cards of the page. A blank query puts every
      card back in page order without highlight; any other query moves the
      matching cards, highlighted, to the front, keeping the page order within
      the matching and within the other cards. */
  function PerformSearch(cards: seq<Option<string>>, q: string): (r: seq<Placement>)
    ensures (forall i :: 0 <= i < |q| ==> IsWhiteSpace(q[i])) ==>
              |r| == |cards| && forall i :: 0 <= i < |r| ==> r[i] == Placement(i, false)
    ensures !(forall i :: 0 <= i < |q| ==> IsWhiteSpace(q[i])) ==>
              MatchesFirst(cards, Query(q), r, |Matches(cards, Query(q))|)
  {
    var query := Query(q);
    if query == [] then Place(Positions(|cards|), false)
    else
      var r := Place(Matches(cards, query), true) + Place(NonMatches(cards, query), false);
      SearchPartition(cards, query);
      r
  }

  /** Two increasing groups placed one after the other: the first group
      highlighted, the second not, each in its own order, every member placed. */
  lemma PlaceGroups(a: seq<nat>, b: seq<nat>)
    requires Increasing(a) && Increasing(b)
    ensures var r := Place(a, true) + Place(b, false);
            && |r| == |a| + |b|
            && (forall i :: 0 <= i < |a| ==> r[i].highlighted && r[i].card in a)
            && (forall i :: |a| <= i < |r| ==> !r[i].highlighted && r[i].card in b)
            && (forall i, j :: 0 <= i < j < |a| ==> r[i].card < r[j].card)
            && (forall i, j :: |a| <= i < j < |r| ==> r[i].card < r[j].card)
            && (forall c :: c in a || c in b ==> Placed(r, c))
  {
    var r := Place(a, true) + Place(b, false);
    var k := |a|;
    assert forall i :: 0 <= i < k ==> r[i] == Placement(a[i], true);
    assert forall i :: k <= i < |r| ==> r[i] == Placement(b[i - k], false);
    forall c | c in a || c in b
      ensures Placed(r, c)
    {
      if c in a {
        var i :| 0 <= i < |a| && a[i] == c;
        assert r[i].card == c;
      } else {
        var i :| 0 <= i < |b| && b[i] == c;
        assert r[k + i].card == c;
      }
    }
  }

  lemma SearchPartition(cards: seq<Option<string>>, query: string)
    ensures MatchesFirst(cards, query, Place(Matches(cards, query), true) + Place(NonMatches(cards, query), false),
                         |Matches(cards, query)|)
  {
    var matches := Matches(cards, query);
    var nonMatches := NonMatches(cards, query);
    MatchesShape(cards, query);
    NonMatchesShape(cards, query);
    PlaceGroups(matches, nonMatches);
    forall c: nat | c < |cards|
      ensures c in matches || c in nonMatches
    {
    }
  }
}
