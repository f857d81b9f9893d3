/** What link flags bind: the order inside a run of linked requests, and nothing else. */
module ChainOrder {
  import opened Picks
  import opened Uring

  /** `x` stands before `y`. */
  ghost predicate Before<T>(order: seq<T>, x: T, y: T) {
    exists p, q :: 0 <= p < q < |order| && order[p] == x && order[q] == y
  }

  ghost predicate Distinct<T>(items: seq<T>) {
    forall i, j :: 0 <= i < j < |items| ==> items[i] != items[j]
  }

  // ---------- Interleavings of chains ----------

  ghost predicate KeepsChains<T>(chains: seq<seq<T>>, order: seq<T>) {
    forall c, a, b :: 0 <= c < |chains| && 0 <= a < b < |chains[c]| ==> Before(order, chains[c][a], chains[c][b])
  }

  lemma BeforeLater<T>(order: seq<T>, x: T, y: T)
    requires order != [] && Before(order[1..], x, y)
    ensures Before(order, x, y)
  {
    var p, q :| 0 <= p < q < |order[1..]| && order[1..][p] == x && order[1..][q] == y;
    assert order[p + 1] == x && order[q + 1] == y;
  }

  lemma BeforeFirst<T>(order: seq<T>, y: T)
    requires order != [] && y in order[1..]
    ensures Before(order, order[0], y)
  {
    var q :| 0 <= q < |order[1..]| && order[1..][q] == y;
    assert order[q + 1] == y;
  }

  lemma BeforeInRest<T>(order: seq<T>, x: T, y: T)
    requires Before(order, x, y) && x != order[0]
    ensures Before(order[1..], x, y)
  {
    var p, q :| 0 <= p < q < |order| && order[p] == x && order[q] == y;
    assert order[1..][p - 1] == x && order[1..][q - 1] == y;
  }

  lemma InChain<T>(chains: seq<seq<T>>, c: nat, a: nat)
    requires c < |chains| && a < |chains[c]|
    ensures |Flatten(chains[..c])| + a < |Flatten(chains)|
    ensures Flatten(chains)[|Flatten(chains[..c])| + a] == chains[c][a]
  {
    FlattenSplit(chains, c);
  }

  lemma ChainOf<T>(chains: seq<seq<T>>, i: nat) returns (c: nat, a: nat)
    requires i < |Flatten(chains)|
    ensures c < |chains| && a < |chains[c]| && |Flatten(chains[..c])| + a == i
  {
    if i < |chains[0]| {
      c, a := 0, i;
    } else {
      c, a := ChainOf(chains[1..], i - |chains[0]|);
      assert chains[..c + 1] == [chains[0]] + chains[1..][..c];
      FlattenAppend([chains[0]], chains[1..][..c]);
      assert Flatten([chains[0]]) == chains[0];
      c := c + 1;
    }
  }

  lemma AdvanceIndex<T>(chains: seq<seq<T>>, i: nat, c: nat)
    requires i < |chains| && chains[i] != [] && c < |Advance(chains, i)|
    ensures var skip := if |chains[i]| == 1 then 1 else 0;
            var d := if c < i then c else c + skip;
            d < |chains| && Advance(chains, i)[c] == if d == i then chains[i][1..] else chains[d]
  {
  }

  lemma AdvanceChain<T>(chains: seq<seq<T>>, i: nat, d: nat)
    requires i < |chains| && chains[i] != [] && d < |chains| && (d != i || |chains[i]| > 1)
    ensures var c := if d <= i || |chains[i]| > 1 then d else d - 1;
            c < |Advance(chains, i)| && Advance(chains, i)[c] == if d == i then chains[i][1..] else chains[d]
  {
  }

  /** Every interleaving keeps the order inside each chain. */
  lemma {:induction false} MergeKeepsChains<T>(chains: seq<seq<T>>, order: seq<T>)
    requires Merge(chains, order)
    ensures KeepsChains(chains, order)
    decreases |order|
  {
    hide Before, Advance;
    if order != [] {
      var i :| 0 <= i < |chains| && MergeFrom(chains, order, i);
      var next := Advance(chains, i);
      MergeKeepsChains(next, order[1..]);
      MergeKeepsAll(next, order[1..]);
      forall d, a, b | 0 <= d < |chains| && 0 <= a < b < |chains[d]| ensures Before(order, chains[d][a], chains[d][b]) {
        var c := if d <= i || |chains[i]| > 1 then d else d - 1;
        AdvanceChain(chains, i, d);
        if d == i && a == 0 {
          assert next[c][b - 1] == chains[d][b];
          InChain(next, c, b - 1);
          assert chains[d][b] in multiset(order[1..]);
          BeforeFirst(order, chains[d][b]);
        } else {
          var s := if d == i then 1 else 0;
          assert Before(order[1..], next[c][a - s], next[c][b - s]);
          BeforeLater(order, chains[d][a], chains[d][b]);
        }
      }
    }
  }

  lemma DistinctRest<T>(order: seq<T>)
    requires order != [] && Distinct(order)
    ensures Distinct(order[1..]) && order[0] !in order[1..]
    ensures multiset(order[1..]) == multiset(order) - multiset{order[0]}
  {
    assert order == [order[0]] + order[1..];
  }

  lemma NothingBeforeFirst<T>(order: seq<T>, x: T)
    requires order != [] && Distinct(order)
    ensures !Before(order, x, order[0])
  {
  }

  /** The first of the arrangement heads its chain. */
  lemma HeadsItsChain<T>(chains: seq<seq<T>>, order: seq<T>) returns (i: nat)
    requires order != [] && Distinct(order) && multiset(order) == multiset(Flatten(chains))
    requires KeepsChains(chains, order)
    ensures i < |chains| && chains[i] != [] && chains[i][0] == order[0]
  {
    hide Before, Distinct, Flatten;
    assert order[0] in multiset(order);
    var k :| 0 <= k < |Flatten(chains)| && Flatten(chains)[k] == order[0];
    var a;
    i, a := ChainOf(chains, k);
    InChain(chains, i, a);
    FirstHeads(chains, order, i, a);
  }

  lemma FirstHeads<T>(chains: seq<seq<T>>, order: seq<T>, i: nat, a: nat)
    requires order != [] && Distinct(order) && KeepsChains(chains, order)
    requires i < |chains| && a < |chains[i]| && chains[i][a] == order[0]
    ensures a == 0
  {
    hide Before;
    NothingBeforeFirst(order, chains[i][0]);
  }

  lemma RestArranges<T>(chains: seq<seq<T>>, order: seq<T>, i: nat)
    requires order != [] && Distinct(order) && multiset(order) == multiset(Flatten(chains))
    requires i < |chains| && chains[i] != [] && chains[i][0] == order[0]
    ensures multiset(order[1..]) == multiset(Flatten(Advance(chains, i)))
  {
    hide Distinct, Flatten, Advance;
    DistinctRest(order);
    FlattenSplit(chains, i);
    FlattenAdvance(chains, i);
    assert chains[i] == [order[0]] + chains[i][1..];
  }

  lemma RestKeepsPair<T>(chains: seq<seq<T>>, order: seq<T>, i: nat, c: nat, x: nat, y: nat)
    requires order != [] && Distinct(order) && KeepsChains(chains, order)
    requires i < |chains| && chains[i] != [] && multiset(order[1..]) == multiset(Flatten(Advance(chains, i)))
    requires c < |Advance(chains, i)| && x < y < |Advance(chains, i)[c]|
    ensures Before(order[1..], Advance(chains, i)[c][x], Advance(chains, i)[c][y])
  {
    hide Before, Distinct, Flatten, Advance;
    var next := Advance(chains, i);
    DistinctRest(order);
    AdvanceIndex(chains, i, c);
    InChain(next, c, x);
    assert next[c][x] in multiset(order[1..]);
    var d := if c < i || |chains[i]| > 1 then c else c + 1;
    var s := if d == i then 1 else 0;
    assert Before(order, chains[d][x + s], chains[d][y + s]);
    BeforeInRest(order, next[c][x], next[c][y]);
  }

  lemma RestKeepsChains<T>(chains: seq<seq<T>>, order: seq<T>, i: nat)
    requires order != [] && Distinct(order) && multiset(order) == multiset(Flatten(chains))
    requires KeepsChains(chains, order)
    requires i < |chains| && chains[i] != [] && chains[i][0] == order[0]
    ensures KeepsChains(Advance(chains, i), order[1..])
  {
    hide Before, Distinct, Flatten, Advance;
    var next := Advance(chains, i);
    RestArranges(chains, order, i);
    forall c, x, y | 0 <= c < |next| && 0 <= x < y < |next[c]| ensures Before(order[1..], next[c][x], next[c][y]) {
      hide KeepsChains;
      RestKeepsPair(chains, order, i, c, x, y);
    }
  }

  /** Of distinct items, every arrangement that keeps the order inside each chain is one. */
  lemma {:induction false} KeepsChainsMerges<T>(chains: seq<seq<T>>, order: seq<T>)
    requires NonEmpty(chains) && Distinct(order) && multiset(order) == multiset(Flatten(chains))
    requires KeepsChains(chains, order)
    ensures Merge(chains, order)
    decreases |order|
  {
    hide KeepsChains, Distinct, Flatten, Advance;
    if order == [] {
      FlattenNonEmpty(chains);
      assert |multiset(Flatten(chains))| == |Flatten(chains)|;
    } else {
      var i := HeadsItsChain(chains, order);
      RestArranges(chains, order, i);
      RestKeepsChains(chains, order, i);
      DistinctRest(order);
      KeepsChainsMerges(Advance(chains, i), order[1..]);
      assert MergeFrom(chains, order, i);
    }
  }

  // ---------- Runs of linked requests ----------

  /** The entries from `i` up to `j` are linked, each to the next. */
  predicate Linked(link: seq<bool>, i: nat, j: nat) {
    i < j < |link| && forall k :: i <= k < j ==> link[k]
  }

  lemma PrefixLength<T>(chains: seq<seq<T>>, c: nat)
    requires 0 < c <= |chains|
    ensures |Flatten(chains[..c])| == |chains[0]| + |Flatten(chains[1..][..c - 1])|
  {
    assert chains[..c][1..] == chains[1..][..c - 1];
  }

  /** The entries `s` to `s + n` are linked up to the last, which is not. */
  predicate Spans(link: seq<bool>, s: nat, n: nat) {
    && s + n <= |link| && (forall k :: s <= k < s + n - 1 ==> link[k])
    && (0 < n && s + n < |link| ==> !link[s + n - 1])
  }

  lemma SpansShift(link: seq<bool>, s: nat, n: nat)
    requires link != [] && Spans(link[1..], s, n)
    ensures Spans(link, s + 1, n)
    ensures s == 0 && n > 0 && link[0] ==> Spans(link, 0, n + 1)
  {
    assert forall k :: 0 < k < |link| ==> link[k] == link[1..][k - 1];
  }

  lemma SpansOne(link: seq<bool>)
    requires link != [] && (|link| > 1 ==> !link[0])
    ensures Spans(link, 0, 1)
  {
  }

  lemma SpanEnds(link: seq<bool>, s: nat, n: nat, i: nat, j: nat)
    requires Spans(link, s, n) && s <= i < s + n && Linked(link, i, j)
    ensures j < s + n
  {
  }

  /** The chains of a queue, from those of its tail. */
  lemma ChainsOfTail<T>(items: seq<T>, link: seq<bool>)
    requires |items| == |link| > 0
    ensures var chains, rest := Chains(items, link), Chains(items[1..], link[1..]);
            if link[0] && rest != [] then |chains| == |rest| && |chains[0]| == |rest[0]| + 1 && chains[1..] == rest[1..]
            else |chains| == |rest| + 1 && |chains[0]| == 1 && chains[1..] == rest && (|link| > 1 ==> !link[0])
  {
  }

  lemma NothingFlat<T>(chains: seq<seq<T>>)
    ensures Flatten(chains[..0]) == []
  {
    assert chains[..0] == [];
  }

  /** A chain is a maximal run of linked entries. */
  lemma {:induction false} ChainSpan<T>(items: seq<T>, link: seq<bool>, c: nat)
    requires |items| == |link| && c < |Chains(items, link)|
    ensures Spans(link, |Flatten(Chains(items, link)[..c])|, |Chains(items, link)[c]|)
    decreases |items|
  {
    hide Spans, Flatten, Chains;
    if items == [] {
      NoChains(items, link);
    } else {
      var chains, rest := Chains(items, link), Chains(items[1..], link[1..]);
      var joined := link[0] && rest != [];
      ChainsOfTail(items, link);
      NothingFlat(chains);
      NothingFlat(rest);
      if c > 0 {
        PrefixLength(chains, c);
      }
      if joined {
        ChainSpan(items[1..], link[1..], c);
        SpansShift(link, |Flatten(rest[..c])|, |rest[c]|);
        if c > 0 {
          PrefixLength(rest, c);
          assert chains[c] == chains[1..][c - 1] == rest[1..][c - 1] == rest[c];
        }
      } else if c == 0 {
        SpansOne(link);
      } else {
        ChainSpan(items[1..], link[1..], c - 1);
        SpansShift(link, |Flatten(rest[..c - 1])|, |rest[c - 1]|);
        assert chains[c] == chains[1..][c - 1];
      }
    }
  }

  lemma NoChains<T>(items: seq<T>, link: seq<bool>)
    requires |items| == |link| == 0
    ensures Chains(items, link) == []
  {
  }

  /** Linked entries share a chain, at their distance. */
  lemma LinkedShareChain<T>(items: seq<T>, link: seq<bool>, i: nat, j: nat) returns (c: nat, a: nat)
    requires |items| == |link| && Linked(link, i, j)
    ensures var chains := Chains(items, link);
            c < |chains| && a + (j - i) < |chains[c]| && chains[c][a] == items[i] && chains[c][a + (j - i)] == items[j]
  {
    var chains := Chains(items, link);
    c, a := ChainOf(chains, i);
    ChainSpan(items, link, c);
    var s, n := |Flatten(chains[..c])|, |chains[c]|;
    SpanEnds(link, s, n, i, j);
    InChain(chains, c, a);
    InChain(chains, c, a + (j - i));
  }

  /** Two entries with only linked ones from the first up to the second keep their order. */
  ghost predicate KeepsRuns<T>(items: seq<T>, link: seq<bool>, order: seq<T>)
    requires |items| == |link|
  {
    forall i: nat, j: nat :: Linked(link, i, j) ==> Before(order, items[i], items[j])
  }

  /** The kernel's possible orders, said of the flags alone: an order is an interleaving of the
      chains exactly if it is an arrangement of the items in which linked entries keep theirs. */
  lemma MergeIff<T>(items: seq<T>, link: seq<bool>, order: seq<T>)
    requires |items| == |link| && Distinct(items)
    ensures Merge(Chains(items, link), order) <==> multiset(order) == multiset(items) && KeepsRuns(items, link, order)
  {
    hide KeepsRuns, KeepsChains, Distinct, Chains;
    var chains := Chains(items, link);
    if Merge(chains, order) {
      MergeKeepsAll(chains, order);
      MergeKeepsChains(chains, order);
      RunsFromChains(items, link, order);
    }
    if multiset(order) == multiset(items) && KeepsRuns(items, link, order) {
      ArrangedDistinct(items, order);
      ChainsFromRuns(items, link, order);
      KeepsChainsMerges(chains, order);
    }
  }

  lemma RunsFromChains<T>(items: seq<T>, link: seq<bool>, order: seq<T>)
    requires |items| == |link| && KeepsChains(Chains(items, link), order)
    ensures KeepsRuns(items, link, order)
  {
    hide Before;
    forall i: nat, j: nat | Linked(link, i, j) ensures Before(order, items[i], items[j]) {
      var c, a := LinkedShareChain(items, link, i, j);
      assert Before(order, Chains(items, link)[c][a], Chains(items, link)[c][a + (j - i)]);
    }
  }

  lemma ChainPairLinked<T>(items: seq<T>, link: seq<bool>, c: nat, a: nat, b: nat) returns (i: nat, j: nat)
    requires |items| == |link| && c < |Chains(items, link)| && a < b < |Chains(items, link)[c]|
    ensures Linked(link, i, j) && items[i] == Chains(items, link)[c][a] && items[j] == Chains(items, link)[c][b]
  {
    hide Flatten, Chains;
    var chains := Chains(items, link);
    ChainSpan(items, link, c);
    InChain(chains, c, a);
    InChain(chains, c, b);
    i, j := |Flatten(chains[..c])| + a, |Flatten(chains[..c])| + b;
  }

  lemma ChainsFromRuns<T>(items: seq<T>, link: seq<bool>, order: seq<T>)
    requires |items| == |link| && KeepsRuns(items, link, order)
    ensures KeepsChains(Chains(items, link), order)
  {
    hide Before, Linked, Chains;
    var chains := Chains(items, link);
    forall c, a, b | 0 <= c < |chains| && 0 <= a < b < |chains[c]| ensures Before(order, chains[c][a], chains[c][b]) {
      var i, j := ChainPairLinked(items, link, c, a, b);
    }
  }

  lemma {:induction false} ArrangedDistinct<T>(items: seq<T>, order: seq<T>)
    requires Distinct(items) && multiset(order) == multiset(items)
    ensures Distinct(order)
  {
    forall i, j | 0 <= i < j < |order| ensures order[i] != order[j] {
      if order[i] == order[j] {
        TwiceIn(order, i, j);
        OnceIn(items, order[i]);
      }
    }
  }

  lemma TwiceIn<T>(s: seq<T>, i: nat, j: nat)
    requires i < j < |s| && s[i] == s[j]
    ensures multiset(s)[s[i]] >= 2
  {
    assert s == s[..j] + [s[j]] + s[j + 1..];
    assert s[..j][i] == s[i];
    assert s[i] in multiset(s[..j]);
  }

  lemma {:induction false} OnceIn<T>(s: seq<T>, x: T)
    requires Distinct(s)
    ensures multiset(s)[x] <= 1
  {
    if s != [] {
      assert s == [s[0]] + s[1..];
      OnceIn(s[1..], x);
      if x == s[0] {
        assert x !in s[1..];
        assert x !in multiset(s[1..]);
      }
    }
  }

  // ---------- Queues that may hold equal entries ----------

  function Places(n: nat): (r: seq<nat>)
    ensures |r| == n && forall i :: 0 <= i < n ==> r[i] == i
  {
    seq(n, i => i)
  }

  /** Chains of places in `items`, and what stands there. */
  ghost predicate NamePlaces<T>(items: seq<T>, chains: seq<seq<T>>, at: seq<seq<nat>>) {
    && |chains| == |at|
    && forall c :: 0 <= c < |at| ==>
         && |chains[c]| == |at[c]|
         && forall a :: 0 <= a < |at[c]| ==> at[c][a] < |items| && chains[c][a] == items[at[c][a]]
  }

  lemma NamesJoin<T>(items: seq<T>, chains: seq<seq<T>>, at: seq<seq<nat>>, p: nat)
    requires NamePlaces(items, chains, at) && chains != [] && p < |items|
    ensures NamePlaces(items, [[items[p]] + chains[0]] + chains[1..], [[p] + at[0]] + at[1..])
  {
  }

  lemma NamesCons<T>(items: seq<T>, chains: seq<seq<T>>, at: seq<seq<nat>>, p: nat)
    requires NamePlaces(items, chains, at) && p < |items|
    ensures NamePlaces(items, [[items[p]]] + chains, [[p]] + at)
  {
  }

  lemma SameCount<T>(items: seq<T>, chains: seq<seq<T>>, at: seq<seq<nat>>)
    requires NamePlaces(items, chains, at)
    ensures |chains| == |at|
  {
  }

  lemma {:induction false} ChainsName<T>(items: seq<T>, picked: seq<T>, at: seq<nat>, link: seq<bool>)
    requires |picked| == |at| == |link|
    requires forall k :: 0 <= k < |at| ==> at[k] < |items| && picked[k] == items[at[k]]
    ensures NamePlaces(items, Chains(picked, link), Chains(at, link))
    decreases |at|
  {
    if at != [] {
      var chains, places := Chains(picked[1..], link[1..]), Chains(at[1..], link[1..]);
      ChainsName(items, picked[1..], at[1..], link[1..]);
      hide NamePlaces;
      NamesCons(items, chains, places, at[0]);
      SameCount(items, chains, places);
      if chains != [] {
        NamesJoin(items, chains, places, at[0]);
      }
    } else {
      assert Chains(picked, link) == [] && Chains(at, link) == [];
    }
  }

  lemma AdvanceNames<T>(items: seq<T>, chains: seq<seq<T>>, at: seq<seq<nat>>, i: nat)
    requires NamePlaces(items, chains, at) && i < |chains| && chains[i] != []
    ensures NamePlaces(items, Advance(chains, i), Advance(at, i))
  {
  }

  /** An interleaving of the entries is one of their places. */
  lemma {:induction false} MergeByPlace<T>(items: seq<T>, chains: seq<seq<T>>, at: seq<seq<nat>>, order: seq<T>)
    returns (places: seq<nat>)
    requires NamePlaces(items, chains, at) && Merge(chains, order)
    ensures Merge(at, places) && |places| == |order|
    ensures forall k :: 0 <= k < |order| ==> places[k] < |items| && order[k] == items[places[k]]
    decreases |order|
  {
    hide Advance;
    if order == [] {
      places := [];
    } else {
      var i :| 0 <= i < |chains| && MergeFrom(chains, order, i);
      AdvanceNames(items, chains, at, i);
      var rest := MergeByPlace(items, Advance(chains, i), Advance(at, i), order[1..]);
      places := [at[i][0]] + rest;
      assert places[1..] == rest;
      assert MergeFrom(at, places, i);
    }
  }

  /** `places` tells which entry of the queue each entry of `order` is: all of them, once each, and
      where a later one overtakes an earlier one there is an unlinked entry from the earlier one up
      to the later. */
  ghost predicate Arranges<T>(items: seq<T>, link: seq<bool>, order: seq<T>, places: seq<nat>)
    requires |items| == |link|
  {
    && |places| == |order| == |items| && Distinct(places)
    && (forall k :: 0 <= k < |order| ==> places[k] < |items| && order[k] == items[places[k]])
    && (forall p, q :: 0 <= p < q < |places| && places[q] < places[p] ==>
          exists k :: places[q] <= k < places[p] && !link[k])
  }

  /** Whatever is queued: every interleaving of the chains arranges the queue so. */
  lemma MergeArranges<T>(items: seq<T>, link: seq<bool>, order: seq<T>) returns (places: seq<nat>)
    requires |items| == |link| && Merge(Chains(items, link), order)
    ensures Arranges(items, link, order, places)
  {
    hide Chains;
    var all := Places(|items|);
    ChainsName(items, items, all, link);
    places := MergeByPlace(items, Chains(items, link), Chains(all, link), order);
    MergeIff(all, link, places);
    ArrangedDistinct(all, places);
    assert |multiset(places)| == |multiset(all)|;
    forall p, q | 0 <= p < q < |places| && places[q] < places[p]
      ensures exists k :: places[q] <= k < places[p] && !link[k]
    {
      OvertakesUnlinked(all, link, places, p, q);
    }
  }

  lemma OvertakesUnlinked(all: seq<nat>, link: seq<bool>, places: seq<nat>, p: nat, q: nat)
    requires |all| == |link| && (forall i :: 0 <= i < |all| ==> all[i] == i) && KeepsRuns(all, link, places)
    requires Distinct(places) && p < q < |places| && places[q] < places[p] < |link|
    ensures exists k :: places[q] <= k < places[p] && !link[k]
  {
    NotBefore(places, p, q);
    assert !Linked(link, places[q], places[p]);
  }

  lemma NotBefore(places: seq<nat>, p: nat, q: nat)
    requires Distinct(places) && p < q < |places|
    ensures !Before(places, places[q], places[p])
  {
  }
}
