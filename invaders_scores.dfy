/** The highscore table of the invaders game (scripts/invaders.js:70-77):
    the new entry is appended, the list is sorted by score, highest first,
    and by time, earliest first, and only the first five are kept. Storage
    (`localStorage`, JSON) and the clock are outside the model: the stored
    list and the timestamp are parameters. */
module InvadersScores {
  import opened InvadersText

  /** One table row: cleaned name, score, and `Date.now()` at saving. */
  datatype Entry = Entry(name: string, score: int, at: int)

  const MaxEntries: nat := 5

  /** The comparator `b.score - a.score || a.at - b.at` is negative: `a`
      sorts strictly before `b`. */
  predicate Before(a: Entry, b: Entry)
  {
    a.score > b.score || (a.score == b.score && a.at < b.at)
  }

  /** Sorted for the comparator: no entry sorts strictly before an earlier
      one. */
  predicate Ranked(l: seq<Entry>)
  {
    forall i, j :: 0 <= i < j < |l| ==> !Before(l[j], l[i])
  }

  /** "Does not sort before" is transitive: the comparator is a total
      preorder on (score, at). */
  lemma NotBeforeTransitive(a: Entry, b: Entry, c: Entry)
    requires !Before(a, b) && !Before(b, c)
    ensures !Before(a, c)
  {
  }

  /** Insert `e` after every entry that does not sort strictly after it:
      in front of the first entry it sorts strictly before. */
  function Insert(e: Entry, l: seq<Entry>): (r: seq<Entry>)
    ensures |r| == |l| + 1
    ensures multiset(r) == multiset(l) + multiset{e}
    decreases |l|
  {
    if |l| == 0 || Before(e, l[0]) then [e] + l
    else
      assert l == [l[0]] + l[1..];
      [l[0]] + Insert(e, l[1..])
  }

  /** Inserting into a sorted list keeps it sorted. */
  lemma {:induction false} InsertRanked(e: Entry, l: seq<Entry>)
    requires Ranked(l)
    ensures Ranked(Insert(e, l))
    decreases |l|
  {
    var r := Insert(e, l);
    if |l| == 0 {
    } else if Before(e, l[0]) {
      assert r == [e] + l;
    } else {
      var tail := Insert(e, l[1..]);
      assert Ranked(l[1..]);
      InsertRanked(e, l[1..]);
      assert r == [l[0]] + tail;
      forall i, j | 0 <= i < j < |r|
        ensures !Before(r[j], r[i])
      {
        if i == 0 {
          var x := r[j];
          assert x in multiset(tail);
          assert x == e || x in multiset(l[1..]);
          if x != e {
            var k :| 1 <= k < |l| && l[k] == x;
          }
        }
      }
    }
  }

  /** `list.sort(...)` with the table's comparator, as a stable insertion
      sort: each entry goes after the earlier entries it does not beat. */
  function Sort(s: seq<Entry>): (r: seq<Entry>)
    ensures |r| == |s|
    ensures multiset(r) == multiset(s)
    ensures Ranked(r)
    decreases |s|
  {
    if |s| == 0 then []
    else
      var rest := Sort(s[..|s| - 1]);
      InsertRanked(s[|s| - 1], rest);
      assert s == s[..|s| - 1] + [s[|s| - 1]];
      Insert(s[|s| - 1], rest)
  }

  /** Inserting an entry that no entry of a sorted list beats appends it. */
  lemma {:induction false} InsertLast(e: Entry, l: seq<Entry>)
    requires forall i :: 0 <= i < |l| ==> !Before(e, l[i])
    ensures Insert(e, l) == l + [e]
    decreases |l|
  {
    if |l| > 0 {
      InsertLast(e, l[1..]);
      assert l == [l[0]] + l[1..];
    }
  }

  /** Dropping the last entry of a sorted list leaves it sorted, and the
      dropped entry beats none of the rest. */
  lemma RankedInit(s: seq<Entry>)
    requires Ranked(s) && |s| > 0
    ensures Ranked(s[..|s| - 1])
    ensures forall i :: 0 <= i < |s| - 1 ==> !Before(s[|s| - 1], s[i])
  {
  }

  /** Sorting a list that is already sorted changes nothing. */
  lemma {:induction false} SortRankedUnchanged(s: seq<Entry>)
    requires Ranked(s)
    ensures Sort(s) == s
    decreases |s|
  {
    if |s| > 0 {
      var init, last := s[..|s| - 1], s[|s| - 1];
      RankedInit(s);
      SortRankedUnchanged(init);
      InsertLast(last, init);
      calc {
        Sort(s);
        Insert(last, Sort(init));
        Insert(last, init);
        init + [last];
        s;
      }
    }
  }

  /** Saving into a table that is already sorted (every table this game
      writes is) places the new entry after every stored entry it does not
      beat. */
  lemma SaveIntoRankedTable(stored: seq<Entry>, e: Entry)
    requires Ranked(stored)
    ensures Sort(stored + [e]) == Insert(e, stored)
  {
    var s := stored + [e];
    assert s[..|s| - 1] == stored;
    SortRankedUnchanged(stored);
  }

  /** Stability: of two entries with equal score and time, the one saved
      first stays first. */
  lemma TieKeepsOrder(first: Entry, second: Entry)
    requires first.score == second.score && first.at == second.at
    ensures Sort([first, second]) == [first, second]
  {
    assert [first, second][..1] == [first];
    assert [first][..0] == [];
  }

  /** Equal for the comparator: neither sorts before the other. */
  predicate Tied(a: Entry, b: Entry)
  {
    a.score == b.score && a.at == b.at
  }

  /** The entries of `l` tied with `k`, in their order in `l`. */
  function Ties(l: seq<Entry>, k: Entry): seq<Entry>
    decreases |l|
  {
    if |l| == 0 then []
    else (if Tied(l[0], k) then [l[0]] else []) + Ties(l[1..], k)
  }

  /** Picking the ties of a concatenation picks them part by part. */
  lemma {:induction false} TiesConcat(a: seq<Entry>, b: seq<Entry>, k: Entry)
    ensures Ties(a + b, k) == Ties(a, k) + Ties(b, k)
    decreases |a|
  {
    if |a| == 0 {
      assert a + b == b;
    } else {
      assert (a + b)[0] == a[0];
      assert (a + b)[1..] == a[1..] + b;
      TiesConcat(a[1..], b, k);
    }
  }

  /** A list with no entry tied with `k` has no ties with it. */
  lemma {:induction false} TiesNone(l: seq<Entry>, k: Entry)
    requires forall i :: 0 <= i < |l| ==> !Tied(l[i], k)
    ensures Ties(l, k) == []
    decreases |l|
  {
    if |l| > 0 {
      TiesNone(l[1..], k);
    }
  }

  /** Inserting into a sorted list places the new entry after every entry
      tied with it. */
  lemma {:induction false} InsertTies(e: Entry, l: seq<Entry>, k: Entry)
    requires Ranked(l)
    ensures Ties(Insert(e, l), k) == Ties(l, k) + (if Tied(e, k) then [e] else [])
    decreases |l|
  {
    if |l| == 0 {
      assert Insert(e, l) == [e];
      assert [e][1..] == [];
    } else if Before(e, l[0]) {
      assert Insert(e, l) == [e] + l;
      assert ([e] + l)[1..] == l;
      if Tied(e, k) {
        forall i | 0 <= i < |l|
          ensures !Tied(l[i], k)
        {
          assert !Before(l[i], l[0]);
        }
        TiesNone(l, k);
      }
    } else {
      assert Insert(e, l) == [l[0]] + Insert(e, l[1..]);
      assert ([l[0]] + Insert(e, l[1..]))[1..] == Insert(e, l[1..]);
      InsertTies(e, l[1..], k);
    }
  }

  /** The sort is stable: the entries tied with any `k` come out in the
      order they went in. */
  lemma {:induction false} SortStable(s: seq<Entry>, k: Entry)
    ensures Ties(Sort(s), k) == Ties(s, k)
    decreases |s|
  {
    if |s| > 0 {
      var init, last := s[..|s| - 1], s[|s| - 1];
      var sorted := Sort(init);
      var tie := if Tied(last, k) then [last] else [];
      assert s == init + [last];
      assert Sort(s) == Insert(last, sorted);
      SortStable(init, k);
      InsertTies(last, sorted, k);
      assert Ties([last], k) == tie by {
        assert [last][1..] == [];
      }
      TiesConcat(init, [last], k);
      calc {
        Ties(Sort(s), k);
        Ties(sorted, k) + tie;
        Ties(init, k) + Ties([last], k);
        Ties(s, k);
      }
    }
  }

  /** `list.slice(0, 5)`: the first five, or all when there are fewer. */
  function TopFive(l: seq<Entry>): (r: seq<Entry>)
    ensures |r| <= MaxEntries && |r| <= |l| && r == l[..|r|]
    ensures |r| == MaxEntries || r == l
  {
    if |l| <= MaxEntries then l else l[..MaxEntries]
  }

  /** The first five of a sorted list: sorted, drawn from the list, and no
      dropped entry sorts strictly before a kept one. */
  lemma TopFiveOfRanked(sorted: seq<Entry>)
    requires Ranked(sorted)
    ensures var top := TopFive(sorted);
      && |top| == (if |sorted| <= MaxEntries then |sorted| else MaxEntries)
      && Ranked(top)
      && multiset(top) <= multiset(sorted)
      && (forall i, j :: 0 <= i < |top| <= j < |sorted| ==> !Before(sorted[j], top[i]))
  {
    var top := TopFive(sorted);
    var n := |top|;
    forall i, j | 0 <= i < j < n
      ensures !Before(top[j], top[i])
    {
      assert top[i] == sorted[i] && top[j] == sorted[j];
    }
    forall i, j | 0 <= i < n <= j < |sorted|
      ensures !Before(sorted[j], top[i])
    {
      assert top[i] == sorted[i];
    }
    assert sorted == top + sorted[n..];
    assert multiset(sorted) == multiset(top) + multiset(sorted[n..]);
  }

  /** `saveHighscore(name, sc)` against the stored list `stored` at time
      `now`: the table it writes back is the first five of the stored
      entries and the new one, sorted; `TopFiveOfRanked` and `Sort` say
      what that table holds. */
  method SaveHighscore(name: string, sc: int, now: int, stored: seq<Entry>) returns (list: seq<Entry>)
    ensures list == TopFive(Sort(stored + [Entry(CleanName(name), sc, now)]))
    ensures Ranked(list)
  {
    var clean := CleanName(name);
    list := stored;
    list := list + [Entry(clean, sc, now)];
    list := Sort(list);
    TopFiveOfRanked(list);
    list := TopFive(list);
  }

  /** A worked table: a new 40 goes after the stored 40s, which were saved
      earlier, and ahead of the 20. */
  lemma SaveExample()
    ensures Insert(Entry("f", 40, 9), [Entry("a", 50, 1), Entry("b", 40, 2), Entry("d", 20, 4)])
         == [Entry("a", 50, 1), Entry("b", 40, 2), Entry("f", 40, 9), Entry("d", 20, 4)]
  {
    var e := Entry("f", 40, 9);
    var l := [Entry("a", 50, 1), Entry("b", 40, 2), Entry("d", 20, 4)];
    assert l[1..] == [Entry("b", 40, 2), Entry("d", 20, 4)];
    assert l[1..][1..] == [Entry("d", 20, 4)];
  }
}
