/** The public workshop list: a case-insensitive substring search over
    title, description and category, an exact category filter, and the
    category choices, each distinct category once in order of first
    appearance. */
module WorkshopsPage {
  import opened Types
  import opened Seqs

  // ---------------------------------------------------------------------
  // Text
  // ---------------------------------------------------------------------

  /** `toLowerCase` on ASCII letters; every other character is kept. */
  function LowerChar(c: char): char
  {
    if 'A' <= c <= 'Z' then (c as int + 32) as char else c
  }

  function Lower(s: string): (r: string)
    ensures |r| == |s|
    ensures forall i :: 0 <= i < |s| ==> r[i] == LowerChar(s[i])
  {
    seq(|s|, i requires 0 <= i < |s| => LowerChar(s[i]))
  }

  /** Lower-casing twice is lower-casing once. */
  lemma LowerIdempotent(s: string)
    ensures Lower(Lower(s)) == Lower(s)
  {
  }

  /** `hay.includes(needle)`, scanning from the front. */
  function Includes(hay: string, needle: string): (b: bool)
    decreases |hay|
  {
    if |needle| <= |hay| && hay[..|needle|] == needle then true
    else if hay == [] then false
    else Includes(hay[1..], needle)
  }

  /** `needle` occurs in `hay` starting at index `i`. */
  predicate OccursAt(hay: string, needle: string, i: int)
  {
    0 <= i && i + |needle| <= |hay| && hay[i..i + |needle|] == needle
  }

  /** `includes` holds exactly when the needle occurs at some position. */
  lemma {:induction false} IncludesAt(hay: string, needle: string)
    ensures Includes(hay, needle) <==> exists i :: OccursAt(hay, needle, i)
    decreases |hay|
  {
    if |needle| <= |hay| && hay[..|needle|] == needle {
      assert OccursAt(hay, needle, 0);
    } else if hay == [] {
    } else {
      IncludesAt(hay[1..], needle);
      if exists i :: OccursAt(hay, needle, i) {
        var i :| OccursAt(hay, needle, i);
        assert i != 0;
        assert OccursAt(hay[1..], needle, i - 1) by {
          assert hay[1..][i - 1..i - 1 + |needle|] == hay[i..i + |needle|];
        }
      }
      if Includes(hay[1..], needle) {
        var i :| OccursAt(hay[1..], needle, i);
        assert OccursAt(hay, needle, i + 1) by {
          assert hay[1..][i..i + |needle|] == hay[i + 1..i + 1 + |needle|];
        }
      }
    }
  }

  /** Every text includes the empty text. */
  lemma IncludesEmpty(hay: string)
    ensures Includes(hay, "")
  {
    assert hay[..0] == "";
  }

  // ---------------------------------------------------------------------
  // Filtering
  // ---------------------------------------------------------------------

  predicate MatchesSearch(w: Workshop, query: string)
  {
    var q := Lower(query);
    Includes(Lower(w.title), q) || Includes(Lower(w.description), q) || Includes(Lower(w.category), q)
  }

  /** The search step: kept only when the query is non-empty. */
  function Searched(ws: seq<Workshop>, query: string): (r: seq<Workshop>)
    ensures forall w :: w in r <==> w in ws && (query == "" || MatchesSearch(w, query))
    ensures IsSubsequence(r, ws)
  {
    if query == "" then
      SubsequenceOfItself(ws);
      ws
    else
      var keep := (w: Workshop) => MatchesSearch(w, query);
      FilterSubsequence(ws, keep);
      Filter(ws, keep)
  }

  /** The category step: kept only when a category is chosen. */
  function InCategory(ws: seq<Workshop>, category: string): (r: seq<Workshop>)
    ensures forall w :: w in r <==> w in ws && (category == "" || w.category == category)
    ensures IsSubsequence(r, ws)
  {
    if category == "" then
      SubsequenceOfItself(ws);
      ws
    else
      var keep := (w: Workshop) => w.category == category;
      FilterSubsequence(ws, keep);
      Filter(ws, keep)
  }

  /** The list the page shows: the search filter, then the category filter. */
  function Filtered(ws: seq<Workshop>, query: string, category: string): (shown: seq<Workshop>)
    ensures forall w :: w in shown ==>
      w in ws && (query == "" || MatchesSearch(w, query)) && (category == "" || w.category == category)
  {
    InCategory(Searched(ws, query), category)
  }

  /** A workshop is shown iff it is in the list, matches a non-empty query
      and has the chosen category when there is one. */
  lemma FilteredMembers(ws: seq<Workshop>, query: string, category: string, w: Workshop)
    ensures w in Filtered(ws, query, category) <==>
      w in ws && (query == "" || MatchesSearch(w, query)) && (category == "" || w.category == category)
  {
  }

  /** With no query and no category the whole list is shown. */
  lemma NoFilters(ws: seq<Workshop>)
    ensures Filtered(ws, "", "") == ws
  {
  }

  /** The guard on the query changes nothing: the empty query matches every workshop. */
  lemma EmptyQueryMatchesAll(w: Workshop)
    ensures MatchesSearch(w, "")
  {
    IncludesEmpty(Lower(w.title));
  }

  /** The shown list keeps the list's order and is never longer than it
      ("Showing X of Y" has X <= Y). */
  lemma FilteredOrder(ws: seq<Workshop>, query: string, category: string)
    ensures IsSubsequence(Filtered(ws, query, category), ws)
    ensures |Filtered(ws, query, category)| <= |ws|
  {
    SubsequenceTransitive(Filtered(ws, query, category), Searched(ws, query), ws);
  }

  // ---------------------------------------------------------------------
  // Categories
  // ---------------------------------------------------------------------

  function CategoriesOf(ws: seq<Workshop>): (cs: seq<string>)
    ensures |cs| == |ws|
    ensures forall i :: 0 <= i < |ws| ==> cs[i] == ws[i].category
  {
    seq(|ws|, i requires 0 <= i < |ws| => ws[i].category)
  }

  /** `Array.from(new Set(s))`: each element once, where it first appears. */
  function FirstOccurrences(s: seq<string>): (r: seq<string>)
    ensures forall x :: x in r <==> x in s
  {
    if s == [] then []
    else
      var init := FirstOccurrences(s[..|s| - 1]);
      assert s == s[..|s| - 1] + [s[|s| - 1]];
      if s[|s| - 1] in s[..|s| - 1] then init else init + [s[|s| - 1]]
  }

  /** Where an element first appears. */
  function FirstIndex(s: seq<string>, x: string): (i: nat)
    requires x in s
    ensures i < |s| && s[i] == x && x !in s[..i]
  {
    if s[0] == x then 0
    else
      var i := FirstIndex(s[1..], x);
      assert s[..i + 1] == [s[0]] + s[1..][..i];
      i + 1
  }

  lemma {:induction false} FirstIndexExtend(s: seq<string>, y: string, x: string)
    requires x in s
    ensures FirstIndex(s + [y], x) == FirstIndex(s, x)
  {
    if s[0] != x {
      assert (s + [y])[1..] == s[1..] + [y];
      FirstIndexExtend(s[1..], y, x);
    }
  }

  lemma {:induction false} FirstIndexLast(s: seq<string>, x: string)
    requires x !in s
    ensures FirstIndex(s + [x], x) == |s|
  {
    if s != [] {
      assert (s + [x])[1..] == s[1..] + [x];
      FirstIndexLast(s[1..], x);
    }
  }

  /** The choices are distinct and ordered by first appearance. */
  lemma {:induction false} FirstOccurrencesOrder(s: seq<string>)
    ensures Distinct(FirstOccurrences(s))
    ensures forall i, j :: 0 <= i < j < |FirstOccurrences(s)| ==>
      FirstIndex(s, FirstOccurrences(s)[i]) < FirstIndex(s, FirstOccurrences(s)[j])
  {
    if s != [] {
      var p := s[..|s| - 1];
      var x := s[|s| - 1];
      var init := FirstOccurrences(p);
      FirstOccurrencesOrder(p);
      assert s == p + [x];
      forall y | y in init ensures FirstIndex(s, y) == FirstIndex(p, y) {
        FirstIndexExtend(p, x, y);
      }
      if x !in p {
        var r := init + [x];
        FirstIndexLast(p, x);
        forall i, j | 0 <= i < j < |r| ensures r[i] != r[j] && FirstIndex(s, r[i]) < FirstIndex(s, r[j]) {
          assert r[i] == init[i] && r[i] in init;
          if j == |init| {
            assert r[j] == x;
          } else {
            assert r[j] == init[j] && r[j] in init;
          }
        }
      }
    }
  }

  /** The category choices of the page. */
  function Categories(ws: seq<Workshop>): (choices: seq<string>)
    ensures forall c :: c in choices <==> c in CategoriesOf(ws)
  {
    FirstOccurrences(CategoriesOf(ws))
  }

  /** Each choice is the category of some listed workshop, each listed
      workshop's category is a choice, and no choice appears twice. */
  lemma CategoriesComplete(ws: seq<Workshop>)
    ensures forall c :: c in Categories(ws) ==> exists i :: 0 <= i < |ws| && ws[i].category == c
    ensures forall i :: 0 <= i < |ws| ==> ws[i].category in Categories(ws)
    ensures Distinct(Categories(ws))
  {
    FirstOccurrencesOrder(CategoriesOf(ws));
    forall c | c in Categories(ws) ensures exists i :: 0 <= i < |ws| && ws[i].category == c {
      var i :| 0 <= i < |CategoriesOf(ws)| && CategoriesOf(ws)[i] == c;
    }
    forall i | 0 <= i < |ws| ensures ws[i].category in Categories(ws) {
      assert CategoriesOf(ws)[i] in CategoriesOf(ws);
    }
  }
}
