/** The hobby picker: five category tabs, a case-insensitive search across all categories with
    duplicates removed, and a Clear control offered while hobbies are selected. */
module HobbyFilter {
  import opened Types
  import opened Seqs

  datatype Tab = PopularTab | OutdoorTab | CreativeTab | SocialTab | TechTab

  function TabId(t: Tab): string {
    match t
    case PopularTab => "popular"
    case OutdoorTab => "outdoor"
    case CreativeTab => "creative"
    case SocialTab => "social"
    case TechTab => "tech"
  }

  /** The tab a category id selects; the tab list only ever hands out these five ids. */
  function ParseTab(s: string): (r: Option<Tab>)
    ensures forall t :: r == Some(t) <==> s == TabId(t)
  {
    if s == "popular" then Some(PopularTab)
    else if s == "outdoor" then Some(OutdoorTab)
    else if s == "creative" then Some(CreativeTab)
    else if s == "social" then Some(SocialTab)
    else if s == "tech" then Some(TechTab)
    else None
  }

  /** The tabs in the order they are declared, which is also the order of `Object.values`. */
  function Tabs(): seq<Tab> {
    [PopularTab, OutdoorTab, CreativeTab, SocialTab, TechTab]
  }

  function TabHobbies(t: Tab): seq<string> {
    match t
    case PopularTab => ["Photography", "Hiking", "Reading", "Cooking", "Gaming", "Music", "Yoga", "Drawing"]
    case OutdoorTab => ["Hiking", "Cycling", "Camping", "Fishing", "Kayaking", "Climbing", "Birdwatching", "Gardening"]
    case CreativeTab => ["Photography", "Painting", "Writing", "Drawing", "Knitting", "Pottery", "Singing", "Dancing"]
    case SocialTab => ["Board Games", "Book Club", "Dancing", "Wine Tasting", "Language Exchange", "Volunteering",
                       "Cooking Classes"]
    case TechTab => ["Coding", "Game Development", "3D Printing", "Robotics", "Cybersecurity", "Data Science",
                     "App Development"]
  }

  /** The category lists in tab order. */
  function CategoryLists(): (r: seq<seq<string>>)
    ensures |r| == |Tabs()| && forall i :: 0 <= i < |r| ==> r[i] == TabHobbies(Tabs()[i])
  {
    seq(|Tabs()|, i requires 0 <= i < |Tabs()| => TabHobbies(Tabs()[i]))
  }

  /** `Object.values(HOBBY_DATA).flat()`: every category's hobbies, repeats included. */
  function AllCategoryHobbies(): seq<string> {
    Flatten(CategoryLists())
  }

  /** ASCII lower-casing of one character. */
  function LowerChar(c: char): (d: char)
    ensures 'A' <= c <= 'Z' ==> 'a' <= d <= 'z' && d as int - c as int == 'a' as int - 'A' as int
    ensures !('A' <= c <= 'Z') ==> d == c
  {
    if 'A' <= c <= 'Z' then (c as int + ('a' as int - 'A' as int)) as char else c
  }

  /** `toLowerCase()`, restricted to the ASCII letters. */
  function Lower(s: string): (r: string)
    ensures |r| == |s| && forall i :: 0 <= i < |s| ==> r[i] == LowerChar(s[i])
  {
    seq(|s|, i requires 0 <= i < |s| => LowerChar(s[i]))
  }

  /** Lower-casing twice is lower-casing once. */
  lemma LowerIdempotent(s: string)
    ensures Lower(Lower(s)) == Lower(s)
  {
  }

  /** `s.includes(t)`: `t` occurs in `s` as a contiguous piece; the empty string occurs everywhere. */
  function Includes(s: string, t: string): (r: bool)
    ensures t == [] ==> r
    ensures r ==> |t| <= |s|
    ensures |t| == |s| ==> (r <==> s == t)
    decreases |s|
  {
    if |t| > |s| then false
    else if s[..|t|] == t then true
    else Includes(s[1..], t)
  }

  /** `t` occurs in `s` starting at position `i`. */
  predicate OccursAt(s: string, t: string, i: int) {
    0 <= i && i + |t| <= |s| && s[i..i + |t|] == t
  }

  /** `Includes` agrees with the positional definition of a substring. */
  lemma {:induction false} IncludesIff(s: string, t: string)
    ensures Includes(s, t) <==> exists i :: OccursAt(s, t, i)
    decreases |s|
  {
    if |t| > |s| {
    } else if s[..|t|] == t {
      assert OccursAt(s, t, 0);
    } else {
      IncludesIff(s[1..], t);
      if Includes(s[1..], t) {
        var i :| OccursAt(s[1..], t, i);
        assert s[i + 1..i + 1 + |t|] == s[1..][i..i + |t|];
        assert OccursAt(s, t, i + 1);
      } else {
        forall i | OccursAt(s, t, i)
          ensures false
        {
          assert 0 < i && i + |t| <= |s|;
          assert s[1..][i - 1..i - 1 + |t|] == s[i..i + |t|];
          assert OccursAt(s[1..], t, i - 1);
        }
      }
    }
  }

  /** `hobby.toLowerCase().includes(searchTerm.toLowerCase())`. */
  function MatchesTerm(hobby: string, term: string): (matches: bool)
    ensures matches <==> exists i :: OccursAt(Lower(hobby), Lower(term), i)
    ensures term == "" ==> matches
  {
    IncludesIff(Lower(hobby), Lower(term));
    Includes(Lower(hobby), Lower(term))
  }

  /** The search is blind to the case of the term. */
  lemma MatchesTermCaseBlind(hobby: string, term: string)
    ensures MatchesTerm(hobby, term) == MatchesTerm(hobby, Lower(term))
  {
    LowerIdempotent(term);
  }

  /** The hobbies of `hs` that match the term, in their order in `hs`. */
  function Matching(hs: seq<string>, term: string): (r: seq<string>)
    ensures forall h :: h in r <==> h in hs && MatchesTerm(h, term)
    ensures IsSubseq(r, hs)
  {
    if hs == [] then []
    else
      var rest := Matching(hs[1..], term);
      if MatchesTerm(hs[0], term) then
        assert ([hs[0]] + rest)[1..] == rest;
        [hs[0]] + rest
      else
        rest
  }

  /** Filtering keeps the relative order of first occurrences. */
  lemma {:induction false} MatchingKeepsFirstOrder(hs: seq<string>, term: string, x: string, y: string)
    requires x in Matching(hs, term) && y in Matching(hs, term)
    requires FirstIndex(Matching(hs, term), x) < FirstIndex(Matching(hs, term), y)
    ensures FirstIndex(hs, x) < FirstIndex(hs, y)
  {
    var m := Matching(hs, term);
    if hs[0] == x {
    } else if hs[0] == y {
    } else {
      var rest := Matching(hs[1..], term);
      if MatchesTerm(hs[0], term) {
        assert m == [hs[0]] + rest;
        assert FirstIndex(m, x) == FirstIndex(rest, x) + 1 by {
          assert m[1..] == rest;
        }
        assert FirstIndex(m, y) == FirstIndex(rest, y) + 1 by {
          assert m[1..] == rest;
        }
      }
      MatchingKeepsFirstOrder(hs[1..], term, x, y);
    }
  }

  /** `filteredHobbies`: the active tab's list without a term; with one, every hobby of any
      category that contains it, case-insensitively, once each. */
  function FilteredHobbies(term: string, tab: Tab): (r: seq<string>)
    ensures term == "" ==> r == TabHobbies(tab)
    ensures term != "" ==> forall h :: h in r <==> h in AllCategoryHobbies() && MatchesTerm(h, term)
    ensures term != "" ==> NoDup(r)
  {
    if term != "" then Dedup(Matching(AllCategoryHobbies(), term))
    else TabHobbies(tab)
  }

  /** The search results appear in the order in which they first occur across the categories. */
  lemma SearchResultOrder(term: string, tab: Tab)
    requires term != ""
    ensures var r := FilteredHobbies(term, tab);
      forall i, j :: 0 <= i < j < |r| ==>
        r[i] in AllCategoryHobbies() && r[j] in AllCategoryHobbies() &&
        FirstIndex(AllCategoryHobbies(), r[i]) < FirstIndex(AllCategoryHobbies(), r[j])
  {
    var all := AllCategoryHobbies();
    var m := Matching(all, term);
    var r := FilteredHobbies(term, tab);
    forall i, j | 0 <= i < j < |r|
      ensures r[i] in all && r[j] in all && FirstIndex(all, r[i]) < FirstIndex(all, r[j])
    {
      MatchingKeepsFirstOrder(all, term, r[i], r[j]);
    }
  }

  /** The Clear control with its count, present only while something is selected. */
  function ClearControl(selected: seq<string>): (count: Option<nat>)
    ensures count.Some? <==> |selected| > 0
    ensures count.Some? ==> count.value == |selected|
  {
    if |selected| > 0 then Some(|selected|) else None
  }

  /** The picker's own state: the search term and the active tab. */
  class HobbyFilterView {
    var searchTerm: string
    var activeTab: Tab

    constructor()
      ensures searchTerm == "" && activeTab == PopularTab
      ensures Shown() == TabHobbies(PopularTab)
    {
      searchTerm := "";
      activeTab := PopularTab;
    }

    /** The hobbies currently listed. */
    function Shown(): seq<string>
      reads this
    {
      FilteredHobbies(searchTerm, activeTab)
    }

    /** The X inside the search box, shown only while a term is typed. */
    predicate OffersClearSearch()
      reads this
    {
      searchTerm != ""
    }

    method SetSearchTerm(term: string)
      modifies this`searchTerm
      ensures searchTerm == term
    {
      searchTerm := term;
    }

    method SetActiveTab(t: Tab)
      modifies this`activeTab
      ensures activeTab == t
    {
      activeTab := t;
    }

    /** The X button: the term is emptied and the active tab's list shows again. */
    method ClearSearch()
      modifies this`searchTerm
      ensures searchTerm == "" && !OffersClearSearch()
      ensures Shown() == TabHobbies(activeTab)
    {
      searchTerm := "";
    }
  }
}
