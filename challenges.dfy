/**
 * The student's challenge list: the filter combining a status filter, a
 * case-insensitive text search over title and description, and a category
 * filter; and the one action each challenge card shows for its status.
 */
module Challenges {
  import opened Wrappers
  import opened Types
  import opened Seqs

  /** The filter value that lets every status, or every category, through. */
  const All: string := "all"

  /** ASCII lower-casing of one character. */
  function LowerChar(c: char): char {
    if 'A' <= c <= 'Z' then (c as int + 32) as char else c
  }

  /** `toLowerCase`, on ASCII letters. */
  function Lower(s: string): (r: string)
    ensures |r| == |s|
    ensures forall i :: 0 <= i < |s| ==> r[i] == LowerChar(s[i])
    ensures forall i :: 0 <= i < |s| ==> !('A' <= r[i] <= 'Z')
  {
    if s == [] then [] else [LowerChar(s[0])] + Lower(s[1..])
  }

  /** Lower-casing twice is lower-casing once. */
  lemma LowerIdempotent(s: string)
    ensures Lower(Lower(s)) == Lower(s)
  {
  }

  /** `text.includes(pat)`, scanning the start positions from left to right. */
  function Includes(text: string, pat: string): (r: bool)
    ensures r ==> |pat| <= |text|
    decreases |text|
  {
    if |pat| > |text| then false
    else if text[..|pat|] == pat then true
    else Includes(text[1..], pat)
  }

  /** `pat` occurs in `text` starting at position `i`. */
  predicate OccursAt(text: string, pat: string, i: int) {
    0 <= i <= |text| - |pat| && text[i..i + |pat|] == pat
  }

  /** `Includes` holds exactly when `pat` occurs in `text` at some position. */
  lemma {:induction false} IncludesIff(text: string, pat: string)
    ensures Includes(text, pat) <==> exists i :: OccursAt(text, pat, i)
    decreases |text|
  {
    if |pat| > |text| {
    } else if text[..|pat|] == pat {
      assert OccursAt(text, pat, 0);
    } else {
      IncludesIff(text[1..], pat);
      if Includes(text, pat) {
        var i :| OccursAt(text[1..], pat, i);
        assert text[i + 1..i + 1 + |pat|] == text[1..][i..i + |pat|];
        assert OccursAt(text, pat, i + 1);
      }
      if exists i :: OccursAt(text, pat, i) {
        var i :| OccursAt(text, pat, i);
        assert i != 0;
        assert text[1..][i - 1..i - 1 + |pat|] == text[i..i + |pat|];
        assert OccursAt(text[1..], pat, i - 1);
      }
    }
  }

  /** The empty search term occurs in every text. */
  lemma IncludesEmpty(text: string)
    ensures Includes(text, "")
  {
  }

  /** The three tests a challenge must all pass to be listed. */
  predicate Matches(c: Challenge, statusFilter: string, searchTerm: string, category: string) {
    && (statusFilter == All || StatusName(c.status) == statusFilter)
    && (Includes(Lower(c.title), Lower(searchTerm)) || Includes(Lower(c.description), Lower(searchTerm)))
    && (category == All || c.category == category)
  }

  /**
   * `filteredChallenges`: the challenges that pass, in their original order.
   * A challenge is kept iff it passes, and what is kept is a subsequence of
   * the input.
   */
  function FilterChallenges(cs: seq<Challenge>, statusFilter: string, searchTerm: string, category: string)
    : (r: seq<Challenge>)
    ensures forall c :: c in r <==> c in cs && Matches(c, statusFilter, searchTerm, category)
    ensures IsSubsequence(r, cs)
    ensures forall c :: multiset(r)[c] == if Matches(c, statusFilter, searchTerm, category) then multiset(cs)[c] else 0
    decreases |cs|
  {
    if cs == [] then []
    else
      var rest := FilterChallenges(cs[1..], statusFilter, searchTerm, category);
      assert cs == [cs[0]] + cs[1..];
      assert forall c :: c in cs <==> c == cs[0] || c in cs[1..];
      if Matches(cs[0], statusFilter, searchTerm, category) then [cs[0]] + rest
      else
        assert IsSubsequence(rest, [cs[0]] + cs[1..]);
        rest
  }

  /** With every filter at its default nothing is removed. */
  lemma {:induction false} DefaultFiltersKeepAll(cs: seq<Challenge>)
    ensures FilterChallenges(cs, All, "", All) == cs
    decreases |cs|
  {
    if cs != [] {
      IncludesEmpty(Lower(cs[0].title));
      assert Matches(cs[0], All, "", All);
      DefaultFiltersKeepAll(cs[1..]);
      assert cs == [cs[0]] + cs[1..];
    }
  }

  /** Filtering the filtered list again with the same criteria changes nothing. */
  lemma {:induction false} FilterIdempotent(cs: seq<Challenge>, statusFilter: string, searchTerm: string, category: string)
    ensures var once := FilterChallenges(cs, statusFilter, searchTerm, category);
      FilterChallenges(once, statusFilter, searchTerm, category) == once
    decreases |cs|
  {
    if cs != [] {
      FilterIdempotent(cs[1..], statusFilter, searchTerm, category);
      var rest := FilterChallenges(cs[1..], statusFilter, searchTerm, category);
      if Matches(cs[0], statusFilter, searchTerm, category) {
        assert ([cs[0]] + rest)[1..] == rest;
      }
    }
  }

  /** Replacing the status filter `all` by a specific status only removes challenges. */
  lemma {:induction false} NarrowingStatusOnlyRemoves(cs: seq<Challenge>, statusFilter: string, searchTerm: string, category: string)
    ensures IsSubsequence(FilterChallenges(cs, statusFilter, searchTerm, category),
                          FilterChallenges(cs, All, searchTerm, category))
    decreases |cs|
  {
    if cs != [] {
      NarrowingStatusOnlyRemoves(cs[1..], statusFilter, searchTerm, category);
      var narrow := FilterChallenges(cs[1..], statusFilter, searchTerm, category);
      var wide := FilterChallenges(cs[1..], All, searchTerm, category);
      if Matches(cs[0], All, searchTerm, category) {
        assert ([cs[0]] + wide)[1..] == wide;
        if Matches(cs[0], statusFilter, searchTerm, category) {
          assert ([cs[0]] + narrow)[1..] == narrow;
        }
      }
    }
  }

  /** Replacing the category filter `all` by a specific category only removes challenges. */
  lemma {:induction false} NarrowingCategoryOnlyRemoves(cs: seq<Challenge>, statusFilter: string, searchTerm: string, category: string)
    ensures IsSubsequence(FilterChallenges(cs, statusFilter, searchTerm, category),
                          FilterChallenges(cs, statusFilter, searchTerm, All))
    decreases |cs|
  {
    if cs != [] {
      NarrowingCategoryOnlyRemoves(cs[1..], statusFilter, searchTerm, category);
      var narrow := FilterChallenges(cs[1..], statusFilter, searchTerm, category);
      var wide := FilterChallenges(cs[1..], statusFilter, searchTerm, All);
      if Matches(cs[0], statusFilter, searchTerm, All) {
        assert ([cs[0]] + wide)[1..] == wide;
        if Matches(cs[0], statusFilter, searchTerm, category) {
          assert ([cs[0]] + narrow)[1..] == narrow;
        }
      }
    }
  }

  /** The challenges the page lists. */
  const SampleChallenges: seq<Challenge> := [
    Challenge("1", "Water Conservation Week",
              "Track your daily water usage and implement conservation techniques for a full week",
              150, Medium, "Water", Completed, Some("2024-01-20"), Some(100)),
    Challenge("2", "Plastic-Free Day", "Go one full day without using single-use plastics",
              100, Easy, "Waste", InProgress, None, Some(75)),
    Challenge("3", "Energy Audit Challenge",
              "Conduct a comprehensive energy audit of your home and implement 5 improvements",
              250, Hard, "Energy", Available, None, None),
    Challenge("4", "Green Transportation Month", "Use eco-friendly transportation methods for an entire month",
              300, Hard, "Transportation", Available, None, None),
    Challenge("5", "Urban Garden Starter", "Create a small urban garden with at least 3 different plants",
              200, Medium, "Nature", Available, None, None),
    Challenge("6", "Eco-Friendly Meal Prep", "Plan and prepare sustainable meals for a week using local ingredients",
              120, Easy, "Food", InProgress, None, Some(40))
  ]

  /** With an empty search and every category, only the status test remains. */
  lemma EmptySearchTestsStatusOnly(c: Challenge, statusFilter: string)
    ensures Matches(c, statusFilter, "", All) <==> statusFilter == All || StatusName(c.status) == statusFilter
  {
    IncludesEmpty(Lower(c.title));
  }

  /** The challenges of a given status, in order. */
  function OfStatus(cs: seq<Challenge>, s: ChallengeStatus): seq<Challenge> {
    if cs == [] then []
    else (if cs[0].status == s then [cs[0]] else []) + OfStatus(cs[1..], s)
  }

  /** A status tab with an empty search and every category lists exactly the challenges of that status. */
  lemma {:induction false} StatusTabListsStatus(cs: seq<Challenge>, s: ChallengeStatus)
    ensures FilterChallenges(cs, StatusName(s), "", All) == OfStatus(cs, s)
    decreases |cs|
  {
    if cs != [] {
      EmptySearchTestsStatusOnly(cs[0], StatusName(s));
      assert StatusName(cs[0].status) == StatusName(s) <==> cs[0].status == s;
      StatusTabListsStatus(cs[1..], s);
    }
  }

  /** The page opens on the default filters, so it lists all six sample challenges in their order. */
  lemma SampleListOpensComplete()
    ensures FilterChallenges(SampleChallenges, All, "", All) == SampleChallenges
  {
    DefaultFiltersKeepAll(SampleChallenges);
  }

  /** What a challenge card offers in its action area. */
  datatype ChallengeAction = StartButton | ContinueButton | CompletedLabel

  /** The three independent status tests of the card, each adding its element when it holds. */
  function ActionsShown(s: ChallengeStatus): seq<ChallengeAction> {
    (if s == Available then [StartButton] else [])
    + (if s == InProgress then [ContinueButton] else [])
    + (if s == Completed then [CompletedLabel] else [])
  }

  /** Every status shows exactly one action: Start, Continue or the Completed label. */
  lemma ExactlyOneAction(s: ChallengeStatus)
    ensures |ActionsShown(s)| == 1
    ensures ActionsShown(s)[0] == StartButton <==> s == Available
    ensures ActionsShown(s)[0] == ContinueButton <==> s == InProgress
    ensures ActionsShown(s)[0] == CompletedLabel <==> s == Completed
  {
  }
}
