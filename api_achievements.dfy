/** `GET /api/achievements` (app/api/achievements/route.ts): every achievement, or those
    of one category compared case-insensitively. */
module ApiAchievements {
  import opened Wrappers
  import opened Seqs
  import opened Strings
  import opened Database
  import opened Api

  function CategoryIs(category: string): Achievement -> bool
  {
    (a: Achievement) => Lower(a.category) == Lower(category)
  }

  /** The filter is skipped for a missing or empty category and for exactly "all". */
  predicate Filtering(category: Option<string>)
  {
    Truthy(category) && category.value != "all"
  }

  /** The handler's list. */
  function Get(achievements: seq<Achievement>, category: Option<string>): (r: seq<Achievement>)
    ensures !Filtering(category) ==> r == achievements
    ensures Filtering(category) ==>
      && (forall i :: 0 <= i < |r| ==> r[i] in achievements && Lower(r[i].category) == Lower(category.value))
      && (forall i :: 0 <= i < |achievements| && Lower(achievements[i].category) == Lower(category.value) ==>
            achievements[i] in r)
  {
    FilterWhen(Filtering(category), achievements, CategoryIs(category.GetOr("")))
  }

  /** The list keeps the store's order. */
  lemma GetOrder(achievements: seq<Achievement>, category: Option<string>)
    ensures IsSubsequence(Get(achievements, category), achievements)
  {
    FilterWhenIsSubsequence(Filtering(category), achievements, CategoryIs(category.GetOr("")));
  }

  /** The "all" escape is case-sensitive: "ALL" is a real filter, and keeps only the
      achievements whose category is "all" in some capitalisation. */
  lemma UpperCaseAllFilters(achievements: seq<Achievement>)
    ensures Filtering(Some("ALL"))
    ensures forall i :: 0 <= i < |Get(achievements, Some("ALL"))| ==>
      Lower(Get(achievements, Some("ALL"))[i].category) == "all"
  {
    assert Lower("ALL") == "all" by {
      assert LowerChar('A') == 'a' && LowerChar('L') == 'l';
    }
  }
}
