/** `GET /api/leaderboard` (app/api/leaderboard/route.ts): a copy of the users sorted
    by the chosen score, highest first, cut to `limit` and numbered from 1. */
module ApiLeaderboard {
  import opened Wrappers
  import opened Seqs
  import opened Strings
  import opened Sorting
  import opened Database
  import opened DbUtils
  import opened Api

  datatype Score = Xp | Reputation | Level

  /** The `sortBy` echoed in the answer: the parameter, or "xp" when missing or empty. */
  function SortByParam(sortBy: Option<string>): string
  {
    if Truthy(sortBy) then sortBy.value else "xp"
  }

  /** The switch on `sortBy`: "reputation" and "level" pick those scores, and anything
      else, a missing parameter included, sorts by XP. */
  function ScoreOf(sortBy: Option<string>): (k: Score)
    ensures k == Reputation <==> sortBy == Some("reputation")
    ensures k == Level <==> sortBy == Some("level")
    ensures k == Xp <==> sortBy != Some("reputation") && sortBy != Some("level")
  {
    match SortByParam(sortBy)
    case "reputation" => Reputation
    case "level" => Level
    case _ => Xp
  }

  function ScoreValue(k: Score, u: User): int
  {
    match k
    case Xp => u.xp
    case Reputation => u.reputation
    case Level => u.level
  }

  function NegXp(u: User): int { -u.xp }
  function NegReputation(u: User): int { -u.reputation }
  function NegLevel(u: User): int { -u.level }

  /** The ascending sort key equivalent to the comparator `(a, b) => b.score - a.score`. */
  function Descending(k: Score): (key: User -> int)
    ensures forall u :: key(u) == -ScoreValue(k, u)
  {
    match k
    case Xp => NegXp
    case Reputation => NegReputation
    case Level => NegLevel
  }

  /** One row of the answer. */
  datatype Entry = Entry(
    rank: int, id: string, username: string, avatar: Option<string>,
    level: int, xp: int, reputation: int, bio: Option<string>)

  function EntryOf(rank: int, u: User): Entry
  {
    Entry(rank, u.id, u.username, u.avatar, u.level, u.xp, u.reputation, u.bio)
  }

  function EntryScore(k: Score, e: Entry): int
  {
    match k
    case Xp => e.xp
    case Reputation => e.reputation
    case Level => e.level
  }

  /** `.map((user, index) => ({ rank: index + 1, ... }))`. */
  function Ranked(users: seq<User>): (r: seq<Entry>)
    ensures |r| == |users|
    ensures forall i :: 0 <= i < |r| ==> r[i] == EntryOf(i + 1, users[i])
  {
    seq(|users|, i requires 0 <= i < |users| => EntryOf(i + 1, users[i]))
  }

  /** The `{ leaderboard, sortBy, total }` answer. */
  datatype Leaderboard = Leaderboard(entries: seq<Entry>, sortBy: string, total: nat)

  /** The users in leaderboard order: the stable sort of a copy, best score first. */
  function Standings(users: seq<User>, k: Score): seq<User>
  {
    SortBy(users, Descending(k))
  }

  /** `slice(0, limit)`, where `None` is NaN, which ends the slice at 0. */
  function Top<T>(s: seq<T>, limit: Option<int>): seq<T>
  {
    if limit.Some? then JsSlice(s, 0, limit.value) else []
  }

  /** The answer as the route computes it. */
  function Board(users: seq<User>, sortBy: Option<string>, limit: IntQuery): Leaderboard
  {
    var k := ScoreOf(sortBy);
    Leaderboard(Ranked(Top(Standings(users, k), IntParam(limit, 50))), SortByParam(sortBy), |users|)
  }

  /** The handler: copies the stored users into an array, sorts the array in place, and
      slices and numbers it. The table is not modified. */
  method Get(users: Table<User>, sortBy: Option<string>, limit: IntQuery) returns (r: Leaderboard)
    ensures r == Board(users.rows, sortBy, limit)
  {
    var rows := users.rows;
    var copy := new User[|rows|](i requires 0 <= i < |rows| => rows[i]);
    assert copy[..] == rows;
    var k := ScoreOf(sortBy);
    SortInPlace(copy, Descending(k));
    r := Leaderboard(Ranked(Top(copy[..], IntParam(limit, 50))), SortByParam(sortBy), |rows|);
  }

  /** How many elements `slice(0, limit)` keeps. */
  function TopLength(len: nat, limit: Option<int>): (m: nat)
    ensures m <= len
  {
    if limit.Some? then SliceIndex(limit.value, len) else 0
  }

  /** `slice(0, limit)` is a prefix: for a non-negative limit its length is `limit` clipped
      to the list, a negative limit drops the last `-limit` elements, and NaN keeps none. */
  lemma PrefixSlice<T>(s: seq<T>, limit: Option<int>)
    ensures Top(s, limit) == s[..TopLength(|s|, limit)]
    ensures limit.Some? && limit.value >= 0 ==> TopLength(|s|, limit) == Min(limit.value, |s|)
    ensures limit.Some? && limit.value < 0 ==>
      TopLength(|s|, limit) == if |s| + limit.value < 0 then 0 else |s| + limit.value
    ensures limit.None? ==> TopLength(|s|, limit) == 0
  {
  }

  /** With a non-negative limit (50 when absent) the answer has min(limit, users)
      entries, and with a limit that is not a number it has none; `total` counts every
      user, not just the ones returned. */
  lemma BoardSize(users: seq<User>, sortBy: Option<string>, limit: IntQuery)
    requires limit.Digits? ==> limit.n >= 0
    ensures limit.NotANumber? ==> Board(users, sortBy, limit).entries == []
    ensures !limit.NotANumber? ==> |Board(users, sortBy, limit).entries| == Min(IntParam(limit, 50).value, |users|)
    ensures Board(users, sortBy, limit).total == |users|
  {
    var s := Standings(users, ScoreOf(sortBy));
    PrefixSlice(s, IntParam(limit, 50));
  }

  /** Ranks run 1, 2, ..., k in order, and each entry is the user at that place in the
      standings, which hold every user exactly as often as the table does. */
  lemma BoardEntries(users: seq<User>, sortBy: Option<string>, limit: IntQuery)
    ensures var e := Board(users, sortBy, limit).entries;
      var s := Standings(users, ScoreOf(sortBy));
      && multiset(s) == multiset(users)
      && |e| <= |s|
      && forall i :: 0 <= i < |e| ==> e[i].rank == i + 1 && e[i] == EntryOf(i + 1, s[i])
  {
    var s := Standings(users, ScoreOf(sortBy));
    SortByPermutation(users, Descending(ScoreOf(sortBy)));
    PrefixSlice(s, IntParam(limit, 50));
  }

  /** The users shown are a prefix of the standings, so none appears more often than it
      is stored. */
  lemma BoardNoRepeats(users: seq<User>, sortBy: Option<string>, limit: IntQuery)
    ensures var s := Standings(users, ScoreOf(sortBy));
      multiset(s[..|Board(users, sortBy, limit).entries|]) <= multiset(users)
  {
    var s := Standings(users, ScoreOf(sortBy));
    var m := |Board(users, sortBy, limit).entries|;
    PrefixSlice(s, IntParam(limit, 50));
    SortByPermutation(users, Descending(ScoreOf(sortBy)));
    assert s == s[..m] + s[m..];
  }

  /** Entries never go up in the chosen score from one to the next. */
  lemma BoardOrdered(users: seq<User>, sortBy: Option<string>, limit: IntQuery)
    ensures var e := Board(users, sortBy, limit).entries;
      forall i, j :: 0 <= i < j < |e| ==> EntryScore(ScoreOf(sortBy), e[i]) >= EntryScore(ScoreOf(sortBy), e[j])
  {
    var k := ScoreOf(sortBy);
    var s := Standings(users, k);
    SortBySorted(users, Descending(k));
    PrefixSlice(s, IntParam(limit, 50));
    var e := Board(users, sortBy, limit).entries;
    forall i, j | 0 <= i < j < |e|
      ensures EntryScore(k, e[i]) >= EntryScore(k, e[j])
    {
      assert Descending(k)(s[i]) <= Descending(k)(s[j]);
    }
  }
}
