/** The challenge queries built by the pages, and the filter bar of the two
    challenge lists: the past-challenges list of the today page (only dates
    before today) and the archive (every date). A filter set to "All"
    constrains nothing; any other value adds one equality. */
module ChallengeFilters {
  import opened Wrappers
  import Rows
  import Text

  const All := "All"
  const Difficulties := ["All", "Beginner", "Intermediate", "Advanced"]
  const Categories := ["All", "UX", "UI", "Microinteraction", "Landing Page", "Mobile"]

  datatype Column = IdColumn | DateColumn | DifficultyColumn | CategoryColumn

  /** One filter of a query: `.lt("challenge_date", d)` or `.eq(column, v)`. */
  datatype Constraint = DateBefore(date: string) | Equals(column: Column, value: string)

  /** A query on `challenges`: its filters, and whether it is ordered by date
      newest first. */
  datatype Query = Query(constraints: seq<Constraint>, newestFirst: bool)

  function ColumnValue(c: Rows.Challenge, column: Column): string {
    match column
    case IdColumn => c.id
    case DateColumn => c.challengeDate
    case DifficultyColumn => c.difficulty
    case CategoryColumn => c.category
  }

  /** Strict lexicographic order on strings, which is the order of dates
      written `YYYY-MM-DD`. */
  predicate Before(a: string, b: string)
    decreases |a|
  {
    b != [] && (a == [] || a[0] < b[0] || (a[0] == b[0] && Before(a[1..], b[1..])))
  }

  /** No date is before itself. */
  lemma {:induction false} BeforeIrreflexive(a: string)
    ensures !Before(a, a)
    decreases |a|
  {
    if a != [] {
      BeforeIrreflexive(a[1..]);
    }
  }

  /** Of two dates one at most is before the other. */
  lemma {:induction false} BeforeAsymmetric(a: string, b: string)
    requires Before(a, b)
    ensures !Before(b, a)
    decreases |a|
  {
    if a != [] && a[0] == b[0] {
      BeforeAsymmetric(a[1..], b[1..]);
    }
  }

  predicate Satisfies(c: Rows.Challenge, k: Constraint) {
    match k
    case DateBefore(d) => Before(c.challengeDate, d)
    case Equals(column, v) => ColumnValue(c, column) == v
  }

  /** The rows a query selects are those that satisfy every filter. */
  predicate Selects(q: Query, c: Rows.Challenge) {
    forall k :: k in q.constraints ==> Satisfies(c, k)
  }

  /** What the filter bar asks for: a date before `before` when there is such
      a bound, and the chosen difficulty and category unless they are "All". */
  predicate Wanted(c: Rows.Challenge, before: Option<string>, difficulty: string, category: string) {
    && (before.Some? ==> Before(c.challengeDate, before.value))
    && (difficulty != All ==> c.difficulty == difficulty)
    && (category != All ==> c.category == category)
  }

  /** The list query, built as the pages build it: the base query, then one
      `.eq` per filter that is not "All". */
  method ListQuery(before: Option<string>, difficulty: string, category: string) returns (q: Query)
    ensures q.newestFirst
    ensures forall c :: Selects(q, c) <==> Wanted(c, before, difficulty, category)
    ensures Equals(DifficultyColumn, difficulty) in q.constraints <==> difficulty != All
    ensures Equals(CategoryColumn, category) in q.constraints <==> category != All
    ensures before.None? && difficulty == All && category == All ==> q.constraints == []
    ensures |q.constraints| <= 3
  {
    q := Query(if before.Some? then [DateBefore(before.value)] else [], true);
    if difficulty != All {
      q := q.(constraints := q.constraints + [Equals(DifficultyColumn, difficulty)]);
    }
    if category != All {
      q := q.(constraints := q.constraints + [Equals(CategoryColumn, category)]);
    }
    forall c | Wanted(c, before, difficulty, category)
      ensures Selects(q, c)
    {
      forall k | k in q.constraints ensures Satisfies(c, k) {
      }
    }
    forall c | Selects(q, c)
      ensures Wanted(c, before, difficulty, category)
    {
      if before.Some? {
        assert Satisfies(c, DateBefore(before.value));
      }
      if difficulty != All {
        assert Satisfies(c, Equals(DifficultyColumn, difficulty));
      }
      if category != All {
        assert Satisfies(c, Equals(CategoryColumn, category));
      }
    }
  }

  /** The today page's past list never holds the challenge dated today. */
  lemma PastExcludesToday(c: Rows.Challenge, today: string, difficulty: string, category: string)
    requires c.challengeDate == today
    ensures !Wanted(c, Some(today), difficulty, category)
  {
    BeforeIrreflexive(today);
  }

  /** "Showing <n> <noun>", with an "s" unless there is exactly one. */
  function CountLabel(n: nat, noun: string): (r: string)
    requires noun != [] && noun[|noun| - 1] != 's'
    ensures |r| >= |noun| + 10 && r[..8] == "Showing "
    ensures n == 1 <==> r[|r| - |noun|..] == noun
    ensures n != 1 ==> r[|r| - |noun| - 1..] == noun + "s"
    ensures var k := |r| - |noun| - (if n == 1 then 1 else 2);
      8 <= k && r[k] == ' ' && r[8..k] == Text.NatToString(n)
  {
    var digits := Text.NatToString(n);
    var r := "Showing " + digits + " " + (if n != 1 then noun + "s" else noun);
    assert r[8..8 + |digits|] == digits;
    r
  }

  /** The number shown in the label reads back as the count. */
  lemma CountLabelCount(n: nat, noun: string)
    requires noun != [] && noun[|noun| - 1] != 's'
    ensures var r := CountLabel(n, noun); var k := |r| - |noun| - (if n == 1 then 1 else 2);
      8 <= k && (forall i :: 8 <= i < k ==> Text.IsDigit(r[i])) && Text.DigitsValue(r[8..k]) == n
  {
    Text.NatToStringRoundTrip(n);
  }

  /** The filter bar's two selections. */
  class FilterBar {
    var difficultyFilter: string
    var categoryFilter: string

    constructor ()
      ensures difficultyFilter == All && categoryFilter == All
    {
      difficultyFilter, categoryFilter := All, All;
    }

    /** The "Clear filters" button is shown only while a filter is set. */
    predicate ShowsClear()
      reads this
    {
      difficultyFilter != All || categoryFilter != All
    }

    method SelectDifficulty(d: string)
      requires d in Difficulties
      modifies this`difficultyFilter
      ensures difficultyFilter == d
    {
      difficultyFilter := d;
    }

    method SelectCategory(c: string)
      requires c in Categories
      modifies this`categoryFilter
      ensures categoryFilter == c
    {
      categoryFilter := c;
    }

    /** "Clear filters": both back to "All", after which the list is the
        unfiltered one and the button is hidden. */
    method ClearFilters()
      modifies this
      ensures difficultyFilter == All && categoryFilter == All
      ensures !ShowsClear()
    {
      difficultyFilter, categoryFilter := All, All;
    }
  }
}
