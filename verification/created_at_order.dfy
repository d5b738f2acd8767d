/** Ordering transactions by `createdAt`, most recent first.
    Where a missing timestamp goes is a parameter: Kotlin's
    `sortedByDescending` treats null as the smallest value, while for a
    JPQL `ORDER BY ... DESC` the placement of NULLs is left to the database. */
module CreatedAtOrder {
  import opened Wrappers
  import opened Entities

  datatype NullPlacement = NullsLowest | NullsHighest

  /** `a` is at least as late as `b` under the given placement of NULL. */
  predicate AtLeast(a: Option<int>, b: Option<int>, p: NullPlacement) {
    match (a, b)
    case (None, None) => true
    case (None, Some(_)) => p == NullsHighest
    case (Some(_), None) => p == NullsLowest
    case (Some(x), Some(y)) => x >= y
  }

  lemma {:induction false} AtLeastIsTotalPreorder(a: Option<int>, b: Option<int>, c: Option<int>, p: NullPlacement)
    ensures AtLeast(a, a, p)
    ensures AtLeast(a, b, p) || AtLeast(b, a, p)
    ensures AtLeast(a, b, p) && AtLeast(b, c, p) ==> AtLeast(a, c, p)
  {
  }

  /** Every transaction is at least as recent as every one after it. */
  predicate SortedDesc(s: seq<Transaction>, p: NullPlacement) {
    forall i, j :: 0 <= i < j < |s| ==> AtLeast(s[i].createdAt, s[j].createdAt, p)
  }

  /** Places `t` in front of the first element it is at least as recent as. */
  function Insert(t: Transaction, s: seq<Transaction>, p: NullPlacement): (r: seq<Transaction>)
    ensures multiset(r) == multiset(s) + multiset{t}
  {
    if |s| == 0 then [t]
    else if AtLeast(t.createdAt, s[0].createdAt, p) then [t] + s
    else
      assert s == [s[0]] + s[1..];
      [s[0]] + Insert(t, s[1..], p)
  }

  lemma {:induction false} InsertKeepsSorted(t: Transaction, s: seq<Transaction>, p: NullPlacement)
    requires SortedDesc(s, p)
    ensures SortedDesc(Insert(t, s, p), p)
  {
    if |s| == 0 {
    } else if AtLeast(t.createdAt, s[0].createdAt, p) {
      forall j | 0 <= j < |s| ensures AtLeast(t.createdAt, s[j].createdAt, p) {
        AtLeastIsTotalPreorder(t.createdAt, s[0].createdAt, s[j].createdAt, p);
      }
      ConsKeepsSorted(t, s, p);
    } else {
      var rest := Insert(t, s[1..], p);
      assert SortedDesc(s[1..], p) by {
        forall i, j | 0 <= i < j < |s[1..]| ensures AtLeast(s[1..][i].createdAt, s[1..][j].createdAt, p) {
          assert s[1..][i] == s[i + 1] && s[1..][j] == s[j + 1];
        }
      }
      InsertKeepsSorted(t, s[1..], p);
      HeadDominatesInsert(t, s, p);
      ConsKeepsSorted(s[0], rest, p);
    }
  }

  lemma {:induction false} ConsKeepsSorted(x: Transaction, s: seq<Transaction>, p: NullPlacement)
    requires SortedDesc(s, p)
    requires forall j :: 0 <= j < |s| ==> AtLeast(x.createdAt, s[j].createdAt, p)
    ensures SortedDesc([x] + s, p)
  {
    var r := [x] + s;
    forall i, j | 0 <= i < j < |r| ensures AtLeast(r[i].createdAt, r[j].createdAt, p) {
      assert r[j] == s[j - 1];
      if i > 0 {
        assert r[i] == s[i - 1];
      }
    }
  }

  /** When `t` goes after the head of `s`, the head is at least as recent as
      everything `t` is inserted among. */
  lemma {:induction false} HeadDominatesInsert(t: Transaction, s: seq<Transaction>, p: NullPlacement)
    requires SortedDesc(s, p) && |s| > 0 && !AtLeast(t.createdAt, s[0].createdAt, p)
    ensures forall k :: 0 <= k < |Insert(t, s[1..], p)| ==>
              AtLeast(s[0].createdAt, Insert(t, s[1..], p)[k].createdAt, p)
  {
    AtLeastIsTotalPreorder(t.createdAt, s[0].createdAt, s[0].createdAt, p);
    var rest := Insert(t, s[1..], p);
    forall k | 0 <= k < |rest| ensures AtLeast(s[0].createdAt, rest[k].createdAt, p) {
      assert rest[k] in multiset(rest);
      if rest[k] != t {
        assert rest[k] in multiset(s[1..]);
        var m :| 0 <= m < |s[1..]| && s[1..][m] == rest[k];
        assert s[m + 1] == rest[k];
      }
    }
  }

  /** The transactions of `s`, most recent first; ties keep their order. */
  function SortByCreatedAtDesc(s: seq<Transaction>, p: NullPlacement): (r: seq<Transaction>)
    ensures SortedDesc(r, p)
    ensures multiset(r) == multiset(s)
  {
    if |s| == 0 then []
    else
      assert s == [s[0]] + s[1..];
      var rest := SortByCreatedAtDesc(s[1..], p);
      InsertKeepsSorted(s[0], rest, p);
      Insert(s[0], rest, p)
  }

  /** The first element of a sorted permutation is a most recent one. */
  lemma {:induction false} SortedHeadIsMostRecent(s: seq<Transaction>, p: NullPlacement)
    requires |s| > 0
    ensures var r := SortByCreatedAtDesc(s, p);
            forall t :: t in s ==> AtLeast(r[0].createdAt, t.createdAt, p)
  {
    var r := SortByCreatedAtDesc(s, p);
    forall t | t in s ensures AtLeast(r[0].createdAt, t.createdAt, p) {
      assert t in multiset(r);
      var j :| 0 <= j < |r| && r[j] == t;
      if j == 0 {
        AtLeastIsTotalPreorder(t.createdAt, t.createdAt, t.createdAt, p);
      }
    }
  }
}
