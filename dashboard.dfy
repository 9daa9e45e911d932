/** The dashboard: the start-interview gate, the labels of the interview list, the
    date order of the list and the statistics card. */
module Dashboard {
  import opened Common
  import opened Strings
  import opened Backend
  import opened AuthService

  // ---------------------------------------------------------------------------
  // Start gate

  /** Where `handleStartInterview` navigates: with no profile loaded the user counts
      as free with no interviews left. */
  function StartDestination(user: Option<UserProfile>): (path: string)
    ensures path == "/pricing" || path == "/setup"
    ensures path == "/pricing" <==>
      (user.None? || (user.value.subscription == "free" && user.value.interviewsRemaining <= 0))
  {
    var subscription := if user.Some? then user.value.subscription else "free";
    var remaining := if user.Some? then user.value.interviewsRemaining else 0;
    if subscription == "free" && remaining <= 0 then "/pricing" else "/setup"
  }

  // ---------------------------------------------------------------------------
  // Labels

  /** A JavaScript number rendered in a template string, for integers. */
  function IntToString(n: int): string {
    if n < 0 then "-" + NatToString(-n) else NatToString(n)
  }

  /** `formatDuration`: whole minutes, rounded down, then " min". */
  function FormatDuration(seconds: int): string {
    IntToString(seconds / 60) + " min"
  }

  /** The text shows the minutes m with 60m <= seconds < 60m + 60, as digits when
      the duration is not negative, and ends in " min". */
  lemma FormatDurationValue(seconds: int)
    ensures EndsWith(FormatDuration(seconds), " min")
    ensures 60 * (seconds / 60) <= seconds < 60 * (seconds / 60) + 60
    ensures seconds >= 0 ==>
      var text := FormatDuration(seconds);
      AllDigits(text[..|text| - 4]) && ParseNat(text[..|text| - 4]) == seconds / 60
  {
    var m := seconds / 60;
    var text := FormatDuration(seconds);
    assert text == IntToString(m) + " min";
    assert text[|text| - 4..] == " min";
    if seconds >= 0 {
      assert text[..|text| - 4] == NatToString(m);
      ParseNatToString(m);
    }
  }

  const EasyColor := "bg-green-100 text-green-700"
  const MediumColor := "bg-blue-100 text-blue-700"
  const HardColor := "bg-red-100 text-red-700"

  /** `getDifficultyColor`: the medium colour for any value other than the three
      difficulty codes. */
  function DifficultyColor(avatarType: string): (c: string)
    ensures avatarType == "easy" ==> c == EasyColor
    ensures avatarType == "hard" ==> c == HardColor
    ensures avatarType != "easy" && avatarType != "hard" ==> c == MediumColor
  {
    if avatarType == "easy" then EasyColor
    else if avatarType == "medium" then MediumColor
    else if avatarType == "hard" then HardColor
    else MediumColor
  }

  // ---------------------------------------------------------------------------
  // Date order

  /** Newest first, equal dates allowed. */
  predicate ByDateDescending(s: seq<InterviewRow>) {
    forall i, j :: 0 <= i < j < |s| ==> s[i].date >= s[j].date
  }

  /** `allInterviews.sort((a, b) => b.date - a.date)`, in place: an insertion sort
      that moves a row forward only past strictly older rows, as a stable sort does. */
  method SortByDate(a: array<InterviewRow>)
    modifies a
    ensures ByDateDescending(a[..])
    ensures multiset(a[..]) == multiset(old(a[..]))
  {
    var i := 0;
    while i < a.Length
      invariant 0 <= i <= a.Length
      invariant ByDateDescending(a[..i])
      invariant multiset(a[..]) == multiset(old(a[..]))
    {
      Insert(a, i);
      i := i + 1;
    }
    assert a[..a.Length] == a[..];
  }

  /** Moves `a[i]` forward past the strictly older rows of the sorted prefix. */
  method Insert(a: array<InterviewRow>, i: nat)
    requires i < a.Length && ByDateDescending(a[..i])
    modifies a
    ensures ByDateDescending(a[..i + 1])
    ensures multiset(a[..]) == multiset(old(a[..]))
  {
    var j := i;
    while j > 0 && a[j - 1].date < a[j].date
      invariant 0 <= j <= i
      invariant forall p, q :: 0 <= p < q <= i && q != j ==> a[p].date >= a[q].date
      invariant 0 < j < i ==> a[j - 1].date >= a[j + 1].date
      invariant multiset(a[..]) == multiset(old(a[..]))
    {
      Swap(a, j - 1, j);
      j := j - 1;
    }
  }

  method Swap(a: array<InterviewRow>, i: nat, j: nat)
    requires i < j < a.Length
    modifies a
    ensures a[i] == old(a[j]) && a[j] == old(a[i])
    ensures forall m :: 0 <= m < a.Length && m != i && m != j ==> a[m] == old(a[m])
    ensures multiset(a[..]) == multiset(old(a[..]))
  {
    a[i], a[j] := a[j], a[i];
  }

  // ---------------------------------------------------------------------------
  // Statistics

  function ScoreSum(rows: seq<InterviewRow>): int
    decreases |rows|
  {
    if rows == [] then 0 else ScoreSum(rows[..|rows| - 1]) + rows[|rows| - 1].score
  }

  /** The average score card: 0 without interviews, otherwise `Math.round` of the mean,
      which rounds halves up: floor(sum / n + 1/2). */
  function AverageScore(rows: seq<InterviewRow>): (avg: int)
    ensures rows == [] ==> avg == 0
    ensures rows != [] ==>
      var n := |rows|;
      2 * (n * avg) - n <= 2 * ScoreSum(rows) < 2 * (n * avg) + n
  {
    if rows == [] then 0
    else
      var n := |rows|;
      (2 * ScoreSum(rows) + n) / (2 * n)
  }

  /** Scores within bounds give an average within the same bounds. */
  lemma AverageWithin(rows: seq<InterviewRow>, lo: int, hi: int)
    requires rows != []
    requires forall k :: 0 <= k < |rows| ==> lo <= rows[k].score <= hi
    ensures lo <= AverageScore(rows) <= hi
  {
    SumWithin(rows, lo, hi);
    RoundedWithin(|rows|, ScoreSum(rows), AverageScore(rows), lo, hi);
  }

  /** A rounded mean s/n lies within the bounds that s/n does. */
  lemma RoundedWithin(n: int, s: int, avg: int, lo: int, hi: int)
    requires n > 0 && 2 * (n * avg) - n <= 2 * s < 2 * (n * avg) + n
    requires n * lo <= s <= n * hi
    ensures lo <= avg <= hi
  {
    assert n * (avg + 1) == n * avg + n;
    MulCancel(n, lo, avg + 1);
    assert n * (hi + 1) == n * hi + n;
    MulCancel(n, avg, hi + 1);
  }

  lemma MulCancel(n: int, x: int, y: int)
    requires n > 0 && n * x < n * y
    ensures x < y
  {
  }

  lemma {:induction false} SumWithin(rows: seq<InterviewRow>, lo: int, hi: int)
    requires forall k :: 0 <= k < |rows| ==> lo <= rows[k].score <= hi
    ensures |rows| * lo <= ScoreSum(rows) <= |rows| * hi
    decreases |rows|
  {
    if rows != [] {
      SumWithin(rows[..|rows| - 1], lo, hi);
    }
  }

  /** `interviews.filter(i => i.status === "completed").length` */
  function CompletedCount(rows: seq<InterviewRow>): nat
    decreases |rows|
  {
    if rows == [] then 0
    else CompletedCount(rows[..|rows| - 1]) + (if rows[|rows| - 1].status == Completed then 1 else 0)
  }

  /** The completed count never exceeds the total, and reaches it exactly when every
      interview is completed. */
  lemma {:induction false} CompletedWithinTotal(rows: seq<InterviewRow>)
    ensures CompletedCount(rows) <= |rows|
    ensures CompletedCount(rows) == |rows| <==> forall k :: 0 <= k < |rows| ==> rows[k].status == Completed
    decreases |rows|
  {
    if rows != [] {
      var init := rows[..|rows| - 1];
      CompletedWithinTotal(init);
      if forall k :: 0 <= k < |rows| ==> rows[k].status == Completed {
        assert forall k :: 0 <= k < |init| ==> init[k].status == Completed by {
          forall k | 0 <= k < |init| ensures init[k] == rows[k] { }
        }
      }
      if CompletedCount(rows) == |rows| {
        forall k | 0 <= k < |rows| ensures rows[k].status == Completed {
          if k < |init| {
            assert init[k] == rows[k];
          }
        }
      }
    }
  }

  /** Sorting reorders the rows only, so the statistics are the same before and after. */
  lemma {:induction false} StatisticsIgnoreOrder(a: seq<InterviewRow>, b: seq<InterviewRow>)
    requires multiset(a) == multiset(b)
    ensures |a| == |b| && CompletedCount(a) == CompletedCount(b) && ScoreSum(a) == ScoreSum(b)
    ensures AverageScore(a) == AverageScore(b)
    decreases |a|
  {
    assert |a| == |multiset(a)| == |multiset(b)| == |b|;
    if a != [] {
      var k := MatchLast(a, b);
      StatisticsIgnoreOrder(a[..|a| - 1], b[..k] + b[k + 1..]);
      RemoveAt(b, k);
    }
  }

  /** The last row of `a` sits somewhere in a permutation `b` of it; the rest of `a`
      is a permutation of the rest of `b`. */
  lemma MatchLast(a: seq<InterviewRow>, b: seq<InterviewRow>) returns (k: nat)
    requires a != [] && multiset(a) == multiset(b)
    ensures k < |b| && b[k] == a[|a| - 1]
    ensures multiset(a[..|a| - 1]) == multiset(b[..k] + b[k + 1..])
  {
    var x := a[|a| - 1];
    assert a == a[..|a| - 1] + [x];
    assert x in multiset(b) by { assert x in multiset(a); }
    k :| 0 <= k < |b| && b[k] == x;
    MultisetRemove(b, k);
    assert multiset(a[..|a| - 1]) == multiset(a) - multiset{x};
  }

  /** Taking out the row at `k` takes its score and status out of the statistics. */
  lemma {:induction false} RemoveAt(b: seq<InterviewRow>, k: nat)
    requires k < |b|
    ensures ScoreSum(b) == ScoreSum(b[..k] + b[k + 1..]) + b[k].score
    ensures CompletedCount(b) == CompletedCount(b[..k] + b[k + 1..]) + (if b[k].status == Completed then 1 else 0)
    decreases |b|
  {
    var r := b[..k] + b[k + 1..];
    if k == |b| - 1 {
      assert r == b[..|b| - 1];
    } else {
      var init := b[..|b| - 1];
      RemoveAt(init, k);
      var rest := init[..k] + init[k + 1..];
      assert init[..k] == b[..k];
      assert b[k + 1..] == init[k + 1..] + [b[|b| - 1]];
      assert r == rest + [b[|b| - 1]];
      assert r[..|r| - 1] == rest;
    }
  }

  lemma MultisetRemove(b: seq<InterviewRow>, k: nat)
    requires k < |b|
    ensures multiset(b) == multiset(b[..k] + b[k + 1..]) + multiset{b[k]}
  {
    assert b == b[..k] + [b[k]] + b[k + 1..];
  }
}
