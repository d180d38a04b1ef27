/** The Leaderboard page (frontend/src/pages/Leaderboard.jsx): the summary
    figures computed from the fetched list, the icon, badge and row
    highlight chosen per entry, and the page's fetch state. */
module Leaderboard {
  import opened Common
  import opened Api
  import opened Fetching
  import Server

  const FetchError := "Failed to fetch leaderboard data"

  // ---------------------------------------------------------------------
  // Summary figures

  /** "Total Participants": `leaderboardData.length`, one per entry, duplicates
      included. It is zero exactly for the empty list. */
  function TotalParticipants(board: seq<LeaderboardEntry>): (n: nat)
    ensures n == 0 <==> board == []
    ensures n == |multiset(board)|
  {
    |board|
  }

  /** "Total Donations": `reduce((sum, intern) => sum + intern.donations, 0)`,
      a left fold starting from 0. With no negative amounts the total is
      non-negative and at least every single amount. */
  function TotalDonations(board: seq<LeaderboardEntry>): (total: int)
    ensures NonNegativeDonations(board) ==> total >= 0
    ensures NonNegativeDonations(board) ==>
              forall i :: 0 <= i < |board| ==> board[i].donations <= total
  {
    if board == [] then 0
    else
      var front := board[..|board| - 1];
      assert forall i :: 0 <= i < |front| ==> front[i] == board[i];
      TotalDonations(front) + board[|board| - 1].donations
  }

  /** Summing two lists one after the other gives the sum of both. */
  lemma {:induction false} TotalDonationsAppend(a: seq<LeaderboardEntry>, b: seq<LeaderboardEntry>)
    ensures TotalDonations(a + b) == TotalDonations(a) + TotalDonations(b)
    decreases |b|
  {
    if b != [] {
      var b' := b[..|b| - 1];
      assert (a + b)[..|a + b| - 1] == a + b';
      TotalDonationsAppend(a, b');
    } else {
      assert a + b == a;
    }
  }

  /** When every amount lies in `[lo, hi]`, the total lies between the
      participant count times `lo` and times `hi`. */
  lemma {:induction false} TotalDonationsWithin(board: seq<LeaderboardEntry>, lo: int, hi: int)
    requires forall i :: 0 <= i < |board| ==> lo <= board[i].donations <= hi
    ensures TotalParticipants(board) * lo <= TotalDonations(board) <= TotalParticipants(board) * hi
  {
    if board != [] {
      var front := board[..|board| - 1];
      assert forall i :: 0 <= i < |front| ==> front[i] == board[i];
      TotalDonationsWithin(front, lo, hi);
      MultiplySuccessor(|front|, lo);
      MultiplySuccessor(|front|, hi);
    }
  }

  /** `Math.round` of an exact quotient: the nearest integer, halves rounded
      up. Given as the reference against which RoundHalfUp is checked. */
  function MathRound(x: real): int {
    (x + 0.5).Floor
  }

  /** Integer round-half-up of `total / count`. The result is within half a
      unit of the quotient, ties going up. */
  function RoundHalfUp(total: int, count: int): (r: int)
    requires count > 0
    ensures 2 * count * r - count <= 2 * total < 2 * count * r + count
  {
    var q := (2 * total + count) / (2 * count);
    DivisionBounds(2 * total + count, 2 * count);
    q
  }

  lemma DivisionBounds(a: int, b: int)
    requires b > 0
    ensures b * (a / b) <= a < b * (a / b) + b
  {
  }

  lemma RoundHalfUpIsMathRound(total: int, count: int)
    requires count > 0
    ensures RoundHalfUp(total, count) == MathRound(total as real / count as real)
  {
    var r := RoundHalfUp(total, count);
    var c := count as real;
    var x := total as real / c;
    IntToRealProduct(2 * count, r);
    assert 2.0 * c * r as real - c <= 2.0 * total as real < 2.0 * c * r as real + c;
    NearestBounds(c, total as real, x, r as real);
    FloorUnique(x + 0.5, r);
  }

  /** Moving the rounding bounds from `total` to the quotient `x`. */
  lemma NearestBounds(c: real, t: real, x: real, r: real)
    requires c > 0.0 && x == t / c
    requires 2.0 * c * r - c <= 2.0 * t < 2.0 * c * r + c
    ensures r <= x + 0.5 < r + 1.0
  {
    assert c * (2.0 * x) == 2.0 * t;
    assert c * (2.0 * r - 1.0) == 2.0 * c * r - c;
    assert c * (2.0 * r + 1.0) == 2.0 * c * r + c;
    ScaleDown(c, 2.0 * r - 1.0, 2.0 * x);
    ScaleDown(c, 2.0 * x, 2.0 * r + 1.0);
  }

  lemma FloorUnique(y: real, r: int)
    requires r as real <= y < r as real + 1.0
    ensures y.Floor == r
  {
  }

  lemma IntToRealProduct(a: int, b: int)
    ensures (a * b) as real == a as real * b as real
  {
  }

  /** Dividing both sides of an inequality by a positive factor. */
  lemma ScaleDown(k: real, a: real, b: real)
    requires k > 0.0
    ensures k * a <= k * b ==> a <= b
    ensures k * a < k * b ==> a < b
  {
  }

  lemma PositiveFactor(n: int, m: int)
    requires n > 0 && n * m > 0
    ensures m > 0
  {
  }

  /** "Average per Person": `Math.round(total / length)`. The code does not
      guard the division, so an empty list yields NaN, modelled as None. */
  function AveragePerPerson(board: seq<LeaderboardEntry>): (avg: Option<int>)
    ensures avg.None? <==> board == []
    ensures avg.Some? ==>
              var n := |board|;
              2 * n * avg.value - n <= 2 * TotalDonations(board) < 2 * n * avg.value + n
  {
    if TotalParticipants(board) == 0 then None
    else Some(RoundHalfUp(TotalDonations(board), TotalParticipants(board)))
  }

  lemma AveragePerPersonIsMathRound(board: seq<LeaderboardEntry>)
    requires board != []
    ensures AveragePerPerson(board)
            == Some(MathRound(TotalDonations(board) as real / |board| as real))
  {
    RoundHalfUpIsMathRound(TotalDonations(board), |board|);
  }

  /** No negative amounts, no negative average. */
  lemma AveragePerPersonNonNegative(board: seq<LeaderboardEntry>)
    requires board != [] && NonNegativeDonations(board)
    ensures AveragePerPerson(board).value >= 0
  {
    var n, a := |board|, AveragePerPerson(board).value;
    assert n * (2 * a + 1) == 2 * n * a + n;
    PositiveFactor(n, 2 * a + 1);
  }

  /** On a list sorted by strictly descending amounts the average lies
      between the last (smallest) and the first (largest) amount. */
  lemma AverageWithinRange(board: seq<LeaderboardEntry>)
    requires StrictlyDescending(board) && board != []
    ensures board[|board| - 1].donations <= AveragePerPerson(board).value <= board[0].donations
  {
    var n, last := |board|, |board| - 1;
    var lo, hi := board[last].donations, board[0].donations;
    forall i | 0 <= i < n ensures lo <= board[i].donations <= hi {
      if 0 < i { DescendingEverywhere(board, 0, i); }
      if i < last { DescendingEverywhere(board, i, last); }
    }
    TotalDonationsWithin(board, lo, hi);
    RoundedBetween(n, TotalDonations(board), AveragePerPerson(board).value, lo, hi);
  }

  /** A rounded quotient of a total between `n * lo` and `n * hi` lies
      between `lo` and `hi`. */
  lemma RoundedBetween(n: int, t: int, a: int, lo: int, hi: int)
    requires n > 0 && n * lo <= t <= n * hi
    requires 2 * n * a - n <= 2 * t < 2 * n * a + n
    ensures lo <= a <= hi
  {
    assert n * (2 * a - 1 - 2 * hi) == 2 * n * a - n - 2 * (n * hi);
    assert n * (2 * lo - 2 * a - 1) == 2 * (n * lo) - (2 * n * a + n);
    SignOfFactor(n, 2 * a - 1 - 2 * hi);
    SignOfFactor(n, 2 * lo - 2 * a - 1);
  }

  lemma MultiplySuccessor(k: int, x: int)
    ensures (k + 1) * x == k * x + x
  {
  }

  lemma SignOfFactor(n: int, m: int)
    requires n > 0
    ensures n * m <= 0 ==> m <= 0
    ensures n * m < 0 ==> m < 0
  {
  }

  /** The figures for the server's fixed list. */
  lemma ServerLeaderboardSummary()
    ensures TotalParticipants(Server.LeaderboardData) == 5
    ensures TotalDonations(Server.LeaderboardData) == 31400
    ensures AveragePerPerson(Server.LeaderboardData) == Some(6280)
  {
    var b := Server.LeaderboardData;
    assert b[..1][..0] == [] && b[..2][..1] == b[..1] && b[..3][..2] == b[..2];
    assert b[..4][..3] == b[..3] && b[..4] == b[..|b| - 1];
    assert TotalDonations(b[..1]) == 7400;
    assert TotalDonations(b[..2]) == 14200;
    assert TotalDonations(b[..3]) == 20400;
    assert TotalDonations(b[..4]) == 26200;
    assert TotalDonations(b) == 31400;
  }

  // ---------------------------------------------------------------------
  // Per-entry presentation

  datatype MedalColor = Gray | Amber

  /** What `getRankIcon` renders: a crown, a medal, or the text `#<rank>`. */
  datatype Icon = Crown | Medal(color: MedalColor) | RankText(text: string)

  function RankIcon(rank: int): (icon: Icon)
    ensures icon == Crown <==> rank == 1
    ensures icon == Medal(Gray) <==> rank == 2
    ensures icon == Medal(Amber) <==> rank == 3
    ensures icon.RankText? <==> rank != 1 && rank != 2 && rank != 3
    ensures icon.RankText? ==> icon.text == "#" + IntDecimal(rank)
  {
    match rank
    case 1 => Crown
    case 2 => Medal(Gray)
    case 3 => Medal(Amber)
    case _ => RankText("#" + IntDecimal(rank))
  }

  /** No two ranks share an icon. */
  lemma RankIconInjective(a: int, b: int)
    requires RankIcon(a) == RankIcon(b)
    ensures a == b
  {
    if RankIcon(a).RankText? {
      var t := IntDecimal(a);
      var u := IntDecimal(b);
      assert "#" + t == "#" + u;
      assert t == ("#" + t)[1..];
      assert u == ("#" + u)[1..];
      IntDecimalInjective(a, b);
    }
  }

  /** The four visual tiers: first, second, third place and everybody else. */
  datatype Tier = First | Second | Third | Rest

  function RankTier(rank: int): Tier {
    if rank == 1 then First else if rank == 2 then Second else if rank == 3 then Third else Rest
  }

  /** The row tier is chosen by list position, not by rank. */
  function RowTier(index: int): Tier {
    if index == 0 then First else if index == 1 then Second else if index == 2 then Third else Rest
  }

  /** `getRankBadge`: the badge classes of a rank. */
  function RankBadge(rank: int): (badge: string)
    ensures badge == "bg-gray-100 text-gray-600" <==> RankTier(rank) == Rest
  {
    match rank
    case 1 => "bg-gradient-to-r from-yellow-400 to-yellow-600 text-white"
    case 2 => "bg-gradient-to-r from-gray-300 to-gray-500 text-white"
    case 3 => "bg-gradient-to-r from-amber-500 to-amber-700 text-white"
    case _ => "bg-gray-100 text-gray-600"
  }

  /** The part of a row's classes that depends on its list index. */
  function RowHighlight(index: int): (highlight: string)
    ensures highlight == "border-gray-200 bg-white hover:bg-gray-50" <==> RowTier(index) == Rest
  {
    if index == 0 then "border-yellow-200 bg-yellow-50"
    else if index == 1 then "border-gray-200 bg-gray-50"
    else if index == 2 then "border-amber-200 bg-amber-50"
    else "border-gray-200 bg-white hover:bg-gray-50"
  }

  /** Two ranks get the same badge exactly when they are in the same tier:
      ranks 1, 2 and 3 each have their own, every other rank shares one. */
  lemma RankBadgeSeparatesTiers(a: int, b: int)
    ensures RankBadge(a) == RankBadge(b) <==> RankTier(a) == RankTier(b)
  {
    assert |RankBadge(a)| == |RankBadge(b)| <==> RankTier(a) == RankTier(b);
  }

  lemma RowHighlightSeparatesTiers(i: int, j: int)
    ensures RowHighlight(i) == RowHighlight(j) <==> RowTier(i) == RowTier(j)
  {
    assert |RowHighlight(i)| == |RowHighlight(j)| <==> RowTier(i) == RowTier(j);
  }

  /** Two rows whose ranks are their positions plus one (as on a list
      ranked 1, 2, 3, ... in order) get the same row highlight exactly when
      they get the same rank badge. */
  lemma RowAgreesWithBadge(board: seq<LeaderboardEntry>, i: int, j: int)
    requires 0 <= i < |board| && 0 <= j < |board|
    requires board[i].rank == i + 1 && board[j].rank == j + 1
    ensures RowTier(i) == RankTier(board[i].rank)
    ensures RowHighlight(i) == RowHighlight(j) <==> RankBadge(board[i].rank) == RankBadge(board[j].rank)
  {
    RowHighlightSeparatesTiers(i, j);
    RankBadgeSeparatesTiers(board[i].rank, board[j].rank);
  }

  /** Otherwise they part ways: on any list, an entry ranked 1, 2 or 3 that
      is listed fourth or later keeps its medal badge on a plain row. */
  lemma RowIgnoresRank(board: seq<LeaderboardEntry>, i: int)
    requires 3 <= i < |board| && 1 <= board[i].rank <= 3
    ensures RowTier(i) == Rest && RowTier(i) != RankTier(board[i].rank)
    ensures RowHighlight(i) == "border-gray-200 bg-white hover:bg-gray-50"
    ensures RankBadge(board[i].rank) != "bg-gray-100 text-gray-600"
  {
  }

  // ---------------------------------------------------------------------
  // The page's state

  class LeaderboardPage {
    var leaderboardData: seq<LeaderboardEntry>
    var loading: bool
    var error: Option<string>

    function State(): FetchState<seq<LeaderboardEntry>>
      reads this
    {
      FetchState(loading, error, leaderboardData)
    }

    /** Mount: an empty list, loading, no error. */
    constructor ()
      ensures State() == Initial([])
    {
      leaderboardData := [];
      loading := true;
      error := None;
    }

    method StartFetch()
      modifies this
      ensures State() == BeginFetch(old(State()))
    {
      loading := true;
    }

    method ReceiveData(data: seq<LeaderboardEntry>)
      modifies this
      ensures State() == StoreData(old(State()), data)
    {
      leaderboardData := data;
    }

    method ReceiveFailure()
      modifies this
      ensures State() == RecordFailure(old(State()), FetchError)
    {
      error := Some(FetchError);
    }

    method FinishFetch()
      modifies this
      ensures State() == Settle(old(State()))
    {
      loading := false;
    }

    /** `fetchLeaderboardData` with the request's outcome given. */
    method FetchLeaderboardData(outcome: Outcome<seq<LeaderboardEntry>>)
      modifies this
      ensures State() == Fetch(old(State()), outcome, FetchError)
      ensures !loading
      ensures error == if outcome.Failed? then Some(FetchError) else old(error)
    {
      StartFetch();
      match outcome {
        case Loaded(data) => ReceiveData(data);
        case Failed => ReceiveFailure();
      }
      FinishFetch();
    }
  }

  /** Mount, one failing request, one successful "Try Again": the page is
      stuck on the error message while holding the new list. */
  method RetryScenario(data: seq<LeaderboardEntry>)
  {
    var page := new LeaderboardPage();
    assert ScreenOf(page.State()) == Spinner;
    page.FetchLeaderboardData(Failed);
    assert ScreenOf(page.State()) == ErrorScreen(FetchError);
    page.FetchLeaderboardData(Loaded(data));
    assert page.leaderboardData == data;
    assert ScreenOf(page.State()) == ErrorScreen(FetchError);
  }
}
