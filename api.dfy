/** The records the REST API hands out: the intern profile of `/api/intern`
    and one row of `/api/leaderboard`. Amounts are integral dollar values;
    the avatar is an opaque external URL. */
module Api {

  datatype InternProfile = InternProfile(name: string, referralCode: string, donations: int)

  datatype LeaderboardEntry =
    LeaderboardEntry(rank: int, name: string, referralCode: string, donations: int, avatar: string)

  /** Ranks are 1, 2, 3, ... in list order. */
  predicate RanksContiguous(board: seq<LeaderboardEntry>) {
    forall i :: 0 <= i < |board| ==> board[i].rank == i + 1
  }

  /** Each entry donated strictly more than the next one. */
  predicate StrictlyDescending(board: seq<LeaderboardEntry>) {
    forall i :: 0 < i < |board| ==> board[i - 1].donations > board[i].donations
  }

  predicate DistinctReferralCodes(board: seq<LeaderboardEntry>) {
    forall i, j :: 0 <= i < j < |board| ==> board[i].referralCode != board[j].referralCode
  }

  predicate NonNegativeDonations(board: seq<LeaderboardEntry>) {
    forall i :: 0 <= i < |board| ==> board[i].donations >= 0
  }

  /** The data contract of a leaderboard response: ranked, sorted by
      donations, one row per referral code, no negative amounts. */
  predicate WellFormedBoard(board: seq<LeaderboardEntry>) {
    RanksContiguous(board) && StrictlyDescending(board)
    && DistinctReferralCodes(board) && NonNegativeDonations(board)
  }

  /** Ordering between neighbours extends to every pair. */
  lemma {:induction false} DescendingEverywhere(board: seq<LeaderboardEntry>, i: int, j: int)
    requires StrictlyDescending(board)
    requires 0 <= i < j < |board|
    ensures board[i].donations > board[j].donations
  {
    if j > i + 1 {
      DescendingEverywhere(board, i, j - 1);
    }
  }

  /** With contiguous ranks, the entry ranked 1 is the first one, ranks are
      unique, and that entry holds the largest amount. */
  lemma TopRankHoldsMaximum(board: seq<LeaderboardEntry>)
    requires RanksContiguous(board) && StrictlyDescending(board)
    ensures forall i, j :: 0 <= i < j < |board| ==> board[i].rank != board[j].rank
    ensures forall i :: 0 <= i < |board| && board[i].rank == 1 ==> i == 0
    ensures forall i :: 0 < i < |board| ==> board[i].donations < board[0].donations
  {
    forall i | 0 < i < |board|
      ensures board[i].donations < board[0].donations
    {
      DescendingEverywhere(board, 0, i);
    }
  }
}
