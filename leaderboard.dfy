/** `Leaderboard.js`: the rank decorations, the rows it renders and the
    loading flags around `fetchLeaderboard`. */
module Leaderboard {
  import opened Wrappers
  import Decimal
  import Text
  import IrysContext

  /** What `getRankIcon` renders. */
  datatype RankIcon = TrophyIcon | MedalIcon | AwardIcon | RankLabel(text: string)

  const GoldColor := "border-yellow-400/30 bg-yellow-400/10"
  const SilverColor := "border-gray-400/30 bg-gray-400/10"
  const BronzeColor := "border-amber-600/30 bg-amber-600/10"
  const DefaultColor := "border-purple-500/20 bg-purple-500/5"

  /** `getRankIcon`: trophy, medal and award for the first three ranks, the
      text "#rank" for every other. */
  function RankIconOf(rank: int): (icon: RankIcon)
    ensures icon == TrophyIcon <==> rank == 1
    ensures icon == MedalIcon <==> rank == 2
    ensures icon == AwardIcon <==> rank == 3
    ensures rank !in {1, 2, 3} ==> icon == RankLabel("#" + Decimal.IntToString(rank))
  {
    if rank == 1 then TrophyIcon
    else if rank == 2 then MedalIcon
    else if rank == 3 then AwardIcon
    else RankLabel("#" + Decimal.IntToString(rank))
  }

  /** Different ranks past the podium get different labels. */
  lemma RankLabelsDistinct(a: int, b: int)
    requires a !in {1, 2, 3} && b !in {1, 2, 3} && a != b
    ensures RankIconOf(a) != RankIconOf(b)
  {
    if RankIconOf(a) == RankIconOf(b) {
      assert ("#" + Decimal.IntToString(a))[1..] == Decimal.IntToString(a);
      assert ("#" + Decimal.IntToString(b))[1..] == Decimal.IntToString(b);
      Decimal.IntToStringInjective(a, b);
    }
  }

  /** `getRankColor`: one class each for ranks 1, 2 and 3, and one shared
      default for every other rank. */
  function RankColor(rank: int): (c: string)
    ensures rank == 1 ==> c == GoldColor
    ensures rank == 2 ==> c == SilverColor
    ensures rank == 3 ==> c == BronzeColor
    ensures c == DefaultColor <==> rank !in {1, 2, 3}
  {
    if rank == 1 then GoldColor
    else if rank == 2 then SilverColor
    else if rank == 3 then BronzeColor
    else DefaultColor
  }

  /** The podium classes are pairwise distinct. */
  lemma PodiumColorsDistinct(a: int, b: int)
    requires a in {1, 2, 3} && b in {1, 2, 3} && a != b
    ensures RankColor(a) != RankColor(b)
  {
  }

  /** One rendered row of the list. */
  datatype RowView = RowView(rank: int, icon: RankIcon, color: string, wallet: string, score: int)

  /** The rows of `scores.map((score, index) => ...)`: the rank is index+1. */
  function Rows(scores: seq<IrysContext.ScoreEntry>): (r: seq<RowView>)
    ensures |r| == |scores|
    ensures forall i :: 0 <= i < |r| ==> r[i].rank == i + 1 && r[i].score == scores[i].score
    ensures forall i :: 0 <= i < |r| ==> r[i].wallet == Text.FormatAddress(scores[i].wallet)
    ensures forall i :: 0 <= i < |r| ==> r[i].icon == RankIconOf(i + 1) && r[i].color == RankColor(i + 1)
    ensures |r| > 0 ==> r[0].icon == TrophyIcon && r[0].color == GoldColor
  {
    seq(|scores|, i requires 0 <= i < |scores| =>
      RowView(i + 1, RankIconOf(i + 1), RankColor(i + 1), Text.FormatAddress(scores[i].wallet), scores[i].score))
  }

  /** What the component renders. */
  datatype View = Skeleton | NoScores | Table(rows: seq<RowView>)

  function ViewOf(loading: bool, scores: seq<IrysContext.ScoreEntry>): (v: View)
    ensures v == Skeleton <==> loading
    ensures v == NoScores <==> !loading && scores == []
    ensures v.Table? ==> v.rows == Rows(scores) && |v.rows| > 0
  {
    if loading then Skeleton else if scores == [] then NoScores else Table(Rows(scores))
  }

  class LeaderboardPanel {
    var scores: seq<IrysContext.ScoreEntry>
    var loading: bool
    var refreshing: bool

    constructor ()
      ensures scores == [] && loading && !refreshing
    {
      scores, loading, refreshing := [], true, false;
    }

    /** The start of `loadLeaderboard(showRefreshing)`: the refresh button
        raises `refreshing`, every other call `loading`. */
    method BeginLoad(showRefreshing: bool)
      modifies this`loading, this`refreshing
      ensures showRefreshing ==> refreshing && loading == old(loading)
      ensures !showRefreshing ==> loading && refreshing == old(refreshing)
    {
      if showRefreshing {
        refreshing := true;
      } else {
        loading := true;
      }
    }

    /** The end of `loadLeaderboard`: the scores are replaced wholesale on
        success and kept on error; both flags are lowered in every case. */
    method FinishLoad(fetched: Result<seq<IrysContext.ScoreEntry>>)
      modifies this
      ensures !loading && !refreshing
      ensures fetched.Success? ==> scores == fetched.value
      ensures fetched.Failure? ==> scores == old(scores)
    {
      if fetched.Success? {
        scores := fetched.value;
      }
      loading := false;
      refreshing := false;
    }
  }

  /** A refresh fed by `fetchLeaderboard`, which never throws: the panel ends
      idle with at most ten rows, best score first. */
  method RefreshFromLedger(panel: LeaderboardPanel, search: Option<seq<IrysContext.Hit>>)
    modifies panel
    ensures !panel.loading && !panel.refreshing
    ensures panel.scores == IrysContext.FetchLeaderboard(search)
    ensures |panel.scores| <= 10
  {
    panel.BeginLoad(true);
    panel.FinishLoad(Success(IrysContext.FetchLeaderboard(search)));
  }
}
