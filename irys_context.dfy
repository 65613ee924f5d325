/** `IrysContext.js`: the provider that holds the wallet connection, builds
    score uploads and reads the leaderboard.  Wallet, uploader and gateway
    calls are outcomes supplied by the caller. */
module IrysContext {
  import opened Wrappers
  import Decimal
  import Text
  import Ranking

  const GameId := "PixelInvaders"
  const AnonymousName := "Anonymous"

  /** The connected `WebUploader`, known by the wallet it signs for. */
  datatype Uploader = Uploader(account: string)

  datatype Tag = Tag(name: string, value: string)

  /** The JSON document `uploadScore` stores. */
  datatype ScoreData = ScoreData(wallet: string, username: string, score: int, timestamp: int, game: string)

  /** What `uploadScore` hands to `irysUploader.upload`. */
  datatype ScoreUpload = ScoreUpload(data: ScoreData, tags: seq<Tag>)

  /** One leaderboard row. */
  datatype ScoreEntry = ScoreEntry(id: string, wallet: string, score: int, timestamp: int)

  /** One search result: its transaction id and the payload the gateway
      returned, or `None` when the fetch or the JSON parse failed. */
  datatype Hit = Hit(id: string, payload: Option<ScoreData>)

  /** How the wallet side of `initIrys` ends: refused before an uploader
      exists, failed while reading the balance, or connected. */
  datatype InitOutcome =
    | Refused(error: string)
    | BalanceFailed(address: string, error: string)
    | Connected(address: string, balance: string)

  /** How `irysUploader.fund` and the balance read after it end. */
  datatype FundOutcome = FundFailed(error: string) | Funded(funded: string, newBalance: string)

  /** `uploadScore` up to the network call: it throws when there is no
      uploader or no wallet address; otherwise the record names the wallet,
      the username or "Anonymous", the score, the time and the game, and the
      tags are application-id, wallet, username, score as a decimal string and
      Content-Type, in that order. */
  function UploadScore(uploader: Option<Uploader>, walletAddress: string, username: string,
                       score: int, now: int): (r: Result<ScoreUpload>)
    ensures r.Failure? <==> uploader.None? || walletAddress == ""
    ensures r.Failure? ==> r.error == "Irys not initialized or wallet not connected"
    ensures r.Success? ==> r.value.data == ScoreData(walletAddress, Text.Or(username, AnonymousName), score, now, GameId)
    ensures r.Success? ==> |r.value.tags| == 5
    ensures r.Success? ==> r.value.tags[0] == Tag("application-id", GameId)
    ensures r.Success? ==> r.value.tags[1] == Tag("wallet", walletAddress)
    ensures r.Success? ==> r.value.tags[2] == Tag("username", r.value.data.username)
    ensures r.Success? ==> r.value.tags[3].name == "score" && r.value.tags[3].value == Decimal.IntToString(score)
    ensures r.Success? ==> r.value.tags[4] == Tag("Content-Type", "application/json")
  {
    if uploader.None? || walletAddress == "" then
      Failure("Irys not initialized or wallet not connected")
    else
      var name := Text.Or(username, AnonymousName);
      Success(ScoreUpload(
        ScoreData(walletAddress, name, score, now, GameId),
        [ Tag("application-id", GameId), Tag("wallet", walletAddress), Tag("username", name),
          Tag("score", Decimal.IntToString(score)), Tag("Content-Type", "application/json") ]))
  }

  /** The score tag of an upload is the decimal numeral of the score, and
      reading it gives the score back. */
  lemma ScoreTagReadsBack(uploader: Option<Uploader>, walletAddress: string, username: string,
                          score: nat, now: int)
    requires uploader.Some? && walletAddress != ""
    ensures var tag := UploadScore(uploader, walletAddress, username, score, now).value.tags[3].value;
      Decimal.Canonical(tag) && Decimal.DigitsValue(tag) == score
  {
    Decimal.NatToStringValue(score);
  }

  /** The row `fetchLeaderboard` builds from a search result: the id from the
      search, wallet, score and timestamp from the payload. */
  function Project(h: Hit): (e: Option<ScoreEntry>)
    ensures e.Some? <==> h.payload.Some?
    ensures e.Some? ==> e.value.id == h.id && e.value.wallet == h.payload.value.wallet
    ensures e.Some? ==> e.value.score == h.payload.value.score && e.value.timestamp == h.payload.value.timestamp
  {
    match h.payload
    case None => None
    case Some(d) => Some(ScoreEntry(h.id, d.wallet, d.score, d.timestamp))
  }

  function Projected(hits: seq<Hit>): (r: seq<Option<ScoreEntry>>)
    ensures |r| == |hits| && forall i :: 0 <= i < |hits| ==> r[i] == Project(hits[i])
  {
    seq(|hits|, i requires 0 <= i < |hits| => Project(hits[i]))
  }

  function EntryScore(e: ScoreEntry): int { e.score }

  /** `fetchLeaderboard`: a failed search yields []; otherwise the rows of the
      records whose payload was fetched, best score first, at most ten. */
  function FetchLeaderboard(search: Option<seq<Hit>>): (r: seq<ScoreEntry>)
    ensures search.None? ==> r == []
    ensures |r| <= Ranking.TopCount
    ensures search.Some? ==> r == Ranking.TopTen(Projected(search.value), EntryScore)
  {
    match search
    case None => []
    case Some(hits) => Ranking.TopTen(Projected(hits), EntryScore)
  }

  /** Every row of the leaderboard comes from a search result whose payload
      was fetched: its id is that result's id and its wallet, score and
      timestamp are the payload's. */
  lemma LeaderboardRowsFromHits(hits: seq<Hit>, k: nat)
    requires k < |FetchLeaderboard(Some(hits))|
    ensures exists i :: (0 <= i < |hits| && hits[i].payload.Some? &&
      Project(hits[i]) == Some(FetchLeaderboard(Some(hits))[k]))
  {
    var rows := Projected(hits);
    Ranking.TopTenFetched(rows, EntryScore);
    var e := FetchLeaderboard(Some(hits))[k];
    assert Some(e) in rows;
    var i :| 0 <= i < |rows| && rows[i] == Some(e);
    assert Project(hits[i]) == Some(e);
  }

  /** The leaderboard is in non-increasing score order, and no fetched
      record missing from it scores more than one shown. */
  lemma LeaderboardRanked(hits: seq<Hit>)
    ensures Ranking.SortedDesc(FetchLeaderboard(Some(hits)), EntryScore)
    ensures forall i, j :: 0 <= i < |FetchLeaderboard(Some(hits))| <= j < |Ranking.Survivors(Projected(hits))| ==>
      FetchLeaderboard(Some(hits))[i].score >= Ranking.Sort(Ranking.Survivors(Projected(hits)), EntryScore)[j].score
  {
    var rows := Projected(hits);
    Ranking.TopTenSorted(rows, EntryScore);
    forall i, j | 0 <= i < |FetchLeaderboard(Some(hits))| <= j < |Ranking.Survivors(rows)|
      ensures FetchLeaderboard(Some(hits))[i].score >= Ranking.Sort(Ranking.Survivors(rows), EntryScore)[j].score
    {
      Ranking.TopTenBeatsRest(rows, EntryScore, i, j);
    }
  }

  /** A record whose payload could not be fetched never appears, and the
      board has ten rows whenever ten or more payloads were fetched. */
  lemma FailedFetchesDropped(hits: seq<Hit>)
    ensures forall k :: 0 <= k < |FetchLeaderboard(Some(hits))| ==>
      exists i :: 0 <= i < |hits| && hits[i].payload.Some? && hits[i].id == FetchLeaderboard(Some(hits))[k].id
    ensures |FetchLeaderboard(Some(hits))| == Text.Min(Ranking.TopCount, |Ranking.Survivors(Projected(hits))|)
  {
    forall k | 0 <= k < |FetchLeaderboard(Some(hits))|
      ensures exists i :: 0 <= i < |hits| && hits[i].payload.Some? && hits[i].id == FetchLeaderboard(Some(hits))[k].id
    {
      LeaderboardRowsFromHits(hits, k);
      var i :| 0 <= i < |hits| && hits[i].payload.Some? && Project(hits[i]) == Some(FetchLeaderboard(Some(hits))[k]);
      assert hits[i].id == FetchLeaderboard(Some(hits))[k].id;
    }
    assert FetchLeaderboard(Some(hits)) == Ranking.TopTen(Projected(hits), EntryScore);
  }

  /** The provider's state: the `useState` hooks of `IrysProvider`. */
  class IrysProvider {
    var irysUploader: Option<Uploader>
    var walletAddress: string
    var balance: string
    var isConnected: bool
    var isLoading: bool
    /** Never changed: the provider does not hand out its setter. */
    var username: string

    constructor ()
      ensures irysUploader == None && walletAddress == "" && balance == "0"
      ensures !isConnected && !isLoading && username == ""
    {
      irysUploader, walletAddress, balance := None, "", "0";
      isConnected, isLoading, username := false, false, "";
    }

    /** The synchronous start of `initIrys`: without `window.ethereum` it
        throws before changing anything; otherwise the provider is loading. */
    method BeginInit(hasEthereum: bool) returns (r: Result<()>)
      modifies this`isLoading
      ensures !hasEthereum ==> r == Failure("MetaMask not found") && isLoading == old(isLoading)
      ensures hasEthereum ==> r == Success(()) && isLoading
    {
      if !hasEthereum {
        return Failure("MetaMask not found");
      }
      isLoading := true;
      r := Success(());
    }

    /** The rest of `initIrys`, once the wallet and uploader calls have
        settled: the uploader, address and connected flag are set as soon as
        the uploader is ready, the balance only when it could be read; errors
        are re-thrown; in every case loading ends. */
    method FinishInit(outcome: InitOutcome) returns (r: Result<Uploader>)
      modifies this
      ensures !isLoading && username == old(username)
      ensures outcome.Refused? ==>
        && r == Failure(outcome.error)
        && irysUploader == old(irysUploader) && walletAddress == old(walletAddress)
        && balance == old(balance) && isConnected == old(isConnected)
      ensures outcome.BalanceFailed? ==>
        && r == Failure(outcome.error)
        && irysUploader == Some(Uploader(outcome.address)) && walletAddress == outcome.address
        && isConnected && balance == old(balance)
      ensures outcome.Connected? ==>
        && r == Success(Uploader(outcome.address))
        && irysUploader == Some(Uploader(outcome.address)) && walletAddress == outcome.address
        && isConnected && balance == outcome.balance
    {
      match outcome {
        case Refused(e) =>
          r := Failure(e);
        case BalanceFailed(address, e) =>
          irysUploader, walletAddress, isConnected := Some(Uploader(address)), address, true;
          r := Failure(e);
        case Connected(address, bal) =>
          irysUploader, walletAddress, isConnected := Some(Uploader(address)), address, true;
          balance := bal;
          r := Success(Uploader(address));
      }
      isLoading := false;
    }

    /** `fundAccount`: throws without an uploader; otherwise the balance is
        replaced by the one read after funding, and a failure changes nothing. */
    method FundAccount(outcome: FundOutcome) returns (r: Result<string>)
      modifies this`balance
      ensures irysUploader.None? ==> r == Failure("Irys not initialized") && balance == old(balance)
      ensures irysUploader.Some? && outcome.FundFailed? ==> r == Failure(outcome.error) && balance == old(balance)
      ensures irysUploader.Some? && outcome.Funded? ==> r == Success(outcome.funded) && balance == outcome.newBalance
    {
      if irysUploader.None? {
        return Failure("Irys not initialized");
      }
      match outcome
      case FundFailed(e) =>
        r := Failure(e);
      case Funded(funded, newBalance) =>
        balance := newBalance;
        r := Success(funded);
    }

    /** `disconnect`: back to no uploader, no address, balance "0", not connected. */
    method Disconnect()
      modifies this`irysUploader, this`walletAddress, this`balance, this`isConnected
      ensures irysUploader == None && walletAddress == "" && balance == "0" && !isConnected
    {
      irysUploader, walletAddress, balance, isConnected := None, "", "0", false;
    }
  }
}
