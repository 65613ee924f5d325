/** `lib/irys.ts`: a second ledger client, with a module-level connection
    cache, a JSON score upload and its own leaderboard query.  MetaMask, the
    SDK, the gateway and the environment variables are supplied by the caller. */
module IrysLib {
  import opened Wrappers
  import Text
  import Ranking

  const GameId := "PixelInvaders"
  const DefaultNetwork := "devnet"

  /** The `Irys` instance `Irys.connect` resolves to, with the account
      MetaMask gave. */
  datatype Connection = Connection(account: string)

  /** How the calls of `getIrys` end when no instance is cached. */
  datatype ConnectOutcome = ConnectFailed(error: string) | ConnectOk(account: string)

  /** The environment variable read by `import.meta.env` and by `process.env`;
      an unset variable is the empty string. */
  datatype Env = Env(viteNetwork: string, processNetwork: string)

  datatype Tag = Tag(name: string, value: string)

  /** The JSON object `uploadGameScore` stores. */
  datatype GamePayload = GamePayload(player: string, score: int, timestamp: int, game: string)

  datatype GameUpload = GameUpload(payload: GamePayload, tags: seq<Tag>)

  /** A stored score document as the gateway returns it; it may carry an
      `id` field of its own. */
  datatype GatewayDoc = GatewayDoc(id: Option<string>, player: string, score: int, timestamp: int, game: string)

  /** A search result: its transaction id and the gateway document, or `None`
      when the fetch or the JSON parse failed. */
  datatype TxFetch = TxFetch(txId: string, doc: Option<GatewayDoc>)

  /** `{ ...data, id: tx.id }`. */
  datatype Row = Row(id: string, player: string, score: int, timestamp: int, game: string)

  /** The payload and tags of `uploadGameScore`: the payload player defaults
      to "Anonymous Gamer", the Player tag to "Anonymous", the Network tag to
      the first set environment variable and then to "devnet". */
  function ScoreUpload(username: string, score: int, now: int, env: Env): (u: GameUpload)
    ensures u.payload.player == (if username != "" then username else "Anonymous Gamer")
    ensures u.payload.score == score && u.payload.timestamp == now && u.payload.game == GameId
    ensures |u.tags| == 4
    ensures u.tags[0] == Tag("App", GameId) && u.tags[1] == Tag("Game", GameId)
    ensures u.tags[2].name == "Network"
    ensures env.viteNetwork != "" ==> u.tags[2].value == env.viteNetwork
    ensures env.viteNetwork == "" && env.processNetwork != "" ==> u.tags[2].value == env.processNetwork
    ensures env.viteNetwork == "" && env.processNetwork == "" ==> u.tags[2].value == DefaultNetwork
    ensures u.tags[3] == Tag("Player", if username != "" then username else "Anonymous")
  {
    GameUpload(
      GamePayload(Text.Or(username, "Anonymous Gamer"), score, now, GameId),
      [ Tag("App", GameId), Tag("Game", GameId),
        Tag("Network", Text.Or(env.viteNetwork, Text.Or(env.processNetwork, DefaultNetwork))),
        Tag("Player", Text.Or(username, "Anonymous")) ])
  }

  /** An anonymous upload names its player differently in the payload and in
      the Player tag. */
  lemma AnonymousNamesDiffer(score: int, now: int, env: Env)
    ensures ScoreUpload("", score, now, env).payload.player != ScoreUpload("", score, now, env).tags[3].value
  {
  }

  /** The row of a fetched document: the transaction id replaces any id the
      document carries. */
  function ToRow(f: TxFetch): (r: Option<Row>)
    ensures r.Some? <==> f.doc.Some?
    ensures r.Some? ==> r.value.id == f.txId
    ensures r.Some? ==> r.value.player == f.doc.value.player && r.value.score == f.doc.value.score
    ensures r.Some? ==> r.value.timestamp == f.doc.value.timestamp && r.value.game == f.doc.value.game
  {
    match f.doc
    case None => None
    case Some(d) => Some(Row(f.txId, d.player, d.score, d.timestamp, d.game))
  }

  function ToRows(txs: seq<TxFetch>): (r: seq<Option<Row>>)
    ensures |r| == |txs| && forall i :: 0 <= i < |txs| ==> r[i] == ToRow(txs[i])
  {
    seq(|txs|, i requires 0 <= i < |txs| => ToRow(txs[i]))
  }

  function RowScore(r: Row): int { r.score }

  /** Every row returned carries the id of a transaction whose document was
      fetched, whatever id the document itself held. */
  lemma RowIdsAreTxIds(txs: seq<TxFetch>, k: nat)
    requires k < |Ranking.TopTen(ToRows(txs), RowScore)|
    ensures exists i :: (0 <= i < |txs| && txs[i].doc.Some? &&
      Ranking.TopTen(ToRows(txs), RowScore)[k].id == txs[i].txId)
  {
    var rows := ToRows(txs);
    Ranking.TopTenFetched(rows, RowScore);
    var r := Ranking.TopTen(rows, RowScore)[k];
    assert Some(r) in rows;
    var i :| 0 <= i < |rows| && rows[i] == Some(r);
    assert ToRow(txs[i]) == Some(r);
  }

  /** The module-level `irys` singleton and the account requests it saves. */
  class IrysClient {
    var irys: Option<Connection>
    /** How many times MetaMask was asked for accounts. */
    ghost var accountRequests: nat

    constructor ()
      ensures irys == None && accountRequests == 0
    {
      irys := None;
      accountRequests := 0;
    }

    /** `getIrys`: a cached instance is returned without asking MetaMask
        again; otherwise accounts are requested and a successful connection
        is cached; a failure is thrown and caches nothing. */
    method GetIrys(outcome: ConnectOutcome) returns (r: Result<Connection>)
      modifies this
      ensures old(irys).Some? ==> r == Success(old(irys).value) && irys == old(irys) && accountRequests == old(accountRequests)
      ensures old(irys).None? ==> accountRequests == old(accountRequests) + 1
      ensures old(irys).None? && outcome.ConnectFailed? ==> r == Failure(outcome.error) && irys == None
      ensures old(irys).None? && outcome.ConnectOk? ==>
        r == Success(Connection(outcome.account)) && irys == Some(Connection(outcome.account))
    {
      if irys.Some? {
        return Success(irys.value);
      }
      accountRequests := accountRequests + 1;
      match outcome {
        case ConnectFailed(e) =>
          r := Failure(e);
        case ConnectOk(account) =>
          irys := Some(Connection(account));
          r := Success(irys.value);
      }
    }

    /** `uploadGameScore`: connect (or reuse the cache), upload
        `ScoreUpload(...)`, and re-throw any error.  `stored` is the SDK's
        answer to that upload: the receipt id, or the error. */
    method UploadGameScore(username: string, score: int, now: int, env: Env,
                           connect: ConnectOutcome, stored: Result<string>)
      returns (sent: Option<GameUpload>, r: Result<string>)
      modifies this
      ensures old(irys).Some? ==> irys == old(irys) && accountRequests == old(accountRequests)
      ensures old(irys).None? ==> accountRequests == old(accountRequests) + 1
      ensures old(irys).None? && connect.ConnectFailed? ==>
        sent == None && r == Failure(connect.error) && irys == None
      ensures old(irys).Some? || connect.ConnectOk? ==>
        sent == Some(ScoreUpload(username, score, now, env)) && r == stored && irys.Some?
      ensures old(irys).None? && connect.ConnectOk? ==> irys == Some(Connection(connect.account))
    {
      sent := None;
      var c := GetIrys(connect);
      if c.Failure? {
        return None, Failure(c.error);
      }
      sent := Some(ScoreUpload(username, score, now, env));
      r := stored;
    }

    /** `fetchGameLeaderboard`: any failure of the connection or of the search
        yields []; otherwise the rows of the fetched documents, best score
        first, at most ten. */
    method FetchGameLeaderboard(connect: ConnectOutcome, search: Option<seq<TxFetch>>)
      returns (rows: seq<Row>)
      modifies this
      ensures old(irys).Some? ==> irys == old(irys) && accountRequests == old(accountRequests)
      ensures old(irys).None? ==> accountRequests == old(accountRequests) + 1
      ensures old(irys).None? && connect.ConnectFailed? ==> rows == [] && irys == None
      ensures old(irys).Some? || connect.ConnectOk? ==>
        irys.Some? &&
        rows == (if search.None? then [] else Ranking.TopTen(ToRows(search.value), RowScore))
      ensures old(irys).None? && connect.ConnectOk? ==> irys == Some(Connection(connect.account))
      ensures |rows| <= Ranking.TopCount
    {
      var c := GetIrys(connect);
      if c.Failure? || search.None? {
        return [];
      }
      rows := Ranking.TopTen(ToRows(search.value), RowScore);
    }
  }

  /** An upload that connects as `account`, then a leaderboard read: the read
      reuses the cached connection, so a second connection attempt, even one
      that would fail, is never made and the rows are those of the search. */
  method UploadThenFetch(account: string, score: int, now: int, env: Env,
                         search: seq<TxFetch>) returns (cached: Option<Connection>, rows: seq<Row>)
    ensures cached == Some(Connection(account))
    ensures rows == Ranking.TopTen(ToRows(search), RowScore)
  {
    var c := new IrysClient();
    var sent, r := c.UploadGameScore("", score, now, env, ConnectOk(account), Success("receipt"));
    rows := c.FetchGameLeaderboard(ConnectFailed("unused"), Some(search));
    cached := c.irys;
  }
}
