# Pixel Invaders: a Dafny model of the game session, the score ledger clients and the page state

Pixel Invaders is a browser Space-Invaders clone. It stores finished scores on the Irys
ledger and shows a top-ten leaderboard read back from that ledger. This project models
the game's own logic and proves properties of it:

- **The game session** (`GameCanvas.js`, module `Game`). One Phaser scene keeps score,
  lives, alien speed and direction, the alien-fire clock, the game-over flag, and the
  aliens, bullets and player it creates. The model is the class `Game.Session`. Each
  handler of the scene is a method: `createAlienGrid`, `moveAliens`, `shoot`,
  `alienShoot`, `hitAlien`, `hitPlayer`, `nextWave`, `endGame` and the per-frame
  `update`.
  - Ghost counters record the history: bounces, waves cleared, aliens shot and player
    hits. The object invariant `Valid()` ties the state to them: speed = 50 + 10 ×
    bounces + 20 × waves; score = 10 × kills + 100 × waves; lives = 3 − hits; the
    direction is the parity of the bounces; every alien moves at the same velocity, in
    the current direction, at no more than the current speed; a live game has a life
    left.
  - Phaser's overlap callbacks are the events `HitAlien(bullet, alien)` and
    `HitPlayer(contact, groupFirst)`. The contact is an alien bullet or an alien of the
    flock. `hitPlayer` destroys its first argument. `groupFirst` is Phaser's argument
    order for a group-versus-sprite overlap: when it is true the bullet or alien is
    destroyed, and when it is false the player sprite is destroyed.
  - Scene time is an integer count of milliseconds. The randomly chosen shooter is an
    index the caller supplies.
  - `Advance` stands in for Phaser's arcade integration between frames. With it, a
    fresh flock reaches the right bound and bounces (`DriftToBounds`).
- **The ranking** shared by both ledger clients (module `Ranking`). It drops the
  records whose payload fetch failed, applies JavaScript's stable `sort` with the
  comparator `b.score - a.score`, and keeps the first ten.
  - The sort is insertion sort. It is proved to be a permutation, sorted in descending
    order, and stable.
  - Sortedness plus stability fix the result uniquely: any stable descending sort gives
    the same top ten (`TopTenOfAnyStableSort`).
- **`IrysContext.js`** (module `IrysContext`): the score record and tag list of
  `uploadScore`, including its guard; the row projection and top ten of
  `fetchLeaderboard`; and the provider's `initIrys`, `fundAccount` and `disconnect` as
  methods of `IrysContext.IrysProvider`.
- **`lib/irys.ts`** (module `IrysLib`): the connection cache of `getIrys`, the payload
  and tag defaults of `uploadGameScore`, and `fetchGameLeaderboard`.
- **`App.js`** (module `App`): the menu → playing → game-over state with its wallet
  gate, and which panel each state shows.
- **`Leaderboard.js`** (module `Leaderboard`): rank icons and colours, rendered rows,
  and the `loading`/`refreshing` flags.
- **`WalletConnection.js`** (module `WalletConnection`): the username editor's flags,
  the funding flag and the connection signal.
- Shared helpers: `Wrappers` (Option, Result), `Decimal` (`Number.toString` for
  integers below 10^21 in magnitude, with its read-back) and `Text` (`||` on strings, `slice`, `formatAddress`).

Wallet, uploader, query and gateway calls are outside the model. Each is an outcome
value passed in by the caller: a success with its data, or a failure with its message.
An `async` handler that raises a flag across an `await` is split in two. `BeginLoad` /
`FinishLoad`, `BeginFund` / `FinishFund` and `BeginInit` / `FinishInit` each expose the
flag while the call is in flight.

Four behaviours of the code that the model keeps as they are:
- The code, and so the model, does not deduplicate leaderboard records. Two records of
  one wallet both appear.
- The code stores no wave number. The model counts cleared waves in the ghost field
  `waves`.
- The code picks the firing alien at random. The model accepts any alien, chosen by the
  caller.
- Game state is a string in the code. Only "menu", "playing" and "gameOver" are ever
  assigned, so the model uses the datatype `App.GameState`.

## Model

| member | source | states |
|---|---|---|
| `Game.Session.constructor` | frontend/src/components/GameCanvas.js:42-86 | a fresh session has score 0, lives 3, direction 1, speed 50, alien clock 0, not over, the player at x 400 and exactly one grid of aliens moving at 50 |
| `Game.Session.CreateAlienGrid` | frontend/src/components/GameCanvas.js:119-126 | the nested loops append exactly `Grid(alienSpeed * alienDirection)` to the aliens |
| `Game.GridLayout` | frontend/src/components/GameCanvas.js:119-126 | a grid has exactly 50 aliens; the one in column x < 10, row y < 5 is at (x*60+100, y*50+50) with the given velocity |
| `Game.GridInside` | frontend/src/components/GameCanvas.js:119-126 | a fresh grid touches no side bound and is above the lose line, all aliens at the one velocity |
| `Game.AnyAtBounds` | frontend/src/components/GameCanvas.js:186-192 | the scan reports a hit iff some alien has x <= 30 or x >= 770 |
| `Game.Session.MoveAliens` | frontend/src/components/GameCanvas.js:185-202 | on a bounce the direction flips, every alien drops exactly 30 and takes velocity (pre-increment speed) × (new direction), then speed grows by 10; with no bounce nothing changes; the invariant is kept |
| `Game.Session.Shoot` | frontend/src/components/GameCanvas.js:172-175 | one bullet is added 20 pixels above the player, moving up at 400 |
| `Game.Session.AlienShoot` | frontend/src/components/GameCanvas.js:177-183 | with no alien nothing is fired; otherwise exactly one bullet 20 pixels below the chosen alien, falling at 200 |
| `Game.Session.FireAliens` | frontend/src/components/GameCanvas.js:149-152 | aliens fire only when now > lastAlienShot + 1000, and then the clock is set to now even when no alien is left |
| `Game.Session.HitAlien` | frontend/src/components/GameCanvas.js:204-210 | the bullet and the alien are removed (the others keep their order), score grows by exactly 10, nothing else changes; after game over nothing changes |
| `Game.Session.HitPlayer` | frontend/src/components/GameCanvas.js:212-227 | the first callback argument is destroyed: the touching bullet or alien when Phaser passes the group member first, otherwise the player sprite; lives fall by exactly 1 and score is unchanged; the game ends exactly when lives reach 0 and then reports `GameEnding`; after game over nothing changes |
| `Game.Session.NextWave` | frontend/src/components/GameCanvas.js:229-237 | score grows by exactly 100, a fresh 50-alien grid is spawned at the pre-increment speed, then speed grows by 20 |
| `Game.Lowest` | frontend/src/components/GameCanvas.js:160-165 | the scan finds none iff there is no alien, else the first alien of greatest y |
| `Game.Session.CheckLoss` | frontend/src/components/GameCanvas.js:159-169 | the game ends iff some alien is below y = 500 |
| `Game.GameEnding` | frontend/src/components/GameCanvas.js:259-286 | the score is uploaded iff the wallet address is non-empty and score > 0; no notice iff there was no upload, "Score Saved" iff the upload succeeded, the error notice iff it failed; `onGameOver(score)` is reported in every case |
| `Game.Session.EndGame` | frontend/src/components/GameCanvas.js:239-287 | sets the game over and returns the ending of `GameEnding` for the current score |
| `Game.PlayerVelocity` | frontend/src/components/GameCanvas.js:132-138 | LEFT gives -300, otherwise RIGHT gives 300, otherwise 0 |
| `Game.Session.Steer` | frontend/src/components/GameCanvas.js:131-143 | the player's velocity is `PlayerVelocity(input)`, and a bullet is added iff SPACE was pressed |
| `Game.Session.March` | frontend/src/components/GameCanvas.js:145-157 | the bounce rule, then the fire timer on the marched flock, then a new wave iff the flock was empty at the start of the frame; Valid() is kept |
| `Game.Session.Update` | frontend/src/components/GameCanvas.js:128-170 | once over, a frame changes nothing; otherwise the whole new state: steering, optional shot, the bounce rule, the fire timer, the wave clear when the flock was empty, and game over iff an alien is below 500; Valid() (speed = 50 + 10·bounces + 20·waves, score = 10·kills + 100·waves, lives = 3 − hits) is kept, so speed and score never decrease |
| `Game.Session.Advance` | frontend/src/components/GameCanvas.js:16-28 | stand-in for the arcade physics step: aliens move by vx·dt/1000, the player is held within [20, 780]; nothing moves after game over |
| `Game.DriftToBounds` | frontend/src/components/GameCanvas.js:185-200 | after 2.6 s of drift the rightmost alien of a fresh flock is at x 770, the scan reports the bound, and the next frame reverses the flock and raises its speed to 60 |
| `Game.ClearFirstWave` | frontend/src/components/GameCanvas.js:204-237 | fifty hits on a fresh session score 500, the next frame adds the 100 bonus and a new grid of 50 at speed 70, and the game goes on |
| `Ranking.Survivors` | frontend/src/contexts/IrysContext.js:148 | the null filter keeps exactly the fetched values and never lengthens the list |
| `Ranking.Sort` | frontend/src/contexts/IrysContext.js:149 | the sort is a permutation of its input (same length, same multiset) |
| `Ranking.SortSorted` | frontend/src/contexts/IrysContext.js:149 | the sort orders by non-increasing score |
| `Ranking.SortStable` | frontend/src/contexts/IrysContext.js:149 | the sort is stable: for every score the subsequence of entries with that score is unchanged |
| `Ranking.SortedUnique` | frontend/src/contexts/IrysContext.js:149 | two descending sequences with the same equal-score subsequences are equal, so sortedness and stability determine the sort |
| `Ranking.TopTen` | frontend/src/contexts/IrysContext.js:151 | the result has min(10, number of fetched records) entries |
| `Ranking.TopTenSorted` | frontend/src/lib/irys.ts:81-83 | the top ten are ordered by non-increasing score |
| `Ranking.TopTenFetched` | frontend/src/lib/irys.ts:80 | every row of the top ten is a fetched value, none taken more often than fetched |
| `Ranking.TopTenBeatsRest` | frontend/src/contexts/IrysContext.js:149-151 | no fetched record left out scores more than a record kept |
| `Ranking.TopTenOfAnyStableSort` | frontend/src/contexts/IrysContext.js:147-151 | for whatever JavaScript's stable descending sort returns, its first ten are exactly the model's top ten |
| `IrysContext.UploadScore` | frontend/src/contexts/IrysContext.js:87-107 | the guard throws iff there is no uploader or no wallet address (a rejection of `irysUploader.upload` itself, re-thrown at line 115, is outside this member); otherwise the record has the wallet, the username or "Anonymous", the score, the time and game "PixelInvaders", and the tags are, in order, application-id, wallet, username, score as a decimal string, Content-Type |
| `Decimal.NatToString` | frontend/src/contexts/IrysContext.js:105 | the rendering of a non-negative number is a canonical numeral: non-empty, digits only, no leading zero unless it is "0" |
| `Decimal.IntToString` | frontend/src/contexts/IrysContext.js:105 | `toString()` of an integer of magnitude below 10^21: the canonical numeral of a non-negative number, "-" before the numeral of its magnitude for a negative one; never empty |
| `Decimal.NatToStringValue` | frontend/src/contexts/IrysContext.js:105 | reading the decimal numeral of a score back gives the score |
| `Decimal.IntToStringInjective` | frontend/src/contexts/IrysContext.js:105 | two different scores never render as the same numeral |
| `IrysContext.ScoreTagReadsBack` | frontend/src/contexts/IrysContext.js:105 | the score tag of an upload is a canonical numeral whose value is the score |
| `IrysContext.Project` | frontend/src/contexts/IrysContext.js:134-139 | a row exists iff the payload was fetched; its id is the search result's and its wallet, score and timestamp the payload's |
| `IrysContext.FetchLeaderboard` | frontend/src/contexts/IrysContext.js:120-156 | a failed search yields []; never more than 10 rows; otherwise the top ten of the projected rows |
| `IrysContext.LeaderboardRowsFromHits` | frontend/src/contexts/IrysContext.js:129-145 | every row is the projection of a search result whose payload was fetched |
| `IrysContext.LeaderboardRanked` | frontend/src/contexts/IrysContext.js:147-151 | rows are in non-increasing score order and no dropped record outscores a shown one |
| `IrysContext.FailedFetchesDropped` | frontend/src/contexts/IrysContext.js:140-151 | no row carries the id of a failed fetch, and there are min(10, fetched) rows |
| `IrysContext.IrysProvider.constructor` | frontend/src/contexts/IrysContext.js:19-24 | no uploader, address "", balance "0", not connected, not loading |
| `IrysContext.IrysProvider.BeginInit` | frontend/src/contexts/IrysContext.js:27-32 | without `window.ethereum` it throws before any state change; otherwise loading starts |
| `IrysContext.IrysProvider.FinishInit` | frontend/src/contexts/IrysContext.js:33-61 | uploader, address and connected are set once the uploader is ready; the balance only if read; errors are re-thrown; loading is false afterwards in every case |
| `IrysContext.IrysProvider.FundAccount` | frontend/src/contexts/IrysContext.js:65-84 | throws when no uploader is initialized; on success the balance is the one read after funding; a failure changes nothing |
| `IrysContext.IrysProvider.Disconnect` | frontend/src/contexts/IrysContext.js:159-164 | uploader null, address "", balance "0", not connected |
| `IrysLib.IrysClient.constructor` | frontend/src/lib/irys.ts:4 | the cache starts empty |
| `IrysLib.IrysClient.GetIrys` | frontend/src/lib/irys.ts:6-23 | a cached instance is returned without requesting accounts again; otherwise exactly one request, and success is cached |
| `IrysLib.ScoreUpload` | frontend/src/lib/irys.ts:29-44 | payload player is the username or "Anonymous Gamer"; tags App, Game, Network (first set variable, else "devnet") and Player (username or "Anonymous") |
| `IrysLib.AnonymousNamesDiffer` | frontend/src/lib/irys.ts:31-41 | with no username the payload and the Player tag name the player differently |
| `IrysLib.IrysClient.UploadGameScore` | frontend/src/lib/irys.ts:26-52 | a connection failure is re-thrown with nothing uploaded; otherwise exactly `ScoreUpload(...)` is sent and the upload's error or receipt is passed through; a fresh successful connection is cached as exactly that account |
| `IrysLib.ToRow` | frontend/src/lib/irys.ts:66-76 | a row exists iff the gateway fetch succeeded; its id is the transaction id, overriding any id in the document |
| `IrysLib.RowIdsAreTxIds` | frontend/src/lib/irys.ts:65-83 | every row returned carries the id of a transaction whose document was fetched |
| `IrysLib.IrysClient.FetchGameLeaderboard` | frontend/src/lib/irys.ts:55-88 | a connection or search failure yields []; otherwise the top ten of the fetched rows; never more than 10; a fresh successful connection is cached as exactly that account |
| `IrysLib.UploadThenFetch` | frontend/src/lib/irys.ts:6-88 | after an upload connects as an account, a leaderboard read reuses that cached connection without connecting again and returns the top ten of the search |
| `App.AppState.constructor` | frontend/src/App.js:14-16 | state "menu", final score 0, wallet not connected |
| `App.AppState.SetWalletConnected` | frontend/src/App.js:69-72 | the connection flag is what WalletConnection reports |
| `App.AppState.StartGame` | frontend/src/App.js:18-24 | without a wallet it alerts and leaves the state; with one the state is "playing" whatever it was |
| `App.AppState.OnGameOver` | frontend/src/App.js:26-29 | final score is the reported score and the state is "gameOver" |
| `App.AppState.ResetGame` | frontend/src/App.js:31-34 | state "menu" and final score 0 |
| `App.ShownPanels` | frontend/src/App.js:81-126 | exactly one panel is shown per state, and GameCanvas is mounted iff the state is "playing" |
| `App.PlayOnce` | frontend/src/App.js:18-34 | connect, start, game over with s, reset: the game-over panel shows s and the page is back at the menu |
| `Text.Or` | frontend/src/contexts/IrysContext.js:95-104 | the logical-or default on strings: the first string when it is non-empty, else the second; also the defaults at frontend/src/lib/irys.ts:31-41 |
| `Text.Head` | frontend/src/components/Leaderboard.js:34 | `slice(0, n)`: the first min(n, length) characters, a prefix of the string |
| `Text.Tail` | frontend/src/components/Leaderboard.js:34 | `slice(-n)` for n > 0: the last min(n, length) characters, a suffix of the string |
| `Text.FormatAddress` | frontend/src/components/Leaderboard.js:33-35 | the first 6 characters (or all of a shorter address), "...", then the last 4; the copy at frontend/src/components/WalletConnection.js:92-94 is the same function |
| `Text.FormatLongAddress` | frontend/src/components/WalletConnection.js:92-94 | an address of 10 or more characters becomes 13 characters: its first 6, "...", its last 4 |
| `Leaderboard.RankIconOf` | frontend/src/components/Leaderboard.js:41-52 | trophy iff rank 1, medal iff 2, award iff 3, otherwise the text "#rank" |
| `Leaderboard.RankLabelsDistinct` | frontend/src/components/Leaderboard.js:50 | different ranks past the podium get different labels |
| `Leaderboard.RankColor` | frontend/src/components/Leaderboard.js:54-65 | a class of its own for ranks 1, 2 and 3, and the shared default iff the rank is any other |
| `Leaderboard.PodiumColorsDistinct` | frontend/src/components/Leaderboard.js:54-65 | the three podium classes are pairwise distinct |
| `Leaderboard.Rows` | frontend/src/components/Leaderboard.js:118-139 | one row per score, rank index+1 (so the first row has the trophy and gold class), formatted wallet and score |
| `Leaderboard.ViewOf` | frontend/src/components/Leaderboard.js:67-116 | the skeleton iff loading, the empty message iff loaded with no scores, otherwise the rows |
| `Leaderboard.LeaderboardPanel.constructor` | frontend/src/components/Leaderboard.js:10-12 | scores [], loading, not refreshing |
| `Leaderboard.LeaderboardPanel.BeginLoad` | frontend/src/components/Leaderboard.js:14-16 | `loadLeaderboard(true)` sets refreshing, any other call sets loading |
| `Leaderboard.LeaderboardPanel.FinishLoad` | frontend/src/components/Leaderboard.js:18-26 | on success scores are replaced wholesale, on error kept; loading and refreshing are false after every outcome |
| `Leaderboard.RefreshFromLedger` | frontend/src/components/Leaderboard.js:14-26 | a refresh through `fetchLeaderboard` ends idle with its at most 10 rows |
| `WalletConnection.ConnectionSignal` | frontend/src/components/WalletConnection.js:45-47 | the signal passed up is true iff the wallet address is non-empty |
| `WalletConnection.WalletPanel.constructor` | frontend/src/components/WalletConnection.js:22-24 | not funding, not editing, empty draft |
| `WalletConnection.WalletPanel.EditUsername` | frontend/src/components/WalletConnection.js:26-29 | the draft is the current username and the editor is open |
| `WalletConnection.WalletPanel.TypeUsername` | frontend/src/components/WalletConnection.js:153 | the draft is what was typed |
| `WalletConnection.WalletPanel.SaveUsername` | frontend/src/components/WalletConnection.js:31-38 | the draft is what is handed to `setUsername`; the editor closes iff that call returns, and stays as it was when the call throws |
| `WalletConnection.WalletPanel.CancelUsername` | frontend/src/components/WalletConnection.js:40-43 | the draft is cleared and the editor closes; nothing is handed on |
| `WalletConnection.WalletPanel.BeginFund` | frontend/src/components/WalletConnection.js:65-68 | funding shows and the amount asked for is always "0.01" |
| `WalletConnection.WalletPanel.FinishFund` | frontend/src/components/WalletConnection.js:79-81 | funding is false afterwards, on success or failure |
| `WalletConnection.EditThenSave` | frontend/src/components/WalletConnection.js:26-38 | edit, type, save: exactly the typed name is requested, and the editor is left open iff `setUsername` threw |

## Left out

- Phaser itself is not modelled: rendering, textures, text, tints and the respawn tint timer, `physics.pause`, and the real overlap tests. Collisions arrive as events.
- Game.Session.HitAlien and Game.Session.HitPlayer do nothing once the game is over. The handlers at `GameCanvas.js:204-227` have no such test. This is an assumption: after `this.physics.pause()` at `GameCanvas.js:243`, Phaser reports no more overlaps.
- Game.Session.Advance: Phaser integrates positions in floating point. The model moves whole pixels. The player's x is clamped and alien x is rounded down (Euclidean division). Bullets are not moved, and their world-bounds colliders are not modelled: no rule of the game reads a bullet's position.
- Game.Session.HitPlayer: which sprite Phaser passes first in a group-versus-sprite overlap is the parameter `groupFirst`; the model does not decide it. When the player sprite is destroyed, the tint at line 222 falls on the other sprite. The later frames that steer a destroyed player are modelled as if the sprite were still there. Repeated callbacks while two sprites stay overlapped are separate events.
- The random shooter of `Phaser.Utils.Array.GetRandom` is an index supplied by the caller. Uniformity is not modelled.
- Game.GameEnding: the upload itself (the context's `uploadScore`, including its own throw when no uploader exists) is one success-or-failure flag. The two-second delay before `onGameOver` is not modelled.
- Network and wallet: `WebUploader`, ethers, `@irys/query`, the SDK, MetaMask and the gateway `fetch` are outcomes passed in. The search's `limit` belongs to the query service and is not modelled.
- Concurrency: the `Promise.all` fan-out is a plain sequence of per-record results. Two overlapping `getIrys` or `initIrys` calls are not modelled.
- `JSON.stringify` of the record and `data.json()` parsing. The stored document is a datatype. A payload with missing fields is not distinguished from one that has them.
- Number width: scores, lives, ranks, speeds and times are JavaScript numbers (doubles) in the source and unbounded integers in the model. The two agree while values stay below 2^53, where `score += 10` (`GameCanvas.js:207`, `230`) is exact. Decimal.IntToString matches `toString()` (`IrysContext.js:105`) only below 10^21, where JavaScript switches to exponent form such as "1e+21". No reachable score comes near either limit.
- Balances and amounts: `fromAtomic`/`toAtomic`, `parseFloat(balance)` and `hasBalance`. Balances are opaque strings.
- Toasts, alerts, `console` output, `toLocaleString`/`toLocaleDateString`, `Date.now()` (it is the `now` parameter) and all JSX other than the panel choice, the rank decorations and the rows.
- WalletConnection.WalletPanel.SaveUsername: `WalletConnection.js:11-20` reads `username` and `setUsername` from the context, but the context value at `IrysContext.js:166-177` provides neither. So `setUsername` is `undefined`, and in this repository every Save click throws a TypeError at line 32 before line 33 runs: the editor stays open and no toast is shown. That is `handedOff == false`. The model returns the name handed to the call, and does not claim that it reaches the context, where `username` stays "" and uploads are named "Anonymous".
- WalletConnection.WalletPanel.EditUsername: for the same reason `username` reaches `handleUsernameEdit` as `undefined`. The model takes the current name as a string and does not model `undefined`.
- The remount of the game: the effect at `GameCanvas.js:13-300` re-runs when `onGameOver`, `uploadScore`, `walletAddress` or `toast` changes (line 300). `uploadScore` is a new closure on every render of the provider (`IrysContext.js:87`). So a disconnect, a fund that sets the balance, or any other provider update during play destroys the Phaser game and starts a fresh scene with score 0 and lives 3. No `Game.Session` is ever restarted, and the model does not capture this.
- WalletConnection.WalletPanel.TypeUsername: the input's `maxLength={20}` is the browser's to enforce and is not modelled.
- `handleConnect` and `handleDisconnect` only add toasts around `initIrys` and `disconnect`.
- `frontend/craco.config.js` is build configuration. It is not part of this model.
