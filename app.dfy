/** `App.js`: the page's three-way game state, the final score it shows, and
    the wallet gate in front of a new game. */
module App {

  /** The values `gameState` takes: "menu", "playing" and "gameOver". */
  datatype GameState = Menu | Playing | GameOver

  /** The three conditional blocks of the game card. */
  datatype Panel = MenuPanel | CanvasPanel | GameOverPanel

  /** The blocks rendered for a state: GameCanvas is mounted exactly while a
      game is being played, and each state shows exactly one block. */
  function ShownPanels(state: GameState): (p: set<Panel>)
    ensures |p| == 1
    ensures MenuPanel in p <==> state == Menu
    ensures CanvasPanel in p <==> state == Playing
    ensures GameOverPanel in p <==> state == GameOver
  {
    match state
    case Menu => {MenuPanel}
    case Playing => {CanvasPanel}
    case GameOver => {GameOverPanel}
  }

  class AppState {
    var gameState: GameState
    var finalScore: int
    var isWalletConnected: bool

    constructor ()
      ensures gameState == Menu && finalScore == 0 && !isWalletConnected
    {
      gameState, finalScore, isWalletConnected := Menu, 0, false;
    }

    /** `onConnectionChange`, the setter WalletConnection reports to. */
    method SetWalletConnected(connected: bool)
      modifies this`isWalletConnected
      ensures isWalletConnected == connected
    {
      isWalletConnected := connected;
    }

    /** `startGame`: without a wallet the player is alerted and nothing
        changes; with one the game is playing, whatever the state was. */
    method StartGame() returns (alerted: bool)
      modifies this`gameState
      ensures alerted == !isWalletConnected
      ensures isWalletConnected ==> gameState == Playing
      ensures !isWalletConnected ==> gameState == old(gameState)
    {
      if !isWalletConnected {
        return true;
      }
      gameState := Playing;
      alerted := false;
    }

    /** `onGameOver(score)`: the score is kept and the game-over block shown. */
    method OnGameOver(score: int)
      modifies this`finalScore, this`gameState
      ensures finalScore == score && gameState == GameOver
    {
      finalScore := score;
      gameState := GameOver;
    }

    /** `resetGame`: back to the menu with the final score cleared. */
    method ResetGame()
      modifies this`gameState, this`finalScore
      ensures gameState == Menu && finalScore == 0
    {
      gameState := Menu;
      finalScore := 0;
    }
  }

  /** A played game: connect, start, end with a score, and play again.  The
      score reaches the game-over block and is gone after the reset. */
  method PlayOnce(score: int) returns (shown: int, after: GameState, alerted: bool)
    ensures shown == score && after == Menu && !alerted
  {
    var app := new AppState();
    app.SetWalletConnected(true);
    alerted := app.StartGame();
    assert ShownPanels(app.gameState) == {CanvasPanel};
    app.OnGameOver(score);
    shown := app.finalScore;
    app.ResetGame();
    after := app.gameState;
  }
}
