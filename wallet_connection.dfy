/** `WalletConnection.js`: the username editor's local state, the funding
    flag and the connection signal passed up to the page.  The context's
    `setUsername` is not modelled: saving yields the name it is handed, and
    whether that call returned or threw is a parameter. */
module WalletConnection {

  /** The amount `handleFund` always asks for. */
  const FundAmount := "0.01"

  /** `onConnectionChange(!!walletAddress)`. */
  function ConnectionSignal(walletAddress: string): (connected: bool)
    ensures connected <==> |walletAddress| > 0
  {
    walletAddress != ""
  }

  class WalletPanel {
    var isFunding: bool
    var isEditingUsername: bool
    var tempUsername: string

    constructor ()
      ensures !isFunding && !isEditingUsername && tempUsername == ""
    {
      isFunding, isEditingUsername, tempUsername := false, false, "";
    }

    /** `handleUsernameEdit`: the editor opens holding the current name. */
    method EditUsername(username: string)
      modifies this`tempUsername, this`isEditingUsername
      ensures tempUsername == username && isEditingUsername
    {
      tempUsername := username;
      isEditingUsername := true;
    }

    /** The input's `onChange`. */
    method TypeUsername(text: string)
      modifies this`tempUsername
      ensures tempUsername == text
    {
      tempUsername := text;
    }

    /** `handleUsernameSave`: the edited name goes to `setUsername`; the
        editor closes only when that call returns (`handedOff`), since a
        throwing call skips the rest of the handler. */
    method SaveUsername(handedOff: bool) returns (requested: string)
      modifies this`isEditingUsername
      ensures requested == tempUsername
      ensures handedOff ==> !isEditingUsername
      ensures !handedOff ==> isEditingUsername == old(isEditingUsername)
    {
      requested := tempUsername;
      if handedOff {
        isEditingUsername := false;
      }
    }

    /** `handleUsernameCancel`: the edit is dropped and the editor closes;
        nothing is passed on. */
    method CancelUsername()
      modifies this`tempUsername, this`isEditingUsername
      ensures tempUsername == "" && !isEditingUsername
    {
      tempUsername := "";
      isEditingUsername := false;
    }

    /** The start of `handleFund`: funding shows, and 0.01 is requested. */
    method BeginFund() returns (amount: string)
      modifies this`isFunding
      ensures isFunding && amount == FundAmount
    {
      isFunding := true;
      amount := FundAmount;
    }

    /** The `finally` of `handleFund`, after success or failure alike. */
    method FinishFund()
      modifies this`isFunding
      ensures !isFunding
    {
      isFunding := false;
    }
  }

  /** Opening the editor, typing a name and saving requests exactly the
      typed name; the editor is closed afterwards iff `setUsername` returned,
      and stays open when it threw. */
  method EditThenSave(current: string, typed: string, handedOff: bool) returns (requested: string, open: bool)
    ensures requested == typed
    ensures open <==> !handedOff
  {
    var w := new WalletPanel();
    w.EditUsername(current);
    w.TypeUsername(typed);
    requested := w.SaveUsername(handedOff);
    open := w.isEditingUsername;
  }
}
