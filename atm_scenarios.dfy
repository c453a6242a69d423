/** Button sequences driven through the controller, and what they lead to. */
module ATMScenarios {
  import opened Numerals
  import opened ATM

  /** The digit buttons pressed one after another, in the order of s. */
  method TypeDigits(atm: ATMController, s: string)
    requires atm.Valid() && !atm.terminated && IsDigits(s)
    requires atm.cardInserted && atm.currentState != MainMenu
    modifies atm`currentInput, atm`shown
    ensures atm.Valid()
    ensures atm.currentInput == old(atm.currentInput) + s
    ensures |atm.shown| == |old(atm.shown)| + |s|
    ensures atm.shown[..|old(atm.shown)|] == old(atm.shown)
    ensures s != [] ==> atm.shown[|atm.shown| - 1] == PromptWithInput(atm.currentState, atm.currentInput)
    decreases |s|
  {
    if s != [] {
      atm.OnDigitPressed(s[0]);
      TypeDigits(atm, s[1..]);
      assert old(atm.currentInput) + s == old(atm.currentInput) + [s[0]] + s[1..];
    }
  }

  /** Enter in an entry mode whose buffer parses to value: the submission
      takes the parsed branch. */
  method SubmitParsed(atm: ATMController, ghost value: int)
    requires atm.Valid() && !atm.terminated && atm.cardInserted
    requires atm.currentState != MainMenu && TryParseInt32(atm.currentInput) == Some(value)
    modifies atm
    ensures atm.Valid()
    ensures old(atm.currentState) == PINEntry && value == old(atm.pin) ==>
      && !atm.terminated && atm.currentState == MainMenu && atm.pinAttempts == 0
      && atm.currentInput == old(atm.currentInput)
      && atm.shown[|atm.shown| - 1] == MainMenuText
      && atm.balance == old(atm.balance) && atm.pin == old(atm.pin)
      && atm.pendingMenuRedisplays == old(atm.pendingMenuRedisplays)
    ensures old(atm.currentState) == DepositEntry ==>
      && !atm.terminated && atm.currentState == MainMenu && atm.currentInput == []
      && atm.balance == DepositedBalance(old(atm.balance), value) && atm.pin == old(atm.pin)
      && atm.pendingMenuRedisplays == old(atm.pendingMenuRedisplays) + 1
    ensures old(atm.currentState) == WithdrawEntry ==>
      && !atm.terminated && atm.currentState == MainMenu && atm.currentInput == []
      && atm.balance == WithdrawnBalance(old(atm.balance), value) && atm.pin == old(atm.pin)
      && atm.pendingMenuRedisplays == old(atm.pendingMenuRedisplays) + 1
      && atm.shown[|atm.shown| - 1] == (if value <= old(atm.balance) then CashDispensed(atm.balance) else InsufficientFunds)
  {
    atm.OnEnterPressed();
  }

  /** Types the decimal form of value in an entry mode whose buffer is empty;
      the buffer then parses to value. */
  method TypeNumber(atm: ATMController, value: nat)
    requires atm.Valid() && !atm.terminated && atm.cardInserted
    requires atm.currentState != MainMenu && atm.currentInput == [] && value <= MaxInt32
    modifies atm`currentInput, atm`shown
    ensures atm.Valid()
    ensures TryParseInt32(atm.currentInput) == Some(value)
    ensures atm.currentInput == NatToString(value)
  {
    var typed := NatToString(value);
    TypeDigits(atm, typed);
    assert atm.currentInput == typed;
    ParseFormatRoundTrip(value);
  }

  /** Whatever the PIN has been changed to, inserting the card and typing the
      PIN in decimal opens the main menu and clears the attempt counter. */
  method SignIn(atm: ATMController)
    requires atm.Valid() && !atm.terminated && !atm.cardInserted
    modifies atm
    ensures atm.Valid() && !atm.terminated
    ensures atm.currentState == MainMenu && atm.pinAttempts == 0
    ensures atm.currentInput == NatToString(old(atm.pin))
    ensures atm.shown[|atm.shown| - 1] == MainMenuText
    ensures atm.balance == old(atm.balance) && atm.pin == old(atm.pin)
    ensures atm.pendingMenuRedisplays == old(atm.pendingMenuRedisplays)
  {
    atm.OnInsertCardPressed();
    TypeNumber(atm, atm.pin);
    SubmitParsed(atm, atm.pin);
  }

  /** From the main menu, depositing an amount and then withdrawing the same
      amount leaves a non-negative balance as it was, when the deposit does
      not overflow; both transactions end in the main menu. */
  method DepositThenWithdraw(atm: ATMController, amount: nat)
    requires atm.Valid() && !atm.terminated && atm.currentState == MainMenu
    requires 0 <= atm.balance && atm.balance + amount <= MaxInt32
    modifies atm
    ensures atm.Valid() && !atm.terminated
    ensures atm.balance == old(atm.balance) && atm.pin == old(atm.pin)
    ensures atm.currentState == MainMenu && atm.currentInput == []
    ensures atm.shown[|atm.shown| - 1] == CashDispensed(old(atm.balance))
  {
    DepositThenWithdrawRestores(atm.balance, amount);
    atm.OnMenuOptionSelected(2);
    TypeNumber(atm, amount);
    SubmitParsed(atm, amount);
    atm.OnMenuOptionSelected(3);
    TypeNumber(atm, amount);
    SubmitParsed(atm, amount);
  }

  /** A fresh controller: insert the card, type 1234, press enter. The main
      menu opens with no failed attempts, and the typed PIN is still in the
      buffer. */
  method CorrectPinScenario() returns (atm: ATMController)
    ensures atm.Valid() && !atm.terminated
    ensures atm.currentState == MainMenu && atm.pinAttempts == 0
    ensures atm.shown[|atm.shown| - 1] == MainMenuText
    ensures atm.currentInput == "1234"
  {
    atm := new ATMController();
    atm.OnInsertCardPressed();
    TypeNumber(atm, 1234);
    assert atm.currentInput == "1234";
    SubmitParsed(atm, 1234);
  }

  /** One wrong PIN digit "0" submitted. */
  method SubmitZero(atm: ATMController)
    requires atm.Valid() && !atm.terminated && atm.currentState == PINEntry && atm.currentInput == []
    requires atm.pin != 0
    modifies atm
    ensures atm.Valid() && atm.currentState == PINEntry
    ensures atm.pinAttempts == old(atm.pinAttempts) + 1 && atm.pin == old(atm.pin)
    ensures atm.terminated <==> atm.pinAttempts == MaxPinAttempts
    ensures !atm.terminated ==> atm.currentInput == [] && atm.shown[|atm.shown| - 1] == IncorrectPin
    ensures atm.terminated ==> atm.cardInserted && atm.shown[|atm.shown| - 1] == CardRetained
  {
    atm.OnDigitPressed('0');
    assert atm.currentInput == "0";
    assert ValueOf("0") == 0 by {
      assert "0"[..0] == "";
    }
    atm.OnEnterPressed();
  }

  /** A fresh controller: three wrong PINs in a row. The third keeps the card
      and quits the application. */
  method ThreeWrongPinsScenario() returns (atm: ATMController)
    ensures atm.Valid() && atm.terminated
    ensures atm.pinAttempts == MaxPinAttempts && atm.cardInserted
    ensures atm.shown[|atm.shown| - 1] == CardRetained
  {
    atm := new ATMController();
    atm.OnInsertCardPressed();
    SubmitZero(atm);
    SubmitZero(atm);
    SubmitZero(atm);
  }

  /** Ejecting the card does not clear the attempt counter: one wrong PIN on
      each of three insertions of the card retains it. */
  method AttemptsSurviveEjectScenario() returns (atm: ATMController)
    ensures atm.Valid() && atm.terminated
    ensures atm.pinAttempts == MaxPinAttempts
    ensures atm.shown[|atm.shown| - 1] == CardRetained
  {
    atm := new ATMController();
    atm.OnInsertCardPressed();
    SubmitZero(atm);
    atm.OnCancelPressed();
    atm.OnInsertCardPressed();
    SubmitZero(atm);
    atm.OnCancelPressed();
    atm.OnInsertCardPressed();
    SubmitZero(atm);
  }

  /** Signed in with 1000 in the account: withdrawing 50 leaves 950. */
  method WithdrawFiftyScenario() returns (atm: ATMController)
    ensures atm.Valid() && !atm.terminated
    ensures atm.balance == 950 && atm.currentState == MainMenu
    ensures atm.shown[|atm.shown| - 1] == CashDispensed(950)
    ensures atm.pendingMenuRedisplays == 1
  {
    atm := new ATMController();
    SignIn(atm);
    atm.OnMenuOptionSelected(3);
    TypeNumber(atm, 50);
    SubmitParsed(atm, 50);
  }

  /** Signed in with 1000 in the account: asking for 9999 is refused, the
      balance stays and the controller still returns to the main menu. */
  method InsufficientFundsScenario() returns (atm: ATMController)
    ensures atm.Valid() && !atm.terminated
    ensures atm.balance == 1000 && atm.currentState == MainMenu
    ensures atm.shown[|atm.shown| - 1] == InsufficientFunds
  {
    atm := new ATMController();
    SignIn(atm);
    atm.OnMenuOptionSelected(3);
    TypeNumber(atm, 9999);
    SubmitParsed(atm, 9999);
  }

  /** Signed in, in deposit entry with a partly typed amount: cancel returns
      to the main menu at once, with an empty buffer and no delayed redisplay. */
  method CancelDepositScenario() returns (atm: ATMController)
    ensures atm.Valid() && !atm.terminated
    ensures atm.currentState == MainMenu && atm.currentInput == [] && atm.balance == 1000
    ensures atm.pendingMenuRedisplays == 0
    ensures atm.shown[|atm.shown| - 1] == MainMenuText
  {
    atm := new ATMController();
    SignIn(atm);
    atm.OnMenuOptionSelected(2);
    atm.OnDigitPressed('7');
    atm.OnCancelPressed();
  }

  /** The delayed menu redisplay is not cancelled: check the balance, exit at
      once, and when the delay runs out the main menu is drawn over the
      insert-card prompt while the controller waits for a card. */
  method StaleMenuRedisplayScenario() returns (atm: ATMController)
    ensures atm.Valid() && !atm.terminated
    ensures atm.currentState == WaitingForCard && !atm.cardInserted
    ensures atm.shown[|atm.shown| - 1] == MainMenuText
  {
    atm := new ATMController();
    SignIn(atm);
    atm.OnMenuOptionSelected(1);
    atm.OnMenuOptionSelected(7);
    atm.ResumeWaitAndShowMenu();
  }
}
