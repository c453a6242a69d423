/** The ATM session controller: a modal state machine that turns button events
    (insert card, digit, cancel, reset, enter, menu option) into display
    messages and changes to the account's balance and PIN. */
module ATM {
  import opened Numerals

  /** The controller's modes. WaitingForCard is the initial one; the four
      modes after MainMenu collect the amount, PIN or language code of one
      menu option. */
  datatype ATMState =
    | WaitingForCard
    | PINEntry
    | MainMenu
    | DepositEntry
    | WithdrawEntry
    | ChangePinEntry
    | LanguageEntry

  const InitialBalance: int := 1000
  const DefaultPin: int := 1234
  const MaxPinAttempts: nat := 3

  /** The modes in which digits collect in the input buffer. */
  predicate IsEntryMode(state: ATMState) {
    state != WaitingForCard && state != MainMenu
  }

  /** The prompt of the current mode. Only WaitingForCard has none, and every
      prompt ends in a colon. */
  function CurrentPrompt(state: ATMState): (r: string)
    ensures r == [] <==> state == WaitingForCard
    ensures r != [] ==> r[|r| - 1] == ':'
    ensures '\n' !in r
  {
    match state
    case PINEntry => "Please enter your PIN:"
    case DepositEntry => "Enter deposit amount:"
    case WithdrawEntry => "Enter withdrawal amount:"
    case ChangePinEntry => "Enter new PIN:"
    case LanguageEntry => "Enter language code. 1(English) 2(español):"
    case MainMenu => "Main Menu:"
    case WaitingForCard => ""
  }

  /** The entry mode that main-menu options 2 to 5 open. */
  function OptionMode(option: int): (m: ATMState)
    requires 2 <= option <= 5
    ensures IsEntryMode(m) && m != PINEntry
  {
    match option
    case 2 => DepositEntry
    case 3 => WithdrawEntry
    case 4 => LanguageEntry
    case 5 => ChangePinEntry
  }

  /** What the controller puts on the display. */
  datatype Message =
    | InsertCardPrompt
    | CardInsertedPrompt
    | Prompt(state: ATMState)
    | PromptWithInput(state: ATMState, input: string)
    | CardEjected
    | OperationCanceled
    | MainMenuText
    | InvalidSelection
    | InvalidPinEntry
    | IncorrectPin
    | CardRetained
    | DepositSuccessful(newBalance: int)
    | CashDispensed(newBalance: int)
    | InsufficientFunds
    | InvalidAmount
    | PinChanged(oldPin: int, newPin: int)
    | InvalidNewPin
    | LanguageSet(code: string)
    | InvalidLanguage
    | BalanceIs(balance: int)
    | ReportedStolen
    | TakeYourCard

  /** The text each message puts on the screen. The echo of a digit press
      ends with the whole buffer. */
  function Text(m: Message): (r: string)
    ensures m.PromptWithInput? ==> |m.input| < |r| && r[|r| - |m.input|..] == m.input
  {
    match m
    case InsertCardPrompt => "Please insert your card."
    case CardInsertedPrompt => "Card inserted. Please enter your PIN:"
    case Prompt(state) => CurrentPrompt(state)
    case PromptWithInput(state, input) => CurrentPrompt(state) + "\n" + input
    case CardEjected => "Card ejected. Please insert your card."
    case OperationCanceled => "Operation canceled."
    case MainMenuText =>
      "Main Menu:\nL1: Check Balance\nL2: Deposit\nL3: Withdraw\nL4: Change Language\n"
      + "R1: Change PIN\nR2: Report Stolen Details\nR3: Exit"
    case InvalidSelection => "Invalid selection."
    case InvalidPinEntry => "Invalid PIN entry. Please try again:"
    case IncorrectPin => "Incorrect PIN. Please try again:"
    case CardRetained => "Too many incorrect attempts. Card retained. Exiting..."
    case DepositSuccessful(b) => "Deposit successful. New balance: " + IntToString(b)
    case CashDispensed(b) => "Please take your cash. New balance: " + IntToString(b)
    case InsufficientFunds => "Insufficient funds."
    case InvalidAmount => "Invalid amount. Please enter a valid number:"
    case PinChanged(o, n) => "PIN changed. Old PIN: " + IntToString(o) + " New PIN: " + IntToString(n)
    case InvalidNewPin => "Invalid PIN. Please enter a valid number:"
    case LanguageSet(code) => "Language set to " + (if code == "1" then "English" else "español")
    case InvalidLanguage => "Invalid language selection. Enter 1 or 2:"
    case BalanceIs(b) => "Your balance is: " + IntToString(b)
    case ReportedStolen => "PIN and Card details reported stolen. Card is deactivated."
    case TakeYourCard => "Thank you for using our ATM. Please take your card."
  }

  /** In a prompt without line breaks followed by a line break and digits,
      the only line break is the one after the prompt. */
  lemma OnlyLineBreak(p: string, x: string, i: int)
    requires '\n' !in p && IsDigits(x)
    requires 0 <= i < |p| + 1 + |x| && (p + "\n" + x)[i] == '\n'
    ensures i == |p|
  {
  }

  /** The echo of a digit press shows the buffer unambiguously: the prompt
      and the buffer are separated by the only line break, so two echoes
      with the same text carry the same buffer and the same prompt. */
  lemma EchoShowsBuffer(s1: ATMState, s2: ATMState, a: string, b: string)
    requires IsDigits(a) && IsDigits(b)
    requires Text(PromptWithInput(s1, a)) == Text(PromptWithInput(s2, b))
    ensures a == b && CurrentPrompt(s1) == CurrentPrompt(s2)
  {
    var p1, p2 := CurrentPrompt(s1), CurrentPrompt(s2);
    var r := Text(PromptWithInput(s1, a));
    assert r == p1 + "\n" + a && r == p2 + "\n" + b;
    var k := |p1|;
    assert r[k] == '\n';
    OnlyLineBreak(p2, b, k);
    assert a == r[k + 1..] == b;
    assert p1 == r[..k] == p2;
  }

  /** The balance shown after a deposit, a withdrawal or a balance check
      tells the user the balance exactly: different balances give different
      texts. */
  lemma BalanceTextDeterminesBalance(b1: int, b2: int)
    requires Text(BalanceIs(b1)) == Text(BalanceIs(b2))
    ensures b1 == b2
  {
    var prefix := "Your balance is: ";
    assert Text(BalanceIs(b1))[|prefix|..] == IntToString(b1);
    assert Text(BalanceIs(b2))[|prefix|..] == IntToString(b2);
    IntToStringInjective(b1, b2);
  }

  // ----- account arithmetic -----

  /** The balance after depositing amount: C#'s `+=` on int, which wraps.
      The result is always an int, and it is the exact sum when that fits. */
  function DepositedBalance(balance: int, amount: int): (r: int)
    ensures IsInt32(r)
    ensures IsInt32(balance + amount) ==> r == balance + amount
  {
    Wrap(balance + amount)
  }

  /** The balance after asking to withdraw amount: unchanged when the
      amount exceeds the balance. A non-negative amount never raises the
      balance, and an accepted one leaves it non-negative. */
  function WithdrawnBalance(balance: int, amount: int): (r: int)
    ensures 0 <= amount ==> r <= balance
    ensures 0 <= amount <= balance ==> 0 <= r
    ensures amount > balance ==> r == balance
  {
    if amount <= balance then balance - amount else balance
  }

  /** A withdrawal of a parsed (non-negative) amount never takes the balance
      below zero nor raises it, and a refused one leaves it as it was. */
  lemma WithdrawKeepsBalanceInRange(balance: int, amount: int)
    requires IsInt32(balance) && 0 <= amount
    ensures IsInt32(WithdrawnBalance(balance, amount))
    ensures WithdrawnBalance(balance, amount) <= balance
    ensures amount <= balance ==> WithdrawnBalance(balance, amount) >= 0
    ensures amount > balance ==> WithdrawnBalance(balance, amount) == balance
  {
  }

  /** A deposit keeps a non-negative balance non-negative exactly when the
      sum fits in an int; otherwise the int wraps to a negative balance. */
  lemma DepositNonNegativeIffNoOverflow(balance: int, amount: int)
    requires 0 <= balance <= MaxInt32 && 0 <= amount <= MaxInt32
    ensures DepositedBalance(balance, amount) >= 0 <==> balance + amount <= MaxInt32
    ensures balance + amount > MaxInt32 ==> DepositedBalance(balance, amount) == balance + amount - Two32
  {
  }

  /** Depositing an amount and then withdrawing the same amount restores a
      non-negative balance, provided the deposit did not overflow. (From a
      negative balance the withdrawal exceeds the balance and is refused.) */
  lemma DepositThenWithdrawRestores(balance: int, amount: int)
    requires 0 <= balance && 0 <= amount && balance + amount <= MaxInt32
    ensures WithdrawnBalance(DepositedBalance(balance, amount), amount) == balance
  {
  }

  /** From a negative (wrapped) balance, depositing a positive amount and
      withdrawing it again does not restore the balance: the withdrawal
      exceeds the balance and is refused. */
  lemma NegativeBalanceRoundTripFails(balance: int, amount: int)
    requires MinInt32 <= balance < 0 && 0 < amount <= MaxInt32
    ensures WithdrawnBalance(DepositedBalance(balance, amount), amount) != balance
  {
  }

  /** From a non-negative balance, a deposit that overflows is not undone by
      withdrawing the same amount: the wrapped balance is negative, so the
      withdrawal is refused. */
  lemma OverflowRoundTripFails(balance: int, amount: int)
    requires 0 <= balance <= MaxInt32 && 0 <= amount <= MaxInt32
    requires balance + amount > MaxInt32
    ensures WithdrawnBalance(DepositedBalance(balance, amount), amount) == balance + amount - Two32
    ensures WithdrawnBalance(DepositedBalance(balance, amount), amount) != balance
  {
    DepositNonNegativeIffNoOverflow(balance, amount);
  }

  /** The overflow is reachable from the initial balance with one parsable deposit. */
  lemma InitialBalanceDepositOverflows()
    ensures TryParseInt32(NatToString(MaxInt32)) == Some(MaxInt32)
    ensures DepositedBalance(InitialBalance, MaxInt32) < 0
  {
    ParseFormatRoundTrip(MaxInt32);
    DepositNonNegativeIffNoOverflow(InitialBalance, MaxInt32);
  }

  // ----- the controller -----

  class ATMController {
    var balance: int
    var pin: int
    var pinAttempts: nat
    var currentLanguage: string
    var currentInput: string
    var currentState: ATMState
    var cardInserted: bool
    /** Whether the insert-card button is shown. */
    var insertCardButtonActive: bool
    /** Set once the controller has asked the host application to quit. */
    var terminated: bool
    /** Delayed main-menu redisplays started and not yet run. */
    var pendingMenuRedisplays: nat
    /** Every message written to the display, oldest first; the last one is on screen. */
    var shown: seq<Message>

    /** The controller's invariant. */
    ghost predicate Valid()
      reads this
    {
      && (cardInserted <==> currentState != WaitingForCard)
      && IsDigits(currentInput)
      && (currentState == WaitingForCard ==> currentInput == [])
      && IsInt32(balance)
      && 0 <= pin <= MaxInt32
      && pinAttempts <= MaxPinAttempts
      && currentLanguage in {"en", "1", "2"}
      && shown != []
      && (!terminated ==> pinAttempts < MaxPinAttempts && insertCardButtonActive == !cardInserted)
    }

    /** Field initialisers and Start(). */
    constructor ()
      ensures Valid() && !terminated
      ensures balance == InitialBalance && pin == DefaultPin && pinAttempts == 0
      ensures currentLanguage == "en" && currentInput == []
      ensures currentState == WaitingForCard && !cardInserted && insertCardButtonActive
      ensures pendingMenuRedisplays == 0 && shown == [InsertCardPrompt]
    {
      currentInput := "";
      cardInserted := false;
      insertCardButtonActive := true;
      terminated := false;
      pendingMenuRedisplays := 0;
      balance := InitialBalance;
      pin := DefaultPin;
      pinAttempts := 0;
      currentLanguage := "en";
      currentState := WaitingForCard;
      shown := [InsertCardPrompt];
    }

    method ShowMainMenu()
      modifies this`shown
      ensures shown == old(shown) + [MainMenuText]
    {
      shown := shown + [MainMenuText];
    }

    /** The insert-card button: ignored while a card is in; otherwise the
        card goes in, PIN entry starts with an empty buffer and the button hides. */
    method OnInsertCardPressed()
      requires Valid() && !terminated
      modifies this`cardInserted, this`currentState, this`currentInput, this`insertCardButtonActive, this`shown
      ensures Valid()
      ensures old(cardInserted) ==> unchanged(this)
      ensures !old(cardInserted) ==>
        && cardInserted && currentState == PINEntry && currentInput == []
        && !insertCardButtonActive && shown == old(shown) + [CardInsertedPrompt]
    {
      if cardInserted {
        return;
      }
      cardInserted := true;
      currentState := PINEntry;
      currentInput := "";
      insertCardButtonActive := false;
      shown := shown + [CardInsertedPrompt];
    }

    /** A digit button: ignored with no card or in the main menu; otherwise the
        digit is appended to the buffer and echoed after the mode's prompt. */
    method OnDigitPressed(digit: Digit)
      requires Valid() && !terminated
      modifies this`currentInput, this`shown
      ensures Valid()
      ensures !old(cardInserted) || old(currentState) == MainMenu ==> unchanged(this)
      ensures old(cardInserted) && old(currentState) != MainMenu ==>
        && currentInput == old(currentInput) + [digit]
        && shown == old(shown) + [PromptWithInput(currentState, currentInput)]
    {
      if !cardInserted {
        return;
      }
      if currentState == MainMenu {
        return;
      }
      currentInput := currentInput + [digit];
      shown := shown + [PromptWithInput(currentState, currentInput)];
    }

    /** The cancel button: ignored while waiting for a card; otherwise the
        buffer is cleared, PIN entry ejects the card and shows the button
        again, and an entry mode returns to the main menu at once. */
    method OnCancelPressed()
      requires Valid() && !terminated
      modifies this`cardInserted, this`currentState, this`currentInput, this`insertCardButtonActive, this`shown
      ensures Valid()
      ensures old(currentState) == WaitingForCard ==> unchanged(this)
      ensures old(currentState) != WaitingForCard ==> currentInput == []
      ensures old(currentState) == PINEntry ==>
        && !cardInserted && currentState == WaitingForCard && insertCardButtonActive
        && shown == old(shown) + [CardEjected]
      ensures old(currentState) == MainMenu ==>
        && cardInserted && currentState == MainMenu
        && insertCardButtonActive == old(insertCardButtonActive) && shown == old(shown)
      ensures IsEntryMode(old(currentState)) && old(currentState) != PINEntry ==>
        && cardInserted && currentState == MainMenu
        && insertCardButtonActive == old(insertCardButtonActive)
        && shown == old(shown) + [OperationCanceled, MainMenuText]
    {
      if currentState == WaitingForCard {
        return;
      }
      currentInput := "";
      if currentState == PINEntry {
        cardInserted := false;
        currentState := WaitingForCard;
        shown := shown + [CardEjected];
        insertCardButtonActive := true;
      } else if currentState != MainMenu {
        currentState := MainMenu;
        shown := shown + [OperationCanceled];
        ShowMainMenu();
      }
    }

    /** The reset button: ignored with no card or in the main menu; otherwise
        the buffer is cleared and the mode's prompt shown again. */
    method OnResetPressed()
      requires Valid() && !terminated
      modifies this`currentInput, this`shown
      ensures Valid()
      ensures !old(cardInserted) || old(currentState) == MainMenu ==> unchanged(this)
      ensures old(cardInserted) && old(currentState) != MainMenu ==>
        currentInput == [] && shown == old(shown) + [Prompt(currentState)]
    {
      if !cardInserted {
        return;
      }
      if currentState == MainMenu {
        return;
      }
      currentInput := "";
      shown := shown + [Prompt(currentState)];
    }

    // ----- submissions -----

    /** A submission the parser refused: the buffer is cleared and msg shown;
        nothing else changes. */
    twostate predicate Rejected(msg: Message)
      reads this
    {
      && currentInput == [] && shown == old(shown) + [msg]
      && currentState == old(currentState)
      && balance == old(balance) && pin == old(pin) && pinAttempts == old(pinAttempts)
      && currentLanguage == old(currentLanguage) && terminated == old(terminated)
      && pendingMenuRedisplays == old(pendingMenuRedisplays)
    }

    /** A completed transaction: msg is shown, the controller is back in the
        main menu with an empty buffer, and one more delayed redisplay of the
        menu is pending. */
    twostate predicate Completed(msg: Message)
      reads this
    {
      && currentState == MainMenu && currentInput == [] && shown == old(shown) + [msg]
      && pendingMenuRedisplays == old(pendingMenuRedisplays) + 1
      && pinAttempts == old(pinAttempts) && terminated == old(terminated)
    }

    /** The outcome of submitting the buffer in PIN entry: unparsable input is
        refused without counting an attempt; the right PIN resets the attempt
        counter and opens the main menu, leaving the buffer as typed; a wrong
        PIN counts an attempt and either clears the buffer for a retry or, at
        the third, keeps the card and quits. */
    twostate predicate PinEntryProcessed()
      reads this
    {
      match TryParseInt32(old(currentInput))
      case None => Rejected(InvalidPinEntry)
      case Some(entered) =>
        && balance == old(balance) && pin == old(pin) && currentLanguage == old(currentLanguage)
        && pendingMenuRedisplays == old(pendingMenuRedisplays)
        && if entered == old(pin) then
             && pinAttempts == 0 && currentState == MainMenu && currentInput == old(currentInput)
             && terminated == old(terminated) && shown == old(shown) + [MainMenuText]
           else if old(pinAttempts) + 1 >= MaxPinAttempts then
             && pinAttempts == old(pinAttempts) + 1 && terminated
             && currentState == PINEntry && currentInput == old(currentInput)
             && shown == old(shown) + [CardRetained]
           else
             && pinAttempts == old(pinAttempts) + 1 && terminated == old(terminated)
             && currentState == PINEntry && currentInput == []
             && shown == old(shown) + [IncorrectPin]
    }

    /** Depositing the parsed amount adds it to the balance, with int wrap-around. */
    twostate predicate DepositProcessed()
      reads this
    {
      match TryParseInt32(old(currentInput))
      case None => Rejected(InvalidAmount)
      case Some(amount) =>
        && balance == DepositedBalance(old(balance), amount)
        && Completed(DepositSuccessful(balance))
        && pin == old(pin) && currentLanguage == old(currentLanguage)
    }

    /** Withdrawing the parsed amount succeeds only when it does not exceed the
        balance; either way the controller returns to the main menu. */
    twostate predicate WithdrawProcessed()
      reads this
    {
      match TryParseInt32(old(currentInput))
      case None => Rejected(InvalidAmount)
      case Some(amount) =>
        && balance == WithdrawnBalance(old(balance), amount)
        && Completed(if amount <= old(balance) then CashDispensed(balance) else InsufficientFunds)
        && pin == old(pin) && currentLanguage == old(currentLanguage)
    }

    /** Any parsed number becomes the new PIN. */
    twostate predicate ChangePinProcessed()
      reads this
    {
      match TryParseInt32(old(currentInput))
      case None => Rejected(InvalidNewPin)
      case Some(newPin) =>
        && pin == newPin
        && Completed(PinChanged(old(pin), newPin))
        && balance == old(balance) && currentLanguage == old(currentLanguage)
    }

    /** Only the codes "1" and "2" are accepted as a language. */
    twostate predicate LanguageChangeProcessed()
      reads this
    {
      if old(currentInput) == "1" || old(currentInput) == "2" then
        && currentLanguage == old(currentInput)
        && Completed(LanguageSet(old(currentInput)))
        && balance == old(balance) && pin == old(pin)
      else
        Rejected(InvalidLanguage)
    }

    method ProcessPinEntry()
      requires Valid() && !terminated && currentState == PINEntry
      modifies this`pinAttempts, this`currentState, this`currentInput, this`terminated, this`shown
      ensures Valid()
      ensures PinEntryProcessed()
    {
      var parsed := TryParseInt32(currentInput);
      if parsed.Some? {
        if parsed.value == pin {
          pinAttempts := 0;
          currentState := MainMenu;
          ShowMainMenu();
        } else {
          pinAttempts := pinAttempts + 1;
          if pinAttempts >= MaxPinAttempts {
            shown := shown + [CardRetained];
            terminated := true;
          } else {
            shown := shown + [IncorrectPin];
            currentInput := "";
          }
        }
      } else {
        shown := shown + [InvalidPinEntry];
        currentInput := "";
      }
    }

    method ProcessDeposit()
      requires Valid() && !terminated && currentState == DepositEntry
      modifies this`balance, this`currentState, this`currentInput, this`pendingMenuRedisplays, this`shown
      ensures Valid()
      ensures DepositProcessed()
    {
      var parsed := TryParseInt32(currentInput);
      if parsed.Some? {
        balance := DepositedBalance(balance, parsed.value);
        shown := shown + [DepositSuccessful(balance)];
        currentState := MainMenu;
        currentInput := "";
        pendingMenuRedisplays := pendingMenuRedisplays + 1;
      } else {
        shown := shown + [InvalidAmount];
        currentInput := "";
      }
    }

    method ProcessWithdraw()
      requires Valid() && !terminated && currentState == WithdrawEntry
      modifies this`balance, this`currentState, this`currentInput, this`pendingMenuRedisplays, this`shown
      ensures Valid()
      ensures WithdrawProcessed()
    {
      var parsed := TryParseInt32(currentInput);
      if parsed.Some? {
        WithdrawKeepsBalanceInRange(balance, parsed.value);
        if parsed.value <= balance {
          balance := balance - parsed.value;
          shown := shown + [CashDispensed(balance)];
        } else {
          shown := shown + [InsufficientFunds];
        }
        currentState := MainMenu;
        currentInput := "";
        pendingMenuRedisplays := pendingMenuRedisplays + 1;
      } else {
        shown := shown + [InvalidAmount];
        currentInput := "";
      }
    }

    method ProcessChangePin()
      requires Valid() && !terminated && currentState == ChangePinEntry
      modifies this`pin, this`currentState, this`currentInput, this`pendingMenuRedisplays, this`shown
      ensures Valid()
      ensures ChangePinProcessed()
    {
      var parsed := TryParseInt32(currentInput);
      if parsed.Some? {
        var oldPin := pin;
        pin := parsed.value;
        shown := shown + [PinChanged(oldPin, pin)];
        currentState := MainMenu;
        currentInput := "";
        pendingMenuRedisplays := pendingMenuRedisplays + 1;
      } else {
        shown := shown + [InvalidNewPin];
        currentInput := "";
      }
    }

    method ProcessLanguageChange()
      requires Valid() && !terminated && currentState == LanguageEntry
      modifies this`currentLanguage, this`currentState, this`currentInput, this`pendingMenuRedisplays, this`shown
      ensures Valid()
      ensures LanguageChangeProcessed()
    {
      // The buffer holds digits only, so lower-casing it changes nothing.
      var selectedLanguage := currentInput;
      if selectedLanguage == "1" || selectedLanguage == "2" {
        currentLanguage := selectedLanguage;
        shown := shown + [LanguageSet(selectedLanguage)];
        currentState := MainMenu;
        currentInput := "";
        pendingMenuRedisplays := pendingMenuRedisplays + 1;
      } else {
        shown := shown + [InvalidLanguage];
        currentInput := "";
      }
    }

    /** The enter button: ignored with no card and in the main menu; otherwise
        the buffer is submitted to the current mode's handler. */
    method OnEnterPressed()
      requires Valid() && !terminated
      modifies this`balance, this`pin, this`pinAttempts, this`currentLanguage, this`currentInput
      modifies this`currentState, this`terminated, this`pendingMenuRedisplays, this`shown
      ensures Valid()
      ensures !old(cardInserted) || old(currentState) == MainMenu ==> unchanged(this)
      ensures old(cardInserted) ==>
        && (old(currentState) == PINEntry ==> PinEntryProcessed())
        && (old(currentState) == DepositEntry ==> DepositProcessed())
        && (old(currentState) == WithdrawEntry ==> WithdrawProcessed())
        && (old(currentState) == ChangePinEntry ==> ChangePinProcessed())
        && (old(currentState) == LanguageEntry ==> LanguageChangeProcessed())
    {
      if !cardInserted {
        return;
      }
      match currentState
      case PINEntry => ProcessPinEntry();
      case DepositEntry => ProcessDeposit();
      case WithdrawEntry => ProcessWithdraw();
      case ChangePinEntry => ProcessChangePin();
      case LanguageEntry => ProcessLanguageChange();
      case _ =>
    }

    // ----- the main menu -----

    method ShowBalance()
      modifies this`pendingMenuRedisplays, this`shown
      ensures shown == old(shown) + [BalanceIs(balance)]
      ensures pendingMenuRedisplays == old(pendingMenuRedisplays) + 1
    {
      shown := shown + [BalanceIs(balance)];
      pendingMenuRedisplays := pendingMenuRedisplays + 1;
    }

    /** Option 6: the card is taken out of service and the application quits;
        the insert-card button stays hidden. */
    method ReportLostStolenCard()
      requires Valid() && !terminated
      modifies this`cardInserted, this`currentState, this`currentInput, this`terminated, this`shown
      ensures Valid()
      ensures shown == old(shown) + [ReportedStolen]
      ensures !cardInserted && currentState == WaitingForCard && currentInput == [] && terminated
    {
      shown := shown + [ReportedStolen];
      cardInserted := false;
      currentState := WaitingForCard;
      currentInput := "";
      terminated := true;
    }

    /** Option 7: the card is handed back and the insert-card button shown again. */
    method ExitATM()
      requires Valid() && !terminated
      modifies this`cardInserted, this`currentState, this`currentInput, this`insertCardButtonActive, this`shown
      ensures Valid()
      ensures shown == old(shown) + [TakeYourCard]
      ensures !cardInserted && currentState == WaitingForCard && currentInput == [] && insertCardButtonActive
    {
      shown := shown + [TakeYourCard];
      cardInserted := false;
      currentState := WaitingForCard;
      currentInput := "";
      insertCardButtonActive := true;
    }

    /** A main-menu option: ignored outside the main menu; otherwise the buffer
        is cleared and option 1 shows the balance, 2 to 5 open an entry mode,
        6 reports the card stolen, 7 ejects it, and anything else is refused. */
    method OnMenuOptionSelected(option: int)
      requires Valid() && !terminated
      modifies this`cardInserted, this`currentState, this`currentInput, this`terminated
      modifies this`insertCardButtonActive, this`pendingMenuRedisplays, this`shown
      ensures Valid()
      ensures old(currentState) != MainMenu ==> unchanged(this)
      ensures old(currentState) == MainMenu ==> currentInput == []
      ensures old(currentState) == MainMenu && option == 1 ==>
        && currentState == MainMenu && cardInserted && !terminated
        && insertCardButtonActive == old(insertCardButtonActive)
        && pendingMenuRedisplays == old(pendingMenuRedisplays) + 1
        && shown == old(shown) + [BalanceIs(old(balance))]
      ensures old(currentState) == MainMenu && 2 <= option <= 5 ==>
        && currentState == OptionMode(option) && cardInserted && !terminated
        && insertCardButtonActive == old(insertCardButtonActive)
        && pendingMenuRedisplays == old(pendingMenuRedisplays)
        && shown == old(shown) + [Prompt(OptionMode(option))]
      ensures old(currentState) == MainMenu && option == 6 ==>
        && currentState == WaitingForCard && !cardInserted && terminated
        && insertCardButtonActive == old(insertCardButtonActive)
        && pendingMenuRedisplays == old(pendingMenuRedisplays)
        && shown == old(shown) + [ReportedStolen]
      ensures old(currentState) == MainMenu && option == 7 ==>
        && currentState == WaitingForCard && !cardInserted && !terminated
        && insertCardButtonActive
        && pendingMenuRedisplays == old(pendingMenuRedisplays)
        && shown == old(shown) + [TakeYourCard]
      ensures old(currentState) == MainMenu && !(1 <= option <= 7) ==>
        && currentState == MainMenu && cardInserted && !terminated
        && insertCardButtonActive == old(insertCardButtonActive)
        && pendingMenuRedisplays == old(pendingMenuRedisplays)
        && shown == old(shown) + [InvalidSelection]
    {
      if currentState != MainMenu {
        return;
      }
      currentInput := "";
      match option
      case 1 => ShowBalance();
      case 2 =>
        currentState := DepositEntry;
        shown := shown + [Prompt(DepositEntry)];
      case 3 =>
        currentState := WithdrawEntry;
        shown := shown + [Prompt(WithdrawEntry)];
      case 4 =>
        currentState := LanguageEntry;
        shown := shown + [Prompt(LanguageEntry)];
      case 5 =>
        currentState := ChangePinEntry;
        shown := shown + [Prompt(ChangePinEntry)];
      case 6 => ReportLostStolenCard();
      case 7 => ExitATM();
      case _ => shown := shown + [InvalidSelection];
    }

    /** A delayed main-menu redisplay coming due. It checks nothing about the
        current mode: it shows the menu whatever has happened since it was
        started, and changes no other state. */
    method ResumeWaitAndShowMenu()
      requires Valid() && !terminated && pendingMenuRedisplays > 0
      modifies this`pendingMenuRedisplays, this`shown
      ensures Valid()
      ensures pendingMenuRedisplays == old(pendingMenuRedisplays) - 1
      ensures shown == old(shown) + [MainMenuText]
    {
      pendingMenuRedisplays := pendingMenuRedisplays - 1;
      ShowMainMenu();
    }
  }
}
