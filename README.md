# ATM session controller, modelled in Dafny

This project models the ATM session controller of a Unity ATM simulation
(`ATMController.cs`). The controller is a modal state machine. It holds:

- an account balance (1000 at start);
- a PIN (1234 at start);
- a count of wrong PIN attempts (three end the session);
- a buffer of typed digits;
- whether a card is in;
- the current mode, one of `WaitingForCard`, `PINEntry`, `MainMenu`,
  `DepositEntry`, `WithdrawEntry`, `ChangePinEntry` or `LanguageEntry`.

Six button handlers each change that state for one event: insert card, digit,
cancel, reset, enter and main-menu option. Enter hands the buffer to the
current mode's submission handler. That handler parses the buffer as an `int`
and applies a PIN check, deposit, withdrawal, PIN change or language change.

Files:

- `numerals.dfy` (module `Numerals`) covers the .NET behaviour the controller
  relies on:
  - `Int32.TryParse` on a digit buffer: it succeeds exactly when the buffer
    is non-empty and its value is at most 2^31 − 1;
  - `int.ToString` for displayed amounts;
  - the wrap-around of unchecked 32-bit `int` addition.

  It proves that formatting and parsing round-trip, that leading zeros are
  ignored, and that buffers of at most nine digits always parse while eleven
  significant digits never do.
- `atm_controller.dfy` (module `ATM`) holds the modes, the display messages,
  the account arithmetic and the class `ATMController`:
  - the class has the source's fields, plus the insert-card button's
    visibility, a `terminated` flag for the application quitting, a count of
    pending delayed menu redisplays, and `shown`, the sequence of every
    message written to the display;
  - `Valid()` is the controller's invariant. It says a card is in exactly
    when the mode is not `WaitingForCard`, and the buffer holds only digits
    and is empty while waiting for a card. It also says the balance and PIN
    fit in an `int`, and that before termination fewer than three attempts
    have failed and the insert-card button shows exactly when no card is in;
  - every handler keeps `Valid()` and states its whole effect;
  - its `modifies` frame lists the only fields it may change.
- `atm_scenarios.dfy` (module `ATMScenarios`) drives the controller through
  button sequences:
  - signing in with whatever the current PIN is;
  - depositing and then withdrawing the same amount;
  - three wrong PINs, also spread over three card insertions;
  - a withdrawal that succeeds and one that is refused;
  - cancelling a deposit;
  - a delayed menu redisplay that lands after the card was ejected.

Some of the code's behaviour is easy to overlook; the model keeps it as written:

- after a correct PIN the typed digits stay in the buffer, so the buffer is
  not always empty in `MainMenu`. Every entry mode is still entered with an
  empty buffer;
- the third wrong PIN leaves the card in and the mode at `PINEntry`, keeps
  the buffer, and quits;
- reporting the card stolen (option 6) ejects it to `WaitingForCard` and
  quits, and the insert-card button stays hidden;
- ejecting a card never resets the attempt counter. Wrong PINs add up across
  insertions, and only a correct PIN resets the counter;
- the language code starts as `"en"` and afterwards becomes `"1"` or `"2"`;
- a deposit wraps around at 2^31 − 1. The balance can therefore become
  negative. From a negative balance, a deposit of a positive amount followed
  by a withdrawal of the same amount does not restore it. From a
  non-negative balance, a deposit that overflows is not undone by the same
  withdrawal either: the wrapped balance is negative and the withdrawal is
  refused.

## Model

| member | source | states |
|---|---|---|
| `Numerals.Wrap` | Assets/CA_Project/scripts/ATMController.cs:251 | the result of unchecked `int` addition is an int32 congruent to the exact sum modulo 2^32, and equal to it when the sum fits |
| `Numerals.TryParseInt32` | Assets/CA_Project/scripts/ATMController.cs:211 | a successful parse of the buffer yields a value between 0 and 2^31 − 1 |
| `Numerals.NatToString` | Assets/CA_Project/scripts/ATMController.cs:252 | the decimal form of an amount is a non-empty digit string with no leading zero |
| `Numerals.ValueOfNatToString` | Assets/CA_Project/scripts/ATMController.cs:252 | reading back the decimal form of n gives n |
| `Numerals.ParseFormatRoundTrip` | Assets/CA_Project/scripts/ATMController.cs:211-213 | every value a parse can produce (0 to 2^31 − 1) is parsed back from its own decimal form, so every PIN the controller can hold can be typed |
| `Numerals.LeadingZeroIgnored` | Assets/CA_Project/scripts/ATMController.cs:211 | a leading zero does not change the value of a digit string |
| `Numerals.ParseIgnoresLeadingZero` | Assets/CA_Project/scripts/ATMController.cs:211-213 | the parse of "0" + s equals the parse of any non-empty s, so a PIN typed with leading zeros is accepted |
| `Numerals.ShortInputParses` | Assets/CA_Project/scripts/ATMController.cs:249 | a non-empty buffer of at most nine digits always parses to its value |
| `Numerals.LongInputRejected` | Assets/CA_Project/scripts/ATMController.cs:267 | a buffer of eleven or more digits without a leading zero overflows and is refused |
| `ATM.CurrentPrompt` | Assets/CA_Project/scripts/ATMController.cs:379-398 | only `WaitingForCard` has an empty prompt, every other prompt ends in a colon, and no prompt contains a line break |
| `ATM.OptionMode` | Assets/CA_Project/scripts/ATMController.cs:180-195 | options 2 to 5 each open an entry mode other than PIN entry |
| `Numerals.IntToString` | Assets/CA_Project/scripts/ATMController.cs:252 | the displayed form of an int starts with a minus sign exactly when it is negative, followed by the decimal form of its magnitude |
| `Numerals.IntToStringInjective` | Assets/CA_Project/scripts/ATMController.cs:252 | different ints are displayed as different strings |
| `ATM.Text` | Assets/CA_Project/scripts/ATMController.cs:80-91 | the echo after a digit press ends with the whole buffer typed so far |
| `ATM.EchoShowsBuffer` | Assets/CA_Project/scripts/ATMController.cs:89-90 | two digit echoes with the same text show the same buffer after the same prompt |
| `ATM.BalanceTextDeterminesBalance` | Assets/CA_Project/scripts/ATMController.cs:327-331 | two balance messages with the same text report the same balance |
| `ATM.DepositedBalance` | Assets/CA_Project/scripts/ATMController.cs:251 | the balance after a deposit is always an int, and equals the exact sum when the sum fits |
| `ATM.WithdrawnBalance` | Assets/CA_Project/scripts/ATMController.cs:269-277 | a withdrawal of a non-negative amount never raises the balance, an accepted one leaves it non-negative, and a refused one leaves it unchanged |
| `ATM.NegativeBalanceRoundTripFails` | Assets/CA_Project/scripts/ATMController.cs:246-287 | from a negative balance, depositing a positive amount and withdrawing it again does not restore the balance |
| `ATM.OverflowRoundTripFails` | Assets/CA_Project/scripts/ATMController.cs:246-287 | from a non-negative balance, a deposit that overflows followed by the same withdrawal leaves the sum minus 2^32, not the old balance |
| `ATM.WithdrawKeepsBalanceInRange` | Assets/CA_Project/scripts/ATMController.cs:269-277 | a withdrawal of a parsed amount keeps the balance an int and never raises it; an accepted one leaves it non-negative; a refused one leaves it unchanged |
| `ATM.DepositNonNegativeIffNoOverflow` | Assets/CA_Project/scripts/ATMController.cs:251 | from a non-negative balance, a parsed deposit leaves the balance non-negative if and only if the sum fits in an int; otherwise the balance wraps to the sum minus 2^32 |
| `ATM.DepositThenWithdrawRestores` | Assets/CA_Project/scripts/ATMController.cs:246-287 | depositing a and then withdrawing a restores a non-negative balance when the deposit does not overflow |
| `ATM.InitialBalanceDepositOverflows` | Assets/CA_Project/scripts/ATMController.cs:246-252 | from the initial balance of 1000, one parsable deposit of 2147483647 makes the balance negative |
| `ATM.ATMController.constructor` | Assets/CA_Project/scripts/ATMController.cs:17-52 | the controller starts with balance 1000, PIN 1234, no attempts, language "en", an empty buffer, no card and the insert-card prompt, and its invariant holds |
| `ATM.ATMController.ShowMainMenu` | Assets/CA_Project/scripts/ATMController.cs:366-377 | the main menu is written to the display and nothing else changes |
| `ATM.ATMController.OnInsertCardPressed` | Assets/CA_Project/scripts/ATMController.cs:64-77 | with a card in nothing changes; otherwise the card goes in, PIN entry starts with an empty buffer and the button hides; the account is untouched |
| `ATM.ATMController.OnDigitPressed` | Assets/CA_Project/scripts/ATMController.cs:80-91 | with no card or in the main menu nothing changes; otherwise exactly that digit is appended and echoed after the prompt, and mode, balance, PIN and attempts are untouched |
| `ATM.ATMController.OnCancelPressed` | Assets/CA_Project/scripts/ATMController.cs:94-118 | a no-op while waiting for a card; from PIN entry it ejects the card and shows the button; from an entry mode it returns to the main menu at once; in the main menu it only clears the buffer; attempts are never reset |
| `ATM.ATMController.OnResetPressed` | Assets/CA_Project/scripts/ATMController.cs:121-133 | with no card or in the main menu nothing changes; otherwise only the buffer is emptied and the prompt shown again |
| `ATM.ATMController.ProcessPinEntry` | Assets/CA_Project/scripts/ATMController.cs:208-244 | unparsable input clears the buffer without counting an attempt; the right PIN sets attempts to 0 and opens the main menu; a wrong one counts an attempt and either clears the buffer or, at the third, keeps the card and terminates |
| `ATM.ATMController.ProcessDeposit` | Assets/CA_Project/scripts/ATMController.cs:246-262 | a parsed amount is added with int wrap-around and the controller returns to the main menu with a delayed redisplay pending; unparsable input only clears the buffer |
| `ATM.ATMController.ProcessWithdraw` | Assets/CA_Project/scripts/ATMController.cs:264-287 | an amount not above the balance is subtracted, a larger one leaves the balance and reports insufficient funds; either way the controller returns to the main menu; unparsable input only clears the buffer |
| `ATM.ATMController.ProcessChangePin` | Assets/CA_Project/scripts/ATMController.cs:289-306 | any parsed value becomes the PIN and old and new PIN are shown; unparsable input only clears the buffer |
| `ATM.ATMController.ProcessLanguageChange` | Assets/CA_Project/scripts/ATMController.cs:308-324 | only "1" and "2" are accepted and stored as the language; anything else stays in language entry with an empty buffer |
| `ATM.ATMController.OnEnterPressed` | Assets/CA_Project/scripts/ATMController.cs:136-162 | with no card or in the main menu nothing changes; otherwise the outcome is that of the current mode's submission handler |
| `ATM.ATMController.ShowBalance` | Assets/CA_Project/scripts/ATMController.cs:327-331 | the balance is shown and one delayed menu redisplay is started |
| `ATM.ATMController.ReportLostStolenCard` | Assets/CA_Project/scripts/ATMController.cs:339-351 | the card is ejected to `WaitingForCard` with an empty buffer and the controller terminates |
| `ATM.ATMController.ExitATM` | Assets/CA_Project/scripts/ATMController.cs:353-363 | the card is ejected to `WaitingForCard` with an empty buffer and the insert-card button is shown; no termination |
| `ATM.ATMController.OnMenuOptionSelected` | Assets/CA_Project/scripts/ATMController.cs:168-206 | ignored outside the main menu; otherwise clears the buffer; 1 shows the balance; 2 to 5 open their entry mode; 6 ejects and terminates with the button hidden; 7 ejects and shows the button; other values only show "invalid selection" |
| `ATM.ATMController.ResumeWaitAndShowMenu` | Assets/CA_Project/scripts/ATMController.cs:333-337 | a delayed redisplay draws the main menu whatever the current mode, and changes nothing else |
| `ATMScenarios.TypeDigits` | Assets/CA_Project/scripts/ATMController.cs:80-91 | pressing the digits of s in an entry mode appends s to the buffer, adds one message per digit after the earlier ones, and the last one echoes the whole buffer after the prompt |
| `ATMScenarios.SignIn` | Assets/CA_Project/scripts/ATMController.cs:208-218 | inserting the card and typing the current PIN in decimal always opens the main menu with attempts at 0, and leaves the typed PIN in the buffer |
| `ATMScenarios.DepositThenWithdraw` | Assets/CA_Project/scripts/ATMController.cs:246-287 | from the main menu, a deposit of a followed by a withdrawal of a leaves a non-negative balance as it was when the deposit does not overflow |
| `ATMScenarios.CorrectPinScenario` | Assets/CA_Project/scripts/ATMController.cs:208-218 | insert card, type 1234, enter: main menu, no attempts, buffer still "1234" |
| `ATMScenarios.SubmitZero` | Assets/CA_Project/scripts/ATMController.cs:219-237 | a wrong PIN counts one attempt and terminates exactly when the count reaches 3, keeping the card in |
| `ATMScenarios.ThreeWrongPinsScenario` | Assets/CA_Project/scripts/ATMController.cs:219-231 | three wrong PINs retain the card and terminate |
| `ATMScenarios.AttemptsSurviveEjectScenario` | Assets/CA_Project/scripts/ATMController.cs:102-111 | ejecting the card between wrong PINs does not reset the counter; the third wrong PIN overall terminates |
| `ATMScenarios.WithdrawFiftyScenario` | Assets/CA_Project/scripts/ATMController.cs:264-281 | from 1000, withdrawing 50 leaves 950 and returns to the main menu |
| `ATMScenarios.InsufficientFundsScenario` | Assets/CA_Project/scripts/ATMController.cs:269-280 | from 1000, asking for 9999 keeps the balance, reports insufficient funds and returns to the main menu |
| `ATMScenarios.CancelDepositScenario` | Assets/CA_Project/scripts/ATMController.cs:112-117 | cancel in deposit entry returns to the main menu at once, with an empty buffer and no delayed redisplay |
| `ATMScenarios.StaleMenuRedisplayScenario` | Assets/CA_Project/scripts/ATMController.cs:327-337 | a balance check followed by exit leaves a redisplay pending that draws the main menu while the controller waits for a card |

## Left out

- The 3-second delay of `WaitAndShowMenu`. Starting the coroutine is
  modelled as a pending count. Its resumption is the separate event
  `ResumeWaitAndShowMenu`, which may come at any later point. Time itself is
  not modelled.
- TextMeshPro output and `Debug.Log`. Every `UpdateDisplay` call appends a
  `Message` to `shown`, and `Text` gives the string it displays.
- `Application.Quit` and leaving play mode in the editor. Both set the
  `terminated` flag, and no handler runs afterwards.
- Unassigned Inspector references (`displayText`, `insertCardButton` null).
  The insert-card button is assumed assigned and visible at start.
- Digit buttons carry a single decimal character (`Numerals.Digit`). A button
  configured with another string is not modelled. So `Int32.TryParse`'s
  handling of signs, white space and culture settings never arises and is not
  modelled, and `ToLower` on the language buffer is the identity.
- The display language. `currentLanguage` is stored, but all texts are the
  English ones.
- `atmModel` and `atmButtons` are declared but never used by the controller.
- ATMButton.cs is not part of this model. It only finds the controller in
  the scene and forwards clicks to the handlers modelled here.
- VRHammerController.cs, WhackAMoleController.cs and MoleCollision.cs are not
  part of this model. They hold XR grab handling, physics, float timers,
  audio and animation.
