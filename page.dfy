/** The page: the client's mirror of the server state (the module-level globals of the script)
    and the elements the script updates in place. Server replies arrive as values; the requests
    that produce them, and their timing, are outside the model. */
module Client {
  import opened Decimal
  import opened Board

  /** The inline `style.display` of an element: untouched, "grid", "block" or "none". */
  datatype Display = Unset | Grid | Block | Hidden

  /** A settings checkbox (option1 to option5). */
  datatype Checkbox = Checkbox(disabled: bool, checked: bool)

  /** A keypad button: its trimmed text and its colour classes. */
  datatype Button = Button(text: string, colour: Colour)

  /** The numbers on the small keypad buttons; 7 has its own big button. */
  const KeypadNumbers: seq<int> := [2, 3, 4, 5, 6, 8, 9, 10, 11, 12]

  /** `after` is the keypad `before` with each button red exactly when its text is the text of s. */
  predicate KeypadRecoloured(before: seq<Button>, after: seq<Button>, s: int)
  {
    |after| == |before| &&
    forall k :: 0 <= k < |before| ==> after[k] == Button(before[k].text, Paint(before[k].text == NumberText(s)))
  }

  /** Recolouring fixes the keypad: two recolourings of the same buttons agree, and recolouring
      again for the same number changes nothing, since only the colours change. */
  lemma KeypadRecolourIdempotent(before: seq<Button>, once: seq<Button>, twice: seq<Button>, s: int)
    requires KeypadRecoloured(before, once, s)
    requires KeypadRecoloured(once, twice, s) || KeypadRecoloured(before, twice, s)
    ensures twice == once
  {
  }

  /** On the keypad of buttons 2 to 6 and 8 to 12, after recolouring for s exactly the button
      showing s is red, every other is black, and a robber roll leaves every small button black. */
  lemma StandardKeypadHighlight(before: seq<Button>, after: seq<Button>, s: int, k: nat)
    requires |before| == |KeypadNumbers|
    requires forall j :: 0 <= j < |before| ==> before[j].text == NumberText(KeypadNumbers[j])
    requires KeypadRecoloured(before, after, s)
    requires k < |after|
    ensures after[k].colour == Paint(KeypadNumbers[k] == s)
    ensures s == Robber ==> !after[k].colour.red && after[k].colour.black
  {
    NumberTextInjective(KeypadNumbers[k], s);
  }

  /** The text of a button: none yet, or one of the five texts the script writes. */
  datatype Caption = Untitled | Classic | Shuffle | Extension | StartText | EndText

  /** The text content each caption stands for. */
  function CaptionText(caption: Caption): string
  {
    match caption
    case Untitled => ""
    case Classic => "Classic"
    case Shuffle => "Shuffle"
    case Extension => "Extension"
    case StartText => "Start Game"
    case EndText => "End Game"
  }

  /** The captions stand for the texts: two captions show the same text only when they are the
      same caption, so the enum values name the button texts one to one. */
  lemma CaptionTextInjective(a: Caption, b: Caption)
    ensures CaptionText(a) == CaptionText(b) <==> a == b
  {
  }

  class Page {
    // The client's mirror of the server state.
    var gameStarted: bool
    var extension: bool
    var manualDice: bool
    var selectedNumber: int

    // The elements the script updates.
    var board: seq<Row>
    var keypad: seq<Button>
    var bigSeven: Colour
    var keypadDisplay: Display
    var diceDisplay: Display
    var classicLabel: Caption
    var extensionLabel: Caption
    var startLabel: Caption
    var classicDisabled: bool
    var extensionDisabled: bool
    var settingsDisabled: bool
    var option1: Checkbox
    var option2: Checkbox
    var option3: Checkbox
    var option4: Checkbox
    var option5: Checkbox

    /** The page as loaded: the mirror holds the script's initial values, the board is empty, and
        the keypad is as the markup gives it. */
    constructor (keypad: seq<Button>, bigSeven: Colour)
      ensures !gameStarted && !extension && manualDice && selectedNumber == 0
      ensures board == [] && this.keypad == keypad && this.bigSeven == bigSeven
      ensures keypadDisplay == Unset && diceDisplay == Unset
    {
      gameStarted, extension, manualDice, selectedNumber := false, false, true, 0;
      board := [];
      this.keypad, this.bigSeven := keypad, bigSeven;
      keypadDisplay, diceDisplay := Unset, Unset;
      classicLabel, extensionLabel, startLabel := Untitled, Untitled, Untitled;
      classicDisabled, extensionDisabled, settingsDisabled := false, false, false;
      option1, option2, option3 := Checkbox(false, false), Checkbox(false, false), Checkbox(false, false);
      option4, option5 := Checkbox(false, false), Checkbox(false, false);
    }

    /** What updateStates leaves on the page for reply `data`, given the keypad's display and
        buttons before the call: the laid-out and recoloured board, the controls set from the
        mirror and the reply, and the keypad recoloured. */
    ghost predicate Reconciled(data: BoardState, priorKeypadDisplay: Display, priorKeypad: seq<Button>)
      reads this
    {
      BoardShown(data) && ControlsShown(data, priorKeypadDisplay) && KeypadShown(priorKeypad)
    }

    /** The board is the layout of the reply, recoloured for the mirror's selected number. */
    ghost predicate BoardShown(data: BoardState)
      reads this`board, this`selectedNumber
    {
      Recoloured(Layout(data, selectedNumber), board, selectedNumber)
    }

    /** The controls as updateStates leaves them, written as one equation between the elements
        (left) and the values the script gives them (right): the mode buttons name the mode the
        mirror is not in; the keypad grid shows while the game runs with manual dice, is hidden
        while it does not run, and otherwise keeps its display; the dice button shows exactly while
        the game runs; mode, settings and option controls are disabled exactly while it runs; the
        start button offers to end a running game; each checkbox is ticked as the reply's setting. */
    predicate ControlsShown(data: BoardState, priorKeypadDisplay: Display)
      reads this`gameStarted, this`manualDice, this`extension, this`keypadDisplay, this`diceDisplay
      reads this`classicLabel, this`extensionLabel, this`startLabel
      reads this`classicDisabled, this`extensionDisabled, this`settingsDisabled
      reads this`option1, this`option2, this`option3, this`option4, this`option5
    {
      ( classicLabel, extensionLabel,
        keypadDisplay,
        diceDisplay,
        classicDisabled, extensionDisabled, settingsDisabled,
        startLabel,
        option1, option2, option3, option4, option5 )
      ==
      ( if extension then Classic else Shuffle, if extension then Shuffle else Extension,
        if !gameStarted then Hidden else if manualDice then Grid else priorKeypadDisplay,
        if gameStarted then Block else Hidden,
        gameStarted, gameStarted, gameStarted,
        if gameStarted then EndText else StartText,
        Checkbox(gameStarted, data.eightSixCanTouch), Checkbox(gameStarted, data.twoTwelveCanTouch),
        Checkbox(gameStarted, data.sameNumbersCanTouch), Checkbox(gameStarted, data.sameResourceCanTouch),
        Checkbox(gameStarted, data.manualDice) )
    }

    /** The keypad is recoloured for the mirror's selected number. */
    predicate KeypadShown(priorKeypad: seq<Button>)
      reads this`keypad, this`bigSeven, this`selectedNumber
    {
      KeypadRecoloured(priorKeypad, keypad, selectedNumber) &&
      bigSeven == Paint(selectedNumber == Robber)
    }

    /** updateBoardColors: every hex is repainted by the recolour rule; nothing else changes. */
    method UpdateBoardColors(selected: int)
      modifies this`board
      ensures Recoloured(old(board), board, selected)
    {
      ghost var before := board;
      var r := 0;
      while r < |board|
        invariant 0 <= r <= |board| == |before|
        invariant forall i :: 0 <= i < |board| ==>
          board[i].offset == before[i].offset && |board[i].cells| == |before[i].cells|
        invariant forall i :: r <= i < |board| ==> board[i] == before[i]
        invariant forall i, c :: 0 <= i < r && 0 <= c < |board[i].cells| ==>
          board[i].cells[c] == Repaint(before[i].cells[c], selected)
      {
        var c := 0;
        while c < |board[r].cells|
          invariant |board| == |before| && r < |board|
          invariant 0 <= c <= |board[r].cells| == |before[r].cells|
          invariant forall i :: 0 <= i < |board| ==>
            board[i].offset == before[i].offset && |board[i].cells| == |before[i].cells|
          invariant forall i :: r < i < |board| ==> board[i] == before[i]
          invariant forall i, c' :: 0 <= i < r && 0 <= c' < |board[i].cells| ==>
            board[i].cells[c'] == Repaint(before[i].cells[c'], selected)
          invariant forall c' :: 0 <= c' < c ==> board[r].cells[c'] == Repaint(before[r].cells[c'], selected)
          invariant forall c' :: c <= c' < |board[r].cells| ==> board[r].cells[c'] == before[r].cells[c']
        {
          var hex := board[r].cells[c];
          var colour := hex.colour;
          if selected == Robber {
            colour := colour.(red := true).(black := false);
          } else if LabelText(hex.caption) == NumberText(selected) {
            colour := colour.(red := true).(black := false);
          } else {
            colour := colour.(red := false).(black := true);
          }
          board := board[r := board[r].(cells := board[r].cells[c := hex.(colour := colour)])];
          c := c + 1;
        }
        r := r + 1;
      }
    }

    /** updateNumberButtonColors: each small button is red exactly when its text is the selected
        number's, and the big 7 button exactly on a robber roll. */
    method UpdateNumberButtonColors(selected: int)
      modifies this`keypad, this`bigSeven
      ensures KeypadRecoloured(old(keypad), keypad, selected)
      ensures bigSeven == Paint(selected == Robber)
    {
      ghost var before := keypad;
      for k := 0 to |keypad|
        invariant |keypad| == |before|
        invariant forall j :: 0 <= j < k ==>
          keypad[j] == Button(before[j].text, Paint(before[j].text == NumberText(selected)))
        invariant forall j :: k <= j < |keypad| ==> keypad[j] == before[j]
      {
        var button := keypad[k];
        if button.text == NumberText(selected) {
          button := button.(colour := button.colour.(red := true).(black := false));
        } else {
          button := button.(colour := button.colour.(red := false).(black := true));
        }
        keypad := keypad[k := button];
      }
      if selected == Robber {
        bigSeven := bigSeven.(red := true).(black := false);
      } else {
        bigSeven := bigSeven.(red := false).(black := true);
      }
    }

    /** The two recolouring calls that follow every change of the selected number. */
    method Recolour(selected: int)
      modifies this`board, this`keypad, this`bigSeven
      ensures Recoloured(old(board), board, selected)
      ensures KeypadRecoloured(old(keypad), keypad, selected) && bigSeven == Paint(selected == Robber)
    {
      UpdateBoardColors(selected);
      UpdateNumberButtonColors(selected);
    }

    /** The mode buttons of updateStates: each names the action it offers, from the mirror's mode. */
    method ShowModeLabels()
      modifies this`classicLabel, this`extensionLabel
      ensures extension ==> classicLabel == Classic && extensionLabel == Shuffle
      ensures !extension ==> classicLabel == Shuffle && extensionLabel == Extension
    {
      if extension {
        classicLabel := Classic;
        extensionLabel := Shuffle;
      } else {
        classicLabel := Shuffle;
        extensionLabel := Extension;
      }
    }

    /** The five option checkboxes are disabled, or enabled again, together; their ticks stay. */
    method DisableOptions(disabled: bool)
      modifies this`option1, this`option2, this`option3, this`option4, this`option5
      ensures option1 == Checkbox(disabled, old(option1.checked))
      ensures option2 == Checkbox(disabled, old(option2.checked))
      ensures option3 == Checkbox(disabled, old(option3.checked))
      ensures option4 == Checkbox(disabled, old(option4.checked))
      ensures option5 == Checkbox(disabled, old(option5.checked))
    {
      option1 := option1.(disabled := disabled);
      option2 := option2.(disabled := disabled);
      option3 := option3.(disabled := disabled);
      option4 := option4.(disabled := disabled);
      option5 := option5.(disabled := disabled);
    }

    /** The game-state block of updateStates: while the mirror says the game runs, the dice button
        shows, mode, settings and options are disabled and the start button offers to end the game;
        the keypad shows only with manual dice and otherwise keeps its display. When the game is
        not running, keypad and dice are hidden and everything is enabled again. */
    method LockControls()
      modifies this`keypadDisplay, this`diceDisplay, this`startLabel
      modifies this`classicDisabled, this`extensionDisabled, this`settingsDisabled
      modifies this`option1, this`option2, this`option3, this`option4, this`option5
      ensures keypadDisplay == (if !gameStarted then Hidden else if manualDice then Grid else old(keypadDisplay))
      ensures diceDisplay == (if gameStarted then Block else Hidden)
      ensures classicDisabled == gameStarted && extensionDisabled == gameStarted && settingsDisabled == gameStarted
      ensures option1 == Checkbox(gameStarted, old(option1.checked))
      ensures option2 == Checkbox(gameStarted, old(option2.checked))
      ensures option3 == Checkbox(gameStarted, old(option3.checked))
      ensures option4 == Checkbox(gameStarted, old(option4.checked))
      ensures option5 == Checkbox(gameStarted, old(option5.checked))
      ensures gameStarted ==> startLabel == EndText
      ensures !gameStarted ==> startLabel == StartText
    {
      if gameStarted {
        if manualDice {
          keypadDisplay := Grid;
        }
        diceDisplay := Block;
        classicDisabled := true;
        extensionDisabled := true;
        settingsDisabled := true;
        DisableOptions(true);
        startLabel := EndText;
      } else {
        keypadDisplay := Hidden;
        diceDisplay := Hidden;
        classicDisabled := false;
        extensionDisabled := false;
        settingsDisabled := false;
        DisableOptions(false);
        startLabel := StartText;
      }
    }

    /** The checkbox block of updateStates: each option is checked exactly when the reply's
        corresponding setting is on. */
    method MirrorSettings(data: BoardState)
      modifies this`option1, this`option2, this`option3, this`option4, this`option5
      ensures option1 == Checkbox(old(option1.disabled), data.eightSixCanTouch)
      ensures option2 == Checkbox(old(option2.disabled), data.twoTwelveCanTouch)
      ensures option3 == Checkbox(old(option3.disabled), data.sameNumbersCanTouch)
      ensures option4 == Checkbox(old(option4.disabled), data.sameResourceCanTouch)
      ensures option5 == Checkbox(old(option5.disabled), data.manualDice)
    {
      option1 := option1.(checked := data.eightSixCanTouch);
      option2 := option2.(checked := data.twoTwelveCanTouch);
      option3 := option3.(checked := data.sameNumbersCanTouch);
      option4 := option4.(checked := data.sameResourceCanTouch);
      option5 := option5.(checked := data.manualDice);
    }

    /** The controls part of updateStates: mode labels, game-state block and checkboxes. */
    method ShowControls(data: BoardState)
      modifies this`keypadDisplay, this`diceDisplay
      modifies this`classicLabel, this`extensionLabel, this`startLabel
      modifies this`classicDisabled, this`extensionDisabled, this`settingsDisabled
      modifies this`option1, this`option2, this`option3, this`option4, this`option5
      ensures ControlsShown(data, old(keypadDisplay))
    {
      ShowModeLabels();
      LockControls();
      MirrorSettings(data);
    }

    /** updateStates: rebuilds the board from the reply, then sets the controls from the MIRROR
        (not from the reply), the checkboxes from the reply, and recolours. The mirror itself is
        not touched. */
    method UpdateStates(data: BoardState)
      modifies this`board, this`keypad, this`bigSeven, this`keypadDisplay, this`diceDisplay
      modifies this`classicLabel, this`extensionLabel, this`startLabel
      modifies this`classicDisabled, this`extensionDisabled, this`settingsDisabled
      modifies this`option1, this`option2, this`option3, this`option4, this`option5
      ensures BoardShown(data) && ControlsShown(data, old(keypadDisplay)) && KeypadShown(old(keypad))
    {
      board := GenerateBoard(data, selectedNumber);
      ShowControls(data);
      Recolour(selectedNumber);
    }

    /** One successful poll of /getboard: the mirror takes the reply's four fields, then the page is
        reconciled with the reply. */
    method Poll(data: BoardState)
      modifies this
      ensures gameStarted == data.gameStarted && extension == data.extension
      ensures selectedNumber == data.selectedNumber && manualDice == data.manualDice
      ensures Reconciled(data, old(keypadDisplay), old(keypad))
    {
      gameStarted := data.gameStarted;
      extension := data.extension;
      selectedNumber := data.selectedNumber;
      manualDice := data.manualDice;
      UpdateStates(data);
    }

    /** setClassic with the /setclassic reply: applied only when the reply confirms the classic
        board; otherwise nothing changes. */
    method SetClassic(data: BoardState)
      modifies this
      ensures data.extension ==> unchanged(this)
      ensures !data.extension ==> !extension && Reconciled(data, old(keypadDisplay), old(keypad))
      ensures gameStarted == old(gameStarted) && manualDice == old(manualDice)
      ensures selectedNumber == old(selectedNumber)
    {
      if !data.extension {
        extension := false;
        UpdateStates(data);
      }
    }

    /** setExtension with the /setextension reply: applied only when the reply confirms the
        extension board; otherwise nothing changes. */
    method SetExtension(data: BoardState)
      modifies this
      ensures !data.extension ==> unchanged(this)
      ensures data.extension ==> extension && Reconciled(data, old(keypadDisplay), old(keypad))
      ensures gameStarted == old(gameStarted) && manualDice == old(manualDice)
      ensures selectedNumber == old(selectedNumber)
    {
      if data.extension {
        extension := true;
        UpdateStates(data);
      }
    }

    /** startGame: asks /endgame when the mirror says the game runs and /startgame otherwise, and
        applies that endpoint's reply. Only ending the game takes the reply's selected number. */
    method StartGame(data: BoardState) returns (endpoint: string)
      modifies this
      ensures endpoint == if old(gameStarted) then "/endgame" else "/startgame"
      ensures gameStarted == data.gameStarted
      ensures selectedNumber == if old(gameStarted) then data.selectedNumber else old(selectedNumber)
      ensures extension == old(extension) && manualDice == old(manualDice)
      ensures Reconciled(data, old(keypadDisplay), old(keypad))
    {
      if !gameStarted {
        endpoint := "/startgame";
        gameStarted := data.gameStarted;
        UpdateStates(data);
      } else {
        endpoint := "/endgame";
        gameStarted := data.gameStarted;
        selectedNumber := data.selectedNumber;
        UpdateStates(data);
      }
    }

    /** selectNumber(n) with the server's echo `reply`: the selected number becomes the reply and the
        board and keypad are recoloured, without rebuilding the board. */
    method SelectNumber(n: int, reply: int) returns (request: string)
      modifies this`selectedNumber, this`board, this`keypad, this`bigSeven
      ensures request == "/selectNumber?value=" + NumberText(n)
      ensures selectedNumber == reply
      ensures Recoloured(old(board), board, reply)
      ensures KeypadRecoloured(old(keypad), keypad, reply) && bigSeven == Paint(reply == Robber)
    {
      request := "/selectNumber?value=" + NumberText(n);
      selectedNumber := reply;
      Recolour(selectedNumber);
    }

    /** rollDice with the server's rolled number `reply`: as for selectNumber, only the selected
        number and the colours change. */
    method RollDice(reply: int)
      modifies this`selectedNumber, this`board, this`keypad, this`bigSeven
      ensures selectedNumber == reply
      ensures Recoloured(old(board), board, reply)
      ensures KeypadRecoloured(old(keypad), keypad, reply) && bigSeven == Paint(reply == Robber)
    {
      selectedNumber := reply;
      Recolour(selectedNumber);
    }
  }
}
