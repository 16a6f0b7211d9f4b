/** The game: a board and the turn flag. One turn parses the typed move,
    validates it, relocates the piece, looks for a missing king and, if both
    kings are still there, passes the turn. The game ends when a king has
    been captured. */
module Game {
  import opened Optional
  import opened Pieces
  import opened Grids
  import opened BoardText
  import opened Board
  import opened MoveText
  import opened Rules

  datatype Outcome = Ongoing | WhiteWins | BlackWins

  /** Some square holds exactly the symbol `s`. */
  predicate HasSymbol(g: Grid, s: char)
    requires IsGrid(g)
  {
    exists r, c :: 0 <= r < 8 && 0 <= c < 8 && g[r][c] == s
  }

  /** The end-of-game test: no 'K' means Black has won, otherwise no 'k'
      means White has won. White's king is looked for first, so a board with
      neither king counts as a win for Black. */
  function Terminal(g: Grid): Outcome
    requires IsGrid(g)
  {
    if !HasSymbol(g, 'K') then BlackWins
    else if !HasSymbol(g, 'k') then WhiteWins
    else Ongoing
  }

  /** The starting position has both kings, so the game is on. */
  lemma InitialOngoing()
    ensures Terminal(InitialGrid()) == Ongoing
  {
    var g := InitialGrid();
    assert g[7][4] == 'K' && g[0][4] == 'k';
  }

  /** The game between turns: the board, whose turn it is, and the
      contents of the save file, `None` when there is no such file. */
  datatype GameState = GameState(grid: Grid, whiteTurn: bool, saved: Option<string>)

  /** What a typed line asks for. */
  datatype Command = Blank | Quit | Save | Load | MoveRequest

  /** The dispatch at the top of the loop of `play`: the empty line, the
      three command words, and anything else, which is taken for a move. */
  function CommandOf(input: string): (cmd: Command)
    ensures cmd == MoveRequest <==> input != "" && input != "quit" && input != "save" && input != "load"
  {
    if input == "" then Blank
    else if input == "quit" then Quit
    else if input == "save" then Save
    else if input == "load" then Load
    else MoveRequest
  }

  /** What one typed line did. `Played` carries the enemy piece that stood on
      the destination, if any, and the outcome after the move. */
  datatype TurnResult =
    | Skipped
    | Quitted
    | SavedGame
    | Loaded
    | NoSaveFile
    | UnreadableSave
    | BadFormat
    | IllegalMove
    | Played(captured: Option<char>, outcome: Outcome)

  /** The result after which `play` leaves its loop: quitting, or a move
      that left a side without its king. */
  predicate Ends(result: TurnResult) {
    result == Quitted || (result.Played? && result.outcome != Ongoing)
  }

  /** A line that is a move request: parse, validate, note the capture,
      move, look for the kings, and pass the turn unless one is missing. */
  function MoveTurn(s: GameState, input: string): (r: (GameState, TurnResult))
    requires IsGrid(s.grid)
    ensures IsGrid(r.0.grid)
  {
    match ParseMove(input)
    case None => (s, BadFormat)
    case Some(m) =>
      if !ValidateMove(s.grid, s.whiteTurn, m.fromR, m.fromC, m.toR, m.toC) then (s, IllegalMove)
      else
        var target := s.grid[m.toR][m.toC];
        var captured := if !IsEmpty(target) && IsEnemyPiece(target, s.whiteTurn) then Some(target) else None;
        var grid := Moved(s.grid, m.fromR, m.fromC, m.toR, m.toC);
        var outcome := Terminal(grid);
        (s.(grid := grid, whiteTurn := if outcome == Ongoing then !s.whiteTurn else s.whiteTurn),
         Played(captured, outcome))
  }

  /** The load command: without a save file nothing happens; a file a load
      can read replaces the board; a file on which `loadFromFile` would
      index past the end of a string is refused. The turn is never
      touched. */
  function LoadTurn(s: GameState): (r: (GameState, TurnResult))
    requires IsGrid(s.grid)
    ensures IsGrid(r.0.grid)
  {
    match s.saved
    case None => (s, NoSaveFile)
    case Some(text) =>
      if IsLoadable(text) then (s.(grid := Decode(text)), Loaded) else (s, UnreadableSave)
  }

  /** One pass through the loop of `play`. */
  function Turn(s: GameState, input: string): (r: (GameState, TurnResult))
    requires IsGrid(s.grid)
    ensures IsGrid(r.0.grid)
  {
    match CommandOf(input)
    case Blank => (s, Skipped)
    case Quit => (s, Quitted)
    case Save => (s.(saved := Some(Encode(s.grid))), SavedGame)
    case Load => LoadTurn(s)
    case MoveRequest => MoveTurn(s, input)
  }

  /** The loop of `play` over a sequence of typed lines, leaving it after
      the line that ends the game. */
  function Run(s: GameState, inputs: seq<string>): (t: GameState)
    requires IsGrid(s.grid)
    ensures IsGrid(t.grid)
    decreases |inputs|
  {
    if inputs == [] then s
    else
      var (next, result) := Turn(s, inputs[0]);
      if Ends(result) then next
      else Run(next, inputs[1..])
  }

  /** The game `main` starts: the starting position, White to move, and
      whatever save file already exists. */
  function NewGame(saved: Option<string>): (s: GameState)
    ensures IsGrid(s.grid) && Terminal(s.grid) == Ongoing && s.whiteTurn
  {
    InitialOngoing();
    GameState(InitialGrid(), true, saved)
  }

  /** The turn rules for a move request. A line that does not parse, or a
      move that is not legal, leaves the game as it was. A legal move
      relocates the piece, reports the enemy piece it captured, and passes
      the turn exactly when both kings remain. */
  lemma MoveTurnRules(s: GameState, input: string)
    requires IsGrid(s.grid)
    ensures var (t, result) := MoveTurn(s, input);
      && (result == BadFormat <==> ParseMove(input).None?)
      && (!result.Played? ==> t == s)
      && t.saved == s.saved
      && (result.Played? ==>
            var m := ParseMove(input).value;
            && ValidateMove(s.grid, s.whiteTurn, m.fromR, m.fromC, m.toR, m.toC)
            && t.grid == Moved(s.grid, m.fromR, m.fromC, m.toR, m.toC)
            && result.outcome == Terminal(t.grid)
            && (t.whiteTurn == !s.whiteTurn <==> result.outcome == Ongoing)
            && (result.captured.Some? <==> IsEnemyPiece(s.grid[m.toR][m.toC], s.whiteTurn))
            && (result.captured.Some? ==> result.captured.value == s.grid[m.toR][m.toC]))
  {
  }

  /** The commands. A blank line and `quit` change nothing; `save` only
      replaces the save file with the board's text; `load` changes at most
      the board, and only when a readable save file exists; no command
      passes the turn. */
  lemma CommandRules(s: GameState, input: string)
    requires IsGrid(s.grid) && CommandOf(input) != MoveRequest
    ensures var (t, result) := Turn(s, input);
      && t.whiteTurn == s.whiteTurn
      && (input == "" ==> t == s && result == Skipped)
      && (input == "quit" ==> t == s && result == Quitted)
      && (input == "save" ==> t == s.(saved := Some(Encode(s.grid))) && result == SavedGame)
      && (input == "load" ==>
            && t.saved == s.saved
            && (result == Loaded <==> s.saved.Some? && IsLoadable(s.saved.value))
            && (result == Loaded ==> t.grid == Decode(s.saved.value))
            && (result != Loaded ==> t == s))
  {
  }

  /** Saving and then loading gives back exactly the game that was saved,
      provided no square holds a line break. */
  lemma SaveThenLoad(s: GameState)
    requires IsGrid(s.grid) && NoNewline(s.grid)
    ensures var saved := Turn(s, "save").0;
      Turn(saved, "load") == (s.(saved := Some(Encode(s.grid))), Loaded)
  {
    EncodeDecode(s.grid);
  }

  /** A move creates no piece: every symbol other than '.' on the new
      board was already on the old one. */
  lemma MoveCreatesNothing(g: Grid, fr: int, fc: int, tr: int, tc: int, p: char)
    requires IsGrid(g) && IsValidPos(fr, fc) && IsValidPos(tr, tc) && p != EmptySymbol
    requires HasSymbol(Moved(g, fr, fc, tr, tc), p)
    ensures HasSymbol(g, p)
  {
    var h := Moved(g, fr, fc, tr, tc);
    var r, c :| 0 <= r < 8 && 0 <= c < 8 && h[r][c] == p;
    if (r, c) == (tr, tc) {
      assert g[fr][fc] == p;
    } else {
      assert g[r][c] == p;
    }
  }

  /** Once a king is gone no move brings it back. */
  lemma FinishedStaysFinished(s: GameState, input: string)
    requires IsGrid(s.grid) && Terminal(s.grid) != Ongoing
    ensures Terminal(MoveTurn(s, input).0.grid) != Ongoing
  {
    var (t, result) := MoveTurn(s, input);
    if result.Played? {
      var m := ParseMove(input).value;
      var missing := if !HasSymbol(s.grid, 'K') then 'K' else 'k';
      if HasSymbol(t.grid, missing) {
        MoveCreatesNothing(s.grid, m.fromR, m.fromC, m.toR, m.toC, missing);
      }
    }
  }

  /** A turn keeps line breaks off the board. */
  lemma TurnKeepsNoNewline(s: GameState, input: string)
    requires IsGrid(s.grid) && NoNewline(s.grid)
    ensures NoNewline(Turn(s, input).0.grid)
  {
    match CommandOf(input)
    case Blank =>
    case Quit =>
    case Save =>
    case Load =>
      if s.saved.Some? && IsLoadable(s.saved.value) {
        DecodeEncodeDecode(s.saved.value);
      }
    case MoveRequest =>
      match ParseMove(input)
      case None =>
      case Some(m) =>
        if ValidateMove(s.grid, s.whiteTurn, m.fromR, m.fromC, m.toR, m.toC) {
          MovedNoNewline(s.grid, m.fromR, m.fromC, m.toR, m.toC);
        }
  }

  /** Any number of turns keeps line breaks off the board. */
  lemma {:induction false} RunKeepsNoNewline(s: GameState, inputs: seq<string>)
    requires IsGrid(s.grid) && NoNewline(s.grid)
    ensures NoNewline(Run(s, inputs).grid)
    decreases |inputs|
  {
    if inputs != [] {
      TurnKeepsNoNewline(s, inputs[0]);
      RunKeepsNoNewline(Turn(s, inputs[0]).0, inputs[1..]);
    }
  }

  /** Whatever lines have been typed since the game started, saving and
      loading straight away gives back the game as it was. */
  lemma ReachableGamesReload(saved: Option<string>, inputs: seq<string>)
    ensures var s := Run(NewGame(saved), inputs);
      Turn(Turn(s, "save").0, "load") == (s.(saved := Some(Encode(s.grid))), Loaded)
  {
    InitialNoNewline();
    RunKeepsNoNewline(NewGame(saved), inputs);
    SaveThenLoad(Run(NewGame(saved), inputs));
  }

  /** Typing "e2 e4" at the start moves the White pawn two squares, leaves
      e2 empty and hands the turn to Black. */
  lemma OpeningExample(saved: Option<string>)
    ensures var (t, result) := Turn(NewGame(saved), "e2 e4");
      && result == Played(None, Ongoing)
      && t.grid[6][4] == EmptySymbol && t.grid[4][4] == 'P'
      && !t.whiteTurn
  {
    var g := InitialGrid();
    ParseExample();
    StartingPositionExamples();
    var h := Moved(g, 6, 4, 4, 4);
    assert h[7][4] == 'K' && h[0][4] == 'k';
  }

  class ChessGame {
    const board: ChessBoard
    var whiteTurn: bool
    /** The contents of the save file; `None` when there is none. */
    var saved: Option<string>

    ghost predicate Valid() {
      board.Valid()
    }

    /** The game's current state as a value. */
    function State(): (s: GameState)
      requires Valid()
      reads this, board.cells
      ensures IsGrid(s.grid)
    {
      GameState(board.Grid(), whiteTurn, saved)
    }

    /** A new game: the starting position, White to move, next to whatever
        save file already exists. */
    constructor (existing: Option<string>)
      ensures Valid() && fresh(board) && fresh(board.cells)
      ensures State() == NewGame(existing)
    {
      board := new ChessBoard();
      whiteTurn := true;
      saved := existing;
    }

    /** `checkKingCaptured`: scans all 64 squares for 'K' and 'k' and reports
        whether one of them is missing, and which side that makes the
        winner. */
    method CheckKingCaptured() returns (captured: bool, outcome: Outcome)
      requires Valid()
      ensures outcome == Terminal(board.Grid())
      ensures captured <==> outcome != Ongoing
    {
      ghost var g := board.Grid();
      var whiteKing := false;
      var blackKing := false;

      for r := 0 to 8
        invariant whiteKing <==> exists i, j :: 0 <= i < r && 0 <= j < 8 && g[i][j] == 'K'
        invariant blackKing <==> exists i, j :: 0 <= i < r && 0 <= j < 8 && g[i][j] == 'k'
      {
        for c := 0 to 8
          invariant whiteKing <==> (exists i, j :: 0 <= i < r && 0 <= j < 8 && g[i][j] == 'K')
                                   || (exists j :: 0 <= j < c && g[r][j] == 'K')
          invariant blackKing <==> (exists i, j :: 0 <= i < r && 0 <= j < 8 && g[i][j] == 'k')
                                   || (exists j :: 0 <= j < c && g[r][j] == 'k')
        {
          var p := board.GetPiece(r, c);
          if p == 'K' {
            whiteKing := true;
          }
          if p == 'k' {
            blackKing := true;
          }
        }
      }

      if !whiteKing {
        return true, BlackWins;
      }
      if !blackKing {
        return true, WhiteWins;
      }
      return false, Ongoing;
    }

    /** A line that is a move request. */
    method PlayMove(input: string) returns (result: TurnResult)
      requires Valid()
      modifies this, board.cells
      ensures Valid()
      ensures (State(), result) == MoveTurn(old(State()), input)
    {
      var parsed := ParseMove(input);
      if parsed.None? {
        return BadFormat;
      }
      var m := parsed.value;

      if !ValidateMove(board.Grid(), whiteTurn, m.fromR, m.fromC, m.toR, m.toC) {
        return IllegalMove;
      }

      var target := board.GetPiece(m.toR, m.toC);
      var captured := if !IsEmpty(target) && IsEnemyPiece(target, whiteTurn) then Some(target) else None;

      var _ := board.MovePiece(m.fromR, m.fromC, m.toR, m.toC);

      var over, outcome := CheckKingCaptured();
      if !over {
        whiteTurn := !whiteTurn;
      }
      return Played(captured, outcome);
    }

    /** The save command: the file is replaced by the board's text. */
    method SaveGame() returns (result: TurnResult)
      requires Valid()
      modifies this
      ensures Valid()
      ensures (State(), result) == Turn(old(State()), "save")
    {
      var text := board.SaveText();
      saved := Some(text);
      return SavedGame;
    }

    /** The load command. */
    method LoadGame() returns (result: TurnResult)
      requires Valid()
      modifies board.cells
      ensures Valid()
      ensures (State(), result) == Turn(old(State()), "load")
    {
      if saved.None? {
        return NoSaveFile;
      }
      var text := saved.value;
      if !IsLoadable(text) {
        return UnreadableSave;
      }
      board.LoadText(text);
      return Loaded;
    }

    /** One pass through the loop of `play`. */
    method TakeTurn(input: string) returns (result: TurnResult)
      requires Valid()
      modifies this, board.cells
      ensures Valid()
      ensures (State(), result) == Turn(old(State()), input)
    {
      if input == "" {
        return Skipped;
      }
      if input == "quit" {
        return Quitted;
      }
      if input == "save" {
        result := SaveGame();
        return;
      }
      if input == "load" {
        result := LoadGame();
        return;
      }
      result := PlayMove(input);
    }

    /** The loop of `play`: one turn per typed line until the lines run out,
        `quit` is typed or a king is captured. */
    method Play(inputs: seq<string>)
      requires Valid()
      modifies this, board.cells
      ensures Valid()
      ensures State() == Run(old(State()), inputs)
    {
      var i := 0;
      while i < |inputs|
        invariant 0 <= i <= |inputs|
        invariant Valid()
        invariant Run(State(), inputs[i..]) == Run(old(State()), inputs)
      {
        assert inputs[i..][1..] == inputs[i + 1..];
        var result := TakeTurn(inputs[i]);
        if Ends(result) {
          return;
        }
        i := i + 1;
      }
    }
  }
}
