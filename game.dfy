/**
 * Game configuration (difficulty and colour), resolving a UCI token to a move
 * with the promotion fallback, and creating a game: a position, an engine and
 * the player's settings.
 */
module GameSetup {
  import opened Wrappers
  import opened ChessRules
  import opened EngineAdapter

  datatype Difficulty = Easy | Medium | Hard

  /** The position of a difficulty in the order EASY, MEDIUM, HARD, counted from 1. */
  function Level(difficulty: Difficulty): (level: int)
    ensures 1 <= level <= 3
  {
    match difficulty
    case Easy => 1
    case Medium => 2
    case Hard => 3
  }

  /** The engine's search depth for a difficulty. */
  function ParseDepth(difficulty: Difficulty): (depth: nat)
    ensures 1 <= depth <= 10
  {
    match difficulty
    case Easy => 1
    case Medium => 3
    case Hard => 10
  }

  /** The engine's target playing strength for a difficulty. */
  function ParseElo(difficulty: Difficulty): (elo: nat)
    ensures 400 <= elo <= 3500
  {
    match difficulty
    case Easy => 400
    case Medium => 900
    case Hard => 3500
  }

  /** The opponent's display name for a difficulty. */
  function ParsePlayerName(difficulty: Difficulty): (name: string)
    ensures name != []
  {
    match difficulty
    case Easy => "Martin"
    case Medium => "Maggus Reischl"
    case Hard => "Maggus Carlsen"
  }

  /** The difficulty chosen by a level number from the game form. */
  function DifficultyFromLevel(level: int): (difficulty: Option<Difficulty>)
    ensures difficulty.Some? <==> 1 <= level <= 3
    ensures difficulty.Some? ==> Level(difficulty.value) == level
  {
    match level
    case 1 => Some(Easy)
    case 2 => Some(Medium)
    case 3 => Some(Hard)
    case _ => None
  }

  lemma DifficultySettings()
    ensures ParseDepth(Easy) == 1 && ParseDepth(Medium) == 3 && ParseDepth(Hard) == 10
    ensures ParseElo(Easy) == 400 && ParseElo(Medium) == 900 && ParseElo(Hard) == 3500
  {
  }

  /** A harder difficulty searches deeper and plays stronger. */
  lemma HarderSearchesDeeper(a: Difficulty, b: Difficulty)
    ensures Level(a) < Level(b) <==> ParseDepth(a) < ParseDepth(b)
    ensures Level(a) < Level(b) <==> ParseElo(a) < ParseElo(b)
  {
  }

  /** The search command each difficulty sends to the engine. */
  lemma DifficultyDepthCommands()
    ensures DepthCommand(ParseDepth(Easy)) == "go depth 1"
    ensures DepthCommand(ParseDepth(Medium)) == "go depth 3"
    ensures DepthCommand(ParseDepth(Hard)) == "go depth 10"
  {
    assert DecimalText(10) == DecimalText(1) + ['0'];
  }

  lemma LevelRoundTrip(difficulty: Difficulty)
    ensures DifficultyFromLevel(Level(difficulty)) == Some(difficulty)
  {
  }

  lemma PlayerNamesDistinct(a: Difficulty, b: Difficulty)
    ensures a != b ==> ParsePlayerName(a) != ParsePlayerName(b)
  {
  }

  datatype Color = Black | White

  /** The colour's one-letter code. */
  function ParseCode(color: Color): (code: char)
    ensures code == 'b' || code == 'w'
  {
    match color
    case Black => 'b'
    case White => 'w'
  }

  /**
   * The colour chosen by a character of the game form: 'b' and 'w' name a
   * colour, 'r' draws one of the two at random, anything else is no colour.
   */
  method NewColor(character: char) returns (color: Option<Color>)
    ensures forall c: Color :: character == ParseCode(c) ==> color == Some(c)
    ensures character == 'r' ==> color.Some?
    ensures color.Some? <==> character in {'b', 'w', 'r'}
  {
    match character
    case 'b' => color := Some(Black);
    case 'w' => color := Some(White);
    case 'r' =>
      var pick :| pick in [Black, White];
      color := Some(pick);
    case _ => color := None;
  }

  /**
   * The fallback test of find_with_auto_promotion: the move's to-square text
   * equals the UCI text after its first two characters, and its from-square
   * text equals the first two characters.
   */
  function MatchesUci(mv: Move, uci: Uci): (matches: bool)
    ensures matches <==> uci.Normal? && uci.promotion.None? && mv.from == Some(uci.from) && mv.to == uci.to
  {
    var text := UciText(uci);
    SquareName(mv.to) == text[2..] && mv.from.Some? && SquareName(mv.from.value) == text[..2]
  }

  /** The fallback test reads as: from-square text followed by to-square text is the whole UCI text. */
  lemma MatchesUciIsConcatenation(mv: Move, uci: Uci)
    ensures MatchesUci(mv, uci) <==> mv.from.Some? && SquareName(mv.from.value) + SquareName(mv.to) == UciText(uci)
  {
  }

  /** For a normal UCI move without a promotion letter, the fallback picks exactly the moves between the same two squares. */
  lemma MatchesUciSameSquares(mv: Move, from: Square, to: Square)
    ensures MatchesUci(mv, Normal(from, to, None)) <==> mv.from == Some(from) && mv.to == to
  {
  }

  /** The index of the first move that passes the fallback test, as Iterator::find scans. */
  function FirstMatch(moves: seq<Move>, uci: Uci): (index: Option<nat>)
    ensures index.Some? ==> index.value < |moves| && MatchesUci(moves[index.value], uci)
    ensures index.Some? ==> forall j :: 0 <= j < index.value ==> !MatchesUci(moves[j], uci)
    ensures index.None? ==> forall j :: 0 <= j < |moves| ==> !MatchesUci(moves[j], uci)
  {
    if moves == [] then None
    else if MatchesUci(moves[0], uci) then Some(0)
    else match FirstMatch(moves[1..], uci)
      case None => None
      case Some(k) => Some(k + 1)
  }

  /**
   * Turns a UCI move into a move of `board`: the direct conversion when it
   * succeeds, otherwise the first promotion move between the squares the UCI
   * text names, otherwise nothing.
   */
  function FindWithAutoPromotion(rules: Rules, uci: Uci, board: Board): (mv: Option<Move>)
    ensures rules.toMove(board, uci).Some? ==> mv == rules.toMove(board, uci)
    ensures rules.toMove(board, uci).None? ==>
      var promotions := rules.promotionMoves(board);
      && (mv.Some? <==> exists j :: 0 <= j < |promotions| && MatchesUci(promotions[j], uci))
      && (mv.Some? ==> exists k :: 0 <= k < |promotions| && promotions[k] == mv.value
                                && MatchesUci(promotions[k], uci)
                                && forall j :: 0 <= j < k ==> !MatchesUci(promotions[j], uci))
  {
    match rules.toMove(board, uci)
    case Some(mv) => Some(mv)
    case None =>
      var promotions := rules.promotionMoves(board);
      match FirstMatch(promotions, uci)
      case None => None
      case Some(k) => Some(promotions[k])
  }

  /** On fallback, a UCI move that carries a promotion letter (five characters) never matches. */
  lemma PromotionLetterNeverMatches(rules: Rules, uci: Uci, board: Board)
    requires |UciText(uci)| == 5 && rules.toMove(board, uci).None?
    ensures FindWithAutoPromotion(rules, uci, board) == None
  {
  }

  /**
   * A four-character token naming the squares of a legal promotion resolves,
   * on fallback, to a promotion move between exactly those squares.
   */
  lemma FallbackFindsPromotion(rules: Rules, board: Board, from: Square, to: Square, promotion: Move)
    requires rules.toMove(board, Normal(from, to, None)).None?
    requires promotion in rules.promotionMoves(board)
    requires promotion.from == Some(from) && promotion.to == to
    ensures var mv := FindWithAutoPromotion(rules, Normal(from, to, None), board);
      mv.Some? && mv.value in rules.promotionMoves(board) && mv.value.from == Some(from) && mv.value.to == to
  {
  }

  /** Engine-token conversion with the promotion fallback of find_with_auto_promotion. */
  function TokenToMoveAutoPromote(rules: Rules, board: Board, token: string): (r: Result<Move, EngineError>)
    ensures r.Failure? ==> r.error == NextMoveError
    ensures TokenToMove(rules, board, token).Success? ==> r == TokenToMove(rules, board, token)
  {
    match rules.parseUci(token)
    case None => Failure(NextMoveError)
    case Some(uci) =>
      match FindWithAutoPromotion(rules, uci, board)
      case None => Failure(NextMoveError)
      case Some(mv) => Success(mv)
  }

  /**
   * With the fallback, an engine promotion reported through its four-character
   * token resolves to the first promotion move, in enumeration order, between
   * the reported squares.
   */
  lemma AutoPromoteResolvesEnginePromotion(rules: Rules, board: Board, token: string,
                                           from: Square, to: Square, promotion: Move)
    requires rules.parseUci(token) == Some(Normal(from, to, None))
    requires rules.toMove(board, Normal(from, to, None)).None?
    requires promotion in rules.promotionMoves(board)
    requires promotion.from == Some(from) && promotion.to == to
    ensures var r := TokenToMoveAutoPromote(rules, board, token);
      var promotions := rules.promotionMoves(board);
      && r.Success? && r.value.from == Some(from) && r.value.to == to
      && exists k :: 0 <= k < |promotions| && r.value == promotions[k]
           && forall j :: 0 <= j < k ==> !(promotions[j].from == Some(from) && promotions[j].to == to)
  {
  }

  const E7: Square := Square(4, 6)
  const E8: Square := Square(4, 7)

  /** The promotion e7-e8 to the given piece. */
  function PromotionOnE8(role: Role): Move
  {
    Move(Some(E7), E8, Some(role))
  }

  const QueenOnE8: Move := PromotionOnE8(Queen)
  const KnightOnE8: Move := PromotionOnE8(Knight)

  /**
   * A position with a white pawn on e7, e8 empty and the black king on a8,
   * seen through its rules: "e7e8" parses but is not a legal move there (the
   * pawn must promote); "e7e8q", "e7e8r", "e7e8b" and "e7e8n" are the four
   * promotions, which the enumeration lists queen, rook, bishop, knight.
   */
  function PawnOnE7Rules(): Rules
  {
    Rules(
      Board("k7/4P3/8/8/8/8/8/4K3 w - - 0 1"),
      (s: string) => if s == "e7e8" then Some(Normal(E7, E8, None))
                     else if s == "e7e8q" then Some(Normal(E7, E8, Some(Queen)))
                     else if s == "e7e8r" then Some(Normal(E7, E8, Some(Rook)))
                     else if s == "e7e8b" then Some(Normal(E7, E8, Some(Bishop)))
                     else if s == "e7e8n" then Some(Normal(E7, E8, Some(Knight)))
                     else None,
      (b: Board, u: Uci) =>
        if u.Normal? && u.from == E7 && u.to == E8 && u.promotion.Some? && u.promotion.value in {Queen, Rook, Bishop, Knight}
        then Some(PromotionOnE8(u.promotion.value)) else None,
      (b: Board) => [PromotionOnE8(Queen), PromotionOnE8(Rook), PromotionOnE8(Bishop), PromotionOnE8(Knight)],
      (b: Board, m: Move) => b)
  }

  /** The engine's announcement of the queen promotion reaches the channel without its promotion letter. */
  lemma PromotionAnnouncementTruncated()
    ensures Forwardable([Some("bestmove e7e8q ponder e8e7")])
    ensures BestMoves([Some("bestmove e7e8q ponder e8e7")]) == ["e7e8"]
  {
    var text := "bestmove e7e8q ponder e8e7";
    assert OccursAt(text, Marker, 0);
    BestMovesOfLine(Some(text));
    assert text[9..13] == "e7e8";
  }

  /**
   * The forwarded token "e7e8" is rejected by the plain conversion used by
   * gen_next_move, while the conversion with the fallback finds the queen
   * promotion.
   */
  lemma EnginePromotionRejected()
    ensures var rules := PawnOnE7Rules();
      && TokenToMove(rules, rules.initial, "e7e8") == Failure(NextMoveError)
      && TokenToMoveAutoPromote(rules, rules.initial, "e7e8") == Success(QueenOnE8)
  {
  }

  /**
   * The corrected conversion recovers the squares of an engine promotion but
   * not its piece: the engine's knight promotion, a legal move, arrives as
   * "e7e8" and resolves to the queen promotion the enumeration lists first.
   */
  lemma UnderPromotionBecomesFirstPromotion()
    ensures Forwardable([Some("bestmove e7e8n ponder a8b8")])
    ensures BestMoves([Some("bestmove e7e8n ponder a8b8")]) == ["e7e8"]
    ensures var rules := PawnOnE7Rules();
      && TokenToMove(rules, rules.initial, "e7e8n") == Success(KnightOnE8)
      && TokenToMoveAutoPromote(rules, rules.initial, "e7e8") == Success(QueenOnE8)
      && KnightOnE8 != QueenOnE8
  {
    var text := "bestmove e7e8n ponder a8b8";
    assert OccursAt(text, Marker, 0);
    BestMovesOfLine(Some(text));
    assert text[9..13] == "e7e8";
  }

  /** A game in progress: the position, the engine playing against the user, and the user's settings. */
  class Game {
    var board: Board
    const engine: Engine
    const difficulty: Difficulty
    const username: string

    constructor (board: Board, engine: Engine, difficulty: Difficulty, username: string)
      ensures this.board == board && this.engine == engine
      ensures this.difficulty == difficulty && this.username == username
    {
      this.board := board;
      this.engine := engine;
      this.difficulty := difficulty;
      this.username := username;
    }
  }

  /**
   * Creates a game from the starting position. `spawned` says whether the
   * engine process could be started; when the user plays black the engine
   * moves first, with the two command writes succeeding as `fenWriteOk` and
   * `depthWriteOk` say and the engine printing `delivered` meanwhile.
   */
  method CreateGame(rules: Rules, userColor: Color, difficulty: Difficulty, username: string,
                    spawned: bool, fenWriteOk: bool, depthWriteOk: bool, delivered: seq<Option<string>>)
    returns (game: Option<Game>)
    requires Forwardable(delivered)
    ensures !spawned ==> game.None?
    ensures game.Some? ==>
      && fresh(game.value) && fresh(game.value.engine)
      && game.value.difficulty == difficulty && game.value.username == username
      && game.value.engine.depth == ParseDepth(difficulty)
    ensures spawned && userColor == White ==>
      && game.Some? && game.value.board == rules.initial
      && game.value.engine.stdin == [] && game.value.engine.queue == []
    ensures spawned && userColor == Black ==>
      var reply := NextMoveFrom(rules, rules.initial, BestMoves(delivered));
      && (game.Some? <==> fenWriteOk && depthWriteOk && reply.Success?)
      && (game.Some? ==>
            && game.value.board == rules.play(rules.initial, reply.value)
            && game.value.engine.stdin == [FenCommand(rules.initial) + "\n",
                                           DepthCommand(ParseDepth(difficulty)) + "\n"]
            && game.value.engine.queue == BestMoves(delivered)[1..])
  {
    var board := rules.initial;
    if !spawned {
      return None;
    }
    var engine := new Engine(ParseDepth(difficulty));
    if userColor == Black {
      ghost var pending := BestMoves(delivered);
      assert engine.queue + pending == pending;
      var mv := engine.GenNextMove(rules, board, fenWriteOk, depthWriteOk, delivered);
      assert fenWriteOk && depthWriteOk ==> mv == NextMoveFrom(rules, board, pending);
      if mv.Failure? {
        return None;
      }
      board := rules.play(board, mv.value);
    }
    var g := new Game(board, engine, difficulty, username);
    game := Some(g);
  }
}
