# ChessDestroyer core, modelled in Dafny

ChessDestroyer is a web server where a player plays chess against the Stockfish
engine. This project models the parts of it whose behaviour can be stated:

- **Game configuration and move resolution** (`src/utils/game.rs`): the
  difficulty settings (depth, Elo, opponent name, level number), the colour
  codes, `find_with_auto_promotion`, and `Game::new`, which starts a game and
  lets the engine open when the player has black.
- **The engine adapter** (`src/utils/game/engine.rs`): the reader task that
  forwards the move field of every `bestmove` line, and the `Engine` object that
  writes UCI commands and takes move tokens off the channel (`send`, `receive`,
  `gen_next_move`).
- **The session registry** (`src/utils/session.rs`): the table from session id
  to shared game, the `Session` handle, the session-key cookie and the
  `add_session` / `find_session` / `remove_session` operations.
- **The score ledger** (`src/utils/db.rs`): the score of a win, the Score table
  that keeps each winner's lowest score, and the top-scores query.

Files: `wrappers.dfy` (Option, Result, Outcome), `chess.dfy` (squares, UCI
moves, moves, positions and the rules-engine collaborator), `engine.dfy`,
`game.dfy`, `uuid.dfy` (the textual form of session ids), `session.dfy`,
`db.dfy`.

How the collaborators are represented:

- The chess rules (shakmaty) are a value `Rules` passed as a parameter: the
  starting position, UCI parsing, `Uci::to_move`, `promotion_moves` and
  `play_unchecked` are its function fields, so every result holds for any rules
  engine. A position is identified with its FEN text.
- Process I/O is reduced to its outcomes: whether the engine process could be
  spawned and whether each pipe write succeeds are boolean parameters; the lines
  the engine prints while the caller sleeps before reading are a parameter that
  the reader task forwards at that point.
- The engine's input pipe is the field `Engine.stdin` (every chunk written, in
  order); the channel is the field `Engine.queue`.
- `Session` and `Game` are classes, so a `Session` copied out of the registry is
  the same reference and a change made through it is seen by every later
  lookup. `add_session` takes its game by value, so each session owns its
  game: the registry keeps the invariant `SessionHandler.Valid()` (different
  ids hold different games), and a move through one session leaves every other
  session's board alone. The cookie jar is a class holding the value of the `session_key`
  cookie, if any. The Score table is a field `Option<map<string, int>>`, None
  before the table is created.
- The UUID of a session is drawn at random in the source; here it is a
  parameter of `AddSession`. The random colour of `'r'` is a nondeterministic
  choice in `NewColor`.

Where the files disagree, the model follows each file as written:
`Game::new` calls `Engine::new` with a depth and an Elo (game.rs:104) but
`Engine::new` takes only the depth (engine.rs:25) and never sends the
`setoption` commands, so the Elo setting has no effect in the model; the engine
converts its token with plain `to_move` (engine.rs:71) and not with
`find_with_auto_promotion` (see Findings).

## Model

| member | source | states |
|---|---|---|
| `ChessRules.SquareName` | src/utils/game.rs:125 | a square's name is two characters, a file letter a..h then a rank digit 1..8, and reads back as the same square |
| `ChessRules.SquareNameInjective` | src/utils/game.rs:125 | two squares with the same name are the same square |
| `ChessRules.UciText` | src/utils/game.rs:125 | the text of a UCI move is 5 characters when it carries a promotion letter and 4 otherwise |
| `EngineAdapter.LineTokens` | src/utils/game/engine.rs:39-43 | a line yields one token exactly when it contains "bestmove", and every token is 4 characters |
| `EngineAdapter.BestMoves` | src/utils/game/engine.rs:37-44 | the reader forwards at most one token per line, each exactly 4 characters, so a promotion letter is never forwarded |
| `EngineAdapter.BestMovesAppend` | src/utils/game/engine.rs:37-43 | the tokens of two successive stretches of output are those of the first followed by those of the second (FIFO order) |
| `EngineAdapter.BestMovesOfLine` | src/utils/game/engine.rs:40-42 | a line containing "bestmove" forwards exactly its characters 9..13; any other line forwards nothing |
| `EngineAdapter.BestMovesFirst` | src/utils/game/engine.rs:38-43 | the reader handles the first line of its stream before the rest: that line's token, if it contains "bestmove", comes first and is its characters 9..13 |
| `EngineAdapter.UnreadableLineDropped` | src/utils/game/engine.rs:39-40 | an unreadable line, read as "", never carries the marker |
| `EngineAdapter.TokenToMove` | src/utils/game/engine.rs:70-71 | a token converts exactly when it parses as UCI and `to_move` accepts it on the board, to that move; every failure is NextMoveError |
| `EngineAdapter.FenCommand` | src/utils/game/engine.rs:61-62 | the position command is "position fen " followed by exactly the board's FEN text |
| `EngineAdapter.DepthCommand` | src/utils/game/engine.rs:63 | the search command is "go depth " followed by decimal digits whose value is the depth |
| `EngineAdapter.DecimalText` | src/utils/game/engine.rs:63 | the `{}` formatting of an integer: digits only for a non-negative number, reading back as that number, with no leading zero (and "0" for zero); a '-' then the digits of the magnitude for a negative one |
| `EngineAdapter.NextMoveFrom` | src/utils/game/engine.rs:68-71 | an empty channel fails with NextMoveError; otherwise the outcome is the conversion of the oldest token |
| `EngineAdapter.Engine.constructor` | src/utils/game/engine.rs:47-52 | a new engine keeps its depth and has written nothing and forwarded nothing |
| `EngineAdapter.Engine.Forward` | src/utils/game/engine.rs:37-45 | the reader appends the tokens of the lines it reads, in order, to the end of the channel |
| `EngineAdapter.Engine.Send` | src/utils/game/engine.rs:54-56 | a successful write appends the message and a newline to the engine's input; a failed one is StdinWriteError |
| `EngineAdapter.Engine.Receive` | src/utils/game/engine.rs:57-59 | takes the oldest token off the channel; an empty channel is StdoutReadError and consumes nothing |
| `EngineAdapter.Engine.GenNextMove` | src/utils/game/engine.rs:60-73 | writes "position fen <FEN>" then "go depth <depth>", stops at the first failed write, then consumes exactly one token and converts it against the board; every failure is NextMoveError |
| `GameSetup.Level` | src/utils/game.rs:15-19 | a difficulty's place in the order EASY, MEDIUM, HARD is 1, 2 or 3 |
| `GameSetup.ParseDepth` | src/utils/game.rs:23-29 | the search depth lies between 1 and 10 |
| `GameSetup.ParseElo` | src/utils/game.rs:31-37 | the Elo target lies between 400 and 3500 |
| `GameSetup.DifficultySettings` | src/utils/game.rs:23-37 | depths are 1, 3, 10 and Elo targets 400, 900, 3500 for EASY, MEDIUM, HARD |
| `GameSetup.DifficultyDepthCommands` | src/utils/game/engine.rs:63 | the three difficulties send "go depth 1", "go depth 3" and "go depth 10" |
| `GameSetup.HarderSearchesDeeper` | src/utils/game.rs:23-37 | depth and Elo both strictly increase with the difficulty, in both directions of the comparison |
| `GameSetup.DifficultyFromLevel` | src/utils/game.rs:40-47 | a level yields a difficulty exactly for 1, 2, 3, and that difficulty has that level |
| `GameSetup.LevelRoundTrip` | src/utils/game.rs:40-47 | the level of every difficulty yields that difficulty back |
| `GameSetup.ParsePlayerName` | src/utils/game.rs:50-56 | every opponent name is non-empty |
| `GameSetup.PlayerNamesDistinct` | src/utils/game.rs:50-56 | different difficulties have different opponent names |
| `GameSetup.ParseCode` | src/utils/game.rs:82-87 | a colour's code is 'b' or 'w' |
| `GameSetup.NewColor` | src/utils/game.rs:68-79 | the code of each colour yields that colour (the round trip), 'r' always yields some colour, and every character other than 'b', 'w', 'r' yields none |
| `GameSetup.MatchesUciIsConcatenation` | src/utils/game.rs:125 | the fallback test holds exactly when the move has a from-square and from-text followed by to-text is the UCI text |
| `GameSetup.MatchesUci` | src/utils/game.rs:125 | the fallback's two slice comparisons hold exactly when the UCI move is a normal move without a promotion letter and the move goes between the same two squares; drops, the null move and five-character texts never match |
| `GameSetup.MatchesUciSameSquares` | src/utils/game.rs:125 | for a UCI move without a promotion letter the fallback test picks exactly the moves between the same two squares |
| `GameSetup.FirstMatch` | src/utils/game.rs:126 | the found index passes the fallback test and no earlier move does; no index means no move passes |
| `GameSetup.FindWithAutoPromotion` | src/utils/game.rs:120-130 | a successful direct conversion is returned unchanged; otherwise the result is the first promotion move passing the fallback test, and exists exactly when one does |
| `GameSetup.PromotionLetterNeverMatches` | src/utils/game.rs:123-127 | on fallback, a five-character UCI move never matches, so the result is None |
| `GameSetup.FallbackFindsPromotion` | src/utils/game.rs:123-127 | when direct conversion fails and a promotion between the UCI move's squares exists, the result is a promotion move between exactly those squares |
| `GameSetup.TokenToMoveAutoPromote` | src/utils/game.rs:120-130 | engine-token conversion with the fallback agrees with the plain conversion whenever that succeeds; every failure is NextMoveError |
| `GameSetup.AutoPromoteResolvesEnginePromotion` | src/utils/game/engine.rs:41 | with the fallback, a four-character engine token naming the squares of a legal promotion resolves to the first promotion between those squares in enumeration order |
| `GameSetup.PromotionAnnouncementTruncated` | src/utils/game/engine.rs:41 | the line "bestmove e7e8q ponder e8e7" forwards only "e7e8" |
| `GameSetup.EnginePromotionRejected` | src/utils/game/engine.rs:71 | with a pawn on e7 that must promote (four promotions, queen listed first), the plain conversion rejects "e7e8" while the fallback finds the queen promotion |
| `GameSetup.UnderPromotionBecomesFirstPromotion` | src/utils/game/engine.rs:41 | the engine's knight promotion "bestmove e7e8n ..." forwards only "e7e8", which the corrected conversion turns into the queen promotion listed first, not the knight promotion the engine chose |
| `GameSetup.Game.constructor` | src/utils/game.rs:111-116 | a game holds the given board, engine, difficulty and user name |
| `GameSetup.CreateGame` | src/utils/game.rs:102-117 | no game when the engine cannot be spawned; for white the starting position and an untouched engine; for black a game exactly when both writes succeed and the engine's reply converts, with that reply played on the starting position |
| `Uuids.UuidText` | src/utils/session.rs:98-100 | the cookie text of a session id is 36 characters |
| `Uuids.ParseUuid` | src/utils/session.rs:92-95 | only texts of 32, 36, 38 or 45 characters parse as a session id |
| `Uuids.ParseUuidText` | src/utils/session.rs:92-100 | the text written for a session id parses back to the same id |
| `Uuids.UuidTextInjective` | src/utils/session.rs:98-100 | different session ids are written as different texts |
| `Sessions.Session.constructor` | src/utils/session.rs:71-75 | a new session holds the given game |
| `Sessions.Session.Get` | src/utils/session.rs:78-80 | the guard gives access to the very game the session holds |
| `Sessions.SessionHandler.constructor` | src/utils/session.rs:38-42 | a new registry holds no sessions, so no two sessions share a game |
| `Sessions.SessionHandler.Get` | src/utils/session.rs:45-48 | a lookup finds a session exactly when the id is stored, and returns the stored reference |
| `Sessions.SessionHandler.Add` | src/utils/session.rs:51-54 | after adding, the id maps to the new session (overwriting any earlier one) and every other id is unchanged; a session whose game no other id holds keeps every game owned by one session |
| `Sessions.SessionHandler.Remove` | src/utils/session.rs:57-59 | after removing, the id is absent, every other id is unchanged, removing an absent id changes nothing, and games stay owned by one session each |
| `Sessions.SessionOf` | src/utils/session.rs:117-120 | a cookie leads only to a session stored in the registry |
| `Sessions.SessionOfKeyText` | src/utils/session.rs:109-120 | the cookie written for an id leads to exactly the registry lookup of that id |
| `Sessions.GetSessionKey` | src/utils/session.rs:92-95 | the key is the UUID the cookie's text parses to; no cookie or a malformed one gives no key |
| `Sessions.SetSessionKey` | src/utils/session.rs:98-100 | the cookie then holds the id's text, which reads back as the id |
| `Sessions.RemoveSessionKey` | src/utils/session.rs:103-105 | the cookie is cleared |
| `Sessions.AddSession` | src/utils/session.rs:109-114 | for a game no stored session holds (the game is moved in by value), the id maps to a new session holding it, other ids are unchanged, every game is still owned by one session, the cookie holds the id and then leads to the new session |
| `Sessions.FindSession` | src/utils/session.rs:117-120 | none without a cookie or with a malformed one; otherwise the registry lookup of the cookie's id |
| `Sessions.RemoveSession` | src/utils/session.rs:123-132 | the cookie is always cleared; the registry loses the cookie's id when the cookie names one and is unchanged otherwise; games stay owned by one session each |
| `Sessions.PlayAndLookAgain` | src/utils/session.rs:64-80 | a move played through the guard of one lookup is seen through a second lookup of the same id, every other session's board is unchanged, and the registry itself is unchanged |
| `ScoreDb.CalcScore` | src/utils/db.rs:23-25 | the score divided by the difficulty's depth gives back the number of moves, with no remainder |
| `ScoreDb.HarderScoresMore` | src/utils/db.rs:23-25 | for the same positive number of moves a harder difficulty scores more |
| `ScoreDb.NewScoreEntry` | src/utils/db.rs:16-22 | the entry keeps the winner's name and its score is the moves times the depth |
| `ScoreDb.WithSchema` | src/utils/db.rs:47-56 | after creating the schema the table exists: a new table is empty and an existing table is unchanged |
| `ScoreDb.WithSchemaIdempotent` | src/utils/db.rs:47-56 | creating the schema twice is the same as once |
| `ScoreDb.Upsert` | src/utils/db.rs:58-76 | the winner gets a row holding the lower of its old and new scores (the new score if it had none), and no other row changes |
| `ScoreDb.UpsertAllKeepsMinimum` | src/utils/db.rs:58-76 | after any sequence of additions a winner has a row exactly when it had one or was added, holding the lowest score among them |
| `ScoreDb.Database.constructor` | src/utils/db.rs:33-40 | a database starts with the given state of the Score table |
| `ScoreDb.Database.SetScoreSchema` | src/utils/db.rs:47-56 | creates the table when missing and leaves an existing one unchanged |
| `ScoreDb.Database.FindEntry` | src/utils/db.rs:78-91 | the winner's row when the table exists and has one, None otherwise |
| `ScoreDb.Database.AddScoreEntry` | src/utils/db.rs:58-76 | without a table it fails and changes nothing; otherwise the table becomes the upsert of the entry |
| `ScoreDb.Database.GetTop` | src/utils/db.rs:93-113 | without a table it fails; otherwise it returns min(count, rows) distinct rows of the table, in non-increasing score order, and no row left out scores above any row returned |
| `ScoreDb.RankedStep` | src/utils/db.rs:93-113 | taking a highest-scoring winner not yet listed keeps the listed rows drawn from the table, distinct, descending and at or above every winner not yet listed |

## Findings

| source | as written | input that shows it | evidently intended | confidence | as-written member | corrected member |
|---|---|---|---|---|---|---|
| src/utils/game/engine.rs:71 | the engine's token is converted with plain `to_move`, and the reader forwards only characters 9..13 (engine.rs:41), so a promotion announced by the engine arrives without its letter and is rejected | the line "bestmove e7e8q ponder e8e7" with a white pawn on e7 that must promote: the token "e7e8" fails with NextMoveError | convert the token with `find_with_auto_promotion` (game.rs:120-130), whose fallback finds the promotion between the same squares | not executed; relies on `Uci::to_move` rejecting a promotion without its letter | `GameSetup.EnginePromotionRejected` | `GameSetup.AutoPromoteResolvesEnginePromotion` |

`EngineAdapter.Engine.GenNextMove` and `GameSetup.CreateGame` keep the conversion
as written, since that is what the program does; `GameSetup.TokenToMoveAutoPromote`
is the corrected conversion, and `GameSetup.AutoPromoteResolvesEnginePromotion`
proves that it resolves an engine promotion the plain conversion rejects to the
first promotion between the announced squares, in enumeration order. The piece
the engine chose is cut off at engine.rs:41 and is not recovered
(`GameSetup.UnderPromotionBecomesFirstPromotion`).

## Left out

- Concurrency: the registry's read/write lock, the per-game mutex and the reader task's scheduling; every operation runs to completion on its own, so mutual exclusion is not verified.
- Process lifecycle: spawning Stockfish, taking its pipes and killing it on drop (engine.rs:26-31, 77-85); spawn success is the parameter `spawned` of `CreateGame`.
- Timing: the fixed sleeps (engine.rs:67, game.rs:106); the lines the engine prints during the sleep before the read are the parameter `delivered`.
- The chess rules and FEN serialisation (`to_move`, UCI parsing, `promotion_moves`, `play_unchecked`, `Fen::from_position`, `is_game_over`): fields of `Rules`, not reimplemented.
- Randomness: UUID v4 generation (the id is a parameter of `AddSession`) and the random colour for 'r' (a nondeterministic choice).
- Private-cookie encryption, HTTP routes, templates and static files (src/main.rs, static/js/game.js).
- rusqlite specifics: opening the connection, the current directory, SQL text and the mutex around the connection.
- EngineAdapter.Engine.Receive: an empty channel fails at once; in the source `recv` waits while the reader task is still running and fails only once the channel is closed, so the model reads an empty channel as a closed one.
- EngineAdapter.Engine.Send: a failed write appends nothing; a write that fails part-way through the message is not modelled.
- EngineAdapter.Forwardable: a marker line shorter than 13 characters makes the reader panic; the model requires such lines not to occur instead of modelling the panic, and treats text as characters where Rust slices bytes.
- GameSetup.CreateGame: the Elo argument of `Engine::new` (game.rs:104) has no counterpart in engine.rs:25 and is dropped; the `setoption` commands are never sent.
- ScoreDb.CalcScore: does not model the u32 overflow of `moves * depth` (which also multiplies a u32 by a u16 as written) nor the conversion to f32; scores are unbounded integers.
- ScoreDb.Database.AddScoreEntry: failures of the SQL engine other than the duplicate winner and the missing table (including a failed UPDATE) are not modelled.
- ScoreDb.Database.SetScoreSchema: a failure to execute the CREATE statement is not modelled; the result is always success.
- ScoreDb.Database.GetTop: the SQL engine's sorting is modelled by repeatedly taking a row of highest remaining score; rows that fail to read are not modelled.
- GameSetup.TokenToMoveAutoPromote: the corrected conversion recovers the squares of an engine promotion but not its piece, since the reader keeps only characters 9..13; an under-promotion becomes whichever promotion the enumeration lists first.
- Uuids.ParseUuid: only the four textual forms (simple, hyphenated, braced, URN) are modelled, not the uuid crate's error values.
