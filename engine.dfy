/**
 * The adapter that talks to the Stockfish subprocess over UCI: the reader task
 * that turns the engine's output lines into move tokens, and the engine object
 * that writes commands to the engine's input and takes tokens off the channel.
 *
 * The engine's input pipe is the field `stdin`, the list of chunks written so
 * far; the channel between the reader task and the engine object is the field
 * `queue`, the tokens forwarded and not yet received. Whether a pipe write
 * succeeds is decided by the operating system and arrives as a parameter.
 */
module EngineAdapter {
  import opened Wrappers
  import opened ChessRules

  datatype EngineError = StdinWriteError | StdoutReadError | NextMoveError

  /** The marker of the engine's "search finished" line. */
  const Marker: string := "bestmove"

  predicate OccursAt(s: string, pattern: string, i: int)
  {
    0 <= i <= |s| - |pattern| && s[i..i + |pattern|] == pattern
  }

  predicate Contains(s: string, pattern: string)
  {
    exists i :: 0 <= i <= |s| - |pattern| && OccursAt(s, pattern, i)
  }

  /** A line of output as the reader sees it: an unreadable line becomes the empty line. */
  function ReadLine(line: Option<string>): string
  {
    match line
    case Some(text) => text
    case None => ""
  }

  /**
   * The reader slices characters 9..13 out of every marker line, which panics
   * on a shorter line; the engine's marker lines are "bestmove <move> ...".
   */
  predicate SafeLine(line: Option<string>)
  {
    Contains(ReadLine(line), Marker) ==> |ReadLine(line)| >= 13
  }

  predicate Forwardable(lines: seq<Option<string>>)
  {
    forall i :: 0 <= i < |lines| ==> SafeLine(lines[i])
  }

  /** What the reader forwards for one line: the move field of a marker line, nothing otherwise. */
  function LineTokens(line: Option<string>): (tokens: seq<string>)
    requires SafeLine(line)
    ensures |tokens| == if Contains(ReadLine(line), Marker) then 1 else 0
    ensures forall k :: 0 <= k < |tokens| ==> |tokens[k]| == 4
  {
    var text := ReadLine(line);
    if Contains(text, Marker) then [text[9..13]] else []
  }

  /** Every token the reader forwards for a stream of output lines, in line order. */
  function BestMoves(lines: seq<Option<string>>): (tokens: seq<string>)
    requires Forwardable(lines)
    ensures |tokens| <= |lines|
    ensures forall k :: 0 <= k < |tokens| ==> |tokens[k]| == 4
  {
    if lines == [] then []
    else LineTokens(lines[0]) + BestMoves(lines[1..])
  }

  lemma ForwardableSplit(a: seq<Option<string>>, b: seq<Option<string>>)
    requires Forwardable(a + b)
    ensures Forwardable(a) && Forwardable(b)
  {
    forall i | 0 <= i < |a| ensures a[i] == (a + b)[i] { }
    forall i | 0 <= i < |b| ensures b[i] == (a + b)[|a| + i] { }
  }

  /** Forwarding a concatenated stream forwards the two parts one after the other: the channel is FIFO. */
  lemma {:induction false} BestMovesAppend(a: seq<Option<string>>, b: seq<Option<string>>)
    requires Forwardable(a + b)
    ensures Forwardable(a) && Forwardable(b)
    ensures BestMoves(a + b) == BestMoves(a) + BestMoves(b)
  {
    ForwardableSplit(a, b);
    if a != [] {
      assert (a + b)[0] == a[0];
      assert (a + b)[1..] == a[1..] + b;
      BestMovesAppend(a[1..], b);
    } else {
      assert a + b == b;
    }
  }

  /** A token is forwarded for a line exactly when the line contains the marker, and it is the line's characters 9..13. */
  lemma BestMovesOfLine(line: Option<string>)
    requires SafeLine(line)
    ensures Contains(ReadLine(line), Marker) ==> BestMoves([line]) == [ReadLine(line)[9..13]]
    ensures !Contains(ReadLine(line), Marker) ==> BestMoves([line]) == []
  {
  }

  /** Reading the first line of a stream: its tokens come first, then those of the rest of the stream. */
  lemma BestMovesFirst(lines: seq<Option<string>>)
    requires lines != [] && Forwardable(lines)
    ensures SafeLine(lines[0]) && Forwardable(lines[1..])
    ensures BestMoves(lines) == LineTokens(lines[0]) + BestMoves(lines[1..])
    ensures LineTokens(lines[0]) == if Contains(ReadLine(lines[0]), Marker) then [ReadLine(lines[0])[9..13]] else []
  {
    assert forall k :: 0 <= k < |lines| - 1 ==> lines[1..][k] == lines[k + 1];
  }

  /** An unreadable line never yields a token. */
  lemma UnreadableLineDropped()
    ensures !Contains(ReadLine(None), Marker)
  {
  }

  /** The position command: the engine reads the FEN text back after the 13-character prefix. */
  function FenCommand(board: Board): (cmd: string)
    ensures |cmd| == 13 + |board.fen|
    ensures cmd[..13] == "position fen " && cmd[13..] == board.fen
  {
    "position fen " + board.fen
  }

  /** The search command: the engine reads the depth back from the decimal digits after "go depth ". */
  function DepthCommand(depth: int): (cmd: string)
    ensures |cmd| > 9 && cmd[..9] == "go depth "
    ensures depth >= 0 ==> AllDigits(cmd[9..]) && DigitsValue(cmd[9..]) == depth
  {
    var digits := DecimalText(depth);
    assert ("go depth " + digits)[9..] == digits;
    "go depth " + digits
  }

  predicate IsDigit(c: char)
  {
    '0' <= c <= '9'
  }

  predicate AllDigits(s: string)
  {
    forall i :: 0 <= i < |s| ==> IsDigit(s[i])
  }

  /** The value of a run of decimal digits, most significant first. */
  function DigitsValue(s: string): nat
    requires AllDigits(s)
  {
    if s == [] then 0 else DigitsValue(s[..|s| - 1]) * 10 + (s[|s| - 1] as int - '0' as int)
  }

  /**
   * Rust's `{}` formatting of an integer: a '-' for a negative number, then
   * the decimal digits of its magnitude without leading zeros.
   */
  function DecimalText(n: int): (text: string)
    ensures text != []
    ensures n >= 0 ==> AllDigits(text) && DigitsValue(text) == n
    ensures n >= 0 ==> (text[0] == '0' <==> n == 0) && (n == 0 ==> text == "0")
    ensures n < 0 ==> text[0] == '-' && AllDigits(text[1..]) && DigitsValue(text[1..]) == -n && text[1] != '0'
    decreases if n < 0 then 1 - n else n
  {
    if n < 0 then
      var magnitude := DecimalText(-n);
      assert ("-" + magnitude)[1..] == magnitude;
      "-" + magnitude
    else if n < 10 then [('0' as int + n) as char]
    else
      var prefix := DecimalText(n / 10);
      var text := prefix + [('0' as int + n % 10) as char];
      assert text[..|text| - 1] == prefix;
      text
  }

  /**
   * Converting a received token: it must parse as UCI and name a legal move of
   * the board (plain conversion, no promotion fallback); any failure is a
   * NextMoveError.
   */
  function TokenToMove(rules: Rules, board: Board, token: string): (r: Result<Move, EngineError>)
    ensures r.Failure? ==> r.error == NextMoveError
    ensures r.Success? <==> rules.parseUci(token).Some? && rules.toMove(board, rules.parseUci(token).value).Some?
    ensures r.Success? ==> Some(r.value) == rules.toMove(board, rules.parseUci(token).value)
  {
    match rules.parseUci(token)
    case None => Failure(NextMoveError)
    case Some(uci) =>
      match rules.toMove(board, uci)
      case None => Failure(NextMoveError)
      case Some(mv) => Success(mv)
  }

  /** The outcome of the read step given the tokens pending on the channel: an empty channel fails. */
  function NextMoveFrom(rules: Rules, board: Board, pending: seq<string>): (r: Result<Move, EngineError>)
    ensures r.Failure? ==> r.error == NextMoveError
    ensures pending == [] ==> r.Failure?
    ensures pending != [] ==> r == TokenToMove(rules, board, pending[0])
  {
    if pending == [] then Failure(NextMoveError) else TokenToMove(rules, board, pending[0])
  }

  class Engine {
    /** Every chunk written to the engine's input, in order. */
    var stdin: seq<string>
    /** Tokens forwarded by the reader task and not yet received, oldest first. */
    var queue: seq<string>
    /** The search depth sent with every "go" command. */
    const depth: int

    /** A freshly spawned engine: nothing written, nothing forwarded yet. */
    constructor (depth: int)
      ensures this.depth == depth && stdin == [] && queue == []
    {
      this.depth := depth;
      stdin := [];
      queue := [];
    }

    /** The reader task: for every output line, push the move field of a marker line onto the channel. */
    method Forward(lines: seq<Option<string>>)
      requires Forwardable(lines)
      modifies this`queue
      ensures queue == old(queue) + BestMoves(lines)
    {
      var rest := lines;
      while rest != []
        invariant Forwardable(rest)
        invariant queue + BestMoves(rest) == old(queue) + BestMoves(lines)
      {
        BestMovesFirst(rest);
        var line := ReadLine(rest[0]);
        if Contains(line, Marker) {
          queue := queue + [line[9..13]];
        }
        rest := rest[1..];
      }
    }

    /** Writes a command line to the engine's input. */
    method Send(message: string, writeOk: bool) returns (r: Outcome<EngineError>)
      modifies this`stdin
      ensures writeOk ==> r == Pass && stdin == old(stdin) + [message + "\n"]
      ensures !writeOk ==> r == Fail(StdinWriteError) && stdin == old(stdin)
    {
      if writeOk {
        stdin := stdin + [message + "\n"];
        r := Pass;
      } else {
        r := Fail(StdinWriteError);
      }
    }

    /** Takes the oldest forwarded token; an empty (closed) channel is a read error. */
    method Receive() returns (r: Result<string, EngineError>)
      modifies this`queue
      ensures old(queue) == [] ==> r == Failure(StdoutReadError) && queue == []
      ensures old(queue) != [] ==> r == Success(old(queue)[0]) && queue == old(queue)[1..]
    {
      if queue == [] {
        r := Failure(StdoutReadError);
      } else {
        r := Success(queue[0]);
        queue := queue[1..];
      }
    }

    /**
     * Asks the engine for its move in `board`: writes the position command and
     * then the search command, waits while the reader forwards the lines in
     * `delivered`, takes one token and converts it against `board`.
     */
    method GenNextMove(rules: Rules, board: Board, fenWriteOk: bool, depthWriteOk: bool,
                       delivered: seq<Option<string>>)
      returns (r: Result<Move, EngineError>)
      requires Forwardable(delivered)
      modifies this`stdin, this`queue
      ensures r.Failure? ==> r.error == NextMoveError
      ensures !fenWriteOk ==> r.Failure? && stdin == old(stdin) && queue == old(queue)
      ensures fenWriteOk && !depthWriteOk ==>
        r.Failure? && stdin == old(stdin) + [FenCommand(board) + "\n"] && queue == old(queue)
      ensures fenWriteOk && depthWriteOk ==>
        && stdin == old(stdin) + [FenCommand(board) + "\n", DepthCommand(depth) + "\n"]
        && var pending := old(queue) + BestMoves(delivered);
        && r == NextMoveFrom(rules, board, pending)
        && queue == if pending == [] then [] else pending[1..]
    {
      var sent := Send(FenCommand(board), fenWriteOk);
      if sent.Fail? {
        return Failure(NextMoveError);
      }
      sent := Send(DepthCommand(depth), depthWriteOk);
      if sent.Fail? {
        return Failure(NextMoveError);
      }
      Forward(delivered);
      var token := Receive();
      if token.Failure? {
        return Failure(NextMoveError);
      }
      r := TokenToMove(rules, board, token.value);
    }
  }
}
