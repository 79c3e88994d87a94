/**
 * The score ledger: the score a win earns and the Score table, keyed by the
 * winner's name, that keeps each winner's lowest score and lists the highest
 * scores first.
 *
 * The table is a map from winner to score, or None while the table has not
 * been created; SQL text, the connection and its lock are not modelled.
 */
module ScoreDb {
  import opened Wrappers
  import opened GameSetup

  datatype ScoreEntry = ScoreEntry(winner: string, score: int)

  /** The score of a win: the number of moves times the difficulty's search depth. */
  function CalcScore(moves: nat, difficulty: Difficulty): (score: nat)
    ensures score / ParseDepth(difficulty) == moves && score % ParseDepth(difficulty) == 0
    ensures score >= moves
  {
    moves * ParseDepth(difficulty)
  }

  /** For the same number of moves a harder game scores more. */
  lemma HarderScoresMore(moves: nat, a: Difficulty, b: Difficulty)
    requires moves > 0 && Level(a) < Level(b)
    ensures CalcScore(moves, a) < CalcScore(moves, b)
  {
  }

  function NewScoreEntry(winner: string, moves: nat, difficulty: Difficulty): (entry: ScoreEntry)
    ensures entry.winner == winner
    ensures entry.score / ParseDepth(difficulty) == moves && entry.score % ParseDepth(difficulty) == 0
  {
    ScoreEntry(winner, CalcScore(moves, difficulty))
  }

  /** The table after "CREATE TABLE IF NOT EXISTS": an existing table is kept as it is. */
  function WithSchema(table: Option<map<string, int>>): (created: Option<map<string, int>>)
    ensures created.Some?
    ensures table.None? ==> created == Some(map[])
    ensures table.Some? ==> created == table
  {
    if table.None? then Some(map[]) else table
  }

  lemma WithSchemaIdempotent(table: Option<map<string, int>>)
    ensures WithSchema(WithSchema(table)) == WithSchema(table)
  {
  }

  function Min(a: int, b: int): int
  {
    if a <= b then a else b
  }

  /** Adding an entry to a table: insert a new winner, otherwise keep the lower of the two scores. */
  function Upsert(table: map<string, int>, entry: ScoreEntry): (updated: map<string, int>)
    ensures updated.Keys == table.Keys + {entry.winner}
    ensures updated[entry.winner] == if entry.winner in table then Min(table[entry.winner], entry.score) else entry.score
    ensures forall w :: w in table && w != entry.winner ==> updated[w] == table[w]
  {
    if entry.winner !in table then table[entry.winner := entry.score]
    else if table[entry.winner] > entry.score then table[entry.winner := entry.score]
    else table
  }

  /** The table after adding a sequence of entries one after the other. */
  function UpsertAll(table: map<string, int>, entries: seq<ScoreEntry>): map<string, int>
  {
    if entries == [] then table else Upsert(UpsertAll(table, entries[..|entries| - 1]), entries[|entries| - 1])
  }

  /**
   * After any sequence of additions every winner has one row, holding the
   * lowest score among its earlier row and all the entries added for it.
   */
  lemma {:induction false} UpsertAllKeepsMinimum(table: map<string, int>, entries: seq<ScoreEntry>, w: string)
    ensures var result := UpsertAll(table, entries);
      && (w in result <==> w in table || exists i :: 0 <= i < |entries| && entries[i].winner == w)
      && (w in result ==> (w in table ==> result[w] <= table[w]))
      && (w in result ==> forall i :: 0 <= i < |entries| && entries[i].winner == w ==> result[w] <= entries[i].score)
      && (w in result ==>
            || (w in table && result[w] == table[w])
            || (exists i :: 0 <= i < |entries| && entries[i].winner == w && result[w] == entries[i].score))
  {
    if entries != [] {
      var prefix := entries[..|entries| - 1];
      var last := entries[|entries| - 1];
      UpsertAllKeepsMinimum(table, prefix, w);
      var before := UpsertAll(table, prefix);
      assert forall i :: 0 <= i < |prefix| ==> prefix[i] == entries[i];
      if w == last.winner {
        var n := |entries| - 1;
        assert entries[n].winner == w;
        if w in before && before[w] <= last.score {
          if w in table && before[w] == table[w] {
          } else {
            var i :| 0 <= i < |prefix| && prefix[i].winner == w && before[w] == prefix[i].score;
            assert entries[i].winner == w && before[w] == entries[i].score;
          }
        }
      } else if w in before {
        if w in table && before[w] == table[w] {
        } else {
          var i :| 0 <= i < |prefix| && prefix[i].winner == w && before[w] == prefix[i].score;
          assert entries[i].winner == w && before[w] == entries[i].score;
        }
      }
    }
  }

  /** Whether a row sequence is ordered by descending score. */
  predicate Descending(rows: seq<ScoreEntry>)
  {
    forall i, j :: 0 <= i < j < |rows| ==> rows[i].score >= rows[j].score
  }

  /** A finite non-empty set of winners has one with the highest score. */
  lemma {:induction false} HighestExists(table: map<string, int>, candidates: set<string>)
    requires candidates != {} && candidates <= table.Keys
    ensures exists w :: w in candidates && forall v :: v in candidates ==> table[v] <= table[w]
  {
    var x :| x in candidates;
    var rest := candidates - {x};
    if rest == {} {
      assert candidates == rest + {x};
    } else {
      HighestExists(table, rest);
      var y :| y in rest && forall v :: v in rest ==> table[v] <= table[y];
      if table[x] <= table[y] {
        assert forall v :: v in candidates ==> v == x || v in rest;
      } else {
        assert forall v :: v in candidates ==> v == x || v in rest;
      }
    }
  }

  /**
   * The state of the top-rows query part way through: `rows` are the highest
   * scores collected so far, highest first, each winner once, and `remaining`
   * are the winners not collected yet, none of them above a collected row.
   */
  predicate Ranked(table: map<string, int>, rows: seq<ScoreEntry>, remaining: set<string>)
  {
    && remaining <= table.Keys
    && |rows| + |remaining| == |table.Keys|
    && (forall i :: 0 <= i < |rows| ==> rows[i].winner in table && rows[i].score == table[rows[i].winner])
    && (forall w :: w in table ==> (w in remaining <==> forall k :: 0 <= k < |rows| ==> rows[k].winner != w))
    && (forall i, j :: 0 <= i < j < |rows| ==> rows[i].winner != rows[j].winner)
    && Descending(rows)
    && (forall w, i :: w in remaining && 0 <= i < |rows| ==> table[w] <= rows[i].score)
  }

  /** Appending a row no higher than any row before it keeps the rows descending. */
  lemma DescendingAppend(rows: seq<ScoreEntry>, e: ScoreEntry)
    requires Descending(rows)
    requires forall i :: 0 <= i < |rows| ==> e.score <= rows[i].score
    ensures Descending(rows + [e])
  {
    var next := rows + [e];
    forall i, j | 0 <= i < j < |next|
      ensures next[i].score >= next[j].score
    {
      assert next[i] == rows[i];
    }
  }

  /** Appending a row for a winner no row names keeps every winner on at most one row. */
  lemma DistinctAppend(rows: seq<ScoreEntry>, e: ScoreEntry)
    requires forall i, j :: 0 <= i < j < |rows| ==> rows[i].winner != rows[j].winner
    requires forall k :: 0 <= k < |rows| ==> rows[k].winner != e.winner
    ensures forall i, j :: 0 <= i < j < |rows + [e]| ==> (rows + [e])[i].winner != (rows + [e])[j].winner
  {
    var next := rows + [e];
    forall i, j | 0 <= i < j < |next|
      ensures next[i].winner != next[j].winner
    {
      assert next[i] == rows[i];
    }
  }

  /**
   * Collecting a highest remaining winner keeps every row drawn from the table
   * and every uncollected winner at or below every row.
   */
  lemma DominatedAfterAppend(table: map<string, int>, rows: seq<ScoreEntry>, remaining: set<string>, e: ScoreEntry)
    requires e.winner in table && e.score == table[e.winner]
    requires forall v :: v in remaining ==> v in table && table[v] <= e.score
    requires forall i :: 0 <= i < |rows| ==> rows[i].winner in table && rows[i].score == table[rows[i].winner]
    requires forall v, i :: v in remaining && 0 <= i < |rows| ==> table[v] <= rows[i].score
    ensures forall i :: 0 <= i < |rows + [e]| ==>
      (rows + [e])[i].winner in table && (rows + [e])[i].score == table[(rows + [e])[i].winner]
    ensures forall v, i :: v in remaining - {e.winner} && 0 <= i < |rows + [e]| ==> table[v] <= (rows + [e])[i].score
  {
    var next := rows + [e];
    assert forall k :: 0 <= k < |rows| ==> next[k] == rows[k];
    assert next[|rows|] == e;
  }

  /** The winners not yet collected are those of the table that no row names. */
  lemma UncollectedAfterAppend(table: map<string, int>, rows: seq<ScoreEntry>, remaining: set<string>, e: ScoreEntry)
    requires forall v :: v in table ==> (v in remaining <==> forall k :: 0 <= k < |rows| ==> rows[k].winner != v)
    ensures forall v :: v in table ==>
      (v in remaining - {e.winner} <==> forall k :: 0 <= k < |rows + [e]| ==> (rows + [e])[k].winner != v)
  {
    var next := rows + [e];
    forall v | v in table
      ensures v in remaining - {e.winner} <==> forall k :: 0 <= k < |next| ==> next[k].winner != v
    {
      assert next[|rows|] == e;
      if v != e.winner && v !in remaining {
        var k :| 0 <= k < |rows| && rows[k].winner == v;
        assert next[k] == rows[k];
      }
      if v in remaining - {e.winner} {
        assert forall k :: 0 <= k < |rows| ==> next[k] == rows[k];
      }
    }
  }

  /** Collecting a highest remaining winner keeps the query's state ranked. */
  lemma RankedStep(table: map<string, int>, rows: seq<ScoreEntry>, remaining: set<string>, w: string)
    requires Ranked(table, rows, remaining)
    requires w in remaining && forall v :: v in remaining ==> table[v] <= table[w]
    ensures Ranked(table, rows + [ScoreEntry(w, table[w])], remaining - {w})
  {
    var e := ScoreEntry(w, table[w]);
    DescendingAppend(rows, e);
    DistinctAppend(rows, e);
    UncollectedAfterAppend(table, rows, remaining, e);
    DominatedAfterAppend(table, rows, remaining, e);
  }

  class Database {
    /** The Score table, or None before it is created. */
    var score: Option<map<string, int>>

    constructor (score: Option<map<string, int>>)
      ensures this.score == score
    {
      this.score := score;
    }

    /** Creates the Score table unless it already exists. */
    method SetScoreSchema() returns (r: Outcome<string>)
      modifies this
      ensures r == Pass
      ensures score == WithSchema(old(score))
    {
      score := WithSchema(score);
      r := Pass;
    }

    /** The winner's row, if the table exists and has one. */
    function FindEntry(winner: string): (entry: Option<ScoreEntry>)
      reads this
      ensures entry.Some? <==> score.Some? && winner in score.value
      ensures entry.Some? ==> entry.value == ScoreEntry(winner, score.value[winner])
    {
      match score
      case None => None
      case Some(table) => if winner in table then Some(ScoreEntry(winner, table[winner])) else None
    }

    /**
     * Inserts the entry; when the insert is refused because the winner already
     * has a row, the row takes the new score only if that is lower. When the
     * insert fails and no row is found the table is left alone.
     */
    method AddScoreEntry(entry: ScoreEntry) returns (r: Outcome<string>)
      modifies this
      ensures old(score).None? ==>
        r == Fail("DB-ADDING_SCORE: Could not find database entry") && score == old(score)
      ensures old(score).Some? ==> r == Pass && score == Some(Upsert(old(score).value, entry))
    {
      if score.Some? && entry.winner !in score.value {
        // INSERT succeeds: the winner had no row
        score := Some(score.value[entry.winner := entry.score]);
        return Pass;
      }
      // INSERT refused: the table is missing or the winner already has a row
      var oldEntry := FindEntry(entry.winner);
      if oldEntry.None? {
        return Fail("DB-ADDING_SCORE: Could not find database entry");
      }
      if oldEntry.value.score > entry.score {
        score := Some(score.value[entry.winner := entry.score]);
      }
      r := Pass;
    }

    /**
     * The rows of the highest scores, highest first, at most `count` of them:
     * the query "ORDER BY score DESC LIMIT count" with its rows collected one
     * by one. Rows of equal score come in an unspecified order.
     */
    method GetTop(count: nat) returns (r: Result<seq<ScoreEntry>, string>)
      ensures score.None? ==> r == Failure("DB-GETTING_TOP: Could not prepare database query")
      ensures score.Some? ==> r.Success?
      ensures score.Some? ==>
        var table := score.value;
        var rows := r.value;
        && |rows| == Min(count, |table.Keys|)
        && (forall i :: 0 <= i < |rows| ==> rows[i].winner in table && rows[i].score == table[rows[i].winner])
        && (forall i, j :: 0 <= i < j < |rows| ==> rows[i].winner != rows[j].winner)
        && Descending(rows)
        && (forall w, i :: w in table && 0 <= i < |rows| && (forall k :: 0 <= k < |rows| ==> rows[k].winner != w)
              ==> table[w] <= rows[i].score)
    {
      if score.None? {
        return Failure("DB-GETTING_TOP: Could not prepare database query");
      }
      var table := score.value;
      var rows: seq<ScoreEntry> := [];
      var remaining := table.Keys;
      while |rows| < count && remaining != {}
        invariant |rows| <= count
        invariant Ranked(table, rows, remaining)
        decreases remaining
      {
        HighestExists(table, remaining);
        var w :| w in remaining && forall v :: v in remaining ==> table[v] <= table[w];
        RankedStep(table, rows, remaining, w);
        rows := rows + [ScoreEntry(w, table[w])];
        remaining := remaining - {w};
      }
      r := Success(rows);
    }
  }
}
