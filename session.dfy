/**
 * The session registry: a table from session id to a shared game, the shared
 * game handle itself, the session-key cookie and the three cookie-level
 * operations the request handlers use.
 *
 * A `Session` is a reference: copying it (Rust's clone of the Arc) copies the
 * reference, so every copy and every later lookup reaches the same `Game`.
 * Locking is not modelled; every operation runs to completion on its own.
 */
module Sessions {
  import opened Wrappers
  import opened Uuids
  import opened GameSetup

  /** A game shared between the registry and the requests that look it up. */
  class Session {
    const state: Game

    constructor (o: Game)
      ensures state == o
    {
      state := o;
    }

    /** Access to the game (the lock guard): the very game object the session holds. */
    method Get() returns (game: Game)
      ensures game == state
    {
      game := state;
    }
  }

  class SessionHandler {
    var sessions: map<Uuid, Session>

    /**
     * Every session owns its game: add_session takes the game by value, so
     * sessions stored under different ids never share one.
     */
    predicate Valid()
      reads this
    {
      forall a, b :: a in sessions && b in sessions && a != b ==> sessions[a].state != sessions[b].state
    }

    /** Whether a game is held by no stored session. */
    predicate Unshared(game: Game)
      reads this
    {
      forall other :: other in sessions ==> sessions[other].state != game
    }

    /** The registry starts empty. */
    constructor ()
      ensures sessions == map[]
      ensures Valid()
    {
      sessions := map[];
    }

    /** Looks a session up; copies of the stored reference share its game. */
    method Get(id: Uuid) returns (session: Option<Session>)
      ensures session.Some? <==> id in sessions
      ensures session.Some? ==> session.value == sessions[id]
    {
      if id in sessions {
        session := Some(sessions[id]);
      } else {
        session := None;
      }
    }

    /** Inserts a session, replacing any session already stored under the id. */
    method Add(id: Uuid, session: Session)
      requires Valid()
      requires forall other :: other in sessions && other != id ==> sessions[other].state != session.state
      modifies this
      ensures Valid()
      ensures sessions == old(sessions)[id := session]
      ensures id in sessions && sessions[id] == session
      ensures forall other :: other != id ==>
        (other in sessions <==> other in old(sessions)) &&
        (other in sessions ==> sessions[other] == old(sessions)[other])
    {
      sessions := sessions[id := session];
    }

    /** Removes the session stored under the id, if there is one. */
    method Remove(id: Uuid)
      requires Valid()
      modifies this
      ensures Valid()
      ensures sessions == old(sessions) - {id}
      ensures id !in sessions
      ensures id !in old(sessions) ==> sessions == old(sessions)
      ensures forall other :: other != id ==>
        (other in sessions <==> other in old(sessions)) &&
        (other in sessions ==> sessions[other] == old(sessions)[other])
    {
      sessions := sessions - {id};
    }
  }

  /** The client's cookies, as far as sessions go: the value of the private cookie "session_key", if set. */
  class CookieJar {
    var sessionKey: Option<string>

    constructor (sessionKey: Option<string>)
      ensures this.sessionKey == sessionKey
    {
      this.sessionKey := sessionKey;
    }
  }

  /** The session id a cookie value names: none when absent or not a UUID. */
  function KeyOf(cookie: Option<string>): Option<Uuid>
  {
    match cookie
    case None => None
    case Some(text) => ParseUuid(text)
  }

  /** The session a cookie value leads to in a registry. */
  function SessionOf(cookie: Option<string>, sessions: map<Uuid, Session>): (session: Option<Session>)
    ensures session.Some? ==> session.value in sessions.Values
  {
    match KeyOf(cookie)
    case None => None
    case Some(id) => if id in sessions then Some(sessions[id]) else None
  }

  /** The cookie written for a session id leads back to the session stored under that id. */
  lemma SessionOfKeyText(id: Uuid, sessions: map<Uuid, Session>)
    ensures SessionOf(Some(UuidText(id)), sessions) == if id in sessions then Some(sessions[id]) else None
  {
    ParseUuidText(id);
  }

  method GetSessionKey(jar: CookieJar) returns (key: Option<Uuid>)
    ensures key == KeyOf(jar.sessionKey)
    ensures jar.sessionKey.None? ==> key.None?
  {
    match jar.sessionKey
    case None => key := None;
    case Some(text) => key := ParseUuid(text);
  }

  method SetSessionKey(jar: CookieJar, id: Uuid)
    modifies jar
    ensures jar.sessionKey == Some(UuidText(id))
    ensures KeyOf(jar.sessionKey) == Some(id)
  {
    jar.sessionKey := Some(UuidText(id));
    ParseUuidText(id);
  }

  method RemoveSessionKey(jar: CookieJar)
    modifies jar
    ensures jar.sessionKey == None
  {
    jar.sessionKey := None;
  }

  /**
   * Starts a session for a game under the freshly drawn id `id` and stores the
   * id in the cookie; afterwards the cookie leads to the new session.
   */
  method AddSession(state: Game, jar: CookieJar, handler: SessionHandler, id: Uuid)
    requires handler.Valid() && handler.Unshared(state)
    modifies jar, handler
    ensures handler.Valid()
    ensures id in handler.sessions && fresh(handler.sessions[id]) && handler.sessions[id].state == state
    ensures forall other :: other != id ==>
      (other in handler.sessions <==> other in old(handler.sessions)) &&
      (other in handler.sessions ==> handler.sessions[other] == old(handler.sessions)[other])
    ensures jar.sessionKey == Some(UuidText(id))
    ensures SessionOf(jar.sessionKey, handler.sessions) == Some(handler.sessions[id])
  {
    var session := new Session(state);
    handler.Add(id, session);
    SetSessionKey(jar, id);
    SessionOfKeyText(id, handler.sessions);
  }

  /** The session the cookie leads to: none without a cookie, with a malformed one, or with an unknown id. */
  method FindSession(jar: CookieJar, handler: SessionHandler) returns (session: Option<Session>)
    ensures session == SessionOf(jar.sessionKey, handler.sessions)
    ensures jar.sessionKey.None? ==> session.None?
    ensures session.Some? ==> exists id :: id in handler.sessions && handler.sessions[id] == session.value
  {
    var key := GetSessionKey(jar);
    if key.None? {
      return None;
    }
    session := handler.Get(key.value);
  }

  /** Ends the cookie's session: drops its registry entry, if the cookie names one, and always clears the cookie. */
  method RemoveSession(jar: CookieJar, handler: SessionHandler)
    requires handler.Valid()
    modifies jar, handler
    ensures handler.Valid()
    ensures jar.sessionKey == None
    ensures KeyOf(old(jar.sessionKey)).None? ==> handler.sessions == old(handler.sessions)
    ensures KeyOf(old(jar.sessionKey)).Some? ==> handler.sessions == old(handler.sessions) - {KeyOf(old(jar.sessionKey)).value}
  {
    var key := GetSessionKey(jar);
    match key {
      case None =>
      case Some(id) => handler.Remove(id);
    }
    RemoveSessionKey(jar);
  }

  /**
   * Plays a move on a session's game through one lookup and reads the board
   * back through a second lookup of the same id: the second lookup sees the
   * move, because both lookups hand out the same shared game, while every
   * other session, owning its own game, keeps its board.
   */
  method PlayAndLookAgain(handler: SessionHandler, id: Uuid, rules: ChessRules.Rules, mv: ChessRules.Move)
    returns (seen: Option<ChessRules.Board>)
    requires handler.Valid()
    modifies if id in handler.sessions then {handler.sessions[id].state} else {}
    ensures handler.sessions == old(handler.sessions)
    ensures forall other :: other in handler.sessions && other != id ==>
      handler.sessions[other].state.board == old(handler.sessions[other].state.board)
    ensures id !in handler.sessions ==> seen.None?
    ensures id in handler.sessions ==>
      seen == Some(handler.sessions[id].state.board)
      && handler.sessions[id].state.board == rules.play(old(handler.sessions[id].state.board), mv)
  {
    var first := handler.Get(id);
    if first.None? {
      return None;
    }
    var game := first.value.Get();
    game.board := rules.play(game.board, mv);
    var second := handler.Get(id);
    var again := second.value.Get();
    seen := Some(again.board);
  }
}
