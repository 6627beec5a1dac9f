/** The WebSocket connection registry: for each game, the set of sessions
    watching it. A game with no session left is dropped from the table. */
module Connections {

  /** A WebSocket session, known by its id. */
  datatype Session = Session(id: string)

  type Table = map<int, set<Session>>

  /** No game is listed with an empty set of sessions. */
  ghost predicate NoEmptyGames(t: Table)
  {
    forall g :: g in t ==> t[g] != {}
  }

  /** The sessions of a game; none for a game that is not listed. */
  function SessionsOf(t: Table, gameID: int): set<Session>
  {
    if gameID in t then t[gameID] else {}
  }

  /** The table after addConnection. */
  function Added(t: Table, gameID: int, session: Session): (r: Table)
    ensures r.Keys == t.Keys + {gameID}
    ensures SessionsOf(r, gameID) == SessionsOf(t, gameID) + {session}
    ensures forall g :: g in t && g != gameID ==> r[g] == t[g]
  {
    t[gameID := SessionsOf(t, gameID) + {session}]
  }

  /** The table after removeConnection. */
  function Removed(t: Table, gameID: int, session: Session): (r: Table)
    ensures SessionsOf(r, gameID) == SessionsOf(t, gameID) - {session}
    ensures forall g :: g != gameID ==> (g in r <==> g in t) && (g in t ==> r[g] == t[g])
  {
    if gameID !in t then t
    else if t[gameID] - {session} == {} then t - {gameID}
    else t[gameID := t[gameID] - {session}]
  }

  /** Both operations keep every listed game non-empty. */
  lemma KeepsNoEmptyGames(t: Table, gameID: int, session: Session)
    requires NoEmptyGames(t)
    ensures NoEmptyGames(Added(t, gameID, session))
    ensures NoEmptyGames(Removed(t, gameID, session))
  {
    var a := Added(t, gameID, session);
    assert session in a[gameID];
  }

  /** Adding a session twice is the same as adding it once. */
  lemma AddIdempotent(t: Table, gameID: int, session: Session)
    ensures Added(Added(t, gameID, session), gameID, session) == Added(t, gameID, session)
  {
    var once := Added(t, gameID, session);
    assert SessionsOf(once, gameID) + {session} == SessionsOf(once, gameID);
  }

  /** Removing a session from a game that is not listed changes nothing. */
  lemma RemoveUnknownGame(t: Table, gameID: int, session: Session)
    requires gameID !in t
    ensures Removed(t, gameID, session) == t
  {
  }

  /** Adding a session that was not there and removing it again restores
      the table, provided no listed game is empty. */
  lemma {:induction false} RemoveUndoesAdd(t: Table, gameID: int, session: Session)
    requires NoEmptyGames(t) && session !in SessionsOf(t, gameID)
    ensures Removed(Added(t, gameID, session), gameID, session) == t
  {
    var a := Added(t, gameID, session);
    var r := Removed(a, gameID, session);
    assert a[gameID] - {session} == SessionsOf(t, gameID);
    if gameID in t {
      assert r == a[gameID := t[gameID]];
      assert r.Keys == t.Keys;
      assert forall g :: g in t ==> r[g] == t[g];
    } else {
      assert r == a - {gameID};
      assert r.Keys == t.Keys;
    }
  }

  /** ConnectionManager: the one shared table of the server. */
  class ConnectionManager {
    var gameConnections: Table

    ghost predicate Valid()
      reads this
    {
      NoEmptyGames(gameConnections)
    }

    constructor()
      ensures Valid() && gameConnections == map[]
    {
      gameConnections := map[];
    }

    /** addConnection: creates the game's set if absent, then adds the session. */
    method AddConnection(gameID: int, session: Session)
      requires Valid()
      modifies this
      ensures Valid()
      ensures gameConnections == Added(old(gameConnections), gameID, session)
    {
      if gameID !in gameConnections {
        gameConnections := gameConnections[gameID := {}];
      }
      gameConnections := gameConnections[gameID := gameConnections[gameID] + {session}];
      KeepsNoEmptyGames(old(gameConnections), gameID, session);
    }

    /** removeConnection: drops the session from a listed game, and the game
        itself once it has no session left. */
    method RemoveConnection(gameID: int, session: Session)
      requires Valid()
      modifies this
      ensures Valid()
      ensures gameConnections == Removed(old(gameConnections), gameID, session)
    {
      if gameID in gameConnections {
        var sessions := gameConnections[gameID] - {session};
        gameConnections := gameConnections[gameID := sessions];
        if sessions == {} {
          gameConnections := gameConnections - {gameID};
        }
      }
      KeepsNoEmptyGames(old(gameConnections), gameID, session);
    }
  }
}
