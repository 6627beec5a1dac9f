/** The server's in-memory data access objects: three hash tables, with an
    error for a duplicate key on insert and for a missing key on lookup. */
module DataAccess {
  import opened Outcomes
  import opened ChessValues
  import opened Boards

  /** A Java String reference: None is null. */
  type JString = Option<string>

  /** A stored game: a snapshot of its board and side to move. */
  datatype SavedGame = SavedGame(squares: Grid, turn: TeamColor)

  datatype GameData = GameData(gameID: int, whiteUsername: JString, blackUsername: JString,
                               gameName: JString, game: Option<SavedGame>)
  datatype AuthData = AuthData(username: JString, authToken: JString)
  datatype UserData = UserData(username: JString, password: JString, email: JString)

  /** The DataAccessException cases of the memory DAOs. */
  datatype DataAccessError = AlreadyExists | NotFound

  /** Every game is stored under its own id. */
  ghost predicate KeyedById(m: map<int, GameData>)
  {
    forall id :: id in m ==> m[id].gameID == id
  }

  /** MemoryGameDAO: games keyed by id. */
  class MemoryGameDAO {
    var gameMap: map<int, GameData>

    ghost predicate Valid()
      reads this
    {
      KeyedById(gameMap)
    }

    constructor()
      ensures Valid() && gameMap == map[]
    {
      gameMap := map[];
    }

    /** createGame: refuses an id already present, changing nothing. */
    method CreateGame(game: GameData) returns (r: Outcome<DataAccessError>)
      requires Valid()
      modifies this
      ensures Valid()
      ensures game.gameID in old(gameMap) ==> r == Fail(AlreadyExists) && gameMap == old(gameMap)
      ensures game.gameID !in old(gameMap) ==> r == Pass && gameMap == old(gameMap)[game.gameID := game]
    {
      if game.gameID in gameMap {
        return Fail(AlreadyExists);
      }
      gameMap := gameMap[game.gameID := game];
      return Pass;
    }

    /** getGame: the stored record, or NotFound. */
    method GetGame(gameID: int) returns (r: Result<GameData, DataAccessError>)
      requires Valid()
      ensures gameID in gameMap ==> r == Success(gameMap[gameID]) && r.value.gameID == gameID
      ensures gameID !in gameMap ==> r == Failure(NotFound)
    {
      if gameID !in gameMap {
        return Failure(NotFound);
      }
      return Success(gameMap[gameID]);
    }

    /** listGames: every stored record, each exactly once, since a record
        is determined by the id it is stored under. */
    method ListGames() returns (games: set<GameData>)
      requires Valid()
      ensures forall g :: g in games <==> g.gameID in gameMap && gameMap[g.gameID] == g
    {
      games := set id | id in gameMap :: gameMap[id];
    }

    /** updateGame: replaces the record with the same id, or NotFound. */
    method UpdateGame(game: GameData) returns (r: Outcome<DataAccessError>)
      requires Valid()
      modifies this
      ensures Valid()
      ensures game.gameID !in old(gameMap) ==> r == Fail(NotFound) && gameMap == old(gameMap)
      ensures game.gameID in old(gameMap) ==> r == Pass && gameMap == old(gameMap)[game.gameID := game]
    {
      if game.gameID !in gameMap {
        return Fail(NotFound);
      }
      gameMap := gameMap[game.gameID := game];
      return Pass;
    }

    /** clear: afterwards every lookup fails. */
    method Clear()
      modifies this
      ensures Valid() && gameMap == map[]
    {
      gameMap := map[];
    }
  }

  /** MemoryAuthDAO: sessions keyed by token. */
  class MemoryAuthDAO {
    var authMap: map<JString, AuthData>

    ghost predicate Valid()
      reads this
    {
      forall t :: t in authMap ==> authMap[t].authToken == t
    }

    constructor()
      ensures Valid() && authMap == map[]
    {
      authMap := map[];
    }

    /** createAuth: refuses a token already present, changing nothing. */
    method CreateAuth(auth: AuthData) returns (r: Outcome<DataAccessError>)
      requires Valid()
      modifies this
      ensures Valid()
      ensures auth.authToken in old(authMap) ==> r == Fail(AlreadyExists) && authMap == old(authMap)
      ensures auth.authToken !in old(authMap) ==> r == Pass && authMap == old(authMap)[auth.authToken := auth]
    {
      if auth.authToken in authMap {
        return Fail(AlreadyExists);
      }
      authMap := authMap[auth.authToken := auth];
      return Pass;
    }

    /** getAuth: the stored record, or NotFound. */
    method GetAuth(authToken: JString) returns (r: Result<AuthData, DataAccessError>)
      requires Valid()
      ensures authToken in authMap ==> r == Success(authMap[authToken]) && r.value.authToken == authToken
      ensures authToken !in authMap ==> r == Failure(NotFound)
    {
      if authToken !in authMap {
        return Failure(NotFound);
      }
      return Success(authMap[authToken]);
    }

    /** deleteAuth: removes exactly that token, or NotFound. */
    method DeleteAuth(authToken: JString) returns (r: Outcome<DataAccessError>)
      requires Valid()
      modifies this
      ensures Valid()
      ensures authToken !in old(authMap) ==> r == Fail(NotFound) && authMap == old(authMap)
      ensures authToken in old(authMap) ==> r == Pass && authMap == old(authMap) - {authToken}
    {
      if authToken !in authMap {
        return Fail(NotFound);
      }
      authMap := authMap - {authToken};
      return Pass;
    }

    /** clear: afterwards every lookup fails. */
    method Clear()
      modifies this
      ensures Valid() && authMap == map[]
    {
      authMap := map[];
    }
  }

  /** MemoryUserDAO: users keyed by username. */
  class MemoryUserDAO {
    var userMap: map<JString, UserData>

    ghost predicate Valid()
      reads this
    {
      forall u :: u in userMap ==> userMap[u].username == u
    }

    constructor()
      ensures Valid() && userMap == map[]
    {
      userMap := map[];
    }

    /** createUser: refuses a username already present, changing nothing. */
    method CreateUser(user: UserData) returns (r: Outcome<DataAccessError>)
      requires Valid()
      modifies this
      ensures Valid()
      ensures user.username in old(userMap) ==> r == Fail(AlreadyExists) && userMap == old(userMap)
      ensures user.username !in old(userMap) ==> r == Pass && userMap == old(userMap)[user.username := user]
    {
      if user.username in userMap {
        return Fail(AlreadyExists);
      }
      userMap := userMap[user.username := user];
      return Pass;
    }

    /** getUser: the stored record, password and email included, or NotFound. */
    method GetUser(username: JString) returns (r: Result<UserData, DataAccessError>)
      requires Valid()
      ensures username in userMap ==> r == Success(userMap[username]) && r.value.username == username
      ensures username !in userMap ==> r == Failure(NotFound)
    {
      if username !in userMap {
        return Failure(NotFound);
      }
      return Success(userMap[username]);
    }

    /** clear: afterwards every lookup fails. */
    method Clear()
      modifies this
      ensures Valid() && userMap == map[]
    {
      userMap := map[];
    }
  }
}
