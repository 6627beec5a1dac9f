/** The server's service layer: GameService (list, create and join games)
    and UserService.registerUser, over the in-memory DAOs. */
module Services {
  import opened Outcomes
  import opened DataAccess

  /** The exceptions a service call can end in. */
  datatype ServiceError =
    | Unauthorized
    | BadRequest
    | UserAlreadyExists
    | DataAccessFailure(cause: DataAccessError)

  /** A Java string that is null or empty. */
  predicate Blank(s: JString)
  {
    s.None? || s.value == ""
  }

  /** The check every game operation starts with: a null or empty token is
      unauthorized; any other token is looked up, and getAuth fails with a
      data-access error when it is unknown. */
  function Authenticate(auths: map<JString, AuthData>, authToken: JString): (r: Result<AuthData, ServiceError>)
    ensures r.Success? <==> !Blank(authToken) && authToken in auths
    ensures r.Success? ==> r.value == auths[authToken]
    ensures r.Failure? ==> r.error == (if Blank(authToken) then Unauthorized else DataAccessFailure(NotFound))
  {
    if Blank(authToken) then Failure(Unauthorized)
    else if authToken !in auths then Failure(DataAccessFailure(NotFound))
    else Success(auths[authToken])
  }

  /** The first of the random draws from index k on that is not a stored id:
      the id the do-while loop of createGame settles on. */
  function FirstFree(draws: seq<int>, taken: map<int, GameData>, k: nat): (i: nat)
    requires k <= |draws|
    requires exists j :: k <= j < |draws| && draws[j] !in taken
    ensures k <= i < |draws| && draws[i] !in taken
    ensures forall j :: k <= j < i ==> draws[j] in taken
    decreases |draws| - k
  {
    if draws[k] !in taken then k else FirstFree(draws, taken, k + 1)
  }

  /** ASCII upper-casing of one character. */
  function ToUpper(c: char): (u: char)
    ensures 'a' <= c <= 'z' ==> u as int == c as int - 32
    ensures !('a' <= c <= 'z') ==> u == c
  {
    if 'a' <= c <= 'z' then (c as int - 32) as char else c
  }

  /** String.toUpperCase, on ASCII. */
  function UpperCase(s: string): (u: string)
    ensures |u| == |s| && forall i :: 0 <= i < |s| ==> u[i] == ToUpper(s[i])
  {
    seq(|s|, i requires 0 <= i < |s| => ToUpper(s[i]))
  }

  /** Two strings that differ at most in the case of ASCII letters. */
  predicate SameIgnoringCase(a: string, b: string)
  {
    |a| == |b| && forall i :: 0 <= i < |a| ==> ToUpper(a[i]) == ToUpper(b[i])
  }

  datatype Seat = WhiteSeat | BlackSeat

  /** The seat a requested colour names, if any. */
  function SeatNamed(color: string): Option<Seat>
  {
    var upper := UpperCase(color);
    if upper == "WHITE" then Some(WhiteSeat)
    else if upper == "BLACK" then Some(BlackSeat)
    else None
  }

  /** joinGame accepts "white" and "black" in any mix of case, and nothing else. */
  lemma SeatNames(color: string)
    ensures SeatNamed(color) == Some(WhiteSeat) <==> SameIgnoringCase(color, "white")
    ensures SeatNamed(color) == Some(BlackSeat) <==> SameIgnoringCase(color, "black")
    ensures SeatNamed(color).None? <==>
            !SameIgnoringCase(color, "white") && !SameIgnoringCase(color, "black")
  {
    assert UpperCase("white") == "WHITE";
    assert UpperCase("black") == "BLACK";
    UpperCaseMatches(color, "white");
    UpperCaseMatches(color, "black");
  }

  /** Upper-cased strings are equal exactly when the strings agree ignoring case. */
  lemma UpperCaseMatches(a: string, b: string)
    ensures UpperCase(a) == UpperCase(b) <==> SameIgnoringCase(a, b)
  {
    if SameIgnoringCase(a, b) {
      assert UpperCase(a) == UpperCase(b);
    }
    if UpperCase(a) == UpperCase(b) {
      forall i | 0 <= i < |a|
        ensures ToUpper(a[i]) == ToUpper(b[i])
      {
        assert UpperCase(a)[i] == UpperCase(b)[i];
      }
    }
  }

  /** The record after `username` takes `seat`, or None when the seat is
      already filled. */
  function Claim(game: GameData, seat: Seat, username: JString): (r: Option<GameData>)
    ensures r.None? <==> (if seat == WhiteSeat then game.whiteUsername else game.blackUsername).Some?
    ensures r.Some? ==> r.value.gameID == game.gameID && r.value.gameName == game.gameName
                        && r.value.game == game.game
    ensures r.Some? && seat == WhiteSeat ==>
              r.value.whiteUsername == username && r.value.blackUsername == game.blackUsername
    ensures r.Some? && seat == BlackSeat ==>
              r.value.blackUsername == username && r.value.whiteUsername == game.whiteUsername
  {
    match seat
    case WhiteSeat =>
      if game.whiteUsername.Some? then None
      else Some(GameData(game.gameID, username, game.blackUsername, game.gameName, game.game))
    case BlackSeat =>
      if game.blackUsername.Some? then None
      else Some(GameData(game.gameID, game.whiteUsername, username, game.gameName, game.game))
  }

  /** Once a named player holds a seat, every later claim of it is refused,
      and a claim of the other seat leaves the first player in place. */
  lemma SeatTakenOnce(game: GameData, seat: Seat, username: JString, other: JString)
    requires username.Some? && Claim(game, seat, username).Some?
    ensures Claim(Claim(game, seat, username).value, seat, other).None?
    ensures var g := Claim(game, seat, username).value;
            var s := if seat == WhiteSeat then BlackSeat else WhiteSeat;
            (Claim(g, s, other).Some? ==>
               (if seat == WhiteSeat then Claim(g, s, other).value.whiteUsername
                else Claim(g, s, other).value.blackUsername) == username)
  {
  }

  /** GameService over a game table and a session table. */
  class GameService {
    const gameDAO: MemoryGameDAO
    const authDAO: MemoryAuthDAO

    constructor(gameDAO: MemoryGameDAO, authDAO: MemoryAuthDAO)
      ensures this.gameDAO == gameDAO && this.authDAO == authDAO
    {
      this.gameDAO := gameDAO;
      this.authDAO := authDAO;
    }

    /** listGames: the stored games, once the caller is authenticated. */
    method ListGames(authToken: JString) returns (r: Result<set<GameData>, ServiceError>)
      requires gameDAO.Valid() && authDAO.Valid()
      ensures Authenticate(authDAO.authMap, authToken).Failure? ==>
                r == Failure(Authenticate(authDAO.authMap, authToken).error)
      ensures Authenticate(authDAO.authMap, authToken).Success? ==>
                r.Success? && forall g :: g in r.value <==> g.gameID in gameDAO.gameMap && gameDAO.gameMap[g.gameID] == g
    {
      if authToken.None? || authToken.value == "" {
        return Failure(Unauthorized);
      }
      var auth := authDAO.GetAuth(authToken);
      if auth.Failure? {
        return Failure(DataAccessFailure(auth.error));
      }
      var games := gameDAO.ListGames();
      return Success(games);
    }

    /** gameDAOAlreadyHas: whether an id is in use. */
    method GameDAOAlreadyHas(gameID: int) returns (taken: bool)
      requires gameDAO.Valid()
      ensures taken <==> gameID in gameDAO.gameMap
    {
      var found := gameDAO.GetGame(gameID);
      taken := found.Success?;
    }

    /** createGame: after authentication and a non-empty name, stores a new
        game without players under the first drawn id not in use. `draws` are
        the successive random ids, each in 1..9999, and one of them is free. */
    method CreateGame(authToken: JString, gameName: JString, draws: seq<int>)
      returns (r: Result<int, ServiceError>)
      requires gameDAO.Valid() && authDAO.Valid()
      requires forall i :: 0 <= i < |draws| ==> 1 <= draws[i] <= 9999
      requires exists j :: 0 <= j < |draws| && draws[j] !in gameDAO.gameMap
      modifies gameDAO
      ensures gameDAO.Valid()
      ensures Authenticate(authDAO.authMap, authToken).Failure? ==>
                r == Failure(Authenticate(authDAO.authMap, authToken).error)
                && gameDAO.gameMap == old(gameDAO.gameMap)
      ensures Authenticate(authDAO.authMap, authToken).Success? && Blank(gameName) ==>
                r == Failure(BadRequest) && gameDAO.gameMap == old(gameDAO.gameMap)
      ensures Authenticate(authDAO.authMap, authToken).Success? && !Blank(gameName) ==>
                r.Success? && r.value == draws[FirstFree(draws, old(gameDAO.gameMap), 0)]
                && 1 <= r.value <= 9999 && r.value !in old(gameDAO.gameMap)
                && gameDAO.gameMap == old(gameDAO.gameMap)[r.value := GameData(r.value, None, None, gameName, None)]
    {
      if authToken.None? || authToken.value == "" {
        return Failure(Unauthorized);
      }
      var auth := authDAO.GetAuth(authToken);
      if auth.Failure? {
        return Failure(DataAccessFailure(auth.error));
      }
      if gameName.None? || gameName.value == "" {
        return Failure(BadRequest);
      }
      ghost var free := FirstFree(draws, gameDAO.gameMap, 0);
      var k := 0;
      var gameID := draws[k];
      var taken := GameDAOAlreadyHas(gameID);
      while taken
        invariant gameDAO.gameMap == old(gameDAO.gameMap)
        invariant k <= free && gameID == draws[k]
        invariant taken <==> gameID in gameDAO.gameMap
        invariant FirstFree(draws, gameDAO.gameMap, k) == free
        decreases free - k
      {
        k := k + 1;
        gameID := draws[k];
        taken := GameDAOAlreadyHas(gameID);
      }
      var created := gameDAO.CreateGame(GameData(gameID, None, None, gameName, None));
      assert created == Pass;
      return Success(gameID);
    }

    /** joinGame: after authentication, the game must exist and the colour
        must name a seat; a filled seat answers false and changes nothing,
        a free one is given to the caller and the answer is true. */
    method JoinGame(authToken: JString, gameID: int, requestedColor: JString)
      returns (r: Result<bool, ServiceError>)
      requires gameDAO.Valid() && authDAO.Valid()
      modifies gameDAO
      ensures gameDAO.Valid()
      ensures r != Success(true) ==> gameDAO.gameMap == old(gameDAO.gameMap)
      ensures Authenticate(authDAO.authMap, authToken).Failure? ==>
                r == Failure(Authenticate(authDAO.authMap, authToken).error)
      ensures Authenticate(authDAO.authMap, authToken).Success? && gameID !in old(gameDAO.gameMap) ==>
                r == Failure(DataAccessFailure(NotFound))
      ensures Authenticate(authDAO.authMap, authToken).Success? && gameID in old(gameDAO.gameMap) ==>
                (requestedColor.None? ==> r == Failure(BadRequest)) &&
                (requestedColor.Some? && SeatNamed(requestedColor.value).None? ==> r == Failure(BadRequest))
      ensures Authenticate(authDAO.authMap, authToken).Success? && gameID in old(gameDAO.gameMap)
              && requestedColor.Some? && SeatNamed(requestedColor.value).Some? ==>
                (Claim(old(gameDAO.gameMap)[gameID], SeatNamed(requestedColor.value).value,
                       authDAO.authMap[authToken].username).None?
                 ==> r == Success(false)) &&
                (Claim(old(gameDAO.gameMap)[gameID], SeatNamed(requestedColor.value).value,
                       authDAO.authMap[authToken].username).Some?
                 ==>
                   r == Success(true) &&
                   gameDAO.gameMap == old(gameDAO.gameMap)[gameID :=
                     Claim(old(gameDAO.gameMap)[gameID], SeatNamed(requestedColor.value).value,
                           authDAO.authMap[authToken].username).value])
    {
      if authToken.None? || authToken.value == "" {
        return Failure(Unauthorized);
      }
      var auth := authDAO.GetAuth(authToken);
      if auth.Failure? {
        return Failure(DataAccessFailure(auth.error));
      }
      var found := gameDAO.GetGame(gameID);
      if found.Failure? {
        return Failure(DataAccessFailure(found.error));
      }
      var game := found.value;
      if requestedColor.None? {
        return Failure(BadRequest);
      }
      var color := UpperCase(requestedColor.value);
      if color != "WHITE" && color != "BLACK" {
        return Failure(BadRequest);
      }
      var whiteUser := game.whiteUsername;
      var blackUser := game.blackUsername;
      if color == "WHITE" {
        if whiteUser.Some? {
          return Success(false);
        }
        whiteUser := auth.value.username;
      } else {
        if blackUser.Some? {
          return Success(false);
        }
        blackUser := auth.value.username;
      }
      var updated := GameData(game.gameID, whiteUser, blackUser, game.gameName, game.game);
      var stored := gameDAO.UpdateGame(updated);
      assert stored == Pass;
      return Success(true);
    }
  }

  /** UserService over a user table and a session table. */
  class UserService {
    const userDAO: MemoryUserDAO
    const authDAO: MemoryAuthDAO

    constructor(userDAO: MemoryUserDAO, authDAO: MemoryAuthDAO)
      ensures this.userDAO == userDAO && this.authDAO == authDAO
    {
      this.userDAO := userDAO;
      this.authDAO := authDAO;
    }

    /** registerUser: a user with a non-empty name and password that is not
        yet stored is created and given a session under `token`, the
        36-character UUID the source draws at random. The new session then
        authenticates the user's game operations. */
    method RegisterUser(user: UserData, token: string) returns (r: Result<AuthData, ServiceError>)
      requires userDAO.Valid() && authDAO.Valid()
      requires |token| == 36
      modifies userDAO, authDAO
      ensures userDAO.Valid() && authDAO.Valid()
      ensures Blank(user.username) || Blank(user.password) ==>
                r == Failure(BadRequest)
                && userDAO.userMap == old(userDAO.userMap) && authDAO.authMap == old(authDAO.authMap)
      ensures !Blank(user.username) && !Blank(user.password) && user.username in old(userDAO.userMap) ==>
                r == Failure(UserAlreadyExists)
                && userDAO.userMap == old(userDAO.userMap) && authDAO.authMap == old(authDAO.authMap)
      ensures !Blank(user.username) && !Blank(user.password) && user.username !in old(userDAO.userMap) ==>
                userDAO.userMap == old(userDAO.userMap)[user.username := user]
                && (Some(token) in old(authDAO.authMap) ==>
                      r == Failure(DataAccessFailure(AlreadyExists)) && authDAO.authMap == old(authDAO.authMap))
                && (Some(token) !in old(authDAO.authMap) ==>
                      r == Success(AuthData(user.username, Some(token)))
                      && authDAO.authMap == old(authDAO.authMap)[Some(token) := r.value]
                      && Authenticate(authDAO.authMap, Some(token)) == Success(r.value))
    {
      if user.username.None? || user.username.value == ""
         || user.password.None? || user.password.value == "" {
        return Failure(BadRequest);
      }
      var existing := userDAO.GetUser(user.username);
      if existing.Success? {
        return Failure(UserAlreadyExists);
      }
      var created := userDAO.CreateUser(user);
      assert created == Pass;
      var authData := AuthData(user.username, Some(token));
      var stored := authDAO.CreateAuth(authData);
      if stored.Fail? {
        return Failure(DataAccessFailure(stored.error));
      }
      return Success(authData);
    }
  }
}
