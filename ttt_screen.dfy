/**
 * One device's Tic-Tac-Toe screen: the room document, the store, and the
 * component's state and handlers as a class. Moves change only the local
 * board; the shared room carries the lobby bookkeeping.
 */
module TttScreen {
  import opened Wrappers
  import opened Roster
  import opened Rooms
  import opened TttBoard

  datatype TttRoom = TttRoom(
    gameId: string,
    round: int,
    currentPlayer: Mark,
    gameStatus: GameStatus,
    playersReady: int,
    players: seq<Player>,
    filledPos: seq<Mark>,
    host: string,
    startTime: int,
    timestamp: int)

  /** `getRandomXO`: `["X", "O"][k]` for the random index `k` the screen draws. */
  function RandomXO(k: nat): (m: Mark)
    requires k < 2
    ensures m == X || m == O
    ensures k == 0 <==> m == X
  {
    if k == 0 then X else O
  }

  /** The entry a Tic-Tac-Toe host writes for itself. */
  function HostEntry(user: Identity): (p: Player)
    ensures p.id == user.uid && p.points == 0 && p.photoURL == user.photoURL
  {
    Player(user.uid, user.displayName, 0, user.photoURL, None)
  }

  /** The entry a joiner appends: no photo. */
  function JoinerEntry(user: Identity): (p: Player)
    ensures p.id == user.uid && p.points == 0 && p.photoURL == None
  {
    Player(user.uid, user.displayName, 0, None, None)
  }

  /** The document the host writes when it opens an online room. */
  function NewTttRoom(gameId: string, user: Identity, k: nat, now: int): (r: TttRoom)
    requires k < 2
    ensures r.gameId == gameId && r.round == 0 && r.gameStatus == Created && r.playersReady == 1
    ensures r.filledPos == InitialBoard() && (r.currentPlayer == X || r.currentPlayer == O)
    ensures r.players == [HostEntry(user)] && r.host == HostName(user)
    ensures |r.filledPos| == 9
  {
    TttRoom(gameId, 0, RandomXO(k), Created, 1, [HostEntry(user)], InitialBoard(), HostName(user), 0, now)
  }

  /** One partial document a client merges into the stored room. */
  datatype Write =
    | JoinWrite(me: Player)
    | ResetWrite(playersReady: int)
    | LeaveWrite(seen: TttRoom, uid: Uid)

  /** The stored room after the merge. */
  function Apply(stored: TttRoom, w: Write): (r: TttRoom)
    ensures r.gameId == stored.gameId && r.round == stored.round && r.host == stored.host
    ensures w.JoinWrite? ==> r.players == Join(stored.players, w.me)
    ensures w.ResetWrite? ==> r.filledPos == InitialBoard() && r.playersReady == w.playersReady
    ensures w.LeaveWrite? ==> r.players == Leave(w.seen.players, w.uid) && r.playersReady == stored.playersReady
    ensures !w.ResetWrite? ==> r.filledPos == stored.filledPos
    ensures !w.ResetWrite? ==> r.(players := stored.players) == stored
    ensures w.ResetWrite? ==> r.(filledPos := stored.filledPos, playersReady := stored.playersReady) == stored
  {
    match w
    case JoinWrite(me) => stored.(players := Join(stored.players, me))
    case ResetWrite(n) => stored.(filledPos := InitialBoard(), playersReady := n)
    case LeaveWrite(seen, uid) => stored.(players := Leave(seen.players, uid))
  }

  /** `Fire.updateGame("ttt", key, …)`: a merge into one room; a room that no longer exists is left absent. */
  function Update(rooms: map<string, TttRoom>, key: string, w: Write): (r: map<string, TttRoom>)
    ensures r.Keys == rooms.Keys
    ensures key in rooms ==> r[key] == Apply(rooms[key], w)
    ensures forall k :: k in rooms && k != key ==> r[k] == rooms[k]
  {
    if key in rooms then rooms[key := Apply(rooms[key], w)] else rooms
  }

  /** Every stored room sits under its own id and holds a nine-cell board. */
  predicate WellFormed(rooms: map<string, TttRoom>) {
    forall k :: k in rooms ==> rooms[k].gameId == k && |rooms[k].filledPos| == 9
  }

  /** The readiness `handleReset` writes, from the room data its closure sees. */
  function ResetReady(seen: Option<TttRoom>): (n: int)
    ensures seen.Some? && seen.value.playersReady > 1 ==> n == |seen.value.players| - 1
    ensures !(seen.Some? && seen.value.playersReady > 1) ==> n == 1
  {
    if seen.Some? && seen.value.playersReady > 1 then |seen.value.players| - 1 else 1
  }

  /**
   * The reset's recount does not look at who was ready: with four players of
   * whom two are ready it records three, and with two players both ready it
   * records one, the host alone.
   */
  lemma ResetRecount(room: TttRoom, a: Player, b: Player, c: Player, d: Player)
    ensures ResetReady(Some(room.(players := [a, b, c, d], playersReady := 2))) == 3
    ensures ResetReady(Some(room.(players := [a, b], playersReady := 2))) == 1
    ensures ResetReady(None) == 1
  {
  }

  /**
   * For every room with more than one ready player, the reset records one
   * fewer than the number of players, and so depends only on the roster's
   * length: two rooms with the same players and any two readiness counts
   * above one get the same value, and it exceeds the readiness whenever
   * fewer than all but one were ready.
   */
  lemma ResetIgnoresReadiness(room: TttRoom, ready1: int, ready2: int)
    requires ready1 > 1 && ready2 > 1
    ensures ResetReady(Some(room.(playersReady := ready1))) == ResetReady(Some(room.(playersReady := ready2)))
    ensures ResetReady(Some(room.(playersReady := ready1))) == |room.players| - 1
    ensures ready1 < |room.players| - 1 ==> ResetReady(Some(room.(playersReady := ready1))) > ready1
  {
  }

  /** With more than one ready player, the recount writes the stored readiness back exactly when it already counted all players but one. */
  lemma ResetKeepsReadinessIff(room: TttRoom)
    requires room.playersReady > 1
    ensures ResetReady(Some(room)) == room.playersReady <==> room.playersReady == |room.players| - 1
  {
  }

  /** The remote store of Tic-Tac-Toe rooms. */
  class TttBackend {
    var rooms: map<string, TttRoom>

    constructor ()
      ensures rooms == map[]
    {
      rooms := map[];
    }
  }

  /** `winner`: `"X"`, `"O"` or `"draw"`. */
  datatype Winner = WonBy(mark: Mark) | Drawn

  /** The buttons routed through `handlePress`. */
  datatype Flag = Play | Ready | Restart

  /** `${board[a]} Win` */
  function WinText(m: Mark): string {
    match m
    case X => "X Win"
    case O => "O Win"
    case Empty => " Win"
  }

  class TttSession {
    const mode: Mode
    const routeId: string
    const user: Identity
    const backend: TttBackend

    var gameId: string
    var gameData: Option<TttRoom>
    var board: seq<Mark>
    var isPlayerTurn: bool
    var winner: Option<Winner>
    var winnerText: Option<string>
    var ready: bool
    var connection: bool
    var closeModalVisible: bool
    var exited: bool

    ghost predicate Valid()
      reads this, backend
    {
      |board| == 9 && WellFormed(backend.rooms)
    }

    /** X has moved once more than O exactly when it is O's turn. */
    ghost predicate Balanced()
      reads this
    {
      CountMark(board, X) - CountMark(board, O) == if isPlayerTurn then 0 else 1
    }

    constructor (mode: Mode, routeId: string, user: Identity, backend: TttBackend)
      requires WellFormed(backend.rooms)
      ensures Valid() && Balanced()
      ensures this.mode == mode && this.routeId == routeId && this.user == user && this.backend == backend
      ensures gameId == routeId && gameData == None && board == InitialBoard() && isPlayerTurn
      ensures winner == None && winnerText == None && !ready && connection && !exited
    {
      this.mode := mode;
      this.routeId := routeId;
      this.user := user;
      this.backend := backend;
      gameId := routeId;
      gameData := None;
      board := InitialBoard();
      isPlayerTurn := true;
      winner := None;
      winnerText := None;
      ready := false;
      connection := true;
      closeModalVisible := false;
      exited := false;
      new;
      CountEmptyBoard(board, X);
      CountEmptyBoard(board, O);
    }

    /** The mount effect: the host writes a fresh room; a joiner appends itself if absent. */
    method Mount(k: nat, newId: string, now: int)
      requires Valid() && k < 2
      modifies this`gameId, backend`rooms
      ensures Valid()
      ensures mode == OnlineMode ==>
        (gameId == newId && backend.rooms == old(backend.rooms)[newId := NewTttRoom(newId, user, k, now)])
      ensures mode == JoinMode ==>
        (gameId == routeId && backend.rooms == Update(old(backend.rooms), routeId, JoinWrite(JoinerEntry(user))))
      ensures mode != OnlineMode && mode != JoinMode ==> gameId == old(gameId) && backend.rooms == old(backend.rooms)
    {
      if mode == OnlineMode {
        gameId := newId;
        backend.rooms := backend.rooms[newId := NewTttRoom(newId, user, k, now)];
      } else if mode == JoinMode {
        gameId := routeId;
        var me := JoinerEntry(user);
        if gameId in backend.rooms && !Contains(backend.rooms[gameId].players, me.id) {
          backend.rooms := Update(backend.rooms, gameId, JoinWrite(me));
        }
      }
    }

    /**
     * `checkWinner`, run after every change of the board: a complete line sets
     * the winner and its text; a full board sets "draw" (the text is left as
     * it was); otherwise nothing changes.
     */
    method CheckWinner()
      requires Valid()
      modifies this`winner, this`winnerText
      ensures Valid()
      ensures Judge(board).Won? ==> winner == Some(WonBy(Judge(board).mark)) && winnerText == Some(WinText(Judge(board).mark))
      ensures Judge(board) == Draw ==> winner == Some(Drawn) && winnerText == old(winnerText)
      ensures Judge(board) == Undecided ==> winner == old(winner) && winnerText == old(winnerText)
    {
      var v := FindWinner(board);
      match v
      case Won(m) =>
        winner := Some(WonBy(m));
        winnerText := Some(WinText(m));
      case Draw =>
        winner := Some(Drawn);
      case Undecided =>
    }

    /**
     * `handleSquarePress`: an empty cell on an undecided game gets the mark of
     * the side to move, and the turn passes; otherwise nothing changes.
     */
    method SquarePress(index: nat)
      requires Valid() && index < 9
      modifies this`board, this`isPlayerTurn
      ensures Valid()
      ensures old(board[index]) != Empty || old(winner).Some? ==> board == old(board) && isPlayerTurn == old(isPlayerTurn)
      ensures old(board[index]) == Empty && old(winner) == None ==>
        board == old(board)[index := if old(isPlayerTurn) then X else O] && isPlayerTurn == !old(isPlayerTurn)
      ensures old(Balanced()) ==> Balanced()
    {
      if board[index] == Empty && winner == None {
        var m := if isPlayerTurn then X else O;
        CountAfterPlace(board, index, m, X);
        CountAfterPlace(board, index, m, O);
        board := board[index := m];
        isPlayerTurn := !isPlayerTurn;
      }
    }

    /**
     * `handleReset`, given the room data its caller's closure sees: clears
     * the board and the winner (offline also gives the move back to X); only
     * the online and computer modes write the cleared board to the route's room.
     */
    method Reset(seen: Option<TttRoom>)
      requires Valid()
      modifies this`isPlayerTurn, this`board, this`winner, this`winnerText, backend`rooms
      ensures Valid()
      ensures board == InitialBoard() && winner == None && winnerText == None
      ensures isPlayerTurn == (if mode == OfflineMode then true else old(isPlayerTurn))
      ensures mode == OfflineMode ==> Balanced()
      ensures backend.rooms == if mode == OfflineMode || mode == JoinMode then old(backend.rooms)
                               else Update(old(backend.rooms), routeId, ResetWrite(ResetReady(seen)))
    {
      if mode == OfflineMode {
        isPlayerTurn := true;
      }
      board := InitialBoard();
      winner := None;
      winnerText := None;
      CountEmptyBoard(board, X);
      CountEmptyBoard(board, O);
      if mode == OfflineMode || mode == JoinMode {
        return;
      }
      backend.rooms := Update(backend.rooms, routeId, ResetWrite(ResetReady(seen)));
    }

    /** `handlePress`: only "restart" is handled; the "play" and "ready" buttons change nothing. */
    method Press(flag: Flag)
      requires Valid()
      modifies this`isPlayerTurn, this`board, this`winner, this`winnerText, backend`rooms
      ensures Valid()
      ensures flag != Restart ==>
        board == old(board) && isPlayerTurn == old(isPlayerTurn) && winner == old(winner)
        && winnerText == old(winnerText) && backend.rooms == old(backend.rooms)
      ensures flag == Restart ==> board == InitialBoard() && winner == None && winnerText == None
      ensures flag == Restart ==> isPlayerTurn == if mode == OfflineMode then true else old(isPlayerTurn)
      ensures flag == Restart ==>
        backend.rooms == if mode == OfflineMode || mode == JoinMode then old(backend.rooms)
                         else Update(old(backend.rooms), routeId, ResetWrite(ResetReady(gameData)))
      ensures flag == Restart && mode == OfflineMode ==> Balanced()
    {
      if flag == Restart {
        Reset(gameData);
      }
    }

    /**
     * The subscription callback, registered online and when joining. A deleted
     * room sends a joiner back. Otherwise the snapshot replaces the room data
     * and the board; a CREATED room clears the ready flag and resets, and that
     * reset, made by a closure created at mount, sees no room data. The
     * STOPPED branch's `checkWinner` reads the mount-time empty board and so
     * changes nothing (`EmptyBoardUndecided`).
     */
    method OnGameChange()
      requires Valid() && (mode == OnlineMode || mode == JoinMode)
      modifies this`gameData, this`board, this`ready, this`isPlayerTurn, this`winner, this`winnerText, this`exited,
        backend`rooms
      ensures Valid()
      ensures isPlayerTurn == old(isPlayerTurn)
      ensures gameId !in old(backend.rooms) ==>
        gameData == old(gameData) && board == old(board) && backend.rooms == old(backend.rooms)
        && ready == old(ready) && winner == old(winner) && winnerText == old(winnerText)
        && exited == (old(exited) || mode == JoinMode)
      ensures gameId in old(backend.rooms) ==>
        var data := old(backend.rooms)[gameId];
        && gameData == Some(data) && exited == old(exited)
        && (data.gameStatus != Created ==>
              board == data.filledPos && backend.rooms == old(backend.rooms) && ready == old(ready)
              && winner == old(winner) && winnerText == old(winnerText))
        && (data.gameStatus == Created ==>
              board == InitialBoard() && !ready && winner == None && winnerText == None
              && backend.rooms == (if mode == OnlineMode then Update(old(backend.rooms), routeId, ResetWrite(1))
                                   else old(backend.rooms)))
    {
      if gameId !in backend.rooms {
        if mode == JoinMode {
          exited := true;
        }
        return;
      }
      var data := backend.rooms[gameId];
      gameData := Some(data);
      board := data.filledPos;
      if data.gameStatus == Created {
        ready := false;
        Reset(None);
      }
    }

    /** `handleOnExit` */
    method Exit()
      modifies this`closeModalVisible, this`exited
      ensures !closeModalVisible && exited
    {
      closeModalVisible := false;
      exited := true;
    }

    /**
     * The back press: offline and against the computer it exits at once;
     * during a running round it never exits; with one player it exits;
     * otherwise it asks for confirmation. It always reports the event handled.
     */
    method BackPress() returns (handled: bool)
      modifies this`closeModalVisible, this`exited
      ensures handled
      ensures mode == OfflineMode || mode == ComputerMode ==> exited && !closeModalVisible
      ensures mode != OfflineMode && mode != ComputerMode && gameData == None ==>
        exited == old(exited) && closeModalVisible == old(closeModalVisible)
      ensures mode != OfflineMode && mode != ComputerMode && gameData.Some? && gameData.value.gameStatus == InProgress ==>
        exited == old(exited) && closeModalVisible == old(closeModalVisible)
      ensures mode != OfflineMode && mode != ComputerMode && gameData.Some? && gameData.value.gameStatus != InProgress ==>
        (|gameData.value.players| <= 1 ==> exited && !closeModalVisible)
        && (|gameData.value.players| > 1 ==> closeModalVisible && exited == old(exited))
    {
      handled := true;
      if mode == OfflineMode || mode == ComputerMode {
        Exit();
      }
      if gameData == None {
        return;
      }
      var data := gameData.value;
      if data.gameStatus == InProgress {
        return;
      }
      if |data.players| <= 1 {
        Exit();
        return;
      }
      if mode == OnlineMode || mode == JoinMode {
        closeModalVisible := true;
      }
    }

    /** The network-status listener. */
    method SetConnection(isConnected: bool)
      modifies this`connection
      ensures connection == isConnected
    {
      connection := isConnected;
    }

    /**
     * The unmount cleanup (registered only online and when joining): the host
     * deletes its room; a joiner writes the snapshot's players without its own entries.
     */
    method Unmount()
      requires Valid()
      modifies backend`rooms
      ensures Valid()
      ensures mode == OnlineMode && gameId != "" ==> backend.rooms == old(backend.rooms) - {gameId}
      ensures mode == JoinMode && gameId != "" && gameData.Some? ==>
        backend.rooms == Update(old(backend.rooms), gameId, LeaveWrite(gameData.value, user.uid))
      ensures !(mode == OnlineMode && gameId != "") && !(mode == JoinMode && gameId != "" && gameData.Some?) ==>
        backend.rooms == old(backend.rooms)
    {
      if mode == OnlineMode && gameId != "" {
        backend.rooms := backend.rooms - {gameId};
      }
      if mode == JoinMode && gameId != "" && gameData.Some? {
        backend.rooms := Update(backend.rooms, gameId, LeaveWrite(gameData.value, user.uid));
      }
    }
  }
}
