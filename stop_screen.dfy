/**
 * One device's Stop screen: the React state and refs of the component as the
 * fields of a class, each handler as a method, and the remote store as a
 * second object the handlers write to. The interval timer becomes `Tick(now)`,
 * the store subscription becomes `OnGameChange`, and the server clock reads
 * become parameters.
 */
module StopScreen {
  import opened Wrappers
  import opened Roster
  import opened Rooms
  import opened StopRoom
  import opened JsString

  /** The remote store of Stop rooms, keyed by room id, and the answers each player uploads per room. */
  class StopBackend {
    var rooms: map<string, StopRoom>
    var answers: map<(string, string), Inputs>

    constructor ()
      ensures rooms == map[] && answers == map[]
    {
      rooms := map[];
      answers := map[];
    }
  }

  /** What the countdown label shows: a number, or the round's letter once the count is over. */
  datatype Face = Count(n: int) | Shown(letter: string)

  /** `timerRef`: no interval, the 3-2-1 countdown, or the per-second round clock. */
  datatype Timer =
    | NoTimer
    | Countdown(counter: int, data: StopRoom, offset: int)
    | RoundClock(data: StopRoom, offset: int)

  /** `Object.values(inputs).every((value) => !value || value.trim() === "")` */
  predicate AllBlank(inputs: Inputs) {
    forall k :: 0 <= k < |inputs| ==> Trim(inputs[k]) == ""
  }

  class StopSession {
    const mode: Mode
    const routeId: string
    const user: Identity
    const backend: StopBackend

    var gameId: string
    var gameData: Option<StopRoom>
    var points: int
    var countdown: Face
    var timeLeft: int
    var letter: string
    var ready: bool
    var isStarting: bool
    var connection: bool
    var inputs: Inputs
    var restartModalVisible: bool
    var closeModalVisible: bool
    var inputsPlayer: Option<Player>
    var inputsModalVisible: bool
    var countdownStarted: bool
    var timer: Timer
    var exited: bool

    /**
     * The answers have their ten slots, the 3-2-1 count is running only while
     * the screen is starting, and the store keeps every room under its own id.
     */
    ghost predicate Valid()
      reads this, backend
    {
      && mode != ComputerMode
      && KeyedById(backend.rooms)
      && |inputs| == CategoryCount
      && (timer.Countdown? ==> 1 <= timer.counter <= 3 && isStarting)
    }

    /** The component's initial state, before its mount effect runs. */
    constructor (mode: Mode, routeId: string, user: Identity, backend: StopBackend)
      requires mode != ComputerMode && KeyedById(backend.rooms)
      ensures Valid()
      ensures this.mode == mode && this.routeId == routeId && this.user == user && this.backend == backend
      ensures gameId == routeId && gameData == None && points == 0
      ensures countdown == Count(3) && timeLeft == 300 && letter == "-"
      ensures !ready && !isStarting && connection && inputs == EmptyInputs()
      ensures !countdownStarted && timer == NoTimer && !exited
    {
      this.mode := mode;
      this.routeId := routeId;
      this.user := user;
      this.backend := backend;
      gameId := routeId;
      gameData := None;
      points := 0;
      countdown := Count(3);
      timeLeft := 300;
      letter := "-";
      ready := false;
      isStarting := false;
      connection := true;
      inputs := EmptyInputs();
      restartModalVisible := false;
      closeModalVisible := false;
      inputsPlayer := None;
      inputsModalVisible := false;
      countdownStarted := false;
      timer := NoTimer;
      exited := false;
    }

    /**
     * The mount effect: the host writes a fresh room under a new id; a joiner
     * reads the room and appends itself if absent. `newId` is the six-character
     * id the host's device draws; `now` is `Date.now()`.
     */
    method Mount(gameTime: int, newId: string, now: int)
      requires Valid()
      modifies this`timeLeft, this`gameId, backend`rooms
      ensures Valid()
      ensures timeLeft == gameTime
      ensures mode == OnlineMode ==>
        (gameId == newId && backend.rooms == old(backend.rooms)[newId := NewRoom(newId, gameTime, user, inputs, now)])
      ensures mode == JoinMode ==>
        (gameId == routeId && backend.rooms == Update(old(backend.rooms), routeId, JoinWrite(Entry(user, inputs))))
      ensures mode == OfflineMode ==> gameId == old(gameId) && backend.rooms == old(backend.rooms)
    {
      timeLeft := gameTime;
      if mode == OnlineMode {
        gameId := newId;
        backend.rooms := backend.rooms[newId := NewRoom(newId, gameTime, user, inputs, now)];
      } else if mode == JoinMode {
        gameId := routeId;
        var me := Entry(user, inputs);
        if gameId in backend.rooms {
          var data := backend.rooms[gameId];
          if !Contains(data.players, me.id) {
            backend.rooms := Update(backend.rooms, gameId, JoinWrite(me));
          }
        }
      }
    }

    /** `handleRestartInputs`: close the restart dialog and clear every answer. */
    method RestartInputs()
      requires Valid()
      modifies this`restartModalVisible, this`inputs
      ensures Valid()
      ensures !restartModalVisible && inputs == EmptyInputs()
    {
      restartModalVisible := false;
      inputs := EmptyInputs();
    }

    /**
     * `handleCountdownSync`: start the 3-2-1 count for the round `data` announces
     * and write `round` one past the snapshot's. `offset` is the server clock
     * offset the store reports for the host.
     */
    method CountdownSync(data: StopRoom, offset: int)
      requires Valid()
      modifies this`countdown, this`isStarting, this`restartModalVisible, this`inputs, this`timer, backend`rooms
      ensures Valid()
      ensures countdown == Count(3) && isStarting && !restartModalVisible && inputs == EmptyInputs()
      ensures timer == Countdown(3, data, offset)
      ensures backend.rooms == Update(old(backend.rooms), data.gameId, RoundWrite(data))
    {
      countdown := Count(3);
      isStarting := true;
      RestartInputs();
      backend.rooms := Update(backend.rooms, data.gameId, RoundWrite(data));
      timer := Countdown(3, data, offset);
    }

    /**
     * `stopTimer`: a signed-in player uploads its answers for the room, the
     * interval is cleared and the ready flag drops. A signed-out session does nothing.
     */
    method StopTimer(data: StopRoom)
      requires Valid()
      modifies this`timer, this`ready, backend`answers
      ensures Valid()
      ensures !Truthy(user.uid) ==> timer == old(timer) && ready == old(ready) && backend.answers == old(backend.answers)
      ensures Truthy(user.uid) ==>
        (timer == NoTimer && !ready && backend.answers == old(backend.answers)[(data.gameId, user.uid.value) := inputs])
    {
      if !Truthy(user.uid) {
        return;
      }
      backend.answers := backend.answers[(data.gameId, user.uid.value) := inputs];
      timer := NoTimer;
      ready := false;
    }

    /**
     * The subscription callback, run with whatever the store holds under the
     * room id. A deleted room sends a joiner back; an IN_PROGRESS snapshot with
     * the flag down starts the countdown; a STOPPED one with the flag up stops
     * the timer. The callback was created at mount, so the `isStarting` it
     * tests is the mount-time `false`: the countdown always starts on a rise.
     */
    method OnGameChange(offset: int)
      requires Valid() && mode != OfflineMode
      modifies this`gameData, this`countdownStarted, this`countdown, this`isStarting, this`restartModalVisible,
        this`inputs, this`timer, this`timeLeft, this`ready, this`exited, backend`rooms, backend`answers
      ensures Valid()
      ensures gameId !in old(backend.rooms) ==>
        backend.rooms == old(backend.rooms) && backend.answers == old(backend.answers)
        && gameData == old(gameData) && countdownStarted == old(countdownStarted)
        && countdown == old(countdown) && isStarting == old(isStarting) && inputs == old(inputs)
        && restartModalVisible == old(restartModalVisible) && timeLeft == old(timeLeft) && ready == old(ready)
        && (mode == JoinMode ==> exited && timer == NoTimer)
        && (mode != JoinMode ==> exited == old(exited) && timer == old(timer))
      ensures gameId in old(backend.rooms) ==>
        var data := old(backend.rooms)[gameId];
        var edge := CountdownEdge(old(countdownStarted), data.gameStatus);
        && gameData == Some(data)
        && countdownStarted == AfterEdge(old(countdownStarted), edge)
        && exited == old(exited)
        && (edge == Rise ==>
              (backend.rooms == old(backend.rooms)[gameId := data.(round := data.round + 1)]
               && backend.answers == old(backend.answers)
               && timer == Countdown(3, data, offset) && countdown == Count(3) && timeLeft == data.currentTime
               && isStarting && !restartModalVisible && inputs == EmptyInputs() && ready == old(ready)))
        && (edge != Rise ==>
              (backend.rooms == old(backend.rooms) && timeLeft == old(timeLeft) && inputs == old(inputs)
               && isStarting == old(isStarting) && restartModalVisible == old(restartModalVisible)))
        && (edge == Fall ==>
              (countdown == Count(3)
               && (Truthy(user.uid) ==>
                     timer == NoTimer && !ready
                     && backend.answers == old(backend.answers)[(data.gameId, user.uid.value) := old(inputs)])
               && (!Truthy(user.uid) ==>
                     timer == old(timer) && ready == old(ready) && backend.answers == old(backend.answers))))
        && (edge == Hold ==>
              (timer == old(timer) && ready == old(ready) && backend.answers == old(backend.answers)
               && countdown == old(countdown)))
      ensures RoundsKept(old(backend.rooms), backend.rooms)
    {
      if gameId !in backend.rooms {
        if mode == JoinMode {
          exited := true;
          timer := NoTimer;
        }
        return;
      }
      var data := backend.rooms[gameId];
      gameData := Some(data);
      var edge := CountdownEdge(countdownStarted, data.gameStatus);
      if edge == Rise {
        countdownStarted := true;
        CountdownSync(data, offset);
        timeLeft := data.currentTime;
      } else if edge == Fall {
        countdownStarted := false;
        countdown := Count(3);
        StopTimer(data);
      }
    }

    /**
     * One tick of the running interval at local clock `now`. The countdown
     * counts down to 0 and then hands over to the round clock; the round clock
     * shows the time left and, at 0 or below, stops: the host also writes the
     * room STOPPED.
     */
    method Tick(now: int)
      requires Valid()
      modifies this`countdown, this`timer, this`letter, this`isStarting, this`timeLeft, this`ready,
        backend`rooms, backend`answers
      ensures Valid()
      ensures old(timer) == NoTimer ==>
        (timer == NoTimer && backend.rooms == old(backend.rooms) && backend.answers == old(backend.answers)
         && timeLeft == old(timeLeft) && countdown == old(countdown) && letter == old(letter)
         && isStarting == old(isStarting) && ready == old(ready))
      ensures old(timer).Countdown? ==>
        var Countdown(c, data, offset) := old(timer);
        && backend.rooms == old(backend.rooms) && backend.answers == old(backend.answers)
        && timeLeft == old(timeLeft) && ready == old(ready)
        && (c > 1 ==>
              (timer == Countdown(c - 1, data, offset) && countdown == Count(c - 1) && isStarting
               && letter == old(letter)))
        && (c == 1 ==>
              (timer == RoundClock(data, offset) && countdown == Shown(data.currentLetter)
               && letter == data.currentLetter && !isStarting))
      ensures old(timer).RoundClock? ==>
        var RoundClock(data, offset) := old(timer);
        var t := RemainingTime(data.currentTime, now, offset, data.startTime);
        && countdown == old(countdown) && letter == old(letter) && isStarting == old(isStarting)
        && (t > 0 ==>
              (timeLeft == t && timer == old(timer) && ready == old(ready)
               && backend.rooms == old(backend.rooms) && backend.answers == old(backend.answers)))
        && (t <= 0 ==>
              (timeLeft == 0
               && (Truthy(user.uid) ==>
                     timer == NoTimer && !ready
                     && backend.answers == old(backend.answers)[(data.gameId, user.uid.value) := inputs])
               && (!Truthy(user.uid) ==>
                     timer == old(timer) && ready == old(ready) && backend.answers == old(backend.answers))
               && backend.rooms == (if IsHost(data.host, user.uid) then Update(old(backend.rooms), data.gameId, HaltWrite)
                                    else old(backend.rooms))))
      ensures RoundsKept(old(backend.rooms), backend.rooms)
    {
      match timer
      case NoTimer =>
      case Countdown(c, data, offset) =>
        countdown := Count(c - 1);
        if c - 1 == 0 {
          timer := RoundClock(data, offset);
          countdown := Shown(data.currentLetter);
          letter := data.currentLetter;
          isStarting := false;
        } else {
          timer := Countdown(c - 1, data, offset);
        }
      case RoundClock(data, offset) =>
        var t := RemainingTime(data.currentTime, now, offset, data.startTime);
        timeLeft := t;
        if t <= 0 {
          StopTimer(data);
          if IsHost(data.host, user.uid) {
            backend.rooms := Update(backend.rooms, data.gameId, HaltWrite);
          }
          timeLeft := 0;
        }
    }

    /**
     * The "play" press. Only the host may start, only with two or more players
     * all ready; it then writes IN_PROGRESS, the letter `Letters[k]` and the
     * server time. Any other case writes nothing.
     */
    method PressPlay(k: nat, serverTime: int)
      requires Valid() && k < |Letters|
      modifies backend`rooms
      ensures gameData.Some? && CanStart(gameData.value, user.uid) ==>
        backend.rooms == Update(old(backend.rooms), gameData.value.gameId, StartWrite(PickLetter(k), serverTime))
      ensures !(gameData.Some? && CanStart(gameData.value, user.uid)) ==> backend.rooms == old(backend.rooms)
      ensures RoundsKept(old(backend.rooms), backend.rooms)
    {
      if gameData == None {
        return;
      }
      var data := gameData.value;
      if IsHost(data.host, user.uid) {
        if |data.players| < 2 {
          return;
        }
        if |data.players| != data.playersReady {
          return;
        }
        var letter := PickLetter(k);
        backend.rooms := Update(backend.rooms, data.gameId, StartWrite(letter, serverTime));
      }
    }

    /**
     * The "stop" press: the room the snapshot came from becomes STOPPED with one
     * player ready. (The screen sends this write to the route's room id; see
     * `StopRoom.PressStopAsWritten` for why that misses the host's own room.)
     */
    method PressStop()
      requires Valid()
      modifies backend`rooms
      ensures gameData.Some? ==> backend.rooms == PressStopWrite(old(backend.rooms), gameData.value)
      ensures gameData == None ==> backend.rooms == old(backend.rooms)
      ensures RoundsKept(old(backend.rooms), backend.rooms)
    {
      if gameData == None {
        return;
      }
      backend.rooms := PressStopWrite(backend.rooms, gameData.value);
    }

    /** The "ready" press: one more ready player than the snapshot shows, and the button hides. */
    method PressReady()
      requires Valid()
      modifies this`ready, backend`rooms
      ensures gameData.Some? ==>
        (ready && backend.rooms == Update(old(backend.rooms), gameData.value.gameId, ReadyWrite(gameData.value)))
      ensures gameData == None ==> ready == old(ready) && backend.rooms == old(backend.rooms)
      ensures RoundsKept(old(backend.rooms), backend.rooms)
    {
      if gameData == None {
        return;
      }
      var data := gameData.value;
      backend.rooms := Update(backend.rooms, data.gameId, ReadyWrite(data));
      ready := true;
    }

    /** The "restart" press: asks for confirmation unless every answer is already blank. */
    method PressRestart()
      requires Valid()
      modifies this`restartModalVisible
      ensures Valid()
      ensures restartModalVisible == (old(restartModalVisible) || !AllBlank(inputs))
    {
      if !AllBlank(inputs) {
        restartModalVisible := true;
      }
    }

    /** Whether the answer fields accept typing: always offline, else only in a started round. */
    predicate Editable()
      reads this
    {
      mode == OfflineMode || (gameData.Some? && gameData.value.gameStatus == InProgress && !isStarting)
    }

    /** Typing into answer field `k`. */
    method SetAnswer(k: nat, text: string)
      requires Valid() && k < CategoryCount
      modifies this`inputs
      ensures Valid()
      ensures inputs == if old(Editable()) then old(inputs)[k := text] else old(inputs)
    {
      if Editable() {
        inputs := inputs[k := text];
      }
    }

    /**
     * `handleSumPoints`: the local score grows by `toAdd` (25, 50, 75 or 100 on
     * the buttons); online, the user's entry in the snapshot's players is
     * credited and written back.
     */
    method AddPoints(toAdd: nat)
      requires Valid()
      modifies this`points, backend`rooms
      ensures var online := gameData.Some? && Truthy(user.uid);
        && points == (if mode == OfflineMode || online then old(points) + toAdd else old(points))
        && (online ==>
              backend.rooms == Update(old(backend.rooms), gameData.value.gameId, CreditWrite(gameData.value, user.uid, toAdd)))
        && (!online ==> backend.rooms == old(backend.rooms))
      ensures RoundsKept(old(backend.rooms), backend.rooms)
    {
      var before := points;
      if mode == OfflineMode {
        points := before + toAdd;
      }
      if gameData == None {
        return;
      }
      if !Truthy(user.uid) {
        return;
      }
      points := before + toAdd;
      var data := gameData.value;
      backend.rooms := Update(backend.rooms, data.gameId, CreditWrite(data, user.uid, toAdd));
    }

    /** `handleOnExit`: close the dialog, clear the interval and navigate back. */
    method Exit()
      requires Valid()
      modifies this`closeModalVisible, this`timer, this`exited
      ensures Valid()
      ensures !closeModalVisible && timer == NoTimer && exited
    {
      closeModalVisible := false;
      timer := NoTimer;
      exited := true;
    }

    /**
     * The back press (hardware or header button); it always reports the event
     * handled. Offline it exits at once. During a running round it never exits;
     * with one player left it exits; otherwise it asks for confirmation.
     */
    method BackPress() returns (handled: bool)
      requires Valid()
      modifies this`closeModalVisible, this`timer, this`exited
      ensures Valid()
      ensures handled
      ensures mode == OfflineMode ==> exited && timer == NoTimer && !closeModalVisible
      ensures mode != OfflineMode && gameData == None ==>
        exited == old(exited) && timer == old(timer) && closeModalVisible == old(closeModalVisible)
      ensures mode != OfflineMode && gameData.Some? && gameData.value.gameStatus == InProgress ==>
        exited == old(exited) && timer == old(timer) && closeModalVisible == old(closeModalVisible)
      ensures mode != OfflineMode && gameData.Some? && gameData.value.gameStatus != InProgress ==>
        (|gameData.value.players| <= 1 ==> exited && timer == NoTimer && !closeModalVisible)
        && (|gameData.value.players| > 1 ==> closeModalVisible && exited == old(exited) && timer == old(timer))
    {
      handled := true;
      if mode == OfflineMode {
        Exit();
      }
      if gameData == None {
        return;
      }
      var data := gameData.value;
      if data.gameStatus == InProgress {
        return;
      }
      if |data.players| <= 1 {
        Exit();
        return;
      }
      if mode == OnlineMode || mode == JoinMode {
        closeModalVisible := true;
      }
    }

    /** Opening another player's answers: only online, connected, after a round has stopped. */
    method OpenPlayerInputs(player: Player)
      requires Valid()
      modifies this`inputsPlayer, this`inputsModalVisible
      ensures var allowed := mode != OfflineMode && connection
          && !(gameData.Some? && gameData.value.gameStatus in {InProgress, Created})
          && player.id != user.uid;
        && (allowed ==> inputsPlayer == Some(player) && inputsModalVisible)
        && (!allowed ==> inputsPlayer == old(inputsPlayer) && inputsModalVisible == old(inputsModalVisible))
    {
      if mode == OfflineMode { return; }
      if !connection { return; }
      if gameData.Some? && gameData.value.gameStatus == InProgress { return; }
      if gameData.Some? && gameData.value.gameStatus == Created { return; }
      if player.id == user.uid { return; }
      inputsPlayer := Some(player);
      inputsModalVisible := true;
    }

    /** The network-status listener. */
    method SetConnection(isConnected: bool)
      modifies this`connection
      ensures connection == isConnected
    {
      connection := isConnected;
    }

    /**
     * The unmount cleanup: the interval is cleared; the host deletes its room;
     * a joiner writes the snapshot's players without its own entries and the
     * recounted readiness.
     */
    method Unmount()
      requires Valid()
      modifies this`timer, backend`rooms
      ensures Valid()
      ensures timer == NoTimer
      ensures mode == OnlineMode && gameId != "" ==> backend.rooms == old(backend.rooms) - {gameId}
      ensures mode == JoinMode && gameId != "" && gameData.Some? ==>
        backend.rooms == Update(old(backend.rooms), gameId, LeaveWrite(gameData.value, user.uid))
      ensures !(mode == OnlineMode && gameId != "") && !(mode == JoinMode && gameId != "" && gameData.Some?) ==>
        backend.rooms == old(backend.rooms)
      ensures RoundsKept(old(backend.rooms), backend.rooms)
    {
      timer := NoTimer;
      if mode == OnlineMode && gameId != "" {
        backend.rooms := backend.rooms - {gameId};
      }
      if mode == JoinMode && gameId != "" && gameData.Some? {
        var data := gameData.value;
        backend.rooms := Update(backend.rooms, gameId, LeaveWrite(data, user.uid));
      }
    }
  }
}
