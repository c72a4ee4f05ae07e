/**
 * The Stop room document and the edits each client writes into it. Every
 * write of the screen is a shallow merge of a few fields; each function here
 * gives the document after one such merge.
 */
module StopRoom {
  import opened Wrappers
  import opened Roster
  import opened Rooms

  datatype StopRoom = StopRoom(
    gameId: string,
    round: int,
    currentLetter: string,
    currentTime: int,
    gameStatus: GameStatus,
    playersReady: int,
    players: seq<Player>,
    host: string,
    startTime: int,
    timestamp: int)

  /** The answers state of a fresh screen: ten empty strings. */
  function EmptyInputs(): (r: Inputs)
    ensures |r| == CategoryCount
    ensures forall k :: 0 <= k < |r| ==> r[k] == ""
  {
    seq(CategoryCount, _ => "")
  }

  /** The entry a user writes for itself, with 0 points and the answers it holds. */
  function Entry(user: Identity, inputs: Inputs): (p: Player)
    ensures p.id == user.uid && p.points == 0 && p.inputs == Some(inputs)
  {
    Player(user.uid, user.displayName, 0, user.photoURL, Some(inputs))
  }

  /** The document the host writes when it opens an online room. */
  function NewRoom(gameId: string, gameTime: int, user: Identity, inputs: Inputs, now: int): (r: StopRoom)
    ensures r.gameId == gameId && r.round == 0 && r.gameStatus == Created
    ensures r.currentLetter == "-" && r.currentTime == gameTime && r.startTime == 0
    ensures r.playersReady == 1 && r.players == [Entry(user, inputs)]
    ensures r.host == HostName(user)
    ensures UniqueIds(r.players) && r.playersReady == |r.players|
  {
    StopRoom(gameId, 0, "-", gameTime, Created, 1, [Entry(user, inputs)], HostName(user), 0, now)
  }

  /** The joiner's write: its entry appended to the players it read, unless already there. */
  function JoinRoom(data: StopRoom, me: Player): (r: StopRoom)
    ensures r.gameId == data.gameId && r.round == data.round && r.gameStatus == data.gameStatus
    ensures r.playersReady == data.playersReady && r.host == data.host
    ensures Contains(r.players, me.id) && |data.players| <= |r.players| && r.players[..|data.players|] == data.players
    ensures Contains(data.players, me.id) ==> r == data
    ensures !Contains(data.players, me.id) ==> |r.players| == |data.players| + 1 && r.players[|data.players|] == me
    ensures r.(players := data.players) == data
  {
    data.(players := Join(data.players, me))
  }

  /** The host's "play" gate: host, at least two players, and everyone ready. */
  predicate CanStart(room: StopRoom, uid: Uid) {
    IsHost(room.host, uid) && |room.players| >= 2 && |room.players| == room.playersReady
  }

  const Letters: string := "ABCDEFGHIJKLMNOPQRSTUVWXYZ"

  /** `letters.charAt(k)` for the random index `k` the screen draws. */
  function PickLetter(k: nat): (s: string)
    requires k < |Letters|
    ensures |s| == 1 && 'A' <= s[0] <= 'Z'
  {
    [Letters[k]]
  }

  /** The host's "play" write: status IN_PROGRESS, the drawn letter, the server start time. */
  function Start(room: StopRoom, letter: string, serverTime: int): (r: StopRoom)
    ensures r.gameStatus == InProgress && r.currentLetter == letter && r.startTime == serverTime
    ensures r.players == room.players && r.playersReady == room.playersReady
    ensures r.round == room.round && r.host == room.host && r.currentTime == room.currentTime
    ensures r.(gameStatus := room.gameStatus, currentLetter := room.currentLetter, startTime := room.startTime) == room
  {
    room.(gameStatus := InProgress, currentLetter := letter, startTime := serverTime)
  }

  /** The "stop" write (a player's press, or the host's timer running out). */
  function Halt(room: StopRoom): (r: StopRoom)
    ensures r.gameStatus == Stopped && r.playersReady == 1
    ensures r.players == room.players && r.round == room.round && r.host == room.host
    ensures r.currentLetter == room.currentLetter && r.startTime == room.startTime
    ensures r.(gameStatus := room.gameStatus, playersReady := room.playersReady) == room
  {
    room.(gameStatus := Stopped, playersReady := 1)
  }

  /** The "ready" write: one more than the readiness count of the snapshot the player sees. */
  function MarkReady(stored: StopRoom, seen: StopRoom): (r: StopRoom)
    ensures r.playersReady == seen.playersReady + 1
    ensures r.(playersReady := stored.playersReady) == stored
  {
    stored.(playersReady := seen.playersReady + 1)
  }

  /** The countdown's write: one more than the round of the snapshot that started it. */
  function BumpRound(stored: StopRoom, seen: StopRoom): (r: StopRoom)
    ensures r.round == seen.round + 1
    ensures r.(round := stored.round) == stored
  {
    stored.(round := seen.round + 1)
  }

  /** The points write: the snapshot's players with the user's entry credited. */
  function CreditPoints(stored: StopRoom, seen: StopRoom, uid: Uid, toAdd: int): (r: StopRoom)
    ensures r.players == SumPoints(seen.players, uid, toAdd)
    ensures r.(players := stored.players) == stored
  {
    stored.(players := SumPoints(seen.players, uid, toAdd))
  }

  /** The readiness count a leaving joiner writes. */
  function ReadyAfterLeave(seen: StopRoom): (n: int)
    ensures seen.playersReady > 1 ==> n == |seen.players| - 1
    ensures seen.playersReady <= 1 ==> n == 1
  {
    if seen.playersReady > 1 then |seen.players| - 1 else 1
  }

  /** A joiner's leave write: its entries filtered out of the snapshot's players, readiness recounted. */
  function LeaveRoom(stored: StopRoom, seen: StopRoom, uid: Uid): (r: StopRoom)
    ensures r.players == Leave(seen.players, uid)
    ensures r.playersReady == ReadyAfterLeave(seen)
    ensures r.(players := stored.players, playersReady := stored.playersReady) == stored
  {
    stored.(players := Leave(seen.players, uid), playersReady := ReadyAfterLeave(seen))
  }

  /** One partial document a client merges into the stored room. */
  datatype Write =
    | JoinWrite(me: Player)
    | StartWrite(letter: string, serverTime: int)
    | HaltWrite
    | ReadyWrite(seen: StopRoom)
    | RoundWrite(seen: StopRoom)
    | CreditWrite(seen: StopRoom, uid: Uid, toAdd: int)
    | LeaveWrite(seen: StopRoom, uid: Uid)

  /** The stored room after the merge. */
  function Apply(stored: StopRoom, w: Write): (r: StopRoom)
    ensures !w.RoundWrite? ==> r.round == stored.round
    ensures r.gameId == stored.gameId && r.host == stored.host
  {
    match w
    case JoinWrite(me) => JoinRoom(stored, me)
    case StartWrite(letter, t) => Start(stored, letter, t)
    case HaltWrite => Halt(stored)
    case ReadyWrite(seen) => MarkReady(stored, seen)
    case RoundWrite(seen) => BumpRound(stored, seen)
    case CreditWrite(seen, uid, toAdd) => CreditPoints(stored, seen, uid, toAdd)
    case LeaveWrite(seen, uid) => LeaveRoom(stored, seen, uid)
  }

  /** `Fire.updateGame("stop", key, …)`: a merge into one room; a room that no longer exists is left absent. */
  function Update(rooms: map<string, StopRoom>, key: string, w: Write): (r: map<string, StopRoom>)
    ensures r.Keys == rooms.Keys
    ensures key in rooms ==> r[key] == Apply(rooms[key], w)
    ensures forall k :: k in rooms && k != key ==> r[k] == rooms[k]
  {
    if key in rooms then rooms[key := Apply(rooms[key], w)] else rooms
  }

  /**
   * Seconds left on a device: `currentTime - floor((now + offset - startTime) / 1000)`.
   * The result is the unique value whose elapsed-seconds complement brackets the
   * elapsed milliseconds.
   */
  function RemainingTime(currentTime: int, now: int, offset: int, startTime: int): (t: int)
    ensures 1000 * (currentTime - t) <= now + offset - startTime < 1000 * (currentTime - t + 1)
  {
    currentTime - (now + offset - startTime) / 1000
  }

  /** The worked case: offset 500 ms, 60 s round, local clock 58.5 s after the start gives 1 s. */
  lemma RemainingTimeExample(startTime: int)
    ensures RemainingTime(60, startTime + 58500, 500, startTime) == 1
  {
  }

  /** Time left never goes up as the local clock advances. */
  lemma RemainingTimeMonotone(currentTime: int, now1: int, now2: int, offset: int, startTime: int)
    requires now1 <= now2
    ensures RemainingTime(currentTime, now2, offset, startTime) <= RemainingTime(currentTime, now1, offset, startTime)
  {
    var t1 := RemainingTime(currentTime, now1, offset, startTime);
    var t2 := RemainingTime(currentTime, now2, offset, startTime);
    assert 1000 * (currentTime - t1) < 1000 * (currentTime - t2 + 1);
  }

  /** Once the clock reaches the round length the time left is at most 0. */
  lemma RemainingTimeExpires(currentTime: int, now: int, offset: int, startTime: int)
    requires now + offset - startTime >= 1000 * currentTime
    ensures RemainingTime(currentTime, now, offset, startTime) <= 0
  {
  }

  /** Every room is stored under its own id, as `Fire.setGame("stop", gameId, { gameId, … })` writes it. */
  predicate KeyedById(rooms: map<string, StopRoom>) {
    forall k :: k in rooms ==> rooms[k].gameId == k
  }

  /** No stored round went down between two states of the store. */
  predicate RoundsKept(before: map<string, StopRoom>, after: map<string, StopRoom>) {
    forall k :: k in before && k in after ==> before[k].round <= after[k].round
  }

  /**
   * Only the countdown's write moves `round`, and when its snapshot is the
   * stored room it moves it up by one: rounds never decrease.
   */
  lemma UpdateKeepsRounds(rooms: map<string, StopRoom>, key: string, w: Write)
    requires w.RoundWrite? && key in rooms ==> w.seen == rooms[key]
    ensures RoundsKept(rooms, Update(rooms, key, w))
    ensures w.RoundWrite? && key in rooms ==> Update(rooms, key, w)[key].round == rooms[key].round + 1
  {
  }

  /** A fresh room cannot be started: the host is alone. */
  lemma FreshRoomCannotStart(gameId: string, gameTime: int, user: Identity, inputs: Inputs, now: int, uid: Uid)
    ensures !CanStart(NewRoom(gameId, gameTime, user, inputs, now), uid)
  {
  }

  /** A fresh room, one new joiner, one "ready": the signed-in host may now start. */
  lemma JoinAndReadyEnableStart(gameId: string, gameTime: int, host: Identity, joiner: Identity, inputs: Inputs, now: int)
    requires Truthy(host.uid) && joiner.uid != host.uid
    ensures
      var r0 := NewRoom(gameId, gameTime, host, inputs, now);
      var r1 := JoinRoom(r0, Entry(joiner, inputs));
      CanStart(MarkReady(r1, r1), host.uid)
  {
    var r0 := NewRoom(gameId, gameTime, host, inputs, now);
    assert !Contains(r0.players, joiner.uid);
  }

  /**
   * When every player is ready and a ready joiner with a unique id leaves, the
   * recount leaves every remaining player counted as ready.
   */
  lemma LeaveOfReadyRoom(seen: StopRoom, uid: Uid)
    requires UniqueIds(seen.players) && Contains(seen.players, uid)
    requires |seen.players| >= 2 && seen.playersReady == |seen.players|
    ensures ReadyAfterLeave(seen) == |Leave(seen.players, uid)|
  {
    UniqueCountAtMostOne(seen.players, uid);
    LeaveLength(seen.players, uid);
  }

  /**
   * The recount does not know whether the leaver was ready: with four players of
   * whom two are ready, a not-ready joiner's leave records three ready players,
   * the number remaining, so the play gate opens with one of them not ready.
   */
  lemma LeaveRecountCanOvercount(a: Player, b: Player, c: Player, d: Player, stored: StopRoom)
    requires UniqueIds([a, b, c, d])
    requires stored.host == "h" && a.id == Some("h")
    ensures
      var seen := stored.(players := [a, b, c, d], playersReady := 2);
      var after := LeaveRoom(seen, seen, c.id);
      |after.players| == 3 && after.playersReady == 3 && CanStart(after, a.id)
  {
    var seen := stored.(players := [a, b, c, d], playersReady := 2);
    LeaveLength(seen.players, c.id);
    UniqueCountAtMostOne(seen.players, c.id);
    assert seen.players[2].id == c.id;
  }

  /** The "stop" press as written: the merge is sent to the room named by the route parameter. */
  function PressStopAsWritten(rooms: map<string, StopRoom>, routeId: string): (r: map<string, StopRoom>)
    ensures routeId !in rooms ==> r == rooms
    ensures r.Keys == rooms.Keys
    ensures routeId in rooms ==> r[routeId] == Halt(rooms[routeId])
  {
    Update(rooms, routeId, HaltWrite)
  }

  /**
   * The host's route parameter is the lobby's (usually empty) join-code field,
   * not the id of the room it created, so its "stop" press leaves its own room
   * running.
   */
  lemma HostStopPressIsLost(room: StopRoom)
    requires room.gameId == "ab12cd" && room.gameStatus == InProgress
    ensures
      var rooms := map["ab12cd" := room];
      PressStopAsWritten(rooms, "")["ab12cd"].gameStatus == InProgress
  {
  }

  /** The "stop" press as intended: the merge is sent to the room the snapshot came from. */
  function PressStopWrite(rooms: map<string, StopRoom>, seen: StopRoom): (r: map<string, StopRoom>)
    ensures r.Keys == rooms.Keys
    ensures seen.gameId in rooms ==> r[seen.gameId].gameStatus == Stopped && r[seen.gameId].playersReady == 1
    ensures forall k :: k in rooms && k != seen.gameId ==> r[k] == rooms[k]
  {
    Update(rooms, seen.gameId, HaltWrite)
  }

  /** With the intended target, every player's press stops the room it sees, host or not. */
  lemma StopPressStopsSeenRoom(rooms: map<string, StopRoom>, seen: StopRoom, routeId: string)
    requires seen.gameId in rooms
    ensures PressStopWrite(rooms, seen)[seen.gameId].gameStatus == Stopped
    ensures routeId == seen.gameId ==> PressStopWrite(rooms, seen) == PressStopAsWritten(rooms, routeId)
  {
  }
}
