/**
 * What the Stop and Tic-Tac-Toe rooms share: the status enum, the signed-in
 * identity, the host rule, the round display, the remote store's update rule,
 * and the edge-triggered `countdownStarted` flag of the subscription handler.
 */
module Rooms {
  import opened Wrappers
  import opened Roster

  datatype GameStatus = Created | InProgress | Stopped

  /** The screen's mode route parameter. `ComputerMode` exists only for Tic-Tac-Toe. */
  datatype Mode = OfflineMode | OnlineMode | JoinMode | ComputerMode

  /** `getAuth().currentUser?.uid`, `?.displayName`, `?.photoURL`; all None when signed out. */
  datatype Identity = Identity(uid: Uid, displayName: Option<string>, photoURL: Option<string>)

  /** JavaScript truthiness of an optional string: neither undefined nor "". */
  predicate Truthy(s: Option<string>) {
    s.Some? && s.value != ""
  }

  /** `getAuth().currentUser?.uid || "no-host"`: the host field a new room records. */
  function HostName(user: Identity): (h: string)
    ensures Truthy(user.uid) ==> h == user.uid.value
    ensures !Truthy(user.uid) ==> h == "no-host"
    ensures h != ""
  {
    if Truthy(user.uid) then user.uid.value else "no-host"
  }

  /** `gameData.host === userId`: a signed-out user is never the host. */
  predicate IsHost(host: string, uid: Uid) {
    uid == Some(host)
  }

  /** The creator of a room is its host exactly when signed in. */
  lemma CreatorIsHost(user: Identity)
    ensures IsHost(HostName(user), user.uid) <==> Truthy(user.uid)
  {
  }

  /** `gameData?.round === 0 ? 1 : (gameData?.round ?? 0)`: the round shown on screen. */
  function DisplayRound(round: Option<int>): (d: int)
    ensures round == None ==> d == 0
    ensures round == Some(0) ==> d == 1
    ensures round.Some? && round.value != 0 ==> d == round.value
    ensures round.Some? && round.value >= 0 ==> d >= 1
  {
    match round
    case None => 0
    case Some(n) => if n == 0 then 1 else n
  }

  /** What one room snapshot does to the `countdownStarted` flag. */
  datatype Edge = Rise | Fall | Hold

  /**
   * The subscription handler's rule: an IN_PROGRESS snapshot while the flag is
   * down raises it (and starts the countdown); a STOPPED snapshot while it is
   * up lowers it (and stops the timer); anything else holds.
   */
  function CountdownEdge(started: bool, status: GameStatus): (e: Edge)
    ensures e == Rise <==> status == InProgress && !started
    ensures e == Fall <==> status == Stopped && started
  {
    if status == InProgress && !started then Rise
    else if status == Stopped && started then Fall
    else Hold
  }

  /** The flag after the edge. */
  function AfterEdge(started: bool, e: Edge): (b: bool)
    ensures e == Rise ==> b
    ensures e == Fall ==> !b
    ensures e == Hold ==> b == started
  {
    match e
    case Rise => true
    case Fall => false
    case Hold => started
  }

  /** The flag after a run of snapshots. */
  function FlagAfter(started: bool, statuses: seq<GameStatus>): bool
    decreases |statuses|
  {
    if statuses == [] then started
    else FlagAfter(AfterEdge(started, CountdownEdge(started, statuses[0])), statuses[1..])
  }

  /** Countdowns started (rising edges) over a run of snapshots. */
  function Rises(started: bool, statuses: seq<GameStatus>): nat
    decreases |statuses|
  {
    if statuses == [] then 0
    else
      var e := CountdownEdge(started, statuses[0]);
      (if e == Rise then 1 else 0) + Rises(AfterEdge(started, e), statuses[1..])
  }

  /** Timers stopped (falling edges) over a run of snapshots. */
  function Falls(started: bool, statuses: seq<GameStatus>): nat
    decreases |statuses|
  {
    if statuses == [] then 0
    else
      var e := CountdownEdge(started, statuses[0]);
      (if e == Fall then 1 else 0) + Falls(AfterEdge(started, e), statuses[1..])
  }

  /**
   * Rises and falls alternate: from a lowered flag, every countdown start is
   * matched by a stop before the next start, so at most one round is running
   * on a device at any time, and the flag is up exactly when one is.
   */
  lemma {:induction false} EdgesAlternate(started: bool, statuses: seq<GameStatus>)
    ensures Rises(started, statuses) + (if started then 1 else 0)
         == Falls(started, statuses) + (if FlagAfter(started, statuses) then 1 else 0)
    decreases |statuses|
  {
    if statuses != [] {
      EdgesAlternate(AfterEdge(started, CountdownEdge(started, statuses[0])), statuses[1..]);
    }
  }

  /** From the mount state (flag down) there are never more starts than stops plus one. */
  lemma AtMostOneRunningRound(statuses: seq<GameStatus>)
    ensures Falls(false, statuses) <= Rises(false, statuses) <= Falls(false, statuses) + 1
  {
    EdgesAlternate(false, statuses);
  }
}
