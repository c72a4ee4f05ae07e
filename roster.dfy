/**
 * The player list shared by both game rooms, and the three list edits the
 * screens write into it: join (append if absent), leave (filter out one's own
 * id) and the per-player points update of the Stop game.
 */
module Roster {
  import opened Wrappers

  /** The signed-in user's id as the screens read it (`currentUser?.uid`). */
  type Uid = Option<string>

  /** The ten answers of one Stop round, in the order of the screen's state:
      name, lastName, country, color, animal, artist, food, fruit, object, profession. */
  type Inputs = seq<string>

  const CategoryCount: nat := 10

  /** A player entry. Tic-Tac-Toe entries carry no answers (`inputs` is None). */
  datatype Player = Player(
    id: Uid,
    name: Option<string>,
    points: int,
    photoURL: Option<string>,
    inputs: Option<Inputs>)

  /** `players.some((p) => p.id === userId)` */
  predicate Contains(players: seq<Player>, uid: Uid) {
    exists i :: 0 <= i < |players| && players[i].id == uid
  }

  /** No two entries share an id. */
  predicate UniqueIds(players: seq<Player>) {
    forall i, j :: 0 <= i < j < |players| ==> players[i].id != players[j].id
  }

  /** Join: the joiner is appended at the end unless an entry with its id is already there. */
  function Join(players: seq<Player>, me: Player): (r: seq<Player>)
    ensures Contains(players, me.id) ==> r == players
    ensures !Contains(players, me.id) ==> r == players + [me]
    ensures r[..|players|] == players
    ensures Contains(r, me.id)
  {
    if Contains(players, me.id) then players
    else
      var r := players + [me];
      assert r[|players|].id == me.id;
      r
  }

  /** Leave: `players.filter((player) => player.id !== uid)`. */
  function Leave(players: seq<Player>, uid: Uid): (r: seq<Player>)
    ensures |r| <= |players|
    ensures forall p :: p in r <==> p in players && p.id != uid
    ensures !Contains(players, uid) ==> r == players
    ensures !Contains(r, uid)
  {
    if players == [] then []
    else if players[0].id == uid then Leave(players[1..], uid)
    else [players[0]] + Leave(players[1..], uid)
  }

  /** The Stop points update: the entry (or entries) with id `uid` gain `toAdd`, all others are untouched. */
  function SumPoints(players: seq<Player>, uid: Uid, toAdd: int): (r: seq<Player>)
    ensures |r| == |players|
    ensures forall i :: 0 <= i < |players| && players[i].id != uid ==> r[i] == players[i]
    ensures forall i :: 0 <= i < |players| && players[i].id == uid ==>
              r[i] == players[i].(points := players[i].points + toAdd)
  {
    if players == [] then []
    else
      var p := players[0];
      [if p.id == uid then p.(points := p.points + toAdd) else p] + SumPoints(players[1..], uid, toAdd)
  }

  /** The number of entries with id `uid`. */
  function CountId(players: seq<Player>, uid: Uid): nat {
    if players == [] then 0
    else (if players[0].id == uid then 1 else 0) + CountId(players[1..], uid)
  }

  /** The sum of all entries' points. */
  function TotalPoints(players: seq<Player>): int {
    if players == [] then 0 else players[0].points + TotalPoints(players[1..])
  }

  /** Leaving keeps the remaining entries in their order: it distributes over concatenation. */
  lemma {:induction false} LeaveConcat(a: seq<Player>, b: seq<Player>, uid: Uid)
    ensures Leave(a + b, uid) == Leave(a, uid) + Leave(b, uid)
  {
    if a == [] {
      assert a + b == b;
    } else {
      assert (a + b)[1..] == a[1..] + b;
      LeaveConcat(a[1..], b, uid);
    }
  }

  /** Joining twice is joining once: a rejoin does not duplicate the entry. */
  lemma JoinIdempotent(players: seq<Player>, me: Player)
    ensures Join(Join(players, me), me) == Join(players, me)
  {
  }

  /** Leaving right after a first join gives back the list as it was. */
  lemma {:induction false} LeaveUndoesJoin(players: seq<Player>, me: Player)
    requires !Contains(players, me.id)
    ensures Leave(Join(players, me), me.id) == players
  {
    LeaveConcat(players, [me], me.id);
    assert Leave([me], me.id) == [];
  }

  /** Join keeps ids unique. */
  lemma JoinKeepsUnique(players: seq<Player>, me: Player)
    requires UniqueIds(players)
    ensures UniqueIds(Join(players, me))
  {
  }

  /** Leave keeps ids unique. */
  lemma {:induction false} LeaveKeepsUnique(players: seq<Player>, uid: Uid)
    requires UniqueIds(players)
    ensures UniqueIds(Leave(players, uid))
  {
    if players != [] {
      var rest := players[1..];
      assert UniqueIds(rest) by {
        forall i, j | 0 <= i < j < |rest| ensures rest[i].id != rest[j].id {
          assert rest[i] == players[i + 1] && rest[j] == players[j + 1];
        }
      }
      LeaveKeepsUnique(rest, uid);
      if players[0].id != uid {
        var r := Leave(rest, uid);
        forall q | q in r ensures q.id != players[0].id {
          assert q in rest;
          var k :| 0 <= k < |rest| && rest[k] == q;
          assert players[k + 1] == q;
        }
      }
    }
  }

  /** The points update adds `toAdd` once per entry carrying the id, and nothing else. */
  lemma {:induction false} SumPointsTotal(players: seq<Player>, uid: Uid, toAdd: int)
    ensures TotalPoints(SumPoints(players, uid, toAdd)) == TotalPoints(players) + toAdd * CountId(players, uid)
  {
    if players != [] {
      SumPointsTotal(players[1..], uid, toAdd);
      var r := SumPoints(players, uid, toAdd);
      assert r[1..] == SumPoints(players[1..], uid, toAdd);
    }
  }

  /** With unique ids the update changes exactly one entry when the id is present, so the total grows by exactly `toAdd`. */
  lemma {:induction false} UniqueCountAtMostOne(players: seq<Player>, uid: Uid)
    requires UniqueIds(players)
    ensures CountId(players, uid) == if Contains(players, uid) then 1 else 0
  {
    if players != [] {
      var rest := players[1..];
      assert UniqueIds(rest) by {
        forall i, j | 0 <= i < j < |rest| ensures rest[i].id != rest[j].id {
          assert rest[i] == players[i + 1] && rest[j] == players[j + 1];
        }
      }
      UniqueCountAtMostOne(rest, uid);
      if players[0].id == uid {
        assert !Contains(rest, uid) by {
          forall k | 0 <= k < |rest| ensures rest[k].id != uid {
            assert rest[k] == players[k + 1];
          }
        }
      } else {
        assert Contains(players, uid) <==> Contains(rest, uid) by {
          if Contains(players, uid) {
            var k :| 0 <= k < |players| && players[k].id == uid;
            assert rest[k - 1] == players[k];
          }
          if Contains(rest, uid) {
            var k :| 0 <= k < |rest| && rest[k].id == uid;
            assert players[k + 1] == rest[k];
          }
        }
      }
    }
  }

  /** Leaving removes exactly the entries that carry the id. */
  lemma {:induction false} LeaveLength(players: seq<Player>, uid: Uid)
    ensures |Leave(players, uid)| == |players| - CountId(players, uid)
  {
    if players != [] {
      LeaveLength(players[1..], uid);
    }
  }
}
