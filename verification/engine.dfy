/**
 * The server process: the table of rooms by code, the pending timers, and
 * the handlers for `host_create`, `join`, `start_game`, `bank` and socket
 * close, together with the two timer continuations (a roll of the round's
 * interval and the grace timeout after a bust). Each handler returns the
 * messages it sends, in order.
 */
module Engine {
  import opened Wrappers
  import opened Scoring
  import opened Names
  import opened Rooms

  /** A pending timer: the roll interval of a room, or the one-shot grace timeout after a bust. */
  datatype Timer = RollTimer(code: string) | GraceTimer(code: string)

  /** The payload of an outbound message. */
  datatype Msg =
    | RoomCreated(room: string)
    | Failure(error: Error)
    | LeaderboardUpdate(leaderboard: map<string, int>)
    | RoundUpdate(round: int, maxRounds: int)
    | RollEvent(d1: int, d2: int, sum: int, pot: int, message: Option<Note>)
    | BankedEvent(name: Option<string>, newScore: int)
    | GameOver(leaderboard: map<string, int>)

  /** An outbound message: to one socket, or to every socket of a room's players map as it is when sent. */
  datatype Event = Send(to: Connection, msg: Msg) | Broadcast(players: map<string, Connection>, msg: Msg)

  function Ids(o: Option<TimerId>): set<TimerId> {
    if o.Some? then {o.value} else {}
  }

  /** The roll intervals pending for the room `code`. */
  function IntervalsOf(timers: map<TimerId, Timer>, code: string): set<TimerId> {
    set id | id in timers && timers[id] == RollTimer(code)
  }

  /** Clearing timers clears them from every room's intervals. */
  lemma IntervalsAfterClear(timers: map<TimerId, Timer>, ids: set<TimerId>, code: string)
    ensures IntervalsOf(timers - ids, code) == IntervalsOf(timers, code) - ids
  {
  }

  /** Setting a new timer adds it to the intervals of its own room only, and only if it is an interval. */
  lemma IntervalsAfterSet(timers: map<TimerId, Timer>, id: TimerId, t: Timer, code: string)
    requires id !in timers
    ensures IntervalsOf(timers[id := t], code) ==
      if t == RollTimer(code) then IntervalsOf(timers, code) + {id} else IntervalsOf(timers, code)
  {
  }

  /** Writing a room's record twice keeps the second. */
  lemma Overwrite(rooms: map<string, RoomState>, code: string, a: RoomState, b: RoomState)
    ensures rooms[code := a][code := b] == rooms[code := b]
  {
  }

  /**
   * What the server keeps true between events: every room keeps its record
   * invariant, every pending timer belongs to a room and has an id already
   * handed out, and the roll intervals pending for a room are exactly the
   * one its record holds.
   */
  ghost predicate Consistent(rooms: map<string, RoomState>, timers: map<TimerId, Timer>, next: TimerId) {
    && (forall c :: c in rooms ==> Inv(rooms[c]))
    && (forall id :: id in timers ==> id < next && timers[id].code in rooms)
    && (forall c :: c in rooms ==> IntervalsOf(timers, c) == Ids(rooms[c].interval))
  }

  /** A room never has more than one roll interval pending. */
  lemma AtMostOneInterval(rooms: map<string, RoomState>, timers: map<TimerId, Timer>, next: TimerId, code: string)
    requires Consistent(rooms, timers, next)
    ensures |IntervalsOf(timers, code)| <= 1
    ensures forall id :: id in timers && timers[id] == RollTimer(code) ==> code in rooms && rooms[code].interval == Some(id)
  {
    forall id | id in timers && timers[id] == RollTimer(code)
      ensures code in rooms && rooms[code].interval == Some(id)
    {
      assert id in IntervalsOf(timers, code);
    }
  }

  /** A new room without an interval under a fresh code keeps the server consistent. */
  lemma RoomAdded(rooms: map<string, RoomState>, timers: map<TimerId, Timer>, next: TimerId, code: string, s: RoomState)
    requires Consistent(rooms, timers, next) && code !in rooms
    requires Inv(s) && s.interval == None
    ensures Consistent(rooms[code := s], timers, next)
  {
    assert IntervalsOf(timers, code) == {};
  }

  /** A room record that keeps its invariant and its interval keeps the server consistent. */
  lemma RoomUpdated(rooms: map<string, RoomState>, timers: map<TimerId, Timer>, next: TimerId, code: string, s: RoomState)
    requires Consistent(rooms, timers, next) && code in rooms
    requires Inv(s) && s.interval == rooms[code].interval
    ensures Consistent(rooms[code := s], timers, next)
  {
  }

  /** Clearing a room's interval before setting the next one leaves it exactly one. */
  lemma IntervalReplaced(rooms: map<string, RoomState>, timers: map<TimerId, Timer>, next: TimerId, code: string, s: RoomState)
    requires Consistent(rooms, timers, next) && code in rooms
    requires Inv(s) && s.interval == Some(next)
    ensures var t := (timers - Ids(rooms[code].interval))[next := RollTimer(code)];
      && Consistent(rooms[code := s], t, next + 1)
      && IntervalsOf(t, code) == {next}
  {
    var cleared := Ids(rooms[code].interval);
    var t := (timers - cleared)[next := RollTimer(code)];
    var rs := rooms[code := s];
    forall c | c in rs ensures IntervalsOf(t, c) == Ids(rs[c].interval) {
      IntervalsAfterClear(timers, cleared, c);
      IntervalsAfterSet(timers - cleared, next, RollTimer(code), c);
    }
    assert forall c :: c in rs ==> Inv(rs[c]);
  }

  /** A bust swaps the room's interval for a grace timeout: the room is left with no interval. */
  lemma IntervalSwappedForGrace(rooms: map<string, RoomState>, timers: map<TimerId, Timer>, next: TimerId,
                                code: string, id: TimerId, s: RoomState)
    requires Consistent(rooms, timers, next) && code in rooms && rooms[code].interval == Some(id)
    requires Inv(s) && s.interval == None
    ensures var t := (timers - {id})[next := GraceTimer(code)];
      && Consistent(rooms[code := s], t, next + 1)
      && IntervalsOf(t, code) == {}
  {
    var t := (timers - {id})[next := GraceTimer(code)];
    var rs := rooms[code := s];
    forall c | c in rs ensures IntervalsOf(t, c) == Ids(rs[c].interval) {
      IntervalsAfterClear(timers, {id}, c);
      IntervalsAfterSet(timers - {id}, next, GraceTimer(code), c);
    }
    assert forall c :: c in rs ==> Inv(rs[c]);
  }

  /** A grace timeout that has fired is gone, and no room's interval changes. */
  lemma GraceDropped(rooms: map<string, RoomState>, timers: map<TimerId, Timer>, next: TimerId, id: TimerId)
    requires Consistent(rooms, timers, next) && id in timers && timers[id].GraceTimer?
    ensures Consistent(rooms, timers - {id}, next)
  {
    forall c | c in rooms ensures IntervalsOf(timers - {id}, c) == IntervalsOf(timers, c) {
      IntervalsAfterClear(timers, {id}, c);
    }
  }

  /**
   * The server: the `rooms` object keyed by room code, and the timers
   * pending in the event loop.
   */
  class Server {
    var rooms: map<string, RoomState>
    var timers: map<TimerId, Timer>
    var nextTimer: TimerId

    ghost predicate Valid()
      reads this
    {
      Consistent(rooms, timers, nextTimer)
    }

    /** A server with no rooms and no timers. */
    constructor ()
      ensures Valid()
      ensures rooms == map[] && timers == map[]
    {
      rooms := map[];
      timers := map[];
      nextTimer := 0;
    }

    /** `host_create`: a new room under an unused code, with the socket as its host. */
    method HostCreate(conn: Connection, code: string) returns (sent: seq<Event>)
      requires Valid()
      modifies this, conn
      ensures Valid()
      ensures timers == old(timers) && nextTimer == old(nextTimer)
      ensures old(code in rooms) ==>
        && rooms == old(rooms)
        && unchanged(conn)
        && sent == [Send(conn, Failure(CodeInUse))]
      ensures old(code !in rooms) ==>
        && rooms == old(rooms)[code := Created(conn)]
        && conn.isHost && conn.roomCode == Some(code) && conn.username == Some(HostName)
        && sent == [Send(conn, RoomCreated(code))]
    {
      if code in rooms {
        sent := [Send(conn, Failure(CodeInUse))];
        return;
      }
      RoomAdded(rooms, timers, nextTimer, code, Created(conn));
      rooms := rooms[code := Created(conn)];
      conn.isHost := true;
      conn.roomCode := Some(code);
      conn.username := Some(HostName);
      sent := [Send(conn, RoomCreated(code))];
    }

    /**
     * `join`: on an existing room, a trimmed, non-empty, free name becomes a
     * player with score 0 and the socket goes by it; otherwise the socket
     * gets the error and nothing changes.
     */
    method Join(conn: Connection, code: string, rawName: string) returns (sent: seq<Event>)
      requires Valid()
      modifies this, conn
      ensures Valid()
      ensures timers == old(timers) && nextTimer == old(nextTimer)
      ensures code !in old(rooms) ==>
        && rooms == old(rooms) && unchanged(conn)
        && sent == [Send(conn, Failure(RoomNotFound))]
      ensures code in old(rooms) ==>
        match Admit(old(rooms[code]), rawName)
        case Err(e) =>
          && rooms == old(rooms) && unchanged(conn)
          && sent == [Send(conn, Failure(e))]
        case Ok(name) =>
          var s := Joined(old(rooms[code]), name, conn);
          && rooms == old(rooms)[code := s]
          && conn.username == Some(name) && conn.roomCode == Some(code) && conn.isHost == old(conn.isHost)
          && sent == [Broadcast(s.players, LeaderboardUpdate(s.leaderboard))]
    {
      var name := Trim(rawName);
      if code !in rooms {
        sent := [Send(conn, Failure(RoomNotFound))];
        return;
      }
      var room := rooms[code];
      if name == "" {
        sent := [Send(conn, Failure(EmptyName))];
        return;
      }
      if name in room.players {
        sent := [Send(conn, Failure(NameTaken(name)))];
        return;
      }
      conn.username := Some(name);
      conn.roomCode := Some(code);
      room := Joined(room, name, conn);
      RoomUpdated(rooms, timers, nextTimer, code, room);
      rooms := rooms[code := room];
      sent := [Broadcast(room.players, LeaderboardUpdate(room.leaderboard))];
    }

    /**
     * `startRound`: the room's interval, if any, is cleared before a new one
     * is set, so the room keeps exactly one; pot, roll count and banked set
     * are reset and the round is announced.
     */
    method StartRound(code: string) returns (sent: seq<Event>)
      requires Valid()
      modifies this
      ensures Valid()
      ensures code !in old(rooms) ==>
        rooms == old(rooms) && timers == old(timers) && nextTimer == old(nextTimer) && sent == []
      ensures code in old(rooms) ==>
        var s := RoundReset(old(rooms[code]), old(nextTimer));
        && rooms == old(rooms)[code := s]
        && timers == (old(timers) - Ids(old(rooms[code].interval)))[old(nextTimer) := RollTimer(code)]
        && nextTimer == old(nextTimer) + 1
        && IntervalsOf(timers, code) == {old(nextTimer)}
        && sent == [Broadcast(s.players, RoundUpdate(s.currentRound, s.maxRounds))]
    {
      if code !in rooms {
        return [];
      }
      var room := RoundReset(rooms[code], nextTimer);
      IntervalReplaced(rooms, timers, nextTimer, code, room);
      timers := (timers - Ids(rooms[code].interval))[nextTimer := RollTimer(code)];
      rooms := rooms[code := room];
      nextTimer := nextTimer + 1;
      sent := [Broadcast(room.players, RoundUpdate(room.currentRound, room.maxRounds))];
    }

    /** `start_game`: only the host of the socket's room may start it, from round 1. */
    method StartGame(conn: Connection) returns (sent: seq<Event>)
      requires Valid()
      modifies this
      ensures Valid()
      ensures var code := Key(conn.roomCode);
        if code in old(rooms) && conn == old(rooms[code]).host then
          var s := RoundReset(Restarted(old(rooms[code])), old(nextTimer));
          && rooms == old(rooms)[code := s]
          && timers == (old(timers) - Ids(old(rooms[code].interval)))[old(nextTimer) := RollTimer(code)]
          && nextTimer == old(nextTimer) + 1
          && sent == [Broadcast(s.players, RoundUpdate(1, DefaultMaxRounds))]
        else
          && rooms == old(rooms) && timers == old(timers) && nextTimer == old(nextTimer)
          && sent == [Send(conn, Failure(NotHost))]
    {
      var code := Key(conn.roomCode);
      if code !in rooms || conn != rooms[code].host {
        sent := [Send(conn, Failure(NotHost))];
        return;
      }
      var room := Restarted(rooms[code]);
      RoomUpdated(rooms, timers, nextTimer, code, room);
      rooms := rooms[code := room];
      Overwrite(old(rooms), code, room, RoundReset(room, nextTimer));
      sent := StartRound(code);
    }

    /**
     * A firing of the roll interval `id` with dice `d1`, `d2`: the roll is
     * counted, scored and announced; a bust clears the interval and sets
     * the grace timeout instead, so the round makes no further roll.
     */
    method FireRoll(id: TimerId, d1: Die, d2: Die) returns (sent: seq<Event>)
      requires Valid() && id in timers && timers[id].RollTimer?
      modifies this
      ensures Valid()
      ensures var code := old(timers[id].code);
        var s := old(rooms[code]);
        var o := Score(s.rollCount + 1, s.roundTotal, d1, d2);
        && rooms == old(rooms)[code := Rolled(s, d1, d2)]
        && sent == [Broadcast(s.players, RollEvent(d1, d2, d1 + d2, o.pot, o.note))]
        && (if o.bust then
              && timers == (old(timers) - {id})[old(nextTimer) := GraceTimer(code)]
              && nextTimer == old(nextTimer) + 1
              && IntervalsOf(timers, code) == {}
            else
              timers == old(timers) && nextTimer == old(nextTimer))
    {
      var code := timers[id].code;
      AtMostOneInterval(rooms, timers, nextTimer, code);
      var room := Rolled(rooms[code], d1, d2);
      var o := Score(rooms[code].rollCount + 1, rooms[code].roundTotal, d1, d2);
      if o.bust {
        IntervalSwappedForGrace(rooms, timers, nextTimer, code, id, room);
        timers := (timers - {id})[nextTimer := GraceTimer(code)];
        nextTimer := nextTimer + 1;
      } else {
        RoomUpdated(rooms, timers, nextTimer, code, room);
      }
      rooms := rooms[code := room];
      sent := [Broadcast(room.players, RollEvent(d1, d2, d1 + d2, o.pot, o.note))];
    }

    /**
     * The grace timeout `id` after a bust: the round counter goes up by one;
     * the next round starts if it is within `maxRounds`, otherwise the game
     * is over and the final leaderboard is announced.
     */
    method FireGrace(id: TimerId) returns (sent: seq<Event>)
      requires Valid() && id in timers && timers[id].GraceTimer?
      modifies this
      ensures Valid()
      ensures var code := old(timers[id].code);
        var s := NextRound(old(rooms[code]));
        if s.currentRound <= s.maxRounds then
          var r := RoundReset(s, old(nextTimer));
          && rooms == old(rooms)[code := r]
          && timers == (old(timers) - {id} - Ids(s.interval))[old(nextTimer) := RollTimer(code)]
          && nextTimer == old(nextTimer) + 1
          && sent == [Broadcast(r.players, RoundUpdate(r.currentRound, r.maxRounds))]
        else
          && rooms == old(rooms)[code := s]
          && timers == old(timers) - {id}
          && nextTimer == old(nextTimer)
          && sent == [Broadcast(s.players, GameOver(s.leaderboard))]
    {
      var code := timers[id].code;
      GraceDropped(rooms, timers, nextTimer, id);
      timers := timers - {id};
      var room := NextRound(rooms[code]);
      RoomUpdated(rooms, timers, nextTimer, code, room);
      rooms := rooms[code := room];
      if room.currentRound <= room.maxRounds {
        Overwrite(old(rooms), code, room, RoundReset(room, nextTimer));
        sent := StartRound(code);
      } else {
        sent := [Broadcast(room.players, GameOver(room.leaderboard))];
      }
    }

    /**
     * `bank`: a player of the socket's room that has not banked this round
     * is marked banked and credited the pot; in every other case nothing
     * happens and nothing is sent.
     */
    method Bank(conn: Connection) returns (sent: seq<Event>)
      requires Valid()
      modifies this
      ensures Valid()
      ensures timers == old(timers) && nextTimer == old(nextTimer)
      ensures var code := Key(conn.roomCode);
        if code in old(rooms) && MayBank(old(rooms[code]), conn.username) then
          var s := Rooms.Bank(old(rooms[code]), conn.username);
          && rooms == old(rooms)[code := s]
          && sent == [Broadcast(s.players, BankedEvent(conn.username, s.leaderboard[Key(conn.username)])),
                      Broadcast(s.players, LeaderboardUpdate(s.leaderboard))]
        else
          rooms == old(rooms) && sent == []
    {
      var code := Key(conn.roomCode);
      if code !in rooms {
        return [];
      }
      var name := Key(conn.username);
      if name !in rooms[code].players {
        return [];
      }
      if conn.username in rooms[code].banked {
        return [];
      }
      var room := Rooms.Bank(rooms[code], conn.username);
      RoomUpdated(rooms, timers, nextTimer, code, room);
      rooms := rooms[code := room];
      sent := [Broadcast(room.players, BankedEvent(conn.username, room.leaderboard[name])),
               Broadcast(room.players, LeaderboardUpdate(room.leaderboard))];
    }

    /**
     * Socket close: the name the socket goes by leaves its room's players
     * and leaderboard, if some player there has that name, whichever
     * socket that player joined with.
     */
    method Close(conn: Connection) returns (sent: seq<Event>)
      requires Valid()
      modifies this
      ensures Valid()
      ensures timers == old(timers) && nextTimer == old(nextTimer)
      ensures var code := Key(conn.roomCode);
        var who := conn.username;
        if code in old(rooms) && who.Some? && who.value != "" && who.value in old(rooms[code].players) then
          var s := Left(old(rooms[code]), who.value);
          && rooms == old(rooms)[code := s]
          && sent == [Broadcast(s.players, LeaderboardUpdate(s.leaderboard))]
        else
          rooms == old(rooms) && sent == []
    {
      var code := Key(conn.roomCode);
      var name := conn.username;
      if code in rooms && name.Some? && name.value != "" && name.value in rooms[code].players {
        var room := Left(rooms[code], name.value);
        RoomUpdated(rooms, timers, nextTimer, code, room);
        rooms := rooms[code := room];
        sent := [Broadcast(room.players, LeaderboardUpdate(room.leaderboard))];
      } else {
        sent := [];
      }
    }
  }
}
