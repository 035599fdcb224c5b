/**
 * A room: its members, leaderboard and round counters, as the record the
 * server keeps per room code, together with the pure transitions each
 * handler applies to it and the properties those transitions keep.
 */
module Rooms {
  import opened Wrappers
  import opened Scoring
  import opened Names

  /** Identity of a pending setInterval/setTimeout. */
  type TimerId = nat

  /** The number of rounds every room is created with. */
  const DefaultMaxRounds := 10
  /** The username the server gives the socket that creates a room. */
  const HostName := "HOST"

  /** The errors a handler sends back to the requesting socket. */
  datatype Error =
    | CodeInUse          // "Room code already in use."
    | RoomNotFound       // "Room not found."
    | EmptyName          // "Name cannot be empty."
    | NameTaken(name: string)  // "Name '<name>' is already taken."
    | NotHost            // "Only host can start the game."

  /**
   * A client socket. The handlers store on it whether it created a room,
   * the room code it last created or joined, and the name it goes by;
   * the last two are `undefined` (None) until set.
   */
  class Connection {
    var isHost: bool
    var roomCode: Option<string>
    var username: Option<string>

    constructor ()
      ensures !isHost && roomCode == None && username == None
    {
      isHost := false;
      roomCode := None;
      username := None;
    }
  }

  /**
   * The property name JavaScript uses when a value indexes a plain object:
   * `undefined` becomes the string "undefined".
   */
  function Key(v: Option<string>): string {
    match v
    case None => "undefined"
    case Some(s) => s
  }

  /** The fields of a room record. */
  datatype RoomState = RoomState(
    host: Connection,
    players: map<string, Connection>,
    leaderboard: map<string, int>,
    roundTotal: int,
    rollCount: nat,
    banked: set<Option<string>>,   // a JavaScript Set of socket usernames
    interval: Option<TimerId>,
    currentRound: int,
    maxRounds: int)

  /**
   * What every reachable room satisfies: the players and the leaderboard
   * have the same names, every name is non-empty and trimmed, scores and
   * pot are never negative, and the round counter starts at 1.
   */
  predicate Inv(s: RoomState) {
    && s.players.Keys == s.leaderboard.Keys
    && (forall name :: name in s.players ==> IsPlayerName(name))
    && (forall name :: name in s.leaderboard ==> s.leaderboard[name] >= 0)
    && s.roundTotal >= 0
    && s.currentRound >= 1
    && s.maxRounds == DefaultMaxRounds
  }

  /** A room as `host_create` makes it. */
  function Created(host: Connection): (r: RoomState)
    ensures Inv(r)
    ensures r.players == map[] && r.leaderboard == map[] && r.banked == {}
    ensures r.roundTotal == 0 && r.rollCount == 0 && r.interval == None
    ensures r.currentRound == 1 && r.maxRounds == 10
    ensures r.host == host
  {
    RoomState(host, map[], map[], 0, 0, {}, None, 1, DefaultMaxRounds)
  }

  /**
   * The join handler's checks on a room that exists: the trimmed name must
   * be non-empty, then free. On success, the name to store.
   */
  function Admit(s: RoomState, raw: string): (r: Result<string, Error>)
    ensures r.Ok? <==> Trim(raw) != "" && Trim(raw) !in s.players
    ensures r.Ok? ==> r.value == Trim(raw) && IsPlayerName(r.value)
    ensures r.Err? && Trim(raw) == "" ==> r.error == EmptyName
    ensures r.Err? && Trim(raw) != "" ==> r.error == NameTaken(Trim(raw))
  {
    var name := Trim(raw);
    if name == "" then Err(EmptyName)
    else if name in s.players then Err(NameTaken(name))
    else Ok(name)
  }

  /** A successful join: the name maps to the socket and gets score 0. */
  function Joined(s: RoomState, name: string, conn: Connection): (r: RoomState)
    requires name !in s.players
    ensures Inv(s) && IsPlayerName(name) ==> Inv(r)
    ensures name in r.players && r.players[name] == conn && name in r.leaderboard && r.leaderboard[name] == 0
  {
    s.(players := s.players[name := conn], leaderboard := s.leaderboard[name := 0])
  }

  /** A close: the name leaves both maps. */
  function Left(s: RoomState, name: string): (r: RoomState)
    ensures Inv(s) ==> Inv(r)
    ensures name !in r.players && name !in r.leaderboard
    // every other player keeps its socket and score, and nothing else of the room changes
    ensures forall n :: n != name && n in s.players ==> n in r.players && r.players[n] == s.players[n]
    ensures forall n :: n != name && n in s.leaderboard ==> n in r.leaderboard && r.leaderboard[n] == s.leaderboard[n]
    ensures r.players.Keys <= s.players.Keys && r.leaderboard.Keys <= s.leaderboard.Keys
    ensures r.(players := s.players, leaderboard := s.leaderboard) == s
  {
    s.(players := s.players - {name}, leaderboard := s.leaderboard - {name})
  }

  /** The bank handler credits `who` only if that name is a player that has not banked this round. */
  predicate MayBank(s: RoomState, who: Option<string>) {
    Key(who) in s.players && who !in s.banked
  }

  /** The bank handler: a no-op, or `who` is marked banked and the pot is added to that score. */
  function Bank(s: RoomState, who: Option<string>): (r: RoomState)
    requires Inv(s)
    ensures Inv(r)
    ensures MayBank(s, who) ==> r.banked == s.banked + {who}
    ensures !MayBank(s, who) ==> r == s
    // the pot stays for the other players to bank, and only banked and the board change
    ensures r.(banked := s.banked, leaderboard := s.leaderboard) == s
  {
    if MayBank(s, who) then
      var k := Key(who);
      s.(banked := s.banked + {who}, leaderboard := s.leaderboard[k := s.leaderboard[k] + s.roundTotal])
    else s
  }

  /** `startRound`: pot, roll count and banked set cleared, with `id` as the new interval. */
  function RoundReset(s: RoomState, id: TimerId): (r: RoomState)
    ensures Inv(s) ==> Inv(r)
    ensures r.roundTotal == 0 && r.rollCount == 0 && r.banked == {} && r.interval == Some(id)
    ensures r.players == s.players && r.leaderboard == s.leaderboard && r.currentRound == s.currentRound
    ensures r.(roundTotal := s.roundTotal, rollCount := s.rollCount, banked := s.banked, interval := s.interval) == s
  {
    s.(roundTotal := 0, rollCount := 0, banked := {}, interval := Some(id))
  }

  /** One firing of the round's interval with dice `d1`, `d2`; a bust clears the interval. */
  function Rolled(s: RoomState, d1: Die, d2: Die): (r: RoomState)
    ensures Inv(s) ==> Inv(r)
    ensures r.rollCount == s.rollCount + 1
    ensures r.interval == if s.rollCount + 1 > EarlyRolls && d1 + d2 == 7 then None else s.interval
    ensures r.players == s.players && r.leaderboard == s.leaderboard && r.banked == s.banked
    ensures r.(rollCount := s.rollCount, roundTotal := s.roundTotal, interval := s.interval) == s
  {
    var o := Score(s.rollCount + 1, s.roundTotal, d1, d2);
    s.(rollCount := s.rollCount + 1, roundTotal := o.pot, interval := if o.bust then None else s.interval)
  }

  /** The bust grace timeout moves to the next round. */
  function NextRound(s: RoomState): (r: RoomState)
    ensures Inv(s) ==> Inv(r)
    ensures r.currentRound == s.currentRound + 1
    ensures r.(currentRound := s.currentRound) == s
  {
    s.(currentRound := s.currentRound + 1)
  }

  /** `start_game` from the host sends the room back to round 1. */
  function Restarted(s: RoomState): (r: RoomState)
    ensures Inv(s) ==> Inv(r)
    ensures r.currentRound == 1
    ensures r.(currentRound := s.currentRound) == s
  {
    s.(currentRound := 1)
  }

  /** Every roll adds exactly one to the roll count and leaves the pot non-negative. */
  lemma RollBookkeeping(s: RoomState, d1: Die, d2: Die)
    requires Inv(s)
    ensures Rolled(s, d1, d2).rollCount == s.rollCount + 1
    ensures Rolled(s, d1, d2).roundTotal >= 0
    ensures Rolled(s, d1, d2).roundTotal == Score(s.rollCount + 1, s.roundTotal, d1, d2).pot
  {
  }

  /**
   * One firing of the interval agrees with the reference definition of a
   * round's rolls: the same pot and roll count, and the interval is
   * dropped exactly when the round busts.
   */
  lemma RolledAgreesWithPlay(s: RoomState, d1: Die, d2: Die)
    ensures var r := Rolled(s, d1, d2);
      var p := Play(s.rollCount, s.roundTotal, [Roll(d1, d2)]);
      && r.roundTotal == p.pot
      && r.rollCount == p.rolls
      && (p.busted ==> r.interval == None)
      && (!p.busted ==> r.interval == s.interval)
  {
    assert [Roll(d1, d2)][1..] == [];
  }

  /** Banking twice in a round is banking once. */
  lemma BankIdempotent(s: RoomState, who: Option<string>)
    requires Inv(s)
    ensures Bank(Bank(s, who), who) == Bank(s, who)
  {
  }

  // ---- The points on the leaderboard -------------------------------------

  /** The sum of all scores on a leaderboard. */
  ghost function Total(m: map<string, int>): int
    decreases |m|
  {
    if m == map[] then 0
    else
      var k := Pick(m);
      m[k] + Total(m - {k})
  }

  ghost function Pick(m: map<string, int>): (k: string)
    requires m != map[]
    ensures k in m
  {
    var k :| k in m; k
  }

  /** Any one score can be split off the total. */
  lemma {:induction false} TotalSplit(m: map<string, int>, k: string)
    requires k in m
    ensures Total(m) == m[k] + Total(m - {k})
    decreases |m|
  {
    var j := Pick(m);
    if j != k {
      TotalSplit(m - {j}, k);
      TotalSplit(m - {k}, j);
      assert m - {j} - {k} == m - {k} - {j};
    }
  }

  /** Setting one score moves the total by the change in that score. */
  lemma TotalUpdate(m: map<string, int>, k: string, v: int)
    ensures k in m ==> Total(m[k := v]) == Total(m) - m[k] + v
    ensures k !in m ==> Total(m[k := v]) == Total(m) + v
  {
    TotalSplit(m[k := v], k);
    assert m[k := v] - {k} == m - {k};
    if k in m { TotalSplit(m, k); } else { assert m - {k} == m; }
  }

  /**
   * A successful bank credits exactly the pot to the banking player and to
   * no one else, so the points on the board grow by exactly the pot.
   */
  lemma BankCreditsExactlyThePot(s: RoomState, who: Option<string>)
    requires Inv(s) && MayBank(s, who)
    ensures var r := Bank(s, who);
      && r.leaderboard.Keys == s.leaderboard.Keys
      && r.leaderboard[Key(who)] == s.leaderboard[Key(who)] + s.roundTotal
      && (forall n :: n in s.leaderboard && n != Key(who) ==> r.leaderboard[n] == s.leaderboard[n])
      && Total(r.leaderboard) == Total(s.leaderboard) + s.roundTotal
  {
    var k := Key(who);
    var board := s.leaderboard[k := s.leaderboard[k] + s.roundTotal];
    assert Bank(s, who).leaderboard == board;
    TotalUpdate(s.leaderboard, k, s.leaderboard[k] + s.roundTotal);
  }

  /** A join adds a score of 0, so the points on the board stay the same. */
  lemma JoinKeepsTotal(s: RoomState, name: string, conn: Connection)
    requires Inv(s) && name !in s.players
    ensures Total(Joined(s, name, conn).leaderboard) == Total(s.leaderboard)
  {
    TotalUpdate(s.leaderboard, name, 0);
  }

  /** A player who joins and then leaves leaves the room as it was. */
  lemma LeaveUndoesJoin(s: RoomState, name: string, conn: Connection)
    requires Inv(s) && name !in s.players
    ensures Left(Joined(s, name, conn), name) == s
  {
    assert name !in s.leaderboard;
    assert s.players[name := conn] - {name} == s.players;
    assert s.leaderboard[name := 0] - {name} == s.leaderboard;
  }

  /** A leaving player takes their score off the board. */
  lemma LeaveForfeitsScore(s: RoomState, name: string)
    requires Inv(s) && name in s.players
    ensures Total(Left(s, name).leaderboard) == Total(s.leaderboard) - s.leaderboard[name]
  {
    TotalSplit(s.leaderboard, name);
  }

  /** Rolls, round changes and restarts never touch the board. */
  lemma RoundsLeaveBoardAlone(s: RoomState, d1: Die, d2: Die, id: TimerId)
    ensures Rolled(s, d1, d2).leaderboard == s.leaderboard
    ensures RoundReset(s, id).leaderboard == s.leaderboard
    ensures NextRound(s).leaderboard == s.leaderboard
    ensures Restarted(s).leaderboard == s.leaderboard
  {
  }
}
