/**
 * Whole runs: sequences of socket messages and timer firings, with what
 * they leave on the leaderboard.
 */
module Scenarios {
  import opened Wrappers
  import opened Names
  import opened Rooms
  import opened Engine

  /** Room "ABCD" on a fresh server, with one guest who joined under the name "HOST". */
  method GuestNamedHost() returns (server: Server, host: Connection, guest: Connection)
    ensures fresh(server) && fresh(host) && fresh(guest)
    ensures server.Valid() && "ABCD" in server.rooms
    ensures server.rooms["ABCD"].players == map[HostName := guest]
    ensures host.roomCode == Some("ABCD") && host.username == Some(HostName) && host.isHost
    ensures guest.roomCode == Some("ABCD") && guest.username == Some(HostName) && !guest.isHost
  {
    server := new Server();
    host := new Connection();
    guest := new Connection();
    var _ := server.HostCreate(host, "ABCD");
    PlayerNamesAreTrimmed(HostName);
    var _ := server.Join(guest, "ABCD", HostName);
  }

  /**
   * When the host's socket of that room closes, the close handler looks up
   * the host's own username, "HOST", and removes the guest, whose socket
   * is still open and still goes by that name.
   */
  method HostCloseEvictsNamesake() returns (board: map<string, int>, guestName: Option<string>)
    ensures board == map[]
    ensures guestName == Some(HostName)
  {
    var server, host, guest := GuestNamedHost();
    var _ := server.Close(host);
    board := server.rooms["ABCD"].leaderboard;
    guestName := guest.username;
  }
}
