/** The socket provider: the one live connection to the relay server, the connection
    flag, the selected server URL and the command mode shared by the views. */
module SocketSession {

  /** A client socket opened with reconnection disabled: it connects at most once, and
      once it drops, fails or is closed by the client it stays closed. */
  datatype SocketState = Connecting | Open | Closed

  class Socket {
    const url: string
    var state: SocketState

    constructor (url: string)
      ensures this.url == url && state == Connecting
    {
      this.url := url;
      state := Connecting;
    }
  }

  class SocketProvider {
    var socket: Socket?
    var isConnected: bool
    var selectedServer: string
    var commandMode: string
    /** Every socket this provider has opened. */
    ghost var sockets: set<Socket>

    /** At most one socket is not closed, and it is the one held; the flag says whether
        the held socket is open. */
    ghost predicate Valid()
      reads this, sockets
    {
      && (socket != null ==> socket in sockets)
      && (forall s :: s in sockets && s != socket ==> s.state == Closed)
      && (isConnected <==> socket != null && socket.state == Open)
    }

    constructor ()
      ensures Valid()
      ensures socket == null && !isConnected && selectedServer == "" && commandMode == "manual"
      ensures sockets == {}
    {
      socket := null;
      isConnected := false;
      selectedServer := "";
      commandMode := "manual";
      sockets := {};
    }

    /** `socket.disconnect()` on the held socket. If it was open, its `disconnect` handler
        runs at once and clears the flag. */
    method CloseHeld()
      requires Valid() && socket != null
      modifies socket, this`isConnected
      ensures socket.state == Closed && !isConnected
      ensures Valid()
    {
      socket.state := Closed;
      isConnected := false;
    }

    /** `connect(url)`: closes the held socket, then opens a new one and holds it, with
        the URL selected. `ioThrows` stands for the socket factory throwing, which leaves
        the held socket (now closed) and the selection as they were. */
    method Connect(url: string, ioThrows: bool) returns (threw: bool)
      requires Valid()
      modifies this, sockets
      ensures Valid()
      ensures threw == ioThrows
      ensures !isConnected
      ensures old(socket) != null ==> old(socket).state == Closed
      ensures ioThrows ==> socket == old(socket) && selectedServer == old(selectedServer)
                           && sockets == old(sockets)
      ensures !ioThrows ==> socket != null && fresh(socket) && socket.url == url
                            && socket.state == Connecting && selectedServer == url
                            && sockets == old(sockets) + {socket}
      ensures commandMode == old(commandMode)
    {
      if socket != null {
        CloseHeld();
      }
      if ioThrows {
        return true;
      }
      var s := new Socket(url);
      sockets := sockets + {s};
      socket := s;
      selectedServer := url;
      return false;
    }

    /** `disconnect()`: with a socket held, closes it, drops it and clears the flag and the
        selection; with none, does nothing. */
    method Disconnect()
      requires Valid()
      modifies this, sockets
      ensures Valid()
      ensures socket == null && !isConnected
      ensures old(socket) != null ==> old(socket).state == Closed && selectedServer == ""
      ensures old(socket) == null ==> selectedServer == old(selectedServer)
      ensures sockets == old(sockets) && commandMode == old(commandMode)
    {
      if socket != null {
        CloseHeld();
        socket := null;
        selectedServer := "";
      }
    }

    /** The exported `setSelectedServer`. */
    method SetSelectedServer(value: string)
      requires Valid()
      modifies this`selectedServer
      ensures Valid() && selectedServer == value
    {
      selectedServer := value;
    }

    /** The exported `setCommandMode`. */
    method SetCommandMode(mode: string)
      requires Valid()
      modifies this`commandMode
      ensures Valid() && commandMode == mode
    {
      commandMode := mode;
    }

    /** The `connect` handler of a socket this provider opened. Only a socket still
        connecting can fire it, and that is always the one held. */
    method OnConnect(s: Socket)
      requires Valid() && s in sockets && s.state == Connecting
      modifies this, s
      ensures Valid()
      ensures s == old(socket) && socket == s && s.state == Open
      ensures isConnected && selectedServer == s.url
      ensures sockets == old(sockets) && commandMode == old(commandMode)
    {
      s.state := Open;
      isConnected := true;
      socket := s;
      selectedServer := s.url;
    }

    /** The `disconnect` handler, for a drop the client did not ask for: the socket stays
        held but is closed for good. */
    method OnDisconnect(s: Socket)
      requires Valid() && s in sockets && s.state == Open
      modifies this, s
      ensures Valid()
      ensures s == socket && s.state == Closed && !isConnected
      ensures socket == old(socket) && selectedServer == old(selectedServer)
      ensures sockets == old(sockets) && commandMode == old(commandMode)
    {
      s.state := Closed;
      isConnected := false;
    }

    /** The `connect_error` handler: with reconnection disabled the socket gives up. */
    method OnConnectError(s: Socket)
      requires Valid() && s in sockets && s.state == Connecting
      modifies this, s
      ensures Valid()
      ensures s == socket && s.state == Closed && !isConnected
      ensures socket == old(socket) && selectedServer == old(selectedServer)
      ensures sockets == old(sockets) && commandMode == old(commandMode)
    {
      s.state := Closed;
      isConnected := false;
    }

    /** Every event a socket can still deliver comes from the held socket: any other
        socket this provider opened is closed. */
    lemma OnlyHeldSocketIsLive(s: Socket)
      requires Valid() && s in sockets && s.state != Closed
      ensures s == socket
    {
    }
  }
}
