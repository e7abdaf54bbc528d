/** The header bar: the server picker, filled from the server list, and the
    connect/disconnect button. */
module HeaderBar {
  import opened SocketSession

  /** One entry of the server list: a label shown in the picker and the URL it stands
      for. */
  datatype ServerOption = ServerOption(name: string, value: string)

  class Header {
    const sock: SocketProvider
    var servers: seq<ServerOption>
    var showBanner: bool

    constructor (sock: SocketProvider)
      ensures this.sock == sock && servers == [] && !showBanner
    {
      this.sock := sock;
      servers := [];
      showBanner := false;
    }

    /** The server-list effect, once the list `data` has loaded: the list is kept, and
        when no server is selected the first one is. It runs again whenever the selection
        changes. */
    method OnServersLoaded(data: seq<ServerOption>)
      requires sock.Valid()
      modifies this, sock`selectedServer
      ensures sock.Valid()
      ensures servers == data && showBanner == old(showBanner)
      ensures sock.selectedServer ==
        if old(sock.selectedServer) == "" && |data| > 0 then data[0].value else old(sock.selectedServer)
    {
      servers := data;
      if sock.selectedServer == "" && |data| > 0 {
        sock.SetSelectedServer(data[0].value);
      }
    }

    /** The connect/disconnect button. Connected: disconnect and hide the banner.
        Otherwise: connect to the selected server, and show the banner if that throws. */
    method HandleConnection(ioThrows: bool)
      requires sock.Valid()
      modifies this, sock, sock.sockets
      ensures sock.Valid() && !sock.isConnected
      ensures old(sock.isConnected) ==> sock.socket == null && !showBanner
      ensures !old(sock.isConnected) && !ioThrows ==>
        sock.socket != null && sock.socket.url == old(sock.selectedServer)
        && sock.socket in sock.sockets && sock.socket.state == Connecting
        && sock.selectedServer == old(sock.selectedServer) && showBanner == old(showBanner)
      ensures fresh(sock.sockets - old(sock.sockets))
      ensures !old(sock.isConnected) && ioThrows ==> showBanner
      ensures servers == old(servers)
    {
      if sock.isConnected {
        sock.Disconnect();
        showBanner := false;
      } else {
        var threw := sock.Connect(sock.selectedServer, ioThrows);
        if threw {
          showBanner := true;
        }
      }
    }

    /** Picking a server, as written: the choice is stored first and then `disconnect()`
        runs, which blanks the selection whenever a socket is held. */
    method HandleServerChangeAsWritten(value: string)
      requires sock.Valid()
      modifies this, sock, sock.sockets
      ensures sock.Valid() && sock.socket == null && !sock.isConnected && !showBanner
      ensures sock.selectedServer == if old(sock.socket) != null then "" else value
      ensures servers == old(servers) && sock.sockets == old(sock.sockets)
    {
      sock.SetSelectedServer(value);
      sock.Disconnect();
      showBanner := false;
    }

    /** Picking a server, corrected: the held socket is dropped first, and then the choice
        is stored, so it survives. */
    method HandleServerChange(value: string)
      requires sock.Valid()
      modifies this, sock, sock.sockets
      ensures sock.Valid() && sock.socket == null && !sock.isConnected && !showBanner
      ensures sock.selectedServer == value
      ensures servers == old(servers) && sock.sockets == old(sock.sockets)
    {
      sock.Disconnect();
      sock.SetSelectedServer(value);
      showBanner := false;
    }
  }

  /** The operator connects to the first listed server, the connection opens, and the
      operator picks `choice` from the list; the selection change re-runs the server-list
      effect. As written, the selection ends on the first listed server, whatever was
      picked. */
  method SwitchServerAsWritten(list: seq<ServerOption>, choice: string) returns (selected: string)
    requires |list| > 0 && list[0].value != "" && choice != ""
    ensures selected == list[0].value
  {
    var sock := new SocketProvider();
    var header := new Header(sock);
    header.OnServersLoaded(list);
    header.HandleConnection(false);
    var s := sock.socket;
    sock.OnConnect(s);
    header.HandleServerChangeAsWritten(choice);
    header.OnServersLoaded(list);
    selected := sock.selectedServer;
  }

  /** The same steps with the corrected handler: the picked server stays selected. */
  method SwitchServer(list: seq<ServerOption>, choice: string) returns (selected: string)
    requires |list| > 0 && list[0].value != "" && choice != ""
    ensures selected == choice
  {
    var sock := new SocketProvider();
    var header := new Header(sock);
    header.OnServersLoaded(list);
    header.HandleConnection(false);
    var s := sock.socket;
    sock.OnConnect(s);
    header.HandleServerChange(choice);
    header.OnServersLoaded(list);
    selected := sock.selectedServer;
  }

  /** A concrete input that shows the difference: two listed servers, the second picked
      while connected to the first. */
  method SwitchToSecondServer() returns (asWritten: string, corrected: string)
    ensures asWritten == "ws://boat-relay-a:3336" && corrected == "ws://boat-relay-b:3336"
    ensures asWritten != corrected
  {
    var list := [ServerOption("A", "ws://boat-relay-a:3336"), ServerOption("B", "ws://boat-relay-b:3336")];
    asWritten := SwitchServerAsWritten(list, list[1].value);
    corrected := SwitchServer(list, list[1].value);
  }
}
