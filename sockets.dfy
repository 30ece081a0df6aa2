/**
 * The connected socket as the gateway sees it: an identifier, the handshake's
 * `auth.token` and `authorization` header, and the two things the core writes
 * on it, the resolved identity `teamId` and whether the connection is still open.
 */
module Sockets {
  import opened Js

  class Socket {
    const id: string
    const authToken: Option<string>
    const authorization: Option<string>
    var teamId: Option<string>
    var connected: bool

    constructor (id: string, authToken: Option<string>, authorization: Option<string>)
      ensures this.id == id && this.authToken == authToken && this.authorization == authorization
      ensures teamId == None && connected
    {
      this.id := id;
      this.authToken := authToken;
      this.authorization := authorization;
      teamId := None;
      connected := true;
    }

    /** `client.disconnect()`: the transport closes the connection. */
    method Disconnect()
      modifies this
      ensures !connected && teamId == old(teamId)
    {
      connected := false;
    }
  }
}
