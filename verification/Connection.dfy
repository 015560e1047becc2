/** A connection to a database server, as nginx and the driver see it. */
module Connection {
  import opened Wrappers

  /** States of the request's protocol machine. */
  datatype State = Connect | SendQuery | RecvCols | RecvRows | Idle

  /** One connection. The first row of fields is fixed when it is opened; the second
      is the state of the session on the server side; the third are nginx timers. */
  datatype Conn = Conn(
    id: nat, peer: nat, address: nat, charsetPeer: bool,
    ready: bool, namesSet: nat, unread: bool, served: nat,
    readTimer: Option<int>, writeTimer: Option<int>)
  {
    /** The same connection, whatever its timers. */
    function Untimed(): Conn { this.(readTimer := None, writeTimer := None) }
    predicate NoTimers() { readTimer == None && writeTimer == None }
  }

  /** What a request has in place of a connection. A placeholder stands for the
      descriptor 0 that a rejected request is given until its handler returns. */
  datatype PeerConn = NoConn | Placeholder(timer: Option<int>) | Live(conn: Conn)
}
