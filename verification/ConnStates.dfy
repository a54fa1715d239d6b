/** TcpConnection::StateE, in the order a connection goes through it. */
module ConnStates {

  datatype ConnState = Connecting | Connected | Disconnecting | Disconnected

  function Rank(st: ConnState): nat {
    match st case Connecting => 0 case Connected => 1 case Disconnecting => 2 case Disconnected => 3
  }

  /** connected, or on the way down: what handleClose and forceCloseInLoop ask for. */
  predicate Open(st: ConnState) {
    st == Connected || st == Disconnecting
  }
}
