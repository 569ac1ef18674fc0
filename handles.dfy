/**
 * Actor addresses (`Addr<Client>`, `Addr<Server>`). The runtime hands them
 * out; the relay only stores, copies and compares them, so they are opaque
 * handles here.
 */
module Handles {
  datatype ClientAddr = ClientAddr(handle: nat)

  datatype ServerAddr = ServerAddr(handle: nat)
}
