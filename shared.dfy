/** Small value types shared by the providers and hooks of the front end. */
module Shared {

  /** A value that may be missing (a JavaScript `undefined` / `null`). */
  datatype Option<+T> = None | Some(value: T)

  /** The outcome of an operation that can throw: `Err` carries a description of the exception. */
  datatype Result<+T, +E> = Ok(value: T) | Err(error: E)

  /** The wallet address types (`ADDRESS_TYPE`): which signature scheme an address belongs to. */
  datatype AddressType = Default | Ed25519 | Bip137

  /** The connection states a presence socket reports (`ReadyState` of the socket hook). */
  datatype ReadyState = SocketUninstantiated | SocketConnecting | SocketOpen | SocketClosing | SocketClosed

  /** JavaScript truthiness of an optional string: present and non-empty. */
  predicate Truthy(s: Option<string>)
  {
    s.Some? && s.value != ""
  }
}
