/** Shared small definitions. */
module Common {

  datatype Option<T> = None | Some(value: T)

  /** How far a fragment write gets: it fails when `cut` bytes are in the file, the message is
      stored but not synced (which the writer reports as an error), or stored. */
  datatype Stored = NotStored(cut: nat) | Unsynced | Synced

  function Min(a: nat, b: nat): nat {
    if a < b then a else b
  }
}
