/** The optional value used for leader lookups, packet payloads and the leader a forwarding step
    reports. */
module Wrappers {

  datatype Option<+T> = None | Some(value: T)
}
