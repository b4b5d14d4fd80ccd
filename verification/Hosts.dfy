/** The client's hosts, and what `h_status` records of one. */
module Hosts {

  type Host = int
  type Fd = int

  datatype Status = Status(healthy: bool, sfd: Fd)
}
