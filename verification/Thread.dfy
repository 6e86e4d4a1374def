/** The two threads of a server that take part in elections: the receive loop and the failure monitor. */
module Threads {
  datatype Thread = Receiver | Monitor
}
