/** How a parked waiter stands to a released position: it asked for that one, takes
    whatever comes, or is waiting for others. */
module WakeInterest {
  datatype Interest = Reserved | Any | Declines
}
