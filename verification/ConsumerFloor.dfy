/** How far the slowest subscriber has come, and which positions that frees to claim. */
module ConsumerFloor {
  datatype Floor = NoConsumers | At(head: nat)
  {
    /** Yes when `pos` is less than a lap past the slowest subscriber's head. */
    predicate Permits(pos: nat, cap: nat) {
      match this
      case NoConsumers => false
      case At(head) => head >= pos || pos - head < cap
    }

    /** The floor once one more subscribed head has been read. */
    function Meet(head: nat): Floor {
      match this
      case NoConsumers => At(head)
      case At(h) => if head < h then At(head) else this
    }
  }
}
