/** The counting semaphore of src/semaphore.h. A thread waiting in Acquire is a step that is not enabled. */
module Semaphores {

  class Semaphore {
    var count: int

    constructor (count: int)
      ensures this.count == count
    {
      this.count := count;
    }

    method Release()
      modifies this
      ensures count == old(count) + 1
    {
      count := count + 1;
    }

    /** The section after the wait: cv_.wait returns when count_ > 0. */
    method Acquire()
      requires count > 0
      modifies this
      ensures count == old(count) - 1
    {
      count := count - 1;
    }
  }
}
