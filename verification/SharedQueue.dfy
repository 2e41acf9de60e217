/** The queue shared between processes, as an atomic FIFO, with its lock and the critical section
    that takes it. */
module SharedQueues {
  import opened Collections

  class Lock {
    var held: bool

    constructor ()
      ensures !held
    {
      held := false;
    }
  }

  /** ctrl/critical_section.py: entering may fail on a timed acquire; leaving releases the lock
      only if entering took it. */
  class CriticalSection {
    const lock: Lock
    var acquired: bool

    constructor (lock: Lock)
      ensures this.lock == lock && !acquired
    {
      this.lock := lock;
      acquired := false;
    }

    /** `released`: another holder, if there is one, let go before the timeout. */
    method Enter(released: bool)
      requires !acquired
      modifies this`acquired, lock
      ensures acquired <==> !old(lock.held) || released
      ensures lock.held
    {
      if !lock.held || released {
        lock.held := true;
        acquired := true;
      }
    }

    method Exit()
      requires acquired ==> lock.held
      modifies this`acquired, lock
      ensures !acquired
      ensures lock.held == (old(lock.held) && !old(acquired))
    {
      if acquired {
        lock.held := false;
        acquired := false;
      }
    }
  }

  class SharedQueue<T> {
    var items: seq<T>
    const lock: Lock

    constructor ()
      ensures items == [] && fresh(lock) && !lock.held
    {
      items := [];
      lock := new Lock();
    }

    /** Raises on an empty list or a non-empty queue. */
    method Fill(list: seq<T>) returns (ok: bool)
      modifies this`items
      ensures ok <==> list != [] && old(items) == []
      ensures items == if ok then list else old(items)
    {
      if list == [] || items != [] { return false; }
      for i := 0 to |list|
        invariant items == list[..i]
      {
        items := items + [list[i]];
      }
      ok := true;
    }

    method Clear()
      modifies this`items
      ensures items == []
    {
      while items != []
        decreases |items|
      {
        items := items[1..];
      }
    }

    /** `given`: the item's truth value; an object has it, an empty string has not. Pushing an
        item without it raises. */
    method Push(item: T, given: bool) returns (ok: bool)
      modifies this`items
      ensures ok <==> given
      ensures items == if ok then old(items) + [item] else old(items)
    {
      if !given { return false; }
      items := items + [item];
      ok := true;
    }

    method PopNowait() returns (item: Option<T>)
      modifies this`items
      ensures old(items) == [] ==> item == None && items == []
      ensures old(items) != [] ==> item == Some(old(items)[0]) && items == old(items)[1..]
    {
      if items == [] { return None; }
      item := Some(items[0]);
      items := items[1..];
    }

    /** Blocks on an empty queue; this is what it does once there is an item. */
    method Pop() returns (item: T)
      requires items != []
      modifies this`items
      ensures item == old(items)[0] && items == old(items)[1..]
    {
      item := items[0];
      items := items[1..];
    }

    method IsEmpty() returns (empty: bool)
      ensures empty <==> items == []
    {
      empty := items == [];
    }
  }
}
