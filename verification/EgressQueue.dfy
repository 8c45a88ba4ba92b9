/** The client's egress FIFO (queue.go): a ring buffer over a fixed array. */
module EgressQueue {
  import opened Basics

  /** The `n` items found from slot `r` on, walking round the ring `s`. */
  function Ring<T>(s: seq<T>, r: nat, n: nat): (q: seq<T>)
    requires n <= |s| && (n > 0 ==> r < |s|)
  {
    seq(n, i requires 0 <= i < n => s[if r + i < |s| then r + i else r + i - |s|])
  }

  /** Go's `(head + k) % size` for the distances the queue ever uses. */
  lemma WrapOnce(k: nat, size: nat)
    requires k < 2 * size
    ensures k % size == if k < size then k else k - size
  {
    if k >= size {
      assert k == size * (k / size) + k % size;
      assert size * 0 <= size * (k / size) < size * 2;
    }
  }

  class Queue<T(==)> {
    const blank: T
    const content: array<T>
    var readHead: nat
    var writeHead: nat
    var len: nat

    ghost predicate Valid()
      reads this
    {
      && len <= content.Length
      && (content.Length == 0 ==> readHead == writeHead == 0)
      && (content.Length > 0 ==>
            && readHead < content.Length
            && writeHead == if readHead + len < content.Length then readHead + len else readHead + len - content.Length)
    }

    ghost function Contents(): (q: seq<T>)
      requires Valid()
      reads this, content
      ensures |q| == len
    {
      Ring(content[..], readHead, len)
    }

    constructor (capacity: nat, blank: T)
      ensures Valid() && fresh(content) && content.Length == capacity && Contents() == []
    {
      this.blank := blank;
      content := new T[capacity](_ => blank);
      readHead, writeHead, len := 0, 0, 0;
    }

    /** Appends `e` unless the queue is full; a full queue is left alone. */
    method Push(e: T) returns (ok: bool)
      requires Valid()
      modifies this, content
      ensures Valid()
      ensures ok <==> |old(Contents())| < content.Length
      ensures Contents() == if ok then old(Contents()) + [e] else old(Contents())
    {
      if len >= content.Length {
        return false;
      }
      ghost var before := content[..];
      WrapOnce(writeHead + 1, content.Length);
      content[writeHead] := e;
      assert content[..] == before[writeHead := e];
      writeHead := (writeHead + 1) % content.Length;
      len := len + 1;
      return true;
    }

    /** Removes and returns the oldest item; None is the source's ErrQueueEmpty. */
    method Pop() returns (item: Option<T>)
      requires Valid()
      modifies this, content
      ensures Valid()
      ensures old(Contents()) == [] ==> item == None && Contents() == []
      ensures old(Contents()) != [] ==>
                item == Some(old(Contents())[0]) && Contents() == old(Contents())[1..]
    {
      if len <= 0 {
        return None;
      }
      ghost var before := content[..];
      item := Some(content[readHead]);
      WrapOnce(readHead + 1, content.Length);
      content[readHead] := blank;
      assert content[..] == before[readHead := blank];
      readHead := (readHead + 1) % content.Length;
      len := len - 1;
    }

    method Peek() returns (item: Option<T>)
      requires Valid()
      ensures item == if Contents() == [] then None else Some(Contents()[0])
    {
      if len <= 0 {
        return None;
      }
      item := Some(content[readHead]);
    }
  }
}
