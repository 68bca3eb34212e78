/** The OSAL message queue: a malloc'ed chain of nodes under a mutex and a condition variable. */
module OsalQueue {
  import opened WorkerSpec
  import opened OsalQueueSpec

  class Node {
    var data: int
    var next: Node?

    constructor (data: int)
      ensures this.data == data && this.next == null
    {
      this.data := data;
      this.next := null;
    }
  }

  class LinkedList {
    var size: int
    var node: Node?
    ghost var nodes: seq<Node>
    ghost var repr: set<Node>  // every node there ever was
    ghost var contents: seq<int>

    /** The chain from `node` runs through `nodes`, without a cycle, and `size` counts it. */
    ghost predicate Valid()
      reads this, repr
    {
      && (forall i :: 0 <= i < |nodes| ==> nodes[i] in repr)
      && size == |nodes| == |contents|
      && (|nodes| == 0 ==> node == null)
      && (|nodes| > 0 ==> node == nodes[0] && nodes[|nodes| - 1].next == null)
      && (forall i :: 0 <= i < |nodes| ==> nodes[i].data == contents[i])
      && (forall i :: 0 <= i < |nodes| - 1 ==> nodes[i].next == nodes[i + 1])
      && (forall i, k :: 0 <= i < k < |nodes| ==> nodes[i] != nodes[k])
    }

    /** OSAL_linked_list_initialize */
    constructor ()
      ensures Valid() && contents == [] && repr == {}
    {
      size := 0;
      node := null;
      nodes := [];
      repr := {};
      contents := [];
    }

    /** OSAL_linked_list_add: the new node goes behind the last one. */
    method Add(data: int, malloc: Malloc) returns (result: Status)
      requires Valid()
      modifies this, repr
      ensures Valid() && fresh(repr - old(repr))
      ensures result.OK? <==> malloc.Allocated?
      ensures result.NOMEM? <==> malloc.OutOfMemory?
      ensures contents == if malloc.Allocated? then old(contents) + [data] else old(contents)
    {
      result := ERROR;
      if !malloc.Allocated? {
        if malloc.OutOfMemory? { result := NOMEM; }
        return;
      }
      var linkedListNode := new Node(data);
      if node == null {
        node := linkedListNode;
      } else {
        var tmp: Node := node;
        ghost var k := 0;
        while tmp.next != null
          invariant 0 <= k < |nodes| && tmp == nodes[k]
          invariant k + 1 < |nodes| ==> tmp.next == nodes[k + 1]
          decreases |nodes| - k
        {
          tmp := tmp.next;
          k := k + 1;
        }
        tmp.next := linkedListNode;
      }
      size := size + 1;
      nodes := nodes + [linkedListNode];
      repr := repr + {linkedListNode};
      contents := contents + [data];
      result := OK;
    }

    /** OSAL_linked_list_get: unlinks the first node; None stands for OSAL_ERROR with `*data` untouched. */
    method Get() returns (data: Option<int>)
      requires Valid()
      modifies this
      ensures Valid() && repr == old(repr)
      ensures old(contents) == [] ==> data == None && contents == []
      ensures old(contents) != [] ==> data == Some(old(contents)[0]) && contents == old(contents)[1..]
    {
      data := None;
      if node != null {
        data := Some(node.data);
        node := node.next;
        size := size - 1;
        nodes := nodes[1..];
        contents := contents[1..];
      }
    }
  }

  /** Where the consumer of a queue leaves OSAL_queue_fetch: OSAL_OK with or without a message, or asleep. */
  datatype Fetched = Message(data: int) | NoMessage | Asleep

  class OsalQueue {
    const size: int
    const waitingMsg: LinkedList
    var consumer: Consumer
    ghost var posted: seq<int>
    ghost var delivered: seq<int>
    ghost var empty: nat

    ghost predicate Valid()
      reads this, waitingMsg, waitingMsg.repr
    {
      waitingMsg.Valid()
    }

    ghost function Abs(): Queue
      reads this, waitingMsg
    {
      Queue(waitingMsg.contents, consumer, posted, delivered, empty)
    }

    /** OSAL_queue_create; the size is stored and never read again. */
    constructor (size: int)
      ensures Valid() && Abs() == CREATED && this.size == size
      ensures fresh(waitingMsg) && waitingMsg.repr == {}
    {
      this.size := size;
      waitingMsg := new LinkedList();
      consumer := Outside;
      posted := [];
      delivered := [];
      empty := 0;
    }

    /** OSAL_queue_post: adds, and signals whether or not the add succeeded. */
    method Post(msg: int, malloc: Malloc) returns (result: Status)
      requires Valid()
      modifies this, waitingMsg, waitingMsg.repr
      ensures Valid() && fresh(waitingMsg.repr - old(waitingMsg.repr))
      ensures Abs() == Apply(old(Abs()), OsalQueueSpec.Post(msg, malloc))
      ensures result.OK? <==> malloc.Allocated?
      ensures result.NOMEM? <==> malloc.OutOfMemory?
    {
      result := waitingMsg.Add(msg, malloc);
      if result.OK? { posted := posted + [msg]; }
      if consumer.Blocked? { consumer := Blocked(true); }
    }

    /** OSAL_queue_fetch up to the wait. */
    method FetchOrWait(clock: bool) returns (r: Fetched)
      requires Valid() && consumer.Outside?
      modifies this, waitingMsg
      ensures Valid() && Abs() == Apply(old(Abs()), Enter(clock))
      ensures waitingMsg.repr == old(waitingMsg.repr)
      ensures r.Message? ==> old(waitingMsg.contents) != [] && r.data == old(waitingMsg.contents)[0]
      ensures r.Message? <==> old(waitingMsg.contents) != []
      ensures r.Asleep? <==> consumer.Blocked?
    {
      if waitingMsg.size > 0 {
        r := TakeMessage();
      } else if clock {
        consumer := Blocked(false);
        r := Asleep;
      } else {
        empty := empty + 1;
        r := NoMessage;
      }
    }

    /** OSAL_queue_fetch from the end of the wait on. */
    method FetchAfterWait(timedOut: bool) returns (r: Fetched)
      requires Valid() && consumer.Blocked?
      modifies this, waitingMsg
      ensures Valid() && Abs() == Apply(old(Abs()), if timedOut then TimedOut else Woken)
      ensures waitingMsg.repr == old(waitingMsg.repr)
      ensures r.Message? ==> old(waitingMsg.contents) != [] && r.data == old(waitingMsg.contents)[0]
      ensures r.Message? <==> !timedOut && old(waitingMsg.contents) != []
      ensures !r.Asleep?
    {
      consumer := Outside;
      if !timedOut && waitingMsg.size > 0 {
        r := TakeMessage();
      } else {
        empty := empty + 1;
        r := NoMessage;
      }
    }

    /** The fetch of the first message, under the mutex. */
    method TakeMessage() returns (r: Fetched)
      requires Valid() && waitingMsg.contents != [] && consumer.Outside?
      modifies this, waitingMsg
      ensures Valid() && Abs() == Leave(old(Abs()))
      ensures waitingMsg.repr == old(waitingMsg.repr)
      ensures r == Message(old(waitingMsg.contents)[0])
    {
      var data := waitingMsg.Get();
      delivered := delivered + [data.value];
      r := Message(data.value);
    }
  }
}
