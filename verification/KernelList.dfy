/** The WDK's intrusive circular doubly-linked list, on real links, against a ghost sequence. */
module KernelList {
  import opened Bytes

  /** An EDR_EVENT_ENTRY: the embedded LIST_ENTRY and the event bytes (DataSize is their number),
      which are filled in before the entry is linked and never change. A list head is an entry
      whose data is not used; CONTAINING_RECORD is the identity here. */
  class Entry {
    var flink: Entry?
    var blink: Entry?
    const data: bytes

    constructor (data: bytes)
      ensures this.data == data
    {
      this.data := data;
      flink, blink := null, null;
    }
  }

  /** The node at position i of the circle: one of s, or the head just before and just after them. */
  ghost function At(head: Entry, s: seq<Entry>, i: int): Entry {
    if 0 <= i < |s| then s[i] else head
  }

  /** The entries s, in order, form a circle through head: flink steps forward, blink is its inverse. */
  ghost predicate Ring(head: Entry, s: seq<Entry>)
    reads head, s
  {
    && head !in s
    && (forall i, j :: 0 <= i < j < |s| ==> s[i] != s[j])
    && head.flink == At(head, s, 0)
    && head.blink == At(head, s, |s| - 1)
    && (forall i {:trigger s[i].flink} :: 0 <= i < |s| ==> s[i].flink == At(head, s, i + 1))
    && (forall i {:trigger s[i].blink} :: 0 <= i < |s| ==> s[i].blink == At(head, s, i - 1))
  }

  method InitializeListHead(head: Entry)
    modifies head`flink, head`blink
    ensures Ring(head, [])
  {
    head.flink := head;
    head.blink := head;
  }

  method IsListEmpty(head: Entry, ghost s: seq<Entry>) returns (empty: bool)
    requires Ring(head, s)
    ensures empty <==> s == []
  {
    empty := head.flink == head;
  }

  method InsertTailList(head: Entry, e: Entry, ghost s: seq<Entry>)
    requires Ring(head, s) && e != head && e !in s
    modifies head`blink, head.blink`flink, e`flink, e`blink
    ensures Ring(head, s + [e])
  {
    var tail: Entry := head.blink;
    e.flink := head;
    e.blink := tail;
    tail.flink := e;
    head.blink := e;
  }

  /** The links that a circle has once its entry i is bypassed. */
  ghost predicate Bypassed(head: Entry, s: seq<Entry>, i: nat)
    requires i < |s|
    reads head, s
  {
    && head !in s
    && (forall j, k :: 0 <= j < k < |s| ==> s[j] != s[k])
    && head.flink == At(head, s, if i == 0 then 1 else 0)
    && head.blink == At(head, s, if i == |s| - 1 then |s| - 2 else |s| - 1)
    && (forall j {:trigger s[j].flink} :: 0 <= j < |s| && j != i ==>
          s[j].flink == At(head, s, if j == i - 1 then j + 2 else j + 1))
    && (forall j {:trigger s[j].blink} :: 0 <= j < |s| && j != i ==>
          s[j].blink == At(head, s, if j == i + 1 then j - 2 else j - 1))
  }

  function Without<T>(s: seq<T>, i: nat): seq<T>
    requires i < |s|
  {
    s[..i] + s[i + 1..]
  }

  lemma WithoutAt(head: Entry, s: seq<Entry>, i: nat, k: int)
    requires i < |s| && -1 <= k < |s|
    ensures |Without(s, i)| == |s| - 1
    ensures At(head, Without(s, i), k) == At(head, s, if k < i then k else k + 1)
  {
  }

  lemma BypassedLink(head: Entry, s: seq<Entry>, i: nat, k: nat)
    requires i < |s| && Bypassed(head, s, i) && k < |s| - 1
    ensures |Without(s, i)| == |s| - 1
    ensures Without(s, i)[k].flink == At(head, Without(s, i), k + 1)
    ensures Without(s, i)[k].blink == At(head, Without(s, i), k - 1)
  {
    hide Without;
    WithoutAt(head, s, i, k);
    WithoutAt(head, s, i, k + 1);
    WithoutAt(head, s, i, k - 1);
  }

  lemma BypassedRing(head: Entry, s: seq<Entry>, i: nat)
    requires i < |s| && Bypassed(head, s, i)
    ensures Ring(head, Without(s, i))
  {
    hide Without, At;
    WithoutAt(head, s, i, 0);
    WithoutAt(head, s, i, |s| - 2);
    BypassedDistinct(head, s, i);
    forall k | 0 <= k < |s| - 1
      ensures Without(s, i)[k].flink == At(head, Without(s, i), k + 1)
      ensures Without(s, i)[k].blink == At(head, Without(s, i), k - 1)
    {
      BypassedLink(head, s, i, k);
    }
  }

  lemma BypassedDistinct(head: Entry, s: seq<Entry>, i: nat)
    requires i < |s| && head !in s && forall j, k :: 0 <= j < k < |s| ==> s[j] != s[k]
    ensures var t := Without(s, i);
      head !in t && forall j, k :: 0 <= j < k < |t| ==> t[j] != t[k]
  {
  }

  /** Unlinks e, wherever it is in the list, through its own links alone. */
  method RemoveEntryList(e: Entry, ghost head: Entry, ghost s: seq<Entry>, ghost i: nat)
    requires Ring(head, s) && i < |s| && s[i] == e
    modifies At(head, s, i - 1)`flink, At(head, s, i + 1)`blink
    ensures Ring(head, Without(s, i))
  {
    var next: Entry := e.flink;
    var previous: Entry := e.blink;
    previous.flink := next;
    next.blink := previous;
    BypassedRing(head, s, i);
  }

  /** RemoveEntryList on the first entry, the only one the queue code unlinks. */
  method UnlinkFirst(e: Entry, ghost head: Entry, ghost s: seq<Entry>)
    requires Ring(head, s) && s != [] && s[0] == e
    modifies head`flink, At(head, s, 1)`blink
    ensures Ring(head, s[1..])
  {
    hide Ring;
    RemoveEntryList(e, head, s, 0);
    assert Without(s, 0) == s[1..];
  }

  method RemoveHeadList(head: Entry, ghost s: seq<Entry>) returns (e: Entry)
    requires Ring(head, s) && s != []
    modifies head`flink, At(head, s, 1)`blink
    ensures e == s[0] && Ring(head, s[1..])
  {
    e := head.flink;
    var next: Entry := e.flink;
    head.flink := next;
    next.blink := head;
  }

  /** The O(1) splice of CleanupEventBuffer: the whole list moves to a local head. */
  method Splice(from: Entry, to: Entry, ghost s: seq<Entry>)
    requires Ring(from, s) && Ring(to, []) && to != from && to !in s
    modifies from, to, from.flink`blink, from.blink`flink
    ensures Ring(to, s) && Ring(from, [])
  {
    var empty := IsListEmpty(from, s);
    if !empty {
      to.flink := from.flink;
      to.blink := from.blink;
      var first: Entry := to.flink;
      var last: Entry := to.blink;
      first.blink := to;
      last.flink := to;
      InitializeListHead(from);
    }
  }

  /** Two lists that share no node. */
  ghost predicate Apart(head: Entry, s: seq<Entry>, head': Entry, s': seq<Entry>) {
    && head != head' && head !in s' && head' !in s
    && forall e :: e in s ==> e !in s'
  }

  lemma ApartMove(head: Entry, s: seq<Entry>, localHead: Entry, local: seq<Entry>)
    requires Apart(head, s, localHead, local) && s != [] && s[0] !in s[1..] && head !in s && localHead !in local
    ensures Apart(head, s[1..], localHead, local + [s[0]])
    ensures s[0] != localHead && s[0] !in local
  {
  }

  /** One turn of phase 1 of DrainEvents: the first entry moves to the tail of a local list. */
  method MoveFirst(head: Entry, ghost s: seq<Entry>, localHead: Entry, ghost local: seq<Entry>) returns (e: Entry)
    requires Ring(head, s) && Ring(localHead, local) && Apart(head, s, localHead, local)
    requires s != []
    modifies head`flink, At(head, s, 1)`blink, localHead`blink, localHead.blink`flink
    modifies At(head, s, 0)`flink, At(head, s, 0)`blink
    ensures e == s[0]
    ensures Ring(head, s[1..]) && Ring(localHead, local + [e])
    ensures Apart(head, s[1..], localHead, local + [e])
  {
    e := head.flink;
    assert e == s[0] && e !in s[1..];
    ApartMove(head, s, localHead, local);
    UnlinkFirst(e, head, s);
    assert Ring(localHead, local);
    InsertTailList(localHead, e, local);
  }
}
