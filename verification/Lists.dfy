/**
 Intrusive circular doubly linked lists (lists.c): a list is a sentinel link whose `next` and
 `prev` chains pass through every member and come back; each member's `head` is the sentinel.
 */
module Lists {

  datatype Option<+T> = None | Some(value: T)

  class Link<T> {
    var next: Link<T>
    var prev: Link<T>
    var head: Link<T>
    const o: T  // set by fd_list_init, never written by a list operation

    /** fd_list_init: a link alone is also an empty list. */
    constructor (obj: T)
      ensures IsList(this, []) && o == obj
    {
      next, prev, head, o := this, this, this, obj;
    }
  }

  ghost predicate Distinct<T>(s: seq<T>) {
    forall i, j :: 0 <= i < j < |s| ==> s[i] != s[j]
  }

  ghost predicate Apart<T>(s: seq<T>, t: seq<T>) {
    forall i, j :: 0 <= i < |s| && 0 <= j < |t| ==> s[i] != t[j]
  }

  /** One trip around the ring, from the sentinel back to itself. */
  ghost function Trip<T>(senti: Link<T>, items: seq<Link<T>>): seq<Link<T>> {
    [senti] + items + [senti]
  }

  /** The links of `items`, in order, are exactly the members of the list of sentinel `senti`. */
  ghost predicate IsList<T>(senti: Link<T>, items: seq<Link<T>>)
    reads {senti} + set x | x in items
  {
    && senti !in items && Distinct(items)
    && senti.head == senti
    && (forall x :: x in items ==> x.head == senti)
    && Linked(Trip(senti, items))
  }

  /** Consecutive links point at each other. */
  ghost predicate Linked<T>(trip: seq<Link<T>>)
    reads set x | x in trip
  {
    forall i :: 0 <= i < |trip| - 1 ==> trip[i].next == trip[i + 1] && trip[i + 1].prev == trip[i]
  }

  /** The objects held by the links, in list order. */
  ghost function Objects<T>(items: seq<Link<T>>): (s: seq<T>) {
    seq(|items|, i requires 0 <= i < |items| => items[i].o)
  }

  /** The pointers alone determine the members: no two sequences describe the same ring. */
  lemma {:induction false} ListIsUnique<T>(senti: Link<T>, a: seq<Link<T>>, b: seq<Link<T>>)
    requires IsList(senti, a) && IsList(senti, b)
    ensures a == b
  {
    if |a| <= |b| {
      ShorterListIsTheList(senti, a, b);
    } else {
      ShorterListIsTheList(senti, b, a);
    }
  }

  lemma {:induction false} ShorterListIsTheList<T>(senti: Link<T>, a: seq<Link<T>>, b: seq<Link<T>>)
    requires IsList(senti, a) && IsList(senti, b) && |a| <= |b|
    ensures a == b
  {
    SameTrip(senti, a, b, |a| + 1);
    BackAtTheEnd(senti, b, |a| + 1);
    forall i | 0 <= i < |a| ensures a[i] == b[i] {
      SameTrip(senti, a, b, i + 1);
    }
  }

  /** A trip is back at the sentinel only at its end. */
  lemma BackAtTheEnd<T>(senti: Link<T>, items: seq<Link<T>>, n: nat)
    requires IsList(senti, items) && 0 < n <= |items| + 1 && Trip(senti, items)[n] == senti
    ensures n == |items| + 1
  {
  }

  /** Two trips from one sentinel meet the same links as long as both go on. */
  lemma {:induction false} SameTrip<T>(senti: Link<T>, a: seq<Link<T>>, b: seq<Link<T>>, n: nat)
    requires Linked(Trip(senti, a)) && Linked(Trip(senti, b)) && |a| <= |b| && n <= |a| + 1
    ensures Trip(senti, a)[n] == Trip(senti, b)[n]
  {
    if n > 0 {
      SameTrip(senti, a, b, n - 1);
      NextOnTrip(Trip(senti, a), n - 1);
      NextOnTrip(Trip(senti, b), n - 1);
    }
  }

  lemma NextOnTrip<T>(trip: seq<Link<T>>, n: nat)
    requires Linked(trip) && n < |trip| - 1
    ensures trip[n].next == trip[n + 1]
  {
  }

  /** In a list, `next` and `prev` undo each other at every link, sentinel included. */
  lemma NextAndPrevAreInverse<T>(senti: Link<T>, items: seq<Link<T>>, x: Link<T>)
    requires IsList(senti, items) && x in [senti] + items
    ensures x.next in [senti] + items && x.prev in [senti] + items
    ensures x.next.prev == x && x.prev.next == x
  {
    var trip := Trip(senti, items);
    var i :| 0 <= i <= |items| && ([senti] + items)[i] == x;
    assert trip[i] == x && trip[i + 1] in [senti] + items;
    var j := if i == 0 then |items| else i - 1;
    assert trip[j + 1] == x && trip[j] in [senti] + items;
  }

  /** A single link is no member of a list other than its own. */
  lemma SingleIsOutside<T>(senti: Link<T>, items: seq<Link<T>>, item: Link<T>)
    requires IsList(senti, items) && IsList(item, []) && senti != item
    ensures item !in items
  {
  }

  /** list_insert_after: `ref` is the k-th link of the trip (0 is the sentinel). */
  method InsertAfter<T>(ref: Link<T>, item: Link<T>, ghost senti: Link<T>, ghost items: seq<Link<T>>, ghost k: nat)
    requires IsList(senti, items) && k <= |items| && ref == ([senti] + items)[k]
    requires IsList(item, []) && ref.head != item
    modifies item, ref`next, ref.next`prev
    ensures IsList(senti, Inserted(items, item, k))
  {
    ghost var trip := Trip(senti, items);
    assert trip[k] == ref && trip[k].next == trip[k + 1];
    SingleIsOutside(senti, items, item);
    item.prev := ref;
    item.next := ref.next;
    item.head := ref.head;
    ref.next.prev := item;
    ref.next := item;
    InsertedIsList(senti, items, item, k);
  }

  /** list_insert_before: the new link comes just before `ref` on the trip. */
  method InsertBefore<T>(ref: Link<T>, item: Link<T>, ghost senti: Link<T>, ghost items: seq<Link<T>>, ghost k: nat)
    requires IsList(senti, items) && k <= |items| && ref == (items + [senti])[k]
    requires IsList(item, []) && ref.head != item
    modifies item, ref`prev, ref.prev`next
    ensures IsList(senti, Inserted(items, item, k))
  {
    ghost var trip := Trip(senti, items);
    assert trip[k + 1] == ref && trip[k + 1].prev == trip[k];
    SingleIsOutside(senti, items, item);
    item.prev := ref.prev;
    item.next := ref;
    item.head := ref.head;
    ref.prev.next := item;
    ref.prev := item;
    InsertedIsList(senti, items, item, k);
  }

  ghost function Inserted<T>(s: seq<T>, x: T, k: nat): seq<T>
    requires k <= |s|
  {
    s[..k] + [x] + s[k..]
  }

  lemma InsertedDistinct<T>(s: seq<T>, x: T, k: nat)
    requires k <= |s| && Distinct(s) && x !in s
    ensures Distinct(Inserted(s, x, k))
    ensures forall y :: y in Inserted(s, x, k) <==> y == x || y in s
  {
  }

  /** A trip cut open after position k and closed again through `item`. */
  lemma RelinkedTrip<T>(senti: Link<T>, items: seq<Link<T>>, item: Link<T>, k: nat)
    requires k <= |items|
    requires var trip := Trip(senti, items);
             && Linked(trip[..k + 1]) && Linked(trip[k + 1..])
             && trip[k].next == item && item.prev == trip[k]
             && item.next == trip[k + 1] && trip[k + 1].prev == item
    ensures Linked(Trip(senti, Inserted(items, item, k)))
  {
    var trip, trip' := Trip(senti, items), Trip(senti, Inserted(items, item, k));
    forall i | 0 <= i < |trip'| - 1 ensures trip'[i].next == trip'[i + 1] && trip'[i + 1].prev == trip'[i] {
      if i < k {
        assert trip'[i] == trip[..k + 1][i] && trip'[i + 1] == trip[..k + 1][i + 1];
      } else if i > k + 1 {
        var j := i - k - 2;
        assert trip'[i] == trip[k + 1..][j] && trip'[i + 1] == trip[k + 1..][j + 1];
      }
    }
  }

  /** A list with a new member after its k-th link is a list, once the pointers around it are right. */
  lemma InsertedIsList<T>(senti: Link<T>, items: seq<Link<T>>, item: Link<T>, k: nat)
    requires k <= |items| && senti !in items && item != senti && item !in items && Distinct(items)
    requires senti.head == senti && item.head == senti && forall x :: x in items ==> x.head == senti
    requires var trip := Trip(senti, items);
             && Linked(trip[..k + 1]) && Linked(trip[k + 1..])
             && trip[k].next == item && item.prev == trip[k]
             && item.next == trip[k + 1] && trip[k + 1].prev == item
    ensures IsList(senti, Inserted(items, item, k))
  {
    InsertedDistinct(items, item, k);
    RelinkedTrip(senti, items, item, k);
  }

  /** A trip closed again without its k-th link. */
  lemma ClosedTrip<T>(senti: Link<T>, items: seq<Link<T>>, k: nat)
    requires 0 < k <= |items|
    requires var trip := Trip(senti, items);
             && Linked(trip[..k]) && Linked(trip[k + 1..])
             && trip[k - 1].next == trip[k + 1] && trip[k + 1].prev == trip[k - 1]
    ensures Linked(Trip(senti, items[..k - 1] + items[k..]))
  {
    var trip, trip' := Trip(senti, items), Trip(senti, items[..k - 1] + items[k..]);
    forall i | 0 <= i < |trip'| - 1 ensures trip'[i].next == trip'[i + 1] && trip'[i + 1].prev == trip'[i] {
      if i < k - 1 {
        assert trip'[i] == trip[..k][i] && trip'[i + 1] == trip[..k][i + 1];
      } else if i >= k {
        assert trip'[i] == trip[k + 1..][i - k] && trip'[i + 1] == trip[k + 1..][i - k + 1];
      }
    }
  }

  /** fd_list_unlink: a member leaves its list and becomes single; a sentinel or a single link is left alone. */
  method Unlink<T>(item: Link<T>, ghost senti: Link<T>, ghost items: seq<Link<T>>, ghost k: nat)
    requires IsList(senti, items)
    requires k <= |items| && item == ([senti] + items)[k]
    modifies item, item.next`prev, item.prev`next
    ensures if k == 0 then unchanged(item) && unchanged(item.next) && unchanged(item.prev)
            else IsList(senti, items[..k - 1] + items[k..]) && IsList(item, [])
  {
    ghost var trip := Trip(senti, items);
    assert trip[k] == item;
    assert k > 0 ==> item == items[k - 1] && item.head == senti;
    if item.head == item {
      return;
    }
    assert trip[k - 1].next == item && trip[k].next == trip[k + 1];
    item.next.prev := item.prev;
    item.prev.next := item.next;
    item.next := item;
    item.prev := item;
    item.head := item;
    RestIsList(senti, items, k);
  }

  /** What is left of a list without its k-th member is a list, once the neighbours point at each other. */
  lemma RestIsList<T>(senti: Link<T>, items: seq<Link<T>>, k: nat)
    requires 0 < k <= |items| && senti !in items && Distinct(items) && senti.head == senti
    requires forall x :: x in items && x != items[k - 1] ==> x.head == senti
    requires var trip := Trip(senti, items);
             && Linked(trip[..k]) && Linked(trip[k + 1..])
             && trip[k - 1].next == trip[k + 1] && trip[k + 1].prev == trip[k - 1]
    ensures IsList(senti, items[..k - 1] + items[k..])
  {
    ClosedTrip(senti, items, k);
    var rest := items[..k - 1] + items[k..];
    forall i | 0 <= i < |rest| ensures rest[i] in items && rest[i] != items[k - 1] {
      assert rest[i] == if i < k - 1 then items[i] else items[i + 1];
    }
  }

  /** fd_list_move_end: the members of `senti` follow those of `ref`; `senti` is left empty. */
  method MoveEnd<T>(ref: Link<T>, senti: Link<T>, ghost a: seq<Link<T>>, ghost b: seq<Link<T>>)
    requires IsList(ref, a) && IsList(senti, b) && ref != senti
    modifies ref, senti, a, b
    ensures IsList(ref, a + b) && IsList(senti, [])
  {
    assert Trip(senti, b)[0].next == Trip(senti, b)[1];
    if senti.next == senti {
      assert b == [];
      assert a + b == a;
      return;
    }
    assert Apart([ref] + a, [senti] + b) by {
      assert forall i :: 0 <= i <= |a| ==> ([ref] + a)[i].head == ref;
      assert forall i :: 0 <= i <= |b| ==> ([senti] + b)[i].head == senti;
    }
    Adopt(ref, senti, b);
    Splice(ref, senti, a, b);
  }

  /** The loop of fd_list_move_end: every member of `senti` takes `ref` as its head. */
  method Adopt<T>(ref: Link<T>, senti: Link<T>, ghost b: seq<Link<T>>)
    requires IsList(senti, b)
    modifies (set x | x in b)`head
    ensures forall x :: x in b ==> x.head == ref
  {
    ghost var trip := Trip(senti, b);
    var li := senti.next;
    ghost var n := 0;
    assert trip[0].next == trip[1];
    while li != senti
      invariant 0 <= n <= |b| && li == trip[n + 1]
      invariant forall i :: 0 <= i < n ==> b[i].head == ref
      decreases |b| - n
    {
      assert trip[n + 1] == b[n] && trip[n + 1].next == trip[n + 2];
      li.head := ref;
      li := li.next;
      n := n + 1;
    }
    assert n == |b|;
  }

  /** The pointer surgery of fd_list_move_end, on two disjoint non-empty rings. */
  method Splice<T>(ref: Link<T>, senti: Link<T>, ghost a: seq<Link<T>>, ghost b: seq<Link<T>>)
    requires Linked(Trip(ref, a)) && Linked(Trip(senti, b)) && b != []
    requires ref !in a && senti !in b && Distinct(a) && Distinct(b)
    requires Apart([ref] + a, [senti] + b)
    modifies ref, senti, (set x | x in a)`next, (set x | x in b)`next, (set x | x in b)`prev
    ensures Linked(Trip(ref, a + b)) && Linked(Trip(senti, []))
    ensures ref.head == old(ref.head) && senti.head == old(senti.head)
  {
    ghost var ta, tb, trip := Trip(ref, a), Trip(senti, b), Trip(ref, a + b);
    assert ta[|a| + 1].prev == ta[|a|];
    assert tb[0].next == tb[1] == b[0] && tb[|b| + 1].prev == tb[|b|] == b[|b| - 1];
    senti.next.prev := ref.prev;
    ref.prev.next := senti.next;
    senti.prev.next := ref;
    ref.prev := senti.prev;
    senti.prev := senti;
    senti.next := senti;
    assert forall i :: 0 <= i <= |a| ==> trip[i] == ta[i];
    assert forall i :: |a| < i <= |a| + |b| ==> trip[i] == tb[i - |a|];
    assert Apart([ref] + a, [senti] + b);
    forall i | 0 <= i < |a| ensures ta[i].next == ta[i + 1] && ta[i + 1].prev == ta[i] {
      assert ta[i] == ([ref] + a)[i] && ta[i + 1] == ([ref] + a)[i + 1];
    }
    forall i | 1 <= i < |b| ensures tb[i].next == tb[i + 1] && tb[i + 1].prev == tb[i] {
      assert tb[i] == ([senti] + b)[i] && tb[i + 1] == ([senti] + b)[i + 1];
    }
  }

  /** What fd_list_insert_ordered asks of its comparison callback: antisymmetric sign, transitive `<`. */
  ghost predicate Ordering<T(!new)>(cmp: (T, T) -> int) {
    && (forall x, y :: cmp(x, y) < 0 <==> cmp(y, x) > 0)
    && (forall x, y, z :: cmp(x, y) < 0 && cmp(y, z) < 0 ==> cmp(x, z) < 0)
  }

  ghost predicate StrictlySorted<T>(s: seq<T>, cmp: (T, T) -> int) {
    forall i, j :: 0 <= i < j < |s| ==> cmp(s[i], s[j]) < 0
  }

  /** Position k splits a sorted sequence around the key of x: smaller before, larger from k on. */
  ghost predicate Splits<T>(s: seq<T>, x: T, k: nat, cmp: (T, T) -> int) {
    && k <= |s|
    && (forall i :: 0 <= i < k ==> cmp(s[i], x) < 0)
    && (forall i :: k <= i < |s| ==> cmp(x, s[i]) < 0)
  }

  lemma SortedInsertion<T>(s: seq<T>, x: T, k: nat, cmp: (T, T) -> int)
    requires StrictlySorted(s, cmp) && Splits(s, x, k, cmp)
    ensures StrictlySorted(Inserted(s, x, k), cmp)
  {
  }

  /** In a sorted sequence, a key below that of s[k] is below all that follow. */
  lemma BelowTheRest<T(!new)>(s: seq<T>, x: T, k: nat, cmp: (T, T) -> int)
    requires Ordering(cmp) && StrictlySorted(s, cmp) && k < |s| && cmp(x, s[k]) < 0
    ensures forall i :: k <= i < |s| ==> cmp(x, s[i]) < 0
  {
  }

  lemma PlaceIsRight<T(!new)>(items: seq<Link<T>>, item: Link<T>, k: nat, cmp: (T, T) -> int)
    requires Ordering(cmp) && StrictlySorted(Objects(items), cmp) && Splits(Objects(items), item.o, k, cmp)
    ensures StrictlySorted(Objects(Inserted(items, item, k)), cmp)
    ensures forall x :: x in Objects(items) ==> cmp(item.o, x) != 0
  {
    SortedInsertion(Objects(items), item.o, k, cmp);
    assert Objects(Inserted(items, item, k)) == Inserted(Objects(items), item.o, k);
  }

  /** The search loop of fd_list_insert_ordered. */
  method FindPlace<T(!new)>(head: Link<T>, item: Link<T>, cmp: (T, T) -> int, ghost items: seq<Link<T>>)
      returns (ptr: Link<T>, duplicate: Option<T>, ghost k: nat)
    requires IsList(head, items) && Ordering(cmp) && StrictlySorted(Objects(items), cmp)
    ensures k <= |items| && ptr == ([head] + items)[k]
    ensures duplicate.Some? ==> duplicate.value in Objects(items) && cmp(item.o, duplicate.value) == 0
    ensures duplicate.None? ==> StrictlySorted(Objects(Inserted(items, item, k)), cmp)
    ensures duplicate.None? ==> forall x :: x in Objects(items) ==> cmp(item.o, x) != 0
  {
    ghost var objects := Objects(items);
    ghost var trip := Trip(head, items);
    ptr, k, duplicate := head, 0, None;
    NextOnTrip(trip, 0);
    while ptr.next != head
      invariant k <= |items| && ptr == trip[k] && ptr.next == trip[k + 1]
      invariant forall i :: 0 <= i < k ==> cmp(objects[i], item.o) < 0
      decreases |items| - k
    {
      assert trip[k + 1] == items[k];
      var c := cmp(item.o, ptr.next.o);
      if c == 0 {
        duplicate := Some(ptr.next.o);
        assert objects[k] == duplicate.value;
        return;
      }
      if c < 0 {
        BelowTheRest(objects, item.o, k, cmp);
        break;
      }
      ptr := ptr.next;
      k := k + 1;
      NextOnTrip(trip, k);
    }
    PlaceIsRight(items, item, k, cmp);
  }

  /**
   fd_list_insert_ordered: `duplicate` is Some(object) (the EEXIST result) exactly when an object with the
   same key is already listed, and then nothing changes; otherwise the item enters at the one place that
   keeps the order.
   */
  method InsertOrdered<T(!new)>(head: Link<T>, item: Link<T>, cmp: (T, T) -> int, ghost items: seq<Link<T>>)
      returns (duplicate: Option<T>, ghost k: nat)
    requires IsList(head, items) && IsList(item, []) && head != item
    requires Ordering(cmp) && StrictlySorted(Objects(items), cmp)
    modifies head, item, items
    ensures duplicate.Some? <==> exists x :: x in Objects(items) && cmp(item.o, x) == 0
    ensures duplicate.Some? ==>
              && duplicate.value in Objects(items) && cmp(item.o, duplicate.value) == 0
              && IsList(head, items) && IsList(item, [])
    ensures duplicate.None? ==>
              && k <= |items| && IsList(head, Inserted(items, item, k))
              && StrictlySorted(Objects(Inserted(items, item, k)), cmp)
  {
    var ptr;
    ptr, duplicate, k := FindPlace(head, item, cmp, items);
    if duplicate.None? {
      NextAndPrevAreInverse(head, items, ptr);
      InsertAfter(ptr, item, head, items, k);
    }
  }
}
