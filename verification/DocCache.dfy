/**
 * The PKI document cache (pkiclient/cache.go): a map from epochs to list elements and a list in
 * recency order, changed together.  List elements have an identity of their own, as in Go.
 */
module DocCache {
  import opened Basics

  type Epoch = nat

  datatype Entry = Entry(epoch: Epoch, raw: nat)
  datatype Element = Element(id: nat, entry: Entry)

  /** Map and list; `next` is the identity of the next list element to be allocated. */
  datatype Contents = Contents(docs: map<Epoch, Element>, lru: seq<Element>, next: nat)

  const Empty := Contents(map[], [], 0)

  // ----- sequences

  function Remove<T(==)>(s: seq<T>, x: T): seq<T> {
    if s == [] then [] else if s[0] == x then s[1..] else [s[0]] + Remove(s[1..], x)
  }

  function Take<T>(s: seq<T>, n: nat): (r: seq<T>)
    ensures |r| <= n && r <= s
  {
    if |s| <= n then s else s[..n]
  }

  lemma {:induction false} RemoveAt<T>(s: seq<T>, i: nat)
    requires i < |s| && NoDuplicates(s)
    ensures Remove(s, s[i]) == s[..i] + s[i + 1..]
  {
    if i > 0 {
      RemoveAt(s[1..], i - 1);
      assert s[1..][i - 1] == s[i];
      assert [s[0]] + (s[1..][..i - 1] + s[1..][i..]) == s[..i] + s[i + 1..];
    }
  }

  lemma {:induction false} RemoveAbsent<T>(s: seq<T>, x: T)
    requires x !in s
    ensures Remove(s, x) == s
  {
    if s != [] { RemoveAbsent(s[1..], x); }
  }

  lemma RemoveMembers<T>(s: seq<T>, x: T)
    requires NoDuplicates(s)
    ensures NoDuplicates(Remove(s, x)) && x !in Remove(s, x)
    ensures forall y :: y in Remove(s, x) <==> y in s && y != x
  {
    if x in s {
      var i :| 0 <= i < |s| && s[i] == x;
      RemoveAt(s, i);
      var r := s[..i] + s[i + 1..];
      forall y | y in s && y != x ensures y in r {
        var j :| 0 <= j < |s| && s[j] == y;
        assert r[if j < i then j else j - 1] == y;
      }
    } else {
      RemoveAbsent(s, x);
    }
  }

  // ----- what the operations do

  /** cacheGet on a hit: the element found through the map moves to the front. */
  function Hit(c: Contents, epoch: Epoch): Contents
    requires epoch in c.docs
  {
    c.(lru := [c.docs[epoch]] + Remove(c.lru, c.docs[epoch]))
  }

  function PushFront(c: Contents, entry: Entry): Contents {
    var e := Element(c.next, entry);
    Contents(c.docs[entry.epoch := e], [e] + c.lru, c.next + 1)
  }

  function EvictBack(c: Contents): Contents
    requires c.lru != []
  {
    var n := |c.lru| - 1;
    c.(docs := c.docs - {c.lru[n].entry.epoch}, lru := c.lru[..n])
  }

  function EvictTo(c: Contents, max: nat): (r: Contents)
    ensures |r.lru| <= max
    decreases |c.lru|
  {
    if |c.lru| <= max then c else EvictTo(EvictBack(c), max)
  }

  function Insert(c: Contents, entry: Entry, max: nat): Contents {
    EvictTo(PushFront(c, entry), max)
  }

  // ----- map and list agree

  function Epochs(s: seq<Element>): (r: seq<Epoch>)
    ensures |r| == |s|
    ensures forall i :: 0 <= i < |s| ==> r[i] == s[i].entry.epoch
  {
    seq(|s|, i requires 0 <= i < |s| => s[i].entry.epoch)
  }

  lemma EpochsMoved(s: seq<Element>, i: nat)
    requires i < |s|
    ensures Epochs([s[i]] + (s[..i] + s[i + 1..])) == [s[i].entry.epoch] + (Epochs(s)[..i] + Epochs(s)[i + 1..])
  {
  }

  function Order(c: Contents): seq<Epoch> {
    Epochs(c.lru)
  }

  /** Exactly the same epochs in map and list, each once, the map leading to the list's own element. */
  ghost predicate Agree(c: Contents) {
    && NoDuplicates(Order(c))
    && (forall e :: e in c.lru ==> e.entry.epoch in c.docs && c.docs[e.entry.epoch] == e && e.id < c.next)
    && (forall k :: k in c.docs ==> c.docs[k] in c.lru && c.docs[k].entry.epoch == k)
  }

  lemma ElementsDistinct(c: Contents)
    requires Agree(c)
    ensures NoDuplicates(c.lru)
  {
    forall i, j | 0 <= i < j < |c.lru| ensures c.lru[i] != c.lru[j] {
      assert Order(c)[i] != Order(c)[j];
    }
  }

  /** Where the map's element for `epoch` sits in the list. */
  lemma Locate(c: Contents, epoch: Epoch) returns (i: nat)
    requires Agree(c) && epoch in c.docs
    ensures i < |c.lru| && c.lru[i] == c.docs[epoch] && Order(c)[i] == epoch
    ensures Remove(c.lru, c.docs[epoch]) == c.lru[..i] + c.lru[i + 1..]
    ensures Remove(Order(c), epoch) == Order(c)[..i] + Order(c)[i + 1..]
  {
    i :| 0 <= i < |c.lru| && c.lru[i] == c.docs[epoch];
    ElementsDistinct(c);
    RemoveAt(c.lru, i);
    RemoveAt(Order(c), i);
  }

  lemma HitOrder(c: Contents, epoch: Epoch)
    requires Agree(c) && epoch in c.docs
    ensures Order(Hit(c, epoch)) == [epoch] + Remove(Order(c), epoch)
    ensures |Hit(c, epoch).lru| == |c.lru|
  {
    var i := Locate(c, epoch);
    EpochsMoved(c.lru, i);
  }

  lemma HitMembers(c: Contents, epoch: Epoch)
    requires Agree(c) && epoch in c.docs
    ensures forall e :: e in Hit(c, epoch).lru <==> e in c.lru
  {
    ElementsDistinct(c);
    RemoveMembers(c.lru, c.docs[epoch]);
  }

  lemma NoDuplicatesCons<T>(x: T, s: seq<T>)
    requires x !in s && NoDuplicates(s)
    ensures NoDuplicates([x] + s)
  {
  }

  lemma HitAgrees(c: Contents, epoch: Epoch)
    requires Agree(c) && epoch in c.docs
    ensures Agree(Hit(c, epoch))
  {
    HitOrder(c, epoch);
    HitMembers(c, epoch);
    RemoveMembers(Order(c), epoch);
    NoDuplicatesCons(epoch, Remove(Order(c), epoch));
  }

  lemma PushAgrees(c: Contents, entry: Entry)
    requires Agree(c) && entry.epoch !in c.docs
    ensures Agree(PushFront(c, entry))
    ensures Order(PushFront(c, entry)) == [entry.epoch] + Order(c)
  {
    var r := PushFront(c, entry);
    assert Order(r) == [entry.epoch] + Order(c);
    forall i | 0 <= i < |c.lru| ensures Order(c)[i] != entry.epoch {
      assert c.lru[i] in c.lru;
    }
  }

  lemma EvictAgrees(c: Contents)
    requires Agree(c) && c.lru != []
    ensures Agree(EvictBack(c))
    ensures Order(EvictBack(c)) == Order(c)[..|c.lru| - 1]
  {
    var n := |c.lru| - 1;
    var r := EvictBack(c);
    assert Order(r) == Order(c)[..n];
    forall e | e in r.lru ensures e.entry.epoch in r.docs {
      var i :| 0 <= i < n && c.lru[i] == e;
      assert Order(c)[i] != Order(c)[n];
    }
    forall k | k in r.docs ensures r.docs[k] in r.lru {
      var i := Locate(c, k);
      assert i != n;
      assert r.lru[i] == c.docs[k];
    }
  }

  /** A list that was not too long loses at most its last element. */
  lemma InsertIs(c: Contents, entry: Entry, max: nat)
    requires |c.lru| <= max && max >= 1
    ensures var p := PushFront(c, entry);
            Insert(c, entry, max) == if |p.lru| > max then EvictBack(p) else p
  {
    var p := PushFront(c, entry);
    if |p.lru| > max { assert EvictTo(EvictBack(p), max) == EvictBack(p); }
  }

  lemma InsertOrder(c: Contents, entry: Entry, max: nat)
    requires Agree(c) && |c.lru| <= max && max >= 1 && entry.epoch !in c.docs
    ensures Agree(Insert(c, entry, max))
    ensures Order(Insert(c, entry, max)) == Take([entry.epoch] + Order(c), max)
  {
    PushAgrees(c, entry);
    InsertIs(c, entry, max);
    if |c.lru| == max { EvictAgrees(PushFront(c, entry)); }
  }

  lemma FrontIsCached(c: Contents)
    requires Agree(c) && c.lru != []
    ensures c.lru[0].entry.epoch in c.docs && c.docs[c.lru[0].entry.epoch] == c.lru[0]
  {
    assert c.lru[0] in c.lru;
  }

  /** What an insertion leaves in the map. */
  lemma InsertDocs(c: Contents, entry: Entry, max: nat)
    requires |c.lru| <= max && max >= 1
    ensures var r := Insert(c, entry, max);
            && r.lru != [] && r.lru[0] == Element(c.next, entry)
            && r.docs.Keys <= c.docs.Keys + {entry.epoch}
            && (forall k :: k in r.docs && k != entry.epoch ==> r.docs[k] == c.docs[k])
  {
    InsertIs(c, entry, max);
  }

  /** Inserting a new epoch: recency order, cut at `max`, with the new entry kept. */
  lemma InsertNew(c: Contents, entry: Entry, max: nat)
    requires Agree(c) && |c.lru| <= max && max >= 1 && entry.epoch !in c.docs
    ensures var r := Insert(c, entry, max);
            && Agree(r)
            && Order(r) == Take([entry.epoch] + Order(c), max)
            && entry.epoch in r.docs && r.docs[entry.epoch].entry == entry
            && r.docs.Keys <= c.docs.Keys + {entry.epoch}
            && (forall k :: k in r.docs && k != entry.epoch ==> r.docs[k] == c.docs[k])
  {
    InsertOrder(c, entry, max);
    InsertDocs(c, entry, max);
    FrontIsCached(Insert(c, entry, max));
  }

  /**
   * insertLRU does not look whether the epoch is cached already.  Map and list stay in agreement
   * if and only if it was not.
   */
  lemma InsertAgreesIff(c: Contents, entry: Entry, max: nat)
    requires Agree(c) && |c.lru| <= max && max >= 1
    ensures Agree(Insert(c, entry, max)) <==> entry.epoch !in c.docs
  {
    var r := Insert(c, entry, max);
    if entry.epoch !in c.docs {
      InsertNew(c, entry, max);
    } else {
      var i := Locate(c, entry.epoch);
      var p := PushFront(c, entry);
      assert p.lru[i + 1] == c.docs[entry.epoch];
      InsertIs(c, entry, max);
      assert r.lru[0] == Element(c.next, entry) && r.lru[0] in r.lru;
      if i + 1 < |r.lru| {
        assert Order(r)[0] == Order(r)[i + 1];
      } else {
        assert entry.epoch !in r.docs;
      }
    }
  }

  // ----- the recency order as an ideal, unbounded history

  /** The distinct epochs of a history, most recently touched first. */
  function Recency(touched: seq<Epoch>): seq<Epoch> {
    if touched == [] then []
    else
      var e := touched[|touched| - 1];
      [e] + Remove(Recency(touched[..|touched| - 1]), e)
  }

  lemma {:induction false} RecencyMembers(touched: seq<Epoch>)
    ensures NoDuplicates(Recency(touched))
    ensures forall e :: e in Recency(touched) <==> e in touched
  {
    if touched != [] {
      var n := |touched| - 1;
      RecencyMembers(touched[..n]);
      RemoveMembers(Recency(touched[..n]), touched[n]);
      assert touched == touched[..n] + [touched[n]];
    }
  }

  /** Behind a new front element, only the first `max - 1` others matter. */
  lemma FrontMatters(e: Epoch, a: seq<Epoch>, b: seq<Epoch>, max: nat)
    requires max >= 1 && |a| >= max - 1 && |b| >= max - 1 && a[..max - 1] == b[..max - 1]
    ensures Take([e] + a, max) == Take([e] + b, max)
  {
    assert ([e] + a)[..max] == [e] + a[..max - 1];
    assert ([e] + b)[..max] == [e] + b[..max - 1];
  }

  lemma CutInside(order: seq<Epoch>, i: nat, max: nat)
    requires i < max < |order|
    ensures (order[..i] + order[i + 1..])[..max - 1] == order[..max][..i] + order[..max][i + 1..]
  {
  }

  lemma CutBeyond(order: seq<Epoch>, i: nat, max: nat)
    requires 1 <= max <= i < |order|
    ensures (order[..i] + order[i + 1..])[..max - 1] == order[..max][..max - 1]
  {
  }

  lemma PrefixDistinct(order: seq<Epoch>, max: nat)
    requires NoDuplicates(order) && max <= |order|
    ensures NoDuplicates(order[..max])
    ensures forall i :: max <= i < |order| ==> order[i] !in order[..max]
  {
  }

  /** Cutting at `max` keeps what matters of the rest, whether or not `e` lies within the cut. */
  lemma RemoveFromCut(order: seq<Epoch>, e: Epoch, max: nat)
    requires NoDuplicates(order) && 1 <= max < |order|
    ensures var a, b := Remove(order, e), Remove(order[..max], e);
            |a| >= max - 1 && |b| >= max - 1 && a[..max - 1] == b[..max - 1]
  {
    PrefixDistinct(order, max);
    if e in order {
      var i :| 0 <= i < |order| && order[i] == e;
      RemoveAt(order, i);
      if i < max {
        RemoveAt(order[..max], i);
        CutInside(order, i, max);
      } else {
        RemoveAbsent(order[..max], e);
        CutBeyond(order, i, max);
      }
    } else {
      RemoveAbsent(order, e);
      RemoveAbsent(order[..max], e);
    }
  }

  /** Cutting the ideal order commutes with touching: what lies beyond the cut is never needed again. */
  lemma CutThenTouch(order: seq<Epoch>, e: Epoch, max: nat)
    requires NoDuplicates(order) && max >= 1
    ensures Take([e] + Remove(order, e), max) == Take([e] + Remove(Take(order, max), e), max)
  {
    if |order| > max {
      RemoveFromCut(order, e, max);
      FrontMatters(e, Remove(order, e), Remove(order[..max], e), max);
    }
  }

  // ----- the cache object

  class Cache {
    const max: nat
    var docs: map<Epoch, Element>
    var lru: seq<Element>
    var next: nat

    ghost function State(): Contents
      reads this
    {
      Contents(docs, lru, next)
    }

    constructor (max: nat)
      ensures State() == Empty && this.max == max
    {
      this.max := max;
      docs, lru, next := map[], [], 0;
    }

    /** The fast path: a hit counts as a use and returns the cached entry; a miss changes nothing. */
    method CacheGet(epoch: Epoch) returns (entry: Option<Entry>)
      modifies this`lru
      ensures entry.Some? <==> epoch in old(docs)
      ensures entry.Some? ==> entry.value == old(docs)[epoch].entry && State() == Hit(old(State()), epoch)
      ensures entry.None? ==> State() == old(State())
    {
      if epoch in docs {
        var e := docs[epoch];
        lru := [e] + Remove(lru, e);
        return Some(e.entry);
      }
      return None;
    }

    /** insertLRU: push to the front, then purge from the back while the list is too long. */
    method InsertLRU(entry: Entry)
      modifies this
      ensures State() == Insert(old(State()), entry, max)
    {
      var e := Element(next, entry);
      next := next + 1;
      lru := [e] + lru;
      docs := docs[entry.epoch := e];
      while |lru| > max
        invariant EvictTo(State(), max) == Insert(old(State()), entry, max)
        decreases |lru|
      {
        var back := lru[|lru| - 1];
        docs := docs - {back.entry.epoch};
        lru := lru[..|lru| - 1];
      }
    }
  }
}
