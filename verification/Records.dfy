// Stored records and the two shapes in which the service keeps them.
//
// A Ledger is a flat global map of records together with one order list per project
// (tasks, runs, artifacts).  A Shelf is one list of records per key together with a flat
// secondary index by record id (plans, contracts, contexts, sandboxes, ...).
// `owner` maps every id ever handed out to the project it was handed out for.
module Records {

  type Id = int
  type Time = int

  datatype Option<+T> = None | Some(value: T)

  datatype Outcome<+T> = Ok(value: T) | Refused(error: Error)

  datatype Error = NotFound | Conflict | Invalid | Internal

  datatype Record<+B> = Record(id: Id, projectId: Id, body: B)

  function Get<T>(m: map<Id, seq<T>>, k: Id): seq<T> {
    if k in m then m[k] else []
  }

  function Elements(s: seq<Id>): set<Id> {
    set x | x in s
  }

  // The items an order names.
  function Select<B>(items: map<Id, Record<B>>, order: seq<Id>): map<Id, Record<B>> {
    map x | x in order && x in items :: items[x]
  }

  // Some member, in the unspecified order in which a map is ranged over.
  method AnyOf<T(==)>(s: set<T>) returns (x: T)
    requires s != {}
    ensures x in s
  {
    x :| x in s;
  }

  ghost predicate Distinct<T>(s: seq<T>) {
    forall i, j | 0 <= i < j < |s| :: s[i] != s[j]
  }

  // Every record's id belongs to the record's project.
  ghost predicate Owned<B>(r: Record<B>, owner: map<Id, Id>) {
    r.id in owner && owner[r.id] == r.projectId
  }

  // ----- Ledgers ------------------------------------------------------------------------

  datatype Ledger<+B> = Ledger(items: map<Id, Record<B>>, order: map<Id, seq<Id>>)

  // One project's part of a ledger.
  datatype Slice<+B> = Slice(items: map<Id, Record<B>>, order: seq<Id>)

  ghost predicate OrderOf<B>(l: Ledger<B>, p: Id) {
    forall x | x in Get(l.order, p) :: x in l.items && l.items[x].projectId == p
  }

  ghost predicate LedgerOk<B>(l: Ledger<B>, owner: map<Id, Id>) {
    && (forall x | x in l.items ::
          Owned(l.items[x], owner) && l.items[x].id == x && x in Get(l.order, l.items[x].projectId))
    && (forall p | p in l.order :: Distinct(l.order[p]) && OrderOf(l, p))
  }

  ghost predicate SliceOk<B>(s: Slice<B>, p: Id) {
    && (forall x | x in s.items :: x in s.order && s.items[x].id == x && s.items[x].projectId == p)
    && (forall x | x in s.order :: x in s.items)
    && Distinct(s.order)
  }

  ghost predicate SliceOwned<B>(s: Slice<B>, owner: map<Id, Id>) {
    forall x | x in s.items :: Owned(s.items[x], owner)
  }

  function SliceOf<B>(l: Ledger<B>, p: Id): Slice<B> {
    Slice(Select(l.items, Get(l.order, p)), Get(l.order, p))
  }

  function AddToSlice<B>(s: Slice<B>, r: Record<B>): Slice<B> {
    Slice(s.items[r.id := r], s.order + [r.id])
  }

  function PutInSlice<B>(s: Slice<B>, r: Record<B>): Slice<B> {
    Slice(s.items[r.id := r], s.order)
  }

  function AddToLedger<B>(l: Ledger<B>, r: Record<B>): Ledger<B> {
    Ledger(l.items[r.id := r], l.order[r.projectId := Get(l.order, r.projectId) + [r.id]])
  }

  function PutInLedger<B>(l: Ledger<B>, r: Record<B>): Ledger<B> {
    Ledger(l.items[r.id := r], l.order)
  }

  function ClearLedger<B>(l: Ledger<B>, p: Id): Ledger<B> {
    Ledger(l.items - Elements(Get(l.order, p)), l.order - {p})
  }

  function RestoreLedger<B>(l: Ledger<B>, p: Id, s: Slice<B>): Ledger<B> {
    Ledger(l.items + Select(s.items, s.order), l.order[p := s.order])
  }

  lemma SliceOfOk<B>(l: Ledger<B>, owner: map<Id, Id>, p: Id)
    requires LedgerOk(l, owner)
    ensures SliceOk(SliceOf(l, p), p) && SliceOwned(SliceOf(l, p), owner)
    ensures forall x :: x in l.items && l.items[x].projectId == p <==> x in SliceOf(l, p).items
  {
  }

  lemma AddToLedgerOk<B>(l: Ledger<B>, owner: map<Id, Id>, r: Record<B>)
    requires LedgerOk(l, owner) && Owned(r, owner) && r.id !in l.items
    ensures LedgerOk(AddToLedger(l, r), owner)
  {
    var m := AddToLedger(l, r);
    var s := Get(l.order, r.projectId);
    forall x | x in m.items && x != r.id ensures x in Get(m.order, m.items[x].projectId) {
      assert x in Get(l.order, l.items[x].projectId);
    }
    assert m.order[r.projectId][|s|] == r.id;
    forall i | 0 <= i < |s| ensures s[i] in l.items {
      var x := s[i];
      assert x in Get(l.order, r.projectId);
    }
  }

  // Adding a fresh record extends its own project's slice and no other.
  lemma AddToLedgerSlices<B>(l: Ledger<B>, owner: map<Id, Id>, r: Record<B>, q: Id)
    requires LedgerOk(l, owner) && Owned(r, owner) && r.id !in l.items
    ensures SliceOf(AddToLedger(l, r), q) == if q == r.projectId then AddToSlice(SliceOf(l, q), r) else SliceOf(l, q)
  {
    var m := AddToLedger(l, r);
    var a, b := SliceOf(m, q), SliceOf(l, q);
    assert Get(m.order, q) == if q == r.projectId then Get(l.order, q) + [r.id] else Get(l.order, q);
    assert forall x | x in Get(l.order, q) :: x in l.items;
    assert a.items == if q == r.projectId then b.items[r.id := r] else b.items;
  }

  lemma PutInLedgerOk<B>(l: Ledger<B>, owner: map<Id, Id>, r: Record<B>)
    requires LedgerOk(l, owner) && r.id in l.items && l.items[r.id].projectId == r.projectId
    ensures LedgerOk(PutInLedger(l, r), owner)
  {
  }

  lemma PutInLedgerSlices<B>(l: Ledger<B>, owner: map<Id, Id>, r: Record<B>, q: Id)
    requires LedgerOk(l, owner) && r.id in l.items && l.items[r.id].projectId == r.projectId
    ensures SliceOf(PutInLedger(l, r), q) == if q == r.projectId then PutInSlice(SliceOf(l, q), r) else SliceOf(l, q)
  {
    assert r.id in Get(l.order, q) <==> q == r.projectId;
    hide LedgerOk;
    var m := PutInLedger(l, r);
    var now, was := SliceOf(m, q), SliceOf(l, q);
    assert now.order == was.order;
    if q == r.projectId {
      assert now.items == was.items[r.id := r];
    } else {
      assert now.items == was.items;
    }
  }

  lemma RestoreLedgerOk<B>(l: Ledger<B>, owner: map<Id, Id>, p: Id, s: Slice<B>)
    requires LedgerOk(l, owner) && SliceOk(s, p) && SliceOwned(s, owner)
    ensures LedgerOk(RestoreLedger(ClearLedger(l, p), p, s), owner)
  {
    RestoredOrders(l, owner, p, s);
    RestoredItems(l, owner, p, s);
  }

  lemma RestoredOrders<B>(l: Ledger<B>, owner: map<Id, Id>, p: Id, s: Slice<B>)
    requires LedgerOk(l, owner) && SliceOk(s, p) && SliceOwned(s, owner)
    ensures var m := RestoreLedger(ClearLedger(l, p), p, s);
      forall q | q in m.order :: Distinct(m.order[q]) && OrderOf(m, q)
  {
    var m := RestoreLedger(ClearLedger(l, p), p, s);
    forall q, x | q in m.order && x in m.order[q] ensures x in m.items && m.items[x].projectId == q {
      if q != p {
        assert x in l.items && l.items[x].projectId == q;
        assert x !in s.items && x !in Get(l.order, p);
      }
    }
  }

  lemma RestoredItems<B>(l: Ledger<B>, owner: map<Id, Id>, p: Id, s: Slice<B>)
    requires LedgerOk(l, owner) && SliceOk(s, p) && SliceOwned(s, owner)
    ensures var m := RestoreLedger(ClearLedger(l, p), p, s);
      forall x | x in m.items ::
        Owned(m.items[x], owner) && m.items[x].id == x && x in Get(m.order, m.items[x].projectId)
  {
    hide Distinct;
    var m := RestoreLedger(ClearLedger(l, p), p, s);
    forall x | x in m.items ensures x in Get(m.order, m.items[x].projectId) {
      if x !in s.items {
        assert x in Get(l.order, l.items[x].projectId);
      }
    }
  }

  // Clearing one project and restoring it from a slice gives exactly that slice back and
  // leaves every other project's slice alone.
  lemma RestoreLedgerSlices<B>(l: Ledger<B>, owner: map<Id, Id>, p: Id, s: Slice<B>, q: Id)
    requires LedgerOk(l, owner) && SliceOk(s, p) && SliceOwned(s, owner)
    ensures SliceOf(RestoreLedger(ClearLedger(l, p), p, s), q) == if q == p then s else SliceOf(l, q)
  {
    var m := RestoreLedger(ClearLedger(l, p), p, s);
    if q == p {
      assert m.order[p] == s.order;
      forall x | x in s.items ensures x in SliceOf(m, p).items && SliceOf(m, p).items[x] == s.items[x] {}
      forall x | x in SliceOf(m, p).items ensures x in s.items {}
      assert SliceOf(m, p).items == s.items;
    } else {
      assert Get(m.order, q) == Get(l.order, q);
      forall x | x in Get(l.order, q) ensures x in l.items && x !in s.items && x !in Get(l.order, p) {
        assert q in l.order && l.items[x].projectId == q && owner[x] == q;
      }
      assert SliceOf(m, q).items == SliceOf(l, q).items;
    }
  }

  // ----- Shelves ------------------------------------------------------------------------

  datatype Shelf<+B> = Shelf(lists: map<Id, seq<Record<B>>>, index: map<Id, Record<B>>)

  // No two records of one list share an id, and every record's id has its home at key k.
  ghost predicate ListOk<B>(s: seq<Record<B>>, k: Id, home: map<Id, Id>) {
    && (forall i | 0 <= i < |s| :: s[i].id in home && home[s[i].id] == k)
    && (forall i, j | 0 <= i < j < |s| :: s[i].id != s[j].id)
  }

  // The index holds exactly the listed records, each under its own id.
  ghost predicate Indexes<B>(lists: map<Id, seq<Record<B>>>, index: map<Id, Record<B>>, home: map<Id, Id>) {
    && (forall k, r | k in lists && r in lists[k] :: r.id in index && index[r.id] == r)
    && (forall x | x in index :: index[x].id == x && x in home && index[x] in Get(lists, home[x]))
  }

  ghost predicate ShelfOk<B>(h: Shelf<B>, home: map<Id, Id>) {
    && (forall k | k in h.lists :: ListOk(h.lists[k], k, home))
    && Indexes(h.lists, h.index, home)
  }

  function Ids<B>(s: seq<Record<B>>): set<Id> {
    set i | 0 <= i < |s| :: s[i].id
  }

  function AddToShelf<B>(h: Shelf<B>, k: Id, r: Record<B>): Shelf<B> {
    Shelf(h.lists[k := Get(h.lists, k) + [r]], h.index[r.id := r])
  }

  // The list with the record of the same id replaced.
  function PutInList<B>(s: seq<Record<B>>, r: Record<B>): (t: seq<Record<B>>)
    ensures |t| == |s|
    ensures forall i | 0 <= i < |s| :: t[i] == if s[i].id == r.id then r else s[i]
  {
    seq(|s|, i requires 0 <= i < |s| => if s[i].id == r.id then r else s[i])
  }

  function PutInShelf<B>(h: Shelf<B>, k: Id, r: Record<B>): Shelf<B> {
    Shelf(h.lists[k := PutInList(Get(h.lists, k), r)], h.index[r.id := r])
  }

  function ClearShelf<B>(h: Shelf<B>, k: Id): Shelf<B> {
    Shelf(h.lists - {k}, h.index - Ids(Get(h.lists, k)))
  }

  function IndexList<B>(s: seq<Record<B>>): (m: map<Id, Record<B>>)
    ensures m.Keys == Ids(s)
  {
    if s == [] then map[] else
      var m := IndexList(s[..|s|-1]);
      assert s == s[..|s|-1] + [s[|s|-1]];
      assert Ids(s) == Ids(s[..|s|-1]) + {s[|s|-1].id};
      m[s[|s|-1].id := s[|s|-1]]
  }

  function RestoreShelf<B>(h: Shelf<B>, k: Id, s: seq<Record<B>>): Shelf<B> {
    Shelf(h.lists[k := s], h.index + IndexList(s))
  }

  // Where an indexed record comes from.
  lemma {:induction false} IndexListAt<B>(s: seq<Record<B>>, x: Id) returns (i: nat)
    requires x in IndexList(s)
    ensures i < |s| && s[i].id == x && IndexList(s)[x] == s[i]
  {
    if s[|s|-1].id == x {
      i := |s| - 1;
    } else {
      i := IndexListAt(s[..|s|-1], x);
    }
  }

  // In a list without repeated ids the index finds each record.
  lemma IndexListFinds<B>(s: seq<Record<B>>, i: nat)
    requires i < |s| && forall j, k | 0 <= j < k < |s| :: s[j].id != s[k].id
    ensures s[i].id in IndexList(s) && IndexList(s)[s[i].id] == s[i]
  {
    var x := s[i].id;
    assert x in Ids(s);
    var j := IndexListAt(s, x);
  }

  lemma AddedListOk<B>(s: seq<Record<B>>, home: map<Id, Id>, k: Id, r: Record<B>)
    requires ListOk(s, k, home) && r.id in home && home[r.id] == k && forall i | 0 <= i < |s| :: s[i].id != r.id
    ensures ListOk(s + [r], k, home)
  {
  }

  lemma AddedIndexes<B>(h: Shelf<B>, home: map<Id, Id>, k: Id, r: Record<B>)
    requires Indexes(h.lists, h.index, home) && r.id in home && home[r.id] == k && r.id !in h.index
    ensures var n := AddToShelf(h, k, r); Indexes(n.lists, n.index, home)
  {
    var n, s := AddToShelf(h, k, r), Get(h.lists, k);
    forall q, x | q in n.lists && x in n.lists[q] ensures x.id in n.index && n.index[x.id] == x {
      if x != r {
        assert x in Get(h.lists, q);
      }
    }
    forall x | x in n.index ensures n.index[x].id == x && x in home && n.index[x] in Get(n.lists, home[x]) {
      if x == r.id {
        assert r == n.lists[k][|s|];
      } else {
        assert h.index[x] in Get(h.lists, home[x]);
      }
    }
  }

  lemma AddToShelfOk<B>(h: Shelf<B>, home: map<Id, Id>, k: Id, r: Record<B>)
    requires ShelfOk(h, home) && r.id in home && home[r.id] == k && r.id !in h.index
    ensures ShelfOk(AddToShelf(h, k, r), home)
    ensures forall q | q != k :: Get(AddToShelf(h, k, r).lists, q) == Get(h.lists, q)
  {
    var s := Get(h.lists, k);
    forall i | 0 <= i < |s| ensures s[i].id != r.id {
      assert s[i] in h.lists[k];
    }
    AddedIndexes(h, home, k, r);
    hide Indexes;
    AddedListOk(s, home, k, r);
  }

  lemma ReplacedListOk<B>(s: seq<Record<B>>, k: Id, home: map<Id, Id>, r: Record<B>)
    ensures ListOk(s, k, home) ==> ListOk(PutInList(s, r), k, home)
  {
  }

  lemma PutInShelfOk<B>(h: Shelf<B>, home: map<Id, Id>, k: Id, r: Record<B>)
    requires ShelfOk(h, home) && r.id in h.index && home[r.id] == k
    ensures ShelfOk(PutInShelf(h, k, r), home)
    ensures forall q | q != k :: Get(PutInShelf(h, k, r).lists, q) == Get(h.lists, q)
  {
    PutInIndexOk(h, home, k, r);
    hide ListOk;
    assert h.index[r.id] in Get(h.lists, k);
    ReplacedListOk(Get(h.lists, k), k, home, r);
    hide Indexes;
  }

  lemma PutInIndexOk<B>(h: Shelf<B>, home: map<Id, Id>, k: Id, r: Record<B>)
    requires ShelfOk(h, home) && r.id in h.index && home[r.id] == k
    ensures Indexes(PutInShelf(h, k, r).lists, PutInShelf(h, k, r).index, home)
  {
    var n := PutInShelf(h, k, r);
    var s, t := Get(h.lists, k), n.lists[k];
    assert h.index[r.id] in s;
    var i0 :| 0 <= i0 < |s| && s[i0] == h.index[r.id];
    assert t[i0] == r;
    forall x | x in t ensures x == r || (x in s && x.id != r.id) {
      var i :| 0 <= i < |t| && t[i] == x;
      assert s[i] in s;
    }
    forall x | x in n.index && x != r.id ensures n.index[x] in Get(n.lists, home[x]) {
      assert h.index[x] in Get(h.lists, home[x]);
      if home[x] == k {
        var i :| 0 <= i < |s| && s[i] == h.index[x];
        assert t[i] == s[i];
      }
    }
  }

  lemma HomeOfListed<B>(s: seq<Record<B>>, k: Id, home: map<Id, Id>, r: Record<B>)
    requires ListOk(s, k, home) && r in s
    ensures r.id in home && home[r.id] == k
  {
  }

  lemma RestoreFinds<B>(h: Shelf<B>, home: map<Id, Id>, k: Id, s: seq<Record<B>>, q: Id, r: Record<B>)
    requires ShelfOk(h, home) && ListOk(s, k, home)
    requires (q == k && r in s) || (q != k && r in Get(h.lists, q))
    ensures r.id in RestoreShelf(h, k, s).index && RestoreShelf(h, k, s).index[r.id] == r
  {
    if q == k {
      var i :| 0 <= i < |s| && s[i] == r;
      IndexListFinds(s, i);
    } else {
      HomeOfListed(h.lists[q], q, home, r);
    }
  }

  lemma RestoreListed<B>(h: Shelf<B>, home: map<Id, Id>, k: Id, s: seq<Record<B>>, x: Id)
    requires ShelfOk(h, home) && ListOk(s, k, home) && Get(h.lists, k) == []
    requires x in RestoreShelf(h, k, s).index
    ensures var n := RestoreShelf(h, k, s); n.index[x].id == x && x in home && n.index[x] in Get(n.lists, home[x])
  {
    if x in IndexList(s) {
      var i := IndexListAt(s, x);
    } else {
      assert h.index[x] in Get(h.lists, home[x]);
    }
  }

  lemma RestoreShelfOk<B>(h: Shelf<B>, home: map<Id, Id>, k: Id, s: seq<Record<B>>)
    requires ShelfOk(h, home) && ListOk(s, k, home)
    ensures ShelfOk(RestoreShelf(ClearShelf(h, k), k, s), home)
    ensures RestoreShelf(ClearShelf(h, k), k, s).lists == h.lists[k := s]
  {
    ClearShelfOk(h, home, k);
    var c := ClearShelf(h, k);
    var n := RestoreShelf(c, k, s);
    forall q, r | q in n.lists && r in n.lists[q] ensures r.id in n.index && n.index[r.id] == r {
      RestoreFinds(c, home, k, s, q, r);
    }
    forall x | x in n.index ensures n.index[x].id == x && x in home && n.index[x] in Get(n.lists, home[x]) {
      RestoreListed(c, home, k, s, x);
    }
  }

  lemma ClearShelfOk<B>(h: Shelf<B>, home: map<Id, Id>, k: Id)
    requires ShelfOk(h, home)
    ensures ShelfOk(ClearShelf(h, k), home)
    ensures Get(ClearShelf(h, k).lists, k) == []
    ensures forall q | q != k :: Get(ClearShelf(h, k).lists, q) == Get(h.lists, q)
    ensures forall x | x in h.index :: x in ClearShelf(h, k).index <==> home[x] != k
  {
    var n := ClearShelf(h, k);
    var s := Get(h.lists, k);
    forall x | x in h.index ensures x in Ids(s) <==> home[x] == k {
      if home[x] == k {
        var i :| 0 <= i < |s| && s[i] == h.index[x];
      }
    }
    forall q, r | q in n.lists && r in n.lists[q] ensures r.id in n.index {
      var i :| 0 <= i < |h.lists[q]| && h.lists[q][i] == r;
    }
  }

  // Two indexes of the same lists are the same index, so rebuilding gives back what was there.
  lemma IndexUnique<B>(lists: map<Id, seq<Record<B>>>, home: map<Id, Id>, a: map<Id, Record<B>>, b: map<Id, Record<B>>)
    requires Indexes(lists, a, home) && Indexes(lists, b, home)
    ensures a == b
  {
    forall x | x in a ensures x in b && a[x] == b[x] {
      assert a[x] in Get(lists, home[x]);
    }
    forall x | x in b ensures x in a {
      assert b[x] in Get(lists, home[x]);
    }
  }
}
