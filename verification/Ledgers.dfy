/** How messages move between the cells that hold them. */
module Ledgers {
  import opened LocalQueues
  import opened Invariants

  /** Cell by cell the same. */
  lemma SameLedger(l: Ledger, l': Ledger, ids: set<DedupId>)
    requires ExactlyOnce(l, ids)
    requires forall c :: l'(c) == l(c)
    ensures ExactlyOnce(l', ids)
  {
    assert forall c, n, id :: Holds(l', c, n, id) <==> Holds(l, c, n, id);
    forall id | id in ids ensures exists c, n :: Holds(l', c, n, id) {
      var c, n :| Holds(l, c, n, id);
      assert Holds(l', c, n, id);
    }
  }

  /** A new cell receives ids nobody holds. */
  lemma AddingCell(l: Ledger, l': Ledger, at: Cell, ids: set<DedupId>, ids': set<DedupId>)
    requires ExactlyOnce(l, ids) && l(at) == []
    requires forall c :: c != at ==> l'(c) == l(c)
    requires forall n :: 0 <= n < |l'(at)| ==> l'(at)[n] !in ids && l'(at)[n] in ids'
    requires forall m, n :: 0 <= m < n < |l'(at)| ==> l'(at)[m] != l'(at)[n]
    requires forall id :: id in ids' <==> id in ids || id in l'(at)
    ensures ExactlyOnce(l', ids')
  {
    forall c, n, id | Holds(l', c, n, id) ensures id in ids' && (c == at || Holds(l, c, n, id)) {
      if c != at {
        assert Holds(l, c, n, id);
      }
    }
    forall id | id in ids' ensures exists c, n :: Holds(l', c, n, id) {
      if id in ids {
        var c, n :| Holds(l, c, n, id);
        assert Holds(l', c, n, id);
      } else {
        var n :| 0 <= n < |l'(at)| && l'(at)[n] == id;
        assert Holds(l', at, n, id);
      }
    }
  }

  /** The first `k` ids of one cell go to the end of another. */
  ghost predicate Moves(l: Ledger, l': Ledger, from: Cell, k: nat, to: Cell) {
    && from != to && k <= |l(from)|
    && l'(from) == l(from)[k..]
    && l'(to) == l(to) + l(from)[..k]
    && (forall c :: c != from && c != to ==> l'(c) == l(c))
  }

  lemma MovingKeeps(l: Ledger, l': Ledger, from: Cell, k: nat, to: Cell, ids: set<DedupId>)
    requires ExactlyOnce(l, ids) && Moves(l, l', from, k, to)
    ensures ExactlyOnce(l', ids)
  {
    forall c, n, id | Holds(l', c, n, id)
      ensures Holds(l, Origin(l, from, k, to, c, n).0, Origin(l, from, k, to, c, n).1, id)
    {
    }
    forall id | id in ids ensures exists c, n :: Holds(l', c, n, id) {
      var c, n :| Holds(l, c, n, id);
      if c == from && n < k {
        assert Holds(l', to, |l(to)| + n, id);
      } else if c == from {
        assert Holds(l', from, n - k, id);
      } else {
        assert Holds(l', c, n, id);
      }
    }
  }

  lemma MovingBack(l: Ledger, l': Ledger, from: Cell, k: nat, to: Cell, ids: set<DedupId>)
    requires ExactlyOnce(l', ids) && Moves(l, l', from, k, to)
    ensures ExactlyOnce(l, ids)
  {
    forall c, n, id | Holds(l, c, n, id)
      ensures Holds(l', Target(l, from, k, to, c, n).0, Target(l, from, k, to, c, n).1, id)
    {
    }
    forall id | id in ids ensures exists c, n :: Holds(l, c, n, id) {
      var c, n :| Holds(l', c, n, id);
      assert Holds(l, Origin(l, from, k, to, c, n).0, Origin(l, from, k, to, c, n).1, id);
    }
  }

  /** A move neither makes nor heals a loss or a double. */
  lemma MovingKeepsIff(l: Ledger, l': Ledger, from: Cell, k: nat, to: Cell, ids: set<DedupId>)
    requires Moves(l, l', from, k, to)
    ensures ExactlyOnce(l, ids) <==> ExactlyOnce(l', ids)
  {
    if ExactlyOnce(l, ids) {
      MovingKeeps(l, l', from, k, to, ids);
    } else if ExactlyOnce(l', ids) {
      MovingBack(l, l', from, k, to, ids);
    }
  }

  lemma SameLedgerIff(l: Ledger, l': Ledger, ids: set<DedupId>)
    requires forall c :: l'(c) == l(c)
    ensures ExactlyOnce(l, ids) <==> ExactlyOnce(l', ids)
  {
    if ExactlyOnce(l, ids) {
      SameLedger(l, l', ids);
    } else if ExactlyOnce(l', ids) {
      SameLedger(l', l, ids);
    }
  }

  /** Where the id at position `n` of cell `c` was before the move. */
  ghost function Origin(l: Ledger, from: Cell, k: nat, to: Cell, c: Cell, n: int): (Cell, int) {
    if c == from then (from, n + k)
    else if c == to && n >= |l(to)| then (from, n - |l(to)|)
    else (c, n)
  }
  /** Where the id at position `n` of cell `c` is after the move. */
  ghost function Target(l: Ledger, from: Cell, k: nat, to: Cell, c: Cell, n: int): (Cell, int) {
    if c == from && n < k then (to, |l(to)| + n)
    else if c == from then (from, n - k)
    else (c, n)
  }
}
