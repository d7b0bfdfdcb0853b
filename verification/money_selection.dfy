/** The two queries of a settlement run have a result in every state, and only one. */
module MoneySelection {
  import opened Basics
  import opened MoneyState

  /** ORDER BY key, id */
  ghost predicate Before(keys: map<Id, int>, a: Id, b: Id) {
    a in keys && b in keys && (keys[a] < keys[b] || (keys[a] == keys[b] && a < b))
  }

  /** The first rows of a set in order, at most n, and all of them if fewer than n. */
  ghost predicate FirstRows(keys: map<Id, int>, all: set<Id>, n: nat, rows: seq<Id>) {
    && |rows| <= n
    && (forall i | 0 <= i < |rows| :: rows[i] in all)
    && (forall i, j | 0 <= i < j < |rows| :: Before(keys, rows[i], rows[j]))
    && (forall p | p in all && p !in rows :: |rows| == n && forall i | 0 <= i < |rows| :: Before(keys, rows[i], p))
  }

  lemma {:induction false} LeastRow(keys: map<Id, int>, all: set<Id>) returns (m: Id)
    requires all != {} && all <= keys.Keys
    ensures m in all && forall p | p in all && p != m :: Before(keys, m, p)
    decreases |all|
  {
    var x :| x in all;
    if all == {x} {
      m := x;
    } else {
      assert all == (all - {x}) + {x};
      var y := LeastRow(keys, all - {x});
      m := y;
      if Before(keys, x, y) { m := x; }
    }
  }

  lemma {:induction false} FirstRowsExist(keys: map<Id, int>, all: set<Id>, n: nat) returns (rows: seq<Id>)
    requires all <= keys.Keys
    ensures FirstRows(keys, all, n, rows)
    decreases n
  {
    if n == 0 || all == {} {
      rows := [];
    } else {
      var m := LeastRow(keys, all);
      var rest := FirstRowsExist(keys, all - {m}, n - 1);
      rows := [m] + rest;
      forall p | p in all && p !in rows ensures |rows| == n && forall i | 0 <= i < |rows| :: Before(keys, rows[i], p) {
        assert p !in rest && p != m;
      }
    }
  }

  ghost function OpenTimes(s: State): map<Id, int> { map p | p in s.positions :: s.positions[p].availableAt }

  ghost function AdjustmentTimes(s: State): map<Id, int> { map r | r in s.adjustments :: s.adjustments[r].occurredAt }

  /** The positions the candidate query may return. */
  ghost function OpenRows(s: State, merchant: Id, currency: Currency, cutoff: int, locked: set<Id>): set<Id> {
    set p | p in s.positions && EligiblePosition(s, merchant, currency, cutoff, p) && p !in locked
  }

  /** Whatever other transactions keep locked, a run has its candidate rows and its adjustment rows. */
  lemma SelectionExists(s: State, merchant: Id, currency: Currency, cutoff: int, locked: set<Id>)
    returns (rows: seq<Id>, adjustmentRows: seq<Id>)
    ensures CandidateRows(s, merchant, currency, cutoff, locked, rows)
    ensures AdjustmentRows(s, merchant, currency, adjustmentRows)
  {
    var open := OpenRows(s, merchant, currency, cutoff, locked);
    rows := FirstRowsExist(OpenTimes(s), open, PAGE + 1);
    forall i, j | 0 <= i < j < |rows| ensures rows[i] in open && rows[j] in open && PositionBefore(s, rows[i], rows[j]) {
      assert Before(OpenTimes(s), rows[i], rows[j]);
    }
    var pending := set r | r in s.adjustments && PendingOf(s, merchant, currency, r);
    adjustmentRows := FirstRowsExist(AdjustmentTimes(s), pending, PAGE + 1);
    forall i, j | 0 <= i < j < |adjustmentRows| ensures AdjustmentBefore(s, adjustmentRows[i], adjustmentRows[j]) {
      assert Before(AdjustmentTimes(s), adjustmentRows[i], adjustmentRows[j]);
    }
  }

  /** A strictly ordered first page is determined by its set. */
  lemma {:induction false} FirstRowsUnique(keys: map<Id, int>, all: set<Id>, n: nat, a: seq<Id>, b: seq<Id>, k: nat)
    requires FirstRows(keys, all, n, a) && FirstRows(keys, all, n, b) && k <= |a| && k <= |b|
    ensures a[..k] == b[..k]
  {
    if k > 0 {
      FirstRowsUnique(keys, all, n, a, b, k - 1);
      var x, y := a[k - 1], b[k - 1];
      assert forall i | 0 <= i < k - 1 :: a[i] == a[..k - 1][i] == b[..k - 1][i] == b[i];
      NotEarlier(keys, all, n, a, b, k - 1);
      NotEarlier(keys, all, n, b, a, k - 1);
      assert a[..k] == a[..k - 1] + [x] && b[..k] == b[..k - 1] + [y];
    }
  }

  /** With equal beginnings, the next row of one page cannot come after the next row of the other. */
  lemma NotEarlier(keys: map<Id, int>, all: set<Id>, n: nat, a: seq<Id>, b: seq<Id>, k: nat)
    requires FirstRows(keys, all, n, a) && FirstRows(keys, all, n, b) && k < |a| && k < |b|
    requires forall i | 0 <= i < k :: a[i] == b[i]
    ensures !Before(keys, a[k], b[k])
  {
    forall i | 0 <= i < k ensures a[i] != a[k] { assert Before(keys, a[i], a[k]); }
    forall i | k < i < |b| ensures Before(keys, b[k], b[i]) {}
    assert a[k] in b || Before(keys, b[k], a[k]);
    if a[k] in b {
      var i :| 0 <= i < |b| && b[i] == a[k];
      assert i >= k;
    }
  }

  lemma TailIsNew(keys: map<Id, int>, b: seq<Id>, m: nat)
    requires m <= |b| && forall i, j | 0 <= i < j < |b| :: Before(keys, b[i], b[j])
    ensures forall k | m <= k < |b| :: b[k] !in b[..m]
  {
    forall k | m <= k < |b| ensures b[k] !in b[..m] {
      forall i | 0 <= i < m ensures b[i] != b[k] { assert Before(keys, b[i], b[k]); }
    }
  }

  lemma FirstRowsDetermined(keys: map<Id, int>, all: set<Id>, n: nat, a: seq<Id>, b: seq<Id>)
    requires FirstRows(keys, all, n, a) && FirstRows(keys, all, n, b) && |a| <= |b|
    ensures a == b
  {
    var next := if |a| < |b| then b[|a|] else 0;
    FirstRowsUnique(keys, all, n, a, b, |a|);
    assert a == a[..|a|];
    TailIsNew(keys, b, |a|);
    assert next in all && next !in a ==> |a| == n;
    assert b == b[..|b|];
  }

  lemma CandidateRowsAreFirst(s: State, merchant: Id, currency: Currency, cutoff: int, locked: set<Id>, rows: seq<Id>)
    requires CandidateRows(s, merchant, currency, cutoff, locked, rows)
    ensures FirstRows(OpenTimes(s), OpenRows(s, merchant, currency, cutoff, locked), PAGE + 1, rows)
  {
    forall i, j | 0 <= i < j < |rows| ensures Before(OpenTimes(s), rows[i], rows[j]) { assert PositionBefore(s, rows[i], rows[j]); }
  }

  /** The page a run settles from is a function of the tables and of what is locked. */
  lemma SelectionIsUnique(s: State, merchant: Id, currency: Currency, cutoff: int, locked: set<Id>, rows: seq<Id>, rows': seq<Id>)
    requires CandidateRows(s, merchant, currency, cutoff, locked, rows) && CandidateRows(s, merchant, currency, cutoff, locked, rows')
    ensures rows == rows'
  {
    CandidateRowsAreFirst(s, merchant, currency, cutoff, locked, rows);
    CandidateRowsAreFirst(s, merchant, currency, cutoff, locked, rows');
    var open := OpenRows(s, merchant, currency, cutoff, locked);
    if |rows| <= |rows'| {
      FirstRowsDetermined(OpenTimes(s), open, PAGE + 1, rows, rows');
    } else {
      FirstRowsDetermined(OpenTimes(s), open, PAGE + 1, rows', rows);
    }
  }
}
