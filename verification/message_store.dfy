/** The `messages` table a chat room keeps in its Durable Object SQL storage:
    `id INTEGER PRIMARY KEY AUTOINCREMENT, role TEXT, content TEXT, timestamp INTEGER`.
    The table is append-only: rows are inserted and read, never updated or deleted. */
module MessageStore {

  /** One row of the table. */
  datatype Row = Row(id: nat, role: string, content: string, timestamp: int)

  /** The `role, content` columns that the history query selects. */
  datatype Message = Message(role: string, content: string)

  function Min(a: nat, b: nat): nat
  {
    if a <= b then a else b
  }

  function Columns(r: Row): Message
  {
    Message(r.role, r.content)
  }

  /** Projects every row onto its `role, content` columns, keeping the order. */
  function SelectAll(rows: seq<Row>): seq<Message>
  {
    seq(|rows|, i requires 0 <= i < |rows| => Columns(rows[i]))
  }

  /** `Array.prototype.reverse` on a fresh copy. */
  function Reverse<T>(s: seq<T>): (r: seq<T>)
    ensures |r| == |s|
    ensures forall i :: 0 <= i < |s| ==> r[i] == s[|s| - 1 - i]
  {
    if s == [] then [] else [s[|s| - 1]] + Reverse(s[..|s| - 1])
  }

  /** Every id in `rows` is positive and below `bound`, and ids strictly increase in insertion
      order, as AUTOINCREMENT guarantees (stated from the newest row backwards). */
  predicate IdsBelow(rows: seq<Row>, bound: nat)
  {
    rows == []
    || (1 <= rows[|rows| - 1].id < bound && IdsBelow(rows[..|rows| - 1], rows[|rows| - 1].id))
  }

  /** A table as SQLite keeps it: `next`, one more than the largest id ever handed out, is
      positive and above every stored id. */
  predicate Stored(rows: seq<Row>, next: nat)
  {
    next >= 1 && IdsBelow(rows, next)
  }

  /** `SELECT COUNT(*) FROM messages WHERE role = ?`. */
  function CountRole(rows: seq<Row>, role: string): (n: nat)
    ensures n <= |rows|
  {
    if rows == [] then 0
    else CountRole(rows[..|rows| - 1], role) + (if rows[|rows| - 1].role == role then 1 else 0)
  }

  /** `... ORDER BY id DESC LIMIT limit`, read off the end of the table (rows are stored in id order). */
  function NewestFirst(rows: seq<Row>, limit: nat): (r: seq<Row>)
    ensures |r| == Min(limit, |rows|)
  {
    if limit == 0 || rows == [] then []
    else [rows[|rows| - 1]] + NewestFirst(rows[..|rows| - 1], limit - 1)
  }

  /** The history window: the last `min(limit, |rows|)` rows, oldest first, as `role, content`. */
  function Window(rows: seq<Row>, limit: nat): (r: seq<Message>)
    ensures |r| == Min(limit, |rows|)
    ensures forall i :: 0 <= i < |r| ==> r[i] == Columns(rows[|rows| - |r| + i])
  {
    SelectAll(rows[|rows| - Min(limit, |rows|)..])
  }

  lemma {:induction false} CountRoleAppend(a: seq<Row>, b: seq<Row>, role: string)
    ensures CountRole(a + b, role) == CountRole(a, role) + CountRole(b, role)
    decreases |b|
  {
    if b == [] {
      assert a + b == a;
    } else {
      var b' := b[..|b| - 1];
      assert (a + b)[..|a + b| - 1] == a + b';
      CountRoleAppend(a, b', role);
    }
  }

  /** Appending one row raises the count of its role by one and leaves every other count alone. */
  lemma CountRoleAppendOne(rows: seq<Row>, r: Row, role: string)
    ensures CountRole(rows + [r], role) == CountRole(rows, role) + (if r.role == role then 1 else 0)
  {
    assert (rows + [r])[..|rows|] == rows;
  }

  /** What the stored table promises row by row: ids are positive, below `bound`, and strictly
      increasing in insertion order. */
  lemma {:induction false} IdsBelowOrdered(rows: seq<Row>, bound: nat)
    requires IdsBelow(rows, bound)
    ensures forall i :: 0 <= i < |rows| ==> 1 <= rows[i].id < bound
    ensures forall i, j :: 0 <= i < j < |rows| ==> rows[i].id < rows[j].id
    decreases |rows|
  {
    if rows != [] {
      var front, last := rows[..|rows| - 1], rows[|rows| - 1];
      IdsBelowOrdered(front, last.id);
      assert forall i :: 0 <= i < |front| ==> rows[i] == front[i];
    }
  }

  /** The recursive read-off returns `min(limit, |rows|)` rows, the newest first. */
  lemma {:induction false} NewestFirstAt(rows: seq<Row>, limit: nat)
    ensures |NewestFirst(rows, limit)| == Min(limit, |rows|)
    ensures forall i :: 0 <= i < |NewestFirst(rows, limit)| ==> NewestFirst(rows, limit)[i] == rows[|rows| - 1 - i]
    decreases |rows|
  {
    if limit > 0 && rows != [] {
      var front := rows[..|rows| - 1];
      NewestFirstAt(front, limit - 1);
      var r := NewestFirst(rows, limit);
      forall i | 0 <= i < |r| ensures r[i] == rows[|rows| - 1 - i] {
        if i > 0 {
          assert r[i] == NewestFirst(front, limit - 1)[i - 1];
        }
      }
    }
  }

  /** Equivalently, the reversed suffix of length `min(limit, |rows|)`. */
  lemma NewestFirstIsReversedSuffix(rows: seq<Row>, limit: nat)
    ensures NewestFirst(rows, limit) == Reverse(rows[|rows| - Min(limit, |rows|)..])
  {
    NewestFirstAt(rows, limit);
  }

  /** What `ORDER BY id DESC LIMIT limit` promises: `min(limit, |rows|)` rows of the table, ids
      strictly decreasing, and every row left out has a smaller id than every row returned. */
  lemma NewestFirstOrderedById(rows: seq<Row>, next: nat, limit: nat)
    requires Stored(rows, next)
    ensures var r := NewestFirst(rows, limit);
      |r| == Min(limit, |rows|)
      && (forall x :: x in r ==> x in rows)
      && (forall i, j :: 0 <= i < j < |r| ==> r[i].id > r[j].id)
      && (forall k, j :: 0 <= k < |rows| - |r| && 0 <= j < |r| ==> rows[k].id < r[j].id)
  {
    IdsBelowOrdered(rows, next);
    NewestFirstIsReversedSuffix(rows, limit);
    var n, m := |rows|, Min(limit, |rows|);
    var r := NewestFirst(rows, limit);
    assert forall j :: 0 <= j < m ==> r[j] == rows[n - 1 - j];
    forall x | x in r ensures x in rows {
      var j :| 0 <= j < m && r[j] == x;
      assert rows[n - 1 - j] == x;
    }
  }

  /** Reversing the newest-first read gives the window: the last `min(limit, n)` rows in id order. */
  lemma ReversedNewestFirstIsWindow(rows: seq<Row>, limit: nat)
    ensures Reverse(SelectAll(NewestFirst(rows, limit))) == Window(rows, limit)
  {
    NewestFirstIsReversedSuffix(rows, limit);
  }

  /** The window holds `min(limit, n)` rows and, when `limit > 0`, ends with the newest row. */
  lemma WindowEndsWithNewest(rows: seq<Row>, newest: Row, limit: nat)
    requires limit > 0
    ensures |Window(rows + [newest], limit)| == Min(limit, |rows| + 1)
    ensures Window(rows + [newest], limit)[Min(limit, |rows| + 1) - 1] == Columns(newest)
  {
  }

  /** The AUTOINCREMENT table of one conversation. */
  class MessageLog {
    /** Rows in insertion order, which is ascending id order. */
    var rows: seq<Row>
    /** The id the next insert receives. */
    var nextId: nat

    ghost predicate Valid()
      reads this
    {
      Stored(rows, nextId)
    }

    /** `CREATE TABLE IF NOT EXISTS`: opens the table with whatever rows storage already holds. */
    constructor (stored: seq<Row>, next: nat)
      requires Stored(stored, next)
      ensures Valid() && rows == stored && nextId == next
    {
      rows, nextId := stored, next;
    }

    /** `INSERT INTO messages (role, content, timestamp) VALUES (?, ?, ?)`. */
    method Insert(role: string, content: string, timestamp: int) returns (id: nat)
      requires Valid()
      modifies this
      ensures Valid()
      ensures id == old(nextId) && nextId == id + 1
      ensures rows == old(rows) + [Row(id, role, content, timestamp)]
    {
      id := nextId;
      assert (rows + [Row(id, role, content, timestamp)])[..|rows|] == rows;
      rows := rows + [Row(id, role, content, timestamp)];
      nextId := nextId + 1;
    }

    /** The id an insert hands out is above every id already stored. */
    lemma FreshIdAboveStored()
      requires Valid()
      ensures forall i :: 0 <= i < |rows| ==> rows[i].id < nextId
    {
      IdsBelowOrdered(rows, nextId);
    }

    /** `SELECT COUNT(*) as count FROM messages WHERE role = ?`. */
    method Count(role: string) returns (n: nat)
      ensures n == CountRole(rows, role)
    {
      n := 0;
      var i := 0;
      while i < |rows|
        invariant 0 <= i <= |rows|
        invariant n == CountRole(rows[..i], role)
      {
        assert rows[..i + 1][..i] == rows[..i];
        if rows[i].role == role {
          n := n + 1;
        }
        i := i + 1;
      }
      assert rows[..|rows|] == rows;
    }

    /** `SELECT role, content FROM messages ORDER BY id DESC LIMIT limit`: the newest rows, newest first. */
    method Recent(limit: nat) returns (ms: seq<Message>)
      ensures |ms| == Min(limit, |rows|)
      ensures forall i :: 0 <= i < |ms| ==> ms[i] == Columns(rows[|rows| - 1 - i])
      ensures Reverse(ms) == Window(rows, limit)
    {
      NewestFirstIsReversedSuffix(rows, limit);
      ReversedNewestFirstIsWindow(rows, limit);
      ms := SelectAll(NewestFirst(rows, limit));
    }
  }
}
