/** The chat of a booking, read page by page from the newest message back. */
module Pages {
  import opened Domain

  datatype Message = Message(id: Id, createdAt: Time)

  /** The messages of one booking: creation times by id. */
  type Table = map<Id, Time>

  datatype Page = Page(items: seq<Message>, next: Option<Id>) | InvalidCursor

  predicate Older(a: Message, b: Message) {
    a.createdAt < b.createdAt || (a.createdAt == b.createdAt && a.id < b.id)
  }

  function Rows(table: Table): set<Message> {
    set id | id in table :: Message(id, table[id])
  }

  /** The rows the `where` of the query leaves. */
  function Matching(table: Table, after: Option<Message>): set<Message> {
    set m | m in Rows(table) && (after.None? || Older(m, after.value))
  }

  predicate IsNewest(m: Message, rows: set<Message>) {
    m in rows && forall x | x in rows && x != m :: Older(x, m)
  }

  lemma {:induction false} HasNewest(rows: set<Message>)
    requires rows != {}
    ensures exists m :: IsNewest(m, rows)
    decreases |rows|
  {
    var one :| one in rows;
    if rows == {one} {
      assert IsNewest(one, rows);
    } else {
      HasNewest(rows - {one});
      var other :| IsNewest(other, rows - {one});
      assert IsNewest(if Older(one, other) then other else one, rows) by {
        forall m | m in rows && m != one && m != other ensures Older(m, other) { assert m in rows - {one}; }
      }
    }
  }

  /** The rows in the order of the query: newest first, ties by id. */
  ghost function Newest(rows: set<Message>): (s: seq<Message>)
    ensures |s| == |rows| && forall m :: m in s <==> m in rows
    ensures Descending(s)
    decreases |rows|
  {
    if rows == {} then []
    else
      HasNewest(rows);
      var m :| IsNewest(m, rows);
      [m] + Newest(rows - {m})
  }

  predicate Descending(s: seq<Message>) {
    forall i, j | 0 <= i < j < |s| :: Older(s[j], s[i])
  }

  function Reverse(s: seq<Message>): (r: seq<Message>)
    ensures |r| == |s| && forall i | 0 <= i < |s| :: r[i] == s[|s| - 1 - i]
  {
    if s == [] then [] else Reverse(s[1..]) + [s[0]]
  }

  /** One call of `list`. */
  ghost function List(table: Table, limit: nat, cursor: Option<Id>): Page {
    if cursor.Some? && cursor.value !in table then InvalidCursor
    else
      var after := if cursor.Some? then Some(Message(cursor.value, table[cursor.value])) else None;
      var matching := Newest(Matching(table, after));
      var rows := matching[..if limit + 1 <= |matching| then limit + 1 else |matching|];
      var hasMore := |rows| > limit;
      var visible := Reverse(if hasMore then rows[..limit] else rows);
      Page(visible, if hasMore && visible != [] then Some(visible[0].id) else None)
  }

  // ---------------------------------------------------------------- what a cursor selects

  /** A set has one descending order. */
  lemma {:induction false} DescendingUnique(a: seq<Message>, b: seq<Message>)
    requires Descending(a) && Descending(b) && forall m :: m in a <==> m in b
    ensures a == b
    decreases |a|
  {
    if a == [] {
      assert forall i | 0 <= i < |b| :: b[i] in b;
    } else {
      assert a[0] in b && b != [];
      assert b[0] in a;
      var i :| 0 <= i < |b| && b[i] == a[0];
      var j :| 0 <= j < |a| && a[j] == b[0];
      assert a[0] == b[0];
      forall m ensures m in a[1..] <==> m in b[1..] {
        if m in a[1..] {
          assert m in b && m != b[0];
        }
        if m in b[1..] {
          assert m in a && m != a[0];
        }
      }
      DescendingUnique(a[1..], b[1..]);
      assert a == [a[0]] + a[1..] && b == [b[0]] + b[1..];
    }
  }

  lemma Behind(all: seq<Message>, k: nat)
    requires Descending(all) && k < |all|
    ensures Descending(all[k + 1..])
    ensures forall m :: m in all[k + 1..] <==> m in all && Older(m, all[k])
  {
    forall m ensures m in all[k + 1..] <==> m in all && Older(m, all[k]) {
      if m in all && Older(m, all[k]) {
        var i :| 0 <= i < |all| && all[i] == m;
        assert i > k;
        assert all[k + 1..][i - k - 1] == m;
      }
    }
  }

  /** After the cursor the query continues the same order right behind it. */
  lemma CursorContinues(table: Table, k: nat)
    requires k < |Newest(Rows(table))|
    ensures var all := Newest(Rows(table)); Newest(Matching(table, Some(all[k]))) == all[k + 1..]
  {
    hide Newest;
    var all := Newest(Rows(table));
    var rest := Newest(Matching(table, Some(all[k])));
    Behind(all, k);
    forall m ensures m in rest <==> m in all[k + 1..] {
      assert m in rest <==> m in all && Older(m, all[k]);
    }
    DescendingUnique(rest, all[k + 1..]);
  }

  /** The page that starts behind the first `k` rows. */
  lemma PageAt(table: Table, limit: nat, k: nat)
    requires limit > 0 && k <= |Newest(Rows(table))|
    ensures var all := Newest(Rows(table));
            var cursor := if k == 0 then None else Some(all[k - 1].id);
            var n := if k + limit < |all| then k + limit else |all|;
            List(table, limit, cursor) == Page(Reverse(all[k..n]), if n < |all| then Some(all[n - 1].id) else None)
  {
    hide Newest, Reverse;
    var all := Newest(Rows(table));
    if k == 0 {
      assert Matching(table, None) == Rows(table);
      assert all[0..] == all;
    } else {
      assert all[k - 1] in Rows(table);
      CursorContinues(table, k - 1);
    }
    hide Matching, Descending;
    Slices(all, k, limit);
  }

  lemma Slices(all: seq<Message>, k: nat, limit: nat)
    requires limit > 0 && k <= |all|
    ensures if k + limit < |all|
            then |all[k..][..limit + 1]| > limit && all[k..][..limit + 1][..limit] == all[k..k + limit] &&
                Reverse(all[k..k + limit])[0] == all[k + limit - 1]
            else all[k..][..|all[k..]|] == all[k..|all|]
  {
  }

  // ---------------------------------------------------------------- following the cursors

  /** The pages a caller collects who follows `next` for at most `calls` calls; `None` if that was not the end. */
  ghost function Follow(table: Table, limit: nat, cursor: Option<Id>, calls: nat): Option<seq<Message>>
    decreases calls
  {
    if calls == 0 then None
    else
      match List(table, limit, cursor)
      case InvalidCursor => None
      case Page(items, next) =>
        if next.None? then Some(items)
        else
          match Follow(table, limit, next, calls - 1)
          case None => None
          case Some(older) => Some(older + items)
  }

  /** How many pages `rows` rows fill; no rows still take one call. */
  function Calls(rows: nat, limit: nat): nat
    requires limit > 0
  {
    if rows <= limit then 1 else 1 + Calls(rows - limit, limit)
  }

  lemma {:induction false} FollowFrom(table: Table, limit: nat, k: nat)
    requires limit > 0 && k <= |Newest(Rows(table))|
    ensures var all := Newest(Rows(table));
            var cursor := if k == 0 then None else Some(all[k - 1].id);
            Follow(table, limit, cursor, Calls(|all| - k, limit)) == Some(Reverse(all[k..]))
    decreases |Newest(Rows(table))| - k
  {
    hide List, Newest, Reverse;
    var all := Newest(Rows(table));
    PageAt(table, limit, k);
    if k + limit < |all| {
      FollowFrom(table, limit, k + limit);
      assert Reverse(all[k..]) == Reverse(all[k + limit..]) + Reverse(all[k..k + limit]);
    } else {
      assert all[k..|all|] == all[k..];
    }
  }

  /** All messages, oldest first. */
  predicate Chronological(s: seq<Message>) {
    forall i, j | 0 <= i < j < |s| :: Older(s[i], s[j])
  }

  /**
   * Following the cursors ends after one call per started page, and the pages joined oldest first are
   * every message once, in order of time and then id.
   */
  lemma PagesCoverAll(table: Table, limit: nat)
    requires limit > 0
    ensures var read := Follow(table, limit, None, Calls(|table|, limit));
            read.Some? && Chronological(read.value) && |read.value| == |table| &&
            forall m :: m in read.value <==> m in Rows(table)
  {
    hide Follow, Newest, Reverse;
    var all := Newest(Rows(table));
    RowCount(table);
    FollowFrom(table, limit, 0);
    assert all[0..] == all;
    var read := Reverse(all);
    forall m ensures m in read <==> m in all {
      if m in all {
        var i :| 0 <= i < |all| && all[i] == m;
        assert read[|all| - 1 - i] == m;
      }
    }
  }

  lemma {:induction false} RowCount(table: Table)
    ensures |Rows(table)| == |table|
    decreases |table|
  {
    if table == map[] {
      assert Rows(table) == {};
    } else {
      var id :| id in table;
      RowCount(table - {id});
      var smaller := table - {id};
      forall m ensures m in Rows(table) <==> m in Rows(smaller) + {Message(id, table[id])} {
        if m in Rows(table) && m.id != id { assert m.id in smaller && smaller[m.id] == table[m.id]; }
      }
      assert Rows(table) == Rows(smaller) + {Message(id, table[id])};
    }
  }

  /**
   * Messages that arrive while a caller is paging, all newer than the cursor, change nothing the caller still
   * reads.
   */
  lemma NewerIgnored(table: Table, grown: Table, limit: nat, cursor: Id, calls: nat)
    requires limit > 0 && cursor in table && (forall id | id in table :: id in grown && grown[id] == table[id])
    requires forall id | id in grown && id !in table :: Older(Message(cursor, table[cursor]), Message(id, grown[id]))
    ensures Follow(grown, limit, Some(cursor), calls) == Follow(table, limit, Some(cursor), calls)
    decreases calls
  {
    hide Newest, Reverse, List;
    SamePage(table, grown, limit, cursor);
    var page := List(table, limit, Some(cursor));
    if calls > 0 && page.next.Some? {
      NextOlder(table, limit, cursor);
      NewerIgnored(table, grown, limit, page.next.value, calls - 1);
    }
  }

  lemma SamePage(table: Table, grown: Table, limit: nat, cursor: Id)
    requires cursor in table && (forall id | id in table :: id in grown && grown[id] == table[id])
    requires forall id | id in grown && id !in table :: Older(Message(cursor, table[cursor]), Message(id, grown[id]))
    ensures List(grown, limit, Some(cursor)) == List(table, limit, Some(cursor)) &&
            List(table, limit, Some(cursor)).Page?
  {
    var at := Message(cursor, table[cursor]);
    assert Matching(grown, Some(at)) == Matching(table, Some(at));
  }

  lemma NextOlder(table: Table, limit: nat, cursor: Id)
    requires cursor in table && List(table, limit, Some(cursor)).next.Some?
    ensures var next := List(table, limit, Some(cursor)).next.value;
            next in table && Older(Message(next, table[next]), Message(cursor, table[cursor]))
  {
    var page := List(table, limit, Some(cursor));
    var matching := Newest(Matching(table, Some(Message(cursor, table[cursor]))));
    assert page.items[0] in matching;
  }
}
