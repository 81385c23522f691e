/**
 The event outbox under concurrency. Any number of transactions record events
 by locking the one fence row, allocating sequence numbers and committing or
 rolling back, while any number of readers page through the committed log with
 a cursor. Sequence numbers are never given back, and rows become visible only
 at commit.
 */
module Outbox {
  import opened Prelude

  datatype Draft = Draft(recipients: set<UserId>, organization: Option<OrgId>)

  datatype Row = Row(number: nat, draft: Draft)

  /** Whose feed: the events addressed to a user, or those about an organization. */
  datatype Owner = Recipient(user: UserId) | About(org: OrgId)

  datatype Writer = Writer(fenced: bool, rows: seq<Row>)

  datatype Reader = Reader(owner: Owner, from: nat, cursor: nat, got: seq<Row>)

  /** `fencing` is whether inserts lock the fence row first; the store's always do. */
  datatype Outbox = Outbox(fencing: bool, last: nat, visible: seq<Row>, writers: seq<Writer>, readers: seq<Reader>)

  datatype Step = Lock(writer: nat) | Insert(writer: nat, draft: Draft) | Commit(writer: nat) | Rollback(writer: nat) | Poll(reader: nat, limit: nat)

  const IDLE := Writer(false, [])

  predicate Shown(owner: Owner, r: Row) {
    match owner
    case Recipient(u) => u in r.draft.recipients
    case About(org) => r.draft.organization == Some(org)
  }

  predicate FenceHeld(o: Outbox, w: nat) {
    exists v :: 0 <= v < |o.writers| && v != w && o.writers[v].fenced
  }

  /** Of the owner's rows above a cursor, the one with the smallest sequence number. */
  function Following(rows: seq<Row>, owner: Owner, after: nat): (r: Option<Row>)
    ensures r.Some? ==> r.value in rows && Shown(owner, r.value) && r.value.number > after
    ensures r.Some? ==> forall x <- rows :: Shown(owner, x) && x.number > after ==> r.value.number <= x.number
    ensures r.None? ==> forall x <- rows :: Shown(owner, x) ==> x.number <= after
  {
    if rows == [] then None
    else
      var (x, rest) := (rows[0], Following(rows[1..], owner, after));
      if Shown(owner, x) && x.number > after && (rest.None? || x.number < rest.value.number) then Some(x) else rest
  }

  /** A feed page: the owner's rows after the cursor, in sequence order, up to the limit. */
  function Page(rows: seq<Row>, owner: Owner, after: nat, limit: nat): (page: seq<Row>)
    ensures |page| <= limit
    ensures forall r <- page :: r in rows && Shown(owner, r) && r.number > after
    decreases limit
  {
    if limit == 0 then []
    else
      var next := Following(rows, owner, after);
      if next.None? then [] else [next.value] + Page(rows, owner, next.value.number, limit - 1)
  }

  function Polled(r: Reader, visible: seq<Row>, limit: nat): Reader {
    var page := Page(visible, r.owner, r.cursor, limit);
    r.(got := r.got + page, cursor := if page == [] then r.cursor else page[|page| - 1].number)
  }

  /** A step that cannot happen now, because the fence is taken or was not locked, changes nothing. */
  function Take(o: Outbox, step: Step): Outbox {
    match step
    case Lock(w) =>
      if w >= |o.writers| || FenceHeld(o, w) then o
      else o.(writers := o.writers[w := o.writers[w].(fenced := true)])
    case Insert(w, draft) =>
      if w >= |o.writers| || (o.fencing && !o.writers[w].fenced) then o
      else o.(last := o.last + 1, writers := o.writers[w := o.writers[w].(rows := o.writers[w].rows + [Row(o.last + 1, draft)])])
    case Commit(w) =>
      if w >= |o.writers| then o
      else o.(visible := o.visible + o.writers[w].rows, writers := o.writers[w := IDLE])
    case Rollback(w) =>
      if w >= |o.writers| then o else o.(writers := o.writers[w := IDLE])
    case Poll(r, limit) =>
      if r >= |o.readers| then o else o.(readers := o.readers[r := Polled(o.readers[r], o.visible, limit)])
  }

  function Run(o: Outbox, steps: seq<Step>): Outbox {
    if steps == [] then o else Take(Run(o, steps[..|steps| - 1]), steps[|steps| - 1])
  }

  // ---- the invariant ----

  function Top(rows: seq<Row>): nat {
    if rows == [] then 0 else rows[|rows| - 1].number
  }

  ghost predicate Ascending(rows: seq<Row>) {
    forall i, j :: 0 <= i < j < |rows| ==> rows[i].number < rows[j].number
  }

  /** The rows strictly above one cursor and up to another. */
  function Between(rows: seq<Row>, owner: Owner, from: nat, to: nat): seq<Row> {
    if rows == [] then []
    else
      var x := rows[|rows| - 1];
      Between(rows[..|rows| - 1], owner, from, to) + if Shown(owner, x) && from < x.number <= to then [x] else []
  }

  ghost predicate WriterOk(o: Outbox, w: Writer) {
    && (w.rows != [] ==> w.fenced)
    && Ascending(w.rows)
    && (forall r <- w.rows :: Top(o.visible) < r.number <= o.last)
  }

  ghost predicate ReaderOk(o: Outbox, r: Reader) {
    && r.from <= r.cursor
    && (r.cursor == r.from || r.cursor <= Top(o.visible))
    && r.got == Between(o.visible, r.owner, r.from, r.cursor)
  }

  ghost predicate OneFenced(writers: seq<Writer>) {
    forall v, w :: 0 <= v < w < |writers| ==> !(writers[v].fenced && writers[w].fenced)
  }

  ghost predicate OutboxInv(o: Outbox) {
    && o.fencing
    && Ascending(o.visible) && Top(o.visible) <= o.last
    && OneFenced(o.writers)
    && (forall w :: 0 <= w < |o.writers| ==> WriterOk(o, o.writers[w]))
    && (forall r :: 0 <= r < |o.readers| ==> ReaderOk(o, o.readers[r]))
  }

  // ---- reading ----

  lemma {:induction false} BetweenEmpty(rows: seq<Row>, owner: Owner, c: nat)
    ensures Between(rows, owner, c, c) == []
  {
    if rows != [] { BetweenEmpty(rows[..|rows| - 1], owner, c); }
  }

  lemma {:induction false} BetweenAppend(rows: seq<Row>, more: seq<Row>, owner: Owner, from: nat, to: nat)
    ensures Between(rows + more, owner, from, to) == Between(rows, owner, from, to) + Between(more, owner, from, to)
  {
    if more == [] {
      assert rows + more == rows;
    } else {
      var n := |more| - 1;
      assert (rows + more)[..|rows| + n] == rows + more[..n];
      BetweenAppend(rows, more[..n], owner, from, to);
    }
  }

  lemma {:induction false} BetweenNone(rows: seq<Row>, owner: Owner, from: nat, to: nat)
    requires forall x <- rows :: Shown(owner, x) ==> !(from < x.number <= to)
    ensures Between(rows, owner, from, to) == []
  {
    if rows != [] { BetweenNone(rows[..|rows| - 1], owner, from, to); }
  }

  lemma AscendingButLast(rows: seq<Row>)
    requires Ascending(rows) && rows != []
    ensures Ascending(rows[..|rows| - 1]) && forall x <- rows[..|rows| - 1] :: x.number < rows[|rows| - 1].number
  {
  }

  lemma {:induction false} BetweenSplit(rows: seq<Row>, owner: Owner, from: nat, mid: nat, to: nat)
    requires Ascending(rows) && from <= mid <= to
    ensures Between(rows, owner, from, to) == Between(rows, owner, from, mid) + Between(rows, owner, mid, to)
  {
    hide Ascending;
    if rows != [] {
      var (n, x) := (|rows| - 1, rows[|rows| - 1]);
      AscendingButLast(rows);
      BetweenSplit(rows[..n], owner, from, mid, to);
      if x.number <= mid {
        BetweenNone(rows[..n], owner, mid, to);
      }
    }
  }

  lemma BetweenOne(x: Row, owner: Owner, from: nat, to: nat)
    ensures Between([x], owner, from, to) == if Shown(owner, x) && from < x.number <= to then [x] else []
  {
    assert [x][..0] == [];
  }

  lemma SplitAt(rows: seq<Row>, x: Row) returns (below: seq<Row>, above: seq<Row>)
    requires Ascending(rows) && x in rows
    ensures rows == below + ([x] + above)
    ensures forall y <- below :: y in rows && y.number < x.number
    ensures forall y <- above :: y in rows && y.number > x.number
  {
    var i :| 0 <= i < |rows| && rows[i] == x;
    below, above := rows[..i], rows[i + 1..];
  }

  /** Nothing of the owner's lies between a cursor and the row that follows it. */
  lemma BetweenFollowing(rows: seq<Row>, owner: Owner, after: nat)
    requires Ascending(rows) && Following(rows, owner, after).Some?
    ensures var next := Following(rows, owner, after).value; Between(rows, owner, after, next.number) == [next]
  {
    hide Between, Following, Ascending;
    var next := Following(rows, owner, after).value;
    var below, above := SplitAt(rows, next);
    BetweenAppend(below, [next] + above, owner, after, next.number);
    BetweenAppend([next], above, owner, after, next.number);
    BetweenNone(below, owner, after, next.number);
    BetweenNone(above, owner, after, next.number);
    BetweenOne(next, owner, after, next.number);
  }

  /** On an ascending log a page is exactly the owner's rows between the old cursor and the new, and short only at the end. */
  lemma {:induction false} PageIsBetween(rows: seq<Row>, owner: Owner, after: nat, limit: nat)
    requires Ascending(rows)
    ensures var page := Page(rows, owner, after, limit);
      var to := if page == [] then after else page[|page| - 1].number;
      && to >= after
      && page == Between(rows, owner, after, to)
      && (|page| < limit ==> forall x <- rows :: Shown(owner, x) ==> x.number <= to)
    decreases limit
  {
    hide Between, Following;
    BetweenEmpty(rows, owner, after);
    var next := Following(rows, owner, after);
    if limit > 0 && next.Some? {
      var rest := Page(rows, owner, next.value.number, limit - 1);
      PageIsBetween(rows, owner, next.value.number, limit - 1);
      BetweenFollowing(rows, owner, after);
      var to := if rest == [] then next.value.number else rest[|rest| - 1].number;
      BetweenSplit(rows, owner, after, next.value.number, to);
    }
  }

  // ---- every step keeps it ----

  lemma PollKeeps(o: Outbox, r: Reader, limit: nat)
    requires Ascending(o.visible) && ReaderOk(o, r)
    ensures ReaderOk(o, Polled(r, o.visible, limit))
  {
    hide Between, Page;
    var page := Page(o.visible, r.owner, r.cursor, limit);
    PageIsBetween(o.visible, r.owner, r.cursor, limit);
    var to := Polled(r, o.visible, limit).cursor;
    BetweenSplit(o.visible, r.owner, r.from, r.cursor, to);
    if page != [] { UnderTop(o.visible, page[|page| - 1]); }
  }

  lemma UnderTop(rows: seq<Row>, x: Row)
    requires Ascending(rows) && x in rows
    ensures x.number <= Top(rows)
  {
  }

  /** Rows committed above everything visible are above every cursor already reached, so no reader has passed them. */
  lemma CommitKeepsReader(o: Outbox, rows: seq<Row>, r: Reader)
    requires ReaderOk(o, r) && Ascending(rows) && forall x <- rows :: Top(o.visible) < x.number
    ensures ReaderOk(o.(visible := o.visible + rows), r)
  {
    BetweenAppend(o.visible, rows, r.owner, r.from, r.cursor);
    BetweenNone(rows, r.owner, r.from, r.cursor);
  }

  lemma CommitKeeps(o: Outbox, w: nat)
    requires OutboxInv(o) && w < |o.writers|
    ensures OutboxInv(Take(o, Commit(w)))
  {
    var (rows, o') := (o.writers[w].rows, Take(o, Commit(w)));
    assert WriterOk(o, o.writers[w]);
    forall i, j | 0 <= i < j < |o'.visible| ensures o'.visible[i].number < o'.visible[j].number {
      if i < |o.visible| <= j { assert rows[j - |o.visible|] in rows; }
    }
    if rows != [] { assert rows[|rows| - 1] in rows && o'.visible[|o'.visible| - 1] == rows[|rows| - 1]; } else { assert o'.visible == o.visible; }
    forall v | 0 <= v < |o.writers| ensures WriterOk(o', o'.writers[v]) {
      assert WriterOk(o, o.writers[v]);
    }
    forall r | 0 <= r < |o.readers| ensures ReaderOk(o', o'.readers[r]) {
      assert ReaderOk(o, o.readers[r]);
      CommitKeepsReader(o, rows, o.readers[r]);
    }
  }

  lemma WritingKeeps(o: Outbox, step: Step)
    requires OutboxInv(o) && (step.Lock? || step.Insert? || step.Rollback?)
    ensures OutboxInv(Take(o, step))
  {
    var o' := Take(o, step);
    forall v | 0 <= v < |o.writers| ensures WriterOk(o', o'.writers[v]) {
      assert WriterOk(o, o.writers[v]);
    }
    forall r | 0 <= r < |o.readers| ensures ReaderOk(o', o'.readers[r]) {
      assert ReaderOk(o, o.readers[r]);
    }
  }

  lemma TakeKeeps(o: Outbox, step: Step)
    requires OutboxInv(o)
    ensures OutboxInv(Take(o, step))
  {
    match step
    case Commit(w) => if w < |o.writers| { CommitKeeps(o, w); }
    case Poll(r, limit) =>
      var o' := Take(o, step);
      forall q | 0 <= q < |o.readers| ensures ReaderOk(o', o'.readers[q]) {
        assert ReaderOk(o, o.readers[q]);
        if q == r { PollKeeps(o, o.readers[r], limit); }
      }
      forall w | 0 <= w < |o.writers| ensures WriterOk(o', o'.writers[w]) {
        assert WriterOk(o, o.writers[w]);
      }
    case _ => WritingKeeps(o, step);
  }

  lemma {:induction false} RunKeeps(o: Outbox, steps: seq<Step>)
    requires OutboxInv(o)
    ensures OutboxInv(Run(o, steps))
  {
    if steps != [] {
      RunKeeps(o, steps[..|steps| - 1]);
      TakeKeeps(Run(o, steps[..|steps| - 1]), steps[|steps| - 1]);
    }
  }

  // ---- what readers are promised ----

  /** A committed log, idle writers, and readers at any cursor they choose. */
  ghost predicate Start(o: Outbox) {
    && o.fencing
    && Ascending(o.visible) && Top(o.visible) <= o.last
    && (forall w <- o.writers :: w == IDLE)
    && (forall r <- o.readers :: r == Reader(r.owner, r.from, r.from, []))
  }

  lemma StartInv(o: Outbox)
    requires Start(o)
    ensures OutboxInv(o)
  {
    hide Between;
    forall w | 0 <= w < |o.writers| ensures o.writers[w] == IDLE && WriterOk(o, o.writers[w]) {
      assert o.writers[w] in o.writers;
    }
    forall r | 0 <= r < |o.readers| ensures ReaderOk(o, o.readers[r]) {
      assert o.readers[r] in o.readers;
      BetweenEmpty(o.visible, o.readers[r].owner, o.readers[r].from);
    }
  }

  lemma TakeGrows(o: Outbox, step: Step)
    ensures o.visible <= Take(o, step).visible
  {
    hide Polled;
  }

  lemma {:induction false} LogGrows(o: Outbox, steps: seq<Step>, i: nat, j: nat)
    requires i <= j <= |steps|
    ensures Run(o, steps[..i]).visible <= Run(o, steps[..j]).visible
    decreases j
  {
    hide Take;
    if i < j {
      LogGrows(o, steps, i, j - 1);
      assert steps[..j][..j - 1] == steps[..j - 1];
      TakeGrows(Run(o, steps[..j - 1]), steps[j - 1]);
    }
  }

  /** Once an event is visible, no lower sequence number becomes visible later. */
  lemma VisibleGrowsUpward(o: Outbox, steps: seq<Step>, i: nat, j: nat, seen: Row, later: Row)
    requires Start(o) && i <= j <= |steps|
    requires seen in Run(o, steps[..i]).visible && later in Run(o, steps[..j]).visible && later !in Run(o, steps[..i]).visible
    ensures seen.number < later.number
  {
    StartInv(o);
    RunKeeps(o, steps[..j]);
    LogGrows(o, steps, i, j);
    var (early, late) := (Run(o, steps[..i]).visible, Run(o, steps[..j]).visible);
    var a :| 0 <= a < |early| && early[a] == seen;
    var b :| 0 <= b < |late| && late[b] == later;
    assert late[a] == seen;
    assert forall k :: 0 <= k < |early| ==> late[k] == early[k] && early[k] in early;
    assert |early| <= b;
  }

  lemma ReaderStays(o: Outbox, step: Step, r: nat)
    requires r < |o.readers|
    ensures r < |Take(o, step).readers|
    ensures Take(o, step).readers[r].owner == o.readers[r].owner && Take(o, step).readers[r].from == o.readers[r].from
  {
    hide Page;
  }

  lemma {:induction false} ReadersStay(o: Outbox, steps: seq<Step>, r: nat)
    requires r < |o.readers|
    ensures r < |Run(o, steps).readers|
    ensures Run(o, steps).readers[r].owner == o.readers[r].owner && Run(o, steps).readers[r].from == o.readers[r].from
  {
    hide Take;
    if steps != [] {
      ReadersStay(o, steps[..|steps| - 1], r);
      ReaderStays(Run(o, steps[..|steps| - 1]), steps[|steps| - 1], r);
    }
  }

  /** A user's feed has the events that name them a recipient, an organization's those about it. */
  predicate Addressed(owner: Owner, draft: Draft) {
    if owner.Recipient? then owner.user in draft.recipients else draft.organization == Some(owner.org)
  }

  /**
   Whatever writers do in between, a reader that pages by its last-seen cursor
   has received exactly the visible events of its feed above where it started
   and up to its cursor: each once, in order, none skipped.
   */
  lemma ReaderSeesEachExactlyOnce(o: Outbox, steps: seq<Step>, r: nat)
    requires Start(o) && r < |o.readers|
    ensures r < |Run(o, steps).readers|
    ensures var (e, reader) := (Run(o, steps), Run(o, steps).readers[r]);
      && reader.got == Between(e.visible, o.readers[r].owner, o.readers[r].from, reader.cursor)
      && Ascending(reader.got)
      && (forall x <- e.visible :: x in reader.got <==> Addressed(o.readers[r].owner, x.draft) && o.readers[r].from < x.number <= reader.cursor)
  {
    StartInv(o);
    RunKeeps(o, steps);
    ReadersStay(o, steps, r);
    var (e, reader) := (Run(o, steps), Run(o, steps).readers[r]);
    assert ReaderOk(e, reader);
    BetweenMembers(e.visible, reader.owner, reader.from, reader.cursor);
  }

  lemma {:induction false} BetweenMembers(rows: seq<Row>, owner: Owner, from: nat, to: nat)
    requires Ascending(rows)
    ensures forall x :: x in Between(rows, owner, from, to) <==> x in rows && Shown(owner, x) && from < x.number <= to
    ensures Ascending(Between(rows, owner, from, to))
  {
    if rows != [] {
      var n := |rows| - 1;
      BetweenMembers(rows[..n], owner, from, to);
      assert rows == rows[..n] + [rows[n]];
      var (before, b) := (Between(rows[..n], owner, from, to), Between(rows, owner, from, to));
      forall i, j | 0 <= i < j < |b| ensures b[i].number < b[j].number {
        assert b[i] in before;
        assert b[i] in rows[..n];
      }
    }
  }

  /** A page shorter than its limit leaves nothing of the feed unread. */
  lemma ShortPageCatchesUp(o: Outbox, steps: seq<Step>, r: nat, limit: nat)
    requires Start(o) && r < |o.readers|
    ensures var e := Run(o, steps);
      r < |e.readers| &&
      var (before, after) := (e.readers[r], Polled(e.readers[r], e.visible, limit));
      |after.got| < |before.got| + limit ==>
        forall x <- e.visible :: x in after.got <==> Shown(after.owner, x) && after.from < x.number
  {
    hide Run, Between, Page, Following, OneFenced;
    StartInv(o);
    RunKeeps(o, steps);
    ReadersStay(o, steps, r);
    var e := Run(o, steps);
    var (before, after) := (e.readers[r], Polled(e.readers[r], e.visible, limit));
    PollKeeps(e, before, limit);
    PageIsBetween(e.visible, before.owner, before.cursor, limit);
    BetweenMembers(e.visible, after.owner, after.from, after.cursor);
  }

  // ---- what becomes visible ----

  /** Writers after any step: the fence goes to whoever asks while no one else has it, and rows are added to a transaction until it ends. */
  lemma EveryWriterAfter(o: Outbox, step: Step, w: nat)
    requires w < |o.writers|
    ensures var (before, o') := (o.writers[w], Take(o, step));
      && |o'.writers| == |o.writers|
      && o'.writers[w] == match step
           case Lock(v) => if v == w && forall u :: 0 <= u < |o.writers| && u != w ==> !o.writers[u].fenced then before.(fenced := true) else before
           case Insert(v, draft) => if v == w && (before.fenced || !o.fencing) then before.(rows := before.rows + [Row(o.last + 1, draft)]) else before
           case Commit(v) => if v == w then Writer(false, []) else before
           case Rollback(v) => if v == w then Writer(false, []) else before
           case Poll(_, _) => before
  {
    hide Polled;
  }

  /** What is visible and the last number after any step: a commit shows its rows, and numbers are never given back. */
  lemma EveryLogAfter(o: Outbox, step: Step)
    ensures var o' := Take(o, step);
      && o'.visible == (if step.Commit? && step.writer < |o.writers| then o.visible + o.writers[step.writer].rows else o.visible)
      && o'.last == (if step.Insert? && step.writer < |o.writers| && (o.writers[step.writer].fenced || !o.fencing) then o.last + 1 else o.last)
      && o'.fencing == o.fencing
  {
    hide Polled;
  }

  datatype Fate = Pending | Committed | RolledBack

  /** What became of a transaction between the insert at i and move n: its first commit or rollback decides. */
  function FateOf(steps: seq<Step>, i: nat, n: nat, w: nat): Fate
    requires i < n <= |steps|
    decreases n
  {
    if n == i + 1 then Pending
    else
      var before := FateOf(steps, i, n - 1, w);
      if before.Pending? && steps[n - 1] == Commit(w) then Committed
      else if before.Pending? && steps[n - 1] == Rollback(w) then RolledBack
      else before
  }

  ghost predicate NumberGone(o: Outbox, number: nat) {
    && number <= o.last
    && (forall x <- o.visible :: x.number != number)
    && (forall w :: 0 <= w < |o.writers| ==> forall x <- o.writers[w].rows :: x.number != number)
  }

  lemma GoneStays(o: Outbox, step: Step, number: nat)
    requires NumberGone(o, number)
    ensures NumberGone(Take(o, step), number)
  {
    EveryLogAfter(o, step);
    var o' := Take(o, step);
    forall w | 0 <= w < |o'.writers| ensures forall x <- o'.writers[w].rows :: x.number != number {
      WritersStay(o, step);
      EveryWriterAfter(o, step, w);
    }
    hide Take;
    if step.Commit? && step.writer < |o.writers| {
      assert forall x <- o.writers[step.writer].rows :: x.number != number;
    }
  }

  lemma WritersStay(o: Outbox, step: Step)
    ensures |Take(o, step).writers| == |o.writers|
  {
    hide Polled;
  }

  /** Where the inserted row is while its fate is open, and once it is decided. */
  ghost predicate FateShows(o: Outbox, fate: Fate, w: nat, row: Row) {
    && w < |o.writers|
    && match fate
       case Pending => row in o.writers[w].rows
       case Committed => row in o.visible
       case RolledBack => NumberGone(o, row.number)
  }

  lemma FateStep(o: Outbox, step: Step, fate: Fate, w: nat, row: Row)
    requires OutboxInv(o) && FateShows(o, fate, w, row)
    ensures FateShows(Take(o, step), if fate.Pending? && step == Commit(w) then Committed else if fate.Pending? && step == Rollback(w) then RolledBack else fate, w, row)
  {
    EveryWriterAfter(o, step, w);
    EveryLogAfter(o, step);
    if fate.RolledBack? { GoneStays(o, step, row.number); }
    if fate.Pending? && step == Rollback(w) { RollbackDrops(o, w, row); }
    hide Take;
  }

  lemma RollbackDrops(o: Outbox, w: nat, row: Row)
    requires OutboxInv(o) && w < |o.writers| && row in o.writers[w].rows
    ensures NumberGone(Take(o, Rollback(w)), row.number)
  {
    assert WriterOk(o, o.writers[w]);
    forall x | x in o.visible ensures x.number != row.number {
      UnderTop(o.visible, x);
    }
    forall v | 0 <= v < |o.writers| && v != w ensures o.writers[v].rows == [] {
      assert WriterOk(o, o.writers[v]);
    }
  }

  lemma {:induction false} FateHolds(o: Outbox, steps: seq<Step>, i: nat, n: nat, w: nat)
    requires Start(o) && i < n <= |steps| && w < |o.writers| && steps[i].Insert? && steps[i].writer == w
    requires var s := Run(o, steps[..i]); w < |s.writers| && s.writers[w].fenced
    ensures FateShows(Run(o, steps[..n]), FateOf(steps, i, n, w), w, Row(Run(o, steps[..i]).last + 1, steps[i].draft)) && OutboxInv(Run(o, steps[..n]))
    decreases n
  {
    hide OutboxInv, Take, FateShows;
    StartInv(o);
    RunKeeps(o, steps[..n - 1]);
    RunKeeps(o, steps[..n]);
    assert steps[..n][..n - 1] == steps[..n - 1];
    if n == i + 1 {
      InsertPends(Run(o, steps[..i]), w, steps[i].draft);
    } else {
      FateHolds(o, steps, i, n - 1, w);
      FateStep(Run(o, steps[..n - 1]), steps[n - 1], FateOf(steps, i, n - 1, w), w, Row(Run(o, steps[..i]).last + 1, steps[i].draft));
    }
  }

  lemma InsertPends(o: Outbox, w: nat, draft: Draft)
    requires w < |o.writers| && o.writers[w].fenced
    ensures FateShows(Take(o, Insert(w, draft)), Pending, w, Row(o.last + 1, draft))
  {
    EveryWriterAfter(o, Insert(w, draft), w);
  }

  /** An event recorded under the fence is visible, with its own draft, exactly once its transaction has committed; if that rolled back, never. */
  lemma VisibleIffCommitted(o: Outbox, steps: seq<Step>, i: nat, n: nat, w: nat)
    requires Start(o) && i < n <= |steps| && w < |o.writers| && steps[i].Insert? && steps[i].writer == w
    requires var s := Run(o, steps[..i]); w < |s.writers| && s.writers[w].fenced
    ensures Row(Run(o, steps[..i]).last + 1, steps[i].draft) in Run(o, steps[..n]).visible <==> FateOf(steps, i, n, w).Committed?
  {
    hide Take, Run, FateOf;
    FateHolds(o, steps, i, n, w);
    var (e, row) := (Run(o, steps[..n]), Row(Run(o, steps[..i]).last + 1, steps[i].draft));
    if FateOf(steps, i, n, w).Pending? {
      assert WriterOk(e, e.writers[w]);
      if row in e.visible { UnderTop(e.visible, row); }
    }
  }

  // ---- without the fence ----

  lemma PassedStaysLost(o: Outbox, step: Step, r: nat, x: Row)
    requires r < |o.readers| && x.number <= o.readers[r].cursor && x !in o.readers[r].got
    ensures var o' := Take(o, step); r < |o'.readers| && x.number <= o'.readers[r].cursor && x !in o'.readers[r].got
  {
    if step.Poll? && step.reader == r {
      var page := Page(o.visible, o.readers[r].owner, o.readers[r].cursor, step.limit);
      hide Page;
      assert page != [] ==> page[|page| - 1] in page;
    }
  }

  /** A row at or below a reader's cursor that it has not received, it never will. */
  lemma {:induction false} PassedIsLost(o: Outbox, steps: seq<Step>, r: nat, x: Row)
    requires r < |o.readers| && x.number <= o.readers[r].cursor && x !in o.readers[r].got
    ensures r < |Run(o, steps).readers| && x.number <= Run(o, steps).readers[r].cursor && x !in Run(o, steps).readers[r].got
  {
    hide Take;
    if steps != [] {
      PassedIsLost(o, steps[..|steps| - 1], r, x);
      PassedStaysLost(Run(o, steps[..|steps| - 1]), steps[|steps| - 1], r, x);
    }
  }

  lemma PageOfOne(x: Row, owner: Owner, after: nat, limit: nat)
    requires Shown(owner, x) && after < x.number && limit > 0
    ensures Page([x], owner, after, limit) == [x]
  {
    assert [x][1..] == [];
    assert Following([x], owner, after) == Some(x);
    assert Following([x], owner, x.number) == None;
    assert Page([x], owner, x.number, limit - 1) == [];
  }

  lemma Begun(o: Outbox, steps: seq<Step>)
    ensures Run(o, steps[..0]) == o
  {
  }

  lemma Ran(o: Outbox, steps: seq<Step>, n: nat, before: Outbox) returns (after: Outbox)
    requires n < |steps| && before == Run(o, steps[..n])
    ensures after == Run(o, steps[..n + 1]) == Take(before, steps[n])
  {
    assert steps[..n + 1][..n] == steps[..n];
    after := Take(before, steps[n]);
  }

  /** Two transactions without the fence, the slower one with the lower number, and a reader polling between their commits. */
  function Skipping(draft: Draft): seq<Step> {
    [Insert(0, draft), Insert(1, draft), Commit(1), Poll(0, 10), Commit(0)]
  }

  function Unfenced(u: UserId): Outbox {
    Outbox(false, 0, [], [IDLE, IDLE], [Reader(Recipient(u), 0, 0, [])])
  }

  lemma RaceCommitsHigherFirst(u: UserId) returns (o3: Outbox)
    ensures var draft := Draft({u}, None);
      && o3 == Run(Unfenced(u), Skipping(draft)[..3])
      && o3 == Outbox(false, 2, [Row(2, draft)], [Writer(false, [Row(1, draft)]), IDLE], Unfenced(u).readers)
  {
    hide Run, Polled;
    var draft := Draft({u}, None);
    var (lost, found) := (Row(1, draft), Row(2, draft));
    var (o, nothing: seq<Row>) := (Unfenced(u), []);
    assert nothing + [lost] == [lost] && nothing + [found] == [found];
    Begun(o, Skipping(draft));
    var o1 := Ran(o, Skipping(draft), 0, o);
    assert o1 == Outbox(false, 1, [], [Writer(false, [lost]), IDLE], o.readers);
    var o2 := Ran(o, Skipping(draft), 1, o1);
    assert o2 == Outbox(false, 2, [], [Writer(false, [lost]), Writer(false, [found])], o.readers);
    o3 := Ran(o, Skipping(draft), 2, o2);
    assert o3 == Outbox(false, 2, [found], [Writer(false, [lost]), IDLE], o.readers);
  }

  /** Without the fence the event with the lower number becomes visible below the reader's cursor, and whatever runs later the reader never receives it. */
  lemma UnfencedReaderSkips(u: UserId, later: seq<Step>)
    ensures var draft := Draft({u}, None);
      var (e, lost) := (Run(Unfenced(u), Skipping(draft)), Row(1, draft));
      && lost in e.visible && Shown(Recipient(u), lost)
      && |Run(e, later).readers| > 0 && lost !in Run(e, later).readers[0].got
  {
    hide Run, Page, Following;
    var draft := Draft({u}, None);
    var (lost, found) := (Row(1, draft), Row(2, draft));
    var o3 := RaceCommitsHigherFirst(u);
    var o4 := Ran(Unfenced(u), Skipping(draft), 3, o3);
    PageOfOne(found, Recipient(u), 0, 10);
    var nothing: seq<Row> := [];
    assert nothing + [found] == [found];
    assert o4 == o3.(readers := [Reader(Recipient(u), 0, 2, [found])]);
    var e := Ran(Unfenced(u), Skipping(draft), 4, o4);
    assert e == Outbox(false, 2, [found] + [lost], [IDLE, IDLE], o4.readers);
    assert Skipping(draft)[..5] == Skipping(draft);
    PassedIsLost(e, later, 0, lost);
  }
}
