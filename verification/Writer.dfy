/** The background writers: commands are written in one open transaction that is committed after
    every hundredth command and at the end.  The two databases differ in what a failed write undoes. */
module Writer {
  import opened Seqs

  const BATCH: nat := 100

  /** A row to be written, with what the database makes of it. */
  datatype Attempt<Row> = Attempt(row: Row, ok: bool)

  datatype Command<Row> = Write(attempt: Attempt<Row>) | Compact(attempts: seq<Attempt<Row>>) | Shutdown

  function AttemptsOf<Row>(c: Command<Row>): seq<Attempt<Row>> {
    match c case Write(attempt) => [attempt] case Compact(attempts) => attempts case Shutdown => []
  }

  predicate AllOk<Row>(attempts: seq<Attempt<Row>>) {
    forall i :: 0 <= i < |attempts| ==> attempts[i].ok
  }

  function Rows<Row>(attempts: seq<Attempt<Row>>): (rows: seq<Row>)
    ensures |rows| == |attempts|
  {
    seq(|attempts|, i requires 0 <= i < |attempts| => attempts[i].row)
  }

  /** All rows the database takes: a failed one is skipped. */
  function Accepted<Row>(attempts: seq<Attempt<Row>>): seq<Row> {
    if attempts == [] then []
    else
      var last := attempts[|attempts| - 1];
      Accepted(attempts[..|attempts| - 1]) + if last.ok then [last.row] else []
  }

  /** The rows before the first failed one. */
  function Leading<Row>(attempts: seq<Attempt<Row>>): seq<Row> {
    if AllOk(attempts) then Rows(attempts) else Leading(attempts[..|attempts| - 1])
  }

  /** No row is taken after one that failed. */
  predicate StaysFailed<Row>(attempts: seq<Attempt<Row>>) {
    forall i, j :: 0 <= i < j < |attempts| && !attempts[i].ok ==> !attempts[j].ok
  }

  lemma {:induction false} FrontOk<Row>(attempts: seq<Attempt<Row>>, init: seq<Attempt<Row>>, last: Attempt<Row>)
    requires attempts == init + [last]
    ensures AllOk(attempts) <==> AllOk(init) && last.ok
    ensures StaysFailed(attempts) <==> StaysFailed(init) && (AllOk(init) || !last.ok)
    ensures Rows(attempts) == Rows(init) + [last.row]
  {
    assert attempts[|init|] == last && forall i :: 0 <= i < |init| ==> attempts[i] == init[i];
  }

  /** Skipping a failed row keeps the rows before it, and more exactly if a later one is taken. */
  lemma {:induction false} SkippingKeepsMoreIff<Row>(attempts: seq<Attempt<Row>>)
    ensures Leading(attempts) <= Accepted(attempts)
    ensures StaysFailed(attempts) <==> Leading(attempts) == Accepted(attempts)
    ensures if AllOk(attempts) then Accepted(attempts) == Rows(attempts) else |Accepted(attempts)| < |attempts|
  {
    if attempts != [] {
      var init, last := attempts[..|attempts| - 1], attempts[|attempts| - 1];
      FrontOk(attempts, init, last);
      SkippingKeepsMoreIff(init);
    }
  }

  /** Before the first failure, and up to it. */
  lemma {:induction false} LeadingEndsAtFirstFailure<Row>(attempts: seq<Attempt<Row>>)
    ensures var n := |Leading(attempts)|;
            && n <= |attempts| && (n < |attempts| ==> !attempts[n].ok)
            && forall i :: 0 <= i < n ==> attempts[i].ok && Leading(attempts)[i] == attempts[i].row
  {
    if !AllOk(attempts) {
      var init := attempts[..|attempts| - 1];
      LeadingEndsAtFirstFailure(init);
      assert forall i :: 0 <= i < |init| ==> init[i] == attempts[i];
      assert |Leading(attempts)| == |init| ==> AllOk(init);
    }
  }

  predicate Failed<Row>(c: Command<Row>) {
    !AllOk(AttemptsOf(c))
  }

  function RowsOf<Row>(c: Command<Row>): seq<Row> {
    Rows(AttemptsOf(c))
  }

  /** DuckDB's writer does not look at how the rows of a batch fare; SQLite's stops at the first failed one. */
  function AcceptedBy<Row>(c: Command<Row>): seq<Row> {
    Accepted(AttemptsOf(c))
  }

  function LeadingBy<Row>(c: Command<Row>): seq<Row> {
    Leading(AttemptsOf(c))
  }

  predicate StopsAtFailure<Row>(c: Command<Row>) {
    StaysFailed(AttemptsOf(c))
  }

  /** A database connection: what is committed, and what the open transaction has written. */
  class Connection<Row> {
    var committed: seq<Row>
    var pending: seq<Row>

    constructor ()
      ensures committed == [] && pending == []
    {
      committed, pending := [], [];
    }

    method Insert(rows: seq<Row>)
      modifies this`pending
      ensures pending == old(pending) + rows
    {
      pending := pending + rows;
    }

    method Rollback()
      modifies this`pending
      ensures pending == []
    {
      pending := [];
    }

    method Commit()
      modifies this
      ensures committed == old(committed) + old(pending) && pending == []
    {
      committed, pending := committed + pending, [];
    }
  }

  // ---------- What should be in the table ----------

  /** The commands before the first shutdown. */
  function Handled<Row>(commands: seq<Command<Row>>): (h: seq<Command<Row>>)
    ensures |h| <= |commands|
  {
    if commands == [] || commands[0].Shutdown? then [] else [commands[0]] + Handled(commands[1..])
  }

  lemma {:induction false} HandledAt<Row>(commands: seq<Command<Row>>, i: nat)
    requires i <= |Handled(commands)| && i < |commands|
    ensures commands[i].Shutdown? <==> i == |Handled(commands)|
    ensures i < |Handled(commands)| ==> Handled(commands)[i] == commands[i]
  {
    if i > 0 {
      HandledAt(commands[1..], i - 1);
    }
  }

  function AllRows<Row>(commands: seq<Command<Row>>): seq<Row> {
    FlatMap(RowsOf<Row>, commands)
  }

  /** DuckDB's writer rolls back after a failed row, but never learns of a failed row in a batch. */
  predicate RollsBack<Row>(c: Command<Row>) {
    c.Write? && !c.attempt.ok
  }

  /** The rows written after the last rollback. */
  function AfterLastRollback<Row>(commands: seq<Command<Row>>): seq<Row> {
    if commands == [] then []
    else
      var last := commands[|commands| - 1];
      if RollsBack(last) then [] else AfterLastRollback(commands[..|commands| - 1]) + AcceptedBy(last)
  }

  /** Cut into blocks of a hundred commands, each keeps exactly what was written after its last rollback. */
  function KeptByBlocks<Row>(commands: seq<Command<Row>>): seq<Row> {
    if |commands| <= BATCH then AfterLastRollback(commands)
    else AfterLastRollback(commands[..BATCH]) + KeptByBlocks(commands[BATCH..])
  }

  /** Every command keeps the rows before its first failure. */
  function KeptByCommand<Row>(commands: seq<Command<Row>>): seq<Row> {
    FlatMap(LeadingBy<Row>, commands)
  }

  lemma {:induction false} FirstBlock<Row>(commands: seq<Command<Row>>)
    requires |commands| >= BATCH
    ensures KeptByBlocks(commands) == AfterLastRollback(commands[..BATCH]) + KeptByBlocks(commands[BATCH..])
  {
    if |commands| == BATCH {
      assert commands[..BATCH] == commands && commands[BATCH..] == [];
    }
  }

  lemma {:induction false} NothingKept<Row>(commands: seq<Command<Row>>)
    requires commands == []
    ensures KeptByBlocks(commands) == []
  {
  }

  /** What full blocks keep, one after the other. */
  lemma {:induction false} OneMoreBlock<Row>(commands: seq<Command<Row>>, full: nat)
    requires full % BATCH == 0 && full <= |commands| <= full + BATCH
    ensures KeptByBlocks(commands[..full]) + AfterLastRollback(commands[full..]) == KeptByBlocks(commands)
    decreases full
  {
    hide AfterLastRollback;
    if full == 0 {
      assert commands[0..] == commands;
      NothingKept<Row>(commands[..0]);
    } else {
      var rest := commands[BATCH..];
      OneMoreBlock(rest, full - BATCH);
      FirstBlock(commands);
      FirstBlock(commands[..full]);
      assert rest[full - BATCH..] == commands[full..];
      assert commands[..full][..BATCH] == commands[..BATCH] && commands[..full][BATCH..] == rest[..full - BATCH];
    }
  }

  lemma {:induction false} OneMoreCommand<Row>(commands: seq<Command<Row>>, full: nat, count: nat)
    requires full <= count < |commands|
    ensures AfterLastRollback(commands[full..count + 1])
         == if RollsBack(commands[count]) then [] else AfterLastRollback(commands[full..count])
                                                       + AcceptedBy(commands[count])
  {
    assert commands[full..count + 1][..count - full] == commands[full..count];
  }

  // ---------- The DuckDB writer ----------

  /** Full blocks are committed, and what the commands since then have written is pending. */
  ghost predicate InBlock<Row>(committed: seq<Row>, pending: seq<Row>, handled: seq<Command<Row>>, full: nat,
                               count: nat) {
    && full % BATCH == 0 && full <= count <= full + BATCH && count <= |handled|
    && committed == KeptByBlocks(handled[..full]) && pending == AfterLastRollback(handled[full..count])
  }

  lemma {:induction false} NoBlock<Row>(handled: seq<Command<Row>>)
    ensures InBlock([], [], handled, 0, 0)
  {
    assert handled[..0] == [] && handled[0..0] == [];
  }

  lemma {:induction false} FullBlock<Row>(committed: seq<Row>, pending: seq<Row>, handled: seq<Command<Row>>, full: nat,
                                          count: nat)
    requires InBlock(committed, pending, handled, full, count)
    ensures committed + pending == KeptByBlocks(handled[..count])
    ensures count % BATCH == 0 ==> InBlock(committed + pending, [], handled, count, count)
  {
    OneMoreBlock(handled[..count], full);
    assert handled[..count][..full] == handled[..full] && handled[..count][full..] == handled[full..count];
    assert handled[count..count] == [];
  }

  lemma {:induction false} AcceptedOne<Row>(attempt: Attempt<Row>)
    ensures Accepted([attempt]) == if attempt.ok then [attempt.row] else []
  {
    var none: seq<Attempt<Row>> := [];
    assert [attempt][..0] == none && Accepted(none) == [];
  }

  method DuckDbExecute<Row>(conn: Connection<Row>, command: Command<Row>)
    requires !command.Shutdown?
    modifies conn`pending
    ensures conn.pending == if RollsBack(command) then [] else old(conn.pending) + AcceptedBy(command)
  {
    match command {
      case Compact(attempts) =>
        assert attempts[..|attempts|] == attempts;
        for i := 0 to |attempts|
          invariant conn.pending == old(conn.pending) + Accepted(attempts[..i])
        {
          assert attempts[..i + 1][..i] == attempts[..i];
          if attempts[i].ok {
            conn.Insert([attempts[i].row]);
          }
        }
      case Write(attempt) =>
        if attempt.ok {
          AcceptedOne(attempt);
          conn.Insert([attempt.row]);
        } else {
          conn.Rollback();
        }
    }
  }

  /** A failed statement aborts the transaction, and everything since the last commit is rolled back; but the
      statements of a batch are not checked. */
  method DuckDbWriter<Row>(conn: Connection<Row>, commands: seq<Command<Row>>) returns (backlogDecrements: nat)
    requires conn.committed == [] && conn.pending == []
    modifies conn
    ensures conn.committed == KeptByBlocks(Handled(commands)) && conn.pending == []
    ensures backlogDecrements == |Handled(commands)|
  {
    hide KeptByBlocks, AfterLastRollback, AcceptedBy, RollsBack, Handled;
    ghost var handled := Handled(commands);
    var count := 0;
    backlogDecrements := 0;
    ghost var full := 0;
    NoBlock(handled);
    while count < |commands|
      invariant count <= |handled| && backlogDecrements == count && count < full + BATCH
      invariant InBlock(conn.committed, conn.pending, handled, full, count)
      decreases |commands| - count
    {
      var command := commands[count];
      HandledAt(commands, count);
      if command.Shutdown? {
        break;
      }
      OneMoreCommand(handled, full, count);
      DuckDbExecute(conn, command);
      count := count + 1;
      if count % BATCH == 0 {
        FullBlock(conn.committed, conn.pending, handled, full, count);
        conn.Commit();
        full := count;
      }
      backlogDecrements := backlogDecrements + 1;
    }
    FullBlock(conn.committed, conn.pending, handled, full, count);
    assert handled[..|handled|] == handled;
    conn.Commit();
  }

  // ---------- The SQLite writer ----------

  lemma {:induction false} LeadingUpTo<Row>(attempts: seq<Attempt<Row>>, i: nat)
    requires i < |attempts| && AllOk(attempts[..i])
    ensures attempts[i].ok ==>
              AllOk(attempts[..i + 1]) && Rows(attempts[..i + 1]) == Rows(attempts[..i]) + [attempts[i].row]
    ensures !attempts[i].ok ==> Leading(attempts) == Rows(attempts[..i])
    decreases |attempts|
  {
    FrontOk(attempts[..i + 1], attempts[..i], attempts[i]);
    if !attempts[i].ok {
      var n := |attempts| - 1;
      if i < n {
        assert attempts[..n][..i] == attempts[..i];
        LeadingUpTo(attempts[..n], i);
      }
    }
  }

  method SqliteExecute<Row>(conn: Connection<Row>, command: Command<Row>)
    requires !command.Shutdown?
    modifies conn`pending
    ensures conn.pending == old(conn.pending) + LeadingBy(command)
  {
    var attempts := match command case Write(attempt) => [attempt] case Compact(more) => more;
    assert attempts[..|attempts|] == attempts;
    for i := 0 to |attempts|
      invariant AllOk(attempts[..i]) && conn.pending == old(conn.pending) + Rows(attempts[..i])
    {
      LeadingUpTo(attempts, i);
      if !attempts[i].ok {
        return;
      }
      conn.Insert([attempts[i].row]);
    }
  }

  lemma {:induction false} KeptMore<Row>(commands: seq<Command<Row>>, count: nat)
    requires count < |commands|
    ensures KeptByCommand(commands[..count + 1]) == KeptByCommand(commands[..count]) + LeadingBy(commands[count])
  {
    FlatMapAppend(LeadingBy<Row>, commands[..count], commands[count]);
    assert commands[..count + 1] == commands[..count] + [commands[count]];
  }

  /** A failed statement only undoes itself. */
  method SqliteWriter<Row>(conn: Connection<Row>, commands: seq<Command<Row>>) returns (backlogDecrements: nat)
    requires conn.committed == [] && conn.pending == []
    modifies conn
    ensures conn.committed == KeptByCommand(Handled(commands)) && conn.pending == []
    ensures backlogDecrements == |Handled(commands)|
  {
    hide LeadingBy, Handled;
    ghost var handled := Handled(commands);
    var count := 0;
    backlogDecrements := 0;
    while count < |commands|
      invariant count <= |handled| && backlogDecrements == count
      invariant conn.committed + conn.pending == KeptByCommand(handled[..count])
      decreases |commands| - count
    {
      var command := commands[count];
      HandledAt(commands, count);
      if command.Shutdown? {
        break;
      }
      KeptMore(handled, count);
      SqliteExecute(conn, command);
      count := count + 1;
      if count % BATCH == 0 {
        conn.Commit();
      }
      backlogDecrements := backlogDecrements + 1;
    }
    assert handled[..|handled|] == handled;
    conn.Commit();
  }

  // ---------- Which command's rows survive ----------

  /** No single row fails in the rest of the command's block of a hundred. */
  predicate Outlives<Row>(commands: seq<Command<Row>>, i: nat) {
    forall j :: i <= j < |commands| && j < (i / BATCH + 1) * BATCH ==> !(commands[j].Write? && !commands[j].attempt.ok)
  }

  /** The rows taken of the first commands, but for those that a rollback of their block undoes. */
  function Surviving<Row>(commands: seq<Command<Row>>, upTo: nat): seq<Row>
    requires upTo <= |commands|
  {
    if upTo == 0 then []
    else Surviving(commands, upTo - 1)
         + if Outlives(commands, upTo - 1) then Accepted(AttemptsOf(commands[upTo - 1])) else []
  }

  lemma {:induction false} SurvivingFront<Row>(commands: seq<Command<Row>>, k: nat)
    requires 0 < |commands| <= BATCH && k < |commands|
    ensures var n, last := |commands| - 1, commands[|commands| - 1];
            Surviving(commands, k) == if last.Write? && !last.attempt.ok then [] else Surviving(commands[..n], k)
  {
    hide Accepted, Outlives;
    var n := |commands| - 1;
    if k > 0 {
      SurvivingFront(commands, k - 1);
      OutlivesFront(commands, k - 1);
    }
  }

  lemma {:induction false} OutlivesFront<Row>(commands: seq<Command<Row>>, i: nat)
    requires 0 < |commands| <= BATCH && i < |commands| - 1
    ensures var n, last := |commands| - 1, commands[|commands| - 1];
            Outlives(commands, i) <==> Outlives(commands[..n], i) && !(last.Write? && !last.attempt.ok)
  {
    var n := |commands| - 1;
    assert forall j :: 0 <= j < n ==> commands[..n][j] == commands[j];
  }

  lemma {:induction false} BlockSurvives<Row>(commands: seq<Command<Row>>)
    requires |commands| <= BATCH
    ensures AfterLastRollback(commands) == Surviving(commands, |commands|)
  {
    if commands != [] {
      BlockSurvives(commands[..|commands| - 1]);
      SurvivingFront(commands, |commands| - 1);
    }
  }

  lemma {:induction false} FirstBlockAlone<Row>(commands: seq<Command<Row>>, k: nat)
    requires k <= BATCH < |commands|
    ensures Surviving(commands, k) == Surviving(commands[..BATCH], k)
  {
    if k > 0 {
      FirstBlockAlone(commands, k - 1);
      assert forall j :: 0 <= j < BATCH ==> commands[..BATCH][j] == commands[j];
      assert Outlives(commands, k - 1) <==> Outlives(commands[..BATCH], k - 1);
    }
  }

  lemma {:induction false} OutlivesShifted<Row>(commands: seq<Command<Row>>, i: nat)
    requires BATCH + i < |commands|
    ensures Outlives(commands, BATCH + i) <==> Outlives(commands[BATCH..], i)
  {
    assert (BATCH + i) / BATCH == 1 + i / BATCH;
    assert forall j :: 0 <= j < |commands| - BATCH ==> commands[BATCH..][j] == commands[BATCH + j];
    if Outlives(commands[BATCH..], i) {
      forall j | BATCH + i <= j < |commands| && j < ((BATCH + i) / BATCH + 1) * BATCH
        ensures !(commands[j].Write? && !commands[j].attempt.ok)
      {
        assert commands[BATCH..][j - BATCH] == commands[j];
      }
    }
    if Outlives(commands, BATCH + i) {
      forall j | i <= j < |commands| - BATCH && j < (i / BATCH + 1) * BATCH
        ensures !(commands[BATCH..][j].Write? && !commands[BATCH..][j].attempt.ok)
      {
        assert commands[BATCH..][j] == commands[BATCH + j];
      }
    }
  }

  lemma {:induction false} LaterBlocks<Row>(commands: seq<Command<Row>>, k: nat)
    requires BATCH + k <= |commands|
    ensures Surviving(commands, BATCH + k) == Surviving(commands, BATCH) + Surviving(commands[BATCH..], k)
  {
    hide Outlives, Accepted;
    if k > 0 {
      LaterBlocks(commands, k - 1);
      OutlivesShifted(commands, k - 1);
    }
  }

  /** DuckDB's table holds the rows it took of every command, in order, except those of commands followed by a
      failed single row in their block of a hundred. */
  lemma {:induction false} KeptExactly<Row>(commands: seq<Command<Row>>)
    ensures KeptByBlocks(commands) == Surviving(commands, |commands|)
    decreases |commands|
  {
    hide AfterLastRollback, Outlives;
    if |commands| <= BATCH {
      BlockSurvives(commands);
    } else {
      BlockSurvives(commands[..BATCH]);
      FirstBlockAlone(commands, BATCH);
      KeptExactly(commands[BATCH..]);
      LaterBlocks(commands, |commands| - BATCH);
    }
  }

  // ---------- What is lost ----------

  predicate NoneFailed<Row>(commands: seq<Command<Row>>) {
    forall i :: 0 <= i < |commands| ==> !Failed(commands[i])
  }

  /** Within a block all is kept if nothing fails, and less than all otherwise. */
  lemma {:induction false} BlockKeepsAll<Row>(commands: seq<Command<Row>>)
    ensures NoneFailed(commands) ==> AfterLastRollback(commands) == AllRows(commands)
    ensures !NoneFailed(commands) ==> |AfterLastRollback(commands)| < |AllRows(commands)|
  {
    if commands != [] {
      var n := |commands| - 1;
      BlockKeepsAll(commands[..n]);
      SkippingKeepsMoreIff(AttemptsOf(commands[n]));
      assert NoneFailed(commands) <==> NoneFailed(commands[..n]) && !Failed(commands[n]) by {
        assert forall i :: 0 <= i < n ==> commands[..n][i] == commands[i];
      }
    }
  }

  /** The table holds every command's rows, in order, exactly if no command failed. */
  lemma {:induction false} NothingLostIff<Row>(commands: seq<Command<Row>>)
    ensures KeptByBlocks(commands) == AllRows(commands) <==> NoneFailed(commands)
    ensures |KeptByBlocks(commands)| <= |AllRows(commands)|
    ensures !NoneFailed(commands) ==> |KeptByBlocks(commands)| < |AllRows(commands)|
    decreases |commands|
  {
    if |commands| <= BATCH {
      BlockKeepsAll(commands);
    } else {
      var block, rest := commands[..BATCH], commands[BATCH..];
      BlockKeepsAll(block);
      NothingLostIff(rest);
      FlatMapConcat(RowsOf<Row>, block, rest);
      assert commands == block + rest;
      assert NoneFailed(commands) <==> NoneFailed(block) && NoneFailed(rest) by {
        assert commands == block + rest;
      }
    }
  }

  /** Every batch that loses a row loses all that follow, as it would in an aborted transaction. */
  predicate AllStop<Row>(commands: seq<Command<Row>>) {
    forall i :: 0 <= i < |commands| ==> StopsAtFailure(commands[i])
  }

  lemma {:induction false} BlockKeepsASuffix<Row>(commands: seq<Command<Row>>)
    requires AllStop(commands)
    ensures exists front :: KeptByCommand(commands) == front + AfterLastRollback(commands)
  {
    hide Accepted, Leading, RollsBack, StaysFailed;
    if commands == [] {
      assert KeptByCommand(commands) == [] + AfterLastRollback(commands);
    } else {
      var n, last := |commands| - 1, commands[|commands| - 1];
      BlockKeepsASuffix(commands[..n]);
      SkippingKeepsMoreIff(AttemptsOf(last));
      var front :| KeptByCommand(commands[..n]) == front + AfterLastRollback(commands[..n]);
      if !RollsBack(last) {
        assert KeptByCommand(commands) == front + AfterLastRollback(commands);
      } else {
        assert KeptByCommand(commands) == KeptByCommand(commands) + AfterLastRollback(commands);
      }
    }
  }

  /** Then whatever DuckDB keeps of the same commands, SQLite keeps too. */
  lemma {:induction false} SqliteKeepsMore<Row>(commands: seq<Command<Row>>)
    requires AllStop(commands)
    ensures multiset(KeptByBlocks(commands)) <= multiset(KeptByCommand(commands))
    decreases |commands|
  {
    if |commands| <= BATCH {
      BlockKeepsASuffix(commands);
      var front :| KeptByCommand(commands) == front + AfterLastRollback(commands);
      assert multiset(KeptByCommand(commands)) == multiset(front) + multiset(AfterLastRollback(commands));
    } else {
      var block, rest := commands[..BATCH], commands[BATCH..];
      assert commands == block + rest;
      BlockKeepsASuffix(block);
      var front :| KeptByCommand(block) == front + AfterLastRollback(block);
      SqliteKeepsMore(rest);
      FlatMapConcat(LeadingBy<Row>, block, rest);
      assert multiset(KeptByCommand(commands)) == multiset(front) + multiset(AfterLastRollback(block))
             + multiset(KeptByCommand(rest));
      assert multiset(KeptByBlocks(commands)) == multiset(AfterLastRollback(block)) + multiset(KeptByBlocks(rest));
    }
  }

  predicate NoneRollsBack<Row>(commands: seq<Command<Row>>) {
    forall i :: 0 <= i < |commands| ==> !RollsBack(commands[i])
  }

  lemma {:induction false} WithoutRollback<Row>(commands: seq<Command<Row>>)
    requires NoneRollsBack(commands)
    ensures AfterLastRollback(commands) == FlatMap(AcceptedBy<Row>, commands)
  {
    if commands != [] {
      WithoutRollback(commands[..|commands| - 1]);
    }
  }

  lemma {:induction false} BlocksWithoutRollback<Row>(commands: seq<Command<Row>>)
    requires NoneRollsBack(commands)
    ensures KeptByBlocks(commands) == FlatMap(AcceptedBy<Row>, commands)
    decreases |commands|
  {
    if |commands| <= BATCH {
      WithoutRollback(commands);
    } else {
      var block, rest := commands[..BATCH], commands[BATCH..];
      assert commands == block + rest;
      WithoutRollback(block);
      BlocksWithoutRollback(rest);
      FlatMapConcat(AcceptedBy<Row>, block, rest);
    }
  }

  lemma {:induction false} AcceptedOutnumber<Row>(commands: seq<Command<Row>>)
    ensures |KeptByCommand(commands)| <= |FlatMap(AcceptedBy<Row>, commands)|
    ensures !AllStop(commands) ==> |KeptByCommand(commands)| < |FlatMap(AcceptedBy<Row>, commands)|
  {
    hide Accepted, Leading, StaysFailed;
    if commands != [] {
      var n := |commands| - 1;
      AcceptedOutnumber(commands[..n]);
      SkippingKeepsMoreIff(AttemptsOf(commands[n]));
      assert AllStop(commands) <==> AllStop(commands[..n]) && StopsAtFailure(commands[n]) by {
        assert forall i :: 0 <= i < n ==> commands[..n][i] == commands[i];
      }
    }
  }

  /** Where nothing is rolled back, that is the exact condition: a row taken after a failed one of its batch
      is in DuckDB's table alone. */
  lemma {:induction false} SqliteKeepsMoreIff<Row>(commands: seq<Command<Row>>)
    requires NoneRollsBack(commands)
    ensures multiset(KeptByBlocks(commands)) <= multiset(KeptByCommand(commands)) <==> AllStop(commands)
  {
    BlocksWithoutRollback(commands);
    AcceptedOutnumber(commands);
    if AllStop(commands) {
      SqliteKeepsMore(commands);
    } else {
      assert |multiset(KeptByBlocks(commands))| > |multiset(KeptByCommand(commands))|;
      if multiset(KeptByBlocks(commands)) <= multiset(KeptByCommand(commands)) {
        FewerOrAsMany(multiset(KeptByBlocks(commands)), multiset(KeptByCommand(commands)));
      }
    }
  }

  lemma {:induction false} FewerOrAsMany<T>(a: multiset<T>, b: multiset<T>)
    requires a <= b
    ensures |a| <= |b|
  {
    assert b == a + (b - a);
  }
}
