/**
 The usage log over every interleaving: each row is that of a finished call, at most one per call, and the
 rows under a request id account for the ledger rows under it.
 */
module Audit {
  import opened Seqs
  import opened Tables
  import opened CallMachine
  import opened Admission
  import opened Interleaving
  import opened Conservation
  import Billing

  /** The row a finished call has written. */
  ghost predicate WrittenBy(c: Call, row: UsageLog) {
    c.pc.Done? && c.tally.rows > 0 && row == LogOf(c, c.pc.plan)
  }

  ghost predicate RowOk(calls: seq<Call>, row: UsageLog) {
    exists k :: 0 <= k < |calls| && WrittenBy(calls[k], row)
  }

  /** 1 for a row with this request id. */
  function WithId(rid: string): UsageLog -> int {
    (row: UsageLog) => if row.requestId == rid then 1 else 0
  }

  /** How many rows a call that carries this request id has written. */
  function RowsOf(rid: string): Call -> int {
    (c: Call) => if c.rid == rid then c.tally.rows else 0
  }

  /** The credits a row shows under a ledger reference. */
  function ShownUnder(ref: string): UsageLog -> int {
    (row: UsageLog) => if RefOf(row.requestId) == ref then row.creditMicro else 0
  }

  /** What a call that has written no row owes under a reference. */
  function UnloggedUnder(ref: string): Call -> int {
    (c: Call) => if RefOf(c.rid) == ref && c.tally.rows == 0 then Owed(c) else 0
  }

  /** What a call that has written its row owes under a reference. */
  function LoggedUnder(ref: string): Call -> int {
    (c: Call) => if RefOf(c.rid) == ref && c.tally.rows > 0 then Owed(c) else 0
  }

  ghost predicate Counted(s: System, rid: string) {
    SumBy(s.sh.logs, WithId(rid)) == SumBy(s.calls, RowsOf(rid))
  }

  ghost predicate Shown(s: System, ref: string) {
    SumBy(s.sh.logs, ShownUnder(ref)) == SumBy(s.calls, LoggedUnder(ref))
  }

  ghost predicate LogsOk(s: System) {
    (forall m :: 0 <= m < |s.sh.logs| ==> RowOk(s.calls, s.sh.logs[m])) &&
    (forall rid: string :: Counted(s, rid)) &&
    (forall ref: string :: Shown(s, ref))
  }

  // ---------------------------------------------------------------- one step

  lemma StepLogs(sh: Shared, c: Call, e: Env)
    ensures CallStep(sh, c, e).sh.logs ==
      if c.pc.Logging? && !e.fails then sh.logs + [LogOf(c, c.pc.plan)] else sh.logs
  {
  }

  lemma LogStepEnds(sh: Shared, c: Call, e: Env)
    requires c.pc.Logging? && CallOk(c)
    ensures var c' := CallStep(sh, c, e).call;
      c'.rid == c.rid && c'.tally.rows == (if e.fails then 0 else 1) && Owed(c') == Owed(c) == c.charged &&
      c.tally.rows == 0 && (!e.fails ==> WrittenBy(c', LogOf(c, c.pc.plan)))
  {
  }

  lemma RowsStay(calls: seq<Call>, k: nat, c: Call, row: UsageLog)
    requires k < |calls| && RowOk(calls, row) && (calls[k].pc.Done? ==> c == calls[k])
    ensures RowOk(calls[k := c], row)
  {
    var j :| 0 <= j < |calls| && WrittenBy(calls[j], row);
    assert WrittenBy(calls[k := c][j], row);
  }

  lemma AdvanceKeepsLogs(s: System, k: nat, e: Env)
    requires LogsOk(s) && Books(s) && k < |s.calls|
    ensures LogsOk(AdvanceCall(s, k, e))
  {
    var c, s' := s.calls[k], AdvanceCall(s, k, e);
    AdvanceKeepsBooks(s, k, e);
    assert CallOk(c) && AnswerPcOk(c) && CallOk(s'.calls[k]);
    StepLogs(s.sh, c, e);
    if c.pc.Logging? {
      LogStepEnds(s.sh, c, e);
    } else {
      StepLeads(s.sh, c, e);
    }
    hide CallStep, LogOf, CallOk, AnswerPcOk, Owed, Books;
    if c.pc.Logging? && !e.fails {
      LogGrows(s, s', k, LogOf(c, c.pc.plan), e);
    } else {
      LogStays(s, s', k);
    }
  }

  lemma LogStays(s: System, s': System, k: nat)
    requires LogsOk(s) && k < |s.calls| == |s'.calls| && s'.calls == s.calls[k := s'.calls[k]]
    requires s'.sh.logs == s.sh.logs
    requires var c, c' := s.calls[k], s'.calls[k];
      c' == c || (!c.pc.Done? && c'.rid == c.rid && c.tally.rows == c'.tally.rows == 0)
    ensures LogsOk(s')
  {
    hide LogOf, Owed;
    forall m | 0 <= m < |s.sh.logs| ensures RowOk(s'.calls, s'.sh.logs[m]) {
      RowsStay(s.calls, k, s'.calls[k], s.sh.logs[m]);
    }
    forall rid: string ensures Counted(s', rid) {
      assert Counted(s, rid);
      SumByUpdate(s.calls, k, s'.calls[k], RowsOf(rid));
    }
    forall ref: string ensures Shown(s', ref) {
      assert Shown(s, ref);
      SumByUpdate(s.calls, k, s'.calls[k], LoggedUnder(ref));
    }
  }

  lemma LogGrows(s: System, s': System, k: nat, row: UsageLog, e: Env)
    requires LogsOk(s) && k < |s.calls| == |s'.calls| && s'.calls == s.calls[k := s'.calls[k]]
    requires s'.sh.logs == s.sh.logs + [row] && WrittenBy(s'.calls[k], row)
    requires var c, c' := s.calls[k], s'.calls[k];
      !c.pc.Done? && c'.rid == c.rid == row.requestId && c.tally.rows == 0 && c'.tally.rows == 1 &&
      row.creditMicro == Owed(c')
    ensures LogsOk(s')
  {
    hide LogOf, Owed;
    forall m | 0 <= m < |s'.sh.logs| ensures RowOk(s'.calls, s'.sh.logs[m]) {
      if m < |s.sh.logs| {
        RowsStay(s.calls, k, s'.calls[k], s.sh.logs[m]);
      }
    }
    forall rid: string ensures Counted(s', rid) {
      assert Counted(s, rid);
      SumByUpdate(s.calls, k, s'.calls[k], RowsOf(rid));
      SumByAppend(s.sh.logs, row, WithId(rid));
    }
    forall ref: string ensures Shown(s', ref) {
      assert Shown(s, ref);
      SumByUpdate(s.calls, k, s'.calls[k], LoggedUnder(ref));
      SumByAppend(s.sh.logs, row, ShownUnder(ref));
    }
  }

  lemma BeginKeepsLogs(s: System, c: Call, visits: seq<Visit>)
    requires LogsOk(s) && c == NewCall(c.task, c.rid, c.user, c.bodyOk)
    ensures LogsOk(s.(calls := s.calls + [c], visits := visits))
  {
    hide LogOf, Owed;
    var s' := s.(calls := s.calls + [c], visits := visits);
    forall m | 0 <= m < |s.sh.logs| ensures RowOk(s'.calls, s.sh.logs[m]) {
      assert RowOk(s.calls, s.sh.logs[m]);
      var j :| 0 <= j < |s.calls| && WrittenBy(s.calls[j], s.sh.logs[m]);
      assert WrittenBy(s'.calls[j], s.sh.logs[m]);
    }
    forall rid: string ensures Counted(s', rid) {
      assert Counted(s, rid);
      SumByAppend(s.calls, c, RowsOf(rid));
    }
    forall ref: string ensures Shown(s', ref) {
      assert Shown(s, ref);
      SumByAppend(s.calls, c, LoggedUnder(ref));
    }
  }

  lemma SameLogs(s: System, s': System)
    requires LogsOk(s) && s'.sh.logs == s.sh.logs && s'.calls == s.calls
    ensures LogsOk(s')
  {
    forall rid: string ensures Counted(s', rid) {
      assert Counted(s, rid);
    }
    forall ref: string ensures Shown(s', ref) {
      assert Shown(s, ref);
    }
  }

  lemma ApplyKeepsLogs(s: System, ev: Event)
    requires LogsOk(s) && Books(s)
    ensures LogsOk(Apply(s, ev))
  {
    hide AdvanceCall, LogsOk, Books;
    if Starts(s, ev.act).Some? {
      StartsOne(s, ev);
      BeginKeepsLogs(s, Starts(s, ev.act).value, Apply(s, ev).visits);
    } else if ev.act.Advance? {
      if ev.act.call < |s.calls| {
        AdvanceKeepsLogs(s, ev.act.call, EnvOf(ev));
      }
    } else {
      SameLogs(s, Apply(s, ev));
    }
  }

  lemma {:induction false} LogsAlwaysOk(es: seq<Event>)
    ensures LogsOk(Run(es))
  {
    hide Apply, LogsOk, Books;
    if es == [] {
      NoLogs();
    } else {
      LogsAlwaysOk(es[..|es| - 1]);
      BooksAlwaysRight(es[..|es| - 1]);
      ApplyKeepsLogs(Run(es[..|es| - 1]), es[|es| - 1]);
    }
  }

  lemma NoLogs()
    ensures LogsOk(START)
  {
    forall rid: string ensures Counted(START, rid) {}
    forall ref: string ensures Shown(START, ref) {}
  }

  // ---------------------------------------------------------------- the laws

  /** What an honest row of a finished call says. */
  ghost predicate Honest(c: Call, row: UsageLog) {
    c.pc.Done? && row.requestId == c.rid && row.userId == (if c.user.Some? then c.user.value.id else 0) &&
    row.account == (if c.task.Evaluation? && c.user.Some? && c.user.value.owner.Some?
                    then c.user.value.owner.value else 0) &&
    row.status == c.pc.plan.status && row.upstream == c.pc.plan.upstream && row.inputTokens == c.pc.plan.inputTokens &&
    (row.ok <==> row.upstream.Some? && 200 <= row.status < 300) && row.creditMicro == c.charged &&
    (row.holdKept <==> row.upstream.None? && row.creditMicro == 1) &&
    (Owner(c).None? ==> row.creditMicro == 0) &&
    (Owner(c).Some? && c.settleOK ==> row.creditMicro == if row.ok then Billing.UsageCost(row.inputTokens) else 0)
  }

  /**
   Every log row is the row of a finished call - a billed one or a catalogue request: its request id, key and
   account, its answer with upstream and tokens, exactly what it was charged, and whether a hold was kept.
   */
  lemma {:induction false} LogTellsCharge(es: seq<Event>, m: nat)
    requires m < |Run(es).sh.logs|
    ensures exists k :: 0 <= k < |Run(es).calls| && Honest(Run(es).calls[k], Run(es).sh.logs[m])
  {
    LogsAlwaysOk(es);
    BooksAlwaysRight(es);
    var s := Run(es);
    assert RowOk(s.calls, s.sh.logs[m]);
    var k :| 0 <= k < |s.calls| && WrittenBy(s.calls[k], s.sh.logs[m]);
    HonestRow(s.calls[k], s.sh.logs[m]);
  }

  lemma HonestRow(c: Call, row: UsageLog)
    requires WrittenBy(c, row) && CallOk(c)
    ensures Honest(c, row)
  {
    hide Billing.UsageCost;
  }

  /**
   A call writes at most one row: a request id has as many rows as there are calls carrying it that wrote
   theirs, and each of them wrote one.
   */
  lemma {:induction false} OneRowPerCall(es: seq<Event>, rid: string)
    ensures SumBy(Run(es).sh.logs, WithId(rid)) == SumBy(Run(es).calls, RowsOf(rid))
    ensures forall k :: 0 <= k < |Run(es).calls| ==> Run(es).calls[k].tally.rows <= 1
  {
    LogsAlwaysOk(es);
    BooksAlwaysRight(es);
    assert Counted(Run(es), rid);
    forall k | 0 <= k < |Run(es).calls| ensures Run(es).calls[k].tally.rows <= 1 {
      assert CallOk(Run(es).calls[k]);
    }
  }

  lemma {:induction false} SumBySplit(calls: seq<Call>, f: Call -> int, g: Call -> int, h: Call -> int)
    requires forall c :: f(c) == g(c) + h(c)
    ensures SumBy(calls, f) == SumBy(calls, g) + SumBy(calls, h)
  {
    if calls != [] {
      SumBySplit(calls[..|calls| - 1], f, g, h);
    }
  }

  /**
   Log and ledger: what the ledger took under a reference is what the log shows under it plus what calls
   without a row owe. So the two agree exactly if those calls owe nothing.
   */
  lemma {:induction false} LogMatchesLedger(es: seq<Event>, ref: string)
    ensures var s := Run(es);
      -Net(s.sh.db, ref) == SumBy(s.sh.logs, ShownUnder(ref)) + SumBy(s.calls, UnloggedUnder(ref))
  {
    LogsAlwaysOk(es);
    RowsMatchRequestId(es, ref);
    assert Shown(Run(es), ref);
    SumBySplit(Run(es).calls, OwedUnder(ref), LoggedUnder(ref), UnloggedUnder(ref));
  }
}
