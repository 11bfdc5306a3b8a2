/** Concurrent transactions on the PostgreSQL store, at the grain of single statements
    (internal/repository/idempotency.go:33-94, internal/repository/postgres.go:91-118). Statements lock the receipt
    key and the rows they write until the transaction ends, as READ COMMITTED does. A caller may lose the reply
    of a commit, time out, or start the same update again while the first attempt is still running: each attempt
    is simply one more transaction. */
module PostgresTx {
  import opened Metrics
  import AgentProtocol
  import ServerProtocol
  import opened PostgresRows

  type Batch = AgentProtocol.Batch

  /** fits are the names that the table takes. */
  datatype Config = Config(fingerprint: seq<Metric> -> string, fits: Names)

  /** Statements executed so far: the receipt (keyless updates have none), then done upserts into buffer. */
  datatype Tx = Tx(batch: Batch, inserted: bool, done: nat, buffer: Table)

  /** What a caller was told about its batch: applied, already applied, or in conflict. Errors tell nothing. */
  datatype Answer = Took(batch: Batch) | Known(batch: Batch) | Refused(batch: Batch)

  /** commits records the committed updates in commit order, answers what callers were told. */
  datatype Db = Db(rows: Table, receipts: map<string, string>, txs: map<nat, Tx>, commits: seq<Batch>, answers: seq<Answer>)

  datatype Event =
    | Begin(t: nat, batch: Batch)
    | InsertReceipt(t: nat)
    | UpsertRow(t: nat)
    | Commit(t: nat, replyLost: bool)
    | Abort(t: nat)

  const NEW: Db := Db(map[], map[], map[], [], [])

  /** No other open transaction holds the lock on t's key. */
  predicate KeyFree(db: Db, t: nat)
    requires t in db.txs
  {
    forall u | u in db.txs && u != t && db.txs[u].inserted :: db.txs[u].batch.id != db.txs[t].batch.id
  }

  predicate RowFree(db: Db, t: nat, name: string) {
    forall u | u in db.txs && u != t :: name !in db.txs[u].buffer
  }

  predicate Enabled(db: Db, e: Event) {
    match e
    case Begin(t, b) => t !in db.txs
    case InsertReceipt(t) => t in db.txs && !db.txs[t].inserted && KeyFree(db, t)
    case UpsertRow(t) =>
      t in db.txs && db.txs[t].inserted && db.txs[t].done < |db.txs[t].batch.metrics|
      && var x := db.txs[t].batch.metrics[db.txs[t].done]; Effective(x) ==> RowFree(db, t, x.id)
    case Commit(t, _) => t in db.txs && db.txs[t].inserted && db.txs[t].done == |db.txs[t].batch.metrics|
    case Abort(t) => t in db.txs
  }

  function Drop(db: Db, t: nat): Db { db.(txs := db.txs - {t}) }

  /** The answer to a batch whose key has a receipt. */
  function AnswerFrom(c: Config, receipts: map<string, string>, b: Batch): Answer
    requires b.id in receipts
  {
    if receipts[b.id] == c.fingerprint(b.metrics) then Known(b) else Refused(b)
  }

  /** An insert that affects no row means the key is taken: the transaction compares fingerprints, answers and ends
      without writing. */
  function AfterInsert(c: Config, db: Db, t: nat): Db
    requires t in db.txs
  {
    var b := db.txs[t].batch;
    if b.id in db.receipts then
      Drop(db, t).(answers := db.answers + [AnswerFrom(c, db.receipts, b)])
    else db.(txs := db.txs[t := db.txs[t].(inserted := true)])
  }

  /** A name that does not fit or a counter that overflows ends the transaction with an error. */
  function AfterUpsert(c: Config, db: Db, t: nat): Db
    requires t in db.txs && db.txs[t].done < |db.txs[t].batch.metrics|
  {
    var tx := db.txs[t];
    var x := tx.batch.metrics[tx.done];
    var r := Upsert(c.fits, db.rows + tx.buffer, x);
    if r.None? then Drop(db, t)
    else
      var buffer := if Effective(x) && x.id in r.value then tx.buffer[x.id := r.value[x.id]] else tx.buffer;
      db.(txs := db.txs[t := tx.(done := tx.done + 1, buffer := buffer)])
  }

  function AfterCommit(c: Config, db: Db, t: nat, replyLost: bool): Db
    requires t in db.txs
  {
    var b := db.txs[t].batch;
    Db(db.rows + db.txs[t].buffer,
       if b.id == "" then db.receipts else db.receipts[b.id := c.fingerprint(b.metrics)],
       db.txs - {t}, db.commits + [b], if replyLost then db.answers else db.answers + [Took(b)])
  }

  function Next(c: Config, db: Db, e: Event): Db
    requires Enabled(db, e)
  {
    match e
    case Begin(t, b) => db.(txs := db.txs[t := Tx(b, b.id == "", 0, map[])])
    case InsertReceipt(t) => AfterInsert(c, db, t)
    case UpsertRow(t) => AfterUpsert(c, db, t)
    case Commit(t, replyLost) => AfterCommit(c, db, t, replyLost)
    case Abort(t) => Drop(db, t)
  }

  ghost predicate IsRun(c: Config, states: seq<Db>, events: seq<Event>) {
    && |states| == |events| + 1 && states[0] == NEW
    && forall k | 0 <= k < |events| :: Enabled(states[k], events[k]) && states[k + 1] == Next(c, states[k], events[k])
  }

  /** The state that the events lead to from db, or None if one of them cannot happen. */
  function After(c: Config, db: Db, events: seq<Event>): Option<Db> {
    if events == [] then Some(db)
    else
      var r := After(c, db, events[..|events| - 1]);
      if r.None? || !Enabled(r.value, events[|events| - 1]) then None else Some(Next(c, r.value, events[|events| - 1]))
  }

  // ---------------------------------------------------------------- the serial meaning of a commit order

  function Serial(c: Config, commits: seq<Batch>): Option<Table> {
    if commits == [] then Some(map[])
    else
      var r := Serial(c, commits[..|commits| - 1]);
      if r.None? then None else ApplyRows(c.fits, r.value, commits[|commits| - 1].metrics)
  }

  function ReceiptsOf(c: Config, commits: seq<Batch>): map<string, string> {
    if commits == [] then map[]
    else
      var r, b := ReceiptsOf(c, commits[..|commits| - 1]), commits[|commits| - 1];
      if b.id == "" then r else r[b.id := c.fingerprint(b.metrics)]
  }

  predicate NoKeyTwice(commits: seq<Batch>) {
    forall i, j | 0 <= i < j < |commits| && commits[i].id != "" :: commits[i].id != commits[j].id
  }

  // ---------------------------------------------------------------- invariant

  /** An open transaction has done to its own rows what it would have done alone on the committed table. */
  ghost predicate TxOk(c: Config, rows: Table, tx: Tx) {
    && tx.done <= |tx.batch.metrics|
    && tx.buffer.Keys == Written(tx.batch.metrics[..tx.done])
    && ApplyRows(c.fits, rows, tx.batch.metrics[..tx.done]) == Some(rows + tx.buffer)
    && (!tx.inserted ==> tx.done == 0)
    && (tx.batch.id == "" ==> tx.inserted)
  }

  /** Every answer about a keyed batch is what its receipt says, and no key was reported applied twice. */
  predicate AnswersOk(c: Config, receipts: map<string, string>, answers: seq<Answer>) {
    && (forall a | a in answers && a.batch.id != "" ::
          && a.batch.id in receipts
          && (a.Refused? <==> receipts[a.batch.id] != c.fingerprint(a.batch.metrics)))
    && (forall i, j | 0 <= i < j < |answers| && answers[i].Took? && answers[j].Took? && answers[i].batch.id != "" ::
          answers[i].batch.id != answers[j].batch.id)
  }

  ghost predicate Inv(c: Config, db: Db) {
    && Serial(c, db.commits) == Some(db.rows)
    && db.receipts == ReceiptsOf(c, db.commits)
    && NoKeyTwice(db.commits)
    && AnswersOk(c, db.receipts, db.answers)
    && (forall t | t in db.txs :: TxOk(c, db.rows, db.txs[t]))
    && (forall t | t in db.txs && db.txs[t].inserted && db.txs[t].batch.id != "" :: db.txs[t].batch.id !in db.receipts)
    && (forall t, u | t in db.txs && u in db.txs && t != u && db.txs[t].inserted && db.txs[u].inserted
          && db.txs[t].batch.id != "" :: db.txs[t].batch.id != db.txs[u].batch.id)
    && (forall t, u | t in db.txs && u in db.txs && t != u :: db.txs[t].buffer.Keys !! db.txs[u].buffer.Keys)
  }

  lemma {:induction false} ReceiptKeys(c: Config, commits: seq<Batch>)
    ensures ReceiptsOf(c, commits).Keys == ServerProtocol.Keys(commits)
  {
    if commits != [] {
      ReceiptKeys(c, commits[..|commits| - 1]);
    }
  }

  lemma FreshTx(c: Config, rows: Table, b: Batch)
    ensures TxOk(c, rows, Tx(b, b.id == "", 0, map[]))
  {
    assert rows + map[] == rows;
  }

  lemma BeginOk(c: Config, db: Db, t: nat, b: Batch)
    requires Inv(c, db) && Enabled(db, Begin(t, b))
    ensures Inv(c, Next(c, db, Begin(t, b)))
  {
    FreshTx(c, db.rows, b);
  }

  lemma DropOk(c: Config, db: Db, t: nat)
    requires Inv(c, db)
    ensures Inv(c, Drop(db, t))
  {
  }

  lemma InsertOk(c: Config, db: Db, t: nat)
    requires Inv(c, db) && Enabled(db, InsertReceipt(t))
    ensures Inv(c, AfterInsert(c, db, t))
  {
    var b := db.txs[t].batch;
    if b.id in db.receipts {
      DropOk(c, db, t);
      AnswerKnown(c, db.receipts, db.answers, b);
    }
  }

  lemma AnswerKnown(c: Config, receipts: map<string, string>, answers: seq<Answer>, b: Batch)
    requires AnswersOk(c, receipts, answers) && b.id in receipts
    ensures AnswersOk(c, receipts, answers + [AnswerFrom(c, receipts, b)])
  {
  }

  lemma AnswerTook(c: Config, receipts: map<string, string>, answers: seq<Answer>, b: Batch, replyLost: bool)
    requires AnswersOk(c, receipts, answers) && (b.id != "" ==> b.id !in receipts)
    ensures AnswersOk(c, if b.id == "" then receipts else receipts[b.id := c.fingerprint(b.metrics)],
                      if replyLost then answers else answers + [Took(b)])
  {
    assert forall i | 0 <= i < |answers| :: answers[i] in answers;
  }

  /** One more upsert into the buffer is one more upsert of the transaction run alone. */
  lemma UpsertTx(c: Config, rows: Table, tx: Tx, tx': Tx)
    requires TxOk(c, rows, tx) && tx.inserted && tx.done < |tx.batch.metrics|
    requires var x := tx.batch.metrics[tx.done]; var r := Upsert(c.fits, rows + tx.buffer, x);
      r.Some? && tx' == tx.(done := tx.done + 1,
        buffer := if Effective(x) && x.id in r.value then tx.buffer[x.id := r.value[x.id]] else tx.buffer)
    ensures TxOk(c, rows, tx')
  {
    var x := tx.batch.metrics[tx.done];
    var xs := tx.batch.metrics[..tx.done + 1];
    assert xs[..|xs| - 1] == tx.batch.metrics[..tx.done];
    assert Upsert(c.fits, rows + tx.buffer, x).value == rows + tx'.buffer;
  }

  lemma UpsertOk(c: Config, db: Db, t: nat)
    requires Inv(c, db) && Enabled(db, UpsertRow(t))
    ensures Inv(c, AfterUpsert(c, db, t))
  {
    var tx := db.txs[t];
    if Upsert(c.fits, db.rows + tx.buffer, tx.batch.metrics[tx.done]).None? {
      DropOk(c, db, t);
    } else {
      var tx' := AfterUpsert(c, db, t).txs[t];
      UpsertTx(c, db.rows, tx, tx');
      assert AfterUpsert(c, db, t) == db.(txs := db.txs[t := tx']);
      ReplaceTx(c, db, t, tx');
    }
  }

  /** A transaction may go on as long as it stays off the rows of the others. */
  lemma ReplaceTx(c: Config, db: Db, t: nat, tx': Tx)
    requires Inv(c, db) && t in db.txs && TxOk(c, db.rows, tx')
    requires tx'.batch == db.txs[t].batch && tx'.inserted == db.txs[t].inserted
    requires forall u | u in db.txs && u != t :: tx'.buffer.Keys !! db.txs[u].buffer.Keys
    ensures Inv(c, db.(txs := db.txs[t := tx']))
  {
  }

  /** A commit elsewhere does not disturb a transaction that writes other rows. */
  lemma OtherTx(c: Config, rows: Table, tx: Tx, written: Table)
    requires TxOk(c, rows, tx) && tx.buffer.Keys !! written.Keys
    ensures TxOk(c, rows + written, tx)
  {
    var xs := tx.batch.metrics[..tx.done];
    var rows' := rows + written;
    RowsLocal(c.fits, rows, rows', xs, Written(xs));
    forall name
      ensures (name in ApplyRows(c.fits, rows', xs).value <==> name in rows' + tx.buffer)
        && (name in rows' + tx.buffer ==> ApplyRows(c.fits, rows', xs).value[name] == (rows' + tx.buffer)[name])
    {
      RowsUntouched(c.fits, rows', xs, name);
    }
    SameMap(ApplyRows(c.fits, rows', xs).value, rows' + tx.buffer);
  }

  lemma CommitSerial(c: Config, rows: Table, tx: Tx, commits: seq<Batch>)
    requires Serial(c, commits) == Some(rows) && TxOk(c, rows, tx) && tx.done == |tx.batch.metrics|
    ensures Serial(c, commits + [tx.batch]) == Some(rows + tx.buffer)
  {
    var commits' := commits + [tx.batch];
    assert commits'[..|commits'| - 1] == commits;
    assert tx.batch.metrics[..tx.done] == tx.batch.metrics;
  }

  lemma CommitReceipts(c: Config, commits: seq<Batch>, b: Batch)
    requires NoKeyTwice(commits) && (b.id == "" || b.id !in ReceiptsOf(c, commits))
    ensures NoKeyTwice(commits + [b])
    ensures ReceiptsOf(c, commits + [b])
      == if b.id == "" then ReceiptsOf(c, commits) else ReceiptsOf(c, commits)[b.id := c.fingerprint(b.metrics)]
  {
    var commits' := commits + [b];
    assert commits'[..|commits'| - 1] == commits;
    ReceiptKeys(c, commits);
    ServerProtocol.KeysMember(commits, b.id);
  }

  lemma CommitOk(c: Config, db: Db, t: nat, replyLost: bool)
    requires Inv(c, db) && Enabled(db, Commit(t, replyLost))
    ensures Inv(c, AfterCommit(c, db, t, replyLost))
  {
    CommitSerial(c, db.rows, db.txs[t], db.commits);
    CommitReceipts(c, db.commits, db.txs[t].batch);
    AnswerTook(c, db.receipts, db.answers, db.txs[t].batch, replyLost);
    var db' := AfterCommit(c, db, t, replyLost);
    forall u | u in db'.txs ensures TxOk(c, db'.rows, db'.txs[u]) {
      OtherTx(c, db.rows, db.txs[u], db.txs[t].buffer);
    }
  }

  lemma {:induction false} RunKeepsInv(c: Config, states: seq<Db>, events: seq<Event>, k: nat)
    requires IsRun(c, states, events) && k <= |events|
    ensures Inv(c, states[k])
  {
    if k > 0 {
      RunKeepsInv(c, states, events, k - 1);
      var db := states[k - 1];
      match events[k - 1]
      case Begin(t, b) => BeginOk(c, db, t, b);
      case InsertReceipt(t) => InsertOk(c, db, t);
      case UpsertRow(t) => UpsertOk(c, db, t);
      case Commit(t, replyLost) => CommitOk(c, db, t, replyLost);
      case Abort(t) => DropOk(c, db, t);
    }
  }

  // ---------------------------------------------------------------- what callers can rely on

  /** However statements interleave, the table is what the committed updates give one after another in commit
      order, and uncommitted ones leave no trace. */
  lemma Serializable(c: Config, states: seq<Db>, events: seq<Event>, k: nat)
    requires IsRun(c, states, events) && k <= |events|
    ensures Serial(c, states[k].commits) == Some(states[k].rows)
  {
    RunKeepsInv(c, states, events, k);
  }

  /** A key has a receipt exactly if an update under it was committed; then it was committed once, and the receipt
      is the fingerprint of what was applied, however many attempts were made and whatever their callers heard. */
  lemma KeyedExactlyOnce(c: Config, states: seq<Db>, events: seq<Event>, k: nat, key: string)
    requires IsRun(c, states, events) && k <= |events| && key != ""
    ensures key in states[k].receipts <==> exists i :: 0 <= i < |states[k].commits| && states[k].commits[i].id == key
    ensures forall i, j | 0 <= i < |states[k].commits| && 0 <= j < |states[k].commits|
      && states[k].commits[i].id == key && states[k].commits[j].id == key :: i == j
    ensures forall b | b in states[k].commits && b.id == key ::
      key in states[k].receipts && states[k].receipts[key] == c.fingerprint(b.metrics)
  {
    RunKeepsInv(c, states, events, k);
    ReceiptKeys(c, states[k].commits);
    ServerProtocol.KeysMember(states[k].commits, key);
    ReceiptValues(c, states[k].commits);
  }

  lemma {:induction false} ReceiptValues(c: Config, commits: seq<Batch>)
    requires NoKeyTwice(commits)
    ensures forall b | b in commits && b.id != "" ::
      b.id in ReceiptsOf(c, commits) && ReceiptsOf(c, commits)[b.id] == c.fingerprint(b.metrics)
  {
    if commits != [] {
      var init, last := commits[..|commits| - 1], commits[|commits| - 1];
      ReceiptValues(c, init);
      assert commits == init + [last];
      forall b | b in commits && b.id != ""
        ensures b.id in ReceiptsOf(c, commits) && ReceiptsOf(c, commits)[b.id] == c.fingerprint(b.metrics)
      {
        if b != last {
          assert b in init;
        }
      }
    }
  }

  /** What a caller was told about a keyed batch holds for good, whatever other sessions do: success means a committed
      receipt with its fingerprint, a conflict means that a batch with another fingerprint was committed under the key,
      and at most one caller was told that the batch is now applied. */
  lemma AnswersHold(c: Config, states: seq<Db>, events: seq<Event>, k: nat, i: nat)
    requires IsRun(c, states, events) && k <= |events| && i < |states[k].answers| && states[k].answers[i].batch.id != ""
    ensures var db, a := states[k], states[k].answers[i];
      && (!a.Refused? ==> a.batch.id in db.receipts && db.receipts[a.batch.id] == c.fingerprint(a.batch.metrics))
      && (a.Refused? ==> exists x :: x in db.commits && x.id == a.batch.id
                                     && c.fingerprint(x.metrics) != c.fingerprint(a.batch.metrics))
      && (a.Took? ==> forall j | 0 <= j < |db.answers| && db.answers[j].Took? && j != i ::
                        db.answers[j].batch.id != a.batch.id)
  {
    RunKeepsInv(c, states, events, k);
    var db, a := states[k], states[k].answers[i];
    assert a in db.answers;
    ReceiptKeys(c, db.commits);
    ServerProtocol.KeysMember(db.commits, a.batch.id);
    ReceiptValues(c, db.commits);
    var n :| 0 <= n < |db.commits| && db.commits[n].id == a.batch.id;
    assert db.commits[n] in db.commits;
  }

  /** Neither answers nor commits are taken back. */
  lemma {:induction false} AnswersStay(c: Config, states: seq<Db>, events: seq<Event>, j: nat, k: nat)
    requires IsRun(c, states, events) && j <= k <= |events|
    ensures |states[j].answers| <= |states[k].answers| && states[k].answers[..|states[j].answers|] == states[j].answers
    ensures |states[j].commits| <= |states[k].commits| && states[k].commits[..|states[j].commits|] == states[j].commits
    decreases k - j
  {
    if j < k {
      AnswersStay(c, states, events, j + 1, k);
      StepExtends(c, states[j], events[j]);
      var m := states[j + 1];
      assert states[k].answers[..|m.answers|][..|states[j].answers|] == states[k].answers[..|states[j].answers|];
      assert states[k].commits[..|m.commits|][..|states[j].commits|] == states[k].commits[..|states[j].commits|];
    }
  }

  lemma StepExtends(c: Config, db: Db, e: Event)
    requires Enabled(db, e)
    ensures db.answers <= Next(c, db, e).answers && db.commits <= Next(c, db, e).commits
  {
  }

  // ---------------------------------------------------------------- one attempt as a stretch of a run

  lemma AfterOne(c: Config, db: Db, events: seq<Event>, e: Event)
    requires After(c, db, events).Some? && Enabled(After(c, db, events).value, e)
    ensures After(c, db, events + [e]) == Some(Next(c, After(c, db, events).value, e))
  {
    assert (events + [e])[..|events|] == events;
  }

  /** Any run can go on with such a stretch. */
  lemma {:induction false} RunGoesOn(c: Config, states: seq<Db>, events: seq<Event>, more: seq<Event>) returns (states': seq<Db>)
    requires IsRun(c, states, events) && After(c, states[|events|], more).Some?
    ensures IsRun(c, states', events + more) && states'[|events + more|] == After(c, states[|events|], more).value
  {
    if more == [] {
      assert events + more == events;
      states' := states;
    } else {
      var n := |more| - 1;
      var init := RunGoesOn(c, states, events, more[..n]);
      assert events + more == events + more[..n] + [more[n]];
      states' := init + [After(c, states[|events|], more).value];
    }
  }

  /** t is not open, and nothing that is open holds a lock that b needs. */
  predicate NoneInTheWay(db: Db, t: nat, b: Batch) {
    && t !in db.txs
    && (forall u | u in db.txs && db.txs[u].inserted :: db.txs[u].batch.id != b.id)
    && (forall u | u in db.txs :: db.txs[u].buffer.Keys !! Written(b.metrics))
  }

  /** The statements of an attempt up to its k-th upsert. */
  function Statements(t: nat, b: Batch, k: nat): seq<Event> {
    [Begin(t, b), InsertReceipt(t)] + seq(k, _ => UpsertRow(t))
  }

  predicate WithTx(db: Db, z: Db, t: nat, tx: Tx) { z == db.(txs := db.txs[t := tx]) }

  lemma InsertStretch(c: Config, db: Db, t: nat, b: Batch)
    requires NoneInTheWay(db, t, b) && b.id != ""
    ensures After(c, db, Statements(t, b, 0)).Some?
    ensures b.id !in db.receipts ==> WithTx(db, After(c, db, Statements(t, b, 0)).value, t, Tx(b, true, 0, map[]))
    ensures b.id in db.receipts ==>
      After(c, db, Statements(t, b, 0)).value == db.(answers := db.answers + [AnswerFrom(c, db.receipts, b)])
  {
    AfterOne(c, db, [], Begin(t, b));
    AfterOne(c, db, [Begin(t, b)], InsertReceipt(t));
    assert Statements(t, b, 0) == [] + [Begin(t, b)] + [InsertReceipt(t)];
    var began := Next(c, db, Begin(t, b));
    assert Drop(began, t).txs == db.txs;
  }

  lemma {:induction false} UpsertStretch(c: Config, db: Db, t: nat, b: Batch, k: nat) returns (tx: Tx)
    requires NoneInTheWay(db, t, b) && b.id != "" && b.id !in db.receipts
    requires ApplyRows(c.fits, db.rows, b.metrics).Some? && k <= |b.metrics|
    ensures After(c, db, Statements(t, b, k)).Some? && WithTx(db, After(c, db, Statements(t, b, k)).value, t, tx)
    ensures TxOk(c, db.rows, tx) && tx.batch == b && tx.inserted && tx.done == k
  {
    if k == 0 {
      InsertStretch(c, db, t, b);
      FreshTx(c, db.rows, b);
      tx := Tx(b, true, 0, map[]);
      assert db.rows + map[] == db.rows;
    } else {
      var before := UpsertStretch(c, db, t, b, k - 1);
      tx := UpsertStep(c, db, t, b, before, After(c, db, Statements(t, b, k - 1)).value);
      assert Statements(t, b, k) == Statements(t, b, k - 1) + [UpsertRow(t)];
      AfterOne(c, db, Statements(t, b, k - 1), UpsertRow(t));
    }
  }

  lemma UpsertStep(c: Config, db: Db, t: nat, b: Batch, before: Tx, m: Db) returns (tx: Tx)
    requires NoneInTheWay(db, t, b) && ApplyRows(c.fits, db.rows, b.metrics).Some? && WithTx(db, m, t, before)
    requires TxOk(c, db.rows, before) && before.batch == b && before.inserted && before.done < |b.metrics|
    ensures Enabled(m, UpsertRow(t)) && WithTx(db, Next(c, m, UpsertRow(t)), t, tx)
    ensures TxOk(c, db.rows, tx) && tx.batch == b && tx.inserted && tx.done == before.done + 1
  {
    UpsertFree(c, db, t, b, before, m);
    tx := AfterUpsert(c, m, t).txs[t];
    UpsertTx(c, db.rows, before, tx);
  }

  /** The next upsert finds its row free, and no error if the whole batch meets none. */
  lemma UpsertFree(c: Config, db: Db, t: nat, b: Batch, tx: Tx, m: Db)
    requires NoneInTheWay(db, t, b) && ApplyRows(c.fits, db.rows, b.metrics).Some? && WithTx(db, m, t, tx)
    requires TxOk(c, db.rows, tx) && tx.batch == b && tx.inserted && tx.done < |b.metrics|
    ensures Enabled(m, UpsertRow(t)) && Upsert(c.fits, db.rows + tx.buffer, b.metrics[tx.done]).Some?
  {
    var xs := b.metrics[..tx.done + 1];
    assert xs[..tx.done] == b.metrics[..tx.done];
    if ApplyRows(c.fits, db.rows, xs).None? {
      ErrorStays(c.fits, db.rows, b.metrics, tx.done + 1);
    }
    if Effective(b.metrics[tx.done]) {
      WrittenAt(b.metrics, tx.done);
    }
  }

  /** The whole attempt commits. */
  lemma CommitStretch(c: Config, db: Db, t: nat, b: Batch, replyLost: bool) returns (events: seq<Event>)
    requires NoneInTheWay(db, t, b) && b.id != "" && b.id !in db.receipts && ApplyRows(c.fits, db.rows, b.metrics).Some?
    ensures events == Statements(t, b, |b.metrics|) + [Commit(t, replyLost)]
    ensures After(c, db, events) == Some(Db(ApplyRows(c.fits, db.rows, b.metrics).value,
      db.receipts[b.id := c.fingerprint(b.metrics)], db.txs, db.commits + [b],
      if replyLost then db.answers else db.answers + [Took(b)]))
  {
    var tx := UpsertStretch(c, db, t, b, |b.metrics|);
    events := Statements(t, b, |b.metrics|) + [Commit(t, replyLost)];
    AfterOne(c, db, Statements(t, b, |b.metrics|), Commit(t, replyLost));
    var m := After(c, db, Statements(t, b, |b.metrics|)).value;
    assert m.txs - {t} == db.txs;
    assert b.metrics[..tx.done] == b.metrics;
  }

  /** An attempt that fails leaves nothing. */
  lemma AbortStretch(c: Config, db: Db, t: nat, b: Batch)
    requires t !in db.txs
    ensures After(c, db, [Begin(t, b), Abort(t)]) == Some(db)
  {
    AfterOne(c, db, [], Begin(t, b));
    AfterOne(c, db, [Begin(t, b)], Abort(t));
    assert [] + [Begin(t, b)] == [Begin(t, b)] && [Begin(t, b)] + [Abort(t)] == [Begin(t, b), Abort(t)];
    assert Drop(Next(c, db, Begin(t, b)), t).txs == db.txs;
  }
}
