/** Streaming the rows of several cursors through one channel to one consumer. */
module StreamFetch {
  import opened Seqs

  const CAPACITY: nat := 65536

  /** A row by its number and its size. */
  datatype Row = Row(id: nat, bytes: nat)

  /**
    How a cursor ends: with the last row of the backend, with a row that cannot be read, or with a broken
    connection or an error of the backend. Next hides the last: it returns false, as at the end, although
    the backend had more rows.
  */
  datatype Ending = Eof | BadRow | Cut(lost: seq<Row>)

  /** The rows that Next yields and RowValues reads, and what comes after them. */
  datatype Cursor = Cursor(rows: seq<Row>, ending: Ending) {
    /** The rows of the backend, as far as they are not behind a bad row. */
    function All(): seq<Row> { if ending.Cut? then rows + ending.lost else rows }

    predicate CutShort() { ending.Cut? && ending.lost != [] }
  }

  /** A producer asks for row `pos`, wants to send row `pos`, or has returned. */
  datatype Fetch = Fetching(pos: nat) | Sending(pos: nat) | Finished | Failed | Stopped

  datatype Sent = Sent(from: nat, row: Row)

  /** `finished` is the counter of producers under the mutex, `sent` all that went into the channel. */
  datatype Producers = Producers(fetch: seq<Fetch>, finished: nat, closed: bool, sent: seq<Sent>)

  datatype Message = Fields | Batch(rows: seq<Row>) | End(count: nat)

  datatype Phase = Reading | Done | Rejected

  datatype Consumer = Consumer(taken: nat, rows: seq<Row>, byteCount: nat, count: nat, batches: seq<seq<Row>>,
                               phase: Phase)

  // ----- Producers -----------------------------------------------------------------------------------

  predicate Returned(f: Fetch) { f.Finished? || f.Failed? }

  function CountReturned(fetch: seq<Fetch>): nat {
    if fetch == [] then 0 else CountReturned(fetch[..|fetch| - 1]) + (if Returned(fetch[|fetch| - 1]) then 1 else 0)
  }

  lemma {:induction false} CountUpdates(fetch: seq<Fetch>, i: nat, f: Fetch)
    requires i < |fetch| && !Returned(fetch[i])
    ensures CountReturned(fetch[i := f]) == CountReturned(fetch) + (if Returned(f) then 1 else 0)
  {
    var n := |fetch| - 1;
    if i < n {
      assert fetch[i := f][..n] == fetch[..n][i := f];
      CountUpdates(fetch[..n], i, f);
    } else {
      assert fetch[i := f][..n] == fetch[..n];
    }
  }

  lemma {:induction false} CountIsAll(fetch: seq<Fetch>)
    ensures CountReturned(fetch) <= |fetch|
    ensures CountReturned(fetch) == |fetch| <==> forall i | 0 <= i < |fetch| :: Returned(fetch[i])
  {
    if fetch != [] {
      CountIsAll(fetch[..|fetch| - 1]);
    }
  }

  /** What went through the channel from one cursor. */
  function From(sent: seq<Sent>, i: nat): seq<Row> {
    if sent == [] then []
    else From(sent[..|sent| - 1], i) + (if sent[|sent| - 1].from == i then [sent[|sent| - 1].row] else [])
  }

  /** A producer has sent the rows before its position, in order. */
  predicate InStep(cursor: Cursor, f: Fetch, sent: seq<Row>) {
    match f
    case Fetching(pos) => pos <= |cursor.rows| && sent == cursor.rows[..pos]
    case Sending(pos) => pos < |cursor.rows| && sent == cursor.rows[..pos]
    case Finished => sent == cursor.rows && !cursor.ending.BadRow?
    case Failed => sent == cursor.rows && cursor.ending.BadRow?
    case Stopped => sent <= cursor.rows
  }

  /** The channel is closed exactly when the last producer has returned. */
  ghost predicate ProducersOk(cursors: seq<Cursor>, p: Producers) {
    && |p.fetch| == |cursors| && p.finished == CountReturned(p.fetch)
    && (p.closed <==> p.finished == |cursors|)
    && AllInStep(cursors, p.fetch, p.sent)
    && (forall k | 0 <= k < |p.sent| :: p.sent[k].from < |cursors|)
  }

  ghost predicate AllInStep(cursors: seq<Cursor>, fetch: seq<Fetch>, sent: seq<Sent>) {
    |fetch| == |cursors| && forall i | 0 <= i < |cursors| :: InStep(cursors[i], fetch[i], From(sent, i))
  }

  function Move(p: Producers, i: nat, f: Fetch): Producers
    requires i < |p.fetch|
  {
    p.(fetch := p.fetch[i := f])
  }

  /** Counts a producer that returns; the last one closes the channel. */
  function Return(p: Producers, i: nat, f: Fetch): Producers
    requires i < |p.fetch|
  {
    Producers(p.fetch[i := f], p.finished + 1, p.closed || p.finished + 1 == |p.fetch|, p.sent)
  }

  /** cursor.Next and cursor.RowValues; when Next is false nobody asks for the reason. */
  function FetchStep(cursors: seq<Cursor>, p: Producers, i: nat): Producers
    requires i < |cursors| && |p.fetch| == |cursors| && p.fetch[i].Fetching? && p.fetch[i].pos <= |cursors[i].rows|
  {
    var pos := p.fetch[i].pos;
    if pos < |cursors[i].rows| then Move(p, i, Sending(pos))
    else Return(p, i, if cursors[i].ending.BadRow? then Failed else Finished)
  }

  function SendStep(cursors: seq<Cursor>, p: Producers, i: nat): Producers
    requires i < |cursors| && |p.fetch| == |cursors| && p.fetch[i].Sending? && p.fetch[i].pos < |cursors[i].rows|
  {
    var pos := p.fetch[i].pos;
    p.(fetch := p.fetch[i := Fetching(pos + 1)], sent := p.sent + [Sent(i, cursors[i].rows[pos])])
  }

  /** A producer that is still at work finds the channel open, and the channel is closed only once. */
  lemma OpenWhileActive(cursors: seq<Cursor>, p: Producers, i: nat)
    requires ProducersOk(cursors, p) && i < |cursors| && !Returned(p.fetch[i])
    ensures !p.closed
  {
    CountIsAll(p.fetch);
  }

  lemma FetchKeeps(cursors: seq<Cursor>, p: Producers, i: nat)
    requires ProducersOk(cursors, p) && i < |cursors| && p.fetch[i].Fetching?
    ensures ProducersOk(cursors, FetchStep(cursors, p, i)) && !p.closed
  {
    var p' := FetchStep(cursors, p, i);
    assert InStep(cursors[i], p.fetch[i], From(p.sent, i));
    OpenWhileActive(cursors, p, i);
    CountUpdates(p.fetch, i, p'.fetch[i]);
    CountIsAll(p.fetch);
  }

  lemma SendKeeps(cursors: seq<Cursor>, p: Producers, i: nat)
    requires ProducersOk(cursors, p) && i < |cursors| && p.fetch[i].Sending?
    requires p.fetch[i].pos < |cursors[i].rows|
    ensures ProducersOk(cursors, SendStep(cursors, p, i)) && !p.closed
  {
    OpenWhileActive(cursors, p, i);
    CountUpdates(p.fetch, i, Fetching(p.fetch[i].pos + 1));
    SendKeepsSteps(cursors, p.fetch, p.sent, i);
  }

  lemma SendKeepsSteps(cursors: seq<Cursor>, fetch: seq<Fetch>, sent: seq<Sent>, i: nat)
    requires AllInStep(cursors, fetch, sent) && i < |cursors| && fetch[i].Sending? && fetch[i].pos < |cursors[i].rows|
    ensures AllInStep(cursors, fetch[i := Fetching(fetch[i].pos + 1)], sent + [Sent(i, cursors[i].rows[fetch[i].pos])])
  {
    var x := Sent(i, cursors[i].rows[fetch[i].pos]);
    forall k | 0 <= k < |cursors|
      ensures InStep(cursors[k], fetch[i := Fetching(fetch[i].pos + 1)][k], From(sent + [x], k))
    {
      FromGrows(sent, x, k);
      assert InStep(cursors[k], fetch[k], From(sent, k));
      if k == i {
        SendsNext(cursors[i], fetch[i].pos, From(sent, i));
      }
    }
  }

  lemma FromGrows(sent: seq<Sent>, x: Sent, k: nat)
    ensures From(sent + [x], k) == From(sent, k) + (if x.from == k then [x.row] else [])
  {
    assert (sent + [x])[..|sent|] == sent;
  }

  lemma SendsNext(cursor: Cursor, pos: nat, sent: seq<Row>)
    requires pos < |cursor.rows| && InStep(cursor, Sending(pos), sent)
    ensures InStep(cursor, Fetching(pos + 1), sent + [cursor.rows[pos]])
  {
  }

  lemma StopKeeps(cursors: seq<Cursor>, p: Producers, i: nat)
    requires ProducersOk(cursors, p) && i < |cursors| && p.fetch[i].Sending?
    ensures ProducersOk(cursors, Move(p, i, Stopped))
  {
    assert InStep(cursors[i], p.fetch[i], From(p.sent, i));
    CountUpdates(p.fetch, i, Stopped);
  }

  // ----- The consumer --------------------------------------------------------------------------------

  function Bytes(rows: seq<Row>): nat {
    if rows == [] then 0 else Bytes(rows[..|rows| - 1]) + rows[|rows| - 1].bytes
  }

  function RowsOf(sent: seq<Sent>): seq<Row> {
    if sent == [] then [] else RowsOf(sent[..|sent| - 1]) + [sent[|sent| - 1].row]
  }

  /** The batch reaches the threshold, and only with its last row. */
  predicate Full(batch: seq<Row>, size: nat) {
    batch != [] && Bytes(batch) >= size && (|batch| == 1 || Bytes(batch[..|batch| - 1]) < size)
  }

  predicate AllFull(batches: seq<seq<Row>>, size: nat) {
    forall i | 0 <= i < |batches| :: Full(batches[i], size)
  }

  /** Only what is left at the end may be smaller than the threshold. */
  predicate AllButLastFull(batches: seq<seq<Row>>, size: nat) {
    batches == [] || (AllFull(batches[..|batches| - 1], size) && batches[|batches| - 1] != [])
  }

  /** What was taken is in full batches that were handed over, and in one that is not full yet. */
  ghost predicate Holds(c: Consumer, taken: seq<Row>, size: nat) {
    Flatten(c.batches) + c.rows == taken && AllFull(c.batches, size) && (c.rows == [] || c.byteCount < size)
  }

  ghost predicate ConsumerOk(p: Producers, c: Consumer, size: nat) {
    && c.taken <= |p.sent| && c.count == c.taken && c.byteCount == Bytes(c.rows)
    && match c.phase
       case Reading => Holds(c, RowsOf(p.sent[..c.taken]), size)
       case Done =>
         && p.closed && c.taken == |p.sent| && Flatten(c.batches) == RowsOf(p.sent) && AllButLastFull(c.batches, size)
       case Rejected => true
  }

  /** Takes a row from the channel; a batch that reaches the threshold is handed to the client. */
  function TakeStep(c: Consumer, row: Row, size: nat, accepted: bool): Consumer {
    var rows, byteCount := c.rows + [row], c.byteCount + row.bytes;
    if byteCount < size then Consumer(c.taken + 1, rows, byteCount, c.count + 1, c.batches, c.phase)
    else if accepted then Consumer(c.taken + 1, [], 0, c.count + 1, c.batches + [rows], c.phase)
    else Consumer(c.taken + 1, rows, byteCount, c.count + 1, c.batches, Rejected)
  }

  /** The channel is closed and empty: what is left is handed to the client. */
  function DrainStep(c: Consumer, accepted: bool): Consumer {
    if c.rows == [] then c.(phase := Done)
    else if accepted then c.(batches := c.batches + [c.rows], rows := [], byteCount := 0, phase := Done)
    else c.(phase := Rejected)
  }

  lemma TakeKeeps(p: Producers, c: Consumer, size: nat, accepted: bool)
    requires ConsumerOk(p, c, size) && c.phase == Reading && c.taken < |p.sent|
    ensures ConsumerOk(p, TakeStep(c, p.sent[c.taken].row, size, accepted), size)
  {
    RowsOfNext(p.sent, c.taken);
    HoldsNext(c, RowsOf(p.sent[..c.taken]), p.sent[c.taken].row, size, accepted);
  }

  /** The consumer is well after taking a row. */
  ghost predicate Takes(c: Consumer, taken: seq<Row>, size: nat) {
    c.byteCount == Bytes(c.rows) && (c.phase == Reading ==> Holds(c, taken, size))
  }

  lemma HoldsNext(c: Consumer, taken: seq<Row>, row: Row, size: nat, accepted: bool)
    requires Holds(c, taken, size) && c.byteCount == Bytes(c.rows) && c.phase == Reading
    ensures Takes(TakeStep(c, row, size, accepted), taken + [row], size)
  {
    if c.byteCount + row.bytes < size {
      KeepTakes(c, taken, row, size, accepted);
    } else if accepted {
      FlushTakes(c, taken, row, size);
    } else {
      BytesGrow(c.rows, row);
    }
  }

  lemma KeepTakes(c: Consumer, taken: seq<Row>, row: Row, size: nat, accepted: bool)
    requires Holds(c, taken, size) && c.byteCount == Bytes(c.rows) && c.phase == Reading
    requires c.byteCount + row.bytes < size
    ensures Takes(TakeStep(c, row, size, accepted), taken + [row], size)
  {
    BytesGrow(c.rows, row);
    MoreRows(Flatten(c.batches), c.rows, row);
  }

  lemma FlushTakes(c: Consumer, taken: seq<Row>, row: Row, size: nat)
    requires Holds(c, taken, size) && c.byteCount == Bytes(c.rows) && c.phase == Reading
    requires c.byteCount + row.bytes >= size
    ensures Takes(TakeStep(c, row, size, true), taken + [row], size)
  {
    MoreRows(Flatten(c.batches), c.rows, row);
    FlushHolds(c, row, size);
  }

  lemma MoreRows(a: seq<Row>, b: seq<Row>, row: Row)
    ensures (a + b) + [row] == a + (b + [row])
  {
  }

  lemma FlushHolds(c: Consumer, row: Row, size: nat)
    requires AllFull(c.batches, size) && (c.rows == [] || Bytes(c.rows) < size) && Bytes(c.rows) + row.bytes >= size
    ensures AllFull(c.batches + [c.rows + [row]], size)
    ensures Flatten(c.batches + [c.rows + [row]]) + [] == Flatten(c.batches) + (c.rows + [row])
  {
    BytesGrow(c.rows, row);
    FlattenAdds(c.batches, c.rows + [row]);
  }

  lemma RowsOfNext(sent: seq<Sent>, k: nat)
    requires k < |sent|
    ensures RowsOf(sent[..k + 1]) == RowsOf(sent[..k]) + [sent[k].row]
  {
    assert sent[..k + 1][..k] == sent[..k];
  }

  lemma BytesGrow(rows: seq<Row>, row: Row)
    ensures Bytes(rows + [row]) == Bytes(rows) + row.bytes && (rows + [row])[..|rows|] == rows
  {
    assert (rows + [row])[..|rows|] == rows;
  }

  lemma FlattenAdds(batches: seq<seq<Row>>, rows: seq<Row>)
    ensures Flatten(batches + [rows]) == Flatten(batches) + rows
  {
    assert (batches + [rows])[..|batches|] == batches;
  }

  lemma DrainKeeps(p: Producers, c: Consumer, size: nat, accepted: bool)
    requires ConsumerOk(p, c, size) && c.phase == Reading && c.taken == |p.sent| && p.closed
    ensures ConsumerOk(p, DrainStep(c, accepted), size)
  {
    assert p.sent[..|p.sent|] == p.sent;
    assert (c.batches + [c.rows])[..|c.batches|] == c.batches;
    assert Bytes([]) == 0;
  }

  /** The channel only grows. */
  lemma SendKeepsConsumer(p: Producers, p': Producers, c: Consumer, size: nat)
    requires ConsumerOk(p, c, size) && p.sent <= p'.sent && (p.closed ==> p' == p)
    ensures ConsumerOk(p', c, size)
  {
    assert p'.sent[..c.taken] == p.sent[..c.taken];
  }

  // ----- Termination -----------------------------------------------------------------------------------

  function WorkOf(cursor: Cursor, f: Fetch): nat {
    match f
    case Fetching(pos) => if pos <= |cursor.rows| then 2 * (|cursor.rows| - pos) + 1 else 0
    case Sending(pos) => if pos < |cursor.rows| then 2 * (|cursor.rows| - pos) else 0
    case _ => 0
  }

  function Work(cursors: seq<Cursor>, fetch: seq<Fetch>): nat
    requires |cursors| == |fetch|
  {
    if fetch == [] then 0
    else Work(cursors[..|fetch| - 1], fetch[..|fetch| - 1]) + WorkOf(cursors[|fetch| - 1], fetch[|fetch| - 1])
  }

  lemma {:induction false} WorkUpdates(cursors: seq<Cursor>, fetch: seq<Fetch>, i: nat, f: Fetch)
    requires |cursors| == |fetch| && i < |fetch|
    ensures Work(cursors, fetch[i := f]) == Work(cursors, fetch) - WorkOf(cursors[i], fetch[i]) + WorkOf(cursors[i], f)
  {
    var n := |fetch| - 1;
    if i < n {
      assert fetch[i := f][..n] == fetch[..n][i := f];
      WorkUpdates(cursors[..n], fetch[..n], i, f);
    } else {
      assert fetch[i := f][..n] == fetch[..n];
    }
  }

  // ----- Counting -----------------------------------------------------------------------------------

  function TotalRows(cursors: seq<Cursor>): nat {
    if cursors == [] then 0 else TotalRows(cursors[..|cursors| - 1]) + |cursors[|cursors| - 1].rows|
  }

  /** The number of rows that the backends had. */
  function BackendRows(cursors: seq<Cursor>): nat {
    if cursors == [] then 0 else BackendRows(cursors[..|cursors| - 1]) + |cursors[|cursors| - 1].All()|
  }

  lemma {:induction false} LostRows(cursors: seq<Cursor>)
    ensures TotalRows(cursors) <= BackendRows(cursors)
    ensures TotalRows(cursors) == BackendRows(cursors) <==> NoneCut(cursors)
  {
    if cursors != [] {
      LostRows(cursors[..|cursors| - 1]);
    }
  }

  function SentFrom(sent: seq<Sent>, n: nat): nat {
    if n == 0 then 0 else SentFrom(sent, n - 1) + |From(sent, n - 1)|
  }

  lemma {:induction false} SentFromGrows(sent: seq<Sent>, x: Sent, n: nat)
    ensures SentFrom(sent + [x], n) == SentFrom(sent, n) + (if x.from < n then 1 else 0)
  {
    if n > 0 {
      SentFromGrows(sent, x, n - 1);
      assert (sent + [x])[..|sent|] == sent;
    }
  }

  lemma {:induction false} SentIsCounted(sent: seq<Sent>, n: nat)
    requires forall k | 0 <= k < |sent| :: sent[k].from < n
    ensures SentFrom(sent, n) == |sent|
  {
    if sent == [] {
      NothingSent(n);
    } else {
      var k := |sent| - 1;
      assert sent == sent[..k] + [sent[k]];
      SentIsCounted(sent[..k], n);
      SentFromGrows(sent[..k], sent[k], n);
    }
  }

  lemma {:induction false} NothingSent(n: nat)
    ensures SentFrom([], n) == 0
  {
    if n > 0 {
      NothingSent(n - 1);
    }
  }

  lemma {:induction false} AllSent(cursors: seq<Cursor>, sent: seq<Sent>, n: nat)
    requires n <= |cursors| && forall i | 0 <= i < n :: From(sent, i) == cursors[i].rows
    ensures SentFrom(sent, n) == TotalRows(cursors[..n])
  {
    if n > 0 {
      AllSent(cursors, sent, n - 1);
      assert cursors[..n][..n - 1] == cursors[..n - 1];
    }
  }

  // ----- The whole fetch ------------------------------------------------------------------------------

  predicate Active(f: Fetch) { f.Fetching? || f.Sending? }

  ghost predicate Running(cursors: seq<Cursor>, p: Producers, c: Consumer, size: nat) {
    && ProducersOk(cursors, p) && ConsumerOk(p, c, size)
    && (c.phase == Reading ==> forall i | 0 <= i < |p.fetch| :: !p.fetch[i].Stopped?)
  }

  lemma NotStuck(cursors: seq<Cursor>, p: Producers, c: Consumer, size: nat)
    requires Running(cursors, p, c, size) && forall i | 0 <= i < |p.fetch| :: !Active(p.fetch[i])
    requires c.phase == Reading && c.taken == |p.sent|
    ensures p.closed
  {
    CountIsAll(p.fetch);
  }

  /** `sent` is a merge of the cursors: it holds the rows of each in their order, and no others. */
  ghost predicate Merges(sent: seq<Sent>, cursors: seq<Cursor>) {
    && (forall k | 0 <= k < |sent| :: sent[k].from < |cursors|)
    && (forall i | 0 <= i < |cursors| :: From(sent, i) == cursors[i].rows)
  }

  /** The client took all batches so far, and a fetch that was broken off was refused one. */
  ghost predicate Heard(c: Consumer, accepts: nat -> bool) {
    && (forall k | 1 <= k <= |c.batches| :: accepts(k))
    && (c.phase == Rejected ==> exists k :: !accepts(k))
  }

  predicate SomeActive(p: Producers) {
    exists i :: 0 <= i < |p.fetch| && Active(p.fetch[i])
  }

  /**
    The producers and the consumer in any interleaving: the loop takes any step that is possible, and
    one always is. A row is only ever sent to an open channel, and only an open channel is closed.
  */
  method FetchAll(cursors: seq<Cursor>, size: nat, accepts: nat -> bool)
    returns (ok: bool, batches: seq<seq<Row>>, count: nat, ghost sent: seq<Sent>)
    requires |cursors| >= 1
    ensures ok ==> NoBadRow(cursors) && Merges(sent, cursors)
    ensures ok ==> Flatten(batches) == RowsOf(sent) && AllButLastFull(batches, size) && count == |sent|
    ensures !ok ==> !NoBadRow(cursors) || exists k :: !accepts(k)
    ensures ok ==> (Complete(sent, cursors) <==> NoneCut(cursors))
  {
    var n := |cursors|;
    var p := Producers(seq(n, i => Fetching(0)), 0, false, []);
    var c := Consumer(0, [], 0, 0, [], Reading);
    Starts(cursors, p, c, size);
    while c.phase == Reading || SomeActive(p)
      invariant Running(cursors, p, c, size) && Heard(c, accepts)
      decreases Work(cursors, p.fetch), |p.sent| - c.taken + (if c.phase == Reading then 1 else 0)
    {
      if c.phase == Reading && c.taken == |p.sent| && !SomeActive(p) {
        NotStuck(cursors, p, c, size);
      }
      if
      case i :| 0 <= i < n && p.fetch[i].Fetching? =>
        p := Produce(cursors, p, c, size, i);
      case i :| 0 <= i < n && p.fetch[i].Sending? && |p.sent| - c.taken < CAPACITY =>
        p := Send(cursors, p, c, size, i);
      case i :| 0 <= i < n && p.fetch[i].Sending? && c.phase != Reading =>
        p := Stop(cursors, p, c, size, i);
      case c.phase == Reading && (c.taken < |p.sent| || p.closed) =>
        c := Consume(cursors, p, c, size, accepts);
    }
    batches, count, sent := c.batches, c.count, p.sent;
    ok := c.phase == Done && forall i | 0 <= i < n :: !p.fetch[i].Failed?;
    Ends(cursors, p, c, size);
    if ok {
      CompleteExactly(sent, cursors);
    }
  }

  predicate NoBadRow(cursors: seq<Cursor>) {
    forall i | 0 <= i < |cursors| :: !cursors[i].ending.BadRow?
  }

  /** No connection broke before the backend had sent its last row. */
  predicate NoneCut(cursors: seq<Cursor>) {
    forall i | 0 <= i < |cursors| :: !cursors[i].CutShort()
  }

  /** All rows of all backends went through the channel. */
  ghost predicate Complete(sent: seq<Sent>, cursors: seq<Cursor>) {
    forall i | 0 <= i < |cursors| :: From(sent, i) == cursors[i].All()
  }

  /** What Next yielded is all that the backends had exactly when no cursor was cut short. */
  lemma CompleteExactly(sent: seq<Sent>, cursors: seq<Cursor>)
    requires Merges(sent, cursors)
    ensures Complete(sent, cursors) <==> NoneCut(cursors)
  {
    forall i | 0 <= i < |cursors| ensures From(sent, i) == cursors[i].All() <==> !cursors[i].CutShort() {
      assert From(sent, i) == cursors[i].rows;
      assert cursors[i].CutShort() ==> |cursors[i].All()| > |cursors[i].rows|;
    }
  }

  /** When all have returned, the producers without an error have sent all they had. */
  lemma Ends(cursors: seq<Cursor>, p: Producers, c: Consumer, size: nat)
    requires Running(cursors, p, c, size) && !SomeActive(p) && c.phase != Reading
    ensures forall i | 0 <= i < |cursors| :: p.fetch[i].Failed? ==> cursors[i].ending.BadRow?
    ensures c.phase == Done && (forall i | 0 <= i < |cursors| :: !p.fetch[i].Failed?) ==>
      Merges(p.sent, cursors) && NoBadRow(cursors)
  {
    CountIsAll(p.fetch);
    assert forall i | 0 <= i < |cursors| :: InStep(cursors[i], p.fetch[i], From(p.sent, i));
  }

  method Stop(cursors: seq<Cursor>, p: Producers, ghost c: Consumer, ghost size: nat, i: nat) returns (p': Producers)
    requires Running(cursors, p, c, size) && i < |cursors| && p.fetch[i].Sending? && c.phase != Reading
    ensures Running(cursors, p', c, size) && Work(cursors, p'.fetch) < Work(cursors, p.fetch)
  {
    assert InStep(cursors[i], p.fetch[i], From(p.sent, i));
    p' := Move(p, i, Stopped);
    StopKeeps(cursors, p, i);
    OpenWhileActive(cursors, p, i);
    SendKeepsConsumer(p, p', c, size);
    WorkUpdates(cursors, p.fetch, i, Stopped);
  }

  /** The consumer takes a row, or finds the channel closed and empty. */
  method Consume(ghost cursors: seq<Cursor>, p: Producers, c: Consumer, size: nat, accepts: nat -> bool)
    returns (c': Consumer)
    requires Running(cursors, p, c, size) && Heard(c, accepts) && c.phase == Reading && (c.taken < |p.sent| || p.closed)
    ensures Running(cursors, p, c', size) && Heard(c', accepts)
    ensures |p.sent| - c'.taken + (if c'.phase == Reading then 1 else 0) < |p.sent| - c.taken + 1
  {
    var accepted := accepts(|c.batches| + 1);
    if c.taken < |p.sent| {
      c' := TakeStep(c, p.sent[c.taken].row, size, accepted);
      TakeKeeps(p, c, size, accepted);
      TakeHeard(c, p.sent[c.taken].row, size, accepts);
    } else {
      c' := DrainStep(c, accepted);
      DrainKeeps(p, c, size, accepted);
      DrainHeard(c, accepts);
    }
  }

  lemma TakeHeard(c: Consumer, row: Row, size: nat, accepts: nat -> bool)
    requires Heard(c, accepts) && c.phase == Reading
    ensures Heard(TakeStep(c, row, size, accepts(|c.batches| + 1)), accepts)
  {
  }

  lemma DrainHeard(c: Consumer, accepts: nat -> bool)
    requires Heard(c, accepts) && c.phase == Reading
    ensures Heard(DrainStep(c, accepts(|c.batches| + 1)), accepts)
  {
  }

  lemma Starts(cursors: seq<Cursor>, p: Producers, c: Consumer, size: nat)
    requires |cursors| >= 1 && |p.fetch| == |cursors| && forall i | 0 <= i < |cursors| :: p.fetch[i] == Fetching(0)
    requires p.finished == 0 && !p.closed && p.sent == [] && c == Consumer(0, [], 0, 0, [], Reading)
    ensures Running(cursors, p, c, size)
  {
    NoneReturned(p.fetch);
  }

  lemma {:induction false} NoneReturned(fetch: seq<Fetch>)
    requires forall i | 0 <= i < |fetch| :: !Returned(fetch[i])
    ensures CountReturned(fetch) == 0
  {
    if fetch != [] {
      NoneReturned(fetch[..|fetch| - 1]);
    }
  }

  /** A producer asks its cursor. */
  method Produce(cursors: seq<Cursor>, p: Producers, ghost c: Consumer, ghost size: nat, i: nat) returns (p': Producers)
    requires Running(cursors, p, c, size) && i < |cursors| && p.fetch[i].Fetching?
    ensures Running(cursors, p', c, size) && p'.sent == p.sent && Work(cursors, p'.fetch) < Work(cursors, p.fetch)
  {
    assert InStep(cursors[i], p.fetch[i], From(p.sent, i));
    p' := FetchStep(cursors, p, i);
    FetchKeeps(cursors, p, i);
    SendKeepsConsumer(p, p', c, size);
    WorkUpdates(cursors, p.fetch, i, p'.fetch[i]);
  }

  /** A producer sends its row; the channel is open. */
  method Send(cursors: seq<Cursor>, p: Producers, ghost c: Consumer, ghost size: nat, i: nat) returns (p': Producers)
    requires Running(cursors, p, c, size) && i < |cursors| && p.fetch[i].Sending?
    ensures Running(cursors, p', c, size) && !p.closed && Work(cursors, p'.fetch) < Work(cursors, p.fetch)
  {
    assert InStep(cursors[i], p.fetch[i], From(p.sent, i));
    p' := SendStep(cursors, p, i);
    SendKeeps(cursors, p, i);
    SendKeepsConsumer(p, p', c, size);
    WorkUpdates(cursors, p.fetch, i, p'.fetch[i]);
  }

  ghost predicate Delivers(messages: seq<Message>, batches: seq<seq<Row>>, sent: seq<Sent>, cursors: seq<Cursor>,
                           size: nat) {
    && Merges(sent, cursors) && Flatten(batches) == RowsOf(sent) && AllButLastFull(batches, size)
    && messages == [Fields] + Batches(batches) + [End(TotalRows(cursors))]
  }

  /** The messages to the client: the fields, the batches, and the number of rows. */
  method ExecuteStreamFetch(cursors: seq<Cursor>, size: nat, accepts: nat -> bool)
    returns (ok: bool, messages: seq<Message>)
    requires |cursors| >= 1
    ensures ok ==> NoBadRow(cursors) && exists batches, sent :: Delivers(messages, batches, sent, cursors, size)
    ensures !ok ==> !NoBadRow(cursors) || exists k :: !accepts(k)
    ensures ok ==> (messages[|messages| - 1] == End(BackendRows(cursors)) <==> NoneCut(cursors))
  {
    messages := [];
    if !accepts(0) {
      return false, messages;
    }
    messages := [Fields];
    var batches, count;
    ghost var sent;
    ok, batches, count, sent := FetchAll(cursors, size, accepts);
    messages := messages + Batches(batches);
    if !ok {
      return;
    }
    SentIsCounted(sent, |cursors|);
    AllSent(cursors, sent, |cursors|);
    assert cursors[..|cursors|] == cursors;
    ok := accepts(|batches| + 1);
    if ok {
      messages := messages + [End(count)];
      assert Delivers(messages, batches, sent, cursors, size);
      LostRows(cursors);
    }
  }

  /** A backend that breaks after the first of its two rows: the fetch succeeds and reports one row. */
  method CutFetch() returns (ok: bool, messages: seq<Message>)
    ensures var cursors := [Cursor([Row(1, 10)], Cut([Row(2, 10)]))];
            && ok && BackendRows(cursors) == 2
            && messages != [] && messages[|messages| - 1] == End(1)
  {
    var cursors := [Cursor([Row(1, 10)], Cut([Row(2, 10)]))];
    ok, messages := ExecuteStreamFetch(cursors, 65536, k => true);
    assert cursors[..0] == [] && cursors[0].All() == [Row(1, 10), Row(2, 10)];
    assert TotalRows(cursors) == 1 && BackendRows(cursors) == 2;
  }

  function Batches(batches: seq<seq<Row>>): seq<Message> {
    seq(|batches|, i requires 0 <= i < |batches| => Batch(batches[i]))
  }
}
