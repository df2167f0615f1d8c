/**
 * The subscription-driven watcher (`TokenMonitor`): each log notification
 * names a transaction signature; the transaction is fetched and decoded, a
 * decoded pool creation is appended to the data file, and a failed
 * notification is appended to the error log before the loop moves on.
 *
 * The node, the clock and the file system are not part of the model. Their
 * answers for one notification travel with it in a `Notification`.
 */
module TokenMonitoring {
  import opened Wrappers
  import opened Errors
  import opened Json
  import opened TokenBalances
  import opened PoolTransactions
  import opened Sequences

  /** The data file as a sequence of writes: a serialized record, or the newline written after it. */
  datatype Chunk = Record(data: TokenData) | Newline

  /** One entry of the error log. */
  datatype ErrorEntry = ErrorEntry(error: Error, timestamp: string)

  /** The text of an error-log entry. */
  function Render(entry: ErrorEntry): string {
    "Error occurred: " + Message(entry.error) + "\nTimestamp: " + entry.timestamp + "\n"
  }

  /** The text of an entry opens with the error's message and closes with the timestamp line. */
  lemma RenderShowsMessageAndTimestamp(entry: ErrorEntry)
    ensures var text, m, ts := Render(entry), Message(entry.error), entry.timestamp;
      && |text| == 16 + |m| + 12 + |ts| + 1
      && text[..16] == "Error occurred: "
      && text[16..16 + |m|] == m
      && text[|text| - |ts| - 13 .. |text| - 1] == "\nTimestamp: " + ts
      && text[|text| - 1] == '\n'
  {
    var m, ts := Message(entry.error), entry.timestamp;
    var head := "Error occurred: " + m;
    var tail := "\nTimestamp: " + ts;
    var text := Render(entry);
    assert text == head + tail + "\n";
    assert |head| == 16 + |m| && |tail| == 12 + |ts| && |text| == |head| + |tail| + 1;
    assert text[..16] == head[..16];
    assert text[16..16 + |m|] == head[16..];
    var body := head + tail;
    assert text[..|body|] == body && body[|head|..] == tail;
    assert text[|head| .. |body|] == text[..|body|][|head|..];
  }

  /** How the file system answers one `store_data`: all writes succeed, or the named step fails. */
  datatype StoreIo = Written | OpenFailed(reason: string) | RecordWriteFailed(reason: string) | NewlineWriteFailed(reason: string)

  /**
   * A pushed log notification (`logs`) together with what the environment
   * answers while it is handled: the transaction fetch, the clock reading for
   * the record, the data file's behaviour, the clock reading for an error
   * entry, and whether writing the error log fails (with the reason).
   */
  datatype Notification = Notification(
    logs: Value,
    fetched: Result<Transaction, Error>,
    now: string,
    storeIo: StoreIo,
    errorNow: string,
    errorLogIo: Option<string>)

  /** What `store_data` leaves at the end of the data file. */
  function StoreWrites(d: TokenData, io: StoreIo): (w: seq<Chunk>)
    ensures io.Written? <==> w == [Record(d), Newline]
    ensures io.NewlineWriteFailed? <==> w == [Record(d)]
    ensures io.OpenFailed? || io.RecordWriteFailed? <==> w == []
  {
    match io
    case Written => [Record(d), Newline]
    case NewlineWriteFailed(_) => [Record(d)]
    case _ => []
  }

  /** What `store_data` returns: success exactly when every write succeeded. */
  function StoreResult(io: StoreIo): (r: Outcome<Error>)
    ensures r.Pass? <==> io.Written?
    ensures r.Fail? ==> r.error == Io(io.reason)
  {
    if io.Written? then Pass else Fail(Io(io.reason))
  }

  /**
   * The decision part of `handle_log_notification`: the signature must be
   * present and parse; then the transaction is decoded.
   */
  function Decide(parseSignature: string -> Result<string, string>, n: Notification)
    : (r: Result<Option<TokenData>, Error>)
    ensures AsStr(Get(n.logs, "signature")).None? ==> r == Failure(NoSignatureInLogs)
    ensures AsStr(Get(n.logs, "signature")).Some? && parseSignature(AsStr(Get(n.logs, "signature")).value).Failure? ==>
      r == Failure(InvalidSignature(parseSignature(AsStr(Get(n.logs, "signature")).value).error))
    ensures AsStr(Get(n.logs, "signature")).Some? && parseSignature(AsStr(Get(n.logs, "signature")).value).Success? ==>
      r == ParseTransaction(parseSignature(AsStr(Get(n.logs, "signature")).value).value, n.fetched, n.now)
    ensures r.Success? && r.value.Some? ==>
      r.value.value.lpSignature == parseSignature(AsStr(Get(n.logs, "signature")).value).value
  {
    match AsStr(Get(n.logs, "signature"))
    case None => Failure(NoSignatureInLogs)
    case Some(text) =>
      match parseSignature(text)
      case Failure(reason) => Failure(InvalidSignature(reason))
      case Success(signature) => ParseTransaction(signature, n.fetched, n.now)
  }

  /** The chunks handling `n` appends to the data file. */
  function Appended(parseSignature: string -> Result<string, string>, n: Notification): (w: seq<Chunk>)
    ensures |w| <= 2
    ensures w != [] ==> Decide(parseSignature, n).Success? && Decide(parseSignature, n).value.Some?
    ensures w != [] ==> w[0] == Record(Decide(parseSignature, n).value.value)
    ensures Decide(parseSignature, n).Success? && Decide(parseSignature, n).value.Some? ==>
      w == StoreWrites(Decide(parseSignature, n).value.value, n.storeIo)
    ensures Decide(parseSignature, n).Success? && Decide(parseSignature, n).value.Some? && n.storeIo.Written? ==>
      w == [Record(Decide(parseSignature, n).value.value), Newline]
  {
    match Decide(parseSignature, n)
    case Success(Some(d)) => StoreWrites(d, n.storeIo)
    case _ => []
  }

  /** What handling `n` returns. */
  function HandleOutcome(parseSignature: string -> Result<string, string>, n: Notification): (r: Outcome<Error>)
    ensures Decide(parseSignature, n).Failure? ==> r == Fail(Decide(parseSignature, n).error)
    ensures r.Pass? <==>
      Decide(parseSignature, n) == Success(None) || (Decide(parseSignature, n).Success? && n.storeIo.Written?)
    ensures Decide(parseSignature, n).Success? && Decide(parseSignature, n).value.Some? ==> r == StoreResult(n.storeIo)
  {
    match Decide(parseSignature, n)
    case Failure(e) => Fail(e)
    case Success(None) => Pass
    case Success(Some(_)) => StoreResult(n.storeIo)
  }

  /**
   * One turn of the `while let` loop, as far as the loop sees it: what
   * handling the notification appends and returns, and the error log's
   * clock reading and behaviour should the handling fail.
   */
  datatype Turn = Turn(appended: seq<Chunk>, outcome: Outcome<Error>, errorNow: string, errorLogIo: Option<string>)

  function TurnOf(parseSignature: string -> Result<string, string>, n: Notification): Turn {
    Turn(Appended(parseSignature, n), HandleOutcome(parseSignature, n), n.errorNow, n.errorLogIo)
  }

  function Turns(parseSignature: string -> Result<string, string>, ns: seq<Notification>): (ts: seq<Turn>)
    ensures |ts| == |ns|
  {
    if ns == [] then [] else [TurnOf(parseSignature, ns[0])] + Turns(parseSignature, ns[1..])
  }

  /** The `i`-th turn is the turn of the `i`-th notification. */
  lemma {:induction false} TurnsAt(parseSignature: string -> Result<string, string>, ns: seq<Notification>, i: nat)
    requires i < |ns|
    ensures Turns(parseSignature, ns)[i] == TurnOf(parseSignature, ns[i])
  {
    if i > 0 {
      TurnsAt(parseSignature, ns[1..], i - 1);
    }
  }

  /** `ts` holds the turns of `ns`, position by position. */
  predicate TurnsMatch(parseSignature: string -> Result<string, string>, ns: seq<Notification>, ts: seq<Turn>) {
    |ts| == |ns| &&
    forall k {:trigger TurnOf(parseSignature, ns[k])} :: 0 <= k < |ns| ==> ts[k] == TurnOf(parseSignature, ns[k])
  }

  /** `Turns` computes the turns position by position. */
  lemma TurnsComputesTurns(parseSignature: string -> Result<string, string>, ns: seq<Notification>)
    ensures TurnsMatch(parseSignature, ns, Turns(parseSignature, ns))
  {
    forall k | 0 <= k < |ns|
      ensures Turns(parseSignature, ns)[k] == TurnOf(parseSignature, ns[k])
    {
      TurnsAt(parseSignature, ns, k);
    }
  }

  /** The state a run of the monitor ends in: both logs, the result, and how many notifications it took. */
  datatype Run = Run(data: seq<Chunk>, errors: seq<ErrorEntry>, outcome: Outcome<Error>, consumed: nat)

  function Shift(run: Run, k: nat): Run {
    run.(consumed := run.consumed + k)
  }

  /**
   * The `while let` loop of `monitor_new_tokens` over the turns of the
   * notifications delivered before the channel closes: a failed turn is
   * written to the error log, and only a failure of that write ends the loop.
   */
  function Monitor(ts: seq<Turn>, data: seq<Chunk>, errors: seq<ErrorEntry>): Run
    decreases |ts|
  {
    if ts == [] then Run(data, errors, Pass, 0)
    else
      var t := ts[0];
      var data' := data + t.appended;
      match t.outcome
      case Pass => Shift(Monitor(ts[1..], data', errors), 1)
      case Fail(e) =>
        match t.errorLogIo
        case Some(reason) => Run(data', errors, Fail(Io(reason)), 1)
        case None => Shift(Monitor(ts[1..], data', errors + [ErrorEntry(e, t.errorNow)]), 1)
  }

  /** `monitor_new_tokens`: `setup` is the outcome of parsing the fee address and subscribing. */
  function MonitorRun(parseSignature: string -> Result<string, string>, setup: Outcome<Error>,
                      ns: seq<Notification>, data: seq<Chunk>, errors: seq<ErrorEntry>): Run
  {
    if setup.Fail? then Run(data, errors, setup, 0) else Monitor(Turns(parseSignature, ns), data, errors)
  }

  /** The error entries the failed turns produce. */
  function ExpectedErrors(ts: seq<Turn>): seq<ErrorEntry> {
    if ts == [] then []
    else
      (if ts[0].outcome.Fail? then [ErrorEntry(ts[0].outcome.error, ts[0].errorNow)] else [])
      + ExpectedErrors(ts[1..])
  }

  /** Everything the turns append to the data file, in order. */
  function AllAppended(ts: seq<Turn>): seq<Chunk> {
    if ts == [] then [] else ts[0].appended + AllAppended(ts[1..])
  }

  /** The decoded pool creations among `ns`, in delivery order. */
  function Accepted(parseSignature: string -> Result<string, string>, ns: seq<Notification>): seq<TokenData> {
    if ns == [] then []
    else
      var d := Decide(parseSignature, ns[0]);
      (if d.Success? && d.value.Some? then [d.value.value] else []) + Accepted(parseSignature, ns[1..])
  }

  /** Each record followed by its newline. */
  function Framed(ds: seq<TokenData>): seq<Chunk> {
    if ds == [] then [] else [Record(ds[0]), Newline] + Framed(ds[1..])
  }

  /** Taking turn `i` when it does not end the loop: the rest of the run starts from the updated logs. */
  lemma MonitorContinues(ts: seq<Turn>, i: nat, data: seq<Chunk>, errors: seq<ErrorEntry>,
                         data': seq<Chunk>, errors': seq<ErrorEntry>)
    requires i < |ts| && (ts[i].outcome.Pass? || ts[i].errorLogIo.None?)
    requires data' == data + ts[i].appended
    requires errors' == if ts[i].outcome.Fail? then errors + [ErrorEntry(ts[i].outcome.error, ts[i].errorNow)] else errors
    ensures Shift(Monitor(ts[i..], data, errors), i) == Shift(Monitor(ts[i + 1..], data', errors'), i + 1)
  {
    assert ts[i..][0] == ts[i] && ts[i..][1..] == ts[i + 1..];
  }

  /** Taking turn `i` when it fails and the error log cannot record it: the run ends there. */
  lemma MonitorEnds(ts: seq<Turn>, i: nat, data: seq<Chunk>, errors: seq<ErrorEntry>)
    requires i < |ts| && ts[i].outcome.Fail? && ts[i].errorLogIo.Some?
    ensures Shift(Monitor(ts[i..], data, errors), i)
         == Run(data + ts[i].appended, errors, Fail(Io(ts[i].errorLogIo.value)), i + 1)
  {
    assert ts[i..][0] == ts[i];
  }

  /** Neither log ever loses or changes an earlier entry, and at most all turns are taken. */
  lemma {:induction false} MonitorAppendOnly(ts: seq<Turn>, data: seq<Chunk>, errors: seq<ErrorEntry>)
    ensures var run := Monitor(ts, data, errors);
      data <= run.data && errors <= run.errors && run.consumed <= |ts|
  {
    if ts != [] {
      var t := ts[0];
      var data' := data + t.appended;
      match t.outcome
      case Pass => MonitorAppendOnly(ts[1..], data', errors);
      case Fail(e) =>
        if t.errorLogIo.None? {
          MonitorAppendOnly(ts[1..], data', errors + [ErrorEntry(e, t.errorNow)]);
        }
    }
  }

  /** The data file gains exactly what the consumed turns append, in delivery order. */
  lemma {:induction false} MonitorData(ts: seq<Turn>, data: seq<Chunk>, errors: seq<ErrorEntry>)
    ensures var run := Monitor(ts, data, errors);
      run.consumed <= |ts| && run.data == data + AllAppended(ts[..run.consumed])
  {
    if ts != [] {
      var t := ts[0];
      var data' := data + t.appended;
      if t.outcome.Fail? && t.errorLogIo.Some? {
        assert ts[..1] == [t] && [t][1..] == [];
        assert AllAppended(ts[..1]) == t.appended + [];
      } else {
        var errors' := if t.outcome.Fail? then errors + [ErrorEntry(t.outcome.error, t.errorNow)] else errors;
        var rest := Monitor(ts[1..], data', errors');
        assert Monitor(ts, data, errors) == Shift(rest, 1);
        MonitorData(ts[1..], data', errors');
        var prefix := ts[..rest.consumed + 1];
        assert prefix[0] == t && prefix[1..] == ts[1..][..rest.consumed];
        var later := AllAppended(ts[1..][..rest.consumed]);
        assert AllAppended(prefix) == t.appended + later;
        AppendAssociative(data, t.appended, later);
      }
    }
  }

  /**
   * When no write to the error log fails (only failed turns write it), the
   * loop takes every turn and ends normally, and each failed turn adds
   * exactly one error entry, in order.
   */
  lemma {:induction false} MonitorKeepsGoing(ts: seq<Turn>, data: seq<Chunk>, errors: seq<ErrorEntry>)
    requires forall k :: 0 <= k < |ts| && ts[k].outcome.Fail? ==> ts[k].errorLogIo.None?
    ensures var run := Monitor(ts, data, errors);
      && run.outcome == Pass
      && run.consumed == |ts|
      && run.errors == errors + ExpectedErrors(ts)
  {
    if ts != [] {
      var t := ts[0];
      var data' := data + t.appended;
      assert t.outcome.Fail? ==> t.errorLogIo.None?;
      assert forall k :: 0 <= k < |ts[1..]| ==> ts[1..][k] == ts[k + 1];
      var entries := if t.outcome.Fail? then [ErrorEntry(t.outcome.error, t.errorNow)] else [];
      var errors' := if t.outcome.Fail? then errors + entries else errors;
      assert errors' == errors + entries;
      assert Monitor(ts, data, errors) == Shift(Monitor(ts[1..], data', errors'), 1);
      MonitorKeepsGoing(ts[1..], data', errors');
      var tail := ExpectedErrors(ts[1..]);
      assert ExpectedErrors(ts) == entries + tail;
      AppendAssociative(errors, entries, tail);
    }
  }

  /**
   * The loop ends early only when a turn fails and the error log cannot
   * record it, with that write's error; every earlier failure was recorded.
   */
  lemma {:induction false} MonitorStopsOnlyOnErrorLogFailure(ts: seq<Turn>, data: seq<Chunk>, errors: seq<ErrorEntry>)
    ensures var run := Monitor(ts, data, errors);
      run.outcome.Fail? ==>
        && 0 < run.consumed <= |ts|
        && ts[run.consumed - 1].outcome.Fail?
        && ts[run.consumed - 1].errorLogIo.Some?
        && run.outcome == Fail(Io(ts[run.consumed - 1].errorLogIo.value))
        && (forall k :: 0 <= k < run.consumed - 1 ==> ts[k].outcome.Pass? || ts[k].errorLogIo.None?)
        && run.errors == errors + ExpectedErrors(ts[..run.consumed - 1])
  {
    if ts != [] {
      var t := ts[0];
      var data' := data + t.appended;
      if t.outcome.Pass? || t.errorLogIo.None? {
        var entries := if t.outcome.Fail? then [ErrorEntry(t.outcome.error, t.errorNow)] else [];
        var errors' := if t.outcome.Fail? then errors + entries else errors;
        assert errors' == errors + entries;
        var rest := Monitor(ts[1..], data', errors');
        assert Monitor(ts, data, errors) == Shift(rest, 1);
        MonitorStopsOnlyOnErrorLogFailure(ts[1..], data', errors');
        if rest.outcome.Fail? {
          assert ts[rest.consumed] == ts[1..][rest.consumed - 1];
          forall k | 0 <= k < rest.consumed
            ensures ts[k].outcome.Pass? || ts[k].errorLogIo.None?
          {
            if k > 0 { assert ts[k] == ts[1..][k - 1]; }
          }
          var earlier := ts[..rest.consumed];
          assert earlier[0] == t && earlier[1..] == ts[1..][..rest.consumed - 1];
          var tail := ExpectedErrors(ts[1..][..rest.consumed - 1]);
          assert ExpectedErrors(earlier) == entries + tail;
          AppendAssociative(errors, entries, tail);
        }
      } else {
        assert ts[..0] == [];
      }
    }
  }

  /** When every data-file write succeeds, the appended chunks are the decoded events, each followed by a newline. */
  lemma {:induction false} AllAppendedFramesAccepted(parseSignature: string -> Result<string, string>, ns: seq<Notification>)
    requires forall k :: 0 <= k < |ns| ==> ns[k].storeIo.Written?
    ensures AllAppended(Turns(parseSignature, ns)) == Framed(Accepted(parseSignature, ns))
  {
    if ns != [] {
      assert ns[0].storeIo.Written?;
      var ts := Turns(parseSignature, ns);
      assert ts[0] == TurnOf(parseSignature, ns[0]);
      assert ts[1..] == Turns(parseSignature, ns[1..]);
      AllAppendedFramesAccepted(parseSignature, ns[1..]);
      var d := Decide(parseSignature, ns[0]);
      var rest := Accepted(parseSignature, ns[1..]);
      assert AllAppended(ts) == Appended(parseSignature, ns[0]) + Framed(rest);
      if d.Success? && d.value.Some? {
        assert Appended(parseSignature, ns[0]) == [Record(d.value.value), Newline];
        assert Accepted(parseSignature, ns) == [d.value.value] + rest;
        assert ([d.value.value] + rest)[1..] == rest;
      } else {
        assert Appended(parseSignature, ns[0]) == [];
        assert Accepted(parseSignature, ns) == rest;
      }
    }
  }

  /**
   * With no I/O failure anywhere, a run takes every notification, ends
   * normally, and the data file gains one record and a newline per decoded
   * event, in delivery order, and nothing else.
   */
  lemma StoresExactlyAccepted(parseSignature: string -> Result<string, string>, ns: seq<Notification>,
                              data: seq<Chunk>, errors: seq<ErrorEntry>)
    requires forall k :: 0 <= k < |ns| ==> ns[k].storeIo.Written? && ns[k].errorLogIo.None?
    ensures var run := MonitorRun(parseSignature, Pass, ns, data, errors);
      run.outcome == Pass && run.consumed == |ns| &&
      run.data == data + Framed(Accepted(parseSignature, ns))
  {
    var ts := Turns(parseSignature, ns);
    MonitorKeepsGoing(ts, data, errors);
    MonitorData(ts, data, errors);
    assert ts[..|ts|] == ts;
    AllAppendedFramesAccepted(parseSignature, ns);
  }

  /** No deduplication: an event delivered twice is stored twice. */
  lemma RepeatedEventStoredTwice(parseSignature: string -> Result<string, string>, n: Notification,
                                 data: seq<Chunk>, errors: seq<ErrorEntry>, d: TokenData)
    requires Decide(parseSignature, n) == Success(Some(d)) && n.storeIo.Written?
    ensures MonitorRun(parseSignature, Pass, [n, n], data, errors)
         == Run(data + [Record(d), Newline, Record(d), Newline], errors, Pass, 2)
  {
    var t := TurnOf(parseSignature, n);
    assert t == Turn([Record(d), Newline], Pass, n.errorNow, n.errorLogIo);
    assert [n, n][1..] == [n] && [n][1..] == [];
    assert Turns(parseSignature, [n]) == [t] + Turns(parseSignature, []);
    assert Turns(parseSignature, [n, n]) == [t] + Turns(parseSignature, [n]);
    assert Turns(parseSignature, []) == [];
    assert Turns(parseSignature, [n, n]) == [t, t];
    assert MonitorRun(parseSignature, Pass, [n, n], data, errors) == Monitor([t, t], data, errors);
    TwoPassingTurns(t, data, errors);
    assert data + [Record(d), Newline] + [Record(d), Newline] == data + [Record(d), Newline, Record(d), Newline];
  }

  /** Two passing turns append what each appends, in order, and leave the error log alone. */
  lemma TwoPassingTurns(t: Turn, data: seq<Chunk>, errors: seq<ErrorEntry>)
    requires t.outcome.Pass?
    ensures Monitor([t, t], data, errors) == Run(data + t.appended + t.appended, errors, Pass, 2)
  {
    assert [t, t][1..] == [t] && [t][1..] == [];
    var data1 := data + t.appended;
    assert Monitor([t], data1, errors) == Shift(Monitor([], data1 + t.appended, errors), 1);
    assert Monitor([t, t], data, errors) == Shift(Monitor([t], data1, errors), 1);
  }

  /**
   * A notification whose transaction holds only the quote-side record stores
   * nothing and adds one "Token info not found" entry, and the loop goes on.
   */
  lemma QuoteOnlyLogsOneError(parseSignature: string -> Result<string, string>, n: Notification,
                              data: seq<Chunk>, errors: seq<ErrorEntry>, creator: string)
    requires AsStr(Get(n.logs, "signature")).Some?
    requires parseSignature(AsStr(Get(n.logs, "signature")).value).Success?
    requires n.fetched == Success(Transaction(Some(Meta(None, [BalanceRecord(LP_OWNER, WSOL_MINT, 9, 5.0)])), [creator]))
    requires n.errorLogIo.None?
    ensures MonitorRun(parseSignature, Pass, [n], data, errors)
         == Run(data, errors + [ErrorEntry(TokenInfoNotFound, n.errorNow)], Pass, 1)
  {
    QuoteOnlyRejected(parseSignature(AsStr(Get(n.logs, "signature")).value).value, creator, n.now);
    assert Decide(parseSignature, n) == Failure(TokenInfoNotFound);
    assert Appended(parseSignature, n) == [];
    var t := TurnOf(parseSignature, n);
    assert t == Turn([], Fail(TokenInfoNotFound), n.errorNow, None);
    assert Turns(parseSignature, [n]) == [t];
    assert [t][1..] == [];
    var errors' := errors + [ErrorEntry(TokenInfoNotFound, n.errorNow)];
    assert Monitor([], data + [], errors') == Run(data, errors', Pass, 0);
    assert Monitor([t], data, errors) == Shift(Monitor([], data + [], errors'), 1);
  }

  class TokenMonitor {
    /** Base58 signature parsing, a foreign function: the canonical signature text, or the parser's message. */
    const parseSignature: string -> Result<string, string>
    /** The data file's contents. */
    var dataLog: seq<Chunk>
    /** The error log's contents. */
    var errorLog: seq<ErrorEntry>

    /** Both files may already hold entries from earlier runs. */
    constructor (parseSignature: string -> Result<string, string>, dataLog: seq<Chunk>, errorLog: seq<ErrorEntry>)
      ensures this.parseSignature == parseSignature
      ensures this.dataLog == dataLog && this.errorLog == errorLog
    {
      this.parseSignature := parseSignature;
      this.dataLog := dataLog;
      this.errorLog := errorLog;
    }

    /** `store_data`: open for append, write the record, then the newline. */
    method StoreData(d: TokenData, io: StoreIo) returns (r: Outcome<Error>)
      modifies this
      ensures dataLog == old(dataLog) + StoreWrites(d, io)
      ensures errorLog == old(errorLog)
      ensures r == StoreResult(io)
    {
      if io.OpenFailed? {
        return Fail(Io(io.reason));
      }
      if io.RecordWriteFailed? {
        return Fail(Io(io.reason));
      }
      dataLog := dataLog + [Record(d)];
      if io.NewlineWriteFailed? {
        return Fail(Io(io.reason));
      }
      dataLog := dataLog + [Newline];
      r := Pass;
    }

    /** `log_error`: append one entry, or fail with the file system's reason. */
    method LogError(e: Error, now: string, io: Option<string>) returns (r: Outcome<Error>)
      modifies this
      ensures dataLog == old(dataLog)
      ensures io.None? ==> errorLog == old(errorLog) + [ErrorEntry(e, now)] && r == Pass
      ensures io.Some? ==> errorLog == old(errorLog) && r == Fail(Io(io.value))
    {
      if io.Some? {
        return Fail(Io(io.value));
      }
      errorLog := errorLog + [ErrorEntry(e, now)];
      r := Pass;
    }

    /** `handle_log_notification`. */
    method HandleLogNotification(n: Notification) returns (r: Outcome<Error>)
      modifies this
      ensures dataLog == old(dataLog) + Appended(parseSignature, n)
      ensures errorLog == old(errorLog)
      ensures r == HandleOutcome(parseSignature, n)
    {
      var text := AsStr(Get(n.logs, "signature"));
      if text.None? {
        return Fail(NoSignatureInLogs);
      }
      var signature := parseSignature(text.value);
      if signature.Failure? {
        return Fail(InvalidSignature(signature.error));
      }
      var parsed := ParseTransaction(signature.value, n.fetched, n.now);
      if parsed.Failure? {
        return Fail(parsed.error);
      }
      if parsed.value.Some? {
        r := StoreData(parsed.value.value, n.storeIo);
      } else {
        r := Pass;
      }
    }

    /** One turn of the `while let` loop: handle `n`, and write a failure to the error log. */
    method HandleAndRecord(n: Notification) returns (r: Outcome<Error>)
      modifies this
      ensures var t := TurnOf(parseSignature, n);
        && dataLog == old(dataLog) + t.appended
        && (t.outcome.Pass? ==> errorLog == old(errorLog) && r == Pass)
        && (t.outcome.Fail? && t.errorLogIo.Some? ==> errorLog == old(errorLog) && r == Fail(Io(t.errorLogIo.value)))
        && (t.outcome.Fail? && t.errorLogIo.None? ==>
              errorLog == old(errorLog) + [ErrorEntry(t.outcome.error, t.errorNow)] && r == Pass)
    {
      r := HandleLogNotification(n);
      if r.Fail? {
        r := LogError(r.error, n.errorNow, n.errorLogIo);
      }
    }

    /**
     * `HandleAndRecord` on the `i`-th delivered notification, with its
     * contract restated over the turn `ts[i]`. It adds no behaviour: it keeps
     * the decoder out of the loop's proof obligation.
     */
    method HandleNext(ns: seq<Notification>, i: nat, ghost ts: seq<Turn>) returns (r: Outcome<Error>)
      requires i < |ns| && TurnsMatch(parseSignature, ns, ts)
      modifies this
      ensures
        && dataLog == old(dataLog) + ts[i].appended
        && (ts[i].outcome.Pass? ==> errorLog == old(errorLog) && r == Pass)
        && (ts[i].outcome.Fail? && ts[i].errorLogIo.Some? ==>
              errorLog == old(errorLog) && r == Fail(Io(ts[i].errorLogIo.value)))
        && (ts[i].outcome.Fail? && ts[i].errorLogIo.None? ==>
              errorLog == old(errorLog) + [ErrorEntry(ts[i].outcome.error, ts[i].errorNow)] && r == Pass)
    {
      assert ts[i] == TurnOf(parseSignature, ns[i]);
      r := HandleAndRecord(ns[i]);
    }

    /**
     * The `while let` loop over the delivered notifications: handle each in
     * delivery order; a failed one is written to the error log and the loop
     * goes on. Also returns how many notifications were taken.
     */
    method ReceiveAll(ns: seq<Notification>, ghost ts: seq<Turn>) returns (r: Outcome<Error>, consumed: nat)
      requires TurnsMatch(parseSignature, ns, ts)
      modifies this
      ensures Run(dataLog, errorLog, r, consumed) == Monitor(ts, old(dataLog), old(errorLog))
    {
      var i := 0;
      while i < |ns|
        invariant 0 <= i <= |ns|
        invariant Shift(Monitor(ts[i..], dataLog, errorLog), i) == Monitor(ts, old(dataLog), old(errorLog))
      {
        ghost var data, errors := dataLog, errorLog;
        r := HandleNext(ns, i, ts);
        if r.Fail? {
          MonitorEnds(ts, i, data, errors);
          return r, i + 1;
        }
        MonitorContinues(ts, i, data, errors, dataLog, errorLog);
        i := i + 1;
      }
      assert ts[i..] == [];
      return Pass, |ns|;
    }

    /** `monitor_new_tokens`: a failed `setup` ends it at once; otherwise the receive loop runs. */
    method MonitorNewTokens(setup: Outcome<Error>, ns: seq<Notification>) returns (r: Outcome<Error>, consumed: nat)
      modifies this
      ensures Run(dataLog, errorLog, r, consumed)
           == MonitorRun(parseSignature, setup, ns, old(dataLog), old(errorLog))
    {
      if setup.Fail? {
        return setup, 0;
      }
      TurnsComputesTurns(parseSignature, ns);
      r, consumed := ReceiveAll(ns, Turns(parseSignature, ns));
    }
  }
}
