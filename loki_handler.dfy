/** The Loki log handler of app/monitoring/logging.py: every emitted record is
    turned into a one-stream push body and appended to an in-memory buffer;
    when the buffer reaches 100 bodies it is flushed inline, as one push that
    carries all buffered streams in order, and then emptied whatever the
    push's outcome was.

    The record's rendering (`self.format(record)` followed by `json.loads` and
    `json.dumps`) is opaque here: a record arrives either as a decoded JSON
    object together with its re-serialised line, or as a rendering failure. */
module LokiLogging {
  import opened Text
  import opened Json
  import opened LokiPush

  /** The buffer size that triggers a flush (`max_buffer_size`). */
  const MaxBufferSize: nat := 100

  /** The keys copied from the decoded record into the labels when present. */
  const AllowList: seq<string> := ["request_id", "method", "path", "status_code", "client_ip", "user_id"]

  /** The labels every stream carries. */
  const BaseLabelKeys: set<string> := {"level", "logger", "application"}

  /** The outcome of rendering a record: the decoded object and the line
      `json.dumps` makes of it, or the exception that rendering raised. */
  datatype Formatted = JsonObject(entry: Object, line: string) | Unformattable(error: string)

  /** A `logging.LogRecord`: level name, logger name, creation time already
      converted to whole nanoseconds, and the rendering outcome. */
  datatype LogRecord = LogRecord(levelName: string, name: string, createdNs: nat, formatted: Formatted)

  /** What a flush ends in; the handler prints a diagnostic for the last two. */
  datatype FlushResult = NothingPending | Delivered | Rejected(statusCode: int) | TransportFailed(error: string)

  function BaseLabels(levelName: string, name: string): map<string, string>
  {
    map["level" := Lower(levelName), "logger" := name, "application" := "api"]
  }

  /** The labels taken from the allow-listed `keys` that are present in
      `entry`, each value stringified. */
  function AllowedLabels(keys: seq<string>, entry: Object): (labels: map<string, string>)
    ensures labels.Keys == set k | k in keys && k in entry
    ensures forall k :: k in labels ==> labels[k] == PyStr(entry[k])
  {
    if keys == [] then map[]
    else
      var prev := AllowedLabels(keys[..|keys| - 1], entry);
      var key := keys[|keys| - 1];
      if key in entry then prev[key := PyStr(entry[key])] else prev
  }

  /** The label map of one record. */
  function Labels(levelName: string, name: string, entry: Object): map<string, string>
  {
    BaseLabels(levelName, name) + AllowedLabels(AllowList, entry)
  }

  /** The labels always hold `level` (the lower-cased level name), `logger`
      and `application = "api"`; every other key comes from the allow-list
      and is present exactly when the decoded record has it, with its value
      stringified. A key absent from the record is never added. */
  lemma LabelsContents(levelName: string, name: string, entry: Object)
    ensures Labels(levelName, name, entry).Keys == BaseLabelKeys + (set k | k in AllowList && k in entry)
    ensures var labels := Labels(levelName, name, entry);
            labels["level"] == Lower(levelName) && labels["logger"] == name && labels["application"] == "api"
    ensures forall k :: k in AllowList && k in entry ==> Labels(levelName, name, entry)[k] == PyStr(entry[k])
  {
    var base := BaseLabels(levelName, name);
    var allowed := AllowedLabels(AllowList, entry);
    assert base.Keys == BaseLabelKeys;
    assert "level" !in AllowList && "logger" !in AllowList && "application" !in AllowList;
    assert "level" !in allowed && "logger" !in allowed && "application" !in allowed;
    assert (base + allowed).Keys == base.Keys + allowed.Keys;
  }

  lemma AllowedLabelsPrefix(keys: seq<string>, i: nat, entry: Object)
    requires i < |keys|
    ensures AllowedLabels(keys[..i + 1], entry)
            == if keys[i] in entry then AllowedLabels(keys[..i], entry)[keys[i] := PyStr(entry[keys[i]])]
               else AllowedLabels(keys[..i], entry)
  {
    assert keys[..i + 1][..i] == keys[..i];
  }

  lemma UnionUpdate(a: map<string, string>, b: map<string, string>, k: string, v: string)
    ensures (a + b)[k := v] == a + b[k := v]
  {
  }

  /** The label-building loop of `emit`. */
  method BuildLabels(levelName: string, name: string, entry: Object) returns (labels: map<string, string>)
    ensures labels == Labels(levelName, name, entry)
  {
    labels := BaseLabels(levelName, name);
    ghost var base := labels;
    for i := 0 to |AllowList|
      invariant labels == base + AllowedLabels(AllowList[..i], entry)
    {
      var key := AllowList[i];
      AllowedLabelsPrefix(AllowList, i, entry);
      if key in entry {
        UnionUpdate(base, AllowedLabels(AllowList[..i], entry), key, PyStr(entry[key]));
        labels := labels[key := PyStr(entry[key])];
      }
    }
    assert AllowList[..|AllowList|] == AllowList;
  }

  /** The push body `emit` buffers for a rendered record: one stream holding
      the one value `[str(ts_ns), line]`. */
  function RecordPayload(r: LogRecord): (p: Payload)
    requires r.formatted.JsonObject?
    ensures |p.streams| == 1 && |p.streams[0].values| == 1
    ensures p.streams[0].values[0].timestamp == NatToString(r.createdNs)
    ensures p.streams[0].values[0].text == r.formatted.line
  {
    Payload([Stream(Labels(r.levelName, r.name, r.formatted.entry), [Line(NatToString(r.createdNs), r.formatted.line)])])
  }

  /** How the outcome of a push is reported. */
  function Classify(outcome: PushOutcome): (r: FlushResult)
    ensures r.Delivered? <==> outcome.Response? && outcome.statusCode < 400
    ensures r.Rejected? <==> outcome.Response? && outcome.statusCode >= 400
    ensures r.TransportFailed? <==> outcome.Raised?
  {
    match outcome
    case Response(code) => if code >= 400 then Rejected(code) else Delivered
    case Raised(e) => TransportFailed(e)
  }

  // ---------------------------------------------------------------------
  // The handler as a value: its buffer and the pushes it has made so far.
  // ---------------------------------------------------------------------

  datatype Shipper = Shipper(buffer: seq<Payload>, pushed: seq<Payload>)

  const Fresh: Shipper := Shipper([], [])

  /** Between calls the buffer is below the threshold and holds one-stream
      bodies only. */
  predicate Accumulating(s: Shipper)
  {
    |s.buffer| < MaxBufferSize && forall k :: 0 <= k < |s.buffer| ==> |s.buffer[k].streams| == 1
  }

  /** `flush`: nothing when the buffer is empty; otherwise one push of all
      buffered streams in buffer order, and an empty buffer afterwards.
      The outcome of the push plays no part. */
  function FlushStep(s: Shipper): (s': Shipper)
    ensures s'.buffer == []
    ensures s.buffer == [] ==> s' == s
    ensures s.buffer != [] ==> s'.pushed == s.pushed + [Payload(Concat(s.buffer))]
  {
    if s.buffer == [] then s else Shipper([], s.pushed + [Payload(Concat(s.buffer))])
  }

  /** `emit`: a record that cannot be rendered leaves everything unchanged;
      otherwise its body is appended and, at the threshold, flushed. */
  function EmitStep(s: Shipper, r: LogRecord): (s': Shipper)
    ensures r.formatted.Unformattable? ==> s' == s
    ensures Accumulating(s) ==> Accumulating(s')
    ensures |s'.pushed| <= |s.pushed| + 1
  {
    match r.formatted
    case Unformattable(_) => s
    case JsonObject(_, _) =>
      var b := s.buffer + [RecordPayload(r)];
      if |b| >= MaxBufferSize then FlushStep(Shipper(b, s.pushed)) else Shipper(b, s.pushed)
  }

  /** A run of `emit` calls, in order. */
  function EmitAll(s: Shipper, rs: seq<LogRecord>): Shipper
  {
    if rs == [] then s else EmitStep(EmitAll(s, rs[..|rs| - 1]), rs[|rs| - 1])
  }

  /** The streams a run of records contributes: one per rendered record. */
  function RecordStreams(rs: seq<LogRecord>): seq<Stream>
  {
    if rs == [] then []
    else
      var r := rs[|rs| - 1];
      RecordStreams(rs[..|rs| - 1]) + (if r.formatted.JsonObject? then RecordPayload(r).streams else [])
  }

  /** Everything handed to the sink so far followed by what is still
      buffered. */
  function Shipped(s: Shipper): seq<Stream>
  {
    Concat(s.pushed) + Concat(s.buffer)
  }

  /** One `emit` neither loses nor reorders streams: the pushed-then-pending
      streams grow by exactly the record's stream. */
  lemma EmitStepShipped(s: Shipper, r: LogRecord)
    ensures Shipped(EmitStep(s, r)) == Shipped(s) + (if r.formatted.JsonObject? then RecordPayload(r).streams else [])
  {
    if r.formatted.JsonObject? {
      var p := RecordPayload(r);
      var b := s.buffer + [p];
      BufferAppendShipped(s, p);
      if |b| >= MaxBufferSize {
        FlushStepShipped(Shipper(b, s.pushed));
      }
    }
  }

  /** Buffering a body adds its streams after everything shipped so far. */
  lemma BufferAppendShipped(s: Shipper, p: Payload)
    ensures Shipped(Shipper(s.buffer + [p], s.pushed)) == Shipped(s) + p.streams
  {
    ConcatAppend(s.buffer, [p]);
    assert Concat([p]) == p.streams by { assert [p][..0] == []; }
  }

  /** A flush moves the buffered streams to the pushed ones, in order. */
  lemma FlushStepShipped(s: Shipper)
    ensures Shipped(FlushStep(s)) == Shipped(s)
  {
    if s.buffer != [] {
      var q := Payload(Concat(s.buffer));
      ConcatAppend(s.pushed, [q]);
      assert Concat([q]) == Concat(s.buffer) by { assert [q][..0] == []; }
    }
  }

  /** Over any run of `emit` calls, the streams pushed and pending are the
      earlier ones followed by one stream per rendered record, in emit
      order: no record is lost, duplicated or reordered. */
  lemma {:induction false} EmitAllShipped(s: Shipper, rs: seq<LogRecord>)
    ensures Shipped(EmitAll(s, rs)) == Shipped(s) + RecordStreams(rs)
  {
    if rs != [] {
      EmitAllShipped(s, rs[..|rs| - 1]);
      EmitStepShipped(EmitAll(s, rs[..|rs| - 1]), rs[|rs| - 1]);
    }
  }

  /** Every push made by `emit` carries exactly `MaxBufferSize` streams, and
      the buffer stays below the threshold. */
  lemma {:induction false} EmitAllPushesFullBatches(s: Shipper, rs: seq<LogRecord>)
    requires Accumulating(s)
    ensures Accumulating(EmitAll(s, rs))
    ensures |EmitAll(s, rs).pushed| >= |s.pushed| && EmitAll(s, rs).pushed[..|s.pushed|] == s.pushed
    ensures forall k :: |s.pushed| <= k < |EmitAll(s, rs).pushed| ==> |EmitAll(s, rs).pushed[k].streams| == MaxBufferSize
  {
    if rs != [] {
      var mid := EmitAll(s, rs[..|rs| - 1]);
      EmitAllPushesFullBatches(s, rs[..|rs| - 1]);
      EmitStepPushesFullBatch(mid, rs[|rs| - 1]);
    }
  }

  /** One `emit` keeps the earlier pushes and adds at most one, of exactly
      `MaxBufferSize` streams. */
  lemma EmitStepPushesFullBatch(s: Shipper, r: LogRecord)
    requires Accumulating(s)
    ensures var s' := EmitStep(s, r);
      && |s'.pushed| >= |s.pushed| && s'.pushed[..|s.pushed|] == s.pushed
      && forall k :: |s.pushed| <= k < |s'.pushed| ==> |s'.pushed[k].streams| == MaxBufferSize
  {
    if r.formatted.JsonObject? {
      var b := s.buffer + [RecordPayload(r)];
      if |b| >= MaxBufferSize {
        ConcatSingles(b);
        assert (s.pushed + [Payload(Concat(b))])[..|s.pushed|] == s.pushed;
      }
    }
  }

  predicate AllRendered(rs: seq<LogRecord>)
  {
    forall k :: 0 <= k < |rs| ==> rs[k].formatted.JsonObject?
  }

  /** Fewer than 100 rendered records from a new handler: all of them are
      buffered, in order, and nothing has been pushed. */
  lemma {:induction false} EmitsBelowThreshold(rs: seq<LogRecord>)
    requires AllRendered(rs) && |rs| < MaxBufferSize
    ensures EmitAll(Fresh, rs).pushed == []
    ensures |EmitAll(Fresh, rs).buffer| == |rs|
    ensures forall k :: 0 <= k < |rs| ==> EmitAll(Fresh, rs).buffer[k] == RecordPayload(rs[k])
  {
    if rs != [] {
      var init := rs[..|rs| - 1];
      EmitsBelowThreshold(init);
      var mid := EmitAll(Fresh, init);
      var b := mid.buffer + [RecordPayload(rs[|rs| - 1])];
      var after := EmitAll(Fresh, rs);
      assert after == EmitStep(mid, rs[|rs| - 1]) == Shipper(b, []);
      forall k | 0 <= k < |rs| ensures after.buffer[k] == RecordPayload(rs[k]) {
        if k < |init| {
          assert init[k] == rs[k];
          assert after.buffer[k] == mid.buffer[k];
        }
      }
    }
  }

  /** The 100th rendered record from a new handler triggers exactly one push
      carrying the 100 streams in emit order, after which the buffer is
      empty. */
  lemma HundredthEmitFlushes(rs: seq<LogRecord>)
    requires AllRendered(rs) && |rs| == MaxBufferSize
    ensures EmitAll(Fresh, rs).buffer == []
    ensures |EmitAll(Fresh, rs).pushed| == 1
    ensures |EmitAll(Fresh, rs).pushed[0].streams| == MaxBufferSize
    ensures forall k :: 0 <= k < |rs| ==> EmitAll(Fresh, rs).pushed[0].streams[k] == RecordPayload(rs[k]).streams[0]
  {
    var init := rs[..|rs| - 1];
    var last := rs[|rs| - 1];
    var mid := EmitAll(Fresh, init);
    var b := mid.buffer + [RecordPayload(last)];
    assert AllRendered(init) by {
      forall k | 0 <= k < |init| ensures init[k].formatted.JsonObject? { assert init[k] == rs[k]; }
    }
    EmitsBelowThreshold(init);
    assert forall k :: 0 <= k < |rs| ==> b[k] == RecordPayload(rs[k]) by {
      forall k | 0 <= k < |rs| ensures b[k] == RecordPayload(rs[k]) {
        if k < |init| {
          assert init[k] == rs[k];
        }
      }
    }
    assert EmitAll(Fresh, rs) == Shipper([], [Payload(Concat(b))]) by {
      assert EmitAll(Fresh, rs) == EmitStep(mid, last);
    }
    ConcatSingles(b);
  }

  // ---------------------------------------------------------------------
  // The handler object.
  // ---------------------------------------------------------------------

  class LokiHandler {
    const host: string
    const port: string
    const url: string
    const maxBufferSize: nat := MaxBufferSize
    /** The pending push bodies (`self.buffer`). */
    var buffer: seq<Payload>
    /** Every body posted to the sink, in order: the network side effect. */
    var pushLog: seq<Payload>

    ghost predicate Valid()
      reads this
    {
      Accumulating(State())
    }

    function State(): Shipper
      reads this
    {
      Shipper(buffer, pushLog)
    }

    /** A new handler: empty buffer, threshold 100, the push URL of the
        given host and port. */
    constructor (host: string, port: string)
      ensures Valid()
      ensures buffer == [] && pushLog == [] && maxBufferSize == 100
      ensures this.host == host && this.port == port && url == PushUrl(host, port)
    {
      this.host := host;
      this.port := port;
      url := PushUrl(host, port);
      buffer := [];
      pushLog := [];
    }

    /** `emit`; `sink` is what the push would end in should this call flush. */
    method Emit(record: LogRecord, sink: PushOutcome)
      requires Valid()
      modifies this
      ensures Valid()
      ensures State() == EmitStep(old(State()), record)
    {
      match record.formatted
      case Unformattable(_) =>
        // the exception is caught and printed; the record is dropped
      case JsonObject(entry, line) =>
        var labels := BuildLabels(record.levelName, record.name, entry);
        var payload := Payload([Stream(labels, [Line(NatToString(record.createdNs), line)])]);
        buffer := buffer + [payload];
        if |buffer| >= maxBufferSize {
          var _ := Flush(sink);
        }
    }

    /** `flush`; `sink` is what the push ends in. The buffer is emptied
        whatever that outcome is, and the push is never retried. */
    method Flush(sink: PushOutcome) returns (result: FlushResult)
      modifies this
      ensures State() == FlushStep(old(State()))
      ensures result == if old(buffer) == [] then NothingPending else Classify(sink)
    {
      if buffer == [] {
        return NothingPending;
      }
      var combined: seq<Stream> := [];
      for i := 0 to |buffer|
        invariant combined == Concat(buffer[..i])
      {
        assert buffer[..i + 1][..i] == buffer[..i];
        combined := combined + buffer[i].streams;
      }
      assert buffer[..|buffer|] == buffer;
      pushLog := pushLog + [Payload(combined)];
      result := Classify(sink);
      buffer := [];
    }
  }
}
