/** scripts/flood_loki_with_errors.py: a load generator that fabricates
    request-completed log entries with error status codes and posts them to
    Loki in batches, grouping each batch into one stream per level.

    Random draws, the clock and `json.dumps` are parameters; a `Draws`
    value holds the outcome of every `random` call one entry makes. */
module FloodLoki {
  import opened Wrappers
  import opened Text
  import opened LokiPush
  import opened Seqs

  const Methods: seq<string> := ["GET", "POST", "PUT", "DELETE"]

  const Endpoints: seq<string> := [
    "/api/users", "/api/products", "/api/orders", "/api/payments", "/api/auth/login",
    "/api/auth/logout", "/api/search", "/api/settings", "/api/notifications", "/api/metrics"
  ]

  const ClientErrorCodes: seq<int> := [400, 401, 403, 404, 429]
  const ServerErrorCodes: seq<int> := [500, 501, 502, 503, 504]

  const LogFilename: string := "/var/log/api/api.log"

  /** One generated entry as `send_to_loki` consumes it. */
  datatype Entry = Entry(logLine: string, timestamp: nat, level: string, status: int)

  /** The fields of the JSON log line of one entry. */
  datatype LogData = LogData(
    requestId: string, httpMethod: string, path: string, statusCode: int,
    responseTimeMs: int, logger: string, level: string, timestamp: string, event: string)

  datatype Generated = Generated(data: LogData, entry: Entry)

  /** The outcomes of the `random` calls of one `generate_log_entry`: the
      indices `random.choice` picked and the integers `random.randint`
      returned. */
  datatype Draws = Draws(methodIndex: nat, pathIndex: nat, requestNumber: int, statusIndex: nat, responseTime: int)

  /** The status codes `generate_log_entry` chooses from. */
  function StatusCandidates(errorType: string): seq<int>
  {
    if errorType == "4xx" then ClientErrorCodes
    else if errorType == "5xx" then ServerErrorCodes
    else ClientErrorCodes + ServerErrorCodes
  }

  /** The ranges Python's `random` guarantees for each draw. */
  predicate ValidDraws(errorType: string, d: Draws)
  {
    && d.methodIndex < |Methods|
    && d.pathIndex < |Endpoints|
    && 100000 <= d.requestNumber <= 999999
    && d.statusIndex < |StatusCandidates(errorType)|
    && 50 <= d.responseTime <= 2000
  }

  /** `generate_log_entry(error_type)`; `nowNs` is `int(time.time() * 1e9)`,
      `isoNow` the formatted `datetime.now()` and `dumps` `json.dumps`. */
  function GenerateLogEntry(errorType: string, d: Draws, nowNs: nat, isoNow: string, dumps: LogData -> string): (g: Generated)
    requires ValidDraws(errorType, d)
    ensures errorType == "4xx" ==> g.entry.status in ClientErrorCodes && g.entry.level == "warning"
    ensures errorType == "5xx" ==> 500 <= g.entry.status <= 504 && g.entry.level == "error"
    ensures errorType != "4xx" && errorType != "5xx" ==>
      && g.entry.status in ClientErrorCodes + ServerErrorCodes
      && (g.entry.level == "error" <==> g.entry.status >= 500)
      && (g.entry.level == "warning" <==> g.entry.status < 500)
    ensures 50 <= g.data.responseTimeMs <= 2000
    ensures |g.data.requestId| == 10 && g.data.requestId[..4] == "req-" && AllDigits(g.data.requestId[4..])
    ensures DigitsValue(g.data.requestId[4..]) == d.requestNumber
    ensures g.data.httpMethod in Methods && g.data.path in Endpoints
    ensures g.data.statusCode == g.entry.status && g.data.level == g.entry.level
    ensures g.data.logger == "api" && g.data.event == "request_completed" && g.data.timestamp == isoNow
    ensures g.entry.logLine == dumps(g.data) && g.entry.timestamp == nowNs
  {
    var requestId := RequestId(d.requestNumber);
    var status := StatusCandidates(errorType)[d.statusIndex];
    var level := LevelFor(errorType, status);
    var data := LogData(requestId, Methods[d.methodIndex], Endpoints[d.pathIndex], status,
                        d.responseTime, "api", level, isoNow, "request_completed");
    Generated(data, Entry(dumps(data), nowNs, level, status))
  }

  /** `f"req-{random.randint(100000, 999999)}"`: the prefix and the six
      digits of the drawn number. */
  function RequestId(n: int): (id: string)
    requires 100000 <= n <= 999999
    ensures |id| == 10 && id[..4] == "req-" && AllDigits(id[4..]) && DigitsValue(id[4..]) == n
  {
    var digits := NatToString(n);
    NatToStringLength(n, 5);
    DigitsValueOfNatToString(n);
    var id := "req-" + digits;
    assert id[4..] == digits;
    id
  }

  /** The level of an entry: fixed by the error type for `4xx` and `5xx`,
      otherwise by the status drawn. */
  function LevelFor(errorType: string, status: int): (level: string)
    ensures errorType == "4xx" ==> level == "warning"
    ensures errorType == "5xx" ==> level == "error"
    ensures errorType != "4xx" && errorType != "5xx" ==>
      && (level == "error" <==> status >= 500)
      && (level == "warning" <==> status < 500)
  {
    if errorType == "4xx" then "warning"
    else if errorType == "5xx" then "error"
    else if status >= 500 then "error" else "warning"
  }

  // ---------------------------------------------------------------------
  // send_to_loki: one stream per distinct level.
  // ---------------------------------------------------------------------

  predicate NoDuplicates(xs: seq<string>)
  {
    forall i, j :: 0 <= i < j < |xs| ==> xs[i] != xs[j]
  }

  /** The distinct levels of `es`, in order of first appearance (the key
      order of `entries_by_level`). */
  function Levels(es: seq<Entry>): (ls: seq<string>)
    ensures NoDuplicates(ls)
    ensures forall k :: 0 <= k < |es| ==> es[k].level in ls
    ensures forall l :: l in ls ==> exists k :: 0 <= k < |es| && es[k].level == l
  {
    if es == [] then []
    else
      var prev := Levels(es[..|es| - 1]);
      var l := es[|es| - 1].level;
      if l in prev then prev else prev + [l]
  }

  /** The entries of `es` at `level`, in input order. */
  function EntriesAt(es: seq<Entry>, level: string): seq<Entry>
  {
    if es == [] then []
    else EntriesAt(es[..|es| - 1], level) + (if es[|es| - 1].level == level then [es[|es| - 1]] else [])
  }

  /** The Loki value of one entry: `[str(timestamp), log_line]`. */
  function ValueOf(e: Entry): Line
  {
    Line(NatToString(e.timestamp), e.logLine)
  }

  /** The values of a list of entries, in order. */
  function ValuesOf(es: seq<Entry>): (vs: seq<Line>)
    ensures |vs| == |es| && forall k :: 0 <= k < |es| ==> vs[k] == ValueOf(es[k])
  {
    if es == [] then [] else ValuesOf(es[..|es| - 1]) + [ValueOf(es[|es| - 1])]
  }

  /** The label map of the stream for `level`. */
  function StreamLabels(level: string): map<string, string>
  {
    map["job" := "api", "level" := level, "filename" := LogFilename]
  }

  function StreamFor(es: seq<Entry>, level: string): Stream
  {
    Stream(StreamLabels(level), ValuesOf(EntriesAt(es, level)))
  }

  /** The streams for `levels`, in that order. */
  function StreamsFor(es: seq<Entry>, levels: seq<string>): (ss: seq<Stream>)
    ensures |ss| == |levels| && forall k :: 0 <= k < |levels| ==> ss[k] == StreamFor(es, levels[k])
  {
    if levels == [] then [] else StreamsFor(es, levels[..|levels| - 1]) + [StreamFor(es, levels[|levels| - 1])]
  }

  /** The body `send_to_loki` posts for a batch. */
  function GroupedPayload(es: seq<Entry>): Payload
  {
    Payload(StreamsFor(es, Levels(es)))
  }

  /** The first loop of `send_to_loki`: `entries_by_level`, as the keys in
      insertion order and the dictionary itself. */
  method GroupByLevel(entries: seq<Entry>) returns (order: seq<string>, groups: map<string, seq<Entry>>)
    ensures order == Levels(entries)
    ensures forall l :: l in groups <==> l in order
    ensures forall l :: l in groups ==> groups[l] == EntriesAt(entries, l)
  {
    order := [];
    groups := map[];
    for i := 0 to |entries|
      invariant Grouped(entries[..i], order, groups)
    {
      var e := entries[i];
      var level := e.level;
      PrefixSnoc(entries, i);
      if level !in groups {
        GroupNew(entries[..i], e, order, groups);
        order := order + [level];
        groups := groups[level := []];
      } else {
        GroupKnown(entries[..i], e, order, groups);
      }
      groups := groups[level := groups[level] + [e]];
    }
    assert entries[..|entries|] == entries;
  }

  /** The loop invariant of `GroupByLevel`: `order` and `groups` are the
      grouping of `pre`. */
  ghost predicate Grouped(pre: seq<Entry>, order: seq<string>, groups: map<string, seq<Entry>>)
  {
    && order == Levels(pre)
    && (forall l :: l in groups <==> l in order)
    && (forall l :: l in groups ==> groups[l] == EntriesAt(pre, l))
  }

  /** A turn of the grouping loop on an entry whose level already has a
      group keeps the invariant. */
  lemma GroupKnown(pre: seq<Entry>, e: Entry, order: seq<string>, groups: map<string, seq<Entry>>)
    requires Grouped(pre, order, groups) && e.level in groups
    ensures Grouped(pre + [e], order, groups[e.level := groups[e.level] + [e]])
  {
    LevelsSnoc(pre, e);
    var g1 := groups[e.level := groups[e.level] + [e]];
    forall l | l in g1 ensures g1[l] == EntriesAt(pre + [e], l) {
      EntriesAtAppend(pre, e, l);
      if l != e.level {
        assert g1[l] == groups[l];
      }
    }
  }

  /** A turn on an entry of a new level appends the level and starts its
      group with `[]`, keeping the invariant. */
  lemma GroupNew(pre: seq<Entry>, e: Entry, order: seq<string>, groups: map<string, seq<Entry>>)
    requires Grouped(pre, order, groups) && e.level !in groups
    ensures Grouped(pre + [e], order + [e.level], groups[e.level := []][e.level := [] + [e]])
  {
    LevelsSnoc(pre, e);
    var g1 := groups[e.level := []][e.level := [] + [e]];
    forall l | l in g1 ensures g1[l] == EntriesAt(pre + [e], l) {
      EntriesAtAppend(pre, e, l);
      if l == e.level {
        EntriesAtAbsent(pre, l);
        assert g1[l] == [e];
      } else {
        assert g1[l] == groups[l];
      }
    }
    forall l ensures l in g1 <==> l in order + [e.level] {
      assert l in g1 <==> l in groups || l == e.level;
    }
  }

  lemma LevelsSnoc(pre: seq<Entry>, e: Entry)
    ensures Levels(pre + [e]) == if e.level in Levels(pre) then Levels(pre) else Levels(pre) + [e.level]
  {
    assert (pre + [e])[..|pre|] == pre;
  }

  /** `send_to_loki(log_entries)`; `post` is what `requests.post` ends in. */
  method SendToLoki(entries: seq<Entry>, post: PushOutcome) returns (payload: Payload, success: bool)
    ensures payload == GroupedPayload(entries)
    ensures success <==> post.Response? && post.statusCode < 400
  {
    var order, groups := GroupByLevel(entries);

    var streams: seq<Stream> := [];
    for j := 0 to |order|
      invariant streams == StreamsFor(entries, order[..j])
    {
      var level := order[j];
      StreamsForSnoc(entries, order, j);
      assert level in groups;
      streams := streams + [Stream(map["job" := "api", "level" := level, "filename" := LogFilename],
                                   ValuesOf(groups[level]))];
    }
    assert order[..|order|] == order;
    payload := Payload(streams);

    match post {
      case Response(code) => success := code < 400;
      case Raised(_) => success := false;
    }
  }

  lemma StreamsForSnoc(es: seq<Entry>, levels: seq<string>, j: nat)
    requires j < |levels|
    ensures StreamsFor(es, levels[..j + 1]) == StreamsFor(es, levels[..j]) + [StreamFor(es, levels[j])]
  {
    PrefixSnoc(levels, j);
    StreamsForAppend(es, levels[..j], levels[j]);
  }

  /** The position of the first entry at `level`. */
  function FirstIndex(es: seq<Entry>, level: string): (p: nat)
    requires level in Levels(es)
    ensures p < |es| && es[p].level == level
    ensures forall k :: 0 <= k < p ==> es[k].level != level
  {
    var init := es[..|es| - 1];
    var last := es[|es| - 1];
    assert es == init + [last];
    LevelsSnoc(init, last);
    if level in Levels(init) then FirstIndex(init, level)
    else
      assert forall k :: 0 <= k < |init| ==> init[k].level in Levels(init);
      |es| - 1
  }

  /** Streams come in order of the first appearance of their level. */
  lemma {:induction false} LevelsInFirstAppearanceOrder(es: seq<Entry>)
    ensures forall i, j :: 0 <= i < j < |Levels(es)| ==> FirstIndex(es, Levels(es)[i]) < FirstIndex(es, Levels(es)[j])
  {
    if es != [] {
      var init := es[..|es| - 1];
      LevelsInFirstAppearanceOrder(init);
      var ls := Levels(es);
      var prev := Levels(init);
      forall i, j | 0 <= i < j < |ls| ensures FirstIndex(es, ls[i]) < FirstIndex(es, ls[j]) {
        assert ls[i] in prev;
        assert FirstIndex(es, ls[i]) == FirstIndex(init, ls[i]);
        if j < |prev| {
          assert ls[j] == prev[j];
          assert FirstIndex(es, ls[j]) == FirstIndex(init, ls[j]);
        }
      }
    }
  }

  /** Every stream of a batch is labelled exactly `{job: "api", level,
      filename: "/var/log/api/api.log"}`, there is one per distinct level,
      and its values are `[str(timestamp), log_line]` of the batch's entries
      at that level, in input order. */
  lemma {:induction false} GroupedPayloadShape(es: seq<Entry>)
    ensures var p := GroupedPayload(es);
      && |p.streams| == |Levels(es)|
      && (forall k :: 0 <= k < |p.streams| ==>
            && p.streams[k].labels.Keys == {"job", "level", "filename"}
            && p.streams[k].labels["job"] == "api"
            && p.streams[k].labels["level"] == Levels(es)[k]
            && p.streams[k].labels["filename"] == LogFilename
            && p.streams[k].values == ValuesOf(EntriesAt(es, Levels(es)[k])))
      && (forall i, j :: 0 <= i < j < |p.streams| ==> p.streams[i].labels["level"] != p.streams[j].labels["level"])
  {
    var p := GroupedPayload(es);
    var ls := Levels(es);
    forall k | 0 <= k < |p.streams|
      ensures p.streams[k].labels == StreamLabels(ls[k])
      ensures p.streams[k].values == ValuesOf(EntriesAt(es, ls[k]))
    {
      assert p.streams[k] == StreamFor(es, ls[k]);
    }

    forall l ensures StreamLabels(l).Keys == {"job", "level", "filename"} && StreamLabels(l)["level"] == l {
      StreamLabelsShape(l);
    }
  }

  lemma StreamLabelsShape(l: string)
    ensures StreamLabels(l).Keys == {"job", "level", "filename"}
    ensures StreamLabels(l)["job"] == "api" && StreamLabels(l)["level"] == l
    ensures StreamLabels(l)["filename"] == LogFilename
  {
  }

  /** Every entry grouped under a level is an entry of the batch at that
      level. */
  lemma {:induction false} EntriesAtMembers(es: seq<Entry>, level: string)
    ensures forall e :: e in EntriesAt(es, level) ==> e in es && e.level == level
  {
    if es != [] {
      EntriesAtMembers(es[..|es| - 1], level);
    }
  }

  lemma {:induction false} EntriesAtAbsent(es: seq<Entry>, level: string)
    requires level !in Levels(es)
    ensures EntriesAt(es, level) == []
  {
    if es != [] {
      EntriesAtAbsent(es[..|es| - 1], level);
    }
  }

  /** All values of a list of streams, stream after stream. */
  function AllValues(ss: seq<Stream>): seq<Line>
  {
    if ss == [] then [] else AllValues(ss[..|ss| - 1]) + ss[|ss| - 1].values
  }

  lemma AllValuesAppend(ss: seq<Stream>, s: Stream)
    ensures AllValues(ss + [s]) == AllValues(ss) + s.values
  {
    assert (ss + [s])[..|ss|] == ss;
  }

  lemma ValuesOfAppend(es: seq<Entry>, e: Entry)
    ensures ValuesOf(es + [e]) == ValuesOf(es) + [ValueOf(e)]
  {
    assert (es + [e])[..|es|] == es;
  }

  lemma EntriesAtAppend(es: seq<Entry>, e: Entry, level: string)
    ensures EntriesAt(es + [e], level) == EntriesAt(es, level) + (if e.level == level then [e] else [])
  {
    assert (es + [e])[..|es|] == es;
  }

  lemma StreamsForAppend(es: seq<Entry>, levels: seq<string>, level: string)
    ensures StreamsFor(es, levels + [level]) == StreamsFor(es, levels) + [StreamFor(es, level)]
  {
    assert (levels + [level])[..|levels|] == levels;
  }

  /** The value of `e` as a multiset when its level is among `levels`. */
  function Hit(e: Entry, levels: seq<string>): multiset<Line>
  {
    if e.level in levels then multiset{ValueOf(e)} else multiset{}
  }

  lemma StreamForStep(es: seq<Entry>, e: Entry, level: string)
    ensures multiset(StreamFor(es + [e], level).values) == multiset(StreamFor(es, level).values) + Hit(e, [level])
  {
    EntriesAtAppend(es, e, level);
    var before := EntriesAt(es, level);
    if e.level == level {
      ValuesOfAppend(before, e);
      assert Hit(e, [level]) == multiset{ValueOf(e)};
    } else {
      assert EntriesAt(es + [e], level) == before + [] == before;
      assert Hit(e, [level]) == multiset{};
    }
  }

  lemma HitAppend(e: Entry, levels: seq<string>, level: string)
    requires level !in levels
    ensures Hit(e, levels + [level]) == Hit(e, levels) + Hit(e, [level])
  {
  }

  /** Adding one entry adds its value to the stream of its level, if that
      level is among `levels`, and to no other. */
  lemma {:induction false} AllValuesStep(es: seq<Entry>, e: Entry, levels: seq<string>)
    requires NoDuplicates(levels)
    ensures multiset(AllValues(StreamsFor(es + [e], levels))) == multiset(AllValues(StreamsFor(es, levels))) + Hit(e, levels)
  {
    if levels != [] {
      var init := levels[..|levels| - 1];
      var l := levels[|levels| - 1];
      assert levels == init + [l];
      NoDuplicatesInit(levels);
      AllValuesStep(es, e, init);
      AllValuesOfStreamsForAppend(es + [e], init, l);
      AllValuesOfStreamsForAppend(es, init, l);
      StreamForStep(es, e, l);
      HitAppend(e, init, l);
      RegroupUnion(multiset(AllValues(StreamsFor(es + [e], init))), multiset(AllValues(StreamsFor(es, init))),
                   multiset(StreamFor(es + [e], l).values), multiset(StreamFor(es, l).values),
                   Hit(e, init), Hit(e, [l]));
    }
  }

  lemma RegroupUnion<T>(a: multiset<T>, b: multiset<T>, c: multiset<T>, d: multiset<T>, h: multiset<T>, k: multiset<T>)
    requires a == b + h && c == d + k
    ensures a + c == (b + d) + (h + k)
  {
  }

  lemma NoDuplicatesInit(xs: seq<string>)
    requires NoDuplicates(xs) && xs != []
    ensures NoDuplicates(xs[..|xs| - 1]) && xs[|xs| - 1] !in xs[..|xs| - 1]
  {
  }

  lemma AllValuesOfStreamsForAppend(es: seq<Entry>, levels: seq<string>, l: string)
    ensures multiset(AllValues(StreamsFor(es, levels + [l])))
         == multiset(AllValues(StreamsFor(es, levels))) + multiset(StreamFor(es, l).values)
  {
    StreamsForAppend(es, levels, l);
    AllValuesAppend(StreamsFor(es, levels), StreamFor(es, l));
  }

  /** An entry at a level already present joins that level's stream. */
  lemma GroupedStepKnown(es: seq<Entry>, e: Entry)
    requires e.level in Levels(es)
    ensures multiset(AllValues(StreamsFor(es + [e], Levels(es + [e]))))
         == multiset(AllValues(StreamsFor(es, Levels(es)))) + multiset{ValueOf(e)}
  {
    LevelsSnoc(es, e);
    AllValuesStep(es, e, Levels(es));
  }

  /** An entry at a new level opens a stream of its own at the end. */
  lemma GroupedStepNew(es: seq<Entry>, e: Entry)
    requires e.level !in Levels(es)
    ensures multiset(AllValues(StreamsFor(es + [e], Levels(es + [e]))))
         == multiset(AllValues(StreamsFor(es, Levels(es)))) + multiset{ValueOf(e)}
  {
    var prev := Levels(es);
    LevelsSnoc(es, e);
    AllValuesStep(es, e, prev);
    assert Hit(e, prev) == multiset{};
    StreamsForAppend(es + [e], prev, e.level);
    AllValuesAppend(StreamsFor(es + [e], prev), StreamFor(es + [e], e.level));
    NewLevelStream(es, e);
  }

  /** The stream of a level that first appears with `e` holds just `e`. */
  lemma NewLevelStream(es: seq<Entry>, e: Entry)
    requires e.level !in Levels(es)
    ensures StreamFor(es + [e], e.level).values == [ValueOf(e)]
  {
    EntriesAtAbsent(es, e.level);
    EntriesAtAppend(es, e, e.level);
    assert EntriesAt(es + [e], e.level) == [e];
    assert ValuesOf([e]) == [ValueOf(e)];
  }

  /** The values across all streams of a batch are a permutation of the
      values of its entries: nothing is lost or duplicated by grouping. */
  lemma {:induction false} GroupedValuesArePermutation(es: seq<Entry>)
    ensures multiset(AllValues(GroupedPayload(es).streams)) == multiset(ValuesOf(es))
  {
    if es != [] {
      var init := es[..|es| - 1];
      var e := es[|es| - 1];
      assert es == init + [e];
      GroupedValuesArePermutation(init);
      ValuesOfAppend(init, e);
      if e.level in Levels(init) {
        GroupedStepKnown(init, e);
      } else {
        GroupedStepNew(init, e);
      }
    }
  }

  // ---------------------------------------------------------------------
  // main: the batch schedule.
  // ---------------------------------------------------------------------

  /** Python's `//` (rounds toward negative infinity). */
  function FloorDiv(n: int, b: int): (q: int)
    requires b != 0
    ensures b > 0 ==> b * q <= n < b * q + b
    ensures b < 0 ==> b * q >= n > b * q + b
  {
    if b > 0 then n / b else (-n) / (-b)
  }

  /** Python's `%` (takes the sign of the divisor). */
  function FloorMod(n: int, b: int): (r: int)
    requires b != 0
    ensures n == b * FloorDiv(n, b) + r
    ensures b > 0 ==> 0 <= r < b
    ensures b < 0 ==> b < r <= 0
  {
    n - b * FloorDiv(n, b)
  }

  function Max(a: int, b: int): int { if a >= b then a else b }

  /** One observable action of `main`. */
  datatype Step = Send(count: nat) | Sleep

  /** The sizes of the batches `main` sends: `n // b` full batches (each of
      `len(range(b))` entries), then the remainder if it is positive. */
  function BatchSizes(n: int, b: int): seq<nat>
    requires b != 0
  {
    Repeat(Max(FloorDiv(n, b), 0), Max(b, 0) as nat)
    + (if FloorMod(n, b) > 0 then [FloorMod(n, b) as nat] else [])
  }

  /** `k` copies of `x`. */
  function Repeat(k: nat, x: nat): (xs: seq<nat>)
    ensures |xs| == k && forall j :: 0 <= j < k ==> xs[j] == x
  {
    seq(k, _ => x)
  }

  /** Sends of `sizes`, with a sleep between consecutive sends and none
      after the last. */
  function Interleave(sizes: seq<nat>): (steps: seq<Step>)
    ensures |sizes| == 0 ==> steps == []
    ensures |sizes| > 0 ==> |steps| == 2 * |sizes| - 1
    ensures forall k :: 0 <= k < |steps| && k % 2 == 0 ==> steps[k] == Send(sizes[k / 2])
    ensures forall k :: 0 <= k < |steps| && k % 2 == 1 ==> steps[k] == Sleep
  {
    if |sizes| == 0 then []
    else if |sizes| == 1 then [Send(sizes[0])]
    else [Send(sizes[0]), Sleep] + Interleave(sizes[1..])
  }

  /** The steps of the first `i` turns of the main loop. */
  function LoopSteps(i: nat, batches: int, size: nat, remaining: int): seq<Step>
  {
    if i == 0 then []
    else LoopSteps(i - 1, batches, size, remaining) + [Send(size)]
         + (if i - 1 < batches - 1 || remaining > 0 then [Sleep] else [])
  }

  lemma {:induction false} LoopStepsInterleave(i: nat, k: nat, size: nat, tail: seq<nat>, remaining: int)
    requires i <= k
    requires tail == (if remaining > 0 then [remaining as nat] else [])
    ensures LoopSteps(i, k, size, remaining) + Interleave(Repeat(k - i, size) + tail)
            == Interleave(Repeat(k, size) + tail)
  {
    if i > 0 {
      LoopStepsInterleave(i - 1, k, size, tail, remaining);
      var rest := Repeat(k - i, size) + tail;
      assert Repeat(k - (i - 1), size) + tail == [size] + rest by {
        assert Repeat(k - (i - 1), size) == [size] + Repeat(k - i, size);
      }
      var sleep: seq<Step> := if i - 1 < k - 1 || remaining > 0 then [Sleep] else [];
      assert Interleave([size] + rest) == ([Send(size)] + sleep) + Interleave(rest) by {
        assert rest != [] <==> (i - 1 < k - 1 || remaining > 0);
        InterleaveCons(size, rest);
      }
      assert LoopSteps(i, k, size, remaining) == LoopSteps(i - 1, k, size, remaining) + ([Send(size)] + sleep) by {
        AppendAssoc(LoopSteps(i - 1, k, size, remaining), [Send(size)], sleep);
      }
      AppendAssoc(LoopSteps(i - 1, k, size, remaining), [Send(size)] + sleep, Interleave(rest));
    }
  }

  lemma InterleaveCons(x: nat, rest: seq<nat>)
    ensures Interleave([x] + rest) == [Send(x)] + (if rest != [] then [Sleep] else []) + Interleave(rest)
  {
    assert ([x] + rest)[1..] == rest;
  }

  /** `main`'s batch loop for `-n numEntries -b batchSize -i interval`: the
      sends and sleeps it performs and the exception that ends it, if any.
      A zero batch size raises ZeroDivisionError before anything is sent;
      `time.sleep` raises ValueError for a negative interval, so such a run
      stops at its first sleep, after the first send. */
  method RunFlood(numEntries: int, batchSize: int, interval: real) returns (steps: seq<Step>, raised: Option<string>)
    ensures batchSize == 0 ==> steps == [] && raised == Some("ZeroDivisionError")
    ensures batchSize != 0 && (interval >= 0.0 || Sleep !in Interleave(BatchSizes(numEntries, batchSize))) ==>
      steps == Interleave(BatchSizes(numEntries, batchSize)) && raised == None
    ensures batchSize != 0 && interval < 0.0 && Sleep in Interleave(BatchSizes(numEntries, batchSize)) ==>
      steps == Interleave(BatchSizes(numEntries, batchSize))[..1] && raised == Some("ValueError")
  {
    if batchSize == 0 {
      return [], Some("ZeroDivisionError");
    }
    var batches := FloorDiv(numEntries, batchSize);
    var remaining := FloorMod(numEntries, batchSize);
    var size: nat := Max(batchSize, 0);
    var k: nat := Max(batches, 0);
    var tail: seq<nat> := if remaining > 0 then [remaining as nat] else [];
    assert BatchSizes(numEntries, batchSize) == Repeat(k, size) + tail;
    steps := [];
    var i: nat := 0;
    while i < batches
      invariant batches >= 0 ==> i <= batches
      invariant batches < 0 ==> i == 0
      invariant steps == LoopSteps(i, batches, size, remaining)
      invariant interval < 0.0 && i > 0 ==> i == 1 && batches == 1 && remaining <= 0
    {
      steps := steps + [Send(size)];
      if i < batches - 1 || remaining > 0 {
        if interval < 0.0 {
          assert i == 0 && steps == [Send(size)];
          FirstSleep(k, size, tail);
          return steps, Some("ValueError");
        }
        steps := steps + [Sleep];
      }
      i := i + 1;
    }
    if remaining > 0 {
      steps := steps + [Send(remaining as nat)];
    }
    assert i == k;
    assert LoopSteps(i, batches, size, remaining) == LoopSteps(k, k, size, remaining);
    assert Interleave(tail) == if remaining > 0 then [Send(remaining as nat)] else [];
    LoopStepsInterleave(k, k, size, tail, remaining);
    assert Repeat(k - k, size) + tail == tail;
    assert steps == LoopSteps(k, k, size, remaining) + Interleave(tail);
    if interval < 0.0 {
      NoSleep(k, size, tail);
    }
    raised := None;
  }

  /** A plan of two or more batches starts with a send of the first batch
      and has a sleep. */
  lemma FirstSleep(k: nat, size: nat, tail: seq<nat>)
    requires k >= 1 && (k >= 2 || tail != [])
    ensures Sleep in Interleave(Repeat(k, size) + tail)
    ensures Interleave(Repeat(k, size) + tail)[..1] == [Send(size)]
  {
    var plan := Interleave(Repeat(k, size) + tail);
    assert plan[1] == Sleep;
    assert plan[0] == Send((Repeat(k, size) + tail)[0]);
  }

  /** A plan of at most one batch has no sleep. */
  lemma NoSleep(k: nat, size: nat, tail: seq<nat>)
    requires k + |tail| <= 1
    ensures Sleep !in Interleave(Repeat(k, size) + tail)
  {
    var plan := Interleave(Repeat(k, size) + tail);
    assert |plan| <= 1;
    if |plan| == 1 {
      assert plan[0] == Send((Repeat(k, size) + tail)[0]);
    }
  }

  function Sum(xs: seq<nat>): nat
  {
    if xs == [] then 0 else Sum(xs[..|xs| - 1]) + xs[|xs| - 1]
  }

  lemma {:induction false} SumRepeat(k: nat, b: nat)
    ensures Sum(Repeat(k, b)) == k * b
  {
    if k > 0 {
      SumRepeat(k - 1, b);
      assert Repeat(k, b)[..k - 1] == Repeat(k - 1, b);
    }
  }

  lemma {:induction false} SumAppend(xs: seq<nat>, ys: seq<nat>)
    ensures Sum(xs + ys) == Sum(xs) + Sum(ys)
  {
    if ys != [] {
      SumAppend(xs, ys[..|ys| - 1]);
      assert (xs + ys)[..|xs + ys| - 1] == xs + ys[..|ys| - 1];
    } else {
      assert xs + ys == xs;
    }
  }

  /** For `n >= 0` entries and batch size `b > 0`: `n // b` full batches of
      `b`, then one batch of `n % b` exactly when that is positive; every
      batch is non-empty and at most `b`, and all `n` entries are sent. */
  lemma BatchPlan(n: nat, b: nat)
    requires b > 0
    ensures var sizes := BatchSizes(n, b);
      && |sizes| == n / b + (if n % b > 0 then 1 else 0)
      && (forall k :: 0 <= k < n / b ==> sizes[k] == b)
      && (n % b > 0 ==> sizes[|sizes| - 1] == n % b)
      && (forall k :: 0 <= k < |sizes| ==> 1 <= sizes[k] <= b)
      && Sum(sizes) == n
  {
    var q := n / b;
    var r := n % b;
    var full := Repeat(q, b);
    var tail: seq<nat> := if r > 0 then [r] else [];
    FloorOfNatural(n, b);
    assert BatchSizes(n, b) == full + tail;
    SumRepeat(q, b);
    SumAppend(full, tail);
    assert Sum(tail) == r by {
      if r > 0 { assert tail[..0] == []; }
    }
  }

  /** On a natural dividend and a positive divisor, Python's `//` and `%`
      agree with Dafny's. */
  lemma FloorOfNatural(n: nat, b: nat)
    requires b > 0
    ensures FloorDiv(n, b) == n / b && FloorMod(n, b) == n % b
    ensures n / b * b + n % b == n
  {
  }
}
