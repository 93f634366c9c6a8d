/** The body of a Grafana Loki push request (`POST /loki/api/v1/push`):
    `{"streams": [{"stream": {label: value, ...}, "values": [[ts_ns, line], ...]}, ...]}`,
    and the outcomes a push can have. Shared by the log handler and the
    flood script, which both post this shape. */
module LokiPush {

  /** One `[ts_ns, line]` pair: the nanosecond timestamp as decimal text and
      the raw log line. */
  datatype Line = Line(timestamp: string, text: string)

  /** One entry of `streams`: the label map (`stream`) and its `values`. */
  datatype Stream = Stream(labels: map<string, string>, values: seq<Line>)

  /** A push body. */
  datatype Payload = Payload(streams: seq<Stream>)

  /** What a `requests.post` to the sink ends in: an HTTP response with its
      status code, or an exception raised before any response. */
  datatype PushOutcome = Response(statusCode: int) | Raised(error: string)

  const PushPath: string := "/loki/api/v1/push"

  /** `f"http://{host}:{port}/loki/api/v1/push"`. */
  function PushUrl(host: string, port: string): (url: string)
    ensures |url| == 8 + |host| + |port| + |PushPath|
    ensures url[..7] == "http://"
    ensures url[7..7 + |host|] == host
    ensures url[7 + |host|] == ':'
    ensures url[8 + |host|..8 + |host| + |port|] == port
    ensures url[8 + |host| + |port|..] == PushPath
  {
    var a := "http://" + host;
    var b := a + ":" + port;
    assert a[7..] == host;
    assert b[8 + |host|..] == port;
    b + PushPath
  }

  /** The streams of several payloads, one after another, in payload order. */
  function Concat(ps: seq<Payload>): seq<Stream>
  {
    if ps == [] then [] else Concat(ps[..|ps| - 1]) + ps[|ps| - 1].streams
  }

  lemma {:induction false} ConcatAppend(a: seq<Payload>, b: seq<Payload>)
    ensures Concat(a + b) == Concat(a) + Concat(b)
  {
    if b != [] {
      ConcatAppend(a, b[..|b| - 1]);
      assert (a + b)[..|a + b| - 1] == a + b[..|b| - 1];
    } else {
      assert a + b == a;
    }
  }

  /** Payloads of one stream each concatenate to one stream per payload,
      in the same order. */
  lemma {:induction false} ConcatSingles(ps: seq<Payload>)
    requires forall k :: 0 <= k < |ps| ==> |ps[k].streams| == 1
    ensures |Concat(ps)| == |ps|
    ensures forall k :: 0 <= k < |ps| ==> Concat(ps)[k] == ps[k].streams[0]
  {
    if ps != [] {
      ConcatSingles(ps[..|ps| - 1]);
    }
  }
}
