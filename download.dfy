/**
 * `download_model`: the resumable, progress-reporting fetch of the model
 * file. The server is a record of its replies, the model file on disk is its
 * bytes (absent or present), and the `download-progress` events are a sequence.
 */
module Download {
  import opened Common

  type Byte = b: int | 0 <= b < 256

  /** The payload of a `download-progress` event. */
  datatype Progress = Progress(downloaded: nat, total: nat)

  /** The HTTP requests the engine sends, in order. */
  datatype Request =
    | Head                            // size probe by HEAD
    | SizeCheck                       // fallback GET whose Content-Length is read
    | Fetch(range: Option<string>)    // the content GET, with its Range header if any

  /** The reply to the content GET: its status and its body as chunks, ending early with an error or not. */
  datatype Response = Response(status: nat, chunks: seq<seq<Byte>>, streamError: Option<string>)

  /**
   * The server as seen by one download: each request either fails at the
   * transport level (Err) or is answered; HEAD and the fallback GET only
   * contribute their Content-Length.
   */
  datatype Server = Server(
    head: Result<Option<nat>, string>,
    sizeCheck: Result<Option<nat>, string>,
    fetch: Result<Response, string>)

  datatype DownloadError =
    | HeadFailed(cause: string)        // "HEAD request failed: …"
    | SizeCheckFailed(cause: string)   // "GET (size check) failed: …"
    | SizeUnknown                      // "Could not determine model size from server"
    | FetchFailed(cause: string)       // "Download stream failed: …"
    | BadStatus(status: nat)           // "Server returned error: …"
    | StreamFailed(cause: string)      // an error item in the body stream

  const PARTIAL_CONTENT: nat := 206

  predicate IsSuccess(status: nat) {
    200 <= status < 300
  }

  /** `content_length().unwrap_or(0)`. */
  function LengthOrZero(len: Option<nat>): nat {
    match len
    case Some(n) => n
    case None => 0
  }

  /**
   * The total size the engine settles on: HEAD's Content-Length when it is
   * non-zero, else the fallback GET's, and an error when both are zero or absent.
   */
  function TotalSize(server: Server): (r: Result<nat, DownloadError>)
    ensures r.Ok? ==> r.value > 0
    ensures server.head.Err? ==> r == Err(HeadFailed(server.head.error))
    ensures server.head.Ok? && LengthOrZero(server.head.value) > 0 ==> r == Ok(server.head.value.value)
    ensures server.head.Ok? && LengthOrZero(server.head.value) == 0 ==>
      r == (match server.sizeCheck
            case Err(e) => Err(SizeCheckFailed(e))
            case Ok(len) => if LengthOrZero(len) == 0 then Err(SizeUnknown) else Ok(len.value))
    ensures r == Err(SizeUnknown) <==>
      && server.head.Ok? && LengthOrZero(server.head.value) == 0
      && server.sizeCheck.Ok? && LengthOrZero(server.sizeCheck.value) == 0
  {
    match server.head
    case Err(e) => Err(HeadFailed(e))
    case Ok(headLen) =>
      if LengthOrZero(headLen) > 0 then Ok(LengthOrZero(headLen))
      else
        match server.sizeCheck
        case Err(e) => Err(SizeCheckFailed(e))
        case Ok(getLen) =>
          if LengthOrZero(getLen) > 0 then Ok(LengthOrZero(getLen)) else Err(SizeUnknown)
  }

  /** The resume offset: the length of the partial file, 0 when there is none. */
  function Offset(existing: Option<seq<Byte>>): nat {
    match existing
    case Some(bytes) => |bytes|
    case None => 0
  }

  /** The Range header of the content GET: `bytes={d}-`, sent only when the offset is positive. */
  function RangeFor(d: nat): (h: Option<string>)
    ensures h.Some? <==> d > 0
    ensures h.Some? ==> |h.value| > 7 && h.value[..6] == "bytes=" && h.value[|h.value| - 1] == '-'
    ensures h.Some? ==> var digits := h.value[6..|h.value| - 1]; AllDigits(digits) && DigitsValue(digits) == d
  {
    if d > 0 then
      var h := "bytes=" + Decimal(d) + "-";
      assert h[6..|h| - 1] == Decimal(d);
      DecimalRoundTrip(d);
      Some(h)
    else None
  }

  /** The server ignored the Range of a resumed download, so the engine starts over. */
  predicate Restarts(d: nat, status: nat) {
    d > 0 && status != PARTIAL_CONTENT
  }

  /** All bytes of the chunks, in order. */
  function Concat(chunks: seq<seq<Byte>>): seq<Byte>
    decreases |chunks|
  {
    if chunks == [] then [] else Concat(chunks[..|chunks| - 1]) + chunks[|chunks| - 1]
  }

  /** Whether the 200 ms throttle lets an event out after chunk `i`. */
  predicate Tick(throttle: seq<bool>, i: nat) {
    i < |throttle| && throttle[i]
  }

  /**
   * The events emitted while streaming from counter `start`: after each
   * chunk the throttle lets through, the counter advanced by every chunk so far.
   */
  function StreamEvents(start: nat, chunks: seq<seq<Byte>>, throttle: seq<bool>, total: nat): (ev: seq<Progress>)
    ensures |ev| <= |chunks|
    ensures forall i :: 0 <= i < |ev| ==>
      ev[i].total == total && start <= ev[i].downloaded <= start + |Concat(chunks)|
    decreases |chunks|
  {
    if chunks == [] then []
    else
      var n := |chunks| - 1;
      StreamEvents(start, chunks[..n], throttle, total)
        + (if Tick(throttle, n) then [Progress(start + |Concat(chunks)|, total)] else [])
  }

  /** The `downloaded` values never decrease along the sequence. */
  predicate NonDecreasing(ev: seq<Progress>) {
    forall i :: 0 < i < |ev| ==> ev[i - 1].downloaded <= ev[i].downloaded
  }

  lemma {:induction false} StreamEventsNonDecreasing(start: nat, chunks: seq<seq<Byte>>, throttle: seq<bool>, total: nat)
    ensures NonDecreasing(StreamEvents(start, chunks, throttle, total))
    decreases |chunks|
  {
    if chunks != [] {
      var n := |chunks| - 1;
      StreamEventsNonDecreasing(start, chunks[..n], throttle, total);
    }
  }

  /**
   * A transfer whose body carries no more than the missing `total - d` bytes
   * reports a baseline `(d, total)`, then never-decreasing counts that stay
   * within `total`, then `(total, total)`. Only a longer body pushes the
   * counts past the total.
   */
  lemma CompleteTransferProgress(d: nat, total: nat, chunks: seq<seq<Byte>>, throttle: seq<bool>)
    requires d + |Concat(chunks)| <= total
    ensures var ev := [Progress(d, total)] + StreamEvents(d, chunks, throttle, total) + [Progress(total, total)];
      && NonDecreasing(ev)
      && forall i :: 0 <= i < |ev| ==> ev[i].total == total && d <= ev[i].downloaded <= total
  {
    var mid := StreamEvents(d, chunks, throttle, total);
    StreamEventsNonDecreasing(d, chunks, throttle, total);
    var ev := [Progress(d, total)] + mid + [Progress(total, total)];
    forall i | 0 < i < |ev| ensures ev[i - 1].downloaded <= ev[i].downloaded {
      if 1 < i < |ev| - 1 {
        assert ev[i - 1] == mid[i - 2] && ev[i] == mid[i - 1];
      } else if i == 1 && |mid| > 0 {
        assert ev[i] == mid[0];
      } else if i == |ev| - 1 && |mid| > 0 {
        assert ev[i - 1] == mid[|mid| - 1];
      }
    }
    forall i | 0 <= i < |ev| ensures ev[i].total == total && d <= ev[i].downloaded <= total {
      if 0 < i < |ev| - 1 {
        assert ev[i] == mid[i - 1];
      }
    }
  }

  /** The state of the model file before any content arrives: the partial file, or a newly created empty one. */
  function Opened(existing: Option<seq<Byte>>): seq<Byte> {
    match existing
    case Some(bytes) => bytes
    case None => []
  }

  /** The file the body is appended to: the partial file, or empty after a restart. */
  function Base(existing: Option<seq<Byte>>, status: nat): seq<Byte> {
    if Restarts(Offset(existing), status) then [] else Opened(existing)
  }

  /** The download reaches the content GET: the size is known and the file is not already complete. */
  predicate Fetches(existing: Option<seq<Byte>>, server: Server) {
    TotalSize(server).Ok? && Offset(existing) < TotalSize(server).value
  }

  /**
   * The streaming loop of `download_model`: each chunk is appended to the
   * file and advances the counter by its length; after a chunk the throttle
   * lets through, the current count is emitted.
   */
  method StreamBody(partial: seq<Byte>, chunks: seq<seq<Byte>>, throttle: seq<bool>, total: nat)
    returns (contents: seq<Byte>, emitted: seq<Progress>)
    ensures contents == partial + Concat(chunks)
    ensures emitted == StreamEvents(|partial|, chunks, throttle, total)
  {
    contents := partial;
    emitted := [];
    var downloaded := |partial|;
    var i := 0;
    while i < |chunks|
      invariant 0 <= i <= |chunks|
      invariant contents == partial + Concat(chunks[..i])
      invariant downloaded == |contents|
      invariant emitted == StreamEvents(|partial|, chunks[..i], throttle, total)
    {
      var chunk := chunks[i];
      contents := contents + chunk;
      downloaded := downloaded + |chunk|;
      assert chunks[..i + 1][..i] == chunks[..i];
      if Tick(throttle, i) {
        emitted := emitted + [Progress(downloaded, total)];
      }
      i := i + 1;
    }
    assert chunks[..i] == chunks;
  }

  /** The requests of the size probe: HEAD, then the fallback GET only when HEAD answered with no or zero length. */
  function SizeRequests(server: Server): (rs: seq<Request>)
    ensures |rs| > 0 && rs[0] == Head
    ensures SizeCheck in rs <==> server.head.Ok? && LengthOrZero(server.head.value) == 0
    ensures forall q :: q in rs ==> !q.Fetch?
  {
    if server.head.Ok? && LengthOrZero(server.head.value) == 0 then [Head, SizeCheck] else [Head]
  }

  /**
   * The size determination of `download_model`: a HEAD request, and a GET
   * whose Content-Length is read only when HEAD gave none or zero.
   */
  method DetermineTotal(server: Server) returns (total: Result<nat, DownloadError>, requests: seq<Request>)
    ensures total == TotalSize(server)
    ensures requests == SizeRequests(server)
  {
    requests := [Head];
    if server.head.Err? {
      return Err(HeadFailed(server.head.error)), requests;
    }
    var size := LengthOrZero(server.head.value);
    if size == 0 {
      requests := requests + [SizeCheck];
      if server.sizeCheck.Err? {
        return Err(SizeCheckFailed(server.sizeCheck.error)), requests;
      }
      size := LengthOrZero(server.sizeCheck.value);
    }
    if size == 0 {
      return Err(SizeUnknown), requests;
    }
    total := Ok(size);
  }

  /**
   * The transfer part of `download_model`, once the size is known and the
   * file is short of it: open (or create) the file, emit the baseline, send
   * the content GET, check its status, restart if the Range was ignored,
   * stream the body, and emit `(total, total)` at the end.
   */
  method Transfer(existing: Option<seq<Byte>>, total: nat, fetch: Result<Response, string>, throttle: seq<bool>)
    returns (r: Result<(), DownloadError>, file: seq<Byte>, events: seq<Progress>, request: Request)
    requires Offset(existing) < total
    ensures request == Fetch(RangeFor(Offset(existing)))
    ensures |events| > 0 && events[0] == Progress(Offset(existing), total)
    ensures fetch.Err? ==>
      r == Err(FetchFailed(fetch.error)) && file == Opened(existing) && events == [Progress(Offset(existing), total)]
    ensures fetch.Ok? && !IsSuccess(fetch.value.status) ==>
      r == Err(BadStatus(fetch.value.status)) && file == Opened(existing) && events == [Progress(Offset(existing), total)]
    ensures fetch.Ok? && IsSuccess(fetch.value.status) ==>
      var d, res := Offset(existing), fetch.value;
      var base := Base(existing, res.status);
      && file == base + Concat(res.chunks)
      && events ==
        [Progress(d, total)]
        + (if Restarts(d, res.status) then [Progress(0, total)] else [])
        + StreamEvents(|base|, res.chunks, throttle, total)
        + (if res.streamError.None? then [Progress(total, total)] else [])
      && r == (if res.streamError.None? then Ok(()) else Err(StreamFailed(res.streamError.value)))
    ensures r.Ok? ==> events[|events| - 1] == Progress(total, total)
  {
    var downloaded: nat := 0;
    if existing.Some? {
      downloaded := |existing.value|;
      file := existing.value;     // opened for append
    } else {
      file := [];                 // File::create
    }

    // Emit initial progress immediately
    events := [Progress(downloaded, total)];

    var range: Option<string> := None;
    if downloaded > 0 {
      range := Some("bytes=" + Decimal(downloaded) + "-");
    }
    request := Fetch(range);
    if fetch.Err? {
      return Err(FetchFailed(fetch.error)), file, events, request;
    }
    var res := fetch.value;
    if !IsSuccess(res.status) {
      return Err(BadStatus(res.status)), file, events, request;
    }

    // Range not honoured: truncate and start from 0
    if downloaded > 0 && res.status != PARTIAL_CONTENT {
      downloaded := 0;
      file := [];
      events := events + [Progress(downloaded, total)];
    }
    ghost var head := events;
    var streamed;
    file, streamed := StreamBody(file, res.chunks, throttle, total);
    events := events + streamed;
    if res.streamError.Some? {
      return Err(StreamFailed(res.streamError.value)), file, events, request;
    }
    events := events + [Progress(total, total)];
    assert events == head + streamed + [Progress(total, total)];
    r := Ok(());
  }

  /**
   * `download_model`. `existing` is the model file (None when absent),
   * `throttle[i]` says whether more than 200 ms had passed since the last
   * event when chunk `i` was written. Returns the outcome, the model file
   * afterwards, the events emitted and the requests sent.
   */
  method DownloadModel(existing: Option<seq<Byte>>, server: Server, throttle: seq<bool>)
    returns (r: Result<(), DownloadError>, file: Option<seq<Byte>>, events: seq<Progress>, requests: seq<Request>)
    // size determination
    ensures |requests| > 0 && requests[0] == Head
    ensures SizeCheck in requests <==> server.head.Ok? && LengthOrZero(server.head.value) == 0
    ensures TotalSize(server).Err? ==>
      r == Err(TotalSize(server).error) && file == existing && events == [] && requests == SizeRequests(server)
    // already complete: one (total, total) event, no content request
    ensures TotalSize(server).Ok? && !Fetches(existing, server) ==>
      var total := TotalSize(server).value;
      r == Ok(()) && file == existing && events == [Progress(total, total)] && requests == SizeRequests(server)
    // the content request, with a Range header only when resuming
    ensures Fetches(existing, server) ==>
      var d, total := Offset(existing), TotalSize(server).value;
      && requests == SizeRequests(server) + [Fetch(RangeFor(d))]
      && |events| > 0 && events[0] == Progress(d, total)
    ensures Fetches(existing, server) && server.fetch.Err? ==>
      r == Err(FetchFailed(server.fetch.error)) && file == Some(Opened(existing))
      && events == [Progress(Offset(existing), TotalSize(server).value)]
    ensures Fetches(existing, server) && server.fetch.Ok? && !IsSuccess(server.fetch.value.status) ==>
      r == Err(BadStatus(server.fetch.value.status)) && file == Some(Opened(existing))
      && events == [Progress(Offset(existing), TotalSize(server).value)]
    // streaming: the body is appended to the partial file (or to an emptied one after a restart)
    ensures Fetches(existing, server) && server.fetch.Ok? && IsSuccess(server.fetch.value.status) ==>
      var d, total, res := Offset(existing), TotalSize(server).value, server.fetch.value;
      var base := Base(existing, res.status);
      && file == Some(base + Concat(res.chunks))
      && events ==
        [Progress(d, total)]
        + (if Restarts(d, res.status) then [Progress(0, total)] else [])
        + StreamEvents(|base|, res.chunks, throttle, total)
        + (if res.streamError.None? then [Progress(total, total)] else [])
      && r == (if res.streamError.None? then Ok(()) else Err(StreamFailed(res.streamError.value)))
    // whatever happened before, a successful download ends on (total, total)
    ensures r.Ok? ==>
      && TotalSize(server).Ok?
      && events[|events| - 1] == Progress(TotalSize(server).value, TotalSize(server).value)
  {
    file := existing;
    events := [];
    var total;
    total, requests := DetermineTotal(server);
    if total.Err? {
      return Err(total.error), file, events, requests;
    }
    if Offset(existing) >= total.value {
      // Model already downloaded
      return Ok(()), file, [Progress(total.value, total.value)], requests;
    }
    var contents, request;
    r, contents, events, request := Transfer(existing, total.value, server.fetch, throttle);
    file := Some(contents);
    requests := requests + [request];
  }
}
