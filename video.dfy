/**
 * The video job poller of generateCharacterVideo
 * (services/geminiService.ts): submit once, then sleep 10 s and re-read the
 * operation until it reports done, then fetch the video URI or fail.
 *
 * The remote service is a mock: `submit` is what the submission returns or
 * throws, and `replies` are the successive answers of the status check. Timers
 * and the network are the events the poller emits, in order.
 */
module VideoPoller {
  import opened Wrappers

  const PollIntervalMs: nat := 10000

  /** The fields of the SDK's operation the loop reads; "" stands for no video URI. */
  datatype Operation = Operation(done: bool, videoUri: string)

  /** What the poller does to the outside world. */
  datatype Event = Sleep(ms: nat) | StatusCheck | Fetch(url: string)

  datatype VideoError =
    | SubmissionFailed(reason: string)   // the submission call threw
    | TransportFailed(reason: string)    // a status check threw
    | NoDownloadLink                     // done, but no video URI

  datatype Outcome = Downloaded(url: string) | Failed(error: VideoError) | StillRunning

  /** How the status-check loop ends, with the number of checks it made. */
  datatype PollEnd =
    | Completed(op: Operation, checks: nat)
    | PollError(reason: string, checks: nat)
    | Unfinished(checks: nat)              // the mock ran out of replies

  const NoLinkMessage: string := "No se pudo obtener el enlace de descarga del video."

  /** The same end, one status check later. */
  function Later(e: PollEnd): PollEnd
  {
    match e
    case Completed(op, n) => Completed(op, n + 1)
    case PollError(r, n) => PollError(r, n + 1)
    case Unfinished(n) => Unfinished(n + 1)
  }

  /** `while (!operation.done) { sleep; operation = check(operation) }` over the mock replies. */
  function Poll(op: Operation, replies: seq<Result<Operation, string>>): PollEnd
    decreases |replies|
  {
    if op.done then Completed(op, 0)
    else if replies == [] then Unfinished(0)
    else match replies[0]
      case Failure(reason) => PollError(reason, 1)
      case Success(next) => Later(Poll(next, replies[1..]))
  }

  /** `${downloadLink}&key=${apiKey}` */
  function DownloadUrl(uri: string, apiKey: string): string
  {
    uri + "&key=" + apiKey
  }

  /** What generateCharacterVideo returns or throws against the mock service. */
  function VideoOutcome(submit: Result<Operation, string>, replies: seq<Result<Operation, string>>,
                        apiKey: string): Outcome
  {
    match submit
    case Failure(reason) => Failed(SubmissionFailed(reason))
    case Success(op) =>
      match Poll(op, replies)
      case Completed(final, _) =>
        if final.videoUri == "" then Failed(NoDownloadLink)
        else Downloaded(DownloadUrl(final.videoUri, apiKey))
      case PollError(reason, _) => Failed(TransportFailed(reason))
      case Unfinished(_) => StillRunning
  }

  /** How many status checks the call makes: none when the submission throws. */
  function StatusChecks(submit: Result<Operation, string>, replies: seq<Result<Operation, string>>): nat
  {
    if submit.Failure? then 0 else Poll(submit.value, replies).checks
  }

  /** n rounds of the loop body: sleep, then check. */
  function Rounds(n: nat): (t: seq<Event>)
    ensures |t| == 2 * n
  {
    if n == 0 then [] else Rounds(n - 1) + [Sleep(PollIntervalMs), StatusCheck]
  }

  /** Everything the call does, in order: the poll rounds, then the fetch if there is one. */
  function Trace(submit: Result<Operation, string>, replies: seq<Result<Operation, string>>,
                 apiKey: string): seq<Event>
  {
    var outcome := VideoOutcome(submit, replies, apiKey);
    Rounds(StatusChecks(submit, replies)) + (if outcome.Downloaded? then [Fetch(outcome.url)] else [])
  }

  /** The poll loop of generateCharacterVideo, driven by the mock service. */
  method GenerateCharacterVideo(submit: Result<Operation, string>, replies: seq<Result<Operation, string>>,
                                apiKey: string)
    returns (outcome: Outcome, trace: seq<Event>)
    ensures outcome == VideoOutcome(submit, replies, apiKey)
    ensures trace == Trace(submit, replies, apiKey)
  {
    if submit.Failure? {
      return Failed(SubmissionFailed(submit.error)), [];
    }
    var operation := submit.value;
    var i := 0;
    trace := [];
    while !operation.done
      invariant 0 <= i <= |replies|
      invariant Poll(submit.value, replies) == LaterBy(Poll(operation, replies[i..]), i)
      invariant trace == Rounds(i)
      decreases |replies| - i
    {
      if i == |replies| {
        return StillRunning, trace;
      }
      trace := trace + [Sleep(PollIntervalMs), StatusCheck];
      match replies[i]
      case Failure(reason) =>
        return Failed(TransportFailed(reason)), trace;
      case Success(next) =>
        assert replies[i..][1..] == replies[i + 1..];
        operation := next;
      i := i + 1;
    }
    if operation.videoUri == "" {
      return Failed(NoDownloadLink), trace;
    }
    var url := DownloadUrl(operation.videoUri, apiKey);
    trace := trace + [Fetch(url)];
    return Downloaded(url), trace;
  }

  /** n status checks later. */
  function LaterBy(e: PollEnd, n: nat): PollEnd
  {
    match e
    case Completed(op, k) => Completed(op, k + n)
    case PollError(r, k) => PollError(r, k + n)
    case Unfinished(k) => Unfinished(k + n)
  }

  /**
   * The loop stops at the first done state and makes exactly that many status
   * checks: k checks end in `op` exactly when the first k - 1 replies were
   * not done and the k-th reply is `op`, which is done (k = 0: the submitted
   * operation was already done).
   */
  lemma {:induction false} StopsAtFirstDone(op0: Operation, replies: seq<Result<Operation, string>>,
                                            op: Operation, k: nat)
    ensures Poll(op0, replies) == Completed(op, k) <==>
      if k == 0 then op0.done && op == op0
      else && !op0.done && k <= |replies| && replies[k - 1] == Success(op) && op.done
           && forall j :: 0 <= j < k - 1 ==> replies[j].Success? && !replies[j].value.done
    decreases |replies|
  {
    if !op0.done && replies != [] && k > 0 {
      if replies[0].Success? {
        var next, rest := replies[0].value, replies[1..];
        StopsAtFirstDone(next, rest, op, k - 1);
        if 1 < k <= |replies| {
          assert (forall j :: 0 <= j < k - 1 ==> replies[j].Success? && !replies[j].value.done)
            <==> (!next.done && forall j :: 0 <= j < k - 2 ==> rest[j].Success? && !rest[j].value.done);
        }
      } else if k > 1 {
        assert !replies[0].Success?;
      }
    }
  }

  /**
   * A three-round scenario: the submitted job and the first two checks are
   * not done, the third check is done with a URI. Three sleep-then-check
   * rounds, then one fetch of that URI with the key appended.
   */
  lemma ThreeChecksScenario(uri: string, apiKey: string)
    requires uri != ""
    ensures var submit: Result<Operation, string> := Success(Operation(false, ""));
      var replies: seq<Result<Operation, string>> := [Success(Operation(false, "")), Success(Operation(false, "")), Success(Operation(true, uri))];
      && StatusChecks(submit, replies) == 3
      && VideoOutcome(submit, replies, apiKey) == Downloaded(uri + "&key=" + apiKey)
      && Trace(submit, replies, apiKey)
         == [Sleep(10000), StatusCheck, Sleep(10000), StatusCheck, Sleep(10000), StatusCheck,
             Fetch(uri + "&key=" + apiKey)]
  {
    var replies: seq<Result<Operation, string>> :=
      [Success(Operation(false, "")), Success(Operation(false, "")), Success(Operation(true, uri))];
    var op0, op3 := Operation(false, ""), Operation(true, uri);
    assert Poll(op3, replies[1..][1..][1..]) == Completed(op3, 0);
    assert Poll(op0, replies[1..][1..]) == Completed(op3, 1);
    assert Poll(op0, replies[1..]) == Completed(op3, 2);
    assert Poll(op0, replies) == Completed(op3, 3);
    assert Rounds(3) == [Sleep(10000), StatusCheck, Sleep(10000), StatusCheck, Sleep(10000), StatusCheck];
  }

  /** A submission that throws fails at once: no status check, no sleep, no fetch. */
  lemma SubmissionFailureSkipsLoop(reason: string, replies: seq<Result<Operation, string>>, apiKey: string)
    ensures VideoOutcome(Failure(reason), replies, apiKey) == Failed(SubmissionFailed(reason))
    ensures Trace(Failure(reason), replies, apiKey) == []
  {
  }

  /** A completed job without a video URI fails with its own error and fetches nothing. */
  lemma NoUriNoFetch(submit: Result<Operation, string>, replies: seq<Result<Operation, string>>, apiKey: string)
    requires submit.Success? && Poll(submit.value, replies).Completed?
    requires Poll(submit.value, replies).op.videoUri == ""
    ensures VideoOutcome(submit, replies, apiKey) == Failed(NoDownloadLink)
    ensures forall e :: e in Trace(submit, replies, apiKey) ==> !e.Fetch?
  {
    RoundsShape(StatusChecks(submit, replies));
  }

  /** Each round of the trace is a 10-second sleep followed by one status check. */
  lemma {:induction false} RoundsShape(n: nat)
    ensures forall j :: 0 <= j < n ==> Rounds(n)[2 * j] == Sleep(PollIntervalMs) && Rounds(n)[2 * j + 1] == StatusCheck
    ensures forall e :: e in Rounds(n) ==> e == Sleep(PollIntervalMs) || e == StatusCheck
  {
    if n > 0 {
      RoundsShape(n - 1);
      var prev := Rounds(n - 1);
      assert Rounds(n) == prev + [Sleep(PollIntervalMs), StatusCheck];
      forall j | 0 <= j < n
        ensures Rounds(n)[2 * j] == Sleep(PollIntervalMs) && Rounds(n)[2 * j + 1] == StatusCheck
      {
        if j < n - 1 {
          assert Rounds(n)[2 * j] == prev[2 * j];
          assert Rounds(n)[2 * j + 1] == prev[2 * j + 1];
        }
      }
    }
  }

  /**
   * No status check before the wait: every check in the trace comes right
   * after a 10-second sleep, and a fetch, if any, is the last event.
   */
  lemma CheckAfterSleep(submit: Result<Operation, string>, replies: seq<Result<Operation, string>>,
                        apiKey: string)
    ensures var t := Trace(submit, replies, apiKey);
      && (forall j :: 0 <= j < |t| && t[j] == StatusCheck ==> j > 0 && t[j - 1] == Sleep(PollIntervalMs))
      && (forall j :: 0 <= j < |t| && t[j].Fetch? ==> j == |t| - 1)
  {
    var n := StatusChecks(submit, replies);
    var t := Trace(submit, replies, apiKey);
    var outcome := VideoOutcome(submit, replies, apiKey);
    var tail := if outcome.Downloaded? then [Fetch(outcome.url)] else [];
    assert t == Rounds(n) + tail;
    RoundsShape(n);
    forall j | 0 <= j < |t| && t[j] == StatusCheck
      ensures j > 0 && t[j - 1] == Sleep(PollIntervalMs)
    {
      var m := j / 2;
      assert t[2 * m] == Rounds(n)[2 * m] == Sleep(PollIntervalMs);
    }
    forall j | 0 <= j < 2 * n
      ensures !t[j].Fetch?
    {
      assert t[j] == Rounds(n)[j];
      assert Rounds(n)[j] in Rounds(n);
    }
    assert |tail| <= 1;
  }
}
