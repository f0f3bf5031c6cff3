/** The video page (`GenerateVideo.razor.cs`): submitting a prompt, polling
    the job until it reaches a final status or 120 polls have been made,
    downloading the generated videos, and aborting. The provider's answers
    and the moments at which the user presses Abort are an environment
    script; the page is a class whose methods are proved against pure
    functions over a snapshot of its fields. */
module GenerateVideo {
  import opened Wrappers
  import opened Text
  import opened Numbers
  import opened Cancellation
  import opened VideoModels

  const MaxPollingAttempts: nat := 120

  const PromptMissingMessage: string := "Please enter a prompt for video generation."
  const StartingStatus: string := "Starting..."
  const CancelledStatus: string := "Cancelled"
  const GenerationCancelledMessage: string := "Video generation was cancelled."
  const GenerateErrorPrefix: string := "Error generating video: "
  const NoGenerationsMessage: string := "No video generations found in job result."
  const GenerationFailedMessage: string := "Video generation failed."
  const StatusErrorPrefix: string := "Error checking job status: "
  const TimeoutMessage: string := "Video generation timed out. Please try again."
  const RetrieveErrorPrefix: string := "Error retrieving video content: "
  const AbortedMessage: string := "Video generation cancelled."
  const CancelErrorPrefix: string := "Error cancelling generation: "
  const RequestModel: string := "sora"

  const Succeeded: string := "succeeded"
  const Failed: string := "failed"
  const ProviderCancelled: string := "cancelled"

  /** The statuses that end polling; every other status keeps it going. */
  predicate IsFinal(status: string) {
    status == Succeeded || status == Failed || status == ProviderCancelled
  }

  function Min(a: int, b: int): int {
    if a <= b then a else b
  }

  /** `EstimateProgress`: a percentage guessed from the status and the number
      of polls made so far. */
  function EstimateProgress(status: string, attempts: int, maxAttempts: int): int
    requires maxAttempts != 0
  {
    if status == "pending" then Min(10, attempts * 5)
    else if status == "running" then Min(90, 20 + CsDiv(attempts * 60, maxAttempts))
    else if status == Succeeded then 100
    else if status == Failed || status == ProviderCancelled then 0
    else Min(50, CsDiv(attempts * 100, maxAttempts))
  }

  /** While polling (attempts below the maximum) the estimate is a
      percentage; "running" stays in [20, 80), "pending" at most 10 and an
      unknown status at most 50. */
  lemma ProgressBounds(status: string, attempts: int, maxAttempts: int)
    requires 0 <= attempts < maxAttempts
    ensures 0 <= EstimateProgress(status, attempts, maxAttempts) <= 100
    ensures status == "running" ==> 20 <= EstimateProgress(status, attempts, maxAttempts) < 80
    ensures status == "pending" ==> EstimateProgress(status, attempts, maxAttempts) <= 10
    ensures status != "pending" && status != "running" && !IsFinal(status) ==>
      EstimateProgress(status, attempts, maxAttempts) <= 50
  {
    ScaledBelow(attempts, maxAttempts, 60);
    ScaledBelow(attempts, maxAttempts, 100);
  }

  /** `attempts * k / maxAttempts` lies in [0, k) for attempts in [0, maxAttempts). */
  lemma ScaledBelow(attempts: int, maxAttempts: int, k: nat)
    requires 0 <= attempts < maxAttempts && k > 0
    ensures 0 <= CsDiv(attempts * k, maxAttempts) < k
  {
    var n := attempts * k;
    ProductBelow(attempts, maxAttempts, k);
    QuotientLess(n, maxAttempts, k);
  }

  /** For a fixed status the estimate never decreases as polls go by. */
  lemma ProgressMonotone(status: string, a1: int, a2: int, maxAttempts: int)
    requires 0 <= a1 <= a2 && maxAttempts > 0
    ensures EstimateProgress(status, a1, maxAttempts) <= EstimateProgress(status, a2, maxAttempts)
  {
    MulMonotone(a1, a2, 60);
    MulMonotone(a1, a2, 100);
    MulMonotone(0, a1, 60);
    MulMonotone(0, a1, 100);
    DivMonotone(a1 * 60, a2 * 60, maxAttempts);
    DivMonotone(a1 * 100, a2 * 100, maxAttempts);
  }

  /** A snapshot of the page's fields. */
  datatype Page = Page(
    warning: string, success: string, loading: bool,
    prompt: string, width: Int32, height: Int32, nSeconds: Int32,
    results: seq<VideoGeneration>, videoBytes: seq<seq<bv8>>,
    jobId: string, jobStatus: string, progress: int,
    token: TokenView)

  /** When, during one poll, the user presses Abort. */
  datatype AbortPoint = NoAbort | DuringRequest | DuringWait

  /** What one status request brings: an answer (the Abort press, if any,
      either comes while the request is in flight and the answer still
      arrives, or during the five-second wait that follows a status that
      does not end polling), an exception, or an Abort press that makes the
      request throw. */
  datatype PollStep =
    | Answered(response: VideoJobStatusResponse, abort: AbortPoint)
    | Threw(fault: Fault)
    | Aborted

  /** What the job-creation request brings. */
  datatype CreateStep =
    | Created(response: VideoJobResponse, abortedMeanwhile: bool)
    | CreateFailed(fault: Fault)
    | CreateAborted

  /** What one download brings. */
  datatype DownloadStep =
    | Downloaded(bytes: seq<bv8>)
    | DownloadFailed(fault: Fault)
    | DownloadAborted

  /** `AbortGeneration`: `Cancel()` on the source, which throws on a disposed
      one; otherwise the page stops loading and says it was cancelled. */
  function Abort(p: Page): (q: Page)
    ensures p.token.Source? && p.token.disposed ==> q == p.(warning := CancelErrorPrefix + DisposedMessage)
    ensures !(p.token.Source? && p.token.disposed) ==>
      !q.loading && q.jobStatus == CancelledStatus && q.warning == AbortedMessage
      && q.token == (if p.token.Source? then Source(true, false) else NoSource)
      && q.results == p.results && q.videoBytes == p.videoBytes && q.success == p.success
  {
    match p.token
    case NoSource => p.(loading := false, jobStatus := CancelledStatus, warning := AbortedMessage)
    case Source(cancelled, disposed) =>
      if disposed then p.(warning := CancelErrorPrefix + DisposedMessage)
      else p.(token := Source(true, false), loading := false, jobStatus := CancelledStatus, warning := AbortedMessage)
  }

  const GeneratedIntro: string := "Video generation completed successfully! Generated "
  const DownloadedIntro: string := "Video generation completed! Downloaded "

  function GeneratedMessage(count: nat): string {
    GeneratedIntro + IntToString(count) + " video(s)."
  }

  function DownloadedMessage(count: nat): string {
    DownloadedIntro + IntToString(count) + " video(s)"
  }

  /** `RetrieveVideoContent` from the `i`-th generation on: one download per
      generation, in order; the first failure stops it with a warning. */
  function RetrieveFrom(p: Page, i: nat, downloads: nat -> DownloadStep): Page
    decreases |p.results| - i
  {
    if i >= |p.results| then p.(success := DownloadedMessage(|p.videoBytes|))
    else
      match downloads(i)
      case Downloaded(bytes) => RetrieveFrom(p.(videoBytes := p.videoBytes + [bytes]), i + 1, downloads)
      case DownloadFailed(fault) => p.(warning := RetrieveErrorPrefix + FaultMessage(fault))
      case DownloadAborted => Abort(p).(warning := RetrieveErrorPrefix + FaultMessage(Canceled))
  }

  /** The bytes of downloads `i` to `j - 1`, in order. */
  function DownloadedBytes(downloads: nat -> DownloadStep, i: nat, j: nat): seq<seq<bv8>>
    requires i <= j
    requires forall k :: i <= k < j ==> downloads(k).Downloaded?
    decreases j - i
  {
    if i == j then [] else DownloadedBytes(downloads, i, j - 1) + [downloads(j - 1).bytes]
  }

  /** When every download succeeds, one byte array per generation is appended
      in order and the success message counts them. */
  lemma {:induction false} RetrieveAll(p: Page, i: nat, downloads: nat -> DownloadStep)
    requires i <= |p.results|
    requires forall k :: i <= k < |p.results| ==> downloads(k).Downloaded?
    ensures RetrieveFrom(p, i, downloads) ==
      p.(videoBytes := p.videoBytes + DownloadedBytes(downloads, i, |p.results|),
         success := DownloadedMessage(|p.videoBytes| + |p.results| - i))
    decreases |p.results| - i
  {
    if i < |p.results| {
      var q := p.(videoBytes := p.videoBytes + [downloads(i).bytes]);
      RetrieveAll(q, i + 1, downloads);
      DownloadedPrefix(downloads, i, |p.results|);
    }
  }

  lemma {:induction false} DownloadedPrefix(downloads: nat -> DownloadStep, i: nat, j: nat)
    requires i < j
    requires forall k :: i <= k < j ==> downloads(k).Downloaded?
    ensures DownloadedBytes(downloads, i, j) == [downloads(i).bytes] + DownloadedBytes(downloads, i + 1, j)
    decreases j - i
  {
    if i + 1 < j {
      DownloadedPrefix(downloads, i, j - 1);
    }
  }

  /** A failed download only sets the warning (after the Abort's own effect
      when the user aborted): the generations and the success message from
      the job stay, and the bytes downloaded before it are kept. A download
      that throws changes nothing else on the page. */
  lemma {:induction false} RetrieveFailureKeepsSuccess(p: Page, i: nat, downloads: nat -> DownloadStep, failed: nat)
    requires i <= failed < |p.results|
    requires forall k :: i <= k < failed ==> downloads(k).Downloaded?
    requires !downloads(failed).Downloaded?
    ensures var q := RetrieveFrom(p, i, downloads);
      q.results == p.results && q.success == p.success
      && q.videoBytes == p.videoBytes + DownloadedBytes(downloads, i, failed)
      && StartsWith(q.warning, RetrieveErrorPrefix)
    ensures downloads(failed).DownloadFailed? ==>
      RetrieveFrom(p, i, downloads) ==
        p.(videoBytes := p.videoBytes + DownloadedBytes(downloads, i, failed),
           warning := RetrieveErrorPrefix + FaultMessage(downloads(failed).fault))
    decreases failed - i
  {
    if i < failed {
      var q := p.(videoBytes := p.videoBytes + [downloads(i).bytes]);
      RetrieveFailureKeepsSuccess(q, i + 1, downloads, failed);
      DownloadedPrefix(downloads, i, failed);
      assert RetrieveFrom(p, i, downloads) == RetrieveFrom(q, i + 1, downloads);
      assert q.videoBytes + DownloadedBytes(downloads, i + 1, failed)
          == p.videoBytes + DownloadedBytes(downloads, i, failed);
    }
  }

  /** The warning of a "failed" job: the provider's error message, or a
      generic one (`Error?.Message ?? ...`). */
  function FailureText(error: Option<VideoError>): string {
    if error.Some? && error.value.message.Some? then error.value.message.value else GenerationFailedMessage
  }

  /** The effect of a status that ends polling. */
  function Conclude(p: Page, response: VideoJobStatusResponse, downloads: nat -> DownloadStep): Page
    requires IsFinal(response.status)
  {
    if response.status == Succeeded then
      if response.generations.Some? && |response.generations.value| > 0 then
        var generations := response.generations.value;
        RetrieveFrom(p.(results := p.results + generations, success := GeneratedMessage(|generations|)),
                     0, downloads)
      else p.(warning := NoGenerationsMessage)
    else if response.status == Failed then p.(warning := FailureText(response.error))
    else p.(warning := GenerationCancelledMessage)
  }

  /** Why polling ended. */
  datatype PollEnd = Final(status: string) | Errored | Abandoned | TimedOut

  /** The page after one poll, and whether polling goes on. */
  datatype PollOutcome = Continue(page: Page) | Stop(page: Page, end: PollEnd)

  /** One pass of the polling loop's body, on a token not yet cancelled (so
      the filter that lets a cancellation end polling silently only matters
      after an Abort press). */
  function PollOnce(p: Page, attempts: nat, step: PollStep, downloads: nat -> DownloadStep): PollOutcome
    requires attempts < MaxPollingAttempts && !Cancelled(p.token)
  {
    match step
    case Answered(response, abort) =>
      var q := if abort == DuringRequest then Abort(p) else p;
      var q1 := q.(jobStatus := response.status,
                   progress := EstimateProgress(response.status, attempts, MaxPollingAttempts));
      if IsFinal(response.status) then Stop(Conclude(q1, response, downloads), Final(response.status))
      else
        var q2 := if abort == DuringWait then Abort(q1) else q1;
        if Cancelled(q2.token) then Stop(q2, Abandoned) else Continue(q2)
    case Threw(fault) => Stop(p.(warning := StatusErrorPrefix + FaultMessage(fault)), Errored)
    case Aborted =>
      var q := Abort(p);
      if Cancelled(q.token) then Stop(q, Abandoned)
      else Stop(q.(warning := StatusErrorPrefix + FaultMessage(Canceled)), Errored)
  }

  /** The page after polling, the number of status requests made, and why
      polling ended. */
  datatype PollResult = PollResult(page: Page, requests: nat, end: PollEnd)

  /** `PollJobStatus` from poll number `attempts` on; `polls(k)` is what the
      `k`-th status request brings. */
  function PollFrom(p: Page, attempts: nat, polls: nat -> PollStep, downloads: nat -> DownloadStep): PollResult
    requires attempts <= MaxPollingAttempts
    decreases MaxPollingAttempts - attempts
  {
    if attempts == MaxPollingAttempts then PollResult(p.(warning := TimeoutMessage), 0, TimedOut)
    else if Cancelled(p.token) then PollResult(p, 0, Abandoned)
    else
      match PollOnce(p, attempts, polls(attempts), downloads)
      case Continue(q) =>
        var r := PollFrom(q, attempts + 1, polls, downloads);
        PollResult(r.page, r.requests + 1, r.end)
      case Stop(q, end) => PollResult(q, 1, end)
  }

  /** One turn of polling: the request's outcome either ends polling or
      hands the page on to the next attempt. */
  lemma PollFromUnfold(p: Page, attempts: nat, polls: nat -> PollStep, downloads: nat -> DownloadStep)
    requires attempts < MaxPollingAttempts && !Cancelled(p.token)
    ensures var o := PollOnce(p, attempts, polls(attempts), downloads);
      && (o.Stop? ==> PollFrom(p, attempts, polls, downloads) == PollResult(o.page, 1, o.end))
      && (o.Continue? ==> var r := PollFrom(o.page, attempts + 1, polls, downloads);
            PollFrom(p, attempts, polls, downloads) == PollResult(r.page, r.requests + 1, r.end))
  {
  }

  /** At most 120 status requests are made, and a timeout happens only
      after all of them; only then is the timeout warning the outcome. */
  lemma {:induction false} PollBounded(p: Page, attempts: nat, polls: nat -> PollStep, downloads: nat -> DownloadStep)
    requires attempts <= MaxPollingAttempts
    ensures var r := PollFrom(p, attempts, polls, downloads);
      && r.requests <= MaxPollingAttempts - attempts
      && (r.end == TimedOut ==> r.requests == MaxPollingAttempts - attempts && r.page.warning == TimeoutMessage)
      && (r.end.Final? ==> IsFinal(r.end.status))
    decreases MaxPollingAttempts - attempts
  {
    if attempts < MaxPollingAttempts && !Cancelled(p.token) {
      var o := PollOnce(p, attempts, polls(attempts), downloads);
      PollFromUnfold(p, attempts, polls, downloads);
      PollOnceStops(p, attempts, polls(attempts), downloads);
      if o.Continue? {
        PollBounded(o.page, attempts + 1, polls, downloads);
      }
    }
  }

  /** A single poll never times out, and stops on a status only when that
      status is final. */
  lemma PollOnceStops(p: Page, attempts: nat, step: PollStep, downloads: nat -> DownloadStep)
    requires attempts < MaxPollingAttempts && !Cancelled(p.token)
    ensures var o := PollOnce(p, attempts, step, downloads);
      o.Stop? ==> o.end != TimedOut && (o.end.Final? ==> IsFinal(o.end.status))
  {
  }

  /** Polling consults only the answers to the requests it makes: two
      scripts that agree on them lead to the same outcome. */
  lemma {:induction false} PollUsesOnlyItsRequests(p: Page, attempts: nat, polls1: nat -> PollStep, polls2: nat -> PollStep,
                                                   downloads: nat -> DownloadStep)
    requires attempts <= MaxPollingAttempts
    requires forall k :: attempts <= k < attempts + PollFrom(p, attempts, polls1, downloads).requests ==> polls1(k) == polls2(k)
    ensures PollFrom(p, attempts, polls1, downloads) == PollFrom(p, attempts, polls2, downloads)
    decreases MaxPollingAttempts - attempts
  {
    if attempts < MaxPollingAttempts && !Cancelled(p.token) {
      assert polls1(attempts) == polls2(attempts);
      var o := PollOnce(p, attempts, polls1(attempts), downloads);
      if o.Continue? {
        PollUsesOnlyItsRequests(o.page, attempts + 1, polls1, polls2, downloads);
      }
    }
  }

  /** A status that ends polling is the last request: exactly one request is
      made when the next answer has such a status. */
  lemma PollStopsAtFinal(p: Page, attempts: nat, polls: nat -> PollStep, downloads: nat -> DownloadStep)
    requires attempts < MaxPollingAttempts && !Cancelled(p.token)
    requires polls(attempts).Answered? && IsFinal(polls(attempts).response.status)
    ensures PollFrom(p, attempts, polls, downloads).requests == 1
    ensures PollFrom(p, attempts, polls, downloads).end == Final(polls(attempts).response.status)
  {
  }

  /** An exception from a status request ends polling with the warning
      "Error checking job status: ..." and no further request. */
  lemma PollStopsAtError(p: Page, attempts: nat, polls: nat -> PollStep, downloads: nat -> DownloadStep)
    requires attempts < MaxPollingAttempts && !Cancelled(p.token)
    requires polls(attempts).Threw?
    ensures var r := PollFrom(p, attempts, polls, downloads);
      r.requests == 1 && r.end == Errored
      && r.page.warning == StatusErrorPrefix + FaultMessage(polls(attempts).fault)
  {
  }

  /** When every answer has a status that does not end polling and nobody
      aborts, polling times out after exactly the remaining requests. */
  lemma {:induction false} PollTimesOut(p: Page, attempts: nat, polls: nat -> PollStep, downloads: nat -> DownloadStep)
    requires attempts <= MaxPollingAttempts && !Cancelled(p.token)
    requires forall k :: attempts <= k < MaxPollingAttempts ==>
      polls(k).Answered? && polls(k).abort == NoAbort && !IsFinal(polls(k).response.status)
    ensures var r := PollFrom(p, attempts, polls, downloads);
      r.end == TimedOut && r.page.warning == TimeoutMessage && r.requests == MaxPollingAttempts - attempts
    decreases MaxPollingAttempts - attempts
  {
    if attempts < MaxPollingAttempts {
      var o := PollOnce(p, attempts, polls(attempts), downloads);
      PollTimesOut(o.page, attempts + 1, polls, downloads);
    }
  }

  /** A token cancelled before polling starts means no request at all. */
  lemma PollCancelledFirst(p: Page, polls: nat -> PollStep, downloads: nat -> DownloadStep)
    requires Cancelled(p.token)
    ensures PollFrom(p, 0, polls, downloads) == PollResult(p, 0, Abandoned)
  {
  }

  /** A "succeeded" answer with generations appends all of them, in order,
      before downloading. */
  lemma SucceededAppendsGenerations(p: Page, response: VideoJobStatusResponse, downloads: nat -> DownloadStep)
    requires response.status == Succeeded
    requires response.generations.Some? && |response.generations.value| > 0
    ensures Conclude(p, response, downloads).results == p.results + response.generations.value
  {
    RetrieveKeepsResults(p.(results := p.results + response.generations.value,
                            success := GeneratedMessage(|response.generations.value|)),
                         0, downloads);
  }

  lemma {:induction false} RetrieveKeepsResults(p: Page, i: nat, downloads: nat -> DownloadStep)
    ensures RetrieveFrom(p, i, downloads).results == p.results
    decreases |p.results| - i
  {
    if i < |p.results| && downloads(i).Downloaded? {
      RetrieveKeepsResults(p.(videoBytes := p.videoBytes + [downloads(i).bytes]), i + 1, downloads);
    }
  }

  /** The request body `RunSubmit` builds through the request's setters. */
  function RequestBody(p: Page): JobRequest {
    JobRequest(p.prompt, FormatSize(p.width, p.height), RoundSeconds(p.nSeconds), RequestModel)
  }

  /** The body carries the page's width and height exactly and a supported
      duration. */
  lemma RequestBodyFaithful(p: Page)
    ensures ParseSize(RequestBody(p).size) == (p.width, p.height)
    ensures SecondsValue(RequestBody(p).seconds) in DurationOptions
    ensures p.nSeconds <= SecondsValue(RequestBody(p).seconds) || SecondsValue(RequestBody(p).seconds) == 12
  {
    ParseFormatSize(p.width, p.height);
    RoundSecondsSupported(p.nSeconds);
  }

  /** The state `RunSubmit` starts a job from: everything cleared and a new
      source. */
  function Started(p: Page): Page {
    p.(loading := true, warning := "", success := "", results := [], videoBytes := [],
       jobId := "", jobStatus := StartingStatus, progress := 0, token := Source(false, false))
  }

  datatype SubmitResult = SubmitResult(page: Page, requests: nat)

  /** What follows the job creation in `RunSubmit`, from the started page. */
  function AfterCreate(s: Page, step: CreateStep, polls: nat -> PollStep, downloads: nat -> DownloadStep): SubmitResult {
    match step
    case Created(response, abortedMeanwhile) =>
      var q := if abortedMeanwhile then Abort(s) else s;
      var polled := PollFrom(q.(jobId := response.jobId, jobStatus := response.status), 0, polls, downloads);
      SubmitResult(polled.page, polled.requests)
    case CreateFailed(fault) =>
      SubmitResult(s.(warning := if fault.Canceled? && Cancelled(s.token) then GenerationCancelledMessage
                                 else GenerateErrorPrefix + FaultMessage(fault)), 0)
    case CreateAborted =>
      var q := Abort(s);
      SubmitResult(q.(warning := if Cancelled(q.token) then GenerationCancelledMessage
                                 else GenerateErrorPrefix + FaultMessage(Canceled)), 0)
  }

  /** `RunSubmit`. */
  function Submit(p: Page, create: JobRequest -> CreateStep, polls: nat -> PollStep, downloads: nat -> DownloadStep)
    : SubmitResult
  {
    if IsBlank(p.prompt) then SubmitResult(p.(warning := PromptMissingMessage), 0)
    else
      var r := AfterCreate(Started(p), create(RequestBody(p)), polls, downloads);
      SubmitResult(r.page.(loading := false), r.requests)
  }

  /** A blank prompt only sets the warning: nothing the services would answer
      matters, and no status request is made. */
  lemma BlankPromptMakesNoCall(p: Page, create1: JobRequest -> CreateStep, polls1: nat -> PollStep, downloads1: nat -> DownloadStep,
                               create2: JobRequest -> CreateStep, polls2: nat -> PollStep, downloads2: nat -> DownloadStep)
    requires IsBlank(p.prompt)
    ensures Submit(p, create1, polls1, downloads1) == Submit(p, create2, polls2, downloads2)
    ensures Submit(p, create1, polls1, downloads1) == SubmitResult(p.(warning := PromptMissingMessage), 0)
  {
  }

  /** Whatever happens, `RunSubmit` leaves the page not loading and makes at
      most 120 status requests. */
  lemma SubmitEnds(p: Page, create: JobRequest -> CreateStep, polls: nat -> PollStep, downloads: nat -> DownloadStep)
    ensures !IsBlank(p.prompt) ==> !Submit(p, create, polls, downloads).page.loading
    ensures Submit(p, create, polls, downloads).requests <= MaxPollingAttempts
  {
    if !IsBlank(p.prompt) && create(RequestBody(p)).Created? {
      var s := Started(p);
      var q := if create(RequestBody(p)).abortedMeanwhile then Abort(s) else s;
      var response := create(RequestBody(p)).response;
      PollBounded(q.(jobId := response.jobId, jobStatus := response.status), 0, polls, downloads);
    }
  }

  /** The page component. */
  class GenerateVideoPage {
    var cts: TokenSource?
    var warning: string
    var success: string
    var loading: bool
    var prompt: string
    var width: Int32
    var height: Int32
    var nSeconds: Int32
    var results: seq<VideoGeneration>
    var videoBytes: seq<seq<bv8>>
    var jobId: string
    var jobStatus: string
    var progress: int
    /** How many status requests the page has made. */
    ghost var statusRequests: nat

    function View(): Page
      reads this, cts
    {
      Page(warning, success, loading, prompt, width, height, nSeconds, results, videoBytes,
           jobId, jobStatus, progress,
           if cts == null then NoSource else Source(cts.cancelled, cts.disposed))
    }

    /** The field initialisers and `OnInitialized`. */
    constructor ()
      ensures View() == Page("", "", false, "", 480, 480, 5, [], [], "", "Unknown", 0, NoSource)
      ensures statusRequests == 0
    {
      cts := null;
      warning, success, loading := "", "", false;
      prompt, width, height, nSeconds := "", 480, 480, 5;
      results, videoBytes := [], [];
      jobId, jobStatus, progress := "", "Unknown", 0;
      statusRequests := 0;
    }

    method AbortGeneration()
      modifies this, cts
      ensures cts == old(cts) && statusRequests == old(statusRequests)
      ensures View() == Abort(old(View()))
    {
      if cts != null {
        var error := cts.Cancel();
        if error.Some? {
          warning := CancelErrorPrefix + error.value;
          return;
        }
      }
      loading := false;
      jobStatus := CancelledStatus;
      warning := AbortedMessage;
    }

    method RetrieveVideoContent(downloads: nat -> DownloadStep)
      modifies this, cts
      ensures cts == old(cts) && statusRequests == old(statusRequests)
      ensures View() == RetrieveFrom(old(View()), 0, downloads)
    {
      var i := 0;
      while i < |results|
        invariant cts == old(cts) && statusRequests == old(statusRequests)
        invariant results == old(results) && i <= |results|
        invariant RetrieveFrom(View(), i, downloads) == RetrieveFrom(old(View()), 0, downloads)
        decreases |results| - i
      {
        match downloads(i) {
          case Downloaded(bytes) =>
            videoBytes := videoBytes + [bytes];
            i := i + 1;
          case DownloadFailed(fault) =>
            warning := RetrieveErrorPrefix + FaultMessage(fault);
            return;
          case DownloadAborted =>
            AbortGeneration();
            warning := RetrieveErrorPrefix + FaultMessage(Canceled);
            return;
        }
      }
      success := DownloadedMessage(|videoBytes|);
    }

    /** One pass of the polling loop's body; `stop` says it returned. */
    method PollOnceStep(step: PollStep, attempts: nat, downloads: nat -> DownloadStep) returns (stop: bool)
      requires attempts < MaxPollingAttempts && cts != null && !cts.cancelled
      modifies this, cts
      ensures cts == old(cts) && statusRequests == old(statusRequests)
      ensures var o := PollOnce(old(View()), attempts, step, downloads);
        View() == o.page && stop == o.Stop?
    {
      match step {
        case Answered(response, abort) =>
          stop := PollAnswered(response, abort, attempts, downloads);
        case Threw(fault) =>
          stop := PollThrew(fault, attempts, downloads);
        case Aborted =>
          stop := PollAborted(attempts, downloads);
      }
    }

    /** The loop body when the status request throws. */
    method PollThrew(fault: Fault, attempts: nat, downloads: nat -> DownloadStep) returns (stop: bool)
      requires attempts < MaxPollingAttempts && cts != null && !cts.cancelled
      modifies this, cts
      ensures cts == old(cts) && statusRequests == old(statusRequests)
      ensures var o := PollOnce(old(View()), attempts, Threw(fault), downloads);
        View() == o.page && stop == o.Stop?
    {
      if !(fault.Canceled? && cts.cancelled) {
        warning := StatusErrorPrefix + FaultMessage(fault);
      }
      stop := true;
    }

    /** The loop body when an Abort press makes the status request throw. */
    method PollAborted(attempts: nat, downloads: nat -> DownloadStep) returns (stop: bool)
      requires attempts < MaxPollingAttempts && cts != null && !cts.cancelled
      modifies this, cts
      ensures cts == old(cts) && statusRequests == old(statusRequests)
      ensures var o := PollOnce(old(View()), attempts, Aborted, downloads);
        View() == o.page && stop == o.Stop?
    {
      AbortGeneration();
      if !cts.cancelled {
        warning := StatusErrorPrefix + FaultMessage(Canceled);
      }
      stop := true;
    }

    /** The handling of a status that ends polling. */
    method ConcludeStep(response: VideoJobStatusResponse, downloads: nat -> DownloadStep)
      requires IsFinal(response.status)
      modifies this, cts
      ensures cts == old(cts) && statusRequests == old(statusRequests)
      ensures View() == Conclude(old(View()), response, downloads)
    {
      if response.status == Succeeded {
        if response.generations.Some? && |response.generations.value| > 0 {
          results := results + response.generations.value;
          success := GeneratedMessage(|response.generations.value|);
          RetrieveVideoContent(downloads);
        } else {
          warning := NoGenerationsMessage;
        }
      } else if response.status == Failed {
        warning := FailureText(response.error);
      } else {
        warning := GenerationCancelledMessage;
      }
    }

    /** The loop body when the status request is answered. */
    method PollAnswered(response: VideoJobStatusResponse, abort: AbortPoint, attempts: nat, downloads: nat -> DownloadStep) returns (stop: bool)
      requires attempts < MaxPollingAttempts && cts != null && !cts.cancelled
      modifies this, cts
      ensures cts == old(cts) && statusRequests == old(statusRequests)
      ensures var o := PollOnce(old(View()), attempts, Answered(response, abort), downloads);
        View() == o.page && stop == o.Stop?
    {
      if abort == DuringRequest {
        AbortGeneration();
      }
      jobStatus := response.status;
      progress := EstimateProgress(response.status, attempts, MaxPollingAttempts);
      if IsFinal(response.status) {
        ConcludeStep(response, downloads);
        return true;
      }
      if abort == DuringWait {
        AbortGeneration();
      }
      // the wait throws a `TaskCanceledException` once the token is cancelled
      stop := cts.cancelled;
    }

    /** One status request and its handling, counted: when polling goes on,
        what is left of it leads to the same end as before the request. */
    method PollTurn(attempts: nat, polls: nat -> PollStep, downloads: nat -> DownloadStep) returns (stop: bool)
      requires attempts < MaxPollingAttempts && cts != null && !cts.cancelled
      modifies this, cts
      ensures cts == old(cts)
      ensures var r := PollFrom(old(View()), attempts, polls, downloads);
        if stop then View() == r.page && statusRequests == old(statusRequests) + r.requests
        else
          var rest := PollFrom(View(), attempts + 1, polls, downloads);
          rest.page == r.page && statusRequests + rest.requests == old(statusRequests) + r.requests
    {
      PollFromUnfold(View(), attempts, polls, downloads);
      statusRequests := statusRequests + 1;
      stop := PollOnceStep(polls(attempts), attempts, downloads);
    }

    /** `PollJobStatus`: at most 120 polls while the token is not
        cancelled; `attempts` counts the polls whose status did not end
        polling. */
    method PollJobStatus(polls: nat -> PollStep, downloads: nat -> DownloadStep)
      requires cts != null
      modifies this, cts
      ensures cts == old(cts)
      ensures View() == PollFrom(old(View()), 0, polls, downloads).page
      ensures statusRequests == old(statusRequests) + PollFrom(old(View()), 0, polls, downloads).requests
    {
      ghost var goal := PollFrom(View(), 0, polls, downloads);
      var attempts := 0;
      while attempts < MaxPollingAttempts && !cts.cancelled
        invariant attempts <= MaxPollingAttempts && cts == old(cts)
        invariant PollFrom(View(), attempts, polls, downloads).page == goal.page
        invariant statusRequests + PollFrom(View(), attempts, polls, downloads).requests
                  == old(statusRequests) + goal.requests
        decreases MaxPollingAttempts - attempts
      {
        var stop := PollTurn(attempts, polls, downloads);
        if stop {
          return;
        }
        attempts := attempts + 1;
      }
      if attempts >= MaxPollingAttempts {
        warning := TimeoutMessage;
      }
    }

    /** The request `RunSubmit` builds: a `VideoGenerationRequest` whose
        `Width`, `Height` and `NSeconds` setters are given the page's values. */
    method BuildRequest() returns (body: JobRequest)
      ensures body == RequestBody(View())
    {
      var request := new VideoGenerationRequest();
      request.prompt := prompt;
      request.SetWidth(width);
      request.SetHeight(height);
      request.SetNSeconds(nSeconds);
      request.model := RequestModel;
      body := request.Body();
    }

    /** The start of a job: the page is reset and the previous source is
        disposed and replaced by a new one. */
    method StartJob()
      modifies this, cts
      ensures statusRequests == old(statusRequests)
      ensures cts != null && fresh(cts)
      ensures old(cts) != null ==> old(cts).disposed
      ensures View() == Started(old(View()))
    {
      ClearMessages();
      ClearJob();
      ReplaceSource();
    }

    /** The page is loading and shows no message. */
    method ClearMessages()
      modifies this
      ensures cts == old(cts) && statusRequests == old(statusRequests)
      ensures View() == old(View()).(loading := true, warning := "", success := "")
    {
      loading := true;
      warning := "";
      success := "";
    }

    /** No generation, no video, no job yet; the status says it is starting. */
    method ClearJob()
      modifies this
      ensures cts == old(cts) && statusRequests == old(statusRequests)
      ensures View() == old(View()).(results := [], videoBytes := [], jobId := "", jobStatus := StartingStatus, progress := 0)
    {
      results := [];
      videoBytes := [];
      jobId := "";
      jobStatus := StartingStatus;
      progress := 0;
    }

    /** The previous source, if any, is disposed; a new one takes its place. */
    method ReplaceSource()
      modifies this, cts
      ensures statusRequests == old(statusRequests)
      ensures cts != null && fresh(cts)
      ensures old(cts) != null ==> old(cts).disposed
      ensures View() == old(View()).(token := Source(false, false))
    {
      if cts != null {
        cts.Dispose();
      }
      cts := new TokenSource();
    }

    /** The job creation's outcome and the polling that follows it. */
    method CreateJob(step: CreateStep, polls: nat -> PollStep, downloads: nat -> DownloadStep)
      requires cts != null
      modifies this, cts
      ensures cts == old(cts)
      ensures View() == AfterCreate(old(View()), step, polls, downloads).page
      ensures statusRequests == old(statusRequests) + AfterCreate(old(View()), step, polls, downloads).requests
    {
      match step {
        case Created(response, abortedMeanwhile) =>
          FollowJob(response, abortedMeanwhile, polls, downloads);
        case CreateFailed(fault) =>
          if fault.Canceled? && cts.cancelled {
            warning := GenerationCancelledMessage;
          } else {
            warning := GenerateErrorPrefix + FaultMessage(fault);
          }
        case CreateAborted =>
          AbortGeneration();
          if cts.cancelled {
            warning := GenerationCancelledMessage;
          } else {
            warning := GenerateErrorPrefix + FaultMessage(Canceled);
          }
      }
    }

    /** A created job: its id and status are taken over and polling
        starts, after the Abort's effect when the user aborted meanwhile. */
    method FollowJob(response: VideoJobResponse, abortedMeanwhile: bool, polls: nat -> PollStep, downloads: nat -> DownloadStep)
      requires cts != null
      modifies this, cts
      ensures cts == old(cts)
      ensures View() == AfterCreate(old(View()), Created(response, abortedMeanwhile), polls, downloads).page
      ensures statusRequests == old(statusRequests) + AfterCreate(old(View()), Created(response, abortedMeanwhile), polls, downloads).requests
    {
      if abortedMeanwhile {
        AbortGeneration();
      }
      jobId := response.jobId;
      jobStatus := response.status;
      PollJobStatus(polls, downloads);
    }

    /** `RunSubmit`: validate the prompt, reset the page, replace the
        cancellation source, create the job and poll it; `loading` is false
        at the end on every path. */
    method RunSubmit(create: JobRequest -> CreateStep, polls: nat -> PollStep, downloads: nat -> DownloadStep)
      modifies this, cts
      ensures View() == Submit(old(View()), create, polls, downloads).page
      ensures statusRequests == old(statusRequests) + Submit(old(View()), create, polls, downloads).requests
      ensures !IsBlank(old(prompt)) ==> !loading && cts != null && fresh(cts)
      ensures IsBlank(old(prompt)) ==> cts == old(cts)
      ensures !IsBlank(old(prompt)) && old(cts) != null ==> old(cts).disposed
    {
      if IsBlank(prompt) {
        warning := PromptMissingMessage;
        return;
      }
      ghost var p := View();
      StartJob();
      var body := BuildRequest();
      CreateJob(create(body), polls, downloads);
      loading := false;
    }

    /** `Dispose`: releases the source, if any. */
    method Dispose()
      modifies cts
      ensures View() == old(View()).(token := if cts == null then NoSource else Source(old(View()).token.cancelled, true))
    {
      if cts != null {
        cts.Dispose();
      }
    }
  }
}
