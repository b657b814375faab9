/** Image generator (backend/src/agent/imageGenerator.js): mock images, the
    text-to-image task submission, and the bounded polling loop. */
module ImageGenerator {
  import opened Wrappers
  import opened Strings

  /** The fixed placeholder images. */
  const MockUrls: seq<string> := [
    "https://images.unsplash.com/photo-1699004186431-e20f5540644f?w=800&auto=format&fit=crop&q=60",
    "https://images.unsplash.com/photo-1699477166539-1959939c55a4?w=800&auto=format&fit=crop&q=60",
    "https://images.unsplash.com/photo-1682687220742-aba13b6e50ba?w=800&auto=format&fit=crop&q=60",
    "https://images.unsplash.com/photo-1682685797661-9e0c8c18e187?w=800&auto=format&fit=crop&q=60"
  ]

  /** `generateImages`'s default for `count`. */
  const DefaultCount: nat := 4
  /** `pollTask`'s attempt ceiling (the 2-second delay is not modelled). */
  const MaxRetries: nat := 30

  /** What the task-submission request yields: it threw, or it answered with
      `output.task_id` present or missing. */
  datatype SubmitReply = SubmitThrew | Submitted(taskId: Option<string>)

  /** What one poll request yields: it threw (including a reply whose fields
      could not be read), or it answered with `output.task_status` and, when
      present, the `url` of each entry of `output.results`. */
  datatype PollResponse = PollThrew | Polled(status: string, results: Option<seq<string>>)

  /** The image-synthesis service: `submit(prompt, n)` and
      `poll(taskId, attempt)`, the reply to the poll made on the given attempt. */
  datatype WanxService = WanxService(submit: (string, nat) -> SubmitReply, poll: (string, nat) -> PollResponse)

  /** `mockImages(count)`: `mocks.slice(0, count)`. */
  function MockImages(count: nat): (r: seq<string>)
    ensures |r| == if count < |MockUrls| then count else |MockUrls|
    ensures r == MockUrls[..|r|]
  {
    Take(MockUrls, count)
  }

  /** A reply that ends the loop with results. */
  predicate Succeeded(r: PollResponse) {
    r.Polled? && r.status == "SUCCEEDED" && r.results.Some?
  }

  /** A reply that ends the loop without results. */
  predicate Aborted(r: PollResponse) {
    r.Polled? && (r.status == "FAILED" || r.status == "CANCELED")
  }

  /** A reply that ends the loop. Any other reply (a thrown request, RUNNING,
      PENDING, an unknown status, SUCCEEDED without results) lets it go on. */
  predicate Terminal(r: PollResponse) {
    Succeeded(r) || Aborted(r)
  }

  /** The outcome of polling from attempt `i` on. */
  function PollFrom(svc: WanxService, taskId: string, i: nat): Option<seq<string>>
    decreases MaxRetries - i
  {
    if i >= MaxRetries then None
    else
      var r := svc.poll(taskId, i);
      if Succeeded(r) then r.results
      else if Aborted(r) then None
      else PollFrom(svc, taskId, i + 1)
  }

  /** `pollTask(taskId)`: returns the urls of the first successful reply and
      the number of polls made. */
  method PollTask(svc: WanxService, taskId: string) returns (urls: Option<seq<string>>, attempts: nat)
    ensures 1 <= attempts <= MaxRetries
    ensures urls == PollFrom(svc, taskId, 0)
    ensures forall k :: 0 <= k < attempts - 1 ==> !Terminal(svc.poll(taskId, k))
    ensures urls.Some? ==> Succeeded(svc.poll(taskId, attempts - 1)) && urls == svc.poll(taskId, attempts - 1).results
    ensures urls.None? ==> Aborted(svc.poll(taskId, attempts - 1)) ||
                           (attempts == MaxRetries && !Terminal(svc.poll(taskId, attempts - 1)))
  {
    for i := 0 to MaxRetries
      invariant forall k :: 0 <= k < i ==> !Terminal(svc.poll(taskId, k))
      invariant PollFrom(svc, taskId, 0) == PollFrom(svc, taskId, i)
    {
      var response := svc.poll(taskId, i);
      attempts := i + 1;
      match response {
        case PollThrew =>
          // the error is logged and polling goes on
        case Polled(status, results) =>
          if status == "SUCCEEDED" {
            if results.Some? {
              urls := results;
              return;
            }
          } else if status == "FAILED" || status == "CANCELED" {
            urls := None;
            return;
          }
      }
    }
    urls, attempts := None, MaxRetries;
  }

  /** What `callAlibabaWanx(prompt, count)` returns: the polled urls, not cut
      to `count`, or the mock images when the submission throws, carries no
      task id, or polling yields nothing. */
  function WanxImages(svc: WanxService, prompt: string, count: nat): seq<string> {
    match svc.submit(prompt, count)
    case SubmitThrew => MockImages(count)
    case Submitted(taskId) =>
      if taskId.Some? && taskId.value != "" then
        match PollFrom(svc, taskId.value, 0)
        case Some(urls) => urls
        case None => MockImages(count)
      else MockImages(count)
  }

  /** What `generateImages(promptData, count)` returns. */
  function GeneratedImages(hasApiKey: bool, svc: WanxService, prompt: string, count: nat): seq<string> {
    if hasApiKey then WanxImages(svc, prompt, count) else MockImages(count)
  }

  /** `callAlibabaWanx(prompt, count)`. */
  method CallWanx(svc: WanxService, prompt: string, count: nat) returns (images: seq<string>)
    ensures images == WanxImages(svc, prompt, count)
  {
    var reply := svc.submit(prompt, count);
    if reply.Submitted? && reply.taskId.Some? && reply.taskId.value != "" {
      var results, _ := PollTask(svc, reply.taskId.value);
      if results.Some? {
        return results.value;
      }
    }
    images := MockImages(count);
  }

  /** `generateImages(promptData, count)`. */
  method GenerateImages(hasApiKey: bool, svc: WanxService, prompt: string, count: nat) returns (images: seq<string>)
    ensures images == GeneratedImages(hasApiKey, svc, prompt, count)
  {
    if hasApiKey {
      images := CallWanx(svc, prompt, count);
    } else {
      images := MockImages(count);
    }
  }

  // ---------------------------------------------------------------------------
  // Properties of polling and of the fallbacks

  /** Polling stops at the first terminal reply within the 30 attempts: its
      urls when it succeeded, nothing when the task failed or was canceled. */
  lemma {:induction false} PollStopsAtFirstTerminal(svc: WanxService, taskId: string, i: nat, n: nat)
    requires i <= n < MaxRetries
    requires forall k :: i <= k < n ==> !Terminal(svc.poll(taskId, k))
    requires Terminal(svc.poll(taskId, n))
    ensures PollFrom(svc, taskId, i) == if Succeeded(svc.poll(taskId, n)) then svc.poll(taskId, n).results else None
    decreases n - i
  {
    if i < n {
      PollStopsAtFirstTerminal(svc, taskId, i + 1, n);
    }
  }

  /** Thirty non-terminal replies time out with nothing. */
  lemma {:induction false} PollTimesOut(svc: WanxService, taskId: string, i: nat)
    requires forall k :: i <= k < MaxRetries ==> !Terminal(svc.poll(taskId, k))
    ensures PollFrom(svc, taskId, i).None?
    decreases MaxRetries - i
  {
    if i < MaxRetries {
      PollTimesOut(svc, taskId, i + 1);
    }
  }

  /** Only the first 30 replies matter. */
  lemma {:induction false} PollReadsFirstThirty(svc: WanxService, other: WanxService, taskId: string, i: nat)
    requires forall k :: i <= k < MaxRetries ==> svc.poll(taskId, k) == other.poll(taskId, k)
    ensures PollFrom(svc, taskId, i) == PollFrom(other, taskId, i)
    decreases MaxRetries - i
  {
    if i < MaxRetries {
      PollReadsFirstThirty(svc, other, taskId, i + 1);
    }
  }

  /** Without an API key the mock images are returned; four by default. */
  lemma MockMode(svc: WanxService, prompt: string, count: nat)
    ensures GeneratedImages(false, svc, prompt, count) == MockImages(count)
    ensures GeneratedImages(false, svc, prompt, DefaultCount) == MockUrls
  {}

  /** A task that fails or is canceled before succeeding ends in the mock
      images, the same list as mock mode. */
  lemma FailedTaskFallsBack(svc: WanxService, prompt: string, count: nat, taskId: string, n: nat)
    requires svc.submit(prompt, count) == Submitted(Some(taskId)) && taskId != ""
    requires n < MaxRetries
    requires forall k :: 0 <= k < n ==> !Terminal(svc.poll(taskId, k))
    requires Aborted(svc.poll(taskId, n))
    ensures GeneratedImages(true, svc, prompt, count) == GeneratedImages(false, svc, prompt, count)
  {
    PollStopsAtFirstTerminal(svc, taskId, 0, n);
  }

  /** A task that never reaches a terminal status in 30 polls ends in the mock
      images. */
  lemma TimedOutTaskFallsBack(svc: WanxService, prompt: string, count: nat, taskId: string)
    requires svc.submit(prompt, count) == Submitted(Some(taskId)) && taskId != ""
    requires forall k :: 0 <= k < MaxRetries ==> !Terminal(svc.poll(taskId, k))
    ensures GeneratedImages(true, svc, prompt, count) == MockImages(count)
  {
    PollTimesOut(svc, taskId, 0);
  }

  /** A failed submission or a missing task id ends in the mock images. */
  lemma SubmissionFallsBack(svc: WanxService, prompt: string, count: nat)
    requires svc.submit(prompt, count) == SubmitThrew ||
             svc.submit(prompt, count) == Submitted(None) ||
             svc.submit(prompt, count) == Submitted(Some(""))
    ensures GeneratedImages(true, svc, prompt, count) == MockImages(count)
  {}

  /** The urls of the first successful reply are returned as they are, however
      many there are and whatever `count` was. */
  lemma SucceededTaskReturnsUrls(svc: WanxService, prompt: string, count: nat, taskId: string, n: nat)
    requires svc.submit(prompt, count) == Submitted(Some(taskId)) && taskId != ""
    requires n < MaxRetries
    requires forall k :: 0 <= k < n ==> !Terminal(svc.poll(taskId, k))
    requires Succeeded(svc.poll(taskId, n))
    ensures GeneratedImages(true, svc, prompt, count) == svc.poll(taskId, n).results.value
  {
    PollStopsAtFirstTerminal(svc, taskId, 0, n);
  }
}
