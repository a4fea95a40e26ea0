/** The generation client: one creation call to the image service, then up
    to `MaxAttempts` status checks of the returned operation, ending in
    exactly one success (image and seed) or one failure kind.

    The service is abstracted away: the creation call's reply is a
    parameter, and the status checks are answered by `service`, where
    `service(k)` is the reply to the check numbered k (from 0). Network
    timeouts and raised exceptions are replies of their own. The wall
    clock that supplies a missing seed is the parameter `clock`. */
module Generation {
  import opened Wrappers

  /** The number of status checks before giving up. */
  const MaxAttempts: nat := 60

  /** The aspect ratio sent with every request: square. */
  const WidthRatio: string := "1"
  const HeightRatio: string := "1"

  /** The body of the creation call, as far as this model sees it. */
  datatype CreationRequest = CreationRequest(prompt: string, seed: int, widthRatio: string, heightRatio: string)

  /** How the creation call ended. `operationId` is the `id` field of the
      JSON body, absent when the field is missing or null. */
  datatype CreateReply =
    | CreateAnswered(status: int, body: string, operationId: Option<string>)
    | CreateTimedOut             // the HTTP client's timeout fired
    | CreateRaised(message: string)  // any other exception, e.g. a body that is not JSON

  /** How one status check ended. `error` is present when the JSON body has
      an `error` key; `image` is `response.image`, absent when missing. */
  datatype PollReply =
    | PollAnswered(status: int, body: string, done: bool, error: Option<string>, image: Option<string>)
    | PollTimedOut
    | PollRaised(message: string)

  /** The closed set of ways a generation can fail, carrying the provider
      or exception text where the message interpolates one. */
  datatype FailureKind =
    | CreateRejected(providerText: string)   // creation answered with a status other than 200
    | NoOperationId                          // creation answered 200 without a usable id
    | StatusRejected(providerText: string)   // a status check answered with a status other than 200
    | GenerationFailed(providerError: string) // the finished operation reports an error
    | ImageNotFound                          // the finished operation has no image
    | GenerationTimedOut                     // no check reported completion
    | RequestTimedOut                        // a network call timed out
    | Unexpected(message: string)            // any other exception

  /** The result of one generation: exactly one of the two. */
  datatype Outcome = Success(image: string, seed: int) | Failure(kind: FailureKind)

  /** What the status-check loop produced and how many checks it made. */
  datatype Polled = Polled(outcome: Outcome, checks: nat)

  /** Everything one call of the client does: the request it submits, its
      result, and how many status checks it made. */
  datatype Attempt = Attempt(request: CreationRequest, outcome: Outcome, statusChecks: nat)

  /** A check that lets the loop go on: answered 200, not finished. */
  predicate Pending(reply: PollReply) {
    reply.PollAnswered? && reply.status == 200 && !reply.done
  }

  /** A check that finishes the loop with an image: answered 200, finished,
      no error key, and a non-empty image. */
  predicate DeliversImage(reply: PollReply) {
    && reply.PollAnswered? && reply.status == 200 && reply.done
    && reply.error.None? && reply.image.Some? && reply.image.value != ""
  }

  /** Every check numbered `from` up to (not including) `to` was pending. */
  ghost predicate PendingBetween(service: nat -> PollReply, from: nat, to: nat) {
    forall j: nat :: from <= j < to ==> Pending(service(j))
  }

  /** The seed the request carries: the caller's when given, the clock
      reading otherwise. An explicit zero is a given seed. The ensures
      clauses only unfold the two cases; they are kept because they spare
      the verifier that unfolding in the callers' proofs. */
  function ChooseSeed(seed: Option<int>, clock: int): (s: int)
    ensures seed.Some? ==> s == seed.value
    ensures seed.None? ==> s == clock
  {
    match seed
    case Some(given) => given
    case None => clock
  }

  /** The creation call's verdict: the operation id to poll, or why the
      client stops before polling. An empty id is as absent as a missing one. */
  function AcceptCreation(reply: CreateReply): (r: Result<string, FailureKind>)
    ensures r.Ok? <==> reply.CreateAnswered? && reply.status == 200
                       && reply.operationId.Some? && reply.operationId.value != ""
    ensures r.Ok? ==> r.value == reply.operationId.value
    ensures reply.CreateAnswered? && reply.status != 200 ==> r == Err(CreateRejected(reply.body))
    ensures reply.CreateAnswered? && reply.status == 200 && r.Err? ==> r == Err(NoOperationId)
    ensures reply.CreateTimedOut? ==> r == Err(RequestTimedOut)
    ensures reply.CreateRaised? ==> r == Err(Unexpected(reply.message))
  {
    match reply
    case CreateTimedOut => Err(RequestTimedOut)
    case CreateRaised(message) => Err(Unexpected(message))
    case CreateAnswered(status, body, operationId) =>
      if status != 200 then Err(CreateRejected(body))
      else match operationId
        case None => Err(NoOperationId)
        case Some(id) => if id == "" then Err(NoOperationId) else Ok(id)
  }

  /** The verdict of one status check: nothing when the operation is still
      running, otherwise the outcome it ends the loop with. */
  function Settle(reply: PollReply, seed: int): (o: Option<Outcome>)
    ensures o.None? <==> Pending(reply)
    ensures o.Some? && o.value.Success? <==> DeliversImage(reply)
    ensures DeliversImage(reply) ==> o == Some(Success(reply.image.value, seed))
    ensures o.Some? ==> o.value != Failure(GenerationTimedOut)
    ensures reply.PollAnswered? && reply.status != 200 ==> o == Some(Failure(StatusRejected(reply.body)))
    ensures (reply.PollAnswered? && reply.status == 200 && reply.done && reply.error.Some?)
            ==> o == Some(Failure(GenerationFailed(reply.error.value)))
    ensures (reply.PollAnswered? && reply.status == 200 && reply.done && reply.error.None?
             && !DeliversImage(reply)) ==> o == Some(Failure(ImageNotFound))
    ensures reply.PollTimedOut? ==> o == Some(Failure(RequestTimedOut))
    ensures reply.PollRaised? ==> o == Some(Failure(Unexpected(reply.message)))
  {
    match reply
    case PollTimedOut => Some(Failure(RequestTimedOut))
    case PollRaised(message) => Some(Failure(Unexpected(message)))
    case PollAnswered(status, body, done, error, image) =>
      if status != 200 then Some(Failure(StatusRejected(body)))
      else if !done then None
      else if error.Some? then Some(Failure(GenerationFailed(error.value)))
      else if image.Some? && image.value != "" then Some(Success(image.value, seed))
      else Some(Failure(ImageNotFound))
  }

  /** The status-check loop from check number `attempt` on. It stops at
      the first check that is not pending, and after `MaxAttempts` checks
      with a timeout. */
  function Poll(service: nat -> PollReply, seed: int, attempt: nat): (p: Polled)
    requires attempt <= MaxAttempts
    ensures attempt <= p.checks <= MaxAttempts
    ensures attempt < MaxAttempts ==> attempt < p.checks
    ensures p.outcome.Success? ==> p.outcome.seed == seed
    ensures p.outcome == Failure(GenerationTimedOut) ==> p.checks == MaxAttempts
    decreases MaxAttempts - attempt
  {
    if attempt == MaxAttempts then Polled(Failure(GenerationTimedOut), attempt)
    else match Settle(service(attempt), seed)
      case Some(outcome) => Polled(outcome, attempt + 1)
      case None => Poll(service, seed, attempt + 1)
  }

  /** One call of the client: choose the seed, build the request, submit
      it, and poll only when the creation call yielded an operation id. */
  function GenerateImage(prompt: string, seed: Option<int>, clock: int,
                         create: CreateReply, service: nat -> PollReply): (a: Attempt)
    ensures a.request.prompt == prompt
    ensures a.request.widthRatio == WidthRatio && a.request.heightRatio == HeightRatio
    ensures seed.Some? ==> a.request.seed == seed.value
    ensures seed.None? ==> a.request.seed == clock
    ensures a.outcome.Success? ==> a.outcome.seed == a.request.seed
    ensures a.statusChecks <= MaxAttempts
    ensures AcceptCreation(create).Err? ==>
              a.outcome == Failure(AcceptCreation(create).error) && a.statusChecks == 0
  {
    var s := ChooseSeed(seed, clock);
    var request := CreationRequest(prompt, s, WidthRatio, HeightRatio);
    match AcceptCreation(create)
    case Err(kind) => Attempt(request, Failure(kind), 0)
    case Ok(_) =>
      var p := Poll(service, s, 0);
      Attempt(request, p.outcome, p.checks)
  }

  /** The status-check loop as app.py writes it: an attempt counter
      counted up to `MaxAttempts` in a loop that returns from inside. It
      computes exactly `Poll` from the first check. */
  method PollOperation(service: nat -> PollReply, seed: int) returns (p: Polled)
    ensures p == Poll(service, seed, 0)
  {
    var attempt: nat := 0;
    while attempt < MaxAttempts
      invariant attempt <= MaxAttempts
      invariant Poll(service, seed, attempt) == Poll(service, seed, 0)
    {
      var reply := service(attempt);
      if !reply.PollAnswered? {
        var kind := if reply.PollTimedOut? then RequestTimedOut else Unexpected(reply.message);
        return Polled(Failure(kind), attempt + 1);
      }
      if reply.status != 200 {
        return Polled(Failure(StatusRejected(reply.body)), attempt + 1);
      }
      if reply.done {
        if reply.error.Some? {
          return Polled(Failure(GenerationFailed(reply.error.value)), attempt + 1);
        }
        if reply.image.Some? && reply.image.value != "" {
          return Polled(Success(reply.image.value, seed), attempt + 1);
        }
        return Polled(Failure(ImageNotFound), attempt + 1);
      }
      attempt := attempt + 1;
    }
    return Polled(Failure(GenerationTimedOut), MaxAttempts);
  }

  /** The client as app.py writes it: seed choice, the creation checks
      in app.py's order, then the status-check loop. It computes
      exactly `GenerateImage`. */
  method RunGeneration(prompt: string, seed: Option<int>, clock: int,
                       create: CreateReply, service: nat -> PollReply) returns (a: Attempt)
    ensures a == GenerateImage(prompt, seed, clock, create, service)
  {
    var s: int;
    if seed.None? {
      s := clock;
    } else {
      s := seed.value;
    }
    var request := CreationRequest(prompt, s, WidthRatio, HeightRatio);
    if create.CreateTimedOut? {
      return Attempt(request, Failure(RequestTimedOut), 0);
    }
    if create.CreateRaised? {
      return Attempt(request, Failure(Unexpected(create.message)), 0);
    }
    if create.status != 200 {
      return Attempt(request, Failure(CreateRejected(create.body)), 0);
    }
    if create.operationId.None? || create.operationId.value == "" {
      return Attempt(request, Failure(NoOperationId), 0);
    }
    var p := PollOperation(service, s);
    return Attempt(request, p.outcome, p.checks);
  }

  /** The loop's result is decided by the first check that is not pending:
      if check k is the first such within the budget, the outcome is that
      check's verdict after exactly k + 1 checks. */
  lemma {:induction false} PollFirstSettled(service: nat -> PollReply, seed: int, attempt: nat, k: nat)
    requires attempt <= k < MaxAttempts
    requires PendingBetween(service, attempt, k) && !Pending(service(k))
    ensures Poll(service, seed, attempt) == Polled(Settle(service(k), seed).value, k + 1)
    decreases k - attempt
  {
    if attempt < k {
      assert Pending(service(attempt));
      PollFirstSettled(service, seed, attempt + 1, k);
    }
  }

  /** How the loop ended: on a timeout every check it made was pending;
      otherwise every check but the last was pending and the last one's
      verdict is the outcome. */
  lemma {:induction false} PollLastCheck(service: nat -> PollReply, seed: int, attempt: nat)
    requires attempt <= MaxAttempts
    ensures var p := Poll(service, seed, attempt);
      && (p.outcome == Failure(GenerationTimedOut) ==> PendingBetween(service, attempt, MaxAttempts))
      && (p.outcome != Failure(GenerationTimedOut) ==>
            && PendingBetween(service, attempt, p.checks - 1)
            && Settle(service(p.checks - 1), seed) == Some(p.outcome))
    decreases MaxAttempts - attempt
  {
    if attempt < MaxAttempts && Settle(service(attempt), seed).None? {
      PollLastCheck(service, seed, attempt + 1);
      assert Poll(service, seed, attempt) == Poll(service, seed, attempt + 1);
    }
  }

  /** The loop times out exactly when all `MaxAttempts` checks are pending,
      and then it has made exactly `MaxAttempts` checks, no more. */
  lemma PollTimeoutIff(service: nat -> PollReply, seed: int)
    ensures Poll(service, seed, 0).outcome == Failure(GenerationTimedOut)
            <==> PendingBetween(service, 0, MaxAttempts)
    ensures PendingBetween(service, 0, MaxAttempts) ==>
              Poll(service, seed, 0) == Polled(Failure(GenerationTimedOut), MaxAttempts)
  {
    PollLastCheck(service, seed, 0);
  }

  /** The loop succeeds exactly when some check within the budget delivers
      an image after only pending checks, and the success carries that
      image and the seed unchanged. */
  lemma PollSuccessIff(service: nat -> PollReply, seed: int)
    ensures Poll(service, seed, 0).outcome.Success? <==>
              exists k: nat :: k < MaxAttempts && PendingBetween(service, 0, k) && DeliversImage(service(k))
    ensures forall k: nat :: k < MaxAttempts && PendingBetween(service, 0, k) && DeliversImage(service(k)) ==>
              Poll(service, seed, 0) == Polled(Success(service(k).image.value, seed), k + 1)
  {
    forall k: nat | k < MaxAttempts && PendingBetween(service, 0, k) && DeliversImage(service(k))
      ensures Poll(service, seed, 0) == Polled(Success(service(k).image.value, seed), k + 1)
    {
      PollFirstSettled(service, seed, 0, k);
    }
    PollLastCheck(service, seed, 0);
    var p := Poll(service, seed, 0);
    if p.outcome.Success? {
      assert DeliversImage(service(p.checks - 1));
    }
  }

  /** The loop looks only at the checks it makes: a service that answers
      those checks the same way yields the same result. */
  lemma {:induction false} PollReadsOnlyChecksMade(service: nat -> PollReply, other: nat -> PollReply,
                                                   seed: int, attempt: nat, n: nat)
    requires attempt <= MaxAttempts
    requires Poll(service, seed, attempt).checks <= n
    requires forall j: nat :: attempt <= j < n ==> other(j) == service(j)
    ensures Poll(other, seed, attempt) == Poll(service, seed, attempt)
    decreases MaxAttempts - attempt
  {
    if attempt < MaxAttempts {
      assert other(attempt) == service(attempt);
      var verdict := Settle(service(attempt), seed);
      if verdict.None? {
        assert Poll(service, seed, attempt) == Poll(service, seed, attempt + 1);
        assert Poll(other, seed, attempt) == Poll(other, seed, attempt + 1);
        PollReadsOnlyChecksMade(service, other, seed, attempt + 1, n);
      } else {
        assert Poll(service, seed, attempt) == Polled(verdict.value, attempt + 1);
        assert Poll(other, seed, attempt) == Polled(verdict.value, attempt + 1);
      }
    }
  }

  /** A rejected or unusable creation reply ends the call with its failure
      before any status check; an accepted one hands over to the loop. */
  lemma GenerateImageStages(prompt: string, seed: Option<int>, clock: int,
                            create: CreateReply, service: nat -> PollReply)
    ensures var a := GenerateImage(prompt, seed, clock, create, service);
      && (create.CreateAnswered? && create.status != 200 ==>
            a.outcome == Failure(CreateRejected(create.body)) && a.statusChecks == 0)
      && (create.CreateAnswered? && create.status == 200 && (create.operationId.None? || create.operationId.value == "") ==>
            a.outcome == Failure(NoOperationId) && a.statusChecks == 0)
      && (AcceptCreation(create).Ok? ==>
            Polled(a.outcome, a.statusChecks) == Poll(service, a.request.seed, 0))
  {
  }
}
