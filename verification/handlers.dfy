/** The two POST handlers, reduced to their decisions: which status code
    they answer with, what body, and which generation request, if any, they
    send. JSON parsing and serialisation are not modelled; a field the
    client did not send is the empty string (or no seed). */
module Handlers {
  import opened Wrappers
  import opened Text
  import opened Styles
  import opened Prompt
  import opened Generation

  /** Every error a handler can report. */
  datatype ApiError =
    | Invalid(validation: ValidationError)  // answered with 400
    | Failed(kind: FailureKind)             // answered with 500

  /** The JSON body of a reply. */
  datatype Body =
    | Generated(image: string, prompt: string, seed: int)
    | ErrorBody(error: ApiError)

  /** A handler's observable behaviour: the reply, and the generation call
      it made (none when the input was rejected). */
  datatype Exchange = Exchange(status: int, body: Body, call: Option<Attempt>)

  /** The reply to a prompt that passed validation: 200 with the image, the
      prompt and the seed when generation succeeded, 500 otherwise. The
      ensures clauses only unfold the two cases; they are kept because they
      spare the verifier that unfolding in the handlers' proofs. */
  function Respond(prompt: string, a: Attempt): (x: Exchange)
    ensures x.call == Some(a)
    ensures x.status == 200 <==> a.outcome.Success?
    ensures x.status != 200 ==> x.status == 500 && x.body == ErrorBody(Failed(a.outcome.kind))
    ensures x.status == 200 ==> x.body == Generated(a.outcome.image, prompt, a.outcome.seed)
  {
    match a.outcome
    case Success(image, seed) => Exchange(200, Generated(image, prompt, seed), Some(a))
    case Failure(kind) => Exchange(500, ErrorBody(Failed(kind)), Some(a))
  }

  /** `POST /generate`: a blank company name is answered with 400 and no
      generation; otherwise the built prompt is generated with a fresh
      seed taken from the clock. */
  function HandleGenerate(companyName: string, customPrompt: string, style: string, clock: int,
                          create: CreateReply, service: nat -> PollReply): (x: Exchange)
    ensures x.status in {200, 400, 500}
    ensures x.status == 400 <==> IsBlank(companyName)
    ensures x.status == 400 <==> x.call.None?
    ensures x.status == 400 ==> x.body == ErrorBody(Invalid(MissingCompanyName))
    ensures x.status == 200 <==> x.body.Generated?
    ensures x.call.Some? ==>
              && Ok(x.call.value.request.prompt) == BuildPrompt(companyName, customPrompt, PresetStyles, style)
              && x.call.value.request.seed == clock
    ensures x.call.Some? ==> x.call.value == GenerateImage(x.call.value.request.prompt, None, clock, create, service)
    ensures x.call.Some? ==> (x.status == 200 <==> x.call.value.outcome.Success?)
    ensures x.status == 500 ==>
              x.call.Some? && x.call.value.outcome.Failure? && x.body == ErrorBody(Failed(x.call.value.outcome.kind))
    ensures x.body.Generated? ==>
              && x.call.Some? && x.call.value.outcome.Success?
              && x.body.image == x.call.value.outcome.image
              && x.body.prompt == x.call.value.request.prompt
              && x.body.seed == clock
  {
    match BuildPrompt(companyName, customPrompt, PresetStyles, style)
    case Err(e) => Exchange(400, ErrorBody(Invalid(e)), None)
    case Ok(prompt) => Respond(prompt, GenerateImage(prompt, None, clock, create, service))
  }

  /** `POST /refine`: a blank earlier prompt or refinement is answered with
      400 and no generation; otherwise the joined prompt is generated with
      the seed the client sent back, or a clock seed when it sent none. */
  function HandleRefine(originalPrompt: string, refinement: string, seed: Option<int>, clock: int,
                        create: CreateReply, service: nat -> PollReply): (x: Exchange)
    ensures x.status in {200, 400, 500}
    ensures x.status == 400 <==> IsBlank(originalPrompt) || IsBlank(refinement)
    ensures x.status == 400 <==> x.call.None?
    ensures x.status == 400 ==> x.body == ErrorBody(Invalid(MissingRefinementInput))
    ensures x.status == 200 <==> x.body.Generated?
    ensures x.call.Some? ==> Ok(x.call.value.request.prompt) == RefinePrompt(originalPrompt, refinement)
    ensures x.call.Some? ==> x.call.value == GenerateImage(x.call.value.request.prompt, seed, clock, create, service)
    ensures x.call.Some? && seed.Some? ==> x.call.value.request.seed == seed.value
    ensures x.call.Some? && seed.None? ==> x.call.value.request.seed == clock
    ensures x.call.Some? ==> (x.status == 200 <==> x.call.value.outcome.Success?)
    ensures x.status == 500 ==>
              x.call.Some? && x.call.value.outcome.Failure? && x.body == ErrorBody(Failed(x.call.value.outcome.kind))
    ensures x.body.Generated? ==>
              && x.call.Some? && x.call.value.outcome.Success?
              && x.body.image == x.call.value.outcome.image
              && x.body.prompt == x.call.value.request.prompt
              && x.body.seed == x.call.value.request.seed
    ensures x.body.Generated? && seed.Some? ==> x.body.seed == seed.value
  {
    match RefinePrompt(originalPrompt, refinement)
    case Err(e) => Exchange(400, ErrorBody(Invalid(e)), None)
    case Ok(prompt) => Respond(prompt, GenerateImage(prompt, seed, clock, create, service))
  }

  /** The worked example of the refine endpoint: the earlier prompt
      "Logo for X" refined with "make it blue" is sent as one prompt with the
      literal separator between them, with the seed sent back reused. The two
      texts are parameters fixed by the precondition rather than literals in
      the call, which keeps the verifier from unfolding the whole handler on
      constant strings. */
  lemma RefineExample(original: string, extra: string, seed: int, clock: int,
                      create: CreateReply, service: nat -> PollReply)
    requires original == "Logo for X" && extra == "make it blue"
    ensures var x := HandleRefine(original, extra, Some(seed), clock, create, service);
      && x.call.Some?
      && x.call.value.request.prompt == "Logo for X Дополнительно: make it blue"
      && x.call.value.request.seed == seed
  {
    RefineExamplePrompt(original, extra);
  }

  /** The page's round trip: the prompt and seed returned by a successful
      create, sent back with a non-blank refinement, produce a request whose
      prompt extends the returned prompt verbatim and whose seed is the
      returned seed. */
  lemma RefineAfterGenerate(companyName: string, customPrompt: string, style: string, clock: int,
                            create: CreateReply, service: nat -> PollReply,
                            refinement: string, clock': int, create': CreateReply, service': nat -> PollReply)
    requires HandleGenerate(companyName, customPrompt, style, clock, create, service).body.Generated?
    requires !IsBlank(refinement)
    ensures var g := HandleGenerate(companyName, customPrompt, style, clock, create, service).body;
      var x := HandleRefine(g.prompt, refinement, Some(g.seed), clock', create', service');
      && x.call.Some?
      && x.call.value.request.prompt == g.prompt + RefineSeparator + Strip(refinement)
      && x.call.value.request.seed == g.seed
  {
    var g := HandleGenerate(companyName, customPrompt, style, clock, create, service).body;
    RefineBuiltPrompt(companyName, customPrompt, PresetStyles, style, refinement);
  }
}
