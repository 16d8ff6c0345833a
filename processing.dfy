/** The processing manager: which vendor client is ready, and the two runs
    the "process screenshots" shortcut starts — solving the problem in the
    primary queue, or debugging with the extra queue — with the messages each
    sends and the session state each leaves behind. Vendor calls are
    replaced by the replies they give; `JSON.parse` by a function. */
module Processing {
  import opened Common
  import opened Text
  import opened Screenshots
  import opened Config
  import opened ResponseParsing
  import opened Session

  /** What a vendor call gives back: it throws, it has no text (OpenAI's
      `null` content), or it has text. */
  datatype Reply = CallFailed | NoContent | Content(text: string)

  /** What `JSON.parse` makes of a text: it throws, yields a falsy value, or
      yields a problem. */
  datatype ParseOutcome = ParseError | Falsy | Parsed(info: ProblemInfo)

  /** A request made to a vendor, with the screenshots it carried. */
  datatype Call =
    | ExtractionCall(provider: Provider, images: seq<Path>)
    | SolutionCall(provider: Provider)
    | DebugCall(provider: Provider, images: seq<Path>)

  /** The world one run sees: the replies to its three possible requests, the
      JSON parser, the regular-expression captures, and the files whose read
      fails. */
  datatype Oracles = Oracles(
    extraction: Reply,
    solution: Reply,
    debug: Reply,
    parse: string -> ParseOutcome,
    extractors: Extractors,
    unreadable: set<Path>)

  const NoValidScreenshots: string := "No valid screenshots to process"
  const OpenAIParseFailed: string := "Failed to parse OpenAI response"
  const GeminiParseFailed: string := "Failed to parse Gemini response"
  const ProcessFailed: string := "Failed to process screenshot"
  const DebugFailed: string := "Failed to process extra screenshots"

  /** The paths of `ps` that are in `keep`, in their order. */
  function KeepIn(ps: seq<Path>, keep: set<Path>): (r: seq<Path>)
    ensures |r| <= |ps|
    ensures forall p :: p in r <==> p in ps && p in keep
  {
    if ps == [] then []
    else if ps[0] in keep then [ps[0]] + KeepIn(ps[1..], keep)
    else KeepIn(ps[1..], keep)
  }

  /** Filtering distributes over concatenation: order is kept across the two
      queues. */
  lemma {:induction false} KeepInAppend(a: seq<Path>, b: seq<Path>, keep: set<Path>)
    ensures KeepIn(a + b, keep) == KeepIn(a, keep) + KeepIn(b, keep)
  {
    if a == [] {
      assert a + b == b;
    } else {
      assert (a + b)[0] == a[0] && (a + b)[1..] == a[1..] + b;
      KeepInAppend(a[1..], b, keep);
    }
  }

  /** Filtering twice is filtering by both sets. */
  lemma {:induction false} KeepInTwice(ps: seq<Path>, first: set<Path>, second: set<Path>)
    ensures KeepIn(KeepIn(ps, first), second) == KeepIn(ps, first * second)
  {
    if ps != [] {
      KeepInTwice(ps[1..], first, second);
    }
  }

  /** The screenshots a debug run sends: the readable files of the primary
      queue, then the readable files of the extra queue, each in queue order. */
  lemma {:induction false} DebugImagesInOrder(primary: seq<Path>, extra: seq<Path>, disk: set<Path>, unreadable: set<Path>)
    ensures var readable := disk - unreadable;
            KeepIn(primary + KeepIn(extra, disk), readable) == KeepIn(primary, readable) + KeepIn(extra, readable)
  {
    KeepInAppend(primary, KeepIn(extra, disk), disk - unreadable);
    KeepInTwice(extra, disk, disk - unreadable);
    assert disk * (disk - unreadable) == disk - unreadable;
  }

  /** The problem extraction step of `processScreenshotHelper`: the reply's
      text, cleaned of fences and trimmed, is parsed; a falsy result is kept
      as no problem. A failed OpenAI call escapes to the outer handler; every
      Gemini failure, an empty text included, is a parse failure. */
  function ExtractProblem(provider: Provider, reply: Reply, parse: string -> ParseOutcome)
    : (r: Result<Option<ProblemInfo>>)
    ensures provider == OpenAI && reply.CallFailed? ==> r == Err(ProcessFailed)
    ensures provider == OpenAI && reply.NoContent? ==> r == Err(OpenAIParseFailed)
    ensures provider == Gemini && (reply.CallFailed? || reply.NoContent? || reply == Content("")) ==>
              r == Err(GeminiParseFailed)
    ensures r.Ok? ==> (reply.Content? && (provider == Gemini ==> reply.text != "")
                       && match parse(JsonText(reply.text))
                          case Parsed(info) => r.value == Some(info)
                          case Falsy => r.value == None
                          case ParseError => false)
    ensures (reply.Content? && (provider == OpenAI || reply.text != "") && !parse(JsonText(reply.text)).ParseError?)
              ==> r.Ok?
    ensures (reply.Content? && (provider == OpenAI || reply.text != "") && parse(JsonText(reply.text)).ParseError?)
              ==> r == Err(if provider == OpenAI then OpenAIParseFailed else GeminiParseFailed)
    ensures r.Err? ==> r.error in {ProcessFailed, OpenAIParseFailed, GeminiParseFailed}
  {
    var parseFailed := if provider == OpenAI then OpenAIParseFailed else GeminiParseFailed;
    match reply
    case CallFailed => if provider == OpenAI then Err(ProcessFailed) else Err(GeminiParseFailed)
    case NoContent => Err(parseFailed)
    case Content(text) =>
      if provider == Gemini && text == "" then Err(GeminiParseFailed)
      else
        match parse(JsonText(text))
        case ParseError => Err(parseFailed)
        case Falsy => Ok(None)
        case Parsed(info) => Ok(Some(info))
  }

  /** `generateSolutionsHelper`: without a problem nothing is asked; a reply
      without text fails; otherwise the text is formatted. */
  function GenerateSolution(problem: Option<ProblemInfo>, reply: Reply, ex: Extractors): (r: Result<Solution>)
    ensures r.Ok? <==> problem.Some? && reply.Content?
    ensures r.Ok? ==> r.value == BuildSolution(reply.text, ex)
  {
    if problem.None? then Err("Failed to generate solutions")
    else match reply
      case Content(text) => Ok(BuildSolution(text, ex))
      case _ => Err("Failed to generate solutions")
  }

  /** The extraction yields a problem. */
  predicate FindsProblem(provider: Provider, o: Oracles)
  {
    var extracted := ExtractProblem(provider, o.extraction, o.parse);
    extracted.Ok? && extracted.value.Some?
  }

  /** The outcome of `processScreenshotHelper`: an extraction failure keeps its
      message, any failure after it becomes "Failed to process screenshot". */
  function SolveOutcome(provider: Provider, o: Oracles): (r: Result<Solution>)
    ensures r.Err? ==> r.error in {ProcessFailed, OpenAIParseFailed, GeminiParseFailed}
  {
    match ExtractProblem(provider, o.extraction, o.parse)
    case Err(e) => Err(e)
    case Ok(problem) =>
      if GenerateSolution(problem, o.solution, o.extractors).Ok? then
        GenerateSolution(problem, o.solution, o.extractors)
      else Err(ProcessFailed)
  }

  /** A run solves the problem exactly when the extraction yields a problem
      and the solution request has text, and the solution is that text,
      formatted. */
  lemma {:induction false} SolveOutcomeCharacterized(provider: Provider, o: Oracles)
    ensures SolveOutcome(provider, o).Ok? <==>
              (FindsProblem(provider, o) && o.solution.Content?)
    ensures SolveOutcome(provider, o).Ok? ==>
              var s := SolveOutcome(provider, o).value;
              && s == BuildSolution(o.solution.text, o.extractors)
              && s.code == SolutionCode(o.solution.text) && |s.thoughts| >= 1
              && HasBigO(s.timeComplexity) && HasBigO(s.spaceComplexity)
  {
  }

  /** The outcome of `processExtraScreenshotsHelper`: a problem must have been
      extracted, and a reply with text is formatted for the debug view. */
  function DebugOutcome(problem: Option<ProblemInfo>, reply: Reply, ex: Extractors): (r: Result<DebugResult>)
    ensures r.Ok? <==> problem.Some? && reply.Content?
    ensures r.Ok? ==> r.value == BuildDebugResult(reply.text, ex)
    ensures r.Err? ==> r.error == DebugFailed
  {
    if problem.None? then Err(DebugFailed)
    else match reply
      case Content(text) => Ok(BuildDebugResult(text, ex))
      case _ => Err(DebugFailed)
  }

  /** The messages `processScreenshotHelper` sends: the extracted problem
      once extraction succeeds, then the solution when there is one. */
  function HelperMessages(provider: Provider, o: Oracles): (ms: seq<Message>)
    ensures |ms| <= 2
    ensures SolveOutcome(provider, o).Ok? ==> |ms| == 2 && ms[1] == Message(SolutionSuccessEvent, SolutionPayload(SolveOutcome(provider, o).value))
  {
    match ExtractProblem(provider, o.extraction, o.parse)
    case Err(_) => []
    case Ok(problem) =>
      [Message(ProblemExtractedEvent, ProblemPayload(problem))]
      + match GenerateSolution(problem, o.solution, o.extractors)
        case Ok(s) => [Message(SolutionSuccessEvent, SolutionPayload(s))]
        case Err(_) => []
  }

  /** A failed extraction announces nothing and is the run's outcome. */
  lemma HelperMessagesOnError(provider: Provider, o: Oracles)
    requires ExtractProblem(provider, o.extraction, o.parse).Err?
    ensures HelperMessages(provider, o) == []
    ensures SolveOutcome(provider, o) == Err(ExtractProblem(provider, o.extraction, o.parse).error)
  {
  }

  /** An extracted problem is announced first, then the solution if there is one. */
  lemma HelperMessagesOnProblem(provider: Provider, o: Oracles)
    requires ExtractProblem(provider, o.extraction, o.parse).Ok?
    ensures var problem := ExtractProblem(provider, o.extraction, o.parse).value;
            var outcome := SolveOutcome(provider, o);
            HelperMessages(provider, o)
            == [Message(ProblemExtractedEvent, ProblemPayload(problem))]
               + if outcome.Ok? then [Message(SolutionSuccessEvent, SolutionPayload(outcome.value))] else []
  {
  }

  /** The message `processScreenshots` sends on the helper's outcome. */
  function OutcomeMessage(provider: Provider, o: Oracles): Message
  {
    match SolveOutcome(provider, o)
    case Ok(s) => Message(SolutionSuccessEvent, SolutionPayload(s))
    case Err(e) => Message(InitialSolutionErrorEvent, Info(e))
  }

  /** A successful solve sends the solution twice, once from the helper and
      once from its caller; a failed one ends with the error. */
  lemma {:induction false} SolveMessagesShape(provider: Provider, o: Oracles)
    ensures var ms := HelperMessages(provider, o) + [OutcomeMessage(provider, o)];
            && (SolveOutcome(provider, o).Ok? ==> |ms| == 3 && ms[1] == ms[2] && ms[2].channel == SolutionSuccessEvent)
            && (SolveOutcome(provider, o).Err? ==>
                  ms[|ms| - 1] == Message(InitialSolutionErrorEvent, Info(SolveOutcome(provider, o).error))
                  && forall m :: m in ms ==> m.channel != SolutionSuccessEvent)
  {
  }

  /** The part of the session and the store a processing run reads and
      writes: the messages sent, the vendor requests made, whether the run's
      controller is set, the view, the extra queue, the files on disk, the
      stored problem and the debug flag. */
  datatype RunState = RunState(sent: seq<Message>, calls: seq<Call>, busy: bool, view: View,
                               extra: seq<Path>, disk: map<Path, Bytes>, problem: Option<ProblemInfo>,
                               hasDebugged: bool)

  /** The state once `processScreenshotHelper` has run on `images` and its
      outcome has been sent: the extraction request, then the solution
      request when a problem was found; the problem is stored once extraction
      succeeds; a solution empties the extra queue (unlinking its files) and
      shows "solutions", a failure goes back to "queue"; no controller is
      left. */
  ghost function Solved(provider: Provider, o: Oracles, images: seq<Path>, failing: set<Path>, s0: RunState)
    : RunState
  {
    var extracted := ExtractProblem(provider, o.extraction, o.parse);
    var solved := SolveOutcome(provider, o).Ok?;
    s0.(sent := s0.sent + HelperMessages(provider, o) + [OutcomeMessage(provider, o)],
        calls := s0.calls + [ExtractionCall(provider, images)]
                 + (if FindsProblem(provider, o) then [SolutionCall(provider)] else []),
        busy := false,
        view := if solved then Solutions else Queue,
        extra := if solved then [] else s0.extra,
        disk := if solved then s0.disk - Unlinked(s0.extra, failing) else s0.disk,
        problem := if extracted.Ok? then extracted.value else s0.problem)
  }

  /** `Solved` in terms of the helper's outcome `r`. */
  lemma {:induction false} SolvedByOutcome(provider: Provider, o: Oracles, images: seq<Path>, failing: set<Path>,
                                           s0: RunState, r: Result<Solution>)
    requires r == SolveOutcome(provider, o)
    ensures var extracted := ExtractProblem(provider, o.extraction, o.parse);
            Solved(provider, o, images, failing, s0)
            == s0.(sent := s0.sent + HelperMessages(provider, o)
                           + [if r.Ok? then Message(SolutionSuccessEvent, SolutionPayload(r.value))
                              else Message(InitialSolutionErrorEvent, Info(r.error))],
                   calls := s0.calls + [ExtractionCall(provider, images)]
                            + (if FindsProblem(provider, o) then [SolutionCall(provider)] else []),
                   busy := false,
                   view := if r.Ok? then Solutions else Queue,
                   extra := if r.Ok? then [] else s0.extra,
                   disk := if r.Ok? then s0.disk - Unlinked(s0.extra, failing) else s0.disk,
                   problem := if extracted.Ok? then extracted.value else s0.problem)
  {
  }

  /** A solve run drops the controller whatever it was. */
  lemma {:induction false} SolvedIgnoresBusy(provider: Provider, o: Oracles, images: seq<Path>, failing: set<Path>,
                                             s0: RunState, busy: bool)
    ensures Solved(provider, o, images, failing, s0.(busy := busy)) == Solved(provider, o, images, failing, s0)
  {
  }

  /** What a solve run from the "queue" view does to the run state: with no
      screenshot on disk, "no screenshots" and nothing else; with none
      readable, the error and "queue"; otherwise the readable screenshots go
      to extraction as in `Solved`. The debug flag is never touched. */
  ghost predicate SolveEffect(provider: Provider, o: Oracles, primary: seq<Path>, failing: set<Path>,
                              s0: RunState, s: RunState)
  {
    var existing := KeepIn(primary, s0.disk.Keys);
    var images := KeepIn(existing, s0.disk.Keys - o.unreadable);
    var started := s0.(sent := s0.sent + [Message(InitialStartEvent, NoPayload)]);
    if existing == [] then
      s == started.(sent := started.sent + [Message(NoScreenshotsEvent, NoPayload)])
    else if images == [] then
      s == started.(sent := started.sent + [Message(InitialSolutionErrorEvent, Info(NoValidScreenshots))],
                    busy := false, view := Queue)
    else
      s == Solved(provider, o, images, failing, started)
  }

  /** The state once `processExtraScreenshotsHelper` has run on `images` and
      its outcome has been sent: the debug request is made when a problem is
      known, success sets the debug flag (a failure leaves it), and no
      controller is left. */
  ghost function Debugged(provider: Provider, o: Oracles, images: seq<Path>, s0: RunState): RunState
  {
    var outcome := DebugOutcome(s0.problem, o.debug, o.extractors);
    s0.(sent := s0.sent + [if outcome.Ok? then Message(DebugSuccessEvent, DebugPayload(outcome.value))
                           else Message(DebugErrorEvent, Info(DebugFailed))],
        calls := s0.calls + (if s0.problem.Some? then [DebugCall(provider, images)] else []),
        busy := false,
        hasDebugged := s0.hasDebugged || outcome.Ok?)
  }

  /** `Debugged` in terms of the helper's outcome `r`. */
  lemma {:induction false} DebuggedByOutcome(provider: Provider, o: Oracles, images: seq<Path>, s0: RunState,
                                             r: Result<DebugResult>)
    requires r == DebugOutcome(s0.problem, o.debug, o.extractors)
    ensures Debugged(provider, o, images, s0)
            == s0.(sent := s0.sent + [if r.Ok? then Message(DebugSuccessEvent, DebugPayload(r.value))
                                      else Message(DebugErrorEvent, Info(r.error))],
                   calls := s0.calls + (if s0.problem.Some? then [DebugCall(provider, images)] else []),
                   busy := false,
                   hasDebugged := s0.hasDebugged || r.Ok?)
  {
  }

  /** What a debug run does to the run state: with no extra screenshot on
      disk, "no screenshots" and nothing else; otherwise "debug-start", then
      the error when no screenshot is readable, or the readable primary and
      extra screenshots, in queue order, as in `Debugged`. The view, the
      queues, the disk and the problem are never touched. */
  ghost predicate DebugEffect(provider: Provider, o: Oracles, primary: seq<Path>, s0: RunState, s: RunState)
  {
    var existing := KeepIn(s0.extra, s0.disk.Keys);
    var readable := s0.disk.Keys - o.unreadable;
    var images := KeepIn(primary, readable) + KeepIn(s0.extra, readable);
    var started := s0.(sent := s0.sent + [Message(DebugStartEvent, NoPayload)]);
    if existing == [] then
      s == s0.(sent := s0.sent + [Message(NoScreenshotsEvent, NoPayload)])
    else if images == [] then
      s == started.(sent := started.sent + [Message(DebugErrorEvent, Info(NoValidScreenshots))], busy := false)
    else
      s == Debugged(provider, o, images, started)
  }

  /** What `processScreenshots` does, seen from the solve run's state
      (`solve0` to `solve`) and the debug run's (`debug0` to `debug`), which
      differ only in which controller `busy` stands for: without a window
      nothing; without a client for `provider`, "api-key-invalid"; from the
      "queue" view a solve run, from any other view a debug run, each leaving
      the other controller alone. */
  ghost predicate ProcessEffect(hasWindow: bool, ready: bool, provider: Provider, o: Oracles, primary: seq<Path>,
                                failing: set<Path>, solve0: RunState, solve: RunState, debug0: RunState, debug: RunState)
  {
    if !hasWindow then
      solve == solve0 && debug.busy == debug0.busy
    else if !ready then
      solve == solve0.(sent := solve0.sent + [Message(ApiKeyInvalidEvent, NoPayload)]) && debug.busy == debug0.busy
    else if solve0.view == Queue then
      SolveEffect(provider, o, primary, failing, solve0, solve)
      && debug.busy == debug0.busy && solve.hasDebugged == solve0.hasDebugged
    else
      DebugEffect(provider, o, primary, debug0, debug) && solve.busy == solve0.busy
  }

  class ProcessingManager {
    var openaiClient: bool
    var geminiClient: bool
    /** `currentProcessingAbortController != null` */
    var solving: bool
    /** `currentExtraProcessingAbortController != null` */
    var debugging: bool
    /** The vendor requests made so far. */
    var calls: seq<Call>
    const session: Session
    const config: ConfigManager

    ghost predicate Valid()
      reads session, session.screenshots, config
    {
      session.Valid() && config.Valid()
    }

    /** The run state of the session, with `busy` standing for the run's
        controller. */
    ghost function Snapshot(busy: bool): RunState
      reads this, session, session.screenshots
    {
      RunState(session.sent, calls, busy, session.view, session.screenshots.extra, session.screenshots.disk,
               session.problemInfo, session.hasDebugged)
    }

    /** A client for `provider` exists. */
    predicate Ready(provider: Provider)
      reads this
    {
      if provider == OpenAI then openaiClient else geminiClient
    }

    /** The constructor: no request in flight, clients from the saved
        configuration. */
    constructor (session: Session, config: ConfigManager)
      requires session.Valid() && config.Valid()
      modifies config
      ensures Valid()
      ensures this.session == session && this.config == config
      ensures !solving && !debugging && calls == []
      ensures config.file == old(config.file)
      ensures var c := Load(config.file);
              && (openaiClient <==> c.apiProvider == OpenAI && c.apiKey != "")
              && (geminiClient <==> c.apiProvider == Gemini && c.apiKey != "")
    {
      this.session := session;
      this.config := config;
      solving, debugging := false, false;
      calls := [];
      new;
      InitializeAiClient();
    }

    /** `initializeAiClient`, also run on every "config-updated": only the
        configured provider gets a client, and only with a non-empty key. */
    method InitializeAiClient()
      requires config.Valid()
      modifies this`openaiClient, this`geminiClient, config
      ensures config.Valid() && config.file == old(config.file)
      ensures var c := Load(config.file);
              && (openaiClient <==> c.apiProvider == OpenAI && c.apiKey != "")
              && (geminiClient <==> c.apiProvider == Gemini && c.apiKey != "")
    {
      var c := config.LoadConfig();
      match c.apiProvider
      case OpenAI =>
        if c.apiKey != "" {
          openaiClient, geminiClient := true, false;
        } else {
          openaiClient, geminiClient := false, false;
        }
      case Gemini =>
        openaiClient := false;
        if c.apiKey != "" {
          geminiClient := true;
        } else {
          openaiClient, geminiClient := false, false;
        }
    }

    /** The guard at the top of `processScreenshots`: a missing client for the
        configured provider is created once more; `ready` tells whether one
        now exists. */
    method EnsureClient(provider: Provider) returns (ready: bool)
      requires config.Valid() && provider == Load(config.file).apiProvider
      modifies this`openaiClient, this`geminiClient, config
      ensures config.Valid() && config.file == old(config.file)
      ensures ready <==> Ready(provider)
      ensures old(Ready(provider)) ==> ready && openaiClient == old(openaiClient) && geminiClient == old(geminiClient)
      ensures !old(Ready(provider)) ==> (ready <==> Load(config.file).apiKey != "")
    {
      if !Ready(provider) {
        InitializeAiClient();
      }
      ready := Ready(provider);
    }

    /** `processScreenshots`: without a window nothing happens; without a
        client for the configured provider "api-key-invalid" is sent; then the
        "queue" view solves and any other view debugs. */
    method ProcessScreenshots(o: Oracles, failing: set<Path>)
      requires Valid()
      modifies this, config, session`view, session`problemInfo, session`hasDebugged, session`sent,
               session.screenshots`view, session.screenshots`extra, session.screenshots`disk
      ensures Valid() && config.file == old(config.file)
      ensures session.screenshots.primary == old(session.screenshots.primary)
      ensures ProcessEffect(old(session.window).Some?, Ready(Load(config.file).apiProvider), Load(config.file).apiProvider,
                            o, old(session.screenshots.primary), failing,
                            old(Snapshot(solving)), Snapshot(solving), old(Snapshot(debugging)), Snapshot(debugging))
    {
      if session.window.None? {
        return;
      }
      var c := config.LoadConfig();
      var ready := EnsureClient(c.apiProvider);
      // Neither the configuration nor the clients are part of the run state.
      assert Snapshot(solving) == old(Snapshot(solving)) && Snapshot(debugging) == old(Snapshot(debugging));
      if !ready {
        session.Send(ApiKeyInvalidEvent, NoPayload);
        return;
      }
      RunForView(c.apiProvider, o, failing);
    }

    /** The view decides the run once a client exists: "queue" solves, any
        other view debugs. */
    method RunForView(provider: Provider, o: Oracles, failing: set<Path>)
      requires Valid()
      modifies this`solving, this`debugging, this`calls, session`view, session`problemInfo,
               session`hasDebugged, session`sent,
               session.screenshots`view, session.screenshots`extra, session.screenshots`disk
      ensures Valid()
      ensures session.screenshots.primary == old(session.screenshots.primary)
      ensures old(session.view) == Queue ==>
                && SolveEffect(provider, o, old(session.screenshots.primary), failing,
                               old(Snapshot(solving)), Snapshot(solving))
                && debugging == old(debugging) && session.hasDebugged == old(session.hasDebugged)
      ensures old(session.view) != Queue ==>
                && DebugEffect(provider, o, old(session.screenshots.primary), old(Snapshot(debugging)), Snapshot(debugging))
                && solving == old(solving)
    {
      if session.view == Queue {
        SolveQueue(provider, o, failing);
      } else {
        DebugExtra(provider, o);
      }
    }

    /** The "queue" branch of `processScreenshots`. */
    method SolveQueue(provider: Provider, o: Oracles, failing: set<Path>)
      requires Valid() && session.view == Queue
      modifies this`solving, this`calls, session`view, session`problemInfo, session`sent,
               session.screenshots`view, session.screenshots`extra, session.screenshots`disk
      ensures Valid()
      ensures session.screenshots.primary == old(session.screenshots.primary)
      ensures SolveEffect(provider, o, old(session.screenshots.primary), failing, old(Snapshot(solving)), Snapshot(solving))
    {
      session.Send(InitialStartEvent, NoPayload);
      var existing := KeepIn(session.screenshots.primary, session.screenshots.disk.Keys);
      if existing == [] {
        session.Send(NoScreenshotsEvent, NoPayload);
        return;
      }
      ghost var started := Snapshot(solving);
      solving := true;
      var images := KeepIn(existing, session.screenshots.disk.Keys - o.unreadable);
      if images == [] {
        session.Send(InitialSolutionErrorEvent, Info(NoValidScreenshots));
        session.SetView(Queue);
        solving := false;
        return;
      }
      SolveImages(provider, images, o, failing);
      assert Snapshot(solving) == Solved(provider, o, images, failing, started) by {
        SolvedIgnoresBusy(provider, o, images, failing, started, true);
      }
    }

    /** The end of the "queue" branch once readable screenshots exist: the
        helper runs, its outcome is sent, the view follows the outcome and
        the controller is dropped. */
    method SolveImages(provider: Provider, images: seq<Path>, o: Oracles, failing: set<Path>)
      requires Valid()
      modifies this`solving, this`calls, session`view, session`problemInfo, session`sent,
               session.screenshots`view, session.screenshots`extra, session.screenshots`disk
      ensures Valid()
      ensures session.screenshots.primary == old(session.screenshots.primary)
      ensures Snapshot(solving) == Solved(provider, o, images, failing, old(Snapshot(solving)))
    {
      ghost var s0 := Snapshot(solving);
      var r := SolveHelper(provider, images, o, failing);
      SendSolveOutcome(r);
      solving := false;
      assert Snapshot(solving) == Solved(provider, o, images, failing, s0) by {
        SolvedByOutcome(provider, o, images, failing, s0, r);
      }
    }

    /** The end of the "queue" branch on the helper's outcome `r`: the
        solution is sent and "solutions" shown, or the error is sent and
        "queue" shown. */
    method SendSolveOutcome(r: Result<Solution>)
      requires Valid()
      modifies session`view, session`sent, session.screenshots`view
      ensures Valid()
      ensures session.sent == old(session.sent)
                              + [if r.Ok? then Message(SolutionSuccessEvent, SolutionPayload(r.value))
                                 else Message(InitialSolutionErrorEvent, Info(r.error))]
      ensures session.view == if r.Ok? then Solutions else Queue
    {
      match r {
        case Err(e) =>
          session.Send(InitialSolutionErrorEvent, Info(e));
          session.SetView(Queue);
        case Ok(s) =>
          session.Send(SolutionSuccessEvent, SolutionPayload(s));
          session.SetView(Solutions);
      }
    }

    /** `processScreenshotHelper` with `generateSolutionsHelper`: extraction
        is requested; on success the problem is stored and announced, and when
        it is a problem the solution is requested; a solution empties the
        extra queue and is announced. */
    method SolveHelper(provider: Provider, images: seq<Path>, o: Oracles, failing: set<Path>)
      returns (r: Result<Solution>)
      requires Valid()
      modifies this`calls, session`problemInfo, session`sent, session.screenshots`extra, session.screenshots`disk
      ensures Valid()
      ensures r == SolveOutcome(provider, o)
      ensures var extracted := ExtractProblem(provider, o.extraction, o.parse);
              && (extracted.Ok? ==> session.problemInfo == extracted.value)
              && (extracted.Err? ==> session.problemInfo == old(session.problemInfo))
              && calls == old(calls) + [ExtractionCall(provider, images)]
                          + (if FindsProblem(provider, o) then [SolutionCall(provider)] else [])
      ensures r.Ok? ==> session.screenshots.extra == []
                        && session.screenshots.disk == old(session.screenshots.disk) - Unlinked(old(session.screenshots.extra), failing)
      ensures r.Err? ==> session.screenshots.extra == old(session.screenshots.extra)
                         && session.screenshots.disk == old(session.screenshots.disk)
      ensures session.screenshots.primary == old(session.screenshots.primary)
      ensures session.sent == old(session.sent) + HelperMessages(provider, o)
    {
      var extracted := ExtractProblem(provider, o.extraction, o.parse);
      calls := calls + [ExtractionCall(provider, images)] + (if FindsProblem(provider, o) then [SolutionCall(provider)] else []);
      if extracted.Err? {
        assert HelperMessages(provider, o) == [] && SolveOutcome(provider, o) == Err(extracted.error) by {
          HelperMessagesOnError(provider, o);
        }
        return Err(extracted.error);
      }
      var announced := [Message(ProblemExtractedEvent, ProblemPayload(extracted.value))];
      session.SetProblemInfo(extracted.value);
      session.Send(ProblemExtractedEvent, ProblemPayload(extracted.value));
      r := AnnounceSolution(provider, o, failing);
      var solved := if r.Ok? then [Message(SolutionSuccessEvent, SolutionPayload(r.value))] else [];
      assert HelperMessages(provider, o) == announced + solved by { HelperMessagesOnProblem(provider, o); }
      assert old(session.sent) + announced + solved == old(session.sent) + (announced + solved);
    }

    /** The end of `processScreenshotHelper` once the extracted problem (or a
        falsy value) is stored: a solution empties the extra queue and is
        announced. */
    method AnnounceSolution(provider: Provider, o: Oracles, failing: set<Path>) returns (r: Result<Solution>)
      requires Valid() && ExtractProblem(provider, o.extraction, o.parse).Ok?
      modifies session`sent, session.screenshots`extra, session.screenshots`disk
      ensures Valid()
      ensures r == SolveOutcome(provider, o)
      ensures r.Ok? ==> session.sent == old(session.sent) + [Message(SolutionSuccessEvent, SolutionPayload(r.value))]
      ensures r.Err? ==> session.sent == old(session.sent)
      ensures r.Ok? ==> session.screenshots.extra == []
                        && session.screenshots.disk == old(session.screenshots.disk) - Unlinked(old(session.screenshots.extra), failing)
      ensures r.Err? ==> session.screenshots.extra == old(session.screenshots.extra)
                         && session.screenshots.disk == old(session.screenshots.disk)
    {
      var problem := ExtractProblem(provider, o.extraction, o.parse).value;
      var solution := GenerateSolution(problem, o.solution, o.extractors);
      if solution.Err? {
        return Err(ProcessFailed);
      }
      session.screenshots.ClearExtraScreenshotQueue(failing);
      session.Send(SolutionSuccessEvent, SolutionPayload(solution.value));
      r := Ok(solution.value);
    }

    /** The debugging branch of `processScreenshots`. */
    method DebugExtra(provider: Provider, o: Oracles)
      requires Valid()
      modifies this`debugging, this`calls, session`hasDebugged, session`sent
      ensures DebugEffect(provider, o, session.screenshots.primary, old(Snapshot(debugging)), Snapshot(debugging))
    {
      var extra := session.screenshots.extra;
      var disk := session.screenshots.disk;
      var existing := KeepIn(extra, disk.Keys);
      if existing == [] {
        session.Send(NoScreenshotsEvent, NoPayload);
        return;
      }
      session.Send(DebugStartEvent, NoPayload);
      debugging := true;
      var images := KeepIn(session.screenshots.primary + existing, disk.Keys - o.unreadable);
      DebugImagesInOrder(session.screenshots.primary, extra, disk.Keys, o.unreadable);
      if images == [] {
        session.Send(DebugErrorEvent, Info(NoValidScreenshots));
        debugging := false;
        return;
      }
      DebugImages(provider, images, o);
    }

    /** The end of the debugging branch once readable screenshots exist: the
        request is made when a problem is known, the outcome is sent and the
        controller is dropped. */
    method DebugImages(provider: Provider, images: seq<Path>, o: Oracles)
      modifies this`debugging, this`calls, session`hasDebugged, session`sent
      ensures Snapshot(debugging) == Debugged(provider, o, images, old(Snapshot(debugging)))
    {
      ghost var s0 := Snapshot(debugging);
      if session.problemInfo.Some? {
        calls := calls + [DebugCall(provider, images)];
      }
      var r := DebugOutcome(session.problemInfo, o.debug, o.extractors);
      match r {
        case Ok(d) =>
          session.SetHasDebugged(true);
          session.Send(DebugSuccessEvent, DebugPayload(d));
        case Err(e) =>
          session.Send(DebugErrorEvent, Info(e));
      }
      debugging := false;
      assert Snapshot(debugging) == Debugged(provider, o, images, s0) by {
        DebuggedByOutcome(provider, o, images, s0, r);
      }
    }

    /** `cancelOngoingRequest`: both controllers are dropped, the debug flag
        and the problem are cleared, and "no screenshots" is sent when a run
        was in flight and there is a window. */
    method CancelOngoingRequest()
      modifies this`solving, this`debugging, session`hasDebugged, session`problemInfo, session`sent
      ensures !solving && !debugging && !session.hasDebugged && session.problemInfo.None?
      ensures session.sent == old(session.sent)
                + (if (old(solving) || old(debugging)) && session.window.Some? then [Message(NoScreenshotsEvent, NoPayload)]
                   else [])
    {
      var wasCancelled := solving || debugging;
      solving, debugging := false, false;
      session.SetHasDebugged(false);
      session.SetProblemInfo(None);
      if wasCancelled && session.window.Some? {
        session.Send(NoScreenshotsEvent, NoPayload);
      }
    }
  }
}
