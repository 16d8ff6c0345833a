/** The renderer-facing command handlers: each guard is checked first, then
    the store, configuration, processing and session operations are run in
    the handler's order. */
module Ipc {
  import opened Common
  import opened Text
  import opened Screenshots
  import opened Config
  import opened Session
  import opened Processing

  /** One entry of the `get-screenshots` answer. */
  datatype Preview = Preview(path: Path, preview: string)

  /** A handler's `{ success, error? }` answer. */
  datatype Outcome = Success | Failure(error: string)

  const ScreenshotDeletedEvent: string := "screenshot-deleted"
  const ResetViewEvent: string := "reset-view"

  /** The queue a handler acts on: the primary queue in "queue", the extra
      queue in any other view. */
  function ViewQueue(v: View, primary: seq<Path>, extra: seq<Path>): (q: seq<Path>)
    ensures v == Queue ==> q == primary
    ensures v != Queue ==> q == extra
  {
    if v == Queue then primary else extra
  }

  /** `validate-api-key`: a key of the wrong format is refused before any
      test; otherwise the key test decides (`listOk` is the vendor's answer
      to an OpenAI key). */
  function ValidateApiKey(key: string, listOk: bool): (r: KeyCheck)
    ensures !IsValidApiKeyFormat(key, None) ==> r == KeyCheck(false, Some("Invalid API key format"))
    ensures IsValidApiKeyFormat(key, None) ==> r == TestApiKey(key, None, listOk)
  {
    if !IsValidApiKeyFormat(key, None) then KeyCheck(false, Some("Invalid API key format"))
    else TestApiKey(key, None, listOk)
  }

  /** A key is accepted only when its format is right; a wrongly formatted
      key gets the same answer whatever the vendor would have said, and an
      accepted key that looks like an OpenAI key passed the vendor test. */
  lemma {:induction false} ValidateApiKeyGuards(key: string, listOk: bool)
    ensures ValidateApiKey(key, listOk).valid ==> IsValidApiKeyFormat(key, None)
    ensures !IsValidApiKeyFormat(key, None) ==> ValidateApiKey(key, true) == ValidateApiKey(key, false)
    ensures ValidateApiKey(key, listOk).valid && KeyProvider(key, None) == OpenAI ==> listOk
  {
  }

  /** Filtering a path out distributes over concatenation. */
  lemma {:induction false} WithoutAppend(a: seq<Path>, b: seq<Path>, p: Path)
    ensures Without(a + b, p) == Without(a, p) + Without(b, p)
  {
    if a == [] {
      assert a + b == b;
    } else {
      assert (a + b)[0] == a[0] && (a + b)[1..] == a[1..] + b;
      WithoutAppend(a[1..], b, p);
    }
  }

  /** Filtering out a path the queue does not hold changes nothing. */
  lemma {:induction false} WithoutAbsent(q: seq<Path>, p: Path)
    requires p !in q
    ensures Without(q, p) == q
  {
    if q != [] {
      assert q[0] != p;
      WithoutAbsent(q[1..], p);
    }
  }

  /** Deleting the last path of a queue that holds it once removes exactly
      the last entry. */
  lemma {:induction false} DeleteLastDropsLast(q: seq<Path>)
    requires |q| > 0 && q[|q| - 1] !in q[..|q| - 1]
    ensures Without(q, q[|q| - 1]) == q[..|q| - 1]
  {
    var last, init := q[|q| - 1], q[..|q| - 1];
    assert q == init + [last];
    WithoutAppendedLast(init, last);
  }

  /** Filtering out a path appended to a queue that did not hold it gives
      back that queue. */
  lemma {:induction false} WithoutAppendedLast(init: seq<Path>, last: Path)
    requires last !in init
    ensures Without(init + [last], last) == init
  {
    WithoutAppend(init, [last], last);
    WithoutAbsent(init, last);
    WithoutOnly(last);
  }

  /** Filtering a path out of the queue that holds only it leaves nothing. */
  lemma {:induction false} WithoutOnly(p: Path)
    ensures Without([p], p) == []
  {
    assert [p][1..] == [];
  }

  class IpcHandler {
    const session: Session
    const processing: ProcessingManager
    const config: ConfigManager

    /** The handlers share the processing manager's session and configuration. */
    ghost predicate Valid()
      reads session, session.screenshots, config
    {
      processing.session == session && processing.config == config && processing.Valid()
    }

    constructor (processing: ProcessingManager)
      requires processing.Valid()
      ensures Valid() && this.processing == processing
    {
      this.processing := processing;
      session := processing.session;
      config := processing.config;
    }

    /** `get-screenshots`: one preview per path of the view's queue, in queue
        order; `readOk` says which file reads succeed. */
    method GetScreenshots(readOk: Path -> bool, encode: Bytes -> string) returns (previews: seq<Preview>)
      requires Valid()
      ensures var store := session.screenshots;
              var q := ViewQueue(session.view, store.primary, store.extra);
              && |previews| == |q|
              && forall i :: 0 <= i < |q| ==>
                   previews[i] == Preview(q[i], store.GetImagePreview(q[i], readOk(q[i]), encode))
    {
      var store := session.screenshots;
      var q := if session.view == Queue then store.primary else store.extra;
      previews := seq(|q|, i requires 0 <= i < |q| reads store =>
                         Preview(q[i], store.GetImagePreview(q[i], readOk(q[i]), encode)));
    }

    /** `delete-last-screenshot`: an empty view queue is refused; otherwise
        its last path is deleted and, with a window, "screenshot-deleted" is
        sent whatever the outcome. */
    method DeleteLastScreenshot(failing: set<Path>) returns (r: Result<()>)
      requires Valid()
      modifies session`sent, session.screenshots`primary, session.screenshots`extra, session.screenshots`disk
      ensures Valid()
      ensures var q := ViewQueue(session.view, old(session.screenshots.primary), old(session.screenshots.extra));
              q == [] ==>
                && r == Err("No screenshots to delete") && session.sent == old(session.sent)
                && session.screenshots.primary == old(session.screenshots.primary)
                && session.screenshots.extra == old(session.screenshots.extra)
                && session.screenshots.disk == old(session.screenshots.disk)
      ensures var q := ViewQueue(session.view, old(session.screenshots.primary), old(session.screenshots.extra));
              q != [] ==>
                var last := q[|q| - 1];
                var store := session.screenshots;
                && (r.Err? <==> last in old(store.disk) && last in failing)
                && (r.Err? ==> store.primary == old(store.primary) && store.extra == old(store.extra)
                               && store.disk == old(store.disk))
                && (r.Ok? ==> store.disk == old(store.disk) - {last})
                && (r.Ok? && session.view == Queue ==> store.primary == Without(old(store.primary), last))
                && (r.Ok? && session.view == Solutions ==> store.extra == Without(old(store.extra), last))
                && (r.Ok? && session.view == Debug ==> store.primary == old(store.primary) && store.extra == old(store.extra))
                && session.sent == old(session.sent)
                                   + if session.window.Some? then [Message(ScreenshotDeletedEvent, NoPayload)] else []
    {
      var store := session.screenshots;
      var q := if session.view == Queue then store.primary else store.extra;
      if q == [] {
        return Err("No screenshots to delete");
      }
      r := store.DeleteScreenshot(q[|q| - 1], failing);
      if session.window.Some? {
        session.Send(ScreenshotDeletedEvent, NoPayload);
      }
    }

    /** `update-config`, with the processing manager's "config-updated"
        listener: the updated configuration is saved and the clients are
        rebuilt from it. */
    method UpdateConfig(u: ConfigUpdate) returns (c: Config)
      requires Valid()
      modifies config, processing`openaiClient, processing`geminiClient
      ensures Valid()
      ensures c == Updated(Load(old(config.file)), u)
      ensures Load(config.file).apiProvider == c.apiProvider && Load(config.file).apiKey == c.apiKey
      ensures processing.openaiClient <==> c.apiProvider == OpenAI && c.apiKey != ""
      ensures processing.geminiClient <==> c.apiProvider == Gemini && c.apiKey != ""
    {
      var notified;
      c, notified := config.UpdateConfig(u);
      ProviderNameParses(c.apiProvider);
      if notified {
        processing.InitializeAiClient();
      }
    }

    /** The refusal of `trigger-process-screenshots` without a usable key:
        "api-key-invalid" goes to the window, if there is one, and nothing
        else of the run state changes. */
    method NotifyMissingKey()
      requires Valid()
      modifies session`sent
      ensures Valid()
      ensures processing.Snapshot(processing.solving)
              == old(processing.Snapshot(processing.solving)).(
                   sent := old(session.sent)
                           + if session.window.Some? then [Message(ApiKeyInvalidEvent, NoPayload)] else [])
    {
      if session.window.Some? {
        session.Send(ApiKeyInvalidEvent, NoPayload);
      }
    }

    /** `trigger-process-screenshots`: without a usable key, "api-key-invalid"
        is sent (with a window) and nothing is processed; otherwise the
        processing run happens. */
    method TriggerProcessScreenshots(o: Oracles, failing: set<Path>) returns (r: Outcome)
      requires Valid()
      modifies processing, config, session`view, session`problemInfo, session`hasDebugged, session`sent,
               session.screenshots`view, session.screenshots`extra, session.screenshots`disk
      ensures Valid()
      ensures r.Success? <==> KeyConfigured(Load(old(config.file)))
      ensures config.file == if old(config.file).Missing? then ConfigFile.Parsed(ToStored(DefaultConfig)) else old(config.file)
      ensures session.screenshots.primary == old(session.screenshots.primary)
      ensures r.Failure? ==>
                && r.error == "No API key found"
                && processing.Snapshot(processing.solving)
                   == old(processing.Snapshot(processing.solving)).(
                        sent := old(session.sent)
                                + if session.window.Some? then [Message(ApiKeyInvalidEvent, NoPayload)] else [])
                && processing.debugging == old(processing.debugging)
      ensures r.Success? ==>
                ProcessEffect(old(session.window).Some?, processing.Ready(Load(config.file).apiProvider),
                              Load(config.file).apiProvider, o, old(session.screenshots.primary), failing,
                              old(processing.Snapshot(processing.solving)), processing.Snapshot(processing.solving),
                              old(processing.Snapshot(processing.debugging)), processing.Snapshot(processing.debugging))
    {
      var hasKey := config.HasApiKey();
      r := if hasKey then Success else Failure("No API key found");
      assert r.Success? <==> KeyConfigured(Load(old(config.file)));
      // Reading the configuration touched nothing the run depends on.
      assert processing.Snapshot(processing.solving) == old(processing.Snapshot(processing.solving));
      assert processing.Snapshot(processing.debugging) == old(processing.Snapshot(processing.debugging));
      if !hasKey {
        NotifyMissingKey();
        return;
      }
      processing.ProcessScreenshots(o, failing);
    }

    /** `trigger-reset`: cancel any run, empty both queues, go back to the
        "queue" view, and tell the renderer (with a window). */
    method TriggerReset(failing: set<Path>) returns (r: Outcome)
      requires Valid()
      modifies processing`solving, processing`debugging, session`hasDebugged, session`problemInfo, session`sent,
               session`view, session.screenshots`view, session.screenshots`primary, session.screenshots`extra,
               session.screenshots`disk
      ensures Valid()
      ensures r == Success
      ensures !processing.solving && !processing.debugging
      ensures session.screenshots.primary == [] && session.screenshots.extra == []
      ensures session.screenshots.disk == old(session.screenshots.disk)
                                          - Unlinked(old(session.screenshots.primary), failing)
                                          - Unlinked(old(session.screenshots.extra), failing)
      ensures session.view == Queue && session.problemInfo.None? && !session.hasDebugged
      ensures var wasRunning := old(processing.solving) || old(processing.debugging);
              var w := session.window.Some?;
              session.sent == old(session.sent)
                              + (if wasRunning && w then [Message(NoScreenshotsEvent, NoPayload)] else [])
                              + (if w then [Message(ResetViewEvent, NoPayload)] else [])
    {
      processing.CancelOngoingRequest();
      session.ClearQueues(failing);
      session.SetView(Queue);
      if session.window.Some? {
        session.Send(ResetViewEvent, NoPayload);
      }
      r := Success;
    }
  }
}
