/**
 * The import connection handler: the command router between the imports
 * UI (reached over a runtime port) and the background importer.
 *
 * Its collaborators are kept abstract: the importer is a run bit and a
 * concurrency value, the import state manager is its `allowTypes` and
 * `options` plus a log of the calls made on it (`fetchEsts`,
 * `dirtyEstsCache`), whose answers are given to each step as a parameter,
 * and the persisted "imports in progress" flag is one boolean.
 */
module ImportConnection {
  import opened Wrappers

  /** Import type names mapped to whether that type is to be processed. */
  type AllowTypes = map<string, bool>
  /** The import options object, kept opaque. */
  type ImportOptions = map<string, string>
  /** The estimate counts `fetchEsts` answers, kept opaque. */
  type Estimates = map<string, int>
  /** The data of one finished import item, kept opaque. */
  type ItemResult = map<string, string>

  /** The first argument given to `fetchEsts`. */
  datatype BlobArg = NullBlob | EmptyList | BlobUrl(url: string)

  /** A call made on the import state manager. */
  datatype StateCall =
    | FetchEstsCall(blobUrl: BlobArg, quick: bool, includeErrs: Option<bool>)
    | DirtyEstsCache

  /** An outbound port message. */
  datatype OutMsg = InitMsg(ests: Estimates) | PauseMsg | StartMsg | NextMsg(item: ItemResult) | CompleteMsg

  /** An inbound `{cmd, payload}` message. */
  datatype Command =
    | Start(allowTypes: Option<AllowTypes>, blobUrl: Option<string>, options: Option<ImportOptions>)
    | Resume
    | Pause
    | Cancel
    | Finish
    | Recalc(allowTypes: Option<AllowTypes>, blobUrl: Option<string>)
    | SetConcurrency(concurrency: int)
    | SetProcessErrs(includeErrs: bool)
    | Unknown(cmd: string)

  /** A `blobUrl` parameter defaulting to null. */
  function BlobOrNull(blobUrl: Option<string>): BlobArg {
    match blobUrl
    case Some(u) => BlobUrl(u)
    case None => NullBlob
  }

  datatype HandlerState = HandlerState(
    inProgress: bool,              // the persisted "is-imports-in-progress" flag
    running: bool,                 // the importer's run state
    concurrency: int,              // the importer's concurrency
    allowTypes: Option<AllowTypes>, // the state manager's allowTypes
    options: ImportOptions,        // the state manager's options
    includeErrs: bool,             // _includeErrs
    quick: bool,                   // _quickMode
    calls: seq<StateCall>,         // calls made on the state manager, oldest first
    outbox: seq<OutMsg>)           // messages posted on the port, oldest first

  /** The state a step leaves alone unless it says otherwise. */
  predicate SameConfig(r: HandlerState, s: HandlerState) {
    r.concurrency == s.concurrency && r.includeErrs == s.includeErrs && r.quick == s.quick
  }

  /**
   * `attemptRehydrate`: a persisted flag means the UI is told to show the
   * paused view; otherwise estimates are fetched and sent with INIT. The
   * importer is not started either way.
   */
  function Rehydrate(s: HandlerState, ests: Estimates): (r: HandlerState)
    ensures |r.outbox| == |s.outbox| + 1 && r.outbox[..|s.outbox|] == s.outbox
    ensures r.outbox[|s.outbox|] == if s.inProgress then PauseMsg else InitMsg(ests)
    ensures r.calls == if s.inProgress then s.calls else s.calls + [FetchEstsCall(EmptyList, s.quick, None)]
    ensures r.(outbox := s.outbox, calls := s.calls) == s
  {
    if s.inProgress then s.(outbox := s.outbox + [PauseMsg])
    else s.(calls := s.calls + [FetchEstsCall(EmptyList, s.quick, None)], outbox := s.outbox + [InitMsg(ests)])
  }

  /** The state right after construction: a stopped importer at the default concurrency, then rehydration. */
  function Initial(persistedFlag: bool, quick: bool, defaultConcurrency: int,
                   allowTypes: Option<AllowTypes>, options: ImportOptions, ests: Estimates): (r: HandlerState)
    ensures !r.running && r.inProgress == persistedFlag && r.concurrency == defaultConcurrency && !r.includeErrs
    ensures r.outbox == if persistedFlag then [PauseMsg] else [InitMsg(ests)]
  {
    Rehydrate(HandlerState(persistedFlag, false, defaultConcurrency, allowTypes, options, false, quick, [], []), ests)
  }

  /** `itemObserver.next(msg)`: NEXT goes out; nothing else changes. */
  function ObserverNext(s: HandlerState, item: ItemResult): (r: HandlerState)
    ensures r.outbox == s.outbox + [NextMsg(item)]
    ensures r.(outbox := s.outbox) == s
  {
    s.(outbox := s.outbox + [NextMsg(item)])
  }

  /** `itemObserver.complete()`: COMPLETE goes out and the flag is cleared. */
  function ObserverComplete(s: HandlerState): (r: HandlerState)
    ensures r.outbox == s.outbox + [CompleteMsg] && !r.inProgress
    ensures r.(outbox := s.outbox, inProgress := s.inProgress) == s
  {
    s.(outbox := s.outbox + [CompleteMsg], inProgress := false)
  }

  /** The port's disconnect listener stops the importer; the flag stays as it is. */
  function Disconnected(s: HandlerState): (r: HandlerState)
    ensures !r.running && r.inProgress == s.inProgress
    ensures r.(running := s.running) == s
  {
    s.(running := false)
  }

  /**
   * `startImport`: configure the state manager, fetch estimates only when no
   * import is in progress yet (the answer is not used), post START, set the
   * flag and start the importer.
   */
  function Started(s: HandlerState, allowTypes: Option<AllowTypes>, blobUrl: Option<string>,
                       options: Option<ImportOptions>): (r: HandlerState)
    ensures r.inProgress && r.running
    ensures r.allowTypes == allowTypes && r.options == options.GetOr(map[])
    ensures r.calls == if s.inProgress then s.calls else s.calls + [FetchEstsCall(BlobOrNull(blobUrl), s.quick, None)]
    ensures r.outbox == s.outbox + [StartMsg]
    ensures SameConfig(r, s)
  {
    var configured := s.(allowTypes := allowTypes, options := options.GetOr(map[]));
    var estimated :=
      if !configured.inProgress
      then configured.(calls := configured.calls + [FetchEstsCall(BlobOrNull(blobUrl), s.quick, None)])
      else configured;
    estimated.(outbox := estimated.outbox + [StartMsg], inProgress := true, running := true)
  }

  /**
   * `finishImport`: clear the flag and re-initialise the estimates view with
   * freshly fetched estimates; the importer's run state is not touched.
   */
  function Finished(s: HandlerState, ests: Estimates): (r: HandlerState)
    ensures !r.inProgress && r.running == s.running
    ensures r.calls == s.calls + [FetchEstsCall(NullBlob, s.quick, None)]
    ensures r.outbox == s.outbox + [InitMsg(ests)]
    ensures r.allowTypes == s.allowTypes && r.options == s.options && SameConfig(r, s)
  {
    s.(inProgress := false, calls := s.calls + [FetchEstsCall(NullBlob, s.quick, None)], outbox := s.outbox + [InitMsg(ests)])
  }

  /** `cancelImport`: stop the importer, clear the flag, post COMPLETE. */
  function Cancelled(s: HandlerState): (r: HandlerState)
    ensures !r.running && !r.inProgress
    ensures r.outbox == s.outbox + [CompleteMsg] && r.calls == s.calls
    ensures r.allowTypes == s.allowTypes && r.options == s.options && SameConfig(r, s)
  {
    s.(running := false, inProgress := false, outbox := s.outbox + [CompleteMsg])
  }

  /**
   * `recalcState(allowTypes, blobUrl)`: dirty the estimate cache, set
   * `allowTypes`, fetch estimates with the current error policy and post
   * INIT; run state and flag are untouched.
   */
  function Recalculated(s: HandlerState, allowTypes: Option<AllowTypes>, blobUrl: Option<string>,
                       ests: Estimates): (r: HandlerState)
    ensures r.allowTypes == allowTypes
    ensures r.calls == s.calls + [DirtyEstsCache, FetchEstsCall(BlobOrNull(blobUrl), s.quick, Some(s.includeErrs))]
    ensures r.outbox == s.outbox + [InitMsg(ests)]
    ensures r.inProgress == s.inProgress && r.running == s.running && r.options == s.options && SameConfig(r, s)
  {
    var dirtied := s.(calls := s.calls + [DirtyEstsCache]);
    var configured := dirtied.(allowTypes := allowTypes);
    configured.(calls := configured.calls + [FetchEstsCall(BlobOrNull(blobUrl), s.quick, Some(s.includeErrs))],
                outbox := configured.outbox + [InitMsg(ests)])
  }

  /**
   * `setProcessErrs(includeErrs)`: set the error policy, then recalculate
   * with no arguments, so `allowTypes` becomes undefined and the blob URL null.
   */
  function ProcessErrsSet(s: HandlerState, includeErrs: bool, ests: Estimates): (r: HandlerState)
    ensures r.includeErrs == includeErrs && r.allowTypes == None
    ensures r.calls == s.calls + [DirtyEstsCache, FetchEstsCall(NullBlob, s.quick, Some(includeErrs))]
    ensures r.outbox == s.outbox + [InitMsg(ests)]
    ensures r.inProgress == s.inProgress && r.running == s.running && r.options == s.options
    ensures r.concurrency == s.concurrency
  {
    Recalculated(s.(includeErrs := includeErrs), None, None, ests)
  }

  /**
   * `messageListener`: every known command goes to exactly one handler; an
   * unknown one is only logged. `ests` is what `fetchEsts` answers if asked.
   */
  function Dispatch(s: HandlerState, cmd: Command, ests: Estimates): (r: HandlerState)
    ensures cmd.Unknown? ==> r == s
    ensures cmd.Resume? ==> r == s.(running := true)
    ensures cmd.Pause? ==> r == s.(running := false)
    ensures cmd.SetConcurrency? ==> r == s.(concurrency := cmd.concurrency)
    ensures r.allowTypes != s.allowTypes ==> cmd.Start? || cmd.Recalc? || cmd.SetProcessErrs?
    ensures |s.calls| <= |r.calls| && r.calls[..|s.calls|] == s.calls
    ensures r.inProgress != s.inProgress ==> cmd.Start? || cmd.Cancel? || cmd.Finish?
    ensures r.running != s.running ==> cmd.Start? || cmd.Resume? || cmd.Pause? || cmd.Cancel?
    ensures r.concurrency != s.concurrency ==> cmd.SetConcurrency?
    ensures r.includeErrs != s.includeErrs ==> cmd.SetProcessErrs?
    ensures r.options != s.options ==> cmd.Start?
    ensures |s.outbox| <= |r.outbox| <= |s.outbox| + 1 && r.outbox[..|s.outbox|] == s.outbox
    ensures |r.outbox| == |s.outbox| + 1 <==>
              cmd.Start? || cmd.Cancel? || cmd.Finish? || cmd.Recalc? || cmd.SetProcessErrs?
    ensures r.quick == s.quick
  {
    match cmd
    case Start(allowTypes, blobUrl, options) => Started(s, allowTypes, blobUrl, options)
    case Resume => s.(running := true)
    case Pause => s.(running := false)
    case Cancel => Cancelled(s)
    case Finish => Finished(s, ests)
    case Recalc(allowTypes, blobUrl) => Recalculated(s, allowTypes, blobUrl, ests)
    case SetConcurrency(n) => s.(concurrency := n)
    case SetProcessErrs(includeErrs) => ProcessErrsSet(s, includeErrs, ests)
    case Unknown(_) => s
  }

  // ---------------------------------------------------------------------
  // Runs: sequences of inbound events
  // ---------------------------------------------------------------------

  /** Everything that can reach the handler: a port message, a disconnect, or an importer event. */
  datatype Event =
    | Message(cmd: Command, ests: Estimates)
    | Disconnect
    | ItemDone(item: ItemResult)
    | AllDone

  function Step(s: HandlerState, e: Event): HandlerState {
    match e
    case Message(cmd, ests) => Dispatch(s, cmd, ests)
    case Disconnect => Disconnected(s)
    case ItemDone(item) => ObserverNext(s, item)
    case AllDone => ObserverComplete(s)
  }

  /** The state after handling `events` in order. */
  function Run(s: HandlerState, events: seq<Event>): HandlerState
    decreases |events|
  {
    if events == [] then s else Run(Step(s, events[0]), events[1..])
  }

  predicate IsStart(e: Event) {
    e.Message? && e.cmd.Start?
  }

  /** Only START sets the flag: once clear, it stays clear until the next START. */
  lemma {:induction false} FlagStaysClearUntilStart(s: HandlerState, events: seq<Event>)
    requires !s.inProgress
    requires forall i :: 0 <= i < |events| ==> !IsStart(events[i])
    ensures !Run(s, events).inProgress
    decreases |events|
  {
    if events != [] {
      FlagStaysClearUntilStart(Step(s, events[0]), events[1..]);
    }
  }

  /** After CANCEL the flag is clear, and stays clear through any run without START. */
  lemma CancelClearsFlagForGood(s: HandlerState, ests: Estimates, events: seq<Event>)
    requires forall i :: 0 <= i < |events| ==> !IsStart(events[i])
    ensures !Run(s, [Message(Cancel, ests)] + events).inProgress
  {
    assert ([Message(Cancel, ests)] + events)[1..] == events;
    FlagStaysClearUntilStart(Dispatch(s, Cancel, ests), events);
  }

  /** The port is append-only and each event posts at most one message. */
  lemma {:induction false} OutboxOnlyGrows(s: HandlerState, events: seq<Event>)
    ensures |s.outbox| <= |Run(s, events).outbox| <= |s.outbox| + |events|
    ensures Run(s, events).outbox[..|s.outbox|] == s.outbox
    decreases |events|
  {
    if events != [] {
      var s' := Step(s, events[0]);
      OutboxOnlyGrows(s', events[1..]);
      assert s'.outbox[..|s.outbox|] == s.outbox;
    }
  }

  /** The importer's concurrency is set by SET_CONCURRENCY and by nothing else. */
  lemma {:induction false} ConcurrencyOnlyBySetConcurrency(s: HandlerState, events: seq<Event>)
    requires forall i :: 0 <= i < |events| ==> !(events[i].Message? && events[i].cmd.SetConcurrency?)
    ensures Run(s, events).concurrency == s.concurrency
    decreases |events|
  {
    if events != [] {
      ConcurrencyOnlyBySetConcurrency(Step(s, events[0]), events[1..]);
    }
  }

  /** PAUSE then RESUME restarts the importer and leaves everything else as it was. */
  lemma PauseThenResume(s: HandlerState, e1: Estimates, e2: Estimates)
    ensures Run(s, [Message(Pause, e1), Message(Resume, e2)]) == s.(running := true)
  {
    var paused := Step(s, Message(Pause, e1));
    assert [Message(Pause, e1), Message(Resume, e2)][1..] == [Message(Resume, e2)];
    assert Run(paused, [Message(Resume, e2)]) == Run(Step(paused, Message(Resume, e2)), []);
  }

  /**
   * A disconnect during a running import stops the importer and keeps the
   * flag, so a handler built on the persisted flag tells the UI to pause.
   */
  lemma DisconnectThenReconnectShowsPaused(s: HandlerState, cmd: Command, ests: Estimates, quick: bool,
                                           defaultConcurrency: int, allowTypes: Option<AllowTypes>,
                                           options: ImportOptions, ests': Estimates)
    requires cmd.Start?
    ensures var after := Run(s, [Message(cmd, ests), Disconnect]);
            !after.running && after.inProgress &&
            Initial(after.inProgress, quick, defaultConcurrency, allowTypes, options, ests').outbox == [PauseMsg]
  {
    var started := Step(s, Message(cmd, ests));
    assert [Message(cmd, ests), Disconnect][1..] == [Disconnect];
    assert Run(started, [Disconnect]) == Run(Step(started, Disconnect), []);
  }

  // ---------------------------------------------------------------------
  // The handler object
  // ---------------------------------------------------------------------

  class ImportConnectionHandler {
    /** The persisted "is-imports-in-progress" flag in extension storage. */
    var inProgress: bool
    /** The importer (ProgressManager): run state and concurrency. */
    var running: bool
    var concurrency: int
    /** The import state manager's mutable properties and the calls made on it. */
    var allowTypes: Option<AllowTypes>
    var options: ImportOptions
    var calls: seq<StateCall>
    var includeErrs: bool
    const quickMode: bool
    /** Messages posted on the port. */
    var outbox: seq<OutMsg>

    function State(): HandlerState
      reads this
    {
      HandlerState(inProgress, running, concurrency, allowTypes, options, includeErrs, quickMode, calls, outbox)
    }

    /**
     * The constructor with the importer at `defaultConcurrency`, the state
     * manager's current `allowTypes` and `options`, the flag as persisted,
     * followed by `attemptRehydrate` (answered with `ests`).
     */
    constructor (persistedFlag: bool, quick: bool, defaultConcurrency: int,
                 allowTypes: Option<AllowTypes>, options: ImportOptions, ests: Estimates)
      ensures State() == Initial(persistedFlag, quick, defaultConcurrency, allowTypes, options, ests)
    {
      inProgress := persistedFlag;
      running := false;
      concurrency := defaultConcurrency;
      this.allowTypes := allowTypes;
      this.options := options;
      calls := [];
      includeErrs := false;
      quickMode := quick;
      outbox := [];
      new;
      AttemptRehydrate(ests);
    }

    method GetImportInProgressFlag() returns (flag: bool)
      ensures flag == State().inProgress
    {
      flag := inProgress;
    }

    method SetImportInProgressFlag(value: bool)
      modifies this
      ensures State() == old(State()).(inProgress := value)
    {
      inProgress := value;
    }

    method FetchEsts(blobUrl: BlobArg, includeErrs: Option<bool>, ests: Estimates) returns (answer: Estimates)
      modifies this
      ensures answer == ests
      ensures State() == old(State()).(calls := old(calls) + [FetchEstsCall(blobUrl, quickMode, includeErrs)])
    {
      calls := calls + [FetchEstsCall(blobUrl, quickMode, includeErrs)];
      answer := ests;
    }

    method PostMessage(msg: OutMsg)
      modifies this
      ensures State() == old(State()).(outbox := old(outbox) + [msg])
    {
      outbox := outbox + [msg];
    }

    method AttemptRehydrate(ests: Estimates)
      modifies this
      ensures State() == Rehydrate(old(State()), ests)
    {
      var importInProgress := GetImportInProgressFlag();
      if !importInProgress {
        var estimateCounts := FetchEsts(EmptyList, None, ests);
        PostMessage(InitMsg(estimateCounts));
      } else {
        PostMessage(PauseMsg);
      }
    }

    method ObserveNext(item: ItemResult)
      modifies this
      ensures State() == ObserverNext(old(State()), item)
    {
      PostMessage(NextMsg(item));
    }

    method ObserveComplete()
      modifies this
      ensures State() == ObserverComplete(old(State()))
    {
      PostMessage(CompleteMsg);
      SetImportInProgressFlag(false);
    }

    method OnDisconnect()
      modifies this
      ensures State() == Disconnected(old(State()))
    {
      running := false;
    }

    method MessageListener(cmd: Command, ests: Estimates)
      modifies this
      ensures State() == Dispatch(old(State()), cmd, ests)
    {
      match cmd {
        case Start(allowTypes, blobUrl, options) => StartImport(allowTypes, blobUrl, options, ests);
        case Resume => running := true;
        case Pause => running := false;
        case Cancel => CancelImport();
        case Finish => FinishImport(ests);
        case Recalc(allowTypes, blobUrl) => RecalcState(allowTypes, blobUrl, ests);
        case SetConcurrency(n) => concurrency := n;
        case SetProcessErrs(errs) => SetProcessErrs(errs, ests);
        case Unknown(_) =>
      }
    }

    method SetProcessErrs(errs: bool, ests: Estimates)
      modifies this
      ensures State() == ProcessErrsSet(old(State()), errs, ests)
    {
      includeErrs := errs;
      RecalcState(None, None, ests);
    }

    method RecalcState(allowTypes: Option<AllowTypes>, blobUrl: Option<string>, ests: Estimates)
      modifies this
      ensures State() == Recalculated(old(State()), allowTypes, blobUrl, ests)
    {
      calls := calls + [DirtyEstsCache];
      this.allowTypes := allowTypes;
      var estimateCounts := FetchEsts(BlobOrNull(blobUrl), Some(includeErrs), ests);
      PostMessage(InitMsg(estimateCounts));
    }

    method StartImport(allowTypes: Option<AllowTypes>, blobUrl: Option<string>, options: Option<ImportOptions>,
                       ests: Estimates)
      modifies this
      ensures State() == Started(old(State()), allowTypes, blobUrl, options)
    {
      this.allowTypes := allowTypes;
      this.options := options.GetOr(map[]);
      var flag := GetImportInProgressFlag();
      if !flag {
        var _ := FetchEsts(BlobOrNull(blobUrl), None, ests);
      }
      PostMessage(StartMsg);
      SetImportInProgressFlag(true);
      running := true;
    }

    method FinishImport(ests: Estimates)
      modifies this
      ensures State() == Finished(old(State()), ests)
    {
      SetImportInProgressFlag(false);
      var estimateCounts := FetchEsts(NullBlob, None, ests);
      PostMessage(InitMsg(estimateCounts));
    }

    method CancelImport()
      modifies this
      ensures State() == Cancelled(old(State()))
    {
      running := false;
      SetImportInProgressFlag(false);
      PostMessage(CompleteMsg);
    }
  }
}
