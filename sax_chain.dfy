/**
 * The SAX-chain splice logic of XSecController, on values.
 *
 * The controller sits between a previous node on the SAX chain (a parser or
 * an initializable filter) and a next node (the document handler). While
 * some element is being collected, or while the event stream is blocking,
 * the SAXEventKeeper must be spliced in between the two; otherwise events
 * flow directly from the previous node to the next, and an ElementStackKeeper
 * remembers the key events the SAXEventKeeper would miss.
 *
 * The UNO references are replaced by what the splice logic needs to know of
 * them: whether each one is set, where the previous node delivers its events,
 * whether the SAXEventKeeper forwards to the next node, and whether the
 * ElementStackKeeper is running. Component creation is an oracle input.
 */
module SaxChain {

  /** m_nStatusOfSecurityComponents. */
  datatype ComponentStatus = Uninitialized | FailToInitialized | Initialized

  /** Where the previous node on the chain currently delivers its events. */
  datatype Upstream = Unwired | ToEventKeeper | ToNextNode

  /**
   * Which of the three createInstanceWithContext calls of createXSecComponent
   * (XMLSignature, XMLDocumentWrapper, SAXEventKeeper) yield a component.
   * A call that the code does not reach because an earlier one failed is
   * irrelevant.
   */
  datatype Creation = Creation(signature: bool, documentWrapper: bool, eventKeeper: bool)

  predicate AllCreated(c: Creation)
  {
    c.signature && c.documentWrapper && c.eventKeeper
  }

  /**
   * The splice-relevant part of the controller:
   * connected, sticky, collecting and blocking are the four flags of the source;
   * hasEventKeeper is `m_xSAXEventKeeper.is()`, listening whether the controller
   * is registered as its status-change listener, eventKeeperForwards whether the
   * event keeper's next handler is the next node (rather than none);
   * hasPrevious and hasKeeper are `m_xPreviousNodeOnSAXChain.is()` and
   * `m_xElementStackKeeper.is()`, previousInitializable is
   * m_bIsPreviousNodeInitializable.
   */
  datatype ChainState = ChainState(
    connected: bool,
    sticky: bool,
    collecting: bool,
    blocking: bool,
    status: ComponentStatus,
    hasEventKeeper: bool,
    listening: bool,
    eventKeeperForwards: bool,
    hasPrevious: bool,
    previousInitializable: bool,
    upstream: Upstream,
    hasKeeper: bool,
    keeperRunning: bool)

  /** The state the constructor sets up: nothing connected, nothing created, no chain configured. */
  const INITIAL: ChainState := ChainState(false, false, false, false, Uninitialized, false, false, false,
                                          false, false, Unwired, false, false)

  /**
   * The consistency the splice operations maintain between the flags and the
   * wiring: ready components include an event keeper; when spliced in, the
   * event keeper exists and forwards to the next node; the previous node feeds
   * the event keeper exactly when spliced in; and the ElementStackKeeper runs
   * exactly when the event keeper is NOT spliced in.
   */
  predicate Wired(s: ChainState)
  {
    && (s.status == Initialized ==> s.hasEventKeeper)
    && (s.connected ==> s.hasEventKeeper && s.eventKeeperForwards)
    && (s.hasPrevious ==> (s.upstream == ToEventKeeper <==> s.connected))
    && (s.hasKeeper ==> (s.keeperRunning <==> !s.connected))
  }

  lemma InitialWired()
    ensures Wired(INITIAL) && !INITIAL.connected && !INITIAL.sticky && INITIAL.status == Uninitialized
  {
  }

  /**
   * createXSecComponent: the components are first marked unavailable; the
   * status becomes INITIALIZED, the event keeper is kept and the controller
   * registers as its listener only when all three components were obtained.
   */
  function CreateComponents(s: ChainState, c: Creation): (r: ChainState)
    ensures r.status == Initialized <==> AllCreated(c)
    ensures r.status != Initialized ==> r.status == FailToInitialized && !r.hasEventKeeper
    ensures r.hasEventKeeper == r.listening == AllCreated(c) && !r.eventKeeperForwards
    ensures r.(status := s.status, hasEventKeeper := s.hasEventKeeper, listening := s.listening,
               eventKeeperForwards := s.eventKeeperForwards) == s
    ensures r.connected == s.connected && r.sticky == s.sticky && r.collecting == s.collecting && r.blocking == s.blocking
  {
    var ok := AllCreated(c);
    s.(status := if ok then Initialized else FailToInitialized, hasEventKeeper := ok, listening := ok,
       eventKeeperForwards := false)
  }

  /**
   * chainOn: when neither sticky nor connected, creates the components if they
   * were never tried, and splices the event keeper in if they are ready. The
   * boolean is the source's return value, "just chained on".
   */
  function ChainOn(s: ChainState, c: Creation): (r: (ChainState, bool))
    ensures r.0.sticky == s.sticky && r.0.collecting == s.collecting && r.0.blocking == s.blocking
    ensures r.1 ==> !s.connected && r.0.connected && r.0.status == Initialized && r.0.eventKeeperForwards
    ensures s.connected ==> r.0.connected
  {
    if s.sticky || s.connected then (s, false)
    else
      var t := if s.status == Uninitialized then CreateComponents(s, c) else s;
      if t.status == Initialized then
        (t.(eventKeeperForwards := true,
            upstream := if t.hasPrevious then ToEventKeeper else t.upstream,
            keeperRunning := if t.hasKeeper then false else t.keeperRunning,
            connected := true), true)
      else (t, false)
  }

  /**
   * chainOff: when connected and not sticky, unhooks the event keeper from the
   * next node, rewires the previous node to the next node, restarts the
   * ElementStackKeeper and clears the connected flag; otherwise nothing.
   */
  function ChainOff(s: ChainState): (r: ChainState)
    ensures r.connected <==> s.connected && s.sticky
    ensures r.sticky == s.sticky && r.collecting == s.collecting && r.blocking == s.blocking && r.status == s.status
  {
    if !s.sticky && s.connected then
      s.(eventKeeperForwards := false,
         upstream := if s.hasPrevious then ToNextNode else s.upstream,
         keeperRunning := if s.hasKeeper then true else s.keeperRunning,
         connected := false)
    else s
  }

  /** checkChainingStatus: splice in while collecting or blocking, otherwise splice out. */
  function CheckChaining(s: ChainState, c: Creation): (r: ChainState)
    ensures r.sticky == s.sticky && r.collecting == s.collecting && r.blocking == s.blocking
    ensures !s.collecting && !s.blocking ==> r.status == s.status && (r.connected <==> s.connected && s.sticky)
  {
    if s.collecting || s.blocking then ChainOn(s, c).0 else ChainOff(s)
  }

  /** blockingStatusChanged. */
  function BlockingChanged(s: ChainState, isBlocking: bool, c: Creation): (r: ChainState)
    ensures r.blocking == isBlocking && r.collecting == s.collecting && r.sticky == s.sticky
  {
    CheckChaining(s.(blocking := isBlocking), c)
  }

  /** collectionStatusChanged. */
  function CollectionChanged(s: ChainState, isInsideCollectedElement: bool, c: Creation): (r: ChainState)
    ensures r.collecting == isInsideCollectedElement && r.blocking == s.blocking && r.sticky == s.sticky
  {
    CheckChaining(s.(collecting := isInsideCollectedElement), c)
  }

  /**
   * initializeSAXChain: clears the three flags without any rewiring, starts
   * the ElementStackKeeper, and calls chainOff (which, connected being false,
   * does nothing).
   */
  function InitializeChain(s: ChainState): (r: ChainState)
    ensures !r.connected && !r.collecting && !r.blocking && (s.hasKeeper ==> r.keeperRunning)
    ensures r.status == s.status && r.sticky == s.sticky && r.upstream == s.upstream && r.hasPrevious == s.hasPrevious
  {
    ChainOff(s.(connected := false, collecting := false, blocking := false,
                keeperRunning := if s.hasKeeper then true else s.keeperRunning))
  }

  /**
   * setSAXChainConnector: installs a new, initializable previous node (not yet
   * wired to anything), a new next node and a new ElementStackKeeper (not yet
   * started), then initializes the chain.
   */
  function SetConnector(s: ChainState, hasPrevious: bool, hasKeeper: bool): (r: ChainState)
    ensures r.hasPrevious == hasPrevious && r.hasKeeper == hasKeeper && r.previousInitializable && r.upstream == Unwired
    ensures !r.connected && (hasKeeper ==> r.keeperRunning) && r.status == s.status
  {
    InitializeChain(s.(previousInitializable := true, hasPrevious := hasPrevious, upstream := Unwired,
                       hasKeeper := hasKeeper, keeperRunning := false))
  }

  /** clearSAXChainConnector: splices out, then drops the previous node, the next node and the ElementStackKeeper. */
  function ClearConnector(s: ChainState): (r: ChainState)
    ensures !r.hasPrevious && !r.hasKeeper && r.upstream == Unwired && !r.keeperRunning
    ensures (r.connected <==> s.connected && s.sticky) && r.status == s.status
  {
    ChainOff(s).(hasPrevious := false, upstream := Unwired, hasKeeper := false, keeperRunning := false)
  }

  /** The chain part of startMission: the components are to be created afresh. */
  function StartMission(s: ChainState): (r: ChainState)
    ensures r.status == Uninitialized
    ensures r.connected == s.connected && r.hasEventKeeper == s.hasEventKeeper && r.upstream == s.upstream
  {
    s.(status := Uninitialized)
  }

  /** The chain part of endMission: the controller unregisters as listener of an existing event keeper. */
  function EndMission(s: ChainState): (r: ChainState)
    ensures r.hasEventKeeper ==> !r.listening
    ensures r.connected == s.connected && r.status == s.status && r.hasEventKeeper == s.hasEventKeeper
  {
    if s.hasEventKeeper then s.(listening := false) else s
  }

  // ---------------------------------------------------------------------
  // chainOn
  // ---------------------------------------------------------------------

  /**
   * chainOn reports true exactly when it moves the chain to connected; it can
   * only do so when not sticky and with the components INITIALIZED; when
   * sticky or already connected it changes nothing and reports false.
   */
  lemma ChainOnResult(s: ChainState, c: Creation)
    ensures var (r, rc) := ChainOn(s, c);
      && (rc <==> !s.connected && r.connected)
      && (rc ==> !s.sticky && r.status == Initialized)
      && r.sticky == s.sticky && r.collecting == s.collecting && r.blocking == s.blocking
  {
  }

  /** Sticky or already connected, chainOn changes nothing and reports false. */
  lemma ChainOnWhenConnectedOrSticky(s: ChainState, c: Creation)
    requires s.sticky || s.connected
    ensures ChainOn(s, c) == (s, false)
  {
  }

  /** The components are created only from UNINITIALIZED: in any other status chainOn leaves status and event keeper alone. */
  lemma CreationOnlyWhenUninitialized(s: ChainState, c: Creation)
    ensures var r := ChainOn(s, c).0;
      r.status != s.status || r.hasEventKeeper != s.hasEventKeeper ==> s.status == Uninitialized
  {
  }

  /**
   * A failed creation is not retried: in FAILTOINITIALIZED chainOn changes
   * nothing and reports false, whatever the oracle says, and so the status
   * change callbacks can never splice an unspliced chain in.
   */
  lemma FailureNotRetried(s: ChainState, c: Creation)
    requires s.status == FailToInitialized
    ensures ChainOn(s, c) == (s, false)
  {
  }

  lemma FailureKeepsCallbacksUnspliced(s: ChainState, c: Creation, b: bool)
    requires s.status == FailToInitialized && !s.connected
    ensures var r := BlockingChanged(s, b, c); r.status == FailToInitialized && !r.connected
    ensures var r := CollectionChanged(s, b, c); r.status == FailToInitialized && !r.connected
  {
    FailureNotRetried(s.(blocking := b), c);
    FailureNotRetried(s.(collecting := b), c);
  }

  /** startMission brings the status back to UNINITIALIZED, after which an unspliced, non-sticky chainOn tries again. */
  lemma StartMissionRetries(s: ChainState, c: Creation)
    requires !s.sticky && !s.connected
    ensures StartMission(s).status == Uninitialized
    ensures var (r, rc) := ChainOn(StartMission(s), c);
      (rc <==> AllCreated(c)) && r.status != Uninitialized
  {
  }

  /** chainOn and chainOff are idempotent, and so is checkChainingStatus. */
  lemma ChainOnIdempotent(s: ChainState, c: Creation, c': Creation)
    ensures ChainOn(ChainOn(s, c).0, c') == (ChainOn(s, c).0, false)
  {
  }

  lemma ChainOffIdempotent(s: ChainState)
    ensures ChainOff(ChainOff(s)) == ChainOff(s)
  {
  }

  lemma CheckChainingIdempotent(s: ChainState, c: Creation, c': Creation)
    ensures CheckChaining(CheckChaining(s, c), c') == CheckChaining(s, c)
  {
    if s.collecting || s.blocking {
      ChainOnIdempotent(s, c, c');
    } else {
      ChainOffIdempotent(s);
    }
  }

  /**
   * chainOff when connected and not sticky: the previous node delivers to the
   * next node, the ElementStackKeeper runs again, the event keeper no longer
   * forwards and connected is cleared; otherwise nothing changes. Flags and
   * component status are never touched.
   */
  lemma ChainOffEffect(s: ChainState)
    ensures var r := ChainOff(s);
      if s.connected && !s.sticky then
        && !r.connected && !r.eventKeeperForwards
        && (s.hasPrevious ==> r.upstream == ToNextNode)
        && (s.hasKeeper ==> r.keeperRunning)
        && r.status == s.status && r.collecting == s.collecting && r.blocking == s.blocking
      else r == s
  {
  }

  // ---------------------------------------------------------------------
  // The status-change callbacks
  // ---------------------------------------------------------------------

  /**
   * After blockingStatusChanged the flag holds the new value; the chain is
   * spliced in iff collecting or blocking whenever it is not sticky and the
   * components are ready; and with both flags clear it is never left
   * connected unless sticky.
   */
  lemma BlockingReconciles(s: ChainState, isBlocking: bool, c: Creation)
    ensures var r := BlockingChanged(s, isBlocking, c);
      && r.blocking == isBlocking && r.collecting == s.collecting && r.sticky == s.sticky
      && (!r.sticky && r.status == Initialized ==> (r.connected <==> r.collecting || r.blocking))
      && (!r.collecting && !r.blocking && r.connected ==> r.sticky)
  {
    CheckChainingReconciles(s.(blocking := isBlocking), c);
  }

  /** The same for collectionStatusChanged. */
  lemma CollectionReconciles(s: ChainState, isInside: bool, c: Creation)
    ensures var r := CollectionChanged(s, isInside, c);
      && r.collecting == isInside && r.blocking == s.blocking && r.sticky == s.sticky
      && (!r.sticky && r.status == Initialized ==> (r.connected <==> r.collecting || r.blocking))
      && (!r.collecting && !r.blocking && r.connected ==> r.sticky)
  {
    CheckChainingReconciles(s.(collecting := isInside), c);
  }

  /** checkChainingStatus keeps the flags and reconciles the splice with them. */
  lemma CheckChainingReconciles(s: ChainState, c: Creation)
    ensures var r := CheckChaining(s, c);
      && r.blocking == s.blocking && r.collecting == s.collecting && r.sticky == s.sticky
      && (!r.sticky && r.status == Initialized ==> (r.connected <==> r.collecting || r.blocking))
      && (!r.collecting && !r.blocking && r.connected ==> r.sticky)
  {
    if s.collecting || s.blocking {
      ChainOnResult(s, c);
    }
  }

  // ---------------------------------------------------------------------
  // The wiring invariant
  // ---------------------------------------------------------------------

  /** Every operation of the controller that is reachable from outside keeps the wiring consistent. */
  lemma ChainOnWired(s: ChainState, c: Creation)
    requires Wired(s)
    ensures Wired(ChainOn(s, c).0)
  {
  }

  lemma ChainOffWired(s: ChainState)
    requires Wired(s)
    ensures Wired(ChainOff(s))
  {
  }

  lemma CheckChainingWired(s: ChainState, c: Creation)
    requires Wired(s)
    ensures Wired(CheckChaining(s, c))
  {
    ChainOnWired(s, c);
    ChainOffWired(s);
  }

  lemma CallbacksWired(s: ChainState, b: bool, c: Creation)
    requires Wired(s)
    ensures Wired(BlockingChanged(s, b, c)) && Wired(CollectionChanged(s, b, c))
  {
    CheckChainingWired(s.(blocking := b), c);
    CheckChainingWired(s.(collecting := b), c);
  }

  lemma ConnectorWired(s: ChainState, hasPrevious: bool, hasKeeper: bool)
    requires Wired(s)
    ensures Wired(SetConnector(s, hasPrevious, hasKeeper))
    ensures Wired(ClearConnector(s))
  {
    ChainOffWired(s);
  }

  lemma MissionWired(s: ChainState)
    requires Wired(s)
    ensures Wired(StartMission(s)) && Wired(EndMission(s))
  {
  }

  /**
   * The ElementStackKeeper runs iff the event keeper is not spliced in: true
   * after every operation, as part of the wiring invariant; setSAXChainConnector
   * additionally leaves the chain unspliced with the new keeper running.
   */
  lemma KeeperRunsIffUnspliced(s: ChainState, hasPrevious: bool, hasKeeper: bool)
    requires Wired(s)
    ensures var r := SetConnector(s, hasPrevious, hasKeeper);
      !r.connected && !r.collecting && !r.blocking && (hasKeeper ==> r.keeperRunning)
      && r.hasPrevious == hasPrevious && r.upstream == Unwired && r.previousInitializable
    ensures var r := ClearConnector(s);
      (r.connected ==> s.sticky) && !r.hasPrevious && !r.hasKeeper && r.status == s.status
  {
  }
}
