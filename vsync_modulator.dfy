/**
 * The vsync configuration modulator of SurfaceFlinger's scheduler
 * (services/surfaceflinger/Scheduler/VsyncModulator.cpp).
 *
 * The modulator keeps the signals that justify early vsync offsets (pending early-wakeup
 * requests, the sticky transaction schedule, two frame-counted decay windows and a pending
 * refresh-rate change), classifies them into one of three configs and caches the selected one.
 *
 * The module has three layers: pure transition functions on a value `ModState` (one per event
 * method, named `...Step`), with the lemmas about them; event traces (`Run`) with the invariant
 * `Inv` that every event preserves; and the class `VsyncModulator` whose methods update their
 * fields in place as the C++ does and are proved to follow those functions.
 * The clock is an argument (`now`); the mutex, the atomics and the binder death-recipient
 * plumbing are left out, so the class is sequential and tokens are plain set members.
 */
module Scheduler {
  import opened Wrappers

  /** How long, in nanoseconds, a commit must lag the start of the early transaction window
      before that window starts to decay (1 ms). */
  const MIN_EARLY_TRANSACTION_TIME: int := 1_000_000

  /** Lengths, in frames, of the two decay windows. They are declared in VsyncModulator.h, which
      is not part of this model. The invariant lemmas and GpuCompositionScenario use only their
      positivity; EarlyTransactionScenario counts its two refreshes for the value 2. */
  const MIN_EARLY_TRANSACTION_FRAMES: int := 2
  const MIN_EARLY_GPU_FRAMES: int := 2

  /** Identity of the client binder behind an early-wakeup request. */
  type Token = nat

  /** A reading of the monotonic clock, in nanoseconds. */
  type TimePoint = int

  /** The urgency a client declares for its transaction. */
  datatype Schedule = Late | EarlyStart | EarlyEnd

  /** The classification: which member of the config set is in use. */
  datatype ConfigType = Early | EarlyGpu | Late

  /** The three vsync configs; the modulator never looks inside one. */
  datatype VsyncConfigSet<C> = VsyncConfigSet(early: C, earlyGpu: C, late: C)

  /** The member of `configs` that `t` names (getNextVsyncConfig's switch). */
  function Select<C>(configs: VsyncConfigSet<C>, t: ConfigType): C {
    match t
    case Early => configs.early
    case EarlyGpu => configs.earlyGpu
    case Late => configs.late
  }

  /** Every field of the modulator that the classifier or an event method reads. */
  datatype ModState = ModState(
    earlyWakeupRequests: set<Token>,
    transactionSchedule: Schedule,
    earlyTransactionFrames: int,
    earlyGpuFrames: int,
    refreshRateChangePending: bool,
    earlyTransactionStartTime: TimePoint,
    lastTransactionCommitTime: TimePoint)

  /** The state of a freshly constructed modulator (the header's member initialisers). */
  const Initial: ModState := ModState({}, Schedule.Late, 0, 0, false, 0, 0)

  /** Some live signal asks for the early config. */
  predicate Urgent(s: ModState) {
    s.earlyWakeupRequests != {} || s.transactionSchedule == EarlyEnd ||
    s.earlyTransactionFrames > 0 || s.refreshRateChangePending
  }

  /** getNextVsyncConfigType: urgency outranks GPU composition, which outranks the default. */
  function NextConfigType(s: ModState): ConfigType {
    if Urgent(s) then Early
    else if s.earlyGpuFrames > 0 then EarlyGpu
    else ConfigType.Late
  }

  /** What an event method leaves behind: the new state and, when it reclassified, the type of
      the config it selected (and cached). */
  datatype Step = Step(state: ModState, selected: Option<ConfigType>)

  /** updateVsyncConfigLocked on a state: select the config for `s`. */
  function Reclassify(s: ModState): Step {
    Step(s, Some(NextConfigType(s)))
  }

  /** setVsyncConfigSet: the state is unchanged and the config is always reselected. */
  function ConfigSetStep(s: ModState): Step {
    Reclassify(s)
  }

  /** The pending set after the switch of setTransactionSchedule. */
  function RequestsAfter(requests: set<Token>, schedule: Schedule, token: Option<Token>): set<Token> {
    match schedule
    case EarlyStart => if token.Some? then requests + {token.value} else requests
    case EarlyEnd => if token.Some? then requests - {token.value} else requests
    case Late => requests
  }

  /** setTransactionSchedule(schedule, token) at time `now`. */
  function ScheduleStep(s: ModState, schedule: Schedule, token: Option<Token>, now: TimePoint): Step {
    var requests := RequestsAfter(s.earlyWakeupRequests, schedule, token);
    var s1 :=
      if requests == {} && schedule == EarlyEnd then
        s.(earlyWakeupRequests := requests,
           earlyTransactionFrames := MIN_EARLY_TRANSACTION_FRAMES,
           earlyTransactionStartTime := now)
      else
        s.(earlyWakeupRequests := requests);
    if schedule == s.transactionSchedule || s.transactionSchedule == EarlyEnd then
      Step(s1, None)
    else
      Reclassify(s1.(transactionSchedule := schedule))
  }

  /** onTransactionCommit at time `now`. */
  function CommitStep(s: ModState, now: TimePoint): Step {
    var s1 := s.(lastTransactionCommitTime := now);
    if s.transactionSchedule == Schedule.Late then Step(s1, None)
    else Reclassify(s1.(transactionSchedule := Schedule.Late))
  }

  /** onRefreshRateChangeInitiated. */
  function RefreshRateChangeInitiatedStep(s: ModState): Step {
    if s.refreshRateChangePending then Step(s, None)
    else Reclassify(s.(refreshRateChangePending := true))
  }

  /** onRefreshRateChangeCompleted. */
  function RefreshRateChangeCompletedStep(s: ModState): Step {
    if !s.refreshRateChangePending then Step(s, None)
    else Reclassify(s.(refreshRateChangePending := false))
  }

  /** The early transaction window decays on this refresh. */
  predicate TransactionWindowDecays(s: ModState) {
    s.earlyTransactionStartTime + MIN_EARLY_TRANSACTION_TIME <= s.lastTransactionCommitTime &&
    s.earlyTransactionFrames > 0
  }

  /** onDisplayRefresh(usedGpuComposition). */
  function DisplayRefreshStep(s: ModState, usedGpuComposition: bool): Step {
    var decays := TransactionWindowDecays(s);
    var s1 := s.(
      earlyTransactionFrames :=
        if decays then s.earlyTransactionFrames - 1 else s.earlyTransactionFrames,
      earlyGpuFrames :=
        if usedGpuComposition then MIN_EARLY_GPU_FRAMES
        else if s.earlyGpuFrames > 0 then s.earlyGpuFrames - 1
        else s.earlyGpuFrames);
    if !(decays || usedGpuComposition || s.earlyGpuFrames > 0) then Step(s1, None)
    else Reclassify(s1)
  }

  /** binderDied(who): the request of a dead client is dropped and the config reselected. */
  function BinderDiedStep(s: ModState, who: Token): Step {
    Reclassify(s.(earlyWakeupRequests := s.earlyWakeupRequests - {who}))
  }

  // ---------------------------------------------------------------------------------------
  // Properties of single events
  // ---------------------------------------------------------------------------------------

  /** The effect of setTransactionSchedule on the pending set. */
  lemma ScheduleUpdatesRequests(s: ModState, schedule: Schedule, token: Option<Token>, now: TimePoint)
    ensures var r := ScheduleStep(s, schedule, token, now).state.earlyWakeupRequests;
      && (schedule == EarlyStart && token.Some? ==> r == s.earlyWakeupRequests + {token.value})
      && (schedule == EarlyStart && token.Some? && token.value in s.earlyWakeupRequests ==>
            r == s.earlyWakeupRequests)
      && (schedule == EarlyEnd && token.Some? ==>
            token.value !in r && r + {token.value} >= s.earlyWakeupRequests && r <= s.earlyWakeupRequests)
      && (schedule == EarlyEnd && token.Some? && token.value !in s.earlyWakeupRequests ==>
            r == s.earlyWakeupRequests)
      && (token.None? ==> r == s.earlyWakeupRequests)
      && (schedule == Schedule.Late ==> r == s.earlyWakeupRequests)
  {
  }

  /** The grace window opens exactly when an EarlyEnd leaves the pending set empty, whether or
      not the token was pending; nothing else about the decay counters or clocks changes. */
  lemma ScheduleOpensGraceWindow(s: ModState, schedule: Schedule, token: Option<Token>, now: TimePoint)
    ensures var r := ScheduleStep(s, schedule, token, now).state;
      && (r.earlyWakeupRequests == {} && schedule == EarlyEnd ==>
            r.earlyTransactionFrames == MIN_EARLY_TRANSACTION_FRAMES && r.earlyTransactionStartTime == now)
      && (!(r.earlyWakeupRequests == {} && schedule == EarlyEnd) ==>
            r.earlyTransactionFrames == s.earlyTransactionFrames &&
            r.earlyTransactionStartTime == s.earlyTransactionStartTime)
      && r.earlyGpuFrames == s.earlyGpuFrames
      && r.refreshRateChangePending == s.refreshRateChangePending
      && r.lastTransactionCommitTime == s.lastTransactionCommitTime
  {
  }

  /** Stickiness: a request equal to the stored schedule, or any request while EarlyEnd is stored,
      changes neither the schedule nor the config; every other request is stored and reselects. */
  lemma ScheduleIsSticky(s: ModState, schedule: Schedule, token: Option<Token>, now: TimePoint)
    ensures var st := ScheduleStep(s, schedule, token, now);
      && (schedule == s.transactionSchedule || s.transactionSchedule == EarlyEnd <==> st.selected.None?)
      && (st.selected.None? ==> st.state.transactionSchedule == s.transactionSchedule)
      && (st.selected.Some? ==>
            st.state.transactionSchedule == schedule && st.selected == Some(NextConfigType(st.state)))
      && (s.transactionSchedule == EarlyEnd ==>
            st.state.transactionSchedule == EarlyEnd && NextConfigType(st.state) == Early)
  {
  }

  /** onTransactionCommit stamps the commit time and stores Late; if Late was already stored
      nothing else changes and nothing is selected. */
  lemma CommitStoresLate(s: ModState, now: TimePoint)
    ensures var st := CommitStep(s, now);
      && st.state.lastTransactionCommitTime == now
      && st.state.transactionSchedule == Schedule.Late
      && (s.transactionSchedule == Schedule.Late <==> st.selected.None?)
      && (st.selected.None? ==> st.state == s.(lastTransactionCommitTime := now))
      && (st.selected.Some? ==>
            st.selected == Some(NextConfigType(st.state)) &&
            st.state == s.(lastTransactionCommitTime := now, transactionSchedule := Schedule.Late))
      && (s.earlyWakeupRequests == {} && s.earlyTransactionFrames <= 0 && !s.refreshRateChangePending ==>
            NextConfigType(st.state) != Early)
  {
  }

  /** A second commit in a row only moves the commit time. */
  lemma CommitTwiceIsNoOp(s: ModState, t1: TimePoint, t2: TimePoint)
    ensures var s1 := CommitStep(s, t1).state;
      CommitStep(s1, t2) == Step(s1.(lastTransactionCommitTime := t2), None)
  {
  }

  /** The refresh-rate notifications are no-ops when the flag already has their value and
      otherwise flip it and reselect. */
  lemma RefreshRateChangeFlips(s: ModState)
    ensures var st := RefreshRateChangeInitiatedStep(s);
      && (s.refreshRateChangePending ==> st == Step(s, None))
      && (!s.refreshRateChangePending ==>
            st.state == s.(refreshRateChangePending := true) && st.selected == Some(Early))
    ensures var st := RefreshRateChangeCompletedStep(s);
      && (!s.refreshRateChangePending ==> st == Step(s, None))
      && (s.refreshRateChangePending ==>
            st.state == s.(refreshRateChangePending := false) &&
            st.selected == Some(NextConfigType(st.state)))
  {
  }

  /** onDisplayRefresh: when each counter moves and that neither goes negative. Nothing is
      selected only when neither counter moved; a GPU-composited frame reselects even when it
      finds the GPU window already full. */
  lemma DisplayRefreshDecays(s: ModState, usedGpuComposition: bool)
    requires s.earlyTransactionFrames >= 0 && s.earlyGpuFrames >= 0
    ensures var st := DisplayRefreshStep(s, usedGpuComposition);
      && st.state.earlyTransactionFrames ==
           (if TransactionWindowDecays(s) then s.earlyTransactionFrames - 1 else s.earlyTransactionFrames)
      && st.state.earlyGpuFrames ==
           (if usedGpuComposition then MIN_EARLY_GPU_FRAMES
            else if s.earlyGpuFrames > 0 then s.earlyGpuFrames - 1 else 0)
      && st.state.earlyTransactionFrames >= 0 && st.state.earlyGpuFrames >= 0
      && (st.selected.None? <==>
            !TransactionWindowDecays(s) && !usedGpuComposition && s.earlyGpuFrames == 0)
      && (st.selected.None? ==>
            st.state.earlyTransactionFrames == s.earlyTransactionFrames &&
            st.state.earlyGpuFrames == s.earlyGpuFrames)
      && (st.selected.Some? ==> st.selected == Some(NextConfigType(st.state)))
      && st.state.(earlyTransactionFrames := s.earlyTransactionFrames, earlyGpuFrames := s.earlyGpuFrames) == s
  {
  }

  /** The classifier's priority order, stated as the three outcomes' conditions. */
  lemma ClassificationPriority(s: ModState)
    ensures NextConfigType(s) == Early <==>
      (s.earlyWakeupRequests != {} || s.transactionSchedule == EarlyEnd ||
       s.earlyTransactionFrames > 0 || s.refreshRateChangePending)
    ensures NextConfigType(s) == EarlyGpu <==> !Urgent(s) && s.earlyGpuFrames > 0
    ensures NextConfigType(s) == ConfigType.Late <==> !Urgent(s) && s.earlyGpuFrames <= 0
    ensures s.earlyWakeupRequests != {} ==>
      forall frames, gpuFrames :: NextConfigType(s.(earlyTransactionFrames := frames, earlyGpuFrames := gpuFrames)) == Early
  {
  }

  /** binderDied drops only the dead token and never opens the grace window; for a pending token
      it leaves the same pending set an EarlyEnd for it would, and for another token only the
      config is reselected. */
  lemma BinderDiedActsLikeSilentEarlyEnd(s: ModState, who: Token, now: TimePoint)
    ensures var st := BinderDiedStep(s, who);
      && st.state.earlyWakeupRequests == s.earlyWakeupRequests - {who}
      && st.state.(earlyWakeupRequests := s.earlyWakeupRequests) == s
      && st.selected == Some(NextConfigType(st.state))
      && (who in s.earlyWakeupRequests ==>
            st.state.earlyWakeupRequests ==
              ScheduleStep(s, EarlyEnd, Some(who), now).state.earlyWakeupRequests)
      && (who !in s.earlyWakeupRequests ==> st.state == s)
  {
  }

  // ---------------------------------------------------------------------------------------
  // Event traces
  // ---------------------------------------------------------------------------------------

  /** One call into the modulator. */
  datatype Event =
    | SetVsyncConfigSet
    | SetTransactionSchedule(schedule: Schedule, token: Option<Token>, now: TimePoint)
    | TransactionCommit(now: TimePoint)
    | RefreshRateChangeInitiated
    | RefreshRateChangeCompleted
    | DisplayRefresh(usedGpuComposition: bool)
    | BinderDied(who: Token)

  /** The modulator's state together with the type of the config it last cached. */
  datatype Snapshot = Snapshot(state: ModState, cached: ConfigType)

  function EventStep(s: ModState, e: Event): Step {
    match e
    case SetVsyncConfigSet => ConfigSetStep(s)
    case SetTransactionSchedule(schedule, token, now) => ScheduleStep(s, schedule, token, now)
    case TransactionCommit(now) => CommitStep(s, now)
    case RefreshRateChangeInitiated => RefreshRateChangeInitiatedStep(s)
    case RefreshRateChangeCompleted => RefreshRateChangeCompletedStep(s)
    case DisplayRefresh(usedGpu) => DisplayRefreshStep(s, usedGpu)
    case BinderDied(who) => BinderDiedStep(s, who)
  }

  function Apply(m: Snapshot, e: Event): Snapshot {
    var st := EventStep(m.state, e);
    Snapshot(st.state, if st.selected.Some? then st.selected.value else m.cached)
  }

  function Run(m: Snapshot, events: seq<Event>): Snapshot
    decreases |events|
  {
    if events == [] then m else Run(Apply(m, events[0]), events[1..])
  }

  /** The cached config type is the current classification. */
  predicate Coherent(m: Snapshot) {
    m.cached == NextConfigType(m.state)
  }

  /** The invariant every call preserves: both decay counters stay within [0, their window], and
      the cached config is current unless EarlyStart is stored (a request equal to the stored
      EarlyStart adds a token without reselecting, see CachedConfigCanGoStale). */
  predicate Inv(m: Snapshot) {
    && 0 <= m.state.earlyTransactionFrames <= MIN_EARLY_TRANSACTION_FRAMES
    && 0 <= m.state.earlyGpuFrames <= MIN_EARLY_GPU_FRAMES
    && (m.state.transactionSchedule == EarlyStart || Coherent(m))
  }

  lemma InitialIsValid()
    ensures Inv(Snapshot(Initial, ConfigType.Late)) && Coherent(Snapshot(Initial, ConfigType.Late))
  {
  }

  /** Whatever a call selects is the classification of the state it leaves. */
  lemma SelectedIsCurrent(s: ModState, e: Event)
    ensures EventStep(s, e).selected.Some? ==> EventStep(s, e).selected.value == NextConfigType(EventStep(s, e).state)
  {
  }

  lemma ApplyKeepsInv(m: Snapshot, e: Event)
    requires Inv(m)
    ensures Inv(Apply(m, e))
  {
  }

  lemma {:induction false} RunKeepsInv(m: Snapshot, events: seq<Event>)
    requires Inv(m)
    ensures Inv(Run(m, events))
    decreases |events|
  {
    if events != [] {
      ApplyKeepsInv(m, events[0]);
      RunKeepsInv(Apply(m, events[0]), events[1..]);
    }
  }

  /** Only a commit leaves EarlyEnd: until one arrives, the schedule stays EarlyEnd and the
      cached config stays Early, whatever else is requested. */
  lemma {:induction false} EarlyEndHoldsUntilCommit(m: Snapshot, events: seq<Event>)
    requires Inv(m) && m.state.transactionSchedule == EarlyEnd
    requires forall i :: 0 <= i < |events| ==> !events[i].TransactionCommit?
    ensures Run(m, events).state.transactionSchedule == EarlyEnd
    ensures Run(m, events).cached == Early && NextConfigType(Run(m, events).state) == Early
    decreases |events|
  {
    if events != [] {
      ApplyKeepsInv(m, events[0]);
      assert forall i :: 0 <= i < |events[1..]| ==> !events[1..][i].TransactionCommit? by {
        forall i | 0 <= i < |events[1..]| ensures !events[1..][i].TransactionCommit? {
          assert events[1..][i] == events[i + 1];
        }
      }
      EarlyEndHoldsUntilCommit(Apply(m, events[0]), events[1..]);
    }
  }

  /** `n` refreshes without GPU composition. */
  function Refreshes(n: nat): seq<Event> {
    seq(n, _ => DisplayRefresh(false))
  }

  /** With no urgent signal, each refresh without GPU composition takes one frame off the GPU
      window and changes nothing else. */
  lemma {:induction false} GpuWindowCountsDown(m: Snapshot, n: nat)
    requires Inv(m) && !Urgent(m.state) && n <= m.state.earlyGpuFrames
    ensures Run(m, Refreshes(n)).state == m.state.(earlyGpuFrames := m.state.earlyGpuFrames - n)
    ensures n > 0 ==> Coherent(Run(m, Refreshes(n)))
    decreases n
  {
    if n > 0 {
      var m1 := Apply(m, DisplayRefresh(false));
      assert m1.state == m.state.(earlyGpuFrames := m.state.earlyGpuFrames - 1);
      assert Refreshes(n)[1..] == Refreshes(n - 1);
      ApplyKeepsInv(m, DisplayRefresh(false));
      GpuWindowCountsDown(m1, n - 1);
    }
  }

  /** A GPU-composited frame selects EarlyGpu when nothing is urgent; it stays selected for the
      next MIN_EARLY_GPU_FRAMES - 1 refreshes without GPU composition and Late is selected on the
      refresh after those. */
  lemma GpuCompositionScenario(m: Snapshot, k: nat)
    requires Inv(m) && !Urgent(m.state) && k <= MIN_EARLY_GPU_FRAMES
    ensures var m1 := Apply(m, DisplayRefresh(true));
      && m1.state.earlyGpuFrames == MIN_EARLY_GPU_FRAMES && m1.cached == EarlyGpu
      && (k < MIN_EARLY_GPU_FRAMES ==> Run(m1, Refreshes(k)).cached == EarlyGpu)
      && (k == MIN_EARLY_GPU_FRAMES ==> Run(m1, Refreshes(k)).cached == ConfigType.Late)
  {
    var m1 := Apply(m, DisplayRefresh(true));
    ApplyKeepsInv(m, DisplayRefresh(true));
    GpuWindowCountsDown(m1, k);
  }

  /** From a fresh modulator: EarlyStart then EarlyEnd for one client keeps Early; the commit
      stores Late but the grace window still holds Early; once the commit lags the window's start
      by MIN_EARLY_TRANSACTION_TIME, MIN_EARLY_TRANSACTION_FRAMES refreshes bring back Late. */
  lemma EarlyTransactionScenario(a: Token, t0: TimePoint, t1: TimePoint)
    requires t0 + MIN_EARLY_TRANSACTION_TIME <= t1
    ensures var m1 := Apply(Snapshot(Initial, ConfigType.Late), SetTransactionSchedule(EarlyStart, Some(a), t0));
      var m2 := Apply(m1, SetTransactionSchedule(EarlyEnd, Some(a), t0));
      var m3 := Apply(m2, TransactionCommit(t1));
      var m4 := Apply(m3, DisplayRefresh(false));
      var m5 := Apply(m4, DisplayRefresh(false));
      && m1.state.earlyWakeupRequests == {a} && m1.cached == Early
      && m2.state.earlyWakeupRequests == {} && m2.state.transactionSchedule == EarlyEnd && m2.cached == Early
      && m3.state.transactionSchedule == Schedule.Late && m3.cached == Early
      && m4.cached == Early
      && m5.cached == ConfigType.Late && Coherent(m5)
  {
  }

  /** A client that dies after EarlyStart leaves no request behind and opens no grace window, so
      the fresh modulator goes back to Late. */
  lemma BinderDiedScenario(a: Token, t: TimePoint)
    ensures var m1 := Apply(Snapshot(Initial, ConfigType.Late), SetTransactionSchedule(EarlyStart, Some(a), t));
      var m2 := Apply(m1, BinderDied(a));
      && m1.cached == Early
      && m2.state.earlyWakeupRequests == {} && m2.state.earlyTransactionFrames == 0
      && m2.cached == ConfigType.Late
  {
  }

  /** The cached config can lag the classification: after a client dies, a new EarlyStart finds
      EarlyStart already stored, returns without reselecting, and Late stays cached although a
      request is pending. */
  lemma CachedConfigCanGoStale(a: Token, b: Token, t: TimePoint)
    ensures var m1 := Apply(Snapshot(Initial, ConfigType.Late), SetTransactionSchedule(EarlyStart, Some(a), t));
      var m2 := Apply(m1, BinderDied(a));
      var m3 := Apply(m2, SetTransactionSchedule(EarlyStart, Some(b), t));
      && m3.state.earlyWakeupRequests == {b}
      && NextConfigType(m3.state) == Early
      && m3.cached == ConfigType.Late
  {
  }

  // ---------------------------------------------------------------------------------------
  // The modulator object
  // ---------------------------------------------------------------------------------------

  class VsyncModulator<C> {
    var vsyncConfigSet: VsyncConfigSet<C>
    var vsyncConfig: C
    var earlyWakeupRequests: set<Token>
    var transactionSchedule: Schedule
    var earlyTransactionFrames: int
    var earlyGpuFrames: int
    var refreshRateChangePending: bool
    var earlyTransactionStartTime: TimePoint
    var lastTransactionCommitTime: TimePoint
    /** Which member of vsyncConfigSet vsyncConfig was copied from. */
    ghost var configType: ConfigType

    function State(): ModState
      reads this
    {
      ModState(earlyWakeupRequests, transactionSchedule, earlyTransactionFrames, earlyGpuFrames,
               refreshRateChangePending, earlyTransactionStartTime, lastTransactionCommitTime)
    }

    ghost function Snap(): Snapshot
      reads this
    {
      Snapshot(State(), configType)
    }

    ghost predicate Valid()
      reads this
    {
      Inv(Snap()) && vsyncConfig == Select(vsyncConfigSet, configType)
    }

    /** The config `selected` names in the current set, if anything was selected. */
    ghost function Selected(selected: Option<ConfigType>): Option<C>
      reads this
    {
      if selected.Some? then Some(Select(vsyncConfigSet, selected.value)) else None
    }

    constructor (config: VsyncConfigSet<C>)
      ensures Valid() && Coherent(Snap())
      ensures State() == Initial && vsyncConfigSet == config && vsyncConfig == config.late
    {
      vsyncConfigSet := config;
      vsyncConfig := config.late;
      earlyWakeupRequests := {};
      transactionSchedule := Schedule.Late;
      earlyTransactionFrames := 0;
      earlyGpuFrames := 0;
      refreshRateChangePending := false;
      earlyTransactionStartTime := 0;
      lastTransactionCommitTime := 0;
      configType := ConfigType.Late;
    }

    /** getNextVsyncConfigType on the object's fields. */
    function GetNextVsyncConfigType(): (t: ConfigType)
      reads this
      ensures t == Early <==>
        earlyWakeupRequests != {} || transactionSchedule == EarlyEnd ||
        earlyTransactionFrames > 0 || refreshRateChangePending
      ensures t == EarlyGpu <==> t != Early && earlyGpuFrames > 0
    {
      NextConfigType(State())
    }

    /** getNextVsyncConfig: the member of the current config set that the classification names. */
    function GetNextVsyncConfig(): (c: C)
      reads this
      ensures GetNextVsyncConfigType() == Early ==> c == vsyncConfigSet.early
      ensures GetNextVsyncConfigType() == EarlyGpu ==> c == vsyncConfigSet.earlyGpu
      ensures GetNextVsyncConfigType() == ConfigType.Late ==> c == vsyncConfigSet.late
    {
      Select(vsyncConfigSet, GetNextVsyncConfigType())
    }

    method UpdateVsyncConfigLocked() returns (config: C)
      modifies this`vsyncConfig, this`configType
      ensures configType == NextConfigType(State())
      ensures config == vsyncConfig == Select(vsyncConfigSet, configType)
    {
      config := GetNextVsyncConfig();
      vsyncConfig := config;
      configType := GetNextVsyncConfigType();
    }

    method SetVsyncConfigSet(config: VsyncConfigSet<C>) returns (r: C)
      requires Valid()
      modifies this
      ensures Valid() && Coherent(Snap())
      ensures vsyncConfigSet == config && State() == old(State())
      ensures Some(r) == Selected(ConfigSetStep(old(State())).selected)
    {
      vsyncConfigSet := config;
      r := UpdateVsyncConfigLocked();
    }

    method SetTransactionSchedule(schedule: Schedule, token: Option<Token>, now: TimePoint)
      returns (r: Option<C>)
      requires Valid()
      modifies this
      ensures Valid() && vsyncConfigSet == old(vsyncConfigSet)
      ensures var st := ScheduleStep(old(State()), schedule, token, now);
        && State() == st.state
        && Snap() == Apply(old(Snap()), Event.SetTransactionSchedule(schedule, token, now))
        && r == Selected(st.selected)
    {
      ghost var before := Snap();
      match schedule {
        case EarlyStart =>
          if token.Some? {
            earlyWakeupRequests := earlyWakeupRequests + {token.value};
          }
        case EarlyEnd =>
          if token.Some? && token.value in earlyWakeupRequests {
            earlyWakeupRequests := earlyWakeupRequests - {token.value};
          }
        case Late =>
      }

      if earlyWakeupRequests == {} && schedule == EarlyEnd {
        earlyTransactionFrames := MIN_EARLY_TRANSACTION_FRAMES;
        earlyTransactionStartTime := now;
      }

      if schedule == transactionSchedule || transactionSchedule == EarlyEnd {
        ApplyKeepsInv(before, Event.SetTransactionSchedule(schedule, token, now));
        return None;
      }
      transactionSchedule := schedule;
      var config := UpdateVsyncConfigLocked();
      ApplyKeepsInv(before, Event.SetTransactionSchedule(schedule, token, now));
      return Some(config);
    }

    method OnTransactionCommit(now: TimePoint) returns (r: Option<C>)
      requires Valid()
      modifies this
      ensures Valid() && vsyncConfigSet == old(vsyncConfigSet)
      ensures var st := CommitStep(old(State()), now);
        && State() == st.state
        && Snap() == Apply(old(Snap()), TransactionCommit(now))
        && r == Selected(st.selected)
    {
      ghost var before := Snap();
      ApplyKeepsInv(before, TransactionCommit(now));
      lastTransactionCommitTime := now;
      if transactionSchedule == Schedule.Late {
        return None;
      }
      transactionSchedule := Schedule.Late;
      var config := UpdateVsyncConfigLocked();
      return Some(config);
    }

    method OnRefreshRateChangeInitiated() returns (r: Option<C>)
      requires Valid()
      modifies this
      ensures Valid() && vsyncConfigSet == old(vsyncConfigSet)
      ensures var st := RefreshRateChangeInitiatedStep(old(State()));
        && State() == st.state
        && Snap() == Apply(old(Snap()), RefreshRateChangeInitiated)
        && r == Selected(st.selected)
    {
      ghost var before := Snap();
      ApplyKeepsInv(before, RefreshRateChangeInitiated);
      if refreshRateChangePending {
        return None;
      }
      refreshRateChangePending := true;
      var config := UpdateVsyncConfigLocked();
      return Some(config);
    }

    method OnRefreshRateChangeCompleted() returns (r: Option<C>)
      requires Valid()
      modifies this
      ensures Valid() && vsyncConfigSet == old(vsyncConfigSet)
      ensures var st := RefreshRateChangeCompletedStep(old(State()));
        && State() == st.state
        && Snap() == Apply(old(Snap()), RefreshRateChangeCompleted)
        && r == Selected(st.selected)
    {
      ghost var before := Snap();
      ApplyKeepsInv(before, RefreshRateChangeCompleted);
      if !refreshRateChangePending {
        return None;
      }
      refreshRateChangePending := false;
      var config := UpdateVsyncConfigLocked();
      return Some(config);
    }

    method OnDisplayRefresh(usedGpuComposition: bool) returns (r: Option<C>)
      requires Valid()
      modifies this
      ensures Valid() && vsyncConfigSet == old(vsyncConfigSet)
      ensures var st := DisplayRefreshStep(old(State()), usedGpuComposition);
        && State() == st.state
        && Snap() == Apply(old(Snap()), DisplayRefresh(usedGpuComposition))
        && r == Selected(st.selected)
    {
      ghost var before := Snap();
      ApplyKeepsInv(before, DisplayRefresh(usedGpuComposition));
      var updateOffsetsNeeded := false;

      if earlyTransactionStartTime + MIN_EARLY_TRANSACTION_TIME <= lastTransactionCommitTime {
        if earlyTransactionFrames > 0 {
          earlyTransactionFrames := earlyTransactionFrames - 1;
          updateOffsetsNeeded := true;
        }
      }
      if usedGpuComposition {
        earlyGpuFrames := MIN_EARLY_GPU_FRAMES;
        updateOffsetsNeeded := true;
      } else if earlyGpuFrames > 0 {
        earlyGpuFrames := earlyGpuFrames - 1;
        updateOffsetsNeeded := true;
      }

      if !updateOffsetsNeeded {
        return None;
      }
      var config := UpdateVsyncConfigLocked();
      return Some(config);
    }

    method BinderDied(who: Token)
      requires Valid()
      modifies this
      ensures Valid() && Coherent(Snap()) && vsyncConfigSet == old(vsyncConfigSet)
      ensures State() == BinderDiedStep(old(State()), who).state
      ensures Snap() == Apply(old(Snap()), Event.BinderDied(who))
    {
      ghost var before := Snap();
      ApplyKeepsInv(before, Event.BinderDied(who));
      earlyWakeupRequests := earlyWakeupRequests - {who};
      var _ := UpdateVsyncConfigLocked();
    }

    /** The cached config: the member of the config set last selected, which is the current
        classification's member whenever EarlyStart is not stored. */
    method GetVsyncConfig() returns (config: C)
      requires Valid()
      ensures config == Select(vsyncConfigSet, configType)
      ensures transactionSchedule != EarlyStart ==> config == GetNextVsyncConfig()
    {
      config := vsyncConfig;
    }

    /** Early offsets are in order exactly when some early signal is live; nothing changes. */
    method IsVsyncConfigEarly() returns (early: bool)
      ensures early <==>
        (earlyWakeupRequests != {} || transactionSchedule == EarlyEnd || earlyTransactionFrames > 0 ||
         refreshRateChangePending || earlyGpuFrames > 0)
      ensures early <==> NextConfigType(State()) != ConfigType.Late
    {
      early := GetNextVsyncConfigType() != ConfigType.Late;
    }
  }
}
