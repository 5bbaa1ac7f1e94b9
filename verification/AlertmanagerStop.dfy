/** ApplyConfig and Stop of a tenant's Alertmanager, running at the same time: a protocol over the single
    steps of both and of the goroutines they start. ApplyConfig calls come one after the other, as many
    as one likes; Stop is called once, or never. */
module AlertmanagerStop {

  /** The goroutine of an inhibitor. Running is when it has registered its cancel function; stopping an
      inhibitor before that does nothing. */
  datatype Inhibitor = Inhibitor(launched: bool, running: bool, cancelled: bool, loaded: bool)

  /** How far Run of a dispatcher is: not begun, past the swap of its state, counted in its wait group,
      loaded (the channel is closed), returned; or it has found the dispatcher stopped and given up. */
  datatype Phase = Begun | Swapped | Counted | Loaded | Returned | Refused

  datatype Dispatcher = Dispatcher(stopped: bool, cancelled: bool, phase: Phase)

  datatype Owner = Nobody | Applier | Stopper

  /** Where ApplyConfig is. */
  datatype ApplyPC =
    | Idle        // not called, or returned
    | Lock1       // waiting for stopMu
    | Check1      // holding it, before the test of stopped
    | StopIh      // stopping the previous inhibitor
    | StopD1      // stopping the previous dispatcher: its state,
    | StopD2      // its context,
    | StopD3      // waiting for it
    | Create      // before the new ones are set and the dispatcher is started
    | Unlock1
    | Barrier     // waiting for the dispatcher to load, or for the end of Stop
    | Lock2       // waiting for stopMu again
    | Check2
    | WaitIh      // the inhibitor is started, and waited for
    | Unlock2

  /** Where Stop is. */
  datatype StopPC = NotCalled | SLock | SSet | SUnlock | SStopIh | SStopD1 | SStopD2 | SStopD3 | SClose | SDone

  datatype State = State(
    owner: Owner, stopped: bool, maintenanceStopped: bool,
    inhibitors: seq<Inhibitor>, dispatchers: seq<Dispatcher>,
    apply: ApplyPC, stop: StopPC, captured: nat)

  /** Inhibitors and dispatchers are kept in the order they were made, one of each for a configuration;
      the fields hold the last ones. captured is how many there were when Stop read the fields. */
  function Init(): State {
    State(Nobody, false, false, [], [], Idle, NotCalled, 0)
  }

  function LastIh(s: State): int {
    |s.inhibitors| - 1
  }

  function LastD(s: State): int {
    |s.dispatchers| - 1
  }

  /** inhibitor.Stop: cancels it if it has registered its cancel function. */
  function Cancelled(ih: Inhibitor): Inhibitor {
    if ih.running then ih.(cancelled := true) else ih
  }

  function WithLastIh(s: State, ih: Inhibitor): State
    requires s.inhibitors != []
  {
    s.(inhibitors := s.inhibitors[LastIh(s) := ih])
  }

  function WithLastD(s: State, d: Dispatcher): State
    requires s.dispatchers != []
  {
    s.(dispatchers := s.dispatchers[LastD(s) := d])
  }

  function TheIh(s: State): Inhibitor
    requires s.inhibitors != []
  {
    s.inhibitors[LastIh(s)]
  }

  function TheD(s: State): Dispatcher
    requires s.dispatchers != []
  {
    s.dispatchers[LastD(s)]
  }

  /** The wait group of the dispatcher is at zero. */
  predicate Finished(d: Dispatcher) {
    d.phase != Counted && d.phase != Loaded
  }

  predicate LoadingDone(d: Dispatcher) {
    d.phase == Loaded || d.phase == Returned
  }

  /** One step of ApplyConfig. */
  predicate ApplyStep(s: State, t: State) {
    match s.apply
    case Idle => false
    case Lock1 => s.owner == Nobody && t == s.(owner := Applier, apply := Check1)
    case Check1 => t == s.(apply := if s.stopped then Unlock2 else StopIh)
    case StopIh => t == (if s.inhibitors == [] then s else WithLastIh(s, Cancelled(TheIh(s)))).(apply := StopD1)
    case StopD1 => t == (if s.dispatchers == [] then s else WithLastD(s, TheD(s).(stopped := true))).(apply := StopD2)
    case StopD2 => t == (if s.dispatchers == [] then s else WithLastD(s, TheD(s).(cancelled := true))).(apply := StopD3)
    case StopD3 => (s.dispatchers == [] || Finished(TheD(s))) && t == s.(apply := Create)
    case Create =>
      t == s.(inhibitors := s.inhibitors + [Inhibitor(false, false, false, false)],
              dispatchers := s.dispatchers + [Dispatcher(false, false, Begun)], apply := Unlock1)
    case Unlock1 => t == s.(owner := Nobody, apply := Barrier)
    case Barrier =>
      s.dispatchers != [] &&
      ((LoadingDone(TheD(s)) && t == s.(apply := Lock2)) || (s.maintenanceStopped && t == s.(apply := Idle)))
    case Lock2 => s.owner == Nobody && t == s.(owner := Applier, apply := Check2)
    case Check2 =>
      s.inhibitors != [] &&
      t == if s.stopped then s.(apply := Unlock2) else WithLastIh(s, TheIh(s).(launched := true)).(apply := WaitIh)
    case WaitIh => s.inhibitors != [] && TheIh(s).loaded && t == s.(apply := Unlock2)
    case Unlock2 => t == s.(owner := Nobody, apply := Idle)
  }

  /** The fields Stop has read were set. */
  predicate HasCaptured(s: State) {
    0 < s.captured <= |s.inhibitors| && s.captured <= |s.dispatchers|
  }

  function CapturedIhStopped(s: State): State {
    if HasCaptured(s) then s.(inhibitors := s.inhibitors[s.captured - 1 := Cancelled(s.inhibitors[s.captured - 1])])
    else s
  }

  function CapturedDSet(s: State): State {
    if HasCaptured(s) then
      s.(dispatchers := s.dispatchers[s.captured - 1 := s.dispatchers[s.captured - 1].(stopped := true)]) else s
  }

  function CapturedDCancelled(s: State): State {
    if HasCaptured(s) then
      s.(dispatchers := s.dispatchers[s.captured - 1 := s.dispatchers[s.captured - 1].(cancelled := true)]) else s
  }

  /** One step of Stop. */
  predicate StopStep(s: State, t: State) {
    match s.stop
    case NotCalled => false
    case SLock => s.owner == Nobody && t == s.(owner := Stopper, stop := SSet)
    case SSet => t == s.(stopped := true, captured := |s.inhibitors|, stop := SUnlock)
    case SUnlock => t == s.(owner := Nobody, stop := SStopIh)
    case SStopIh => t == CapturedIhStopped(s).(stop := SStopD1)
    case SStopD1 => t == CapturedDSet(s).(stop := SStopD2)
    case SStopD2 => t == CapturedDCancelled(s).(stop := SStopD3)
    case SStopD3 => (HasCaptured(s) ==> Finished(s.dispatchers[s.captured - 1])) && t == s.(stop := SClose)
    case SClose => t == s.(maintenanceStopped := true, stop := SDone)
    case SDone => false
  }

  /** One step of the goroutine of a dispatcher. */
  predicate DispatcherStep(d: Dispatcher, e: Dispatcher) {
    match d.phase
    case Begun => e == d.(phase := if d.stopped then Refused else Swapped)
    case Swapped => e == d.(phase := Counted)
    case Counted => e == d.(phase := Loaded)
    case Loaded => d.cancelled && e == d.(phase := Returned)
    case Returned => false
    case Refused => false
  }

  /** One step of the goroutine of an inhibitor. */
  predicate InhibitorStep(a: Inhibitor, b: Inhibitor) {
    (a.launched && !a.running && b == a.(running := true)) || (a.running && !a.loaded && b == a.(loaded := true))
  }

  datatype Step = CallApply | CallStop | DoApply | DoStop | DoDispatcher(j: nat, e: Dispatcher) |
      DoInhibitor(i: nat, b: Inhibitor)

  predicate Next(s: State, step: Step, t: State) {
    match step
    case CallApply => s.apply == Idle && t == s.(apply := Lock1)
    case CallStop => s.stop == NotCalled && t == s.(stop := SLock)
    case DoApply => ApplyStep(s, t)
    case DoStop => StopStep(s, t)
    case DoDispatcher(j, e) =>
      j < |s.dispatchers| && DispatcherStep(s.dispatchers[j], e) && t == s.(dispatchers := s.dispatchers[j := e])
    case DoInhibitor(i, b) =>
      i < |s.inhibitors| && InhibitorStep(s.inhibitors[i], b) && t == s.(inhibitors := s.inhibitors[i := b])
  }

  // ---------- the invariant ----------

  predicate ApplyHolds(pc: ApplyPC) {
    pc.Check1? || pc.StopIh? || pc.StopD1? || pc.StopD2? || pc.StopD3? || pc.Create? || pc.Unlock1? || pc.Check2? ||
    pc.WaitIh? || pc.Unlock2?
  }

  predicate StopHolds(pc: StopPC) {
    pc == SSet || pc == SUnlock
  }

  /** Neither running uncancelled nor able to start. */
  predicate Quiet(ih: Inhibitor) {
    (ih.running ==> ih.cancelled) && (ih.launched ==> ih.running)
  }

  /** Between the test of stopped and the release of the lock. */
  predicate Decided(pc: ApplyPC) {
    pc.StopIh? || pc.StopD1? || pc.StopD2? || pc.StopD3? || pc.Create? || pc.Unlock1? || pc.WaitIh?
  }

  /** Stop has set stopped. */
  predicate PastSet(pc: StopPC) {
    !pc.NotCalled? && !pc.SLock? && !pc.SSet?
  }

  /** Stop has stopped the inhibitor. */
  predicate PastInhibitor(pc: StopPC) {
    pc.SStopD1? || pc.SStopD2? || pc.SStopD3? || pc.SClose? || pc.SDone?
  }

  predicate PastState(pc: StopPC) {
    pc.SStopD2? || pc.SStopD3? || pc.SClose? || pc.SDone?
  }

  predicate PastCancel(pc: StopPC) {
    pc.SStopD3? || pc.SClose? || pc.SDone?
  }

  /** The previous inhibitor is stopped and the next one not launched yet. */
  predicate BetweenInhibitors(pc: ApplyPC) {
    pc.StopD1? || pc.StopD2? || pc.StopD3? || pc.Create? || pc.Unlock1? || pc.Barrier? || pc.Lock2? || pc.Check2?
  }

  predicate Locks(s: State) {
    (s.owner == Applier <==> ApplyHolds(s.apply)) && (s.owner == Stopper <==> StopHolds(s.stop)) &&
    (s.stopped <==> PastSet(s.stop)) && (s.maintenanceStopped <==> s.stop == SDone) && (Decided(s.apply) ==> !s.stopped)
  }

  /** Registering comes after the launch, and loading after that. */
  predicate InOrder(ih: Inhibitor) {
    (ih.running ==> ih.launched) && (ih.loaded ==> ih.running)
  }

  /** The last inhibitor, depending on where ApplyConfig and Stop are. */
  predicate LastFits(ih: Inhibitor, apply: ApplyPC, stop: StopPC) {
    (BetweenInhibitors(apply) || PastInhibitor(stop) ==> Quiet(ih)) &&
    (if apply.WaitIh? then ih.launched else ih.launched ==> ih.loaded)
  }

  predicate AllFit(ihs: seq<Inhibitor>, apply: ApplyPC, stop: StopPC) {
    (apply.WaitIh? ==> ihs != []) &&
    (forall i :: 0 <= i < |ihs| ==> InOrder(ihs[i])) && (forall i :: 0 <= i < |ihs| - 1 ==> Quiet(ihs[i])) &&
    (ihs != [] ==> LastFits(ihs[|ihs| - 1], apply, stop))
  }

  predicate Inhibitors(s: State) {
    AllFit(s.inhibitors, s.apply, s.stop)
  }

  predicate Dispatchers(s: State) {
    |s.dispatchers| == |s.inhibitors| && (s.stopped ==> s.captured == |s.inhibitors|) &&
    ((s.apply.Unlock1? || s.apply.Barrier? || s.apply.Lock2? || s.apply.Check2? || s.apply.WaitIh?) ==>
      s.dispatchers != []) &&
    (forall j :: 0 <= j < LastD(s) ==> s.dispatchers[j].cancelled) &&
    (s.dispatchers != [] && (!s.apply.Unlock1? && !s.apply.Barrier?) && !s.maintenanceStopped ==>
      LoadingDone(TheD(s))) &&
    (s.dispatchers != [] && (s.apply.StopD3? || s.apply.Create?) ==> TheD(s).cancelled) &&
    (s.dispatchers != [] && PastCancel(s.stop) ==> TheD(s).cancelled) &&
    (s.dispatchers != [] && TheD(s).phase == Refused ==> PastState(s.stop)) &&
    (s.dispatchers != [] && (s.apply.Unlock1? || s.apply.Barrier?) && TheD(s).stopped ==> PastState(s.stop))
  }

  predicate Inv(s: State) {
    Locks(s) && Inhibitors(s) && Dispatchers(s)
  }

  lemma InitHolds()
    ensures Inv(Init())
  {
  }

  lemma ApplyKeepsLocks(s: State, t: State)
    requires Locks(s) && ApplyStep(s, t)
    ensures Locks(t)
  {
  }

  lemma LastReplaced(ihs: seq<Inhibitor>, ih: Inhibitor, apply: ApplyPC, stop: StopPC, apply': ApplyPC, stop': StopPC)
    requires AllFit(ihs, apply, stop) && ihs != [] && InOrder(ih) && LastFits(ih, apply', stop')
    ensures AllFit(ihs[|ihs| - 1 := ih], apply', stop')
  {
  }

  lemma LastAdded(ihs: seq<Inhibitor>, apply: ApplyPC, stop: StopPC, apply': ApplyPC)
    requires AllFit(ihs, apply, stop) && BetweenInhibitors(apply) && BetweenInhibitors(apply')
    ensures AllFit(ihs + [Inhibitor(false, false, false, false)], apply', stop)
  {
  }

  lemma ApplyKeepsInhibitors(s: State, t: State)
    requires Locks(s) && Inhibitors(s) && ApplyStep(s, t)
    ensures Inhibitors(t)
  {
    match s.apply
    case StopIh =>
      if s.inhibitors != [] { LastReplaced(s.inhibitors, Cancelled(TheIh(s)), s.apply, s.stop, t.apply, t.stop); }
    case Create => LastAdded(s.inhibitors, s.apply, s.stop, t.apply);
    case Check2 =>
      if !s.stopped { LastReplaced(s.inhibitors, TheIh(s).(launched := true), s.apply, s.stop, t.apply, t.stop); }
    case _ =>
  }

  lemma ApplyKeepsDispatchers(s: State, t: State)
    requires Locks(s) && Dispatchers(s) && ApplyStep(s, t)
    ensures Dispatchers(t)
  {
  }

  lemma StopKeepsLocks(s: State, t: State)
    requires Locks(s) && StopStep(s, t)
    ensures Locks(t)
  {
  }

  lemma StopKeepsInhibitors(s: State, t: State)
    requires Locks(s) && Inhibitors(s) && Dispatchers(s) && StopStep(s, t)
    ensures Inhibitors(t)
  {
    if s.stop.SStopIh? && s.inhibitors != [] {
      LastReplaced(s.inhibitors, Cancelled(TheIh(s)), s.apply, s.stop, t.apply, t.stop);
    }
  }

  lemma StopKeepsDispatchers(s: State, t: State)
    requires Locks(s) && Dispatchers(s) && StopStep(s, t)
    ensures Dispatchers(t)
  {
  }

  lemma DispatcherKeepsInv(s: State, j: nat, e: Dispatcher)
    requires Inv(s) && j < |s.dispatchers| && DispatcherStep(s.dispatchers[j], e)
    ensures Inv(s.(dispatchers := s.dispatchers[j := e]))
  {
  }

  lemma InhibitorKeepsInv(s: State, i: nat, b: Inhibitor)
    requires Inv(s) && i < |s.inhibitors| && InhibitorStep(s.inhibitors[i], b)
    ensures Inv(s.(inhibitors := s.inhibitors[i := b]))
  {
  }

  /** Every step keeps the invariant. */
  lemma StepKeepsInv(s: State, step: Step, t: State)
    requires Inv(s) && Next(s, step, t)
    ensures Inv(t)
  {
    match step
    case CallApply =>
    case CallStop =>
    case DoApply =>
      ApplyKeepsLocks(s, t);
      ApplyKeepsInhibitors(s, t);
      ApplyKeepsDispatchers(s, t);
    case DoStop =>
      StopKeepsLocks(s, t);
      StopKeepsInhibitors(s, t);
      StopKeepsDispatchers(s, t);
    case DoDispatcher(j, e) => DispatcherKeepsInv(s, j, e);
    case DoInhibitor(i, b) => InhibitorKeepsInv(s, i, b);
  }

  // ---------- what holds of every run ----------

  ghost predicate Follows(s: State, t: State) {
    exists step :: Next(s, step, t)
  }

  ghost predicate IsRun(run: seq<State>) {
    forall k :: 0 < k < |run| ==> Follows(run[k - 1], run[k])
  }

  lemma {:induction false} RunKeepsInv(run: seq<State>, k: nat)
    requires IsRun(run) && k < |run| && Inv(run[0])
    ensures Inv(run[k])
  {
    if k > 0 {
      RunKeepsInv(run, k - 1);
      assert Follows(run[k - 1], run[k]);
      var step :| Next(run[k - 1], step, run[k]);
      StepKeepsInv(run[k - 1], step, run[k]);
    }
  }

  predicate Uncancelled(ih: Inhibitor) {
    ih.running && !ih.cancelled
  }

  /** At most one inhibitor is running and not cancelled: the last one made. */
  lemma AtMostOneUncancelled(run: seq<State>, k: nat, i: nat, j: nat)
    requires IsRun(run) && k < |run| && run[0] == Init()
    requires i < |run[k].inhibitors| && j < |run[k].inhibitors| && Uncancelled(run[k].inhibitors[i]) &&
        Uncancelled(run[k].inhibitors[j])
    ensures i == j == |run[k].inhibitors| - 1
  {
    InitHolds();
    RunKeepsInv(run, k);
    assert !Quiet(run[k].inhibitors[i]) && !Quiet(run[k].inhibitors[j]);
  }

  lemma {:induction false} DoneStaysDone(run: seq<State>, k: nat, m: nat)
    requires IsRun(run) && k <= m < |run| && run[k].stop.SDone?
    ensures run[m].stop.SDone?
    decreases m
  {
    if k < m {
      DoneStaysDone(run, k, m - 1);
      assert Follows(run[m - 1], run[m]);
    }
  }

  /** Once Stop has returned, no inhibitor is running uncancelled or about to start, then or ever after. */
  lemma NothingRunsAfterStop(run: seq<State>, k: nat, m: nat, i: nat)
    requires IsRun(run) && k <= m < |run| && run[0] == Init() && run[k].stop.SDone? && i < |run[m].inhibitors|
    ensures Quiet(run[m].inhibitors[i])
  {
    InitHolds();
    RunKeepsInv(run, m);
    DoneStaysDone(run, k, m);
  }

  /** And every dispatcher is cancelled. */
  lemma DispatchersEndAfterStop(run: seq<State>, k: nat, m: nat, j: nat)
    requires IsRun(run) && k <= m < |run| && run[0] == Init() && run[k].stop.SDone? && j < |run[m].dispatchers|
    ensures run[m].dispatchers[j].cancelled
  {
    InitHolds();
    RunKeepsInv(run, m);
    DoneStaysDone(run, k, m);
  }

  // ---------- nobody waits forever ----------

  function InhibitorRank(ih: Inhibitor): nat {
    (if ih.running then 0 else 1) + (if ih.loaded then 0 else 1)
  }

  function DispatcherRank(d: Dispatcher): nat {
    match d.phase
    case Begun => 4 case Swapped => 3 case Counted => 2 case Loaded => 1 case Returned => 0 case Refused => 0
  }

  function IhSum(s: seq<Inhibitor>): nat {
    if s == [] then 0 else IhSum(s[..|s| - 1]) + InhibitorRank(s[|s| - 1])
  }

  function DSum(s: seq<Dispatcher>): nat {
    if s == [] then 0 else DSum(s[..|s| - 1]) + DispatcherRank(s[|s| - 1])
  }

  lemma {:induction false} IhSumOfUpdate(s: seq<Inhibitor>, i: nat, x: Inhibitor)
    requires i < |s|
    ensures IhSum(s[i := x]) + InhibitorRank(s[i]) == IhSum(s) + InhibitorRank(x)
  {
    var last := |s| - 1;
    if i < last {
      IhSumOfUpdate(s[..last], i, x);
      assert s[i := x][..last] == s[..last][i := x];
    } else {
      assert s[i := x][..last] == s[..last];
    }
  }

  lemma {:induction false} DSumOfUpdate(s: seq<Dispatcher>, i: nat, x: Dispatcher)
    requires i < |s|
    ensures DSum(s[i := x]) + DispatcherRank(s[i]) == DSum(s) + DispatcherRank(x)
  {
    var last := |s| - 1;
    if i < last {
      DSumOfUpdate(s[..last], i, x);
      assert s[i := x][..last] == s[..last][i := x];
    } else {
      assert s[i := x][..last] == s[..last];
    }
  }

  lemma SumsOfNew(s: State)
    ensures IhSum(s.inhibitors + [Inhibitor(false, false, false, false)]) == IhSum(s.inhibitors) + 2
    ensures DSum(s.dispatchers + [Dispatcher(false, false, Begun)]) == DSum(s.dispatchers) + 4
  {
    assert (s.inhibitors + [Inhibitor(false, false, false, false)])[..|s.inhibitors|] == s.inhibitors;
    assert (s.dispatchers + [Dispatcher(false, false, Begun)])[..|s.dispatchers|] == s.dispatchers;
  }

  /** Launching or cancelling an inhibitor is none of its own steps. */
  lemma IhSumKept(s: State, ih: Inhibitor)
    requires s.inhibitors != [] && InhibitorRank(ih) == InhibitorRank(TheIh(s))
    ensures IhSum(WithLastIh(s, ih).inhibitors) == IhSum(s.inhibitors)
  {
    IhSumOfUpdate(s.inhibitors, LastIh(s), ih);
  }

  lemma DSumKept(s: State, d: Dispatcher)
    requires s.dispatchers != [] && d.phase == TheD(s).phase
    ensures DSum(WithLastD(s, d).dispatchers) == DSum(s.dispatchers)
  {
    DSumOfUpdate(s.dispatchers, LastD(s), d);
  }

  function ApplyRank(pc: ApplyPC): nat {
    match pc
    case Idle => 0 case Unlock2 => 1 case WaitIh => 2 case Check2 => 3 case Lock2 => 4 case Barrier => 5
    case Unlock1 => 6
    case Create => 13 case StopD3 => 14 case StopD2 => 15 case StopD1 => 16 case StopIh => 17 case Check1 => 18
    case Lock1 => 19
  }

  function StopRank(pc: StopPC): nat {
    match pc
    case NotCalled => 0 case SDone => 0 case SClose => 1 case SStopD3 => 2 case SStopD2 => 3 case SStopD1 => 4
    case SStopIh => 5 case SUnlock => 6 case SSet => 7 case SLock => 8
  }

  /** How many steps are left at most, not counting new calls. */
  function Rank(s: State): nat {
    ApplyRank(s.apply) + StopRank(s.stop) + IhSum(s.inhibitors) + DSum(s.dispatchers)
  }

  predicate IsCall(step: Step) {
    step.CallApply? || step.CallStop?
  }

  lemma ApplySums(s: State, t: State)
    requires ApplyStep(s, t)
    ensures IhSum(t.inhibitors) == IhSum(s.inhibitors) + if s.apply.Create? then 2 else 0
    ensures DSum(t.dispatchers) == DSum(s.dispatchers) + if s.apply.Create? then 4 else 0
  {
    match s.apply
    case StopIh => if s.inhibitors != [] { IhSumKept(s, Cancelled(TheIh(s))); }
    case StopD1 => if s.dispatchers != [] { DSumKept(s, TheD(s).(stopped := true)); }
    case StopD2 => if s.dispatchers != [] { DSumKept(s, TheD(s).(cancelled := true)); }
    case Create => SumsOfNew(s);
    case Check2 => if !s.stopped { IhSumKept(s, TheIh(s).(launched := true)); }
    case _ =>
  }

  lemma CapturedKeepSums(s: State)
    ensures IhSum(CapturedIhStopped(s).inhibitors) == IhSum(s.inhibitors)
    ensures DSum(CapturedDSet(s).dispatchers) == DSum(s.dispatchers)
    ensures DSum(CapturedDCancelled(s).dispatchers) == DSum(s.dispatchers)
  {
    if HasCaptured(s) {
      var n := s.captured - 1;
      IhSumOfUpdate(s.inhibitors, n, Cancelled(s.inhibitors[n]));
      DSumOfUpdate(s.dispatchers, n, s.dispatchers[n].(stopped := true));
      DSumOfUpdate(s.dispatchers, n, s.dispatchers[n].(cancelled := true));
    }
  }

  lemma StopSums(s: State, t: State)
    requires StopStep(s, t)
    ensures IhSum(t.inhibitors) == IhSum(s.inhibitors) && DSum(t.dispatchers) == DSum(s.dispatchers)
  {
    CapturedKeepSums(s);
  }

  lemma ApplyMovesOn(s: State, t: State)
    requires ApplyStep(s, t)
    ensures ApplyRank(t.apply) + (if s.apply.Create? then 6 else 0) < ApplyRank(s.apply) && t.stop == s.stop
  {
  }

  lemma StopMovesOn(s: State, t: State)
    requires StopStep(s, t)
    ensures StopRank(t.stop) < StopRank(s.stop) && t.apply == s.apply
  {
  }

  lemma ApplyBringsRankDown(s: State, t: State)
    requires ApplyStep(s, t)
    ensures Rank(t) < Rank(s)
  {
    ApplySums(s, t);
    ApplyMovesOn(s, t);
  }

  lemma StopBringsRankDown(s: State, t: State)
    requires StopStep(s, t)
    ensures Rank(t) < Rank(s)
  {
    StopSums(s, t);
    StopMovesOn(s, t);
  }

  /** Every step that is not a new call brings the rank down. */
  lemma StepBringsRankDown(s: State, step: Step, t: State)
    requires Next(s, step, t) && !IsCall(step)
    ensures Rank(t) < Rank(s)
  {
    match step
    case DoApply => ApplyBringsRankDown(s, t);
    case DoStop => StopBringsRankDown(s, t);
    case DoDispatcher(j, e) => DSumOfUpdate(s.dispatchers, j, e);
    case DoInhibitor(i, b) => IhSumOfUpdate(s.inhibitors, i, b);
    case _ =>
  }

  /** Both calls are at rest: ApplyConfig has returned, and Stop has, unless it was not called. */
  predicate AtRest(s: State) {
    s.apply.Idle? && (s.stop.NotCalled? || s.stop.SDone?)
  }

  predicate CanGoOn(s: State, step: Step, t: State) {
    Next(s, step, t) && !IsCall(step)
  }

  /** A dispatcher that is being waited for or was cancelled makes a step. */
  lemma DispatcherGoesOn(s: State) returns (step: Step, t: State)
    requires s.dispatchers != [] &&
        (TheD(s).phase.Begun? || TheD(s).phase.Swapped? || TheD(s).phase.Counted? ||
        (TheD(s).phase.Loaded? && TheD(s).cancelled))
    ensures CanGoOn(s, step, t) && step.DoDispatcher? && step.j == LastD(s)
  {
    var d := TheD(s);
    var e := match d.phase
      case Begun => d.(phase := if d.stopped then Refused else Swapped)
      case Swapped => d.(phase := Counted)
      case Counted => d.(phase := Loaded)
      case _ => d.(phase := Returned);
    step, t := DoDispatcher(LastD(s), e), s.(dispatchers := s.dispatchers[LastD(s) := e]);
  }

  /** ApplyConfig holding the lock goes on, or what it waits for does. */
  lemma HolderGoesOn(s: State) returns (step: Step, t: State)
    requires Inv(s) && s.owner == Applier
    ensures CanGoOn(s, step, t)
  {
    step := DoApply;
    match s.apply
    case Check1 => t := s.(apply := if s.stopped then Unlock2 else StopIh);
    case StopIh => t := (if s.inhibitors == [] then s else WithLastIh(s, Cancelled(TheIh(s)))).(apply := StopD1);
    case StopD1 => t := (if s.dispatchers == [] then s else WithLastD(s, TheD(s).(stopped := true))).(apply := StopD2);
    case StopD2 =>
      t := (if s.dispatchers == [] then s else WithLastD(s, TheD(s).(cancelled := true))).(apply := StopD3);
    case StopD3 =>
      if s.dispatchers == [] || Finished(TheD(s)) { t := s.(apply := Create); } else { step, t := DispatcherGoesOn(s); }
    case Create =>
      t := s.(inhibitors := s.inhibitors + [Inhibitor(false, false, false, false)],
              dispatchers := s.dispatchers + [Dispatcher(false, false, Begun)], apply := Unlock1);
    case Unlock1 => t := s.(owner := Nobody, apply := Barrier);
    case Check2 => t := if s.stopped then s.(apply := Unlock2)
      else WithLastIh(s, TheIh(s).(launched := true)).(apply := WaitIh);
    case WaitIh => step, t := InhibitorAwaited(s);
    case Unlock2 => t := s.(owner := Nobody, apply := Idle);
  }

  lemma InhibitorAwaited(s: State) returns (step: Step, t: State)
    requires s.apply.WaitIh? && s.inhibitors != [] && TheIh(s).launched
    ensures CanGoOn(s, step, t)
  {
    var ih := TheIh(s);
    if ih.loaded {
      step, t := DoApply, s.(apply := Unlock2);
    } else {
      var b := if ih.running then ih.(loaded := true) else ih.(running := true);
      step, t := DoInhibitor(LastIh(s), b), s.(inhibitors := s.inhibitors[LastIh(s) := b]);
    }
  }

  /** Stop past the lock goes on, or the dispatcher it waits for does. */
  lemma StopGoesOn(s: State) returns (step: Step, t: State)
    requires Inv(s) && PastSet(s.stop) && !s.stop.SDone?
    ensures CanGoOn(s, step, t)
    ensures s.dispatchers == [] || Finished(TheD(s)) ==> step == DoStop
  {
    step := DoStop;
    match s.stop
    case SUnlock => t := s.(owner := Nobody, stop := SStopIh);
    case SStopIh => t := CapturedIhStopped(s).(stop := SStopD1);
    case SStopD1 => t := CapturedDSet(s).(stop := SStopD2);
    case SStopD2 => t := CapturedDCancelled(s).(stop := SStopD3);
    case SStopD3 =>
      if s.dispatchers == [] || Finished(TheD(s)) { t := s.(stop := SClose); } else { step, t := DispatcherGoesOn(s); }
    case SClose => t := s.(maintenanceStopped := true, stop := SDone);
  }

  /** At the load barrier ApplyConfig goes on once the dispatcher is loaded; before, the dispatcher loads. If
      it has refused to run, Stop is past setting its state, and makes its own next step until it has returned
      and ApplyConfig gives up. */
  lemma BarrierGoesOn(s: State) returns (step: Step, t: State)
    requires Inv(s) && s.apply.Barrier?
    ensures CanGoOn(s, step, t)
    ensures LoadingDone(TheD(s)) ==> step == DoApply && t == s.(apply := Lock2)
    ensures !LoadingDone(TheD(s)) && !TheD(s).phase.Refused? ==> step.DoDispatcher? && step.j == LastD(s)
    ensures TheD(s).phase.Refused? && !s.stop.SDone? ==> PastState(s.stop) && step == DoStop
    ensures TheD(s).phase.Refused? && s.stop.SDone? ==> step == DoApply && t == s.(apply := Idle)
  {
    if LoadingDone(TheD(s)) {
      step, t := DoApply, s.(apply := Lock2);
    } else if !TheD(s).phase.Refused? {
      step, t := DispatcherGoesOn(s);
    } else if s.stop.SDone? {
      step, t := DoApply, s.(apply := Idle);
    } else {
      step, t := StopGoesOn(s);
    }
  }

  /** As long as a call has not returned, some step can be made. */
  lemma SomeStepIsPossible(s: State) returns (step: Step, t: State)
    requires Inv(s) && !AtRest(s)
    ensures CanGoOn(s, step, t)
  {
    if s.owner == Applier {
      step, t := HolderGoesOn(s);
    } else if PastSet(s.stop) && !s.stop.SDone? {
      step, t := StopGoesOn(s);
    } else if s.stop.SSet? {
      step, t := DoStop, s.(stopped := true, captured := |s.inhibitors|, stop := SUnlock);
    } else if s.stop.SLock? {
      step, t := DoStop, s.(owner := Stopper, stop := SSet);
    } else if s.apply.Lock1? {
      step, t := DoApply, s.(owner := Applier, apply := Check1);
    } else if s.apply.Lock2? {
      step, t := DoApply, s.(owner := Applier, apply := Check2);
    } else {
      step, t := BarrierGoesOn(s);
    }
  }

  ghost predicate GoesOn(s: State, t: State) {
    exists step :: CanGoOn(s, step, t)
  }

  ghost predicate Stuck(s: State) {
    forall t :: !GoesOn(s, t)
  }

  /** No call blocks forever: from any state reached, a run without new calls has at most Rank steps, and
      where it cannot go on all calls have returned. */
  lemma {:induction false} NoCallBlocksForever(before: seq<State>, run: seq<State>)
    requires before != [] && run != [] && before[0] == Init() && IsRun(before) && run[0] == before[|before| - 1]
    requires forall k :: 0 < k < |run| ==> GoesOn(run[k - 1], run[k])
    ensures |run| - 1 + Rank(run[|run| - 1]) <= Rank(run[0])
    ensures Stuck(run[|run| - 1]) ==> AtRest(run[|run| - 1])
  {
    InitHolds();
    RunKeepsInv(before, |before| - 1);
    RanksDrop(run, |run| - 1);
    var s := run[|run| - 1];
    if !AtRest(s) {
      var step, t := SomeStepIsPossible(s);
      assert GoesOn(s, t);
    }
  }

  lemma {:induction false} RanksDrop(run: seq<State>, k: nat)
    requires k < |run| && Inv(run[0]) && forall i :: 0 < i < |run| ==> GoesOn(run[i - 1], run[i])
    ensures Inv(run[k]) && k + Rank(run[k]) <= Rank(run[0])
  {
    if k > 0 {
      RanksDrop(run, k - 1);
      assert GoesOn(run[k - 1], run[k]);
      var step :| CanGoOn(run[k - 1], step, run[k]);
      StepKeepsInv(run[k - 1], step, run[k]);
      StepBringsRankDown(run[k - 1], step, run[k]);
    }
  }
}
