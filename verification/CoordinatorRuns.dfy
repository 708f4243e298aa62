/** What holds of the coordinator over whole runs, for every sequence of frames
    and any feedback at all. */
module CoordinatorRuns {
  import opened Types
  import opened CommandCoordinator

  /** Everything one call of the coordinator is given. */
  datatype Frame = Frame(
    mission: MissionType,
    request: ActionRequest,
    camera: CameraRequest,
    feedback: DeliveryFeedback,
    nowSec: real)

  /** An action as the executor sees it: identifier and payload. */
  datatype Order = Order(id: ActionId, mission: MissionType, action: MissionAction, category: ActionCategory, yawDeg: int)

  /** A coordinator together with the orders it has allocated so far. */
  datatype History = History(state: CoordinatorState, issued: seq<Order>)

  function OrderOf(command: ControlCommand): Order {
    Order(command.actionId, command.mission, command.action, command.category, command.yawDeg)
  }

  function PendingOrder(c: CoordinatorState): Order {
    Order(c.pendingId, c.pendingMission, c.pendingRequest.action, c.pendingRequest.category, c.pendingRequest.yawDeg)
  }

  function QueuedOrder(c: CoordinatorState): Order {
    Order(c.queuedId, LineMission, c.queuedRequest.action, c.queuedRequest.category, c.queuedRequest.yawDeg)
  }

  function Step(config: CommandConfig, c: CoordinatorState, f: Frame): Outcome {
    Compute(config, c, f.mission, f.request, f.camera, f.feedback, f.nowSec)
  }

  function Advance(config: CommandConfig, h: History, f: Frame): History {
    var out := Step(config, h.state, f);
    History(out.state, if out.state.nextId == h.state.nextId then h.issued else h.issued + [OrderOf(out.command)])
  }

  function Run(config: CommandConfig, frames: seq<Frame>): History {
    if frames == [] then History(Initial(config), [])
    else Advance(config, Run(config, frames[..|frames| - 1]), frames[|frames| - 1])
  }

  function StateBefore(config: CommandConfig, frames: seq<Frame>, i: nat): CoordinatorState
    requires i < |frames|
  {
    Run(config, frames[..i]).state
  }

  /** The command emitted at frame i of a run. */
  function OutputAt(config: CommandConfig, frames: seq<Frame>, i: nat): ControlCommand
    requires i < |frames|
  {
    Step(config, StateBefore(config, frames, i), frames[i]).command
  }

  lemma RunExtends(config: CommandConfig, frames: seq<Frame>, i: nat)
    requires i < |frames|
    ensures Run(config, frames[..i + 1]) == Advance(config, Run(config, frames[..i]), frames[i])
  {
    assert frames[..i + 1][..i] == frames[..i];
  }

  // ----- The identifier sequence -----

  /** The k-th identifier handed out when the first one is `first`. */
  function NthId(first: ActionId, k: nat): ActionId {
    if k == 0 then first else NextId(NthId(first, k - 1))
  }

  lemma {:induction false} NthIdClosedForm(first: ActionId, k: nat)
    requires first != 0
    ensures NthId(first, k) == 1 + (first - 1 + k) % (ID_MODULUS - 1)
  {
    if k > 0 { NthIdClosedForm(first, k - 1); }
  }

  lemma NthIdInjective(first: ActionId, i: nat, j: nat)
    requires first != 0 && i < ID_MODULUS - 1 && j < ID_MODULUS - 1
    requires NthId(first, i) == NthId(first, j)
    ensures i == j
  {
    NthIdClosedForm(first, i);
    NthIdClosedForm(first, j);
  }

  ghost predicate IdsDistinct(first: ActionId, n: nat) {
    forall i: nat, j: nat :: i < j < n ==> NthId(first, i) != NthId(first, j)
  }

  /** Identifiers repeat as soon as more than 2^64 - 1 of them are taken, and not before. */
  lemma IdsDistinctIff(first: ActionId, n: nat)
    requires first != 0
    ensures IdsDistinct(first, n) <==> n <= ID_MODULUS - 1
  {
    if n <= ID_MODULUS - 1 {
      forall i: nat, j: nat | i < j < n
        ensures NthId(first, i) != NthId(first, j)
      {
        if NthId(first, i) == NthId(first, j) { NthIdInjective(first, i, j); }
      }
    } else {
      NthIdClosedForm(first, 0);
      NthIdClosedForm(first, ID_MODULUS - 1);
      assert NthId(first, 0) == NthId(first, ID_MODULUS - 1);
    }
  }

  // ----- One step, seen through the outstanding orders -----

  /** The orders the coordinator has allocated and not yet seen finished. */
  function Outstanding(c: CoordinatorState): seq<Order> {
    if c.pendingId == 0 then []
    else if c.queuedId == 0 then [PendingOrder(c)]
    else [PendingOrder(c), QueuedOrder(c)]
  }

  ghost predicate WellFormed(c: CoordinatorState) {
    && c.nextId != 0
    && (c.pendingId == 0 ==> c.queuedId == 0 && !c.timedOut)
    && (c.queuedId != 0 ==> c.pendingMission.LineMission? && IsLongLineAction(c.pendingRequest.action))
  }

  /** This frame finishes the pending action. */
  predicate TakesDone(c: CoordinatorState, feedback: DeliveryFeedback) {
    !c.timedOut && c.pendingId != 0 && feedback.actionId == c.pendingId && feedback.done
  }

  function Remaining(c: CoordinatorState, feedback: DeliveryFeedback): seq<Order> {
    if TakesDone(c, feedback) then Outstanding(c)[1..] else Outstanding(c)
  }

  lemma AbsorbPendingKeepsOrders(c: CoordinatorState, feedback: DeliveryFeedback)
    requires WellFormed(c)
    ensures var a := AbsorbPending(c, feedback);
            WellFormed(a) && Outstanding(a) == Remaining(c, feedback) && a.nextId == c.nextId
  {
  }

  lemma AbsorbKeepsOrders(config: CommandConfig, c: CoordinatorState, feedback: DeliveryFeedback, nowSec: real)
    requires WellFormed(c)
    ensures var a := Absorb(config, c, feedback, nowSec);
            WellFormed(a) && Outstanding(a) == Remaining(c, feedback) && a.nextId == c.nextId
  {
    AbsorbPendingKeepsOrders(AbsorbQueuedAck(c, feedback), feedback);
    hide AbsorbPending;
  }

  lemma EmitAppendsOrder(c: CoordinatorState, f: Frame)
    requires WellFormed(c)
    ensures var out := Emit(c, f.mission, f.request, f.camera, f.nowSec);
            && WellFormed(out.state)
            && if out.state.nextId == c.nextId then
                 Outstanding(out.state) == Outstanding(c)
               else
                 && out.state.nextId == NextId(c.nextId) && out.command.actionId == c.nextId
                 && Outstanding(out.state) == Outstanding(c) + [OrderOf(out.command)]
  {
  }

  // ----- The run invariant -----

  /** The issued identifiers are consecutive and the outstanding orders are the
      last ones issued. */
  ghost predicate Chained(config: CommandConfig, h: History) {
    var n, o := |h.issued|, Outstanding(h.state);
    && WellFormed(h.state)
    && h.state.nextId == NthId(FirstId(config), n) != 0
    && ConsecutiveIds(FirstId(config), h.issued)
    && |o| <= n && h.issued[n - |o|..] == o
  }

  ghost predicate ConsecutiveIds(first: ActionId, issued: seq<Order>) {
    forall k :: 0 <= k < |issued| ==> issued[k].id == NthId(first, k) != 0
  }

  lemma ConsecutiveAppend(first: ActionId, issued: seq<Order>, order: Order)
    requires ConsecutiveIds(first, issued) && order.id == NthId(first, |issued|) != 0
    ensures ConsecutiveIds(first, issued + [order])
    ensures NthId(first, |issued| + 1) == NextId(order.id) != 0
  {
  }

  lemma SuffixAppend<T>(s: seq<T>, o: seq<T>, x: T)
    requires |o| <= |s| && s[|s| - |o|..] == o
    ensures (s + [x])[|s| - |o|..] == o + [x]
  {
  }

  lemma RemainingIsSuffix(issued: seq<Order>, c: CoordinatorState, feedback: DeliveryFeedback)
    requires var o := Outstanding(c); |o| <= |issued| && issued[|issued| - |o|..] == o
    ensures var o := Remaining(c, feedback); |o| <= |issued| && issued[|issued| - |o|..] == o
  {
  }

  lemma ChainedStep(config: CommandConfig, h: History, f: Frame)
    requires Chained(config, h)
    ensures Chained(config, Advance(config, h, f))
  {
    var a := Absorb(config, h.state, f.feedback, f.nowSec);
    var out := Emit(a, f.mission, f.request, f.camera, f.nowSec);
    hide Absorb, Emit, Outstanding, WellFormed, NthId, NextId, FirstId;
    AbsorbKeepsOrders(config, h.state, f.feedback, f.nowSec);
    EmitAppendsOrder(a, f);
    RemainingIsSuffix(h.issued, h.state, f.feedback);
    hide Remaining;
    if out.state.nextId != a.nextId {
      ConsecutiveAppend(FirstId(config), h.issued, OrderOf(out.command));
      SuffixAppend(h.issued, Remaining(h.state, f.feedback), OrderOf(out.command));
    }
  }

  lemma {:induction false} RunChained(config: CommandConfig, frames: seq<Frame>)
    ensures Chained(config, Run(config, frames))
  {
    if frames != [] {
      RunChained(config, frames[..|frames| - 1]);
      ChainedStep(config, Run(config, frames[..|frames| - 1]), frames[|frames| - 1]);
    }
  }

  /** The identifier chain, also across wrap-around: the queued identifier follows
      the pending one, and the next identifier follows the newest of the two. */
  lemma IdChain(config: CommandConfig, frames: seq<Frame>)
    ensures var c := Run(config, frames).state;
            && c.nextId != 0
            && (c.queuedId != 0 ==> c.pendingId != 0 && c.queuedId == NextId(c.pendingId) && c.nextId == NextId(c.queuedId))
            && (c.queuedId == 0 && c.pendingId != 0 ==> c.nextId == NextId(c.pendingId))
  {
    RunChained(config, frames);
    var h := Run(config, frames);
    hide Run, FirstId, NextId;
    var n, o, first := |h.issued|, Outstanding(h.state), FirstId(config);
    if |o| >= 1 { assert o[|o| - 1] == h.issued[n - 1] && NthId(first, n) == NextId(NthId(first, n - 1)); }
    if |o| == 2 { assert o[0] == h.issued[n - 2] && NthId(first, n - 1) == NextId(NthId(first, n - 2)); }
  }

  lemma {:induction false} IssuedGrows(config: CommandConfig, frames: seq<Frame>, i: nat)
    requires i <= |frames|
    ensures Run(config, frames[..i]).issued <= Run(config, frames).issued
  {
    if i == |frames| {
      assert frames[..i] == frames;
    } else {
      var init := frames[..|frames| - 1];
      assert init[..i] == frames[..i];
      IssuedGrows(config, init, i);
    }
  }

  lemma EmitRepeatsOrder(c: CoordinatorState, f: Frame)
    requires WellFormed(c)
    ensures var out := Emit(c, f.mission, f.request, f.camera, f.nowSec);
            out.command.actionId != 0 ==> OrderOf(out.command) in Outstanding(out.state)
  {
  }

  /** Every command carrying an identifier repeats an allocated order. */
  lemma OutputIsIssued(config: CommandConfig, frames: seq<Frame>, i: nat)
    requires i < |frames| && OutputAt(config, frames, i).actionId != 0
    ensures OrderOf(OutputAt(config, frames, i)) in Run(config, frames).issued
  {
    var h, f := Run(config, frames[..i]), frames[i];
    RunChained(config, frames[..i]);
    RunChained(config, frames[..i + 1]);
    RunExtends(config, frames, i);
    AbsorbKeepsOrders(config, h.state, f.feedback, f.nowSec);
    EmitRepeatsOrder(Absorb(config, h.state, f.feedback, f.nowSec), f);
    hide Absorb, Emit, Outstanding, WellFormed, Run;
    var h' := Advance(config, h, f);
    assert OrderOf(OutputAt(config, frames, i)) in h'.issued[|h'.issued| - |Outstanding(h'.state)|..];
    IssuedGrows(config, frames, i + 1);
  }

  lemma IssuedIdsDistinct(config: CommandConfig, h: History)
    requires Chained(config, h) && |h.issued| <= ID_MODULUS - 1
    ensures forall a, b :: a in h.issued && b in h.issued && a.id == b.id ==> a == b
  {
    IdsDistinctIff(FirstId(config), |h.issued|);
    forall a, b | a in h.issued && b in h.issued && a.id == b.id
      ensures a == b
    {
      var i :| 0 <= i < |h.issued| && h.issued[i] == a;
      var j :| 0 <= j < |h.issued| && h.issued[j] == b;
    }
  }

  /** Two commands with the same identifier carry the same mission, action,
      category and yaw, however often the identifier is repeated. */
  lemma PayloadStable(config: CommandConfig, frames: seq<Frame>, i: nat, j: nat)
    requires i < |frames| && j < |frames| && |Run(config, frames).issued| <= ID_MODULUS - 1
    requires OutputAt(config, frames, i).actionId == OutputAt(config, frames, j).actionId != 0
    ensures OrderOf(OutputAt(config, frames, i)) == OrderOf(OutputAt(config, frames, j))
  {
    RunChained(config, frames);
    IssuedIdsDistinct(config, Run(config, frames));
    OutputIsIssued(config, frames, i);
    OutputIsIssued(config, frames, j);
  }

  // ----- No ACTION after ACK -----

  /** The coordinator takes this feedback as the ACK of one of its two actions. */
  predicate TakesAck(c: CoordinatorState, feedback: DeliveryFeedback) {
    && !c.timedOut && feedback.acknowledged && feedback.actionId != 0
    && (feedback.actionId == c.pendingId || feedback.actionId == c.queuedId)
  }

  ghost predicate Allocated(h: History, id: ActionId) {
    exists k :: 0 <= k < |h.issued| && h.issued[k].id == id
  }

  predicate Acked(c: CoordinatorState, id: ActionId) {
    && (c.pendingId == id ==> c.pendingAck)
    && (c.queuedId == id ==> c.queuedAck)
  }

  /** The identifier has been allocated, and whatever still carries it is acknowledged. */
  ghost predicate Silenced(h: History, id: ActionId) {
    id != 0 && Allocated(h, id) && Acked(h.state, id)
  }

  lemma FreshIdsAreNew(config: CommandConfig, h: History, id: ActionId)
    requires Chained(config, h) && |h.issued| < ID_MODULUS - 1 && Allocated(h, id)
    ensures h.state.nextId != id
  {
    var k :| 0 <= k < |h.issued| && h.issued[k].id == id;
    IdsDistinctIff(FirstId(config), |h.issued| + 1);
    assert NthId(FirstId(config), k) != NthId(FirstId(config), |h.issued|);
  }

  lemma AbsorbKeepsAcked(config: CommandConfig, c: CoordinatorState, f: Frame, id: ActionId)
    requires id != 0 && (c.queuedId != 0 ==> c.queuedId != c.pendingId)
    requires Acked(c, id) || (TakesAck(c, f.feedback) && f.feedback.actionId == id)
    ensures Acked(Absorb(config, c, f.feedback, f.nowSec), id)
  {
  }

  lemma EmitKeepsAcked(c: CoordinatorState, f: Frame, id: ActionId)
    requires id != 0 && Acked(c, id) && WellFormed(c)
    requires Emit(c, f.mission, f.request, f.camera, f.nowSec).state.nextId != c.nextId ==> c.nextId != id
    ensures var out := Emit(c, f.mission, f.request, f.camera, f.nowSec);
            && Acked(out.state, id)
            && (out.command.actionId == id ==> out.command.commandType.HoldCommand?)
  {
  }

  lemma OutstandingAllocated(config: CommandConfig, h: History, id: ActionId)
    requires Chained(config, h) && id != 0 && (id == h.state.pendingId || id == h.state.queuedId)
    ensures Allocated(h, id)
  {
    var n, o := |h.issued|, Outstanding(h.state);
    var k := if id == h.state.pendingId then 0 else 1;
    assert o[k].id == id && h.issued[n - |o| + k] == o[k];
  }

  lemma OutstandingDistinct(config: CommandConfig, h: History)
    requires Chained(config, h) && |h.issued| <= ID_MODULUS - 1
    ensures h.state.queuedId != 0 ==> h.state.queuedId != h.state.pendingId
  {
    if h.state.queuedId != 0 {
      var n, o := |h.issued|, Outstanding(h.state);
      assert o[0] == h.issued[n - 2] && o[1] == h.issued[n - 1];
      IdsDistinctIff(FirstId(config), n);
      assert NthId(FirstId(config), n - 2) != NthId(FirstId(config), n - 1);
    }
  }

  lemma StaysSilenced(config: CommandConfig, h: History, f: Frame, id: ActionId)
    requires Chained(config, h) && |Advance(config, h, f).issued| <= ID_MODULUS - 1
    requires Silenced(h, id) || (TakesAck(h.state, f.feedback) && f.feedback.actionId == id)
    ensures Silenced(Advance(config, h, f), id)
    ensures var out := Step(config, h.state, f).command;
            out.actionId == id ==> out.commandType.HoldCommand?
  {
    var h' := Advance(config, h, f);
    if !Silenced(h, id) {
      OutstandingAllocated(config, h, id);
    }
    OutstandingDistinct(config, h);
    AbsorbKeepsOrders(config, h.state, f.feedback, f.nowSec);
    AbsorbKeepsAcked(config, h.state, f, id);
    if |h'.issued| > |h.issued| {
      FreshIdsAreNew(config, h, id);
    }
    EmitKeepsAcked(Absorb(config, h.state, f.feedback, f.nowSec), f, id);
    var k :| 0 <= k < |h.issued| && h.issued[k].id == id;
    assert h'.issued[k].id == id;
  }

  lemma {:induction false} SilencedRun(config: CommandConfig, frames: seq<Frame>, i: nat, j: nat)
    requires i <= j < |frames| && |Run(config, frames).issued| <= ID_MODULUS - 1
    requires TakesAck(StateBefore(config, frames, i), frames[i].feedback)
    ensures Silenced(Run(config, frames[..j + 1]), frames[i].feedback.actionId)
    ensures OutputAt(config, frames, j).actionId == frames[i].feedback.actionId ==>
              OutputAt(config, frames, j).commandType.HoldCommand?
  {
    hide Run, TakesAck, Silenced, Step, Chained;
    RunChained(config, frames[..j]);
    RunExtends(config, frames, j);
    IssuedGrows(config, frames, j + 1);
    if i < j { SilencedRun(config, frames, i, j - 1); }
    StaysSilenced(config, Run(config, frames[..j]), frames[j], frames[i].feedback.actionId);
  }

  /** From the frame that delivers the ACK of an action on, that action is never
      again emitted as a command to execute. */
  lemma NoActionAfterAck(config: CommandConfig, frames: seq<Frame>, i: nat, j: nat)
    requires i <= j < |frames| && |Run(config, frames).issued| <= ID_MODULUS - 1
    requires TakesAck(StateBefore(config, frames, i), frames[i].feedback)
    requires OutputAt(config, frames, j).actionId == frames[i].feedback.actionId
    ensures OutputAt(config, frames, j).commandType.HoldCommand?
  {
    SilencedRun(config, frames, i, j);
  }

  // ----- ACK timeout -----

  /** The command a timed-out coordinator repeats forever, up to the camera field. */
  function FrozenCommand(c: CoordinatorState, camera: CameraRequest): ControlCommand {
    PendingCommand(c, BlankCommand(LineMission, camera)).(commandType := HoldCommand, phase := ActionAckTimedOut)
  }

  lemma TimedOutStep(config: CommandConfig, c: CoordinatorState, f: Frame)
    requires c.timedOut
    ensures Step(config, c, f) == Outcome(c, FrozenCommand(c, f.camera))
  {
  }

  /** After the ACK timeout the state never changes again, nothing is issued, and
      every output is HOLD with the same identifier and payload. */
  lemma {:induction false} TimeoutFreezes(config: CommandConfig, frames: seq<Frame>, i: nat, j: nat)
    requires i <= j < |frames| && Run(config, frames[..i]).state.timedOut
    ensures Run(config, frames[..j + 1]) == Run(config, frames[..i])
    ensures OutputAt(config, frames, j) == FrozenCommand(Run(config, frames[..i]).state, frames[j].camera)
  {
    hide Step, FrozenCommand, Run;
    RunExtends(config, frames, j);
    if i < j { TimeoutFreezes(config, frames, i, j - 1); }
    TimedOutStep(config, Run(config, frames[..i]).state, frames[j]);
  }

  /** The frozen command still names the action that was not acknowledged. */
  lemma FrozenCommandNamesAction(config: CommandConfig, frames: seq<Frame>, camera: CameraRequest)
    requires Run(config, frames).state.timedOut
    ensures var out := FrozenCommand(Run(config, frames).state, camera);
            out.commandType.HoldCommand? && out.actionId != 0 && OrderOf(out) in Run(config, frames).issued
  {
    RunChained(config, frames);
    var h := Run(config, frames);
    assert OrderOf(FrozenCommand(h.state, camera)) in h.issued[|h.issued| - |Outstanding(h.state)|..];
  }

  // ----- One-shot mission actions -----

  predicate FinishesMissionAction(c: CoordinatorState, f: Frame, action: MissionAction) {
    && TakesDone(c, f.feedback)
    && c.pendingRequest.category.MissionCategory? && c.pendingRequest.action == action
  }

  /** The two ways out of the suppression: an idle frame without a request, or
      DONE of a different mission action. */
  predicate Releases(config: CommandConfig, c: CoordinatorState, f: Frame, action: MissionAction) {
    var absorbed := Absorb(config, c, f.feedback, f.nowSec);
    || (!absorbed.timedOut && absorbed.pendingId == 0 && f.request.action.NoAction?)
    || (exists other :: other != action && FinishesMissionAction(c, f, other))
  }

  predicate IssuesMissionAction(config: CommandConfig, c: CoordinatorState, f: Frame, action: MissionAction) {
    var out := Step(config, c, f);
    out.state.nextId != c.nextId && out.command.category.MissionCategory? && out.command.action == action
  }

  /** The frame offers the mission action to the queue, behind a long LINE walk whose
      READY is in. */
  predicate QueuesMissionAction(config: CommandConfig, c: CoordinatorState, f: Frame, action: MissionAction) {
    var absorbed := Absorb(config, c, f.feedback, f.nowSec);
    && !absorbed.timedOut && absorbed.pendingId != 0 && MayQueue(absorbed, f.mission, f.request)
    && f.request.category.MissionCategory? && f.request.action == action
  }

  lemma AbsorbSuppression(config: CommandConfig, c: CoordinatorState, f: Frame, action: MissionAction)
    requires c.suppressed == action || FinishesMissionAction(c, f, action)
    requires forall other :: other != action ==> !FinishesMissionAction(c, f, other)
    ensures Absorb(config, c, f.feedback, f.nowSec).suppressed == action
    ensures Absorb(config, c, f.feedback, f.nowSec).nextId == c.nextId
  {
    var finished := c.pendingRequest.action;
    assert finished == action || !FinishesMissionAction(c, f, finished);
  }

  lemma SuppressionStep(config: CommandConfig, h: History, f: Frame, action: MissionAction)
    requires Chained(config, h) && !action.NoAction?
    requires h.state.suppressed == action || FinishesMissionAction(h.state, f, action)
    requires !Releases(config, h.state, f, action)
    ensures Step(config, h.state, f).state.suppressed == action
    ensures IssuesMissionAction(config, h.state, f, action) <==> QueuesMissionAction(config, h.state, f, action)
  {
    var c := h.state;
    AbsorbSuppression(config, c, f, action);
    hide Absorb, NthId, FirstId, Outstanding, FinishesMissionAction;
  }

  predicate ReleasesAt(config: CommandConfig, frames: seq<Frame>, j: nat, action: MissionAction)
    requires j < |frames|
  {
    Releases(config, StateBefore(config, frames, j), frames[j], action)
  }

  /** From the DONE of a mission action on, and as long as no frame releases it, it is
      issued again exactly where it is offered to the queue: the queue path does not
      look at the suppression. */
  lemma {:induction false} SuppressedUnlessQueued(config: CommandConfig, frames: seq<Frame>, i: nat, k: nat, action: MissionAction)
    requires i <= k < |frames| && !action.NoAction?
    requires FinishesMissionAction(StateBefore(config, frames, i), frames[i], action)
    requires forall j :: i <= j <= k ==> !ReleasesAt(config, frames, j, action)
    ensures Run(config, frames[..k + 1]).state.suppressed == action
    ensures var c := StateBefore(config, frames, k);
            IssuesMissionAction(config, c, frames[k], action) <==> QueuesMissionAction(config, c, frames[k], action)
  {
    hide Run, Releases, FinishesMissionAction, IssuesMissionAction, QueuesMissionAction, Step, Chained;
    RunChained(config, frames[..k]);
    RunExtends(config, frames, k);
    if i < k { SuppressedUnlessQueued(config, frames, i, k - 1, action); }
    assert !ReleasesAt(config, frames, k, action);
    SuppressionStep(config, Run(config, frames[..k]), frames[k], action);
  }

  /** Only locomotion is ever offered to the queue; every caller in the program
      builds its queue-eligible requests that way. */
  predicate QueuesOnlyLocomotion(f: Frame) {
    f.request.lineQueueEligible ==> f.request.category.LocomotionCategory?
  }

  /** With that discipline a finished mission action is not issued again before an idle
      frame without a request or DONE of a different mission action. */
  lemma OneShot(config: CommandConfig, frames: seq<Frame>, i: nat, k: nat, action: MissionAction)
    requires i <= k < |frames| && !action.NoAction? && QueuesOnlyLocomotion(frames[k])
    requires FinishesMissionAction(StateBefore(config, frames, i), frames[i], action)
    requires IssuesMissionAction(config, StateBefore(config, frames, k), frames[k], action)
    ensures exists j :: i <= j <= k && ReleasesAt(config, frames, j, action)
  {
    hide StateBefore, ReleasesAt, FinishesMissionAction, IssuesMissionAction, Absorb;
    if forall j :: i <= j <= k ==> !ReleasesAt(config, frames, j, action) {
      SuppressedUnlessQueued(config, frames, i, k, action);
    }
  }

  const PICK_BALL := MissionRequest(PickBall, 0)
  const LINE_WALK := ActionRequest(StepForwardFive, LocomotionCategory, 0, true)

  /** BALL asks for PICK_BALL; its DONE comes with a LINE walk; ACK and READY of that
      walk come with a queue-eligible PICK_BALL. */
  function AskPick(): Frame { Frame(BallMission, PICK_BALL, NoCamera, NO_FEEDBACK, 0.0) }

  function PickDone(id: ActionId): Frame { Frame(LineMission, LINE_WALK, NoCamera, DeliveryFeedback(id, true, true, false), 0.0) }

  function WalkReady(id: ActionId): Frame {
    Frame(LineMission, PICK_BALL.(lineQueueEligible := true), NoCamera, DeliveryFeedback(id, true, false, true), 0.0)
  }

  predicate PickPending(c: CoordinatorState, id: ActionId) {
    && c.pendingId == id != 0 && c.pendingRequest == PICK_BALL && c.nextId == NextId(id) && c.queuedId == 0 && !c.timedOut
  }

  predicate WalkPending(c: CoordinatorState, id: ActionId) {
    && c.pendingId == id != 0 && c.pendingMission.LineMission? && c.pendingRequest == LINE_WALK && c.pendingIssuedSec == 0.0
    && c.nextId == NextId(id) && c.queuedId == 0 && !c.timedOut && c.suppressed == PickBall
  }

  lemma PickIsAsked(config: CommandConfig)
    ensures PickPending(Step(config, Initial(config), AskPick()).state, FirstId(config))
  {
  }

  lemma WalkFollowsPick(config: CommandConfig, c: CoordinatorState, id: ActionId)
    requires PickPending(c, id)
    ensures FinishesMissionAction(c, PickDone(id), PickBall) && !Releases(config, c, PickDone(id), PickBall)
    ensures WalkPending(Step(config, c, PickDone(id)).state, NextId(id))
  {
    assert Absorb(config, c, PickDone(id).feedback, 0.0)
        == c.(pendingId := 0, pendingRequest := NO_REQUEST, pendingAck := false, pendingReady := false, suppressed := PickBall);
    hide Absorb;
  }

  lemma PickIsQueued(config: CommandConfig, c: CoordinatorState, id: ActionId)
    requires WalkPending(c, id)
    ensures !Releases(config, c, WalkReady(id), PickBall) && IssuesMissionAction(config, c, WalkReady(id), PickBall)
  {
    assert Absorb(config, c, WalkReady(id).feedback, 0.0) == c.(pendingAck := true, pendingReady := true);
    hide Absorb;
    NextIsNotSame(c.nextId);
  }

  /** Without the discipline the promise fails, in a run of three frames from the start:
      PICK_BALL is issued again although nothing has released it. */
  lemma QueuePathIsNotSuppressed(config: CommandConfig) returns (frames: seq<Frame>)
    ensures |frames| == 3
    ensures FinishesMissionAction(StateBefore(config, frames, 1), frames[1], PickBall)
    ensures !ReleasesAt(config, frames, 1, PickBall) && !ReleasesAt(config, frames, 2, PickBall)
    ensures IssuesMissionAction(config, StateBefore(config, frames, 2), frames[2], PickBall)
  {
    hide Step, NextId, FirstId, Initial, Releases, FinishesMissionAction, IssuesMissionAction, PickPending, WalkPending, AskPick, PickDone,
         WalkReady;
    var first := FirstId(config);
    frames := [AskPick(), PickDone(first), WalkReady(NextId(first))];
    RunExtends(config, frames, 0);
    RunExtends(config, frames, 1);
    assert frames[..0] == [] && Run(config, []).state == Initial(config);
    hide Run;
    PickIsAsked(config);
    WalkFollowsPick(config, StateBefore(config, frames, 1), first);
    PickIsQueued(config, StateBefore(config, frames, 2), NextId(first));
  }

  lemma NextIsNotSame(id: ActionId)
    ensures NextId(id) != id
  {
  }
}
