/** The coordinator composed with a motion executor over two channels that may
    lose, delay, reorder and duplicate every message. */
module Delivery {
  import opened Types
  import opened CommandCoordinator
  import opened CoordinatorRuns

  /** The executor: what it has started, how much of that is finished, and its
      one-place queue. An ACK is only given for a started or stored order. */
  datatype Executor = Executor(started: seq<Order>, finished: nat, slot: Option<Order>) {
    predicate Idle() { finished == |started| }

    function Known(): seq<Order> {
      started + if slot.Some? then [slot.value] else []
    }
  }

  predicate HasId(orders: seq<Order>, id: ActionId) {
    exists k :: 0 <= k < |orders| && orders[k].id == id
  }

  /** The same identifier is never accepted twice; a new one starts at once when
      idle, is stored when the slot is free, and is otherwise turned away. */
  function Receive(e: Executor, order: Order): Executor {
    if HasId(e.Known(), order.id) then e
    else if e.Idle() then e.(started := e.started + [order])
    else if e.slot.None? then e.(slot := Some(order))
    else e
  }

  /** The running order ends and a stored one starts immediately. */
  function Finish(e: Executor): Executor
    requires !e.Idle()
  {
    if e.slot.Some? then Executor(e.started + [e.slot.value], e.finished + 1, None)
    else e.(finished := e.finished + 1)
  }

  /** What the executor may report at this moment. */
  predicate Truthful(e: Executor, feedback: DeliveryFeedback) {
    && (feedback.acknowledged ==> HasId(e.Known(), feedback.actionId))
    && (feedback.ready ==> HasId(e.started, feedback.actionId))
    && (feedback.done ==> e.finished <= |e.started| && HasId(e.started[..e.finished], feedback.actionId))
  }

  datatype System = System(history: History, sent: set<Order>, executor: Executor, reported: set<DeliveryFeedback>)

  datatype Event =
    | Tick(frame: Frame)
    | Deliver(order: Order)
    | FinishRunning
    | Report(feedback: DeliveryFeedback)

  function Start(config: CommandConfig): System {
    System(History(Initial(config), []), {}, Executor([], 0, None), {})
  }

  /** A message can arrive only if it was sent; it may arrive any number of times,
      in any order, or never. */
  predicate Enabled(s: System, e: Event) {
    match e
    case Tick(f) => f.feedback.actionId != 0 ==> f.feedback in s.reported
    case Deliver(order) => order in s.sent
    case FinishRunning => !s.executor.Idle()
    case Report(feedback) => Truthful(s.executor, feedback)
  }

  function Next(config: CommandConfig, s: System, e: Event): System
    requires Enabled(s, e)
  {
    match e
    case Tick(f) =>
      var command := Step(config, s.history.state, f).command;
      s.(history := Advance(config, s.history, f),
         sent := if command.commandType.ActionCommand? then s.sent + {OrderOf(command)} else s.sent)
    case Deliver(order) => s.(executor := Receive(s.executor, order))
    case FinishRunning => s.(executor := Finish(s.executor))
    case Report(feedback) => s.(reported := s.reported + {feedback})
  }

  /** The states reached by `events`, or None if one of them was not enabled. */
  function RunSystem(config: CommandConfig, events: seq<Event>): Option<System> {
    if events == [] then Some(Start(config))
    else
      var before := RunSystem(config, events[..|events| - 1]);
      var e := events[|events| - 1];
      if before.Some? && Enabled(before.value, e) then Some(Next(config, before.value, e)) else None
  }

  // ----- The system invariant -----

  ghost predicate ExecutorShape(e: Executor) {
    && e.finished <= |e.started| <= e.finished + 1
    && (e.slot.Some? ==> !e.Idle())
  }

  /** The executor knows a prefix of what was issued, at most the newest order is
      missing, and everything the coordinator no longer tracks is finished. */
  ghost predicate InStep(h: History, e: Executor) {
    var n, o, known := |h.issued|, |Outstanding(h.state)|, e.Known();
    && known <= h.issued && n <= |known| + 1
    && n <= e.finished + o
    && (o == 2 ==> n <= |e.started| + 1)
  }

  /** ACK and READY bits are knowledge about the executor. */
  ghost predicate BitsSound(h: History, e: Executor) {
    var n, o, c := |h.issued|, |Outstanding(h.state)|, h.state;
    && (o >= 1 && c.pendingReady ==> n < |e.started| + o)
    && (o >= 1 && c.pendingAck ==> n < |e.Known()| + o)
    && (o == 2 && c.queuedAck ==> n <= |e.Known()|)
  }

  ghost predicate Inv(config: CommandConfig, s: System) {
    && Chained(config, s.history)
    && (forall order :: order in s.sent ==> order in s.history.issued)
    && ExecutorShape(s.executor)
    && InStep(s.history, s.executor)
    && BitsSound(s.history, s.executor)
    && (forall feedback :: feedback in s.reported ==> Truthful(s.executor, feedback))
  }

  lemma EmittedIsIssued(config: CommandConfig, h: History, f: Frame)
    requires Chained(config, h) && Step(config, h.state, f).command.commandType.ActionCommand?
    ensures OrderOf(Step(config, h.state, f).command) in Advance(config, h, f).issued
  {
    var a := Absorb(config, h.state, f.feedback, f.nowSec);
    AbsorbKeepsOrders(config, h.state, f.feedback, f.nowSec);
    EmitRepeatsOrder(a, f);
    ActionNamesOrder(a, f);
    ChainedStep(config, h, f);
    hide Absorb, Emit, Outstanding, WellFormed;
    var h' := Advance(config, h, f);
    assert OrderOf(Step(config, h.state, f).command) in h'.issued[|h'.issued| - |Outstanding(h'.state)|..];
  }

  lemma ActionNamesOrder(c: CoordinatorState, f: Frame)
    requires WellFormed(c) && Emit(c, f.mission, f.request, f.camera, f.nowSec).command.commandType.ActionCommand?
    ensures Emit(c, f.mission, f.request, f.camera, f.nowSec).command.actionId != 0
  {
  }

  /** The position of an identifier among the issued orders is unique. */
  lemma UniquePosition(config: CommandConfig, h: History, i: nat, j: nat)
    requires Chained(config, h) && |h.issued| <= ID_MODULUS - 1
    requires i < |h.issued| && j < |h.issued| && h.issued[i].id == h.issued[j].id
    ensures i == j
  {
    NthIdInjective(FirstId(config), i, j);
  }

  // ----- Executor steps -----

  lemma TruthfulGrows(e: Executor, e': Executor, feedback: DeliveryFeedback)
    requires Truthful(e, feedback) && e.finished <= e'.finished <= |e'.started|
    requires e.started <= e'.started && e.Known() <= e'.Known()
    ensures Truthful(e', feedback)
  {
    if feedback.acknowledged {
      var k :| 0 <= k < |e.Known()| && e.Known()[k].id == feedback.actionId;
      assert e'.Known()[k].id == feedback.actionId;
    }
    if feedback.ready {
      var k :| 0 <= k < |e.started| && e.started[k].id == feedback.actionId;
      assert e'.started[k].id == feedback.actionId;
    }
    if feedback.done {
      var k :| 0 <= k < |e.started[..e.finished]| && e.started[..e.finished][k].id == feedback.actionId;
      assert e'.started[..e'.finished][k].id == feedback.actionId;
    }
  }

  /** An unknown order that arrives is the newest one issued, and there is room for it. */
  lemma ArrivalFits(config: CommandConfig, s: System, order: Order)
    requires Inv(config, s) && |s.history.issued| <= ID_MODULUS - 1
    requires order in s.sent && !HasId(s.executor.Known(), order.id)
    ensures var n := |s.history.issued|;
            && n == |s.executor.Known()| + 1 && order == s.history.issued[n - 1]
            && (s.executor.Idle() || s.executor.slot.None?)
  {
    var e, issued := s.executor, s.history.issued;
    var known := e.Known();
    assert forall k :: 0 <= k < |known| ==> known[k].id != order.id && known[k] == issued[k];
    var j :| 0 <= j < |issued| && issued[j] == order;
  }

  lemma DeliverKeeps(config: CommandConfig, s: System, order: Order)
    requires Inv(config, s) && |s.history.issued| <= ID_MODULUS - 1 && order in s.sent
    ensures Inv(config, s.(executor := Receive(s.executor, order)))
  {
    var e, e' := s.executor, Receive(s.executor, order);
    if !HasId(e.Known(), order.id) {
      ArrivalFits(config, s, order);
      assert e'.Known() == e.Known() + [order];
    }
    forall feedback | feedback in s.reported
      ensures Truthful(e', feedback)
    {
      TruthfulGrows(e, e', feedback);
    }
    hide Chained, Outstanding, Truthful, HasId;
  }

  lemma FinishKeeps(config: CommandConfig, s: System)
    requires Inv(config, s) && !s.executor.Idle()
    ensures Inv(config, s.(executor := Finish(s.executor)))
  {
    var e, e' := s.executor, Finish(s.executor);
    assert e'.Known() == e.Known();
    forall feedback | feedback in s.reported
      ensures Truthful(e', feedback)
    {
      TruthfulGrows(e, e', feedback);
    }
    hide Chained, Outstanding, Truthful, HasId;
  }

  // ----- Coordinator steps -----

  /** What the coordinator may conclude from truthful feedback about its own orders. */
  lemma FeedbackPosition(config: CommandConfig, h: History, e: Executor, feedback: DeliveryFeedback, k: nat)
    requires Chained(config, h) && |h.issued| <= ID_MODULUS - 1
    requires ExecutorShape(e) && e.Known() <= h.issued && Truthful(e, feedback)
    requires k < |h.issued| && h.issued[k].id == feedback.actionId
    ensures feedback.acknowledged ==> k < |e.Known()|
    ensures feedback.ready ==> k < |e.started|
    ensures feedback.done ==> k < e.finished
  {
    hide Chained, ExecutorShape;
    assert e.started <= e.Known();
    if feedback.acknowledged {
      var i :| 0 <= i < |e.Known()| && e.Known()[i].id == feedback.actionId;
      UniquePosition(config, h, i, k);
    }
    if feedback.ready {
      var i :| 0 <= i < |e.started| && e.started[i].id == feedback.actionId;
      assert e.Known()[i] == e.started[i];
      UniquePosition(config, h, i, k);
    }
    if feedback.done {
      var i :| 0 <= i < |e.started[..e.finished]| && e.started[..e.finished][i].id == feedback.actionId;
      assert e.Known()[i] == e.started[i];
      UniquePosition(config, h, i, k);
    }
  }

  /** The bits after feedback has been absorbed, in terms of positions. */
  lemma AbsorbedBits(config: CommandConfig, c: CoordinatorState, f: Frame)
    requires WellFormed(c) && (c.queuedId != 0 ==> c.queuedId != c.pendingId)
    ensures var a, fb := Absorb(config, c, f.feedback, f.nowSec), f.feedback;
            if TakesDone(c, fb) then
              && !a.pendingReady
              && (a.pendingAck ==> c.queuedId != 0 && c.queuedAck)
            else
              && (a.pendingReady ==> c.pendingReady || (fb.ready && fb.actionId == c.pendingId))
              && (a.pendingAck ==> c.pendingAck || (fb.acknowledged && fb.actionId == c.pendingId))
              && (a.queuedAck ==> c.queuedAck || (fb.acknowledged && fb.actionId == c.queuedId))
  {
  }

  lemma EmittedBits(c: CoordinatorState, f: Frame)
    requires WellFormed(c)
    ensures var out := Emit(c, f.mission, f.request, f.camera, f.nowSec);
            if out.state.nextId == c.nextId then
              && out.state.pendingReady == c.pendingReady && out.state.pendingAck == c.pendingAck
              && out.state.queuedAck == c.queuedAck
            else if c.pendingId == 0 then
              !out.state.pendingReady && !out.state.pendingAck
            else
              && c.queuedId == 0 && c.pendingReady && out.state.pendingReady
              && out.state.pendingAck == c.pendingAck && !out.state.queuedAck
  {
  }

  lemma AbsorbKeeps(config: CommandConfig, s: System, f: Frame)
    requires Inv(config, s) && |s.history.issued| <= ID_MODULUS - 1
    requires f.feedback.actionId != 0 ==> f.feedback in s.reported
    ensures var h := History(Absorb(config, s.history.state, f.feedback, f.nowSec), s.history.issued);
            InStep(h, s.executor) && BitsSound(h, s.executor)
  {
    var c, fb, e, issued := s.history.state, f.feedback, s.executor, s.history.issued;
    var n, o := |issued|, |Outstanding(c)|;
    OutstandingDistinct(config, s.history);
    AbsorbKeepsOrders(config, c, fb, f.nowSec);
    AbsorbedBits(config, c, f);
    assert forall k :: 0 <= k < o ==> issued[n - o + k] == Outstanding(c)[k];
    if fb.actionId != 0 && fb.actionId == c.pendingId {
      FeedbackPosition(config, s.history, e, fb, n - o);
    }
    if fb.actionId != 0 && fb.actionId == c.queuedId {
      FeedbackPosition(config, s.history, e, fb, n - 1);
    }
    hide Absorb, Chained, Truthful;
  }

  lemma EmitKeeps(config: CommandConfig, h: History, e: Executor, f: Frame)
    requires WellFormed(h.state) && ExecutorShape(e) && InStep(h, e) && BitsSound(h, e)
    requires e.Known() <= h.issued && |Outstanding(h.state)| <= |h.issued|
    ensures var out := Emit(h.state, f.mission, f.request, f.camera, f.nowSec);
            var h' := History(out.state, if out.state.nextId == h.state.nextId then h.issued else h.issued + [OrderOf(out.command)]);
            InStep(h', e) && BitsSound(h', e)
  {
    EmitAppendsOrder(h.state, f);
    EmittedBits(h.state, f);
    EmitQueuesBehindOne(h.state, f);
    hide Emit, WellFormed;
  }

  lemma EmitQueuesBehindOne(c: CoordinatorState, f: Frame)
    requires WellFormed(c)
    ensures Emit(c, f.mission, f.request, f.camera, f.nowSec).state.nextId != c.nextId ==>
              |Outstanding(c)| == 0 || (|Outstanding(c)| == 1 && c.pendingReady)
  {
  }

  lemma TickKeeps(config: CommandConfig, s: System, f: Frame)
    requires Inv(config, s) && |s.history.issued| <= ID_MODULUS - 1
    requires f.feedback.actionId != 0 ==> f.feedback in s.reported
    ensures Inv(config, Next(config, s, Tick(f)))
  {
    var a := Absorb(config, s.history.state, f.feedback, f.nowSec);
    var h := History(a, s.history.issued);
    AbsorbKeeps(config, s, f);
    AbsorbKeepsOrders(config, s.history.state, f.feedback, f.nowSec);
    RemainingIsSuffix(s.history.issued, s.history.state, f.feedback);
    EmitKeeps(config, h, s.executor, f);
    ChainedStep(config, s.history, f);
    if Step(config, s.history.state, f).command.commandType.ActionCommand? {
      EmittedIsIssued(config, s.history, f);
    }
    hide Absorb, Emit, Chained, InStep, BitsSound, ExecutorShape, Truthful;
    assert s.history.issued <= Advance(config, s.history, f).issued;
  }

  lemma {:induction false} Reachable(config: CommandConfig, events: seq<Event>)
    requires RunSystem(config, events).Some?
    requires |RunSystem(config, events).value.history.issued| <= ID_MODULUS - 1
    ensures Inv(config, RunSystem(config, events).value)
  {
    if events != [] {
      var init, e := events[..|events| - 1], events[|events| - 1];
      var s := RunSystem(config, init).value;
      Reachable(config, init);
      hide Inv, Advance, Receive, Finish;
      match e {
        case Tick(f) => TickKeeps(config, s, f);
        case Deliver(order) => DeliverKeeps(config, s, order);
        case FinishRunning => FinishKeeps(config, s);
        case Report(feedback) => ReportKeeps(config, s, feedback);
      }
    }
  }

  lemma ReportKeeps(config: CommandConfig, s: System, feedback: DeliveryFeedback)
    requires Inv(config, s) && Truthful(s.executor, feedback)
    ensures Inv(config, s.(reported := s.reported + {feedback}))
  {
  }

  // ----- Main results -----

  /** What the executor has started is a duplicate-free prefix of what was issued,
      in issue order and with the issued payload. */
  lemma ExactlyOnceInOrder(config: CommandConfig, events: seq<Event>)
    requires RunSystem(config, events).Some?
    requires |RunSystem(config, events).value.history.issued| <= ID_MODULUS - 1
    ensures var s := RunSystem(config, events).value;
            && s.executor.started <= s.history.issued
            && (forall i, j :: 0 <= i < j < |s.executor.started| ==> s.executor.started[i].id != s.executor.started[j].id)
  {
    Reachable(config, events);
    var s := RunSystem(config, events).value;
    assert s.executor.started <= s.executor.Known();
    forall i, j | 0 <= i < j < |s.executor.started|
      ensures s.executor.started[i].id != s.executor.started[j].id
    {
      if s.executor.started[i].id == s.executor.started[j].id {
        UniquePosition(config, s.history, i, j);
      }
    }
  }

  /** One slot is enough: no order that can arrive is ever turned away. */
  lemma OneSlotSuffices(config: CommandConfig, events: seq<Event>, order: Order)
    requires RunSystem(config, events).Some?
    requires |RunSystem(config, events).value.history.issued| <= ID_MODULUS - 1
    requires order in RunSystem(config, events).value.sent
    ensures var e := RunSystem(config, events).value.executor;
            HasId(Receive(e, order).Known(), order.id)
    ensures var e := RunSystem(config, events).value.executor;
            e.slot.Some? && e.slot.value.id != order.id ==> HasId(e.started, order.id)
  {
    Reachable(config, events);
    var s := RunSystem(config, events).value;
    var e := s.executor;
    if HasId(e.Known(), order.id) {
      var k :| 0 <= k < |e.Known()| && e.Known()[k].id == order.id;
      assert k < |e.started| ==> e.started[k].id == order.id;
    } else {
      ArrivalFits(config, s, order);
      var e' := Receive(e, order);
      assert e'.Known()[|e.Known()|].id == order.id;
    }
  }

  /** The ACK bits are sound knowledge about the executor. */
  lemma AckSound(config: CommandConfig, events: seq<Event>)
    requires RunSystem(config, events).Some?
    requires |RunSystem(config, events).value.history.issued| <= ID_MODULUS - 1
    ensures var s := RunSystem(config, events).value;
            var c := s.history.state;
            && (c.pendingId != 0 && c.pendingAck ==> PendingOrder(c) in s.executor.Known())
            && (c.queuedId != 0 && c.queuedAck ==> QueuedOrder(c) in s.executor.Known())
            && (c.pendingId != 0 && c.pendingReady ==> PendingOrder(c) in s.executor.started)
            && (c.queuedId != 0 ==> PendingOrder(c) in s.executor.started)
  {
    Reachable(config, events);
    var s := RunSystem(config, events).value;
    var c, issued, o := s.history.state, s.history.issued, |Outstanding(s.history.state)|;
    var n := |issued|;
    var started, known := s.executor.started, s.executor.Known();
    assert started <= known;
    assert forall k :: 0 <= k < |known| ==> known[k] == issued[k];
    assert forall k :: 0 <= k < o ==> issued[n - o + k] == Outstanding(c)[k];
    hide Chained, ConsecutiveIds, Truthful, HasId, RunSystem;
    if o >= 1 && c.pendingAck { assert known[n - o] == PendingOrder(c); }
    if o == 2 && c.queuedAck { assert known[n - 1] == QueuedOrder(c); }
    if o == 2 || (o == 1 && c.pendingReady) { assert started[n - o] == PendingOrder(c); }
  }

  /** When the coordinator has nothing outstanding, every issued order was executed to its end. */
  lemma IdleMeansAllExecuted(config: CommandConfig, events: seq<Event>)
    requires RunSystem(config, events).Some?
    requires |RunSystem(config, events).value.history.issued| <= ID_MODULUS - 1
    requires RunSystem(config, events).value.history.state.pendingId == 0
    ensures var s := RunSystem(config, events).value;
            s.executor.started == s.history.issued && s.executor.Idle() && s.executor.slot.None?
  {
    Reachable(config, events);
    var s := RunSystem(config, events).value;
    assert s.executor.started <= s.executor.Known();
  }
}
