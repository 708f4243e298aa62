/** What the coordinator answers, in terms of the frames of a run alone: which command
    it emits, when it allocates, and when the ACK timeout strikes. */
module CoordinatorOutput {
  import opened Types
  import opened CommandCoordinator
  import opened CoordinatorRuns

  // ----- What has been heard -----

  /** Frame i brings in the ACK of this action. */
  predicate AckedIn(config: CommandConfig, frames: seq<Frame>, i: nat, id: ActionId)
    requires i < |frames|
  {
    TakesAck(StateBefore(config, frames, i), frames[i].feedback) && frames[i].feedback.actionId == id
  }

  /** Before frame k the ACK of this action has been brought in. */
  ghost predicate AckHeard(config: CommandConfig, frames: seq<Frame>, k: nat, id: ActionId)
    requires k <= |frames|
  {
    exists i :: 0 <= i < k && AckedIn(config, frames, i, id)
  }

  predicate TakesReady(c: CoordinatorState, feedback: DeliveryFeedback) {
    !c.timedOut && feedback.ready && feedback.actionId == c.pendingId != 0
  }

  predicate ReadyIn(config: CommandConfig, frames: seq<Frame>, i: nat, id: ActionId)
    requires i < |frames|
  {
    TakesReady(StateBefore(config, frames, i), frames[i].feedback) && frames[i].feedback.actionId == id
  }

  ghost predicate ReadyHeard(config: CommandConfig, frames: seq<Frame>, k: nat, id: ActionId)
    requires k <= |frames|
  {
    exists i :: 0 <= i < k && ReadyIn(config, frames, i, id)
  }

  /** When each order was issued. */
  function Stamps(config: CommandConfig, frames: seq<Frame>): seq<real> {
    if frames == [] then []
    else
      var init, f := frames[..|frames| - 1], frames[|frames| - 1];
      Stamps(config, init) + if |Run(config, frames).issued| > |Run(config, init).issued| then [f.nowSec] else []
  }

  // ----- The bits of the state are what has been heard -----

  predicate IsOut(c: CoordinatorState, id: ActionId) { id != 0 && (id == c.pendingId || id == c.queuedId) }

  predicate AckBit(c: CoordinatorState, id: ActionId) {
    (c.pendingId == id && c.pendingAck) || (c.queuedId == id && c.queuedAck)
  }

  predicate ReadyBit(c: CoordinatorState, id: ActionId) { c.pendingId == id && c.pendingReady }

  ghost predicate BitsAreHeard(config: CommandConfig, frames: seq<Frame>, k: nat)
    requires k <= |frames|
  {
    var c := Run(config, frames[..k]).state;
    forall id :: IsOut(c, id) ==>
      (AckBit(c, id) <==> AckHeard(config, frames, k, id)) && (ReadyBit(c, id) <==> ReadyHeard(config, frames, k, id))
  }

  lemma AbsorbBits(config: CommandConfig, c: CoordinatorState, f: Frame, id: ActionId)
    requires WellFormed(c) && (c.queuedId != 0 ==> c.queuedId != c.pendingId)
    requires IsOut(Absorb(config, c, f.feedback, f.nowSec), id)
    ensures var a := Absorb(config, c, f.feedback, f.nowSec);
            && IsOut(c, id)
            && (AckBit(a, id) <==> AckBit(c, id) || (TakesAck(c, f.feedback) && f.feedback.actionId == id))
            && (ReadyBit(a, id) <==> ReadyBit(c, id) || (TakesReady(c, f.feedback) && f.feedback.actionId == id))
  {
  }

  lemma EmitBits(c: CoordinatorState, f: Frame, id: ActionId)
    requires WellFormed(c)
    requires var s := Emit(c, f.mission, f.request, f.camera, f.nowSec).state;
             IsOut(s, id) && (s.nextId != c.nextId ==> !IsOut(c, c.nextId))
    ensures var s := Emit(c, f.mission, f.request, f.camera, f.nowSec).state;
            if IsOut(c, id) then AckBit(s, id) == AckBit(c, id) && ReadyBit(s, id) == ReadyBit(c, id)
            else id == c.nextId != s.nextId && !AckBit(s, id) && !ReadyBit(s, id)
  {
  }

  lemma NextIsNotOut(config: CommandConfig, h: History, a: CoordinatorState)
    requires Chained(config, h) && |h.issued| < ID_MODULUS - 1
    requires a.nextId == h.state.nextId && forall id :: IsOut(a, id) ==> IsOut(h.state, id)
    ensures !IsOut(a, a.nextId)
  {
    if IsOut(a, a.nextId) {
      OutstandingAllocated(config, h, a.nextId);
      FreshIdsAreNew(config, h, a.nextId);
    }
  }

  lemma ChainedIsWellFormed(config: CommandConfig, h: History)
    requires Chained(config, h)
    ensures WellFormed(h.state)
  {
  }

  /** How one step moves the bits of an action that is outstanding after it. */
  lemma StepBits(config: CommandConfig, h: History, f: Frame, id: ActionId)
    requires Chained(config, h) && |Advance(config, h, f).issued| <= ID_MODULUS - 1
    requires IsOut(Advance(config, h, f).state, id)
    ensures var c, s := h.state, Advance(config, h, f).state;
            if IsOut(c, id) then
              && (AckBit(s, id) <==> AckBit(c, id) || (TakesAck(c, f.feedback) && f.feedback.actionId == id))
              && (ReadyBit(s, id) <==> ReadyBit(c, id) || (TakesReady(c, f.feedback) && f.feedback.actionId == id))
            else
              && id == c.nextId && |h.issued| < ID_MODULUS - 1
              && !AckBit(s, id) && !ReadyBit(s, id)
  {
    hide AckBit, ReadyBit, Absorb, Emit, Chained, TakesAck, TakesReady, IsOut;
    OutstandingDistinct(config, h);
    ChainedIsWellFormed(config, h);
    var c, a := h.state, Absorb(config, h.state, f.feedback, f.nowSec);
    AbsorbKeepsOrders(config, c, f.feedback, f.nowSec);
    hide WellFormed, Outstanding;
    forall x | IsOut(a, x)
      ensures IsOut(c, x)
    {
      AbsorbBits(config, c, f, x);
    }
    if |h.issued| < ID_MODULUS - 1 {
      NextIsNotOut(config, h, a);
      NextIsNotOut(config, h, c);
    }
    EmitBits(a, f, id);
    if IsOut(a, id) { AbsorbBits(config, c, f, id); }
  }

  lemma HeardGrows(config: CommandConfig, frames: seq<Frame>, k: nat, id: ActionId)
    requires k < |frames|
    ensures AckHeard(config, frames, k + 1, id) <==> AckHeard(config, frames, k, id) || AckedIn(config, frames, k, id)
    ensures ReadyHeard(config, frames, k + 1, id) <==> ReadyHeard(config, frames, k, id) || ReadyIn(config, frames, k, id)
  {
    hide AckedIn, ReadyIn;
  }

  lemma {:induction false} AllocatedGrows(config: CommandConfig, frames: seq<Frame>, i: nat, k: nat, id: ActionId)
    requires i <= k <= |frames| && Allocated(Run(config, frames[..i]), id)
    ensures Allocated(Run(config, frames[..k]), id)
  {
    hide Run;
    assert frames[..k][..i] == frames[..i];
    IssuedGrows(config, frames[..k], i);
    var n :| 0 <= n < |Run(config, frames[..i]).issued| && Run(config, frames[..i]).issued[n].id == id;
    assert Run(config, frames[..k]).issued[n].id == id;
  }

  /** Nothing is heard of an action before it is issued. */
  lemma HeardIsIssued(config: CommandConfig, frames: seq<Frame>, k: nat, id: ActionId)
    requires k <= |frames| && (AckHeard(config, frames, k, id) || ReadyHeard(config, frames, k, id))
    ensures Allocated(Run(config, frames[..k]), id)
  {
    hide Run, Allocated, Chained;
    var i: nat :| i < k && (AckedIn(config, frames, i, id) || ReadyIn(config, frames, i, id));
    assert ReadyIn(config, frames, i, id) ==> TakesReady(StateBefore(config, frames, i), frames[i].feedback);
    assert IsOut(StateBefore(config, frames, i), id);
    RunChained(config, frames[..i]);
    OutstandingAllocated(config, Run(config, frames[..i]), id);
    AllocatedGrows(config, frames, i, k, id);
  }

  lemma {:induction false} BitsHeard(config: CommandConfig, frames: seq<Frame>, k: nat)
    requires k <= |frames| && |Run(config, frames[..k]).issued| <= ID_MODULUS - 1
    ensures BitsAreHeard(config, frames, k)
  {
    hide Run, AckHeard, ReadyHeard, AckBit, ReadyBit, IsOut, Chained, Advance, Allocated;
    if k == 0 {
      StartHearsNothing(config, frames);
    } else {
      assert frames[..k][..k - 1] == frames[..k - 1];
      IssuedGrows(config, frames[..k], k - 1);
      BitsHeard(config, frames, k - 1);
      RunChained(config, frames[..k - 1]);
      RunExtends(config, frames, k - 1);
      var h, f := Run(config, frames[..k - 1]), frames[k - 1];
      forall id | IsOut(Run(config, frames[..k]).state, id)
        ensures AckBit(Run(config, frames[..k]).state, id) <==> AckHeard(config, frames, k, id)
        ensures ReadyBit(Run(config, frames[..k]).state, id) <==> ReadyHeard(config, frames, k, id)
      {
        StepBits(config, h, f, id);
        HeardGrows(config, frames, k - 1, id);
        if !IsOut(h.state, id) { NewIsUnheard(config, frames, k - 1, id); }
      }
    }
  }

  lemma StartHearsNothing(config: CommandConfig, frames: seq<Frame>)
    ensures BitsAreHeard(config, frames, 0)
  {
  }

  lemma NewIsUnheard(config: CommandConfig, frames: seq<Frame>, k: nat, id: ActionId)
    requires k < |frames| && |Run(config, frames[..k]).issued| < ID_MODULUS - 1
    requires id == Run(config, frames[..k]).state.nextId && !IsOut(Run(config, frames[..k]).state, id)
    ensures !AckHeard(config, frames, k + 1, id) && !ReadyHeard(config, frames, k + 1, id)
  {
    hide Run, AckHeard, ReadyHeard, Chained, Allocated;
    HeardGrows(config, frames, k, id);
    RunChained(config, frames[..k]);
    if AckHeard(config, frames, k, id) || ReadyHeard(config, frames, k, id) {
      HeardIsIssued(config, frames, k, id);
      FreshIdsAreNew(config, Run(config, frames[..k]), id);
    }
  }

  // ----- The timeout -----

  lemma {:induction false} StampsCount(config: CommandConfig, frames: seq<Frame>)
    ensures |Stamps(config, frames)| == |Run(config, frames).issued|
  {
    if frames != [] {
      StampsCount(config, frames[..|frames| - 1]);
      hide Step;
    }
  }

  /** When the outstanding actions were issued, oldest first. */
  function IssuedSecs(c: CoordinatorState): seq<real> {
    if c.pendingId == 0 then []
    else if c.queuedId == 0 then [c.pendingIssuedSec]
    else [c.pendingIssuedSec, c.queuedIssuedSec]
  }

  lemma AbsorbSecs(config: CommandConfig, c: CoordinatorState, f: Frame)
    requires WellFormed(c)
    ensures IssuedSecs(Absorb(config, c, f.feedback, f.nowSec))
         == if TakesDone(c, f.feedback) then IssuedSecs(c)[1..] else IssuedSecs(c)
  {
  }

  lemma EmitSecs(c: CoordinatorState, f: Frame)
    requires WellFormed(c)
    ensures var s := Emit(c, f.mission, f.request, f.camera, f.nowSec).state;
            IssuedSecs(s) == if s.nextId == c.nextId then IssuedSecs(c) else IssuedSecs(c) + [f.nowSec]
  {
  }

  ghost predicate EndsIn<T>(s: seq<T>, o: seq<T>) { |o| <= |s| && s[|s| - |o|..] == o }

  lemma EndsInTail<T>(s: seq<T>, o: seq<T>)
    requires EndsIn(s, o) && o != []
    ensures EndsIn(s, o[1..])
  {
  }

  lemma StampStep(config: CommandConfig, h: History, f: Frame, stamps: seq<real>)
    requires Chained(config, h) && EndsIn(stamps, IssuedSecs(h.state))
    ensures var h' := Advance(config, h, f);
            EndsIn(if |h'.issued| > |h.issued| then stamps + [f.nowSec] else stamps, IssuedSecs(h'.state))
  {
    hide Absorb, Emit, IssuedSecs, Chained, Outstanding, WellFormed, EndsIn;
    var a := Absorb(config, h.state, f.feedback, f.nowSec);
    ChainedIsWellFormed(config, h);
    AbsorbKeepsOrders(config, h.state, f.feedback, f.nowSec);
    AbsorbSecs(config, h.state, f);
    EmitSecs(a, f);
    if TakesDone(h.state, f.feedback) {
      OneIsIssued(h.state);
      EndsInTail(stamps, IssuedSecs(h.state));
    }
    EndsInMore(stamps, IssuedSecs(a), f.nowSec);
  }

  lemma EndsInMore<T>(s: seq<T>, o: seq<T>, x: T)
    requires EndsIn(s, o)
    ensures EndsIn(s + [x], o + [x])
  {
    SuffixAppend(s, o, x);
  }

  /** The times in the state are those of the orders still outstanding. */
  lemma {:induction false} StampsAreIssued(config: CommandConfig, frames: seq<Frame>)
    ensures EndsIn(Stamps(config, frames), IssuedSecs(Run(config, frames).state))
  {
    if frames == [] {
      NothingIsStamped(config);
    } else {
      var init, f := frames[..|frames| - 1], frames[|frames| - 1];
      assert frames == init + [f];
      StampsAreIssued(config, init);
      RunChained(config, init);
      StampsOfOneMore(config, init, f);
      hide Advance, EndsIn, Chained, IssuedSecs, Stamps, Run;
      StampStep(config, Run(config, init), f, Stamps(config, init));
    }
  }

  lemma NothingIsStamped(config: CommandConfig)
    ensures EndsIn(Stamps(config, []), IssuedSecs(Run(config, []).state))
  {
  }

  lemma StampsOfOneMore(config: CommandConfig, frames: seq<Frame>, f: Frame)
    ensures var h := Run(config, frames);
            && Run(config, frames + [f]) == Advance(config, h, f)
            && Stamps(config, frames + [f])
               == if |Advance(config, h, f).issued| > |h.issued| then Stamps(config, frames) + [f.nowSec] else Stamps(config, frames)
  {
    hide Advance;
    assert (frames + [f])[..|frames|] == frames;
  }

  lemma OneIsIssued(c: CoordinatorState)
    requires c.pendingId != 0
    ensures IssuedSecs(c) != []
  {
  }

  /** Order n is still outstanding once the feedback of frame k has been taken in, has
      not been acknowledged, and was issued at least `timeout` before. */
  ghost predicate OverdueIn(config: CommandConfig, frames: seq<Frame>, k: nat, n: int, timeout: real)
    requires k < |frames|
  {
    var h, f, stamps := Run(config, frames[..k]), frames[k], Stamps(config, frames[..k]);
    && |stamps| == |h.issued| && |h.issued| - |Remaining(h.state, f.feedback)| <= n < |h.issued| && 0 <= n
    && !AckHeard(config, frames, k + 1, h.issued[n].id) && f.nowSec - stamps[n] >= timeout
  }

  /** The same for the j-th of the orders that the state keeps. */
  predicate LateAt(a: CoordinatorState, o: seq<Order>, secs: seq<real>, nowSec: real, timeout: real, j: nat)
    requires |o| == |secs|
  {
    j < |o| && !AckBit(a, o[j].id) && nowSec - secs[j] >= timeout
  }

  lemma AbsorbOverdue(config: CommandConfig, c: CoordinatorState, f: Frame)
    requires WellFormed(c) && !c.timedOut && (c.queuedId != 0 ==> c.queuedId != c.pendingId)
    ensures var a := Absorb(config, c, f.feedback, f.nowSec);
            var o, secs, t := Outstanding(a), IssuedSecs(a), config.ackTimeoutSec;
            a.timedOut <==> (t > 0.0 && (LateAt(a, o, secs, f.nowSec, t, 0) || LateAt(a, o, secs, f.nowSec, t, 1)))
  {
  }

  lemma EmitKeepsTimeout(c: CoordinatorState, f: Frame)
    ensures Emit(c, f.mission, f.request, f.camera, f.nowSec).state.timedOut == c.timedOut
  {
  }

  /** Once the feedback of a frame is in: the orders kept are the last ones issued, with
      their times, and their ACK bits are what has been heard. */
  ghost predicate TakenIn(config: CommandConfig, frames: seq<Frame>, k: nat, a: CoordinatorState, o: seq<Order>)
    requires k < |frames|
  {
    && EndsIn(Run(config, frames[..k]).issued, o) && EndsIn(Stamps(config, frames[..k]), IssuedSecs(a))
    && |o| == |IssuedSecs(a)| <= 2
    && forall j :: 0 <= j < |o| ==> (AckBit(a, o[j].id) <==> AckHeard(config, frames, k + 1, o[j].id))
  }

  lemma OutIs(c: CoordinatorState)
    ensures |Outstanding(c)| == |IssuedSecs(c)| <= 2
    ensures WellFormed(c) ==> forall j :: 0 <= j < |Outstanding(c)| ==> IsOut(c, Outstanding(c)[j].id)
  {
  }

  lemma AbsorbIsTakenIn(config: CommandConfig, frames: seq<Frame>, k: nat)
    requires k < |frames| && |Run(config, frames[..k]).issued| <= ID_MODULUS - 1
    ensures var h, f := Run(config, frames[..k]), frames[k];
            TakenIn(config, frames, k, Absorb(config, h.state, f.feedback, f.nowSec), Remaining(h.state, f.feedback))
  {
    hide Run, AckHeard, ReadyHeard, AckBit, ReadyBit, Absorb, Chained, EndsIn, IssuedSecs, Outstanding, WellFormed, IsOut;
    var h, f := Run(config, frames[..k]), frames[k];
    var a := Absorb(config, h.state, f.feedback, f.nowSec);
    RunChained(config, frames[..k]);
    ChainedIsWellFormed(config, h);
    OutstandingDistinct(config, h);
    StampsAreIssued(config, frames[..k]);
    BitsHeard(config, frames, k);
    AbsorbKeepsOrders(config, h.state, f.feedback, f.nowSec);
    AbsorbSecs(config, h.state, f);
    ChainedEndsIn(config, h);
    OutIs(a);
    if TakesDone(h.state, f.feedback) {
      OneIsIssued(h.state);
      OutIs(h.state);
      EndsInTail(Stamps(config, frames[..k]), IssuedSecs(h.state));
      EndsInTail(h.issued, Outstanding(h.state));
    }
    var o := Remaining(h.state, f.feedback);
    forall j | 0 <= j < |o|
      ensures AckBit(a, o[j].id) <==> AckHeard(config, frames, k + 1, o[j].id)
    {
      AbsorbBits(config, h.state, f, o[j].id);
      HeardGrows(config, frames, k, o[j].id);
    }
  }

  lemma ChainedEndsIn(config: CommandConfig, h: History)
    requires Chained(config, h)
    ensures EndsIn(h.issued, Outstanding(h.state))
  {
  }

  lemma LateIsOverdue(config: CommandConfig, frames: seq<Frame>, k: nat, a: CoordinatorState, o: seq<Order>, timeout: real)
    requires k < |frames| && TakenIn(config, frames, k, a, o) && o == Remaining(Run(config, frames[..k]).state, frames[k].feedback)
    requires |Stamps(config, frames[..k])| == |Run(config, frames[..k]).issued|
    ensures (exists n :: OverdueIn(config, frames, k, n, timeout))
        <==> LateAt(a, o, IssuedSecs(a), frames[k].nowSec, timeout, 0) || LateAt(a, o, IssuedSecs(a), frames[k].nowSec, timeout, 1)
  {
    hide Run, Stamps, AckHeard, AckBit, IssuedSecs, Remaining;
    var issued, stamps, secs := Run(config, frames[..k]).issued, Stamps(config, frames[..k]), IssuedSecs(a);
    var d := |issued| - |o|;
    assert forall j :: 0 <= j < |o| ==> issued[d + j] == o[j] && stamps[d + j] == secs[j];
    if exists n :: OverdueIn(config, frames, k, n, timeout) {
      var n :| OverdueIn(config, frames, k, n, timeout);
      assert issued[d + (n - d)] == o[n - d];
      assert n - d == 0 || n - d == 1;
    }
    if LateAt(a, o, secs, frames[k].nowSec, timeout, 0) { assert OverdueIn(config, frames, k, d + 0, timeout); }
    if LateAt(a, o, secs, frames[k].nowSec, timeout, 1) { assert OverdueIn(config, frames, k, d + 1, timeout); }
  }

  /** The timeout strikes in a frame exactly when some order that is still outstanding
      has gone unacknowledged for the configured time since it was issued. */
  lemma StrikesIff(config: CommandConfig, frames: seq<Frame>, k: nat)
    requires k < |frames| && |Run(config, frames[..k]).issued| <= ID_MODULUS - 1
    requires !Run(config, frames[..k]).state.timedOut
    ensures Run(config, frames[..k + 1]).state.timedOut
        <==> config.ackTimeoutSec > 0.0 && exists n :: OverdueIn(config, frames, k, n, config.ackTimeoutSec)
  {
    hide Run, AckHeard, AckBit, Absorb, Emit, Chained, IssuedSecs, Outstanding, WellFormed, OverdueIn, TakenIn, LateAt, Remaining;
    var h, f := Run(config, frames[..k]), frames[k];
    var a := Absorb(config, h.state, f.feedback, f.nowSec);
    RunExtends(config, frames, k);
    RunChained(config, frames[..k]);
    ChainedIsWellFormed(config, h);
    OutstandingDistinct(config, h);
    AbsorbKeepsOrders(config, h.state, f.feedback, f.nowSec);
    AbsorbOverdue(config, h.state, f);
    EmitKeepsTimeout(a, f);
    AbsorbIsTakenIn(config, frames, k);
    StampsCount(config, frames[..k]);
    LateIsOverdue(config, frames, k, a, Remaining(h.state, f.feedback), config.ackTimeoutSec);
  }

  // ----- The suppression -----

  /** The mission action whose DONE this frame brings in, if it brings one in. */
  function FinishedBy(c: CoordinatorState, f: Frame): Option<MissionAction> {
    if TakesDone(c, f.feedback) && c.pendingRequest.category.MissionCategory? then Some(c.pendingRequest.action) else None
  }

  function FinishedIn(config: CommandConfig, frames: seq<Frame>, j: nat): Option<MissionAction>
    requires j < |frames|
  {
    FinishedBy(StateBefore(config, frames, j), frames[j])
  }

  /** Frame j leaves nothing outstanding and asks for nothing. */
  predicate IdleIn(config: CommandConfig, frames: seq<Frame>, j: nat)
    requires j < |frames|
  {
    && Remaining(StateBefore(config, frames, j), frames[j].feedback) == []
    && frames[j].request.action.NoAction?
  }

  /** Frame j neither finishes another mission action nor, if it comes before frame k,
      idles. */
  ghost predicate KeepsHushed(config: CommandConfig, frames: seq<Frame>, i: nat, j: nat, action: MissionAction)
    requires i <= j < |frames|
  {
    && (i < j && FinishedIn(config, frames, j).Some? ==> FinishedIn(config, frames, j).value == action)
    && !IdleIn(config, frames, j)
  }

  /** Before frame k: the mission action has been finished, and since then no other
      one has, nor has an idle frame gone by. */
  ghost predicate Hushed(config: CommandConfig, frames: seq<Frame>, k: nat, action: MissionAction)
    requires k <= |frames|
  {
    exists i: nat :: i < k && FinishedIn(config, frames, i) == Some(action)
                     && forall j :: i <= j < k ==> KeepsHushed(config, frames, i, j, action)
  }

  lemma SuppressionMoves(config: CommandConfig, c: CoordinatorState, f: Frame)
    requires WellFormed(c)
    ensures var a, s, done := Absorb(config, c, f.feedback, f.nowSec), Step(config, c, f).state, FinishedBy(c, f);
            && a.suppressed == (if done.Some? then done.value else c.suppressed)
            && s.suppressed == (if Remaining(c, f.feedback) == [] && f.request.action.NoAction? then NoAction else a.suppressed)
  {
    var a := Absorb(config, c, f.feedback, f.nowSec);
    AbsorbKeepsOrders(config, c, f.feedback, f.nowSec);
    assert a.suppressed == if FinishedBy(c, f).Some? then FinishedBy(c, f).value else c.suppressed;
    hide Absorb, Remaining, FinishedBy;
  }

  lemma HushedGrows(config: CommandConfig, frames: seq<Frame>, k: nat, action: MissionAction)
    requires k < |frames|
    ensures Hushed(config, frames, k + 1, action)
        <==> !IdleIn(config, frames, k) && (if FinishedIn(config, frames, k).Some? then FinishedIn(config, frames, k).value == action
                                            else Hushed(config, frames, k, action))
  {
    hide FinishedIn, IdleIn;
    if Hushed(config, frames, k + 1, action) {
      var i: nat :| i < k + 1 && FinishedIn(config, frames, i) == Some(action)
                    && forall j :: i <= j < k + 1 ==> KeepsHushed(config, frames, i, j, action);
      assert KeepsHushed(config, frames, i, k, action);
    }
    if !IdleIn(config, frames, k) {
      if FinishedIn(config, frames, k) == Some(action) {
        assert KeepsHushed(config, frames, k, k, action);
      } else if FinishedIn(config, frames, k).None? && Hushed(config, frames, k, action) {
        var i: nat :| i < k && FinishedIn(config, frames, i) == Some(action)
                      && forall j :: i <= j < k ==> KeepsHushed(config, frames, i, j, action);
        assert KeepsHushed(config, frames, i, k, action);
      }
    }
  }

  /** The suppressed action of the state is the one hushed by the frames before. */
  lemma {:induction false} SuppressedIsHushed(config: CommandConfig, frames: seq<Frame>, k: nat, action: MissionAction)
    requires k <= |frames| && !action.NoAction?
    ensures Run(config, frames[..k]).state.suppressed == action <==> Hushed(config, frames, k, action)
  {
    hide Run, Hushed, Step, FinishedBy, Remaining, Chained;
    if k == 0 {
      StartIsNotHushed(config, frames, action);
    } else {
      SuppressedIsHushed(config, frames, k - 1, action);
      HushedGrows(config, frames, k - 1, action);
      RunExtends(config, frames, k - 1);
      RunChained(config, frames[..k - 1]);
      ChainedIsWellFormed(config, Run(config, frames[..k - 1]));
      SuppressionMoves(config, StateBefore(config, frames, k - 1), frames[k - 1]);
    }
  }

  lemma StartIsNotHushed(config: CommandConfig, frames: seq<Frame>, action: MissionAction)
    requires !action.NoAction?
    ensures Run(config, frames[..0]).state.suppressed != action && !Hushed(config, frames, 0, action)
  {
  }

  // ----- What is issued -----

  /** The request of a frame may be issued behind the one order still outstanding: both
      are LINE's, and that order is a long walk whose READY is in. */
  predicate FitsBehind(first: Order, ready: bool, f: Frame) {
    && first.mission.LineMission? && first.category.LocomotionCategory?
    && first.action in {StepForwardFive, StepForwardLeft, StepForwardRight}
    && ready && f.mission.LineMission? && f.request.lineQueueEligible
  }

  lemma EmitIssues(c: CoordinatorState, f: Frame)
    requires WellFormed(c)
    ensures var s, o := Emit(c, f.mission, f.request, f.camera, f.nowSec).state, Outstanding(c);
            s.nextId != c.nextId
            <==> && !c.timedOut && !f.request.action.NoAction?
                 && (if o == [] then !(f.request.category.MissionCategory? && f.request.action == c.suppressed)
                     else |o| == 1 && FitsBehind(o[0], ReadyBit(c, o[0].id), f))
  {
    NextIsNotSame(c.nextId);
  }

  lemma EmitIssuesRequest(c: CoordinatorState, f: Frame)
    requires WellFormed(c)
    ensures var out := Emit(c, f.mission, f.request, f.camera, f.nowSec);
            out.state.nextId != c.nextId ==>
              OrderOf(out.command) == Order(c.nextId, f.mission, f.request.action, f.request.category, f.request.yawDeg)
  {
  }

  /** The mission action asked for is one whose repetition is hushed, counting a DONE
      of this very frame. */
  ghost predicate IsHushed(config: CommandConfig, frames: seq<Frame>, k: nat)
    requires k < |frames|
  {
    var done, request := FinishedIn(config, frames, k), frames[k].request;
    && request.category.MissionCategory?
    && if done.Some? then done.value == request.action else Hushed(config, frames, k, request.action)
  }

  lemma AbsorbReady(config: CommandConfig, frames: seq<Frame>, k: nat)
    requires k < |frames| && |Run(config, frames[..k]).issued| <= ID_MODULUS - 1
    ensures var h, f := Run(config, frames[..k]), frames[k];
            var a, o := Absorb(config, h.state, f.feedback, f.nowSec), Remaining(h.state, f.feedback);
            |o| == 1 ==> (ReadyBit(a, o[0].id) <==> ReadyHeard(config, frames, k + 1, o[0].id))
  {
    hide Run, AckHeard, ReadyHeard, AckBit, ReadyBit, Absorb, Chained, Outstanding, WellFormed, IsOut;
    var h, f := Run(config, frames[..k]), frames[k];
    var a, o := Absorb(config, h.state, f.feedback, f.nowSec), Remaining(h.state, f.feedback);
    RunChained(config, frames[..k]);
    ChainedIsWellFormed(config, h);
    OutstandingDistinct(config, h);
    BitsHeard(config, frames, k);
    AbsorbKeepsOrders(config, h.state, f.feedback, f.nowSec);
    OutIs(a);
    if |o| == 1 {
      AbsorbBits(config, h.state, f, o[0].id);
      HeardGrows(config, frames, k, o[0].id);
    }
  }

  /** A frame issues an order exactly when no timeout has struck, something is asked
      for, and either nothing is outstanding and the request is not hushed, or it fits
      behind the one order outstanding. The order is the request, under the next
      identifier. */
  lemma IssuesIff(config: CommandConfig, frames: seq<Frame>, k: nat)
    requires k < |frames| && |Run(config, frames[..k]).issued| <= ID_MODULUS - 1
    ensures var h, h', f := Run(config, frames[..k]), Run(config, frames[..k + 1]), frames[k];
            var o := Remaining(h.state, f.feedback);
            var issues := !h'.state.timedOut && !f.request.action.NoAction?
                          && (if o == [] then !IsHushed(config, frames, k)
                              else |o| == 1 && FitsBehind(o[0], ReadyHeard(config, frames, k + 1, o[0].id), f));
            h'.issued == if !issues then h.issued
                         else h.issued + [Order(h.state.nextId, f.mission, f.request.action, f.request.category, f.request.yawDeg)]
  {
    hide Run, ReadyHeard, ReadyBit, Absorb, Emit, Chained, Outstanding, WellFormed, Remaining, Hushed, FitsBehind, FinishedBy;
    var h, f := Run(config, frames[..k]), frames[k];
    var a := Absorb(config, h.state, f.feedback, f.nowSec);
    RunExtends(config, frames, k);
    RunChained(config, frames[..k]);
    ChainedIsWellFormed(config, h);
    AbsorbKeepsOrders(config, h.state, f.feedback, f.nowSec);
    AbsorbReady(config, frames, k);
    if !f.request.action.NoAction? { SuppressedIsHushed(config, frames, k, f.request.action); }
    SuppressionMoves(config, h.state, f);
    EmitKeepsTimeout(a, f);
    EmitIssues(a, f);
    EmitIssuesRequest(a, f);
  }

  /** The identifiers in closed form: counted from the configured first one, or from 1 if
      that is zero, around all values but zero. */
  lemma IssuedIds(config: CommandConfig, frames: seq<Frame>, k: nat)
    requires k < |Run(config, frames).issued|
    ensures var first: nat := if config.firstActionId == 0 then 1 else config.firstActionId;
            Run(config, frames).issued[k].id == 1 + (first - 1 + k) % 0xFFFF_FFFF_FFFF_FFFF
  {
    hide Run, Chained, NthId;
    RunChained(config, frames);
    ChainedIds(config, Run(config, frames), k);
    NthIdClosedForm(FirstId(config), k);
  }

  lemma ChainedIds(config: CommandConfig, h: History, k: nat)
    requires Chained(config, h) && k < |h.issued|
    ensures h.issued[k].id == NthId(FirstId(config), k)
  {
    hide Outstanding, WellFormed, NthId, FirstId;
  }

  // ----- The command -----

  /** The order issued last. */
  function Newest(h: History): Order
    requires h.issued != []
  {
    h.issued[|h.issued| - 1]
  }

  lemma OutstandingIsNewest(config: CommandConfig, h: History)
    requires Chained(config, h) && h.state.pendingId != 0
    ensures h.issued != [] && Newest(h) == if h.state.queuedId != 0 then QueuedOrder(h.state) else PendingOrder(h.state)
  {
    var n, o := |h.issued|, Outstanding(h.state);
    assert o[|o| - 1] == h.issued[n - |o|..][|o| - 1];
  }

  /** How the phase tells what is being waited for. */
  function WaitingPhase(queued: bool, acknowledged: bool): ControlPhase {
    match (queued, acknowledged)
    case (true, true) => WaitingQueuedActionStart
    case (true, false) => WaitingQueuedActionAck
    case (false, true) => WaitingActionDone
    case (false, false) => WaitingActionAck
  }

  lemma EmitAnswers(c: CoordinatorState, f: Frame)
    requires WellFormed(c)
    requires var s := Emit(c, f.mission, f.request, f.camera, f.nowSec).state; s.queuedId != 0 ==> s.queuedId != s.pendingId
    ensures var out := Emit(c, f.mission, f.request, f.camera, f.nowSec);
            var s, command := out.state, out.command;
            if s.pendingId == 0 then command == IDLE_COMMAND.(mission := f.mission, camera := f.camera)
            else
              var order := if s.queuedId != 0 then QueuedOrder(s) else PendingOrder(s);
              && OrderOf(command) == order && order.id != 0 && command.camera == f.camera
              && (command.commandType.ActionCommand? <==> !AckBit(s, order.id) && !s.timedOut)
              && command.phase == if s.timedOut then ActionAckTimedOut else WaitingPhase(s.queuedId != 0, AckBit(s, order.id))
  {
  }

  /** The answer of every frame. With nothing outstanding it names nothing. Otherwise
      it repeats the newest order: as an ACTION exactly as long as no ACK of it has been
      brought in and no timeout has struck, as a HOLD from then on. */
  lemma RepeatsUntilAck(config: CommandConfig, frames: seq<Frame>, k: nat)
    requires k < |frames| && |Run(config, frames[..k + 1]).issued| <= ID_MODULUS - 1
    ensures var h, command := Run(config, frames[..k + 1]), OutputAt(config, frames, k);
            if Outstanding(h.state) == [] then command == IDLE_COMMAND.(mission := frames[k].mission, camera := frames[k].camera)
            else
              && h.issued != [] && OrderOf(command) == Newest(h) && command.camera == frames[k].camera
              && (command.commandType.ActionCommand? <==> !h.state.timedOut && !AckHeard(config, frames, k + 1, Newest(h).id))
              && command.phase == if h.state.timedOut then ActionAckTimedOut
                                  else WaitingPhase(|Outstanding(h.state)| == 2, AckHeard(config, frames, k + 1, Newest(h).id))
  {
    hide Run, AckHeard, ReadyHeard, AckBit, ReadyBit, Absorb, Emit, Chained, WaitingPhase;
    RunExtends(config, frames, k);
    RunChained(config, frames[..k]);
    RunChained(config, frames[..k + 1]);
    BitsHeard(config, frames, k + 1);
    var h, h', f := Run(config, frames[..k]), Run(config, frames[..k + 1]), frames[k];
    ChainedIsWellFormed(config, h);
    ChainedIsWellFormed(config, h');
    AbsorbKeepsOrders(config, h.state, f.feedback, f.nowSec);
    OutstandingDistinct(config, h');
    EmitAnswers(Absorb(config, h.state, f.feedback, f.nowSec), f);
    if h'.state.pendingId != 0 { OutstandingIsNewest(config, h'); }
  }
}
