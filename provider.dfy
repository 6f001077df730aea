/**
 * The reconciliation submodule itself: its configuration, the one message
 * listener it registers, the delivery ids it has handed out and the tracker it
 * reports to. `GetTargetingData` and `HandleMessage` are the two entry points
 * that change state; each is tied to the functions of Targeting and
 * Impression.
 */
module Provider {
  import opened Base
  import opened QueryEncoder
  import opened WindowWalker
  import opened Slots
  import opened Tracking
  import opened Targeting
  import opened Impression

  /** `{name, params: {publisherMemberId}}`; a missing `params` object or a
      missing key is None. */
  datatype ModuleConfig = ModuleConfig(name: string, publisherMemberId: Option<string>)

  /** The configuration names a publisher (a missing or empty id does not). */
  predicate Configured(config: ModuleConfig) {
    config.publisherMemberId.Some? && config.publisherMemberId.value != ""
  }

  /**
   * Writes one processed identifier into the slot it resolved to:
   * setTargeting(RSDK_AUID, code), then setTargeting(RSDK_ADID, delivery id).
   * When the slots held the targeting `plan` leads to from `before`, they now
   * hold the targeting `plan + [item]` leads to.
   */
  method WriteEntry(slots: seq<Slot>, item: Planned,
                    ghost before: seq<map<string, seq<string>>>, ghost plan: seq<Planned>)
    requires DistinctObjects(slots)
    requires item.slot.Some? ==> item.slot.value < |slots| && item.auid == slots[item.slot.value].code
    requires |before| == |slots|
    requires forall k :: 0 <= k < |slots| ==> slots[k].targeting == Retarget(before[k], plan, k)
    modifies slots
    ensures forall k :: 0 <= k < |slots| ==>
              slots[k].targeting ==
                if item.slot == Some(k) then old(slots[k].targeting)[AuidKey := [item.auid]][AdidKey := [item.adid]]
                else old(slots[k].targeting)
    ensures forall k :: 0 <= k < |slots| ==> slots[k].targeting == Retarget(before[k], plan + [item], k)
  {
    if item.slot.Some? {
      var slot := slots[item.slot.value];
      slot.SetTargeting(AuidKey, slot.code);
      slot.SetTargeting(AdidKey, item.adid);
    }
    forall k | 0 <= k < |slots|
      ensures slots[k].targeting == Retarget(before[k], plan + [item], k)
    {
      RetargetStep(before[k], plan, item, k);
    }
  }

  /**
   * One step of getTargetingData's loop: identifier `i`, with `j` delivery ids
   * handed out so far. A non-empty identifier takes the next delivery id and is
   * written into the slot it resolves to; an empty one changes nothing.
   */
  method WriteStep(slots: seq<Slot>, ids: seq<string>, supply: seq<string>, i: nat, j: nat,
                   plan: seq<Planned>, data: map<string, TargetingEntry>,
                   ghost before: seq<map<string, seq<string>>>)
    returns (plan': seq<Planned>, data': map<string, TargetingEntry>, j': nat)
    requires DistinctObjects(slots)
    requires |supply| == |NonEmpty(ids)|
    requires i < |ids| && j == |NonEmpty(ids[..i])| && j <= |supply|
    requires plan == Plan(slots, ids[..i], supply[..j]) && data == TargetingOf(plan)
    requires |before| == |slots|
    requires forall k :: 0 <= k < |slots| ==> slots[k].targeting == Retarget(before[k], plan, k)
    modifies slots
    ensures j' == |NonEmpty(ids[..i + 1])| && j' <= |supply|
    ensures plan' == Plan(slots, ids[..i + 1], supply[..j']) && data' == TargetingOf(plan')
    ensures forall k :: 0 <= k < |slots| ==> slots[k].targeting == Retarget(before[k], plan', k)
  {
    PlanStep(slots, ids, supply, i, j);
    if ids[i] != "" {
      var item := Item(slots, ids[i], supply[j]);
      WriteEntry(slots, item, before, plan);
      TargetingOfStep(plan, item);
      plan' := plan + [item];
      data' := data[item.id := TargetingEntry(item.auid, item.adid)];
      j' := j + 1;
    } else {
      plan', data', j' := plan, data, j;
    }
  }

  /**
   * The loop of getTargetingData: every non-empty identifier, in order, takes
   * the next supplied delivery id and is written into the slot it resolves to.
   */
  method WriteTargeting(slots: seq<Slot>, ids: seq<string>, supply: seq<string>)
    returns (plan: seq<Planned>, data: map<string, TargetingEntry>)
    requires DistinctObjects(slots)
    requires |supply| == |NonEmpty(ids)|
    modifies slots
    ensures plan == Plan(slots, ids, supply)
    ensures data == TargetingOf(plan)
    ensures forall k :: 0 <= k < |slots| ==> slots[k].targeting == Retarget(old(slots[k].targeting), plan, k)
  {
    ghost var before := seq(|slots|, k requires 0 <= k < |slots| reads slots => slots[k].targeting);
    plan := [];
    var i, j := 0, 0;
    data := map[];
    while i < |ids|
      invariant 0 <= i <= |ids|
      invariant j == |NonEmpty(ids[..i])| && j <= |supply|
      invariant plan == Plan(slots, ids[..i], supply[..j])
      invariant data == TargetingOf(plan)
      invariant forall k :: 0 <= k < |slots| ==> before[k] == old(slots[k].targeting)
      invariant forall k :: 0 <= k < |slots| ==> slots[k].targeting == Retarget(before[k], plan, k)
    {
      plan, data, j := WriteStep(slots, ids, supply, i, j, plan, data, before);
      i := i + 1;
    }
    assert ids[..i] == ids;
    assert supply[..j] == supply;
  }

  /** The impression calls a listener decision leads to. */
  function ImpressionCalls(q: Option<Query>): seq<Call> {
    if q.Some? then [Get(ImpressionUrl, q.value)] else []
  }

  class ReconciliationSubmodule {
    /** The configured publisher id (`_moduleParams.publisherMemberId`). */
    var publisherMemberId: Option<string>
    /** Whether the message listener is registered. */
    var listening: bool
    /** Every delivery id handed out so far, in order: proof bookkeeping for
        the freshness of delivery ids, not state the program keeps. */
    ghost var issued: seq<string>
    const tracker: Tracker

    /** The listener only runs with a publisher id; no delivery id was handed out twice. */
    ghost predicate Valid()
      reads this
    {
      && (listening ==> publisherMemberId.Some?)
      && NoDup(issued)
    }

    constructor ()
      ensures Valid()
      ensures publisherMemberId == None && !listening && issued == []
      ensures fresh(tracker) && tracker.calls == []
    {
      publisherMemberId := None;
      listening := false;
      issued := [];
      tracker := new Tracker();
    }

    /**
     * init(config): with a publisher id, store it and register the listener
     * (once: a second registration changes nothing); without one, leave the
     * stored configuration as it is. The result is true either way.
     */
    method Init(config: ModuleConfig) returns (ok: bool)
      requires Valid()
      modifies this
      ensures Valid() && ok
      ensures issued == old(issued)
      ensures Configured(config) ==> publisherMemberId == config.publisherMemberId && listening
      ensures !Configured(config) ==> publisherMemberId == old(publisherMemberId) && listening == old(listening)
    {
      if Configured(config) {
        publisherMemberId := config.publisherMemberId;
        listening := true;
      }
      ok := true;
    }

    /**
     * getTargetingData(ids): for each non-empty identifier take the next
     * delivery id of `supply`, resolve the identifier to a slot (code first,
     * then element id), write RSDK_AUID and RSDK_ADID into that slot's
     * targeting, and record the entry under the identifier as given; then post
     * one init event if anything was processed.
     */
    method GetTargetingData(slots: seq<Slot>, ids: seq<string>, supply: seq<string>)
      returns (data: map<string, TargetingEntry>)
      requires Valid()
      requires DistinctObjects(slots)
      requires |supply| == |NonEmpty(ids)| && NoDup(supply)
      requires forall x :: x in supply ==> x !in issued
      modifies this, tracker, slots
      ensures Valid()
      ensures data == TargetingOf(Plan(slots, ids, supply))
      ensures issued == old(issued) + supply
      ensures publisherMemberId == old(publisherMemberId) && listening == old(listening)
      ensures tracker.calls == old(tracker.calls) + InitCalls(Plan(slots, ids, supply), publisherMemberId)
      ensures forall k :: 0 <= k < |slots| ==>
                slots[k].targeting == Retarget(old(slots[k].targeting), Plan(slots, ids, supply), k)
    {
      var plan;
      plan, data := WriteTargeting(slots, ids, supply);
      if plan != [] {
        tracker.TrackPost(InitUrl, InitBody(BatchOf(plan), publisherMemberId));
      }
      NoDupAppend(issued, supply);
      issued := issued + supply;
    }

    /**
     * The message listener: when registered, a message whose source walks to
     * a window just below the top, whose payload is an impression request, and
     * whose slot holds RSDK_AUID and RSDK_ADID leads to exactly one impression
     * GET; every other message is discarded without a call.
     */
    method HandleMessage(page: Page, slots: seq<Slot>, msg: Message)
      requires Valid() && page.graph.Valid()
      modifies tracker
      ensures !listening ==> tracker.calls == old(tracker.calls)
      ensures listening ==>
        tracker.calls == old(tracker.calls) + ImpressionCalls(ExpectedImpression(page, slots, publisherMemberId.value, msg))
    {
      if !listening {
        return;
      }
      var frame := GetTopIFrameWin(page.graph, msg.source, page.top);
      if frame.None? {
        return;
      }
      var args := RequestArgs(msg.data);
      if args.None? {
        return;
      }
      var slot := GetSlotByWin(slots, frame.value);
      if slot == null {
        return;
      }
      var auid := slot.GetTargeting(AuidKey);
      var adid := slot.GetTargeting(AdidKey);
      if |auid| == 0 || |adid| == 0 {
        return;
      }
      var params := ImpressionParams(auid[0], adid[0], args.value.0, args.value.1, publisherMemberId.value);
      tracker.TrackGet(ImpressionUrl, params);
    }
  }
}
