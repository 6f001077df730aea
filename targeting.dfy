/**
 * What getTargetingData computes, as functions of the slot registry, the
 * requested identifiers and the delivery ids the generator hands out: one
 * planned entry per non-empty identifier, the targeting map keyed by the
 * caller's identifier, the init batch, and the targeting written to slots.
 */
module Targeting {
  import opened Base
  import opened Slots
  import opened Tracking

  /** The targeting pair returned for one identifier. */
  datatype TargetingEntry = TargetingEntry(rsdkAuid: string, rsdkAdid: string)

  /** One processed identifier: the slot it resolved to, the unit id sent for it
      and its delivery id. */
  datatype Planned = Planned(id: string, slot: Option<nat>, auid: string, adid: string)

  /** The identifiers that are processed: every non-empty one, in order. */
  function NonEmpty(ids: seq<string>): seq<string>
  {
    if ids == [] then []
    else NonEmpty(ids[..|ids| - 1]) + (if ids[|ids| - 1] == "" then [] else [ids[|ids| - 1]])
  }

  /** The unit id reported for an identifier: the resolved slot's code, or the
      identifier itself when no slot has that code or element id. */
  function AuidFor(slots: seq<Slot>, id: string): string
  {
    match ResolveSlot(slots, id)
    case Some(k) => slots[k].code
    case None => id
  }

  function Item(slots: seq<Slot>, id: string, adid: string): Planned
  {
    Planned(id, ResolveSlot(slots, id), AuidFor(slots, id), adid)
  }

  /** The entries for `ids`, the i-th non-empty identifier taking `supply[i]`. */
  function Plan(slots: seq<Slot>, ids: seq<string>, supply: seq<string>): (r: seq<Planned>)
    requires |supply| == |NonEmpty(ids)|
    ensures |r| == |NonEmpty(ids)|
  {
    if ids == [] then []
    else if ids[|ids| - 1] == "" then Plan(slots, ids[..|ids| - 1], supply)
    else Plan(slots, ids[..|ids| - 1], supply[..|supply| - 1]) + [Item(slots, ids[|ids| - 1], supply[|supply| - 1])]
  }

  /** The returned map: each processed identifier to its entry; a repeated
      identifier keeps its last entry. */
  function TargetingOf(plan: seq<Planned>): (r: map<string, TargetingEntry>)
    ensures |r| <= |plan|
    ensures plan != [] ==> var last := plan[|plan| - 1];
              last.id in r && r[last.id] == TargetingEntry(last.auid, last.adid)
  {
    if plan == [] then map[]
    else
      var last := plan[|plan| - 1];
      TargetingOf(plan[..|plan| - 1])[last.id := TargetingEntry(last.auid, last.adid)]
  }

  /** The `adUnits` of the init event. */
  function BatchOf(plan: seq<Planned>): (b: seq<AdUnitRef>)
    ensures |b| == |plan|
  {
    if plan == [] then []
    else
      var last := plan[|plan| - 1];
      BatchOf(plan[..|plan| - 1]) + [AdUnitRef(last.auid, last.adid)]
  }

  /** The init calls one targeting cycle makes: one POST, or none for an empty batch. */
  function InitCalls(plan: seq<Planned>, publisherMemberId: Option<string>): (r: seq<Call>)
    ensures |r| == if plan == [] then 0 else 1
    ensures forall c :: c in r ==> c.Post? && c.url == InitUrl && |c.body.adUnits| == |plan|
                                   && c.body.publisherMemberId == publisherMemberId
  {
    if plan == [] then [] else [Post(InitUrl, InitBody(BatchOf(plan), publisherMemberId))]
  }

  /** The targeting of slot `k` after the cycle, starting from `t`: every entry
      resolved to `k` writes its unit id and delivery id, the last one winning. */
  function Retarget(t: map<string, seq<string>>, plan: seq<Planned>, k: nat): (r: map<string, seq<string>>)
    ensures t.Keys <= r.Keys <= t.Keys + {AuidKey, AdidKey}
  {
    if plan == [] then t
    else
      var last := plan[|plan| - 1];
      var before := Retarget(t, plan[..|plan| - 1], k);
      if last.slot == Some(k) then before[AuidKey := [last.auid]][AdidKey := [last.adid]] else before
  }

  // ---------------------------------------------------------------------------
  // Properties
  // ---------------------------------------------------------------------------

  /** The processed identifiers are exactly the non-empty requested ones, in order. */
  lemma {:induction false} NonEmptyFilters(ids: seq<string>)
    ensures "" !in NonEmpty(ids)
    ensures forall x :: x in NonEmpty(ids) <==> x in ids && x != ""
    ensures |NonEmpty(ids)| <= |ids|
  {
    if ids != [] {
      var init := ids[..|ids| - 1];
      NonEmptyFilters(init);
      assert ids == init + [ids[|ids| - 1]];
    }
  }

  lemma {:induction false} NonEmptyPrefix(ids: seq<string>, i: nat)
    requires i <= |ids|
    ensures |NonEmpty(ids[..i])| <= |NonEmpty(ids)|
    decreases |ids| - i
  {
    if i < |ids| {
      NonEmptyPrefix(ids, i + 1);
      var x := ids[..i + 1];
      assert x[..|x| - 1] == ids[..i];
      assert |NonEmpty(ids[..i])| <= |NonEmpty(x)|;
    } else {
      assert ids[..i] == ids;
    }
  }

  /** The plan is the non-empty identifiers, each resolved, with the delivery ids in order. */
  lemma {:induction false} PlanFollowsRequest(slots: seq<Slot>, ids: seq<string>, supply: seq<string>)
    requires |supply| == |NonEmpty(ids)|
    ensures |Plan(slots, ids, supply)| == |NonEmpty(ids)|
    ensures forall i :: 0 <= i < |supply| ==> Plan(slots, ids, supply)[i] == Item(slots, NonEmpty(ids)[i], supply[i])
  {
    if ids != [] {
      var init := ids[..|ids| - 1];
      if ids[|ids| - 1] == "" {
        assert NonEmpty(ids) == NonEmpty(init);
        PlanFollowsRequest(slots, init, supply);
      } else {
        PlanFollowsRequest(slots, init, supply[..|supply| - 1]);
        PlanFollowsRequestStep(slots, ids, supply);
      }
    }
  }

  /** The inductive step of PlanFollowsRequest for a non-empty last identifier. */
  lemma PlanFollowsRequestStep(slots: seq<Slot>, ids: seq<string>, supply: seq<string>)
    requires |supply| == |NonEmpty(ids)| && ids != [] && ids[|ids| - 1] != ""
    requires var init, s0 := ids[..|ids| - 1], supply[..|supply| - 1];
             forall i :: 0 <= i < |s0| ==> Plan(slots, init, s0)[i] == Item(slots, NonEmpty(init)[i], s0[i])
    ensures forall i :: 0 <= i < |supply| ==> Plan(slots, ids, supply)[i] == Item(slots, NonEmpty(ids)[i], supply[i])
  {
    var init, last, s0 := ids[..|ids| - 1], ids[|ids| - 1], supply[..|supply| - 1];
    assert NonEmpty(ids) == NonEmpty(init) + [last];
    assert Plan(slots, ids, supply) == Plan(slots, init, s0) + [Item(slots, last, supply[|supply| - 1])];
    ItemsSnoc(slots, Plan(slots, ids, supply), Plan(slots, init, s0), NonEmpty(ids), NonEmpty(init), supply, last);
  }

  /** Appending one item to an item-wise list of identifiers and delivery ids
      keeps it item-wise. */
  lemma ItemsSnoc(slots: seq<Slot>, p: seq<Planned>, p0: seq<Planned>, ne: seq<string>, ne0: seq<string>,
                  supply: seq<string>, last: string)
    requires |supply| == |ne| > 0 && ne == ne0 + [last] && |p0| == |ne0|
    requires p == p0 + [Item(slots, last, supply[|supply| - 1])]
    requires forall i :: 0 <= i < |ne0| ==> p0[i] == Item(slots, ne0[i], supply[i])
    ensures forall i :: 0 <= i < |supply| ==> p[i] == Item(slots, ne[i], supply[i])
  {
    forall i | 0 <= i < |supply| ensures p[i] == Item(slots, ne[i], supply[i]) {
      if i < |ne0| {
        assert p[i] == p0[i] && ne[i] == ne0[i];
      }
    }
  }

  lemma {:induction false} TargetingOfKeys(plan: seq<Planned>)
    ensures forall id :: id in TargetingOf(plan) <==> exists i :: 0 <= i < |plan| && plan[i].id == id
  {
    if plan != [] {
      var init := plan[..|plan| - 1];
      TargetingOfKeys(init);
      forall id | exists i :: 0 <= i < |plan| && plan[i].id == id
        ensures id in TargetingOf(plan)
      {
        var i :| 0 <= i < |plan| && plan[i].id == id;
        if i < |plan| - 1 {
          assert init[i].id == id;
        }
      }
    }
  }

  /** Each key's entry comes from the last planned entry for that identifier. */
  lemma {:induction false} TargetingOfValue(plan: seq<Planned>, id: string)
    requires id in TargetingOf(plan)
    ensures exists i :: 0 <= i < |plan| && plan[i].id == id
              && TargetingOf(plan)[id] == TargetingEntry(plan[i].auid, plan[i].adid)
              && forall j :: i < j < |plan| ==> plan[j].id != id
  {
    var init := plan[..|plan| - 1];
    var last := plan[|plan| - 1];
    if last.id != id {
      TargetingOfValue(init, id);
      var i :| 0 <= i < |init| && init[i].id == id
              && TargetingOf(init)[id] == TargetingEntry(init[i].auid, init[i].adid)
              && forall j :: i < j < |init| ==> init[j].id != id;
      assert plan[i] == init[i];
      assert TargetingOf(plan)[id] == TargetingOf(init)[id];
      forall j | i < j < |plan|
        ensures plan[j].id != id
      {
        if j < |init| {
          assert plan[j] == init[j];
        }
      }
    } else {
      assert TargetingOf(plan)[id] == TargetingEntry(last.auid, last.adid);
    }
  }

  /**
   * The keys of getTargetingData's result are the non-empty requested
   * identifiers, as the caller wrote them; an empty identifier yields no key;
   * each entry's RSDK_AUID is AuidFor the identifier and its RSDK_ADID is one
   * of the supplied delivery ids.
   */
  lemma TargetingKeysAndValues(slots: seq<Slot>, ids: seq<string>, supply: seq<string>)
    requires |supply| == |NonEmpty(ids)|
    ensures forall id :: id in TargetingOf(Plan(slots, ids, supply)) <==> id in ids && id != ""
    ensures "" !in TargetingOf(Plan(slots, ids, supply))
    ensures forall id :: id in TargetingOf(Plan(slots, ids, supply)) ==>
              TargetingOf(Plan(slots, ids, supply))[id].rsdkAuid == AuidFor(slots, id)
              && TargetingOf(Plan(slots, ids, supply))[id].rsdkAdid in supply
  {
    var plan := Plan(slots, ids, supply);
    PlanFollowsRequest(slots, ids, supply);
    NonEmptyFilters(ids);
    TargetingOfKeys(plan);
    forall id | id in ids && id != ""
      ensures id in TargetingOf(plan)
    {
      assert id in NonEmpty(ids);
      var i :| 0 <= i < |NonEmpty(ids)| && NonEmpty(ids)[i] == id;
      assert plan[i].id == id;
    }
    forall id | id in TargetingOf(plan)
      ensures id in ids && id != ""
      ensures TargetingOf(plan)[id].rsdkAuid == AuidFor(slots, id) && TargetingOf(plan)[id].rsdkAdid in supply
    {
      TargetingOfValue(plan, id);
      var i :| 0 <= i < |plan| && plan[i].id == id
              && TargetingOf(plan)[id] == TargetingEntry(plan[i].auid, plan[i].adid)
              && forall j :: i < j < |plan| ==> plan[j].id != id;
      assert NonEmpty(ids)[i] in NonEmpty(ids);
    }
  }

  /** Distinct identifiers receive distinct delivery ids, provided the supplied ids are distinct. */
  lemma DistinctDeliveryIds(slots: seq<Slot>, ids: seq<string>, supply: seq<string>, a: string, b: string)
    requires |supply| == |NonEmpty(ids)| && NoDup(supply)
    requires a in TargetingOf(Plan(slots, ids, supply)) && b in TargetingOf(Plan(slots, ids, supply)) && a != b
    ensures TargetingOf(Plan(slots, ids, supply))[a].rsdkAdid != TargetingOf(Plan(slots, ids, supply))[b].rsdkAdid
  {
    var plan := Plan(slots, ids, supply);
    PlanFollowsRequest(slots, ids, supply);
    TargetingOfValue(plan, a);
    TargetingOfValue(plan, b);
    var i :| 0 <= i < |plan| && plan[i].id == a && TargetingOf(plan)[a] == TargetingEntry(plan[i].auid, plan[i].adid);
    var j :| 0 <= j < |plan| && plan[j].id == b && TargetingOf(plan)[b] == TargetingEntry(plan[j].auid, plan[j].adid);
    assert i != j;
    assert plan[i].adid == supply[i] && plan[j].adid == supply[j];
  }

  lemma {:induction false} BatchOfAt(plan: seq<Planned>, i: nat)
    requires i < |plan|
    ensures BatchOf(plan)[i] == AdUnitRef(plan[i].auid, plan[i].adid)
  {
    if i < |plan| - 1 {
      BatchOfAt(plan[..|plan| - 1], i);
    }
  }

  /**
   * The init event: a cycle with at least one non-empty identifier posts
   * exactly once, to the init endpoint, a batch whose i-th unit is the i-th
   * processed identifier's unit id with its delivery id, and the configured
   * publisher id; a cycle with none posts nothing.
   */
  lemma InitEvent(slots: seq<Slot>, ids: seq<string>, supply: seq<string>, pub: Option<string>)
    requires |supply| == |NonEmpty(ids)|
    ensures |InitCalls(Plan(slots, ids, supply), pub)| == if NonEmpty(ids) == [] then 0 else 1
    ensures NonEmpty(ids) != [] ==>
      var c := InitCalls(Plan(slots, ids, supply), pub)[0];
      && c.Post? && c.url == InitUrl && c.body.publisherMemberId == pub
      && |c.body.adUnits| == |NonEmpty(ids)|
      && forall i :: 0 <= i < |supply| ==>
           c.body.adUnits[i] == AdUnitRef(AuidFor(slots, NonEmpty(ids)[i]), supply[i])
  {
    var plan := Plan(slots, ids, supply);
    PlanFollowsRequest(slots, ids, supply);
    forall i | 0 <= i < |plan| ensures BatchOf(plan)[i] == AdUnitRef(plan[i].auid, plan[i].adid) {
      BatchOfAt(plan, i);
    }
  }

  /** One more identifier extends the plan by at most one entry: the step the
      generator's loop takes. */
  lemma PlanStep(slots: seq<Slot>, ids: seq<string>, supply: seq<string>, i: nat, j: nat)
    requires i < |ids| && j == |NonEmpty(ids[..i])| && |supply| == |NonEmpty(ids)|
    ensures j <= |supply|
    ensures ids[i] == "" ==>
              && |NonEmpty(ids[..i + 1])| == j
              && Plan(slots, ids[..i + 1], supply[..j]) == Plan(slots, ids[..i], supply[..j])
    ensures ids[i] != "" ==>
              && j < |supply| && |NonEmpty(ids[..i + 1])| == j + 1
              && Plan(slots, ids[..i + 1], supply[..j + 1])
                 == Plan(slots, ids[..i], supply[..j]) + [Item(slots, ids[i], supply[j])]
  {
    var prefix := ids[..i + 1];
    assert prefix[..|prefix| - 1] == ids[..i] && prefix[|prefix| - 1] == ids[i];
    assert NonEmpty(prefix) == NonEmpty(ids[..i]) + (if ids[i] == "" then [] else [ids[i]]);
    NonEmptyPrefix(ids, i + 1);
    if ids[i] != "" {
      var s := supply[..j + 1];
      assert s[..|s| - 1] == supply[..j] && s[|s| - 1] == supply[j];
      assert Plan(slots, prefix, s) == Plan(slots, ids[..i], supply[..j]) + [Item(slots, ids[i], supply[j])];
    } else {
      assert Plan(slots, prefix, supply[..j]) == Plan(slots, ids[..i], supply[..j]);
    }
  }

  /** Writing one more entry: the step of Retarget. */
  lemma RetargetStep(t: map<string, seq<string>>, plan: seq<Planned>, item: Planned, k: nat)
    ensures Retarget(t, plan + [item], k)
         == if item.slot == Some(k) then Retarget(t, plan, k)[AuidKey := [item.auid]][AdidKey := [item.adid]]
            else Retarget(t, plan, k)
  {
    assert (plan + [item])[..|plan|] == plan;
  }

  /** Recording one more entry: the step of TargetingOf. */
  lemma TargetingOfStep(plan: seq<Planned>, item: Planned)
    ensures TargetingOf(plan + [item]) == TargetingOf(plan)[item.id := TargetingEntry(item.auid, item.adid)]
  {
    assert (plan + [item])[..|plan|] == plan;
  }

  /** A cycle leaves every key other than RSDK_AUID and RSDK_ADID as it was. */
  lemma {:induction false} RetargetKeepsOtherKeys(t: map<string, seq<string>>, plan: seq<Planned>, k: nat, key: string)
    requires key != AuidKey && key != AdidKey
    ensures key in Retarget(t, plan, k) <==> key in t
    ensures key in t ==> Retarget(t, plan, k)[key] == t[key]
  {
    if plan != [] {
      RetargetKeepsOtherKeys(t, plan[..|plan| - 1], k, key);
    }
  }

  /** A slot no entry resolved to keeps its targeting. */
  lemma {:induction false} RetargetUntouched(t: map<string, seq<string>>, plan: seq<Planned>, k: nat)
    requires forall i :: 0 <= i < |plan| ==> plan[i].slot != Some(k)
    ensures Retarget(t, plan, k) == t
  {
    if plan != [] {
      RetargetUntouched(t, plan[..|plan| - 1], k);
    }
  }

  /**
   * A slot some entry resolved to holds the slot's code under RSDK_AUID and
   * the delivery id of the last such entry under RSDK_ADID.
   */
  lemma {:induction false} RetargetWritesLast(slots: seq<Slot>, t: map<string, seq<string>>, plan: seq<Planned>, k: nat, i: nat)
    requires k < |slots| && i < |plan| && plan[i].slot == Some(k)
    requires forall j :: 0 <= j < |plan| && plan[j].slot == Some(k) ==> plan[j].auid == slots[k].code
    requires forall j :: i < j < |plan| ==> plan[j].slot != Some(k)
    ensures AuidKey in Retarget(t, plan, k) && Retarget(t, plan, k)[AuidKey] == [slots[k].code]
    ensures AdidKey in Retarget(t, plan, k) && Retarget(t, plan, k)[AdidKey] == [plan[i].adid]
  {
    var init := plan[..|plan| - 1];
    if i < |plan| - 1 {
      RetargetWritesLast(slots, t, init, k, i);
    }
  }

  /** Every planned entry carries the slot its identifier resolves to, and an
      entry with a slot reports that slot's code as its unit id. */
  lemma PlanAuid(slots: seq<Slot>, ids: seq<string>, supply: seq<string>)
    requires |supply| == |NonEmpty(ids)|
    ensures forall j :: 0 <= j < |Plan(slots, ids, supply)| ==>
              Plan(slots, ids, supply)[j].slot == ResolveSlot(slots, Plan(slots, ids, supply)[j].id)
    ensures forall j :: 0 <= j < |Plan(slots, ids, supply)| && Plan(slots, ids, supply)[j].slot.Some? ==>
              && Plan(slots, ids, supply)[j].slot.value < |slots|
              && Plan(slots, ids, supply)[j].auid == slots[Plan(slots, ids, supply)[j].slot.value].code
  {
    PlanFollowsRequest(slots, ids, supply);
  }

  /**
   * What one cycle leaves in a slot: if the i-th processed identifier is the
   * last one resolving to slot k, slot k holds that slot's code under
   * RSDK_AUID and the i-th delivery id under RSDK_ADID.
   */
  lemma CycleWritesSlot(slots: seq<Slot>, ids: seq<string>, supply: seq<string>,
                        t: map<string, seq<string>>, k: nat, i: nat)
    requires |supply| == |NonEmpty(ids)|
    requires i < |NonEmpty(ids)| && ResolveSlot(slots, NonEmpty(ids)[i]) == Some(k)
    requires forall j :: i < j < |NonEmpty(ids)| ==> ResolveSlot(slots, NonEmpty(ids)[j]) != Some(k)
    ensures AuidKey in Retarget(t, Plan(slots, ids, supply), k)
    ensures Retarget(t, Plan(slots, ids, supply), k)[AuidKey] == [slots[k].code]
    ensures AdidKey in Retarget(t, Plan(slots, ids, supply), k)
    ensures Retarget(t, Plan(slots, ids, supply), k)[AdidKey] == [supply[i]]
  {
    var plan := Plan(slots, ids, supply);
    PlanFollowsRequest(slots, ids, supply);
    PlanAuid(slots, ids, supply);
    forall j | i < j < |plan| ensures plan[j].slot != Some(k) {
      assert plan[j] == Item(slots, NonEmpty(ids)[j], supply[j]);
    }
    RetargetWritesLast(slots, t, plan, k, i);
  }
}
