/**
 * Slot descriptors of the host ad SDK and the two ways this core finds one:
 * by the window of an iframe inside the slot's element (getSlotByWin), and by
 * an ad-unit identifier that is either the slot's code or its element id.
 */
module Slots {
  import opened Base
  import opened WindowWalker

  /** The targeting keys this core writes and reads back. */
  const AuidKey: string := "RSDK_AUID"
  const AdidKey: string := "RSDK_ADID"

  /**
   * A slot descriptor. Its code, element id and the content windows of the
   * iframes inside its element are fixed for this core; only its targeting map
   * (key to list of values) is written.
   */
  class Slot {
    const code: string
    const divId: string
    const frames: set<WinId>
    var targeting: map<string, seq<string>>

    constructor (code: string, divId: string, frames: set<WinId>)
      ensures this.code == code && this.divId == divId && this.frames == frames
      ensures targeting == map[]
    {
      this.code := code;
      this.divId := divId;
      this.frames := frames;
      targeting := map[];
    }

    /** `setTargeting(key, value)`: the key now holds the one value `[value]`. */
    method SetTargeting(key: string, value: string)
      modifies this
      ensures targeting == old(targeting)[key := [value]]
    {
      targeting := targeting[key := [value]];
    }

    /** `getTargeting(key)`: the values stored under `key`, none if unset. */
    function GetTargeting(key: string): (r: seq<string>)
      reads this
      ensures key in targeting ==> r == targeting[key]
      ensures key !in targeting ==> r == []
    {
      if key in targeting then targeting[key] else []
    }
  }

  /** The index of the first element at or after `from` that satisfies `p`. */
  function FirstMatch<T>(s: seq<T>, p: T -> bool, from: nat): (r: Option<nat>)
    requires from <= |s|
    ensures r.Some? ==> from <= r.value < |s| && p(s[r.value])
    ensures r.Some? ==> forall j :: from <= j < r.value ==> !p(s[j])
    ensures r.None? ==> forall j :: from <= j < |s| ==> !p(s[j])
    decreases |s| - from
  {
    if from == |s| then None
    else if p(s[from]) then Some(from)
    else FirstMatch(s, p, from + 1)
  }

  /** The slot's element contains an iframe whose content window is `win`. */
  function HoldsFrame(win: WinId): Slot -> bool {
    (s: Slot) => win in s.frames
  }

  /**
   * getSlotByWin: the first slot whose element contains an iframe whose
   * content window is `win` (compared by identity), or null.
   */
  method GetSlotByWin(slots: seq<Slot>, win: WinId) returns (r: Slot?)
    ensures r == null <==> forall i :: 0 <= i < |slots| ==> win !in slots[i].frames
    ensures r != null ==> exists i :: 0 <= i < |slots| && r == slots[i] && win in r.frames
                                    && forall j :: 0 <= j < i ==> win !in slots[j].frames
    ensures match FirstMatch(slots, HoldsFrame(win), 0)
            case None => r == null
            case Some(k) => r == slots[k]
  {
    var i := 0;
    while i < |slots|
      invariant 0 <= i <= |slots|
      invariant forall j :: 0 <= j < i ==> win !in slots[j].frames
    {
      if win in slots[i].frames {
        return slots[i];
      }
      i := i + 1;
    }
    return null;
  }

  /**
   * The slot an ad-unit identifier names: the first slot whose code is `id`,
   * or failing that the first slot whose element id is `id`.
   */
  function ResolveSlot(slots: seq<Slot>, id: string): (r: Option<nat>)
    ensures r.Some? ==> r.value < |slots|
    ensures r.Some? ==> slots[r.value].code == id || slots[r.value].divId == id
    ensures r.None? <==> forall i :: 0 <= i < |slots| ==> slots[i].code != id && slots[i].divId != id
    ensures (exists i :: 0 <= i < |slots| && slots[i].code == id) ==>
              r.Some? && slots[r.value].code == id && forall j :: 0 <= j < r.value ==> slots[j].code != id
    ensures (forall i :: 0 <= i < |slots| ==> slots[i].code != id) && r.Some? ==>
              forall j :: 0 <= j < r.value ==> slots[j].divId != id
  {
    var byCode := FirstMatch(slots, (s: Slot) => s.code == id, 0);
    if byCode.Some? then byCode else FirstMatch(slots, (s: Slot) => s.divId == id, 0)
  }

  /** No two slots share a name: codes, element ids, and a code with another slot's element id. */
  predicate DistinctNames(slots: seq<Slot>) {
    forall i, j :: 0 <= i < |slots| && 0 <= j < |slots| && i != j ==>
      slots[i].code != slots[j].code && slots[i].divId != slots[j].divId && slots[i].code != slots[j].divId
  }

  /** With distinct names, a slot's code and its element id both resolve to that slot. */
  lemma CodeOrDivIdResolves(slots: seq<Slot>, k: nat, id: string)
    requires DistinctNames(slots)
    requires k < |slots| && (id == slots[k].code || id == slots[k].divId)
    ensures ResolveSlot(slots, id) == Some(k)
  {
    var r := ResolveSlot(slots, id);
    assert r.Some?;
  }

  /** The slot objects of the registry are pairwise distinct. */
  predicate DistinctObjects(slots: seq<Slot>) {
    forall i, j :: 0 <= i < j < |slots| ==> slots[i] != slots[j]
  }
}
