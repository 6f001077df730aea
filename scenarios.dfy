/**
 * The provider's documented examples, stated over the model: the two query
 * strings, the three walks up the frame chain, the slot lookup by frame, the
 * targeting and init cycles, and one impression.
 */
module Scenarios {
  import opened Base
  import opened QueryEncoder
  import opened WindowWalker

  // ---------------------------------------------------------------------------
  // stringify
  // ---------------------------------------------------------------------------

  /** A pair whose key and value text have known encodings. */
  lemma PairOf(k: string, v: Value, ek: string, ev: string)
    requires EncodeComponent(k) == ek && EncodeComponent(ValueText(v)) == ev
    ensures Pair(Entry(k, v)) == ek + "=" + ev
  {
  }

  lemma StringifyTwo(e1: Entry, e2: Entry)
    ensures Stringify([e1, e2]) == Pair(e1) + "&" + Pair(e2)
  {
    assert [e1, e2][1..] == [e2];
  }

  lemma StringifyThree(e1: Entry, e2: Entry, e3: Entry)
    ensures Stringify([e1, e2, e3]) == Pair(e1) + "&" + (Pair(e2) + "&" + Pair(e3))
  {
    assert [e1, e2, e3][1..] == [e2, e3];
    StringifyTwo(e2, e3);
  }

  /** Two flat pairs whose keys and values have known encodings. */
  lemma StringifyTwoOf(k1: string, v1: string, k2: string, v2: string,
                       ek1: string, ev1: string, ek2: string, ev2: string)
    requires EncodeComponent(k1) == ek1 && EncodeComponent(v1) == ev1
    requires EncodeComponent(k2) == ek2 && EncodeComponent(v2) == ev2
    ensures Stringify([Entry(k1, Scalar(v1)), Entry(k2, Scalar(v2))]) == (ek1 + "=" + ev1) + "&" + (ek2 + "=" + ev2)
  {
    PairOf(k1, Scalar(v1), ek1, ev1);
    PairOf(k2, Scalar(v2), ek2, ev2);
    StringifyTwo(Entry(k1, Scalar(v1)), Entry(k2, Scalar(v2)));
  }

  /** Two flat pairs and a third of any value, with known encodings. */
  lemma StringifyThreeOf(k1: string, v1: string, k2: string, v2: string, k3: string, v3: Value,
                         ek1: string, ev1: string, ek2: string, ev2: string, ek3: string, ev3: string)
    requires EncodeComponent(k1) == ek1 && EncodeComponent(v1) == ev1
    requires EncodeComponent(k2) == ek2 && EncodeComponent(v2) == ev2
    requires EncodeComponent(k3) == ek3 && EncodeComponent(ValueText(v3)) == ev3
    ensures Stringify([Entry(k1, Scalar(v1)), Entry(k2, Scalar(v2)), Entry(k3, v3)])
         == (ek1 + "=" + ev1) + "&" + ((ek2 + "=" + ev2) + "&" + (ek3 + "=" + ev3))
  {
    PairOf(k1, Scalar(v1), ek1, ev1);
    PairOf(k2, Scalar(v2), ek2, ev2);
    PairOf(k3, v3, ek3, ev3);
    StringifyThree(Entry(k1, Scalar(v1)), Entry(k2, Scalar(v2)), Entry(k3, v3));
  }

  /** A nested object of two plain pairs: its query string, escaped once more. */
  lemma NestedTwo(k1: string, v1: string, k2: string, v2: string)
    requires EncodeComponent(k1) == k1 && EncodeComponent(v1) == v1
    requires EncodeComponent(k2) == k2 && EncodeComponent(v2) == v2
    ensures EncodeComponent(ValueText(Nested([Entry(k1, Scalar(v1)), Entry(k2, Scalar(v2))])))
         == (k1 + "%3D" + v1) + "%26" + (k2 + "%3D" + v2)
  {
    StringifyTwo(Entry(k1, Scalar(v1)), Entry(k2, Scalar(v2)));
    EncodesSeparators();
    var eq, amp := "=", "&";
    var p1, p2 := k1 + eq + v1, k2 + eq + v2;
    assert ValueText(Nested([Entry(k1, Scalar(v1)), Entry(k2, Scalar(v2))])) == p1 + amp + p2;
    EncodeConcat(k1, eq);
    EncodeConcat(k1 + eq, v1);
    EncodeConcat(k2, eq);
    EncodeConcat(k2 + eq, v2);
    EncodeConcat(p1, amp);
    EncodeConcat(p1 + amp, p2);
  }

  /** Encoding one character in front of the rest. */
  lemma EncodeCons(c: char, t: string)
    ensures EncodeComponent([c] + t) == EncodeChar(c) + EncodeComponent(t)
  {
    assert ([c] + t)[1..] == t;
  }
  /** "/" is escaped as "%2F". */
  lemma SlashChar()
    ensures EncodeChar('/') == "%2F"
  {
  }
  /** A unit path: the leading slash escaped, the plain rest kept. */
  lemma EscapedPath(s: string)
    requires |s| > 0 && s[0] == '/'
    requires forall i :: 0 <= i < |s[1..]| ==> Unreserved(s[1..][i])
    ensures EncodeComponent(s) == "%2F" + s[1..]
  {
    EncodeCons(s[0], s[1..]);
    assert [s[0]] + s[1..] == s;
    SlashChar();
    EncodePlain(s[1..]);
  }

  /** The literal keys and values of the two examples are unreserved, so they are sent as they are. */
  lemma PlainAdUnitId() ensures EncodeComponent("adUnitId") == "adUnitId" {
    assert forall i :: 0 <= i < |"adUnitId"| ==> Unreserved("adUnitId"[i]);
    EncodePlain("adUnitId");
  }
  lemma PlainAdDeliveryId() ensures EncodeComponent("adDeliveryId") == "adDeliveryId" {
    assert forall i :: 0 <= i < |"adDeliveryId"| ==> Unreserved("adDeliveryId"[i]);
    EncodePlain("adDeliveryId");
  }
  lemma PlainDigits() ensures EncodeComponent("12345") == "12345" {
    assert forall i :: 0 <= i < |"12345"| ==> Unreserved("12345"[i]);
    EncodePlain("12345");
  }
  lemma PlainExt() ensures EncodeComponent("ext") == "ext" {
    assert forall i :: 0 <= i < |"ext"| ==> Unreserved("ext"[i]);
    EncodePlain("ext");
  }
  lemma PlainAdSize() ensures EncodeComponent("adSize") == "adSize" {
    assert forall i :: 0 <= i < |"adSize"| ==> Unreserved("adSize"[i]);
    EncodePlain("adSize");
  }
  lemma PlainSize() ensures EncodeComponent("300x250") == "300x250" {
    assert forall i :: 0 <= i < |"300x250"| ==> Unreserved("300x250"[i]);
    EncodePlain("300x250");
  }
  lemma PlainAdType() ensures EncodeComponent("adType") == "adType" {
    assert forall i :: 0 <= i < |"adType"| ==> Unreserved("adType"[i]);
    EncodePlain("adType");
  }
  lemma PlainBanner() ensures EncodeComponent("banner") == "banner" {
    assert forall i :: 0 <= i < |"banner"| ==> Unreserved("banner"[i]);
    EncodePlain("banner");
  }

  /** The unit path "/adunit" is sent with its slash escaped. */
  lemma EscapedAdUnitPath()
    ensures EncodeComponent("/adunit") == "%2Fadunit"
  {
    assert forall i :: 0 <= i < |"/adunit"[1..]| ==> Unreserved("/adunit"[1..][i]);
    EscapedPath("/adunit");
    assert "%2F" + "/adunit"[1..] == "%2Fadunit";
  }

  /** A flat object becomes `key=value` pairs joined by `&`, values escaped. */
  lemma StringifyFlatExample()
    ensures Stringify([Entry("adUnitId", Scalar("/adunit")), Entry("adDeliveryId", Scalar("12345"))])
         == ("adUnitId" + "=" + "%2Fadunit") + "&" + ("adDeliveryId" + "=" + "12345")
  {
    PlainAdUnitId();
    EscapedAdUnitPath();
    PlainAdDeliveryId();
    PlainDigits();
    StringifyTwoOf("adUnitId", "/adunit", "adDeliveryId", "12345", "adUnitId", "%2Fadunit", "adDeliveryId", "12345");
  }

  /** A nested object is stringified on its own and sent as one escaped value. */
  lemma StringifyNestedExample()
    ensures Stringify([Entry("adUnitId", Scalar("/adunit")), Entry("adDeliveryId", Scalar("12345")),
                       Entry("ext", Nested([Entry("adSize", Scalar("300x250")), Entry("adType", Scalar("banner"))]))])
         == ("adUnitId" + "=" + "%2Fadunit") + "&" + (("adDeliveryId" + "=" + "12345") + "&" +
            ("ext" + "=" + (("adSize" + "%3D" + "300x250") + "%26" + ("adType" + "%3D" + "banner"))))
  {
    PlainAdUnitId();
    EscapedAdUnitPath();
    PlainAdDeliveryId();
    PlainDigits();
    PlainExt();
    PlainAdSize();
    PlainSize();
    PlainAdType();
    PlainBanner();
    NestedTwo("adSize", "300x250", "adType", "banner");
    StringifyThreeOf("adUnitId", "/adunit", "adDeliveryId", "12345",
                     "ext", Nested([Entry("adSize", Scalar("300x250")), Entry("adType", Scalar("banner"))]),
                     "adUnitId", "%2Fadunit", "adDeliveryId", "12345",
                     "ext", ("adSize" + "%3D" + "300x250") + "%26" + ("adType" + "%3D" + "banner"));
  }

  // ---------------------------------------------------------------------------
  // getTopIFrameWin: window 0 is the top, 1 an iframe in it, 2 an iframe in 1
  // ---------------------------------------------------------------------------

  /** The chain top <- 1 <- 2, every link readable. */
  function IntactChain(): (g: WindowGraph)
    ensures g.Valid()
  {
    WindowGraph(map[1 := 0, 2 := 1], {}, map[0 := 0, 1 := 1, 2 := 2])
  }

  /** The same frames with the link from 1 to the top missing. */
  function BrokenChain(): (g: WindowGraph)
    ensures g.Valid()
  {
    WindowGraph(map[2 := 1], {}, map[0 := 0, 1 := 1, 2 := 2])
  }

  lemma NoWindowGivesNull()
    ensures TopIFrameWin(IntactChain(), None, 0) == None
  {
  }

  lemma BrokenChainExample()
    ensures TopIFrameWin(BrokenChain(), Some(1), 0) == None
  {
  }

  /** The top window has no parent in the model, so a walk from it gives null. */
  lemma TopWindowGivesNull()
    ensures TopIFrameWin(IntactChain(), Some(0), 0) == None
  {
  }

  lemma TopmostIFrameExample()
    ensures TopIFrameWin(IntactChain(), Some(2), 0) == Some(1)
    ensures TopIFrameWin(IntactChain(), Some(1), 0) == Some(1)
  {
  }
}

/**
 * The documented behaviour of the submodule's entry points, on freshly built
 * slots and a freshly built submodule.
 */
module ProviderScenarios {
  import opened Base
  import opened WindowWalker
  import opened Slots
  import opened Tracking
  import opened Targeting
  import opened Impression
  import opened Provider

  const PublisherConfig := ModuleConfig("reconciliation", Some("test_prebid_publisher"))

  /** init answers true with a publisher id and without one. */
  method InitAlwaysSucceeds() returns (withParams: bool, withoutParams: bool)
    ensures withParams && withoutParams
  {
    var m := new ReconciliationSubmodule();
    withParams := m.Init(PublisherConfig);
    withoutParams := m.Init(ModuleConfig("reconciliation", None));
  }

  /** A frame inside the slot's element finds that slot. */
  method SlotOfNestedFrame() returns (slot: Slot, found: Slot?)
    ensures found == slot && slot.code == "/reconciliationAdunit"
  {
    slot := new Slot("/reconciliationAdunit", "reconciliationAd", {7});
    found := GetSlotByWin([slot], 7);
  }

  /** A frame outside every slot's element finds nothing. */
  method SlotOfOutsideFrame() returns (found: Slot?)
    ensures found == null
  {
    var slot := new Slot("/reconciliationAdunit", "reconciliationAd", {});
    found := GetSlotByWin([slot], 7);
  }

  /** A unit path is answered with that path as RSDK_AUID. */
  method TargetingByCode() returns (data: map<string, TargetingEntry>)
    ensures data.Keys == {"/reconciliationAdunit1"}
    ensures data["/reconciliationAdunit1"] == TargetingEntry("/reconciliationAdunit1", "d1")
  {
    var m := new ReconciliationSubmodule();
    var ok := m.Init(PublisherConfig);
    var slot := new Slot("/reconciliationAdunit1", "reconciliationAd1", {});
    data := m.GetTargetingData([slot], ["/reconciliationAdunit1"], ["d1"]);
  }

  /** An element id is answered under that id with the slot's unit path. */
  method TargetingByDivId() returns (data: map<string, TargetingEntry>)
    ensures data.Keys == {"reconciliationAd2"}
    ensures data["reconciliationAd2"] == TargetingEntry("/reconciliationAdunit2", "d1")
  {
    var m := new ReconciliationSubmodule();
    var ok := m.Init(PublisherConfig);
    var slot := new Slot("/reconciliationAdunit2", "reconciliationAd2", {});
    data := m.GetTargetingData([slot], ["reconciliationAd2"], ["d1"]);
  }

  /** An empty identifier is skipped. */
  method TargetingSkipsEmpty() returns (data: map<string, TargetingEntry>)
    ensures data.Keys == {"reconciliationAd3"}
  {
    var m := new ReconciliationSubmodule();
    var ok := m.Init(PublisherConfig);
    var slot := new Slot("/reconciliationAdunit3", "reconciliationAd3", {});
    var ids := ["reconciliationAd3", ""];
    assert ids[..1] == ["reconciliationAd3"] && ids[..1][..0] == [];
    data := m.GetTargetingData([slot], ids, ["d1"]);
    assert Plan([slot], ids, ["d1"]) == Plan([slot], ids[..1], ["d1"]);
    var item := Item([slot], "reconciliationAd3", "d1");
    assert Plan([slot], ids[..1], ["d1"]) == [item];
    assert TargetingOf([item]) == map[]["reconciliationAd3" := TargetingEntry(item.auid, item.adid)];
  }

  /**
   * After a good and then a bad configuration, one targeting cycle for a unit
   * path no slot has posts one init event carrying that path and the first
   * publisher id.
   */
  method InitEventAfterReconfiguration() returns (calls: seq<Call>)
    ensures calls == [Post(InitUrl, InitBody([AdUnitRef("/adunit", "d1")], Some("test_prebid_publisher")))]
  {
    var m := new ReconciliationSubmodule();
    var ok := m.Init(PublisherConfig);
    ok := m.Init(ModuleConfig("reconciliation", None));
    var other := new Slot("/reconciliationAdunit1", "reconciliationAd1", {});
    assert m.publisherMemberId == Some("test_prebid_publisher") && m.tracker.calls == [];
    var data := m.GetTargetingData([other], ["/adunit"], ["d1"]);
    UnknownUnitInitCall(other);
    calls := m.tracker.calls;
  }

  /** The init call of a cycle for "/adunit" when the only slot has another name. */
  lemma UnknownUnitInitCall(other: Slot)
    requires other.code == "/reconciliationAdunit1" && other.divId == "reconciliationAd1"
    ensures InitCalls(Plan([other], ["/adunit"], ["d1"]), Some("test_prebid_publisher"))
         == [Post(InitUrl, InitBody([AdUnitRef("/adunit", "d1")], Some("test_prebid_publisher")))]
  {
    assert |"/adunit"| != |other.code| && |"/adunit"| != |other.divId|;
    assert ResolveSlot([other], "/adunit") == None;
    var plan := Plan([other], ["/adunit"], ["d1"]);
    assert plan == [Planned("/adunit", None, "/adunit", "d1")];
    assert BatchOf(plan) == [AdUnitRef("/adunit", "d1")];
  }

  /** An impression request posted from a slot's frame leads to one impression GET. */
  method ImpressionFromSlotFrame() returns (calls: seq<Call>)
    ensures calls == [Get(ImpressionUrl, ImpressionParams("/reconciliationAdunit", "12345", "test_member_id", "123", "test_prebid_publisher"))]
  {
    var m := new ReconciliationSubmodule();
    var ok := m.Init(PublisherConfig);
    var slot := new Slot("/reconciliationAdunit", "reconciliationAdMessage", {1});
    slot.SetTargeting(AuidKey, "/reconciliationAdunit");
    slot.SetTargeting(AdidKey, "12345");
    var page := Page(WindowGraph(map[1 := 0], {}, map[0 := 0, 1 := 1]), 0);
    var msg := Message(Some(1), Parsed(ImpressionRequestType, Some("test_member_id"), Some("123")));
    m.HandleMessage(page, [slot], msg);
    calls := m.tracker.calls;
  }
}
