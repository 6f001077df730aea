/**
 * The impression listener's decision, as a function: which received message
 * leads to an impression GET, and with which parameters.
 */
module Impression {
  import opened Base
  import opened QueryEncoder
  import opened WindowWalker
  import opened Slots

  /** The one message type the listener accepts. */
  const ImpressionRequestType: string := "rsdk:impression:req"

  /** A message payload after JSON parsing: unparsable, or an object with its
      `type` and the two `args` fields (absent when missing or not a string). */
  datatype MessageData =
    | Unparsable
    | Parsed(msgType: string, sourceMemberId: Option<string>, sourceImpressionId: Option<string>)

  /** A received message event: the window that posted it and its payload. */
  datatype Message = Message(source: Option<WinId>, data: MessageData)

  /** The page as the listener sees it: the window graph and the page's top window. */
  datatype Page = Page(graph: WindowGraph, top: WinId)

  /** The creative's ids, if the payload is a well-formed impression request. */
  function RequestArgs(d: MessageData): (r: Option<(string, string)>)
    ensures r.Some? <==> d.Parsed? && d.msgType == ImpressionRequestType
                         && d.sourceMemberId.Some? && d.sourceImpressionId.Some?
    ensures r.Some? ==> r.value == (d.sourceMemberId.value, d.sourceImpressionId.value)
  {
    match d
    case Unparsable => None
    case Parsed(t, m, i) =>
      if t == ImpressionRequestType && m.Some? && i.Some? then Some((m.value, i.value)) else None
  }

  /** The parameters of the impression GET. */
  function ImpressionParams(adUnitId: string, adDeliveryId: string, sourceMemberId: string,
                            sourceImpressionId: string, publisherMemberId: string): (r: Query)
    ensures |r| == 5 && IsFlat(r)
  {
    [ Entry("adUnitId", Scalar(adUnitId)),
      Entry("adDeliveryId", Scalar(adDeliveryId)),
      Entry("sourceMemberId", Scalar(sourceMemberId)),
      Entry("sourceImpressionId", Scalar(sourceImpressionId)),
      Entry("publisherMemberId", Scalar(publisherMemberId)) ]
  }

  /** The scalar value of the first entry with key `key`, as `params[key]` reads it. */
  function Lookup(q: Query, key: string): Option<string>
  {
    if q == [] then None
    else if q[0].key == key then (if q[0].value.Scalar? then Some(q[0].value.s) else None)
    else Lookup(q[1..], key)
  }

  /** Each field of the GET parameters carries the value it was built from. */
  lemma ImpressionParamsFields(u: string, d: string, m: string, i: string, p: string)
    ensures Lookup(ImpressionParams(u, d, m, i, p), "adUnitId") == Some(u)
    ensures Lookup(ImpressionParams(u, d, m, i, p), "adDeliveryId") == Some(d)
    ensures Lookup(ImpressionParams(u, d, m, i, p), "sourceMemberId") == Some(m)
    ensures Lookup(ImpressionParams(u, d, m, i, p), "sourceImpressionId") == Some(i)
    ensures Lookup(ImpressionParams(u, d, m, i, p), "publisherMemberId") == Some(p)
  {
    var q := ImpressionParams(u, d, m, i, p);
    var q2 := q[1..][1..];
    var q3 := q2[1..];
    var q4 := q3[1..];
    assert Lookup(q, "sourceMemberId") == Lookup(q2, "sourceMemberId");
    assert Lookup(q, "sourceImpressionId") == Lookup(q2, "sourceImpressionId");
    assert Lookup(q2, "sourceImpressionId") == Lookup(q3, "sourceImpressionId");
    assert Lookup(q, "publisherMemberId") == Lookup(q2, "publisherMemberId");
    assert Lookup(q2, "publisherMemberId") == Lookup(q4, "publisherMemberId");
  }

  /** The receiver of the GET reads all five parameters back, unchanged. */
  lemma ImpressionParamsRoundTrip(u: string, d: string, m: string, i: string, p: string)
    ensures ParseQuery(Stringify(ImpressionParams(u, d, m, i, p))) == ImpressionParams(u, d, m, i, p)
  {
    var q := ImpressionParams(u, d, m, i, p);
    assert IsFlat(q);
    FlatRoundTrip(q);
  }

  /**
   * The parameters of the impression call a message leads to, or None when it
   * is discarded: its source must walk to a window just below the top, its
   * payload be an impression request, that window's slot be found, and the slot
   * hold both RSDK_AUID and RSDK_ADID.
   */
  function ExpectedImpression(page: Page, slots: seq<Slot>, publisherMemberId: string, msg: Message): (r: Option<Query>)
    requires page.graph.Valid()
    reads slots
    ensures r.Some? ==> TopIFrameWin(page.graph, msg.source, page.top).Some? && RequestArgs(msg.data).Some?
    ensures r.Some? ==> IsFlat(r.value) && |r.value| == 5
  {
    match TopIFrameWin(page.graph, msg.source, page.top)
    case None => None
    case Some(frame) =>
      match RequestArgs(msg.data)
      case None => None
      case Some(args) =>
        match FirstMatch(slots, HoldsFrame(frame), 0)
        case None => None
        case Some(k) =>
          var auid := slots[k].GetTargeting(AuidKey);
          var adid := slots[k].GetTargeting(AdidKey);
          if |auid| == 0 || |adid| == 0 then None
          else Some(ImpressionParams(auid[0], adid[0], args.0, args.1, publisherMemberId))
  }

  /** Messages that are discarded: a null or unresolvable source, any other
      message type or a malformed payload, a window inside no slot, or a first
      slot holding that window without both RSDK_AUID and RSDK_ADID. */
  lemma ImpressionDiscards(page: Page, slots: seq<Slot>, pub: string, msg: Message)
    requires page.graph.Valid()
    ensures msg.source.None? ==> ExpectedImpression(page, slots, pub, msg).None?
    ensures TopIFrameWin(page.graph, msg.source, page.top).None? ==> ExpectedImpression(page, slots, pub, msg).None?
    ensures msg.data.Parsed? && msg.data.msgType != ImpressionRequestType ==> ExpectedImpression(page, slots, pub, msg).None?
    ensures msg.data.Unparsable? ==> ExpectedImpression(page, slots, pub, msg).None?
    ensures RequestArgs(msg.data).None? ==> ExpectedImpression(page, slots, pub, msg).None?
    ensures (forall f :: TopIFrameWin(page.graph, msg.source, page.top) == Some(f) ==>
               forall i :: 0 <= i < |slots| ==> f !in slots[i].frames)
            ==> ExpectedImpression(page, slots, pub, msg).None?
    ensures var w := TopIFrameWin(page.graph, msg.source, page.top);
            (&& w.Some? && FirstMatch(slots, HoldsFrame(w.value), 0).Some?
             && var s := slots[FirstMatch(slots, HoldsFrame(w.value), 0).value];
                s.GetTargeting(AuidKey) == [] || s.GetTargeting(AdidKey) == [])
            ==> ExpectedImpression(page, slots, pub, msg).None?
  {
  }

  /**
   * A forwarded impression carries the stored targeting of the slot the
   * message came from, the creative's ids and the publisher id.
   */
  lemma ImpressionForwards(page: Page, slots: seq<Slot>, pub: string, msg: Message)
    requires page.graph.Valid()
    requires ExpectedImpression(page, slots, pub, msg).Some?
    ensures var frame := TopIFrameWin(page.graph, msg.source, page.top);
      && frame.Some? && page.graph.parent[frame.value] == page.top
      && RequestArgs(msg.data).Some?
      && exists k :: 0 <= k < |slots| && frame.value in slots[k].frames
           && (forall j :: 0 <= j < k ==> frame.value !in slots[j].frames)
           && var q := ExpectedImpression(page, slots, pub, msg).value;
           && Lookup(q, "adUnitId") == Some(slots[k].targeting[AuidKey][0])
           && Lookup(q, "adDeliveryId") == Some(slots[k].targeting[AdidKey][0])
           && Lookup(q, "sourceMemberId") == msg.data.sourceMemberId
           && Lookup(q, "sourceImpressionId") == msg.data.sourceImpressionId
           && Lookup(q, "publisherMemberId") == Some(pub)
  {
    var frame := TopIFrameWin(page.graph, msg.source, page.top).value;
    var args := RequestArgs(msg.data).value;
    var k := FirstMatch(slots, HoldsFrame(frame), 0).value;
    var auid := slots[k].GetTargeting(AuidKey);
    var adid := slots[k].GetTargeting(AdidKey);
    ImpressionParamsFields(auid[0], adid[0], args.0, args.1, pub);
    assert HoldsFrame(frame)(slots[k]);
  }

  /**
   * The other direction: a well-formed impression request from a window just
   * below the top, whose first slot holds both targeting keys, is forwarded
   * with exactly that slot's stored values, the creative's ids and the
   * publisher id.
   */
  lemma ImpressionAccepted(page: Page, slots: seq<Slot>, pub: string, msg: Message, frame: WinId, k: nat)
    requires page.graph.Valid()
    requires TopIFrameWin(page.graph, msg.source, page.top) == Some(frame)
    requires msg.data.Parsed? && msg.data.msgType == ImpressionRequestType
    requires msg.data.sourceMemberId.Some? && msg.data.sourceImpressionId.Some?
    requires k < |slots| && frame in slots[k].frames
    requires forall j :: 0 <= j < k ==> frame !in slots[j].frames
    requires AuidKey in slots[k].targeting && slots[k].targeting[AuidKey] != []
    requires AdidKey in slots[k].targeting && slots[k].targeting[AdidKey] != []
    ensures ExpectedImpression(page, slots, pub, msg)
         == Some(ImpressionParams(slots[k].targeting[AuidKey][0], slots[k].targeting[AdidKey][0],
                                  msg.data.sourceMemberId.value, msg.data.sourceImpressionId.value, pub))
  {
    assert HoldsFrame(frame)(slots[k]);
  }
}
