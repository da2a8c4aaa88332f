/** Encoding of a CCR: validation, the canonical AVP block, and the filtering
    of caller-supplied AVPs. */
module CCRBuilder {
  import opened Text
  import opened Template

  datatype Request = Request(
    sessionID: string,
    originHost: string,
    originRealm: string,
    destinationRealm: string,
    destinationHost: string,
    authApplicationID: uint32,
    serviceContextID: string,
    requestType: uint32,
    requestNumber: uint32,
    eventTimestamp: Option<int>,
    extraAVPs: seq<Option<AVP>>)      // None is a nil entry

  datatype BuildError = EmptyDestinationRealm | EmptyServiceContext | BadRequestType

  const SESSION_ID: uint32 := 263
  const ORIGIN_HOST: uint32 := 264
  const ORIGIN_REALM: uint32 := 296
  const DESTINATION_REALM: uint32 := 283
  const DESTINATION_HOST: uint32 := 293
  const AUTH_APPLICATION_ID: uint32 := 258
  const SERVICE_CONTEXT_ID: uint32 := 461
  const CC_REQUEST_TYPE: uint32 := 416
  const CC_REQUEST_NUMBER: uint32 := 415
  const EVENT_TIMESTAMP: uint32 := 55

  const BUILDER_OWNED: set<uint32> :=
    {SESSION_ID, ORIGIN_HOST, ORIGIN_REALM, DESTINATION_REALM, DESTINATION_HOST, AUTH_APPLICATION_ID,
     SERVICE_CONTEXT_ID, CC_REQUEST_TYPE, CC_REQUEST_NUMBER, EVENT_TIMESTAMP}

  /** Whether the builder adds this AVP from the request's own fields. */
  predicate IsOwned(code: uint32) {
    code in BUILDER_OWNED
  }

  const CREDIT_CONTROL: uint32 := 4

  predicate Blank(s: string) {
    TrimSpace(s) == ""
  }

  function Validate(req: Request): Option<BuildError> {
    if Blank(req.destinationRealm) then Some(EmptyDestinationRealm)
    else if Blank(req.serviceContextID) then Some(EmptyServiceContext)
    else if req.requestType < INITIAL || req.requestType > EVENT then Some(BadRequestType)
    else None
  }

  // AVPs of a list with the given code.
  function WithCode(avps: seq<AVP>, code: uint32): seq<AVP> {
    if avps == [] then []
    else WithCode(avps[..|avps| - 1], code)
         + (if avps[|avps| - 1].code == code then [avps[|avps| - 1]] else [])
  }

  // AVPs of a list that the builder does not own, in order.
  function Foreign(avps: seq<AVP>): seq<AVP> {
    if avps == [] then []
    else Foreign(avps[..|avps| - 1])
         + (if IsOwned(avps[|avps| - 1].code) then [] else [avps[|avps| - 1]])
  }

  // The entries that are there at all.
  function Present(avps: seq<Option<AVP>>): seq<AVP> {
    if avps == [] then []
    else Present(avps[..|avps| - 1])
         + (match avps[|avps| - 1] case None => [] case Some(a) => [a])
  }

  function TextAVP(code: uint32, dataType: string, s: string): AVP {
    LeafAVP(code, 0, Encoded(dataType, s))
  }

  /** The value each builder-owned AVP must carry. */
  function Owned(req: Request, code: uint32, sessionID: string, timestamp: int): seq<AVP> {
    if code == SESSION_ID then [TextAVP(code, "UTF8String", sessionID)]
    else if code == ORIGIN_HOST then [TextAVP(code, "DiameterIdentity", req.originHost)]
    else if code == ORIGIN_REALM then [TextAVP(code, "DiameterIdentity", req.originRealm)]
    else if code == DESTINATION_REALM then [TextAVP(code, "DiameterIdentity", req.destinationRealm)]
    else if code == DESTINATION_HOST then
      if Blank(req.destinationHost) then [] else [TextAVP(code, "DiameterIdentity", req.destinationHost)]
    else if code == AUTH_APPLICATION_ID then
      [LeafAVP(code, 0, Unsigned32(if req.authApplicationID == 0 then CREDIT_CONTROL else req.authApplicationID))]
    else if code == SERVICE_CONTEXT_ID then [TextAVP(code, "UTF8String", req.serviceContextID)]
    else if code == CC_REQUEST_TYPE then
      if req.requestType < 0x8000_0000 then [LeafAVP(code, 0, Enumerated(req.requestType))] else []
    else if code == CC_REQUEST_NUMBER then [LeafAVP(code, 0, Unsigned32(req.requestNumber))]
    else if code == EVENT_TIMESTAMP then [LeafAVP(code, 0, Encoded("Time", Instant(timestamp)))]
    else []
  }

  function Instant(t: int): string {
    if t < 0 then "-" + Decimal(-t) else Decimal(t)
  }

  /** Builds the AVPs of a CCR. `generated` and `now` stand for the generated
      Session-Id and the clock. Every owned AVP appears exactly once, with the
      request's own value, Destination-Host only when it is not blank; what
      else the caller supplied follows in its original order. */
  method BuildCCRMessage(req: Request, generated: string, now: int) returns (r: Result<seq<AVP>, BuildError>)
    ensures r.Err? <==> Validate(req).Some?
    ensures r.Err? ==> Validate(req) == Some(r.error)
    ensures r.Ok? ==>
      var sessionID := if req.sessionID == "" then generated else req.sessionID;
      var timestamp := if req.eventTimestamp.Some? then req.eventTimestamp.value else now;
      && (forall code :: IsOwned(code) ==> WithCode(r.value, code) == Owned(req, code, sessionID, timestamp))
      && Foreign(r.value) == Foreign(Present(req.extraAVPs))
      && |r.value| == (if Blank(req.destinationHost) then 9 else 10) + |Foreign(Present(req.extraAVPs))|
  {
    hide Foreign, WithCode, OwnedSoFar, Present, TrimSpace, Owned, IsOwned;
    if Blank(req.destinationRealm) {
      return Err(EmptyDestinationRealm);
    }
    if Blank(req.serviceContextID) {
      return Err(EmptyServiceContext);
    }
    if req.requestType < INITIAL || req.requestType > EVENT {
      return Err(BadRequestType);
    }
    var sessionID := if req.sessionID == "" then generated else req.sessionID;
    var timestamp := if req.eventTimestamp.Some? then req.eventTimestamp.value else now;
    var m := CanonicalBlock(req, sessionID, timestamp);
    ghost var block := m;
    AllOwned(req, block, sessionID, timestamp);

    var i := 0;
    NothingForeign();
    while i < |req.extraAVPs|
      invariant 0 <= i <= |req.extraAVPs|
      invariant m == block + Foreign(Present(req.extraAVPs[..i]))
    {
      assert req.extraAVPs[..i + 1][..i] == req.extraAVPs[..i];
      ForeignPresent(req.extraAVPs[..i + 1]);
      if req.extraAVPs[i].Some? && !IsOwned(req.extraAVPs[i].value.code) {
        m := m + [req.extraAVPs[i].value];
      }
      i := i + 1;
    }
    assert req.extraAVPs[..i] == req.extraAVPs;
    ForeignTail(block, Present(req.extraAVPs));
    forall code | IsOwned(code)
      ensures WithCode(m, code) == Owned(req, code, sessionID, timestamp)
    {
      OwnedTail(block, Present(req.extraAVPs), code);
    }
    return Ok(m);
  }

  // Appends an owned AVP.
  method AddOwned(req: Request, m: seq<AVP>, a: AVP, ghost done: set<uint32>, ghost sessionID: string, ghost timestamp: int)
      returns (m': seq<AVP>, ghost done': set<uint32>)
    requires OwnedSoFar(req, m, done, sessionID, timestamp)
    requires IsOwned(a.code) && a.code !in done && Owned(req, a.code, sessionID, timestamp) == [a]
    ensures m' == m + [a] && done' == done + {a.code}
    ensures OwnedSoFar(req, m', done', sessionID, timestamp)
  {
    hide OwnedSoFar, Owned, IsOwned;
    OwnedAdded(req, m, a, a.code, done, sessionID, timestamp);
    m', done' := m + [a], done + {a.code};
  }

  // The AVPs that identify the session and its ends.
  method AddressingBlock(req: Request, sessionID: string, ghost timestamp: int) returns (m: seq<AVP>, ghost done: set<uint32>)
    ensures OwnedSoFar(req, m, done, sessionID, timestamp)
    ensures done == {SESSION_ID, ORIGIN_HOST, ORIGIN_REALM, DESTINATION_REALM, DESTINATION_HOST}
    ensures |m| == (if Blank(req.destinationHost) then 4 else 5) && m[0].code == SESSION_ID
  {
    hide OwnedSoFar, Blank;
    NothingOwned(req, sessionID, timestamp);
    m, done := [], {};
    m, done := AddOwned(req, m, TextAVP(SESSION_ID, "UTF8String", sessionID), done, sessionID, timestamp);
    m, done := AddOwned(req, m, TextAVP(ORIGIN_HOST, "DiameterIdentity", req.originHost), done, sessionID, timestamp);
    m, done := AddOwned(req, m, TextAVP(ORIGIN_REALM, "DiameterIdentity", req.originRealm), done, sessionID, timestamp);
    m, done := AddOwned(req, m, TextAVP(DESTINATION_REALM, "DiameterIdentity", req.destinationRealm), done, sessionID, timestamp);
    if Blank(req.destinationHost) {
      OwnedAbsent(req, m, DESTINATION_HOST, done, sessionID, timestamp);
      done := done + {DESTINATION_HOST};
    } else {
      m, done := AddOwned(req, m, TextAVP(DESTINATION_HOST, "DiameterIdentity", req.destinationHost), done, sessionID, timestamp);
    }
  }

  // The credit-control AVPs.
  method ChargingBlock(req: Request, addressing: seq<AVP>, ghost done: set<uint32>, ghost sessionID: string, timestamp: int)
      returns (m: seq<AVP>, ghost done': set<uint32>)
    requires INITIAL <= req.requestType <= EVENT && OwnedSoFar(req, addressing, done, sessionID, timestamp)
    requires done == {SESSION_ID, ORIGIN_HOST, ORIGIN_REALM, DESTINATION_REALM, DESTINATION_HOST}
    ensures OwnedSoFar(req, m, done', sessionID, timestamp) && addressing <= m && |m| == |addressing| + 5
    ensures done' == done + {AUTH_APPLICATION_ID, SERVICE_CONTEXT_ID, CC_REQUEST_TYPE, CC_REQUEST_NUMBER, EVENT_TIMESTAMP}
  {
    hide OwnedSoFar, Blank, Instant;
    var auth := if req.authApplicationID == 0 then CREDIT_CONTROL else req.authApplicationID;
    m, done' := addressing, done;
    m, done' := AddOwned(req, m, LeafAVP(AUTH_APPLICATION_ID, 0, Unsigned32(auth)), done', sessionID, timestamp);
    m, done' := AddOwned(req, m, TextAVP(SERVICE_CONTEXT_ID, "UTF8String", req.serviceContextID), done', sessionID, timestamp);
    m, done' := AddOwned(req, m, LeafAVP(CC_REQUEST_TYPE, 0, Enumerated(req.requestType)), done', sessionID, timestamp);
    m, done' := AddOwned(req, m, LeafAVP(CC_REQUEST_NUMBER, 0, Unsigned32(req.requestNumber)), done', sessionID, timestamp);
    m, done' := AddOwned(req, m, LeafAVP(EVENT_TIMESTAMP, 0, Encoded("Time", Instant(timestamp))), done', sessionID, timestamp);
  }

  /** The AVPs of the request's own fields, in the order of RFC 4006, section 3.1. */
  method CanonicalBlock(req: Request, sessionID: string, timestamp: int) returns (m: seq<AVP>)
    requires INITIAL <= req.requestType <= EVENT
    ensures OwnedSoFar(req, m, BUILDER_OWNED, sessionID, timestamp)
    ensures |m| == if Blank(req.destinationHost) then 9 else 10
    ensures m[0].code == SESSION_ID
  {
    hide OwnedSoFar, Blank;
    ghost var done;
    m, done := AddressingBlock(req, sessionID, timestamp);
    m, done := ChargingBlock(req, m, done, sessionID, timestamp);
    assert done == BUILDER_OWNED;
  }

  lemma NothingForeign()
    ensures Foreign(Present([])) == []
  {
  }

  lemma NothingOwned(req: Request, sessionID: string, timestamp: int)
    ensures OwnedSoFar(req, [], {}, sessionID, timestamp)
  {
  }

  lemma AllOwned(req: Request, avps: seq<AVP>, sessionID: string, timestamp: int)
    requires OwnedSoFar(req, avps, BUILDER_OWNED, sessionID, timestamp)
    ensures Foreign(avps) == []
    ensures forall code :: IsOwned(code) ==> WithCode(avps, code) == Owned(req, code, sessionID, timestamp)
  {
  }

  // An owned AVP that the request leaves out.
  lemma OwnedAbsent(req: Request, avps: seq<AVP>, code: uint32, done: set<uint32>, sessionID: string, timestamp: int)
    requires OwnedSoFar(req, avps, done, sessionID, timestamp)
    requires code !in done && Owned(req, code, sessionID, timestamp) == []
    ensures OwnedSoFar(req, avps, done + {code}, sessionID, timestamp)
  {
    hide Owned, IsOwned, Foreign, WithCode;
  }

  lemma ForeignPresent(avps: seq<Option<AVP>>)
    requires avps != []
    ensures var last := avps[|avps| - 1];
      Foreign(Present(avps)) == Foreign(Present(avps[..|avps| - 1]))
        + (if last.Some? && !IsOwned(last.value.code) then [last.value] else [])
  {
    var init := Present(avps[..|avps| - 1]);
    if avps[|avps| - 1].Some? {
      assert Present(avps)[..|init|] == init;
    } else {
      assert Present(avps) == init;
    }
  }

  lemma {:induction false} ForeignAppend(a: seq<AVP>, b: seq<AVP>)
    ensures Foreign(a + b) == Foreign(a) + Foreign(b)
  {
    if b == [] {
      assert a + b == a;
    } else {
      assert (a + b)[..|a + b| - 1] == a + b[..|b| - 1];
      ForeignAppend(a, b[..|b| - 1]);
    }
  }

  lemma {:induction false} WithCodeAppend(a: seq<AVP>, b: seq<AVP>, code: uint32)
    ensures WithCode(a + b, code) == WithCode(a, code) + WithCode(b, code)
  {
    if b == [] {
      assert a + b == a;
    } else {
      assert (a + b)[..|a + b| - 1] == a + b[..|b| - 1];
      WithCodeAppend(a, b[..|b| - 1], code);
    }
  }

  lemma {:induction false} ForeignTwice(avps: seq<AVP>)
    ensures Foreign(Foreign(avps)) == Foreign(avps)
    ensures forall code :: IsOwned(code) ==> WithCode(Foreign(avps), code) == []
  {
    if avps != [] {
      var init, last := avps[..|avps| - 1], avps[|avps| - 1];
      ForeignTwice(init);
      if !IsOwned(last.code) {
        assert Foreign(avps)[..|Foreign(init)|] == Foreign(init);
      } else {
        assert Foreign(avps) == Foreign(init);
      }
    }
  }

  lemma ForeignTail(block: seq<AVP>, extra: seq<AVP>)
    requires Foreign(block) == []
    ensures Foreign(block + Foreign(extra)) == Foreign(extra)
  {
    ForeignAppend(block, Foreign(extra));
    ForeignTwice(extra);
  }

  lemma OwnedTail(block: seq<AVP>, extra: seq<AVP>, code: uint32)
    requires IsOwned(code)
    ensures WithCode(block + Foreign(extra), code) == WithCode(block, code)
  {
    WithCodeAppend(block, Foreign(extra), code);
    ForeignTwice(extra);
  }

  lemma WithCodeSnoc(avps: seq<AVP>, a: AVP, code: uint32)
    ensures WithCode(avps + [a], code) == WithCode(avps, code) + (if a.code == code then [a] else [])
    ensures Foreign(avps + [a]) == Foreign(avps) + (if IsOwned(a.code) then [] else [a])
  {
    assert (avps + [a])[..|avps|] == avps;
  }

  /** The owned AVPs present so far: those done, once each, and nothing else. */
  ghost predicate OwnedSoFar(req: Request, avps: seq<AVP>, done: set<uint32>, sessionID: string, timestamp: int) {
    && Foreign(avps) == []
    && forall code :: IsOwned(code) ==>
         WithCode(avps, code) == if code in done then Owned(req, code, sessionID, timestamp) else []
  }

  lemma OwnedAdded(req: Request, avps: seq<AVP>, a: AVP, code: uint32, done: set<uint32>, sessionID: string, timestamp: int)
    requires OwnedSoFar(req, avps, done, sessionID, timestamp)
    requires IsOwned(code) && code !in done
    requires a.code == code && Owned(req, code, sessionID, timestamp) == [a]
    ensures OwnedSoFar(req, avps + [a], done + {code}, sessionID, timestamp)
  {
    hide Owned, IsOwned, Foreign, WithCode;
    WithCodeSnoc(avps, a, code);
    forall c | IsOwned(c)
      ensures WithCode(avps + [a], c) == if c in done + {code} then Owned(req, c, sessionID, timestamp) else []
    {
      WithCodeSnoc(avps, a, c);
    }
  }
}
