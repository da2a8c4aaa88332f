/** Decoding of the credit-control part of an answer: grants, validity and
    final-unit indications, per message and per MSCC group (RFC 4006). */
module Decoder {
  import opened Text
  import opened Template
  import opened Session

  // AVP codes of RFC 4006, section 8, and RFC 6733.
  const RESULT_CODE: uint32 := 268
  const VALIDITY_TIME: uint32 := 448
  const GRANTED_SERVICE_UNIT: uint32 := 431
  const FINAL_UNIT_INDICATION: uint32 := 430
  const FINAL_UNIT_ACTION: uint32 := 449

  const NO_FUI: int32 := -1

  // ---- occurrences ----------------------------------------------------

  predicate IsU32(a: AVP, code: uint32) {
    a.code == code && a.LeafAVP? && a.data.Unsigned32?
  }

  predicate IsU64(a: AVP, code: uint32) {
    a.code == code && a.LeafAVP? && a.data.Unsigned64?
  }

  predicate IsEnum(a: AVP, code: uint32) {
    a.code == code && a.LeafAVP? && a.data.Enumerated?
  }

  // The last well-typed occurrence of a code decides.
  function LastU32(avps: seq<AVP>, code: uint32, otherwise: uint32): uint32 {
    if avps == [] then otherwise
    else
      var last := avps[|avps| - 1];
      if IsU32(last, code) then last.data.u32 else LastU32(avps[..|avps| - 1], code, otherwise)
  }

  function LastU64(avps: seq<AVP>, code: uint32, otherwise: uint64): uint64 {
    if avps == [] then otherwise
    else
      var last := avps[|avps| - 1];
      if IsU64(last, code) then last.data.u64 else LastU64(avps[..|avps| - 1], code, otherwise)
  }

  function LastGroup(avps: seq<AVP>, code: uint32): Option<seq<AVP>> {
    if avps == [] then None
    else
      var last := avps[|avps| - 1];
      if last.code == code && last.GroupedAVP? then Some(last.avps) else LastGroup(avps[..|avps| - 1], code)
  }

  // Here the first occurrence decides.
  function FirstEnum(avps: seq<AVP>, code: uint32, otherwise: int32): int32 {
    if avps == [] then otherwise
    else if IsEnum(avps[0], code) then avps[0].data.e
    else FirstEnum(avps[1..], code, otherwise)
  }

  // ---- meaning --------------------------------------------------------

  datatype Grant = Grant(time: uint32, octets: uint64)

  function GrantOf(gsu: Option<seq<AVP>>): Grant {
    match gsu
    case None => Grant(0, 0)
    case Some(avps) => Grant(LastU32(avps, CC_TIME, 0), LastU64(avps, CC_TOTAL_OCTETS, 0))
  }

  function ActionOf(fui: Option<seq<AVP>>): int32 {
    match fui
    case None => NO_FUI
    case Some(avps) => FirstEnum(avps, FINAL_UNIT_ACTION, NO_FUI)
  }

  /** What an MSCC group says. */
  function BlockOf(avps: seq<AVP>): MSCCBlock {
    var grant := GrantOf(LastGroup(avps, GRANTED_SERVICE_UNIT));
    MSCCBlock(
      LastU32(avps, SERVICE_IDENTIFIER, 0),
      LastU32(avps, RATING_GROUP, 0),
      LastU32(avps, RESULT_CODE, 0),
      grant.time,
      grant.octets,
      LastU32(avps, VALIDITY_TIME, 0),
      ActionOf(LastGroup(avps, FINAL_UNIT_INDICATION)))
  }

  function BlocksOf(found: seq<AVP>): seq<MSCCBlock> {
    if found == [] then []
    else
      var last := found[|found| - 1];
      BlocksOf(found[..|found| - 1]) + (if last.GroupedAVP? then [BlockOf(last.avps)] else [])
  }

  datatype TopLevel = TopLevel(grant: Grant, validityTime: uint32, fuiAction: int32)

  function Unvendored(avps: seq<AVP>): seq<AVP> {
    if avps == [] then []
    else Unvendored(avps[..|avps| - 1]) + (if avps[|avps| - 1].vendor == 0 then [avps[|avps| - 1]] else [])
  }

  /** What the message says at its top level. */
  function TopLevelOf(avps: seq<AVP>): TopLevel {
    var own := Unvendored(avps);
    TopLevel(GrantOf(LastGroup(own, GRANTED_SERVICE_UNIT)),
             LastU32(own, VALIDITY_TIME, 0),
             ActionOf(LastGroup(own, FINAL_UNIT_INDICATION)))
  }

  // ---- decoding -------------------------------------------------------

  method ReadGrantedUnits(avps: seq<AVP>) returns (time: uint32, octets: uint64)
    ensures Grant(time, octets) == GrantOf(Some(avps))
  {
    time, octets := 0, 0;
    var i := 0;
    while i < |avps|
      invariant 0 <= i <= |avps| && Grant(time, octets) == GrantOf(Some(avps[..i]))
    {
      assert avps[..i + 1][..i] == avps[..i];
      var sub := avps[i];
      if IsU32(sub, CC_TIME) {
        time := sub.data.u32;
      } else if IsU64(sub, CC_TOTAL_OCTETS) {
        octets := sub.data.u64;
      }
      i := i + 1;
    }
    assert avps[..i] == avps;
  }

  method ReadFUIAction(avps: seq<AVP>) returns (action: int32)
    ensures action == ActionOf(Some(avps))
  {
    var i := 0;
    while i < |avps|
      invariant 0 <= i <= |avps|
      invariant FirstEnum(avps[i..], FINAL_UNIT_ACTION, NO_FUI) == FirstEnum(avps, FINAL_UNIT_ACTION, NO_FUI)
    {
      assert avps[i..][1..] == avps[i + 1..];
      if IsEnum(avps[i], FINAL_UNIT_ACTION) {
        return avps[i].data.e;
      }
      i := i + 1;
    }
    return NO_FUI;
  }

  method DecodeBlock(avps: seq<AVP>) returns (block: MSCCBlock)
    ensures block == BlockOf(avps)
  {
    hide GrantOf, ActionOf;
    block := MSCCBlock(0, 0, 0, 0, 0, 0, NO_FUI);
    NothingGranted();
    var i := 0;
    while i < |avps|
      invariant 0 <= i <= |avps| && block == BlockOf(avps[..i])
    {
      assert avps[..i + 1][..i] == avps[..i];
      var sub := avps[i];
      if IsU32(sub, SERVICE_IDENTIFIER) {
        block := block.(serviceIdentifier := sub.data.u32);
      } else if IsU32(sub, RATING_GROUP) {
        block := block.(ratingGroup := sub.data.u32);
      } else if IsU32(sub, RESULT_CODE) {
        block := block.(resultCode := sub.data.u32);
      } else if IsU32(sub, VALIDITY_TIME) {
        block := block.(validityTime := sub.data.u32);
      } else if sub.code == GRANTED_SERVICE_UNIT && sub.GroupedAVP? {
        var time, octets := ReadGrantedUnits(sub.avps);
        block := block.(grantedTime := time, grantedTotalOctets := octets);
      } else if sub.code == FINAL_UNIT_INDICATION && sub.GroupedAVP? {
        var action := ReadFUIAction(sub.avps);
        block := block.(fuiAction := action);
      }
      i := i + 1;
    }
    assert avps[..i] == avps;
  }

  lemma NothingGranted()
    ensures GrantOf(None) == Grant(0, 0) && ActionOf(None) == NO_FUI
  {
  }

  /** One block per MSCC group found, in message order. */
  method DecodeMSCCs(found: seq<AVP>) returns (blocks: seq<MSCCBlock>)
    ensures blocks == BlocksOf(found)
  {
    hide BlockOf;
    blocks := [];
    var i := 0;
    while i < |found|
      invariant 0 <= i <= |found| && blocks == BlocksOf(found[..i])
    {
      assert found[..i + 1][..i] == found[..i];
      if found[i].GroupedAVP? {
        var block := DecodeBlock(found[i].avps);
        blocks := blocks + [block];
      }
      i := i + 1;
    }
    assert found[..i] == found;
  }

  /** The top-level grant, validity and final-unit action of a message. */
  method DecodeTopLevel(avps: seq<AVP>) returns (root: TopLevel)
    ensures root == TopLevelOf(avps)
  {
    hide GrantOf, ActionOf, Unvendored, LastU32, LastGroup;
    root := TopLevel(Grant(0, 0), 0, NO_FUI);
    NothingGranted();
    Nothing();
    var i := 0;
    while i < |avps|
      invariant 0 <= i <= |avps| && root == TopLevelOf(avps[..i])
    {
      assert avps[..i + 1][..i] == avps[..i];
      var a := avps[i];
      UnvendoredExtend(avps[..i], a);
      BlockExtend(Unvendored(avps[..i]), a);
      assert avps[..i + 1] == avps[..i] + [a];
      i := i + 1;
      if a.vendor != 0 {
        continue;
      }
      if a.code == GRANTED_SERVICE_UNIT && a.GroupedAVP? {
        var time, octets := ReadGrantedUnits(a.avps);
        root := root.(grant := Grant(time, octets));
      } else if IsU32(a, VALIDITY_TIME) {
        root := root.(validityTime := a.data.u32);
      } else if a.code == FINAL_UNIT_INDICATION && a.GroupedAVP? {
        var action := ReadFUIAction(a.avps);
        root := root.(fuiAction := action);
      }
    }
    assert avps[..i] == avps;
  }

  lemma UnvendoredExtend(avps: seq<AVP>, a: AVP)
    ensures Unvendored(avps + [a]) == if a.vendor == 0 then Unvendored(avps) + [a] else Unvendored(avps)
  {
    assert (avps + [a])[..|avps|] == avps;
  }

  // ---- round trip -----------------------------------------------------

  function U32(code: uint32, v: uint32): AVP {
    LeafAVP(code, 0, Unsigned32(v))
  }

  /** A granting block as an MSCC group. */
  function EncodeBlock(b: MSCCBlock): seq<AVP> {
    [GroupedAVP(GRANTED_SERVICE_UNIT, 0,
                [U32(CC_TIME, b.grantedTime), LeafAVP(CC_TOTAL_OCTETS, 0, Unsigned64(b.grantedTotalOctets))]),
     U32(SERVICE_IDENTIFIER, b.serviceIdentifier),
     U32(RATING_GROUP, b.ratingGroup),
     U32(VALIDITY_TIME, b.validityTime),
     U32(RESULT_CODE, b.resultCode)]
    + (if b.fuiAction == NO_FUI then []
       else [GroupedAVP(FINAL_UNIT_INDICATION, 0, [LeafAVP(FINAL_UNIT_ACTION, 0, Enumerated(b.fuiAction))])])
  }

  function EncodeBlocks(blocks: seq<MSCCBlock>): (r: seq<AVP>)
    ensures |r| == |blocks|
  {
    seq(|blocks|, i requires 0 <= i < |blocks| =>
      GroupedAVP(MULTIPLE_SERVICES_CREDIT_CONTROL, 0, EncodeBlock(blocks[i])))
  }

  lemma BlockExtend(avps: seq<AVP>, a: AVP)
    ensures forall c, d :: LastU32(avps + [a], c, d) == if IsU32(a, c) then a.data.u32 else LastU32(avps, c, d)
    ensures forall c, d :: LastU64(avps + [a], c, d) == if IsU64(a, c) then a.data.u64 else LastU64(avps, c, d)
    ensures forall c :: LastGroup(avps + [a], c) == if a.code == c && a.GroupedAVP? then Some(a.avps) else LastGroup(avps, c)
  {
    assert (avps + [a])[..|avps|] == avps;
  }

  lemma EncodedBlock(b: MSCCBlock)
    ensures BlockOf(EncodeBlock(b)) == b
  {
    hide LastU32, LastU64, LastGroup;
    var gsu := [U32(CC_TIME, b.grantedTime)];
    var octets := LeafAVP(CC_TOTAL_OCTETS, 0, Unsigned64(b.grantedTotalOctets));
    Nothing();
    BlockExtend([], gsu[0]);
    BlockExtend(gsu, octets);
    assert [] + [gsu[0]] == gsu && gsu + [octets] == [gsu[0], octets];
    assert GrantOf(Some([gsu[0], octets])) == Grant(b.grantedTime, b.grantedTotalOctets);
    var m0 := [GroupedAVP(GRANTED_SERVICE_UNIT, 0, [gsu[0], octets])];
    var m1 := m0 + [U32(SERVICE_IDENTIFIER, b.serviceIdentifier)];
    var m2 := m1 + [U32(RATING_GROUP, b.ratingGroup)];
    var m3 := m2 + [U32(VALIDITY_TIME, b.validityTime)];
    var m4 := m3 + [U32(RESULT_CODE, b.resultCode)];
    assert [] + [m0[0]] == m0;
    BlockExtend([], m0[0]);
    BlockExtend(m0, U32(SERVICE_IDENTIFIER, b.serviceIdentifier));
    BlockExtend(m1, U32(RATING_GROUP, b.ratingGroup));
    BlockExtend(m2, U32(VALIDITY_TIME, b.validityTime));
    BlockExtend(m3, U32(RESULT_CODE, b.resultCode));
    if b.fuiAction == NO_FUI {
      assert EncodeBlock(b) == m4;
    } else {
      var fui := GroupedAVP(FINAL_UNIT_INDICATION, 0, [LeafAVP(FINAL_UNIT_ACTION, 0, Enumerated(b.fuiAction))]);
      BlockExtend(m4, fui);
      assert EncodeBlock(b) == m4 + [fui];
    }
  }

  lemma Nothing()
    ensures forall c, d :: LastU32([], c, d) == d
    ensures forall c, d :: LastU64([], c, d) == d
    ensures forall c :: LastGroup([], c) == None
    ensures Unvendored([]) == []
  {
  }

  /** Blocks written as MSCC groups decode to themselves, one by one and in order. */
  lemma {:induction false} DecodesEncoded(blocks: seq<MSCCBlock>)
    ensures BlocksOf(EncodeBlocks(blocks)) == blocks
  {
    hide BlockOf, EncodeBlock;
    if blocks != [] {
      var n := |blocks| - 1;
      DecodesEncoded(blocks[..n]);
      EncodedBlock(blocks[n]);
      assert EncodeBlocks(blocks)[..n] == EncodeBlocks(blocks[..n]);
    }
  }

  // ---- what does not count --------------------------------------------

  lemma {:induction false} OthersIgnored(a: seq<AVP>, x: AVP, b: seq<AVP>, c: uint32)
    requires x.code != c
    ensures forall d :: LastU32(a + [x] + b, c, d) == LastU32(a + b, c, d)
    ensures forall d :: LastU64(a + [x] + b, c, d) == LastU64(a + b, c, d)
    ensures LastGroup(a + [x] + b, c) == LastGroup(a + b, c)
    decreases |b|
  {
    if b == [] {
      assert a + [x] + b == a + [x] && a + b == a;
      BlockExtend(a, x);
    } else {
      var n := |b| - 1;
      OthersIgnored(a, x, b[..n], c);
      assert a + [x] + b == (a + [x] + b[..n]) + [b[n]];
      assert a + b == (a + b[..n]) + [b[n]];
      BlockExtend(a + [x] + b[..n], b[n]);
      BlockExtend(a + b[..n], b[n]);
    }
  }

  /** A grant in any other unit, CC-Service-Specific-Units included, is not read. */
  lemma OtherUnitsUnread(a: seq<AVP>, x: AVP, b: seq<AVP>)
    requires x.code != CC_TIME && x.code != CC_TOTAL_OCTETS
    ensures GrantOf(Some(a + [x] + b)) == GrantOf(Some(a + b))
  {
    hide LastU32, LastU64, LastGroup;
    OthersIgnored(a, x, b, CC_TIME);
    OthersIgnored(a, x, b, CC_TOTAL_OCTETS);
  }

  lemma {:induction false} UnvendoredConcat(a: seq<AVP>, b: seq<AVP>)
    ensures Unvendored(a + b) == Unvendored(a) + Unvendored(b)
    decreases |b|
  {
    hide Unvendored;
    if b == [] {
      assert a + b == a;
      Nothing();
    } else {
      var n := |b| - 1;
      UnvendoredConcat(a, b[..n]);
      assert a + b == (a + b[..n]) + [b[n]] && b == b[..n] + [b[n]];
      UnvendoredExtend(a + b[..n], b[n]);
      UnvendoredExtend(b[..n], b[n]);
    }
  }

  /** Validity-Time, grants and final units inside an MSCC group are never
      promoted to the message: the group does not touch the top level. */
  lemma BlocksNotPromoted(a: seq<AVP>, group: AVP, b: seq<AVP>)
    requires group.code == MULTIPLE_SERVICES_CREDIT_CONTROL
    ensures TopLevelOf(a + [group] + b) == TopLevelOf(a + b)
  {
    hide LastU32, LastU64, LastGroup, Unvendored;
    var ua, ub := Unvendored(a), Unvendored(b);
    UnvendoredConcat(a + [group], b);
    UnvendoredExtend(a, group);
    UnvendoredConcat(a, b);
    if group.vendor == 0 {
      OthersIgnored(ua, group, ub, GRANTED_SERVICE_UNIT);
      OthersIgnored(ua, group, ub, VALIDITY_TIME);
      OthersIgnored(ua, group, ub, FINAL_UNIT_INDICATION);
    }
  }
}
