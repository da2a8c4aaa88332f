/** What rendering guarantees: the AVP tree mirrors the template tree, and a
    usage report never exceeds the grant it is made against. */
module TemplateProperties {
  import opened Text
  import opened Values
  import opened Template

  // ---- the tree -------------------------------------------------------

  // A path names a node by the child index taken at each level.
  predicate IsNodePath(nodes: seq<AVPNode>, path: seq<nat>)
    decreases |path|
  {
    && path != []
    && path[0] < |nodes|
    && (|path| > 1 ==> IsNodePath(nodes[path[0]].avps, path[1..]))
  }

  function NodeAt(nodes: seq<AVPNode>, path: seq<nat>): AVPNode
    requires IsNodePath(nodes, path)
    decreases |path|
  {
    if |path| == 1 then nodes[path[0]] else NodeAt(nodes[path[0]].avps, path[1..])
  }

  predicate IsAVPPath(avps: seq<AVP>, path: seq<nat>)
    decreases |path|
  {
    && path != []
    && path[0] < |avps|
    && (|path| > 1 ==> avps[path[0]].GroupedAVP? && IsAVPPath(avps[path[0]].avps, path[1..]))
  }

  function AVPAt(avps: seq<AVP>, path: seq<nat>): AVP
    requires IsAVPPath(avps, path)
    decreases |path|
  {
    if |path| == 1 then avps[path[0]] else AVPAt(avps[path[0]].avps, path[1..])
  }

  /** The vendor ids met on the way down a path, the node's own last. */
  function VendorsAlong(nodes: seq<AVPNode>, path: seq<nat>): seq<int64>
    requires IsNodePath(nodes, path)
    decreases |path|
  {
    [nodes[path[0]].vendorID]
    + (if |path| == 1 then [] else VendorsAlong(nodes[path[0]].avps, path[1..]))
  }

  function LastNonZero(ids: seq<int64>, otherwise: int64): int64 {
    if ids == [] then otherwise
    else if ids[|ids| - 1] != 0 then ids[|ids| - 1]
    else LastNonZero(ids[..|ids| - 1], otherwise)
  }

  lemma {:induction false} LastNonZeroSplit(first: int64, rest: seq<int64>, otherwise: int64)
    ensures LastNonZero([first] + rest, otherwise)
         == LastNonZero(rest, if first != 0 then first else otherwise)
  {
    if rest == [] {
      assert [first] + rest == [first];
      assert [first][..0] == [];
    } else {
      var all := [first] + rest;
      assert all[..|all| - 1] == [first] + rest[..|rest| - 1];
      LastNonZeroSplit(first, rest[..|rest| - 1], otherwise);
    }
  }

  lemma {:induction false} BuildAVPsAt(nodes: seq<AVPNode>, values: Vars, codec: Codec, inherited: int64, i: nat)
    requires i < |nodes| && BuildAVPs(nodes, values, codec, inherited).Ok?
    ensures BuildAVP(nodes[i], values, codec, inherited)
         == Ok(BuildAVPs(nodes, values, codec, inherited).value[i])
    decreases i
  {
    if i > 0 {
      BuildAVPsAt(nodes[1..], values, codec, inherited, i - 1);
    }
  }

  /** Same shape, same order, and every AVP carries the vendor id of its
      nearest self-or-ancestor that declares one (narrowed to 32 bits). */
  lemma {:induction false} RenderedTree(nodes: seq<AVPNode>, values: Vars, codec: Codec, inherited: int64, path: seq<nat>)
    requires BuildAVPs(nodes, values, codec, inherited).Ok?
    ensures var avps := BuildAVPs(nodes, values, codec, inherited).value;
      && |avps| == |nodes|
      && (IsNodePath(nodes, path) <==> IsAVPPath(avps, path))
      && (IsNodePath(nodes, path) ==>
            var node, avp := NodeAt(nodes, path), AVPAt(avps, path);
            && avp.vendor == Wrap32(LastNonZero(VendorsAlong(nodes, path), inherited))
            && (node.code != 0 ==> avp.code == node.code)
            && (node.avps != [] ==> avp.GroupedAVP?)
            && (avp.GroupedAVP? ==> |avp.avps| == |node.avps|))
    decreases |path|
  {
    var avps := BuildAVPs(nodes, values, codec, inherited).value;
    if path != [] && path[0] < |nodes| {
      var node := nodes[path[0]];
      BuildAVPsAt(nodes, values, codec, inherited, path[0]);
      var vendor := if node.vendorID != 0 then node.vendorID else inherited;
      if |path| == 1 {
        LastNonZeroSplit(node.vendorID, [], inherited);
        assert [node.vendorID] + [] == VendorsAlong(nodes, path);
      } else if node.avps != [] {
        RenderedTree(node.avps, values, codec, vendor, path[1..]);
        if IsNodePath(nodes, path) {
          LastNonZeroSplit(node.vendorID, VendorsAlong(node.avps, path[1..]), inherited);
        }
      }
    }
  }

  // ---- placeholders ---------------------------------------------------

  predicate IsName(name: string) {
    name != "" && IsIdentStart(name[0]) && forall i :: 0 <= i < |name| ==> IsIdent(name[i])
  }

  function Token(name: string): string {
    "{{" + name + "}}"
  }

  lemma {:induction false} IdentLengthIs(s: string, n: nat)
    requires n <= |s| && (forall i :: 0 <= i < n ==> IsIdent(s[i])) && (n < |s| ==> !IsIdent(s[n]))
    ensures IdentLength(s) == n
  {
    if n > 0 {
      IdentLengthIs(s[1..], n - 1);
    }
  }

  lemma TokenRead(name: string, rest: string)
    requires IsName(name)
    ensures TokenAtStart(Token(name) + rest) == Some(name)
  {
    var s := Token(name) + rest;
    assert s[2..][..|name|] == name && s[|name| + 2] == '}' && s[|name| + 3] == '}';
    assert s[2] == name[0];
    assert forall i :: 0 <= i < |name| ==> s[2..][i] == name[i];
    assert s[2..][|name|] == '}' && !IsIdent('}');
    IdentLengthIs(s[2..], |name|);
    assert s[2..|name| + 2] == name;
  }

  /** A value that is one token keeps its type. */
  lemma TokenKeepsType(name: string, values: Vars, show: Value -> string)
    requires IsName(name)
    ensures ResolveValue(Token(name), values, show)
         == if name in values then Ok(values[name]) else Err(UnresolvedPlaceholder(name))
  {
    TokenRead(name, "");
    assert Token(name) + "" == Token(name);
  }

  function Before(prefix: string, rest: Result<string, Template.Error>): Result<string, Template.Error> {
    match rest case Ok(text) => Ok(prefix + text) case Err(e) => Err(e)
  }

  /** A token in front of more text is replaced by the text of its value, and
      plain text in front is kept. */
  lemma TokenSubstituted(name: string, rest: string, values: Vars, show: Value -> string)
    requires IsName(name) && name in values
    ensures Substitute(Token(name) + rest, values, show) == Before(show(values[name]), Substitute(rest, values, show))
  {
    TokenRead(name, rest);
    assert (Token(name) + rest)[|name| + 4..] == rest;
  }

  lemma {:induction false} TextSubstituted(text: string, rest: string, values: Vars, show: Value -> string)
    requires '{' !in text
    ensures Substitute(text + rest, values, show) == Before(text, Substitute(rest, values, show))
  {
    if text == "" {
      assert text + rest == rest;
      NothingBefore(Substitute(rest, values, show));
    } else {
      hide Before, IsIdentStart, IdentLength;
      assert text[0] in text;
      TextSubstituted(text[1..], rest, values, show);
      assert (text + rest)[1..] == text[1..] + rest && (text + rest)[0] == text[0];
      TextInFront([text[0]], text[1..], Substitute(rest, values, show));
      assert [text[0]] + text[1..] == text;
    }
  }

  lemma NothingBefore(r: Result<string, Template.Error>)
    ensures Before("", r) == r
  {
    if r.Ok? {
      assert "" + r.value == r.value;
    }
  }

  lemma TextInFront(a: string, b: string, r: Result<string, Template.Error>)
    ensures Before(a, Before(b, r)) == Before(a + b, r)
  {
    if r.Ok? {
      assert a + (b + r.value) == (a + b) + r.value;
    }
  }

  // ---- usage reports --------------------------------------------------

  /** The quantity a placeholder resolves to; 0 when it resolves to nothing
      that counts as one. */
  function Amount(placeholder: string, values: Vars, show: Value -> string): nat {
    if placeholder == "" then 0
    else match ResolveValue(placeholder, values, show)
      case Ok(v) => (match ToUint64(v) case Some(n) => n case None => 0)
      case Err(_) => 0
  }

  function Usage(block: MSCCTemplate, values: Vars, show: Value -> string): nat {
    Amount(block.used, values, show)
  }

  /** What may be reported for `used` units against a grant: nothing unless
      both are positive, and never more than the grant. */
  function Allowed(used: nat, granted: nat): (r: Option<nat>)
    ensures r.Some? <==> used > 0 && granted > 0
    ensures r.Some? ==> 0 < r.value <= granted && r.value <= used && r.value in {used, granted}
  {
    if used > 0 && granted > 0 then Some(Min(used, granted)) else None
  }

  /** The quantities carried by the Used-Service-Unit AVPs of a list, each
      with the code of the AVP that carries it. */
  function Reports(avps: seq<AVP>): seq<(uint32, nat)> {
    if avps == [] then []
    else
      (if avps[0].code == USED_SERVICE_UNIT && avps[0].GroupedAVP? then Quantities(avps[0].avps) else [])
      + Reports(avps[1..])
  }

  function Quantities(avps: seq<AVP>): seq<(uint32, nat)> {
    if avps == [] then []
    else
      (match avps[0]
       case LeafAVP(code, _, Unsigned32(n)) => [(code, n as nat)]
       case LeafAVP(code, _, Unsigned64(n)) => [(code, n as nat)]
       case _ => [])
      + Quantities(avps[1..])
  }

  lemma {:induction false} ReportsAppend(a: seq<AVP>, b: seq<AVP>)
    ensures Reports(a + b) == Reports(a) + Reports(b)
  {
    if a == [] {
      assert a + b == b;
    } else {
      assert (a + b)[0] == a[0] && (a + b)[1..] == a[1..] + b;
      ReportsAppend(a[1..], b);
    }
  }

  function ReportOf(unitType: UnitType, amount: Option<nat>): seq<(uint32, nat)> {
    match amount
    case None => []
    case Some(n) => [(InnerUnitCode(unitType), n)]
  }

  predicate Metered(unitType: UnitType) {
    unitType.Octet? || unitType.Time?
  }

  // The int64 the session stores for a 64-bit grant.
  function StoredGrant(granted: uint64): Value {
    Int64(Wrap64(granted))
  }

  lemma ReportOfOne(a: AVP)
    requires a.code == USED_SERVICE_UNIT && a.GroupedAVP?
    ensures Reports([a]) == Quantities(a.avps)
  {
    assert [a][1..] == [];
    assert Reports([a]) == Quantities(a.avps) + Reports([]);
  }

  lemma UnitReport(unitType: UnitType, quantity: Value)
    requires Metered(unitType)
    requires ToUint64(quantity).Some?
    requires unitType.Time? ==> ToUint64(quantity).value < TWO_32
    ensures BuildServiceUnit(USED_SERVICE_UNIT, unitType, quantity).Ok?
    ensures Reports([BuildServiceUnit(USED_SERVICE_UNIT, unitType, quantity).value])
         == [(InnerUnitCode(unitType), ToUint64(quantity).value as nat)]
  {
    hide ToUint64, ToUint32, Reports;
    if unitType.Time? {
      NarrowingKeeps(quantity, ToUint64(quantity).value);
    }
    var a := BuildServiceUnit(USED_SERVICE_UNIT, unitType, quantity).value;
    assert Quantities(a.avps) == [(InnerUnitCode(unitType), ToUint64(quantity).value as nat)] + Quantities(a.avps[1..]);
    ReportOfOne(a);
  }

  // Only the USU half of a service-unit pair reports usage.
  lemma PairReport(rsu: Emission, usu: Emission, unitType: UnitType)
    requires Metered(unitType)
    requires BuildIfEmitted(REQUESTED_SERVICE_UNIT, unitType, rsu).Ok?
    requires usu.Emit? ==> ToUint64(usu.quantity).Some?
    requires usu.Emit? && unitType.Time? ==> ToUint64(usu.quantity).value < TWO_32
    ensures BuildIfEmitted(USED_SERVICE_UNIT, unitType, usu).Ok?
    ensures Reports(BuildIfEmitted(REQUESTED_SERVICE_UNIT, unitType, rsu).value
                    + BuildIfEmitted(USED_SERVICE_UNIT, unitType, usu).value)
         == ReportOf(unitType, if usu.Emit? then Some(ToUint64(usu.quantity).value) else None)
  {
    if usu.Emit? {
      UnitReport(unitType, usu.quantity);
    }
    var r := BuildIfEmitted(REQUESTED_SERVICE_UNIT, unitType, rsu).value;
    var u := BuildIfEmitted(USED_SERVICE_UNIT, unitType, usu).value;
    ReportsAppend(r, u);
    assert Reports(r) == [] by {
      if r != [] { assert r[1..] == []; }
    }
  }

  // A stored grant reads back as itself, or as no quantity at all from 2^63 on.
  lemma StoredGrantReads(granted: uint64)
    ensures ToUint64(StoredGrant(granted)) == if granted < TWO_63 then Some(granted) else None
  {
    if granted >= TWO_63 {
      assert granted % TWO_64 == granted;
    }
  }

  // The quantity left after the cap, when the grant is stored as an int64.
  lemma CapReport(quantity: Value, key: string, values: Vars, granted: uint64)
    requires ToUint64(quantity).Some? && ToUint64(quantity).value > 0
    requires key in values && values[key] == StoredGrant(granted)
    ensures var used := ToUint64(quantity).value;
      var capped := CapToGrant(quantity, key, values);
      && (capped.Emit? ==> ToUint64(capped.quantity).Some?)
      && (granted < TWO_63 ==>
            (if capped.Emit? then Some(ToUint64(capped.quantity).value as nat) else None) == Allowed(used, granted))
      && (granted >= TWO_63 ==> capped == Emit(quantity))
  {
    hide ParseUint, StoredGrant;
    StoredGrantReads(granted);
  }

  /** One service of an UPDATE or TERMINATE, with the grant stored under its
      key. The report is the allowed amount exactly when the stored form of
      the grant is non-negative, that is when the grant is below 2^63, or when
      the usage does not exceed the grant anyway. CC-Time is never truncated. */
  lemma UnitPairReport(n: nat, block: MSCCTemplate, values: Vars, show: Value -> string,
                       unitType: UnitType, reqType: uint32, granted: uint64)
    requires reqType in {UPDATE, TERMINATE} && Metered(unitType)
    requires GrantKey(unitType, n) in values && values[GrantKey(unitType, n)] == StoredGrant(granted)
    requires unitType.Time? ==> granted < TWO_32
    requires BuildServiceUnitPair(n, block, values, show, unitType, reqType).Ok?
    ensures (Reports(BuildServiceUnitPair(n, block, values, show, unitType, reqType).value)
             == ReportOf(unitType, Allowed(Usage(block, values, show), granted)))
            <==> (granted < TWO_63 || Usage(block, values, show) <= granted)
  {
    var key := GrantKey(unitType, n);
    var used := UsedUnits(block.used, values, show, reqType).value;
    var requested := RequestedUnits(block.requested, values, show, reqType).value;
    if used.Emit? {
      CapReport(used.quantity, key, values, granted);
      PairReport(requested, CapToGrant(used.quantity, key, values), unitType);
    } else {
      PairReport(requested, used, unitType);
    }
  }

  // The AVP codes of a service-unit pair.
  function Codes(avps: seq<AVP>): (codes: seq<uint32>)
    ensures |codes| == |avps|
  {
    seq(|avps|, i requires 0 <= i < |avps| => avps[i].code)
  }

  lemma EmittedCode(code: uint32, unitType: UnitType, e: Emission)
    requires BuildIfEmitted(code, unitType, e).Ok?
    ensures Codes(BuildIfEmitted(code, unitType, e).value) == if e.Emit? then [code] else []
  {
  }

  // Unit types encoded in 32 bits.
  predicate Narrow(unitType: UnitType) {
    unitType.Time? || unitType.Units?
  }

  /** A service unit carries the quantity it was given if and only if that fits
      the unit type. */
  lemma UnitQuantity(code: uint32, unitType: UnitType, quantity: Value)
    requires BuildServiceUnit(code, unitType, quantity).Ok? && ToUint64(quantity).Some?
    ensures var unit, n := BuildServiceUnit(code, unitType, quantity).value, ToUint64(quantity).value;
      && unit.GroupedAVP? && unit.code == code
      && (Quantities(unit.avps) == [(InnerUnitCode(unitType), n as nat)] <==> !Narrow(unitType) || n < TWO_32)
  {
    hide ToUint64, ToUint32;
    var unit, n := BuildServiceUnit(code, unitType, quantity).value, ToUint64(quantity).value;
    if n < TWO_32 {
      NarrowingKeeps(quantity, n);
    }
    assert unit.avps[1..] == [];
    if Narrow(unitType) {
      var m := ToUint32(quantity).value;
      assert Quantities(unit.avps) == [(InnerUnitCode(unitType), m as nat)];
    } else {
      assert Quantities(unit.avps) == [(InnerUnitCode(unitType), n as nat)];
    }
  }

  lemma EmittedUnit(code: uint32, unitType: UnitType, e: Emission)
    requires BuildIfEmitted(code, unitType, e).Ok?
    ensures e.Suppress? ==> BuildIfEmitted(code, unitType, e).value == []
    ensures e.Emit? ==>
      && BuildServiceUnit(code, unitType, e.quantity).Ok?
      && BuildIfEmitted(code, unitType, e).value == [BuildServiceUnit(code, unitType, e.quantity).value]
  {
    hide BuildServiceUnit;
  }

  // When and what a request asks for.
  lemma RequestedRule(placeholder: string, values: Vars, show: Value -> string, reqType: uint32)
    requires INITIAL <= reqType <= EVENT && RequestedUnits(placeholder, values, show, reqType).Ok?
    ensures var e := RequestedUnits(placeholder, values, show, reqType).value;
      && (e.Emit? <==> reqType != TERMINATE && Amount(placeholder, values, show) > 0)
      && (e.Emit? ==> ToUint64(e.quantity) == Some(Amount(placeholder, values, show)))
  {
    hide ToUint64, ResolveValue;
  }

  lemma UsedRule(placeholder: string, values: Vars, show: Value -> string, reqType: uint32)
    requires INITIAL <= reqType <= EVENT && UsedUnits(placeholder, values, show, reqType).Ok?
    ensures var e := UsedUnits(placeholder, values, show, reqType).value;
      && (e.Emit? <==> reqType != INITIAL && Amount(placeholder, values, show) > 0)
      && (e.Emit? ==> ToUint64(e.quantity) == Some(Amount(placeholder, values, show)))
  {
    hide ToUint64, ResolveValue;
  }

  /** Which service units a request carries: units are requested when the
      requested quantity is positive, except on TERMINATE, and come before the
      units used, which an INITIAL never carries. The quantity requested is
      the resolved one if and only if it fits the unit type. */
  lemma ServiceUnitRules(n: nat, block: MSCCTemplate, values: Vars, show: Value -> string, unitType: UnitType, reqType: uint32)
    requires INITIAL <= reqType <= EVENT
    requires BuildServiceUnitPair(n, block, values, show, unitType, reqType).Ok?
    ensures var pair := BuildServiceUnitPair(n, block, values, show, unitType, reqType).value;
      var codes, wanted := Codes(pair), Amount(block.requested, values, show);
      && (REQUESTED_SERVICE_UNIT in codes <==> reqType != TERMINATE && wanted > 0)
      && (USED_SERVICE_UNIT in codes ==> reqType != INITIAL && Usage(block, values, show) > 0)
      && (codes == [] || codes == [REQUESTED_SERVICE_UNIT] || codes == [USED_SERVICE_UNIT]
          || codes == [REQUESTED_SERVICE_UNIT, USED_SERVICE_UNIT])
      && (REQUESTED_SERVICE_UNIT in codes ==>
            && pair[0].GroupedAVP?
            && (Quantities(pair[0].avps) == [(InnerUnitCode(unitType), wanted)] <==> !Narrow(unitType) || wanted < TWO_32))
  {
    hide ToUint64, ResolveValue, BuildIfEmitted, BuildServiceUnit, RequestedUnits, UsedUnits, CapToGrant, Amount, Quantities;
    var requested := RequestedUnits(block.requested, values, show, reqType).value;
    var used := UsedUnits(block.used, values, show, reqType).value;
    var capped :=
      if used.Emit? && reqType != EVENT then CapToGrant(used.quantity, GrantKey(unitType, n), values) else used;
    RequestedRule(block.requested, values, show, reqType);
    UsedRule(block.used, values, show, reqType);
    EmittedCode(REQUESTED_SERVICE_UNIT, unitType, requested);
    EmittedCode(USED_SERVICE_UNIT, unitType, capped);
    EmittedUnit(REQUESTED_SERVICE_UNIT, unitType, requested);
    var rsu, usu := BuildIfEmitted(REQUESTED_SERVICE_UNIT, unitType, requested).value, BuildIfEmitted(USED_SERVICE_UNIT, unitType, capped).value;
    assert Codes(rsu + usu) == Codes(rsu) + Codes(usu);
    if requested.Emit? {
      UnitQuantity(REQUESTED_SERVICE_UNIT, unitType, requested.quantity);
    }
  }

  /** An EVENT stands alone: its usage is reported in full whatever was granted,
      if and only if it fits the unit type. */
  lemma EventReport(n: nat, block: MSCCTemplate, values: Vars, show: Value -> string, unitType: UnitType)
    requires BuildServiceUnitPair(n, block, values, show, unitType, EVENT).Ok?
    ensures var used := Usage(block, values, show);
      (Reports(BuildServiceUnitPair(n, block, values, show, unitType, EVENT).value)
       == ReportOf(unitType, if used > 0 then Some(used) else None))
      <==> (!Narrow(unitType) || used < TWO_32)
  {
    hide ToUint64, ResolveValue, BuildIfEmitted, BuildServiceUnit, RequestedUnits, UsedUnits, Amount, Quantities, Reports;
    var requested := RequestedUnits(block.requested, values, show, EVENT).value;
    var used := UsedUnits(block.used, values, show, EVENT).value;
    RequestedRule(block.requested, values, show, EVENT);
    UsedRule(block.used, values, show, EVENT);
    EmittedUnit(REQUESTED_SERVICE_UNIT, unitType, requested);
    EmittedUnit(USED_SERVICE_UNIT, unitType, used);
    var rsu, usu := BuildIfEmitted(REQUESTED_SERVICE_UNIT, unitType, requested).value, BuildIfEmitted(USED_SERVICE_UNIT, unitType, used).value;
    ReportsAppend(rsu, usu);
    NothingReported();
    if requested.Emit? {
      UnitQuantity(REQUESTED_SERVICE_UNIT, unitType, requested.quantity);
      RequestReportsNothing(rsu[0]);
    }
    if used.Emit? {
      UnitQuantity(USED_SERVICE_UNIT, unitType, used.quantity);
      ReportOfOne(usu[0]);
    }
  }

  lemma NothingReported()
    ensures Reports([]) == []
  {
  }

  lemma RequestReportsNothing(a: AVP)
    requires a.code == REQUESTED_SERVICE_UNIT
    ensures Reports([a]) == []
  {
    assert [a][1..] == [];
  }

  // A charged service whose usage is the variable U.
  function MeteredByU(): MSCCTemplate {
    MSCCTemplate(1, None, "", Token("U"))
  }

  lemma UsageOfU(values: Vars, show: Value -> string, n: uint64)
    requires "U" in values && values["U"] == Uint64(n)
    ensures ResolveValue(MeteredByU().used, values, show) == Ok(Uint64(n))
    ensures Usage(MeteredByU(), values, show) == n
  {
    TokenKeepsType("U", values, show);
  }

  /** An EVENT of 4294967301 time units reports 5. */
  lemma EventTruncated(show: Value -> string)
    ensures var pair := BuildServiceUnitPair(1, MeteredByU(), map["U" := Uint64(4_294_967_301)], show, Time, EVENT);
      pair.Ok? && Reports(pair.value) == [(CC_TIME, 5)]
  {
    hide ResolveValue, Reports;
    var values: Vars := map["U" := Uint64(4_294_967_301)];
    UsageOfU(values, show, 4_294_967_301);
    var unit := GroupedAVP(USED_SERVICE_UNIT, 0, [LeafAVP(CC_TIME, 0, Unsigned32(5))]);
    assert BuildServiceUnitPair(1, MeteredByU(), values, show, Time, EVENT) == Ok([] + [unit]);
    assert [] + [unit] == [unit];
    assert unit.avps[1..] == [];
    ReportOfOne(unit);
  }

  /** An INITIAL that asks for 4294967301 time units asks for 5. */
  lemma RequestTruncated(show: Value -> string)
    ensures var block, values: Vars := MSCCTemplate(1, None, Token("U"), ""), map["U" := Uint64(4_294_967_301)];
      && Amount(block.requested, values, show) == 4_294_967_301
      && BuildServiceUnitPair(1, block, values, show, Time, INITIAL)
         == Ok([GroupedAVP(REQUESTED_SERVICE_UNIT, 0, [LeafAVP(CC_TIME, 0, Unsigned32(5))])])
  {
    hide ResolveValue;
    var values: Vars := map["U" := Uint64(4_294_967_301)];
    UsageOfU(values, show, 4_294_967_301);
    var unit := GroupedAVP(REQUESTED_SERVICE_UNIT, 0, [LeafAVP(CC_TIME, 0, Unsigned32(5))]);
    assert [unit] + [] == [unit];
  }

  /** A grant of 2^63 octets does not cap: an UPDATE reports usage beyond it. */
  lemma LargeGrantUncapped(show: Value -> string)
    ensures var values := map["U" := Uint64(TWO_63 + 1), GrantKey(Octet, 1) := StoredGrant(TWO_63)];
      var pair := BuildServiceUnitPair(1, MeteredByU(), values, show, Octet, UPDATE);
      pair.Ok? && Reports(pair.value) == [(CC_TOTAL_OCTETS, TWO_63 + 1)]
  {
    hide ResolveValue, Reports, StoredGrant, GrantKey;
    StoredGrantReads(TWO_63);
    KeyIsNotU();
    var values: Vars := map["U" := Uint64(TWO_63 + 1), GrantKey(Octet, 1) := StoredGrant(TWO_63)];
    UsageOfU(values, show, TWO_63 + 1);
    var unit := GroupedAVP(USED_SERVICE_UNIT, 0, [LeafAVP(CC_TOTAL_OCTETS, 0, Unsigned64(TWO_63 + 1))]);
    assert BuildServiceUnitPair(1, MeteredByU(), values, show, Octet, UPDATE) == Ok([] + [unit]);
    assert [] + [unit] == [unit];
    assert unit.avps[1..] == [];
    ReportOfOne(unit);
  }

  lemma KeyIsNotU()
    ensures GrantKey(Octet, 1) != "U"
  {
    assert GrantKey(Octet, 1)[0] == 'R';
  }

  /** The AVPs that charge the n-th service within rendered service AVPs: the
      children of its MSCC, or the top level in the root model. */
  function ServicePart(model: ServiceModel, services: seq<AVP>, n: nat): seq<AVP> {
    if model.Root? then services
    else if 0 < n < |services| && services[n].GroupedAVP? then services[n].avps
    else []
  }

  // The services a model charges.
  function Slots(input: Input): nat {
    match input.model
    case Root => if input.mscc == [] then 0 else 1
    case SingleMSCC => if input.mscc == [] then 0 else 1
    case MultiMSCC => |input.mscc|
    case OtherModel => 0
  }

  // What precedes the unit pair among a service's AVPs reports nothing.
  lemma ReportsBehind(block: MSCCTemplate, pair: seq<AVP>)
    ensures Reports(ServiceIdentifierAVP(block) + pair) == Reports(pair)
    ensures Reports(RatingGroupAVP(block) + ServiceIdentifierAVP(block) + pair) == Reports(pair)
  {
    var rg, si := RatingGroupAVP(block), ServiceIdentifierAVP(block);
    assert Reports(rg) == [] by { if rg != [] { assert rg[1..] == []; } }
    assert Reports(si) == [] by { if si != [] { assert si[1..] == []; } }
    ReportsAppend(si, pair);
    ReportsAppend(rg, si);
    ReportsAppend(rg + si, pair);
  }

  lemma {:induction false} BuildMSCCBlocksAt(first: nat, blocks: seq<MSCCTemplate>, values: Vars, show: Value -> string,
                                             unitType: UnitType, reqType: uint32, i: nat)
    requires i < |blocks| && BuildMSCCBlocks(first, blocks, values, show, unitType, reqType).Ok?
    ensures |BuildMSCCBlocks(first, blocks, values, show, unitType, reqType).value| > i
    ensures BuildMSCCBlock(first + i, blocks[i], values, show, unitType, reqType)
         == Ok(BuildMSCCBlocks(first, blocks, values, show, unitType, reqType).value[i])
    decreases i
  {
    hide BuildMSCCBlock;
    if i > 0 {
      BuildMSCCBlocksAt(first + 1, blocks[1..], values, show, unitType, reqType, i - 1);
    }
  }

  lemma ServicePartReport(input: Input, values: Vars, show: Value -> string, n: nat)
    requires 1 <= n <= Slots(input)
    requires BuildServiceAVPs(input, values, show).Ok?
    ensures var services := BuildServiceAVPs(input, values, show).value;
      var pair := BuildServiceUnitPair(n, input.mscc[n - 1], values, show, input.unitType, RequestType(values));
      pair.Ok? && Reports(ServicePart(input.model, services, n)) == Reports(pair.value)
  {
    hide BuildServiceUnitPair, Reports, RequestType, ServiceIdentifierAVP, RatingGroupAVP;
    var services := BuildServiceAVPs(input, values, show).value;
    var reqType := RequestType(values);
    var pair := BuildServiceUnitPair(n, input.mscc[n - 1], values, show, input.unitType, reqType);
    if input.model.MultiMSCC? {
      var blocks := BuildMSCCBlocks(1, input.mscc, values, show, input.unitType, reqType).value;
      BuildMSCCBlocksAt(1, input.mscc, values, show, input.unitType, reqType, n - 1);
      assert services[n] == blocks[n - 1];
    }
    ReportsBehind(input.mscc[n - 1], pair.value);
  }

  /** The same for a whole rendered CCR: at every charged position the usage
      reported is the allowed amount, on the condition above. */
  lemma RenderedReport(input: Input, values: Vars, codec: Codec, n: nat, granted: uint64)
    requires 1 <= n <= Slots(input) && Metered(input.unitType)
    requires RequestType(values) in {UPDATE, TERMINATE}
    requires GrantKey(input.unitType, n) in values
    requires values[GrantKey(input.unitType, n)] == StoredGrant(granted)
    requires input.unitType.Time? ==> granted < TWO_32
    requires Render(input, values, codec).Ok?
    ensures |Render(input, values, codec).value| >= |input.tree|
    ensures var services := Render(input, values, codec).value[|input.tree|..];
      var used := Usage(input.mscc[n - 1], values, codec.show);
      (Reports(ServicePart(input.model, services, n)) == ReportOf(input.unitType, Allowed(used, granted)))
      <==> (granted < TWO_63 || used <= granted)
  {
    var tree := BuildAVPs(input.tree, values, codec, 0).value;
    var services := BuildServiceAVPs(input, values, codec.show).value;
    assert (tree + services)[|input.tree|..] == services;
    ServicePartReport(input, values, codec.show, n);
    UnitPairReport(n, input.mscc[n - 1], values, codec.show, input.unitType, RequestType(values), granted);
  }
}
