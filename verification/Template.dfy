/** The AVP template engine: rendering of the template tree and of the
    Requested/Used-Service-Unit AVPs of each charged service. */
module Template {
  import opened Text
  import opened Values

  // ---- AVPs -----------------------------------------------------------

  datatype Leaf =
    | Unsigned32(u32: uint32)
    | Unsigned64(u64: uint64)
    | Enumerated(e: int32)
    | Encoded(dataType: string, text: string)

  datatype AVP =
    | LeafAVP(code: uint32, vendor: uint32, data: Leaf)
    | GroupedAVP(code: uint32, vendor: uint32, avps: seq<AVP>)

  // AVP codes of RFC 4006, section 8.
  const CC_TIME: uint32 := 420
  const CC_TOTAL_OCTETS: uint32 := 421
  const CC_SERVICE_SPECIFIC_UNITS: uint32 := 417
  const RATING_GROUP: uint32 := 432
  const REQUESTED_SERVICE_UNIT: uint32 := 437
  const SERVICE_IDENTIFIER: uint32 := 439
  const USED_SERVICE_UNIT: uint32 := 446
  const MULTIPLE_SERVICES_INDICATOR: uint32 := 455
  const MULTIPLE_SERVICES_CREDIT_CONTROL: uint32 := 456

  // CC-Request-Type, RFC 4006, section 8.3.
  const INITIAL: uint32 := 1
  const UPDATE: uint32 := 2
  const TERMINATE: uint32 := 3
  const EVENT: uint32 := 4

  datatype Error =
    | UnresolvedPlaceholder(name: string)
    | UnknownAVP(name: string)
    | EncodingTypeMismatch(name: string)
    | CannotEncodeQuantity

  // ---- template data --------------------------------------------------

  datatype AVPNode = AVPNode(name: string, code: uint32, vendorID: int64, value: string, avps: seq<AVPNode>)

  datatype Metadata = Metadata(code: uint32, grouped: bool, dataType: string)

  datatype MSCCTemplate = MSCCTemplate(
    ratingGroup: uint32,
    serviceIdentifier: Option<uint32>,
    requested: string,
    used: string)

  datatype UnitType = Octet | Time | Units | OtherUnit

  datatype ServiceModel = Root | SingleMSCC | MultiMSCC | OtherModel

  datatype Input = Input(tree: seq<AVPNode>, mscc: seq<MSCCTemplate>, unitType: UnitType, model: ServiceModel)

  /** What the engine is given from outside: the dictionary, the leaf encoder
      and the textual form of a value. */
  datatype Codec = Codec(
    lookup: string -> Option<Metadata>,
    encode: (string, string, Value) -> Option<Leaf>,
    show: Value -> string)

  // ---- placeholder resolution -----------------------------------------

  predicate IsIdentStart(c: char) {
    'A' <= c <= 'Z' || 'a' <= c <= 'z'
  }

  predicate IsIdent(c: char) {
    IsIdentStart(c) || IsDigit(c) || c == '_'
  }

  function IdentLength(s: string): (n: nat)
    ensures n <= |s|
    ensures forall i :: 0 <= i < n ==> IsIdent(s[i])
    ensures n < |s| ==> !IsIdent(s[n])
  {
    if s != "" && IsIdent(s[0]) then 1 + IdentLength(s[1..]) else 0
  }

  /** The name of the {{NAME}} token that s starts with, if it starts with one. */
  function TokenAtStart(s: string): (t: Option<string>)
    ensures t.Some? ==> t.value != "" && |t.value| + 4 <= |s| && s[..|t.value| + 4] == "{{" + t.value + "}}"
  {
    if |s| < 5 || s[0] != '{' || s[1] != '{' || !IsIdentStart(s[2]) then None
    else
      var n := IdentLength(s[2..]);
      if n + 4 <= |s| && s[n + 2] == '}' && s[n + 3] == '}' then Some(s[2..n + 2]) else None
  }

  function Substitute(s: string, values: Vars, show: Value -> string): Result<string, Error>
    decreases |s|
  {
    if s == "" then Ok("")
    else match TokenAtStart(s)
      case Some(name) =>
        if name !in values then Err(UnresolvedPlaceholder(name))
        else (match Substitute(s[|name| + 4..], values, show)
              case Ok(rest) => Ok(show(values[name]) + rest)
              case Err(e) => Err(e))
      case None =>
        (match Substitute(s[1..], values, show)
         case Ok(rest) => Ok([s[0]] + rest)
         case Err(e) => Err(e))
  }

  /** A string that is one token yields the typed value, any other string the
      text with every token replaced. */
  function ResolveValue(s: string, values: Vars, show: Value -> string): Result<Value, Error> {
    var token := TokenAtStart(s);
    if token.Some? && |token.value| + 4 == |s| then
      if token.value in values then Ok(values[token.value]) else Err(UnresolvedPlaceholder(token.value))
    else
      match Substitute(s, values, show)
      case Ok(text) => Ok(Str(text))
      case Err(e) => Err(e)
  }

  // ---- the template tree ----------------------------------------------

  function BuildAVPs(nodes: seq<AVPNode>, values: Vars, codec: Codec, inherited: int64): (r: Result<seq<AVP>, Error>)
    decreases nodes, 0
    ensures r.Ok? ==> |r.value| == |nodes|
  {
    if nodes == [] then Ok([])
    else match BuildAVP(nodes[0], values, codec, inherited)
      case Err(e) => Err(e)
      case Ok(a) =>
        (match BuildAVPs(nodes[1..], values, codec, inherited)
         case Err(e) => Err(e)
         case Ok(rest) => Ok([a] + rest))
  }

  function NodeMetadata(node: AVPNode, codec: Codec): Result<Metadata, Error> {
    match codec.lookup(node.name)
    case None =>
      if node.code == 0 then Err(UnknownAVP(node.name))
      else Ok(Metadata(node.code, node.avps != [], "OctetString"))
    case Some(meta) =>
      if node.code != 0 && node.code != meta.code then Ok(meta.(code := node.code)) else Ok(meta)
  }

  function BuildAVP(node: AVPNode, values: Vars, codec: Codec, inherited: int64): Result<AVP, Error>
    decreases node, 1
  {
    match NodeMetadata(node, codec)
    case Err(e) => Err(e)
    case Ok(meta) =>
      var vendor := if node.vendorID != 0 then node.vendorID else inherited;
      if meta.grouped || node.avps != [] then
        match BuildAVPs(node.avps, values, codec, vendor)
        case Err(e) => Err(e)
        case Ok(children) => Ok(GroupedAVP(meta.code, Wrap32(vendor), children))
      else
        match ResolveValue(node.value, values, codec.show)
        case Err(e) => Err(e)
        case Ok(resolved) =>
          match codec.encode(node.name, meta.dataType, resolved)
          case None => Err(EncodingTypeMismatch(node.name))
          case Some(leaf) => Ok(LeafAVP(meta.code, Wrap32(vendor), leaf))
  }

  // ---- service units --------------------------------------------------

  datatype Emission = Suppress | Emit(quantity: Value)

  function EmitIfPositive(v: Value): Emission {
    match ToUint64(v)
    case Some(n) => if n > 0 then Emit(v) else Suppress
    case None => Suppress
  }

  function RequestedUnits(placeholder: string, values: Vars, show: Value -> string, reqType: uint32): Result<Emission, Error> {
    if placeholder == "" || reqType == TERMINATE then Ok(Suppress)
    else match ResolveValue(placeholder, values, show)
      case Err(e) => Err(e)
      case Ok(v) => Ok(if reqType == 0 then Emit(v) else EmitIfPositive(v))
  }

  function UsedUnits(placeholder: string, values: Vars, show: Value -> string, reqType: uint32): Result<Emission, Error> {
    if placeholder == "" || reqType == INITIAL then Ok(Suppress)
    else match ResolveValue(placeholder, values, show)
      case Err(e) => Err(e)
      case Ok(v) => Ok(if reqType in {UPDATE, TERMINATE, EVENT} then EmitIfPositive(v) else Emit(v))
  }

  /** A variable of the n-th rating group (n from 1). */
  function GroupVar(n: nat, suffix: string): string {
    "RG" + Decimal(n) + suffix
  }

  /** The variable holding the last grant for the n-th service. */
  function GrantKey(unitType: UnitType, n: nat): string {
    GroupVar(n, if unitType.Octet? then "_GRANTED_UNITS" else "_GRANTED")
  }

  // Limits a usage report to the grant recorded for it, if there is one.
  function CapToGrant(quantity: Value, key: string, values: Vars): Emission {
    if key !in values then Emit(quantity)
    else match ToUint64(values[key])
      case None => Emit(quantity)
      case Some(granted) =>
        if granted == 0 then Suppress
        else match ToUint64(quantity)
          case Some(used) => if used > granted then Emit(Uint64(granted)) else Emit(quantity)
          case None => Emit(quantity)
  }

  function InnerUnitCode(unitType: UnitType): uint32 {
    match unitType
    case Time => CC_TIME
    case Units => CC_SERVICE_SPECIFIC_UNITS
    case _ => CC_TOTAL_OCTETS
  }

  function BuildServiceUnit(code: uint32, unitType: UnitType, quantity: Value): Result<AVP, Error> {
    var inner :=
      if unitType.Time? || unitType.Units? then
        match ToUint32(quantity) { case Some(n) => Some(Unsigned32(n)) case None => None }
      else
        match ToUint64(quantity) { case Some(n) => Some(Unsigned64(n)) case None => None };
    match inner
    case None => Err(CannotEncodeQuantity)
    case Some(leaf) => Ok(GroupedAVP(code, 0, [LeafAVP(InnerUnitCode(unitType), 0, leaf)]))
  }

  function BuildIfEmitted(code: uint32, unitType: UnitType, e: Emission): Result<seq<AVP>, Error> {
    match e
    case Suppress => Ok([])
    case Emit(q) =>
      match BuildServiceUnit(code, unitType, q)
      case Ok(a) => Ok([a])
      case Err(err) => Err(err)
  }

  /** The RSU and USU AVPs of the n-th service (n from 1). */
  function BuildServiceUnitPair(n: nat, block: MSCCTemplate, values: Vars, show: Value -> string,
                                unitType: UnitType, reqType: uint32): Result<seq<AVP>, Error>
  {
    match RequestedUnits(block.requested, values, show, reqType)
    case Err(e) => Err(e)
    case Ok(requested) =>
      match BuildIfEmitted(REQUESTED_SERVICE_UNIT, unitType, requested)
      case Err(e) => Err(e)
      case Ok(rsu) =>
        match UsedUnits(block.used, values, show, reqType)
        case Err(e) => Err(e)
        case Ok(used) =>
          var capped :=
            if used.Emit? && reqType != EVENT then CapToGrant(used.quantity, GrantKey(unitType, n), values) else used;
          match BuildIfEmitted(USED_SERVICE_UNIT, unitType, capped)
          case Err(e) => Err(e)
          case Ok(usu) => Ok(rsu + usu)
  }

  function RatingGroupAVP(block: MSCCTemplate): seq<AVP> {
    if block.ratingGroup > 0 then [LeafAVP(RATING_GROUP, 0, Unsigned32(block.ratingGroup))] else []
  }

  function ServiceIdentifierAVP(block: MSCCTemplate): seq<AVP> {
    if block.serviceIdentifier.Some?
    then [LeafAVP(SERVICE_IDENTIFIER, 0, Unsigned32(block.serviceIdentifier.value))] else []
  }

  function BuildMSCCBlock(n: nat, block: MSCCTemplate, values: Vars, show: Value -> string,
                          unitType: UnitType, reqType: uint32): Result<AVP, Error>
  {
    match BuildServiceUnitPair(n, block, values, show, unitType, reqType)
    case Err(e) => Err(e)
    case Ok(pair) =>
      Ok(GroupedAVP(MULTIPLE_SERVICES_CREDIT_CONTROL, 0, RatingGroupAVP(block) + ServiceIdentifierAVP(block) + pair))
  }

  function BuildMSCCBlocks(first: nat, blocks: seq<MSCCTemplate>, values: Vars, show: Value -> string,
                           unitType: UnitType, reqType: uint32): Result<seq<AVP>, Error>
    decreases blocks
  {
    if blocks == [] then Ok([])
    else match BuildMSCCBlock(first, blocks[0], values, show, unitType, reqType)
      case Err(e) => Err(e)
      case Ok(a) =>
        (match BuildMSCCBlocks(first + 1, blocks[1..], values, show, unitType, reqType)
         case Err(e) => Err(e)
         case Ok(rest) => Ok([a] + rest))
  }

  // CC_REQUEST_TYPE as the engine reads it back from the value map.
  function RequestType(values: Vars): uint32 {
    if "CC_REQUEST_TYPE" !in values then 0
    else match ToUint32(values["CC_REQUEST_TYPE"])
      case Some(n) => n
      case None => 0
  }

  function MultipleServicesIndicator(n: int32): AVP {
    LeafAVP(MULTIPLE_SERVICES_INDICATOR, 0, Enumerated(n))
  }

  function BuildServiceAVPs(input: Input, values: Vars, show: Value -> string): Result<seq<AVP>, Error> {
    var reqType := RequestType(values);
    match input.model
    case Root =>
      if input.mscc == [] then Ok([])
      else (match BuildServiceUnitPair(1, input.mscc[0], values, show, input.unitType, reqType)
            case Err(e) => Err(e)
            case Ok(pair) => Ok(ServiceIdentifierAVP(input.mscc[0]) + pair))
    case SingleMSCC =>
      if input.mscc == [] then Ok([MultipleServicesIndicator(0)])
      else (match BuildMSCCBlock(1, input.mscc[0], values, show, input.unitType, reqType)
            case Err(e) => Err(e)
            case Ok(block) => Ok([MultipleServicesIndicator(0), block]))
    case MultiMSCC =>
      (match BuildMSCCBlocks(1, input.mscc, values, show, input.unitType, reqType)
       case Err(e) => Err(e)
       case Ok(blocks) => Ok([MultipleServicesIndicator(1)] + blocks))
    case OtherModel => Ok([])
  }

  function Render(input: Input, values: Vars, codec: Codec): (r: Result<seq<AVP>, Error>) {
    match BuildAVPs(input.tree, values, codec, 0)
    case Err(e) => Err(e)
    case Ok(tree) =>
      match BuildServiceAVPs(input, values, codec.show)
      case Err(e) => Err(e)
      case Ok(services) => Ok(tree + services)
  }
}
