// The wire mapping: a payload and its headers as an SQS message, and an SQS message as a payload
// and its headers.
module Wire {
  import opened Basics
  import opened Names
  import opened Sums
  import Base64
  import Utf8

  const PARTITION_KEY := "partition-key"
  const RECEIVE_COUNT := "sqs-receive-count"
  const ENCODING := "ruststream-payload-encoding"
  const BASE64_MARK := Attribute.Str(Ascii("base64"))
  const MAX_ATTRIBUTES := 10
  const MAX_FIFO_ID := 128
  const SQS_MAX_MESSAGE := 1_048_576
  const SNS_MAX_MESSAGE := 262_144

  /** A header map: names to bytes. */
  type Headers = map<string, seq<byte>>

  /** A message attribute of type `String` or `Binary`. */
  datatype Attribute = Str(text: Text) | Bin(blob: seq<byte>) {
    function Bytes(): seq<byte> { if Str? then text else blob }
    function DataType(): string { if Str? then "String" else "Binary" }
  }

  datatype FifoSettings = FifoSettings(group: Text, deduplication: Text)

  /** What a publisher hands to the service: text, typed attributes, and a group and id where the destination is FIFO. */
  datatype Outbound = Outbound(body: Text, attributes: map<string, Attribute>, fifo: Option<FifoSettings>)

  /** One message as a receive returns it, its system attributes included. */
  datatype Message = Message(
    body: Text,
    attributes: map<string, Attribute>,
    receipt: Option<nat>,
    receives: Option<Text>,
    group: Option<Text>)

  /** The settings one call names. */
  datatype PublishOptions = PublishOptions(group: Option<Text>, deduplication: Option<Text>)

  datatype Refusal =
    | ReservedHeader | TooManyAttributes | NotFifo
    | MessageRefused | GroupMissing | GroupUnexpected | IdRefused
    | NameRefused | CapRefused | KindMismatch
    | VisibilityTooLong | NotInFlight | PastWindow | NegativeTimeout

  // ---------------------------------------------------------------------------------------------
  // The body

  /** A character the service carries in text. */
  predicate ServiceChar(c: nat)
  {
    c == 9 || c == 10 || c == 13 || 0x20 <= c <= 0xD7FF || 0xE000 <= c <= 0xFFFD || c >= 0x10000
  }

  /** UTF-8 text made of characters the service carries. */
  predicate IsServiceText(t: Text)
  {
    Utf8.Valid(t) && forall i :: 0 <= i < |Utf8.Chars(t)| ==> ServiceChar(Utf8.Chars(t)[i])
  }

  /** The body a payload becomes, and whether it needs the base64 marker. */
  function EncodeBody(payload: seq<byte>): (Text, bool)
  {
    if IsServiceText(payload) then (payload, false) else (Base64.Encode(payload), true)
  }

  /** Every encoded body is text the service carries, and it is empty only for an empty payload. */
  lemma EncodedBodyIsServiceText(payload: seq<byte>)
    ensures IsServiceText(EncodeBody(payload).0)
    ensures EncodeBody(payload).0 == [] <==> payload == []
  {
    var text := Base64.Encode(payload);
    Base64.EncodeIsPrintable(payload);
    Utf8.AsciiIsValid(text);
  }

  function DecodeBody(body: Text, base64: bool): seq<byte>
  {
    if !base64 then body
    else match Base64.Decode(body)
      case Some(payload) => payload
      case None => body
  }

  lemma BodyRoundTrip(payload: seq<byte>)
    ensures var (body, mark) := EncodeBody(payload); DecodeBody(body, mark) == payload
  {
    Base64.DecodeEncode(payload);
  }

  // ---------------------------------------------------------------------------------------------
  // Headers and attributes

  function AttributeOf(value: seq<byte>): Attribute
  {
    if IsServiceText(value) then Str(value) else Bin(value)
  }

  /** The headers that become attributes: on a FIFO destination the partition key does not. */
  function Carried(headers: Headers, fifo: bool): Headers
  {
    if fifo then headers - {PARTITION_KEY} else headers
  }

  /** The attributes the headers called `names` become, before any marker. */
  function AttributesFor(headers: Headers, names: set<string>, fifo: bool): map<string, Attribute>
  {
    map name | name in headers && name in names && !(fifo && name == PARTITION_KEY) :: AttributeOf(headers[name])
  }

  /** The attributes a header map becomes. */
  function AttributesOf(headers: Headers, mark: bool, fifo: bool): map<string, Attribute>
  {
    var own := AttributesFor(headers, headers.Keys, fifo);
    if mark then own[ENCODING := BASE64_MARK] else own
  }

  /** The attributes and the partition key of one send, or its refusal. */
  function EncodedHeaders(headers: Headers, mark: bool, fifo: bool)
    : Result<(map<string, Attribute>, Option<seq<byte>>), Refusal>
  {
    if ENCODING in headers then Failure(ReservedHeader)
    else if |AttributesFor(headers, headers.Keys, fifo)| + (if mark then 1 else 0) > MAX_ATTRIBUTES then
      Failure(TooManyAttributes)
    else Success((AttributesOf(headers, mark, fifo),
                  if fifo && PARTITION_KEY in headers then Some(headers[PARTITION_KEY]) else None))
  }

  /** One more name adds one attribute, unless it is the partition key of a FIFO destination. */
  lemma OneMoreName(headers: Headers, names: set<string>, name: string, fifo: bool)
    requires name in headers && name !in names
    ensures var before := AttributesFor(headers, names, fifo);
            var after := AttributesFor(headers, names + {name}, fifo);
            if fifo && name == PARTITION_KEY then after == before
            else after == before[name := AttributeOf(headers[name])] && |after| == |before| + 1
  {
    var before := AttributesFor(headers, names, fifo);
    assert before[name := AttributeOf(headers[name])].Keys == before.Keys + {name};
  }

  lemma NoAttributesYet(headers: Headers, fifo: bool)
    ensures AttributesFor(headers, {}, fifo) == map[]
  {
  }

  /** The walk over the headers, in whatever order the map yields them. */
  method EncodeAttributes(headers: Headers, mark: bool, fifo: bool)
    returns (r: Result<(map<string, Attribute>, Option<seq<byte>>), Refusal>)
    ensures r == EncodedHeaders(headers, mark, fifo)
  {
    hide AttributeOf, AttributesFor;
    NoAttributesYet(headers, fifo);
    var group: Option<seq<byte>> := None;
    var count := if mark then 1 else 0;
    var attributes: map<string, Attribute> := map[];
    var pending := headers.Keys;
    assert headers.Keys - pending == {};
    while pending != {}
      invariant pending <= headers.Keys
      invariant ENCODING in headers ==> ENCODING in pending
      invariant group == if fifo && PARTITION_KEY in headers.Keys - pending then Some(headers[PARTITION_KEY]) else None
      invariant attributes == AttributesFor(headers, headers.Keys - pending, fifo)
      invariant count == |attributes| + if mark then 1 else 0
    {
      var name :| name in pending;
      OneMoreName(headers, headers.Keys - pending, name, fifo);
      assert headers.Keys - (pending - {name}) == headers.Keys - pending + {name};
      pending := pending - {name};
      if fifo && name == PARTITION_KEY {
        group := Some(headers[name]);
        continue;
      }
      if name == ENCODING {
        return Failure(ReservedHeader);
      }
      count := count + 1;
      attributes := attributes[name := AttributeOf(headers[name])];
    }
    assert headers.Keys - pending == headers.Keys;
    if count > MAX_ATTRIBUTES {
      return Failure(TooManyAttributes);
    }
    if mark {
      attributes := attributes[ENCODING := BASE64_MARK];
    }
    return Success((attributes, group));
  }

  predicate Marked(m: Message)
  {
    ENCODING in m.attributes && m.attributes[ENCODING] == BASE64_MARK
  }

  /** The headers of a delivery: its attributes, then what the system attributes add. */
  function DecodedHeaders(m: Message): Headers
  {
    var own := map name | name in m.attributes && !(name == ENCODING && Marked(m)) :: m.attributes[name].Bytes();
    var grouped := if m.group.Some? then own[PARTITION_KEY := m.group.value] else own;
    if m.receives.Some? then grouped[RECEIVE_COUNT := m.receives.value] else grouped
  }

  /** Reads a delivery off the message the queue returned. */
  method DecodeMessage(m: Message) returns (payload: seq<byte>, headers: Headers)
    ensures payload == DecodeBody(m.body, Marked(m))
    ensures headers == DecodedHeaders(m)
  {
    headers := map[];
    var base64 := false;
    var pending := m.attributes.Keys;
    while pending != {}
      invariant pending <= m.attributes.Keys
      invariant base64 == (Marked(m) && ENCODING !in pending)
      invariant headers.Keys == set name | name in m.attributes && name !in pending && !(name == ENCODING && Marked(m))
      invariant forall name :: name in headers ==> headers[name] == m.attributes[name].Bytes()
    {
      var name :| name in pending;
      pending := pending - {name};
      if name == ENCODING && m.attributes[name] == BASE64_MARK {
        base64 := true;
        continue;
      }
      headers := headers[name := m.attributes[name].Bytes()];
    }
    if m.group.Some? {
      headers := headers[PARTITION_KEY := m.group.value];
    }
    if m.receives.Some? {
      headers := headers[RECEIVE_COUNT := m.receives.value];
    }
    payload := DecodeBody(m.body, base64);
  }

  /** An outbound message as a receive returns it. */
  function WireMessage(outbound: Outbound, receipt: Option<nat>, receives: Option<nat>): Message
  {
    Message(outbound.body, outbound.attributes, receipt,
            if receives.Some? then Some(Decimal(receives.value)) else None,
            if outbound.fifo.Some? then Some(outbound.fifo.value.group) else None)
  }

  /** The receive count a delivery reports. */
  function ReceivesOf(m: Message): Option<nat>
  {
    match m.receives
    case None => None
    case Some(text) => match Numeral(text)
      case Some(n) => if n <= U32_MAX then Some(n) else None
      case None => None
  }

  lemma ReceiveCountRoundTrip(outbound: Outbound, receipt: Option<nat>, receives: nat)
    requires receives <= U32_MAX
    ensures ReceivesOf(WireMessage(outbound, receipt, Some(receives))) == Some(receives)
  {
    NumeralOfDecimal(receives);
  }

  // ---------------------------------------------------------------------------------------------
  // FIFO settings and framing

  /** The process-unique id the crate gives its `n`-th send that names none. */
  function CrateId(process: nat, n: nat): Text
  {
    Ascii("rs-") + Decimal(process) + Ascii("-") + Decimal(n)
  }

  lemma CrateIdInjective(process: nat, a: nat, b: nat)
    requires CrateId(process, a) == CrateId(process, b)
    ensures a == b
  {
    var prefix := Ascii("rs-") + Decimal(process) + Ascii("-");
    assert CrateId(process, a)[|prefix|..] == Decimal(a);
    assert CrateId(process, b)[|prefix|..] == Decimal(b);
    DecimalInjective(a, b);
  }

  function GroupOption(options: Option<PublishOptions>): Option<Text>
  {
    if options.Some? then options.value.group else None
  }

  function DeduplicationOption(options: Option<PublishOptions>): Option<Text>
  {
    if options.Some? then options.value.deduplication else None
  }

  function Or<T>(first: Option<T>, second: Option<T>): Option<T>
  {
    if first.Some? then first else second
  }

  /** The group ladder: the call's own step, the header, the mount site, then "default". */
  function Group(options: Option<PublishOptions>, key: Option<Text>, mounted: Option<Text>): Text
  {
    match Or(Or(GroupOption(options), key), mounted)
    case Some(group) => group
    case None => Ascii("default")
  }

  /** The FIFO fields of one send; `crateId` is the id the crate would supply. */
  function FifoFields(
    fifo: bool, options: Option<PublishOptions>, key: Option<Text>, mounted: Option<Text>, crateId: Text)
    : Result<Option<FifoSettings>, Refusal>
  {
    if !fifo then
      if GroupOption(options).Some? || mounted.Some? || DeduplicationOption(options).Some? then Failure(NotFifo)
      else Success(None)
    else
      var id := match DeduplicationOption(options) case Some(id) => id case None => crateId;
      Success(Some(FifoSettings(Group(options, key, mounted), id)))
  }

  function LossyKey(key: Option<seq<byte>>): Option<Text>
  {
    if key.Some? then Some(Utf8.Lossy(key.value)) else None
  }

  /** One message framed the way a publish frames it. */
  function Framed(
    fifo: bool, payload: seq<byte>, headers: Headers, options: Option<PublishOptions>, mounted: Option<Text>,
    crateId: Text): Result<Outbound, Refusal>
  {
    var (body, mark) := EncodeBody(payload);
    match EncodedHeaders(headers, mark, fifo)
    case Failure(refusal) => Failure(refusal)
    case Success((attributes, key)) =>
      match FifoFields(fifo, options, LossyKey(key), mounted, crateId)
      case Failure(refusal) => Failure(refusal)
      case Success(settings) => Success(Outbound(body, attributes, settings))
  }

  /** The publishing side, with the counter behind its own deduplication ids. */
  class Framer {
    const process: nat
    var issued: nat

    constructor (process: nat)
      ensures this.process == process && issued == 0
    {
      this.process := process;
      issued := 0;
    }

    /** An id no earlier call returned. */
    method FreshId() returns (id: Text)
      modifies this
      ensures id == CrateId(process, old(issued)) && issued == old(issued) + 1
      ensures forall n :: 0 <= n < old(issued) ==> id != CrateId(process, n)
    {
      forall n | 0 <= n < issued ensures CrateId(process, issued) != CrateId(process, n) {
        if CrateId(process, issued) == CrateId(process, n) {
          CrateIdInjective(process, issued, n);
        }
      }
      id := CrateId(process, issued);
      issued := issued + 1;
    }

    /** Frames one message; an id is taken only when a FIFO send leaves it to the crate. */
    method Frame(
      fifo: bool, payload: seq<byte>, headers: Headers, options: Option<PublishOptions>, mounted: Option<Text>)
      returns (r: Result<Outbound, Refusal>)
      modifies this
      ensures r == Framed(fifo, payload, headers, options, mounted, CrateId(process, old(issued)))
      ensures issued == old(issued) + if r.Success? && fifo && DeduplicationOption(options).None? then 1 else 0
    {
      var (body, mark) := EncodeBody(payload);
      var encoded := EncodeAttributes(headers, mark, fifo);
      if encoded.Failure? {
        return Failure(encoded.error);
      }
      var (attributes, key) := encoded.value;
      if !fifo {
        if GroupOption(options).Some? || mounted.Some? || DeduplicationOption(options).Some? {
          return Failure(NotFifo);
        }
        return Success(Outbound(body, attributes, None));
      }
      var id;
      if DeduplicationOption(options).Some? {
        id := DeduplicationOption(options).value;
      } else {
        id := FreshId();
      }
      return Success(Outbound(body, attributes, Some(FifoSettings(Group(options, LossyKey(key), mounted), id))));
    }
  }

  // ---------------------------------------------------------------------------------------------
  // What a framed message is read back as

  /** The headers a receiver reads: those sent, the group as partition key, and the receive count. */
  function HeadersRead(headers: Headers, outbound: Outbound, receives: Option<nat>): Headers
  {
    var grouped := if outbound.fifo.Some? then headers[PARTITION_KEY := outbound.fifo.value.group] else headers;
    if receives.Some? then grouped[RECEIVE_COUNT := Decimal(receives.value)] else grouped
  }

  /**
   * Reading a framed message back gives the payload and the headers it was framed from, whatever
   * they are. On a FIFO destination the partition key is the group the call named, else that of the
   * partition key header, else the mount site's, else "default"; the id is the call's or the crate's.
   */
  lemma RoundTrip(
    fifo: bool, payload: seq<byte>, headers: Headers, options: Option<PublishOptions>, mounted: Option<Text>,
    crateId: Text, receipt: Option<nat>, receives: Option<nat>)
    requires Framed(fifo, payload, headers, options, mounted, crateId).Success?
    ensures var outbound := Framed(fifo, payload, headers, options, mounted, crateId).value;
            var m := WireMessage(outbound, receipt, receives);
            && DecodeBody(m.body, Marked(m)) == payload
            && DecodedHeaders(m) == HeadersRead(headers, outbound, receives)
            && outbound.fifo.Some? == fifo
            && (fifo ==>
                  outbound.fifo.value.group == (
                    if options.Some? && options.value.group.Some? then options.value.group.value
                    else if PARTITION_KEY in headers then Utf8.Lossy(headers[PARTITION_KEY])
                    else if mounted.Some? then mounted.value else Ascii("default")))
            && (fifo ==>
                  outbound.fifo.value.deduplication == (
                    if options.Some? && options.value.deduplication.Some? then options.value.deduplication.value
                    else crateId))
  {
    var outbound := Framed(fifo, payload, headers, options, mounted, crateId).value;
    BodyRoundTrip(payload);
    MarkIsTheCrates(headers, EncodeBody(payload).1, fifo);
    HeadersRoundTrip(outbound, headers, EncodeBody(payload).1, fifo, receipt, receives);
  }

  /**
   * A message is framed exactly when no header takes the crate's own name, its attributes, the marker
   * of a base64 body included, are at most ten, and a standard destination is given no FIFO setting.
   */
  lemma FramedExactly(
    fifo: bool, payload: seq<byte>, headers: Headers, options: Option<PublishOptions>, mounted: Option<Text>, crateId: Text)
    ensures Framed(fifo, payload, headers, options, mounted, crateId).Success? <==>
              && ENCODING !in headers
              && |Carried(headers, fifo)| + (if IsServiceText(payload) then 0 else 1) <= 10
              && (fifo || (mounted.None? && (options.None? || (options.value.group.None? && options.value.deduplication.None?))))
  {
    CarriedCount(headers, fifo);
    hide IsServiceText, AttributesFor, Carried;
  }

  lemma CarriedCount(headers: Headers, fifo: bool)
    ensures |AttributesFor(headers, headers.Keys, fifo)| == |Carried(headers, fifo)|
  {
    hide AttributeOf;
    var own, carried := AttributesFor(headers, headers.Keys, fifo), Carried(headers, fifo);
    assert own.Keys == carried.Keys;
    assert |own| == |own.Keys| && |carried| == |carried.Keys|;
  }

  /** Text the service carries travels as it is, in the body and in the headers, and all else as bytes. */
  lemma FramedAsText(
    fifo: bool, payload: seq<byte>, headers: Headers, options: Option<PublishOptions>, mounted: Option<Text>, crateId: Text)
    requires Framed(fifo, payload, headers, options, mounted, crateId).Success?
    ensures var outbound := Framed(fifo, payload, headers, options, mounted, crateId).value;
            && outbound.body == (if IsServiceText(payload) then payload else Base64.Encode(payload))
            && (ENCODING in outbound.attributes <==> !IsServiceText(payload))
            && (forall name :: name in Carried(headers, fifo) ==>
                  && name in outbound.attributes && outbound.attributes[name].Bytes() == headers[name]
                  && (outbound.attributes[name].Str? <==> IsServiceText(headers[name])))
  {
    hide IsServiceText;
    MarkIsTheCrates(headers, EncodeBody(payload).1, fifo);
    AttributesAreCarried(headers, EncodeBody(payload).1, fifo);
  }

  lemma HeadersRoundTrip(
    outbound: Outbound, headers: Headers, mark: bool, fifo: bool, receipt: Option<nat>, receives: Option<nat>)
    requires ENCODING !in headers && outbound.attributes == AttributesOf(headers, mark, fifo)
    requires outbound.fifo.Some? == fifo
    ensures DecodedHeaders(WireMessage(outbound, receipt, receives)) == HeadersRead(headers, outbound, receives)
  {
    var m := WireMessage(outbound, receipt, receives);
    CarriedHeadersRoundTrip(m, headers, mark, fifo);
    if fifo {
      var group := outbound.fifo.value.group;
      assert Carried(headers, fifo)[PARTITION_KEY := group] == headers[PARTITION_KEY := group];
    }
  }

  lemma MarkIsTheCrates(headers: Headers, mark: bool, fifo: bool)
    requires ENCODING !in headers
    ensures ENCODING in AttributesOf(headers, mark, fifo) <==> mark
    ensures mark ==> AttributesOf(headers, mark, fifo)[ENCODING] == BASE64_MARK
  {
  }

  /** The attributes are those of the carried headers, and the marker when there is one. */
  lemma AttributesAreCarried(headers: Headers, mark: bool, fifo: bool)
    requires ENCODING !in headers
    ensures var attributes := AttributesOf(headers, mark, fifo);
            && (forall name :: name in attributes && name != ENCODING <==> name in Carried(headers, fifo))
            && (forall name :: name in Carried(headers, fifo) ==> attributes[name].Bytes() == headers[name])
  {
    hide IsServiceText;
  }

  lemma CarriedHeadersRoundTrip(m: Message, headers: Headers, mark: bool, fifo: bool)
    requires ENCODING !in headers && m.attributes == AttributesOf(headers, mark, fifo)
    ensures (map name | name in m.attributes && !(name == ENCODING && Marked(m)) :: m.attributes[name].Bytes())
         == Carried(headers, fifo)
  {
    MarkIsTheCrates(headers, mark, fifo);
    AttributesAreCarried(headers, mark, fifo);
    assert forall name :: name in Carried(headers, fifo) ==> headers[name] == Carried(headers, fifo)[name];
    hide AttributesOf, Carried;
  }

  /**
   * The copy of a FIFO topic's message on a standard queue keeps the payload and loses exactly the
   * partition key: it became a group, and a standard queue has none to give back.
   */
  lemma StandardCopyRoundTrip(
    payload: seq<byte>, headers: Headers, options: Option<PublishOptions>, mounted: Option<Text>, crateId: Text,
    receipt: Option<nat>, receives: Option<nat>)
    requires Framed(true, payload, headers, options, mounted, crateId).Success?
    ensures var copy := Framed(true, payload, headers, options, mounted, crateId).value.(fifo := None);
            var m := WireMessage(copy, receipt, receives);
            && DecodeBody(m.body, Marked(m)) == payload
            && DecodedHeaders(m) == HeadersRead(headers - {PARTITION_KEY}, copy, receives)
  {
    var copy := Framed(true, payload, headers, options, mounted, crateId).value.(fifo := None);
    var m := WireMessage(copy, receipt, receives);
    BodyRoundTrip(payload);
    MarkIsTheCrates(headers, EncodeBody(payload).1, true);
    CarriedHeadersRoundTrip(m, headers, EncodeBody(payload).1, true);
  }

  // ---------------------------------------------------------------------------------------------
  // What the service refuses

  predicate Contains(s: string, part: string)
  {
    exists i :: 0 <= i <= |s| - |part| && s[i..][..|part|] == part
  }

  predicate AttributeNameAccepted(name: string)
  {
    && name != "" && ByteLength(name) <= 256
    && (forall i :: 0 <= i < |name| ==> IsAlphanumeric(name[i]) || name[i] in "_-.")
    && !StartsWith(name, ".") && !EndsWith(name, ".") && !Contains(name, "..")
    && !StartsWith(ToLower(name), "aws.") && !StartsWith(ToLower(name), "amazon.")
  }

  function AttributeSize(name: string, value: Attribute): nat
  {
    ByteLength(name) + |value.DataType()| + |value.Bytes()|
  }

  ghost function MessageSize(outbound: Outbound): nat
  {
    |outbound.body| + Sum(outbound.attributes.Keys,
      name => if name in outbound.attributes then AttributeSize(name, outbound.attributes[name]) else 0)
  }

  ghost predicate MessageAccepted(outbound: Outbound, limit: nat)
  {
    && outbound.body != [] && IsServiceText(outbound.body)
    && (forall name :: name in outbound.attributes ==>
          AttributeNameAccepted(name) && outbound.attributes[name].Bytes() != [])
    && MessageSize(outbound) <= limit
  }

  /** Adds the attributes up one by one, stopping at the first the service refuses. */
  method CheckMessage(outbound: Outbound, limit: nat) returns (accepted: bool)
    ensures accepted == MessageAccepted(outbound, limit)
  {
    if outbound.body == [] || !IsServiceText(outbound.body) {
      return false;
    }
    var size := |outbound.body|;
    var pending := outbound.attributes.Keys;
    ghost var f := name => if name in outbound.attributes then AttributeSize(name, outbound.attributes[name]) else 0;
    while pending != {}
      invariant pending <= outbound.attributes.Keys
      invariant size + Sum(pending, f) == MessageSize(outbound)
      invariant forall name :: name in outbound.attributes && name !in pending ==>
                  AttributeNameAccepted(name) && outbound.attributes[name].Bytes() != []
    {
      var name :| name in pending;
      var value := outbound.attributes[name];
      if !AttributeNameAccepted(name) || value.Bytes() == [] {
        return false;
      }
      SumWithout(pending, f, name);
      size := size + AttributeSize(name, value);
      pending := pending - {name};
    }
    return size <= limit;
  }

  /** A group or deduplication id the service takes: 1 to 128 letters, digits and punctuation. */
  predicate IdAccepted(id: Text)
  {
    1 <= |id| <= MAX_FIFO_ID && forall i :: 0 <= i < |id| ==> 0x21 <= id[i] <= 0x7E
  }

  predicate FifoAccepted(outbound: Outbound)
  {
    outbound.fifo.Some? ==> IdAccepted(outbound.fifo.value.group) && IdAccepted(outbound.fifo.value.deduplication)
  }

  /** A header-chosen group the service takes is the header's own bytes: nothing was replaced. */
  lemma AcceptedGroupIsTheHeader(
    payload: seq<byte>, headers: Headers, options: Option<PublishOptions>, mounted: Option<Text>, crateId: Text)
    requires PARTITION_KEY in headers && GroupOption(options).None?
    requires Framed(true, payload, headers, options, mounted, crateId).Success?
    requires FifoAccepted(Framed(true, payload, headers, options, mounted, crateId).value)
    ensures var outbound := Framed(true, payload, headers, options, mounted, crateId).value;
            outbound.fifo.value.group == headers[PARTITION_KEY] && HeadersRead(headers, outbound, None) == headers
  {
    Utf8.LossyAscii(headers[PARTITION_KEY]);
  }
}
