/**
 * The full-output handler: it turns one dnstap frame into one flat,
 * anonymized key/value event for the Fluentd sink, or into no event when the
 * embedded DNS message does not parse.
 *
 * What the handler reaches outside itself is passed in: the DNS wire parser
 * (`unpack`), the string tables of the enum and DNS libraries (`Tables`), the
 * logging level, and whether the Fluentd `Post` fails. What it sends to its
 * error channel and to `Post` comes back as an `Outcome`.
 */
module FullOutput {
  import opened Basics
  import opened Masks
  import opened Labels
  import opened Dnstap

  /** The settings the output reads: the two prefix lengths and the tag. */
  datatype Config = Config(ipv4Mask: int, ipv6Mask: int, tag: string)

  /** The handler's state, fixed at construction. */
  datatype Output = Output(config: Config, ipv4Mask: seq<byte>, ipv6Mask: seq<byte>, tag: string)

  /** Builds the two masks once from the configured prefix lengths. */
  function NewFullOutput(config: Config): (o: Output)
    ensures o.config == config && o.tag == config.tag
    ensures 0 <= config.ipv4Mask <= 32 ==>
      |o.ipv4Mask| == 4 && forall i | 0 <= i < 32 :: Bit(o.ipv4Mask, i) <==> i < config.ipv4Mask
    ensures 0 <= config.ipv6Mask <= 128 ==>
      |o.ipv6Mask| == 16 && forall i | 0 <= i < 128 :: Bit(o.ipv6Mask, i) <==> i < config.ipv6Mask
    ensures !(0 <= config.ipv4Mask <= 32) ==> o.ipv4Mask == []
    ensures !(0 <= config.ipv6Mask <= 128) ==> o.ipv6Mask == []
  {
    Output(config, CidrMask(config.ipv4Mask, 32), CidrMask(config.ipv6Mask, 128), config.tag)
  }

  /** The logging levels of the logging library, from least to most verbose. */
  datatype Level = PanicLevel | FatalLevel | ErrorLevel | WarnLevel | InfoLevel | DebugLevel | TraceLevel

  function Rank(l: Level): nat {
    match l
    case PanicLevel => 0
    case FatalLevel => 1
    case ErrorLevel => 2
    case WarnLevel => 3
    case InfoLevel => 4
    case DebugLevel => 5
    case TraceLevel => 6
  }

  /** `log.GetLevel() >= threshold`. */
  predicate AtLeast(level: Level, threshold: Level) {
    Rank(level) >= Rank(threshold)
  }

  /** A value stored in the event. Timestamps keep their raw seconds and
      nanoseconds; addresses keep their masked bytes (None where the library
      returns a nil address). */
  datatype Value =
    | Text(s: string)
    | Bytes(b: seq<byte>)
    | Number(n: nat)
    | Flag(f: bool)
    | Time(sec: nat, nsec: nat)
    | Address(masked: Option<seq<byte>>)

  /** The keys the handler writes. `KeyName` gives the string each one is
      posted under. */
  datatype Key =
    | Timestamp | Identity
    | QueryAddress | QueryPort
    | ResponseAddress | ResponsePort | ResponseZone
    | Type | SocketFamily | SocketProtocol | Version | Extra
    | QName | QClass | QType | RCode
    | AA | TC | RD | RA | AD | CD
    | Tld | SecondLd | ThirdLd | FourthLd

  function KeyName(k: Key): string {
    match k
    case Timestamp => "@timestamp"
    case Identity => "identity"
    case QueryAddress => "query_address"
    case QueryPort => "query_port"
    case ResponseAddress => "response_address"
    case ResponsePort => "response_port"
    case ResponseZone => "response_zone"
    case Type => "type"
    case SocketFamily => "socket_family"
    case SocketProtocol => "socket_protocol"
    case Version => "version"
    case Extra => "extra"
    case QName => "qname"
    case QClass => "qclass"
    case QType => "qtype"
    case RCode => "rcode"
    case AA => "aa"
    case TC => "tc"
    case RD => "rd"
    case RA => "ra"
    case AD => "ad"
    case CD => "cd"
    case Tld => "tld"
    case SecondLd => "2ld"
    case ThirdLd => "3ld"
    case FourthLd => "4ld"
  }

  type Event = map<Key, Value>

  /** The string renderings the handler takes from other libraries. */
  datatype Tables = Tables(
    typeName: MessageType -> string,
    familyName: int -> string,
    protocolName: int -> string,
    className: nat -> string,
    qtypeName: nat -> string,
    rcodeName: nat -> string)

  /** What the handler sends to its error channel. */
  datatype Report = ParseFailed | PublishFailed(tag: string)

  /** What one call of the handler does. `Dropped`: the payload did not parse
      and `Post` is not called. `Panicked`: the message parsed with an empty
      question section and indexing its first question panics. `Posted`:
      `Post` was called once with this tag and event. */
  datatype Outcome =
    | Dropped(reports: seq<Report>)
    | Panicked
    | Posted(tag: string, event: Event, reports: seq<Report>)

  /** The label table: suffix depth to field name. */
  const Names: map<int, Key> := map[2 := Tld, 3 := SecondLd, 4 := ThirdLd, 5 := FourthLd]

  const QueryKeys: set<Key> := {Timestamp, Identity, QueryAddress, QueryPort}
  const ResponseKeys: set<Key> := {Timestamp, Identity, ResponseAddress, ResponsePort, ResponseZone}
  const CommonKeys: set<Key> :=
    {Type, SocketFamily, SocketProtocol, Version, Extra, QName, QClass, QType, RCode, AA, TC, RD, RA, AD, CD}
  const LabelKeys: set<Key> := {Tld, SecondLd, ThirdLd, FourthLd}

  /** The payload the handler parses: the query message when the record
      carries one, otherwise the response message. */
  function SelectPayload(m: Message): (p: seq<byte>)
    ensures m.queryMessage.Some? ==> p == m.queryMessage.value
    ensures m.queryMessage.None? ==> p == m.GetResponseMessage()
  {
    if m.queryMessage.Some? then m.GetQueryMessage() else m.GetResponseMessage()
  }

  /** The payload choice as the source writes it: the test compares the
      method value `GetQueryMessage` with nil, which never holds, so the
      query getter is always the one called. */
  function SelectPayloadAsWritten(m: Message): (p: seq<byte>)
    ensures m.queryMessage.Some? ==> p == m.queryMessage.value
    ensures m.queryMessage.None? ==> p == []
  {
    m.GetQueryMessage()
  }

  /** A record that carries only a response message: as written, the handler
      parses the empty query payload, which no DNS parser accepts (a message
      starts with a 12-byte header), so the record is dropped; the corrected
      choice parses the response. */
  lemma AsWrittenDropsResponseOnly(m: Message, unpack: seq<byte> -> Option<DnsMsg>)
    requires m.queryMessage.None? && m.responseMessage.Some?
    requires unpack([]).None? && unpack(m.responseMessage.value).Some?
    ensures unpack(SelectPayloadAsWritten(m)).None?
    ensures unpack(SelectPayload(m)).Some?
  {
  }

  /** The two choices differ only for records without a query message. */
  lemma SelectionsAgreeWithQuery(m: Message)
    requires m.queryMessage.Some?
    ensures SelectPayloadAsWritten(m) == SelectPayload(m)
  {
  }

  /** The anonymized form of an address: a 4-byte address masked with the
      IPv4 mask, any other with the IPv6 mask. */
  function MaskAddress(o: Output, addr: seq<byte>): (r: Option<seq<byte>>)
    ensures r.Some? <==> if |addr| == 4 then |o.ipv4Mask| == 4 else |addr| == |o.ipv6Mask|
    ensures r.Some? ==> |r.value| == |addr|
    ensures r.Some? ==> forall i | 0 <= i < 8 * |addr| :: Bit(r.value, i) ==> Bit(addr, i)
  {
    var mask := if |addr| == 4 then o.ipv4Mask else o.ipv6Mask;
    if |addr| == |mask| then
      ApplyMaskBits(addr, mask);
      ApplyMask(addr, mask)
    else
      ApplyMask(addr, mask)
  }

  /** `r` is `addr` anonymized under prefix lengths `v4` and `v6`: a 4-byte
      address keeps its first `v4` bits and loses the rest, a 16-byte one its
      first `v6` bits, and any other length has no masked form. */
  ghost predicate Anonymized(r: Option<seq<byte>>, addr: seq<byte>, v4: int, v6: int) {
    && (|addr| == 4 ==>
          r.Some? && |r.value| == 4 &&
          forall i | 0 <= i < 32 :: Bit(r.value, i) <==> i < v4 && Bit(addr, i))
    && (|addr| == 16 ==>
          r.Some? && |r.value| == 16 &&
          forall i | 0 <= i < 128 :: Bit(r.value, i) <==> i < v6 && Bit(addr, i))
    && (|addr| != 4 && |addr| != 16 ==> r.None?)
  }

  /** The privacy boundary: with valid prefix lengths every address the
      handler emits has all its host bits cleared. */
  lemma MaskAddressAnonymizes(config: Config, addr: seq<byte>)
    requires 0 <= config.ipv4Mask <= 32 && 0 <= config.ipv6Mask <= 128
    ensures Anonymized(MaskAddress(NewFullOutput(config), addr), addr, config.ipv4Mask, config.ipv6Mask)
  {
    if |addr| == 4 {
      CidrMaskedAddressBits(addr, config.ipv4Mask, 32);
    } else if |addr| == 16 {
      CidrMaskedAddressBits(addr, config.ipv6Mask, 128);
    }
  }

  /** Masking an emitted address again changes nothing. */
  lemma MaskAddressIdempotent(o: Output, addr: seq<byte>)
    requires MaskAddress(o, addr).Some?
    ensures MaskAddress(o, MaskAddress(o, addr).value) == MaskAddress(o, addr)
  {
    if |addr| == 4 {
      ApplyMaskIdempotent(addr, o.ipv4Mask);
    } else {
      ApplyMaskIdempotent(addr, o.ipv6Mask);
    }
  }

  /** The fields that depend on the record's class. */
  function RoleFields(o: Output, f: Frame): Event {
    var m := f.message;
    match Classify(m.msgType)
    case QueryClass =>
      map[Timestamp := Time(m.queryTimeSec, m.queryTimeNsec),
          Identity := Bytes(f.identity),
          QueryAddress := Address(MaskAddress(o, m.queryAddress)),
          QueryPort := Number(m.queryPort)]
    case ResponseClass =>
      map[Timestamp := Time(m.responseTimeSec, m.responseTimeNsec),
          Identity := Bytes(f.identity),
          ResponseAddress := Address(MaskAddress(o, m.responseAddress)),
          ResponsePort := Number(m.responsePort),
          ResponseZone := Bytes(m.queryZone)]
    case OtherClass => map[]
  }

  /** The values every parsed record gets, in the order they are written:
      the record's type, socket family and protocol, the frame's version and
      extra bytes, the first question's name, class and type, the response
      code, and the six header flags. */
  function CommonValues(f: Frame, q: DnsMsg, tables: Tables): (v: seq<Value>)
    requires |q.question| >= 1
    ensures |v| == 15
  {
    var m := f.message;
    var question := q.question[0];
    [Text(tables.typeName(m.msgType)), Text(tables.familyName(m.socketFamily)),
     Text(tables.protocolName(m.socketProtocol)), Bytes(f.version), Bytes(f.extra),
     Text(question.name), Text(tables.className(question.qclass)),
     Text(tables.qtypeName(question.qtype)), Text(tables.rcodeName(q.rcode)),
     Flag(q.authoritative), Flag(q.truncated), Flag(q.recursionDesired),
     Flag(q.recursionAvailable), Flag(q.authenticatedData), Flag(q.checkingDisabled)]
  }

  /** The fifteen common keys holding the values `v`. */
  function CommonMap(v: seq<Value>): Event
    requires |v| == 15
  {
    map[Type := v[0], SocketFamily := v[1], SocketProtocol := v[2], Version := v[3],
        Extra := v[4], QName := v[5], QClass := v[6], QType := v[7], RCode := v[8],
        AA := v[9], TC := v[10], RD := v[11], RA := v[12], AD := v[13], CD := v[14]]
  }

  /** The fields every parsed record gets. */
  function CommonFields(f: Frame, q: DnsMsg, tables: Tables): Event
    requires |q.question| >= 1
  {
    CommonMap(CommonValues(f, q, tables))
  }

  /** The four suffix-label fields of a name. */
  function LabelFields(name: string): Event {
    map[Tld := Text(LabelField(name, 2)),
        SecondLd := Text(LabelField(name, 3)),
        ThirdLd := Text(LabelField(name, 4)),
        FourthLd := Text(LabelField(name, 5))]
  }

  /** The event built for a record whose message parsed with a question. */
  function EventOf(o: Output, f: Frame, q: DnsMsg, tables: Tables): Event
    requires |q.question| >= 1
  {
    RoleFields(o, f) + CommonFields(f, q, tables) + LabelFields(q.question[0].name)
  }

  /** The reports a failed parse leaves: one, at debug level or above. */
  function ParseReports(level: Level): seq<Report> {
    if AtLeast(level, DebugLevel) then [ParseFailed] else []
  }

  /** The reports a publish leaves: one if it failed at warn level or above. */
  function PublishReports(tag: string, level: Level, postFails: bool): seq<Report> {
    if postFails && AtLeast(level, WarnLevel) then [PublishFailed(tag)] else []
  }

  /** What the handler does after parsing its payload: drop the record when
      the parse failed, panic on an empty question section, post the event
      otherwise. */
  function Process(o: Output, f: Frame, parsed: Option<DnsMsg>, tables: Tables,
                   level: Level, postFails: bool): Outcome
  {
    match parsed
    case None => Dropped(ParseReports(level))
    case Some(q) =>
      if |q.question| == 0 then Panicked
      else Posted(o.tag, EventOf(o, f, q, tables), PublishReports(o.tag, level, postFails))
  }

  /** What one call of the handler does, as a whole, with the corrected
      payload choice. */
  function HandleSpec(o: Output, f: Frame, unpack: seq<byte> -> Option<DnsMsg>, tables: Tables,
                      level: Level, postFails: bool): Outcome
  {
    Process(o, f, unpack(SelectPayload(f.message)), tables, level, postFails)
  }

  /** One call of the handler with the payload choice as the source writes
      it. */
  function HandleSpecAsWritten(o: Output, f: Frame, unpack: seq<byte> -> Option<DnsMsg>, tables: Tables,
                               level: Level, postFails: bool): Outcome
  {
    Process(o, f, unpack(SelectPayloadAsWritten(f.message)), tables, level, postFails)
  }

  /** The outcome of a record whose payload parsed with a question. */
  lemma HandleSpecPosted(o: Output, f: Frame, unpack: seq<byte> -> Option<DnsMsg>, tables: Tables,
                         level: Level, postFails: bool, q: DnsMsg)
    requires unpack(SelectPayload(f.message)) == Some(q) && |q.question| >= 1
    ensures HandleSpec(o, f, unpack, tables, level, postFails)
            == Posted(o.tag, EventOf(o, f, q, tables), PublishReports(o.tag, level, postFails))
  {
  }

  /** One order in which Go's `range` visits the label table: every key once. */
  predicate IsIterationOrder(order: seq<int>) {
    multiset(order) == multiset(Names.Keys)
  }

  /** The value the label loop stores for each depth of the table. */
  function LabelValues(name: string): map<int, Value> {
    map d | d in Names :: Text(LabelField(name, d))
  }

  /** The table value of one depth is the label field of that depth. */
  lemma {:induction false} LabelValueAt(name: string, d: int)
    requires d in Names
    ensures d in LabelValues(name)
    ensures LabelValues(name)[d] == Text(FieldOfLabels(Split(name), name, d))
  {
  }

  /** The label fields written after visiting the depths in `order`, each
      visit storing `values[d]` under `Names[d]`. */
  function LabelsWritten(order: seq<int>, values: map<int, Value>): Event
    requires forall k | 0 <= k < |order| :: order[k] in Names && order[k] in values
  {
    if order == [] then map[]
    else
      var d := order[|order| - 1];
      LabelsWritten(order[..|order| - 1], values)[Names[d] := values[d]]
  }

  /** Distinct depths have distinct field names. */
  lemma NamesDistinct(d: int, e: int)
    requires d in Names && e in Names && d != e
    ensures Names[d] != Names[e]
  {
  }

  /** After any sequence of visits, each visited depth's field holds that
      depth's value. */
  lemma {:induction false} LabelsWrittenEntries(order: seq<int>, values: map<int, Value>)
    requires forall k | 0 <= k < |order| :: order[k] in Names && order[k] in values
    ensures forall k | 0 <= k < |order| ::
      Names[order[k]] in LabelsWritten(order, values) &&
      LabelsWritten(order, values)[Names[order[k]]] == values[order[k]]
  {
    if order != [] {
      var n := |order|;
      var init := order[..n - 1];
      var last := order[n - 1];
      LabelsWrittenEntries(init, values);
      var written := LabelsWritten(order, values);
      assert written == LabelsWritten(init, values)[Names[last] := values[last]];
      forall k | 0 <= k < n
        ensures Names[order[k]] in written && written[Names[order[k]]] == values[order[k]]
      {
        if order[k] != last {
          assert order[k] == init[k];
          NamesDistinct(order[k], last);
        }
      }
    }
  }

  /** Every key written is the field name of a visited depth. */
  lemma {:induction false} LabelsWrittenKeys(order: seq<int>, values: map<int, Value>)
    requires forall k | 0 <= k < |order| :: order[k] in Names && order[k] in values
    ensures forall x | x in LabelsWritten(order, values) ::
      exists k :: 0 <= k < |order| && Names[order[k]] == x
  {
    if order != [] {
      var n := |order|;
      var init := order[..n - 1];
      var last := order[n - 1];
      LabelsWrittenKeys(init, values);
      var written := LabelsWritten(order, values);
      assert written == LabelsWritten(init, values)[Names[last] := values[last]];
      forall x | x in written ensures exists k :: 0 <= k < n && Names[order[k]] == x {
        if x != Names[last] {
          var k :| 0 <= k < n - 1 && Names[init[k]] == x;
          assert order[k] == init[k];
        }
      }
    }
  }

  /** Every key of the table occurs in an iteration order, and nothing else. */
  lemma OrderCoversNames(order: seq<int>)
    requires IsIterationOrder(order)
    ensures forall k | 0 <= k < |order| :: order[k] in Names
    ensures forall d | d in Names :: exists k :: 0 <= k < |order| && order[k] == d
  {
    forall k | 0 <= k < |order| ensures order[k] in Names {
      assert order[k] in multiset(order);
    }
    forall d | d in Names ensures exists k :: 0 <= k < |order| && order[k] == d {
      assert d in multiset(order);
    }
  }

  /** After any iteration order, each field name of the table holds its
      depth's value. */
  lemma LabelsWrittenByName(order: seq<int>, values: map<int, Value>)
    requires IsIterationOrder(order)
    requires values.Keys == Names.Keys
    ensures forall k | 0 <= k < |order| :: order[k] in Names && order[k] in values
    ensures forall d | d in Names ::
      Names[d] in LabelsWritten(order, values) && LabelsWritten(order, values)[Names[d]] == values[d]
  {
    OrderCoversNames(order);
    LabelsWrittenEntries(order, values);
    forall d | d in Names
      ensures Names[d] in LabelsWritten(order, values) && LabelsWritten(order, values)[Names[d]] == values[d]
    {
      var k :| 0 <= k < |order| && order[k] == d;
    }
  }

  /** After any iteration order, only field names of the table are written. */
  lemma LabelsWrittenOnlyNames(order: seq<int>, values: map<int, Value>)
    requires IsIterationOrder(order)
    requires values.Keys == Names.Keys
    ensures forall k | 0 <= k < |order| :: order[k] in Names && order[k] in values
    ensures forall x | x in LabelsWritten(order, values) :: x in LabelKeys
  {
    OrderCoversNames(order);
    LabelsWrittenKeys(order, values);
    forall x | x in LabelsWritten(order, values) ensures x in LabelKeys {
      var k :| 0 <= k < |order| && Names[order[k]] == x;
      NameIsLabelKey(order[k]);
    }
  }

  lemma NameIsLabelKey(d: int)
    requires d in Names
    ensures Names[d] in LabelKeys
  {
  }

  /** An event whose keys are label keys and which holds the given four
      values under them is exactly those four entries. */
  lemma LabelMapExtensional(w: Event, tld: Value, second: Value, third: Value, fourth: Value)
    requires forall x | x in w :: x in LabelKeys
    requires Tld in w && w[Tld] == tld && SecondLd in w && w[SecondLd] == second
    requires ThirdLd in w && w[ThirdLd] == third && FourthLd in w && w[FourthLd] == fourth
    ensures w == map[Tld := tld, SecondLd := second, ThirdLd := third, FourthLd := fourth]
  {
    var expected := map[Tld := tld, SecondLd := second, ThirdLd := third, FourthLd := fourth];
    assert w.Keys == expected.Keys;
  }

  /** The label fields do not depend on the order of visits: every order Go
      may pick writes each of the four field names once, with its depth's
      value. */
  lemma {:induction false} LabelsAnyOrder(order: seq<int>, values: map<int, Value>)
    requires IsIterationOrder(order)
    requires values.Keys == Names.Keys
    ensures forall k | 0 <= k < |order| :: order[k] in Names && order[k] in values
    ensures LabelsWritten(order, values) ==
      map[Tld := values[2], SecondLd := values[3], ThirdLd := values[4], FourthLd := values[5]]
  {
    LabelsWrittenByName(order, values);
    LabelsWrittenOnlyNames(order, values);
    assert 2 in Names && Names[2] == Tld && 3 in Names && Names[3] == SecondLd;
    assert 4 in Names && Names[4] == ThirdLd && 5 in Names && Names[5] == FourthLd;
    LabelMapExtensional(LabelsWritten(order, values), values[2], values[3], values[4], values[5]);
  }

  /** Lines 81-106: the class-dependent fields, into an empty event. */
  method PutRoleFields(o: Output, f: Frame) returns (data: Event)
    ensures data == RoleFields(o, f)
  {
    var msg := f.message;
    data := map[];
    match Classify(msg.msgType) {
      case QueryClass =>
        data := data[Timestamp := Time(msg.queryTimeSec, msg.queryTimeNsec)];
        data := data[Identity := Bytes(f.identity)];
        if |msg.queryAddress| == 4 {
          data := data[QueryAddress := Address(ApplyMask(msg.queryAddress, o.ipv4Mask))];
        } else {
          data := data[QueryAddress := Address(ApplyMask(msg.queryAddress, o.ipv6Mask))];
        }
        data := data[QueryPort := Number(msg.queryPort)];
      case ResponseClass =>
        data := data[Timestamp := Time(msg.responseTimeSec, msg.responseTimeNsec)];
        data := data[Identity := Bytes(f.identity)];
        if |msg.responseAddress| == 4 {
          data := data[ResponseAddress := Address(ApplyMask(msg.responseAddress, o.ipv4Mask))];
        } else {
          data := data[ResponseAddress := Address(ApplyMask(msg.responseAddress, o.ipv6Mask))];
        }
        data := data[ResponsePort := Number(msg.responsePort)];
        data := data[ResponseZone := Bytes(msg.queryZone)];
      case OtherClass =>
    }
  }

  /** Writing fifteen values one key at a time over `data0` is adding the
      display of those keys to it. Stated over arbitrary values so that the
      solver need not look inside them. */
  lemma CommonChain(data0: Event, v: seq<Value>)
    requires |v| == 15
    ensures data0[Type := v[0]][SocketFamily := v[1]][SocketProtocol := v[2]][Version := v[3]]
                 [Extra := v[4]][QName := v[5]][QClass := v[6]][QType := v[7]][RCode := v[8]]
                 [AA := v[9]][TC := v[10]][RD := v[11]][RA := v[12]][AD := v[13]][CD := v[14]]
         == data0 + CommonMap(v)
  {
  }

  /** Lines 107-121: the fields every parsed record gets, added to `data`. */
  method PutCommonFields(data0: Event, f: Frame, q: DnsMsg, tables: Tables) returns (data: Event)
    requires |q.question| >= 1
    ensures data == data0 + CommonFields(f, q, tables)
  {
    var msg := f.message;
    var question := q.question[0];
    data := data0;
    data := data[Type := Text(tables.typeName(msg.msgType))];
    data := data[SocketFamily := Text(tables.familyName(msg.socketFamily))];
    data := data[SocketProtocol := Text(tables.protocolName(msg.socketProtocol))];
    data := data[Version := Bytes(f.version)];
    data := data[Extra := Bytes(f.extra)];
    data := data[QName := Text(question.name)];
    data := data[QClass := Text(tables.className(question.qclass))];
    data := data[QType := Text(tables.qtypeName(question.qtype))];
    data := data[RCode := Text(tables.rcodeName(q.rcode))];
    data := data[AA := Flag(q.authoritative)];
    data := data[TC := Flag(q.truncated)];
    data := data[RD := Flag(q.recursionDesired)];
    data := data[RA := Flag(q.recursionAvailable)];
    data := data[AD := Flag(q.authenticatedData)];
    data := data[CD := Flag(q.checkingDisabled)];
    CommonChain(data0, CommonValues(f, q, tables));
  }

  /** Writing one key over a union writes it into the right-hand side. */
  lemma UpdateOverUnion(m: Event, extra: Event, k: Key, v: Value)
    ensures (m + extra)[k := v] == m + extra[k := v]
  {
  }

  /** One visit of the label loop extends the written fields by the visited
      depth's value. */
  lemma {:induction false} LabelStep(data0: Event, order: seq<int>, k: nat, name: string)
    requires k < |order|
    requires forall j | 0 <= j < |order| :: order[j] in Names
    ensures forall j | 0 <= j < |order| :: order[j] in LabelValues(name)
    ensures (data0 + LabelsWritten(order[..k], LabelValues(name)))
              [Names[order[k]] := Text(FieldOfLabels(Split(name), name, order[k]))]
            == data0 + LabelsWritten(order[..k + 1], LabelValues(name))
  {
    var values := LabelValues(name);
    forall j | 0 <= j < |order| ensures order[j] in values {
      LabelValueAt(name, order[j]);
    }
    LabelValueAt(name, order[k]);
    assert order[..k + 1][..k] == order[..k];
    UpdateOverUnion(data0, LabelsWritten(order[..k], values), Names[order[k]], values[order[k]]);
  }

  /** Lines 123-131: split the name and, for each depth of the label table
      in the order `order` Go's map iteration picks, store the joined labels
      or, when the name is too short, the whole name. */
  method PutLabelFields(data0: Event, name: string, order: seq<int>) returns (data: Event)
    requires IsIterationOrder(order)
    ensures data == data0 + LabelFields(name)
  {
    LabelsAnyOrder(order, LabelValues(name));
    var labels := Split(name);
    data := data0;
    var k := 0;
    while k < |order|
      invariant 0 <= k <= |order|
      invariant data == data0 + LabelsWritten(order[..k], LabelValues(name))
    {
      var i := order[k];
      var n := Names[i];
      data := data[n := Text(FieldOfLabels(labels, name, i))];
      LabelStep(data0, order, k, name);
      k := k + 1;
    }
    assert order[..|order|] == order;
  }

  /** Lines 81-131: the event of a record whose message parsed with a
      question, built one key at a time. */
  method BuildEvent(o: Output, f: Frame, q: DnsMsg, tables: Tables, order: seq<int>)
    returns (data: Event)
    requires |q.question| >= 1
    requires IsIterationOrder(order)
    ensures data == EventOf(o, f, q, tables)
  {
    data := PutRoleFields(o, f);
    data := PutCommonFields(data, f, q, tables);
    data := PutLabelFields(data, q.question[0].name, order);
  }

  /** The handler: choose and parse the payload, build the event, publish it
      once, and report failures by level. */
  method Handle(o: Output, f: Frame, unpack: seq<byte> -> Option<DnsMsg>, tables: Tables,
                level: Level, postFails: bool, order: seq<int>)
    returns (out: Outcome)
    requires IsIterationOrder(order)
    ensures out == HandleSpec(o, f, unpack, tables, level, postFails)
  {
    var msg := f.message;
    var dnsMessage: seq<byte>;
    if msg.queryMessage.Some? {
      dnsMessage := msg.GetQueryMessage();
    } else {
      dnsMessage := msg.GetResponseMessage();
    }
    var parsed := unpack(dnsMessage);
    if parsed.None? {
      var reports: seq<Report> := [];
      if AtLeast(level, DebugLevel) {
        reports := reports + [ParseFailed];
      }
      return Dropped(reports);
    }
    var q := parsed.value;
    if |q.question| == 0 {
      // The source builds the class fields first and then indexes
      // Question[0] of an empty question section: index out of range.
      return Panicked;
    }
    var data := BuildEvent(o, f, q, tables, order);
    var reports: seq<Report> := [];
    if postFails {
      if AtLeast(level, WarnLevel) {
        reports := reports + [PublishFailed(o.tag)];
      }
    }
    HandleSpecPosted(o, f, unpack, tables, level, postFails, q);
    out := Posted(o.tag, data, reports);
  }
}

/** What the handler promises, stated over its specification. */
module FullOutputProperties {
  import opened Basics
  import opened Masks
  import opened Labels
  import opened Dnstap
  import opened FullOutput

  /** Distinct keys are posted under distinct names, so the enum keys stand
      for the string keys of the source's map one to one. */
  lemma KeyNamesDistinct(a: Key, b: Key)
    requires a != b
    ensures KeyName(a) != KeyName(b)
  {
  }

  /** Debug messages are on exactly at the two most verbose levels, warnings
      at every level from warn on. */
  lemma LevelThresholds(level: Level)
    ensures AtLeast(level, DebugLevel) <==> level == DebugLevel || level == TraceLevel
    ensures AtLeast(level, WarnLevel) <==> !(level == PanicLevel || level == FatalLevel || level == ErrorLevel)
  {
  }

  /** A payload that does not parse drops the record: nothing is posted and
      the error channel gets one parse report exactly when debug logging is
      on. */
  lemma ParseFailureDrops(o: Output, f: Frame, unpack: seq<byte> -> Option<DnsMsg>, tables: Tables,
                          level: Level, postFails: bool)
    requires unpack(SelectPayload(f.message)).None?
    ensures HandleSpec(o, f, unpack, tables, level, postFails).Dropped?
    ensures var r := HandleSpec(o, f, unpack, tables, level, postFails).reports;
      (r == [ParseFailed] <==> level == DebugLevel || level == TraceLevel) &&
      (r == [] <==> !(level == DebugLevel || level == TraceLevel))
  {
    LevelThresholds(level);
  }

  /** The handler posts exactly when the payload parses with a question, under
      the configured tag, and reports a failed post exactly when warnings are
      on. */
  lemma PostedExactly(o: Output, f: Frame, unpack: seq<byte> -> Option<DnsMsg>, tables: Tables,
                      level: Level, postFails: bool)
    ensures var out := HandleSpec(o, f, unpack, tables, level, postFails);
      out.Posted? <==> unpack(SelectPayload(f.message)).Some? && |unpack(SelectPayload(f.message)).value.question| >= 1
    ensures var out := HandleSpec(o, f, unpack, tables, level, postFails);
      out.Posted? ==>
        out.tag == o.tag &&
        (out.reports == [PublishFailed(o.tag)] <==> postFails && AtLeast(level, WarnLevel)) &&
        (out.reports == [] <==> !(postFails && AtLeast(level, WarnLevel)))
  {
  }

  /** A record that carries only a response message, whose response parses
      with a question: as written the handler drops it, while the corrected
      handler posts its event. */
  lemma AsWrittenDropsResponseOnlyRecord(o: Output, f: Frame, unpack: seq<byte> -> Option<DnsMsg>, q: DnsMsg,
                                         tables: Tables, level: Level, postFails: bool)
    requires f.message.queryMessage.None? && f.message.responseMessage.Some?
    requires unpack([]).None? && unpack(f.message.responseMessage.value) == Some(q)
    requires |q.question| >= 1
    ensures HandleSpecAsWritten(o, f, unpack, tables, level, postFails) == Dropped(ParseReports(level))
    ensures HandleSpec(o, f, unpack, tables, level, postFails)
            == Posted(o.tag, EventOf(o, f, q, tables), PublishReports(o.tag, level, postFails))
  {
    AsWrittenDropsResponseOnly(f.message, unpack);
    HandleSpecPosted(o, f, unpack, tables, level, postFails, q);
  }

  /** The keys the class of a record contributes. */
  function RoleKeys(c: Class): set<Key> {
    match c
    case QueryClass => QueryKeys
    case ResponseClass => ResponseKeys
    case OtherClass => {}
  }

  lemma RoleFieldsKeys(o: Output, f: Frame)
    ensures RoleFields(o, f).Keys == RoleKeys(Classify(f.message.msgType))
  {
  }

  lemma CommonFieldsKeys(f: Frame, q: DnsMsg, tables: Tables)
    requires |q.question| >= 1
    ensures CommonFields(f, q, tables).Keys == CommonKeys
  {
  }

  lemma LabelFieldsKeys(name: string)
    ensures LabelFields(name).Keys == LabelKeys
  {
  }

  lemma MapUnionKeys(a: Event, b: Event, c: Event)
    ensures (a + b + c).Keys == a.Keys + b.Keys + c.Keys
  {
  }

  /** The keys of any union of a role part, a common part and a label part. */
  lemma UnionKeys(c: Class, role: Event, common: Event, labels: Event)
    requires role.Keys == RoleKeys(c) && common.Keys == CommonKeys && labels.Keys == LabelKeys
    ensures (role + common + labels).Keys == RoleKeys(c) + CommonKeys + LabelKeys
  {
    MapUnionKeys(role, common, labels);
  }

  /** Which fields an event with the key set of a class leaves out. */
  lemma ClassExcludes(c: Class, e: Event)
    requires e.Keys == RoleKeys(c) + CommonKeys + LabelKeys
    ensures c == QueryClass ==> ResponseAddress !in e && ResponsePort !in e && ResponseZone !in e
    ensures c == ResponseClass ==> QueryAddress !in e && QueryPort !in e
    ensures c == OtherClass ==> Timestamp !in e && Identity !in e
  {
    match c
    case QueryClass => QueryExcludes(e.Keys);
    case ResponseClass => ResponseExcludes(e.Keys);
    case OtherClass => OtherExcludes(e.Keys);
  }

  lemma QueryExcludes(ks: set<Key>)
    requires ks == QueryKeys + CommonKeys + LabelKeys
    ensures ResponseAddress !in ks && ResponsePort !in ks && ResponseZone !in ks
  {
  }

  lemma ResponseExcludes(ks: set<Key>)
    requires ks == ResponseKeys + CommonKeys + LabelKeys
    ensures QueryAddress !in ks && QueryPort !in ks
  {
  }

  lemma OtherExcludes(ks: set<Key>)
    requires ks == CommonKeys + LabelKeys
    ensures Timestamp !in ks && Identity !in ks
  {
  }

  /** The keys of a posted event: the role keys of its class, the common keys
      and the four label keys. */
  lemma EventKeys(o: Output, f: Frame, q: DnsMsg, tables: Tables)
    requires |q.question| >= 1
    ensures EventOf(o, f, q, tables).Keys == RoleKeys(Classify(f.message.msgType)) + CommonKeys + LabelKeys
  {
    RoleFieldsKeys(o, f);
    CommonFieldsKeys(f, q, tables);
    LabelFieldsKeys(q.question[0].name);
    UnionKeys(Classify(f.message.msgType), RoleFields(o, f), CommonFields(f, q, tables), LabelFields(q.question[0].name));
  }

  /** Query events never carry response fields, response events never carry
      query fields, and other records carry neither a timestamp nor an
      identity. */
  lemma EventRoleSeparation(o: Output, f: Frame, q: DnsMsg, tables: Tables)
    requires |q.question| >= 1
    ensures Classify(f.message.msgType) == QueryClass ==>
      ResponseAddress !in EventOf(o, f, q, tables) && ResponsePort !in EventOf(o, f, q, tables) &&
      ResponseZone !in EventOf(o, f, q, tables)
    ensures Classify(f.message.msgType) == ResponseClass ==>
      QueryAddress !in EventOf(o, f, q, tables) && QueryPort !in EventOf(o, f, q, tables)
    ensures Classify(f.message.msgType) == OtherClass ==>
      Timestamp !in EventOf(o, f, q, tables) && Identity !in EventOf(o, f, q, tables)
  {
    EventKeys(o, f, q, tables);
    ClassExcludes(Classify(f.message.msgType), EventOf(o, f, q, tables));
  }

  /** In a union of parts with disjoint key sets each part's values survive. */
  lemma UnionValues(role: Event, common: Event, labels: Event)
    requires role.Keys !! common.Keys && role.Keys !! labels.Keys && common.Keys !! labels.Keys
    ensures forall k | k in role :: k in role + common + labels && (role + common + labels)[k] == role[k]
    ensures forall k | k in common :: k in role + common + labels && (role + common + labels)[k] == common[k]
    ensures forall k | k in labels :: k in role + common + labels && (role + common + labels)[k] == labels[k]
  {
  }

  lemma QueryKeysDisjoint()
    ensures QueryKeys !! CommonKeys && QueryKeys !! LabelKeys
  {
  }

  lemma ResponseKeysDisjoint()
    ensures ResponseKeys !! CommonKeys && ResponseKeys !! LabelKeys
  {
  }

  lemma CommonKeysDisjoint()
    ensures CommonKeys !! LabelKeys
  {
  }

  lemma RoleKeysDisjoint(c: Class)
    ensures RoleKeys(c) !! CommonKeys && RoleKeys(c) !! LabelKeys
  {
    match c
    case QueryClass => QueryKeysDisjoint();
    case ResponseClass => ResponseKeysDisjoint();
    case OtherClass =>
  }

  /** The three parts of an event never share a key. */
  lemma PartsDisjoint(o: Output, f: Frame, q: DnsMsg, tables: Tables)
    requires |q.question| >= 1
    ensures RoleFields(o, f).Keys !! CommonFields(f, q, tables).Keys
    ensures RoleFields(o, f).Keys !! LabelFields(q.question[0].name).Keys
    ensures CommonFields(f, q, tables).Keys !! LabelFields(q.question[0].name).Keys
  {
    RoleFieldsKeys(o, f);
    CommonFieldsKeys(f, q, tables);
    LabelFieldsKeys(q.question[0].name);
    RoleKeysDisjoint(Classify(f.message.msgType));
    CommonKeysDisjoint();
  }

  /** A posted event carries the role fields of its class unchanged. */
  lemma EventRoleValues(o: Output, f: Frame, q: DnsMsg, tables: Tables)
    requires |q.question| >= 1
    ensures forall k | k in RoleFields(o, f) ::
      k in EventOf(o, f, q, tables) && EventOf(o, f, q, tables)[k] == RoleFields(o, f)[k]
  {
    PartsDisjoint(o, f, q, tables);
    UnionValues(RoleFields(o, f), CommonFields(f, q, tables), LabelFields(q.question[0].name));
  }

  /** A posted event carries the fields read from the header and the first
      question unchanged. */
  lemma EventCommonValues(o: Output, f: Frame, q: DnsMsg, tables: Tables)
    requires |q.question| >= 1
    ensures forall k | k in CommonFields(f, q, tables) ::
      k in EventOf(o, f, q, tables) && EventOf(o, f, q, tables)[k] == CommonFields(f, q, tables)[k]
  {
    PartsDisjoint(o, f, q, tables);
    UnionValues(RoleFields(o, f), CommonFields(f, q, tables), LabelFields(q.question[0].name));
  }

  /** The question fields of a posted event come from the first question. */
  lemma EventQuestionFields(o: Output, f: Frame, q: DnsMsg, tables: Tables)
    requires |q.question| >= 1
    ensures var e := EventOf(o, f, q, tables);
      QName in e && e[QName] == Text(q.question[0].name) &&
      QType in e && e[QType] == Text(tables.qtypeName(q.question[0].qtype)) &&
      QClass in e && e[QClass] == Text(tables.className(q.question[0].qclass)) &&
      RCode in e && e[RCode] == Text(tables.rcodeName(q.rcode))
  {
    EventCommonValues(o, f, q, tables);
    CommonDisplayLookup(CommonFields(f, q, tables), CommonValues(f, q, tables));
  }

  /** The six flags of a posted event are the message header's. */
  lemma EventFlags(o: Output, f: Frame, q: DnsMsg, tables: Tables)
    requires |q.question| >= 1
    ensures var e := EventOf(o, f, q, tables);
      AA in e && e[AA] == Flag(q.authoritative) && TC in e && e[TC] == Flag(q.truncated) &&
      RD in e && e[RD] == Flag(q.recursionDesired) && RA in e && e[RA] == Flag(q.recursionAvailable) &&
      AD in e && e[AD] == Flag(q.authenticatedData) && CD in e && e[CD] == Flag(q.checkingDisabled)
  {
    EventCommonValues(o, f, q, tables);
    CommonDisplayLookup(CommonFields(f, q, tables), CommonValues(f, q, tables));
  }

  /** Looking up the keys of the fifteen-entry common display. Stated over
      arbitrary values so that the solver need not look inside them. */
  lemma CommonDisplayLookup(c: Event, v: seq<Value>)
    requires |v| == 15 && c == CommonMap(v)
    ensures QName in c && c[QName] == v[5] && QClass in c && c[QClass] == v[6]
    ensures QType in c && c[QType] == v[7] && RCode in c && c[RCode] == v[8]
    ensures AA in c && c[AA] == v[9] && TC in c && c[TC] == v[10] && RD in c && c[RD] == v[11]
    ensures RA in c && c[RA] == v[12] && AD in c && c[AD] == v[13] && CD in c && c[CD] == v[14]
  {
  }

  /** At each depth of the label table a posted event carries the label
      field of the first question's name. */
  lemma EventLabelValue(o: Output, f: Frame, q: DnsMsg, tables: Tables, d: int)
    requires |q.question| >= 1 && d in Names
    ensures Names[d] in EventOf(o, f, q, tables)
    ensures EventOf(o, f, q, tables)[Names[d]] == Text(LabelField(q.question[0].name, d))
  {
    PartsDisjoint(o, f, q, tables);
    UnionValues(RoleFields(o, f), CommonFields(f, q, tables), LabelFields(q.question[0].name));
    LabelFieldsAt(q.question[0].name, d);
  }

  /** The label field stored under the table's name for depth `d`. */
  lemma LabelFieldsAt(name: string, d: int)
    requires d in Names
    ensures Names[d] in LabelFields(name) && LabelFields(name)[Names[d]] == Text(LabelField(name, d))
  {
    if d == 2 {
      assert Names[d] == Tld;
    } else if d == 3 {
      assert Names[d] == SecondLd;
    } else if d == 4 {
      assert Names[d] == ThirdLd;
    } else {
      assert Names[d] == FourthLd;
    }
  }

  /** Every address a posted event carries is the record's address with its
      host bits cleared under the configured prefix lengths. */
  lemma EventAddressAnonymized(config: Config, f: Frame, q: DnsMsg, tables: Tables)
    requires 0 <= config.ipv4Mask <= 32 && 0 <= config.ipv6Mask <= 128
    requires |q.question| >= 1
    ensures var e := EventOf(NewFullOutput(config), f, q, tables);
      Classify(f.message.msgType) == QueryClass ==>
        QueryAddress in e && e[QueryAddress].Address? &&
        Anonymized(e[QueryAddress].masked, f.message.queryAddress, config.ipv4Mask, config.ipv6Mask)
    ensures var e := EventOf(NewFullOutput(config), f, q, tables);
      Classify(f.message.msgType) == ResponseClass ==>
        ResponseAddress in e && e[ResponseAddress].Address? &&
        Anonymized(e[ResponseAddress].masked, f.message.responseAddress, config.ipv4Mask, config.ipv6Mask)
  {
    var o := NewFullOutput(config);
    EventRoleValues(o, f, q, tables);
    match Classify(f.message.msgType)
    case QueryClass =>
      assert RoleFields(o, f)[QueryAddress] == Address(MaskAddress(o, f.message.queryAddress));
      MaskAddressAnonymizes(config, f.message.queryAddress);
    case ResponseClass =>
      assert RoleFields(o, f)[ResponseAddress] == Address(MaskAddress(o, f.message.responseAddress));
      MaskAddressAnonymizes(config, f.message.responseAddress);
    case OtherClass =>
  }

  /** The /24 IPv4 mask. */
  lemma MaskExampleSlash24(config: Config)
    requires config.ipv4Mask == 24
    ensures NewFullOutput(config).ipv4Mask == [0xff, 0xff, 0xff, 0]
  {
    assert CidrMask(24, 32) == [0xff, 0xff, 0xff, 0];
  }

  /** The address fields of a client query from 192.0.2.55 port 53 under a
      /24 IPv4 mask. */
  lemma ExampleAddress(o: Output, f: Frame, q: DnsMsg, tables: Tables)
    requires o.ipv4Mask == [0xff, 0xff, 0xff, 0]
    requires f.message.msgType == ClientQuery
    requires f.message.queryAddress == [192, 0, 2, 55] && f.message.queryPort == 53
    requires |q.question| >= 1
    ensures var e := EventOf(o, f, q, tables);
      QueryAddress in e && e[QueryAddress] == Address(Some([192, 0, 2, 0])) &&
      QueryPort in e && e[QueryPort] == Number(53)
  {
    EventRoleValues(o, f, q, tables);
    assert AndBytes([192, 0, 2, 55], [0xff, 0xff, 0xff, 0]) == [192, 0, 2, 0];
    assert RoleFields(o, f)[QueryAddress] == Address(Some([192, 0, 2, 0]));
  }

  /** The event of a client query for www.example.com. from 192.0.2.55
      port 53 under a /24 IPv4 mask: the masked address, the port, the label
      fields of the name, and no response fields. */
  lemma ExampleEvent(config: Config, f: Frame, q: DnsMsg, tables: Tables)
    requires config.ipv4Mask == 24
    requires f.message.msgType == ClientQuery
    requires f.message.queryAddress == [192, 0, 2, 55] && f.message.queryPort == 53
    requires |q.question| >= 1 && q.question[0].name == "www.example.com."
    ensures var e := EventOf(NewFullOutput(config), f, q, tables);
      QueryAddress in e && e[QueryAddress] == Address(Some([192, 0, 2, 0])) &&
      QueryPort in e && e[QueryPort] == Number(53) &&
      Tld in e && e[Tld] == Text("com") &&
      SecondLd in e && e[SecondLd] == Text("example.com") &&
      ResponseAddress !in e
  {
    var o := NewFullOutput(config);
    MaskExampleSlash24(config);
    ExampleAddress(o, f, q, tables);
    EventLabelValue(o, f, q, tables, 2);
    EventLabelValue(o, f, q, tables, 3);
    LabelFieldExampleFqdn(q.question[0].name);
    EventRoleSeparation(o, f, q, tables);
  }

  /** The same record end to end: its query message parses, so it is posted
      once under the configured tag with that event. */
  lemma ExampleClientQuery(config: Config, f: Frame, unpack: seq<byte> -> Option<DnsMsg>, q: DnsMsg,
                           tables: Tables, level: Level, postFails: bool)
    requires f.message.queryMessage.Some? && unpack(f.message.queryMessage.value) == Some(q)
    requires |q.question| >= 1
    ensures var out := HandleSpec(NewFullOutput(config), f, unpack, tables, level, postFails);
      out.Posted? && out.tag == config.tag && out.event == EventOf(NewFullOutput(config), f, q, tables)
  {
  }
}
