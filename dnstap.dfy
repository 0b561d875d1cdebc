/**
 * The input side of the handler: one decoded dnstap record, its message
 * type with the query/response classification the handler switches on, and
 * the parsed DNS message (question, header flags, response code) that the
 * wire parser produces.
 */
module Dnstap {
  import opened Basics

  /** The twelve message types of the dnstap schema; `Other` carries any
      other wire code, which the handler's switch does not list. */
  datatype MessageType =
    | AuthQuery | AuthResponse
    | ResolverQuery | ResolverResponse
    | ClientQuery | ClientResponse
    | ForwarderQuery | ForwarderResponse
    | StubQuery | StubResponse
    | ToolQuery | ToolResponse
    | Other(code: int)

  /** A well-formed type: `Other` never carries one of the twelve codes. */
  predicate ValidType(t: MessageType) {
    t.Other? ==> !(1 <= t.code <= 12)
  }

  /** The wire code of a message type in the dnstap schema. */
  function Code(t: MessageType): int {
    match t
    case AuthQuery => 1
    case AuthResponse => 2
    case ResolverQuery => 3
    case ResolverResponse => 4
    case ClientQuery => 5
    case ClientResponse => 6
    case ForwarderQuery => 7
    case ForwarderResponse => 8
    case StubQuery => 9
    case StubResponse => 10
    case ToolQuery => 11
    case ToolResponse => 12
    case Other(c) => c
  }

  /** The message type a wire code decodes to. */
  function FromCode(c: int): (t: MessageType)
    ensures ValidType(t) && Code(t) == c
  {
    if c == 1 then AuthQuery
    else if c == 2 then AuthResponse
    else if c == 3 then ResolverQuery
    else if c == 4 then ResolverResponse
    else if c == 5 then ClientQuery
    else if c == 6 then ClientResponse
    else if c == 7 then ForwarderQuery
    else if c == 8 then ForwarderResponse
    else if c == 9 then StubQuery
    else if c == 10 then StubResponse
    else if c == 11 then ToolQuery
    else if c == 12 then ToolResponse
    else Other(c)
  }

  lemma CodeRoundTrip(t: MessageType)
    requires ValidType(t)
    ensures FromCode(Code(t)) == t
  {
  }

  /** Which arm of the handler's switch a record takes. */
  datatype Class = QueryClass | ResponseClass | OtherClass

  /** On a well-formed type: the query arm takes the odd codes 1 to 11, the
      response arm the even codes 2 to 12, and `Other` neither. */
  function Classify(t: MessageType): (c: Class)
    ensures c == OtherClass <==> t.Other?
    ensures ValidType(t) ==> (c == QueryClass <==> 1 <= Code(t) <= 12 && Code(t) % 2 == 1)
    ensures ValidType(t) ==> (c == ResponseClass <==> 1 <= Code(t) <= 12 && Code(t) % 2 == 0)
  {
    match t
    case AuthQuery | ResolverQuery | ClientQuery | ForwarderQuery | StubQuery | ToolQuery =>
      QueryClass
    case AuthResponse | ResolverResponse | ClientResponse | ForwarderResponse | StubResponse | ToolResponse =>
      ResponseClass
    case Other(_) => OtherClass
  }

  /** On wire codes: the query class is exactly the odd codes 1 to 11, the
      response class exactly the even codes 2 to 12, and every other code is
      in neither. */
  lemma ClassifyByCode(c: int)
    ensures Classify(FromCode(c)) == QueryClass <==> 1 <= c <= 11 && c % 2 == 1
    ensures Classify(FromCode(c)) == ResponseClass <==> 2 <= c <= 12 && c % 2 == 0
    ensures Classify(FromCode(c)) == OtherClass <==> !(1 <= c <= 12)
  {
  }

  /** The dnstap `Message`. The two DNS payloads are `None` when absent (Go's
      nil); every other byte field reads an absent value as empty, as the
      generated getters return nil and the handler uses it as such. */
  datatype Message = Message(
    msgType: MessageType,
    socketFamily: int,
    socketProtocol: int,
    queryAddress: seq<byte>,
    responseAddress: seq<byte>,
    queryPort: nat,
    responsePort: nat,
    queryTimeSec: nat,
    queryTimeNsec: nat,
    responseTimeSec: nat,
    responseTimeNsec: nat,
    queryZone: seq<byte>,
    queryMessage: Option<seq<byte>>,
    responseMessage: Option<seq<byte>>)
  {
    /** The generated getter: the bytes, or nil (empty) when absent. */
    function GetQueryMessage(): seq<byte> {
      queryMessage.GetOr([])
    }

    function GetResponseMessage(): seq<byte> {
      responseMessage.GetOr([])
    }
  }

  /** The outer dnstap frame: sender identity, version, extra data and the
      message. */
  datatype Frame = Frame(identity: seq<byte>, version: seq<byte>, extra: seq<byte>, message: Message)

  /** One entry of the DNS question section (section 4.1.2 of RFC 1035). */
  datatype Question = Question(name: string, qtype: nat, qclass: nat)

  /** A parsed DNS message: its questions, the header flags AA, TC, RD, RA,
      AD, CD and the response code (section 4.1.1 of RFC 1035). */
  datatype DnsMsg = DnsMsg(
    question: seq<Question>,
    rcode: nat,
    authoritative: bool,
    truncated: bool,
    recursionDesired: bool,
    recursionAvailable: bool,
    authenticatedData: bool,
    checkingDisabled: bool)
}
