/**
  Durable delivery rejections: an attempt that never reached an outbox row is kept
  as a status and a label, and a replay of the same message id reads its reason
  back from them.
*/
module Rejections {
  import opened Prelude

  datatype AttemptStatus =
    | Waiting
    | Delivered
    | Received
    | Backpressured
    | NotSent
    | Withdrawn
    | NoSession
    | Uncertain

  datatype Reason =
    | NoActiveSession
    | AmbiguousRoute(candidates: nat)
    | ClockUnhealthy
    | Expired
    | IdentityMismatch(field: string)
    | Backpressure(depth: nat)
    | InflightLimit(limit: nat)
    | TransportRejected(reason: string)

  /** The counts a reason carries are machine words. */
  predicate InRange(r: Reason) {
    match r
    case AmbiguousRoute(n) => n <= U64_MAX
    case Backpressure(n) => n <= U64_MAX
    case InflightLimit(n) => n <= U64_MAX
    case _ => true
  }

  // ---------------------------------------------------------------------
  // Decimal numbers.

  function Show(n: nat): string {
    if n < 10 then [Digit(n)] else Show(n / 10) + [Digit(n % 10)]
  }

  function Digit(n: nat): char
    requires n < 10
  {
    '0' + n as char
  }

  predicate IsDigit(c: char) {
    '0' <= c <= '9'
  }

  function Decimal(s: string): nat
    requires forall i :: 0 <= i < |s| ==> IsDigit(s[i])
  {
    if s == [] then 0
    else
      var last := s[|s| - 1];
      assert IsDigit(last);
      10 * Decimal(s[..|s| - 1]) + (last as int - '0' as int)
  }

  /** Parsing an unsigned word: an optional plus sign, then at least one digit, within range. */
  function ParseWord(s: string): Option<nat> {
    var digits := if s != [] && s[0] == '+' then s[1..] else s;
    if digits == [] || !AllDigits(digits) then None
    else if Decimal(digits) > U64_MAX then None
    else Some(Decimal(digits))
  }

  predicate AllDigits(s: string) {
    forall i :: 0 <= i < |s| ==> IsDigit(s[i])
  }

  lemma {:induction false} ShowParses(n: nat)
    ensures AllDigits(Show(n)) && Show(n) != [] && Decimal(Show(n)) == n
  {
    if n < 10 {
      assert Show(n)[..0] == [];
    } else {
      ShowParses(n / 10);
      assert Show(n)[..|Show(n)| - 1] == Show(n / 10);
    }
  }

  lemma WordRoundTrip(n: nat)
    requires n <= U64_MAX
    ensures ParseWord(Show(n)) == Some(n)
  {
    ShowParses(n);
  }

  /** A sign is allowed and a number beyond a machine word is not. */
  lemma WordsParse(n: nat)
    ensures ParseWord("+" + Show(n)) == ParseWord(Show(n)) == if n <= U64_MAX then Some(n) else None
  {
    ShowParses(n);
    assert ("+" + Show(n))[1..] == Show(n);
    hide Show, Decimal;
    assert IsDigit(Show(n)[0]);
  }

  // ---------------------------------------------------------------------
  // Labels.

  const NO_ACTIVE_SESSION := "NO_ACTIVE_SESSION"
  const AMBIGUOUS_ROUTE := "AMBIGUOUS_ROUTE:"
  const TIME_SYNC_UNHEALTHY := "TIME_SYNC_UNHEALTHY"
  const COMMAND_EXPIRED := "COMMAND_EXPIRED"
  const SESSION_IDENTITY_MISMATCH := "SESSION_IDENTITY_MISMATCH:"
  const COMMAND_DISPATCH_BACKPRESSURE := "COMMAND_DISPATCH_BACKPRESSURE:"
  const COMMAND_INFLIGHT_LIMIT_REACHED := "COMMAND_INFLIGHT_LIMIT_REACHED:"
  const TRANSPORT_ACK_REJECTED := "TRANSPORT_ACK_REJECTED:"
  const SESSION_UNAVAILABLE := "SESSION_UNAVAILABLE"
  const CLOCK_UNHEALTHY := "CLOCK_UNHEALTHY"

  const IDENTITY_FIELDS: set<string> := {
    "message_id", "message_type", "session_id", "sequence", "sent_at", "envelope.client_id",
    "correlation_id", "causation_id", "schema_version", "account_id", "client_id", "terminal_id",
    "command_id", "expires_at"}

  function StatusOf(r: Reason): AttemptStatus {
    match r
    case Backpressure(_) => Backpressured
    case InflightLimit(_) => Backpressured
    case Expired => Withdrawn
    case IdentityMismatch(_) => NotSent
    case TransportRejected(_) => NotSent
    case _ => NoSession
  }

  /** The attempt status a rejection is recorded under. */
  lemma StatusesOf(r: Reason)
    ensures StatusOf(r) == Backpressured <==> r.Backpressure? || r.InflightLimit?
    ensures StatusOf(r) == Withdrawn <==> r == Expired
    ensures StatusOf(r) == NotSent <==> r.IdentityMismatch? || r.TransportRejected?
    ensures StatusOf(r) == NoSession <==> r == NoActiveSession || r == ClockUnhealthy || r.AmbiguousRoute?
  {
  }

  function Label(r: Reason): string {
    match r
    case NoActiveSession => NO_ACTIVE_SESSION
    case AmbiguousRoute(n) => AMBIGUOUS_ROUTE + Show(n)
    case ClockUnhealthy => TIME_SYNC_UNHEALTHY
    case Expired => COMMAND_EXPIRED
    case IdentityMismatch(field) => SESSION_IDENTITY_MISMATCH + field
    case Backpressure(n) => COMMAND_DISPATCH_BACKPRESSURE + Show(n)
    case InflightLimit(n) => COMMAND_INFLIGHT_LIMIT_REACHED + Show(n)
    case TransportRejected(reason) => TRANSPORT_ACK_REJECTED + reason
  }

  function StripPrefix(s: string, prefix: string): Option<string> {
    if prefix <= s then Some(s[|prefix|..]) else None
  }

  function StripWord(s: string, prefix: string): Option<nat> {
    match StripPrefix(s, prefix) case Some(rest) => ParseWord(rest) case None => None
  }

  /** `rejection_reason_from_attempt`; `None` is its error. */
  function ReasonOf(status: AttemptStatus, text: string): Option<Reason> {
    match status
    case NoSession =>
      if text == NO_ACTIVE_SESSION || text == SESSION_UNAVAILABLE then Some(NoActiveSession)
      else if text == TIME_SYNC_UNHEALTHY || text == CLOCK_UNHEALTHY then Some(ClockUnhealthy)
      else (match StripWord(text, AMBIGUOUS_ROUTE) case Some(n) => Some(AmbiguousRoute(n)) case None => None)
    case Withdrawn => if text == COMMAND_EXPIRED then Some(Expired) else None
    case NotSent =>
      (match StripPrefix(text, SESSION_IDENTITY_MISMATCH)
        case Some(field) => if field in IDENTITY_FIELDS then Some(IdentityMismatch(field)) else None
        case None => None)
    case Backpressured =>
      (match StripWord(text, COMMAND_INFLIGHT_LIMIT_REACHED) case Some(n) => Some(InflightLimit(n)) case None => None)
    case _ => None
  }

  /** Reasons that refuse a delivery before it is bound to an outbox row. */
  predicate Recordable(r: Reason) {
    match r
    case Backpressure(_) => false
    case TransportRejected(_) => false
    case IdentityMismatch(field) => field in IDENTITY_FIELDS
    case _ => true
  }

  lemma StripAppended(prefix: string, rest: string)
    ensures StripPrefix(prefix + rest, prefix) == Some(rest)
  {
  }

  /** What a stored status and label can be read as, and nothing else. */
  lemma ReasonsRead(status: AttemptStatus, text: string)
    ensures var r := ReasonOf(status, text);
            && (r == Some(NoActiveSession) <==>
                  status == NoSession && text in {"NO_ACTIVE_SESSION", "SESSION_UNAVAILABLE"})
            && (r == Some(ClockUnhealthy) <==>
                  status == NoSession && text in {"TIME_SYNC_UNHEALTHY", "CLOCK_UNHEALTHY"})
            && (r == Some(Expired) <==> status == Withdrawn && text == "COMMAND_EXPIRED")
            && (r.Some? && r.value.AmbiguousRoute? ==>
                  && status == NoSession && "AMBIGUOUS_ROUTE:" <= text
                  && ParseWord(text[16..]) == Some(r.value.candidates))
            && (r.Some? && r.value.InflightLimit? ==>
                  && status == Backpressured && "COMMAND_INFLIGHT_LIMIT_REACHED:" <= text
                  && ParseWord(text[31..]) == Some(r.value.limit))
            && (r.Some? && r.value.IdentityMismatch? ==>
                  && status == NotSent && text == "SESSION_IDENTITY_MISMATCH:" + r.value.field
                  && r.value.field in IDENTITY_FIELDS)
            && (r.Some? ==> !r.value.Backpressure? && !r.value.TransportRejected?)
  {
    hide ParseWord;
    assert AMBIGUOUS_ROUTE <= text ==> AMBIGUOUS_ROUTE + text[|AMBIGUOUS_ROUTE|..] == text;
    assert SESSION_IDENTITY_MISMATCH <= text ==>
        SESSION_IDENTITY_MISMATCH + text[|SESSION_IDENTITY_MISMATCH|..] == text;
    assert |AMBIGUOUS_ROUTE| == 16 && |COMMAND_INFLIGHT_LIMIT_REACHED| == 31;
  }

  /**
    A rejection recorded before any outbox row is replayed with the very reason it
    was given. Backpressure of the sink and rejections by the peer are never recorded
    this way: they happen to a bound row and are read back from its texts below.
  */
  lemma RejectionRoundTrip(r: Reason)
    requires InRange(r)
    ensures ReasonOf(StatusOf(r), Label(r)) == Some(r) <==> Recordable(r)
    ensures ReasonOf(StatusOf(r), Label(r)).None? <==> !Recordable(r)
  {
    hide ParseWord, Show, Decimal, AllDigits;
    match r
    case AmbiguousRoute(n) =>
      WordRoundTrip(n);
      StripAppended(AMBIGUOUS_ROUTE, Show(n));
      assert Label(r)[0] == 'A';
    case InflightLimit(n) =>
      WordRoundTrip(n);
      StripAppended(COMMAND_INFLIGHT_LIMIT_REACHED, Show(n));
    case IdentityMismatch(field) =>
      StripAppended(SESSION_IDENTITY_MISMATCH, field);
    case Backpressure(n) =>
      assert Label(r)[8] == 'D' && COMMAND_INFLIGHT_LIMIT_REACHED[8] == 'I';
    case TransportRejected(reason) =>
      assert Label(r)[0] == 'T' && SESSION_IDENTITY_MISMATCH[0] == 'S';
    case _ =>
  }

  // ---------------------------------------------------------------------
  // Texts on a bound row.

  const BACKPRESSURE_TEXT := "transport write backpressure at queue depth"

  /** The error stored with a write that met a full queue. */
  function QueueDepthText(depth: nat): string {
    BACKPRESSURE_TEXT + [' '] + Show(depth)
  }

  /** What follows the last space, if there is one. */
  function AfterLastSpace(s: string): Option<string> {
    if s == [] then None
    else
      match AfterLastSpace(s[1..])
      case Some(rest) => Some(rest)
      case None => if s[0] == ' ' then Some(s[1..]) else None
  }

  /** `parse_queue_depth`. */
  function ParseQueueDepth(error: string): Option<nat> {
    match AfterLastSpace(error) case Some(word) => ParseWord(word) case None => None
  }

  lemma {:induction false} NoSpaceAfter(word: string)
    requires AllDigits(word)
    ensures AfterLastSpace(word).None?
  {
    if word != [] {
      assert IsDigit(word[0]);
      NoSpaceAfter(word[1..]);
    }
  }

  lemma {:induction false} LastSpaceSplits(front: string, word: string)
    requires AllDigits(word)
    ensures AfterLastSpace(front + [' '] + word) == Some(word)
  {
    var s := front + [' '] + word;
    if front == [] {
      assert s[1..] == word;
      NoSpaceAfter(word);
    } else {
      assert s[1..] == front[1..] + [' '] + word;
      LastSpaceSplits(front[1..], word);
    }
  }

  /** A queue depth stored on a bound row is read back from its text as the depth that was written. */
  lemma QueueDepthReadsBack(depth: nat)
    requires depth <= U64_MAX
    ensures ParseQueueDepth(QueueDepthText(depth)) == Some(depth)
  {
    ShowParses(depth);
    WordRoundTrip(depth);
    hide Show, AfterLastSpace, ParseWord, Decimal;
    LastSpaceSplits(BACKPRESSURE_TEXT, Show(depth));
  }

  /** The white space that trimming removes. */
  predicate Whitespace(c: char) {
    var n := c as int;
    || 0x9 <= n <= 0xD || n == 0x20 || n == 0x85 || n == 0xA0 || n == 0x1680 || 0x2000 <= n <= 0x200A
    || n == 0x2028 || n == 0x2029 || n == 0x202F || n == 0x205F || n == 0x3000
  }

  predicate Blank(s: string) {
    forall i :: 0 <= i < |s| ==> Whitespace(s[i])
  }

  /** A blank text holds nothing but white space, which is the Unicode property of that name. */
  lemma BlankTexts(c: char, s: string)
    ensures Whitespace(c) <==>
              c as int in {9, 10, 11, 12, 13, 32, 133, 160, 5760, 8192, 8193, 8194, 8195, 8196, 8197, 8198, 8199, 8200,
                           8201, 8202, 8232, 8233, 8239, 8287, 12288}
    ensures Blank(s) <==> forall x :: x in s ==> Whitespace(x)
  {
  }

  /** `transport_rejection_reason` on the stored text of a failed outbox row. */
  function TransportReason(lastError: string): Option<string> {
    match StripPrefix(lastError, TRANSPORT_ACK_REJECTED)
    case Some(reason) => if Blank(reason) then None else Some(reason)
    case None => None
  }

  /** The peer's reason, never blank when it is stored, is read back unchanged. */
  lemma TransportReasonReadsBack(reason: string)
    ensures TransportReason(TRANSPORT_ACK_REJECTED + reason) == if Blank(reason) then None else Some(reason)
  {
    StripAppended(TRANSPORT_ACK_REJECTED, reason);
    hide StripPrefix;
  }
}
