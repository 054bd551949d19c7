/**
  The signing string of an execution command: twenty-five named fields, each
  percent-encoded as in sections 2.1 and 2.3 of RFC 3986 and joined by `&`. The
  string determines every field value, so two commands that sign alike agree on all
  of them.
*/
module Signing {
  import opened Prelude
  import opened Framing

  // ---------------------------------------------------------------------
  // Percent encoding.

  predicate Unreserved(b: Byte) {
    || '0' as int <= b as int <= '9' as int
    || 'A' as int <= b as int <= 'Z' as int
    || 'a' as int <= b as int <= 'z' as int
    || b as int == '-' as int || b as int == '.' as int || b as int == '_' as int || b as int == '~' as int
  }

  /** An upper-case hexadecimal digit. */
  function HexDigit(n: nat): (c: char)
    requires n < 16
  {
    if n < 10 then (('0' as int) + n) as char else (('A' as int) + n - 10) as char
  }

  function HexValue(c: char): Option<nat> {
    if '0' <= c <= '9' then Some(c as int - '0' as int)
    else if 'A' <= c <= 'F' then Some(c as int - 'A' as int + 10)
    else if 'a' <= c <= 'f' then Some(c as int - 'a' as int + 10)
    else None
  }

  lemma HexInverse(n: nat)
    requires n < 16
    ensures HexValue(HexDigit(n)) == Some(n) && HexDigit(n) != '&' && HexDigit(n) != '=' && HexDigit(n) != '%'
  {
  }

  const HEX_DIGITS := "0123456789ABCDEF"

  /** Escapes are written in upper case. */
  lemma UpperCaseDigits(n: nat)
    requires n < 16
    ensures HexDigit(n) == HEX_DIGITS[n]
  {
  }

  /** The characters left as they are, by their ASCII codes: those of section 2.3 of RFC 3986, and no others. */
  lemma UnreservedCharacters(b: Byte)
    ensures Unreserved(b) <==> 48 <= b <= 57 || 65 <= b <= 90 || 97 <= b <= 122 || b in {45, 46, 95, 126}
  {
  }

  /** What one byte becomes: itself, or a percent sign and its two hexadecimal digits. */
  lemma EncodedBytes(b: Byte)
    ensures EncodeByte(b) == if 48 <= b <= 57 || 65 <= b <= 90 || 97 <= b <= 122 || b in {45, 46, 95, 126}
                             then [b as int as char]
                             else "%" + [HEX_DIGITS[b as int / 16]] + [HEX_DIGITS[b as int % 16]]
  {
    UnreservedCharacters(b);
    UpperCaseDigits(b as int / 16);
    UpperCaseDigits(b as int % 16);
    hide Unreserved, HexDigit;
  }

  function EncodeByte(b: Byte): string {
    if Unreserved(b) then [b as int as char] else ['%', HexDigit(b as int / 16), HexDigit(b as int % 16)]
  }

  function PercentEncode(value: Bytes): string {
    if value == [] then [] else PercentEncode(value[..|value| - 1]) + EncodeByte(value[|value| - 1])
  }

  /** `rfc3986_encode`. */
  method Rfc3986Encode(value: Bytes) returns (encoded: string)
    ensures encoded == PercentEncode(value)
    ensures Separable(encoded)
  {
    encoded := [];
    assert value[..0] == [];
    for i := 0 to |value|
      invariant encoded == PercentEncode(value[..i])
    {
      var b := value[i];
      assert value[..i + 1][..i] == value[..i];
      if Unreserved(b) {
        encoded := encoded + [b as int as char];
      } else {
        encoded := encoded + ['%'];
        encoded := encoded + [HexDigit(b as int / 16)];
        encoded := encoded + [HexDigit(b as int % 16)];
      }
      assert encoded == PercentEncode(value[..i]) + EncodeByte(b);
    }
    assert value[..|value|] == value;
    EncodedIsSeparable(value);
  }

  /** Percent decoding; `None` on a malformed escape or a character outside the byte range. */
  function PercentDecode(s: string): Option<Bytes> {
    if s == [] then Some([])
    else if s[0] == '%' then
      if |s| < 3 || HexValue(s[1]).None? || HexValue(s[2]).None? then None
      else match PercentDecode(s[3..])
        case None => None
        case Some(rest) => Some([(HexValue(s[1]).value * 16 + HexValue(s[2]).value) as Byte] + rest)
    else if s[0] as int >= 256 then None
    else match PercentDecode(s[1..])
      case None => None
      case Some(rest) => Some([s[0] as int as Byte] + rest)
  }

  lemma DecodeByteFirst(b: Byte, s: string)
    requires PercentDecode(s).Some?
    ensures PercentDecode(EncodeByte(b) + s) == Some([b] + PercentDecode(s).value)
  {
    var e := EncodeByte(b);
    if Unreserved(b) {
      assert (e + s)[1..] == s;
    } else {
      HexInverse(b as int / 16);
      HexInverse(b as int % 16);
      assert (e + s)[3..] == s;
    }
  }

  lemma EncodeFirst(value: Bytes)
    requires value != []
    ensures PercentEncode(value) == EncodeByte(value[0]) + PercentEncode(value[1..])
  {
    hide EncodeByte;
    if |value| == 1 {
      assert value[..0] == [] && value[1..] == [];
    } else {
      var front := value[..|value| - 1];
      EncodeFirst(front);
      assert front[1..] == value[1..][..|value| - 2];
    }
  }

  /** Decoding undoes encoding. */
  lemma {:induction false} EncodingHasInverse(value: Bytes)
    ensures PercentDecode(PercentEncode(value)) == Some(value)
  {
    if value != [] {
      EncodeFirst(value);
      EncodingHasInverse(value[1..]);
      DecodeByteFirst(value[0], PercentEncode(value[1..]));
      assert value == [value[0]] + value[1..];
    }
  }

  /** The text contains neither separator. */
  predicate Separable(s: string) {
    forall i :: 0 <= i < |s| ==> s[i] != '&' && s[i] != '='
  }

  lemma {:induction false} EncodedIsSeparable(value: Bytes)
    ensures Separable(PercentEncode(value)) && '&' !in PercentEncode(value) && '=' !in PercentEncode(value)
  {
    if value != [] {
      EncodedIsSeparable(value[..|value| - 1]);
      var b := value[|value| - 1];
      HexInverse(b as int / 16);
      HexInverse(b as int % 16);
      assert Separable(EncodeByte(b));
    }
  }

  // ---------------------------------------------------------------------
  // Joining.

  function Join(parts: seq<string>): string
    requires parts != []
  {
    if |parts| == 1 then parts[0] else parts[0] + "&" + Join(parts[1..])
  }

  /** The pieces between separators. */
  function Split(s: string): (parts: seq<string>)
    ensures parts != []
  {
    if s == [] then [[]]
    else
      var rest := Split(s[1..]);
      if s[0] == '&' then [[]] + rest else [[s[0]] + rest[0]] + rest[1..]
  }

  predicate NoAmpersand(s: string) {
    forall i :: 0 <= i < |s| ==> s[i] != '&'
  }

  lemma {:induction false} SplitOne(part: string)
    requires NoAmpersand(part)
    ensures Split(part) == [part]
  {
    if part != [] {
      SplitOne(part[1..]);
      assert part == [part[0]] + part[1..];
    }
  }

  lemma {:induction false} SplitFirst(part: string, rest: string)
    requires NoAmpersand(part)
    ensures Split(part + "&" + rest) == [part] + Split(rest)
  {
    var s := part + "&" + rest;
    if part == [] {
      assert s[1..] == rest;
    } else {
      assert s[1..] == part[1..] + "&" + rest;
      SplitFirst(part[1..], rest);
      assert part == [part[0]] + part[1..];
    }
  }

  lemma {:induction false} SplitUndoesJoin(parts: seq<string>)
    requires parts != [] && forall i :: 0 <= i < |parts| ==> NoAmpersand(parts[i])
    ensures Split(Join(parts)) == parts
  {
    if |parts| == 1 {
      SplitOne(parts[0]);
    } else {
      SplitUndoesJoin(parts[1..]);
      SplitFirst(parts[0], Join(parts[1..]));
      assert parts == [parts[0]] + parts[1..];
    }
  }

  // ---------------------------------------------------------------------
  // The signing string.

  const SIGNING_FIELDS: seq<string> := [
    "command_id", "plan_id", "leg_id", "strategy_id", "account_id",
    "terminal_id", "client_id", "symbol", "broker_symbol", "action",
    "order_type", "lots", "price", "sl", "tp",
    "deviation_points", "magic", "comment", "position_ticket", "broker_order_id",
    "filling_policy", "time_policy", "expiration_time", "expires_at", "idempotency_key"]

  function Parts(names: seq<string>, values: seq<Bytes>): seq<string>
    requires |names| == |values|
  {
    seq(|names|, i requires 0 <= i < |names| => names[i] + "=" + PercentEncode(values[i]))
  }

  /** `build_execution_command_signing_string` on the field values. */
  function SigningString(values: seq<Bytes>): string
    requires |values| == |SIGNING_FIELDS|
  {
    Join(Parts(SIGNING_FIELDS, values))
  }

  /** The encoded value of one part. */
  function PartValue(name: string, part: string): Option<Bytes> {
    if name + "=" <= part then PercentDecode(part[|name| + 1..]) else None
  }

  function PartValues(names: seq<string>, parts: seq<string>): seq<Option<Bytes>>
    requires |names| == |parts|
  {
    seq(|names|, i requires 0 <= i < |names| => PartValue(names[i], parts[i]))
  }

  /** What a reader of the string gets back. */
  function Recover(s: string): Option<seq<Option<Bytes>>> {
    var parts := Split(s);
    if |parts| == |SIGNING_FIELDS| then Some(PartValues(SIGNING_FIELDS, parts)) else None
  }

  lemma PartInverse(name: string, value: Bytes)
    ensures PartValue(name, name + "=" + PercentEncode(value)) == Some(value)
  {
    var part := name + "=" + PercentEncode(value);
    assert part[|name| + 1..] == PercentEncode(value);
    EncodingHasInverse(value);
  }

  lemma PartsSeparate(names: seq<string>, values: seq<Bytes>)
    requires |names| == |values| && forall i :: 0 <= i < |names| ==> Separable(names[i])
    ensures forall i :: 0 <= i < |names| ==> NoAmpersand(Parts(names, values)[i])
  {
    forall i | 0 <= i < |names| ensures NoAmpersand(Parts(names, values)[i]) {
      EncodedIsSeparable(values[i]);
      assert Separable(names[i]);
    }
  }

  /** No field name holds a separator, so every `&` and `=` of a signing string was put there by the format. */
  lemma FieldNames()
    ensures |SIGNING_FIELDS| == 25
    ensures forall i :: 0 <= i < |SIGNING_FIELDS| ==> Separable(SIGNING_FIELDS[i])
  {
    FirstNames();
    LastNames();
    hide Separable;
  }

  lemma FirstNames()
    ensures forall i :: 0 <= i < 13 ==> Separable(SIGNING_FIELDS[i])
  {
  }

  lemma LastNames()
    ensures forall i :: 13 <= i < 25 ==> Separable(SIGNING_FIELDS[i])
  {
  }

  function Present(values: seq<Bytes>): seq<Option<Bytes>> {
    seq(|values|, i requires 0 <= i < |values| => Some(values[i]))
  }

  /** Reading a signing string recovers every field value. */
  lemma RecoverUndoesSigning(values: seq<Bytes>)
    requires |values| == |SIGNING_FIELDS|
    ensures Recover(SigningString(values)) == Some(Present(values))
  {
    FieldNames();
    var names := SIGNING_FIELDS;
    var parts := Parts(names, values);
    PartsSeparate(names, values);
    hide NoAmpersand, Separable, PercentEncode, PartValue;
    SplitUndoesJoin(parts);
    forall i | 0 <= i < |names| ensures PartValue(names[i], parts[i]) == Some(values[i]) {
      PartInverse(names[i], values[i]);
    }
    assert PartValues(names, parts) == Present(values);
  }

  /** The signing string is injective on the vector of field values. */
  lemma SigningIsInjective(a: seq<Bytes>, b: seq<Bytes>)
    requires |a| == |b| == |SIGNING_FIELDS| && SigningString(a) == SigningString(b)
    ensures a == b
  {
    hide SigningString, Recover;
    RecoverUndoesSigning(a);
    RecoverUndoesSigning(b);
    assert Present(a) == Present(b);
    forall i | 0 <= i < |a| ensures a[i] == b[i] {
      assert Present(a)[i] == Present(b)[i];
    }
  }
}
