/** Signed inbound webhooks: header parsing, the signing message, and verification inside a replay window. */
module WebhookSecurity {
  import opened Wrappers

  newtype Byte = x: int | 0 <= x < 256

  /** HMAC-SHA256 (RFC 2104) as a lower-case hexadecimal digest of a message under a secret. */
  type Hmac = (string, seq<Byte>) -> string

  ghost predicate InjectiveFor(hmac: Hmac, secret: string) {
    forall m, m' :: hmac(secret, m) == hmac(secret, m') ==> m == m'
  }

  ghost predicate HexDigests(hmac: Hmac, secret: string) {
    forall m :: hmac(secret, m) != "" && AllLowerHex(hmac(secret, m))
  }

  datatype SignatureError =
    | SignatureMissing | TimestampMalformed | SecretMissing | VersionMissing
    | TimestampMissing | OutsideWindow | NotAscii | Mismatch

  // ---- text ----

  // Header values are decoded as Latin-1, so these classes cover every character a header can hold.

  predicate IsSpace(c: char) {
    '\U{0009}' <= c <= '\U{000D}' || '\U{001C}' <= c <= ' ' || c == '\U{0085}' || c == '\U{00A0}'
  }

  predicate IsDigit(c: char) {
    '0' <= c <= '9'
  }

  predicate IsHex(c: char) {
    IsDigit(c) || 'a' <= c <= 'f' || 'A' <= c <= 'F'
  }

  function LowerChar(c: char): char {
    if 'A' <= c <= 'Z' || ('\U{00C0}' <= c <= '\U{00DE}' && c != '\U{00D7}') then (c as int + 32) as char else c
  }

  function Lower(s: string): string {
    seq(|s|, i requires 0 <= i < |s| => LowerChar(s[i]))
  }

  predicate AllDigits(s: string) {
    forall i :: 0 <= i < |s| ==> IsDigit(s[i])
  }

  predicate AllHex(s: string) {
    forall i :: 0 <= i < |s| ==> IsHex(s[i])
  }

  predicate AllLowerHex(s: string) {
    forall i :: 0 <= i < |s| ==> IsHex(s[i]) && LowerChar(s[i]) == s[i]
  }

  predicate AllAscii(s: string) {
    forall i :: 0 <= i < |s| ==> s[i] < '\U{0080}'
  }

  function LeftStrip(s: string): string {
    if s != "" && IsSpace(s[0]) then LeftStrip(s[1..]) else s
  }

  function RightStrip(s: string): string {
    if s != "" && IsSpace(s[|s| - 1]) then RightStrip(s[..|s| - 1]) else s
  }

  function Strip(s: string): string {
    RightStrip(LeftStrip(s))
  }

  lemma StripKeeps(s: string)
    requires s == "" || (!IsSpace(s[0]) && !IsSpace(s[|s| - 1]))
    ensures Strip(s) == s
  {
  }

  // The whitespace of a header value, by code point.
  const SPACES: set<int> := {9, 10, 11, 12, 13, 28, 29, 30, 31, 32, 133, 160}

  /** The character classes, spelled out. */
  lemma CharacterClasses(c: char)
    ensures IsDigit(c) <==> c in "0123456789"
    ensures IsHex(c) <==> c in "0123456789abcdefABCDEF"
    ensures IsSpace(c) <==> c as int in SPACES
    ensures 'A' <= c <= 'Z' ==> LowerChar(c) as int == c as int + 32
    ensures c in "0123456789abcdefghijklmnopqrstuvwxyz_-.,=" ==> LowerChar(c) == c
  {
  }

  ghost predicate AllSpaces(s: string) {
    forall i :: 0 <= i < |s| ==> s[i] as int in SPACES
  }

  lemma {:induction false} LeftStripOf(a: string, rest: string)
    requires AllSpaces(a) && (rest == "" || rest[0] as int !in SPACES)
    ensures LeftStrip(a + rest) == rest
  {
    if a == "" {
      assert a + rest == rest;
    } else {
      assert (a + rest)[1..] == a[1..] + rest;
      LeftStripOf(a[1..], rest);
    }
  }

  lemma {:induction false} RightStripOf(front: string, b: string)
    requires AllSpaces(b) && (front == "" || front[|front| - 1] as int !in SPACES)
    ensures RightStrip(front + b) == front
  {
    if b == "" {
      assert front + b == front;
    } else {
      assert (front + b)[..|front + b| - 1] == front + b[..|b| - 1];
      RightStripOf(front, b[..|b| - 1]);
    }
  }

  /** Stripping takes the whitespace around a text, all of it and nothing else. */
  lemma StripBetween(a: string, s: string, b: string)
    requires AllSpaces(a) && AllSpaces(b)
    requires s == "" || (s[0] as int !in SPACES && s[|s| - 1] as int !in SPACES)
    ensures Strip(a + s + b) == s
  {
    hide LeftStrip, RightStrip;
    if s == "" {
      assert a + s + b == (a + b) + "" && AllSpaces(a + b);
      LeftStripOf(a + b, "");
      assert "" + "" == "";
      RightStripOf("", "");
    } else {
      assert a + s + b == a + (s + b);
      LeftStripOf(a, s + b);
      RightStripOf(s, b);
    }
  }

  // ---- integers as text ----

  function DigitChar(d: nat): (c: char)
    requires d < 10
    ensures IsDigit(c) && c as int - '0' as int == d
  {
    (d + '0' as int) as char
  }

  function Decimal(n: nat): (s: string)
    ensures s != "" && AllDigits(s)
  {
    if n < 10 then [DigitChar(n)] else Decimal(n / 10) + [DigitChar(n % 10)]
  }

  /** What an f-string makes of an integer. */
  function IntText(n: int): string {
    if n < 0 then "-" + Decimal(-n) else Decimal(n)
  }

  /** Digits with single underscores between them, as `int` reads them. */
  function ParseDigits(s: string): Option<nat>
    decreases |s|
  {
    if s == "" || !IsDigit(s[|s| - 1]) then None
    else
      var d := s[|s| - 1] as int - '0' as int;
      var front := s[..|s| - 1];
      if front == "" then Some(d)
      else
        var more := ParseDigits(if front[|front| - 1] == '_' then front[..|front| - 1] else front);
        if more.None? then None else Some(10 * more.value + d)
  }

  function ParseInt(text: string): Option<int> {
    var s := Strip(text);
    var unsigned := if s != "" && (s[0] == '-' || s[0] == '+') then s[1..] else s;
    var n := ParseDigits(unsigned);
    if n.None? then None
    else
      var sign: int := if s[0] == '-' then -1 else 1;
      Some(sign * n.value)
  }

  lemma {:induction false} ParseDecimal(n: nat)
    ensures ParseDigits(Decimal(n)) == Some(n)
  {
    if n >= 10 {
      ParseDecimal(n / 10);
      var s := Decimal(n);
      assert s[..|s| - 1] == Decimal(n / 10);
    }
  }

  /** Digits, and single underscores between digits. */
  ghost predicate DigitsAndUnderscores(s: string) {
    s != "" && forall i :: 0 <= i < |s| ==> DigitOrSeparator(s, i)
  }

  ghost predicate DigitOrSeparator(s: string, i: nat)
    requires i < |s|
  {
    IsDigit(s[i]) || (s[i] == '_' && 0 < i < |s| - 1 && IsDigit(s[i - 1]) && IsDigit(s[i + 1]))
  }

  lemma LastIsDigit(s: string)
    requires DigitsAndUnderscores(s)
    ensures s != "" && IsDigit(s[|s| - 1])
  {
    assert DigitOrSeparator(s, |s| - 1);
  }

  lemma OneMoreDigit(s: string, rest: string)
    requires |s| > 1 && IsDigit(s[|s| - 1])
    requires rest == if s[|s| - 2] == '_' then s[..|s| - 2] else s[..|s| - 1]
    ensures DigitsAndUnderscores(s) <==> DigitsAndUnderscores(rest)
  {
    var n := |rest|;
    assert forall i :: 0 <= i < n ==> rest[i] == s[i];
    if DigitsAndUnderscores(rest) {
      LastIsDigit(rest);
      forall i | 0 <= i < |s|
        ensures DigitOrSeparator(s, i)
      {
        assert i < n ==> DigitOrSeparator(rest, i);
      }
    }
    if DigitsAndUnderscores(s) {
      assert DigitOrSeparator(s, |s| - 2);
      forall i | 0 <= i < n
        ensures DigitOrSeparator(rest, i)
      {
        assert DigitOrSeparator(s, i) && (i + 1 < |s| ==> DigitOrSeparator(s, i + 1));
      }
    }
  }

  /** An unsigned integer text is read exactly when it is made of digits and single underscores between digits. */
  lemma {:induction false} ParseDigitsIff(s: string)
    ensures ParseDigits(s).Some? <==> DigitsAndUnderscores(s)
    decreases |s|
  {
    if s != "" && !IsDigit(s[|s| - 1]) {
      if DigitsAndUnderscores(s) {
        LastIsDigit(s);
      }
    } else if |s| > 1 {
      var front := s[..|s| - 1];
      var rest := if front[|front| - 1] == '_' then front[..|front| - 1] else front;
      assert rest == if s[|s| - 2] == '_' then s[..|s| - 2] else s[..|s| - 1];
      OneMoreDigit(s, rest);
      ParseDigitsIff(rest);
    }
  }

  lemma ParseDigitsEnd(s: string)
    requires |s| > 1 && IsDigit(s[|s| - 1])
    ensures var front := s[..|s| - 1];
            var more := ParseDigits(if front[|front| - 1] == '_' then front[..|front| - 1] else front);
            ParseDigits(s) == if more.None? then None else Some(10 * more.value + (s[|s| - 1] as int - '0' as int))
  {
  }

  lemma ParseDigitsStep(s: string, d: char)
    requires s != "" && IsDigit(d)
    ensures ParseDigits(s + [d]) ==
            var more := ParseDigits(if s[|s| - 1] == '_' then s[..|s| - 1] else s);
            if more.None? then None else Some(10 * more.value + (d as int - '0' as int))
  {
    hide ParseDigits;
    ParseDigitsEnd(s + [d]);
    assert (s + [d])[..|s + [d]| - 1] == s;
  }

  /** An underscore between two digits changes nothing. */
  lemma {:induction false} UnderscoreIgnored(a: string, b: string)
    requires DigitsAndUnderscores(a) && b != "" && AllDigits(b)
    ensures ParseDigits(a + "_" + b) == ParseDigits(a + b)
    decreases |b|
  {
    hide ParseDigits, DigitsAndUnderscores;
    var n := |b| - 1;
    LastIsDigit(a);
    assert a + "_" + b == (a + "_" + b[..n]) + [b[n]] && a + b == (a + b[..n]) + [b[n]];
    ParseDigitsStep(a + "_" + b[..n], b[n]);
    ParseDigitsStep(a + b[..n], b[n]);
    if n > 0 {
      UnderscoreIgnored(a, b[..n]);
    } else {
      assert a + "_" + b[..n] == a + "_" && (a + "_")[..|a|] == a && a + b[..n] == a;
    }
  }

  /** Reading back what was written: the sender's timestamp header survives `int(...)`. */
  lemma ParseIntText(n: int)
    ensures ParseInt(IntText(n)) == Some(n)
  {
    var s := IntText(n);
    var digits := Decimal(if n < 0 then -n else n);
    assert IsDigit(digits[0]) && IsDigit(digits[|digits| - 1]);
    StripKeeps(s);
    ParseDecimal(if n < 0 then -n else n);
    if n < 0 {
      assert s[1..] == digits;
    }
  }

  lemma ParseSigned(sign: string, digits: string)
    requires DigitsAndUnderscores(digits) && (sign == "" || sign == "+" || sign == "-")
    requires Strip(sign + digits) == sign + digits
    ensures ParseDigits(digits).Some?
    ensures var n: int := ParseDigits(digits).value; ParseInt(sign + digits) == Some(if sign == "-" then -n else n)
  {
    hide ParseDigits, Strip;
    ParseDigitsIff(digits);
    assert DigitOrSeparator(digits, 0);
    assert sign == "" ==> sign + digits == digits;
    assert sign != "" ==> (sign + digits)[1..] == digits;
  }

  /** A timestamp header may have whitespace around it, and a sign. */
  lemma ParseIntAround(a: string, sign: string, digits: string, b: string)
    requires AllSpaces(a) && AllSpaces(b) && DigitsAndUnderscores(digits) && (sign == "" || sign == "+" || sign == "-")
    ensures ParseDigits(digits).Some?
    ensures var n: int := ParseDigits(digits).value; ParseInt(a + (sign + digits) + b) == Some(if sign == "-" then -n else n)
  {
    hide ParseDigits, Strip;
    var s := sign + digits;
    LastIsDigit(digits);
    assert DigitOrSeparator(digits, 0);
    assert s[|s| - 1] == digits[|digits| - 1] && (s[0] == digits[0] || s[0] == '+' || s[0] == '-');
    StripBetween(a, s, b);
    StripBetween("", s, "");
    assert "" + s + "" == s;
    ParseSigned(sign, digits);
  }

  // ---- the signing message ----

  function Ascii(s: string): (r: seq<Byte>)
    requires AllAscii(s)
    ensures |r| == |s|
    ensures forall i :: 0 <= i < |s| ==> r[i] as int == s[i] as int
  {
    if s == "" then [] else [s[0] as int as Byte] + Ascii(s[1..])
  }

  const DOT: Byte := 46

  lemma IntTextPlain(n: int)
    ensures AllAscii(IntText(n)) && '.' !in IntText(n)
  {
  }

  /** The decimal timestamp, a dot, and the raw body. */
  function SigningMessage(timestamp: int, body: seq<Byte>): seq<Byte> {
    IntTextPlain(timestamp);
    Ascii(IntText(timestamp)) + [DOT] + body
  }

  /** The message byte by byte: the characters of the timestamp, a dot, and the body. */
  lemma MessageBytes(timestamp: int, body: seq<Byte>)
    ensures var text, m := IntText(timestamp), SigningMessage(timestamp, body);
            && |m| == |text| + 1 + |body| && m[|text|] == 46 && m[|text| + 1..] == body
            && forall i :: 0 <= i < |text| ==> m[i] as int == text[i] as int
  {
    hide IntText;
    IntTextPlain(timestamp);
  }

  function FirstDot(m: seq<Byte>): nat {
    if m == [] || m[0] == DOT then 0 else 1 + FirstDot(m[1..])
  }

  lemma {:induction false} DotAfter(text: string, body: seq<Byte>)
    requires AllAscii(text) && '.' !in text
    ensures FirstDot(Ascii(text) + [DOT] + body) == |text|
  {
    var m := Ascii(text) + [DOT] + body;
    if text != "" {
      DotAfter(text[1..], body);
      assert m[1..] == Ascii(text[1..]) + [DOT] + body;
      assert m[0] as int == text[0] as int;
      assert text[0] != '.';
    }
  }

  lemma AsciiInjective(a: string, b: string)
    requires AllAscii(a) && AllAscii(b) && Ascii(a) == Ascii(b)
    ensures a == b
  {
    assert forall i :: 0 <= i < |a| ==> Ascii(a)[i] as int == a[i] as int && Ascii(b)[i] as int == b[i] as int;
  }

  /** The first dot ends the timestamp: no two (timestamp, body) pairs share a signing message. */
  lemma SigningMessageInjective(t: int, body: seq<Byte>, t': int, body': seq<Byte>)
    requires SigningMessage(t, body) == SigningMessage(t', body')
    ensures t == t' && body == body'
  {
    hide FirstDot, Ascii;
    IntTextPlain(t);
    IntTextPlain(t');
    var a, b := IntText(t), IntText(t');
    hide IntText;
    DotAfter(a, body);
    DotAfter(b, body');
    var m := SigningMessage(t, body);
    assert m[..|a|] == Ascii(a) && m[|a| + 1..] == body;
    assert m[..|b|] == Ascii(b) && m[|b| + 1..] == body';
    AsciiInjective(a, b);
    ParseIntText(t);
    ParseIntText(t');
  }

  // ---- the signature header ----

  function DigitRun(s: string): (n: nat)
    ensures n <= |s| && AllDigits(s[..n]) && (n < |s| ==> !IsDigit(s[n]))
  {
    if s == "" || !IsDigit(s[0]) then 0
    else
      var n := 1 + DigitRun(s[1..]);
      assert s[..n] == [s[0]] + s[1..][..n - 1];
      n
  }

  /** The two groups of `t=<digits>[,v1=<hex>]`, letters in either case. */
  function MatchStripe(s: string): Option<(string, Option<string>)> {
    if |s| < 2 || (s[0] != 't' && s[0] != 'T') || s[1] != '=' then None
    else
      var n := DigitRun(s[2..]);
      var digits, rest := s[2..2 + n], s[2 + n..];
      if n == 0 then None
      else if rest == "" then Some((digits, None))
      else if |rest| > 4 && VersionPrefix(rest[..4]) && AllHex(rest[4..]) then Some((digits, Some(rest[4..])))
      else None
  }

  predicate VersionPrefix(s: string) {
    s == ",v1=" || s == ",V1="
  }

  ghost predicate StripeParts(s: string, prefix: string, digits: string, version: string, hex: Option<string>) {
    && (prefix == "t=" || prefix == "T=") && (version == ",v1=" || version == ",V1=")
    && (hex.None? ==> s == prefix + digits)
    && (hex.Some? ==> hex.value != "" && AllHex(hex.value) && s == prefix + digits + version + hex.value)
  }

  /** The header is one of the texts the pattern describes, with these groups. */
  ghost predicate StripeText(s: string, digits: string, hex: Option<string>) {
    digits != "" && AllDigits(digits) && exists prefix, version :: StripeParts(s, prefix, digits, version, hex)
  }

  lemma {:induction false} RunEndsAt(digits: string, rest: string)
    requires AllDigits(digits) && (rest == "" || !IsDigit(rest[0]))
    ensures DigitRun(digits + rest) == |digits|
  {
    if digits == "" {
      assert digits + rest == rest;
    } else {
      RunEndsAt(digits[1..], rest);
      assert (digits + rest)[1..] == digits[1..] + rest;
      assert IsDigit(digits[0]);
    }
  }

  lemma MatchedTextFits(s: string, digits: string, hex: Option<string>)
    requires MatchStripe(s) == Some((digits, hex))
    ensures StripeText(s, digits, hex)
  {
    hide DigitRun, AllDigits, AllHex;
    var n := DigitRun(s[2..]);
    assert digits == s[2..2 + n] == s[2..][..n];
    var rest := s[2 + |digits|..];
    var prefix := s[..2];
    var version := if hex.None? then ",v1=" else rest[..4];
    assert prefix == "t=" || prefix == "T=";
    assert s == prefix + digits + rest;
    if hex.Some? {
      assert rest == version + hex.value;
      assert s == prefix + digits + version + hex.value;
    }
    assert StripeParts(s, prefix, digits, version, hex);
  }

  lemma FittingTextMatches(prefix: string, digits: string, version: string, hex: Option<string>)
    requires (prefix == "t=" || prefix == "T=") && digits != "" && AllDigits(digits)
    requires VersionPrefix(version) && (hex.Some? ==> hex.value != "" && AllHex(hex.value))
    ensures MatchStripe(prefix + digits + if hex.None? then "" else version + hex.value) == Some((digits, hex))
  {
    hide DigitRun, AllHex;
    var rest := if hex.None? then "" else version + hex.value;
    var s := prefix + digits + rest;
    RunEndsAt(digits, rest);
    assert s[2..] == digits + rest;
    assert s[2..2 + |digits|] == digits && s[2 + |digits|..] == rest;
    if hex.Some? {
      assert rest[..4] == version && rest[4..] == hex.value;
    }
  }

  /** Matching accepts exactly the texts of the pattern and finds their groups, which are unique. */
  lemma MatchStripeExact(s: string, digits: string, hex: Option<string>)
    ensures MatchStripe(s) == Some((digits, hex)) <==> StripeText(s, digits, hex)
  {
    hide MatchStripe;
    if MatchStripe(s) == Some((digits, hex)) {
      MatchedTextFits(s, digits, hex);
    }
    if StripeText(s, digits, hex) {
      var prefix, version :| StripeParts(s, prefix, digits, version, hex);
      FittingTextMatches(prefix, digits, version, hex);
      assert hex.None? ==> prefix + digits + "" == s;
      assert hex.Some? ==> prefix + digits + (version + hex.value) == s;
    }
  }

  lemma {:induction false} DigitsParse(s: string)
    requires s != "" && AllDigits(s)
    ensures ParseDigits(s).Some?
  {
    if |s| > 1 {
      var front := s[..|s| - 1];
      assert IsDigit(front[|front| - 1]);
      DigitsParse(front);
    }
  }

  /** Timestamp, if the header carries one, and the lower-cased signature. */
  function ParseHeader(signature: string): Result<(Option<int>, string), SignatureError> {
    var s := Strip(signature);
    var groups := MatchStripe(s);
    if groups.None? then Success((None, Lower(s)))
    else if groups.value.1.None? then Failure(VersionMissing)
    else
      MatchStripeExact(s, groups.value.0, groups.value.1);
      DigitsParse(groups.value.0);
      Success((Some(ParseDigits(groups.value.0).value), Lower(groups.value.1.value)))
  }

  /** What a header says: the two groups of the combined form, or the whole text as a signature; letters in lower case. */
  ghost predicate Says(header: string, stamp: Option<int>, signature: string) {
    var s := Strip(header);
    if stamp.Some? then
      exists digits, hex :: StripeText(s, digits, Some(hex)) && ParseDigits(digits) == Some(stamp.value) && signature == Lower(hex)
    else
      signature == Lower(s) && forall digits, hex :: !StripeText(s, digits, hex)
  }

  /** A header is read as what it says, and refused only when it has a timestamp and no signature. */
  lemma ParseHeaderIff(header: string, stamp: Option<int>, signature: string)
    ensures ParseHeader(header) == Success((stamp, signature)) <==> Says(header, stamp, signature)
    ensures ParseHeader(header).Failure? <==> exists digits :: StripeText(Strip(header), digits, None)
  {
    hide MatchStripe, StripeText, Strip, Lower, ParseDigits;
    var s := Strip(header);
    forall digits, hex
      ensures MatchStripe(s) == Some((digits, hex)) <==> StripeText(s, digits, hex)
    {
      MatchStripeExact(s, digits, hex);
    }
    match MatchStripe(s) {
      case None =>
      case Some((digits, None)) =>
        assert StripeText(s, digits, None);
        assert forall digits', hex' :: !StripeText(s, digits', Some(hex'));
      case Some((digits, Some(hex))) =>
        assert StripeText(s, digits, Some(hex));
        assert forall digits', hex' :: StripeText(s, digits', Some(hex')) ==> digits' == digits && hex' == hex;
        assert ParseHeader(header) == Success((Some(ParseDigits(digits).value), Lower(hex))) by {
          StripeDigits(s, digits, Some(hex));
          DigitsParse(digits);
        }
        StripeDigits(s, digits, Some(hex));
        DigitsParse(digits);
    }
  }

  lemma StripeDigits(s: string, digits: string, hex: Option<string>)
    requires StripeText(s, digits, hex)
    ensures digits != "" && AllDigits(digits)
  {
  }

  // ---- verification ----

  datatype Policy = Policy(secret: string, tolerance: nat, hmac: Hmac)

  /** A request as it arrives: the raw body and its two optional headers. */
  datatype Delivery = Delivery(body: seq<Byte>, signature: Option<string>, timestamp: Option<string>)

  function Distance(a: int, b: int): nat {
    if a < b then b - a else a - b
  }

  /** `now` is the clock in whole seconds; success carries the timestamp the signature covers. */
  function VerifyTimestamped(body: seq<Byte>, signature: string, timestamp: Option<int>, policy: Policy, now: int): Result<int, SignatureError> {
    if policy.secret == "" then Failure(SecretMissing)
    else
      var parsed := ParseHeader(signature);
      if parsed.Failure? then Failure(parsed.error)
      else
        var effective := if timestamp.Some? then timestamp else parsed.value.0;
        if effective.None? then Failure(TimestampMissing)
        else if Distance(now, effective.value) > policy.tolerance then Failure(OutsideWindow)
        else if !AllAscii(parsed.value.1) then Failure(NotAscii)
        else if policy.hmac(policy.secret, SigningMessage(effective.value, body)) != parsed.value.1 then Failure(Mismatch)
        else Success(effective.value)
  }

  function VerifyInbound(delivery: Delivery, policy: Policy, now: int): Result<int, SignatureError> {
    if delivery.signature.None? then Failure(SignatureMissing)
    else if delivery.timestamp.Some? && ParseInt(delivery.timestamp.value).None? then Failure(TimestampMalformed)
    else
      VerifyTimestamped(delivery.body, delivery.signature.value,
                        if delivery.timestamp.None? then None else ParseInt(delivery.timestamp.value), policy, now)
  }

  /** The signature a delivery presents, whatever form its header has. */
  function PresentedSignature(delivery: Delivery): Option<string> {
    if delivery.signature.None? then None
    else
      var parsed := ParseHeader(delivery.signature.value);
      if parsed.Failure? then None else Some(parsed.value.1)
  }

  /** The time a delivery is signed for: its timestamp header, or else the one inside the signature header. */
  ghost predicate SignedFor(delivery: Delivery, t: int, signature: string) {
    && delivery.signature.Some?
    && (delivery.timestamp.Some? ==> ParseInt(delivery.timestamp.value) == Some(t))
    && exists stamp :: Says(delivery.signature.value, stamp, signature) && (delivery.timestamp.None? ==> stamp == Some(t))
  }

  lemma SignedForIff(delivery: Delivery, t: int, signature: string)
    requires delivery.signature.Some?
    ensures var parsed := ParseHeader(delivery.signature.value);
            SignedFor(delivery, t, signature) <==>
              && parsed.Success? && parsed.value.1 == signature
              && (if delivery.timestamp.Some? then ParseInt(delivery.timestamp.value) else parsed.value.0) == Some(t)
  {
    hide ParseHeader, Says, ParseInt;
    var header := delivery.signature.value;
    forall stamp, text
      ensures ParseHeader(header) == Success((stamp, text)) <==> Says(header, stamp, text)
    {
      ParseHeaderIff(header, stamp, text);
    }
    if ParseHeader(header).Success? {
      assert Says(header, ParseHeader(header).value.0, ParseHeader(header).value.1);
    }
  }

  /**
   A delivery is accepted for a time exactly when a secret is set, it is signed for that time, the clock is within the
   tolerance of it, and the signature is the digest of the message. A signature outside ASCII is told from every other
   failure when it would be compared.
   */
  lemma AcceptedIff(delivery: Delivery, policy: Policy, now: int, t: int)
    ensures VerifyInbound(delivery, policy, now) == Success(t) <==>
              && policy.secret != "" && t - policy.tolerance <= now <= t + policy.tolerance
              && exists signature :: SignedFor(delivery, t, signature) && (forall i :: 0 <= i < |signature| ==> signature[i] as int < 128)
                                     && signature == policy.hmac(policy.secret, SigningMessage(t, delivery.body))
    ensures VerifyInbound(delivery, policy, now) == Failure(NotAscii) <==>
              && policy.secret != ""
              && exists at, signature :: SignedFor(delivery, at, signature) && (exists i :: 0 <= i < |signature| && signature[i] as int >= 128)
                                         && at - policy.tolerance <= now <= at + policy.tolerance
  {
    hide ParseHeader, SignedFor, ParseInt, SigningMessage;
    if delivery.signature.None? {
      assert forall at, signature :: !SignedFor(delivery, at, signature) by {
        Unsigned(delivery);
      }
    } else {
      var parsed := ParseHeader(delivery.signature.value);
      forall at, signature
        ensures SignedFor(delivery, at, signature) <==>
                  && parsed.Success? && parsed.value.1 == signature
                  && (if delivery.timestamp.Some? then ParseInt(delivery.timestamp.value) else parsed.value.0) == Some(at)
      {
        SignedForIff(delivery, at, signature);
      }
      HeaderErrors(delivery.signature.value);
      if parsed.Success? {
        var effective := if delivery.timestamp.Some? then ParseInt(delivery.timestamp.value) else parsed.value.0;
        if effective.Some? {
          assert SignedFor(delivery, effective.value, parsed.value.1);
        }
      }
    }
  }

  lemma HeaderErrors(header: string)
    ensures ParseHeader(header).Failure? ==> ParseHeader(header).error == VersionMissing
  {
    hide MatchStripe, Strip;
  }

  lemma Unsigned(delivery: Delivery)
    requires delivery.signature.None?
    ensures forall at, signature :: !SignedFor(delivery, at, signature)
  {
  }

  /** The case of a signature's letters does not matter. */
  lemma AnyCaseAccepted(signature: string, digest: string)
    requires AllLowerHex(digest) && |signature| == |digest|
    requires forall i :: 0 <= i < |digest| ==>
               signature[i] == digest[i] || ('A' <= signature[i] <= 'F' && digest[i] as int == signature[i] as int + 32)
    ensures Lower(signature) == digest
  {
  }

  /** Acceptance means the presented signature is the digest of a message inside the window. */
  lemma VerifiedMeansSigned(delivery: Delivery, policy: Policy, now: int)
    requires VerifyInbound(delivery, policy, now).Success?
    ensures var t := VerifyInbound(delivery, policy, now).value;
            && Distance(now, t) <= policy.tolerance
            && PresentedSignature(delivery) == Some(policy.hmac(policy.secret, SigningMessage(t, delivery.body)))
  {
    hide ParseHeader, SigningMessage, ParseInt, AllAscii;
  }

  /** One signature covers one timestamp and one body, however and whenever it is presented. */
  lemma SignatureBindsMessage(d: Delivery, d': Delivery, policy: Policy, now: int, now': int)
    requires InjectiveFor(policy.hmac, policy.secret)
    requires VerifyInbound(d, policy, now).Success? && VerifyInbound(d', policy, now').Success?
    requires PresentedSignature(d) == PresentedSignature(d')
    ensures d.body == d'.body && VerifyInbound(d, policy, now).value == VerifyInbound(d', policy, now').value
  {
    hide VerifyInbound, PresentedSignature, SigningMessage;
    VerifiedMeansSigned(d, policy, now);
    VerifiedMeansSigned(d', policy, now');
    SigningMessageInjective(VerifyInbound(d, policy, now).value, d.body, VerifyInbound(d', policy, now').value, d'.body);
  }

  lemma LowerHexKept(s: string)
    requires AllLowerHex(s)
    ensures Lower(s) == s && AllHex(s) && AllAscii(s)
  {
  }

  /** A bare digest is read as itself: no digest matches the other header form. */
  lemma PlainHeader(digest: string)
    requires digest != "" && AllLowerHex(digest)
    ensures ParseHeader(digest) == Success((None, digest))
  {
    LowerHexKept(digest);
    assert !IsSpace(digest[0]) && !IsSpace(digest[|digest| - 1]);
    StripKeeps(digest);
    assert IsHex(digest[0]);
  }

  lemma StripeHeader(timestamp: nat, digest: string)
    requires digest != "" && AllLowerHex(digest)
    ensures ParseHeader("t=" + Decimal(timestamp) + ",v1=" + digest) == Success((Some(timestamp), digest))
  {
    var digits := Decimal(timestamp);
    var s := "t=" + digits + ",v1=" + digest;
    LowerHexKept(digest);
    assert s[0] == 't' && s[|s| - 1] == digest[|digest| - 1];
    StripKeeps(s);
    assert StripeText(s, digits, Some(digest)) by {
      var prefix, version := "t=", ",v1=";
      assert StripeParts(s, prefix, digits, version, Some(digest));
    }
    MatchStripeExact(s, digits, Some(digest));
    ParseDecimal(timestamp);
  }

  /**
   Sign, then verify: a sender's own signature is accepted, in either header form, exactly while the clock is within
   the tolerance of its timestamp.
   */
  lemma SignThenVerify(timestamp: int, body: seq<Byte>, policy: Policy, now: int)
    requires policy.secret != "" && HexDigests(policy.hmac, policy.secret)
    ensures var digest := policy.hmac(policy.secret, SigningMessage(timestamp, body));
            && VerifyInbound(Delivery(body, Some(digest), Some(IntText(timestamp))), policy, now)
               == (if Distance(now, timestamp) <= policy.tolerance then Success(timestamp) else Failure(OutsideWindow))
            && (timestamp >= 0 ==>
                  VerifyInbound(Delivery(body, Some("t=" + Decimal(timestamp) + ",v1=" + digest), None), policy, now)
                  == (if Distance(now, timestamp) <= policy.tolerance then Success(timestamp) else Failure(OutsideWindow)))
  {
    hide ParseHeader, SigningMessage, IntText, Decimal, ParseInt;
    var digest := policy.hmac(policy.secret, SigningMessage(timestamp, body));
    LowerHexKept(digest);
    ParseIntText(timestamp);
    PlainHeader(digest);
    if timestamp >= 0 {
      StripeHeader(timestamp, digest);
    }
  }
}
