/**
 Backup addresses: the line parser of the batch dialog, the endpoint parser
 below it, and the endpoint printer.
 */
module BackupEndpoints {

  import opened Options
  import opened Sequences
  import opened JsText

  /**
   What the browser decides: `Number(text)` where it is not a plain decimal
   integer, and whether `new URL` accepts a bracketed IPv6 host that is not the
   unspecified address.
   */
  datatype Browser = Browser(number: string -> Option<real>, acceptsHost: string -> bool)

  // ----- IP literals -----

  function IsDot(): char -> bool {
    (c: char) => c == '.'
  }

  predicate IsOctet(part: string) {
    AllDigits(part) && |part| <= 3 && DecimalValue(part) <= 255 && (part == "0" || part[0] != '0')
  }

  predicate IsIPv4Literal(s: string) {
    var parts := Split(IsDot(), s);
    |parts| == 4 && (forall i :: 0 <= i < 4 ==> IsOctet(parts[i])) && s != "0.0.0.0"
  }

  function Dotted(a: nat, b: nat, c: nat, d: nat): string {
    Decimal(a) + "." + Decimal(b) + "." + Decimal(c) + "." + Decimal(d)
  }

  lemma OctetCanonical(part: string)
    ensures IsOctet(part) <==> exists n: nat :: n <= 255 && part == Decimal(n)
  {
    if IsOctet(part) {
      DecimalUnique(part);
      assert part == Decimal(DecimalValue(part));
    }
    forall n: nat | n <= 255 && part == Decimal(n) ensures IsOctet(part) {
      DecimalRoundTrip(n);
      DecimalShort(n);
    }
  }

  lemma DecimalShort(n: nat)
    requires n <= 255
    ensures |Decimal(n)| <= 3
    ensures n > 0 ==> Decimal(n)[0] != '0'
    ensures n == 0 ==> Decimal(n) == "0"
  {
    if n >= 10 {
      if n / 10 >= 10 {
        assert n / 10 / 10 < 10;
        assert |Decimal(n / 10 / 10)| == 1;
      }
    }
  }

  lemma DigitsHaveNoDot(s: string)
    requires AllDigits(s)
    ensures Unbroken(IsDot(), s)
  {
  }

  lemma SplitDotted(a: nat, b: nat, c: nat, d: nat)
    ensures Split(IsDot(), Dotted(a, b, c, d)) == [Decimal(a), Decimal(b), Decimal(c), Decimal(d)]
  {
    var tail3 := Decimal(d);
    var tail2 := Decimal(c) + "." + tail3;
    var tail1 := Decimal(b) + "." + tail2;
    assert Dotted(a, b, c, d) == Decimal(a) + "." + tail1;
    DigitsHaveNoDot(Decimal(a));
    DigitsHaveNoDot(Decimal(b));
    DigitsHaveNoDot(Decimal(c));
    DigitsHaveNoDot(Decimal(d));
    SplitFirst(IsDot(), Decimal(a), '.', tail1);
    SplitFirst(IsDot(), Decimal(b), '.', tail2);
    SplitFirst(IsDot(), Decimal(c), '.', tail3);
    SplitUnbroken(IsDot(), Decimal(d));
  }

  /** Different octets print differently. */
  lemma DottedInjective(a: nat, b: nat, c: nat, d: nat, a': nat, b': nat, c': nat, d': nat)
    requires Dotted(a, b, c, d) == Dotted(a', b', c', d')
    ensures a == a' && b == b' && c == c' && d == d'
  {
    SplitDotted(a, b, c, d);
    SplitDotted(a', b', c', d');
    var left := [Decimal(a), Decimal(b), Decimal(c), Decimal(d)];
    var right := [Decimal(a'), Decimal(b'), Decimal(c'), Decimal(d')];
    assert left == right;
    assert left[0] == right[0] && left[1] == right[1] && left[2] == right[2] && left[3] == right[3];
    DecimalInjective(a, a');
    DecimalInjective(b, b');
    DecimalInjective(c, c');
    DecimalInjective(d, d');
  }

  ghost predicate Octets(a: nat, b: nat, c: nat, d: nat) {
    a <= 255 && b <= 255 && c <= 255 && d <= 255 && a + b + c + d > 0
  }

  lemma IPv4IsDotted(s: string)
    requires IsIPv4Literal(s)
    ensures exists a: nat, b: nat, c: nat, d: nat :: Octets(a, b, c, d) && s == Dotted(a, b, c, d)
  {
    var parts := Split(IsDot(), s);
    JoinSplit(s, '.');
    SplitSame((x: char) => x == '.', IsDot(), s);
    JoinFour(parts, '.');
    forall i | 0 <= i < 4 ensures exists n: nat :: n <= 255 && parts[i] == Decimal(n) {
      OctetCanonical(parts[i]);
    }
    var a: nat :| a <= 255 && parts[0] == Decimal(a);
    var b: nat :| b <= 255 && parts[1] == Decimal(b);
    var c: nat :| c <= 255 && parts[2] == Decimal(c);
    var d: nat :| d <= 255 && parts[3] == Decimal(d);
    ZeroDotted();
    hide Split;
    hide Decimal;
    hide IsOctet;
    assert s == Dotted(a, b, c, d);
    assert Octets(a, b, c, d);
  }

  lemma ZeroDotted()
    ensures Dotted(0, 0, 0, 0) == "0.0.0.0"
  {
    DecimalShort(0);
  }

  lemma DottedIsIPv4(a: nat, b: nat, c: nat, d: nat)
    requires Octets(a, b, c, d)
    ensures IsIPv4Literal(Dotted(a, b, c, d))
  {
    SplitDotted(a, b, c, d);
    OctetCanonical(Decimal(a));
    OctetCanonical(Decimal(b));
    OctetCanonical(Decimal(c));
    OctetCanonical(Decimal(d));
    ZeroDotted();
    if Dotted(a, b, c, d) == Dotted(0, 0, 0, 0) {
      DottedInjective(a, b, c, d, 0, 0, 0, 0);
    }
    hide Dotted;
    hide Split;
    hide IsOctet;
  }

  /** Accepted IPv4 text is exactly the dotted decimal form of four octets that are not all zero. */
  lemma IPv4Canonical(s: string)
    ensures IsIPv4Literal(s) <==> exists a: nat, b: nat, c: nat, d: nat :: Octets(a, b, c, d) && s == Dotted(a, b, c, d)
  {
    hide IsIPv4Literal;
    hide Dotted;
    if IsIPv4Literal(s) {
      IPv4IsDotted(s);
    }
    forall a: nat, b: nat, c: nat, d: nat | Octets(a, b, c, d) && s == Dotted(a, b, c, d) ensures IsIPv4Literal(s) {
      DottedIsIPv4(a, b, c, d);
    }
  }

  lemma {:induction false} SplitSame(p: char -> bool, q: char -> bool, s: string)
    requires forall c :: p(c) == q(c)
    ensures Split(p, s) == Split(q, s)
  {
    if s != "" {
      SplitSame(p, q, s[1..]);
    }
  }

  lemma JoinFour(parts: seq<string>, c: char)
    requires |parts| == 4
    ensures Join(parts, c) == parts[0] + [c] + parts[1] + [c] + parts[2] + [c] + parts[3]
  {
    assert parts[1..][1..] == parts[2..];
    assert parts[2..][1..] == parts[3..];
    assert Join(parts[3..], c) == parts[3];
    assert Join(parts[2..], c) == parts[2] + [c] + parts[3];
    assert Join(parts[1..], c) == parts[1] + [c] + Join(parts[2..], c);
  }

  function Colons(s: string): nat {
    if s == "" then 0 else (if s[0] == ':' then 1 else 0) + Colons(s[1..])
  }

  /** `/^[0-9a-f:.]+$/i` */
  predicate IsIPv6Char(c: char) {
    IsDigit(c) || 'a' <= c <= 'f' || 'A' <= c <= 'F' || c == ':' || c == '.'
  }

  /** Every IPv6 text form (section 2.2 of RFC 4291) has at least two colons. */
  predicate IsIPv6Literal(browser: Browser, s: string) {
    && ':' in s
    && (forall c :: c in s ==> IsIPv6Char(c))
    && Colons(s) >= 2 && browser.acceptsHost(s)
  }

  predicate Accepted(browser: Browser, s: string) {
    IsIPv4Literal(s) || IsIPv6Literal(browser, s)
  }

  /** Drop one leading `[` and one trailing `]`. */
  function StripBrackets(s: string): string {
    var t := if s != "" && s[0] == '[' then s[1..] else s;
    if t != "" && t[|t| - 1] == ']' then t[..|t| - 1] else t
  }

  function NormalizeIPLiteral(browser: Browser, value: string): (ip: Option<string>)
    ensures ip.Some? ==> Accepted(browser, ip.value)
  {
    var s := StripBrackets(Trim(value));
    if Accepted(browser, s) then Some(s) else None
  }

  lemma IPv4Chars(s: string)
    requires IsIPv4Literal(s)
    ensures s != "" && forall c :: c in s ==> IsDigit(c) || c == '.'
  {
    JoinSplit(s, '.');
    SplitSame((x: char) => x == '.', IsDot(), s);
    JoinFour(Split(IsDot(), s), '.');
  }

  lemma AcceptedChars(browser: Browser, s: string)
    requires Accepted(browser, s)
    ensures s != "" && forall c :: c in s ==> IsIPv6Char(c)
    ensures ':' !in s <==> IsIPv4Literal(s)
  {
    if IsIPv4Literal(s) {
      IPv4Chars(s);
    }
  }

  lemma AcceptedEnds(browser: Browser, s: string)
    requires Accepted(browser, s)
    ensures s != "" && IsTrimmed(s) && s[0] != '[' && s[|s| - 1] != ']'
  {
    AcceptedChars(browser, s);
    assert s[0] in s && s[|s| - 1] in s;
    hide Accepted;
  }

  /** An accepted literal is a fixed point of the normalisation. */
  lemma AcceptedNormalizes(browser: Browser, s: string)
    requires Accepted(browser, s)
    ensures NormalizeIPLiteral(browser, s) == Some(s)
  {
    AcceptedEnds(browser, s);
    TrimTrims(s);
    hide Accepted;
    hide Trim;
  }

  // ----- one endpoint -----

  /** `numberValue(text, fallback)` */
  function NumberOr(browser: Browser, text: string, fallback: real): real {
    var n := NumberOf(browser.number, text);
    if n.Some? then n.value else fallback
  }

  datatype Endpoint = Endpoint(ip: Option<string>, port: real)

  /** `/^\[([^\]]+)\](?::(\d+))?$/` (the bracketed form of section 3.2.2 of RFC 3986) */
  predicate IsBracketed(s: string) {
    s != "" && s[0] == '[' &&
    var close := IndexOf(s, ']');
    && 2 <= close < |s|
    && var rest := s[close + 1..];
       rest == "" || (rest[0] == ':' && AllDigits(rest[1..]))
  }

  function ParseEndpoint(browser: Browser, value: string, defaultPort: real): (r: Endpoint)
    ensures r.ip.Some? ==> Accepted(browser, r.ip.value)
  {
    hide Trim;
    hide Accepted;
    hide IsIPv4Literal;
    hide Colons;
    hide AllDigits;
    hide NumberOr;
    var s := Trim(value);
    if IsBracketed(s) then
      var close := IndexOf(s, ']');
      var rest := s[close + 1..];
      Endpoint(NormalizeIPLiteral(browser, s[1..close]),
               if rest == "" then defaultPort else NumberOr(browser, rest[1..], defaultPort))
    else
      var colon := IndexOf(s, ':');
      if Colons(s) == 1 && colon < |s| && AllDigits(s[colon + 1..]) then
        Endpoint(NormalizeIPLiteral(browser, s[..colon]), NumberOr(browser, s[colon + 1..], 0.0))
      else Endpoint(NormalizeIPLiteral(browser, s), defaultPort)
  }

  /** `formatBackupEndpoint` for an integer port */
  function FormatEndpoint(ip: string, port: nat): string {
    if ':' in ip then "[" + ip + "]:" + Decimal(port) else ip + ":" + Decimal(port)
  }

  lemma {:induction false} NoColons(s: string)
    ensures Colons(s) == 0 <==> ':' !in s
  {
    if s != "" {
      NoColons(s[1..]);
    }
  }

  lemma {:induction false} ColonsConcat(s: string, t: string)
    ensures Colons(s + t) == Colons(s) + Colons(t)
  {
    if s == "" {
      assert s + t == t;
    } else {
      assert (s + t)[1..] == s[1..] + t;
      ColonsConcat(s[1..], t);
    }
  }

  lemma DecimalNumber(browser: Browser, port: nat, fallback: real)
    requires port <= MAX_SAFE_INTEGER
    ensures NumberOr(browser, Decimal(port), fallback) == port as real
  {
    DecimalRoundTrip(port);
  }

  lemma BracketedClose(s: string, ip: string, digits: string)
    requires s == "[" + ip + "]:" + digits
    requires forall c :: c in ip ==> IsIPv6Char(c)
    ensures IndexOf(s, ']') == |ip| + 1
  {
    forall i | 0 <= i < |ip| + 1 ensures s[i] != ']' {
      if i > 0 {
        assert s[i] == ip[i - 1] && ip[i - 1] in ip;
      }
    }
    IndexOfAt(s, ']', |ip| + 1);
  }

  lemma BracketedSlices(s: string, ip: string, digits: string)
    requires s == "[" + ip + "]:" + digits && digits != ""
    ensures |s| == |ip| + 3 + |digits|
    ensures s[0] == '[' && s[|ip| + 2] == ':' && s[|s| - 1] == digits[|digits| - 1]
    ensures s[1..|ip| + 1] == ip && s[|ip| + 3..] == digits && s[|ip| + 2..][1..] == digits
  {
  }

  lemma BracketedShape(s: string, ip: string, digits: string)
    requires s == "[" + ip + "]:" + digits && ip != "" && AllDigits(digits)
    requires forall c :: c in ip ==> IsIPv6Char(c)
    ensures Trim(s) == s && IsBracketed(s)
    ensures IndexOf(s, ']') == |ip| + 1
    ensures s[1..|ip| + 1] == ip && s[|ip| + 2..][1..] == digits && |s| > |ip| + 2
  {
    BracketedClose(s, ip, digits);
    BracketedSlices(s, ip, digits);
    hide IndexOf;
    TrimmedFixed(s);
    hide Trim;
    hide AllDigits;
    hide IsSpace;
  }

  lemma ParseShaped(browser: Browser, s: string, ip: string, digits: string, defaultPort: real)
    requires Trim(s) == s && IsBracketed(s) && IndexOf(s, ']') == |ip| + 1 && |s| > |ip| + 2
    requires s[1..|ip| + 1] == ip && s[|ip| + 2..][1..] == digits
    ensures ParseEndpoint(browser, s, defaultPort)
         == Endpoint(NormalizeIPLiteral(browser, ip), NumberOr(browser, digits, defaultPort))
  {
    hide NormalizeIPLiteral;
    hide NumberOr;
    hide Trim;
    hide IsBracketed;
    hide IndexOf;
    hide Colons;
  }

  lemma ParseBracketed(browser: Browser, ip: string, port: nat, defaultPort: real)
    requires Accepted(browser, ip) && port <= MAX_SAFE_INTEGER
    ensures ParseEndpoint(browser, "[" + ip + "]:" + Decimal(port), defaultPort) == Endpoint(Some(ip), port as real)
  {
    var digits := Decimal(port);
    var s := "[" + ip + "]:" + digits;
    AcceptedChars(browser, ip);
    BracketedShape(s, ip, digits);
    ParseShaped(browser, s, ip, digits, defaultPort);
    AcceptedNormalizes(browser, ip);
    DecimalNumber(browser, port, defaultPort);
    hide *;
  }

  lemma PlainColon(s: string, ip: string, digits: string)
    requires s == ip + ":" + digits && AllDigits(digits)
    requires forall c :: c in ip ==> IsDigit(c) || c == '.'
    ensures Colons(s) == 1 && IndexOf(s, ':') == |ip|
  {
    NoColons(ip);
    NoColons(digits);
    ColonsConcat(ip, ":");
    ColonsConcat(ip + ":", digits);
    assert Colons(":") == 1 + Colons("");
    forall i | 0 <= i < |ip| ensures s[i] != ':' {
      assert s[i] == ip[i] && ip[i] in ip;
    }
    IndexOfAt(s, ':', |ip|);
  }

  lemma PlainSlices(s: string, ip: string, digits: string)
    requires s == ip + ":" + digits && ip != "" && digits != ""
    ensures |s| > |ip| && s[0] == ip[0] && s[|s| - 1] == digits[|digits| - 1]
    ensures s[..|ip|] == ip && s[|ip| + 1..] == digits
  {
  }

  lemma ParsePlainShaped(browser: Browser, s: string, ip: string, digits: string, defaultPort: real)
    requires |s| > |ip| && IsTrimmed(s) && s[0] != '[' && Colons(s) == 1 && IndexOf(s, ':') == |ip|
    requires s[..|ip|] == ip && s[|ip| + 1..] == digits && AllDigits(digits)
    ensures ParseEndpoint(browser, s, defaultPort) == Endpoint(NormalizeIPLiteral(browser, ip), NumberOr(browser, digits, 0.0))
  {
    TrimTrims(s);
    hide NormalizeIPLiteral;
    hide NumberOr;
    hide Trim;
    hide IndexOf;
    hide Colons;
    hide AllDigits;
  }

  lemma ParsePlain(browser: Browser, ip: string, port: nat, defaultPort: real)
    requires IsIPv4Literal(ip) && port <= MAX_SAFE_INTEGER
    ensures ParseEndpoint(browser, ip + ":" + Decimal(port), defaultPort) == Endpoint(Some(ip), port as real)
  {
    hide Trim;
    hide NormalizeIPLiteral;
    hide ParseEndpoint;
    hide NumberOr;
    hide IsIPv4Literal;
    hide Colons;
    hide IndexOf;
    var digits := Decimal(port);
    var s := ip + ":" + digits;
    IPv4Chars(ip);
    assert ip[0] in ip;
    PlainColon(s, ip, digits);
    PlainSlices(s, ip, digits);
    ParsePlainShaped(browser, s, ip, digits, defaultPort);
    AcceptedNormalizes(browser, ip);
    DecimalNumber(browser, port, 0.0);
    hide *;
  }

  /** Endpoint text round-trips: parsing the printed form returns the address and the port, whatever the default port. */
  lemma FormatRoundTrip(browser: Browser, ip: string, port: nat, defaultPort: real)
    requires Accepted(browser, ip) && port <= MAX_SAFE_INTEGER
    ensures ParseEndpoint(browser, FormatEndpoint(ip, port), defaultPort) == Endpoint(Some(ip), port as real)
  {
    AcceptedChars(browser, ip);
    if ':' in ip {
      ParseBracketed(browser, ip, port, defaultPort);
    } else {
      ParsePlain(browser, ip, port, defaultPort);
    }
  }

  /** A bare accepted address takes the default port. */
  lemma ParseBare(browser: Browser, ip: string, defaultPort: real)
    requires Accepted(browser, ip)
    ensures ParseEndpoint(browser, ip, defaultPort) == Endpoint(Some(ip), defaultPort)
  {
    AcceptedNormalizes(browser, ip);
    AcceptedShape(browser, ip);
    hide NormalizeIPLiteral;
    hide Trim;
    hide Colons;
    hide IsBracketed;
    hide IndexOf;
    hide Accepted;
  }

  lemma AcceptedShape(browser: Browser, ip: string)
    requires Accepted(browser, ip)
    ensures Trim(ip) == ip && !IsBracketed(ip) && Colons(ip) != 1
  {
    AcceptedChars(browser, ip);
    assert ip[0] in ip && ip[|ip| - 1] in ip;
    TrimTrims(ip);
    NoColons(ip);
    hide Trim;
    hide IsIPv4Literal;
  }

  // ----- one line -----

  datatype Problem = BadShape | BadAddress | BadPort | Duplicate

  datatype Item = Item(name: string, ip: string, port: real)

  /** A line by itself, before duplicates are considered. */
  datatype Outcome = Blank | Wrong(problem: Problem) | Right(item: Item)

  function IsComma(): char -> bool {
    (c: char) => c == ',' || c == '\U{FF0C}'
  }

  function TrimAll(parts: seq<string>): (r: seq<string>)
    ensures |r| == |parts|
    ensures forall i :: 0 <= i < |parts| ==> r[i] == Trim(parts[i])
  {
    Map(Trim, parts)
  }

  /** What a line asks for: a display name, endpoint text and the port to use when the endpoint names none. */
  datatype Request = Request(name: string, endpoint: string, port: real)

  function ReadRequest(browser: Browser, line: string, defaultPort: real): Option<Request> {
    var parts := TrimAll(Split(IsComma(), line));
    if |parts| > 3 then None
    else if |parts| == 3 then Some(Request(parts[0], parts[1], NumberOr(browser, parts[2], 0.0)))
    else if |parts| == 2 then
      if AllDigits(parts[1]) && NormalizeIPLiteral(browser, parts[0]).Some? then
        Some(Request("", parts[0], NumberOr(browser, parts[1], 0.0)))
      else Some(Request(parts[0], parts[1], defaultPort))
    else Some(Request("", line, defaultPort))
  }

  function ReadLine(browser: Browser, raw: string, defaultPort: real): (r: Outcome)
    ensures r.Right? ==> Accepted(browser, r.item.ip) && 1.0 <= r.item.port <= 65535.0 && r.item.name != ""
    ensures r.Wrong? ==> r.problem != Duplicate
    ensures r.Blank? <==> Trim(raw) == ""
  {
    hide NormalizeIPLiteral;
    hide ParseEndpoint;
    hide Trim;
    hide Accepted;
    hide ReadRequest;
    var line := Trim(raw);
    if line == "" then Blank
    else
      var request := ReadRequest(browser, line, defaultPort);
      if request.None? then Wrong(BadShape)
      else
        var parsed := ParseEndpoint(browser, request.value.endpoint, request.value.port);
        if parsed.ip.None? then Wrong(BadAddress)
        else if parsed.port < 1.0 || parsed.port > 65535.0 then Wrong(BadPort)
        else
          var ip := parsed.ip.value;
          assert ip != "" by { AcceptedChars(browser, ip); }
          Right(Item(if request.value.name != "" then request.value.name else ip, ip, parsed.port))
  }

  // ----- all lines -----

  /** The address two lines may not share. */
  function Address(item: Item): string {
    ToLower(item.ip)
  }

  /** Line `i` is kept: it is right and no earlier right line has its address. */
  ghost predicate Kept(outcomes: seq<Outcome>, i: nat)
    requires i < |outcomes|
  {
    outcomes[i].Right? && forall j :: 0 <= j < i && outcomes[j].Right? ==> Address(outcomes[j].item) != Address(outcomes[i].item)
  }

  datatype LineError = LineError(line: nat, problem: Problem)

  ghost function ProblemAt(outcomes: seq<Outcome>, i: nat): Problem
    requires i < |outcomes| && !outcomes[i].Blank? && !Kept(outcomes, i)
  {
    if outcomes[i].Right? then Duplicate else outcomes[i].problem
  }

  /** The items of the kept lines among the first `n`, in line order. */
  ghost function ItemsUpTo(outcomes: seq<Outcome>, n: nat): (items: seq<Item>)
    requires n <= |outcomes|
  {
    if n == 0 then []
    else ItemsUpTo(outcomes, n - 1) + if Kept(outcomes, n - 1) then [outcomes[n - 1].item] else []
  }

  /** One error for each non-blank line among the first `n` that is not kept, numbered from one. */
  ghost function ErrorsUpTo(outcomes: seq<Outcome>, n: nat): (errors: seq<LineError>)
    requires n <= |outcomes|
  {
    if n == 0 then []
    else
      ErrorsUpTo(outcomes, n - 1) +
      if outcomes[n - 1].Blank? || Kept(outcomes, n - 1) then [] else [LineError(n, ProblemAt(outcomes, n - 1))]
  }

  function Outcomes(browser: Browser, lines: seq<string>, defaultPort: real): (r: seq<Outcome>)
    ensures |r| == |lines|
    ensures forall i :: 0 <= i < |lines| ==> r[i] == ReadLine(browser, lines[i], defaultPort)
  {
    seq(|lines|, i requires 0 <= i < |lines| => ReadLine(browser, lines[i], defaultPort))
  }

  /** A trailing `\r` belongs to the line break when a `\n` follows. */
  function DropReturn(s: string): string {
    if s != "" && s[|s| - 1] == '\r' then s[..|s| - 1] else s
  }

  function IsNewline(): char -> bool {
    (c: char) => c == '\n'
  }

  /** `text.split(/\r?\n/)` */
  function Lines(text: string): (lines: seq<string>) {
    var parts := Split(IsNewline(), text);
    seq(|parts|, i requires 0 <= i < |parts| => if i + 1 < |parts| then DropReturn(parts[i]) else parts[i])
  }

  /** The addresses of the right lines among the first `n`. */
  function SeenUpTo(outcomes: seq<Outcome>, n: nat): set<string>
    requires n <= |outcomes|
  {
    if n == 0 then {}
    else SeenUpTo(outcomes, n - 1) + if outcomes[n - 1].Right? then {Address(outcomes[n - 1].item)} else {}
  }

  lemma {:induction false} SeenAddresses(outcomes: seq<Outcome>, n: nat, key: string)
    requires n <= |outcomes|
    ensures key in SeenUpTo(outcomes, n) <==>
            exists j :: 0 <= j < n && outcomes[j].Right? && Address(outcomes[j].item) == key
  {
    hide Address;
    if n > 0 {
      SeenAddresses(outcomes, n - 1, key);
    }
  }

  lemma KeptUnseen(outcomes: seq<Outcome>, i: nat)
    requires i < |outcomes|
    ensures Kept(outcomes, i) <==> outcomes[i].Right? && Address(outcomes[i].item) !in SeenUpTo(outcomes, i)
  {
    hide Address;
    if outcomes[i].Right? {
      SeenAddresses(outcomes, i, Address(outcomes[i].item));
    }
  }

  /** `parseBackupIPLines` */
  method ParseBackupIPLines(browser: Browser, text: string, defaultPort: real)
    returns (items: seq<Item>, errors: seq<LineError>)
    ensures var outcomes := Outcomes(browser, Lines(text), defaultPort);
            items == ItemsUpTo(outcomes, |outcomes|) && errors == ErrorsUpTo(outcomes, |outcomes|)
  {
    var lines := Lines(text);
    ghost var outcomes := Outcomes(browser, lines, defaultPort);
    hide *;
    items, errors := [], [];
    var seen: set<string> := {};
    StepNone(outcomes);
    for i := 0 to |lines|
      invariant items == ItemsUpTo(outcomes, i) && errors == ErrorsUpTo(outcomes, i)
      invariant seen == SeenUpTo(outcomes, i)
    {
      StepLine(outcomes, i);
      match ReadLine(browser, lines[i], defaultPort) {
        case Blank =>
        case Wrong(problem) => errors := errors + [LineError(i + 1, problem)];
        case Right(item) =>
          var key := Address(item);
          if key in seen {
            errors := errors + [LineError(i + 1, Duplicate)];
          } else {
            seen := seen + {key};
            items := items + [item];
          }
      }
    }
  }

  lemma StepNone(outcomes: seq<Outcome>)
    ensures ItemsUpTo(outcomes, 0) == [] && ErrorsUpTo(outcomes, 0) == [] && SeenUpTo(outcomes, 0) == {}
  {
  }

  lemma StepLine(outcomes: seq<Outcome>, i: nat)
    requires i < |outcomes|
    ensures ItemsUpTo(outcomes, i + 1) == ItemsUpTo(outcomes, i) +
              if outcomes[i].Right? && Address(outcomes[i].item) !in SeenUpTo(outcomes, i) then [outcomes[i].item] else []
    ensures ErrorsUpTo(outcomes, i + 1) == ErrorsUpTo(outcomes, i) +
              match outcomes[i]
              case Blank => []
              case Wrong(problem) => [LineError(i + 1, problem)]
              case Right(item) => if Address(item) in SeenUpTo(outcomes, i) then [LineError(i + 1, Duplicate)] else []
    ensures SeenUpTo(outcomes, i + 1) == SeenUpTo(outcomes, i) +
              if outcomes[i].Right? then {Address(outcomes[i].item)} else {}
  {
    KeptUnseen(outcomes, i);
    hide Address;
    hide Kept;
  }

  // ----- what the result means -----

  lemma {:induction false} KeptUnlessKept(outcomes: seq<Outcome>, i: nat)
    requires i < |outcomes| && outcomes[i].Right?
    ensures Kept(outcomes, i) <==>
            forall j :: 0 <= j < i && Kept(outcomes, j) ==> Address(outcomes[j].item) != Address(outcomes[i].item)
  {
    hide Address;
    if !Kept(outcomes, i) {
      var j :| 0 <= j < i && outcomes[j].Right? && Address(outcomes[j].item) == Address(outcomes[i].item);
      var k := FirstWith(outcomes, j);
      assert Kept(outcomes, k);
    }
  }

  /** An otherwise valid line is kept exactly when no earlier kept line has the same lower-cased address. */
  lemma KeptIffNoEarlierKept(outcomes: seq<Outcome>, i: nat)
    requires i < |outcomes| && outcomes[i].Right?
    ensures Kept(outcomes, i) <==>
            forall j :: 0 <= j < i && Kept(outcomes, j) ==> ToLower(outcomes[j].item.ip) != ToLower(outcomes[i].item.ip)
  {
    KeptUnlessKept(outcomes, i);
    hide Kept;
    hide ToLower;
    assert forall item :: Address(item) == ToLower(item.ip);
  }

  /** The first right line with the address of line `j`. */
  lemma {:induction false} FirstWith(outcomes: seq<Outcome>, j: nat) returns (k: nat)
    requires j < |outcomes| && outcomes[j].Right?
    ensures k <= j && Kept(outcomes, k) && Address(outcomes[k].item) == Address(outcomes[j].item)
  {
    hide Address;
    if Kept(outcomes, j) {
      k := j;
    } else {
      var i :| 0 <= i < j && outcomes[i].Right? && Address(outcomes[i].item) == Address(outcomes[j].item);
      k := FirstWith(outcomes, i);
    }
  }

  function NonBlank(outcomes: seq<Outcome>, n: nat): nat
    requires n <= |outcomes|
  {
    if n == 0 then 0 else NonBlank(outcomes, n - 1) + if outcomes[n - 1].Blank? then 0 else 1
  }

  lemma {:induction false} ResultsCounted(outcomes: seq<Outcome>, n: nat)
    requires n <= |outcomes|
    ensures |ItemsUpTo(outcomes, n)| + |ErrorsUpTo(outcomes, n)| == NonBlank(outcomes, n)
  {
    hide ProblemAt;
    if n > 0 {
      ResultsCounted(outcomes, n - 1);
      if outcomes[n - 1].Blank? {
        assert !Kept(outcomes, n - 1);
      }
      hide Kept;
    }
  }

  lemma {:induction false} ErrorsNamed(outcomes: seq<Outcome>, n: nat, e: LineError)
    requires n <= |outcomes|
    ensures e in ErrorsUpTo(outcomes, n) <==>
              && 1 <= e.line <= n && !outcomes[e.line - 1].Blank? && !Kept(outcomes, e.line - 1)
              && e.problem == ProblemAt(outcomes, e.line - 1)
  {
    hide Kept;
    hide ProblemAt;
    if n > 0 {
      ErrorsNamed(outcomes, n - 1, e);
    }
  }

  lemma {:induction false} KeptListed(outcomes: seq<Outcome>, n: nat, i: nat)
    requires i < n <= |outcomes| && Kept(outcomes, i)
    ensures outcomes[i].item in ItemsUpTo(outcomes, n)
  {
    hide Address;
    if i < n - 1 {
      KeptListed(outcomes, n - 1, i);
    }
  }

  /**
   Each non-blank line yields one item or one error, never both, never none: the
   counts add up, the errors are exactly those of the lines not kept, and a kept
   line's item is listed.
   */
  lemma {:induction false} OneResultPerLine(outcomes: seq<Outcome>, n: nat, e: LineError, i: nat)
    requires n <= |outcomes|
    ensures |ItemsUpTo(outcomes, n)| + |ErrorsUpTo(outcomes, n)| == NonBlank(outcomes, n)
    ensures e in ErrorsUpTo(outcomes, n) <==>
              && 1 <= e.line <= n && !outcomes[e.line - 1].Blank? && !Kept(outcomes, e.line - 1)
              && e.problem == ProblemAt(outcomes, e.line - 1)
    ensures i < n && Kept(outcomes, i) ==> outcomes[i].item in ItemsUpTo(outcomes, n)
  {
    ResultsCounted(outcomes, n);
    ErrorsNamed(outcomes, n, e);
    if i < n && Kept(outcomes, i) {
      KeptListed(outcomes, n, i);
    }
    hide *;
  }

  /** The positions of the kept lines, ascending. */
  ghost function KeptLines(outcomes: seq<Outcome>, n: nat): (r: seq<nat>)
    requires n <= |outcomes|
  {
    if n == 0 then [] else KeptLines(outcomes, n - 1) + if Kept(outcomes, n - 1) then [n - 1] else []
  }

  lemma {:induction false} ItemsAtKeptLines(outcomes: seq<Outcome>, n: nat)
    requires n <= |outcomes|
    ensures |ItemsUpTo(outcomes, n)| == |KeptLines(outcomes, n)|
    ensures forall k :: 0 <= k < |KeptLines(outcomes, n)| ==>
              KeptLines(outcomes, n)[k] < n && Kept(outcomes, KeptLines(outcomes, n)[k])
              && ItemsUpTo(outcomes, n)[k] == outcomes[KeptLines(outcomes, n)[k]].item
    ensures forall k, l :: 0 <= k < l < |KeptLines(outcomes, n)| ==> KeptLines(outcomes, n)[k] < KeptLines(outcomes, n)[l]
  {
    hide Kept;
    if n > 0 {
      ItemsAtKeptLines(outcomes, n - 1);
      var items, at := ItemsUpTo(outcomes, n - 1), KeptLines(outcomes, n - 1);
      assert Kept(outcomes, n - 1) ==> (at + [n - 1])[|at|] == n - 1;
    }
  }

  /** Items come in line order, each from its own kept line, with distinct addresses and ports in range. */
  lemma ItemsInLineOrder(browser: Browser, lines: seq<string>, defaultPort: real)
    ensures var outcomes := Outcomes(browser, lines, defaultPort);
            var items, at := ItemsUpTo(outcomes, |lines|), KeptLines(outcomes, |lines|);
            && |items| == |at|
            && (forall k :: 0 <= k < |at| ==> at[k] < |lines| && outcomes[at[k]].Right? && items[k] == outcomes[at[k]].item)
            && (forall k, l :: 0 <= k < l < |at| ==> at[k] < at[l])
            && (forall k, l :: 0 <= k < l < |items| ==> Address(items[k]) != Address(items[l]))
            && (forall k :: 0 <= k < |items| ==> Accepted(browser, items[k].ip) && 1.0 <= items[k].port <= 65535.0)
  {
    var outcomes := Outcomes(browser, lines, defaultPort);
    ItemsAtKeptLines(outcomes, |lines|);
    hide ItemsUpTo;
    hide KeptLines;
    hide ReadLine;
    hide Address;
    hide Accepted;
    var items, at := ItemsUpTo(outcomes, |lines|), KeptLines(outcomes, |lines|);
    forall k, l | 0 <= k < l < |items| ensures Address(items[k]) != Address(items[l]) {
      assert Kept(outcomes, at[l]) && Kept(outcomes, at[k]);
    }
    forall k | 0 <= k < |items| ensures Accepted(browser, items[k].ip) && 1.0 <= items[k].port <= 65535.0 {
      assert Kept(outcomes, at[k]);
    }
  }

  // ----- a clean list round-trips -----

  datatype Entry = Entry(name: string, ip: string, port: nat)

  ghost predicate Clean(browser: Browser, e: Entry) {
    && e.name != "" && IsTrimmed(e.name) && Unbroken(IsComma(), e.name) && '\n' !in e.name
    && Accepted(browser, e.ip)
    && 1 <= e.port <= 65535
  }

  function LineOf(e: Entry): string {
    e.name + "," + e.ip + "," + Decimal(e.port)
  }

  function ItemOf(e: Entry): Item {
    Item(e.name, e.ip, e.port as real)
  }

  lemma LineParts(s: string, name: string, ip: string, digits: string)
    requires s == name + "," + ip + "," + digits
    requires Unbroken(IsComma(), name) && Unbroken(IsComma(), ip) && Unbroken(IsComma(), digits)
    ensures Split(IsComma(), s) == [name, ip, digits]
  {
    var tail := ip + "," + digits;
    assert s == name + [','] + tail;
    SplitFirst(IsComma(), name, ',', tail);
    SplitFirst(IsComma(), ip, ',', digits);
    SplitUnbroken(IsComma(), digits);
  }

  lemma LineEnds(s: string, name: string, ip: string, digits: string)
    requires s == name + "," + ip + "," + digits && name != "" && digits != ""
    ensures s != "" && s[0] == name[0] && s[|s| - 1] == digits[|digits| - 1]
    ensures forall c :: c in s ==> c in name || c in ip || c in digits || c == ','
  {
  }

  lemma TrimThree(name: string, ip: string, digits: string)
    requires Trim(name) == name && Trim(ip) == ip && Trim(digits) == digits
    ensures TrimAll([name, ip, digits]) == [name, ip, digits]
  {
    hide Trim;
    hide TrimAll;
    var r := TrimAll([name, ip, digits]);
    assert r[0] == name && r[1] == ip && r[2] == digits;
  }

  lemma ReadThreeParts(browser: Browser, s: string, name: string, ip: string, digits: string, defaultPort: real)
    requires Split(IsComma(), s) == [name, ip, digits]
    requires IsTrimmed(name) && IsTrimmed(ip) && IsTrimmed(digits)
    ensures ReadRequest(browser, s, defaultPort) == Some(Request(name, ip, NumberOr(browser, digits, 0.0)))
  {
    TrimmedFixed(name);
    TrimmedFixed(ip);
    TrimmedFixed(digits);
    TrimThree(name, ip, digits);
    hide Split;
    hide Trim;
    hide TrimAll;
    hide NumberOr;
    hide NormalizeIPLiteral;
    hide AllDigits;
    hide IsTrimmed;
    var parts := [name, ip, digits];
    assert parts[0] == name && parts[1] == ip && parts[2] == digits;
  }

  lemma CleanRequest(browser: Browser, e: Entry, defaultPort: real)
    requires Clean(browser, e)
    ensures Trim(LineOf(e)) == LineOf(e) && LineOf(e) != ""
    ensures ReadRequest(browser, LineOf(e), defaultPort) == Some(Request(e.name, e.ip, e.port as real))
  {
    var digits := Decimal(e.port);
    var s := LineOf(e);
    AcceptedEnds(browser, e.ip);
    AcceptedChars(browser, e.ip);
    LineParts(s, e.name, e.ip, digits);
    LineEnds(s, e.name, e.ip, digits);
    TrimmedFixed(s);
    DecimalNumber(browser, e.port, 0.0);
    ReadThreeParts(browser, s, e.name, e.ip, digits, defaultPort);
    hide *;
  }

  lemma CleanReads(browser: Browser, e: Entry, defaultPort: real)
    requires Clean(browser, e)
    ensures ReadLine(browser, LineOf(e), defaultPort) == Right(ItemOf(e))
  {
    CleanRequest(browser, e, defaultPort);
    ParseBare(browser, e.ip, e.port as real);
    hide ReadRequest;
    hide ParseEndpoint;
    hide LineOf;
    hide Trim;
    hide Accepted;
  }

  function LinesOf(entries: seq<Entry>): (lines: seq<string>)
    ensures |lines| == |entries|
    ensures forall i :: 0 <= i < |entries| ==> lines[i] == LineOf(entries[i])
  {
    seq(|entries|, i requires 0 <= i < |entries| => LineOf(entries[i]))
  }

  lemma CleanLineWhole(browser: Browser, e: Entry)
    requires Clean(browser, e)
    ensures Unbroken(IsNewline(), LineOf(e)) && DropReturn(LineOf(e)) == LineOf(e)
  {
    AcceptedChars(browser, e.ip);
    var digits := Decimal(e.port);
    LineEnds(LineOf(e), e.name, e.ip, digits);
    assert digits[|digits| - 1] in digits;
    hide LineOf;
    hide Accepted;
  }

  lemma CleanText(browser: Browser, entries: seq<Entry>)
    requires entries != [] && forall i :: 0 <= i < |entries| ==> Clean(browser, entries[i])
    ensures Lines(Join(LinesOf(entries), '\n')) == LinesOf(entries)
  {
    var lines := LinesOf(entries);
    forall i | 0 <= i < |entries| ensures Unbroken(IsNewline(), lines[i]) && DropReturn(lines[i]) == lines[i] {
      CleanLineWhole(browser, entries[i]);
    }
    SplitJoined(IsNewline(), '\n', lines);
    hide Split;
    hide Clean;
    hide DropReturn;
    hide LineOf;
    hide Join;
  }

  lemma {:induction false} AllKept(outcomes: seq<Outcome>, n: nat)
    requires n <= |outcomes| && forall i :: 0 <= i < |outcomes| ==> Kept(outcomes, i)
    ensures |ItemsUpTo(outcomes, n)| == n && ErrorsUpTo(outcomes, n) == []
    ensures forall i :: 0 <= i < n ==> outcomes[i].Right? && ItemsUpTo(outcomes, n)[i] == outcomes[i].item
  {
    if n > 0 {
      AllKept(outcomes, n - 1);
    }
    hide Kept;
  }

  lemma CleanOutcomes(browser: Browser, entries: seq<Entry>, defaultPort: real)
    requires forall i :: 0 <= i < |entries| ==> Clean(browser, entries[i])
    requires forall i, j :: 0 <= i < j < |entries| ==> ToLower(entries[i].ip) != ToLower(entries[j].ip)
    ensures var outcomes := Outcomes(browser, LinesOf(entries), defaultPort);
            forall i :: 0 <= i < |outcomes| ==> outcomes[i] == Right(ItemOf(entries[i])) && Kept(outcomes, i)
  {
    var outcomes := Outcomes(browser, LinesOf(entries), defaultPort);
    forall i | 0 <= i < |outcomes| ensures outcomes[i] == Right(ItemOf(entries[i])) {
      CleanReads(browser, entries[i], defaultPort);
    }
    hide ReadLine;
    hide ToLower;
    hide Clean;
  }

  /** A list of clean `name,ip,port` lines with distinct addresses parses back to itself, without errors. */
  lemma CleanListRoundTrip(browser: Browser, entries: seq<Entry>, defaultPort: real)
    requires entries != [] && forall i :: 0 <= i < |entries| ==> Clean(browser, entries[i])
    requires forall i, j :: 0 <= i < j < |entries| ==> ToLower(entries[i].ip) != ToLower(entries[j].ip)
    ensures var outcomes := Outcomes(browser, Lines(Join(LinesOf(entries), '\n')), defaultPort);
            && ErrorsUpTo(outcomes, |outcomes|) == []
            && ItemsUpTo(outcomes, |outcomes|) == Map(ItemOf, entries)
  {
    CleanText(browser, entries);
    CleanOutcomes(browser, entries, defaultPort);
    hide Clean;
    hide ToLower;
    hide Lines;
    hide Join;
    var outcomes := Outcomes(browser, LinesOf(entries), defaultPort);
    hide ReadLine;
    AllKept(outcomes, |outcomes|);
    hide Kept;
    ItemsMapped(entries, outcomes, ItemsUpTo(outcomes, |outcomes|));
  }

  lemma ItemsMapped(entries: seq<Entry>, outcomes: seq<Outcome>, items: seq<Item>)
    requires |outcomes| == |entries| == |items|
    requires forall i :: 0 <= i < |outcomes| ==> outcomes[i] == Right(ItemOf(entries[i]))
    requires forall i :: 0 <= i < |outcomes| ==> outcomes[i].Right? && items[i] == outcomes[i].item
    ensures items == Map(ItemOf, entries)
  {
  }

  // ----- lines by their columns -----

  /** ASCII or full width. */
  ghost predicate Comma(c: char) {
    c == ',' || c == '\U{FF0C}'
  }

  /** No comma of either kind, nothing to trim. */
  ghost predicate PlainName(name: string) {
    name != "" && IsTrimmed(name) && forall c :: c in name ==> !Comma(c)
  }

  lemma PlainUnbroken(name: string)
    ensures PlainName(name) <==> name != "" && IsTrimmed(name) && Unbroken(IsComma(), name)
  {
    hide IsTrimmed;
  }

  /** A line with two plain columns splits into them, whole. */
  lemma TwoColumns(first: string, comma: char, second: string)
    requires Comma(comma)
    requires IsTrimmed(first) && first != "" && Unbroken(IsComma(), first)
    requires IsTrimmed(second) && second != "" && Unbroken(IsComma(), second)
    ensures var line := first + [comma] + second;
            Trim(line) == line != "" && TrimAll(Split(IsComma(), line)) == [first, second]
  {
    hide Trim;
    hide Split;
    hide TrimAll;
    var line := first + [comma] + second;
    SplitFirst(IsComma(), first, comma, second);
    SplitUnbroken(IsComma(), second);
    assert line[0] == first[0] && line[|line| - 1] == second[|second| - 1];
    TrimmedFixed(line);
    TrimmedFixed(first);
    TrimmedFixed(second);
    var r := TrimAll([first, second]);
    assert r[0] == first && r[1] == second;
  }

  /** Accepted addresses and what is printed of them are plain columns, and not a number. */
  lemma EndpointColumn(browser: Browser, ip: string, port: nat)
    requires Accepted(browser, ip)
    ensures forall s :: s in [ip, FormatEndpoint(ip, port)] ==>
              IsTrimmed(s) && s != "" && Unbroken(IsComma(), s) && !AllDigits(s)
  {
    hide Accepted;
    hide IsIPv4Literal;
    hide Decimal;
    AcceptedChars(browser, ip);
    AcceptedEnds(browser, ip);
    AcceptedNoNumber(browser, ip);
    var digits := Decimal(port);
    var text := FormatEndpoint(ip, port);
    assert text[|text| - 1] == digits[|digits| - 1];
    var colon := if ':' in ip then |ip| + 2 else |ip|;
    assert text[colon] == ':';
    assert text[0] == (if ':' in ip then '[' else ip[0]);
    forall c | c in text ensures !IsComma()(c) {
      assert c in ip || c in digits || c in "[]:";
    }
  }

  lemma AcceptedNoNumber(browser: Browser, ip: string)
    requires Accepted(browser, ip)
    ensures !AllDigits(ip)
  {
    if AllDigits(ip) {
      hide Split;
      DigitsHaveNoDot(ip);
      SplitUnbroken(IsDot(), ip);
    }
  }

  /** `name,address` is that address under that name, with the default port. */
  lemma NamedAddressReads(browser: Browser, name: string, comma: char, ip: string, defaultPort: real)
    requires PlainName(name) && Comma(comma) && Accepted(browser, ip)
    requires 1.0 <= defaultPort <= 65535.0
    ensures ReadLine(browser, name + [comma] + ip, defaultPort) == Right(Item(name, ip, defaultPort))
  {
    hide Trim;
    hide Split;
    hide TrimAll;
    hide ParseEndpoint;
    hide Accepted;
    hide NormalizeIPLiteral;
    hide IsTrimmed;
    hide AllDigits;
    EndpointColumn(browser, ip, 0);
    assert ip in [ip, FormatEndpoint(ip, 0)];
    hide FormatEndpoint;
    PlainUnbroken(name);
    hide PlainName;
    TwoColumns(name, comma, ip);
    ParseBare(browser, ip, defaultPort);
  }

  /** `name,address:port` has its own port. */
  lemma NamedEndpointReads(browser: Browser, name: string, comma: char, ip: string, port: nat, defaultPort: real)
    requires PlainName(name) && Comma(comma) && Accepted(browser, ip)
    requires 1 <= port <= 65535
    ensures ReadLine(browser, name + [comma] + FormatEndpoint(ip, port), defaultPort) == Right(Item(name, ip, port as real))
  {
    hide Trim;
    hide Split;
    hide TrimAll;
    hide ParseEndpoint;
    hide Accepted;
    hide NormalizeIPLiteral;
    hide IsTrimmed;
    hide AllDigits;
    hide FormatEndpoint;
    EndpointColumn(browser, ip, port);
    assert FormatEndpoint(ip, port) in [ip, FormatEndpoint(ip, port)];
    PlainUnbroken(name);
    hide PlainName;
    TwoColumns(name, comma, FormatEndpoint(ip, port));
    FormatRoundTrip(browser, ip, port, defaultPort);
  }

  /** `address,port` names itself. */
  lemma AddressPortReads(browser: Browser, ip: string, comma: char, port: nat, defaultPort: real)
    requires Accepted(browser, ip) && Comma(comma) && 1 <= port <= 65535
    ensures ReadLine(browser, ip + [comma] + Decimal(port), defaultPort) == Right(Item(ip, ip, port as real))
  {
    hide Trim;
    hide Split;
    hide TrimAll;
    hide ParseEndpoint;
    hide Accepted;
    hide NormalizeIPLiteral;
    hide NumberOr;
    hide Decimal;
    EndpointColumn(browser, ip, 0);
    assert ip in [ip, FormatEndpoint(ip, 0)];
    hide FormatEndpoint;
    DigitsColumn(Decimal(port));
    TwoColumns(ip, comma, Decimal(port));
    AcceptedNormalizes(browser, ip);
    AcceptedEnds(browser, ip);
    DecimalNumber(browser, port, 0.0);
    ParseBare(browser, ip, port as real);
  }

  lemma DigitsColumn(digits: string)
    requires AllDigits(digits)
    ensures IsTrimmed(digits) && digits != "" && Unbroken(IsComma(), digits)
  {
  }

  /** An address or endpoint alone names itself. */
  lemma EndpointReads(browser: Browser, ip: string, port: nat, defaultPort: real)
    requires Accepted(browser, ip) && 1 <= port <= 65535 && 1.0 <= defaultPort <= 65535.0
    ensures ReadLine(browser, ip, defaultPort) == Right(Item(ip, ip, defaultPort))
    ensures ReadLine(browser, FormatEndpoint(ip, port), defaultPort) == Right(Item(ip, ip, port as real))
  {
    hide ReadLine;
    hide ParseEndpoint;
    hide Accepted;
    hide AllDigits;
    hide IsTrimmed;
    EndpointColumn(browser, ip, port);
    var s := FormatEndpoint(ip, port);
    assert ip in [ip, s] && s in [ip, s];
    hide FormatEndpoint;
    AcceptedEnds(browser, ip);
    ParseBare(browser, ip, defaultPort);
    ReadBareLine(browser, ip, ip, defaultPort, defaultPort);
    FormatRoundTrip(browser, ip, port, defaultPort);
    ReadBareLine(browser, s, ip, port as real, defaultPort);
  }

  /** The text that asks for an address, and the port if it names none, by the columns of the line. */
  ghost predicate AsksFor(browser: Browser, columns: seq<string>, line: string, defaultPort: real,
                          name: string, endpoint: string, port: real) {
    if |columns| == 1 then name == "" && endpoint == line && port == defaultPort
    else if |columns| == 2 && AllDigits(columns[1]) && NormalizeIPLiteral(browser, columns[0]).Some? then
      name == "" && endpoint == columns[0] && port == NumberOr(browser, columns[1], 0.0)
    else if |columns| == 2 then name == columns[0] && endpoint == columns[1] && port == defaultPort
    else |columns| == 3 && name == columns[0] && endpoint == columns[1] && port == NumberOr(browser, columns[2], 0.0)
  }

  /**
   Every line, by its columns: blank; of a bad shape with more than three; and
   otherwise the address and port its endpoint denotes, or what is wrong with them.
   */
  lemma LineDecided(browser: Browser, raw: string, defaultPort: real, name: string, endpoint: string, port: real)
    requires AsksFor(browser, Columns(raw), Trim(raw), defaultPort, name, endpoint, port)
    ensures Trim(raw) != "" ==>
              var parsed := ParseEndpoint(browser, endpoint, port);
              ReadLine(browser, raw, defaultPort) ==
                if parsed.ip.None? then Wrong(BadAddress)
                else if !(1.0 <= parsed.port <= 65535.0) then Wrong(BadPort)
                else Right(Item(if name == "" then parsed.ip.value else name, parsed.ip.value, parsed.port))
  {
    hide Trim;
    hide Split;
    hide TrimAll;
    hide ParseEndpoint;
    hide NormalizeIPLiteral;
    hide NumberOr;
    hide AllDigits;
  }

  lemma LongLineRefused(browser: Browser, raw: string, defaultPort: real)
    requires Trim(raw) != "" && |Columns(raw)| > 3
    ensures ReadLine(browser, raw, defaultPort) == Wrong(BadShape)
  {
    hide Trim;
    hide Split;
    hide TrimAll;
    hide ParseEndpoint;
    hide NormalizeIPLiteral;
    hide NumberOr;
    hide AllDigits;
  }

  /** Text denotes exactly the accepted address it is, up to white space and one bracket at either end. */
  lemma NormalizesExactly(browser: Browser, value: string, ip: string)
    ensures NormalizeIPLiteral(browser, value) == Some(ip) <==>
              Accepted(browser, ip) && Trim(value) in {ip, "[" + ip, ip + "]", "[" + ip + "]"}
  {
    hide Trim;
    hide Accepted;
    hide StripBrackets;
    var s := Trim(value);
    StripsFrom(s);
    if Accepted(browser, ip) {
      AcceptedEnds(browser, ip);
      Stripped(ip);
    }
  }

  lemma StripsFrom(s: string)
    ensures var t := StripBrackets(s); s == t || s == "[" + t || s == t + "]" || s == "[" + t + "]"
  {
    var t := if s != "" && s[0] == '[' then s[1..] else s;
    assert s == t || s == "[" + t;
    assert t == StripBrackets(s) || t == StripBrackets(s) + "]";
    assert "[" + (StripBrackets(s) + "]") == "[" + StripBrackets(s) + "]";
  }

  lemma Stripped(ip: string)
    requires ip != "" && ip[0] != '[' && ip[|ip| - 1] != ']'
    ensures StripBrackets(ip) == ip && StripBrackets("[" + ip) == ip && StripBrackets(ip + "]") == ip
    ensures StripBrackets("[" + ip + "]") == ip
  {
    assert ("[" + ip)[1..] == ip;
    assert ("[" + ip + "]")[1..] == ip + "]";
    assert (ip + "]")[..|ip|] == ip;
    assert (ip + "]")[0] == ip[0];
  }

  // ----- which port a line gets -----

  /** The digits written as a port behind the address, if any. */
  function WrittenPort(value: string): (digits: Option<string>)
    ensures digits.Some? ==> AllDigits(digits.value)
  {
    hide Trim;
    var s := Trim(value);
    if IsBracketed(s) then
      var rest := s[IndexOf(s, ']') + 1..];
      if rest == "" then None else Some(rest[1..])
    else
      var colon := IndexOf(s, ':');
      if Colons(s) == 1 && colon < |s| && AllDigits(s[colon + 1..]) then Some(s[colon + 1..]) else None
  }

  /** The port the endpoint text itself gives: what a written port denotes, or 0 for a plain one that denotes nothing. */
  function OwnPort(browser: Browser, value: string): Option<real> {
    match WrittenPort(value)
    case None => None
    case Some(digits) =>
      var n := NumberOf(browser.number, digits);
      if n.Some? || IsBracketed(Trim(value)) then n else Some(0.0)
  }

  /**
   A written port is the port used exactly when `Number` reads it as finite. If
   not, a bracketed endpoint silently gets the default port and a plain one 0,
   which every line refuses.
   */
  lemma WrittenPortUsed(browser: Browser, value: string, defaultPort: real)
    ensures var own := OwnPort(browser, value);
            ParseEndpoint(browser, value, defaultPort).port == if own.Some? then own.value else defaultPort
    ensures WrittenPort(value).Some? ==>
              var n := NumberOf(browser.number, WrittenPort(value).value);
              var port := ParseEndpoint(browser, value, defaultPort).port;
              && (n.Some? ==> port == n.value)
              && (n.None? ==> port == if IsBracketed(Trim(value)) then defaultPort else 0.0)
  {
    hide Trim;
    hide NumberOf;
    hide NormalizeIPLiteral;
    hide Colons;
    hide IndexOf;
  }

  predicate IsInteger(x: real) {
    x == x.Floor as real
  }

  /** The browser reads digits, where it reads them as finite at all, as integers. */
  ghost predicate ReadsDigits(browser: Browser) {
    forall digits :: AllDigits(digits) && browser.number(digits).Some? ==> IsInteger(browser.number(digits).value)
  }

  lemma DigitsAreIntegers(browser: Browser, digits: string, fallback: real)
    requires ReadsDigits(browser) && AllDigits(digits) && IsInteger(fallback)
    ensures IsInteger(NumberOr(browser, digits, fallback))
    ensures NumberOf(browser.number, digits).Some? ==> IsInteger(NumberOf(browser.number, digits).value)
  {
    hide DecimalValue;
  }

  lemma OwnPortIsInteger(browser: Browser, value: string)
    requires ReadsDigits(browser) && OwnPort(browser, value).Some?
    ensures IsInteger(OwnPort(browser, value).value)
  {
    DigitsAreIntegers(browser, WrittenPort(value).value, 0.0);
    hide Trim;
    hide NumberOf;
    hide WrittenPort;
    hide ReadsDigits;
  }

  /** The columns of a line. */
  function Columns(raw: string): seq<string> {
    TrimAll(Split(IsComma(), Trim(raw)))
  }

  lemma RequestPort(browser: Browser, raw: string, defaultPort: real)
    requires ReadsDigits(browser) && IsInteger(defaultPort) && ReadRequest(browser, Trim(raw), defaultPort).Some?
    ensures var request := ReadRequest(browser, Trim(raw), defaultPort).value; var parts := Columns(raw);
            && (|parts| == 3 ==> request.endpoint == parts[1] && request.port == NumberOr(browser, parts[2], 0.0))
            && (|parts| != 3 ==> IsInteger(request.port))
  {
    hide Trim;
    hide Split;
    hide NumberOr;
    hide ReadsDigits;
    hide NormalizeIPLiteral;
    hide TrimAll;
    hide IsInteger;
    var parts := Columns(raw);
    if |parts| == 2 && AllDigits(parts[1]) {
      ZeroIsInteger();
      DigitsAreIntegers(browser, parts[1], 0.0);
    }
    hide AllDigits;
  }

  lemma ZeroIsInteger()
    ensures IsInteger(0.0)
  {
  }

  lemma RightPort(browser: Browser, raw: string, defaultPort: real)
    requires ReadLine(browser, raw, defaultPort).Right?
    ensures var request := ReadRequest(browser, Trim(raw), defaultPort); var port := ReadLine(browser, raw, defaultPort).item.port;
            && request.Some? && 1.0 <= port <= 65535.0
            && port == ParseEndpoint(browser, request.value.endpoint, request.value.port).port
  {
    hide Trim;
    hide ReadRequest;
    hide ParseEndpoint;
    hide Accepted;
  }

  /**
   With an integer default port, a line that is kept or repeats an address has a
   fractional port exactly when it has three columns, the second gives no port
   of its own, and the third denotes a number that is not an integer (and lies
   between 1 and 65535, or the line would not be right).
   */
  lemma PortFractionalExactly(browser: Browser, raw: string, defaultPort: real)
    requires ReadsDigits(browser) && IsInteger(defaultPort) && ReadLine(browser, raw, defaultPort).Right?
    ensures var port := ReadLine(browser, raw, defaultPort).item.port; var parts := Columns(raw);
            !IsInteger(port) <==>
              && |parts| == 3 && OwnPort(browser, parts[1]).None?
              && var third := NumberOr(browser, parts[2], 0.0); !IsInteger(third) && 1.0 <= third <= 65535.0
  {
    hide *;
    RightPort(browser, raw, defaultPort);
    RequestPort(browser, raw, defaultPort);
    var request := ReadRequest(browser, Trim(raw), defaultPort).value;
    WrittenPortUsed(browser, request.endpoint, request.port);
    if OwnPort(browser, request.endpoint).Some? {
      OwnPortIsInteger(browser, request.endpoint);
    }
  }

  /** The third column goes through `Number` unchecked, so a port need not be an integer: here it is 80.5. */
  lemma FractionalPortKept(browser: Browser, name: string, ip: string, defaultPort: real)
    requires browser.number("80.5") == Some(80.5)
    requires Clean(browser, Entry(name, ip, 1))
    ensures ReadLine(browser, name + "," + ip + "," + "80.5", defaultPort) == Right(Item(name, ip, 80.5))
  {
    var s := name + "," + ip + "," + "80.5";
    AcceptedEnds(browser, ip);
    AcceptedChars(browser, ip);
    LineParts(s, name, ip, "80.5");
    LineEnds(s, name, ip, "80.5");
    TrimmedFixed(s);
    assert !IsDigit("80.5"[2]);
    ReadThreeParts(browser, s, name, ip, "80.5", defaultPort);
    ParseBare(browser, ip, 80.5);
    hide Trim;
    hide ReadRequest;
    hide ParseEndpoint;
    hide Split;
    hide Accepted;
  }

  /** An endpoint on a line of its own asks for nothing else. */
  lemma ReadBareLine(browser: Browser, s: string, ip: string, port: real, defaultPort: real)
    requires IsTrimmed(s) && s != "" && Unbroken(IsComma(), s) && ip != ""
    requires ParseEndpoint(browser, s, defaultPort) == Endpoint(Some(ip), port)
    ensures ReadLine(browser, s, defaultPort) == if port < 1.0 || port > 65535.0 then Wrong(BadPort) else Right(Item(ip, ip, port))
  {
    hide ParseEndpoint;
    hide Trim;
    hide Split;
    hide IsTrimmed;
    hide NormalizeIPLiteral;
    TrimmedFixed(s);
    SplitUnbroken(IsComma(), s);
  }

  lemma OverflowingBracketed(browser: Browser, ip: string, digits: string, defaultPort: real)
    requires Accepted(browser, ip) && AllDigits(digits) && NumberOf(browser.number, digits).None?
    requires 1.0 <= defaultPort <= 65535.0
    ensures ReadLine(browser, "[" + ip + "]:" + digits, defaultPort) == Right(Item(ip, ip, defaultPort))
  {
    hide Trim;
    hide ReadLine;
    hide ParseEndpoint;
    hide Accepted;
    hide IsBracketed;
    hide IndexOf;
    hide NormalizeIPLiteral;
    hide IsIPv4Literal;
    hide NumberOf;
    hide Colons;
    AcceptedChars(browser, ip);
    AcceptedNormalizes(browser, ip);
    var s := "[" + ip + "]:" + digits;
    BracketedShape(s, ip, digits);
    ParseShaped(browser, s, ip, digits, defaultPort);
    BracketedSlices(s, ip, digits);
    ReadBareLine(browser, s, ip, defaultPort, defaultPort);
  }

  lemma OverflowingPlain(browser: Browser, ip: string, digits: string, defaultPort: real)
    requires Accepted(browser, ip) && AllDigits(digits) && NumberOf(browser.number, digits).None?
    requires IsIPv4Literal(ip)
    ensures ReadLine(browser, ip + ":" + digits, defaultPort) == Wrong(BadPort)
  {
    hide Trim;
    hide ReadLine;
    hide ParseEndpoint;
    hide Accepted;
    hide IsBracketed;
    hide IndexOf;
    hide NormalizeIPLiteral;
    hide IsIPv4Literal;
    hide NumberOf;
    hide Colons;
    AcceptedChars(browser, ip);
    AcceptedNormalizes(browser, ip);
    var t := ip + ":" + digits;
    IPv4Chars(ip);
    assert ip[0] in ip;
    PlainColon(t, ip, digits);
    PlainSlices(t, ip, digits);
    ParsePlainShaped(browser, t, ip, digits, defaultPort);
    ReadBareLine(browser, t, ip, 0.0, defaultPort);
  }

  /**
   A port whose digits `Number` reads as infinite: behind brackets the default
   port silently takes its place, behind a plain address the line is refused.
   */
  lemma OverflowingPort(browser: Browser, ip: string, digits: string, defaultPort: real)
    requires Accepted(browser, ip) && AllDigits(digits) && NumberOf(browser.number, digits).None?
    requires 1.0 <= defaultPort <= 65535.0
    ensures ReadLine(browser, "[" + ip + "]:" + digits, defaultPort) == Right(Item(ip, ip, defaultPort))
    ensures IsIPv4Literal(ip) ==> ReadLine(browser, ip + ":" + digits, defaultPort) == Wrong(BadPort)
  {
    hide *;
    OverflowingBracketed(browser, ip, digits, defaultPort);
    if IsIPv4Literal(ip) {
      OverflowingPlain(browser, ip, digits, defaultPort);
    }
  }

  function PowerOfTen(n: nat): nat {
    if n == 0 then 1 else 10 * PowerOfTen(n - 1)
  }

  lemma {:induction false} LongDigits(s: string, n: nat)
    requires AllDigits(s) && s[0] != '0' && |s| > n
    ensures DecimalValue(s) >= PowerOfTen(n)
  {
    if |s| > 1 {
      var front := s[..|s| - 1];
      assert AllDigits(front);
      LongDigits(front, if n == 0 then 0 else n - 1);
    }
  }

  /** Digits no double can hold: 309 nines. */
  const NINES: string := seq(309, (i: nat) => '9')

  lemma NinesOverflow(browser: Browser)
    requires browser.number(NINES) == None
    ensures AllDigits(NINES) && NumberOf(browser.number, NINES).None?
  {
    LongDigits(NINES, 16);
    assert PowerOfTen(4) == 10000;
    assert PowerOfTen(8) == 100000000 by {
      assert PowerOfTen(6) == 1000000;
    }
    assert PowerOfTen(12) == 1000000000000 by {
      assert PowerOfTen(10) == 10000000000;
    }
    assert PowerOfTen(14) == 100000000000000;
  }
}
