/** The process identity of an adapter workspace and its two text forms (src/dataplane.rs).
    Boot identifiers use the text form of section 4 of RFC 9562. */
module Codec {
  import opened Base

  const U32_MAX: nat := 0xFFFF_FFFF
  const U64_MAX: nat := 0xFFFF_FFFF_FFFF_FFFF

  datatype Identity = Identity(bootId: string, pid: nat, startTime: nat)

  // ---------------------------------------------------------------------------------
  // Characters and decimals.

  predicate IsDigit(c: char) { '0' <= c <= '9' }

  predicate IsHex(c: char) { IsDigit(c) || 'a' <= c <= 'f' }

  predicate AllDigits(s: string) { forall i | 0 <= i < |s| :: IsDigit(s[i]) }

  predicate AllHex(s: string) { forall i | 0 <= i < |s| :: IsHex(s[i]) }

  function DigitChar(d: nat): char
    requires d < 10
  {
    '0' + d as char
  }

  function ToText(n: nat): string {
    if n < 10 then [DigitChar(n)] else ToText(n / 10) + [DigitChar(n % 10)]
  }

  function DigitsValue(s: string): nat
    requires AllDigits(s)
  {
    if s == "" then 0 else 10 * DigitsValue(s[..|s| - 1]) + (s[|s| - 1] as nat - '0' as nat)
  }

  /** The integer parser of the standard library: an optional plus sign, leading zeros
      allowed, no overflow. */
  function ParseUnsigned(s: string, max: nat): Option<nat> {
    var digits := if s != "" && s[0] == '+' then s[1..] else s;
    if digits == "" || !AllDigits(digits) then None
    else if DigitsValue(digits) <= max then Some(DigitsValue(digits)) else None
  }

  lemma {:induction false} TextIsDigits(n: nat)
    ensures ToText(n) != "" && AllDigits(ToText(n)) && DigitsValue(ToText(n)) == n
  {
    if n >= 10 {
      TextIsDigits(n / 10);
      assert ToText(n)[..|ToText(n)| - 1] == ToText(n / 10);
    } else {
      assert ToText(n)[..0] == "";
    }
  }

  lemma ParsePrints(n: nat, max: nat)
    ensures ParseUnsigned(ToText(n), max) == if n <= max then Some(n) else None
  {
    TextIsDigits(n);
  }

  // ---------------------------------------------------------------------------------
  // Lines, fields and affixes.

  /** The position of the first `c`, or the length. */
  function Find(s: string, c: char): (i: nat)
    ensures i <= |s| && (forall k | 0 <= k < i :: s[k] != c) && (i < |s| ==> s[i] == c)
  {
    if s == "" || s[0] == c then 0 else 1 + Find(s[1..], c)
  }

  function WithoutReturn(line: string): string {
    if line != "" && line[|line| - 1] == '\r' then line[..|line| - 1] else line
  }

  /** `str::lines`: split after newlines, which are dropped with a return before them. */
  function Lines(s: string): seq<string>
    decreases |s|
  {
    if s == "" then [] else
      var i := Find(s, '\n');
      if i == |s| then [s] else [WithoutReturn(s[..i])] + Lines(s[i + 1..])
  }

  /** `str::split` on a hyphen. */
  function Fields(s: string): (r: seq<string>)
    ensures r != []
    decreases |s|
  {
    var i := Find(s, '-');
    if i == |s| then [s] else [s[..i]] + Fields(s[i + 1..])
  }

  function Joined(fields: seq<string>): string
    requires fields != []
  {
    if |fields| == 1 then fields[0] else fields[0] + "-" + Joined(fields[1..])
  }

  function StripPrefix(s: string, prefix: string): Option<string> {
    if |prefix| <= |s| && s[..|prefix|] == prefix then Some(s[|prefix|..]) else None
  }

  predicate Lacks(s: string, c: char) {
    forall i | 0 <= i < |s| :: s[i] != c
  }

  lemma FindAfter(a: string, c: char, rest: string)
    requires Lacks(a, c)
    ensures Find(a + [c] + rest, c) == |a|
  {
    var s := a + [c] + rest;
    assert s[|a|] == c && forall k | 0 <= k < |a| :: s[k] == a[k];
  }

  lemma LineFirst(line: string, rest: string)
    requires Lacks(line, '\n') && Lacks(line, '\r')
    ensures Lines(line + "\n" + rest) == [line] + Lines(rest)
  {
    var s := line + "\n" + rest;
    FindAfter(line, '\n', rest);
    assert s[..|line|] == line && s[|line| + 1..] == rest;
    assert WithoutReturn(line) == line;
  }

  lemma FieldFirst(field: string, rest: string)
    requires Lacks(field, '-')
    ensures Fields(field + "-" + rest) == [field] + Fields(rest)
  {
    var s := field + "-" + rest;
    FindAfter(field, '-', rest);
    assert s[..|field|] == field && s[|field| + 1..] == rest;
  }

  lemma {:induction false} FieldsJoin(s: string)
    ensures Joined(Fields(s)) == s && forall k | 0 <= k < |Fields(s)| :: Lacks(Fields(s)[k], '-')
    decreases |s|
  {
    var i := Find(s, '-');
    if i < |s| {
      FieldsJoin(s[i + 1..]);
      assert Fields(s)[1..] == Fields(s[i + 1..]);
      assert s == s[..i] + "-" + s[i + 1..];
    }
  }

  lemma PrefixComesOff(prefix: string, rest: string)
    ensures StripPrefix(prefix + rest, prefix) == Some(rest)
  {
    assert (prefix + rest)[..|prefix|] == prefix && (prefix + rest)[|prefix|..] == rest;
  }

  // ---------------------------------------------------------------------------------
  // The identity file.

  predicate ValidBootId(s: string) {
    |s| == 36 && forall i | 0 <= i < 36 :: if i == 8 || i == 13 || i == 18 || i == 23 then s[i] == '-' else IsHex(s[i])
  }

  /** The text form of section 4 of RFC 9562: groups of 8, 4, 4, 4 and 12 lower-case hexadecimal
      digits, joined by hyphens. */
  predicate HexOf(s: string, n: nat) {
    |s| == n && forall c | c in s :: c in "0123456789abcdef"
  }

  lemma HexExactly(s: string)
    ensures AllHex(s) <==> HexOf(s, |s|)
  {
    assert forall c: char :: IsHex(c) <==> c in "0123456789abcdef";
  }

  lemma BootIdExactly(s: string)
    ensures ValidBootId(s) <==>
      |s| == 36 && HexOf(s[..8], 8) && HexOf(s[9..13], 4) && HexOf(s[14..18], 4) && HexOf(s[19..23], 4) && HexOf(s[24..], 12)
      && s == s[..8] + "-" + s[9..13] + "-" + s[14..18] + "-" + s[19..23] + "-" + s[24..]
  {
    if |s| == 36 {
      HexExactly(s[..8]);
      HexExactly(s[9..13]);
      HexExactly(s[14..18]);
      HexExactly(s[19..23]);
      HexExactly(s[24..]);
    }
  }

  function Encode(id: Identity): string {
    "schema=1" + "\n" + ("boot_id=" + id.bootId + "\n" + ("pid=" + ToText(id.pid) + "\n" + ("start_time=" + ToText(id.startTime) + "\n")))
  }

  function Parse(value: string): Option<Identity> {
    var lines := Lines(value);
    if |lines| < 4 || lines[0] != "schema=1" then None
    else match (StripPrefix(lines[1], "boot_id="), StripPrefix(lines[2], "pid="), StripPrefix(lines[3], "start_time="))
      case (Some(bootId), Some(pidText), Some(startText)) =>
        (match (ParseUnsigned(pidText, U32_MAX), ParseUnsigned(startText, U64_MAX))
         case (Some(pid), Some(startTime)) =>
           var id := Identity(bootId, pid, startTime);
           if |lines| == 4 && ValidBootId(bootId) && value == Encode(id) then Some(id) else None
         case _ => None)
      case _ => None
  }

  predicate ValidIdentity(id: Identity) {
    ValidBootId(id.bootId) && id.pid <= U32_MAX && id.startTime <= U64_MAX
  }

  lemma DigitsLack(n: nat)
    ensures Lacks(ToText(n), '\n') && Lacks(ToText(n), '\r') && Lacks(ToText(n), '-')
  {
    TextIsDigits(n);
  }

  predicate OneLine(s: string) {
    Lacks(s, '\n') && Lacks(s, '\r')
  }

  lemma OneMoreLine(line: string, rest: string, lines: seq<string>)
    requires OneLine(line) && Lines(rest) == lines
    ensures Lines(line + "\n" + rest) == [line] + lines
  {
    LineFirst(line, rest);
  }

  lemma LastLine(line: string)
    requires OneLine(line)
    ensures Lines(line + "\n") == [line]
  {
    LineFirst(line, "");
    assert line + "\n" + "" == line + "\n";
  }

  lemma FourLines(a: string, b: string, c: string, d: string)
    requires OneLine(a) && OneLine(b) && OneLine(c) && OneLine(d)
    ensures Lines(a + "\n" + (b + "\n" + (c + "\n" + (d + "\n")))) == [a] + ([b] + ([c] + [d]))
  {
    LastLine(d);
    OneMoreLine(c, d + "\n", [d]);
    OneMoreLine(b, c + "\n" + (d + "\n"), [c] + [d]);
    OneMoreLine(a, b + "\n" + (c + "\n" + (d + "\n")), [b] + ([c] + [d]));
  }

  lemma EncodedLines(id: Identity)
    requires ValidIdentity(id)
    ensures Lines(Encode(id)) == ["schema=1", "boot_id=" + id.bootId, "pid=" + ToText(id.pid), "start_time=" + ToText(id.startTime)]
  {
    DigitsLack(id.pid);
    DigitsLack(id.startTime);
    assert OneLine("schema=1") && OneLine("boot_id=") && OneLine("pid=") && OneLine("start_time=") && OneLine(id.bootId);
    FourLines("schema=1", "boot_id=" + id.bootId, "pid=" + ToText(id.pid), "start_time=" + ToText(id.startTime));
  }

  /** The parser accepts exactly what the printer writes for a valid identity, and returns
      that identity. */
  lemma ParseInvertsEncode(value: string, id: Identity)
    ensures Parse(value) == Some(id) <==> ValidIdentity(id) && value == Encode(id)
  {
    if ValidIdentity(id) && value == Encode(id) {
      EncodedLines(id);
      PrefixComesOff("boot_id=", id.bootId);
      PrefixComesOff("pid=", ToText(id.pid));
      PrefixComesOff("start_time=", ToText(id.startTime));
      ParsePrints(id.pid, U32_MAX);
      ParsePrints(id.startTime, U64_MAX);
    }
  }

  lemma EncodeIsInjective(a: Identity, b: Identity)
    requires ValidIdentity(a) && ValidIdentity(b) && Encode(a) == Encode(b)
    ensures a == b
  {
    ParseInvertsEncode(Encode(a), a);
    ParseInvertsEncode(Encode(b), b);
  }

  // ---------------------------------------------------------------------------------
  // The instance directory name.

  const INSTANCE_PREFIX := "causeway-instance-v1-"

  predicate ValidNonce(s: string) {
    |s| == 32 && AllHex(s)
  }

  function InstanceName(id: Identity, nonce: string): string {
    INSTANCE_PREFIX + (id.bootId + "-" + (ToText(id.pid) + "-" + (ToText(id.startTime) + "-" + nonce)))
  }

  function StrictNumber(text: string, max: nat): Option<nat> {
    match ParseUnsigned(text, max)
    case None => None
    case Some(n) => if ToText(n) == text then Some(n) else None
  }

  function IdentityFromInstanceName(name: string): Option<Identity> {
    match StripPrefix(name, INSTANCE_PREFIX)
    case None => None
    case Some(rest) =>
      if |rest| < 36 || !ValidBootId(rest[..36]) then None
      else match StripPrefix(rest[36..], "-")
        case None => None
        case Some(tail) =>
          var fields := Fields(tail);
          if |fields| < 3 then None
          else match (StrictNumber(fields[0], U32_MAX), StrictNumber(fields[1], U64_MAX))
            case (Some(pid), Some(startTime)) =>
              if |fields| == 3 && ValidNonce(fields[2]) then Some(Identity(rest[..36], pid, startTime)) else None
            case _ => None
  }

  lemma StrictNumberIsText(text: string, max: nat)
    ensures forall n: nat :: StrictNumber(text, max) == Some(n) <==> n <= max && text == ToText(n)
  {
    forall n: nat { ParsePrints(n, max); }
  }

  lemma NonceLacksHyphen(nonce: string)
    requires AllHex(nonce)
    ensures Fields(nonce) == [nonce]
  {}

  lemma TailFields(pid: nat, startTime: nat, nonce: string)
    requires AllHex(nonce)
    ensures Fields(ToText(pid) + "-" + (ToText(startTime) + "-" + nonce)) == [ToText(pid), ToText(startTime), nonce]
  {
    DigitsLack(pid);
    DigitsLack(startTime);
    FieldFirst(ToText(pid), ToText(startTime) + "-" + nonce);
    FieldFirst(ToText(startTime), nonce);
    NonceLacksHyphen(nonce);
  }

  lemma NameParses(id: Identity, nonce: string)
    requires ValidIdentity(id) && ValidNonce(nonce)
    ensures IdentityFromInstanceName(InstanceName(id, nonce)) == Some(id)
  {
    var tail := ToText(id.pid) + "-" + (ToText(id.startTime) + "-" + nonce);
    var rest := id.bootId + "-" + tail;
    PrefixComesOff(INSTANCE_PREFIX, rest);
    assert rest[..36] == id.bootId && rest[36..] == "-" + tail;
    PrefixComesOff("-", tail);
    TailFields(id.pid, id.startTime, nonce);
    StrictNumberIsText(ToText(id.pid), U32_MAX);
    StrictNumberIsText(ToText(id.startTime), U64_MAX);
  }

  /** The nonce of an accepted name. */
  function NonceOf(name: string): string
    requires IdentityFromInstanceName(name).Some?
  {
    Fields(name[|INSTANCE_PREFIX| + 37..])[2]
  }

  lemma ThreeFields(tail: string)
    requires |Fields(tail)| == 3
    ensures tail == Fields(tail)[0] + "-" + (Fields(tail)[1] + "-" + Fields(tail)[2])
  {
    var fields := Fields(tail);
    FieldsJoin(tail);
    assert fields[1..][1..] == [fields[2]];
    assert Joined(fields[1..]) == fields[1] + "-" + fields[2];
  }

  lemma PrefixWas(s: string, prefix: string)
    requires StripPrefix(s, prefix).Some?
    ensures s == prefix + StripPrefix(s, prefix).value && s[|prefix|..] == StripPrefix(s, prefix).value
  {}

  lemma ParsedTail(tail: string)
    requires |Fields(tail)| == 3
    requires StrictNumber(Fields(tail)[0], U32_MAX).Some? && StrictNumber(Fields(tail)[1], U64_MAX).Some?
    ensures var pid, startTime := StrictNumber(Fields(tail)[0], U32_MAX).value, StrictNumber(Fields(tail)[1], U64_MAX).value;
      && pid <= U32_MAX && startTime <= U64_MAX
      && tail == ToText(pid) + "-" + (ToText(startTime) + "-" + Fields(tail)[2])
  {
    StrictNumberIsText(Fields(tail)[0], U32_MAX);
    StrictNumberIsText(Fields(tail)[1], U64_MAX);
    ThreeFields(tail);
  }

  lemma ParsedIsName(name: string)
    requires IdentityFromInstanceName(name).Some?
    ensures var id := IdentityFromInstanceName(name).value;
      ValidIdentity(id) && ValidNonce(NonceOf(name)) && name == InstanceName(id, NonceOf(name))
  {
    var rest := StripPrefix(name, INSTANCE_PREFIX).value;
    PrefixWas(name, INSTANCE_PREFIX);
    var tail := StripPrefix(rest[36..], "-").value;
    PrefixWas(rest[36..], "-");
    ParsedTail(tail);
    assert rest == rest[..36] + "-" + tail;
    assert rest[37..] == tail && name[|INSTANCE_PREFIX| + 37..] == tail;
  }

  /** The name parser accepts exactly the names of valid identities with a 32-digit nonce,
      and returns the identity. */
  lemma NameInverse(name: string, id: Identity)
    ensures IdentityFromInstanceName(name) == Some(id)
       <==> ValidIdentity(id) && exists nonce :: ValidNonce(nonce) && name == InstanceName(id, nonce)
  {
    if IdentityFromInstanceName(name) == Some(id) {
      ParsedIsName(name);
    } else {
      forall nonce | ValidIdentity(id) && ValidNonce(nonce) ensures name != InstanceName(id, nonce) { NameParses(id, nonce); }
    }
  }

  lemma NonceIsSuffix(id: Identity, nonce: string)
    ensures var name := InstanceName(id, nonce); |name| >= |nonce| && name[|name| - |nonce|..] == nonce
  {}

  lemma NamesAreInjective(a: Identity, x: string, b: Identity, y: string)
    requires ValidIdentity(a) && ValidIdentity(b) && ValidNonce(x) && ValidNonce(y)
    requires InstanceName(a, x) == InstanceName(b, y)
    ensures a == b && x == y
  {
    NameParses(a, x);
    NameParses(b, y);
    NonceIsSuffix(a, x);
    NonceIsSuffix(b, y);
  }

  // ---------------------------------------------------------------------------------
  // Credential file names: what a cleanup may delete.

  function StripSuffix(s: string, suffix: string): Option<string> {
    if |suffix| <= |s| && s[|s| - |suffix|..] == suffix then Some(s[..|s| - |suffix|]) else None
  }

  predicate ValidSequence(s: string) {
    |s| == 16 && AllHex(s)
  }

  function CredentialName(kind: string, pid: nat, sequence: string): string {
    kind + (ToText(pid) + "-" + sequence) + ".json"
  }

  predicate IsAdapterPrefix(kind: string) {
    kind == "sslocal-" || kind == "singbox-"
  }

  /** The part between the adapter prefix and the suffix. */
  predicate StrictCredentialBody(rest: string) {
    var i := Find(rest, '-');
    i < |rest| && AllDigits(rest[..i]) && StrictNumber(rest[..i], U32_MAX).Some? && ValidSequence(rest[i + 1..])
  }

  predicate StrictCredentialName(name: string) {
    match StripSuffix(name, ".json")
    case None => false
    case Some(stem) =>
      (match StripPrefix(stem, "sslocal-")
       case Some(rest) => StrictCredentialBody(rest)
       case None =>
         match StripPrefix(stem, "singbox-") case Some(rest) => StrictCredentialBody(rest) case None => false)
  }

  lemma BodyAccepted(pid: nat, sequence: string)
    requires pid <= U32_MAX && ValidSequence(sequence)
    ensures StrictCredentialBody(ToText(pid) + "-" + sequence)
  {
    var rest := ToText(pid) + "-" + sequence;
    DigitsLack(pid);
    TextIsDigits(pid);
    FindAfter(ToText(pid), '-', sequence);
    assert rest[..|ToText(pid)|] == ToText(pid) && rest[|ToText(pid)| + 1..] == sequence;
    StrictNumberIsText(ToText(pid), U32_MAX);
  }

  lemma BodyWritten(rest: string) returns (pid: nat, sequence: string)
    requires StrictCredentialBody(rest)
    ensures pid <= U32_MAX && ValidSequence(sequence) && rest == ToText(pid) + "-" + sequence
  {
    var i := Find(rest, '-');
    StrictNumberIsText(rest[..i], U32_MAX);
    pid, sequence := StrictNumber(rest[..i], U32_MAX).value, rest[i + 1..];
  }

  lemma AffixesComeOff(kind: string, body: string)
    ensures StripSuffix(kind + body + ".json", ".json") == Some(kind + body)
    ensures StripPrefix(kind + body, kind) == Some(body)
  {
    var s := kind + body + ".json";
    assert s[|s| - 5..] == ".json" && s[..|s| - 5] == kind + body;
    PrefixComesOff(kind, body);
  }

  lemma CredentialNameAccepted(kind: string, pid: nat, sequence: string)
    requires IsAdapterPrefix(kind) && pid <= U32_MAX && ValidSequence(sequence)
    ensures StrictCredentialName(CredentialName(kind, pid, sequence))
  {
    var body := ToText(pid) + "-" + sequence;
    AffixesComeOff(kind, body);
    BodyAccepted(pid, sequence);
    if kind == "singbox-" {
      assert (kind + body)[..8] == "singbox-" && "singbox-"[1] != "sslocal-"[1];
      assert StripPrefix(kind + body, "sslocal-").None?;
    }
  }

  lemma CredentialNameWritten(name: string) returns (kind: string, pid: nat, sequence: string)
    requires StrictCredentialName(name)
    ensures IsAdapterPrefix(kind) && pid <= U32_MAX && ValidSequence(sequence) && name == CredentialName(kind, pid, sequence)
  {
    var stem := StripSuffix(name, ".json").value;
    kind := if StripPrefix(stem, "sslocal-").Some? then "sslocal-" else "singbox-";
    PrefixWas(stem, kind);
    pid, sequence := BodyWritten(StripPrefix(stem, kind).value);
    assert name == stem + ".json";
  }

  /** Exactly the names an adapter writes are recognised; no other file is ever deleted. */
  lemma CredentialNamesExactly(name: string)
    ensures StrictCredentialName(name) <==>
      exists kind, pid: nat, sequence ::
        IsAdapterPrefix(kind) && pid <= U32_MAX && ValidSequence(sequence) && name == CredentialName(kind, pid, sequence)
  {
    if StrictCredentialName(name) {
      var kind, pid, sequence := CredentialNameWritten(name);
    }
    forall kind, pid: nat, sequence |
      IsAdapterPrefix(kind) && pid <= U32_MAX && ValidSequence(sequence) && name == CredentialName(kind, pid, sequence)
      ensures StrictCredentialName(name)
    {
      CredentialNameAccepted(kind, pid, sequence);
    }
  }
}
