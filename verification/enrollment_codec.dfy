/** The canonical signing codec (internal/agentenrollment/protocol.go, metadata.go): every field is
    written with a four byte big-endian length, so equal payloads mean equal bindings. */
module EnrollmentCodec {
  import opened Basics

  type Bytes = seq<byte>

  const FIELD_LIMIT := 0x1_0000_0000

  // ---- length prefixed fields

  /** `binary.BigEndian.PutUint32` of `uint32(n)`: the conversion drops higher bits. */
  function Uint32(n: nat): (encoded: Bytes)
    ensures |encoded| == 4
  {
    var m := n % FIELD_LIMIT;
    [m / 0x100_0000, m / 0x1_0000 % 0x100, m / 0x100 % 0x100, m % 0x100]
  }

  function ReadUint32(b: Bytes): nat
    requires |b| == 4
  {
    (b[0] as int) * 0x100_0000 + (b[1] as int) * 0x1_0000 + (b[2] as int) * 0x100 + (b[3] as int)
  }

  lemma Uint32RoundTrip(n: nat)
    ensures ReadUint32(Uint32(n)) == n % FIELD_LIMIT
  {
    var m := n % FIELD_LIMIT;
    assert m / 0x1_0000 == m / 0x100_0000 * 0x100 + m / 0x1_0000 % 0x100;
    assert m / 0x100 == m / 0x1_0000 * 0x100 + m / 0x100 % 0x100;
  }

  function AppendField(target: Bytes, field: Bytes): Bytes {
    target + Uint32(|field|) + field
  }

  function EncodeFields(fields: seq<Bytes>): Bytes {
    if fields == [] then [] else Uint32(|fields[0]|) + fields[0] + EncodeFields(fields[1..])
  }

  function EncodedLength(fields: seq<Bytes>): nat {
    if fields == [] then 0 else |fields[0]| + 4 + EncodedLength(fields[1..])
  }

  lemma {:induction false} EncodeLength(fields: seq<Bytes>)
    ensures |EncodeFields(fields)| == EncodedLength(fields)
  {
    if fields != [] {
      EncodeLength(fields[1..]);
    }
  }

  lemma {:induction false} EncodeAppend(fields: seq<Bytes>, field: Bytes)
    ensures EncodeFields(fields + [field]) == AppendField(EncodeFields(fields), field)
  {
    if fields == [] {
      assert fields + [field] == [field];
      assert EncodeFields([field]) == Uint32(|field|) + field + EncodeFields([]);
    } else {
      EncodeAppend(fields[1..], field);
      assert (fields + [field])[1..] == fields[1..] + [field];
    }
  }

  /** Appends the domain and then every field to one buffer. */
  method EncodeCanonical(domain: Bytes, fields: seq<Bytes>) returns (encoded: Bytes)
    ensures encoded == EncodeFields([domain] + fields)
    ensures |encoded| == EncodedLength([domain] + fields)
  {
    encoded := AppendField([], domain);
    EncodeAppend([], domain);
    for index := 0 to |fields|
      invariant encoded == EncodeFields([domain] + fields[..index])
    {
      EncodeAppend([domain] + fields[..index], fields[index]);
      assert [domain] + fields[..index + 1] == [domain] + fields[..index] + [fields[index]];
      encoded := AppendField(encoded, fields[index]);
    }
    assert fields[..|fields|] == fields;
    EncodeLength([domain] + fields);
  }

  /** The reader that the encoding is for. */
  function DecodeFields(b: Bytes): Option<seq<Bytes>>
    decreases |b|
  {
    if b == [] then Some([])
    else if |b| < 4 then None
    else
      var length := ReadUint32(b[..4]);
      if |b| < 4 + length then None
      else
        match DecodeFields(b[4 + length..])
        case None => None
        case Some(rest) => Some([b[4..4 + length]] + rest)
  }

  predicate Short(fields: seq<Bytes>) {
    forall i :: 0 <= i < |fields| ==> |fields[i]| < FIELD_LIMIT
  }

  lemma Split(prefix: Bytes, field: Bytes, rest: Bytes, length: nat)
    requires |prefix| == 4 && length <= |field|
    ensures (prefix + field + rest)[..4] == prefix
    ensures (prefix + field + rest)[4..4 + length] == field[..length]
    ensures (prefix + field + rest)[4 + length..] == field[length..] + rest
  {
  }

  /** What the reader sees first. */
  lemma DecodeStep(fields: seq<Bytes>)
    requires fields != []
    ensures var b := EncodeFields(fields);
            var length := |fields[0]| % FIELD_LIMIT;
            && |b| >= 4 + length && ReadUint32(b[..4]) == length
            && b[4..4 + length] == fields[0][..length]
            && b[4 + length..] == fields[0][length..] + EncodeFields(fields[1..])
  {
    hide Uint32, ReadUint32;
    Uint32RoundTrip(|fields[0]|);
    Split(Uint32(|fields[0]|), fields[0], EncodeFields(fields[1..]), |fields[0]| % FIELD_LIMIT);
  }

  lemma DecodeShort(fields: seq<Bytes>)
    requires fields != [] && |fields[0]| < FIELD_LIMIT
    ensures var rest := DecodeFields(EncodeFields(fields[1..]));
            DecodeFields(EncodeFields(fields)) == if rest.None? then None else Some([fields[0]] + rest.value)
  {
    hide Uint32, ReadUint32;
    var b, length := EncodeFields(fields), |fields[0]|;
    DecodeStep(fields);
    assert fields[0][..length] == fields[0] &&
           fields[0][length..] + EncodeFields(fields[1..]) == EncodeFields(fields[1..]);
    assert b[4 + length..] == EncodeFields(fields[1..]);
    assert |b| >= 4 && b != [];
  }

  lemma DecodeLong(fields: seq<Bytes>)
    requires fields != [] && |fields[0]| >= FIELD_LIMIT
    ensures DecodeFields(EncodeFields(fields)) != Some(fields)
  {
    hide Uint32, ReadUint32;
    DecodeStep(fields);
    var b, length := EncodeFields(fields), |fields[0]| % FIELD_LIMIT;
    var rest := DecodeFields(b[4 + length..]);
    assert rest.Some? ==> |([b[4..4 + length]] + rest.value)[0]| == length;
  }

  /** Reading gives back what was written exactly when no field reaches four gigabytes. */
  lemma {:induction false} RoundTrip(fields: seq<Bytes>)
    ensures DecodeFields(EncodeFields(fields)) == Some(fields) <==> Short(fields)
  {
    hide EncodeFields, DecodeFields;
    if fields == [] {
      EmptyRoundTrip();
    } else if |fields[0]| < FIELD_LIMIT {
      DecodeShort(fields);
      RoundTrip(fields[1..]);
      var rest := DecodeFields(EncodeFields(fields[1..]));
      assert [fields[0]] + fields[1..] == fields;
      assert rest.Some? ==> ([fields[0]] + rest.value)[1..] == rest.value;
    } else {
      DecodeLong(fields);
    }
  }

  lemma EmptyRoundTrip()
    ensures DecodeFields(EncodeFields([])) == Some([])
  {
  }

  /** Equal encodings mean equal field lists. */
  lemma EncodeInjective(a: seq<Bytes>, b: seq<Bytes>)
    requires Short(a) && Short(b) && EncodeFields(a) == EncodeFields(b)
    ensures a == b
  {
    RoundTrip(a);
    RoundTrip(b);
  }

  function Zeros(n: nat): Bytes {
    seq(n, i => 0)
  }

  // ---- decimal numbers and instants

  function Decimal(n: nat): Bytes {
    if n < 10 then [48 + n] else Decimal(n / 10) + [48 + n % 10]
  }

  function Value(digits: Bytes): int {
    if digits == [] then 0 else Value(digits[..|digits| - 1]) * 10 + digits[|digits| - 1] - 48
  }

  lemma {:induction false} DecimalValue(n: nat)
    ensures Value(Decimal(n)) == n
    ensures forall i :: 0 <= i < |Decimal(n)| ==> 48 <= Decimal(n)[i] <= 57
    ensures n < 100 ==> |Decimal(n)| <= 2
  {
    if n >= 10 {
      DecimalValue(n / 10);
      assert Decimal(n)[..|Decimal(n)| - 1] == Decimal(n / 10);
    } else {
      assert Decimal(n)[..0] == [];
    }
  }

  /** Go's appendInt for a number that is not negative: at least `width` digits. */
  function Pad(n: nat, width: nat): Bytes {
    var digits := Decimal(n);
    if |digits| < width then seq(width - |digits|, i => 48) + digits else digits
  }

  lemma {:induction false} ValueOfZeros(count: nat, digits: Bytes)
    ensures Value(seq(count, i => 48) + digits) == Value(digits)
    decreases |digits|, count
  {
    var zeros: Bytes := seq(count, i => 48);
    if digits == [] {
      assert zeros + digits == zeros;
      if count > 0 {
        assert zeros[..count - 1] == seq(count - 1, i => 48);
        assert zeros[..count - 1] + [] == zeros[..count - 1];
        ValueOfZeros(count - 1, []);
      }
    } else {
      ValueOfZeros(count, digits[..|digits| - 1]);
      assert (zeros + digits)[..|zeros + digits| - 1] == zeros + digits[..|digits| - 1];
    }
  }

  lemma PadValue(n: nat, width: nat)
    ensures Value(Pad(n, width)) == n
    ensures Pad(n, width) != [] && 48 <= Pad(n, width)[0] <= 57
    ensures n < 100 && width == 2 ==> |Pad(n, width)| == 2
  {
    DecimalValue(n);
    if |Decimal(n)| < width {
      ValueOfZeros(width - |Decimal(n)|, Decimal(n));
    }
  }

  /** A number with its sign; `strconv.Itoa` is the case of width 1. */
  function Signed(n: int, width: nat): Bytes {
    if n < 0 then [45] + Pad(-n, width) else Pad(n, width)
  }

  lemma SignedInjective(a: int, b: int, width: nat)
    requires Signed(a, width) == Signed(b, width)
    ensures a == b
  {
    PadValue(if a < 0 then -a else a, width);
    PadValue(if b < 0 then -b else b, width);
    if a < 0 && b < 0 {
      assert Signed(a, width)[1..] == Pad(-a, width);
      assert Signed(b, width)[1..] == Pad(-b, width);
    }
  }

  /** An instant in UTC, as `time.Time` shows it. */
  datatype Instant = Instant(year: int, month: nat, day: nat, hour: nat, minute: nat, second: nat, nanosecond: nat)

  predicate ValidInstant(t: Instant) {
    1 <= t.month <= 12 && 1 <= t.day <= 31 && t.hour < 24 && t.minute < 60 && t.second < 60
  }

  predicate SameSecond(a: Instant, b: Instant) {
    a.(nanosecond := 0) == b.(nanosecond := 0)
  }

  /** A separator and two digits in front of the rest. */
  function Part(separator: byte, n: nat, rest: Bytes): Bytes {
    [separator] + Pad(n, 2) + rest
  }

  lemma PartInjective(separator: byte, a: nat, b: nat, restA: Bytes, restB: Bytes)
    requires a < 100 && b < 100
    ensures |Part(separator, a, restA)| == 3 + |restA|
    ensures Part(separator, a, restA) == Part(separator, b, restB) ==> a == b && restA == restB
  {
    PadValue(a, 2);
    PadValue(b, 2);
    assert Part(separator, a, restA)[1..3] == Pad(a, 2) && Part(separator, b, restB)[1..3] == Pad(b, 2);
    assert Part(separator, a, restA)[3..] == restA && Part(separator, b, restB)[3..] == restB;
  }

  function Seconds(t: Instant): Bytes { Part(58, t.second, [90]) }
  function Minutes(t: Instant): Bytes { Part(58, t.minute, Seconds(t)) }
  function Hours(t: Instant): Bytes { Part(84, t.hour, Minutes(t)) }
  function Days(t: Instant): Bytes { Part(45, t.day, Hours(t)) }
  function Months(t: Instant): Bytes { Part(45, t.month, Days(t)) }

  /** RFC 3339 with seconds, in UTC. */
  function FormatInstant(t: Instant): Bytes {
    Signed(t.year, 4) + Months(t)
  }

  lemma MonthsInjective(a: Instant, b: Instant)
    requires ValidInstant(a) && ValidInstant(b)
    ensures |Months(a)| == 16
    ensures Months(a) == Months(b) ==> SameSecond(a.(year := b.year), b)
  {
    hide Part;
    PartInjective(58, a.second, b.second, [90], [90]);
    PartInjective(58, a.minute, b.minute, Seconds(a), Seconds(b));
    PartInjective(84, a.hour, b.hour, Minutes(a), Minutes(b));
    PartInjective(45, a.day, b.day, Hours(a), Hours(b));
    PartInjective(45, a.month, b.month, Days(a), Days(b));
  }

  /** Two instants have the same text exactly when they agree to the second. */
  lemma FormatInjective(a: Instant, b: Instant)
    requires ValidInstant(a) && ValidInstant(b)
    ensures FormatInstant(a) == FormatInstant(b) <==> SameSecond(a, b)
  {
    hide Months, Signed;
    MonthsInjective(a, b);
    MonthsInjective(b, a);
    if FormatInstant(a) == FormatInstant(b) {
      var year := |FormatInstant(a)| - 16;
      assert FormatInstant(a)[..year] == Signed(a.year, 4) && FormatInstant(b)[..year] == Signed(b.year, 4);
      assert FormatInstant(a)[year..] == Months(a) && FormatInstant(b)[year..] == Months(b);
      SignedInjective(a.year, b.year, 4);
    } else if SameSecond(a, b) {
      SameMonths(a, b);
    }
  }

  lemma SameMonths(a: Instant, b: Instant)
    requires SameSecond(a, b)
    ensures Months(a) == Months(b)
  {
  }

  // ---- the signed payloads

  function Text(s: string): (encoded: Bytes)
    ensures |encoded| == |s|
  {
    seq(|s|, i requires 0 <= i < |s| => s[i] as int % 256)
  }

  const REQUEST_DOMAIN := "beat.enrollment.request"
  const STATUS_DOMAIN := "beat.enrollment.status"
  const CLAIM_DOMAIN := "beat.enrollment.claim"
  const METADATA_DOMAIN := "beat.enrollment.metadata"

  datatype Payload =
    | Request(challengeId: Bytes, challenge: Bytes, origin: Bytes, fingerprint: Bytes, metadata: Bytes,
              expiresAt: Instant)
    | Status(requestId: Bytes, origin: Bytes, timestamp: Instant, nonce: Bytes)
    | Claim(requestId: Bytes, nodeId: Bytes, ticket: Bytes, origin: Bytes, timestamp: Instant, nonce: Bytes)
    | Metadata(hostname: Bytes, advertisedHost: Bytes, os: Bytes, architecture: Bytes, agentVersion: Bytes,
               virtualization: Bytes, sshPort: int, installationNonce: Bytes)

  function Domain(payload: Payload): string {
    match payload
    case Request(_, _, _, _, _, _) => REQUEST_DOMAIN
    case Status(_, _, _, _) => STATUS_DOMAIN
    case Claim(_, _, _, _, _, _) => CLAIM_DOMAIN
    case Metadata(_, _, _, _, _, _, _, _) => METADATA_DOMAIN
  }

  function Fields(payload: Payload): seq<Bytes> {
    match payload
    case Request(id, challenge, origin, fingerprint, metadata, expiresAt) =>
      [id, challenge, origin, fingerprint, metadata, FormatInstant(expiresAt)]
    case Status(id, origin, timestamp, nonce) => [id, origin, FormatInstant(timestamp), nonce]
    case Claim(id, node, ticket, origin, timestamp, nonce) =>
      [id, node, ticket, origin, FormatInstant(timestamp), nonce]
    case Metadata(hostname, host, os, architecture, version, virtualization, port, nonce) =>
      [hostname, host, os, architecture, version, virtualization, Signed(port, 1), nonce]
  }

  function Canonical(payload: Payload): Bytes {
    EncodeFields([Text(Domain(payload))] + Fields(payload))
  }

  predicate WellFormed(payload: Payload) {
    && Short(Fields(payload))
    && match payload
       case Request(_, _, _, _, _, expiresAt) => ValidInstant(expiresAt)
       case Status(_, _, timestamp, _) => ValidInstant(timestamp)
       case Claim(_, _, _, _, timestamp, _) => ValidInstant(timestamp)
       case Metadata(_, _, _, _, _, _, _, _) => true
  }

  /** The payload with its instant cut to the second. */
  function ToSecond(payload: Payload): Payload {
    match payload
    case Request(id, challenge, origin, fingerprint, metadata, t) =>
      Request(id, challenge, origin, fingerprint, metadata, t.(nanosecond := 0))
    case Status(id, origin, t, nonce) => Status(id, origin, t.(nanosecond := 0), nonce)
    case Claim(id, node, ticket, origin, t, nonce) => Claim(id, node, ticket, origin, t.(nanosecond := 0), nonce)
    case Metadata(_, _, _, _, _, _, _, _) => payload
  }

  /** Payloads of different purposes never coincide, and equal payloads are equal bindings. */
  lemma CanonicalInjective(a: Payload, b: Payload)
    requires WellFormed(a) && WellFormed(b)
    ensures Canonical(a) == Canonical(b) <==> ToSecond(a) == ToSecond(b)
  {
    var as', bs := [Text(Domain(a))] + Fields(a), [Text(Domain(b))] + Fields(b);
    if Canonical(a) == Canonical(b) {
      EncodeInjective(as', bs);
      assert as'[0] == bs[0] && as'[1..] == Fields(a) && bs[1..] == Fields(b);
      match (a, b) {
        case (Request(_, _, _, _, _, t), Request(_, _, _, _, _, u)) => FormatInjective(t, u);
        case (Status(_, _, t, _), Status(_, _, u, _)) => FormatInjective(t, u);
        case (Claim(_, _, _, _, t, _), Claim(_, _, _, _, u, _)) => FormatInjective(t, u);
        case (Metadata(_, _, _, _, _, _, p, _), Metadata(_, _, _, _, _, _, q, _)) => SignedInjective(p, q, 1);
        case _ =>
      }
    } else if ToSecond(a) == ToSecond(b) {
      match (a, b) {
        case (Request(_, _, _, _, _, t), Request(_, _, _, _, _, u)) => FormatInjective(t, u);
        case (Status(_, _, t, _), Status(_, _, u, _)) => FormatInjective(t, u);
        case (Claim(_, _, _, _, t, _), Claim(_, _, _, _, u, _)) => FormatInjective(t, u);
        case _ =>
      }
    }
  }

  /** Moving a field of 4 GiB of zeros one place on leaves the encoding as it is. */
  lemma ZerosMove(head: Bytes, tail: seq<Bytes>)
    ensures EncodeFields([head, Zeros(FIELD_LIMIT), []] + tail) == EncodeFields([head, [], Zeros(FIELD_LIMIT)] + tail)
  {
    var long, rest := Zeros(FIELD_LIMIT), EncodeFields(tail);
    var one, other := [head, long, []] + tail, [head, [], long] + tail;
    assert one[1..][1..][1..] == tail && other[1..][1..][1..] == tail;
    assert Uint32(FIELD_LIMIT) == Zeros(4) && Uint32(0) == Zeros(4);
    assert EncodeFields(one[1..][1..]) == Zeros(4) + [] + rest;
    assert EncodeFields(other[1..][1..]) == Zeros(4) + long + rest;
    assert EncodeFields(one[1..]) == Zeros(4) + long + (Zeros(4) + [] + rest);
    assert EncodeFields(other[1..]) == Zeros(4) + [] + (Zeros(4) + long + rest);
    ZerosCommute(rest);
  }

  lemma ZerosCommute(rest: Bytes)
    ensures var long := Zeros(FIELD_LIMIT);
            Zeros(4) + long + (Zeros(4) + [] + rest) == Zeros(4) + [] + (Zeros(4) + long + rest)
  {
    var long := Zeros(FIELD_LIMIT);
    assert Zeros(4) + long + Zeros(4) == Zeros(4) + Zeros(4) + long;
  }

  /** Without the bound two status requests coincide: the 4 GiB field may be the request or the origin. */
  lemma LongFieldCollides(t: Instant, nonce: Bytes)
    ensures var a, b := Status(Zeros(FIELD_LIMIT), [], t, nonce), Status([], Zeros(FIELD_LIMIT), t, nonce);
            Canonical(a) == Canonical(b) && ToSecond(a) != ToSecond(b)
  {
    var tail := [FormatInstant(t), nonce];
    var a, b := Status(Zeros(FIELD_LIMIT), [], t, nonce), Status([], Zeros(FIELD_LIMIT), t, nonce);
    assert [Text(STATUS_DOMAIN)] + Fields(a) == [Text(STATUS_DOMAIN), Zeros(FIELD_LIMIT), []] + tail;
    assert [Text(STATUS_DOMAIN)] + Fields(b) == [Text(STATUS_DOMAIN), [], Zeros(FIELD_LIMIT)] + tail;
    ZerosMove(Text(STATUS_DOMAIN), tail);
    assert |a.requestId| != |b.requestId|;
  }
}
