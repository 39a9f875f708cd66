/** Verification of the Stripe-Signature header: `t=<timestamp>,v1=<hex>,...`.

    HMAC-SHA256 is a parameter: any function from a secret and a message to bytes.
 */
module StripeSignature {
  import opened Options
  import opened Text

  type Mac = (string, string) -> seq<Byte>

  datatype Verdict = Accepted | EmptyHeader | MissingTimestamp | MissingSignature | BadTimestamp | Mismatch

  /** The timestamp and the signatures read so far. */
  datatype Header = Header(timestamp: string, signatures: seq<string>)

  /** Read one comma-separated part: a later `t` replaces an earlier one, every `v1` is
      kept, anything else is ignored. */
  function ReadPart(h: Header, part: string): Header {
    var eq := IndexOf(part, '=');
    if eq == |part| then h else
      var key, val := TrimSpace(part[..eq]), TrimSpace(part[eq + 1..]);
      if key == "t" then h.(timestamp := val)
      else if key == "v1" then h.(signatures := h.signatures + [val])
      else h
  }

  function ReadParts(h: Header, parts: seq<string>): Header
    decreases |parts|
  {
    if parts == [] then h else ReadParts(ReadPart(h, parts[0]), parts[1..])
  }

  function ParseHeader(header: string): Header {
    ReadParts(Header("", []), Split(header, ','))
  }

  /** The message that is signed. */
  function Signed(timestamp: string, payload: string): string {
    timestamp + "." + payload
  }

  ghost predicate SomeMatches(signatures: seq<string>, expected: seq<Byte>) {
    exists i | 0 <= i < |signatures| :: HexDecode(signatures[i]) == Some(expected)
  }

  ghost function Verify(mac: Mac, payload: string, header: string, secret: string): Verdict {
    var h := ParseHeader(header);
    if header == "" then EmptyHeader
    else if h.timestamp == "" then MissingTimestamp
    else if h.signatures == [] then MissingSignature
    else if !IsInt64(h.timestamp) then BadTimestamp
    else if SomeMatches(h.signatures, mac(secret, Signed(h.timestamp, payload))) then Accepted
    else Mismatch
  }

  method VerifySignature(mac: Mac, payload: string, header: string, secret: string) returns (verdict: Verdict)
    ensures verdict == Verify(mac, payload, header, secret)
  {
    if header == "" {
      return EmptyHeader;
    }
    var timestamp, signatures := "", [];
    var parts := Split(header, ',');
    var i := 0;
    while i < |parts|
      invariant i <= |parts|
      invariant ParseHeader(header) == ReadParts(Header(timestamp, signatures), parts[i..])
    {
      var part := parts[i];
      assert parts[i..][0] == part && parts[i..][1..] == parts[i + 1..];
      i := i + 1;
      var eq := IndexOf(part, '=');
      if eq == |part| {
        continue;
      }
      var key, val := TrimSpace(part[..eq]), TrimSpace(part[eq + 1..]);
      if key == "t" {
        timestamp := val;
      } else if key == "v1" {
        signatures := signatures + [val];
      }
    }
    assert ParseHeader(header) == Header(timestamp, signatures);
    if timestamp == "" {
      return MissingTimestamp;
    }
    if |signatures| == 0 {
      return MissingSignature;
    }
    if !IsInt64(timestamp) {
      return BadTimestamp;
    }
    var expected := mac(secret, Signed(timestamp, payload));
    i := 0;
    while i < |signatures|
      invariant i <= |signatures|
      invariant forall j | 0 <= j < i :: HexDecode(signatures[j]) != Some(expected)
    {
      match HexDecode(signatures[i]) {
        case None =>
        case Some(bytes) =>
          if bytes == expected {
            return Accepted;
          }
      }
      i := i + 1;
    }
    return Mismatch;
  }

  // ----- The header as a list of fields -----

  /** A part of a header: key and value with blanks around them, or a part without `=`. */
  datatype Field =
    | Pair(left: string, key: string, right: string, left': string, val: string, right': string)
    | Junk(text: string)

  ghost predicate WellFormed(f: Field) {
    match f
    case Pair(left, key, right, left', val, right') =>
      && Blank(left) && Blank(right) && Blank(left') && Blank(right')
      && Trimmed(key) && '=' !in key && ',' !in key
      && Trimmed(val) && ',' !in val
    case Junk(text) => '=' !in text && ',' !in text
  }

  function RenderField(f: Field): string {
    match f
    case Pair(left, key, right, left', val, right') => left + key + right + "=" + (left' + val + right')
    case Junk(text) => text
  }

  function RenderFields(fields: seq<Field>): seq<string> {
    if fields == [] then [] else [RenderField(fields[0])] + RenderFields(fields[1..])
  }

  function Render(fields: seq<Field>): string {
    Join(RenderFields(fields), ',')
  }

  /** The value of the last `t` field. */
  function LastTimestamp(fields: seq<Field>): string {
    if fields == [] then "" else
      var f := fields[|fields| - 1];
      if f.Pair? && f.key == "t" then f.val else LastTimestamp(fields[..|fields| - 1])
  }

  /** The values of the `v1` fields, in order. */
  function Signatures(fields: seq<Field>): seq<string> {
    if fields == [] then [] else
      (if fields[0].Pair? && fields[0].key == "v1" then [fields[0].val] else []) + Signatures(fields[1..])
  }

  lemma BlankHasNo(s: string, c: char)
    requires Blank(s) && !IsSpace(c)
    ensures c !in s
  {
  }

  lemma RenderedFieldHasNoComma(f: Field)
    requires WellFormed(f)
    ensures ',' !in RenderField(f)
  {
    if f.Pair? {
      BlankHasNo(f.left, ',');
      BlankHasNo(f.right, ',');
      BlankHasNo(f.left', ',');
      BlankHasNo(f.right', ',');
    }
  }

  /** What reading one rendered field does. */
  function ReadField(h: Header, f: Field): Header {
    if f.Pair? && f.key == "t" then h.(timestamp := f.val)
    else if f.Pair? && f.key == "v1" then h.(signatures := h.signatures + [f.val])
    else h
  }

  lemma ReadsRenderedField(h: Header, f: Field)
    requires WellFormed(f)
    ensures ReadPart(h, RenderField(f)) == ReadField(h, f)
  {
    var part := RenderField(f);
    match f
    case Junk(text) =>
      assert part[..IndexOf(part, '=')] <= part;
    case Pair(left, key, right, left', val, right') =>
      BlankHasNo(left, '=');
      BlankHasNo(right, '=');
      var before, after := left + key + right, left' + val + right';
      IndexOfFirst(before, '=', after);
      assert part[..|before|] == before && part[|before| + 1..] == after;
      TrimSpacePadded(left, key, right);
      TrimSpacePadded(left', val, right');
  }

  function ReadFields(h: Header, fields: seq<Field>): Header
    decreases |fields|
  {
    if fields == [] then h else ReadFields(ReadField(h, fields[0]), fields[1..])
  }

  lemma {:induction false} ReadsRenderedFields(h: Header, fields: seq<Field>)
    requires forall i | 0 <= i < |fields| :: WellFormed(fields[i])
    ensures ReadParts(h, RenderFields(fields)) == ReadFields(h, fields)
    decreases |fields|
  {
    if fields == [] {
    } else {
      ReadsRenderedField(h, fields[0]);
      assert RenderFields(fields)[1..] == RenderFields(fields[1..]);
      ReadsRenderedFields(ReadField(h, fields[0]), fields[1..]);
    }
  }

  lemma SignatureIsRead(h: Header, f: Field)
    ensures ReadField(h, f).signatures == h.signatures + (if f.Pair? && f.key == "v1" then [f.val] else [])
  {
  }

  lemma {:induction false} SignaturesAreRead(h: Header, fields: seq<Field>)
    ensures ReadFields(h, fields).signatures == h.signatures + Signatures(fields)
    decreases |fields|
  {
    if fields == [] {
    } else {
      var first := if fields[0].Pair? && fields[0].key == "v1" then [fields[0].val] else [];
      SignatureIsRead(h, fields[0]);
      SignaturesAreRead(ReadField(h, fields[0]), fields[1..]);
      assert h.signatures + first + Signatures(fields[1..]) == h.signatures + (first + Signatures(fields[1..]));
    }
  }

  lemma {:induction false} ReadFieldsAppends(h: Header, fields: seq<Field>, f: Field)
    ensures ReadFields(h, fields + [f]) == ReadField(ReadFields(h, fields), f)
    decreases |fields|
  {
    if fields == [] {
      assert fields + [f] == [f];
    } else {
      assert (fields + [f])[1..] == fields[1..] + [f];
      ReadFieldsAppends(ReadField(h, fields[0]), fields[1..], f);
    }
  }

  lemma {:induction false} TimestampIsRead(signatures: seq<string>, fields: seq<Field>)
    ensures ReadFields(Header("", signatures), fields).timestamp == LastTimestamp(fields)
    decreases |fields|
  {
    if fields == [] {
    } else {
      var last := |fields| - 1;
      assert fields == fields[..last] + [fields[last]];
      ReadFieldsAppends(Header("", signatures), fields[..last], fields[last]);
      TimestampIsRead(signatures, fields[..last]);
    }
  }

  lemma {:induction false} RenderedFieldsAt(fields: seq<Field>, i: nat)
    requires i < |fields|
    ensures |RenderFields(fields)| == |fields| && RenderFields(fields)[i] == RenderField(fields[i])
    decreases |fields|
  {
    if |fields| <= 1 {
    } else {
      RenderedFieldsAt(fields[1..], if i > 0 then i - 1 else 0);
    }
  }

  /** Round trip: however fields are padded and mixed with unknown ones, parsing the
      rendered header gives the last timestamp and all the signatures in order. */
  lemma ParseRender(fields: seq<Field>)
    requires forall i | 0 <= i < |fields| :: WellFormed(fields[i])
    ensures ParseHeader(Render(fields)) == Header(LastTimestamp(fields), Signatures(fields))
  {
    var parts := RenderFields(fields);
    if fields == [] {
      assert Split("", ',') == [""];
    } else {
      forall i | 0 <= i < |parts|
        ensures ',' !in parts[i]
      {
        RenderedFieldsAt(fields, 0);
        RenderedFieldsAt(fields, i);
        RenderedFieldHasNoComma(fields[i]);
      }
      SplitJoin(parts, ',');
    }
    ReadsRenderedFields(Header("", []), fields);
    SignaturesAreRead(Header("", []), fields);
    TimestampIsRead([], fields);
  }

  // ----- Every header is a list of fields -----

  lemma TrimmedHasNo(s: string, c: char)
    requires c !in s
    ensures c !in TrimSpace(s)
  {
    var left, right := TrimSpaceSplits(s);
    assert c in TrimSpace(s) ==> c in left + TrimSpace(s) + right;
  }

  lemma PairOf(before: string, after: string) returns (f: Field)
    requires ',' !in before && '=' !in before && ',' !in after
    ensures WellFormed(f) && RenderField(f) == before + "=" + after
  {
    var left, right := TrimSpaceSplits(before);
    var left', right' := TrimSpaceSplits(after);
    f := Pair(left, TrimSpace(before), right, left', TrimSpace(after), right');
    TrimmedHasNo(before, ',');
    TrimmedHasNo(before, '=');
    TrimmedHasNo(after, ',');
  }

  lemma FieldOf(part: string) returns (f: Field)
    requires ',' !in part
    ensures WellFormed(f) && RenderField(f) == part
  {
    var eq := IndexOf(part, '=');
    if eq == |part| {
      f := Junk(part);
      assert part[..eq] == part;
    } else {
      f := PairOf(part[..eq], part[eq + 1..]);
      assert part == part[..eq] + "=" + part[eq + 1..];
    }
  }

  lemma {:induction false} FieldsOf(parts: seq<string>) returns (fields: seq<Field>)
    requires forall i | 0 <= i < |parts| :: ',' !in parts[i]
    ensures RenderFields(fields) == parts
    ensures forall i | 0 <= i < |fields| :: WellFormed(fields[i])
    decreases |parts|
  {
    if parts == [] {
      fields := [];
    } else {
      var f := FieldOf(parts[0]);
      var rest := FieldsOf(parts[1..]);
      fields := [f] + rest;
    }
  }

  /** Every header is the rendering of some well-formed fields. */
  lemma EveryHeaderIsRendered(header: string) returns (fields: seq<Field>)
    ensures header == Render(fields)
    ensures forall i | 0 <= i < |fields| :: WellFormed(fields[i])
  {
    JoinSplit(header, ',');
    fields := FieldsOf(Split(header, ','));
  }

  // ----- What acceptance means -----

  ghost predicate SignedBy(mac: Mac, payload: string, secret: string, timestamp: string, signature: string) {
    LowerHex(signature) == HexEncode(mac(secret, timestamp + "." + payload))
  }

  /** A header is accepted exactly when its last timestamp is a 64-bit integer and some
      `v1` field is, up to the case of its hex digits, the encoding of the MAC of the
      timestamp, a dot and the payload. */
  lemma AcceptedIff(mac: Mac, payload: string, secret: string, fields: seq<Field>)
    requires forall i | 0 <= i < |fields| :: WellFormed(fields[i])
    ensures Verify(mac, payload, Render(fields), secret) == Accepted <==>
              && IsInt64(LastTimestamp(fields))
              && exists i | 0 <= i < |Signatures(fields)| ::
                   SignedBy(mac, payload, secret, LastTimestamp(fields), Signatures(fields)[i])
  {
    ParseRender(fields);
    var h := ParseHeader(Render(fields));
    var expected := mac(secret, Signed(h.timestamp, payload));
    forall i | 0 <= i < |h.signatures|
      ensures HexDecode(h.signatures[i]) == Some(expected) <==> SignedBy(mac, payload, secret, h.timestamp, h.signatures[i])
    {
      HexDecodesIff(h.signatures[i], expected);
    }
  }

  lemma EmptyHeaderHasNothing()
    ensures ParseHeader("") == Header("", [])
  {
    assert Split("", ',') == [""];
  }

  /** The other verdicts, in the order in which the checks are made. */
  lemma RefusedIff(mac: Mac, payload: string, secret: string, fields: seq<Field>)
    requires forall i | 0 <= i < |fields| :: WellFormed(fields[i])
    ensures var verdict, header, ts := Verify(mac, payload, Render(fields), secret), Render(fields), LastTimestamp(fields);
            && (verdict == EmptyHeader <==> header == "")
            && (verdict == MissingTimestamp <==> header != "" && ts == "")
            && (verdict == MissingSignature <==> ts != "" && Signatures(fields) == [])
            && (verdict == BadTimestamp <==> ts != "" && Signatures(fields) != [] && !IsInt64(ts))
  {
    ParseRender(fields);
    EmptyHeaderHasNothing();
    VerdictOf(mac, payload, secret, Render(fields));
  }

  lemma VerdictOf(mac: Mac, payload: string, secret: string, header: string)
    ensures var verdict, h := Verify(mac, payload, header, secret), ParseHeader(header);
            && (verdict == EmptyHeader <==> header == "")
            && (verdict == MissingTimestamp <==> header != "" && h.timestamp == "")
            && (verdict == MissingSignature <==> header != "" && h.timestamp != "" && h.signatures == [])
            && (verdict == BadTimestamp <==> header != "" && h.timestamp != "" && h.signatures != [] && !IsInt64(h.timestamp))
  {
  }

  /** The signed message determines the timestamp and the payload: no two different pairs
      that pass the integer check share signed bytes. */
  lemma SignedIsInjective(ts: string, payload: string, ts': string, payload': string)
    requires IsInt64(ts) && IsInt64(ts')
    ensures Signed(ts, payload) == Signed(ts', payload') <==> ts == ts' && payload == payload'
  {
    Int64HasNo(ts, '.');
    Int64HasNo(ts', '.');
    IndexOfFirst(ts, '.', payload);
    IndexOfFirst(ts', '.', payload');
    var s := Signed(ts, payload);
    assert s[..|ts|] == ts && s[|ts| + 1..] == payload;
    if s == Signed(ts', payload') {
      assert s[..|ts'|] == ts' && s[|ts'| + 1..] == payload';
    }
  }

  /** Without the integer check two different pairs can share signed bytes. */
  lemma UncheckedTimestampsCollide()
    ensures Signed("1", "2.x") == Signed("1.2", "x") && IsInt64("1") && !IsInt64("1.2")
  {
    assert "1"[..0] == "";
    assert AllDigits("1") && Number("1") == 1;
    assert "1.2"[1] == '.';
  }
}
