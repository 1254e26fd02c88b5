/**
 The slice of the DNS wire format the balancer reads and writes: headers, the first question,
 probe queries and synthetic error responses (RFC 1035 sections 3.1, 4.1.1, 4.1.2 and 5.1).

 Bytes are integers below 256.  The single-bit tests and masks of the wire code are written as
 divisions and remainders by powers of two, which denote the same numbers.
 */
module Wire {
  import opened Basics

  type Byte = x: int | 0 <= x < 256
  type Bytes = seq<Byte>

  const HEADER_LEN := 12
  const CLASS_INET := 1
  const DOT: Byte := 46
  const BACKSLASH: Byte := 92

  const RCODE_SERVFAIL := 2
  const RCODE_NXDOMAIN := 3

  datatype WireError = ShortMessage | NoQuestion | Malformed | NameTooLong | LabelTooLong | EmptyLabel
                     | WrongId | NotAResponse

  datatype Header = Header(
    id: nat, qr: bool, opcode: nat, aa: bool, tc: bool, rd: bool, ra: bool, rcode: nat,
    qd: nat, an: nat, ns: nat, ar: nat)

  datatype Question = Question(name: Bytes, qtype: nat, qclass: nat)

  /** A scanned name: its labels and the octets it occupies, root octet included. */
  datatype Scan = Scan(labels: seq<Bytes>, len: nat)

  function U16(msg: Bytes, i: nat): (r: nat)
    requires i + 2 <= |msg|
    ensures r < 0x1_0000
  {
    msg[i] as int * 256 + msg[i + 1] as int
  }

  function BE16(v: nat): (r: Bytes)
    requires v < 0x1_0000
    ensures |r| == 2 && U16(r, 0) == v
  {
    [v / 256, v % 256]
  }

  function ParseHeader(msg: Bytes): Result<Header, WireError> {
    if |msg| < HEADER_LEN then Err(ShortMessage)
    else
      var hi: int, lo: int := msg[2], msg[3];
      Ok(Header(
           U16(msg, 0), hi >= 128, hi / 8 % 16, hi / 4 % 2 == 1, hi / 2 % 2 == 1, hi % 2 == 1,
           lo >= 128, lo % 16, U16(msg, 4), U16(msg, 6), U16(msg, 8), U16(msg, 10)))
  }

  function Bit(b: bool): nat { if b then 1 else 0 }

  /**
   The layout of section 4.1.1 of RFC 1035: the two flag octets are made up of the fields read from
   them, with three bits between RA and RCODE that are not read, and the other fields are 16-bit numbers.
   */
  lemma HeaderBits(msg: Bytes)
    requires |msg| >= HEADER_LEN
    ensures ParseHeader(msg).Ok?
    ensures var h := ParseHeader(msg).value;
            && h.opcode < 16 && h.rcode < 16
            && msg[2] == 128 * Bit(h.qr) + 8 * h.opcode + 4 * Bit(h.aa) + 2 * Bit(h.tc) + Bit(h.rd)
            && (exists z: nat :: z < 8 && msg[3] == 128 * Bit(h.ra) + 16 * z + h.rcode)
            && h.id == 256 * (msg[0] as int) + msg[1] as int && h.qd == 256 * (msg[4] as int) + msg[5] as int
            && h.an == 256 * (msg[6] as int) + msg[7] as int && h.ns == 256 * (msg[8] as int) + msg[9] as int
            && h.ar == 256 * (msg[10] as int) + msg[11] as int
  {
    var hi: int, lo: int := msg[2], msg[3];
    HighBits(hi);
    LowBits(lo);
    assert lo / 16 % 8 < 8;
  }

  lemma HighBits(hi: int)
    requires 0 <= hi < 256
    ensures hi == 128 * Bit(hi >= 128) + 8 * (hi / 8 % 16) + 4 * Bit(hi / 4 % 2 == 1) + 2 * Bit(hi / 2 % 2 == 1)
                  + Bit(hi % 2 == 1)
  {
    var a, b, c := hi / 2, hi / 4, hi / 8;
    assert hi == 2 * a + hi % 2 && a == 2 * b + a % 2 && b == 2 * c + b % 2 && c == 16 * Bit(hi >= 128) + c % 16;
  }

  lemma LowBits(lo: int)
    requires 0 <= lo < 256
    ensures lo == 128 * Bit(lo >= 128) + 16 * (lo / 16 % 8) + lo % 16
  {
    var c := lo / 16;
    assert lo == 16 * c + lo % 16 && c == 8 * Bit(lo >= 128) + c % 8;
  }

  /** Response code of a message; callers that ignore the parse error see code 0 for a short one. */
  function RCodeOf(msg: Bytes): nat {
    match ParseHeader(msg)
    case Ok(h) => h.rcode
    case Err(_) => 0
  }

  /** Transaction id, or 0 when the message is too short to carry one. */
  function ID(msg: Bytes): nat {
    if |msg| < 2 then 0 else U16(msg, 0)
  }

  /** The check every reply passes before it leaves the DNS client. */
  function ValidateResponse(resp: Bytes, wantId: nat): (r: Result<(), WireError>)
    ensures r.Ok? <==> |resp| >= HEADER_LEN && ID(resp) == wantId && resp[2] >= 128
  {
    match ParseHeader(resp)
    case Err(e) => Err(e)
    case Ok(h) =>
      if h.id != wantId then Err(WrongId) else if !h.qr then Err(NotAResponse) else Ok(())
  }

  const RCODE_NAMES: map<nat, string> := map[
    0 := "NOERROR", 1 := "FORMERR", 2 := "SERVFAIL", 3 := "NXDOMAIN", 4 := "NOTIMP", 5 := "REFUSED",
    6 := "YXDOMAIN", 7 := "YXRRSET", 8 := "NXRRSET", 9 := "NOTAUTH", 10 := "NOTZONE"]

  const TYPE_NAMES: map<nat, string> := map[
    1 := "A", 2 := "NS", 5 := "CNAME", 6 := "SOA", 12 := "PTR", 15 := "MX", 16 := "TXT", 28 := "AAAA",
    33 := "SRV", 255 := "ANY"]

  /** Mnemonic of a response code, or its number. */
  function RCodeName(r: nat): string {
    if r in RCODE_NAMES then RCODE_NAMES[r] else "RCODE" + Decimal(r)
  }

  /** The code of a blocked name and of a failure are recognised by their mnemonics. */
  lemma CodesRecognised(r: nat)
    ensures RCodeName(r) == "NXDOMAIN" <==> r == RCODE_NXDOMAIN
    ensures RCodeName(r) == "SERVFAIL" <==> r == RCODE_SERVFAIL
  {
    if r !in RCODE_NAMES {
      assert RCodeName(r)[0] == 'R';
    }
    assert "NXDOMAIN"[0] == 'N' && "SERVFAIL"[0] == 'S';
    assert |"NXDOMAIN"| == 8 && |"YXDOMAIN"| == 8 && "YXDOMAIN"[0] == 'Y' && "NOTAUTH"[1] == 'O';
  }

  /** Mnemonic of a record type, or its number. */
  function TypeName(t: nat): string {
    if t in TYPE_NAMES then TYPE_NAMES[t] else "TYPE" + Decimal(t)
  }

  /** Type of the first question, blank when it cannot be read. */
  function QTypeOf(req: Bytes): string {
    match ParseQuestion(req)
    case Ok(q) => TypeName(q.qtype)
    case Err(_) => ""
  }

  // ---------------------------------------------------------------- names on the wire

  /** The uncompressed encoding of a label sequence: length octet and bytes each, then the root octet. */
  function WireName(labels: seq<Bytes>): (r: Bytes)
    ensures |r| >= 1
  {
    if labels == [] then [0] else [|labels[0]| % 256] + labels[0] + WireName(labels[1..])
  }

  ghost predicate ValidLabels(labels: seq<Bytes>) {
    forall i :: 0 <= i < |labels| ==> 1 <= |labels[i]| <= 63
  }

  /** Reads labels off the front of rest, having already consumed total octets of labels. */
  function ScanName(rest: Bytes, total: nat): Result<Scan, WireError>
    decreases |rest|
  {
    if |rest| == 0 then Err(Malformed)
    else
      var l: nat := rest[0];
      if l == 0 then Ok(Scan([], 1))
      else if l >= 64 then Err(Malformed)
      else if 1 + l > |rest| then Err(Malformed)
      else if total + l + 1 > 255 then Err(NameTooLong)
      else Prepend(rest[1..1 + l], ScanName(rest[1 + l..], total + l + 1))
  }

  function Prepend(lab: Bytes, r: Result<Scan, WireError>): Result<Scan, WireError> {
    match r
    case Err(e) => Err(e)
    case Ok(s) => Ok(Scan([lab] + s.labels, 1 + |lab| + s.len))
  }

  lemma WireNameCons(lab: Bytes, labels: seq<Bytes>)
    requires |lab| < 256
    ensures WireName([lab] + labels) == [|lab|] + lab + WireName(labels)
  {
    assert ([lab] + labels)[1..] == labels;
  }

  /** Soundness: an accepted name is exactly the encoding of its labels, within the length budget. */
  lemma ScanSound(rest: Bytes, total: nat)
    requires ScanName(rest, total).Ok?
    ensures var s := ScanName(rest, total).value;
            && ValidLabels(s.labels)
            && |WireName(s.labels)| == s.len <= |rest|
            && rest[..s.len] == WireName(s.labels)
            && (s.labels == [] || total + s.len <= 256)
  {
    hide ScanName, WireName, ValidLabels;
    ScanEncodes(rest, total);
  }

  /** The scan is the encoding of its labels at the front of rest, within what total leaves of the budget. */
  ghost predicate Encodes(s: Scan, rest: Bytes, total: nat) {
    && ValidLabels(s.labels) && |WireName(s.labels)| == s.len <= |rest| && rest[..s.len] == WireName(s.labels)
    && (s.labels == [] || total + s.len <= 256)
  }

  lemma {:induction false} ScanEncodes(rest: Bytes, total: nat)
    requires ScanName(rest, total).Ok?
    ensures Encodes(ScanName(rest, total).value, rest, total)
    decreases |rest|
  {
    FirstLabel(rest, total);
    hide ScanName, Encodes;
    if rest[0] != 0 {
      var l: nat := rest[0];
      ScanEncodes(rest[1 + l..], total + l + 1);
      SoundStep(rest, total, l, ScanName(rest[1 + l..], total + l + 1).value);
    } else {
      RootEncodes(rest, total);
    }
  }

  lemma RootEncodes(rest: Bytes, total: nat)
    requires rest != [] && rest[0] == 0
    ensures Encodes(Scan([], 1), rest, total)
  {
    assert rest[..1] == [0];
  }

  /** One more label in front of an encoding is the encoding of one more label. */
  lemma SoundStep(rest: Bytes, total: nat, l: nat, t: Scan)
    requires 1 <= l <= 63 && 1 + l <= |rest| && rest[0] == l && total + l + 1 <= 255
    requires Encodes(t, rest[1 + l..], total + l + 1)
    ensures Encodes(Scan([rest[1..1 + l]] + t.labels, 1 + l + t.len), rest, total)
  {
    assert WireName([]) == [0];
    hide WireName;
    WireNameCons(rest[1..1 + l], t.labels);
    SplitFront(rest, l, t.len);
    ValidCons(rest[1..1 + l], t.labels);
    hide ValidLabels;
  }

  lemma FirstLabel(rest: Bytes, total: nat)
    requires ScanName(rest, total).Ok?
    ensures rest != []
    ensures rest[0] == 0 ==> ScanName(rest, total).value == Scan([], 1)
    ensures rest[0] != 0 ==>
              var l: nat := rest[0];
              && l <= 63 && 1 + l <= |rest| && total + l + 1 <= 255
              && ScanName(rest[1 + l..], total + l + 1).Ok?
              && (var t := ScanName(rest[1 + l..], total + l + 1).value;
                  ScanName(rest, total).value == Scan([rest[1..1 + l]] + t.labels, 1 + l + t.len))
  {
  }

  lemma ValidCons(lab: Bytes, labels: seq<Bytes>)
    requires 1 <= |lab| <= 63 && ValidLabels(labels)
    ensures ValidLabels([lab] + labels)
  {
  }

  lemma SplitFront(rest: Bytes, l: nat, n: nat)
    requires 1 + l + n <= |rest|
    ensures rest[..1 + l + n] == [rest[0]] + rest[1..1 + l] + rest[1 + l..][..n]
  {
  }

  /** Reading one encoded label leaves the reader at whatever follows it. */
  lemma ScanStep(lab: Bytes, more: Bytes, total: nat)
    requires 1 <= |lab| <= 63 && total + |lab| + 1 <= 255
    ensures ScanName([|lab|] + lab + more, total) == Prepend(lab, ScanName(more, total + |lab| + 1))
  {
    var rest := [|lab|] + lab + more;
    assert rest[0] == |lab|;
    assert rest[1..1 + |lab|] == lab;
    assert rest[1 + |lab|..] == more;
  }

  /** Completeness: an encoding with labels in range and budget is read back, whatever follows it. */
  lemma {:induction false} ScanComplete(labels: seq<Bytes>, tail: Bytes, total: nat)
    requires ValidLabels(labels)
    requires labels == [] || total + |WireName(labels)| <= 256
    ensures ScanName(WireName(labels) + tail, total) == Ok(Scan(labels, |WireName(labels)|))
    decreases |labels|
  {
    hide ScanName, WireName;
    if labels == [] {
      ScanRoot(tail, total);
    } else {
      var lab, more := labels[0], labels[1..];
      var w := WireName(more);
      assert labels == [lab] + more;
      WireNameCons(lab, more);
      assert [|lab|] + lab + w + tail == [|lab|] + lab + (w + tail);
      ScanStep(lab, w + tail, total);
      ScanComplete(more, tail, total + |lab| + 1);
    }
  }

  lemma ScanRoot(tail: Bytes, total: nat)
    ensures WireName([]) == [0]
    ensures ScanName(WireName([]) + tail, total) == Ok(Scan([], 1))
  {
    assert (WireName([]) + tail)[0] == 0;
  }

  /** Name parsing depends only on the bytes it consumes: every extension parses the same. */
  lemma ScanExtension(rest: Bytes, other: Bytes, total: nat)
    requires ScanName(rest, total).Ok?
    requires var n := ScanName(rest, total).value.len; n <= |rest| && n <= |other| && rest[..n] == other[..n]
    ensures ScanName(other, total) == ScanName(rest, total)
  {
    hide ScanName, WireName;
    ScanSound(rest, total);
    var s := ScanName(rest, total).value;
    assert other == WireName(s.labels) + other[s.len..];
    ScanComplete(s.labels, other[s.len..], total);
  }

  /** A proper prefix of an accepted name is always rejected. */
  lemma {:induction false} ScanTruncated(rest: Bytes, cut: nat, total: nat)
    requires ScanName(rest, total).Ok?
    requires cut <= |rest| && cut < ScanName(rest, total).value.len
    ensures ScanName(rest[..cut], total) == Err(Malformed)
    decreases |rest|
  {
    if cut > 0 {
      var l: nat := rest[0];
      assert rest[..cut][0] == rest[0];
      if l != 0 && 1 + l <= cut {
        assert rest[..cut][1..1 + l] == rest[1..1 + l];
        assert rest[..cut][1 + l..] == rest[1 + l..][..cut - 1 - l];
        ScanTruncated(rest[1 + l..], cut - 1 - l, total + l + 1);
      }
    }
  }

  // ---------------------------------------------------------------- presentation form

  function Digit(d: nat): Byte
    requires d < 10
  {
    48 + d
  }

  /** One byte in presentation form: printable, a quoted special, or \DDD. */
  function EscapeByte(c: Byte): Bytes {
    if c == DOT || c == BACKSLASH then [BACKSLASH, c]
    else if c < 33 || c > 126 then [BACKSLASH, Digit(c / 100), Digit(c / 10 % 10), Digit(c % 10)]
    else [c]
  }

  function EscapeLabel(lab: Bytes): Bytes {
    if lab == [] then [] else EscapeByte(lab[0]) + EscapeLabel(lab[1..])
  }

  function RenderLabels(labels: seq<Bytes>): (r: Bytes)
    ensures r == [] <==> labels == []
  {
    if labels == [] then [] else EscapeLabel(labels[0]) + [DOT] + RenderLabels(labels[1..])
  }

  /** The fully qualified presentation form; the root is a lone dot. */
  function Render(labels: seq<Bytes>): Bytes {
    if labels == [] then [DOT] else RenderLabels(labels)
  }

  /** A master-file reader for section 5.1 escapes: text, and the label read so far. */
  function Unescape(text: Bytes, cur: Bytes): Option<seq<Bytes>> {
    if text == [] then (if cur == [] then Some([]) else None)
    else if text[0] == DOT then
      match Unescape(text[1..], [])
      case None => None
      case Some(rest) => Some([cur] + rest)
    else if text[0] != BACKSLASH then Unescape(text[1..], cur + [text[0]])
    else if |text| < 2 then None
    else if !(48 <= text[1] <= 57) then Unescape(text[2..], cur + [text[1]])
    else if |text| < 4 || !(48 <= text[2] <= 57) || !(48 <= text[3] <= 57) then None
    else
      var v := (text[1] as int - 48) * 100 + (text[2] as int - 48) * 10 + (text[3] as int - 48);
      if v > 255 then None else Unescape(text[4..], cur + [v])
  }

  function DecodeName(text: Bytes): Option<seq<Bytes>> {
    if text == [DOT] then Some([]) else Unescape(text, [])
  }

  lemma UnescapeByte(c: Byte, rest: Bytes, cur: Bytes)
    ensures Unescape(EscapeByte(c) + rest, cur) == Unescape(rest, cur + [c])
  {
    var text := EscapeByte(c) + rest;
    if c == DOT || c == BACKSLASH {
      assert text[2..] == rest;
    } else if c < 33 || c > 126 {
      assert text[4..] == rest;
    } else {
      assert text[1..] == rest;
    }
  }

  lemma {:induction false} UnescapeLabel(lab: Bytes, rest: Bytes, cur: Bytes)
    ensures Unescape(EscapeLabel(lab) + rest, cur) == Unescape(rest, cur + lab)
    decreases |lab|
  {
    if lab == [] {
      assert EscapeLabel(lab) + rest == rest && cur + lab == cur;
    } else {
      var c, tail := lab[0], lab[1..];
      assert EscapeLabel(lab) + rest == EscapeByte(c) + (EscapeLabel(tail) + rest);
      UnescapeByte(c, EscapeLabel(tail) + rest, cur);
      UnescapeLabel(tail, rest, cur + [c]);
      assert cur + [c] + tail == cur + lab;
    }
  }

  lemma {:induction false} UnescapeRendered(labels: seq<Bytes>)
    ensures Unescape(RenderLabels(labels), []) == Some(labels)
    decreases |labels|
  {
    if labels != [] {
      var tail := RenderLabels(labels[1..]);
      assert RenderLabels(labels) == EscapeLabel(labels[0]) + ([DOT] + tail);
      UnescapeLabel(labels[0], [DOT] + tail, []);
      assert ([DOT] + tail)[1..] == tail && [] + labels[0] == labels[0];
      UnescapeRendered(labels[1..]);
      assert [labels[0]] + labels[1..] == labels;
    }
  }

  lemma EscapeGrows(lab: Bytes)
    ensures |EscapeLabel(lab)| >= |lab|
  {
  }

  /** Rendering loses nothing: the decoder recovers the label sequence, whatever bytes it holds. */
  lemma DecodeRender(labels: seq<Bytes>)
    requires ValidLabels(labels)
    ensures DecodeName(Render(labels)) == Some(labels)
  {
    if labels != [] {
      UnescapeRendered(labels);
      EscapeGrows(labels[0]);
      assert |Render(labels)| >= 2;
    }
  }

  /** Distinct wire names never print alike. */
  lemma RenderInjective(a: seq<Bytes>, b: seq<Bytes>)
    requires ValidLabels(a) && ValidLabels(b)
    requires Render(a) == Render(b)
    ensures a == b
  {
    DecodeRender(a);
    DecodeRender(b);
  }

  /** The in-place rendering loop appends exactly the escaped label. */
  method WriteEscaped(sb: Bytes, lab: Bytes) returns (out: Bytes)
    ensures out == sb + EscapeLabel(lab)
  {
    hide EscapeLabel;
    out := sb;
    for i := 0 to |lab|
      invariant out + EscapeLabel(lab[i..]) == sb + EscapeLabel(lab)
    {
      var c := lab[i];
      EscapeHead(lab[i..]);
      assert lab[i..][1..] == lab[i + 1..];
      ghost var before := out;
      if c == DOT || c == BACKSLASH {
        out := out + [BACKSLASH] + [c];
      } else if c < 33 || c > 126 {
        out := out + [BACKSLASH, Digit(c / 100), Digit(c / 10 % 10), Digit(c % 10)];
      } else {
        out := out + [c];
      }
      assert out == before + EscapeByte(c);
      assert before + (EscapeByte(c) + EscapeLabel(lab[i + 1..])) == out + EscapeLabel(lab[i + 1..]);
    }
    EscapeHead(lab[|lab|..]);
  }

  lemma EscapeHead(lab: Bytes)
    ensures EscapeLabel(lab) == if lab == [] then [] else EscapeByte(lab[0]) + EscapeLabel(lab[1..])
  {
  }

  lemma RenderSnoc(labels: seq<Bytes>, l: Bytes)
    ensures RenderLabels(labels + [l]) == RenderLabels(labels) + EscapeLabel(l) + [DOT]
  {
    if labels == [] {
      assert labels + [l] == [l] && [l][1..] == [];
    } else {
      assert (labels + [l])[1..] == labels[1..] + [l];
      RenderSnoc(labels[1..], l);
    }
  }

  /** What the reading loop still owes: the labels done so far, then the rest of the message. */
  ghost function Resume(done: seq<Bytes>, used: nat, r: Result<Scan, WireError>): Result<Scan, WireError> {
    match r
    case Err(e) => Err(e)
    case Ok(s) => Ok(Scan(done + s.labels, used + s.len))
  }

  lemma ResumeNothing(r: Result<Scan, WireError>)
    ensures Resume([], 0, r) == r
  {
    if r.Ok? {
      assert [] + r.value.labels == r.value.labels;
    }
  }

  lemma ResumeStep(done: seq<Bytes>, used: nat, lab: Bytes, r: Result<Scan, WireError>)
    ensures Resume(done, used, Prepend(lab, r)) == Resume(done + [lab], used + 1 + |lab|, r)
  {
    if r.Ok? {
      assert done + ([lab] + r.value.labels) == done + [lab] + r.value.labels;
    }
  }

  ghost function From(msg: Bytes, off: nat): Bytes {
    if off <= |msg| then msg[off..] else []
  }

  lemma FromHead(msg: Bytes, off: nat)
    ensures off >= |msg| ==> From(msg, off) == []
    ensures off < |msg| ==> |From(msg, off)| == |msg| - off && From(msg, off)[0] == msg[off]
  {
  }

  lemma FromLabel(msg: Bytes, off: nat, l: nat)
    requires off + 1 + l <= |msg|
    ensures |From(msg, off)| >= 1 + l
    ensures From(msg, off)[1..1 + l] == msg[off + 1..off + 1 + l]
    ensures From(msg, off)[1 + l..] == From(msg, off + 1 + l)
  {
  }

  /**
   The name-reading loop: it succeeds exactly on encoded names within the budget, and then returns
   their presentation form together with the offset just past the root octet.
   */
  method ParseName(msg: Bytes, start: nat) returns (r: Result<(Bytes, nat), WireError>)
    ensures r.Err? <==> ScanName(From(msg, start), 0).Err?
    ensures r.Err? ==> r.error == ScanName(From(msg, start), 0).error
    ensures r.Ok? ==> var s := ScanName(From(msg, start), 0).value; r.value == (Render(s.labels), start + s.len)
  {
    hide ScanName, RenderLabels, From;
    var sb: Bytes, total: nat, off: nat := [], 0, start;
    ghost var done: seq<Bytes> := [];
    ResumeNothing(ScanName(From(msg, start), 0));
    while true
      invariant start <= off
      invariant Resume(done, off - start, ScanName(From(msg, off), total)) == ScanName(From(msg, start), 0)
      invariant sb == RenderLabels(done)
      decreases |msg| - off
    {
      ghost var rest := From(msg, off);
      ScanCases(rest, total);
      FromHead(msg, off);
      if off >= |msg| {
        return Err(Malformed);
      }
      var l: nat := msg[off];
      if l == 0 {
        off := off + 1;
        assert done + [] == done;
        return Ok((if |sb| == 0 then [DOT] else sb, off));
      } else if l >= 64 {
        return Err(Malformed);
      }
      off := off + 1;
      if off + l > |msg| {
        return Err(Malformed);
      }
      total := total + l + 1;
      if total > 255 {
        return Err(NameTooLong);
      }
      var lab := msg[off..off + l];
      FromLabel(msg, off - 1, l);
      ResumeStep(done, off - 1 - start, lab, ScanName(From(msg, off + l), total));
      RenderSnoc(done, lab);
      sb := WriteEscaped(sb, lab);
      sb := sb + [DOT];
      done := done + [lab];
      off := off + l;
    }
  }

  lemma ScanCases(rest: Bytes, total: nat)
    ensures rest == [] ==> ScanName(rest, total) == Err(Malformed)
    ensures rest != [] && rest[0] == 0 ==> ScanName(rest, total) == Ok(Scan([], 1))
    ensures rest != [] && (rest[0] >= 64 || 1 + rest[0] > |rest|) ==>
              ScanName(rest, total) == Err(Malformed) || rest[0] == 0
    ensures rest != [] && 0 < rest[0] < 64 && 1 + rest[0] <= |rest| ==>
              ScanName(rest, total) ==
              if total + rest[0] + 1 > 255 then Err(NameTooLong)
              else Prepend(rest[1..1 + rest[0]], ScanName(rest[1 + rest[0]..], total + rest[0] + 1))
  {
  }

  // ---------------------------------------------------------------- questions

  /** The part of a message that follows its header. */
  function Body(msg: Bytes): Bytes
    requires |msg| >= HEADER_LEN
  {
    msg[HEADER_LEN..]
  }

  function ParseQuestion(msg: Bytes): Result<Question, WireError> {
    match ParseHeader(msg)
    case Err(e) => Err(e)
    case Ok(h) => if h.qd == 0 then Err(NoQuestion) else QuestionIn(Body(msg))
  }

  function QuestionIn(body: Bytes): Result<Question, WireError> {
    match ScanName(body, 0)
    case Err(e) => Err(e)
    case Ok(s) =>
      if s.len + 4 > |body| then Err(Malformed)
      else Ok(Question(Render(s.labels), U16(body, s.len), U16(body, s.len + 2)))
  }

  /** Octets the first question occupies. */
  function QuestionLen(body: Bytes): nat
    requires QuestionIn(body).Ok?
  {
    ScanName(body, 0).value.len + 4
  }

  /** Question parsing reads only the bytes it consumes: every extension gives the same question. */
  lemma QuestionExtension(body: Bytes, other: Bytes)
    requires QuestionIn(body).Ok?
    requires QuestionLen(body) <= |other| && other[..QuestionLen(body)] == body[..QuestionLen(body)]
    ensures QuestionIn(other) == QuestionIn(body)
    ensures QuestionLen(other) == QuestionLen(body)
  {
    hide ScanName, Render;
    ScanSound(body, 0);
    var n, q := ScanName(body, 0).value.len, QuestionLen(body);
    assert body[..n] == body[..q][..n] && other[..n] == other[..q][..n];
    ScanExtension(body, other, 0);
    forall i | n <= i < q
      ensures body[i] == other[i]
    {
      assert body[i] == body[..q][i] && other[i] == other[..q][i];
    }
  }

  /** Cutting a message anywhere inside its question makes the question unreadable. */
  lemma QuestionTruncated(body: Bytes, cut: nat)
    requires QuestionIn(body).Ok?
    requires cut < QuestionLen(body) && cut <= |body|
    ensures QuestionIn(body[..cut]) == Err(Malformed)
  {
    ScanSound(body, 0);
    var n := ScanName(body, 0).value.len;
    if cut < n {
      ScanTruncated(body, cut, 0);
    } else {
      assert body[..cut][..n] == body[..n];
      ScanExtension(body, body[..cut], 0);
    }
  }

  // ---------------------------------------------------------------- building queries

  function TrimDot(name: Bytes): Bytes {
    if name != [] && name[|name| - 1] == DOT then name[..|name| - 1] else name
  }

  /** The fully qualified spelling of a name handed to the query builder. */
  function Fqdn(name: Bytes): Bytes {
    if name != [] && name[|name| - 1] == DOT then name else name + [DOT]
  }

  /** Split on dots; always at least one piece. */
  function Split(name: Bytes): (r: seq<Bytes>)
    ensures |r| >= 1
  {
    if name == [] then [[]]
    else
      var rest := Split(name[1..]);
      if name[0] == DOT then [[]] + rest else [[name[0]] + rest[0]] + rest[1..]
  }

  ghost predicate IsRootName(name: Bytes) { name == [] || name == [DOT] }

  /** The labels a name stands for. */
  ghost function LabelsOf(name: Bytes): seq<Bytes> {
    if IsRootName(name) then [] else Split(TrimDot(name))
  }

  /** What the first unacceptable label, if any, is rejected for. */
  ghost function LabelFault(labels: seq<Bytes>): Option<WireError> {
    if labels == [] then None
    else if |labels[0]| == 0 then Some(EmptyLabel)
    else if |labels[0]| > 63 then Some(LabelTooLong)
    else LabelFault(labels[1..])
  }

  lemma FaultFree(labels: seq<Bytes>)
    ensures LabelFault(labels).None? <==> ValidLabels(labels)
  {
    if labels != [] {
      FaultFree(labels[1..]);
      assert labels == [labels[0]] + labels[1..];
    }
  }

  /** The packing loop: refuses the first unacceptable label, else yields all but the root octet. */
  method PackLabels(labels: seq<Bytes>) returns (r: Result<Bytes, WireError>)
    ensures r.Err? <==> LabelFault(labels).Some?
    ensures r.Err? ==> LabelFault(labels) == Some(r.error)
    ensures r.Ok? ==> r.value + [0] == WireName(labels)
  {
    hide WireName, LabelFault;
    ScanRoot([], 0);
    var out: Bytes := [];
    for i := 0 to |labels|
      invariant LabelFault(labels) == LabelFault(labels[i..])
      invariant out + WireName(labels[i..]) == WireName(labels)
    {
      var lab, rest := labels[i], labels[i + 1..];
      assert labels[i..] == [lab] + rest;
      FaultHead(lab, rest);
      if |lab| == 0 {
        return Err(EmptyLabel);
      }
      if |lab| > 63 {
        return Err(LabelTooLong);
      }
      WireNameCons(lab, rest);
      Regroup(out, [|lab|], lab, WireName(rest));
      out := out + [|lab|];
      out := out + lab;
    }
    assert labels[|labels|..] == [];
    FaultFree([]);
    return Ok(out);
  }

  /** Packing accepts exactly the names whose labels fit, and then yields their encoding. */
  method PackName(name: Bytes) returns (r: Result<Bytes, WireError>)
    ensures r.Ok? <==> ValidLabels(LabelsOf(name)) && |WireName(LabelsOf(name))| <= 255
    ensures r.Ok? ==> r.value == WireName(LabelsOf(name))
    ensures r.Err? ==> r.error == match LabelFault(LabelsOf(name)) case Some(e) => e case None => NameTooLong
  {
    FaultFree(LabelsOf(name));
    ScanRoot([], 0);
    hide WireName, LabelFault, Split;
    if |name| == 0 || name == [DOT] {
      return Ok([0]);
    }
    var packed := PackLabels(Split(TrimDot(name)));
    if packed.Err? {
      return packed;
    }
    var out := packed.value + [0];
    if |out| > 255 {
      return Err(NameTooLong);
    }
    return Ok(out);
  }

  lemma Regroup(a: Bytes, b: Bytes, c: Bytes, d: Bytes)
    ensures a + (b + c + d) == a + b + c + d
  {
  }

  lemma FaultHead(lab: Bytes, rest: seq<Bytes>)
    ensures LabelFault([lab] + rest) ==
            if |lab| == 0 then Some(EmptyLabel) else if |lab| > 63 then Some(LabelTooLong) else LabelFault(rest)
  {
    assert ([lab] + rest)[1..] == rest;
  }

  /** A standard recursive query: id, RD, one question of class IN. */
  method BuildQuery(id: nat, name: Bytes, qtype: nat) returns (r: Result<Bytes, WireError>)
    requires id < 0x1_0000 && qtype < 0x1_0000
    ensures r.Ok? <==> ValidLabels(LabelsOf(name)) && |WireName(LabelsOf(name))| <= 255
    ensures r.Ok? ==> r.value == QueryBytes(id, LabelsOf(name), qtype)
  {
    var packed := PackName(name);
    if packed.Err? {
      return Err(packed.error);
    }
    var qname := packed.value;
    var buf := new Byte[HEADER_LEN](i => 0);
    buf[0], buf[1] := id / 256, id % 256;
    buf[2], buf[3] := 0x01, 0x00;
    buf[4], buf[5] := 0, 1;
    var msg := buf[..];
    assert msg == BE16(id) + [1, 0, 0, 1, 0, 0, 0, 0, 0, 0];
    msg := msg + qname;
    msg := msg + BE16(qtype);
    msg := msg + BE16(CLASS_INET);
    return Ok(msg);
  }

  ghost function QueryBytes(id: nat, labels: seq<Bytes>, qtype: nat): Bytes
    requires id < 0x1_0000 && qtype < 0x1_0000 && ValidLabels(labels)
  {
    BE16(id) + [1, 0, 0, 1, 0, 0, 0, 0, 0, 0] + WireName(labels) + BE16(qtype) + BE16(CLASS_INET)
  }

  /** The type filed for a query is that of its question. */
  lemma BuiltQueryType(id: nat, labels: seq<Bytes>, qtype: nat)
    requires id < 0x1_0000 && qtype < 0x1_0000
    requires ValidLabels(labels) && |WireName(labels)| <= 255
    ensures QTypeOf(QueryBytes(id, labels, qtype)) == TypeName(qtype)
  {
    hide ParseQuestion, WireName, TypeName;
    BuiltQueryParses(id, labels, qtype);
  }

  /** Every built query parses back to its own labels, type and class, and is a plain recursive query. */
  lemma BuiltQueryParses(id: nat, labels: seq<Bytes>, qtype: nat)
    requires id < 0x1_0000 && qtype < 0x1_0000
    requires ValidLabels(labels) && |WireName(labels)| <= 255
    ensures var q := QueryBytes(id, labels, qtype);
            && ParseQuestion(q) == Ok(Question(Render(labels), qtype, CLASS_INET))
            && ParseHeader(q) == Ok(Header(id, false, 0, false, false, true, false, 0, 1, 0, 0, 0))
  {
    hide QuestionIn, WireName, Render;
    var q := QueryBytes(id, labels, qtype);
    var tail := BE16(qtype) + BE16(CLASS_INET);
    BuiltQuestion(labels, qtype);
    assert Body(q) == WireName(labels) + tail;
    assert q[0] == BE16(id)[0] && q[1] == BE16(id)[1];
  }

  lemma BuiltQuestion(labels: seq<Bytes>, qtype: nat)
    requires qtype < 0x1_0000
    requires ValidLabels(labels) && |WireName(labels)| <= 255
    ensures QuestionIn(WireName(labels) + (BE16(qtype) + BE16(CLASS_INET)))
            == Ok(Question(Render(labels), qtype, CLASS_INET))
  {
    hide ScanName, WireName, Render;
    var w, tail := WireName(labels), BE16(qtype) + BE16(CLASS_INET);
    ScanComplete(labels, tail, 0);
    TailWords(w, qtype, CLASS_INET);
  }

  lemma TailWords(w: Bytes, a: nat, b: nat)
    requires a < 0x1_0000 && b < 0x1_0000
    ensures var m := w + (BE16(a) + BE16(b)); U16(m, |w|) == a && U16(m, |w| + 2) == b
  {
  }

  ghost predicate Plain(c: Byte) { 33 <= c <= 126 && c != BACKSLASH }

  /** Gluing the split pieces back, each closed by a dot. */
  function JoinDots(labels: seq<Bytes>): Bytes {
    if labels == [] then [] else labels[0] + [DOT] + JoinDots(labels[1..])
  }

  lemma {:induction false} JoinSplit(name: Bytes)
    ensures JoinDots(Split(name)) == name + [DOT]
    ensures forall l :: l in Split(name) ==> DOT !in l
    decreases |name|
  {
    if name != [] {
      var rest := Split(name[1..]);
      JoinSplit(name[1..]);
      if name[0] == DOT {
        assert Split(name)[1..] == rest;
        assert JoinDots(Split(name)) == [] + [DOT] + (name[1..] + [DOT]);
      } else {
        assert Split(name)[1..] == rest[1..];
        assert JoinDots(Split(name)) == [name[0]] + (rest[0] + [DOT] + JoinDots(rest[1..]));
        assert rest[0] in rest;
        forall l | l in Split(name) ensures DOT !in l {
          if l != Split(name)[0] {
            assert l in rest[1..];
          }
        }
      }
      assert name + [DOT] == [name[0]] + (name[1..] + [DOT]);
    } else {
      assert Split(name)[1..] == [];
    }
  }

  /** Escaping is the identity exactly on plain bytes; anything else makes the text longer. */
  lemma {:induction false} EscapeLength(lab: Bytes)
    requires DOT !in lab
    ensures |EscapeLabel(lab)| >= |lab|
    ensures (forall c :: c in lab ==> Plain(c)) ==> EscapeLabel(lab) == lab
    ensures !(forall c :: c in lab ==> Plain(c)) ==> |EscapeLabel(lab)| > |lab|
    decreases |lab|
  {
    if lab != [] {
      var c, tail := lab[0], lab[1..];
      EscapeLength(tail);
      assert lab == [c] + tail;
      assert forall x :: x in lab <==> x == c || x in tail;
      if Plain(c) {
        assert EscapeByte(c) == [c];
      } else {
        assert c in lab && |EscapeByte(c)| >= 2;
      }
    }
  }

  lemma {:induction false} RenderLength(labels: seq<Bytes>)
    requires forall l :: l in labels ==> DOT !in l
    ensures |RenderLabels(labels)| >= |JoinDots(labels)|
    ensures (forall c :: c in JoinDots(labels) ==> c == DOT || Plain(c)) ==> RenderLabels(labels) == JoinDots(labels)
    ensures !(forall c :: c in JoinDots(labels) ==> c == DOT || Plain(c)) ==>
              |RenderLabels(labels)| > |JoinDots(labels)|
    decreases |labels|
  {
    if labels != [] {
      var l, rest := labels[0], labels[1..];
      RenderLength(rest);
      EscapeLength(l);
      assert forall c :: c in JoinDots(labels) <==> c in l || c == DOT || c in JoinDots(rest);
    }
  }

  /**
   The probe round trip.  For every accepted name, the parsed question carries the type and class
   IN, and its name is the fully qualified spelling exactly when every byte of the name is a
   printable non-blank other than the backslash.
   */
  lemma ProbeRoundTrip(id: nat, name: Bytes, qtype: nat)
    requires id < 0x1_0000 && qtype < 0x1_0000
    requires ValidLabels(LabelsOf(name)) && |WireName(LabelsOf(name))| <= 255
    ensures var q := ParseQuestion(QueryBytes(id, LabelsOf(name), qtype));
            && q.Ok? && q.value.qtype == qtype && q.value.qclass == CLASS_INET
            && DecodeName(q.value.name) == Some(LabelsOf(name))
            && (q.value.name == Fqdn(name) <==> forall c :: c in name ==> Plain(c))
  {
    var labels := LabelsOf(name);
    BuiltQueryParses(id, labels, qtype);
    DecodeRender(labels);
    RenderedSpelling(name);
  }

  /** The rendered labels spell the fully qualified name exactly when nothing needs an escape. */
  lemma RenderedSpelling(name: Bytes)
    ensures Render(LabelsOf(name)) == Fqdn(name) <==> forall c :: c in name ==> Plain(c)
  {
    hide RenderLabels, Split, JoinDots;
    if !IsRootName(name) {
      var t := TrimDot(name);
      JoinSplit(t);
      RenderLength(Split(t));
      assert Fqdn(name) == t + [DOT];
      assert forall c :: c in t + [DOT] <==> c in t || c == DOT;
      if exists c :: c in name && !Plain(c) {
        var c :| c in name && !Plain(c);
        assert c in t;
      }
    }
  }

  // ---------------------------------------------------------------- error responses

  /** A request nobody can answer in kind: too short, itself a response, or an unreadable question. */
  ghost predicate Unanswerable(req: Bytes) {
    || |req| < HEADER_LEN
    || req[2] >= 128
    || (U16(req, 4) > 0 && ParseQuestion(req).Err?)
  }

  /** Everything a synthetic error response to req must be. */
  ghost predicate IsErrorResponse(req: Bytes, rcode: nat, resp: Bytes)
    requires |req| >= HEADER_LEN
  {
    && HEADER_LEN <= |resp| <= |req|
    && resp[3] / 16 % 8 == 0
    && Body(resp) == req[HEADER_LEN..|resp|]
    && (var q := ParseHeader(req).value;
        && ParseHeader(resp).value ==
           Header(q.id, true, q.opcode, false, false, q.rd, true, rcode % 16, if q.qd > 0 then 1 else 0, 0, 0, 0)
        && (q.qd == 0 ==> |resp| == HEADER_LEN)
        && (q.qd > 0 ==> && ParseQuestion(resp).Ok?
                         && ParseQuestion(resp) == ParseQuestion(req)
                         && |Body(resp)| == QuestionLen(Body(resp))))
  }

  /** Builds the minimal response in a fresh buffer, or nothing when req is too malformed. */
  method ErrorResponse(req: Bytes, rcode: nat) returns (r: Option<Bytes>)
    ensures r.None? <==> Unanswerable(req)
    ensures r.Some? ==> IsErrorResponse(req, rcode, r.value)
  {
    hide ParseQuestion, QuestionIn, QuestionLen, IsErrorResponse;
    var parsed := ParseHeader(req);
    if parsed.Err? || parsed.value.qr {
      return None;
    }
    var end := EchoEnd(req);
    if end.None? {
      return None;
    }
    var resp := Echo(req, end.value, rcode);
    EchoedResponse(req, rcode, resp);
    return Some(resp);
  }

  /** How much of the request is echoed: its header and, when it has one, its first question. */
  method EchoEnd(req: Bytes) returns (end: Option<nat>)
    requires |req| >= HEADER_LEN
    ensures end.None? <==> U16(req, 4) > 0 && ParseQuestion(req).Err?
    ensures end.Some? ==> HEADER_LEN <= end.value <= |req|
    ensures end.Some? && U16(req, 4) == 0 ==> end.value == HEADER_LEN
    ensures end.Some? && U16(req, 4) > 0 ==>
              QuestionIn(Body(req)).Ok? && end.value == HEADER_LEN + QuestionLen(Body(req))
  {
    hide ScanName, Render;
    if U16(req, 4) > 0 {
      var n := ParseName(req, HEADER_LEN);
      if n.Err? || n.value.1 + 4 > |req| {
        return None;
      }
      return Some(n.value.1 + 4);
    }
    return Some(HEADER_LEN);
  }

  /** Copies a prefix of the request into a fresh buffer and rewrites its flags and counts in place. */
  method Echo(req: Bytes, end: nat, rcode: nat) returns (r: Bytes)
    requires HEADER_LEN <= end <= |req| && req[2] < 128
    ensures |r| == end && r[0] == req[0] && r[1] == req[1]
    ensures r[2] == 128 + req[2] / 8 % 16 * 8 + req[2] % 2 && r[3] == 128 + rcode % 16
    ensures r[4] == 0 && r[5] == (if U16(req, 4) > 0 then 1 else 0)
    ensures forall i :: 6 <= i < HEADER_LEN ==> r[i] == 0
    ensures forall i :: HEADER_LEN <= i < end ==> r[i] == req[i]
  {
    var hi: int := req[2];
    var resp := new Byte[end](i requires 0 <= i < end => req[i]);
    var flags := 0x8000 + 0x0080 + rcode % 16 + hi / 8 % 16 * 0x0800 + if hi % 2 == 1 then 0x0100 else 0;
    FlagBytes(hi, rcode, flags);
    resp[2], resp[3] := flags / 256, flags % 256;
    resp[4], resp[5] := 0, if U16(req, 4) > 0 then 1 else 0;
    resp[6], resp[7] := 0, 0;
    resp[8], resp[9] := 0, 0;
    resp[10], resp[11] := 0, 0;
    r := resp[..];
  }

  lemma FlagBytes(hi: int, rcode: nat, flags: int)
    requires 0 <= hi < 128
    requires flags == 0x8000 + 0x0080 + rcode % 16 + hi / 8 % 16 * 0x0800 + if hi % 2 == 1 then 0x0100 else 0
    ensures flags / 256 == 128 + hi / 8 % 16 * 8 + hi % 2 && flags % 256 == 128 + rcode % 16
  {
  }

  /** The response differs from the echoed prefix of the request only in its flags and counts. */
  lemma EchoedResponse(req: Bytes, rcode: nat, resp: Bytes)
    requires HEADER_LEN <= |resp| <= |req| && req[2] < 128
    requires resp[0] == req[0] && resp[1] == req[1]
    requires resp[2] == 128 + req[2] / 8 % 16 * 8 + req[2] % 2
    requires resp[3] == 128 + rcode % 16
    requires resp[4] == 0 && resp[5] == (if U16(req, 4) > 0 then 1 else 0)
    requires forall i :: 6 <= i < HEADER_LEN ==> resp[i] == 0
    requires forall i :: HEADER_LEN <= i < |resp| ==> resp[i] == req[i]
    requires U16(req, 4) == 0 ==> |resp| == HEADER_LEN
    requires U16(req, 4) > 0 ==> QuestionIn(Body(req)).Ok? && |resp| == HEADER_LEN + QuestionLen(Body(req))
    ensures IsErrorResponse(req, rcode, resp)
  {
    hide QuestionIn, ScanName;
    assert Body(resp) == req[HEADER_LEN..|resp|];
    if U16(req, 4) > 0 {
      var n := QuestionLen(Body(req));
      assert Body(resp)[..n] == Body(req)[..n];
      QuestionExtension(Body(req), Body(resp));
    }
  }
}
