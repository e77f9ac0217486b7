/**
 Key paths of layered proofs (crypto/merkle/proof_key_path.go): each key is written as a path
 segment, percent-encoded (section 2.1 of RFC 3986) or in hexadecimal after the mark "x:".
 */
module KeyPath {
  import opened Prelude

  const SLASH: byte := 47
  const PERCENT: byte := 37
  const COLON: byte := 58
  const LETTER_X: byte := 120

  datatype Encoding = URL | Hex

  datatype Key = Key(name: Bytes, enc: Encoding)

  // ----- Hexadecimal digits

  function UpperHex(v: int): byte
    requires 0 <= v < 16
  {
    if v < 10 then (48 + v) as byte else (55 + v) as byte
  }

  function FromHex(b: byte): Option<int> {
    if 48 <= b <= 57 then Some(b as int - 48)
    else if 97 <= b <= 102 then Some(b as int - 87)
    else if 65 <= b <= 70 then Some(b as int - 55)
    else None
  }

  /** The byte written as two hexadecimal digits, if they are digits. */
  function FromHexPair(high: byte, low: byte): Option<byte> {
    match (FromHex(high), FromHex(low))
    case (Some(h), Some(l)) => Some((16 * h + l) as byte)
    case _ => None
  }

  function HexPair(b: byte): (r: Bytes)
    ensures |r| == 2 && SLASH !in r && FromHexPair(r[0], r[1]) == Some(b)
  {
    [UpperHex(b as int / 16), UpperHex(b as int % 16)]
  }

  function HexEncode(s: Bytes): Bytes {
    if s == [] then [] else HexPair(s[0]) + HexEncode(s[1..])
  }

  function HexDecode(s: Bytes): Option<Bytes> {
    if s == [] then Some([])
    else if |s| == 1 then None
    else
      match (FromHexPair(s[0], s[1]), HexDecode(s[2..]))
      case (Some(b), Some(rest)) => Some([b] + rest)
      case _ => None
  }

  // ----- Percent-encoding of a path segment

  predicate IsUnreserved(b: byte) {
    48 <= b <= 57 || 65 <= b <= 90 || 97 <= b <= 122 || b in [45, 46, 95, 126]  // - . _ ~
  }

  predicate ShouldEscape(b: byte) {
    !IsUnreserved(b) && b !in [36, 38, 43, 58, 61, 64]  // $ & + : = @
  }

  function PathEscape(s: Bytes): Bytes {
    if s == [] then []
    else (if ShouldEscape(s[0]) then [PERCENT] + HexPair(s[0]) else [s[0]]) + PathEscape(s[1..])
  }

  function PathUnescape(s: Bytes): Option<Bytes> {
    if s == [] then Some([])
    else if s[0] != PERCENT then
      match PathUnescape(s[1..])
      case None => None
      case Some(rest) => Some([s[0]] + rest)
    else if |s| < 3 then None
    else
      match (FromHexPair(s[1], s[2]), PathUnescape(s[3..]))
      case (Some(b), Some(rest)) => Some([b] + rest)
      case _ => None
  }

  // ----- Key paths

  predicate HasHexMark(s: Bytes) {
    |s| >= 2 && s[0] == LETTER_X && s[1] == COLON
  }

  function EncodeKey(k: Key): Bytes {
    match k.enc
    case URL => PathEscape(k.name)
    case Hex => [LETTER_X, COLON] + HexEncode(k.name)
  }

  function ToText(path: seq<Key>): Bytes {
    if path == [] then [] else [SLASH] + EncodeKey(path[0]) + ToText(path[1..])
  }

  /** The parts between the slashes of a text. */
  function Split(s: Bytes): (parts: seq<Bytes>)
    ensures |parts| >= 1
  {
    if s == [] then [[]]
    else
      var rest := Split(s[1..]);
      if s[0] == SLASH then [[]] + rest else [[s[0]] + rest[0]] + rest[1..]
  }

  function DecodePart(part: Bytes): Option<Bytes> {
    if HasHexMark(part) then HexDecode(part[2..]) else PathUnescape(part)
  }

  function DecodeParts(parts: seq<Bytes>): Option<seq<Bytes>> {
    if parts == [] then Some([])
    else
      match (DecodePart(parts[0]), DecodeParts(parts[1..]))
      case (Some(key), Some(rest)) => Some([key] + rest)
      case _ => None
  }

  function FromText(text: Bytes): Option<seq<Bytes>> {
    if text == [] || text[0] != SLASH then None else DecodeParts(Split(text[1..]))
  }

  function Names(path: seq<Key>): (r: seq<Bytes>)
    ensures |r| == |path| && forall i :: 0 <= i < |path| ==> r[i] == path[i].name
  {
    seq(|path|, i requires 0 <= i < |path| => path[i].name)
  }

  // ----- The loops of the source

  lemma {:induction false} ToTextAppend(path: seq<Key>, k: Key)
    ensures ToText(path + [k]) == ToText(path) + ([SLASH] + EncodeKey(k))
    decreases |path|
  {
    if path == [] {
      assert ([k])[1..] == [];
      assert path + [k] == [k];
    } else {
      assert (path + [k])[1..] == path[1..] + [k];
      ToTextAppend(path[1..], k);
    }
  }

  method WritePath(path: seq<Key>) returns (res: Bytes)
    ensures res == ToText(path)
  {
    res := [];
    for i := 0 to |path|
      invariant res == ToText(path[..i])
    {
      assert path[..i + 1] == path[..i] + [path[i]];
      ToTextAppend(path[..i], path[i]);
      match path[i].enc {
        case URL =>
          res := res + ([SLASH] + PathEscape(path[i].name));
        case Hex =>
          assert [SLASH] + EncodeKey(path[i]) == [SLASH, LETTER_X, COLON] + HexEncode(path[i].name);
          res := res + ([SLASH, LETTER_X, COLON] + HexEncode(path[i].name));
      }
    }
    assert path[..|path|] == path;
  }

  /** Decoding is part by part: it yields these keys when each part yields its own. */
  lemma {:induction false} DecodedPartByPart(parts: seq<Bytes>, keys: seq<Bytes>)
    ensures DecodeParts(parts) == Some(keys) <==>
            |keys| == |parts| && forall i :: 0 <= i < |parts| ==> DecodePart(parts[i]) == Some(keys[i])
    decreases |parts|
  {
    if parts != [] {
      if keys != [] {
        DecodedPartByPart(parts[1..], keys[1..]);
        assert keys == [keys[0]] + keys[1..];
        if DecodeParts(parts) == Some(keys) {
          assert keys[1..] == DecodeParts(parts[1..]).value;
        }
      }
    }
  }

  lemma {:induction false} BadPartSpoilsAll(parts: seq<Bytes>, i: nat)
    requires i < |parts| && DecodePart(parts[i]).None?
    ensures DecodeParts(parts).None?
  {
    if DecodeParts(parts).Some? {
      DecodedPartByPart(parts, DecodeParts(parts).value);
      assert false;
    }
  }

  method ReadPath(text: Bytes) returns (keys: Option<seq<Bytes>>)
    ensures keys == FromText(text)
  {
    if text == [] || text[0] != SLASH {
      return None;
    }
    var parts := Split(text[1..]);
    var decoded := [];
    for i := 0 to |parts|
      invariant |decoded| == i && forall j :: 0 <= j < i ==> DecodePart(parts[j]) == Some(decoded[j])
    {
      match DecodePart(parts[i]) {
        case None =>
          BadPartSpoilsAll(parts, i);
          return None;
        case Some(key) =>
          decoded := decoded + [key];
      }
    }
    DecodedPartByPart(parts, decoded);
    return Some(decoded);
  }

  // ----- What is written and what is read

  const DIGITS := "0123456789ABCDEF"
  const LOWER_DIGITS := "0123456789abcdef"
  const MARKS := "-._~$&+:=@"

  /** This byte is this character. */
  ghost predicate Is(b: byte, c: char) {
    b as int == c as int
  }

  lemma {:induction false} DigitsWritten(v: int)
    requires 0 <= v < 16
    ensures |DIGITS| == 16 && Is(UpperHex(v), DIGITS[v])
  {
  }

  /** A digit is read in both cases, and nothing else is. */
  lemma {:induction false} DigitsRead(b: byte, v: int)
    ensures |DIGITS| == |LOWER_DIGITS| == 16
    ensures FromHex(b) == Some(v) <==> 0 <= v < 16 && (Is(b, DIGITS[v]) || Is(b, LOWER_DIGITS[v]))
  {
  }

  /** A byte is written as its upper and its lower half, in this order. */
  ghost predicate SpeltAt(text: Bytes, i: int, b: byte) {
    0 <= i < |text| - 1 && Is(text[i], DIGITS[b as int / 16]) && Is(text[i + 1], DIGITS[b as int % 16])
  }

  lemma {:induction false} PairSpelt(b: byte)
    ensures SpeltAt(HexPair(b), 0, b)
  {
    DigitsWritten(b as int / 16);
    DigitsWritten(b as int % 16);
  }

  /** Hexadecimal text has the two digits of each byte at its place. */
  lemma {:induction false} HexSpelt(s: Bytes, i: nat)
    requires i < |s|
    ensures |HexEncode(s)| == 2 * |s| && SpeltAt(HexEncode(s), 2 * i, s[i])
    decreases |s|
  {
    hide HexPair;
    PairSpelt(s[0]);
    if |s| == 1 {
      assert HexEncode(s[1..]) == [];
      assert HexEncode(s) == HexPair(s[0]) + [];
    } else {
      HexSpelt(s[1..], if i == 0 then 0 else i - 1);
      assert HexEncode(s) == HexPair(s[0]) + HexEncode(s[1..]);
      if i > 0 {
        assert HexEncode(s)[2 * i] == HexEncode(s[1..])[2 * (i - 1)];
        assert HexEncode(s)[2 * i + 1] == HexEncode(s[1..])[2 * (i - 1) + 1];
      }
    }
  }

  /** The number that digits of a base write, the most significant first. */
  ghost function Number(base: nat, digits: seq<int>): int {
    if digits == [] then 0 else Number(base, digits[..|digits| - 1]) * base + digits[|digits| - 1]
  }

  ghost function Values(s: Bytes): seq<int> {
    seq(|s|, i requires 0 <= i < |s| => s[i] as int)
  }

  ghost function DigitValues(s: Bytes): seq<int> {
    seq(|s|, i requires 0 <= i < |s| => if FromHex(s[i]).Some? then FromHex(s[i]).value else 0)
  }

  lemma {:induction false} NumberAppend(base: nat, digits: seq<int>, d: int)
    ensures Number(base, digits + [d]) == Number(base, digits) * base + d
  {
    assert (digits + [d])[..|digits|] == digits;
  }

  lemma {:induction false} HexEncodeAppend(s: Bytes, b: byte)
    ensures HexEncode(s + [b]) == HexEncode(s) + HexPair(b)
    decreases |s|
  {
    hide HexPair;
    if s == [] {
      assert s + [b] == [b] && [b][1..] == [] && HexPair(b) + [] == HexPair(b) && [] + HexPair(b) == HexPair(b);
    } else {
      assert (s + [b])[1..] == s[1..] + [b];
      HexEncodeAppend(s[1..], b);
      assert HexPair(s[0]) + (HexEncode(s[1..]) + HexPair(b)) == HexPair(s[0]) + HexEncode(s[1..]) + HexPair(b);
    }
  }

  /** The digits that are written for some bytes write the number that the bytes do. */
  lemma {:induction false} HexNumber(s: Bytes)
    ensures Number(16, DigitValues(HexEncode(s))) == Number(256, Values(s))
    decreases |s|
  {
    if s != [] {
      var front, b := s[..|s| - 1], s[|s| - 1];
      assert s == front + [b];
      HexNumber(front);
      HexEncodeAppend(front, b);
      PairValues(b);
      hide HexEncode, HexPair, FromHex, Number;
      var pair := DigitValues(HexPair(b));
      assert DigitValues(HexEncode(s)) == DigitValues(HexEncode(front)) + [pair[0]] + [pair[1]];
      NumberAppend(16, DigitValues(HexEncode(front)), pair[0]);
      NumberAppend(16, DigitValues(HexEncode(front)) + [pair[0]], pair[1]);
      assert Values(s) == Values(front) + [b as int];
      NumberAppend(256, Values(front), b as int);
    }
  }

  lemma {:induction false} PairValues(b: byte)
    ensures var pair := DigitValues(HexPair(b)); |pair| == 2 && 16 * pair[0] + pair[1] == b as int
  {
  }

  /** Two digits read as a byte. */
  ghost predicate ReadAt(text: Bytes, i: int, b: byte) {
    && 0 <= i < |text| - 1 && FromHex(text[i]).Some? && FromHex(text[i + 1]).Some?
    && 16 * FromHex(text[i]).value + FromHex(text[i + 1]).value == b as int
  }

  /** Hexadecimal text is read as these bytes exactly if it has two digits for each, in their places. */
  lemma {:induction false} HexReadIff(text: Bytes, s: Bytes)
    ensures HexDecode(text) == Some(s) <==> |text| == 2 * |s| && forall i :: 0 <= i < |s| ==> ReadAt(text, 2 * i, s[i])
    decreases |text|
  {
    if |text| >= 2 && s != [] {
      HexReadIff(text[2..], s[1..]);
      assert s == [s[0]] + s[1..];
      assert FromHexPair(text[0], text[1]) == Some(s[0]) <==> ReadAt(text, 0, s[0]);
      ShiftedRead(text, s);
      if HexDecode(text) == Some(s) {
        assert HexDecode(text[2..]).value == s[1..];
      }
    }
  }

  lemma {:induction false} ShiftedRead(text: Bytes, s: Bytes)
    requires |text| >= 2 && s != []
    ensures (forall i :: 0 <= i < |s| ==> ReadAt(text, 2 * i, s[i])) <==>
            ReadAt(text, 0, s[0]) && forall i :: 0 <= i < |s[1..]| ==> ReadAt(text[2..], 2 * i, s[1..][i])
  {
    hide FromHex;
    forall i | 0 <= i < |s| - 1
      ensures ReadAt(text[2..], 2 * i, s[1..][i]) <==> ReadAt(text, 2 * (i + 1), s[i + 1])
    {
    }
    if ReadAt(text, 0, s[0]) && forall i :: 0 <= i < |s[1..]| ==> ReadAt(text[2..], 2 * i, s[1..][i]) {
      forall i | 0 <= i < |s|
        ensures ReadAt(text, 2 * i, s[i])
      {
        if i > 0 {
          assert ReadAt(text[2..], 2 * (i - 1), s[1..][i - 1]);
        }
      }
    } else if forall i :: 0 <= i < |s| ==> ReadAt(text, 2 * i, s[i]) {
      assert ReadAt(text, 2 * 0, s[0]);
      forall i | 0 <= i < |s[1..]|
        ensures ReadAt(text[2..], 2 * i, s[1..][i])
      {
        assert ReadAt(text, 2 * (i + 1), s[i + 1]);
      }
    }
  }

  /** Percent-encoding is byte by byte. */
  lemma {:induction false} EscapeAppend(a: Bytes, b: Bytes)
    ensures PathEscape(a + b) == PathEscape(a) + PathEscape(b)
    decreases |a|
  {
    if a == [] {
      assert a + b == b;
    } else {
      assert (a + b)[1..] == a[1..] + b;
      EscapeAppend(a[1..], b);
      hide HexPair, ShouldEscape;
    }
  }

  /** Letters, digits and some marks. */
  ghost predicate IsPlain(b: byte) {
    || 'A' as int <= b as int <= 'Z' as int || 'a' as int <= b as int <= 'z' as int || '0' as int <= b as int <= '9' as int
    || exists i :: 0 <= i < |MARKS| && Is(b, MARKS[i])
  }

  /** Exactly these are left as they are; any other byte is its two digits after a percent sign. */
  lemma {:induction false} EscapeOne(b: byte)
    ensures var text := PathEscape([b]);
            if IsPlain(b) then text == [b] else |text| == 3 && Is(text[0], '%') && SpeltAt(text, 1, b)
  {
    PairSpelt(b);
    PlainBytes(b);
    assert [b][1..] == [] && PathEscape([]) == [];
    hide HexPair, ShouldEscape;
    var one := if ShouldEscape(b) then [PERCENT] + HexPair(b) else [b];
    assert PathEscape([b]) == one + [] == one;
  }

  lemma {:induction false} PlainBytes(b: byte)
    ensures ShouldEscape(b) <==> !IsPlain(b)
  {
    if b in [45, 46, 95, 126, 36, 38, 43, 58, 61, 64] {
      var i := if b == 45 then 0 else if b == 46 then 1 else if b == 95 then 2 else if b == 126 then 3 else if b == 36 then 4
               else if b == 38 then 5 else if b == 43 then 6 else if b == 58 then 7 else if b == 61 then 8 else 9;
      assert Is(b, MARKS[i]);
    }
  }

  /** The text of a path is a slash and a part for each key: the name in percent-encoding, or in digits after a mark. */
  lemma {:induction false} KeyText(k: Key, path: seq<Key>)
    ensures var (text, rest) := (ToText([k] + path), ToText(path));
            match k.enc
            case URL => |text| >= 1 && Is(text[0], '/') && text[1..] == PathEscape(k.name) + rest
            case Hex => && |text| >= 3 && Is(text[0], '/') && Is(text[1], 'x') && Is(text[2], ':')
                        && text[3..] == HexEncode(k.name) + rest
  {
    hide HexEncode, PathEscape, ToText;
    TextStep(k, path);
    var text := ToText([k] + path);
    if k.enc.Hex? {
      assert text == [SLASH, LETTER_X, COLON] + (HexEncode(k.name) + ToText(path));
    }
  }

  lemma {:induction false} TextStep(k: Key, path: seq<Key>)
    ensures ToText([k] + path) == [SLASH] + (EncodeKey(k) + ToText(path))
  {
    hide EncodeKey;
    assert ([k] + path)[1..] == path;
  }

  /** A text spells these bytes: each is itself, but not a percent sign, or a percent sign and two digits. */
  ghost predicate Spells(text: Bytes, s: Bytes)
    decreases |s|
  {
    if s == [] then text == []
    else
      || (|text| >= 1 && text[0] == s[0] != PERCENT && Spells(text[1..], s[1..]))
      || (|text| >= 3 && text[0] == PERCENT && ReadAt(text, 1, s[0]) && Spells(text[3..], s[1..]))
  }

  lemma {:induction false} UnescapeIff(text: Bytes, s: Bytes)
    ensures PathUnescape(text) == Some(s) <==> Spells(text, s)
    decreases |text|
  {
    if text != [] {
      hide FromHex;
      if text[0] != PERCENT {
        UnescapeIff(text[1..], if s == [] then [] else s[1..]);
      } else if |text| >= 3 {
        UnescapeIff(text[3..], if s == [] then [] else s[1..]);
      }
      if s != [] {
        assert s == [s[0]] + s[1..];
        PairRead(text, s[0]);
        if PathUnescape(text) == Some(s) {
          UnescapedRest(text, s);
        }
      }
    }
  }

  lemma {:induction false} PairRead(text: Bytes, b: byte)
    ensures |text| >= 3 ==> (FromHexPair(text[1], text[2]) == Some(b) <==> ReadAt(text, 1, b))
  {
  }

  lemma {:induction false} UnescapedRest(text: Bytes, s: Bytes)
    requires text != [] && s != [] && PathUnescape(text) == Some(s)
    ensures text[0] != PERCENT ==> s[0] == text[0] && PathUnescape(text[1..]) == Some(s[1..])
    ensures text[0] == PERCENT ==>
              |text| >= 3 && FromHexPair(text[1], text[2]) == Some(s[0]) && PathUnescape(text[3..]) == Some(s[1..])
  {
    hide FromHexPair;
    if text[0] != PERCENT {
      assert PathUnescape(text[1..]).value == s[1..];
    } else {
      assert PathUnescape(text[3..]).value == s[1..];
    }
  }

  // ----- Round trips

  lemma {:induction false} HexRoundTrip(s: Bytes)
    ensures HexDecode(HexEncode(s)) == Some(s)
    decreases |s|
  {
    if s != [] {
      HexRoundTrip(s[1..]);
      var e, pair, rest := HexEncode(s), HexPair(s[0]), HexEncode(s[1..]);
      assert e == pair + rest;
      assert e[0] == pair[0] && e[1] == pair[1] && e[2..] == rest;
      assert s == [s[0]] + s[1..];
    }
  }

  lemma {:induction false} PlainByte(b: byte, rest: Bytes)
    requires !ShouldEscape(b)
    ensures PathEscape([b] + rest) == [b] + PathEscape(rest)
  {
    assert ([b] + rest)[1..] == rest;
  }

  lemma {:induction false} DigitsArePlain(b: byte, rest: Bytes)
    ensures PathEscape(HexPair(b) + rest) == HexPair(b) + PathEscape(rest)
  {
    var pair := HexPair(b);
    assert !ShouldEscape(pair[0]) && !ShouldEscape(pair[1]);
    hide PathEscape, ShouldEscape, HexPair;
    PlainByte(pair[0], [pair[1]] + rest);
    PlainByte(pair[1], rest);
    assert pair + rest == [pair[0]] + ([pair[1]] + rest);
    assert pair + PathEscape(rest) == [pair[0]] + ([pair[1]] + PathEscape(rest));
  }

  lemma {:induction false} HexIsPlain(s: Bytes)
    ensures SLASH !in HexEncode(s) && PathEscape(HexEncode(s)) == HexEncode(s)
    decreases |s|
  {
    if s != [] {
      hide PathEscape, HexPair;
      HexIsPlain(s[1..]);
      DigitsArePlain(s[0], HexEncode(s[1..]));
    }
  }

  lemma {:induction false} EscapeRoundTrip(s: Bytes)
    ensures PathUnescape(PathEscape(s)) == Some(s) && SLASH !in PathEscape(s)
    decreases |s|
  {
    if s != [] {
      EscapeRoundTrip(s[1..]);
      var e := PathEscape(s);
      assert s == [s[0]] + s[1..];
      if ShouldEscape(s[0]) {
        assert e[..3] == [PERCENT] + HexPair(s[0]);
        assert e[3..] == PathEscape(s[1..]);
      } else {
        assert e[0] == s[0] && e[1..] == PathEscape(s[1..]);
      }
    }
  }

  /** Neither letter of the mark is escaped, and an escape starts with neither. */
  lemma {:induction false} EscapeKeepsHexMark(s: Bytes)
    ensures HasHexMark(PathEscape(s)) <==> HasHexMark(s)
    ensures HasHexMark(s) ==> PathEscape(s)[2..] == PathEscape(s[2..])
  {
    if |s| >= 2 {
      var e1, e2 := PathEscape(s[1..]), PathEscape(s[2..]);
      assert s[1..][1..] == s[2..];
      assert PathEscape(s)[0] == s[0] || PathEscape(s)[0] == PERCENT;
      if s[0] == LETTER_X {
        assert PathEscape(s) == [LETTER_X] + e1;
        assert e1[0] == s[1] || e1[0] == PERCENT;
        if s[1] == COLON {
          assert e1 == [COLON] + e2;
        }
      }
    } else if |s| == 1 {
      assert PathEscape(s[1..]) == [];
    }
  }

  /** What hexadecimal decoding accepts holds no percent sign, and halves in length. */
  lemma {:induction false} HexDecodeHalves(s: Bytes)
    requires HexDecode(s).Some?
    ensures PERCENT !in s && |s| == 2 * |HexDecode(s).value|
    decreases |s|
  {
    if s != [] {
      HexDecodeHalves(s[2..]);
      assert s == [s[0], s[1]] + s[2..];
    }
  }

  lemma {:induction false} UnescapedLength(s: Bytes)
    requires PERCENT !in PathEscape(s)
    ensures |PathEscape(s)| == |s|
    decreases |s|
  {
    if s != [] {
      assert PathEscape(s) == [s[0]] + PathEscape(s[1..]);
      UnescapedLength(s[1..]);
    }
  }

  /** A part decodes to its key unless it is a percent-encoded name that starts with the mark. */
  lemma {:induction false} PartRoundTrip(k: Key)
    ensures SLASH !in EncodeKey(k)
    ensures DecodePart(EncodeKey(k)) == Some(k.name) <==> !(k.enc.URL? && HasHexMark(k.name))
  {
    var part := EncodeKey(k);
    match k.enc {
      case Hex =>
        HexRoundTrip(k.name);
        HexIsPlain(k.name);
        assert part[2..] == HexEncode(k.name);
      case URL =>
        EscapeRoundTrip(k.name);
        EscapeKeepsHexMark(k.name);
        if HasHexMark(k.name) && HexDecode(part[2..]) == Some(k.name) {
          HexDecodeHalves(part[2..]);
          UnescapedLength(k.name[2..]);
          assert false;
        }
    }
  }

  lemma {:induction false} SplitAtSlash(part: Bytes, rest: Bytes)
    requires SLASH !in part
    ensures Split(part) == [part]
    ensures Split(part + [SLASH] + rest) == [part] + Split(rest)
    decreases |part|
  {
    if part == [] {
      assert part + [SLASH] + rest == [SLASH] + rest;
    } else {
      SplitAtSlash(part[1..], rest);
      assert (part + [SLASH] + rest)[1..] == part[1..] + [SLASH] + rest;
      assert [part[0]] + part[1..] == part;
    }
  }

  function Parts(path: seq<Key>): (r: seq<Bytes>)
    ensures |r| == |path| && forall i :: 0 <= i < |path| ==> r[i] == EncodeKey(path[i])
  {
    seq(|path|, i requires 0 <= i < |path| => EncodeKey(path[i]))
  }

  lemma {:induction false} TextSteps(path: seq<Key>)
    requires path != []
    ensures ToText(path) == [SLASH] + (EncodeKey(path[0]) + ToText(path[1..]))
    ensures Parts(path) == [EncodeKey(path[0])] + Parts(path[1..])
    ensures |path| == 1 ==> ToText(path[1..]) == [] && Parts(path[1..]) == []
  {
    hide EncodeKey;
  }

  lemma {:induction false} TextSplits(path: seq<Key>)
    requires path != []
    ensures ToText(path) != [] && ToText(path)[0] == SLASH
    ensures Split(ToText(path)[1..]) == Parts(path)
    decreases |path|
  {
    hide Split, EncodeKey, DecodePart, ToText, Parts;
    var part, tail := EncodeKey(path[0]), path[1..];
    TextSteps(path);
    PartRoundTrip(path[0]);
    if tail == [] {
      assert part + [] == part && [part] + [] == [part];
      SplitAtSlash(part, []);
    } else {
      TextSplits(tail);
      var rest := ToText(tail)[1..];
      assert part + ToText(tail) == part + [SLASH] + rest;
      SplitAtSlash(part, rest);
    }
  }

  /** The keys come back, byte for byte and in order, in exactly these cases. */
  lemma {:induction false} RoundTrip(path: seq<Key>)
    ensures FromText(ToText(path)) == Some(Names(path)) <==>
            path != [] && forall i :: 0 <= i < |path| && path[i].enc.URL? ==> !HasHexMark(path[i].name)
  {
    if path != [] {
      TextSplits(path);
      DecodedPartByPart(Parts(path), Names(path));
      forall i | 0 <= i < |path|
        ensures DecodePart(Parts(path)[i]) == Some(Names(path)[i]) <==>
                !(path[i].enc.URL? && HasHexMark(path[i].name))
      {
        PartRoundTrip(path[i]);
      }
    }
  }

  /** The case that fails, at its plainest: a percent-encoded name of this form comes back as other bytes. */
  lemma {:induction false} MarkedNameIsMisread(bytes: Bytes)
    ensures FromText(ToText([Key([LETTER_X, COLON] + HexEncode(bytes), URL)])) == Some([bytes])
  {
    var name := [LETTER_X, COLON] + HexEncode(bytes);
    var path := [Key(name, URL)];
    TextSplits(path);
    EscapeKeepsHexMark(name);
    HexIsPlain(bytes);
    HexRoundTrip(bytes);
    assert name[2..] == HexEncode(bytes);
    DecodedPartByPart(Parts(path), [bytes]);
  }
}
