/**
 * The standard base64 encoding of section 4 of RFC 4648, as Go's
 * base64.StdEncoding has it: padded with '=', carriage returns and line feeds
 * in the input are skipped by the decoder, and the unused low bits of a final
 * quantum are not required to be zero.
 */
module Base64 {
  import opened Wrappers
  import opened Strings

  /** The character for a 6-bit value (Table 1 of RFC 4648). */
  function Letter(x: int): (c: char)
    requires 0 <= x < 64
    ensures c != '=' && c != '\r' && c != '\n'
  {
    if x < 26 then (x + 'A' as int) as char
    else if x < 52 then (x - 26 + 'a' as int) as char
    else if x < 62 then (x - 52 + '0' as int) as char
    else if x == 62 then '+'
    else '/'
  }

  /** The 6-bit value of an alphabet character; None for any other character. */
  function Value(c: char): (r: Option<int>)
    ensures r.Some? ==> 0 <= r.value < 64 && Letter(r.value) == c
  {
    if 'A' <= c <= 'Z' then Some(c as int - 'A' as int)
    else if 'a' <= c <= 'z' then Some(c as int - 'a' as int + 26)
    else if '0' <= c <= '9' then Some(c as int - '0' as int + 52)
    else if c == '+' then Some(62)
    else if c == '/' then Some(63)
    else None
  }

  predicate InAlphabet(c: char) {
    Value(c).Some?
  }

  lemma ValueOfLetter(x: int)
    requires 0 <= x < 64
    ensures Value(Letter(x)) == Some(x)
  {
  }

  /** Three bytes as four characters. */
  function EncodeQuantum(b0: byte, b1: byte, b2: byte): string {
    [Letter(Hi0(b0)), Letter(Mid1(b0, b1)), Letter(Mid2(b1, b2)), Letter(Lo3(b2))]
  }

  /** The four 6-bit groups of the 24 bits b0 b1 b2, most significant first. */
  function Hi0(b0: byte): (x: int) ensures 0 <= x < 64 { b0 as int / 4 }
  function Mid1(b0: byte, b1: byte): (x: int) ensures 0 <= x < 64 { (b0 as int % 4) * 16 + b1 as int / 16 }
  function Mid2(b1: byte, b2: byte): (x: int) ensures 0 <= x < 64 { (b1 as int % 16) * 4 + b2 as int / 64 }
  function Lo3(b2: byte): (x: int) ensures 0 <= x < 64 { b2 as int % 64 }

  /** Four 6-bit values as three bytes (the bits of c0 c1 c2 c3 regrouped by eight). */
  function Join(c0: int, c1: int, c2: int, c3: int): seq<byte>
    requires 0 <= c0 < 64 && 0 <= c1 < 64 && 0 <= c2 < 64 && 0 <= c3 < 64
  {
    [(c0 * 4 + c1 / 16) as byte, ((c1 % 16) * 16 + c2 / 4) as byte, ((c2 % 4) * 64 + c3) as byte]
  }

  /** base64.StdEncoding.EncodeToString. */
  function Encode(b: seq<byte>): (s: string)
    ensures |s| % 4 == 0 && (|s| == 0 <==> |b| == 0)
    decreases |b|
  {
    if |b| == 0 then ""
    else if |b| == 1 then [Letter(Hi0(b[0])), Letter(Mid1(b[0], 0)), '=', '=']
    else if |b| == 2 then [Letter(Hi0(b[0])), Letter(Mid1(b[0], b[1])), Letter(Mid2(b[1], 0)), '=']
    else EncodeQuantum(b[0], b[1], b[2]) + Encode(b[3..])
  }

  /** The input with every '\r' and '\n' removed: the decoder skips them wherever they are. */
  function StripNewlines(s: string): (r: string)
    ensures |r| <= |s|
    ensures forall i | 0 <= i < |r| :: r[i] != '\r' && r[i] != '\n'
  {
    if s == [] then []
    else if s[0] == '\r' || s[0] == '\n' then StripNewlines(s[1..])
    else [s[0]] + StripNewlines(s[1..])
  }

  /** A quantum that is not the last one: four alphabet characters. */
  function DecodeFull(a: char, b: char, c: char, d: char): Option<seq<byte>> {
    match (Value(a), Value(b), Value(c), Value(d))
    case (Some(x0), Some(x1), Some(x2), Some(x3)) => Some(Join(x0, x1, x2, x3))
    case _ => None
  }

  /** The last quantum, which may end in "==" (one byte) or "=" (two bytes). */
  function DecodeFinal(a: char, b: char, c: char, d: char): Option<seq<byte>> {
    match (Value(a), Value(b))
    case (Some(x0), Some(x1)) =>
      if c == '=' && d == '=' then Some(Join(x0, x1, 0, 0)[..1])
      else if Value(c).Some? && d == '=' then Some(Join(x0, x1, Value(c).value, 0)[..2])
      else DecodeFull(a, b, c, d)
    case _ => None
  }

  /** Decoding of newline-free input: whole quanta only, padding only in the last one. */
  function DecodeQuanta(s: string): Option<seq<byte>>
    decreases |s|
  {
    if |s| == 0 then Some([])
    else if |s| < 4 then None
    else if |s| == 4 then DecodeFinal(s[0], s[1], s[2], s[3])
    else match DecodeFull(s[0], s[1], s[2], s[3])
      case None => None
      case Some(q) =>
        match DecodeQuanta(s[4..])
        case None => None
        case Some(rest) => Some(q + rest)
  }

  /** base64.StdEncoding.DecodeString; None stands for the CorruptInputError it returns. */
  function Decode(s: string): Option<seq<byte>> {
    DecodeQuanta(StripNewlines(s))
  }

  lemma JoinSplit(b0: byte, b1: byte, b2: byte)
    ensures Join(Hi0(b0), Mid1(b0, b1), Mid2(b1, b2), Lo3(b2)) == [b0, b1, b2]
  {
    JoinFirst(b0, b1);
    JoinSecond(b1, b2);
    Mid1Low(b0, b1);
    JoinThird(b1, b2);
  }

  lemma JoinFirst(b0: byte, b1: byte)
    ensures Hi0(b0) * 4 + Mid1(b0, b1) / 16 == b0 as int
  {
    var x0, x1 := b0 as int, b1 as int;
    assert Mid1(b0, b1) / 16 == x0 % 4 by { DivMod(x0 % 4, x1 / 16, 16); }
  }

  lemma JoinSecond(b1: byte, b2: byte)
    ensures (Mid1(0, b1) % 16) * 16 + Mid2(b1, b2) / 4 == b1 as int
  {
    var x1, x2 := b1 as int, b2 as int;
    assert Mid2(b1, b2) / 4 == x1 % 16 by { DivMod(x1 % 16, x2 / 64, 4); }
  }

  lemma JoinThird(b1: byte, b2: byte)
    ensures (Mid2(b1, b2) % 4) * 64 + Lo3(b2) == b2 as int
  {
    var x1, x2 := b1 as int, b2 as int;
    assert Mid2(b1, b2) % 4 == x2 / 64 by { DivMod(x1 % 16, x2 / 64, 4); }
  }

  lemma Mid1Low(b0: byte, b1: byte)
    ensures Mid1(b0, b1) % 16 == Mid1(0, b1) % 16
  {
    var x0, x1 := b0 as int, b1 as int;
    DivMod(x0 % 4, x1 / 16, 16);
    DivMod(0, x1 / 16, 16);
  }

  lemma DivMod(q: int, r: int, k: int)
    requires k in {4, 16, 64} && 0 <= r < k
    ensures (q * k + r) / k == q && (q * k + r) % k == r
  {
  }

  lemma QuantumRoundTrip(b0: byte, b1: byte, b2: byte)
    ensures DecodeFull(EncodeQuantum(b0, b1, b2)[0], EncodeQuantum(b0, b1, b2)[1],
                       EncodeQuantum(b0, b1, b2)[2], EncodeQuantum(b0, b1, b2)[3]) == Some([b0, b1, b2])
  {
    ValueOfLetter(Hi0(b0));
    ValueOfLetter(Mid1(b0, b1));
    ValueOfLetter(Mid2(b1, b2));
    ValueOfLetter(Lo3(b2));
    JoinSplit(b0, b1, b2);
  }

  lemma {:induction false} EncodeHasNoNewlines(b: seq<byte>)
    ensures forall i | 0 <= i < |Encode(b)| :: Encode(b)[i] != '\r' && Encode(b)[i] != '\n'
    decreases |b|
  {
    if |b| > 2 {
      EncodeHasNoNewlines(b[3..]);
    }
  }

  lemma {:induction false} StripNewlinesNoop(s: string)
    requires forall i | 0 <= i < |s| :: s[i] != '\r' && s[i] != '\n'
    ensures StripNewlines(s) == s
  {
    if s != [] {
      StripNewlinesNoop(s[1..]);
    }
  }

  lemma DecodeOneByte(b0: byte)
    ensures DecodeQuanta(Encode([b0])) == Some([b0])
  {
    var x0, x1 := Hi0(b0), Mid1(b0, 0);
    var s := Encode([b0]);
    assert s == [Letter(x0), Letter(x1), '=', '='];
    ValueOfLetter(x0);
    ValueOfLetter(x1);
    assert DecodeFinal(s[0], s[1], s[2], s[3]) == Some(Join(x0, x1, 0, 0)[..1]);
    JoinFirst(b0, 0);
    assert Join(x0, x1, 0, 0)[..1] == [b0];
    assert DecodeQuanta(s) == DecodeFinal(s[0], s[1], s[2], s[3]);
  }

  lemma DecodeTwoBytes(b0: byte, b1: byte)
    ensures DecodeQuanta(Encode([b0, b1])) == Some([b0, b1])
  {
    var x0, x1, x2 := Hi0(b0), Mid1(b0, b1), Mid2(b1, 0);
    var s := Encode([b0, b1]);
    assert s == [Letter(x0), Letter(x1), Letter(x2), '='];
    ValueOfLetter(x0);
    ValueOfLetter(x1);
    ValueOfLetter(x2);
    assert DecodeFinal(s[0], s[1], s[2], s[3]) == Some(Join(x0, x1, x2, 0)[..2]);
    JoinFirst(b0, b1);
    JoinSecond(b1, 0);
    Mid1Low(b0, b1);
    assert Join(x0, x1, x2, 0)[..2] == [b0, b1];
    assert DecodeQuanta(s) == DecodeFinal(s[0], s[1], s[2], s[3]);
  }

  lemma DecodeThreeBytes(b0: byte, b1: byte, b2: byte)
    ensures DecodeQuanta(Encode([b0, b1, b2])) == Some([b0, b1, b2])
  {
    var b := [b0, b1, b2];
    assert b[3..] == [];
    assert Encode(b) == EncodeQuantum(b0, b1, b2);
    QuantumRoundTrip(b0, b1, b2);
  }

  /** A full quantum followed by more input decodes to its three bytes followed by the rest. */
  lemma DecodeQuantaCons(q: string, t: string, x: seq<byte>, y: seq<byte>)
    requires |q| == 4 && |t| > 0
    requires DecodeFull(q[0], q[1], q[2], q[3]) == Some(x) && DecodeQuanta(t) == Some(y)
    ensures DecodeQuanta(q + t) == Some(x + y)
  {
    var s := q + t;
    assert s[0] == q[0] && s[1] == q[1] && s[2] == q[2] && s[3] == q[3] && s[4..] == t;
  }

  lemma DecodeEncodeUnfold(b: seq<byte>)
    requires |b| > 3
    ensures DecodeQuanta(Encode(b)) == DecodeQuanta(EncodeQuantum(b[0], b[1], b[2]) + Encode(b[3..]))
  {
  }

  lemma DecodeQuantumThen(b0: byte, b1: byte, b2: byte, t: string, rest: seq<byte>)
    requires |t| > 0 && DecodeQuanta(t) == Some(rest)
    ensures DecodeQuanta(EncodeQuantum(b0, b1, b2) + t) == Some([b0, b1, b2] + rest)
  {
    QuantumRoundTrip(b0, b1, b2);
    DecodeQuantaCons(EncodeQuantum(b0, b1, b2), t, [b0, b1, b2], rest);
  }

  lemma DecodeQuantaEncodeStep(b: seq<byte>)
    requires |b| > 3 && DecodeQuanta(Encode(b[3..])) == Some(b[3..])
    ensures DecodeQuanta(Encode(b)) == Some(b)
  {
    DecodeEncodeUnfold(b);
    DecodeQuantumThen(b[0], b[1], b[2], Encode(b[3..]), b[3..]);
    SplitThree(b);
  }

  lemma SplitThree(b: seq<byte>)
    requires |b| >= 3
    ensures [b[0], b[1], b[2]] + b[3..] == b
  {
  }

  lemma {:induction false} DecodeQuantaEncode(b: seq<byte>)
    ensures DecodeQuanta(Encode(b)) == Some(b)
    decreases |b|
  {
    if |b| == 1 {
      assert b == [b[0]];
      DecodeOneByte(b[0]);
    } else if |b| == 2 {
      assert b == [b[0], b[1]];
      DecodeTwoBytes(b[0], b[1]);
    } else if |b| == 3 {
      assert b == [b[0], b[1], b[2]];
      DecodeThreeBytes(b[0], b[1], b[2]);
    } else if |b| > 3 {
      DecodeQuantaEncode(b[3..]);
      DecodeQuantaEncodeStep(b);
    }
  }

  /** Decoding what the encoder produced gives back the same bytes. */
  lemma DecodeEncode(b: seq<byte>)
    ensures Decode(Encode(b)) == Some(b)
  {
    EncodeHasNoNewlines(b);
    StripNewlinesNoop(Encode(b));
    DecodeQuantaEncode(b);
  }

  lemma {:induction false} DecodeQuantaRejects(s: string, i: nat)
    requires i < |s| && !InAlphabet(s[i]) && s[i] != '='
    ensures DecodeQuanta(s) == None
    decreases |s|
  {
    if 4 < |s| && 4 <= i {
      DecodeQuantaRejects(s[4..], i - 4);
    }
  }

  lemma {:induction false} StripKeeps(s: string, i: nat) returns (j: nat)
    requires i < |s| && s[i] != '\r' && s[i] != '\n'
    ensures j < |StripNewlines(s)| && StripNewlines(s)[j] == s[i]
  {
    if i == 0 {
      j := 0;
    } else {
      var k := StripKeeps(s[1..], i - 1);
      j := if s[0] == '\r' || s[0] == '\n' then k else k + 1;
    }
  }

  /** One character outside the alphabet, other than '=' and the skipped newlines, makes the input undecodable. */
  lemma DecodeRejectsForeign(s: string, i: nat)
    requires i < |s| && !InAlphabet(s[i]) && s[i] != '=' && s[i] != '\r' && s[i] != '\n'
    ensures Decode(s) == None
  {
    var j := StripKeeps(s, i);
    DecodeQuantaRejects(StripNewlines(s), j);
  }
}
