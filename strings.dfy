/**
 * The few operations of Go's strings, strconv and string/[]byte conversions that
 * the proxy uses. A Go string is a sequence of bytes; here it is a `string` whose
 * characters all have codes below 256, one character per byte.
 */
module Strings {
  import opened Wrappers

  /** An octet, Go's byte. */
  newtype byte = x: int | 0 <= x < 256

  /** strings.Index(s, string(c)) for a one-character separator: the first position of c, if any. */
  function IndexOf(s: string, c: char): (r: Option<nat>)
    ensures r.Some? ==> r.value < |s| && s[r.value] == c && c !in s[..r.value]
    ensures r.None? ==> c !in s
  {
    if |s| == 0 then None
    else if s[0] == c then Some(0)
    else match IndexOf(s[1..], c)
      case None => None
      case Some(i) => Some(i + 1)
  }

  /** Splitting `left + [c] + right` at the first c gives back `left` when c does not occur in it. */
  lemma {:induction false} IndexOfJoin(left: string, c: char, right: string)
    requires c !in left
    ensures IndexOf(left + [c] + right, c) == Some(|left|)
  {
    var s := left + [c] + right;
    assert s[..|left|] == left;
    assert s[|left|] == c;
  }

  /** strings.HasPrefix. */
  predicate HasPrefix(s: string, prefix: string) {
    |prefix| <= |s| && s[..|prefix|] == prefix
  }

  /** strings.TrimPrefix: drops one leading copy of prefix, if present. */
  function TrimPrefix(s: string, prefix: string): (r: string)
    ensures HasPrefix(s, prefix) ==> prefix + r == s
    ensures !HasPrefix(s, prefix) ==> r == s
  {
    if HasPrefix(s, prefix) then s[|prefix|..] else s
  }

  lemma TrimPrefixJoin(prefix: string, rest: string)
    ensures TrimPrefix(prefix + rest, prefix) == rest
  {
    assert (prefix + rest)[..|prefix|] == prefix;
  }

  /** Every character is a byte: the string is the image of a Go []byte. */
  predicate IsByteString(s: string) {
    forall i | 0 <= i < |s| :: s[i] as int < 256
  }

  function CharOf(b: byte): char {
    (b as int) as char
  }

  /** string(b) for a byte slice b. */
  function CharsOf(b: seq<byte>): (s: string)
    ensures |s| == |b| && IsByteString(s)
    ensures forall i | 0 <= i < |b| :: s[i] as int == b[i] as int
  {
    if b == [] then [] else [CharOf(b[0])] + CharsOf(b[1..])
  }

  /** []byte(s) for a string s. */
  function BytesOf(s: string): (b: seq<byte>)
    requires IsByteString(s)
    ensures |b| == |s|
  {
    if s == [] then [] else [(s[0] as int) as byte] + BytesOf(s[1..])
  }

  lemma {:induction false} CharsOfBytesOf(s: string)
    requires IsByteString(s)
    ensures CharsOf(BytesOf(s)) == s
  {
    if s != [] {
      CharsOfBytesOf(s[1..]);
    }
  }

  function DigitsOf(n: nat): (s: string)
    ensures |s| > 0
    ensures forall i | 0 <= i < |s| :: '0' <= s[i] <= '9'
  {
    if n < 10 then [('0' as int + n) as char]
    else DigitsOf(n / 10) + [('0' as int + n % 10) as char]
  }

  /** strconv.Itoa. */
  function Itoa(i: int): string {
    if i < 0 then "-" + DigitsOf(-i) else DigitsOf(i)
  }
  /**
   * The pieces of s between occurrences of sep, always at least one: how a reader
   * of the access log takes a line apart (the inverse of Join).
   */
  function Split(s: string, sep: char): (pieces: seq<string>)
    ensures |pieces| > 0
    ensures forall k | 0 <= k < |pieces| :: sep !in pieces[k]
    decreases |s|
  {
    match IndexOf(s, sep)
    case None => [s]
    case Some(i) => [s[..i]] + Split(s[i + 1..], sep)
  }

  /** The pieces joined with sep between each pair, for a non-empty list. */
  function Join(pieces: seq<string>, sep: char): string
    requires |pieces| > 0
  {
    if |pieces| == 1 then pieces[0] else pieces[0] + [sep] + Join(pieces[1..], sep)
  }

  /** Splitting undoes joining when no piece contains the separator. */
  lemma {:induction false} SplitJoin(pieces: seq<string>, sep: char)
    requires |pieces| > 0
    requires forall k | 0 <= k < |pieces| :: sep !in pieces[k]
    ensures Split(Join(pieces, sep), sep) == pieces
  {
    if |pieces| > 1 {
      var rest := Join(pieces[1..], sep);
      IndexOfJoin(pieces[0], sep, rest);
      var s := pieces[0] + [sep] + rest;
      assert s[..|pieces[0]|] == pieces[0];
      assert s[|pieces[0]| + 1..] == rest;
      SplitJoin(pieces[1..], sep);
    } else {
      assert sep !in pieces[0];
    }
  }
}
