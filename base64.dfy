/**
 * Go's `base64.StdEncoding`: the base64 alphabet of RFC 4648, section 4,
 * with `=` padding, as `EncodeToString` produces it.
 *
 * Encoding is stated in two steps: bytes become 6-bit symbols (with the
 * value 64 standing for the pad character), and symbols become characters
 * of the alphabet table.  Decoding runs the two steps backwards.
 */
module Base64 {
  import opened Wrappers
  import opened Utf8

  /** The value standing for the pad character `=`. */
  const Pad := 64

  predicate IsSymbol(x: int) { 0 <= x <= Pad }

  predicate AllSymbols(xs: seq<int>) { forall i :: 0 <= i < |xs| ==> IsSymbol(xs[i]) }

  /** The character of the alphabet table (RFC 4648, section 4, Table 1) for a 6-bit value, or the pad. */
  function SymbolChar(x: int): (c: char)
    requires IsSymbol(x)
  {
    if x < 26 then ('A' as int + x) as char
    else if x < 52 then ('a' as int + (x - 26)) as char
    else if x < 62 then ('0' as int + (x - 52)) as char
    else if x == 62 then '+'
    else if x == 63 then '/'
    else '='
  }

  predicate IsEncodedChar(c: char)
  {
    'A' <= c <= 'Z' || 'a' <= c <= 'z' || '0' <= c <= '9' || c == '+' || c == '/' || c == '='
  }

  /** The value an alphabet or pad character stands for. */
  function SymbolIndex(c: char): (x: int)
    requires IsEncodedChar(c)
  {
    if 'A' <= c <= 'Z' then c as int - 'A' as int
    else if 'a' <= c <= 'z' then c as int - 'a' as int + 26
    else if '0' <= c <= '9' then c as int - '0' as int + 52
    else if c == '+' then 62
    else if c == '/' then 63
    else Pad
  }

  lemma SymbolRoundTrip(x: int)
    requires IsSymbol(x)
    ensures IsEncodedChar(SymbolChar(x)) && SymbolIndex(SymbolChar(x)) == x
  {
  }

  /** Three bytes (24 bits) become four 6-bit values, most significant first. */
  function GroupSymbols(b0: byte, b1: byte, b2: byte): (r: seq<int>)
  {
    [b0 / 4, (b0 % 4) * 16 + b1 / 16, (b1 % 16) * 4 + b2 / 64, b2 % 64]
  }

  /** The symbols of `data`: full groups, then a padded final group for one or two left-over bytes. */
  function Symbols(data: seq<byte>): (r: seq<int>)
    ensures |r| == 4 * ((|data| + 2) / 3)
    ensures AllSymbols(r)
    decreases |data|
  {
    if |data| == 0 then []
    else if |data| == 1 then [data[0] / 4, (data[0] % 4) * 16, Pad, Pad]
    else if |data| == 2 then [data[0] / 4, (data[0] % 4) * 16 + data[1] / 16, (data[1] % 16) * 4, Pad]
    else
      assert (|data| + 2) / 3 == (|data[3..]| + 2) / 3 + 1;
      GroupSymbols(data[0], data[1], data[2]) + Symbols(data[3..])
  }

  function Chars(xs: seq<int>): (r: string)
    requires AllSymbols(xs)
  {
    seq(|xs|, i requires 0 <= i < |xs| => SymbolChar(xs[i]))
  }

  /** `base64.StdEncoding.EncodeToString(data)`. */
  function Encode(data: seq<byte>): (r: string)
    ensures |r| == 4 * ((|data| + 2) / 3)
    ensures forall i :: 0 <= i < |r| ==> IsEncodedChar(r[i])
  {
    var xs := Symbols(data);
    forall i | 0 <= i < |xs| ensures IsEncodedChar(SymbolChar(xs[i])) {
      SymbolRoundTrip(xs[i]);
    }
    Chars(xs)
  }

  /** The values of an encoded string, or None when a character is outside the alphabet. */
  function Values(s: string): (r: Option<seq<int>>)
    ensures r.Some? ==> |r.value| == |s| && AllSymbols(r.value)
  {
    if forall i :: 0 <= i < |s| ==> IsEncodedChar(s[i]) then
      Some(seq(|s|, i requires 0 <= i < |s| => SymbolIndex(s[i])))
    else None
  }

  /** Four 6-bit values back to three bytes. */
  function JoinGroup(x0: int, x1: int, x2: int, x3: int): (r: Option<seq<byte>>)
  {
    if 0 <= x0 < 64 && 0 <= x1 < 64 && 0 <= x2 < 64 && 0 <= x3 < 64 then
      Some([x0 * 4 + x1 / 16, (x1 % 16) * 16 + x2 / 4, (x2 % 4) * 64 + x3])
    else None
  }

  /** The final four values, which may end in one or two pads. */
  function JoinLast(x0: int, x1: int, x2: int, x3: int): (r: Option<seq<byte>>)
  {
    if x2 == Pad && x3 == Pad then
      if 0 <= x0 < 64 && 0 <= x1 < 64 then Some([x0 * 4 + x1 / 16]) else None
    else if x3 == Pad then
      if 0 <= x0 < 64 && 0 <= x1 < 64 && 0 <= x2 < 64 then Some([x0 * 4 + x1 / 16, (x1 % 16) * 16 + x2 / 4])
      else None
    else JoinGroup(x0, x1, x2, x3)
  }

  function Join(xs: seq<int>): (r: Option<seq<byte>>)
    decreases |xs|
  {
    if |xs| == 0 then Some([])
    else if |xs| < 4 then None
    else if |xs| == 4 then JoinLast(xs[0], xs[1], xs[2], xs[3])
    else match JoinGroup(xs[0], xs[1], xs[2], xs[3])
      case None => None
      case Some(group) =>
        match Join(xs[4..])
        case None => None
        case Some(rest) => Some(group + rest)
  }

  /** Reference decoder for padded standard base64, the inverse of `Encode`. */
  function Decode(s: string): (r: Option<seq<byte>>)
  {
    match Values(s)
    case None => None
    case Some(xs) => Join(xs)
  }

  lemma ValuesOfChars(xs: seq<int>)
    requires AllSymbols(xs)
    ensures Values(Chars(xs)) == Some(xs)
  {
    var s := Chars(xs);
    forall i | 0 <= i < |s| ensures IsEncodedChar(s[i]) && SymbolIndex(s[i]) == xs[i] {
      SymbolRoundTrip(xs[i]);
    }
    var ys := seq(|s|, i requires 0 <= i < |s| => SymbolIndex(s[i]));
    assert ys == xs;
  }

  /** Splitting three bytes into four 6-bit values and joining them again is the identity. */
  lemma JoinGroupSymbols(b0: byte, b1: byte, b2: byte)
    ensures var g := GroupSymbols(b0, b1, b2);
      JoinGroup(g[0], g[1], g[2], g[3]) == Some([b0, b1, b2]) &&
      JoinLast(g[0], g[1], g[2], g[3]) == Some([b0, b1, b2])
  {
    var x1, x2 := (b0 % 4) * 16 + b1 / 16, (b1 % 16) * 4 + b2 / 64;
    assert x1 / 16 == b0 % 4 && x1 % 16 == b1 / 16;
    assert x2 / 4 == b1 % 16 && x2 % 4 == b2 / 64;
  }

  lemma JoinSymbolsOne(b0: byte)
    ensures Join(Symbols([b0])) == Some([b0])
  {
  }

  lemma JoinSymbolsTwo(b0: byte, b1: byte)
    ensures Join(Symbols([b0, b1])) == Some([b0, b1])
  {
    var x0, x1, x2 := b0 / 4, (b0 % 4) * 16 + b1 / 16, (b1 % 16) * 4;
    assert Symbols([b0, b1]) == [x0, x1, x2, Pad];
    assert x1 / 16 == b0 % 4 && x1 % 16 == b1 / 16 && x2 / 4 == b1 % 16;
    assert JoinLast(x0, x1, x2, Pad) == Some([b0, b1]);
  }

  /** Joining a full group followed by more values. */
  lemma JoinCons(g: seq<int>, rest: seq<int>, bytes: seq<byte>, tail: seq<byte>)
    requires |g| == 4 && |rest| >= 4
    requires JoinGroup(g[0], g[1], g[2], g[3]) == Some(bytes)
    requires Join(rest) == Some(tail)
    ensures Join(g + rest) == Some(bytes + tail)
  {
    var s := g + rest;
    assert s[0] == g[0] && s[1] == g[1] && s[2] == g[2] && s[3] == g[3];
    assert s[4..] == rest;
  }

  lemma {:induction false} JoinSymbols(data: seq<byte>)
    ensures Join(Symbols(data)) == Some(data)
    decreases |data|
  {
    if |data| == 1 {
      assert data == [data[0]];
      JoinSymbolsOne(data[0]);
    } else if |data| == 2 {
      assert data == [data[0], data[1]];
      JoinSymbolsTwo(data[0], data[1]);
    } else if |data| >= 3 {
      var head, tail := data[..3], data[3..];
      assert head + tail == data;
      assert head == [data[0], data[1], data[2]];
      var g := GroupSymbols(data[0], data[1], data[2]);
      JoinGroupSymbols(data[0], data[1], data[2]);
      assert Symbols(data) == g + Symbols(tail);
      if |data| == 3 {
        assert tail == [] && Symbols(tail) == [];
        assert Symbols(data) == g;
        assert Join(g) == JoinLast(g[0], g[1], g[2], g[3]);
        assert head == data;
      } else {
        JoinSymbols(tail);
        JoinCons(g, Symbols(tail), head, tail);
      }
    }
  }

  /** Every byte string survives encoding: decoding the encoding gives it back. */
  lemma DecodeEncode(data: seq<byte>)
    ensures Decode(Encode(data)) == Some(data)
  {
    ValuesOfChars(Symbols(data));
    JoinSymbols(data);
  }
}
