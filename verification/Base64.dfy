/** The payload codec: base 64 as in section 4 of RFC 4648, decoding the
    alphabet of section 5 as well. Bytes are bv8 and the 24-bit groups bv32. */
module Base64 {

  const PAD: bv8 := 61     // '='

  /** B64chars: the digit for a 6-bit value. */
  function Char(v: bv8): bv8
    requires v < 64
  {
    if v < 26 then v + 65          // A-Z
    else if v < 52 then v + 71     // a-z
    else if v < 62 then v - 4      // 0-9
    else if v == 62 then 43        // '+'
    else 47                        // '/'
  }

  /** B64index: the value of a digit; 0 for what is not one. */
  function Index(c: bv8): (v: bv8)
    ensures v < 64
  {
    if 65 <= c <= 90 then c - 65
    else if 97 <= c <= 122 then c - 71
    else if 48 <= c <= 57 then c + 4
    else if c == 43 || c == 45 || c == 46 then 62
    else if c == 44 || c == 47 || c == 95 then 63
    else 0
  }

  // -- the alphabet ----------------------------------------------------------------

  const UPPER: string := "ABCDEFGHIJKLMNOPQRSTUVWXYZ"
  const LOWER: string := "abcdefghijklmnopqrstuvwxyz"
  const OTHERS: string := "0123456789+/"
  const ALPHABET: string := UPPER + LOWER + OTHERS

  /** This byte is the character for this value. */
  predicate Writes(c: bv8, v: bv32) {
    v < 64 && c as int == ALPHABET[v as int] as int
  }

  /** It stands for the value when decoding: also '-' and '_', and '.' and ','. */
  predicate Stands(c: bv8, v: bv8) {
    || Writes(c, v as bv32)
    || (v == 62 && (c as int == '-' as int || c as int == '.' as int))
    || (v == 63 && (c as int == '_' as int || c as int == ',' as int))
  }

  lemma UpperCodes(i: int)
    requires 0 <= i < 26
    ensures UPPER[i] as int == 65 + i
  {
    assert UPPER == ['A', 'B', 'C', 'D', 'E', 'F', 'G', 'H', 'I', 'J', 'K', 'L', 'M',
                     'N', 'O', 'P', 'Q', 'R', 'S', 'T', 'U', 'V', 'W', 'X', 'Y', 'Z'];
  }

  lemma LowerCodes(i: int)
    requires 0 <= i < 26
    ensures LOWER[i] as int == 97 + i
  {
    assert LOWER == ['a', 'b', 'c', 'd', 'e', 'f', 'g', 'h', 'i', 'j', 'k', 'l', 'm',
                     'n', 'o', 'p', 'q', 'r', 's', 't', 'u', 'v', 'w', 'x', 'y', 'z'];
  }

  lemma OtherCodes(i: int)
    requires 0 <= i < 12
    ensures OTHERS[i] as int == if i < 10 then 48 + i else if i == 10 then 43 else 47
  {
    assert OTHERS == ['0', '1', '2', '3', '4', '5', '6', '7', '8', '9', '+', '/'];
  }

  /** The encoding table is the alphabet. */
  lemma CharIsTheLetter(v: bv8)
    requires v < 64
    ensures Writes(Char(v), v as bv32)
  {
    var i := (v as bv32) as int;
    assert i == v as int;
    if i < 26 {
      UpperCodes(i);
      assert ALPHABET[i] == UPPER[i];
    } else if i < 52 {
      LowerCodes(i - 26);
      assert ALPHABET[i] == LOWER[i - 26];
    } else {
      OtherCodes(i - 52);
      assert ALPHABET[i] == OTHERS[i - 52];
    }
  }

  lemma IndexReadsLetters(c: bv8, v: bv32)
    requires Writes(c, v)
    ensures v < 64 && Index(c) as bv32 == v && c != PAD
  {
    var u := v as bv8;
    CharIsTheLetter(u);
    assert u as bv32 == v;
    assert c as int == Char(u) as int;
    assert c == Char(u);
    hide Writes;
  }

  /** The decoding table reads the alphabet, and the substitutes. */
  lemma IndexIsThePlace(c: bv8, v: bv8)
    requires Stands(c, v)
    ensures v < 64 && Index(c) == v && c != PAD
  {
    hide Writes;
    if Writes(c, v as bv32) {
      IndexReadsLetters(c, v as bv32);
    }
  }

  predicate IsDigit(c: bv8) {
    65 <= c <= 90 || 97 <= c <= 122 || 48 <= c <= 57 || c == 43 || c == 47
  }

  lemma CharIsInvertible(v: bv8)
    requires v < 64
    ensures Index(Char(v)) == v && IsDigit(Char(v)) && Char(v) != PAD
  {
  }

  lemma IndexIsInvertible(c: bv8)
    requires IsDigit(c)
    ensures Char(Index(c)) == c
  {
  }

  /** Every other character reads as 0. */
  lemma OthersAreZero(c: bv8)
    requires forall v: bv8 :: !Stands(c, v)
    ensures Index(c) == 0
  {
    if IsDigit(c) {
      IndexIsInvertible(c);
      CharIsTheLetter(Index(c));
      assert Stands(c, Index(c));
    } else {
      assert !Stands(c, 62) && !Stands(c, 63);
    }
  }

  // -- one group -------------------------------------------------------------------

  function Pack3(a: bv8, b: bv8, c: bv8): bv32 {
    ((a as bv32) << 16) | ((b as bv32) << 8) | (c as bv32)
  }

  function Pack4(w: bv8, x: bv8, y: bv8, z: bv8): bv32 {
    ((w as bv32) << 18) | ((x as bv32) << 12) | ((y as bv32) << 6) | (z as bv32)
  }

  /** Six bits, or eight, from a position. */
  function Six(n: bv32, shift: bv5): (v: bv8)
    ensures v < 64
  {
    ((n >> shift) & 0x3F) as bv8
  }

  function Eight(n: bv32, shift: bv5): bv8 {
    ((n >> shift) & 0xFF) as bv8
  }

  lemma SixesOfBytes(a: bv8, b: bv8, c: bv8)
    ensures var n := Pack3(a, b, c);
      Pack4(Six(n, 18), Six(n, 12), Six(n, 6), Six(n, 0)) == n
    ensures Eight(Pack3(a, b, c), 16) == a && Eight(Pack3(a, b, c), 8) == b && Eight(Pack3(a, b, c), 0) == c
  {
  }

  lemma BytesOfSixes(w: bv8, x: bv8, y: bv8, z: bv8)
    requires w < 64 && x < 64 && y < 64 && z < 64
    ensures var n := Pack4(w, x, y, z);
      Pack3(Eight(n, 16), Eight(n, 8), Eight(n, 0)) == n
    ensures var n := Pack4(w, x, y, z);
      Six(n, 18) == w && Six(n, 12) == x && Six(n, 6) == y && Six(n, 0) == z
  {
  }

  function EncodeGroup(a: bv8, b: bv8, c: bv8): (r: seq<bv8>)
    ensures |r| == 4
  {
    var n := Pack3(a, b, c);
    [Char(Six(n, 18)), Char(Six(n, 12)), Char(Six(n, 6)), Char(Six(n, 0))]
  }

  function DecodeGroup(w: bv8, x: bv8, y: bv8, z: bv8): (r: seq<bv8>)
    ensures |r| == 3
  {
    var n := Pack4(Index(w), Index(x), Index(y), Index(z));
    [Eight(n, 16), Eight(n, 8), Eight(n, 0)]
  }

  lemma GroupRoundTrips(a: bv8, b: bv8, c: bv8)
    ensures var g := EncodeGroup(a, b, c); DecodeGroup(g[0], g[1], g[2], g[3]) == [a, b, c]
    ensures forall i :: 0 <= i < 4 ==> IsDigit(EncodeGroup(a, b, c)[i])
  {
    var n := Pack3(a, b, c);
    CharIsInvertible(Six(n, 18));
    CharIsInvertible(Six(n, 12));
    CharIsInvertible(Six(n, 6));
    CharIsInvertible(Six(n, 0));
    SixesOfBytes(a, b, c);
  }

  lemma DigitsRoundTrip(w: bv8, x: bv8, y: bv8, z: bv8)
    requires IsDigit(w) && IsDigit(x) && IsDigit(y) && IsDigit(z)
    ensures var g := DecodeGroup(w, x, y, z); EncodeGroup(g[0], g[1], g[2]) == [w, x, y, z]
  {
    IndexIsInvertible(w);
    IndexIsInvertible(x);
    IndexIsInvertible(y);
    IndexIsInvertible(z);
    BytesOfSixes(Index(w), Index(x), Index(y), Index(z));
  }

  // -- whole strings ---------------------------------------------------------------

  /** The first `k` whole groups. */
  function EncodeGroups(data: seq<bv8>, k: nat): (r: seq<bv8>)
    requires 3 * k <= |data|
    ensures |r| == 4 * k
  {
    if k == 0 then [] else EncodeGroups(data, k - 1) + EncodeGroup(data[3 * k - 3], data[3 * k - 2], data[3 * k - 1])
  }

  /** The last one or two bytes, zero-filled to a group, with padding for the
      digits that carry nothing. */
  function EncodeTail(tail: seq<bv8>): seq<bv8>
    requires |tail| < 3
  {
    if |tail| == 0 then []
    else if |tail| == 1 then EncodeGroup(tail[0], 0, 0)[..2] + [PAD, PAD]
    else EncodeGroup(tail[0], tail[1], 0)[..3] + [PAD]
  }

  function Encode(data: seq<bv8>): (r: seq<bv8>)
    ensures |r| == (|data| + 2) / 3 * 4
  {
    EncodeGroups(data, |data| / 3) + EncodeTail(data[|data| / 3 * 3..])
  }

  /** What b64decode reads at an index: the text, and the terminator that c_str
      puts after it. */
  function At(s: seq<bv8>, i: nat): bv8
    requires i <= |s|
  {
    if i < |s| then s[i] else 0
  }

  function Pad1(s: seq<bv8>): bool
    requires s != []
  {
    |s| % 4 != 0 || s[|s| - 1] == PAD
  }

  /** Whether every index read is in the text or its terminator. */
  predicate StaysInBuffer(s: seq<bv8>) {
    |s| % 4 == 1 ==> |s| > 1 && s[|s| - 2] == PAD
  }

  function Pad2(s: seq<bv8>): bool
    requires s != [] && StaysInBuffer(s)
  {
    Pad1(s) && (|s| % 4 > 2 || s[|s| - 2] != PAD)
  }

  /** Where the whole groups end. */
  function Last(s: seq<bv8>): nat
    requires s != []
  {
    (|s| - (if Pad1(s) then 1 else 0)) / 4 * 4
  }

  function DecodeGroups(s: seq<bv8>, k: nat): (r: seq<bv8>)
    requires 4 * k <= |s|
    ensures |r| == 3 * k
  {
    if k == 0 then [] else DecodeGroups(s, k - 1) + DecodeGroup(s[4 * k - 4], s[4 * k - 3], s[4 * k - 2], s[4 * k - 1])
  }

  lemma LastFits(s: seq<bv8>)
    requires s != [] && StaysInBuffer(s)
    ensures Last(s) % 4 == 0 && Last(s) <= |s|
    ensures Pad1(s) ==> Last(s) + 1 <= |s|
    ensures Pad2(s) ==> Pad1(s) && Last(s) + 2 <= |s|
  {
  }

  /** The bytes after the whole groups. */
  function DecodeTail(s: seq<bv8>): (r: seq<bv8>)
    requires s != [] && StaysInBuffer(s)
    ensures |r| == (if Pad1(s) then 1 else 0) + (if Pad2(s) then 1 else 0)
  {
    LastFits(s);
    var last := Last(s);
    if !Pad1(s) then []
    else if !Pad2(s) then [Eight(Pack4(Index(At(s, last)), Index(At(s, last + 1)), 0, 0), 16)]
    else
      var n := Pack4(Index(At(s, last)), Index(At(s, last + 1)), Index(At(s, last + 2)), 0);
      [Eight(n, 16), Eight(n, 8)]
  }

  function Decode(s: seq<bv8>): seq<bv8>
    requires StaysInBuffer(s)
  {
    if s == [] then [] else DecodeGroups(s, Last(s) / 4) + DecodeTail(s)
  }

  // -- the code --------------------------------------------------------------------

  /** The digits of two last bytes, and of one, as the code computes them. */
  function PadTwo(a: bv8, b: bv8): (r: seq<bv8>)
    ensures |r| == 3
  {
    var n: bv32 := ((a as bv32) << 8) | (b as bv32);
    [Char(Six(n, 10)), Char(Six(n, 4)), Char(((n << 2) & 0x3F) as bv8)]
  }

  function PadOne(a: bv8): (r: seq<bv8>)
    ensures |r| == 2
  {
    var n: bv32 := a as bv32;
    [Char((n >> 2) as bv8), Char(((n << 4) & 0x3F) as bv8)]
  }

  lemma TailDigits(a: bv8, b: bv8)
    ensures var n: bv32 := ((a as bv32) << 8) | (b as bv32);
      && Six(n, 10) == Six(Pack3(a, b, 0), 18) && Six(n, 4) == Six(Pack3(a, b, 0), 12)
      && ((n << 2) & 0x3F) as bv8 == Six(Pack3(a, b, 0), 6)
    ensures ((a as bv32) >> 2) as bv8 == Six(Pack3(a, 0, 0), 18)
    ensures (((a as bv32) << 4) & 0x3F) as bv8 == Six(Pack3(a, 0, 0), 12)
  {
  }

  lemma PadDigits(a: bv8, b: bv8)
    ensures PadTwo(a, b) == EncodeGroup(a, b, 0)[..3] && PadOne(a) == EncodeGroup(a, 0, 0)[..2]
  {
    hide Char, Six, Pack3;
    TailDigits(a, b);
    var g, h := EncodeGroup(a, b, 0), EncodeGroup(a, 0, 0);
    assert g[..3] == [g[0], g[1], g[2]] && h[..2] == [h[0], h[1]];
  }

  /** str[j++] = ..., for each byte in turn. */
  method Put(str: array<bv8>, j: nat, bytes: seq<bv8>) returns (next: nat)
    requires j + |bytes| <= str.Length
    modifies str
    ensures next == j + |bytes| && str[..next] == old(str[..j]) + bytes
    ensures str[next..] == old(str[next..])
  {
    forall i | 0 <= i < |bytes| {
      str[j + i] := bytes[i];
    }
    return j + |bytes|;
  }

  /** The whole groups of b64encode. */
  method EncodeBody(p: seq<bv8>, groups: nat, str: array<bv8>) returns (j: nat)
    requires 3 * groups <= |p| && 4 * groups <= str.Length
    modifies str
    ensures j == 4 * groups && str[..j] == EncodeGroups(p, groups) && str[j..] == old(str[j..])
  {
    hide EncodeGroup;
    j := 0;
    for k := 0 to groups
      invariant j == 4 * k && str[..j] == EncodeGroups(p, k) && str[j..] == old(str[j..])
    {
      j := Put(str, j, EncodeGroup(p[3 * k], p[3 * k + 1], p[3 * k + 2]));
      assert str[j..] == old(str[j - 4..])[4..];
    }
  }

  /** Set padding: the digits of the last one or two bytes. */
  method EncodePad(tail: seq<bv8>, str: array<bv8>, start: nat)
    requires 0 < |tail| < 3 && start + 4 == str.Length && str[start..] == [PAD, PAD, PAD, PAD]
    modifies str
    ensures str[..] == old(str[..start]) + EncodeTail(tail)
  {
    hide PadTwo, PadOne, EncodeGroup;
    PadDigits(tail[0], if |tail| == 2 then tail[1] else 0);
    assert str[start + 2] == str[start..][2] && str[start + 3] == str[start..][3];
    var j := Put(str, start, if |tail| == 2 then PadTwo(tail[0], tail[1]) else PadOne(tail[0]));
    if |tail| == 1 {
      j := Put(str, j, [PAD]);
    }
    assert str[start + 3] == str[j..][0] && j == start + 3;
    assert str[..] == str[..j] + [PAD];
  }

  method B64Encode(p: seq<bv8>) returns (result: seq<bv8>)
    ensures result == Encode(p) && IsEncoding(p, result)
  {
    EncodeIsTheEncoding(p);
    hide EncodeGroups, EncodeGroup, IsEncoding;
    var str := new bv8[(|p| + 2) / 3 * 4](_ => PAD);
    var pad := |p| % 3;
    var last := |p| - pad;
    var j := EncodeBody(p, |p| / 3, str);
    if pad != 0 {
      EncodePad(p[last..], str, j);
    }
    assert pad == 0 ==> str[..] == str[..j];
    return str[..];
  }

  /** The last bytes, as the code computes them. */
  function RestOf(w: bv8, x: bv8, y: bv8, pad2: bool): (r: seq<bv8>)
    requires w < 64 && x < 64 && y < 64
    ensures |r| == if pad2 then 2 else 1
  {
    var n: bv32 := ((w as bv32) << 18) | ((x as bv32) << 12);
    [((n >> 16) & 0xFF) as bv8] + if pad2 then [(((n | ((y as bv32) << 6)) >> 8) & 0xFF) as bv8] else []
  }

  lemma DecodedTail(w: bv8, x: bv8, y: bv8)
    requires w < 64 && x < 64 && y < 64
    ensures var n := ((w as bv32) << 18) | ((x as bv32) << 12);
      && (n >> 16) & 0xFF == n >> 16
      && ((n >> 16) & 0xFF) as bv8 == Eight(Pack4(w, x, 0, 0), 16) == Eight(Pack4(w, x, y, 0), 16)
      && (((n | ((y as bv32) << 6)) >> 8) & 0xFF) as bv8 == Eight(Pack4(w, x, y, 0), 8)
  {
  }

  lemma RestBytes(w: bv8, x: bv8, y: bv8, pad2: bool)
    requires w < 64 && x < 64 && y < 64
    ensures RestOf(w, x, y, pad2)
         == if pad2 then [Eight(Pack4(w, x, y, 0), 16), Eight(Pack4(w, x, y, 0), 8)] else [Eight(Pack4(w, x, 0, 0), 16)]
  {
    hide Eight, Pack4;
    DecodedTail(w, x, y);
  }

  /** The whole groups of b64decode. */
  method DecodeBody(p: seq<bv8>, groups: nat, str: array<bv8>) returns (j: nat)
    requires 4 * groups <= |p| && 3 * groups <= str.Length
    modifies str
    ensures j == 3 * groups && str[..j] == DecodeGroups(p, groups)
  {
    hide DecodeGroup;
    j := 0;
    for k := 0 to groups
      invariant j == 3 * k && str[..j] == DecodeGroups(p, k)
    {
      j := Put(str, j, DecodeGroup(p[4 * k], p[4 * k + 1], p[4 * k + 2], p[4 * k + 3]));
    }
  }

  /** The bytes after the whole groups. */
  method DecodePad(p: seq<bv8>, last: nat, pad2: bool, str: array<bv8>, j: nat)
    requires p != [] && StaysInBuffer(p) && Pad1(p) && last == Last(p) && pad2 == Pad2(p)
    requires str.Length == j + (if pad2 then 2 else 1)
    modifies str
    ensures str[..] == old(str[..j]) + DecodeTail(p)
  {
    hide Eight, Pack4, Index, RestOf;
    LastFits(p);
    var w, x, y := Index(At(p, last)), Index(At(p, last + 1)), if pad2 then Index(At(p, last + 2)) else 0;
    RestBytes(w, x, y, pad2);
    var next := Put(str, j, RestOf(w, x, y, pad2));
    assert str[..] == str[..next];
  }

  /** How the text is padded, and how many whole groups it has. */
  method Layout(p: seq<bv8>) returns (pad1: bool, pad2: bool, groups: nat)
    requires p != [] && StaysInBuffer(p)
    ensures pad1 == Pad1(p) && pad2 == Pad2(p) && 4 * groups == Last(p) && Last(p) / 4 == groups
  {
    var len := |p|;
    pad1 := len % 4 != 0 || p[len - 1] == PAD;
    pad2 := pad1 && (len % 4 > 2 || p[len - 2] != PAD);
    groups := (len - (if pad1 then 1 else 0)) / 4;
  }

  method B64Decode(p: seq<bv8>) returns (result: seq<bv8>)
    requires StaysInBuffer(p)
    ensures result == Decode(p) && IsDecoding(p, result)
  {
    DecodeIsTheDecoding(p);
    hide DecodeTail, DecodeGroups, Pad1, Pad2, Last, StaysInBuffer, IsDecoding;
    if |p| == 0 {
      return [];
    }
    var pad1, pad2, groups := Layout(p);
    LastFits(p);
    var str := new bv8[groups * 3 + (if pad1 then 1 else 0) + (if pad2 then 1 else 0)](_ => 0);
    var j := DecodeBody(p, groups, str);
    if pad1 {
      DecodePad(p, 4 * groups, pad2, str, j);
    } else {
      assert str[..] == str[..j];
    }
    return str[..];
  }

  // -- what is written and read, by numbers alone ------------------------------------

  function Number3(a: bv8, b: bv8, c: bv8): bv32 {
    ((a as bv32) * 256 + (b as bv32)) * 256 + (c as bv32)
  }

  function Number4(w: bv8, x: bv8, y: bv8, z: bv8): bv32 {
    (((w as bv32) * 64 + (x as bv32)) * 64 + (y as bv32)) * 64 + (z as bv32)
  }

  /** The first `digits` base-64 digits of a three-byte number, in letters. */
  predicate Spells(s: seq<bv8>, at: nat, n: bv32, digits: nat) {
    && at + 4 <= |s|
    && (digits > 0 ==> Writes(s[at], n / 262144 % 64))
    && (digits > 1 ==> Writes(s[at + 1], n / 4096 % 64))
    && (digits > 2 ==> Writes(s[at + 2], n / 64 % 64))
    && (digits > 3 ==> Writes(s[at + 3], n % 64))
    && (digits <= 2 ==> s[at + 2] as int == '=' as int)
    && (digits <= 3 ==> s[at + 3] as int == '=' as int)
  }

  /** The encoding of RFC 4648 section 4: a quartet of letters for every three
      bytes, the last one or two filled with zero bytes, the digits that carry
      nothing written '='. */
  ghost predicate IsEncoding(data: seq<bv8>, s: seq<bv8>) {
    var k := |data| / 3;
    && |s| == (|data| + 2) / 3 * 4
    && (forall i: nat :: i < k ==> Spells(s, 4 * i, Number3(data[3 * i], data[3 * i + 1], data[3 * i + 2]), 4))
    && (|data| % 3 == 1 ==> Spells(s, 4 * k, Number3(data[3 * k], 0, 0), 2))
    && (|data| % 3 == 2 ==> Spells(s, 4 * k, Number3(data[3 * k], data[3 * k + 1], 0), 3))
  }

  /** Four characters of a text and their values. */
  predicate Quartet(s: seq<bv8>, i: nat, w: bv8, x: bv8, y: bv8, z: bv8) {
    && 4 * i + 4 <= |s|
    && Stands(s[4 * i], w) && Stands(s[4 * i + 1], x) && Stands(s[4 * i + 2], y) && Stands(s[4 * i + 3], z)
  }

  /** The first bytes of a 24-bit number, at most three, the highest first. */
  predicate Holds(data: seq<bv8>, at: nat, n: bv32, bytes: nat) {
    && at + bytes <= |data|
    && (bytes > 0 ==> data[at] as bv32 == n / 65536)
    && (bytes > 1 ==> data[at + 1] as bv32 == n / 256 % 256)
    && (bytes > 2 ==> data[at + 2] as bv32 == n % 256)
  }

  /** The characters after the last whole quartet, and their values: two or three
      of them, with or without padding. */
  predicate Tail(s: seq<bv8>, k: nat, w: bv8, x: bv8, y: bv8) {
    && 4 * k + 2 <= |s| <= 4 * k + 4
    && Stands(s[4 * k], w) && Stands(s[4 * k + 1], x)
    && (|s| == 4 * k + 4 ==> s[4 * k + 3] == PAD)
    && (if |s| == 4 * k + 2 || (|s| == 4 * k + 4 && s[4 * k + 2] == PAD) then y == 0 else Stands(s[4 * k + 2], y))
  }

  /** How many bytes b64decode makes of them: it takes two characters without
      padding for two bytes. */
  function TailBytes(s: seq<bv8>, k: nat): nat {
    if |s| == 4 * k + 4 && s[4 * k + 2] == PAD then 1 else 2
  }

  /** The decoding of RFC 4648 section 4: three bytes for every quartet, and the
      bytes of the last digits filled with zero digits. */
  ghost predicate IsDecoding(s: seq<bv8>, data: seq<bv8>) {
    && (s == [] ==> data == [])
    && (s != [] && |s| % 4 == 0 && s[|s| - 1] != PAD ==> |data| == |s| / 4 * 3)
    && (forall i: nat, w: bv8, x: bv8, y: bv8, z: bv8 ::
        Quartet(s, i, w, x, y, z) ==> Holds(data, 3 * i, Number4(w, x, y, z), 3))
    && (forall k: nat, w: bv8, x: bv8, y: bv8 ::
        Tail(s, k, w, x, y) ==>
          |data| == 3 * k + TailBytes(s, k) && Holds(data, 3 * k, Number4(w, x, y, 0), TailBytes(s, k)))
  }

  lemma GroupSpells(a: bv8, b: bv8, c: bv8)
    ensures var g, n := EncodeGroup(a, b, c), Number3(a, b, c);
      Writes(g[0], n / 262144 % 64) && Writes(g[1], n / 4096 % 64) && Writes(g[2], n / 64 % 64) && Writes(g[3], n % 64)
  {
    hide Writes, Char, Number3, Pack3, Six;
    var n := Pack3(a, b, c);
    SixesAreDigits(a, b, c);
    CharIsTheLetter(Six(n, 18));
    CharIsTheLetter(Six(n, 12));
    CharIsTheLetter(Six(n, 6));
    CharIsTheLetter(Six(n, 0));
  }

  lemma SixesAreDigits(a: bv8, b: bv8, c: bv8)
    ensures var n, m := Pack3(a, b, c), Number3(a, b, c);
      Six(n, 18) as bv32 == m / 262144 % 64 && Six(n, 12) as bv32 == m / 4096 % 64
      && Six(n, 6) as bv32 == m / 64 % 64 && Six(n, 0) as bv32 == m % 64
  {
  }

  lemma BytesAreDigits(w: bv8, x: bv8, y: bv8, z: bv8)
    requires w < 64 && x < 64 && y < 64 && z < 64
    ensures var n, m := Pack4(w, x, y, z), Number4(w, x, y, z);
      Eight(n, 16) as bv32 == m / 65536 && Eight(n, 8) as bv32 == m / 256 % 256 && Eight(n, 0) as bv32 == m % 256
  {
  }

  // -- decoding inverts encoding -----------------------------------------------------

  /** The i-th quartet of `s` encodes the i-th triple of `data`. */
  predicate EncodesAt(s: seq<bv8>, data: seq<bv8>, i: nat) {
    4 * i + 4 <= |s| && 3 * i + 3 <= |data|
    && [s[4 * i], s[4 * i + 1], s[4 * i + 2], s[4 * i + 3]] == EncodeGroup(data[3 * i], data[3 * i + 1], data[3 * i + 2])
  }

  predicate DecodesAt(data: seq<bv8>, s: seq<bv8>, i: nat) {
    4 * i + 4 <= |s| && 3 * i + 3 <= |data|
    && [data[3 * i], data[3 * i + 1], data[3 * i + 2]] == DecodeGroup(s[4 * i], s[4 * i + 1], s[4 * i + 2], s[4 * i + 3])
  }

  predicate DigitsAt(s: seq<bv8>, i: nat) {
    4 * i + 4 <= |s| && IsDigit(s[4 * i]) && IsDigit(s[4 * i + 1]) && IsDigit(s[4 * i + 2]) && IsDigit(s[4 * i + 3])
  }

  lemma EncodedQuartetDecodes(s: seq<bv8>, data: seq<bv8>, i: nat)
    requires EncodesAt(s, data, i)
    ensures DecodesAt(data, s, i) && DigitsAt(s, i)
  {
    hide EncodeGroup, DecodeGroup, IsDigit;
    var g := EncodeGroup(data[3 * i], data[3 * i + 1], data[3 * i + 2]);
    GroupRoundTrips(data[3 * i], data[3 * i + 1], data[3 * i + 2]);
    assert s[4 * i] == g[0] && s[4 * i + 1] == g[1] && s[4 * i + 2] == g[2] && s[4 * i + 3] == g[3];
  }

  lemma DecodedTripleEncodes(s: seq<bv8>, data: seq<bv8>, i: nat)
    requires DecodesAt(data, s, i) && DigitsAt(s, i)
    ensures EncodesAt(s, data, i)
  {
    hide EncodeGroup, DecodeGroup, IsDigit;
    var g := DecodeGroup(s[4 * i], s[4 * i + 1], s[4 * i + 2], s[4 * i + 3]);
    DigitsRoundTrip(s[4 * i], s[4 * i + 1], s[4 * i + 2], s[4 * i + 3]);
    assert data[3 * i] == g[0] && data[3 * i + 1] == g[1] && data[3 * i + 2] == g[2];
  }

  lemma {:induction false} EncodeGroupsAt(data: seq<bv8>, k: nat, i: nat)
    requires i < k && 3 * k <= |data|
    ensures EncodesAt(EncodeGroups(data, k), data, i)
    decreases k
  {
    hide EncodeGroup;
    if i < k - 1 {
      EncodeGroupsAt(data, k - 1, i);
    }
  }

  lemma {:induction false} EncodeGroupsAre(data: seq<bv8>, k: nat, s: seq<bv8>)
    requires 3 * k <= |data| && 4 * k <= |s| && forall i: nat :: i < k ==> EncodesAt(s, data, i)
    ensures forall j :: 0 <= j < 4 * k ==> EncodeGroups(data, k)[j] == s[j]
    decreases k
  {
    if k > 0 {
      hide EncodeGroup;
      EncodeGroupsAre(data, k - 1, s);
      assert EncodesAt(s, data, k - 1);
      var front, g := EncodeGroups(data, k - 1), EncodeGroup(data[3 * k - 3], data[3 * k - 2], data[3 * k - 1]);
      assert g[0] == s[4 * k - 4] && g[1] == s[4 * k - 3] && g[2] == s[4 * k - 2] && g[3] == s[4 * k - 1];
      assert EncodeGroups(data, k) == front + g;
      hide EncodeGroups, EncodesAt;
    }
  }

  lemma {:induction false} DecodeGroupsAt(s: seq<bv8>, k: nat, i: nat)
    requires i < k && 4 * k <= |s|
    ensures DecodesAt(DecodeGroups(s, k), s, i)
    decreases k
  {
    hide DecodeGroup;
    if i < k - 1 {
      DecodeGroupsAt(s, k - 1, i);
    }
  }

  lemma {:induction false} DecodeGroupsAre(s: seq<bv8>, k: nat, data: seq<bv8>)
    requires 3 * k <= |data| && 4 * k <= |s| && forall i: nat :: i < k ==> DecodesAt(data, s, i)
    ensures forall j :: 0 <= j < 3 * k ==> DecodeGroups(s, k)[j] == data[j]
    decreases k
  {
    if k > 0 {
      hide DecodeGroup;
      DecodeGroupsAre(s, k - 1, data);
      assert DecodesAt(data, s, k - 1);
    }
  }

  lemma DigitsAreNotPad(c: bv8)
    ensures IsDigit(c) ==> c != PAD
  {
  }

  /** Where Decode finds the parts of a text without padding, and of one with. */
  lemma PlainLayout(s: seq<bv8>, k: nat)
    requires |s| == 4 * k && k > 0 && s[|s| - 1] != PAD
    ensures StaysInBuffer(s) && Last(s) == 4 * k && Last(s) / 4 == k && !Pad1(s) && !Pad2(s)
  {
  }

  lemma PaddedLayout(s: seq<bv8>, k: nat)
    requires |s| == 4 * k + 4 && s[|s| - 1] == PAD
    ensures StaysInBuffer(s) && Last(s) == 4 * k && Last(s) / 4 == k && Pad1(s) && (Pad2(s) <==> s[|s| - 2] != PAD)
  {
  }

  /** Encode without divisions. */
  lemma EncodeIs(x: seq<bv8>, k: nat, tail: seq<bv8>)
    requires |tail| < 3 && |x| == 3 * k + |tail| && x[3 * k..] == tail
    ensures Encode(x) == EncodeGroups(x, k) + EncodeTail(tail)
    ensures |EncodeTail(tail)| == if tail == [] then 0 else 4
  {
    hide EncodeGroup, EncodeGroups;
    assert |x| / 3 == k;
  }

  lemma TailInverts(a: bv8, b: bv8)
    ensures var g := EncodeGroup(a, 0, 0); Eight(Pack4(Index(g[0]), Index(g[1]), 0, 0), 16) == a
    ensures var g := EncodeGroup(a, b, 0);
      var n := Pack4(Index(g[0]), Index(g[1]), Index(g[2]), 0);
      Eight(n, 16) == a && Eight(n, 8) == b
  {
    PartialSixes(a, b);
    CharIsInvertible(Six(Pack3(a, 0, 0), 18));
    CharIsInvertible(Six(Pack3(a, 0, 0), 12));
    CharIsInvertible(Six(Pack3(a, b, 0), 18));
    CharIsInvertible(Six(Pack3(a, b, 0), 12));
    CharIsInvertible(Six(Pack3(a, b, 0), 6));
    hide Char, Index, Six, Eight, Pack3, Pack4;
  }

  lemma EmptySixes(a: bv8, b: bv8)
    ensures Six(Pack3(a, 0, 0), 6) == 0 && Six(Pack3(a, 0, 0), 0) == 0 && Six(Pack3(a, b, 0), 0) == 0
  {
  }

  lemma PartialSixes(a: bv8, b: bv8)
    ensures var n := Pack3(a, 0, 0); Eight(Pack4(Six(n, 18), Six(n, 12), 0, 0), 16) == a
    ensures var n := Pack3(a, b, 0);
      var m := Pack4(Six(n, 18), Six(n, 12), Six(n, 6), 0);
      Eight(m, 16) == a && Eight(m, 8) == b
  {
    hide Six, Eight, Pack3, Pack4;
    EmptySixes(a, b);
    SixesOfBytes(a, 0, 0);
    SixesOfBytes(a, b, 0);
  }

  lemma EncodedTailDecodes(s: seq<bv8>, k: nat, tail: seq<bv8>)
    requires 0 < |tail| < 3 && |s| == 4 * k + 4 && s[4 * k..] == EncodeTail(tail)
    ensures s[|s| - 1] == PAD && StaysInBuffer(s) && DecodeTail(s) == tail
  {
    var t := EncodeTail(tail);
    assert s[4 * k] == t[0] && s[4 * k + 1] == t[1] && s[4 * k + 2] == t[2] && s[4 * k + 3] == t[3] by {
      assert forall i :: 0 <= i < 4 ==> s[4 * k..][i] == t[i];
    }
    TailInverts(tail[0], if |tail| == 2 then tail[1] else 0);
    GroupRoundTrips(tail[0], if |tail| == 2 then tail[1] else 0, 0);
    DigitsAreNotPad(s[4 * k + 2]);
    hide EncodeGroup, Index, Eight, Pack4, IsDigit;
    PaddedLayout(s, k);
    LastFits(s);
    hide Pad1, Pad2, Last, StaysInBuffer;
  }

  /** decode(encode(x)) == x, for every byte string; and the encoding has four
      characters for every three bytes begun. */
  lemma DecodeInvertsEncode(x: seq<bv8>)
    ensures StaysInBuffer(Encode(x)) && Decode(Encode(x)) == x
    ensures |Encode(x)| == (|x| + 2) / 3 * 4
  {
    hide Encode, Decode, StaysInBuffer;
    var k := |x| / 3;
    EncodeSplits(x, k, x[3 * k..]);
  }

  lemma EncodeSplits(x: seq<bv8>, k: nat, tail: seq<bv8>)
    requires |tail| < 3 && |x| == 3 * k + |tail| && x[3 * k..] == tail
    ensures StaysInBuffer(Encode(x)) && Decode(Encode(x)) == x
  {
    hide EncodeGroup, DecodeGroup, EncodeGroups, DecodeGroups, EncodeTail, DecodeTail, Encode, IsDigit;
    hide Pad1, Pad2, Last, StaysInBuffer;
    EncodeIs(x, k, tail);
    var s, body := Encode(x), EncodeGroups(x, k);
    forall i: nat | i < k ensures EncodesAt(s, x, i) && DecodesAt(x, s, i) && DigitsAt(s, i) {
      EncodeGroupsAt(x, k, i);
      assert forall j :: 0 <= j < 4 * k ==> s[j] == body[j];
      EncodedQuartetDecodes(s, x, i);
    }
    DecodeGroupsAre(s, k, x);
    hide EncodesAt, DecodesAt;
    if tail != [] {
      assert s[4 * k..] == EncodeTail(tail);
      EncodedTailDecodes(s, k, tail);
      PaddedLayout(s, k);
    } else if k > 0 {
      NoTail();
      assert DigitsAt(s, k - 1);
      DigitsAreNotPad(s[|s| - 1]);
      PlainLayout(s, k);
      NothingAfter(s);
    } else {
      NoTail();
      NothingStays();
    }
    assert x == x[..3 * k] + tail;
  }

  lemma NoTail()
    ensures EncodeTail([]) == []
  {
  }

  lemma NothingStays()
    ensures StaysInBuffer([])
  {
  }

  lemma NothingAfter(s: seq<bv8>)
    requires s != [] && StaysInBuffer(s) && !Pad1(s)
    ensures DecodeTail(s) == []
  {
  }

  // -- encoding inverts decoding -----------------------------------------------------

  /** The encodings section 3.5 of RFC 4648 calls canonical: whole quartets,
      digits of the standard alphabet, padding at the end only, pad bits zero. */
  predicate Canonical(s: seq<bv8>) {
    && |s| % 4 == 0
    && (s != [] ==>
      var n := |s|;
      && (forall i :: 0 <= i < n - 2 ==> IsDigit(s[i]))
      && (s[n - 1] == PAD || (IsDigit(s[n - 2]) && IsDigit(s[n - 1])))
      && (s[n - 2] == PAD || IsDigit(s[n - 2]))
      && (s[n - 1] == PAD && s[n - 2] != PAD ==> Index(s[n - 2]) & 3 == 0)
      && (s[n - 2] == PAD ==> Index(s[n - 3]) & 15 == 0))
  }

  lemma EmptyBytes(w: bv8, x: bv8, y: bv8)
    requires w < 64 && x < 64 && y < 64
    ensures x & 15 == 0 ==> Eight(Pack4(w, x, 0, 0), 8) == 0 && Eight(Pack4(w, x, 0, 0), 0) == 0
    ensures y & 3 == 0 ==> Eight(Pack4(w, x, y, 0), 0) == 0
  {
  }

  /** With pad bits of zero the bytes that were dropped are zero, and the others
      give the digits back. */
  lemma PartialBytes(w: bv8, x: bv8, y: bv8)
    requires w < 64 && x < 64 && y < 64
    ensures x & 15 == 0 ==>
      (var m := Pack3(Eight(Pack4(w, x, 0, 0), 16), 0, 0); Six(m, 18) == w && Six(m, 12) == x)
    ensures y & 3 == 0 ==>
      (var n := Pack4(w, x, y, 0); var m := Pack3(Eight(n, 16), Eight(n, 8), 0); Six(m, 18) == w && Six(m, 12) == x && Six(m, 6) == y)
  {
    hide Six, Eight, Pack3, Pack4;
    EmptyBytes(w, x, y);
    BytesOfSixes(w, x, 0, 0);
    BytesOfSixes(w, x, y, 0);
  }

  lemma TailDigitsInvert(w: bv8, x: bv8, y: bv8)
    requires IsDigit(w) && IsDigit(x)
    ensures Index(x) & 15 == 0 ==>
      EncodeTail([Eight(Pack4(Index(w), Index(x), 0, 0), 16)]) == [w, x, PAD, PAD]
    ensures IsDigit(y) && Index(y) & 3 == 0 ==>
      (var n := Pack4(Index(w), Index(x), Index(y), 0); EncodeTail([Eight(n, 16), Eight(n, 8)]) == [w, x, y, PAD])
  {
    PartialBytes(Index(w), Index(x), Index(y));
    IndexIsInvertible(w);
    IndexIsInvertible(x);
    if IsDigit(y) {
      IndexIsInvertible(y);
    }
    hide Char, Index, Six, Eight, Pack3, Pack4, IsDigit;
  }

  lemma CanonicalTail(s: seq<bv8>, k: nat)
    requires Canonical(s) && |s| == 4 * k + 4 && s[|s| - 1] == PAD
    ensures StaysInBuffer(s) && EncodeTail(DecodeTail(s)) == s[4 * k..] && 0 < |DecodeTail(s)| < 3
  {
    TailDigitsInvert(s[4 * k], s[4 * k + 1], s[4 * k + 2]);
    hide EncodeTail, Index, Eight, Pack4, IsDigit;
    PaddedLayout(s, k);
    LastFits(s);
    hide Pad1, Pad2, Last, StaysInBuffer;
    assert s[4 * k..] == [s[4 * k], s[4 * k + 1], s[4 * k + 2], s[4 * k + 3]];
  }

  lemma CanonicalDigits(s: seq<bv8>, k: nat, i: nat)
    requires Canonical(s) && i < k && (|s| == 4 * k || |s| == 4 * k + 4) && (|s| == 4 * k ==> s[|s| - 1] != PAD)
    ensures DigitsAt(s, i)
  {
    hide IsDigit;
  }

  /** encode(decode(s)) == s, for every canonical s. */
  lemma EncodeInvertsDecode(s: seq<bv8>)
    requires Canonical(s)
    ensures StaysInBuffer(s) && Encode(Decode(s)) == s
  {
    if s == [] {
      NoTail();
    } else {
      var k := if s[|s| - 1] == PAD then |s| / 4 - 1 else |s| / 4;
      DecodeSplits(s, k);
    }
  }

  lemma DecodeSplits(s: seq<bv8>, k: nat)
    requires Canonical(s) && s != [] && |s| == if s[|s| - 1] == PAD then 4 * k + 4 else 4 * k
    ensures StaysInBuffer(s) && Encode(Decode(s)) == s
  {
    hide EncodeGroup, DecodeGroup, EncodeGroups, DecodeGroups, EncodeTail, DecodeTail, Encode, IsDigit;
    hide Pad1, Pad2, Last, StaysInBuffer;
    if s[|s| - 1] == PAD {
      PaddedLayout(s, k);
      CanonicalTail(s, k);
    } else {
      PlainLayout(s, k);
      NothingAfter(s);
      NoTail();
    }
    var data, body := Decode(s), DecodeGroups(s, k);
    assert data == body + DecodeTail(s) && data[3 * k..] == DecodeTail(s);
    forall i: nat | i < k ensures EncodesAt(s, data, i) {
      DecodeGroupsAt(s, k, i);
      assert forall j :: 0 <= j < 3 * k ==> data[j] == body[j];
      CanonicalDigits(s, k, i);
      DecodedTripleEncodes(s, data, i);
    }
    EncodeGroupsAre(data, k, s);
    hide EncodesAt, DecodesAt, Canonical;
    EncodeIs(data, k, DecodeTail(s));
    assert s == s[..4 * k] + s[4 * k..];
  }

  lemma PadBitsAreZero(a: bv8, b: bv8)
    ensures Six(Pack3(a, 0, 0), 12) & 15 == 0 && Six(Pack3(a, b, 0), 6) & 3 == 0
  {
  }

  lemma EncodingHasDigits(x: seq<bv8>, k: nat, tail: seq<bv8>, j: nat)
    requires |tail| < 3 && |x| == 3 * k + |tail| && x[3 * k..] == tail && j < 4 * k
    ensures |Encode(x)| >= 4 * k && IsDigit(Encode(x)[j])
  {
    hide IsDigit, EncodeGroup, EncodeGroups, Encode, EncodeTail;
    EncodeIs(x, k, tail);
    var s, body, i := Encode(x), EncodeGroups(x, k), j / 4;
    EncodeGroupsAt(x, k, i);
    assert forall j :: 0 <= j < 4 * k ==> s[j] == body[j];
    EncodedQuartetDecodes(s, x, i);
    assert j == 4 * i || j == 4 * i + 1 || j == 4 * i + 2 || j == 4 * i + 3;
  }

  lemma TailIsCanonical(a: bv8, b: bv8)
    ensures var g := EncodeTail([a]);
      IsDigit(g[0]) && IsDigit(g[1]) && Index(g[1]) & 15 == 0 && g[2] == PAD && g[3] == PAD
    ensures var g := EncodeTail([a, b]);
      IsDigit(g[0]) && IsDigit(g[1]) && IsDigit(g[2]) && Index(g[2]) & 3 == 0 && g[3] == PAD
  {
    hide IsDigit, Index, Char, Six, Pack3;
    GroupRoundTrips(a, 0, 0);
    GroupRoundTrips(a, b, 0);
    PadBitsAreZero(a, b);
    CharIsInvertible(Six(Pack3(a, 0, 0), 12));
    CharIsInvertible(Six(Pack3(a, b, 0), 6));
  }

  lemma EncodingsAreCanonical(x: seq<bv8>, k: nat, tail: seq<bv8>)
    requires |tail| < 3 && |x| == 3 * k + |tail| && x[3 * k..] == tail
    ensures Canonical(Encode(x))
  {
    hide IsDigit, Index, EncodeGroups, EncodeTail, Encode;
    EncodeIs(x, k, tail);
    var s := Encode(x);
    forall j: nat | j < 4 * k ensures IsDigit(s[j]) {
      EncodingHasDigits(x, k, tail, j);
    }
    if tail != [] {
      var t := EncodeTail(tail);
      TailIsCanonical(tail[0], if |tail| == 2 then tail[1] else 0);
      assert tail == if |tail| == 1 then [tail[0]] else [tail[0], tail[1]];
      DigitsAreNotPad(t[2]);
      assert s[4 * k] == t[0] && s[4 * k + 1] == t[1] && s[4 * k + 2] == t[2] && s[4 * k + 3] == t[3];
    } else {
      NoTail();
      if k > 0 {
        DigitsAreNotPad(s[4 * k - 1]);
        DigitsAreNotPad(s[4 * k - 2]);
      }
    }
  }

  /** A text survives decoding and encoding exactly when it is canonical. */
  lemma CanonicalExactly(s: seq<bv8>)
    ensures Canonical(s) <==> StaysInBuffer(s) && Encode(Decode(s)) == s
  {
    if Canonical(s) {
      EncodeInvertsDecode(s);
    } else if StaysInBuffer(s) {
      var x := Decode(s);
      var k := |x| / 3;
      EncodingsAreCanonical(x, k, x[3 * k..]);
    }
  }

  // -- the other alphabet ------------------------------------------------------------

  /** '+' and '/' written as section 5 of RFC 4648 writes them. */
  function UrlSafe(s: seq<bv8>): (r: seq<bv8>)
    ensures |r| == |s| && forall i :: 0 <= i < |s| ==> r[i] == if s[i] == 43 then 45 else if s[i] == 47 then 95 else s[i]
  {
    seq(|s|, i requires 0 <= i < |s| => if s[i] == 43 then 45 else if s[i] == 47 then 95 else s[i])
  }

  lemma {:induction false} UrlSafeGroups(s: seq<bv8>, k: nat)
    requires 4 * k <= |s|
    ensures DecodeGroups(UrlSafe(s), k) == DecodeGroups(s, k)
    decreases k
  {
    if k > 0 {
      UrlSafeGroups(s, k - 1);
      assert forall i :: 0 <= i < |s| ==> Index(UrlSafe(s)[i]) == Index(s[i]);
      hide Index, Eight, Pack4;
    }
  }

  lemma UrlSafeDecodesAlike(s: seq<bv8>)
    ensures StaysInBuffer(UrlSafe(s)) <==> StaysInBuffer(s)
    ensures StaysInBuffer(s) ==> Decode(UrlSafe(s)) == Decode(s)
  {
    var u := UrlSafe(s);
    assert forall i :: 0 <= i < |s| ==> (u[i] == PAD <==> s[i] == PAD);
    if s != [] && StaysInBuffer(s) {
      assert forall i :: 0 <= i <= |s| ==> Index(At(u, i)) == Index(At(s, i));
      hide Index, Eight, Pack4, DecodeGroups, UrlSafe;
      assert Pad1(u) == Pad1(s) && Pad2(u) == Pad2(s) && Last(u) == Last(s);
      LastFits(s);
      UrlSafeGroups(s, Last(s) / 4);
      hide Pad1, Pad2, Last;
      assert DecodeTail(u) == DecodeTail(s);
    }
  }

  // -- reads -------------------------------------------------------------------------

  /** The indices b64decode reads. */
  predicate IsRead(s: seq<bv8>, i: int) {
    s != [] && (
      var pad1, last := Pad1(s), Last(s);
      || (|s| % 4 == 0 && i == |s| - 1)
      || (pad1 && |s| % 4 <= 2 && i == |s| - 2)
      || 0 <= i < last
      || (pad1 && (i == last || i == last + 1))
      || (pad1 && (|s| % 4 > 2 || (|s| >= 2 && s[|s| - 2] != PAD)) && i == last + 2))
  }

  /** Every read is in the text or its terminator exactly when the length is not
      1 modulo 4, or the last character but one is '='; and strictly in the text
      whenever the length is a multiple of 4. */
  lemma ReadsStayInBufferExactly(s: seq<bv8>)
    ensures (forall i :: IsRead(s, i) ==> 0 <= i <= |s|) <==> StaysInBuffer(s)
    ensures |s| % 4 == 0 ==> StaysInBuffer(s) && forall i :: IsRead(s, i) ==> 0 <= i < |s|
  {
    if s != [] {
      if |s| == 1 {
        assert IsRead(s, -1);
      } else if |s| % 4 == 1 && s[|s| - 2] != PAD {
        assert IsRead(s, |s| + 1);
      }
    }
  }

  // -- the code writes and reads those numbers ------------------------------------------

  lemma EncodesInLetters(x: seq<bv8>, k: nat, tail: seq<bv8>)
    requires |tail| < 3 && |x| == 3 * k + |tail| && x[3 * k..] == tail
    ensures var s := Encode(x);
      && (forall i: nat :: i < k ==> Spells(s, 4 * i, Number3(x[3 * i], x[3 * i + 1], x[3 * i + 2]), 4))
      && (|tail| == 1 ==> Spells(s, 4 * k, Number3(tail[0], 0, 0), 2))
      && (|tail| == 2 ==> Spells(s, 4 * k, Number3(tail[0], tail[1], 0), 3))
  {
    hide EncodeGroup, EncodeGroups, Encode, EncodeTail, Writes, Number3;
    EncodeIs(x, k, tail);
    var s, body := Encode(x), EncodeGroups(x, k);
    forall i: nat | i < k ensures Spells(s, 4 * i, Number3(x[3 * i], x[3 * i + 1], x[3 * i + 2]), 4) {
      EncodeGroupsAt(x, k, i);
      assert forall j :: 0 <= j < 4 * k ==> s[j] == body[j];
      GroupSpells(x[3 * i], x[3 * i + 1], x[3 * i + 2]);
      assert [s[4 * i], s[4 * i + 1], s[4 * i + 2], s[4 * i + 3]] == EncodeGroup(x[3 * i], x[3 * i + 1], x[3 * i + 2]);
      QuartetOf(s, 4 * i, EncodeGroup(x[3 * i], x[3 * i + 1], x[3 * i + 2]));
    }
    if tail != [] {
      TailSpells(tail);
      QuartetOf(s, 4 * k, EncodeTail(tail));
    }
  }

  lemma QuartetOf(s: seq<bv8>, at: nat, g: seq<bv8>)
    requires |g| == 4 && at + 4 <= |s| && [s[at], s[at + 1], s[at + 2], s[at + 3]] == g
    ensures s[at] == g[0] && s[at + 1] == g[1] && s[at + 2] == g[2] && s[at + 3] == g[3]
  {
  }

  lemma TailSpells(tail: seq<bv8>)
    requires 0 < |tail| < 3
    ensures var t := EncodeTail(tail);
      |t| == 4 && Spells(t, 0, Number3(tail[0], if |tail| == 2 then tail[1] else 0, 0), |tail| + 1)
  {
    hide Writes, Number3, EncodeGroup;
    GroupSpells(tail[0], if |tail| == 2 then tail[1] else 0, 0);
  }

  /** The code's encoding is the encoding of RFC 4648. */
  lemma EncodeIsTheEncoding(x: seq<bv8>)
    ensures IsEncoding(x, Encode(x))
  {
    hide Encode, Spells, Number3;
    var k := |x| / 3;
    EncodesInLetters(x, k, x[3 * k..]);
  }

  lemma QuartetDecodes(a: bv8, b: bv8, c: bv8, d: bv8, w: bv8, x: bv8, y: bv8, z: bv8)
    requires Stands(a, w) && Stands(b, x) && Stands(c, y) && Stands(d, z)
    ensures Holds(DecodeGroup(a, b, c, d), 0, Number4(w, x, y, z), 3)
  {
    IndexIsThePlace(a, w);
    IndexIsThePlace(b, x);
    IndexIsThePlace(c, y);
    IndexIsThePlace(d, z);
    hide Stands, Index, Number4, Pack4, Eight;
    BytesAreDigits(w, x, y, z);
  }

  lemma HoldsAlike(data: seq<bv8>, at: nat, g: seq<bv8>, n: bv32, bytes: nat)
    requires Holds(g, 0, n, bytes) && at + bytes <= |data| && bytes <= 3
    requires forall j :: 0 <= j < bytes ==> data[at + j] == g[j]
    ensures Holds(data, at, n, bytes)
  {
    assert bytes > 0 ==> data[at + 0] == g[0];
    assert bytes > 1 ==> data[at + 1] == g[1];
    assert bytes > 2 ==> data[at + 2] == g[2];
  }

  /** Every quartet of characters with values gives the bytes of their number. */
  lemma DecodesTheNumber(s: seq<bv8>, i: nat, w: bv8, x: bv8, y: bv8, z: bv8)
    requires StaysInBuffer(s) && Quartet(s, i, w, x, y, z)
    ensures Holds(Decode(s), 3 * i, Number4(w, x, y, z), 3)
  {
    hide Stands, Holds, Number4, DecodeGroup, DecodeGroups, DecodeTail, Last, Pad1, Pad2, StaysInBuffer;
    IndexIsThePlace(s[4 * i + 3], z);
    QuartetIsWhole(s, i);
    LastFits(s);
    var k := Last(s) / 4;
    DecodeGroupsAt(s, k, i);
    QuartetDecodes(s[4 * i], s[4 * i + 1], s[4 * i + 2], s[4 * i + 3], w, x, y, z);
    var g, body := DecodeGroup(s[4 * i], s[4 * i + 1], s[4 * i + 2], s[4 * i + 3]), DecodeGroups(s, k);
    assert [body[3 * i], body[3 * i + 1], body[3 * i + 2]] == g;
    TripleOf(body, 3 * i, g);
    assert forall j :: 0 <= j < 3 * k ==> Decode(s)[j] == body[j];
    HoldsAlike(Decode(s), 3 * i, g, Number4(w, x, y, z), 3);
  }

  lemma TripleOf(s: seq<bv8>, at: nat, g: seq<bv8>)
    requires |g| == 3 && at + 3 <= |s| && [s[at], s[at + 1], s[at + 2]] == g
    ensures forall j :: 0 <= j < 3 ==> s[at + j] == g[j]
  {
    assert s[at + 0] == g[0] && s[at + 1] == g[1] && s[at + 2] == g[2];
  }

  lemma QuartetIsWhole(s: seq<bv8>, i: nat)
    requires 4 * i + 4 <= |s| && s[4 * i + 3] != PAD && StaysInBuffer(s)
    ensures s != [] && i < Last(s) / 4
  {
  }

  lemma TailDecodes(a: bv8, b: bv8, w: bv8, x: bv8, y: bv8)
    requires Stands(a, w) && Stands(b, x) && y < 64
    ensures y == 0 ==> Holds([Eight(Pack4(Index(a), Index(b), 0, 0), 16)], 0, Number4(w, x, y, 0), 1)
    ensures var n := Pack4(Index(a), Index(b), y, 0); Holds([Eight(n, 16), Eight(n, 8)], 0, Number4(w, x, y, 0), 2)
  {
    hide Stands, Index, Number4, Pack4, Eight;
    IndexIsThePlace(a, w);
    IndexIsThePlace(b, x);
    BytesAreDigits(w, x, y, 0);
  }

  /** Where the parts of a text with a tail are. */
  lemma TailLayout(s: seq<bv8>, k: nat, w: bv8, x: bv8, y: bv8)
    requires Tail(s, k, w, x, y)
    ensures StaysInBuffer(s) && Last(s) == 4 * k && Last(s) / 4 == k && Pad1(s) && (Pad2(s) <==> TailBytes(s, k) == 2)
  {
    IndexIsThePlace(s[4 * k], w);
    hide Stands, Writes;
  }

  /** The third digit as the code reads it. */
  lemma TailValue(s: seq<bv8>, k: nat, w: bv8, x: bv8, y: bv8)
    requires Tail(s, k, w, x, y)
    ensures y < 64 && (TailBytes(s, k) == 2 ==> Index(At(s, 4 * k + 2)) == y) && (TailBytes(s, k) == 1 ==> y == 0)
  {
    hide Stands;
    if |s| > 4 * k + 2 && Stands(s[4 * k + 2], y) {
      IndexIsThePlace(s[4 * k + 2], y);
    }
  }

  /** What the code makes of the tail, by its characters. */
  lemma TailShape(s: seq<bv8>, k: nat, w: bv8, x: bv8, y: bv8)
    requires Tail(s, k, w, x, y)
    ensures StaysInBuffer(s)
    ensures var n := Pack4(Index(s[4 * k]), Index(s[4 * k + 1]), y, 0);
      DecodeTail(s) == if TailBytes(s, k) == 1 then [Eight(n, 16)] else [Eight(n, 16), Eight(n, 8)]
  {
    TailLayout(s, k, w, x, y);
    TailValue(s, k, w, x, y);
    LastFits(s);
    hide Stands, Index, Eight, Pack4, Last, Pad1, Pad2, StaysInBuffer;
  }

  lemma TailHolds(s: seq<bv8>, k: nat, w: bv8, x: bv8, y: bv8)
    requires Tail(s, k, w, x, y)
    ensures StaysInBuffer(s) && |DecodeTail(s)| == TailBytes(s, k)
    ensures Holds(DecodeTail(s), 0, Number4(w, x, y, 0), TailBytes(s, k))
  {
    TailShape(s, k, w, x, y);
    TailValue(s, k, w, x, y);
    TailDecodes(s[4 * k], s[4 * k + 1], w, x, y);
    assert TailBytes(s, k) == 1 || TailBytes(s, k) == 2;
    hide Tail, TailBytes, DecodeTail, Stands, Holds, Number4, Index, Eight, Pack4, StaysInBuffer;
  }

  /** A text ends in one byte, or two, of its last digits' number. */
  lemma DecodesTheTail(s: seq<bv8>, k: nat, w: bv8, x: bv8, y: bv8)
    requires Tail(s, k, w, x, y)
    ensures StaysInBuffer(s) && |Decode(s)| == 3 * k + TailBytes(s, k)
    ensures Holds(Decode(s), 3 * k, Number4(w, x, y, 0), TailBytes(s, k))
  {
    TailLayout(s, k, w, x, y);
    TailHolds(s, k, w, x, y);
    assert s != [];
    hide Tail, Stands, Holds, Number4, DecodeTail, DecodeGroups, Last, Pad1, Pad2, StaysInBuffer;
    assert Decode(s) == DecodeGroups(s, k) + DecodeTail(s);
    HoldsAlike(Decode(s), 3 * k, DecodeTail(s), Number4(w, x, y, 0), TailBytes(s, k));
  }

  /** The code's decoding is the decoding of RFC 4648. */
  lemma DecodeIsTheDecoding(s: seq<bv8>)
    requires StaysInBuffer(s)
    ensures IsDecoding(s, Decode(s))
  {
    hide Holds, Tail, Number4;
    if s != [] && |s| % 4 == 0 && s[|s| - 1] != PAD {
      PlainLayout(s, |s| / 4);
      NothingAfter(s);
    }
    hide Quartet, Decode, StaysInBuffer, Pad1, Pad2, Last;
    forall i: nat, w: bv8, x: bv8, y: bv8, z: bv8 | Quartet(s, i, w, x, y, z)
      ensures Holds(Decode(s), 3 * i, Number4(w, x, y, z), 3)
    {
      DecodesTheNumber(s, i, w, x, y, z);
    }
    forall k: nat, w: bv8, x: bv8, y: bv8 | Tail(s, k, w, x, y)
      ensures |Decode(s)| == 3 * k + TailBytes(s, k) && Holds(Decode(s), 3 * k, Number4(w, x, y, 0), TailBytes(s, k))
    {
      DecodesTheTail(s, k, w, x, y);
    }
  }
}
