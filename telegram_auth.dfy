/** Checking the data the Telegram login widget returns
    (app/utils/telegramAuth.ts), following the "Checking authorization"
    section of the Telegram Login Widget documentation: hex decoding and
    encoding, the data-check-string, and the final comparison. HMAC-SHA-256 of
    the UTF-8 encoded string is a parameter. */
module TelegramAuth {
  import opened Common
  import opened Seqs
  import opened Text

  /** An element of a `Uint8Array`. */
  type Byte = x: int | 0 <= x < 256

  // ---------------------------------------------------------------------
  // `parseInt(s, 16)`.

  /** The value of a radix-16 digit. */
  function HexDigit(c: char): (d: Option<nat>)
    ensures d.Some? ==> d.value < 16
  {
    if '0' <= c <= '9' then Some(c as int - '0' as int)
    else if 'a' <= c <= 'f' then Some(c as int - 'a' as int + 10)
    else if 'A' <= c <= 'F' then Some(c as int - 'A' as int + 10)
    else None
  }

  predicate IsHexDigit(c: char) {
    HexDigit(c).Some?
  }

  /** The length of the longest prefix of radix-16 digits. */
  function HexPrefix(s: string): (n: nat)
    ensures n <= |s|
    ensures forall i :: 0 <= i < n ==> IsHexDigit(s[i])
    ensures n < |s| ==> !IsHexDigit(s[n])
  {
    if s == [] || !IsHexDigit(s[0]) then 0
    else
      var n := HexPrefix(s[1..]);
      assert forall i :: 1 <= i < 1 + n ==> s[i] == s[1..][i - 1];
      1 + n
  }

  /** The number a string of radix-16 digits denotes. */
  function HexValue(s: string): nat
    requires forall i :: 0 <= i < |s| ==> IsHexDigit(s[i])
  {
    if s == [] then 0
    else
      assert IsHexDigit(s[|s| - 1]);
      HexValue(s[..|s| - 1]) * 16 + HexDigit(s[|s| - 1]).value
  }

  /** `parseInt(s, 16)`, `None` standing for `NaN`: leading whitespace is
      skipped, then a sign, then a `0x` or `0X` prefix; the longest run of
      radix-16 digits that follows is the value, and without one the result
      is `NaN`. */
  function ParseIntHex(s: string): Option<int> {
    var t := TrimStart(s);
    var negative := t != [] && t[0] == '-';
    var u := if t != [] && (t[0] == '-' || t[0] == '+') then t[1..] else t;
    var w := if |u| >= 2 && u[0] == '0' && (u[1] == 'x' || u[1] == 'X') then u[2..] else u;
    var n := HexPrefix(w);
    if n == 0 then None
    else
      var v: int := HexValue(w[..n]);
      Some(if negative then -v else v)
  }

  /** Storing a number into a `Uint8Array`: `NaN` becomes 0 and an integer is
      taken modulo 256. */
  function ToUint8(v: Option<int>): (b: Byte)
    ensures v.None? ==> b == 0
    ensures v.Some? ==> (v.value - b) % 256 == 0
  {
    if v.None? then 0 else v.value % 256
  }

  /** Two radix-16 digits parse to the byte they denote. */
  lemma PairValue(c1: char, c2: char)
    requires IsHexDigit(c1) && IsHexDigit(c2)
    ensures ParseIntHex([c1, c2]) == Some(16 * HexDigit(c1).value + HexDigit(c2).value)
    ensures ToUint8(ParseIntHex([c1, c2])) == 16 * HexDigit(c1).value + HexDigit(c2).value
  {
    var s := [c1, c2];
    assert TrimStart(s) == s;
    PairPrefix(c1, c2);
    PairDigits(c1, c2);
  }

  lemma PairPrefix(c1: char, c2: char)
    requires IsHexDigit(c1) && IsHexDigit(c2)
    ensures HexPrefix([c1, c2]) == 2
  {
    assert [c1, c2][1..] == [c2];
    assert HexPrefix([c2]) == 1;
  }

  lemma PairDigits(c1: char, c2: char)
    requires IsHexDigit(c1) && IsHexDigit(c2)
    ensures HexValue([c1, c2][..2]) == 16 * HexDigit(c1).value + HexDigit(c2).value
  {
    assert [c1, c2][..2] == [c1, c2] && [c1, c2][..1] == [c1];
    assert HexValue([c1]) == HexDigit(c1).value by {
      assert [c1][..0] == [];
    }
  }

  /** The byte `hexToBytes` stores at index `i`. */
  function PairByte(hex: string, i: nat): Byte
    requires 2 * i + 2 <= |hex|
  {
    ToUint8(ParseIntHex(hex[2 * i..2 * i + 2]))
  }

  /** What `hexToBytes(hex)` returns or throws. */
  function DecodeHex(hex: string): Result<seq<Byte>, string> {
    if |hex| % 2 != 0 then Err("Invalid hex string length")
    else Ok(seq(|hex| / 2, i requires 0 <= i < |hex| / 2 => PairByte(hex, i)))
  }

  /** `hexToBytes(hex)`: an error for an odd length; otherwise byte `i / 2` is
      the parsed pair at `i`, for `i = 0, 2, 4, ...`. */
  method HexToBytes(hex: string) returns (r: Result<seq<Byte>, string>)
    ensures r == DecodeHex(hex)
  {
    if |hex| % 2 != 0 {
      return Err("Invalid hex string length");
    }
    var bytes := new Byte[|hex| / 2];
    var i := 0;
    while i < |hex|
      invariant 0 <= i <= |hex| && i % 2 == 0
      invariant forall k :: 0 <= k < i / 2 ==> bytes[k] == PairByte(hex, k)
    {
      bytes[i / 2] := ToUint8(ParseIntHex(hex[i..i + 2]));
      i := i + 2;
    }
    assert bytes[..] == seq(|hex| / 2, k requires 0 <= k < |hex| / 2 => PairByte(hex, k));
    return Ok(bytes[..]);
  }

  /** An odd length is the only error; otherwise there is one byte per pair,
      and a pair of radix-16 digits gives the byte it denotes. */
  lemma DecodeHexSpec(hex: string)
    ensures DecodeHex(hex).Err? <==> |hex| % 2 != 0
    ensures DecodeHex(hex).Ok? ==> |DecodeHex(hex).value| == |hex| / 2
    ensures DecodeHex(hex).Ok? ==> forall i :: 0 <= i < |hex| / 2 && IsHexDigit(hex[2 * i]) && IsHexDigit(hex[2 * i + 1]) ==>
      DecodeHex(hex).value[i] == 16 * HexDigit(hex[2 * i]).value + HexDigit(hex[2 * i + 1]).value
  {
    if |hex| % 2 == 0 {
      forall i | 0 <= i < |hex| / 2 && IsHexDigit(hex[2 * i]) && IsHexDigit(hex[2 * i + 1])
        ensures DecodeHex(hex).value[i] == 16 * HexDigit(hex[2 * i]).value + HexDigit(hex[2 * i + 1]).value
      {
        assert hex[2 * i..2 * i + 2] == [hex[2 * i], hex[2 * i + 1]];
        PairValue(hex[2 * i], hex[2 * i + 1]);
      }
    }
  }

  /** A two-character string decodes to the one byte its pair parses to. */
  lemma DecodeOnePair(hex: string)
    requires |hex| == 2
    ensures DecodeHex(hex) == Ok([ToUint8(ParseIntHex(hex))])
  {
    var d := DecodeHex(hex).value;
    assert hex[0..2] == hex;
    assert |d| == 1 && d[0] == PairByte(hex, 0);
    assert d == [ToUint8(ParseIntHex(hex))];
  }

  /** Characters that are not digits do not make the decoding fail: a pair
      without a digit parses to `NaN`, which is stored as 0. */
  lemma DecodeNoDigit()
    ensures DecodeHex("zz") == Ok([0])
  {
    DecodeOnePair("zz");
    assert TrimStart("zz") == "zz";
    assert HexPrefix("zz") == 0;
  }

  /** A bare `0x` prefix has no digits after it and is stored as 0. */
  lemma DecodeBarePrefix()
    ensures DecodeHex("0x") == Ok([0])
  {
    DecodeOnePair("0x");
    assert TrimStart("0x") == "0x";
    assert "0x"[2..] == "";
  }

  /** A digit followed by a character that is not one is read alone. */
  lemma DecodeOneDigit()
    ensures DecodeHex("f?") == Ok([15])
  {
    DecodeOnePair("f?");
    assert TrimStart("f?") == "f?";
    OneDigit("f?");
  }

  /** A signed pair is taken modulo 256. */
  lemma DecodeSigned()
    ensures DecodeHex("-1") == Ok([255])
  {
    DecodeOnePair("-1");
    assert TrimStart("-1") == "-1";
    assert "-1"[1..] == "1";
    OneDigit("1");
  }

  /** A digit that is followed by no other digit is read alone. */
  lemma OneDigit(s: string)
    requires |s| >= 1 && IsHexDigit(s[0]) && (|s| >= 2 ==> !IsHexDigit(s[1]))
    ensures HexPrefix(s) == 1 && HexValue(s[..1]) == HexDigit(s[0]).value
  {
    assert s[1..] == [] || !IsHexDigit(s[1..][0]);
    assert s[..1][..0] == [];
  }

  // ---------------------------------------------------------------------
  // Encoding: `b.toString(16).padStart(2, "0")`, joined.

  /** A lower-case radix-16 digit. */
  function HexChar(d: nat): (c: char)
    requires d < 16
    ensures IsHexDigit(c) && HexDigit(c) == Some(d) && ('0' <= c <= '9' || 'a' <= c <= 'f')
  {
    if d < 10 then (d + '0' as int) as char else (d - 10 + 'a' as int) as char
  }

  /** `b.toString(16)`: no leading zero. */
  function ToString16(b: Byte): string {
    if b < 16 then [HexChar(b)] else [HexChar(b / 16), HexChar(b % 16)]
  }

  /** `s.padStart(2, "0")` */
  function PadStart2(s: string): string {
    if |s| >= 2 then s else seq(2 - |s|, _ => '0') + s
  }

  /** The two digits `computedHex` has for one byte. */
  function ByteHex(b: Byte): string {
    PadStart2(ToString16(b))
  }

  /** A byte becomes two lower-case digits, the high one first. */
  lemma ByteHexSpec(b: Byte)
    ensures ByteHex(b) == [HexChar(b / 16), HexChar(b % 16)]
  {
    if b < 16 {
      assert ByteHex(b) == ['0'] + [HexChar(b)];
    }
  }

  /** `bytes.map(b => ...).join("")` */
  function EncodeHex(bytes: seq<Byte>): string {
    Join(Map(bytes, ByteHex), "")
  }

  lemma EncodeHexCons(bytes: seq<Byte>)
    requires bytes != []
    ensures EncodeHex(bytes) == ByteHex(bytes[0]) + EncodeHex(bytes[1..])
  {
    MapCons(bytes, ByteHex);
    if |bytes| == 1 {
      assert EncodeHex(bytes[1..]) == "";
    }
  }

  /** `e` has two lower-case digits per byte of `bytes`, in order. */
  ghost predicate IsEncoding(e: string, bytes: seq<Byte>) {
    |e| == 2 * |bytes|
    && forall i :: 0 <= i < |bytes| ==> e[2 * i] == HexChar(bytes[i] / 16) && e[2 * i + 1] == HexChar(bytes[i] % 16)
  }

  lemma EncodingCons(b: Byte, t: seq<Byte>, r: string)
    requires IsEncoding(r, t)
    ensures IsEncoding([HexChar(b / 16), HexChar(b % 16)] + r, [b] + t)
  {
    var h := [HexChar(b / 16), HexChar(b % 16)];
    var bytes := [b] + t;
    forall i | 1 <= i < |bytes|
      ensures (h + r)[2 * i] == HexChar(bytes[i] / 16) && (h + r)[2 * i + 1] == HexChar(bytes[i] % 16)
    {
      assert bytes[i] == t[i - 1];
      assert (h + r)[2 * i] == r[2 * (i - 1)] && (h + r)[2 * i + 1] == r[2 * (i - 1) + 1];
    }
  }

  /** The encoding has two lower-case digits per byte, in order. */
  lemma {:induction false} EncodeHexSpec(bytes: seq<Byte>)
    ensures |EncodeHex(bytes)| == 2 * |bytes|
    ensures forall i :: 0 <= i < |bytes| ==>
      EncodeHex(bytes)[2 * i] == HexChar(bytes[i] / 16) && EncodeHex(bytes)[2 * i + 1] == HexChar(bytes[i] % 16)
  {
    if bytes != [] {
      var t := bytes[1..];
      EncodeHexCons(bytes);
      ByteHexSpec(bytes[0]);
      EncodeHexSpec(t);
      EncodingCons(bytes[0], t, EncodeHex(t));
      assert [bytes[0]] + t == bytes;
    }
    assert IsEncoding(EncodeHex(bytes), bytes);
  }

  /** Decoding the encoding gives the bytes back. */
  lemma DecodeEncode(bytes: seq<Byte>)
    ensures DecodeHex(EncodeHex(bytes)) == Ok(bytes)
  {
    var e := EncodeHex(bytes);
    EncodeHexSpec(bytes);
    DecodeHexSpec(e);
    assert |e| % 2 == 0 && |e| / 2 == |bytes|;
    forall i | 0 <= i < |bytes| ensures DecodeHex(e).value[i] == bytes[i] {
      assert IsHexDigit(e[2 * i]) && IsHexDigit(e[2 * i + 1]);
      assert HexDigit(e[2 * i]).value == bytes[i] / 16 && HexDigit(e[2 * i + 1]).value == bytes[i] % 16;
    }
    assert DecodeHex(e).value == bytes;
  }

  /** A string of lower-case radix-16 digits. */
  ghost predicate LowerHex(s: string) {
    forall i :: 0 <= i < |s| ==> '0' <= s[i] <= '9' || 'a' <= s[i] <= 'f'
  }

  /** The encoding is lower-case. */
  lemma EncodeHexLower(bytes: seq<Byte>)
    ensures LowerHex(EncodeHex(bytes))
  {
    EncodeHexSpec(bytes);
    var e := EncodeHex(bytes);
    forall j | 0 <= j < |e| ensures '0' <= e[j] <= '9' || 'a' <= e[j] <= 'f' {
      var i := j / 2;
      if j == 2 * i {
        assert e[j] == HexChar(bytes[i] / 16);
      } else {
        assert j == 2 * i + 1;
        assert e[j] == HexChar(bytes[i] % 16);
      }
    }
  }

  /** An even-length lower-case string is the encoding of its decoding. */
  lemma EncodeDecode(s: string)
    requires LowerHex(s) && |s| % 2 == 0
    ensures EncodeHex(DecodeHex(s).value) == s
  {
    var bytes := DecodeHex(s).value;
    DecodeHexSpec(s);
    EncodeHexSpec(bytes);
    var e := EncodeHex(bytes);
    forall i | 0 <= i < |bytes| ensures e[2 * i] == s[2 * i] && e[2 * i + 1] == s[2 * i + 1] {
      EncodePair(s[2 * i], s[2 * i + 1], bytes[i]);
    }
    forall j | 0 <= j < |s| ensures e[j] == s[j] {
      var i := j / 2;
      assert j == 2 * i || j == 2 * i + 1;
    }
  }

  /** The byte of a lower-case pair is written back as that pair. */
  lemma EncodePair(c1: char, c2: char, b: Byte)
    requires ('0' <= c1 <= '9' || 'a' <= c1 <= 'f') && ('0' <= c2 <= '9' || 'a' <= c2 <= 'f')
    requires b == 16 * HexDigit(c1).value + HexDigit(c2).value
    ensures HexChar(b / 16) == c1 && HexChar(b % 16) == c2
  {
    var d1, d2 := HexDigit(c1).value, HexDigit(c2).value;
    assert b / 16 == d1 && b % 16 == d2;
    HexCharOf(c1);
    HexCharOf(c2);
  }

  /** A lower-case digit is the digit of its value. */
  lemma HexCharOf(c: char)
    requires '0' <= c <= '9' || 'a' <= c <= 'f'
    ensures HexChar(HexDigit(c).value) == c
  {
  }

  // ---------------------------------------------------------------------
  // `buildDataCheckString(user)`.

  /** A property value of the user object: `String(value)` is `text`, and
      `truthy` is what `!value` negates. */
  datatype Value = Undefined | Null | Str(s: string) | Other(text: string, truthy: bool)

  /** `String(value)` */
  function Render(v: Value): string {
    match v
      case Undefined => "undefined"
      case Null => "null"
      case Str(s) => s
      case Other(text, _) => text
  }

  predicate Truthy(v: Value) {
    match v
      case Undefined => false
      case Null => false
      case Str(s) => s != ""
      case Other(_, t) => t
  }

  /** One of `Object.entries(user)`. */
  datatype Entry = Entry(key: string, value: Value)

  /** The keys of an object are distinct. */
  ghost predicate DistinctKeys(user: seq<Entry>) {
    forall i, j :: 0 <= i < j < |user| ==> user[i].key != user[j].key
  }

  /** `user[k]`: the value at key `k`, `undefined` when there is none. */
  function Lookup(user: seq<Entry>, k: string): (v: Value)
    ensures (forall i :: 0 <= i < |user| ==> user[i].key != k) ==> v == Undefined
    ensures forall i :: 0 <= i < |user| && user[i].key == k && DistinctKeys(user) ==> v == user[i].value
  {
    if user == [] then Undefined
    else if user[0].key == k then user[0].value
    else
      var v := Lookup(user[1..], k);
      assert forall i :: 1 <= i < |user| ==> user[i] == user[1..][i - 1];
      v
  }

  /** The `filter` of `buildDataCheckString`. */
  predicate Included(e: Entry) {
    e.key != "hash" && e.value != Undefined && e.value != Null
  }

  /** A `[key, String(value)]` pair. */
  datatype Field = Field(key: string, text: string)

  /** The `map` of `buildDataCheckString`. */
  function Rendered(e: Entry): Field {
    Field(e.key, Render(e.value))
  }

  /** Places `f` before the first field whose key is not below its own. */
  function Insert(f: Field, s: seq<Field>): (r: seq<Field>)
    ensures multiset(r) == multiset(s) + multiset{f}
  {
    if s == [] then [f]
    else if LexLess(s[0].key, f.key) then
      assert s == [s[0]] + s[1..];
      [s[0]] + Insert(f, s[1..])
    else [f] + s
  }

  /** `entries.sort((a, b) => a[0].localeCompare(b[0]))`, keys compared by
      code unit; a stable insertion sort. */
  function SortByKey(s: seq<Field>): (r: seq<Field>)
    ensures multiset(r) == multiset(s)
  {
    if s == [] then []
    else
      assert s == [s[0]] + s[1..];
      Insert(s[0], SortByKey(s[1..]))
  }

  /** The keys strictly increase. */
  ghost predicate StrictlySorted(s: seq<Field>) {
    forall i, j :: 0 <= i < j < |s| ==> LexLess(s[i].key, s[j].key)
  }

  ghost predicate DistinctFieldKeys(s: seq<Field>) {
    forall i, j :: 0 <= i < j < |s| ==> s[i].key != s[j].key
  }

  /** Inserting a field with a new key into a sorted list keeps it sorted. */
  lemma {:induction false} InsertSorted(f: Field, s: seq<Field>)
    requires StrictlySorted(s) && forall i :: 0 <= i < |s| ==> s[i].key != f.key
    ensures StrictlySorted(Insert(f, s))
  {
    if s != [] {
      var r := Insert(f, s);
      if LexLess(s[0].key, f.key) {
        var t := s[1..];
        assert StrictlySorted(t) && forall i :: 0 <= i < |t| ==> t[i].key != f.key;
        InsertSorted(f, t);
        var rt := Insert(f, t);
        forall x | x in rt ensures LexLess(s[0].key, x.key) {
          assert x in multiset(rt);
          if x != f {
            assert x in t;
          }
        }
        InsertSortedHead(s[0], rt);
      } else {
        LexLessTotal(s[0].key, f.key);
        forall j | 0 <= j < |s| ensures LexLess(f.key, s[j].key) {
          if j > 0 {
            LexLessTransitive(f.key, s[0].key, s[j].key);
          }
        }
        InsertSortedHead(f, s);
      }
    }
  }

  /** A field below every field of a sorted list may lead it. */
  lemma InsertSortedHead(x: Field, s: seq<Field>)
    requires StrictlySorted(s) && forall y :: y in s ==> LexLess(x.key, y.key)
    ensures StrictlySorted([x] + s)
  {
    var r := [x] + s;
    forall i, j | 0 <= i < j < |r| ensures LexLess(r[i].key, r[j].key) {
      assert r[j] == s[j - 1];
      if i > 0 {
        assert r[i] == s[i - 1];
      }
    }
  }

  /** The sort keeps the fields and, when the keys are distinct, orders them
      by strictly increasing key. */
  lemma {:induction false} SortByKeySorted(s: seq<Field>)
    requires DistinctFieldKeys(s)
    ensures StrictlySorted(SortByKey(s))
  {
    if s != [] {
      var t := s[1..];
      assert DistinctFieldKeys(t);
      SortByKeySorted(t);
      var st := SortByKey(t);
      forall i | 0 <= i < |st| ensures st[i].key != s[0].key {
        assert st[i] in multiset(t);
        var j :| 0 <= j < |t| && t[j] == st[i];
        assert s[j + 1] == t[j];
      }
      InsertSorted(s[0], st);
    }
  }

  /** Two strictly sorted lists with the same fields are equal. */
  lemma {:induction false} SortedUnique(a: seq<Field>, b: seq<Field>)
    requires StrictlySorted(a) && StrictlySorted(b)
    requires forall x :: x in a <==> x in b
    ensures a == b
  {
    if a != [] && b != [] {
      assert a[0] in b && b[0] in a;
      if a[0] != b[0] {
        var j :| 0 <= j < |b| && b[j] == a[0];
        var i :| 0 <= i < |a| && a[i] == b[0];
        LexLessTotal(a[0].key, b[0].key);
        assert false;
      }
      forall x ensures x in a[1..] <==> x in b[1..] {
        SortedTail(a, x);
        SortedTail(b, x);
      }
      SortedUnique(a[1..], b[1..]);
      assert a == [a[0]] + a[1..] && b == [b[0]] + b[1..];
    } else if a != [] || b != [] {
      HeadIn(a);
      HeadIn(b);
      assert false;
    }
  }

  lemma HeadIn(s: seq<Field>)
    ensures s != [] ==> s[0] in s
  {
  }

  lemma SortedTail(s: seq<Field>, x: Field)
    requires StrictlySorted(s) && s != []
    ensures x in s[1..] <==> x in s && x != s[0]
  {
    if x in s && x != s[0] {
      var i :| 0 <= i < |s| && s[i] == x;
      assert s[1..][i - 1] == x;
    }
    if x in s[1..] {
      var i :| 0 <= i < |s[1..]| && s[1..][i] == x;
      assert s[i + 1] == x;
      LexLessIrreflexive(s[0].key);
    }
  }

  /** The sorted `[key, String(value)]` pairs. */
  function SortedFields(user: seq<Entry>): seq<Field> {
    SortByKey(Map(Filter(user, Included), Rendered))
  }

  /** `${key}=${value}` */
  function Line(f: Field): string {
    f.key + "=" + f.text
  }

  /** `buildDataCheckString(user)` */
  function DataCheckString(user: seq<Entry>): string {
    Join(Map(SortedFields(user), Line), "\n")
  }

  lemma {:induction false} FilterDistinctKeys(user: seq<Entry>)
    requires DistinctKeys(user)
    ensures DistinctKeys(Filter(user, Included))
  {
    if user != [] {
      var t := user[1..];
      assert DistinctKeys(t);
      FilterDistinctKeys(t);
      var ft := Filter(t, Included);
      forall i | 0 <= i < |ft| ensures ft[i].key != user[0].key {
        assert ft[i] in t;
        var j :| 0 <= j < |t| && t[j] == ft[i];
        assert user[j + 1] == t[j];
      }
      var r := Filter(user, Included);
      if Included(user[0]) {
        assert r == [user[0]] + ft;
        forall i, j | 0 <= i < j < |r| ensures r[i].key != r[j].key {
          assert r[j] == ft[j - 1];
          if i > 0 {
            assert r[i] == ft[i - 1];
          }
        }
      } else {
        assert r == ft;
      }
    }
  }

  /** The data-check-string's fields are exactly the rendered entries other
      than `hash` whose value is neither `undefined` nor `null`, one per key,
      with strictly increasing keys. */
  lemma SortedFieldsSpec(user: seq<Entry>)
    requires DistinctKeys(user)
    ensures forall f :: f in SortedFields(user) <==> exists e :: e in user && Included(e) && Rendered(e) == f
    ensures forall i :: 0 <= i < |SortedFields(user)| ==> SortedFields(user)[i].key != "hash"
    ensures StrictlySorted(SortedFields(user))
  {
    SortedFieldsMembers(user);
    var sorted := SortedFields(user);
    forall i | 0 <= i < |sorted| ensures sorted[i].key != "hash" {
      assert sorted[i] in sorted;
    }
    var fields := Map(Filter(user, Included), Rendered);
    FilterDistinctKeys(user);
    assert DistinctFieldKeys(fields);
    SortByKeySorted(fields);
  }

  lemma SortedFieldsMembers(user: seq<Entry>)
    ensures forall f :: f in SortedFields(user) <==> exists e :: e in user && Included(e) && Rendered(e) == f
  {
    var included := Filter(user, Included);
    var fields := Map(included, Rendered);
    var sorted := SortedFields(user);
    forall f ensures f in sorted <==> exists e :: e in user && Included(e) && Rendered(e) == f {
      assert f in sorted <==> f in multiset(fields);
      if f in fields {
        var i :| 0 <= i < |fields| && fields[i] == f;
        assert included[i] in user;
      }
      if exists e :: e in user && Included(e) && Rendered(e) == f {
        var e :| e in user && Included(e) && Rendered(e) == f;
        var i :| 0 <= i < |included| && included[i] == e;
        assert fields[i] == f;
      }
    }
  }

  /** The order of the object's properties does not matter. */
  lemma DataCheckStringOrderFree(u1: seq<Entry>, u2: seq<Entry>)
    requires DistinctKeys(u1) && DistinctKeys(u2)
    requires forall e :: e in u1 <==> e in u2
    ensures DataCheckString(u1) == DataCheckString(u2)
  {
    SortedFieldsSpec(u1);
    SortedFieldsSpec(u2);
    SortedUnique(SortedFields(u1), SortedFields(u2));
  }

  /** Without included properties the data-check-string is empty; otherwise
      it splits at its newlines into the `key=value` lines in order, provided
      no key or value holds a newline. */
  lemma DataCheckStringLines(user: seq<Entry>)
    ensures SortedFields(user) == [] ==> DataCheckString(user) == ""
    ensures SortedFields(user) != [] && (forall e :: e in user && Included(e) ==> '\n' !in Line(Rendered(e))) ==>
      Split(DataCheckString(user), '\n') == Map(SortedFields(user), Line)
  {
    var sorted := SortedFields(user);
    var lines := Map(sorted, Line);
    if sorted != [] && (forall e :: e in user && Included(e) ==> '\n' !in Line(Rendered(e))) {
      var fields := Map(Filter(user, Included), Rendered);
      forall k | 0 <= k < |lines| ensures '\n' !in lines[k] {
        assert sorted[k] in multiset(fields);
        var i :| 0 <= i < |fields| && fields[i] == sorted[k];
        assert Filter(user, Included)[i] in user;
      }
      SplitJoin(lines, '\n');
    }
  }

  // ---------------------------------------------------------------------
  // `verifyTelegramUser(user)`.

  /** `verifyTelegramUser(user)`. `secretHex` is the configured bot-token
      hash and `sign(key, s)` the HMAC-SHA-256 signature of the UTF-8 bytes
      of `s` under `key`. A thrown error makes the result `false`. */
  function Verify(user: seq<Entry>, secretHex: Option<string>, sign: (seq<Byte>, string) -> seq<Byte>): bool {
    var expected := Lookup(user, "hash");
    if !Truthy(expected) then false
    else if secretHex == None || secretHex.value == "" then false
    else match DecodeHex(secretHex.value)
      case Err(_) => false
      case Ok(key) => Str(EncodeHex(sign(key, DataCheckString(user)))) == expected
  }

  /** The user is accepted exactly when there is a hash, a configured secret of
      even length, and the hash is the lower-case hex of the signature of the
      data-check-string under the decoded secret. */
  lemma VerifySpec(user: seq<Entry>, secretHex: Option<string>, sign: (seq<Byte>, string) -> seq<Byte>)
    ensures !Truthy(Lookup(user, "hash")) ==> !Verify(user, secretHex, sign)
    ensures secretHex == None || secretHex == Some("") ==> !Verify(user, secretHex, sign)
    ensures secretHex != None && |secretHex.value| % 2 != 0 ==> !Verify(user, secretHex, sign)
    ensures Verify(user, secretHex, sign) <==>
      (secretHex != None && secretHex.value != "" && |secretHex.value| % 2 == 0
       && Lookup(user, "hash") == Str(EncodeHex(sign(DecodeHex(secretHex.value).value, DataCheckString(user))))
       && Lookup(user, "hash") != Str(""))
  {
  }

  /** An accepted hash is lower-case and two digits per signature byte: a hash
      written in upper case is never accepted. */
  lemma VerifyLowerCase(user: seq<Entry>, secretHex: Option<string>, sign: (seq<Byte>, string) -> seq<Byte>)
    requires Verify(user, secretHex, sign)
    ensures Lookup(user, "hash").Str? && LowerHex(Lookup(user, "hash").s)
    ensures |Lookup(user, "hash").s| == 2 * |sign(DecodeHex(secretHex.value).value, DataCheckString(user))|
  {
    var sig := sign(DecodeHex(secretHex.value).value, DataCheckString(user));
    EncodeHexLower(sig);
    EncodeHexSpec(sig);
  }

  /** For a lower-case hash of even length, comparing hex strings is
      comparing bytes: the hash matches exactly when it decodes to the
      signature. */
  lemma VerifyByBytes(h: string, sig: seq<Byte>)
    requires LowerHex(h) && |h| % 2 == 0
    ensures EncodeHex(sig) == h <==> DecodeHex(h) == Ok(sig)
  {
    if EncodeHex(sig) == h {
      DecodeEncode(sig);
    }
    if DecodeHex(h) == Ok(sig) {
      EncodeDecode(h);
    }
  }
}
