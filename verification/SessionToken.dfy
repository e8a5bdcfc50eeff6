/** `auth.py`: unpadded base64url, and the signed session token printed and parsed with it. */
module SessionToken {
  import opened Wrappers

  type Byte = b: int | 0 <= b < 256

  // ---------- base64url, sections 4 and 5 of RFC 4648 ----------

  type Sextet = v: int | 0 <= v < 64

  function Symbol(v: Sextet): char {
    if v < 26 then ('A' as int + v) as char
    else if v < 52 then ('a' as int + v - 26) as char
    else if v < 62 then ('0' as int + v - 52) as char
    else if v == 62 then '-' else '_'
  }

  /** What the decoder makes of a character: both alphabets are accepted, since `-` and `_` are translated to `+` and
      `/` before a plain base64 decoding. */
  function ValueOf(c: char): Option<Sextet> {
    if 'A' <= c <= 'Z' then Some(c as int - 'A' as int)
    else if 'a' <= c <= 'z' then Some(c as int - 'a' as int + 26)
    else if '0' <= c <= '9' then Some(c as int - '0' as int + 52)
    else if c == '-' || c == '+' then Some(62)
    else if c == '_' || c == '/' then Some(63)
    else None
  }

  /** The bytes of a group of four symbols, and the symbols of a group of three bytes. */
  function Byte0(v: Sextet, w: Sextet): Byte { v * 4 + w / 16 }
  function Byte1(v: Sextet, w: Sextet): Byte { v % 16 * 16 + w / 4 }
  function Byte2(v: Sextet, w: Sextet): Byte { v % 4 * 64 + w }
  function Sextet0(a: Byte): Sextet { a / 4 }
  function Sextet1(a: Byte, b: Byte): Sextet { a % 4 * 16 + b / 16 }
  function Sextet2(b: Byte, c: Byte): Sextet { b % 16 * 4 + c / 64 }
  function Sextet3(c: Byte): Sextet { c % 64 }

  /** `base64.urlsafe_b64encode`: three bytes at a time, the last group padded to four characters. */
  function EncodePadded(x: seq<Byte>): string {
    if |x| == 0 then ""
    else if |x| == 1 then [Symbol(Sextet0(x[0])), Symbol(Sextet1(x[0], 0)), '=', '=']
    else if |x| == 2 then [Symbol(Sextet0(x[0])), Symbol(Sextet1(x[0], x[1])), Symbol(Sextet2(x[1], 0)), '=']
    else [Symbol(Sextet0(x[0])), Symbol(Sextet1(x[0], x[1])), Symbol(Sextet2(x[1], x[2])), Symbol(Sextet3(x[2]))]
         + EncodePadded(x[3..])
  }

  /** `rstrip("=")`. */
  function StripPadding(s: string): string {
    if s != "" && s[|s| - 1] == '=' then StripPadding(s[..|s| - 1]) else s
  }

  function Encode(x: seq<Byte>): string {
    StripPadding(EncodePadded(x))
  }

  /** The state of `binascii.a2b_base64`: place in the group of four, bits left over, padding seen, bytes so far. */
  datatype Scan = Scan(quad: nat, left: nat, pads: nat, out: seq<Byte>)

  const START := Scan(0, 0, 0, [])

  ghost predicate Valid(t: Scan) {
    t.quad < 4 && t.left < match t.quad case 0 => 1 case 1 => 64 case 2 => 16 case _ => 4
  }

  function Take(t: Scan, v: Sextet): (r: Scan)
    requires Valid(t)
    ensures Valid(r)
  {
    match t.quad
    case 0 => Scan(1, v, 0, t.out)
    case 1 => Scan(2, v % 16, 0, t.out + [t.left * 4 + v / 16])
    case 2 => Scan(3, v % 4, 0, t.out + [t.left * 16 + v / 4])
    case _ => Scan(0, 0, 0, t.out + [t.left * 64 + v])
  }

  /** None: `binascii.Error`, which is a ValueError. Characters outside the alphabets are skipped. */
  function Decoded(s: string, t: Scan): Option<seq<Byte>>
    requires Valid(t)
  {
    if s == "" then (if t.quad == 0 then Some(t.out) else None)
    else if s[0] == '=' then
      if t.quad >= 2 && t.quad + t.pads + 1 >= 4 then Some(t.out)
      else Decoded(s[1..], if t.quad >= 2 then t.(pads := t.pads + 1) else t)
    else if ValueOf(s[0]).None? then Decoded(s[1..], t)
    else Decoded(s[1..], Take(t, ValueOf(s[0]).value))
  }

  function Padding(n: nat): string {
    seq((4 - n % 4) % 4, _ => '=')
  }

  function Decode(raw: string): Option<seq<Byte>> {
    Decoded(raw + Padding(|raw|), START)
  }

  const UPPER: string := "ABCDEFGHIJKLMNOPQRSTUVWXYZ"
  const LOWER: string := "abcdefghijklmnopqrstuvwxyz"
  const OTHER: string := "0123456789-_"

  /** The alphabet of table 2 in section 5 of RFC 4648. */
  lemma {:induction false} SymbolInTable(v: Sextet)
    ensures Symbol(v) == if v < 26 then UPPER[v] else if v < 52 then LOWER[v - 26] else OTHER[v - 52]
  {
    UpperInTable(v);
    LowerInTable(v);
    hide UPPER, LOWER;
  }

  lemma {:induction false} UpperInTable(v: Sextet)
    ensures |UPPER| == 26 && (v < 26 ==> Symbol(v) == UPPER[v])
  {
  }

  lemma {:induction false} LowerInTable(v: Sextet)
    ensures |LOWER| == 26 && (26 <= v < 52 ==> Symbol(v) == LOWER[v - 26])
  {
  }

  /** The test vectors of section 10 of RFC 4648 for "f", "fo" and "foo", with their padding. */
  lemma {:induction false} TestVectors()
    ensures EncodePadded([102]) == "Zg==" && EncodePadded([102, 111]) == "Zm8=" && EncodePadded([102, 111, 111]) == "Zm9v"
  {
    assert EncodePadded([102, 111, 111][3..]) == "";
  }

  // ---------- decoding undoes encoding ----------

  /** The alphabet the encoder prints. */
  predicate UrlChar(c: char) {
    'A' <= c <= 'Z' || 'a' <= c <= 'z' || '0' <= c <= '9' || c == '-' || c == '_'
  }

  predicate InAlphabet(s: string) {
    forall i :: 0 <= i < |s| ==> UrlChar(s[i])
  }

  function Value(c: char): Sextet {
    if ValueOf(c).Some? then ValueOf(c).value else 0
  }

  lemma {:induction false} Symbols()
    ensures forall v: Sextet :: UrlChar(Symbol(v)) && Value(Symbol(v)) == v
    ensures forall c :: UrlChar(c) ==> ValueOf(c) == Some(Value(c)) && Symbol(Value(c)) == c
    ensures !UrlChar('=') && !UrlChar('.')
  {
  }

  lemma {:induction false} BytesBack(a: Byte, b: Byte, c: Byte)
    ensures Byte0(Sextet0(a), Sextet1(a, b)) == a
    ensures Byte1(Sextet1(a, b), Sextet2(b, c)) == b
    ensures Byte2(Sextet2(b, c), Sextet3(c)) == c
  {
  }

  lemma {:induction false} SextetsBack(v0: Sextet, v1: Sextet, v2: Sextet, v3: Sextet)
    ensures var a, b, c := Byte0(v0, v1), Byte1(v1, v2), Byte2(v2, v3);
            Sextet0(a) == v0 && Sextet1(a, b) == v1 && Sextet2(b, c) == v2 && Sextet3(c) == v3
  {
  }

  lemma {:induction false} LowDigit(high: nat, low: nat, base: nat)
    requires low < base && (base == 4 || base == 16)
    ensures (high * base + low) % base == low
  {
  }

  /** Without its right neighbour a byte gives the last symbol zero bits to end with. */
  lemma {:induction false} LastSextet(v: Sextet, w: Sextet)
    ensures Sextet1(Byte0(v, w), 0) == w / 16 * 16
    ensures Sextet2(Byte1(v, w), 0) == w / 4 * 4
  {
    LowDigit(v, w / 16, 4);
    LowDigit(v % 16, w / 4, 16);
  }

  lemma {:induction false} PaddingRepeats(n: nat)
    ensures Padding(n + 4) == Padding(n)
  {
    assert (n + 4) % 4 == n % 4;
  }

  /** The bytes a text stands for, a group of four at a time. */
  function Unpack(s: string): seq<Byte> {
    if |s| < 2 then []
    else
      var first := Byte0(Value(s[0]), Value(s[1]));
      if |s| == 2 then [first]
      else
        var second := Byte1(Value(s[1]), Value(s[2]));
        if |s| == 3 then [first, second]
        else [first, second, Byte2(Value(s[2]), Value(s[3]))] + Unpack(s[4..])
  }

  lemma {:induction false} ScanSymbol(s: string, t: Scan)
    requires Valid(t) && s != "" && UrlChar(s[0])
    ensures Decoded(s, t) == Decoded(s[1..], Take(t, Value(s[0])))
  {
    Symbols();
  }

  lemma {:induction false} ScanFour(s: string, out: seq<Byte>)
    requires |s| >= 4 && forall i :: 0 <= i < 4 ==> UrlChar(s[i])
    ensures var group := [Byte0(Value(s[0]), Value(s[1])), Byte1(Value(s[1]), Value(s[2])), Byte2(Value(s[2]), Value(s[3]))];
            Decoded(s, Scan(0, 0, 0, out)) == Decoded(s[4..], Scan(0, 0, 0, out + group))
  {
    hide UrlChar, Value, Decoded, Byte0, Byte1, Byte2;
    var v0, v1, v2, v3 := Value(s[0]), Value(s[1]), Value(s[2]), Value(s[3]);
    TakeFour(v0, v1, v2, v3, out);
    hide Take;
    var t := Scan(0, 0, 0, out);
    var t1 := Take(t, v0);
    var t2 := Take(t1, v1);
    var t3 := Take(t2, v2);
    ScanSymbol(s, t);
    assert s[1..][0] == s[1] && s[1..][1..] == s[2..];
    ScanSymbol(s[1..], t1);
    assert s[2..][0] == s[2] && s[2..][1..] == s[3..];
    ScanSymbol(s[2..], t2);
    assert s[3..][0] == s[3] && s[3..][1..] == s[4..];
    ScanSymbol(s[3..], t3);
  }

  lemma {:induction false} TakeFour(v0: Sextet, v1: Sextet, v2: Sextet, v3: Sextet, out: seq<Byte>)
    ensures var t1 := Take(Scan(0, 0, 0, out), v0);
            var t2 := Take(t1, v1);
            var t3 := Take(t2, v2);
            && t1.quad == 1 && t1.pads == 0 && t1.out == out
            && t2.quad == 2 && t2.pads == 0 && t2.out == out + [Byte0(v0, v1)]
            && t3.quad == 3 && t3.pads == 0 && t3.out == out + [Byte0(v0, v1), Byte1(v1, v2)]
            && Take(t3, v3) == Scan(0, 0, 0, out + [Byte0(v0, v1), Byte1(v1, v2), Byte2(v2, v3)])
  {
    var t2 := Scan(2, v1 % 16, 0, out + [Byte0(v0, v1)]);
    var t3 := Scan(3, v2 % 4, 0, t2.out + [Byte1(v1, v2)]);
    assert Take(Scan(1, v0, 0, out), v1) == t2;
    assert Take(t2, v2) == t3;
    assert Take(t3, v3) == Scan(0, 0, 0, t3.out + [Byte2(v2, v3)]);
  }

  /** The scanner at padding: after one symbol it is an error, after two or three it ends the text. */
  lemma {:induction false} ScanPadding(t: Scan)
    requires Valid(t) && t.pads == 0
    ensures t.quad == 1 ==> Decoded("===", t) == None
    ensures t.quad == 2 ==> Decoded("==", t) == Some(t.out)
    ensures t.quad == 3 ==> Decoded("=", t) == Some(t.out)
  {
    assert "==="[1..] == "==" && "=="[1..] == "=" && "="[1..] == "";
    if t.quad == 1 {
      assert Decoded("=", t) == Decoded("", t) == None;
      assert Decoded("==", t) == Decoded("=", t);
    }
    if t.quad == 2 {
      assert Decoded("==", t) == Decoded("=", t.(pads := 1));
    }
  }

  lemma {:induction false} ScanRest(s: string, out: seq<Byte>)
    requires 0 < |s| < 4 && InAlphabet(s)
    ensures Decoded(s + Padding(|s|), Scan(0, 0, 0, out)) == if |s| == 1 then None else Some(out + Unpack(s))
  {
    hide UrlChar, Value, Decoded, Byte0, Byte1, Byte2;
    var all := s + Padding(|s|);
    var v0, v1, v2 := Value(all[0]), Value(all[1]), Value(all[2]);
    TakeFour(v0, v1, v2, 0, out);
    hide Take;
    var t := Scan(0, 0, 0, out);
    var t1 := Take(t, v0);
    var t2 := Take(t1, v1);
    ScanSymbol(all, t);
    if |s| == 1 {
      ScanPadding(t1);
      assert all[1..] == "===";
    } else {
      ScanSymbol(all[1..], t1);
      assert all[1..][1..] == all[2..];
      if |s| == 2 {
        ScanPadding(t2);
        assert all[2..] == "==";
      } else {
        ScanSymbol(all[2..], t2);
        assert all[2..][1..] == all[3..];
        ScanPadding(Take(t2, v2));
        assert all[3..] == "=";
      }
    }
  }

  /** The decoder reads every text of the alphabet whose length is not one more than a multiple of four. */
  lemma {:induction false} ScanUnpacks(s: string, out: seq<Byte>)
    requires InAlphabet(s)
    ensures Decoded(s + Padding(|s|), Scan(0, 0, 0, out)) == if |s| % 4 == 1 then None else Some(out + Unpack(s))
  {
    hide UrlChar, Value, Byte0, Byte1, Byte2;
    if s == "" {
      assert s + Padding(0) == "" && out + [] == out;
    } else if |s| < 4 {
      ScanRest(s, out);
    } else {
      var all, rest := s + Padding(|s|), s[4..];
      var group := [Byte0(Value(s[0]), Value(s[1])), Byte1(Value(s[1]), Value(s[2])), Byte2(Value(s[2]), Value(s[3]))];
      ScanFour(all, out);
      PaddingRepeats(|rest|);
      assert Unpack(s) == group + Unpack(rest);
      hide Decoded, Padding, Unpack, InAlphabet;
      assert all[4..] == rest + Padding(|rest|);
      assert InAlphabet(rest) by { AlphabetTail(s); }
      ScanUnpacks(rest, out + group);
      assert out + (group + Unpack(rest)) == out + group + Unpack(rest);
    }
  }

  lemma {:induction false} AlphabetTail(s: string)
    requires |s| >= 4 && InAlphabet(s)
    ensures InAlphabet(s[4..])
  {
  }

  /** The encoder's text without its padding. */
  function Unpadded(x: seq<Byte>): string {
    if |x| == 0 then ""
    else if |x| == 1 then [Symbol(Sextet0(x[0])), Symbol(Sextet1(x[0], 0))]
    else if |x| == 2 then [Symbol(Sextet0(x[0])), Symbol(Sextet1(x[0], x[1])), Symbol(Sextet2(x[1], 0))]
    else [Symbol(Sextet0(x[0])), Symbol(Sextet1(x[0], x[1])), Symbol(Sextet2(x[1], x[2])), Symbol(Sextet3(x[2]))]
         + Unpadded(x[3..])
  }

  lemma {:induction false} UnpaddedShape(x: seq<Byte>)
    ensures InAlphabet(Unpadded(x)) && |Unpadded(x)| % 4 != 1
    ensures EncodePadded(x) == Unpadded(x) + Padding(|Unpadded(x)|)
  {
    hide Symbol, UrlChar, Value, ValueOf, Sextet0, Sextet1, Sextet2, Sextet3;
    Symbols();
    if |x| >= 3 {
      UnpaddedShape(x[3..]);
      var rest := Unpadded(x[3..]);
      PaddingRepeats(|rest|);
      hide Padding;
      assert Unpadded(x)[4..] == rest;
    }
  }

  lemma {:induction false} StripsPadding(s: string, n: nat)
    requires InAlphabet(s)
    ensures StripPadding(s + seq(n, _ => '=')) == s
  {
    var all := s + seq(n, _ => '=');
    if n == 0 {
      assert all == s;
    } else {
      StripsPadding(s, n - 1);
      assert all[..|all| - 1] == s + seq(n - 1, _ => '=');
    }
  }

  /** Stripping removes exactly the padding. */
  lemma {:induction false} EncodeIsUnpadded(x: seq<Byte>)
    ensures Encode(x) == Unpadded(x) && InAlphabet(Encode(x)) && |Encode(x)| % 4 != 1
  {
    UnpaddedShape(x);
    var s := Unpadded(x);
    StripsPadding(s, (4 - |s| % 4) % 4);
    assert Padding(|s|) == seq((4 - |s| % 4) % 4, _ => '=');
  }

  lemma {:induction false} UnpackUnpadded(x: seq<Byte>)
    ensures Unpack(Unpadded(x)) == x
  {
    hide Symbol, UrlChar, Value, ValueOf, Byte0, Byte1, Byte2, Sextet0, Sextet1, Sextet2, Sextet3;
    Symbols();
    if |x| > 0 {
      BytesBack(x[0], if |x| > 1 then x[1] else 0, if |x| > 2 then x[2] else 0);
    }
    if |x| > 2 {
      UnpackUnpadded(x[3..]);
      assert Unpadded(x)[4..] == Unpadded(x[3..]);
      assert x == [x[0], x[1], x[2]] + x[3..];
    }
  }

  /** Decoding gives back every byte string. */
  lemma {:induction false} RoundTrip(x: seq<Byte>)
    ensures Decode(Encode(x)) == Some(x)
  {
    EncodeIsUnpadded(x);
    ScanUnpacks(Encode(x), []);
    UnpackUnpadded(x);
    assert [] + x == x;
  }

  /** The bits of the last character that no byte takes up are zero. */
  predicate Canonical(s: string) {
    match |s| % 4
    case 2 => Value(s[|s| - 1]) % 16 == 0
    case 3 => Value(s[|s| - 1]) % 4 == 0
    case _ => true
  }

  lemma {:induction false} PackRest(s: string)
    requires InAlphabet(s) && |s| < 4 && |s| != 1
    ensures Unpadded(Unpack(s)) == s <==> Canonical(s)
  {
    hide Symbol, UrlChar, ValueOf, Value, Byte0, Byte1, Byte2, Sextet0, Sextet1, Sextet2, Sextet3;
    Symbols();
    if s != "" {
      var k := |s| - 1;
      SextetsBack(Value(s[0]), Value(s[1]), Value(s[k]), 0);
      LastSextet(Value(s[k - 1]), Value(s[k]));
      var back := Unpadded(Unpack(s));
      assert |back| == |s| && forall i :: 0 <= i < k ==> back[i] == s[i];
      assert back == s <==> back[k] == s[k];
      assert back[k] == s[k] <==> Value(back[k]) == Value(s[k]);
    }
  }

  lemma {:induction false} PackFour(s: string)
    requires InAlphabet(s) && |s| >= 4
    ensures Unpadded(Unpack(s)) == s[..4] + Unpadded(Unpack(s[4..]))
  {
    hide Symbol, UrlChar, ValueOf, Value, Byte0, Byte1, Byte2, Sextet0, Sextet1, Sextet2, Sextet3;
    Symbols();
    SextetsBack(Value(s[0]), Value(s[1]), Value(s[2]), Value(s[3]));
    assert UrlChar(s[0]) && UrlChar(s[1]) && UrlChar(s[2]) && UrlChar(s[3]);
    var x := Unpack(s);
    assert x[3..] == Unpack(s[4..]);
    assert Unpadded(x) == [s[0], s[1], s[2], s[3]] + Unpadded(x[3..]);
  }

  lemma {:induction false} PackUnpack(s: string)
    requires InAlphabet(s) && |s| % 4 != 1
    ensures Unpadded(Unpack(s)) == s <==> Canonical(s)
  {
    hide UrlChar, ValueOf, Value, Unpadded, Unpack, InAlphabet;
    if |s| < 4 {
      PackRest(s);
    } else {
      var rest := s[4..];
      PackFour(s);
      AlphabetTail(s);
      PackUnpack(rest);
      var back := Unpadded(Unpack(rest));
      assert s == s[..4] + rest && (s[..4] + back)[4..] == back;
      if |s| > 4 { assert rest[|rest| - 1] == s[|s| - 1]; }
    }
  }

  /** Which texts of the alphabet decode, and which of them are what the encoder prints for the decoded bytes. */
  lemma {:induction false} DecodeEncode(s: string)
    requires InAlphabet(s)
    ensures Decode(s).None? <==> |s| % 4 == 1
    ensures Decode(s).Some? ==> (Encode(Decode(s).value) == s <==> Canonical(s))
  {
    ScanUnpacks(s, []);
    assert [] + Unpack(s) == Unpack(s);
    if |s| % 4 != 1 {
      PackUnpack(s);
      EncodeIsUnpadded(Unpack(s));
    }
  }

  // ---------- the token ----------

  /** `json.loads`: not JSON, JSON that is not an object, or an object's `u` and `e` where they have the right type. */
  datatype Loaded = BadJson | NotAnObject | Fields(username: Option<string>, expiresAt: Option<int>)

  /** HMAC-SHA256 in hexadecimal and the JSON library. */
  datatype Codec = Codec(mac: (string, string) -> string, dump: (string, int) -> seq<Byte>, load: seq<Byte> -> Loaded)

  predicate IsHex(s: string) {
    forall i :: 0 <= i < |s| ==> '0' <= s[i] <= '9' || 'a' <= s[i] <= 'f'
  }

  ghost predicate Lawful(c: Codec) {
    && (forall key, text :: IsHex(c.mac(key, text)))
    && (forall u, e :: c.load(c.dump(u, e)) == Fields(Some(u), Some(e)))
  }

  predicate Reads(c: Codec, payload: string, loaded: Loaded) {
    Decode(payload).Some? && c.load(Decode(payload).value) == loaded
  }

  datatype Verdict = Session(username: string, expiresAt: int) | Rejected | Raised

  function Create(c: Codec, username: string, secret: string, maxAge: int, now: int): string {
    var payload := Encode(c.dump(username, now + maxAge));
    payload + "." + c.mac(secret, payload)
  }

  /** The position of the last dot; -1 without one. */
  function LastDot(s: string): (i: int)
    ensures -1 <= i < |s|
    ensures i >= 0 ==> s[i] == '.'
    ensures forall k :: i < k < |s| ==> s[k] != '.'
  {
    if s == "" then -1 else if s[|s| - 1] == '.' then |s| - 1 else LastDot(s[..|s| - 1])
  }

  predicate IsAscii(s: string) {
    forall i :: 0 <= i < |s| ==> s[i] as int < 128
  }

  function Verify(c: Codec, token: string, secret: string, now: int): Verdict {
    var dot := LastDot(token);
    if dot < 0 then Rejected
    else
      var payload, signature := token[..dot], token[dot + 1..];
      if !IsAscii(signature) then Raised
      else if signature != c.mac(secret, payload) then Rejected
      else
        var bytes := Decode(payload);
        if bytes.None? then Rejected
        else match c.load(bytes.value)
          case BadJson => Rejected
          case NotAnObject => Raised
          case Fields(username, expiresAt) =>
            if username.None? || expiresAt.None? then Rejected
            else if expiresAt.value <= now then Rejected
            else Session(username.value, expiresAt.value)
  }

  lemma {:induction false} SplitsAtSignature(c: Codec, payload: string, secret: string)
    requires Lawful(c)
    ensures var token := payload + "." + c.mac(secret, payload);
            var dot := LastDot(token);
            dot == |payload| && token[..dot] == payload && token[dot + 1..] == c.mac(secret, payload)
    ensures IsAscii(c.mac(secret, payload))
  {
    var mac := c.mac(secret, payload);
    assert IsHex(mac);
    var token := payload + "." + mac;
    var dot := LastDot(token);
    assert token[|payload|] == '.';
    assert dot >= |payload|;
    assert forall k :: 0 <= k < |mac| ==> token[|payload| + 1 + k] == mac[k];
    assert forall k :: |payload| < k < |token| ==> token[k] == mac[k - |payload| - 1] != '.';
  }

  /** A token verifies under its own secret, to the session it was made for, exactly before its expiry. */
  lemma {:induction false} TokenRoundTrip(c: Codec, username: string, secret: string, maxAge: int, made: int, now: int)
    requires Lawful(c)
    ensures Verify(c, Create(c, username, secret, maxAge, made), secret, now)
         == if now < made + maxAge then Session(username, made + maxAge) else Rejected
  {
    var bytes := c.dump(username, made + maxAge);
    SplitsAtSignature(c, Encode(bytes), secret);
    RoundTrip(bytes);
  }

  /** A payload with its signature behind a dot. */
  predicate Signed(c: Codec, token: string, secret: string, payload: string) {
    token == payload + "." + c.mac(secret, payload)
  }

  /** Among signed tokens, verification reads the payload that was signed. */
  lemma {:induction false} SignedSplit(c: Codec, token: string, secret: string, payload: string)
    requires Lawful(c)
    ensures var dot := LastDot(token);
            Signed(c, token, secret, payload)
            <==> dot >= 0 && payload == token[..dot] && IsAscii(token[dot + 1..]) && token[dot + 1..] == c.mac(secret, payload)
  {
    var dot := LastDot(token);
    if dot >= 0 {
      assert token == token[..dot] + "." + token[dot + 1..];
    }
    if Signed(c, token, secret, payload) {
      SplitsAtSignature(c, payload, secret);
    }
  }

  /** A token is accepted exactly when it is a signed payload that reads as an unexpired session. */
  lemma {:induction false} AcceptedIff(c: Codec, token: string, secret: string, now: int, username: string, expiresAt: int)
    requires Lawful(c)
    ensures Verify(c, token, secret, now) == Session(username, expiresAt)
       <==> now < expiresAt && exists payload :: Signed(c, token, secret, payload) && Reads(c, payload, Fields(Some(username), Some(expiresAt)))
  {
    hide Signed, IsAscii, IsHex, Decode, Lawful;
    forall payload { SignedSplit(c, token, secret, payload); }
  }

  /** Verification raises instead of answering exactly on a signature outside ASCII, and on a payload that was signed
      but is not a JSON object. */
  lemma {:induction false} RaisesIff(c: Codec, token: string, secret: string, now: int)
    requires Lawful(c)
    ensures Verify(c, token, secret, now) == Raised
       <==> LastDot(token) >= 0 && (!IsAscii(token[LastDot(token) + 1..])
            || exists payload :: Signed(c, token, secret, payload) && Reads(c, payload, NotAnObject))
  {
    hide Signed, IsAscii, IsHex, Decode, Lawful;
    forall payload { SignedSplit(c, token, secret, payload); }
  }
}
