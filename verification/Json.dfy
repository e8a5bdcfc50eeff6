/** JSON trees as the agents pass them around, and the text `json.dumps(value, ensure_ascii=False,
    default=str)` writes for them: separators ", " and ": ", and the escapes of section 7 of RFC 8259. */
module Json {
  import opened Text

  predicate IsNumberChar(c: char) {
    IsDigit(c) || c in {'+', '-', '.', 'e', 'E', 'N', 'a', 'I', 'n', 'f', 'i', 't', 'y'}
  }

  /** The printed form of a Python int or float. */
  type NumText = s: string | forall i :: 0 <= i < |s| ==> IsNumberChar(s[i]) witness "0"

  datatype Field = Field(key: string, value: Json)

  /** `JOpaque` is any object that only `default=str` can print. */
  datatype Json =
    | JNull
    | JBool(b: bool)
    | JNum(repr: NumText)
    | JStr(s: string)
    | JOpaque(text: string)
    | JList(items: seq<Json>)
    | JObj(fields: seq<Field>)

  function Number(n: nat): Json {
    JNum(Digits(n))
  }

  /** The value of the first field with this key; Python dicts hold at most one. */
  function Lookup(fields: seq<Field>, key: string): (v: Json)
  {
    if fields == [] then JNull
    else if fields[0].key == key then fields[0].value
    else Lookup(fields[1..], key)
  }

  function Keys(fields: seq<Field>): (ks: seq<string>)
    ensures |ks| == |fields|
    ensures forall i :: 0 <= i < |fields| ==> ks[i] == fields[i].key
  {
    seq(|fields|, i requires 0 <= i < |fields| => fields[i].key)
  }

  // ---------- escapes ----------

  function HexDigit(d: nat): (c: char)
    requires d < 16
    ensures c > ' ' && c != '"' && c != '\\'
  {
    if d < 10 then DigitChar(d) else ('a' as int + (d - 10)) as char
  }

  function EscapeChar(c: char): (s: string)
    ensures 1 <= |s| <= 6
    ensures forall i :: 0 <= i < |s| ==> s[i] >= ' '
    ensures c >= ' ' ==> |s| == if c == '"' || c == '\\' then 2 else 1
  {
    if c == '"' then "\\\""
    else if c == '\\' then "\\\\"
    else if c == '\n' then "\\n"
    else if c == '\r' then "\\r"
    else if c == '\t' then "\\t"
    else if c as int == 0x0c then "\\f"
    else if c as int == 0x08 then "\\b"
    else if c < ' ' then "\\u00" + [HexDigit(c as int / 16), HexDigit(c as int % 16)]
    else [c]
  }

  function Escape(s: string): (r: string)
    ensures |s| <= |r|
    ensures forall i :: 0 <= i < |r| ==> r[i] >= ' '
  {
    if s == [] then [] else EscapeChar(s[0]) + Escape(s[1..])
  }

  function Quote(s: string): (r: string)
    ensures forall i :: 0 <= i < |r| ==> r[i] >= ' '
  {
    "\"" + Escape(s) + "\""
  }

  predicate Printable(s: string) {
    forall i :: 0 <= i < |s| ==> s[i] >= ' '
  }

  lemma {:induction false} EscapeConcat(s: string, t: string)
    ensures Escape(s + t) == Escape(s) + Escape(t)
  {
    if s == [] {
      assert s + t == t;
    } else {
      assert (s + t)[1..] == s[1..] + t;
      EscapeConcat(s[1..], t);
    }
  }

  /** Text without control characters at most doubles when it is escaped again. */
  lemma {:induction false} EscapeDoubles(s: string)
    requires Printable(s)
    ensures |Escape(s)| <= 2 * |s|
  {
    if s != [] {
      EscapeDoubles(s[1..]);
    }
  }

  /** Text that needs no escape. */
  predicate Plain(s: string) {
    forall i :: 0 <= i < |s| ==> s[i] >= ' ' && s[i] != '"' && s[i] != '\\'
  }

  lemma {:induction false} PlainConcat(s: string, t: string)
    requires Plain(s) && Plain(t)
    ensures Plain(s + t)
  {
  }

  lemma {:induction false} EscapePlain(s: string)
    requires Plain(s)
    ensures Escape(s) == s
  {
    if s != [] {
      EscapePlain(s[1..]);
    }
  }

  /** How many characters are printed with a backslash in front. */
  function Doubled(s: string): nat {
    if s == [] then 0 else (if s[0] == '"' || s[0] == '\\' then 1 else 0) + Doubled(s[1..])
  }

  lemma {:induction false} DoubledConcat(s: string, t: string)
    ensures Doubled(s + t) == Doubled(s) + Doubled(t)
  {
    if s == [] {
      assert s + t == t;
    } else {
      assert (s + t)[1..] == s[1..] + t;
      DoubledConcat(s[1..], t);
    }
  }

  /** The exact length of text without control characters when it is escaped again. */
  lemma {:induction false} EscapeLength(s: string)
    requires Printable(s)
    ensures |Escape(s)| == |s| + Doubled(s)
  {
    if s != [] {
      EscapeLength(s[1..]);
    }
  }

  lemma {:induction false} AllDoubled(s: string)
    requires forall i :: 0 <= i < |s| ==> s[i] == '\\' || s[i] == '"'
    ensures Doubled(s) == |s|
  {
    if s != [] {
      AllDoubled(s[1..]);
    }
  }

  /** Backslashes are printed as twice as many. */
  lemma {:induction false} EscapeBackslashes(n: nat)
    ensures Escape(seq(n, _ => '\\')) == seq(2 * n, _ => '\\')
  {
    var s := seq(n, _ => '\\');
    if n > 0 {
      EscapeBackslashes(n - 1);
      assert s[1..] == seq(n - 1, _ => '\\');
      assert Escape(s) == "\\\\" + Escape(s[1..]);
    }
  }

  // ---------- the printer ----------

  function Join(parts: seq<string>): (r: string) {
    if |parts| == 0 then ""
    else if |parts| == 1 then parts[0]
    else parts[0] + ", " + Join(parts[1..])
  }

  function Dumps(j: Json): (r: string)
    decreases j, 1
  {
    match j
    case JNull => "null"
    case JBool(b) => if b then "true" else "false"
    case JNum(repr) => repr
    case JStr(s) => Quote(s)
    case JOpaque(text) => Quote(text)
    case JList(items) => "[" + Join(ItemTexts(j)) + "]"
    case JObj(fields) => "{" + Join(FieldTexts(j)) + "}"
  }

  function ItemTexts(j: Json): (r: seq<string>)
    requires j.JList?
    ensures |r| == |j.items|
    decreases j, 0
  {
    seq(|j.items|, i requires 0 <= i < |j.items| => Dumps(j.items[i]))
  }

  function FieldTexts(j: Json): (r: seq<string>)
    requires j.JObj?
    ensures |r| == |j.fields|
    decreases j, 0
  {
    seq(|j.fields|, i requires 0 <= i < |j.fields| => Quote(j.fields[i].key) + ": " + Dumps(j.fields[i].value))
  }

  /** `estimate_json_chars`. */
  function Size(j: Json): nat {
    |Dumps(j)|
  }

  lemma {:induction false} Literals()
    ensures Dumps(JNull) == "null" && Dumps(JBool(true)) == "true" && Dumps(JBool(false)) == "false"
    ensures Dumps(JList([])) == "[]" && Dumps(JObj([])) == "{}"
  {
  }

  /** The separators inside lists and objects. */
  lemma {:induction false} ListSeparators(a: Json, b: Json)
    ensures Dumps(JList([a, b])) == "[" + Dumps(a) + ", " + Dumps(b) + "]"
  {
    var list := JList([a, b]);
    assert ItemTexts(list) == [Dumps(a), Dumps(b)];
    JoinTwo(Dumps(a), Dumps(b));
    assert Dumps(list) == "[" + (Dumps(a) + ", " + Dumps(b)) + "]";
  }

  lemma {:induction false} ObjectSeparators(k: string, a: Json, l: string, b: Json)
    ensures Dumps(JObj([Field(k, a), Field(l, b)])) == "{" + (Quote(k) + ": " + Dumps(a)) + ", " + (Quote(l) + ": " + Dumps(b)) + "}"
  {
    hide Quote;
    var dict, first, second := JObj([Field(k, a), Field(l, b)]), Quote(k) + ": " + Dumps(a), Quote(l) + ": " + Dumps(b);
    assert FieldTexts(dict) == [first, second];
    JoinTwo(first, second);
    assert Dumps(dict) == "{" + (first + ", " + second) + "}";
  }

  lemma {:induction false} JoinTwo(a: string, b: string)
    ensures Join([a, b]) == a + ", " + b
  {
    assert [a, b][1..] == [b];
  }

  /** The escapes of section 7 of RFC 8259 that Python prints. */
  lemma {:induction false} EscapesSay(c: char)
    ensures c == '"' ==> EscapeChar(c) == ['\\', '"']
    ensures c == '\\' ==> EscapeChar(c) == ['\\', '\\']
    ensures c == '\n' ==> EscapeChar(c) == ['\\', 'n']
    ensures c == '\r' ==> EscapeChar(c) == ['\\', 'r']
    ensures c == '\t' ==> EscapeChar(c) == ['\\', 't']
    ensures c >= ' ' && c != '"' && c != '\\' ==> EscapeChar(c) == [c]
    ensures c < ' ' ==> EscapeChar(c)[0] == '\\'
  {
  }

  lemma {:induction false} FieldSize(key: string, value: Json)
    requires Plain(key)
    ensures |Quote(key) + ": " + Dumps(value)| == |key| + 4 + Size(value)
  {
    EscapePlain(key);
  }

  lemma {:induction false} JoinPrintable(parts: seq<string>)
    requires forall i :: 0 <= i < |parts| ==> Printable(parts[i])
    ensures Printable(Join(parts))
  {
    if |parts| > 1 {
      JoinPrintable(parts[1..]);
    }
  }

  /** JSON text never holds a control character, whatever the tree holds. */
  lemma {:induction false} DumpsPrintable(j: Json)
    ensures Printable(Dumps(j))
  {
    match j
    case JList(items) =>
      forall i | 0 <= i < |items| ensures Printable(ItemTexts(j)[i]) { DumpsPrintable(items[i]); }
      JoinPrintable(ItemTexts(j));
    case JObj(fields) =>
      forall i | 0 <= i < |fields| ensures Printable(FieldTexts(j)[i]) { DumpsPrintable(fields[i].value); }
      JoinPrintable(FieldTexts(j));
    case _ =>
  }

  ghost predicate NoLonger(b: seq<string>, a: seq<string>) {
    |b| <= |a| && forall i :: 0 <= i < |b| ==> |b[i]| <= |a[i]|
  }

  /** Cutting a tail and shortening parts never lengthens the joined text; it strictly shortens it
      when a part gets shorter or a nonempty rest loses a tail. */
  lemma {:induction false} JoinShorter(b: seq<string>, a: seq<string>)
    requires NoLonger(b, a)
    ensures |Join(b)| <= |Join(a)|
    ensures 0 < |b| < |a| ==> |Join(b)| < |Join(a)|
    ensures (exists i :: 0 <= i < |b| && |b[i]| < |a[i]|) ==> |Join(b)| < |Join(a)|
  {
    if |b| > 0 && |a| > 1 {
      assert NoLonger(b[1..], a[1..]);
      JoinShorter(b[1..], a[1..]);
      if i :| 0 <= i < |b| && |b[i]| < |a[i]| {
        if i > 0 {
          assert |b[1..][i - 1]| < |a[1..][i - 1]|;
        }
      }
    }
  }

  /** The texts of a list of fields. */
  function Parts(fields: seq<Field>): (r: seq<string>)
    ensures |r| == |fields|
  {
    FieldTexts(JObj(fields))
  }

  lemma {:induction false} JoinCons(p: string, rest: seq<string>)
    ensures |Join([p] + rest)| == |p| + (if rest == [] then 0 else 2 + |Join(rest)|)
  {
    assert ([p] + rest)[1..] == rest;
  }

  lemma {:induction false} PartsCons(f: Field, rest: seq<Field>)
    ensures Parts([f] + rest) == [Quote(f.key) + ": " + Dumps(f.value)] + Parts(rest)
  {
  }

  lemma {:induction false} EmptyParts()
    ensures Join(Parts([])) == "" && Parts([]) == []
  {
  }

  /** Cutting a text to a limit never lengthens its quoted form. */
  lemma {:induction false} TrimTextShorter(s: string, limit: int)
    requires limit >= 3
    ensures |Escape(TrimText(s, limit))| <= |Escape(s)|
  {
    hide Escape, RStrip;
    if |s| > limit {
      var front := RStrip(s[..limit - 3]);
      EscapeConcat(front, ELLIPSIS);
      EscapePlain(ELLIPSIS);
      EscapeConcat(front, s[|front|..]);
      assert s == front + s[|front|..];
    }
  }
}
