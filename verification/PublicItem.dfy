/** `compact_public_item`: a bounded, shallow copy of a public record. */
module PublicItem {
  import opened Wrappers
  import opened Text
  import opened Json

  const LONG_TEXT_KEYS: set<string> :=
    {"content", "body", "text", "description", "detail", "details", "raw", "html", "markdown"}

  predicate IsScalar(j: Json) {
    j.JStr? || j.JNum? || j.JBool?
  }

  function Head<T>(s: seq<T>, n: nat): (r: seq<T>)
    ensures |r| <= n && r <= s
  {
    if |s| <= n then s else s[..n]
  }

  function TrimScalar(j: Json, limit: int): Json {
    if j.JStr? then JStr(TrimText(j.s, limit)) else j
  }

  function Least(a: int, b: int): int {
    if a < b then a else b
  }

  /** What becomes of one value; None when the key is left out. */
  function CompactValue(lower: string -> string, v: Json, maxItems: int, limit: int): Option<Json>
    decreases v, 1
  {
    match v
    case JStr(s) => if s == "" then None else Some(JStr(TrimText(s, limit)))
    case JNum(_) => Some(v)
    case JBool(_) => Some(v)
    case JList(items) =>
      var head := Head(items, 5);
      if items != [] && forall i :: 0 <= i < |head| ==> IsScalar(head[i]) then
        Some(JList(seq(|head|, i requires 0 <= i < |head| => TrimScalar(head[i], limit))))
      else None
    case JObj(fields) =>
      var nested := CompactFields(lower, fields, Least(6, maxItems), Least(6, maxItems), limit);
      if nested == [] then None else Some(JObj(nested))
    case _ => None
  }

  /** `room` is what is left of `max_items`. */
  function CompactFields(lower: string -> string, fields: seq<Field>, maxItems: int, room: int, limit: int): (r: seq<Field>)
    ensures |r| <= if room <= 0 then 0 else room
    decreases fields, 0
  {
    if fields == [] || room <= 0 then []
    else
      var value := if lower(fields[0].key) in LONG_TEXT_KEYS then None else CompactValue(lower, fields[0].value, maxItems, limit);
      match value
      case None => CompactFields(lower, fields[1..], maxItems, room, limit)
      case Some(v) => [Field(fields[0].key, v)] + CompactFields(lower, fields[1..], maxItems, room - 1, limit)
  }

  function Compact(lower: string -> string, item: Json, maxItems: int, limit: int): Json {
    JObj(if item.JObj? then CompactFields(lower, item.fields, maxItems, maxItems, limit) else [])
  }

  /** At most `max_items` fields, at most six in every nested object, no long-text key anywhere, lists of at most
      five scalars, strings within the limit. */
  ghost predicate Small(lower: string -> string, j: Json, room: int, limit: int) {
    match j
    case JObj(fields) =>
      && |fields| <= (if room <= 0 then 0 else room)
      && forall i :: 0 <= i < |fields| ==>
           && lower(fields[i].key) !in LONG_TEXT_KEYS
           && Small(lower, fields[i].value, Least(6, room), limit)
    case JList(items) => |items| <= 5 && forall i :: 0 <= i < |items| ==> IsScalar(items[i]) && Small(lower, items[i], room, limit)
    case JStr(s) => |s| <= limit
    case JOpaque(_) => false
    case _ => true
  }

  lemma {:induction false} CompactValueSmall(lower: string -> string, v: Json, maxItems: int, limit: int)
    requires limit >= 3
    ensures CompactValue(lower, v, maxItems, limit).Some? ==>
              Small(lower, CompactValue(lower, v, maxItems, limit).value, Least(6, maxItems), limit)
    decreases v, 1
  {
    if v.JObj? {
      CompactFieldsSmall(lower, v.fields, Least(6, maxItems), Least(6, maxItems), limit);
    }
  }

  lemma {:induction false} CompactFieldsSmall(lower: string -> string, fields: seq<Field>, maxItems: int, room: int, limit: int)
    requires limit >= 3
    ensures forall f :: f in CompactFields(lower, fields, maxItems, room, limit) ==>
              lower(f.key) !in LONG_TEXT_KEYS && Small(lower, f.value, Least(6, maxItems), limit)
    decreases fields, 0
  {
    if fields != [] && room > 0 {
      CompactValueSmall(lower, fields[0].value, maxItems, limit);
      CompactFieldsSmall(lower, fields[1..], maxItems, room, limit);
      CompactFieldsSmall(lower, fields[1..], maxItems, room - 1, limit);
    }
  }

  lemma {:induction false} CompactSmall(lower: string -> string, item: Json, maxItems: int, limit: int)
    requires limit >= 3
    ensures Small(lower, Compact(lower, item, maxItems, limit), maxItems, limit)
  {
    if item.JObj? {
      CompactFieldsSmall(lower, item.fields, maxItems, maxItems, limit);
    }
  }

  lemma {:induction false} CompactListShorter(v: Json, limit: int)
    requires v.JList? && limit >= 3
    ensures var head := Head(v.items, 5);
            Size(JList(seq(|head|, i requires 0 <= i < |head| => TrimScalar(head[i], limit)))) <= Size(v)
  {
    var head := Head(v.items, 5);
    var r := JList(seq(|head|, i requires 0 <= i < |head| => TrimScalar(head[i], limit)));
    forall i | 0 <= i < |head| ensures |ItemTexts(r)[i]| <= |ItemTexts(v)[i]| {
      if head[i].JStr? { TrimTextShorter(head[i].s, limit); }
    }
    JoinShorter(ItemTexts(r), ItemTexts(v));
  }

  lemma {:induction false} CompactValueShorter(lower: string -> string, v: Json, maxItems: int, limit: int)
    requires limit >= 3
    ensures CompactValue(lower, v, maxItems, limit).Some? ==> Size(CompactValue(lower, v, maxItems, limit).value) <= Size(v)
    decreases v, 1
  {
    match v
    case JStr(s) => TrimTextShorter(s, limit);
    case JList(_) => CompactListShorter(v, limit);
    case JObj(fields) => CompactFieldsShorter(lower, fields, Least(6, maxItems), Least(6, maxItems), limit);
    case _ =>
  }

  lemma {:induction false} CompactFieldsShorter(lower: string -> string, fields: seq<Field>, maxItems: int, room: int, limit: int)
    requires limit >= 3
    ensures |Join(Parts(CompactFields(lower, fields, maxItems, room, limit)))| <= |Join(Parts(fields))|
    decreases fields, 0
  {
    hide Dumps, Quote, Join, Parts, CompactValue;
    if fields == [] || room <= 0 {
      EmptyParts();
    } else {
      var f, rest := fields[0], fields[1..];
      assert fields == [f] + rest;
      PartsCons(f, rest);
      JoinCons(Quote(f.key) + ": " + Dumps(f.value), Parts(rest));
      CompactFieldsShorter(lower, rest, maxItems, room, limit);
      var value := if lower(f.key) in LONG_TEXT_KEYS then None else CompactValue(lower, f.value, maxItems, limit);
      if value.Some? {
        var kept := CompactFields(lower, rest, maxItems, room - 1, limit);
        CompactFieldsShorter(lower, rest, maxItems, room - 1, limit);
        CompactValueShorter(lower, f.value, maxItems, limit);
        PartsCons(Field(f.key, value.value), kept);
        JoinCons(Quote(f.key) + ": " + Dumps(value.value), Parts(kept));
        FewerFields(lower, rest, maxItems, room - 1, limit);
      } else {
        EmptyParts();
      }
    }
  }

  lemma {:induction false} FewerFields(lower: string -> string, fields: seq<Field>, maxItems: int, room: int, limit: int)
    ensures |CompactFields(lower, fields, maxItems, room, limit)| <= |fields|
    decreases |fields|
  {
    hide CompactValue;
    if fields != [] && room > 0 {
      FewerFields(lower, fields[1..], maxItems, room, limit);
      FewerFields(lower, fields[1..], maxItems, room - 1, limit);
    }
  }

  /** A compacted record is never longer than the record. */
  lemma {:induction false} CompactShorter(lower: string -> string, item: Json, maxItems: int, limit: int)
    requires limit >= 3 && item.JObj?
    ensures Size(Compact(lower, item, maxItems, limit)) <= Size(item)
  {
    CompactFieldsShorter(lower, item.fields, maxItems, maxItems, limit);
  }

  /** A value that fits and is not empty. */
  predicate ShortScalar(v: Json, limit: int) {
    v.JNum? || v.JBool? || (v.JStr? && 0 < |v.s| <= limit)
  }

  /** What compacting makes of a value is in the record, as long as fewer than `room` fields come before it. */
  lemma {:induction false} FieldKept(lower: string -> string, fields: seq<Field>, maxItems: int, room: int, limit: int, i: nat)
    requires i < |fields| && i < room && lower(fields[i].key) !in LONG_TEXT_KEYS
    requires CompactValue(lower, fields[i].value, maxItems, limit).Some?
    ensures Field(fields[i].key, CompactValue(lower, fields[i].value, maxItems, limit).value)
            in CompactFields(lower, fields, maxItems, room, limit)
    decreases i
  {
    hide CompactValue;
    if i > 0 {
      var dropped := lower(fields[0].key) in LONG_TEXT_KEYS || CompactValue(lower, fields[0].value, maxItems, limit).None?;
      FieldKept(lower, fields[1..], maxItems, if dropped then room else room - 1, limit, i - 1);
    }
  }

  /** A short scalar under an ordinary key among the first `max_items` fields is kept as it is. */
  lemma {:induction false} ShortScalarKept(lower: string -> string, fields: seq<Field>, maxItems: int, limit: int, i: nat)
    requires i < |fields| && i < maxItems && ShortScalar(fields[i].value, limit)
    requires lower(fields[i].key) !in {"content", "body", "text", "description", "detail", "details", "raw", "html", "markdown"}
    ensures fields[i] in Compact(lower, JObj(fields), maxItems, limit).fields
  {
    FieldKept(lower, fields, maxItems, maxItems, limit, i);
  }
}
