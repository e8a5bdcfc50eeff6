/** `run_replay.py`: masking secrets and prompts in a replay snapshot, and cutting long text. */
module RunReplay {
  import opened Wrappers
  import opened Text
  import opened Json

  const MASK: string := "***"
  const OMITTED: string := "[prompt omitted]"
  const CONTENT_LIMIT: nat := 3000
  const CONTENT_KEEP: nat := 2900
  const SECTION_LIMIT: nat := 30000
  const SECTION_KEEP: nat := 29900

  /** The longest string CPython can hold. */
  const MAX_LENGTH: nat := 0x7FFF_FFFF_FFFF_FFFF

  /** `sensitive` stands for the secret-key pattern, `lower` for `str.lower`. */
  datatype Policy = Policy(sensitive: string -> bool, lower: string -> string)

  // ---------- cutting text ----------

  /** `value[:keep].rstrip()` and a note of what was cut. */
  function Note(cut: nat): string {
    "\n...[truncated " + Digits(cut) + " chars]"
  }

  function CutText(s: string, limit: nat, keep: nat): string
    requires keep <= limit
  {
    if |s| <= limit then s else RStrip(s[..keep]) + Note(|s| - keep)
  }

  lemma {:induction false} NoteLength(cut: nat)
    requires cut <= MAX_LENGTH
    ensures 23 <= |Note(cut)| <= 41
  {
    assert MAX_LENGTH < Pow10(19) by { PowersOfTen(); }
    DigitsLength(cut, 19);
  }

  lemma {:induction false} PowersOfTen()
    ensures Pow10(19) == 10_000_000_000_000_000_000
  {
    assert Pow10(4) == 10_000;
    assert Pow10(8) == 100_000_000;
    assert Pow10(12) == 1_000_000_000_000;
    assert Pow10(16) == 10_000_000_000_000_000;
  }

  /** The cut text is itself short enough not to be cut again. */
  lemma {:induction false} CutTextFits(s: string, limit: nat, keep: nat)
    requires keep + 100 <= limit && |s| <= MAX_LENGTH
    ensures |CutText(s, limit, keep)| <= limit
    ensures |s| > limit ==> |CutText(s, limit, keep)| >= 23
  {
    if |s| > limit { NoteLength(|s| - keep); }
  }

  // ---------- sanitize_replay_payload ----------

  const PROMPT_KEYS: set<string> := {"system_prompt", "default_content", "prompt"}
  const PROMPT_PARENTS: set<string> := {"prompt_key", "display_name", "module_name", "agent_name"}

  /** `_is_full_prompt_field`; the parent matters through its keys only. */
  predicate IsPromptField(p: Policy, key: string, parentKeys: seq<string>) {
    var lowered := p.lower(key);
    || lowered in PROMPT_KEYS
    || HasSuffix(lowered, "_prompt")
    || (lowered == "content" && exists k :: k in PROMPT_PARENTS && k in parentKeys)
  }

  predicate SystemRole(fields: seq<Field>) {
    Lookup(fields, "role") == JStr("system")
  }

  /** `parent` and `key` say where the value stands; lists pass them on to their items. */
  function Sanitize(p: Policy, j: Json, parent: Option<seq<Field>>, key: Option<string>): (r: Json)
    ensures j.JObj? ==> r.JObj? && Keys(r.fields) == Keys(j.fields)
    ensures j.JList? ==> r.JList? && |r.items| == |j.items|
    ensures j.JStr? <==> r.JStr?
    decreases j, 1
  {
    match j
    case JObj(fields) => JObj(SanitizeFields(p, j))
    case JList(items) => JList(seq(|items|, i requires 0 <= i < |items| => Sanitize(p, items[i], parent, key)))
    case JStr(s) =>
      if key == Some("content") then
        if parent.Some? && SystemRole(parent.value) then JStr(OMITTED) else JStr(CutText(s, CONTENT_LIMIT, CONTENT_KEEP))
      else j
    case _ => j
  }

  function SanitizeFields(p: Policy, j: Json): (r: seq<Field>)
    requires j.JObj?
    ensures |r| == |j.fields| && Keys(r) == Keys(j.fields)
    decreases j, 0
  {
    seq(|j.fields|, i requires 0 <= i < |j.fields| => Field(j.fields[i].key,
      if p.sensitive(j.fields[i].key) then JStr(MASK)
      else if IsPromptField(p, j.fields[i].key, Keys(j.fields)) then JStr(OMITTED)
      else Sanitize(p, j.fields[i].value, Some(j.fields), Some(j.fields[i].key))))
  }

  function SanitizeRoot(p: Policy, j: Json): Json {
    Sanitize(p, j, None, None)
  }

  ghost predicate PythonSized(j: Json) {
    match j
    case JStr(s) => |s| <= MAX_LENGTH
    case JList(items) => forall i :: 0 <= i < |items| ==> PythonSized(items[i])
    case JObj(fields) => forall i :: 0 <= i < |fields| ==> PythonSized(fields[i].value)
    case _ => true
  }

  /** The parent of the second pass is the sanitised parent: its role is "system" only if it was before. */
  ghost predicate RoleKept(before: Option<seq<Field>>, after: Option<seq<Field>>) {
    && (before.Some? <==> after.Some?)
    && (before.Some? && SystemRole(after.value) ==> SystemRole(before.value))
  }

  lemma {:induction false} LookupAt(fields: seq<Field>, key: string)
    ensures (key !in Keys(fields) && Lookup(fields, key) == JNull)
         || exists i :: 0 <= i < |fields| && fields[i].key == key && fields[i].value == Lookup(fields, key)
                        && forall k :: 0 <= k < i ==> fields[k].key != key
  {
    if fields != [] && fields[0].key != key {
      LookupAt(fields[1..], key);
      if key !in Keys(fields[1..]) {
        assert Keys(fields) == [fields[0].key] + Keys(fields[1..]);
      } else {
        var i :| 0 <= i < |fields[1..]| && fields[1..][i].key == key && fields[1..][i].value == Lookup(fields[1..], key)
                 && forall k :: 0 <= k < i ==> fields[1..][k].key != key;
        assert fields[i + 1].key == key;
        forall k | 0 <= k < i + 1 ensures fields[k].key != key {
          if k > 0 { assert fields[1..][k - 1].key != key; }
        }
      }
    }
  }

  lemma {:induction false} LookupSame(a: seq<Field>, b: seq<Field>, key: string, i: nat)
    requires Keys(a) == Keys(b) && i < |a| && a[i].key == key && forall k :: 0 <= k < i ==> a[k].key != key
    ensures Lookup(b, key) == b[i].value
  {
    assert forall k :: 0 <= k < |a| ==> Keys(a)[k] == Keys(b)[k];
    if i > 0 {
      assert Keys(a[1..]) == Keys(a)[1..] && Keys(b[1..]) == Keys(b)[1..];
      LookupSame(a[1..], b[1..], key, i - 1);
    }
  }

  /** Any rewrite that keeps the keys and can only turn text into "system" where it was keeps the role test. */
  lemma {:induction false} RoleTestKept(a: seq<Field>, b: seq<Field>)
    requires Keys(a) == Keys(b)
    requires forall i :: 0 <= i < |a| && a[i].key == "role" && b[i].value == JStr("system") ==> a[i].value == JStr("system")
    ensures SystemRole(b) ==> SystemRole(a)
  {
    LookupAt(b, "role");
    if SystemRole(b) {
      var i :| 0 <= i < |b| && b[i].key == "role" && b[i].value == Lookup(b, "role") && forall k :: 0 <= k < i ==> b[k].key != "role";
      LookupSame(b, a, "role", i);
      assert Keys(a)[i] == Keys(b)[i];
    }
  }

  lemma {:induction false} SanitizeKeepsRole(p: Policy, j: Json)
    requires j.JObj?
    ensures SystemRole(SanitizeFields(p, j)) ==> SystemRole(j.fields)
  {
    var r := SanitizeFields(p, j);
    assert |MASK| == 3 && |OMITTED| == 16 && |"system"| == 6;
    forall i | 0 <= i < |j.fields| && j.fields[i].key == "role" && r[i].value == JStr("system")
      ensures j.fields[i].value == JStr("system") {
      var key, v := j.fields[i].key, j.fields[i].value;
      assert MASK != "system" && OMITTED != "system" && key != "content" by { assert |key| == 4; }
      assert r[i].value == Sanitize(p, v, Some(j.fields), Some(key));
      assert v.JStr? && Sanitize(p, v, Some(j.fields), Some(key)) == v;
    }
    RoleTestKept(j.fields, r);
  }

  /** The second pass changes nothing, wherever the value stands and whatever counts as a secret. */
  lemma {:induction false} SanitizeTwice(p: Policy, j: Json, parent: Option<seq<Field>>, after: Option<seq<Field>>, key: Option<string>)
    requires PythonSized(j) && RoleKept(parent, after)
    ensures Sanitize(p, Sanitize(p, j, parent, key), after, key) == Sanitize(p, j, parent, key)
  {
    var r := Sanitize(p, j, parent, key);
    match j
    case JStr(s) => CutTextFits(s, CONTENT_LIMIT, CONTENT_KEEP);
    case JList(items) =>
      forall i | 0 <= i < |items| ensures Sanitize(p, r.items[i], after, key) == r.items[i] {
        SanitizeTwice(p, items[i], parent, after, key);
      }
      assert Sanitize(p, r, after, key).items == r.items;
    case JObj(fields) =>
      SanitizeKeepsRole(p, j);
      forall i | 0 <= i < |fields| ensures SanitizeFields(p, r)[i] == r.fields[i] {
        assert Keys(r.fields)[i] == fields[i].key;
        if !p.sensitive(fields[i].key) && !IsPromptField(p, fields[i].key, Keys(fields)) {
          SanitizeTwice(p, fields[i].value, Some(fields), Some(r.fields), Some(fields[i].key));
        }
      }
      assert SanitizeFields(p, r) == r.fields;
    case _ =>
  }

  /** Sanitising is idempotent. */
  lemma {:induction false} SanitizeIdempotent(p: Policy, j: Json)
    requires PythonSized(j)
    ensures SanitizeRoot(p, SanitizeRoot(p, j)) == SanitizeRoot(p, j)
  {
    SanitizeTwice(p, j, None, None, None);
  }

  // ---------- what is gone ----------

  /** No secret value, no full prompt and no system message text is left. */
  ghost predicate NothingLeaks(p: Policy, j: Json, parent: Option<seq<Field>>, key: Option<string>)
    decreases j
  {
    match j
    case JObj(fields) =>
      forall i :: 0 <= i < |fields| ==>
        if p.sensitive(fields[i].key) then fields[i].value == JStr(MASK)
        else if IsPromptField(p, fields[i].key, Keys(fields)) then fields[i].value == JStr(OMITTED)
        else NothingLeaks(p, fields[i].value, Some(fields), Some(fields[i].key))
    case JList(items) => forall i :: 0 <= i < |items| ==> NothingLeaks(p, items[i], parent, key)
    case JStr(s) =>
      key == Some("content") ==> |s| <= CONTENT_LIMIT && (parent.Some? && SystemRole(parent.value) ==> s == OMITTED)
    case _ => true
  }

  lemma {:induction false} SanitizedLeaksNothing(p: Policy, j: Json, parent: Option<seq<Field>>, after: Option<seq<Field>>, key: Option<string>)
    requires PythonSized(j) && RoleKept(parent, after)
    ensures NothingLeaks(p, Sanitize(p, j, parent, key), after, key)
  {
    var r := Sanitize(p, j, parent, key);
    match j
    case JStr(s) => CutTextFits(s, CONTENT_LIMIT, CONTENT_KEEP);
    case JList(items) =>
      forall i | 0 <= i < |items| ensures NothingLeaks(p, r.items[i], after, key) {
        SanitizedLeaksNothing(p, items[i], parent, after, key);
      }
    case JObj(fields) =>
      SanitizeKeepsRole(p, j);
      forall i | 0 <= i < |fields| && !p.sensitive(r.fields[i].key) && !IsPromptField(p, r.fields[i].key, Keys(r.fields))
        ensures NothingLeaks(p, r.fields[i].value, Some(r.fields), Some(r.fields[i].key)) {
        assert Keys(r.fields)[i] == fields[i].key;
        SanitizedLeaksNothing(p, fields[i].value, Some(fields), Some(r.fields), Some(fields[i].key));
      }
      forall i | 0 <= i < |fields| ensures r.fields[i].key == fields[i].key { assert Keys(r.fields)[i] == fields[i].key; }
    case _ =>
  }

  lemma {:induction false} DigitsAtMost(n: nat)
    ensures |Digits(n)| <= n / 10 + 1
  {
    if n >= 10 { DigitsAtMost(n / 10); }
  }

  /** Cutting always changes the text. */
  lemma {:induction false} CutTextChanges(s: string, limit: nat, keep: nat)
    requires keep + 100 <= limit
    ensures CutText(s, limit, keep) == s <==> |s| <= limit
  {
    if |s| > limit { DigitsAtMost(|s| - keep); }
  }

  /** Exactly the trees that leak nothing pass unchanged. */
  lemma {:induction false} SanitizeFixedPoint(p: Policy, j: Json, parent: Option<seq<Field>>, key: Option<string>)
    ensures Sanitize(p, j, parent, key) == j <==> NothingLeaks(p, j, parent, key)
    decreases j, 1
  {
    var r := Sanitize(p, j, parent, key);
    match j
    case JStr(s) =>
      CutTextChanges(s, CONTENT_LIMIT, CONTENT_KEEP);
    case JList(items) =>
      forall i | 0 <= i < |items| ensures r.items[i] == items[i] <==> NothingLeaks(p, items[i], parent, key) {
        SanitizeFixedPoint(p, items[i], parent, key);
      }
      if NothingLeaks(p, j, parent, key) { assert r.items == items; }
    case JObj(fields) =>
      FieldsFixedPoint(p, fields);
    case _ =>
  }

  /** One field of an object that leaks nothing. */
  ghost predicate FieldKept(p: Policy, fields: seq<Field>, i: nat)
    requires i < |fields|
  {
    if p.sensitive(fields[i].key) then fields[i].value == JStr(MASK)
    else if IsPromptField(p, fields[i].key, Keys(fields)) then fields[i].value == JStr(OMITTED)
    else NothingLeaks(p, fields[i].value, Some(fields), Some(fields[i].key))
  }

  lemma {:induction false} FieldsFixedPoint(p: Policy, fields: seq<Field>)
    ensures Sanitize(p, JObj(fields), None, None) == JObj(fields) <==> forall i :: 0 <= i < |fields| ==> FieldKept(p, fields, i)
    ensures forall i :: 0 <= i < |fields| ==> (SanitizeFields(p, JObj(fields))[i] == fields[i] <==> FieldKept(p, fields, i))
    decreases JObj(fields), 0
  {
    var r := SanitizeFields(p, JObj(fields));
    forall i | 0 <= i < |fields| ensures r[i] == fields[i] <==> FieldKept(p, fields, i) {
      if !p.sensitive(fields[i].key) && !IsPromptField(p, fields[i].key, Keys(fields)) {
        SanitizeFixedPoint(p, fields[i].value, Some(fields), Some(fields[i].key));
      }
    }
    if forall i :: 0 <= i < |fields| ==> FieldKept(p, fields, i) { assert r == fields; }
  }

  // ---------- truncate_replay_payload ----------

  function Truncate(j: Json): (r: Json)
    ensures j.JObj? ==> r.JObj? && Keys(r.fields) == Keys(j.fields)
    ensures j.JList? ==> r.JList? && |r.items| == |j.items|
  {
    match j
    case JObj(fields) =>
      JObj(seq(|fields|, i requires 0 <= i < |fields| => Field(fields[i].key, Truncate(fields[i].value))))
    case JList(items) => JList(seq(|items|, i requires 0 <= i < |items| => Truncate(items[i])))
    case JStr(s) => JStr(CutText(s, SECTION_LIMIT, SECTION_KEEP))
    case _ => j
  }

  ghost predicate TextsWithin(j: Json, limit: nat) {
    match j
    case JStr(s) => |s| <= limit
    case JList(items) => forall i :: 0 <= i < |items| ==> TextsWithin(items[i], limit)
    case JObj(fields) => forall i :: 0 <= i < |fields| ==> TextsWithin(fields[i].value, limit)
    case _ => true
  }

  /** Every string of a truncated section fits the section limit, and truncating again changes nothing. */
  lemma {:induction false} TruncateFits(j: Json)
    requires PythonSized(j)
    ensures TextsWithin(Truncate(j), SECTION_LIMIT)
    ensures Truncate(Truncate(j)) == Truncate(j)
  {
    var r := Truncate(j);
    match j
    case JStr(s) => CutTextFits(s, SECTION_LIMIT, SECTION_KEEP);
    case JList(items) =>
      forall i | 0 <= i < |items| ensures TextsWithin(r.items[i], SECTION_LIMIT) && Truncate(r.items[i]) == r.items[i] {
        TruncateFits(items[i]);
      }
      assert Truncate(r).items == r.items;
    case JObj(fields) =>
      forall i | 0 <= i < |fields| ensures TextsWithin(r.fields[i].value, SECTION_LIMIT) && Truncate(r.fields[i].value) == r.fields[i].value {
        TruncateFits(fields[i].value);
      }
      assert Truncate(r).fields == r.fields;
    case _ =>
  }

  lemma {:induction false} SystemNotCut(s: string)
    requires |s| <= MAX_LENGTH
    ensures CutText(s, SECTION_LIMIT, SECTION_KEEP) == "system" ==> s == "system"
  {
    CutTextFits(s, SECTION_LIMIT, SECTION_KEEP);
  }

  /** A tree that is already sanitised stays sanitised when its long strings are cut. */
  lemma {:induction false} TruncateKeepsSanitized(p: Policy, j: Json, parent: Option<seq<Field>>, after: Option<seq<Field>>, key: Option<string>)
    requires PythonSized(j) && RoleKept(parent, after)
    requires NothingLeaks(p, j, parent, key)
    ensures Sanitize(p, Truncate(j), after, key) == Truncate(j)
  {
    var r := Truncate(j);
    match j
    case JStr(s) =>
    case JList(items) =>
      forall i | 0 <= i < |items| ensures Sanitize(p, r.items[i], after, key) == r.items[i] {
        TruncateKeepsSanitized(p, items[i], parent, after, key);
      }
      assert Sanitize(p, r, after, key).items == r.items;
    case JObj(fields) =>
      TruncateKeepsRole(fields, r.fields);
      forall i | 0 <= i < |fields| ensures SanitizeFields(p, r)[i] == r.fields[i] {
        if !p.sensitive(fields[i].key) && !IsPromptField(p, fields[i].key, Keys(fields)) {
          TruncateKeepsSanitized(p, fields[i].value, Some(fields), Some(r.fields), Some(fields[i].key));
        }
      }
      assert SanitizeFields(p, r) == r.fields;
    case _ =>
  }

  lemma {:induction false} TruncateKeepsRole(fields: seq<Field>, cut: seq<Field>)
    requires PythonSized(JObj(fields)) && JObj(cut) == Truncate(JObj(fields))
    ensures SystemRole(cut) ==> SystemRole(fields)
  {
    forall i | 0 <= i < |fields| && fields[i].key == "role" && cut[i].value == JStr("system")
      ensures fields[i].value == JStr("system") {
      if fields[i].value.JStr? { SystemNotCut(fields[i].value.s); }
    }
    RoleTestKept(fields, cut);
  }

  lemma {:induction false} SanitizeKeepsSized(p: Policy, j: Json, parent: Option<seq<Field>>, key: Option<string>)
    requires PythonSized(j)
    ensures PythonSized(Sanitize(p, j, parent, key))
  {
    var r := Sanitize(p, j, parent, key);
    match j
    case JStr(s) => CutTextFits(s, CONTENT_LIMIT, CONTENT_KEEP);
    case JList(items) =>
      forall i | 0 <= i < |items| ensures PythonSized(r.items[i]) { SanitizeKeepsSized(p, items[i], parent, key); }
    case JObj(fields) =>
      assert r.fields == SanitizeFields(p, j);
      forall i | 0 <= i < |fields| ensures PythonSized(r.fields[i].value) {
        SanitizeKeepsSized(p, fields[i].value, Some(fields), Some(fields[i].key));
      }
    case _ =>
  }

  /** A section as `build_replay_snapshot` stores it. */
  function Section(p: Policy, j: Json): Json {
    Truncate(SanitizeRoot(p, j))
  }

  /** The pass of `to_dict` over the whole snapshot leaves such a section as it is, wherever it is stored. */
  lemma {:induction false} SecondPassKeepsSection(p: Policy, j: Json, snapshot: seq<Field>, key: string)
    requires PythonSized(j) && j.JObj?
    ensures Sanitize(p, Section(p, j), Some(snapshot), Some(key)) == Section(p, j)
  {
    SanitizeKeepsSized(p, j, None, None);
    SanitizedLeaksNothing(p, j, None, None, None);
    TruncateKeepsSanitized(p, SanitizeRoot(p, j), None, None, None);
  }

}
