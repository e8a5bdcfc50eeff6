/** What sanitising and truncating a replay payload do to every value of the tree, with the key texts written out. */
module ReplayMasking {
  import opened Wrappers
  import opened Text
  import opened Json
  import opened RunReplay

  // ---------- which fields are prompts ----------

  predicate PromptName(key: string) {
    key == "system_prompt" || key == "default_content" || key == "prompt" || (|key| >= 7 && key[|key| - 7..] == "_prompt")
  }

  predicate HasField(fields: seq<Field>, key: string) {
    exists i :: 0 <= i < |fields| && fields[i].key == key
  }

  /** A prompt by its own name, or the content of a prompt record. */
  predicate Hidden(lower: string -> string, fields: seq<Field>, i: nat)
    requires i < |fields|
  {
    || PromptName(lower(fields[i].key))
    || (lower(fields[i].key) == "content"
        && (HasField(fields, "prompt_key") || HasField(fields, "display_name") || HasField(fields, "module_name") || HasField(fields, "agent_name")))
  }

  lemma {:induction false} KeyPresent(fields: seq<Field>, key: string)
    ensures key in Keys(fields) <==> HasField(fields, key)
  {
    if key in Keys(fields) {
      var i :| 0 <= i < |fields| && Keys(fields)[i] == key;
      assert fields[i].key == key;
    }
    if HasField(fields, key) {
      var i :| 0 <= i < |fields| && fields[i].key == key;
      assert Keys(fields)[i] == key;
    }
  }

  lemma {:induction false} PromptFieldHidden(p: Policy, fields: seq<Field>, i: nat)
    requires i < |fields|
    ensures IsPromptField(p, fields[i].key, Keys(fields)) <==> Hidden(p.lower, fields, i)
  {
    KeyPresent(fields, "prompt_key"); KeyPresent(fields, "display_name");
    KeyPresent(fields, "module_name"); KeyPresent(fields, "agent_name");
    hide HasField;
    assert |"_prompt"| == 7;
  }

  /** The first `role` of the record says "system". */
  ghost predicate SystemMessage(fields: seq<Field>) {
    exists i :: 0 <= i < |fields| && fields[i].key == "role" && fields[i].value == JStr("system")
                && forall k :: 0 <= k < i ==> fields[k].key != "role"
  }

  lemma {:induction false} SystemRoleSays(fields: seq<Field>)
    ensures SystemRole(fields) <==> SystemMessage(fields)
  {
    LookupAt(fields, "role");
    if SystemMessage(fields) {
      var i :| 0 <= i < |fields| && fields[i].key == "role" && fields[i].value == JStr("system")
               && forall k :: 0 <= k < i ==> fields[k].key != "role";
      LookupSame(fields, fields, "role", i);
    }
  }

  // ---------- how text is cut ----------

  /** Text within the limit is kept; longer text keeps its front, up to white space before position `keep`, and a note of
      how many characters lie behind that position. */
  ghost predicate Cut(s: string, r: string, limit: nat, keep: nat)
    requires keep <= limit
  {
    if |s| <= limit then r == s
    else exists front: string ::
      && front <= s[..keep] && (forall i :: |front| <= i < keep ==> IsSpace(s[i]))
      && r == front + ("\n...[truncated " + Digits(|s| - keep) + " chars]")
  }

  lemma {:induction false} CutTextCuts(s: string, limit: nat, keep: nat)
    requires keep <= limit
    ensures Cut(s, CutText(s, limit, keep), limit, keep)
  {
    if |s| > limit {
      hide Digits, RStrip;
      var front, part := RStrip(s[..keep]), s[..keep];
      assert forall i :: |front| <= i < keep ==> IsSpace(part[i]) && part[i] == s[i];
      assert CutText(s, limit, keep) == front + ("\n...[truncated " + Digits(|s| - keep) + " chars]");
    }
  }

  // ---------- the whole tree ----------

  /** `b` is `a` with secrets and prompts replaced, content cut, and everything else as it was. */
  ghost predicate Masked(p: Policy, a: Json, b: Json, parent: Option<seq<Field>>, key: Option<string>)
    decreases a
  {
    match a
    case JObj(fields) =>
      && b.JObj? && |b.fields| == |fields|
      && forall i :: 0 <= i < |fields| ==>
           && b.fields[i].key == fields[i].key
           && (if p.sensitive(fields[i].key) then b.fields[i].value == JStr("***")
               else if Hidden(p.lower, fields, i) then b.fields[i].value == JStr("[prompt omitted]")
               else Masked(p, fields[i].value, b.fields[i].value, Some(fields), Some(fields[i].key)))
    case JList(items) =>
      b.JList? && |b.items| == |items| && forall i :: 0 <= i < |items| ==> Masked(p, items[i], b.items[i], parent, key)
    case JStr(s) =>
      if key != Some("content") then b == a
      else if parent.Some? && SystemMessage(parent.value) then b == JStr("[prompt omitted]")
      else b.JStr? && Cut(s, b.s, 3000, 2900)
    case _ => b == a
  }

  lemma {:induction false} SanitizeMasks(p: Policy, j: Json, parent: Option<seq<Field>>, key: Option<string>)
    ensures Masked(p, j, Sanitize(p, j, parent, key), parent, key)
  {
    hide Cut, Hidden, IsPromptField, SystemRole, SystemMessage, CutText;
    var r := Sanitize(p, j, parent, key);
    match j
    case JObj(fields) =>
      assert r.fields == SanitizeFields(p, j);
      forall i | 0 <= i < |fields|
        ensures r.fields[i].key == fields[i].key
        ensures if p.sensitive(fields[i].key) then r.fields[i].value == JStr("***")
                else if Hidden(p.lower, fields, i) then r.fields[i].value == JStr("[prompt omitted]")
                else Masked(p, fields[i].value, r.fields[i].value, Some(fields), Some(fields[i].key)) {
        PromptFieldHidden(p, fields, i);
        SanitizeMasks(p, fields[i].value, Some(fields), Some(fields[i].key));
      }
    case JList(items) =>
      forall i | 0 <= i < |items| ensures Masked(p, items[i], r.items[i], parent, key) { SanitizeMasks(p, items[i], parent, key); }
    case JStr(s) =>
      CutTextCuts(s, 3000, 2900);
      if parent.Some? { SystemRoleSays(parent.value); }
    case _ =>
  }

  /** At every depth, a field that is a prompt holds nothing but one of the two notes. */
  ghost predicate NoPromptText(lower: string -> string, j: Json) {
    match j
    case JObj(fields) =>
      forall i :: 0 <= i < |fields| ==>
        && (Hidden(lower, fields, i) ==> fields[i].value == JStr("***") || fields[i].value == JStr("[prompt omitted]"))
        && NoPromptText(lower, fields[i].value)
    case JList(items) => forall i :: 0 <= i < |items| ==> NoPromptText(lower, items[i])
    case _ => true
  }

  lemma {:induction false} HiddenSame(lower: string -> string, a: seq<Field>, b: seq<Field>, i: nat)
    requires i < |a| == |b| && forall k :: 0 <= k < |a| ==> a[k].key == b[k].key
    ensures Hidden(lower, a, i) <==> Hidden(lower, b, i)
  {
    FieldSame(a, b, "prompt_key"); FieldSame(a, b, "display_name"); FieldSame(a, b, "module_name"); FieldSame(a, b, "agent_name");
    hide HasField, PromptName;
  }

  lemma {:induction false} FieldSame(a: seq<Field>, b: seq<Field>, key: string)
    requires |a| == |b| && forall k :: 0 <= k < |a| ==> a[k].key == b[k].key
    ensures HasField(a, key) <==> HasField(b, key)
  {
    if i :| 0 <= i < |a| && a[i].key == key { assert b[i].key == key; }
    if i :| 0 <= i < |b| && b[i].key == key { assert a[i].key == key; }
  }

  lemma {:induction false} MaskedHidesPrompts(p: Policy, a: Json, b: Json, parent: Option<seq<Field>>, key: Option<string>)
    requires Masked(p, a, b, parent, key)
    ensures NoPromptText(p.lower, b)
    decreases a
  {
    hide Hidden;
    match a
    case JObj(fields) =>
      forall i | 0 <= i < |fields|
        ensures Hidden(p.lower, b.fields, i) ==> b.fields[i].value == JStr("***") || b.fields[i].value == JStr("[prompt omitted]")
        ensures NoPromptText(p.lower, b.fields[i].value) {
        HiddenSame(p.lower, fields, b.fields, i);
        if !p.sensitive(fields[i].key) && !Hidden(p.lower, fields, i) {
          MaskedHidesPrompts(p, fields[i].value, b.fields[i].value, Some(fields), Some(fields[i].key));
        }
      }
    case JList(items) =>
      forall i | 0 <= i < |items| ensures NoPromptText(p.lower, b.items[i]) { MaskedHidesPrompts(p, items[i], b.items[i], parent, key); }
    case _ =>
  }

  /** No full prompt is left anywhere in a sanitised payload. */
  lemma {:induction false} NoPromptLeft(p: Policy, j: Json)
    ensures NoPromptText(p.lower, SanitizeRoot(p, j))
  {
    SanitizeMasks(p, j, None, None);
    MaskedHidesPrompts(p, j, SanitizeRoot(p, j), None, None);
  }

  /** `b` is `a` with long strings cut and everything else as it was. */
  ghost predicate LongTextCut(a: Json, b: Json)
    decreases a
  {
    match a
    case JObj(fields) =>
      && b.JObj? && |b.fields| == |fields|
      && forall i :: 0 <= i < |fields| ==> b.fields[i].key == fields[i].key && LongTextCut(fields[i].value, b.fields[i].value)
    case JList(items) => b.JList? && |b.items| == |items| && forall i :: 0 <= i < |items| ==> LongTextCut(items[i], b.items[i])
    case JStr(s) => b.JStr? && Cut(s, b.s, 30000, 29900)
    case _ => b == a
  }

  lemma {:induction false} TruncateCuts(j: Json)
    ensures LongTextCut(j, Truncate(j))
  {
    hide Cut, CutText;
    var r := Truncate(j);
    match j
    case JObj(fields) =>
      forall i | 0 <= i < |fields| ensures LongTextCut(fields[i].value, r.fields[i].value) { TruncateCuts(fields[i].value); }
    case JList(items) =>
      forall i | 0 <= i < |items| ensures LongTextCut(items[i], r.items[i]) { TruncateCuts(items[i]); }
    case JStr(s) =>
      CutTextCuts(s, 30000, 29900);
    case _ =>
  }
}
