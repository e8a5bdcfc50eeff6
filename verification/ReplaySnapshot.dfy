/** The second pass of `AgentReplaySnapshot.to_dict`: what of a stored snapshot survives it. */
module ReplaySnapshot {
  import opened Wrappers
  import opened Text
  import opened Json
  import opened RunReplay

  // ---------- the whole snapshot ----------

  /** A dict that was sanitised, and perhaps truncated, when the snapshot was built. */
  ghost predicate StoredOnce(p: Policy, v: Json) {
    exists j :: PythonSized(j) && j.JObj? && (v == SanitizeRoot(p, j) || v == Section(p, j))
  }

  /** A section, or a list of sections. */
  ghost predicate Stored(p: Policy, v: Json) {
    StoredOnce(p, v) || (v.JList? && forall i :: 0 <= i < |v.items| ==> StoredOnce(p, v.items[i]))
  }

  /** The key itself does not hide the value. */
  predicate Visible(p: Policy, fields: seq<Field>, i: nat)
    requires i < |fields|
  {
    !p.sensitive(fields[i].key) && !IsPromptField(p, fields[i].key, Keys(fields))
  }

  lemma {:induction false} StoredOnceSafe(p: Policy, v: Json, snapshot: seq<Field>, key: string)
    requires StoredOnce(p, v)
    ensures NothingLeaks(p, v, Some(snapshot), Some(key))
  {
    hide NothingLeaks, Sanitize, Truncate;
    var j :| PythonSized(j) && j.JObj? && (v == SanitizeRoot(p, j) || v == Section(p, j));
    if v == SanitizeRoot(p, j) {
      DictTwice(p, j, snapshot, key);
    } else {
      SecondPassKeepsSection(p, j, snapshot, key);
    }
    SanitizeFixedPoint(p, v, Some(snapshot), Some(key));
  }

  /** Where a dict stands makes no difference to it. */
  lemma {:induction false} DictTwice(p: Policy, j: Json, snapshot: seq<Field>, key: string)
    requires PythonSized(j) && j.JObj?
    ensures Sanitize(p, SanitizeRoot(p, j), Some(snapshot), Some(key)) == SanitizeRoot(p, j)
  {
    SanitizeIdempotent(p, j);
  }

  lemma {:induction false} StoredKept(p: Policy, fields: seq<Field>, i: nat)
    requires i < |fields| && Visible(p, fields, i) && Stored(p, fields[i].value)
    ensures FieldKept(p, fields, i)
  {
    hide StoredOnce;
    var v, key := fields[i].value, fields[i].key;
    if StoredOnce(p, v) {
      StoredOnceSafe(p, v, fields, key);
    } else {
      forall n | 0 <= n < |v.items| ensures NothingLeaks(p, v.items[n], Some(fields), Some(key)) {
        StoredOnceSafe(p, v.items[n], fields, key);
      }
    }
  }

  /** The pass over the whole snapshot keeps every field that holds sections, and keeps the snapshot as a whole exactly
      when the fields that were stored without a first pass leak nothing. */
  lemma {:induction false} SnapshotSurvives(p: Policy, fields: seq<Field>, raw: set<int>)
    requires forall i :: 0 <= i < |fields| && i !in raw ==> Visible(p, fields, i) && Stored(p, fields[i].value)
    ensures SanitizeRoot(p, JObj(fields)).JObj? && |SanitizeRoot(p, JObj(fields)).fields| == |fields|
    ensures forall i :: 0 <= i < |fields| && i !in raw ==> SanitizeRoot(p, JObj(fields)).fields[i] == fields[i]
    ensures SanitizeRoot(p, JObj(fields)) == JObj(fields) <==> forall i :: 0 <= i < |fields| && i in raw ==> FieldKept(p, fields, i)
  {
    hide Visible, Stored, FieldKept;
    FieldsFixedPoint(p, fields);
    forall i | 0 <= i < |fields| && i !in raw ensures FieldKept(p, fields, i) { StoredKept(p, fields, i); }
  }

  // ---------- the key pattern ----------

  /** The words that make a key secret wherever they stand; `access_token` and `refresh_token` contain the last. */
  const WORDS: seq<string> :=
    ["password", "secret", "private_key", "private-key", "privatekey", "api_key", "api-key", "apikey", "session", "token"]

  predicate SecretKey(key: string) {
    key in {"authorization", "authorization\n", "cookie", "cookie\n"} || exists k :: 0 <= k < |WORDS| && Contains(key, WORDS[k])
  }

  predicate LowerKey(key: string) {
    forall i :: 0 <= i < |key| ==> 'a' <= key[i] <= 'z' || key[i] == '_'
  }

  /** The policy applies the source's pattern; only lower-case keys matter here. */
  ghost predicate SourcePattern(p: Policy) {
    forall key :: LowerKey(key) ==> p.lower(key) == key && (p.sensitive(key) <==> SecretKey(key))
  }

  lemma {:induction false} NotContained(key: string, word: string, c: char)
    requires c in word && c !in key
    ensures !Contains(key, word)
  {
    forall i | 0 <= i <= |key| - |word| ensures !OccursAt(key, word, i) {
      var k :| 0 <= k < |word| && word[k] == c;
      assert key[i..i + |word|][k] == key[i + k];
    }
  }

  /** Keys without k, w and z are secret only through "secret" and "session". */
  lemma {:induction false} NotSecret(key: string, c: char, d: char)
    requires 'k' !in key && 'w' !in key && 'z' !in key && c in "secret" && c !in key && d in "session" && d !in key
    ensures !SecretKey(key)
  {
    assert "password"[4] == 'w' && "private_key"[8] == 'k' && "private-key"[8] == 'k' && "privatekey"[7] == 'k';
    assert "api_key"[4] == 'k' && "api-key"[4] == 'k' && "apikey"[3] == 'k' && "token"[2] == 'k';
    assert "authorization"[7] == 'z' && "authorization\n"[7] == 'z' && "cookie"[3] == 'k' && "cookie\n"[3] == 'k';
    NotContained(key, "password", 'w'); NotContained(key, "secret", c); NotContained(key, "session", d);
    NotContained(key, "private_key", 'k'); NotContained(key, "private-key", 'k'); NotContained(key, "privatekey", 'k');
    NotContained(key, "api_key", 'k'); NotContained(key, "api-key", 'k'); NotContained(key, "apikey", 'k');
    NotContained(key, "token", 'k');
    hide Contains;
  }

  ghost predicate Ordinary(p: Policy, key: string) {
    !p.sensitive(key) && forall siblings: seq<string> :: !IsPromptField(p, key, siblings)
  }

  /** What makes a key ordinary, read off its letters: no k, w, z, no letter c of "secret", no letter d of "session",
      and an end other than "pt" and "nt". */
  predicate Harmless(key: string, c: char, d: char) {
    && c in {'s', 'e', 'c', 'r', 't'} && d in {'s', 'e', 'i', 'o', 'n'}
    && (forall i :: 0 <= i < |key| ==> HarmlessLetter(key[i], c, d))
    && |key| > 1 && (key[|key| - 1] != 't' || (key[|key| - 2] != 'p' && key[|key| - 2] != 'n'))
  }

  predicate HarmlessLetter(x: char, c: char, d: char) {
    ('a' <= x <= 'z' || x == '_') && x != 'k' && x != 'w' && x != 'z' && x != c && x != d
  }

  lemma {:induction false} LetterIn(c: char, d: char)
    ensures c in {'s', 'e', 'c', 'r', 't'} ==> c in "secret"
    ensures d in {'s', 'e', 'i', 'o', 'n'} ==> d in "session"
  {
    assert "secret"[0] == 's' && "secret"[1] == 'e' && "secret"[2] == 'c' && "secret"[3] == 'r' && "secret"[5] == 't';
    assert "session"[0] == 's' && "session"[1] == 'e' && "session"[4] == 'i' && "session"[5] == 'o' && "session"[6] == 'n';
  }

  lemma {:induction false} HarmlessOrdinary(p: Policy, key: string, c: char, d: char)
    requires SourcePattern(p) && Harmless(key, c, d)
    ensures Ordinary(p, key)
  {
    LetterIn(c, d);
    NotSecret(key, c, d);
    assert !HasSuffix(key, "_prompt") by { assert "_prompt"[6] == 't' && "_prompt"[5] == 'p'; }
    assert "system_prompt"[12] == 't' && "system_prompt"[11] == 'p' && "prompt"[5] == 't' && "prompt"[4] == 'p';
    assert "default_content"[14] == 't' && "default_content"[13] == 'n' && "content"[6] == 't' && "content"[5] == 'n';
    assert key !in PROMPT_KEYS && key != "content";
  }

  lemma {:induction false} InputKeys()
    ensures Harmless("request", 'c', 'i') && Harmless("context_snapshot", 'r', 'i')
  {
  }

  lemma {:induction false} OutputKeys()
    ensures Harmless("tool_snapshots", 'r', 'i') && Harmless("final_output", 'e', 'e')
  {
  }

  lemma {:induction false} CallKeys()
    ensures Harmless("llm_snapshots", 'r', 'i') && Harmless("model_config", 'r', 's') && Harmless("usage", 'r', 'i')
  {
  }

  /** The keys under which sections, model settings and calls are stored hide nothing themselves. */
  lemma {:induction false} SectionKeysOrdinary(p: Policy)
    requires SourcePattern(p)
    ensures Ordinary(p, "request") && Ordinary(p, "context_snapshot") && Ordinary(p, "tool_snapshots") && Ordinary(p, "final_output")
    ensures Ordinary(p, "llm_snapshots") && Ordinary(p, "model_config") && Ordinary(p, "usage")
  {
    hide Ordinary, Harmless, SourcePattern;
    InputKeys(); OutputKeys(); CallKeys();
    HarmlessOrdinary(p, "request", 'c', 'i');
    HarmlessOrdinary(p, "context_snapshot", 'r', 'i');
    HarmlessOrdinary(p, "tool_snapshots", 'r', 'i');
    HarmlessOrdinary(p, "final_output", 'e', 'e');
    HarmlessOrdinary(p, "llm_snapshots", 'r', 'i');
    HarmlessOrdinary(p, "model_config", 'r', 's');
    HarmlessOrdinary(p, "usage", 'r', 'i');
  }

  lemma {:induction false} TokenKey(p: Policy, key: string, i: nat)
    requires SourcePattern(p) && LowerKey(key) && OccursAt(key, "token", i)
    ensures p.sensitive(key)
  {
    assert WORDS[9] == "token";
    assert Contains(key, WORDS[9]);
  }

  lemma {:induction false} UsageTokenPlaces()
    ensures LowerKey("prompt_tokens") && OccursAt("prompt_tokens", "token", 7)
    ensures LowerKey("completion_tokens") && OccursAt("completion_tokens", "token", 11)
  {
  }

  lemma {:induction false} OtherTokenPlaces()
    ensures LowerKey("total_tokens") && OccursAt("total_tokens", "token", 6)
    ensures LowerKey("max_tokens") && OccursAt("max_tokens", "token", 4)
  {
  }

  lemma {:induction false} TokenKeys(p: Policy)
    requires SourcePattern(p)
    ensures p.sensitive("prompt_tokens") && p.sensitive("completion_tokens") && p.sensitive("total_tokens") && p.sensitive("max_tokens")
  {
    hide SourcePattern, LowerKey, OccursAt;
    UsageTokenPlaces();
    OtherTokenPlaces();
    TokenKey(p, "prompt_tokens", 7); TokenKey(p, "completion_tokens", 11); TokenKey(p, "total_tokens", 6); TokenKey(p, "max_tokens", 4);
  }

  // ---------- what does not survive ----------

  /** The `usage` dict of an LLM snapshot. */
  function Usage(prompt: Json, completion: Json, total: Json): Json {
    JObj([Field("prompt_tokens", prompt), Field("completion_tokens", completion), Field("total_tokens", total)])
  }

  lemma {:induction false} FieldOf(p: Policy, fields: seq<Field>, i: nat)
    requires i < |fields|
    ensures var r := Sanitize(p, JObj(fields), None, None);
            && r.JObj? && |r.fields| == |fields| && r.fields[i].key == fields[i].key
            && (p.sensitive(fields[i].key) ==> r.fields[i].value == JStr(MASK))
            && (Ordinary(p, fields[i].key) ==> r.fields[i].value == Sanitize(p, fields[i].value, Some(fields), Some(fields[i].key)))
  {
  }

  lemma {:induction false} DictAnywhere(p: Policy, j: Json, parent: Option<seq<Field>>, key: Option<string>)
    requires j.JObj?
    ensures Sanitize(p, j, parent, key) == SanitizeRoot(p, j)
  {
  }

  lemma {:induction false} UsageMasked(p: Policy, prompt: Json, completion: Json, total: Json)
    requires SourcePattern(p)
    ensures SanitizeRoot(p, Usage(prompt, completion, total)) == Usage(JStr(MASK), JStr(MASK), JStr(MASK))
  {
    TokenKeys(p);
    var mask := Usage(JStr(MASK), JStr(MASK), JStr(MASK));
    assert SanitizeFields(p, Usage(prompt, completion, total)) == mask.fields;
  }

  /** Entry n of the LLM snapshots has a usage dict in field u. */
  predicate UsageAt(snapshots: Json, n: nat, u: nat, usage: Json) {
    && snapshots.JList? && n < |snapshots.items| && snapshots.items[n].JObj?
    && u < |snapshots.items[n].fields| && snapshots.items[n].fields[u] == Field("usage", usage)
  }

  /** Whatever the token counts of a call are, the snapshot that leaves `to_dict` has three masks in their place; so it is
      the snapshot that was built only if the counts were masks before. */
  lemma {:induction false} TokenCountsMasked(p: Policy, snapshot: seq<Field>, k: nat, n: nat, u: nat, prompt: Json, completion: Json, total: Json)
    requires SourcePattern(p) && k < |snapshot| && snapshot[k].key == "llm_snapshots"
    requires UsageAt(snapshot[k].value, n, u, Usage(prompt, completion, total))
    ensures var r := SanitizeRoot(p, JObj(snapshot));
            && r.JObj? && |r.fields| == |snapshot|
            && UsageAt(r.fields[k].value, n, u, Usage(JStr(MASK), JStr(MASK), JStr(MASK)))
    ensures SanitizeRoot(p, JObj(snapshot)) == JObj(snapshot) ==> prompt == completion == total == JStr(MASK)
  {
    hide Sanitize, Ordinary, IsPromptField;
    SectionKeysOrdinary(p);
    FieldOf(p, snapshot, k);
    var calls := snapshot[k].value;
    var r := SanitizeRoot(p, JObj(snapshot));
    ListItem(p, calls, Some(snapshot), Some("llm_snapshots"), n);
    DictAnywhere(p, calls.items[n], Some(snapshot), Some("llm_snapshots"));
    FieldOf(p, calls.items[n].fields, u);
    UsageMasked(p, prompt, completion, total);
    DictAnywhere(p, Usage(prompt, completion, total), Some(calls.items[n].fields), Some("usage"));
    assert r.fields[k].value.items[n].fields[u].value == Usage(JStr(MASK), JStr(MASK), JStr(MASK));
  }

  lemma {:induction false} ListItem(p: Policy, j: Json, parent: Option<seq<Field>>, key: Option<string>, n: nat)
    requires j.JList? && n < |j.items|
    ensures var r := Sanitize(p, j, parent, key); r.JList? && |r.items| == |j.items| && r.items[n] == Sanitize(p, j.items[n], parent, key)
  {
  }

  /** The model settings always hold `max_tokens`, so no snapshot leaves `to_dict` as it was built: even an absent limit
      becomes the mask. */
  lemma {:induction false} SnapshotNeverSurvives(p: Policy, snapshot: seq<Field>, k: nat, m: nat)
    requires SourcePattern(p) && k < |snapshot| && snapshot[k].key == "model_config" && snapshot[k].value.JObj?
    requires m < |snapshot[k].value.fields| && snapshot[k].value.fields[m].key == "max_tokens"
    ensures var r := SanitizeRoot(p, JObj(snapshot));
            && r.JObj? && |r.fields| == |snapshot| && r.fields[k].value.JObj?
            && m < |r.fields[k].value.fields| && r.fields[k].value.fields[m] == Field("max_tokens", JStr(MASK))
    ensures SanitizeRoot(p, JObj(snapshot)) == JObj(snapshot) ==> snapshot[k].value.fields[m].value == JStr(MASK)
  {
    hide Sanitize, Ordinary, IsPromptField;
    SectionKeysOrdinary(p);
    TokenKeys(p);
    FieldOf(p, snapshot, k);
    DictAnywhere(p, snapshot[k].value, Some(snapshot), Some("model_config"));
    FieldOf(p, snapshot[k].value.fields, m);
  }
}
