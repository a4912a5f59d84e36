/** What redaction hides (`policy/audit.py`, `logging_setup.py`): which keys are sensitive, told from
    their letters, and what is found at every place of a redacted value. */
module Redaction {
  import opened Common
  import opened Audit

  // ------------------------------------------------------------------ the words of a key

  predicate IsSeparator(c: char) {
    c == '_' || c == '-'
  }

  predicate NoSeparators(word: string) {
    forall i :: 0 <= i < |word| ==> !IsSeparator(word[i])
  }

  predicate IsRun(run: string) {
    run != "" && forall i :: 0 <= i < |run| ==> IsSeparator(run[i])
  }

  /** The words with the runs between them. */
  function Woven(words: seq<string>, runs: seq<string>): string
    requires |words| == |runs| + 1
  {
    if runs == [] then words[0] else words[0] + runs[0] + Woven(words[1..], runs[1..])
  }

  /** The words are what is between the runs of separators; only the first and the last may be
      empty. */
  predicate IsSplit(words: seq<string>, runs: seq<string>, s: string) {
    && |words| == |runs| + 1 && Woven(words, runs) == s
    && (forall i :: 0 <= i < |words| ==> NoSeparators(words[i]))
    && (forall i :: 0 < i < |words| - 1 ==> words[i] != "")
    && (forall i :: 0 <= i < |runs| ==> IsRun(runs[i]))
  }

  /** The words still to come, with `current` open, or after a separator and `lead` more. */
  predicate GoesOn(words: seq<string>, runs: seq<string>, lead: string, s: string, current: string, inRun: bool) {
    && |words| == |runs| + 1 && lead + Woven(words, runs) == current + s
    && (lead != "" ==> inRun && IsRun(lead))
    && (inRun && runs != [] ==> words[0] != "")
    && (forall i :: 0 <= i < |words| ==> NoSeparators(words[i]))
    && (forall i :: 0 < i < |words| - 1 ==> words[i] != "")
    && (forall i :: 0 <= i < |runs| ==> IsRun(runs[i]))
  }

  lemma NewWord(words: seq<string>, runs: seq<string>, lead: string, s: string, current: string)
    requires s != "" && IsSeparator(s[0]) && NoSeparators(current)
    requires GoesOn(words, runs, lead, s[1..], "", true)
    ensures GoesOn([current] + words, [[s[0]] + lead] + runs, "", s, current, false)
  {
    var words', runs' := [current] + words, [[s[0]] + lead] + runs;
    assert words'[1..] == words && runs'[1..] == runs;
    assert Woven(words', runs') == current + ([s[0]] + lead) + Woven(words, runs);
    assert [s[0]] + s[1..] == s;
    calc {
      current + ([s[0]] + lead) + Woven(words, runs);
      current + ([s[0]] + (lead + Woven(words, runs)));
      current + s;
    }
  }

  lemma LongerRun(words: seq<string>, runs: seq<string>, lead: string, s: string)
    requires s != "" && IsSeparator(s[0])
    requires GoesOn(words, runs, lead, s[1..], "", true)
    ensures GoesOn(words, runs, [s[0]] + lead, s, "", true)
  {
    assert [s[0]] + lead + Woven(words, runs) == [s[0]] + (lead + Woven(words, runs));
  }

  lemma {:induction false} SplitGoesOn(s: string, current: string, inRun: bool)
    returns (runs: seq<string>, lead: string)
    requires NoSeparators(current) && (inRun ==> current == "")
    ensures GoesOn(Words(s, current, inRun), runs, lead, s, current, inRun)
    decreases |s|
  {
    if s == [] {
      runs, lead := [], "";
    } else if IsSeparator(s[0]) {
      runs, lead := SplitGoesOn(s[1..], "", true);
      if inRun {
        LongerRun(Words(s[1..], "", true), runs, lead, s);
        lead := [s[0]] + lead;
      } else {
        NewWord(Words(s[1..], "", true), runs, lead, s, current);
        runs, lead := [[s[0]] + lead] + runs, "";
      }
    } else {
      runs, lead := SplitGoesOn(s[1..], current + [s[0]], false);
      assert current + s == current + [s[0]] + s[1..];
      StartsWithCurrent(s, current, Words(s, current, inRun), runs);
    }
  }

  lemma {:induction false} FirstChar(words: seq<string>, runs: seq<string>)
    requires |words| == |runs| + 1 && forall i :: 0 <= i < |runs| ==> IsRun(runs[i])
    ensures words[0] == "" ==> Woven(words, runs) == "" || IsSeparator(Woven(words, runs)[0])
  {
    if words[0] == "" && runs != [] {
      assert Woven(words, runs) == runs[0] + Woven(words[1..], runs[1..]);
    }
  }

  lemma StartsWithCurrent(s: string, current: string, words: seq<string>, runs: seq<string>)
    requires s != "" && !IsSeparator(s[0]) && NoSeparators(current)
    requires GoesOn(words, runs, "", s[1..], current + [s[0]], false)
    ensures words[0] != ""
  {
    var t := current + [s[0]] + s[1..];
    assert t[0] == (current + [s[0]])[0];
    assert "" + Woven(words, runs) == Woven(words, runs);
    FirstChar(words, runs);
  }

  /** The key in lower case. */
  predicate IsLower(lower: string, key: string) {
    && |lower| == |key|
    && forall i :: 0 <= i < |key| ==>
         lower[i] as int == (if 'A' <= key[i] <= 'Z' then key[i] as int + 32 else key[i] as int)
  }

  /** One of the listed words, or "api" followed by "key". */
  predicate HasListed(words: seq<string>) {
    || (exists i :: 0 <= i < |words| &&
          words[i] in {"password", "passwd", "secret", "token", "apikey", "authorization", "credential", "credentials"})
    || (exists i :: 0 <= i < |words| - 1 && words[i] == "api" && words[i + 1] == "key")
  }

  /** A key is sensitive exactly if, split at runs of "_" and "-" in lower case, it has one of the
      listed words or "api" followed by "key". */
  lemma SensitiveByItsWords(key: string) returns (lower: string, words: seq<string>, runs: seq<string>)
    ensures IsLower(lower, key) && IsSplit(words, runs, lower)
    ensures IsSensitiveKey(key) <==> HasListed(words)
  {
    lower := Lower(key);
    words := Words(lower, "", false);
    var lead: string;
    runs, lead := SplitGoesOn(lower, "", false);
    assert lead + Woven(words, runs) == Woven(words, runs) && "" + lower == lower;
    assert forall i :: 0 <= i < |words| ==> (words[i] in SENSITIVE_WORDS <==>
      words[i] in {"password", "passwd", "secret", "token", "apikey", "authorization", "credential", "credentials"});
  }

  // ------------------------------------------------------------------ places in a value

  datatype Step = Key(name: string) | Item(i: nat)

  /** What is found at the end of a path. */
  function Found(value: Json, path: seq<Step>): Option<Json>
    decreases |path|
  {
    if path == [] then Some(value)
    else
      match (value, path[0])
      case (Obj(fields), Key(k)) => if k in fields then Found(fields[k], path[1..]) else None
      case (List(items), Item(i)) => if i < |items| then Found(items[i], path[1..]) else None
      case _ => None
  }

  /** What redaction leaves of a value no key of which is sensitive: its kind, keys and length; long
      strings are cut. */
  predicate Shows(shown: Json, value: Json) {
    match value
    case Obj(fields) => shown.Obj? && shown.fields.Keys == fields.Keys
    case List(items) => shown.List? && |shown.items| == |items|
    case Str(text) =>
      shown.Str? && shown.text == (if |text| > 500 then text[..500] + "\U{2026}" else text)
    case _ => shown == value
  }

  predicate HasSensitive(path: seq<Step>) {
    exists i :: 0 <= i < |path| && path[i].Key? && IsSensitiveKey(path[i].name)
  }

  lemma HasSensitiveRest(path: seq<Step>)
    requires path != []
    ensures HasSensitive(path) <==> (path[0].Key? && IsSensitiveKey(path[0].name)) || HasSensitive(path[1..])
  {
    if HasSensitive(path[1..]) {
      var i :| 0 <= i < |path[1..]| && path[1..][i].Key? && IsSensitiveKey(path[1..][i].name);
      assert path[i + 1].Key? && IsSensitiveKey(path[i + 1].name);
    }
    if HasSensitive(path) {
      var i :| 0 <= i < |path| && path[i].Key? && IsSensitiveKey(path[i].name);
      if i > 0 {
        assert path[1..][i - 1] == path[i];
      }
    }
  }

  /** What redaction leaves at a path of a value: behind a sensitive key nothing, the mark in place of
      its value; elsewhere what was there, long strings cut. */
  predicate LeavesOf(after: Option<Json>, before: Option<Json>, path: seq<Step>) {
    if before.None? then after.None?
    else if !HasSensitive(path) then after.Some? && Shows(after.value, before.value)
    else if HasSensitive(path[..|path| - 1]) then after.None?
    else after == Some(Str("[REDACTED]"))
  }

  lemma BehindTheMark(before: Option<Json>, path: seq<Step>)
    requires path != [] && path[0].Key? && IsSensitiveKey(path[0].name)
    requires |path| == 1 ==> before.Some?
    ensures LeavesOf(Found(Str(REDACTED), path[1..]), before, path)
  {
    HasSensitiveRest(path);
    if |path| > 1 {
      HasSensitiveRest(path[..|path| - 1]);
      assert path[1..] != [];
    }
  }

  lemma OneStepIn(after: Option<Json>, before: Option<Json>, path: seq<Step>)
    requires path != [] && !(path[0].Key? && IsSensitiveKey(path[0].name))
    requires LeavesOf(after, before, path[1..])
    ensures LeavesOf(after, before, path)
  {
    HasSensitiveRest(path);
    if |path| > 1 {
      HasSensitiveRest(path[..|path| - 1]);
      assert path[..|path| - 1][1..] == path[1..][..|path[1..]| - 1];
    }
  }

  lemma RedactedField(fields: map<string, Json>, k: string)
    requires k in fields
    ensures Redact(Obj(fields)).Obj? && k in Redact(Obj(fields)).fields
    ensures Redact(Obj(fields)).fields[k] == if IsSensitiveKey(k) then Str(REDACTED) else Redact(fields[k])
  {
  }

  lemma FoundInField(fields: map<string, Json>, path: seq<Step>)
    requires path != [] && path[0].Key? && path[0].name in fields
    ensures Found(Obj(fields), path) == Found(fields[path[0].name], path[1..])
  {
  }

  lemma {:induction false} RedactedAt(value: Json, path: seq<Step>)
    ensures LeavesOf(Found(Redact(value), path), Found(value, path), path)
    decreases |path|
  {
    if path != [] {
      match (value, path[0])
      case (Obj(fields), Key(k)) =>
        if k in fields {
          RedactedField(fields, k);
          FoundInField(fields, path);
          FoundInField(Redact(value).fields, path);
          if IsSensitiveKey(k) {
            BehindTheMark(Found(value, path), path);
          } else {
            RedactedAt(fields[k], path[1..]);
            OneStepIn(Found(Redact(fields[k]), path[1..]), Found(fields[k], path[1..]), path);
          }
        }
      case (List(items), Item(i)) =>
        if i < |items| {
          RedactedAt(items[i], path[1..]);
          OneStepIn(Found(Redact(items[i]), path[1..]), Found(items[i], path[1..]), path);
        }
      case _ =>
    }
  }

  /** Row i of any log built by appends is the entry that was written, with its arguments and its
      result redacted and nothing else changed. */
  lemma LogsAreRedacted(rows: seq<Row>, writes: seq<(Entry, int)>, i: nat, path: seq<Step>)
    requires BuiltBy(rows, writes) && i < |rows|
    ensures var kept, written := rows[i].entry, writes[i].0;
      && LeavesOf(Found(kept.arguments, path), Found(written.arguments, path), path)
      && LeavesOf(Found(kept.result, path), Found(written.result, path), path)
      && kept == written.(arguments := kept.arguments, result := kept.result)
      && rows[i].at == writes[i].1 && rows[i].id == i + 1
  {
    RedactedAt(writes[i].0.arguments, path);
    RedactedAt(writes[i].0.result, path);
  }
}
