/** The `.env` loaders of scripts/test-ai-providers.ts and
    scripts/seed-data.ts. The file is split at "\n"; a line counts when
    `/^([^=:#]+)=(.*)$/` matches it, giving the trimmed text before the
    first "=" as the key and the trimmed rest as the value. One loader
    overwrites variables already set, the other keeps them. */
module EnvFile {
  import opened Wrappers
  import opened Text

  datatype EnvEntry = EnvEntry(key: string, value: string)

  /** The characters `[^=:#]` admits; line terminators among them. */
  predicate KeyChar(c: char) {
    c != '=' && c != ':' && c != '#'
  }

  /** `/^([^=:#]+)=(.*)$/` matches `line` with its "=" at `k`: one or more
      key characters, the "=", and a rest that `.` can consume, which
      excludes every line terminator. */
  predicate LineMatchesAt(line: string, k: int) {
    && 1 <= k < |line| && line[k] == '='
    && (forall i :: 0 <= i < k ==> KeyChar(line[i]))
    && OneLineAfter(line, k)
  }

  /** No line terminator follows position `k`: what `(.*)$` needs. */
  predicate OneLineAfter(line: string, k: int) {
    forall i :: 0 <= i < |line| && k < i ==> !IsLineTerminator(line[i])
  }

  /** The first character that cannot be part of a key, or -1. */
  function KeyEnd(s: string): (r: int)
    ensures -1 <= r < |s|
    ensures r >= 0 ==> !KeyChar(s[r]) && forall i :: 0 <= i < r ==> KeyChar(s[i])
    ensures r == -1 ==> forall i :: 0 <= i < |s| ==> KeyChar(s[i])
  {
    if s == [] then -1
    else if !KeyChar(s[0]) then 0
    else
      var k := KeyEnd(s[1..]);
      if k < 0 then -1 else k + 1
  }

  /** The entry a line yields: the trimmed halves around the "=" that
      ends the key part, when the line matches there. */
  function MatchEnvLine(line: string): (r: Option<EnvEntry>)
    ensures r.Some? ==> LineMatchesAt(line, KeyEnd(line))
  {
    MatchAt(line, KeyEnd(line))
  }

  /** The entry the line yields when its key part ends at `k`. */
  function MatchAt(line: string, k: int): (r: Option<EnvEntry>)
    requires -1 <= k < |line|
    ensures r.Some? <==> 1 <= k && line[k] == '=' && OneLineAfter(line, k)
  {
    if 1 <= k && line[k] == '=' && OneLineAfter(line, k) then
      Some(EnvEntry(Trim(line[..k]), Trim(line[k + 1..])))
    else
      None
  }

  /** The line matcher agrees with the regular expression: it yields an
      entry exactly when the expression matches, and the entry is made of
      the matched groups, trimmed. */
  lemma MatchEnvLineIsRegex(line: string)
    ensures MatchEnvLine(line).Some? <==> exists k :: LineMatchesAt(line, k)
    ensures forall k :: LineMatchesAt(line, k) ==> MatchEnvLine(line) == Some(EnvEntry(Trim(line[..k]), Trim(line[k + 1..])))
  {
    forall k | LineMatchesAt(line, k)
      ensures MatchEnvLine(line) == Some(EnvEntry(Trim(line[..k]), Trim(line[k + 1..])))
    {
      MatchAtKeyEnd(line, k);
    }
    var m := MatchEnvLine(line);
    if m.Some? {
      assert LineMatchesAt(line, KeyEnd(line));
    }
  }

  /** Where the expression matches, its "=" is the first non-key character
      and the matcher yields the groups around it. */
  lemma MatchAtKeyEnd(line: string, k: int)
    requires LineMatchesAt(line, k)
    ensures KeyEnd(line) == k
    ensures MatchEnvLine(line) == Some(EnvEntry(Trim(line[..k]), Trim(line[k + 1..])))
  {
    KeyEndAtMatch(line, k);
    assert 1 <= k && line[k] == '=' && OneLineAfter(line, k);
  }

  /** The "=" of a match is the first character that cannot be in a key. */
  lemma KeyEndAtMatch(line: string, k: int)
    requires LineMatchesAt(line, k)
    ensures KeyEnd(line) == k
  {
  }

  /** A key and value written as `key=value` read back as themselves. */
  lemma EnvLineRoundTrip(key: string, value: string)
    requires key != [] && forall i :: 0 <= i < |key| ==> KeyChar(key[i])
    requires !IsSpace(key[0]) && !IsSpace(key[|key| - 1])
    requires forall i :: 0 <= i < |value| ==> !IsLineTerminator(value[i])
    requires value == [] || (!IsSpace(value[0]) && !IsSpace(value[|value| - 1]))
    ensures MatchEnvLine(key + "=" + value) == Some(EnvEntry(key, value))
  {
    var line := key + "=" + value;
    assert line[..|key|] == key && line[|key| + 1..] == value;
    assert LineMatchesAt(line, |key|);
    MatchEnvLineIsRegex(line);
    TrimKeeps(key);
    TrimKeeps(value);
  }

  /** A line ending in "\r" (a file saved with CRLF endings) never
      matches: `.` does not consume the "\r" and the key part cannot hold
      the "=". */
  lemma CarriageReturnLineIgnored(s: string)
    ensures MatchEnvLine(s + "\r") == None
  {
    var line := s + "\r";
    MatchEnvLineIsRegex(line);
    if k :| LineMatchesAt(line, k) {
      assert IsLineTerminator(line[|s|]);
    }
  }

  /** Comment lines and lines starting with "=" never match. */
  lemma CommentIgnored(line: string)
    requires line != [] && (line[0] == '#' || line[0] == '=')
    ensures MatchEnvLine(line) == None
  {
  }

  /** What each line of the file yields. */
  function Parsed(lines: seq<string>): (r: seq<Option<EnvEntry>>)
    ensures |r| == |lines|
    ensures forall i :: 0 <= i < |lines| ==> r[i] == MatchEnvLine(lines[i])
  {
    seq(|lines|, i requires 0 <= i < |lines| => MatchEnvLine(lines[i]))
  }

  /** The variables after applying `entries` with the overwriting loader. */
  function Overwritten(env: map<string, string>, entries: seq<Option<EnvEntry>>): map<string, string>
  {
    if entries == [] then env
    else OverwriteWith(Overwritten(env, entries[..|entries| - 1]), entries[|entries| - 1])
  }

  /** One line of the overwriting loader. */
  function OverwriteWith(env: map<string, string>, entry: Option<EnvEntry>): map<string, string> {
    match entry
    case Some(e) => env[e.key := e.value]
    case None => env
  }

  /** The variables after applying `entries` with the keeping loader: a
      variable is set only when unset or empty (`!process.env[key]`). */
  function Kept(env: map<string, string>, entries: seq<Option<EnvEntry>>): map<string, string>
  {
    if entries == [] then env
    else KeepWith(Kept(env, entries[..|entries| - 1]), entries[|entries| - 1])
  }

  /** One line of the keeping loader. */
  function KeepWith(env: map<string, string>, entry: Option<EnvEntry>): map<string, string> {
    match entry
    case Some(e) => if e.key !in env || env[e.key] == "" then env[e.key := e.value] else env
    case None => env
  }

  /** Entry `i` sets `key`. */
  predicate Sets(entries: seq<Option<EnvEntry>>, i: int, key: string) {
    0 <= i < |entries| && entries[i].Some? && entries[i].value.key == key
  }

  /** Entry `i` sets `key` and no later entry does. */
  predicate LastSetterAt(entries: seq<Option<EnvEntry>>, i: int, key: string) {
    Sets(entries, i, key) && forall j :: i < j < |entries| ==> !Sets(entries, j, key)
  }

  /** The value of the last entry that sets `key`, if any. */
  function LastValue(entries: seq<Option<EnvEntry>>, key: string): (r: Option<string>)
    ensures r.None? <==> forall i :: 0 <= i < |entries| ==> !Sets(entries, i, key)
    ensures r.Some? ==> exists i :: LastSetterAt(entries, i, key) && entries[i].value.value == r.value
  {
    if entries == [] then None
    else
      var n := |entries| - 1;
      var init := entries[..n];
      if Sets(entries, n, key) then
        assert LastSetterAt(entries, n, key);
        Some(entries[n].value.value)
      else
        var r := LastValue(init, key);
        assert forall i :: 0 <= i < n ==> (Sets(init, i, key) <==> Sets(entries, i, key));
        assert forall i :: LastSetterAt(init, i, key) ==> LastSetterAt(entries, i, key);
        r
  }

  /** Overwriting: the last line that sets a key decides its value; a key
      no line sets keeps whatever it had. */
  lemma {:induction false} LastLineWins(env: map<string, string>, entries: seq<Option<EnvEntry>>, key: string)
    ensures LastValue(entries, key).Some? ==> key in Overwritten(env, entries) && Overwritten(env, entries)[key] == LastValue(entries, key).value
    ensures LastValue(entries, key).None? ==> (key in Overwritten(env, entries) <==> key in env)
    ensures LastValue(entries, key).None? && key in env ==> Overwritten(env, entries)[key] == env[key]
  {
    if entries != [] {
      LastLineWins(env, entries[..|entries| - 1], key);
    }
  }

  /** Keeping: a variable already set to a non-empty value is never
      changed, and no variable is removed. */
  lemma {:induction false} SetVariablesKept(env: map<string, string>, entries: seq<Option<EnvEntry>>)
    ensures env.Keys <= Kept(env, entries).Keys
    ensures forall k :: k in env && env[k] != "" ==> Kept(env, entries)[k] == env[k]
  {
    if entries != [] {
      SetVariablesKept(env, entries[..|entries| - 1]);
    }
  }

  /** Keeping: a key unset or empty at the start takes the first
      non-empty value a line gives it; lines before that one may only
      have set it to "". */
  lemma {:induction false} FirstLineWins(env: map<string, string>, entries: seq<Option<EnvEntry>>, key: string, i: int)
    requires key !in env || env[key] == ""
    requires Sets(entries, i, key) && entries[i].value.value != ""
    requires forall j :: 0 <= j < i && Sets(entries, j, key) ==> entries[j].value.value == ""
    ensures key in Kept(env, entries) && Kept(env, entries)[key] == entries[i].value.value
  {
    var n := |entries| - 1;
    var init := entries[..n];
    if n == i {
      assert forall j :: 0 <= j < |init| ==> (Sets(init, j, key) <==> Sets(entries, j, key));
      StillEmpty(env, init, key);
    } else {
      assert forall j :: 0 <= j <= i ==> (Sets(init, j, key) <==> Sets(entries, j, key));
      FirstLineWins(env, init, key, i);
    }
  }

  /** A key unset or empty at the start, which lines set only to "",
      stays unset or empty. */
  lemma {:induction false} StillEmpty(env: map<string, string>, entries: seq<Option<EnvEntry>>, key: string)
    requires key !in env || env[key] == ""
    requires forall j :: 0 <= j < |entries| && Sets(entries, j, key) ==> entries[j].value.value == ""
    ensures key !in Kept(env, entries) || Kept(env, entries)[key] == ""
  {
    if entries != [] {
      var init := entries[..|entries| - 1];
      assert forall j :: 0 <= j < |init| ==> (Sets(init, j, key) <==> Sets(entries, j, key));
      StillEmpty(env, init, key);
    }
  }

  /** A key that no line sets stays unset. */
  lemma {:induction false} NotSetBefore(env: map<string, string>, entries: seq<Option<EnvEntry>>, key: string)
    requires key !in env
    requires forall j :: 0 <= j < |entries| ==> !Sets(entries, j, key)
    ensures key !in Kept(env, entries)
  {
    if entries != [] {
      var init := entries[..|entries| - 1];
      assert forall j :: 0 <= j < |init| ==> (Sets(init, j, key) <==> Sets(entries, j, key));
      NotSetBefore(env, init, key);
      assert !Sets(entries, |entries| - 1, key);
    }
  }

  /** One iteration of the overwriting loader's loop. */
  method OverwriteEntry(env: map<string, string>, m: Option<EnvEntry>) returns (r: map<string, string>)
    ensures r == OverwriteWith(env, m)
  {
    r := env;
    match m {
      case None =>
      case Some(e) => r := r[e.key := e.value];
    }
  }

  /** One iteration of the keeping loader's loop. */
  method KeepEntry(env: map<string, string>, m: Option<EnvEntry>) returns (r: map<string, string>)
    ensures r == KeepWith(env, m)
  {
    r := env;
    match m {
      case None =>
      case Some(e) =>
        if e.key !in r || r[e.key] == "" {
          r := r[e.key := e.value];
        }
    }
  }

  /** `process.env` as the two scripts see it. */
  class ProcessEnv {
    var vars: map<string, string>

    constructor (vars: map<string, string>)
      ensures this.vars == vars
    {
      this.vars := vars;
    }

    /** `loadEnvFile` of scripts/test-ai-providers.ts: `file` is the
        `.env` text, absent when there is no such file. */
    method LoadOverwriting(file: Option<string>)
      modifies this
      ensures file.None? ==> vars == old(vars)
      ensures file.Some? ==> vars == Overwritten(old(vars), Parsed(Split(file.value, '\n')))
    {
      if file.None? {
        return;
      }
      var lines := Split(file.value, '\n');
      var env := vars;
      ghost var entries := Parsed(lines);
      for i := 0 to |lines|
        invariant env == Overwritten(old(vars), entries[..i])
      {
        var m := MatchEnvLine(lines[i]);
        env := OverwriteEntry(env, m);
        assert entries[..i + 1][..i] == entries[..i];
      }
      assert entries[..|lines|] == entries;
      vars := env;
    }

    /** `loadEnvFile` of scripts/seed-data.ts: only unset or empty
        variables are set. */
    method LoadKeepingExisting(file: Option<string>)
      modifies this
      ensures file.None? ==> vars == old(vars)
      ensures file.Some? ==> vars == Kept(old(vars), Parsed(Split(file.value, '\n')))
    {
      if file.None? {
        return;
      }
      var lines := Split(file.value, '\n');
      var env := vars;
      ghost var entries := Parsed(lines);
      for i := 0 to |lines|
        invariant env == Kept(old(vars), entries[..i])
      {
        var m := MatchEnvLine(lines[i]);
        env := KeepEntry(env, m);
        assert entries[..i + 1][..i] == entries[..i];
      }
      assert entries[..|lines|] == entries;
      vars := env;
    }
  }
}
