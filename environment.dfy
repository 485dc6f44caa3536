/** Config/Environment.swift: the OAuth client settings read from the process environment, and the
    `.envlocal` file that fills that environment and stores the Google token.
    The process environment is a map from names to values; the file is its text, or `None` when it
    is missing or cannot be read. */
module Environment {
  import opened Wrappers
  import opened Text

  type Env = map<string, string>

  /** `Environment.Error` */
  datatype EnvError = MissingClientId | MissingClientSecret

  const ClientIdVar := "GOOGLE_CLIENT_ID"
  const ClientSecretVar := "GOOGLE_CLIENT_SECRET"
  const TokenVar := "GOOGLE_TOKEN"

  /** `googleClientId()`: the variable's value, or `missingClientId` when it is not set. */
  function GoogleClientId(env: Env): (r: Result<string, EnvError>)
    ensures r.Success? <==> ClientIdVar in env
    ensures r.Success? ==> r.value == env[ClientIdVar]
    ensures r.Failure? ==> r.error == MissingClientId
  {
    if ClientIdVar in env then Success(env[ClientIdVar]) else Failure(MissingClientId)
  }

  /** `googleClientSecret()`: the variable's value, or `missingClientSecret` when it is not set. */
  function GoogleClientSecret(env: Env): (r: Result<string, EnvError>)
    ensures r.Success? <==> ClientSecretVar in env
    ensures r.Success? ==> r.value == env[ClientSecretVar]
    ensures r.Failure? ==> r.error == MissingClientSecret
  {
    if ClientSecretVar in env then Success(env[ClientSecretVar]) else Failure(MissingClientSecret)
  }

  /** `googleToken()`: the variable's value if it is set. */
  function GoogleToken(env: Env): (r: Option<string>)
    ensures r.Some? <==> TokenVar in env
    ensures r.Some? ==> r.value == env[TokenVar]
  {
    if TokenVar in env then Some(env[TokenVar]) else None
  }

  /** `setenv(key, value, 1)`: the Swift strings reach C as NUL-terminated strings, so only what
      comes before a U+0000 in the key or the value counts. An existing value is overwritten; POSIX
      refuses (EINVAL) an empty name or one holding '=', and the return value is ignored, so such a
      call changes nothing. */
  function SetEnv(env: Env, key: string, value: string): (r: Env)
    ensures var name := UpToNul(key);
      name != [] && '=' !in name ==> name in r && r[name] == UpToNul(value)
    ensures var name := UpToNul(key); name == [] || '=' in name ==> r == env
    ensures forall k :: k != UpToNul(key) ==> (k in r <==> k in env) && (k in r ==> r[k] == env[k])
  {
    var name := UpToNul(key);
    if name == [] || '=' in name then env else env[name := UpToNul(value)]
  }

  /** A key and a value without U+0000 are set as they are. */
  lemma SetEnvWhole(env: Env, key: string, value: string)
    requires '\0' !in key && '\0' !in value && key != [] && '=' !in key
    ensures SetEnv(env, key, value) == env[key := value]
  {
    UpToNulWhole(key);
    UpToNulWhole(value);
  }

  /** A U+0000 in the key ends the name C sees: `A\0B` sets `A`, and a key starting with U+0000 sets
      nothing. */
  lemma SetEnvCutsKey(env: Env, name: string, rest: string, value: string)
    requires '\0' !in name
    ensures name != [] && '=' !in name ==> SetEnv(env, name + "\0" + rest, value) == env[name := UpToNul(value)]
    ensures name == [] ==> SetEnv(env, name + "\0" + rest, value) == env
  {
    UpToNulCuts(name, rest);
  }

  /** The value with one pair of surrounding double quotes removed: `dropFirst().dropLast()` when it
      both starts and ends with '"' (a lone '"' becomes empty). */
  function Unquote(value: string): (r: string)
    ensures StartsWith(value, "\"") && EndsWith(value, "\"") ==>
              r == (if |value| >= 2 then value[1..|value| - 1] else [])
    ensures !(StartsWith(value, "\"") && EndsWith(value, "\"")) ==> r == value
  {
    if StartsWith(value, "\"") && EndsWith(value, "\"") then DropLast(DropFirst(value)) else value
  }

  /** What one line of `.envlocal` asks `setenv` for, if anything: after trimming, an empty line or one
      starting with '#' asks for nothing, and so does one that the split at '=' does not cut into
      exactly two pieces; otherwise the trimmed key and the trimmed, unquoted value. */
  function ParseLine(raw: string): (r: Option<(string, string)>)
    ensures r.Some? ==> '=' !in r.value.0
    ensures var line := Trim(raw);
      r.Some? <==> line != [] && !StartsWith(line, "#") && |SplitOnEquals(line)| == 2
  {
    var line := Trim(raw);
    if line == [] || StartsWith(line, "#") then None
    else
      var parts := SplitOnEquals(line);
      if |parts| != 2 then None
      else
        var key := Trim(parts[0]);
        assert '=' !in key by {
          var i, j :| 0 <= i <= j <= |parts[0]| && key == parts[0][i..j];
          assert forall x :: x in key ==> x in parts[0];
        }
        Some((key, Unquote(Trim(parts[1]))))
  }

  /** The environment after one line has been handled. */
  function ApplyLine(env: Env, raw: string): Env {
    match ParseLine(raw)
    case None => env
    case Some((key, value)) => SetEnv(env, key, value)
  }

  /** The environment after the lines have been handled one after another. */
  function LoadLines(lines: seq<string>, env: Env): Env
    decreases |lines|
  {
    if lines == [] then env
    else ApplyLine(LoadLines(lines[..|lines| - 1], env), lines[|lines| - 1])
  }

  /** The environment after `loadEnvFile()`, given the file's text or `None` for a missing or
      unreadable file. */
  function LoadedEnv(file: Option<string>, env: Env): Env {
    match file
    case None => env
    case Some(text) => LoadLines(SplitLines(text), env)
  }

  /** `loadEnvFile()`: a missing or unreadable `.envlocal` changes nothing; otherwise each line is
      trimmed, blank lines and comments are skipped, and each `KEY=VALUE` line is passed to `setenv`. */
  method LoadEnvFile(file: Option<string>, env: Env) returns (env': Env)
    ensures env' == LoadedEnv(file, env)
    ensures file.None? ==> env' == env
  {
    env' := env;
    if file.None? {
      return;
    }
    var envVars := SplitLines(file.value);
    for i := 0 to |envVars|
      invariant env' == LoadLines(envVars[..i], env)
    {
      LoadLinesStep(envVars, i, env);
      var line := Trim(envVars[i]);
      if line == [] || StartsWith(line, "#") {
        assert ParseLine(envVars[i]).None?;
        continue;
      }
      var parts := SplitOnEquals(line);
      if |parts| == 2 {
        var key := Trim(parts[0]);
        var value := Trim(parts[1]);
        if StartsWith(value, "\"") && EndsWith(value, "\"") {
          value := DropLast(DropFirst(value));
        }
        assert ParseLine(envVars[i]) == Some((key, value));
        env' := SetEnv(env', key, value);
      } else {
        assert ParseLine(envVars[i]).None?;
      }
    }
    assert envVars[..|envVars|] == envVars;
  }

  /** Handling the first `i + 1` lines is handling the first `i`, then line `i`. */
  lemma LoadLinesStep(lines: seq<string>, i: nat, env: Env)
    requires i < |lines|
    ensures LoadLines(lines[..i + 1], env) == ApplyLine(LoadLines(lines[..i], env), lines[i])
  {
    assert lines[..i + 1][..i] == lines[..i];
  }

  /** Blank lines and comment lines leave the environment as it is. */
  lemma SkippedLineSetsNothing(env: Env, raw: string)
    requires Trim(raw) == [] || StartsWith(Trim(raw), "#")
    ensures ApplyLine(env, raw) == env
  {
  }

  /** A line `key=value` asks for `key` and the unquoted value, even when the value holds further
      '='s (`A=b=c` asks for `A` and `b=c`). */
  lemma ParseKeyValue(key: string, value: string)
    requires key != [] && '=' !in key && key[0] != '#'
    requires !IsWhitespace(key[0]) && !IsWhitespace(key[|key| - 1])
    requires value != [] && !IsWhitespace(value[0]) && !IsWhitespace(value[|value| - 1])
    ensures ParseLine(key + "=" + value) == Some((key, Unquote(value)))
  {
    var line := key + "=" + value;
    assert line[0] == key[0] && line[|line| - 1] == value[|value| - 1];
    TrimUntouched(line);
    assert !StartsWith(line, "#") by {
      assert line[..1] == [key[0]];
    }
    SplitOnEqualsAtFirst(key, value);
    TrimUntouched(key);
    TrimUntouched(value);
  }

  /** Whitespace around the key, around the '=' and around the value is dropped: a line
      `  KEY = value  ` asks for `KEY` and the unquoted `value`. */
  lemma ParseSpacedKeyValue(w1: string, key: string, w2: string, w3: string, value: string, w4: string)
    requires AllWhitespace(w1) && AllWhitespace(w2) && AllWhitespace(w3) && AllWhitespace(w4)
    requires key != [] && '=' !in key && key[0] != '#'
    requires !IsWhitespace(key[0]) && !IsWhitespace(key[|key| - 1])
    requires value != [] && !IsWhitespace(value[0]) && !IsWhitespace(value[|value| - 1])
    ensures ParseLine(w1 + key + w2 + "=" + w3 + value + w4) == Some((key, Unquote(value)))
  {
    TrimSpacedLine(w1, key, w2, w3, value, w4);
    SplitSpacedLine(key, w2, w3, value);
    TrimSpacedParts(key, w2, w3, value);
    ParseTrimmed(w1 + key + w2 + "=" + w3 + value + w4, key + w2, w3 + value);
  }

  /** Trimming `w1 KEY w2=w3 value w4` leaves `KEY w2=w3 value`, which is no comment. */
  lemma TrimSpacedLine(w1: string, key: string, w2: string, w3: string, value: string, w4: string)
    requires AllWhitespace(w1) && AllWhitespace(w4)
    requires key != [] && value != [] && key[0] != '#'
    requires !IsWhitespace(key[0]) && !IsWhitespace(value[|value| - 1])
    ensures var line := key + w2 + "=" + w3 + value;
      Trim(w1 + key + w2 + "=" + w3 + value + w4) == line && line != [] && !StartsWith(line, "#")
  {
    var inner := key + w2 + "=" + w3 + value;
    assert w1 + key + w2 + "=" + w3 + value + w4 == w1 + inner + w4;
    assert inner[0] == key[0] && inner[|inner| - 1] == value[|value| - 1];
    TrimAround(w1, inner, w4);
    assert inner[..1] == [key[0]];
  }

  /** A key followed by whitespace holds no '=', so the split cuts at the '=' after it. */
  lemma SplitSpacedLine(key: string, w2: string, w3: string, value: string)
    requires AllWhitespace(w2) && key != [] && '=' !in key && value != []
    ensures SplitOnEquals(key + w2 + "=" + w3 + value) == [key + w2, w3 + value]
  {
    var left := key + w2;
    assert '=' !in left by {
      assert forall k :: 0 <= k < |left| ==> left[k] == if k < |key| then key[k] else w2[k - |key|];
    }
    SplitOnEqualsAtFirst(left, w3 + value);
    assert key + w2 + "=" + w3 + value == left + "=" + (w3 + value);
  }

  /** The two pieces trim to the key and the value. */
  lemma TrimSpacedParts(key: string, w2: string, w3: string, value: string)
    requires AllWhitespace(w2) && AllWhitespace(w3)
    requires key != [] && !IsWhitespace(key[0]) && !IsWhitespace(key[|key| - 1])
    requires value != [] && !IsWhitespace(value[0]) && !IsWhitespace(value[|value| - 1])
    ensures Trim(key + w2) == key && Trim(w3 + value) == value
  {
    TrimAround([], key, w2);
    assert [] + key + w2 == key + w2;
    TrimAround(w3, value, []);
    assert w3 + value + [] == w3 + value;
  }

  /** A line whose trimmed form is not a comment and splits into two pieces asks for the trimmed
      first piece and the trimmed, unquoted second piece. */
  lemma ParseTrimmed(raw: string, left: string, right: string)
    requires Trim(raw) != [] && !StartsWith(Trim(raw), "#") && SplitOnEquals(Trim(raw)) == [left, right]
    ensures ParseLine(raw) == Some((Trim(left), Unquote(Trim(right))))
  {
  }

  /** So such a line sets `key` to the unquoted value, each up to its first U+0000; a key that
      starts with U+0000 sets nothing. */
  lemma KeyValueLine(env: Env, key: string, value: string)
    requires key != [] && '=' !in key && key[0] != '#'
    requires !IsWhitespace(key[0]) && !IsWhitespace(key[|key| - 1])
    requires value != [] && !IsWhitespace(value[0]) && !IsWhitespace(value[|value| - 1])
    ensures UpToNul(key) != [] ==>
      ApplyLine(env, key + "=" + value) == env[UpToNul(key) := UpToNul(Unquote(value))]
    ensures UpToNul(key) == [] ==> ApplyLine(env, key + "=" + value) == env
  {
    ParseKeyValue(key, value);
    UpToNulKeepsOut(key, '=');
    assert ApplyLine(env, key + "=" + value) == SetEnv(env, key, Unquote(value));
  }

  /** A line `KEY=` with nothing after the '=' sets nothing. */
  lemma KeyWithoutValue(env: Env, key: string)
    requires key != [] && '=' !in key && key[0] != '#'
    requires !IsWhitespace(key[0])
    ensures ApplyLine(env, key + "=") == env
  {
    var line := key + "=";
    assert line[0] == key[0] && line[|line| - 1] == '=';
    TrimUntouched(line);
    SplitOnEqualsNoValue(key);
  }

  /** A line `=value` with nothing before the '=' sets nothing. */
  lemma ValueWithoutKey(env: Env, value: string)
    requires value != [] && '=' !in value
    requires !IsWhitespace(value[|value| - 1])
    ensures ApplyLine(env, "=" + value) == env
  {
    var line := "=" + value;
    assert line[0] == '=' && line[|line| - 1] == value[|value| - 1];
    TrimUntouched(line);
    SplitOnEqualsNoKey(value);
  }

  /** Handling one more line at the end. */
  lemma LoadLinesSnoc(lines: seq<string>, line: string, env: Env)
    ensures LoadLines(lines + [line], env) == ApplyLine(LoadLines(lines, env), line)
  {
    assert (lines + [line])[..|lines|] == lines;
  }

  /** A line that sets `key` gives the name C sees its value as C sees it. */
  lemma ApplyLineSets(env: Env, raw: string, key: string, value: string)
    requires ParseLine(raw) == Some((key, value)) && UpToNul(key) != []
    ensures UpToNul(key) in ApplyLine(env, raw) && ApplyLine(env, raw)[UpToNul(key)] == UpToNul(value)
  {
  }

  /** A line that does not set `key`: it sets nothing, or its name as C sees it is another one. */
  predicate LeavesKey(raw: string, key: string) {
    ParseLine(raw).None? || UpToNul(ParseLine(raw).value.0) != key
  }

  /** A line that does not set `key` leaves its value alone. */
  lemma ApplyLineKeeps(env: Env, raw: string, key: string)
    requires LeavesKey(raw, key)
    requires key in env
    ensures key in ApplyLine(env, raw) && ApplyLine(env, raw)[key] == env[key]
  {
  }

  /** A line that sets `key` decides its value unless a later line sets `key` again. */
  lemma LaterLineWins(before: seq<string>, line: string, after: seq<string>, env: Env,
                      key: string, value: string)
    requires ParseLine(line) == Some((key, value)) && UpToNul(key) != []
    requires forall i :: 0 <= i < |after| ==> LeavesKey(after[i], UpToNul(key))
    ensures var loaded := LoadLines(before + [line] + after, env);
      UpToNul(key) in loaded && loaded[UpToNul(key)] == UpToNul(value)
  {
    LoadLinesSnoc(before, line, env);
    ApplyLineSets(LoadLines(before, env), line, key, value);
    LoadKeeps(before + [line], after, env, UpToNul(key), UpToNul(value));
  }

  /** Lines none of which sets `key` keep the value the earlier lines gave it. */
  lemma LoadKeeps(prefix: seq<string>, after: seq<string>, env: Env, key: string, value: string)
    requires key in LoadLines(prefix, env) && LoadLines(prefix, env)[key] == value
    requires forall i :: 0 <= i < |after| ==> LeavesKey(after[i], key)
    ensures key in LoadLines(prefix + after, env) && LoadLines(prefix + after, env)[key] == value
  {
    AllLeaveFromEach(after, key);
    LoadLeaves(prefix, after, env, key);
  }

  /** Two environments that give `key` the same standing: both lack it, or both bind it to one value. */
  predicate SameFor(e1: Env, e2: Env, key: string) {
    (key in e1 <==> key in e2) && (key in e1 ==> e1[key] == e2[key])
  }

  /** None of the lines sets `key`, stated line by line from the last. */
  predicate AllLeave(lines: seq<string>, key: string)
    decreases |lines|
  {
    lines == [] || (AllLeave(lines[..|lines| - 1], key) && LeavesKey(lines[|lines| - 1], key))
  }

  lemma {:induction false} AllLeaveFromEach(lines: seq<string>, key: string)
    requires forall i :: 0 <= i < |lines| ==> LeavesKey(lines[i], key)
    ensures AllLeave(lines, key)
    decreases |lines|
  {
    if lines != [] {
      var init := lines[..|lines| - 1];
      assert forall i :: 0 <= i < |init| ==> init[i] == lines[i];
      AllLeaveFromEach(init, key);
    }
  }

  /** Loading lines none of which sets `key` after others leaves `key` as those others left it. */
  lemma {:induction false} LoadLeaves(prefix: seq<string>, after: seq<string>, env: Env, key: string)
    requires AllLeave(after, key)
    ensures SameFor(LoadLines(prefix + after, env), LoadLines(prefix, env), key)
    decreases |after|
  {
    if after == [] {
      assert prefix + after == prefix;
    } else {
      var shorter := after[..|after| - 1];
      var last := after[|after| - 1];
      LoadLeaves(prefix, shorter, env, key);
      assert prefix + after == (prefix + shorter) + [last];
      LoadKeepsStep(prefix + shorter, last, env, key);
    }
  }

  /** One more line that does not set `key` leaves it as it was. */
  lemma LoadKeepsStep(lines: seq<string>, last: string, env: Env, key: string)
    requires LeavesKey(last, key)
    ensures SameFor(LoadLines(lines + [last], env), LoadLines(lines, env), key)
  {
    LoadLinesSnoc(lines, last, env);
    ApplyLineLeaves(LoadLines(lines, env), last, key);
  }

  /** A line that does not set `key` leaves it as it was, bound or not. */
  lemma ApplyLineLeaves(env: Env, raw: string, key: string)
    requires LeavesKey(raw, key)
    ensures SameFor(ApplyLine(env, raw), env, key)
  {
  }

  /** The text `saveGoogleToken(token)` writes to `.envlocal`: every line starting with
      `GOOGLE_TOKEN=` dropped, the rest joined with '\n', and a new token line appended; `None`
      when the file cannot be read, in which case nothing is written. */
  function SaveGoogleToken(file: Option<string>, token: string): (r: Option<string>)
    ensures r.Some? <==> file.Some?
  {
    match file
    case None => None
    case Some(text) => Some(Join(WithoutTokenLines(SplitLines(text)), "\n") + "\n" + TokenVar + "=" + token + "\n")
  }

  /** The lines that do not start with `GOOGLE_TOKEN=`, in their order. */
  function WithoutTokenLines(lines: seq<string>): (r: seq<string>)
    ensures |r| <= |lines|
    ensures forall i :: 0 <= i < |r| ==> !StartsWith(r[i], TokenVar + "=") && r[i] in lines
    decreases |lines|
  {
    if lines == [] then []
    else
      var rest := WithoutTokenLines(lines[..|lines| - 1]);
      var last := lines[|lines| - 1];
      assert forall l :: l in lines[..|lines| - 1] ==> l in lines;
      if StartsWith(last, TokenVar + "=") then rest else rest + [last]
  }

  /** The filter works line by line: the lines kept from two runs of lines are those kept from the
      first followed by those kept from the second, so every other line keeps its order. */
  lemma {:induction false} WithoutTokenLinesConcat(a: seq<string>, b: seq<string>)
    ensures WithoutTokenLines(a + b) == WithoutTokenLines(a) + WithoutTokenLines(b)
    decreases |b|
  {
    if b == [] {
      assert a + b == a;
    } else {
      var init := b[..|b| - 1];
      WithoutTokenLinesConcat(a, init);
      assert (a + b)[..|a + b| - 1] == a + init;
    }
  }

  /** Every line that does not start with `GOOGLE_TOKEN=` is kept. */
  lemma WithoutTokenLinesKeeps(lines: seq<string>, i: nat)
    requires i < |lines| && !StartsWith(lines[i], TokenVar + "=")
    ensures lines[i] in WithoutTokenLines(lines)
  {
    assert lines == lines[..i] + [lines[i]] + lines[i + 1..];
    WithoutTokenLinesConcat(lines[..i] + [lines[i]], lines[i + 1..]);
    WithoutTokenLinesConcat(lines[..i], [lines[i]]);
    WithoutTokenLinesOne(lines[i]);
  }

  /** One line alone is dropped iff it starts with `GOOGLE_TOKEN=`. */
  lemma WithoutTokenLinesOne(l: string)
    ensures WithoutTokenLines([l]) == if StartsWith(l, TokenVar + "=") then [] else [l]
  {
    assert [l][..0] == [];
  }

  /** The lines of the saved text: the kept lines (one empty line if none was kept), the new token
      line, and the empty line after its final '\n'. */
  lemma SavedLines(text: string, token: string)
    requires NoNewline(token)
    ensures var kept := WithoutTokenLines(SplitLines(text));
      SplitLines(SaveGoogleToken(Some(text), token).value)
        == (if kept == [] then [""] else kept) + [TokenVar + "=" + token, ""]
  {
    var kept := WithoutTokenLines(SplitLines(text));
    var head := Join(kept, "\n");
    assert SaveGoogleToken(Some(text), token).value == head + "\n" + TokenVar + "=" + token + "\n";
    SavedTail(head, token);
    if kept == [] {
      assert head == "";
    } else {
      KeptLinesAreLines(text);
      SplitJoin(kept);
    }
  }

  /** After the kept text, the saved file holds exactly the token line and the empty line after it. */
  lemma SavedTail(head: string, token: string)
    requires NoNewline(token)
    ensures SplitLines(head + "\n" + TokenVar + "=" + token + "\n")
      == SplitLines(head) + [TokenVar + "=" + token, ""]
  {
    var tokenLine := TokenVar + "=" + token;
    assert head + "\n" + TokenVar + "=" + token + "\n" == head + "\n" + (tokenLine + "\n" + "");
    SplitLinesAppend(head, tokenLine + "\n" + "");
    SplitLinesAppend(tokenLine, "");
    TokenLineIsOneLine(token);
  }

  /** `GOOGLE_TOKEN=<token>` is a single line when the token holds no newline. */
  lemma TokenLineIsOneLine(token: string)
    requires NoNewline(token)
    ensures SplitLines(TokenVar + "=" + token) == [TokenVar + "=" + token]
  {
    var tokenLine := TokenVar + "=" + token;
    assert NoNewline(tokenLine) by {
      assert forall i :: 0 <= i < |TokenVar + "="| ==> !IsNewline((TokenVar + "=")[i]);
      assert forall i :: |TokenVar + "="| <= i < |tokenLine| ==> tokenLine[i] == token[i - |TokenVar + "="|];
    }
    SplitLinesOfLine(tokenLine);
  }

  /** The lines kept from a file hold no newline character. */
  lemma KeptLinesAreLines(text: string)
    ensures var kept := WithoutTokenLines(SplitLines(text));
      forall i :: 0 <= i < |kept| ==> NoNewline(kept[i])
  {
    var lines := SplitLines(text);
    var kept := WithoutTokenLines(lines);
    forall i | 0 <= i < |kept| ensures NoNewline(kept[i]) {
      var j :| 0 <= j < |lines| && lines[j] == kept[i];
    }
  }

  /** The name `GOOGLE_TOKEN` passes the parser's key checks. */
  lemma TokenVarIsPlainKey()
    ensures TokenVar != [] && '=' !in TokenVar && TokenVar[0] != '#'
    ensures !IsWhitespace(TokenVar[0]) && !IsWhitespace(TokenVar[|TokenVar| - 1])
  {
    assert forall i :: 0 <= i < |TokenVar| ==> TokenVar[i] != '=';
  }

  /** The name `GOOGLE_TOKEN` holds no U+0000, so `setenv` receives it whole. */
  lemma TokenVarReachesC()
    ensures '\0' !in TokenVar && UpToNul(TokenVar) == TokenVar
  {
    assert forall i :: 0 <= i < |TokenVar| ==> TokenVar[i] != '\0';
    UpToNulWhole(TokenVar);
  }

  /** A value not wrapped in double quotes is kept by unquoting. */
  lemma UnquoteUntouched(value: string)
    requires value != [] && !(value[0] == '"' && value[|value| - 1] == '"')
    ensures Unquote(value) == value
  {
    assert StartsWith(value, "\"") ==> value[0] == '"';
    assert EndsWith(value, "\"") ==> value[|value| - 1] == '"';
  }

  /** The appended line `GOOGLE_TOKEN=<token>` sets `GOOGLE_TOKEN` to the token, when the token survives
      the line parser: it is not empty, has no whitespace at its ends and is not wrapped in double quotes. */
  lemma TokenLineParses(token: string)
    requires token != []
    requires !IsWhitespace(token[0]) && !IsWhitespace(token[|token| - 1])
    requires !(token[0] == '"' && token[|token| - 1] == '"')
    ensures ParseLine(TokenVar + "=" + token) == Some((TokenVar, token))
  {
    TokenVarIsPlainKey();
    UnquoteUntouched(token);
    ParseKeyValue(TokenVar, token);
  }

  /** Saving a token and loading the file again sets `GOOGLE_TOKEN` to that token, up to any U+0000
      in it, whatever the file held before, provided the token survives the line parser: it is not
      empty, holds no newline, has no whitespace at its ends and is not wrapped in double quotes. */
  lemma SaveThenLoad(text: string, token: string, env: Env)
    requires token != [] && NoNewline(token)
    requires !IsWhitespace(token[0]) && !IsWhitespace(token[|token| - 1])
    requires !(token[0] == '"' && token[|token| - 1] == '"')
    ensures var loaded := LoadedEnv(SaveGoogleToken(Some(text), token), env);
      TokenVar in loaded && loaded[TokenVar] == UpToNul(token)
  {
    var kept := WithoutTokenLines(SplitLines(text));
    var front := if kept == [] then [""] else kept;
    var tokenLine := TokenVar + "=" + token;
    var saved := SaveGoogleToken(Some(text), token).value;
    assert SaveGoogleToken(Some(text), token) == Some(saved);
    SavedLines(text, token);
    assert SplitLines(saved) == front + [tokenLine] + [""];
    TokenLineLast(front, token, env);
  }

  /** Lines that end with the token line and an empty line set `GOOGLE_TOKEN` to the token, up to any
      U+0000 in it, whatever the lines before hold. */
  lemma TokenLineLast(front: seq<string>, token: string, env: Env)
    requires token != []
    requires !IsWhitespace(token[0]) && !IsWhitespace(token[|token| - 1])
    requires !(token[0] == '"' && token[|token| - 1] == '"')
    ensures var loaded := LoadLines(front + [TokenVar + "=" + token] + [""], env);
      TokenVar in loaded && loaded[TokenVar] == UpToNul(token)
  {
    assert ParseLine("").None? by {
      TrimUntouched("");
    }
    assert LeavesKey("", TokenVar);
    TokenLineParses(token);
    TokenVarReachesC();
    LaterLineWins(front, TokenVar + "=" + token, [""], env, TokenVar, token);
  }

  /** Saving a token keeps what loading the file gives every other variable: each dropped line
      could only set `GOOGLE_TOKEN`, and the appended lines set nothing else. */
  lemma SaveKeepsOtherKeys(text: string, token: string, env: Env, key: string)
    requires NoNewline(token) && key != TokenVar
    ensures SameFor(LoadedEnv(SaveGoogleToken(Some(text), token), env), LoadedEnv(Some(text), env), key)
  {
    var lines := SplitLines(text);
    var kept := WithoutTokenLines(lines);
    var front := if kept == [] then [""] else kept;
    var tokenLine := TokenVar + "=" + token;
    var saved := SaveGoogleToken(Some(text), token).value;
    assert SaveGoogleToken(Some(text), token) == Some(saved);
    SavedLines(text, token);
    assert SplitLines(saved) == front + [tokenLine] + [""];
    assert LeavesKey("", key) by {
      TrimUntouched("");
    }
    LoadKeepsStep(front + [tokenLine], "", env, key);
    assert StartsWith(tokenLine, TokenVar + "=") by {
      assert tokenLine[..|TokenVar + "="|] == TokenVar + "=";
    }
    TokenLineLeavesOther(tokenLine, key);
    LoadKeepsStep(front, tokenLine, env, key);
    if kept == [] {
      LoadKeepsStep([], "", env, key);
      assert [] + [""] == front;
    }
    WithoutTokenLinesKeepOthers(lines, env, key);
  }

  /** Dropping the lines that start with `GOOGLE_TOKEN=` keeps what loading gives every other variable. */
  lemma {:induction false} WithoutTokenLinesKeepOthers(lines: seq<string>, env: Env, key: string)
    requires key != TokenVar
    ensures SameFor(LoadLines(WithoutTokenLines(lines), env), LoadLines(lines, env), key)
    decreases |lines|
  {
    if lines != [] {
      var init := lines[..|lines| - 1];
      var last := lines[|lines| - 1];
      WithoutTokenLinesKeepOthers(init, env, key);
      if StartsWith(last, TokenVar + "=") {
        TokenLineLeavesOther(last, key);
        ApplyLineLeaves(LoadLines(init, env), last, key);
      } else {
        LoadLinesSnoc(WithoutTokenLines(init), last, env);
        ApplyLineSame(LoadLines(WithoutTokenLines(init), env), LoadLines(init, env), last, key);
      }
    }
  }

  /** A line handled in two environments that agree on `key` leaves them agreeing on it. */
  lemma ApplyLineSame(e1: Env, e2: Env, raw: string, key: string)
    requires SameFor(e1, e2, key)
    ensures SameFor(ApplyLine(e1, raw), ApplyLine(e2, raw), key)
  {
  }

  /** A line starting with `GOOGLE_TOKEN=` parses to the key `GOOGLE_TOKEN` or to nothing: trimming
      keeps its start, and the split cuts at that '='. */
  lemma TokenLineKey(raw: string)
    requires StartsWith(raw, TokenVar + "=")
    ensures ParseLine(raw).None? || ParseLine(raw).value.0 == TokenVar
  {
    var p := TokenVar + "=";
    TrimKeepsStart(raw, p);
    var t := Trim(raw);
    TokenVarIsPlainKey();
    if |t| == |p| {
      assert t == TokenVar + "=";
      SplitOnEqualsNoValue(TokenVar);
    } else {
      var rest := t[|p|..];
      assert t == TokenVar + "=" + rest;
      SplitOnEqualsAtFirst(TokenVar, rest);
      assert t[..1] == [TokenVar[0]];
      TrimUntouched(TokenVar);
      ParseTrimmed(raw, TokenVar, rest);
    }
  }

  /** So such a line sets `GOOGLE_TOKEN` or nothing, and no other variable. */
  lemma TokenLineLeavesOther(raw: string, key: string)
    requires StartsWith(raw, TokenVar + "=") && key != TokenVar
    ensures LeavesKey(raw, key)
  {
    TokenLineKey(raw);
    TokenVarReachesC();
  }

  /** Trimming keeps a start that begins and ends with non-whitespace. */
  lemma TrimKeepsStart(raw: string, p: string)
    requires StartsWith(raw, p) && p != []
    requires !IsWhitespace(p[0]) && !IsWhitespace(p[|p| - 1])
    ensures StartsWith(Trim(raw), p)
  {
    assert raw[0] == p[0] && raw[|p| - 1] == p[|p| - 1];
    var t := Trim(raw);
    assert LeadingWhitespace(raw) == 0;
    assert |t| >= |p|;
    assert t[..|p|] == raw[..|p|];
  }
}
