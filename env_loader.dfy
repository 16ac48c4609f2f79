/** The `.env` loader of the PHP API: each `KEY=VALUE` line of the file
    sets one environment variable. The file's resolved path, its existence
    and its lines are parameters; `putenv`, `$_ENV` and `$_SERVER` receive
    the same entries and are one map here. */
module EnvLoader {
  import opened Wrappers
  import opened Text
  import opened Seqs

  function IsEquals(c: char): bool { c == '=' }

  /** A line whose trimmed form starts with `#`. */
  predicate IsComment(line: string) {
    var t := Trim(line);
    t != [] && t[0] == '#'
  }

  /** `/^[A-Z_][A-Z0-9_]*$/`. */
  predicate ValidKey(key: string) {
    && key != []
    && (IsUpper(key[0]) || key[0] == '_')
    && forall i :: 1 <= i < |key| ==> IsUpper(key[i]) || IsDigit(key[i]) || key[i] == '_'
  }

  /** A value wrapped in one pair of matching quotes loses that pair. A
      lone quote counts as both ends and leaves the empty string, as
      `substr('"', 1, -1)` does. */
  function Unquote(v: string): (r: string)
    ensures v != [] && (v[0] == '"' || v[0] == '\'') && v[|v| - 1] == v[0] && |v| >= 2 ==> r == v[1..|v| - 1]
    ensures v != [] && (v[0] == '"' || v[0] == '\'') && |v| == 1 ==> r == []
    ensures !(v != [] && (v[0] == '"' || v[0] == '\'') && v[|v| - 1] == v[0]) ==> r == v
  {
    if v != [] && ((v[0] == '"' && v[|v| - 1] == '"') || (v[0] == '\'' && v[|v| - 1] == '\'')) then
      (if |v| >= 2 then v[1..|v| - 1] else [])
    else v
  }

  /** Quotes that do not match are kept. */
  lemma UnquoteMismatched()
    ensures Unquote("\"abc'") == "\"abc'"
    ensures Unquote("'abc'") == "abc"
  {
    assert "'abc'"[1..4] == "abc";
  }

  /** The entry one line sets, if any: comments, lines without `=` and
      invalid keys set nothing; otherwise the line splits at its first
      `=`, both halves are trimmed and the value is unquoted. */
  function ParseLine(line: string): Option<(string, string)> {
    if IsComment(line) then None
    else match FirstIndex(line, IsEquals)
      case None => None
      case Some(k) =>
        var key := Trim(line[..k]);
        if ValidKey(key) then Some((key, Unquote(Trim(line[k + 1..])))) else None
  }

  /** `FirstIndex` finds the first `=` of a line, if it has one. */
  lemma FirstEquals(line: string)
    ensures '=' in line <==> FirstIndex(line, IsEquals).Some?
    ensures FirstIndex(line, IsEquals).Some? ==>
      var k := FirstIndex(line, IsEquals).value;
      '=' !in line[..k] && line[k] == '='
  {
    if '=' in line {
      var i :| 0 <= i < |line| && line[i] == '=';
      assert IsEquals(line[i]);
    }
    match FirstIndex(line, IsEquals)
    case None =>
    case Some(k) =>
      assert IsEquals(line[k]);
      assert forall j :: 0 <= j < k ==> !IsEquals(line[..k][j]);
  }

  /** A line sets an entry exactly when it is not a comment, holds an `=`
      and its trimmed key is valid; the key is what precedes the first
      `=`, so the value may itself hold `=`. */
  lemma ParseLineSpec(line: string)
    ensures ParseLine(line).Some? <==>
      && !IsComment(line)
      && '=' in line
      && ValidKey(Trim(line[..FirstIndex(line, IsEquals).value]))
    ensures ParseLine(line).Some? ==>
      var k := FirstIndex(line, IsEquals).value;
      && '=' !in line[..k] && line[k] == '='
      && ParseLine(line).value.0 == Trim(line[..k])
      && ParseLine(line).value.1 == Unquote(Trim(line[k + 1..]))
  {
    FirstEquals(line);
  }

  /** A valid key has nothing to trim. */
  lemma ValidKeyTrimmed(key: string)
    requires ValidKey(key)
    ensures Trim(key) == key
  {
    var last := key[|key| - 1];
    assert IsUpper(last) || IsDigit(last) || last == '_' by {
      if |key| > 1 {
        assert 1 <= |key| - 1 < |key|;
      }
    }
    assert !IsTrimmed(key[0]) && !IsTrimmed(last);
    assert TrimLeft(key) == key;
    assert TrimRight(key) == key;
  }

  /** A line that starts with a valid key is no comment, and its first `=`
      is the one after the key. */
  lemma KeyLineShape(key: string, value: string)
    requires ValidKey(key)
    ensures !IsComment(key + "=" + value)
    ensures FirstIndex(key + "=" + value, IsEquals) == Some(|key|)
  {
    var line := key + "=" + value;
    assert !IsTrimmed(line[0]);
    assert TrimLeft(line) == line;
    assert TrimRight(line)[0] == line[0] == key[0];
    assert IsEquals(line[|key|]);
    assert forall j :: 0 <= j < |key| ==> line[j] == key[j];
  }

  /** Writing an entry as `KEY=VALUE` and reading the line back gives the
      key and the trimmed, unquoted value, whatever the value holds
      (further `=` included). */
  lemma {:induction false} EntryRoundTrip(key: string, value: string)
    requires ValidKey(key)
    ensures ParseLine(key + "=" + value) == Some((key, Unquote(Trim(value))))
  {
    var line := key + "=" + value;
    KeyLineShape(key, value);
    ValidKeyTrimmed(key);
    assert line[..|key|] == key && line[|key| + 1..] == value;
  }

  /** What one line sets, if anything. */
  type Entry = Option<(string, string)>

  /** The entry of each line, in file order. */
  function Parsed(lines: seq<string>): (es: seq<Entry>)
    ensures |es| == |lines|
    ensures forall i :: 0 <= i < |lines| ==> es[i] == ParseLine(lines[i])
  {
    seq(|lines|, i requires 0 <= i < |lines| => ParseLine(lines[i]))
  }

  /** The environment after one entry is applied. */
  function Step(env: map<string, string>, e: Entry): map<string, string> {
    match e
    case None => env
    case Some(kv) => env[kv.0 := kv.1]
  }

  function ApplyEntries(env: map<string, string>, es: seq<Entry>): map<string, string> {
    if es == [] then env else Step(ApplyEntries(env, es[..|es| - 1]), es[|es| - 1])
  }

  /** The environment after the lines are applied in order. */
  function ApplyLines(env: map<string, string>, lines: seq<string>): map<string, string> {
    ApplyEntries(env, Parsed(lines))
  }

  predicate SetsKey(e: Entry, key: string) { e.Some? && e.value.0 == key }

  /** Whether `line` sets `key`. */
  predicate Sets(line: string, key: string) { SetsKey(ParseLine(line), key) }

  lemma {:induction false} UnsetEntryKept(env: map<string, string>, es: seq<Entry>, key: string)
    requires forall i :: 0 <= i < |es| ==> !SetsKey(es[i], key)
    ensures key in ApplyEntries(env, es) <==> key in env
    ensures key in env ==> ApplyEntries(env, es)[key] == env[key]
  {
    if es != [] {
      var init := es[..|es| - 1];
      assert forall i :: 0 <= i < |init| ==> init[i] == es[i];
      UnsetEntryKept(env, init, key);
      assert !SetsKey(es[|es| - 1], key);
    }
  }

  lemma {:induction false} LastEntryWins(env: map<string, string>, es: seq<Entry>, key: string, i: nat)
    requires i < |es| && SetsKey(es[i], key)
    requires forall j :: i < j < |es| ==> !SetsKey(es[j], key)
    ensures key in ApplyEntries(env, es)
    ensures ApplyEntries(env, es)[key] == es[i].value.1
  {
    var init := es[..|es| - 1];
    if i < |es| - 1 {
      assert init[i] == es[i];
      assert forall j :: i < j < |init| ==> init[j] == es[j];
      LastEntryWins(env, init, key, i);
      assert !SetsKey(es[|es| - 1], key);
    }
  }

  /** A key no line sets keeps its earlier value, or stays absent. */
  lemma UnsetKeyKept(env: map<string, string>, lines: seq<string>, key: string)
    requires forall i :: 0 <= i < |lines| ==> !Sets(lines[i], key)
    ensures key in ApplyLines(env, lines) <==> key in env
    ensures key in env ==> ApplyLines(env, lines)[key] == env[key]
  {
    UnsetEntryKept(env, Parsed(lines), key);
  }

  /** When a key repeats, the last line that sets it wins. */
  lemma LastLineWins(env: map<string, string>, lines: seq<string>, key: string, i: nat)
    requires i < |lines| && Sets(lines[i], key)
    requires forall j :: i < j < |lines| ==> !Sets(lines[j], key)
    ensures key in ApplyLines(env, lines)
    ensures ApplyLines(env, lines)[key] == ParseLine(lines[i]).value.1
  {
    LastEntryWins(env, Parsed(lines), key, i);
  }

  lemma {:induction false} EntryKeys(env: map<string, string>, es: seq<Entry>)
    requires forall i :: 0 <= i < |es| && es[i].Some? ==> ValidKey(es[i].value.0)
    ensures env.Keys <= ApplyEntries(env, es).Keys
    ensures forall k :: k in ApplyEntries(env, es) && k !in env ==> ValidKey(k)
  {
    if es != [] {
      var init := es[..|es| - 1];
      assert forall i :: 0 <= i < |init| ==> init[i] == es[i];
      EntryKeys(env, init);
    }
  }

  /** Only the keys some line sets are touched, and every key added is
      valid. */
  lemma ApplyLinesKeys(env: map<string, string>, lines: seq<string>)
    ensures env.Keys <= ApplyLines(env, lines).Keys
    ensures forall k :: k in ApplyLines(env, lines) && k !in env ==> ValidKey(k)
  {
    forall i | 0 <= i < |lines|
      ensures ParseLine(lines[i]).Some? ==> ValidKey(ParseLine(lines[i]).value.0)
    {
      ParseLineSpec(lines[i]);
    }
    EntryKeys(env, Parsed(lines));
  }

  // --------------------------------------------------------- path check

  /** The path check as written: the resolved path must exist and start
      with the resolved directory of the loader. */
  predicate PathAllowedAsWritten(realPath: Option<string>, baseDir: string) {
    realPath.Some? && baseDir <= realPath.value
  }

  /** A sibling directory whose name extends the loader's passes the check
      as written. */
  lemma SiblingDirectoryPasses()
    ensures PathAllowedAsWritten(Some("/srv/api-old/.env"), "/srv/api")
    ensures !PathAllowed(Some("/srv/api-old/.env"), "/srv/api")
  {
    assert "/srv/api" == "/srv/api-old/.env"[..8];
    assert "/srv/api-old/.env"[8] == '-';
    assert ("/srv/api" + "/")[8] == '/';
  }

  /** The check the comment asks for: the directory itself or a path
      inside it. */
  predicate PathAllowed(realPath: Option<string>, baseDir: string) {
    realPath.Some? && (realPath.value == baseDir || baseDir + "/" <= realPath.value)
  }

  /** An allowed path is allowed by the check as written too, and lies in
      the directory rather than merely beside it. */
  lemma PathAllowedWithin(realPath: Option<string>, baseDir: string)
    ensures PathAllowed(realPath, baseDir) ==> PathAllowedAsWritten(realPath, baseDir)
    ensures PathAllowed(realPath, baseDir) && realPath.value != baseDir ==>
      |realPath.value| > |baseDir| && realPath.value[|baseDir|] == '/'
  {
    if PathAllowed(realPath, baseDir) && realPath.value != baseDir {
      assert (baseDir + "/")[..|baseDir|] == baseDir;
      assert (baseDir + "/")[|baseDir|] == '/';
    }
  }

  class Environment {
    var vars: map<string, string>

    constructor (initial: map<string, string>)
      ensures vars == initial
    {
      vars := initial;
    }

    /** `loadEnv`: a path that does not start with the directory, or a
        missing file, gives false before any line is read; otherwise every
        line is applied in order and the result is true. The prefix test is
        the one as written, so a sibling directory such as `/srv/api-old`
        passes for `/srv/api`. */
    method LoadEnv(realPath: Option<string>, baseDir: string, fileExists: bool, lines: seq<string>)
      returns (ok: bool)
      modifies this
      ensures ok <==> PathAllowedAsWritten(realPath, baseDir) && fileExists
      ensures ok ==> vars == ApplyLines(old(vars), lines)
      ensures !ok ==> vars == old(vars)
    {
      if !PathAllowedAsWritten(realPath, baseDir) {
        return false;
      }
      if !fileExists {
        return false;
      }
      ghost var es := Parsed(lines);
      for i := 0 to |lines|
        invariant vars == ApplyEntries(old(vars), es[..i])
      {
        assert es[..i + 1][..i] == es[..i];
        vars := Step(vars, ParseLine(lines[i]));
      }
      assert es[..|lines|] == es;
      return true;
    }
  }
}
