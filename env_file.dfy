/**
 * The `.env.local` reader that both credential-test scripts carry: the file is split on '\n';
 * empty lines and lines starting with '#' are skipped; every other line is split on '=' and the
 * trimmed text before the first '=' becomes a key of `envVars`, set to the trimmed text after it.
 */
module EnvFile {
  import opened Wrappers
  import opened JsText

  /** `envContent.split('\n')`. */
  function Lines(envContent: string): seq<string>
  {
    Split(envContent, '\n')
  }

  /** `!(line && !line.startsWith('#'))`: the line adds nothing. */
  predicate IsSkipped(line: string)
  {
    line == "" || StartsWith(line, "#")
  }

  /** `key.trim()` where `[key, ...valueParts] = line.split('=')`. */
  function KeyOf(line: string): string
  {
    Trim(Split(line, '=')[0])
  }

  /** `valueParts.join('=').trim()`. */
  function ValueOf(line: string): string
  {
    Trim(Join(Split(line, '=')[1..], '='))
  }

  /**
   * Assigning a string to `envVars['__proto__']` runs the inherited `__proto__` setter, which
   * ignores anything that is not an object: that key never becomes an entry.
   */
  const ProtoKey := "__proto__"

  /** The line sets `envVars[KeyOf(line)]`. */
  predicate IsEntry(line: string)
  {
    !IsSkipped(line) && KeyOf(line) != ProtoKey
  }

  /** The dictionary after one more line. */
  function Assign(env: map<string, string>, line: string): map<string, string>
  {
    if IsEntry(line) then env[KeyOf(line) := ValueOf(line)] else env
  }

  /** The dictionary after the given lines, taken first to last. */
  function EnvOf(lines: seq<string>): map<string, string>
  {
    if lines == [] then map[] else Assign(EnvOf(lines[..|lines| - 1]), lines[|lines| - 1])
  }

  /** `envVars.KEY`: undefined when the file never set the key. */
  function Setting(env: map<string, string>, key: string): (v: Option<string>)
    ensures v.Some? <==> key in env
    ensures v.Some? ==> v.value == env[key]
  {
    if key in env then Some(env[key]) else None
  }

  /** JavaScript truthiness of a string that may be undefined. */
  predicate Truthy(v: Option<string>)
  {
    v.Some? && v.value != ""
  }

  /** `v || 'MISSING'`. */
  function OrMissing(v: Option<string>): (shown: string)
    ensures Truthy(v) ==> shown == v.value
    ensures !Truthy(v) ==> shown == "MISSING"
  {
    if Truthy(v) then v.value else "MISSING"
  }

  /** The `forEach` loop filling `envVars`. */
  method ParseEnvFile(envContent: string) returns (envVars: map<string, string>)
    ensures envVars == EnvOf(Lines(envContent))
  {
    var lines := Split(envContent, '\n');
    envVars := map[];
    for n := 0 to |lines|
      invariant envVars == EnvOf(lines[..n])
    {
      var line := lines[n];
      if line != "" && !StartsWith(line, "#") {
        var parts := Split(line, '=');
        var key, valueParts := parts[0], parts[1..];
        var k := Trim(key);
        if k != ProtoKey {
          envVars := envVars[k := Trim(Join(valueParts, '='))];
        }
      }
      assert lines[..n + 1][..n] == lines[..n];
    }
    assert lines[..|lines|] == lines;
  }

  /**
   * The key is the trimmed text before the first '=', and the value the trimmed text after it,
   * later '=' characters included.
   */
  lemma KeyValueAtFirstEquals(line: string, i: nat)
    requires i < |line| && line[i] == '=' && '=' !in line[..i]
    ensures KeyOf(line) == Trim(line[..i])
    ensures ValueOf(line) == Trim(line[i + 1..])
  {
    SplitAtFirst(line, '=', i);
  }

  /** A line without '=' gives its trimmed text as the key and the empty value. */
  lemma LineWithoutEquals(line: string)
    requires '=' !in line
    ensures KeyOf(line) == Trim(line)
    ensures ValueOf(line) == ""
  {
    SplitWithoutSeparator(line, '=');
    assert Split(line, '=')[1..] == [];
    assert Trim("") == "";
  }

  /**
   * Any other line sets its key to its value, even when only spaces stand before a '#'; only the
   * `__proto__` key is never set.
   */
  lemma LineSetsItsKey(lines: seq<string>, line: string)
    requires line != "" && line[0] != '#'
    ensures KeyOf(line) != ProtoKey ==> EnvOf(lines + [line]) == EnvOf(lines)[KeyOf(line) := ValueOf(line)]
    ensures KeyOf(line) == ProtoKey ==> EnvOf(lines + [line]) == EnvOf(lines)
  {
    assert (lines + [line])[..|lines|] == lines;
    assert line[..1] != "#";
  }

  /** A skipped line leaves the dictionary as it was. */
  lemma SkippedLineAddsNothing(lines: seq<string>, line: string)
    requires IsSkipped(line)
    ensures EnvOf(lines + [line]) == EnvOf(lines)
  {
    assert (lines + [line])[..|lines|] == lines;
  }

  /** The line is an entry for `k`. */
  predicate SetsKey(line: string, k: string)
  {
    IsEntry(line) && KeyOf(line) == k
  }

  /** The keys are exactly the keys of the entry lines. */
  lemma {:induction false} EnvKeys(lines: seq<string>, k: string)
    ensures k in EnvOf(lines) <==> exists i :: 0 <= i < |lines| && SetsKey(lines[i], k)
  {
    if lines != [] {
      var n := |lines| - 1;
      var init := lines[..n];
      EnvKeys(init, k);
      assert EnvOf(lines) == Assign(EnvOf(init), lines[n]);
      assert k in EnvOf(lines) <==> k in EnvOf(init) || SetsKey(lines[n], k);
      if k in EnvOf(lines) {
        if SetsKey(lines[n], k) {
          assert 0 <= n < |lines| && SetsKey(lines[n], k);
        } else {
          var i :| 0 <= i < |init| && SetsKey(init[i], k);
          assert lines[i] == init[i];
        }
      } else {
        forall i | 0 <= i < |lines|
          ensures !SetsKey(lines[i], k)
        {
          if i < n {
            assert init[i] == lines[i];
          }
        }
      }
    }
  }

  /** When a key is set on several lines, the value from the last of them wins. */
  lemma {:induction false} LastAssignmentWins(lines: seq<string>, i: nat)
    requires i < |lines| && IsEntry(lines[i])
    requires forall j :: i < j < |lines| && IsEntry(lines[j]) ==> KeyOf(lines[j]) != KeyOf(lines[i])
    ensures KeyOf(lines[i]) in EnvOf(lines)
    ensures EnvOf(lines)[KeyOf(lines[i])] == ValueOf(lines[i])
  {
    var init := lines[..|lines| - 1];
    if i < |lines| - 1 {
      assert init[i] == lines[i];
      forall j | i < j < |init| && IsEntry(init[j])
        ensures KeyOf(init[j]) != KeyOf(init[i])
      {
        assert init[j] == lines[j];
      }
      LastAssignmentWins(init, i);
    }
  }
}
