/**
 * `run dbt` (src/run/dbt.rs): the selected target of the dbt profiles file
 * gets its user and password replaced by references to environment
 * variables, unless they already reference the Satori ones, and dbt runs
 * with the Satori credentials in those variables.
 *
 * Reading, copying and writing the profiles file are I/O: its parsed content
 * is a parameter, whether each later file operation succeeds is an input, and
 * the backup and the rewritten content are results.
 */
module DbtRun {
  import opened Wrappers
  import opened Strings
  import opened Paths
  import opened LoginData
  import opened Datastores
  import LoginFlow
  import opened RunData

  const USERNAME_VAR: String := "SATORI_USERNAME"
  const PASSWORD_VAR: String := "SATORI_PASSWORD"
  const PROFILES_DIR_FLAG: String := "--profiles-dir"
  const TARGET_FLAG: String := "--target"

  // ---------------------------------------------------------------------------------------------
  // The environment-variable reference `{{ env_var('NAME') }}`

  predicate IsQuote(c: char) {
    c == '\'' || c == '"'
  }

  predicate AllWhitespace(s: String) {
    forall i :: 0 <= i < |s| ==> IsWhitespace(s[i])
  }

  /** A name the pattern's capture group `[^'"]+` accepts. */
  predicate IsVarName(name: String) {
    |name| > 0 && forall i :: 0 <= i < |name| ==> !IsQuote(name[i])
  }

  /** The text the pattern `\{\{\s*env_var\(['"]([^'"]+)['"]\)\s*\}\}` matches, given its
      pieces. */
  function Reference(ws1: String, open: char, name: String, close: char, ws2: String): String {
    "{{" + (ws1 + ("env_var(" + ([open] + (name + ([close] + (")" + (ws2 + "}}")))))))
  }

  /** The pieces form a match of the pattern capturing `name`. */
  predicate IsReference(ws1: String, open: char, name: String, close: char, ws2: String) {
    AllWhitespace(ws1) && AllWhitespace(ws2) && IsQuote(open) && IsQuote(close) && IsVarName(name)
  }

  /** The reference the rewrite writes: `{{ env_var('NAME') }}`. */
  function EnvVarReference(name: String): String {
    Reference(" ", '\'', name, '\'', " ")
  }

  /** `x + y` occurs at `i` exactly when `x` does and `y` follows it. */
  lemma OccursConcat(s: String, x: String, y: String, i: nat)
    ensures OccursAt(s, x + y, i) <==> OccursAt(s, x, i) && OccursAt(s, y, i + |x|)
  {
    if OccursAt(s, x, i) && OccursAt(s, y, i + |x|) {
      assert s[i..i + |x| + |y|] == s[i..i + |x|] + s[i + |x|..i + |x| + |y|];
    }
    if OccursAt(s, x + y, i) {
      assert s[i..i + |x|] == (x + y)[..|x|];
      assert s[i + |x|..i + |x| + |y|] == (x + y)[|x|..];
    }
  }

  /** The first position at or after `i` that does not hold white space. */
  function SkipWhitespace(s: String, i: nat): (j: nat)
    requires i <= |s|
    ensures i <= j <= |s|
    ensures forall k :: i <= k < j ==> IsWhitespace(s[k])
    ensures j == |s| || !IsWhitespace(s[j])
    decreases |s| - i
  {
    if i < |s| && IsWhitespace(s[i]) then SkipWhitespace(s, i + 1) else i
  }

  /** The first position at or after `i` that holds a quote. */
  function SkipName(s: String, i: nat): (j: nat)
    requires i <= |s|
    ensures i <= j <= |s|
    ensures forall k :: i <= k < j ==> !IsQuote(s[k])
    ensures j == |s| || IsQuote(s[j])
    decreases |s| - i
  {
    if i < |s| && !IsQuote(s[i]) then SkipName(s, i + 1) else i
  }

  /** Any run of white space ended by something else is the one `SkipWhitespace` finds. */
  lemma SkipWhitespaceAt(s: String, i: nat, j: nat)
    requires i <= j < |s| && !IsWhitespace(s[j])
    requires forall k :: i <= k < j ==> IsWhitespace(s[k])
    ensures SkipWhitespace(s, i) == j
  {
  }

  /** Any run of non-quotes ended by a quote is the one `SkipName` finds. */
  lemma SkipNameAt(s: String, i: nat, j: nat)
    requires i <= j < |s| && IsQuote(s[j])
    requires forall k :: i <= k < j ==> !IsQuote(s[k])
    ensures SkipName(s, i) == j
  {
  }

  /** The capture of a match of the pattern starting at position `i`, if there is one. `\s*`
      and `[^'"]+` can only stop where the pattern's next piece begins, so a match starting at a
      given position is unique. White space is the ASCII white space of `IsWhitespace`. */
  function MatchAt(s: String, i: nat): Option<String>
    requires i <= |s|
  {
    if OccursAt(s, "{{", i) then MatchEnvVar(s, SkipWhitespace(s, i + 2)) else None
  }

  /** The rest of a match from `env_var(` on. */
  function MatchEnvVar(s: String, a: nat): Option<String>
    requires a <= |s|
  {
    if OccursAt(s, "env_var(", a) && a + 8 < |s| && IsQuote(s[a + 8]) then MatchName(s, a + 9) else None
  }

  /** The rest of a match from the captured name on. */
  function MatchName(s: String, n: nat): Option<String>
    requires n <= |s|
  {
    var e := SkipName(s, n);
    if e == n || e == |s| || !OccursAt(s, ")", e + 1) then None else MatchClose(s, e + 2, s[n..e])
  }

  /** The rest of a match after `)`: white space and `}}`. */
  function MatchClose(s: String, c: nat, name: String): Option<String>
    requires c <= |s|
  {
    if OccursAt(s, "}}", SkipWhitespace(s, c)) then Some(name) else None
  }

  lemma MatchCloseComplete(s: String, c: nat, name: String, ws2: String)
    requires AllWhitespace(ws2) && OccursAt(s, ws2 + "}}", c)
    ensures MatchClose(s, c, name) == Some(name)
  {
    OccursConcat(s, ws2, "}}", c);
    assert s[c + |ws2|] == "}}"[0] by {
      assert s[c + |ws2|..c + |ws2| + 2] == "}}";
    }
    forall k | c <= k < c + |ws2| ensures IsWhitespace(s[k]) {
      assert s[c..c + |ws2|][k - c] == ws2[k - c];
    }
    SkipWhitespaceAt(s, c, c + |ws2|);
  }

  /** After the name: the closing quote, `)` and then white space and `}}`. */
  lemma CloseQuoteAt(s: String, e: nat, close: char, ws2: String)
    requires OccursAt(s, [close] + (")" + (ws2 + "}}")), e)
    ensures e < |s| && s[e] == close
    ensures OccursAt(s, ")", e + 1) && OccursAt(s, ws2 + "}}", e + 2)
  {
    OccursConcat(s, [close], ")" + (ws2 + "}}"), e);
    OccursConcat(s, ")", ws2 + "}}", e + 1);
    assert s[e..e + 1] == [close];
  }

  /** A name the capture accepts, occurring at `n`, holds no quote. */
  lemma NameRunAt(s: String, n: nat, name: String)
    requires IsVarName(name) && OccursAt(s, name, n)
    ensures forall k :: n <= k < n + |name| ==> !IsQuote(s[k])
  {
    forall k | n <= k < n + |name| ensures !IsQuote(s[k]) {
      assert s[n..n + |name|][k - n] == name[k - n];
    }
  }

  lemma MatchNameComplete(s: String, n: nat, name: String, close: char, ws2: String)
    requires IsVarName(name) && IsQuote(close) && AllWhitespace(ws2)
    requires OccursAt(s, name + ([close] + (")" + (ws2 + "}}"))), n)
    ensures MatchName(s, n) == Some(name)
  {
    OccursConcat(s, name, [close] + (")" + (ws2 + "}}")), n);
    var e := n + |name|;
    CloseQuoteAt(s, e, close, ws2);
    NameRunAt(s, n, name);
    SkipNameAt(s, n, e);
    assert s[n..e] == name;
    MatchCloseComplete(s, e + 2, name, ws2);
  }

  lemma MatchEnvVarComplete(s: String, a: nat, open: char, name: String, close: char, ws2: String)
    requires IsQuote(open) && IsVarName(name) && IsQuote(close) && AllWhitespace(ws2)
    requires OccursAt(s, "env_var(" + ([open] + (name + ([close] + (")" + (ws2 + "}}"))))), a)
    ensures MatchEnvVar(s, a) == Some(name)
  {
    OccursConcat(s, "env_var(", [open] + (name + ([close] + (")" + (ws2 + "}}")))), a);
    OccursConcat(s, [open], name + ([close] + (")" + (ws2 + "}}"))), a + 8);
    assert s[a + 8] == open by {
      assert s[a + 8..a + 9] == [open];
    }
    MatchNameComplete(s, a + 9, name, close, ws2);
  }

  /** Every match of the pattern at a position is found there, with its capture. */
  lemma MatchAtComplete(s: String, i: nat, ws1: String, open: char, name: String, close: char, ws2: String)
    requires IsReference(ws1, open, name, close, ws2)
    requires OccursAt(s, Reference(ws1, open, name, close, ws2), i)
    ensures MatchAt(s, i) == Some(name)
  {
    var rest := "env_var(" + ([open] + (name + ([close] + (")" + (ws2 + "}}")))));
    OccursConcat(s, "{{", ws1 + rest, i);
    OccursConcat(s, ws1, rest, i + 2);
    var a := i + 2 + |ws1|;
    assert s[a] == 'e' by {
      OccursConcat(s, "env_var(", rest[8..], a);
      assert rest == "env_var(" + rest[8..];
      assert s[a..a + 8] == "env_var(";
    }
    forall k | i + 2 <= k < a ensures IsWhitespace(s[k]) {
      assert s[i + 2..a][k - i - 2] == ws1[k - i - 2];
    }
    SkipWhitespaceAt(s, i + 2, a);
    MatchEnvVarComplete(s, a, open, name, close, ws2);
  }

  lemma MatchCloseSound(s: String, c: nat, name: String) returns (ws2: String)
    requires c <= |s| && MatchClose(s, c, name).Some?
    ensures MatchClose(s, c, name) == Some(name)
    ensures AllWhitespace(ws2) && OccursAt(s, ws2 + "}}", c)
  {
    var b := SkipWhitespace(s, c);
    ws2 := s[c..b];
    OccursConcat(s, ws2, "}}", c);
  }

  lemma MatchNameSound(s: String, n: nat) returns (close: char, ws2: String)
    requires n <= |s| && MatchName(s, n).Some?
    ensures var name := MatchName(s, n).value;
      && IsVarName(name) && IsQuote(close) && AllWhitespace(ws2)
      && OccursAt(s, name + ([close] + (")" + (ws2 + "}}"))), n)
  {
    var e := SkipName(s, n);
    var name := s[n..e];
    close := s[e];
    ws2 := MatchCloseSound(s, e + 2, name);
    OccursConcat(s, ")", ws2 + "}}", e + 1);
    assert OccursAt(s, [close], e);
    OccursConcat(s, [close], ")" + (ws2 + "}}"), e);
    OccursConcat(s, name, [close] + (")" + (ws2 + "}}")), n);
  }

  lemma MatchEnvVarSound(s: String, a: nat) returns (open: char, close: char, ws2: String)
    requires a <= |s| && MatchEnvVar(s, a).Some?
    ensures var name := MatchEnvVar(s, a).value;
      && IsQuote(open) && IsVarName(name) && IsQuote(close) && AllWhitespace(ws2)
      && OccursAt(s, "env_var(" + ([open] + (name + ([close] + (")" + (ws2 + "}}"))))), a)
  {
    open := s[a + 8];
    var name := MatchEnvVar(s, a).value;
    close, ws2 := MatchNameSound(s, a + 9);
    assert OccursAt(s, [open], a + 8);
    OccursConcat(s, [open], name + ([close] + (")" + (ws2 + "}}"))), a + 8);
    OccursConcat(s, "env_var(", [open] + (name + ([close] + (")" + (ws2 + "}}")))), a);
  }

  /** Every capture comes from a match of the pattern at that position. */
  lemma MatchAtSound(s: String, i: nat) returns (ws1: String, open: char, close: char, ws2: String)
    requires i <= |s| && MatchAt(s, i).Some?
    ensures IsReference(ws1, open, MatchAt(s, i).value, close, ws2)
    ensures OccursAt(s, Reference(ws1, open, MatchAt(s, i).value, close, ws2), i)
  {
    var a := SkipWhitespace(s, i + 2);
    var name := MatchAt(s, i).value;
    ws1 := s[i + 2..a];
    open, close, ws2 := MatchEnvVarSound(s, a);
    var rest := "env_var(" + ([open] + (name + ([close] + (")" + (ws2 + "}}")))));
    assert OccursAt(s, "{{", i);
    OccursConcat(s, ws1, rest, i + 2);
    OccursConcat(s, "{{", ws1 + rest, i);
    assert Reference(ws1, open, name, close, ws2) == "{{" + (ws1 + rest);
  }

  /** The capture of the pattern's match at each position of `s`. */
  function Matches(s: String): (ms: seq<Option<String>>)
    ensures |ms| == |s| + 1
    ensures forall j :: 0 <= j <= |s| ==> ms[j] == MatchAt(s, j)
  {
    seq(|s| + 1, j requires 0 <= j <= |s| => MatchAt(s, j))
  }

  /** The first present entry at or after `i`. */
  function FirstFrom(ms: seq<Option<String>>, i: nat): (r: Option<String>)
    requires i <= |ms|
    ensures r.None? <==> forall j :: i <= j < |ms| ==> ms[j].None?
    decreases |ms| - i
  {
    if i == |ms| then None
    else if ms[i].Some? then ms[i]
    else FirstFrom(ms, i + 1)
  }

  /** The first present entry is the leftmost one. */
  lemma {:induction false} FirstFromAt(ms: seq<Option<String>>, i: nat, j: nat)
    requires i <= j < |ms| && ms[j].Some?
    requires forall k :: i <= k < j ==> ms[k].None?
    ensures FirstFrom(ms, i) == ms[j]
    decreases j - i
  {
    if i < j {
      FirstFromAt(ms, i + 1, j);
    }
  }

  /** `Regex::captures`: the capture of the leftmost match. */
  function FirstMatch(s: String): Option<String> {
    FirstFrom(Matches(s), 0)
  }

  /** `should_rewrite_field`: a field is left alone only when its first reference names one of
      the Satori variables. */
  function ShouldRewriteField(field: String): bool {
    match FirstMatch(field)
    case None => true
    case Some(name) => !(name == USERNAME_VAR || name == PASSWORD_VAR)
  }

  /** A field whose earliest reference names a Satori variable, with either quotes and any white
      space, is not rewritten; one whose earliest reference names another variable is. */
  lemma FirstReferenceDecides(field: String, i: nat, ws1: String, open: char, name: String, close: char, ws2: String)
    requires IsReference(ws1, open, name, close, ws2)
    requires OccursAt(field, Reference(ws1, open, name, close, ws2), i)
    requires forall k :: 0 <= k < i ==> MatchAt(field, k).None?
    ensures ShouldRewriteField(field) <==> !(name == USERNAME_VAR || name == PASSWORD_VAR)
  {
    MatchAtComplete(field, i, ws1, open, name, close, ws2);
    var ms := Matches(field);
    assert ms[i] == Some(name);
    assert forall k :: 0 <= k < i ==> ms[k].None?;
    FirstFromAt(ms, 0, i);
  }

  /** The references the rewrite writes are not rewritten again. */
  lemma RewrittenFieldsStay()
    ensures !ShouldRewriteField(EnvVarReference(USERNAME_VAR))
    ensures !ShouldRewriteField(EnvVarReference(PASSWORD_VAR))
  {
    SatoriReferenceStays(USERNAME_VAR);
    SatoriReferenceStays(PASSWORD_VAR);
  }

  /** A written reference to a Satori variable is left alone. */
  lemma SatoriReferenceStays(name: String)
    requires name == USERNAME_VAR || name == PASSWORD_VAR
    ensures !ShouldRewriteField(EnvVarReference(name))
  {
    assert IsVarName(name);
    FirstMatchOfEnvVarReference(name);
  }

  /** The leftmost match of a written reference captures its own name. */
  lemma FirstMatchOfEnvVarReference(name: String)
    requires IsVarName(name)
    ensures FirstMatch(EnvVarReference(name)) == Some(name)
  {
    var field := EnvVarReference(name);
    assert AllWhitespace(" ");
    assert OccursAt(field, Reference(" ", '\'', name, '\'', " "), 0);
    MatchAtComplete(field, 0, " ", '\'', name, '\'', " ");
    FirstFromAt(Matches(field), 0, 0);
  }

  /** A field without `{{` holds no reference and is rewritten. */
  lemma NoReferenceRewritten(field: String)
    requires forall i :: 0 <= i <= |field| ==> !OccursAt(field, "{{", i)
    ensures ShouldRewriteField(field)
  {
    var ms := Matches(field);
    assert forall j :: 0 <= j < |ms| ==> ms[j].None?;
  }

  // ---------------------------------------------------------------------------------------------
  // The profiles file

  /** One target of a profile; the fields other than host, user and password are kept as they
      are. */
  datatype TargetValues = TargetValues(host: String, user: String, password: String, extraFields: map<String, String>)

  /** A profile: its default target and its targets by name. */
  datatype ProfileValues = ProfileValues(target: String, outputs: map<String, TargetValues>)

  type Profiles = map<String, ProfileValues>

  /** The profiles file: unreadable, not a profiles document, or its content. */
  datatype ProfilesFile = Unreadable | Unparsable | Content(profiles: Profiles)

  /** The user and password of a target, each replaced by the reference to its Satori variable
      when `should_rewrite_field` says so. */
  function RewriteTargetValues(t: TargetValues): (r: TargetValues)
    ensures r.host == t.host && r.extraFields == t.extraFields
    ensures r.user == if ShouldRewriteField(t.user) then EnvVarReference(USERNAME_VAR) else t.user
    ensures r.password == if ShouldRewriteField(t.password) then EnvVarReference(PASSWORD_VAR) else t.password
  {
    t.(user := if ShouldRewriteField(t.user) then EnvVarReference(USERNAME_VAR) else t.user,
       password := if ShouldRewriteField(t.password) then EnvVarReference(PASSWORD_VAR) else t.password)
  }

  /** The `rewritten` flag: some field of the target was replaced. */
  predicate NeedsRewrite(t: TargetValues) {
    ShouldRewriteField(t.user) || ShouldRewriteField(t.password)
  }

  /** A target that needs no rewrite is left as it is. */
  lemma NoRewriteUnchanged(t: TargetValues)
    requires !NeedsRewrite(t)
    ensures RewriteTargetValues(t) == t
  {
  }

  /** After one rewrite nothing needs rewriting, so rewriting twice is rewriting once. */
  lemma RewriteIdempotent(t: TargetValues)
    ensures !NeedsRewrite(RewriteTargetValues(t))
    ensures RewriteTargetValues(RewriteTargetValues(t)) == RewriteTargetValues(t)
  {
    RewrittenFieldsStay();
  }

  /** The profiles with the selected target of the selected profile rewritten. */
  function RewriteProfiles(profiles: Profiles, profile: String, target: String): Profiles
    requires profile in profiles && target in profiles[profile].outputs
  {
    var p := profiles[profile];
    profiles[profile := p.(outputs := p.outputs[target := RewriteTargetValues(p.outputs[target])])]
  }

  /** Only the selected target changes: every other profile, the profile's default target and
      every other target stay as they were. */
  lemma RewriteOnlySelected(profiles: Profiles, profile: String, target: String)
    requires profile in profiles && target in profiles[profile].outputs
    ensures var r := RewriteProfiles(profiles, profile, target);
      && r.Keys == profiles.Keys
      && (forall p :: p in profiles && p != profile ==> r[p] == profiles[p])
      && r[profile].target == profiles[profile].target
      && r[profile].outputs.Keys == profiles[profile].outputs.Keys
      && (forall t :: t in profiles[profile].outputs && t != target ==> r[profile].outputs[t] == profiles[profile].outputs[t])
      && r[profile].outputs[target] == RewriteTargetValues(profiles[profile].outputs[target])
  {
  }

  /** The target `run` uses: the requested one, or else the profile's default. */
  function SelectedTarget(params: Dbt, profiles: Profiles): String
    requires params.profileName in profiles
  {
    if params.target.Some? then params.target.value else profiles[params.profileName].target
  }

  /** The profile and the target exist, so `run` goes on to log in. */
  predicate Selected(params: Dbt, file: ProfilesFile) {
    file.Content? && params.profileName in file.profiles
    && SelectedTarget(params, file.profiles) in file.profiles[params.profileName].outputs
  }

  /** The selected target's values. */
  function SelectedValues(params: Dbt, file: ProfilesFile): TargetValues
    requires Selected(params, file)
  {
    file.profiles[params.profileName].outputs[SelectedTarget(params, file.profiles)]
  }

  /** The command `run` hands to the executer. */
  function DbtCommand(additionalArgs: seq<String>, profilesDir: Path, target: String, credentials: Credentials): (c: Command)
    ensures c.program == "dbt" && |c.args| == |additionalArgs| + 4
    ensures c.args[..|additionalArgs|] == additionalArgs
    ensures c.args[|additionalArgs|..] == [PROFILES_DIR_FLAG, ToString(profilesDir), TARGET_FLAG, target]
    ensures c.envs == [("PGCHANNELBINDING", "disable"), (USERNAME_VAR, credentials.username), (PASSWORD_VAR, credentials.password)]
  {
    Command("dbt", additionalArgs + [PROFILES_DIR_FLAG, ToString(profilesDir), TARGET_FLAG, target],
            [("PGCHANNELBINDING", "disable"), (USERNAME_VAR, credentials.username), (PASSWORD_VAR, credentials.password)])
  }

  /** Why the profile and target cannot be selected. */
  function SelectionError(params: Dbt, file: ProfilesFile): RunError
    requires !Selected(params, file)
  {
    if file.Unreadable? then DbtProfilesReadError(params.profilesPath)
    else if file.Unparsable? then DbtProfilesParseError(params.profilesPath)
    else if params.profileName !in file.profiles then DbtProfileNotFound(params.profileName)
    else DbtTargetNotFound(SelectedTarget(params, file.profiles))
  }

  /** Reading the profiles and selecting the profile and target: the errors all come before the
      login, so nothing else happens when one occurs. */
  method SelectTarget(params: Dbt, file: ProfilesFile) returns (r: Result<(String, TargetValues), RunError>)
    ensures r.Ok? <==> Selected(params, file)
    ensures r.Err? ==> r.error == SelectionError(params, file)
    ensures r.Ok? ==> r.value == (SelectedTarget(params, file.profiles), SelectedValues(params, file))
    ensures file.Unreadable? ==> r == Err(DbtProfilesReadError(params.profilesPath))
    ensures file.Unparsable? ==> r == Err(DbtProfilesParseError(params.profilesPath))
    ensures file.Content? && params.profileName !in file.profiles ==> r == Err(DbtProfileNotFound(params.profileName))
    ensures file.Content? && params.profileName in file.profiles && !Selected(params, file) ==>
      r == Err(DbtTargetNotFound(SelectedTarget(params, file.profiles)))
  {
    if file.Unreadable? {
      return Err(DbtProfilesReadError(params.profilesPath));
    } else if file.Unparsable? {
      return Err(DbtProfilesParseError(params.profilesPath));
    }
    if params.profileName !in file.profiles {
      return Err(DbtProfileNotFound(params.profileName));
    }
    var activeProfile := file.profiles[params.profileName];
    var target := if params.target.Some? then params.target.value else activeProfile.target;
    if target !in activeProfile.outputs {
      return Err(DbtTargetNotFound(target));
    }
    return Ok((target, activeProfile.outputs[target]));
  }

  /** Saving the rewritten profiles: the original is copied to `profiles.bk` (when `backs`),
      then the file is created (when `creates`) and the profiles serialised into it (when
      `serialises`). A failing create is reported as a read error, as the source does. */
  method SaveProfiles(path: Path, original: Profiles, rewritten: Profiles, backs: bool, creates: bool, serialises: bool)
    returns (r: Result<(), RunError>, backup: Option<Profiles>, written: Option<Profiles>)
    ensures backup == if backs then Some(original) else None
    ensures written == if backs && creates && serialises then Some(rewritten) else None
    ensures r.Ok? <==> backs && creates && serialises
    ensures !backs ==> r == Err(DbtProfilesBackupError(path))
    ensures backs && !creates ==> r == Err(DbtProfilesReadError(path))
    ensures backs && creates && !serialises ==> r == Err(DbtProfilesWriteError(path))
  {
    backup, written := None, None;
    if !backs {
      return Err(DbtProfilesBackupError(path)), backup, written;
    }
    backup := Some(original);
    if !creates {
      return Err(DbtProfilesReadError(path)), backup, written;
    }
    if !serialises {
      return Err(DbtProfilesWriteError(path)), backup, written;
    }
    written := Some(rewritten);
    r := Ok(());
  }

  /** `run`: select the target and rewrite its fields, log in, save the profiles when a field was
      rewritten, then execute dbt with the profiles directory, the target and the Satori
      credentials. `login` is the result of `run_with_file`; `execute` is the executer's answer
      to a command. `backup` and `written` are what the copy and the rewrite store, `executed`
      the command handed to the executer. */
  method Run(params: Dbt, file: ProfilesFile, login: Result<(Credentials, DatastoresInfo), LoginFlow.LoginError>,
             backs: bool, creates: bool, serialises: bool, execute: Command -> Result<(), RunError>)
    returns (outcome: RunOutcome, backup: Option<Profiles>, written: Option<Profiles>, executed: Option<Command>)
    ensures !Selected(params, file) || login.Err? ==> backup == None && written == None && executed == None
    ensures !Selected(params, file) ==> outcome == Completed(Err(SelectionError(params, file)))
    ensures Selected(params, file) && login.Err? ==> outcome == Completed(Err(LoginError(login.error)))
    ensures Selected(params, file) && login.Ok? ==>
      var rewrite := NeedsRewrite(SelectedValues(params, file));
      && (backup.Some? <==> rewrite && backs)
      && (backup.Some? ==> backup.value == file.profiles)
      && (written.Some? <==> rewrite && backs && creates && serialises)
      && (written.Some? ==> written.value == RewriteProfiles(file.profiles, params.profileName, SelectedTarget(params, file.profiles)))
      && (rewrite && !(backs && creates && serialises) ==> executed == None)
      && (rewrite && !backs ==> outcome == Completed(Err(DbtProfilesBackupError(params.profilesPath))))
      && (rewrite && backs && !creates ==> outcome == Completed(Err(DbtProfilesReadError(params.profilesPath))))
      && (rewrite && backs && creates && !serialises ==> outcome == Completed(Err(DbtProfilesWriteError(params.profilesPath))))
      && ((!rewrite || (backs && creates && serialises)) && Parent(params.profilesPath).None? ==> executed == None && outcome == Panicked)
      && ((!rewrite || (backs && creates && serialises)) && Parent(params.profilesPath).Some? ==>
            var c := DbtCommand(params.additionalArgs, Parent(params.profilesPath).value, SelectedTarget(params, file.profiles), login.value.0);
            executed == Some(c) && outcome == Completed(execute(c)))
  {
    backup, written, executed := None, None, None;
    var selected := SelectTarget(params, file);
    if selected.Err? {
      return Completed(Err(selected.error)), backup, written, executed;
    }
    var (target, targetParams) := selected.value;
    var rewritten := false;
    if ShouldRewriteField(targetParams.user) {
      targetParams := targetParams.(user := EnvVarReference(USERNAME_VAR));
      rewritten := true;
    }
    if ShouldRewriteField(targetParams.password) {
      targetParams := targetParams.(password := EnvVarReference(PASSWORD_VAR));
      rewritten := true;
    }
    if login.Err? {
      return Completed(Err(LoginError(login.error))), backup, written, executed;
    }
    var credentials := login.value.0;
    if rewritten {
      var profile := file.profiles[params.profileName];
      var profiles := file.profiles[params.profileName := profile.(outputs := profile.outputs[target := targetParams])];
      assert profiles == RewriteProfiles(file.profiles, params.profileName, target);
      var saved;
      saved, backup, written := SaveProfiles(params.profilesPath, file.profiles, profiles, backs, creates, serialises);
      if saved.Err? {
        return Completed(saved), backup, written, executed;
      }
    }
    var profilesDir := Parent(params.profilesPath);
    if profilesDir.None? {
      return Panicked, backup, written, executed;
    }
    var args := params.additionalArgs + [PROFILES_DIR_FLAG, ToString(profilesDir.value), TARGET_FLAG, target];
    var envs := [("PGCHANNELBINDING", "disable"), (USERNAME_VAR, credentials.username), (PASSWORD_VAR, credentials.password)];
    executed := Some(Command("dbt", args, envs));
    outcome := Completed(execute(executed.value));
  }
}
