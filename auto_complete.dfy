/**
 * Dynamic shell completion (src/cli/auto_complete.rs). The completion script
 * that the command-line library generates is an input; it is then rewritten so
 * that the arguments of `run <tool>` complete datastore and database names
 * from the inventory. The helper scripts embedded at build time are inputs as
 * well. A `None` result stands for a panic of the source.
 */
module AutoComplete {
  import opened Wrappers
  import opened Strings

  const SATORI_RUN_PREFIX_POWER_SHELL: String := "satori;run;"
  const SATORI_RUN_PREFIX_BASH: String := "satori__run__"

  /** The argument's name, then its description. */
  const ZSH_DATASTORE_LABEL: String := "datastore_name -- " + "The name as defined in Satori data portal:"
  const ZSH_DATABASE_LABEL: String := "database -- Database name:"
  const POWER_SHELL_BARE_WORD_TEST: String := "$element.StringConstantType -ne [StringConstantType]::BareWord -or"
  const POWER_SHELL_WHERE: String := "$completions.Where"

  /** The shells the command-line library generates completions for. */
  datatype Shell = Bash | Elvish | Fish | PowerShell | Zsh

  /** The helper scripts embedded from src/cli/auto_complete_helpers, which is not part of this model. */
  datatype Helpers = Helpers(zshFunctions: String, powerShellFunctions: String, bashFunctions: String,
                             bashDatastores: String, bashDatabases: String)

  datatype IndexNotFound = StartIndexNotFound | EndIndexNotFound

  /** The outcome of `make_dynamic_completion_script`: its result, or a panic. */
  datatype Completion = Made(result: Result<String, String>) | Panicked

  /** A rewritten script, or the panic of a rewrite that failed. */
  function Completed(script: Option<String>): (r: Completion)
    ensures r.Panicked? <==> script.None?
    ensures script.Some? ==> r == Made(Ok(script.value))
  {
    if script.None? then Panicked else Made(Ok(script.value))
  }

  /** `{shell:?}` */
  function ShellName(shell: Shell): String {
    match shell
    case Bash => "Bash"
    case Elvish => "Elvish"
    case Fish => "Fish"
    case PowerShell => "PowerShell"
    case Zsh => "Zsh"
  }

  function Indent(n: nat): (r: String)
    ensures |r| == n && forall i :: 0 <= i < n ==> r[i] == ' '
  {
    seq(n, _ => ' ')
  }

  /** `get_indexes`: the position just after the first `startText`, and the first `endText` at or
      after it. */
  function GetIndexes(s: String, startText: String, endText: String): (r: Result<(nat, nat), IndexNotFound>)
    ensures r == Err(StartIndexNotFound) <==> Find(s, startText).None?
    ensures r.Ok? ==> r.value.0 >= |startText| && Find(s, startText) == Some(r.value.0 - |startText|)
    ensures r.Ok? ==> r.value.0 <= r.value.1 && OccursAt(s, endText, r.value.1)
    ensures r.Ok? ==> forall j :: r.value.0 <= j < r.value.1 ==> !OccursAt(s, endText, j)
    ensures r == Err(EndIndexNotFound) <==>
      Find(s, startText).Some? && forall j :: Find(s, startText).value + |startText| <= j <= |s| ==> !OccursAt(s, endText, j)
  {
    match Find(s, startText)
    case None => Err(StartIndexNotFound)
    case Some(i) =>
      var start := i + |startText|;
      match FindFrom(s, endText, start)
      case None => Err(EndIndexNotFound)
      case Some(e) => Ok((start, e))
  }

  /** Whenever `esac` cannot be found after the tool's case, `esac` followed by a line break and
      `}` cannot either: the fallback lookup of `handle_bash` never succeeds. */
  lemma BashFallbackNeverSucceeds(s: String, startText: String)
    requires GetIndexes(s, startText, "esac").Err?
    ensures GetIndexes(s, startText, "esac\n}").Err?
  {
    if Find(s, startText).Some? {
      var start := Find(s, startText).value + |startText|;
      forall j | start <= j <= |s| ensures !OccursAt(s, "esac\n}", j) {
        if OccursAt(s, "esac\n}", j) {
          assert s[j..j + 4] == s[j..j + 6][..4];
          assert OccursAt(s, "esac", j);
        }
      }
    }
  }

  /** `handle_zsh`: label the datastore and database arguments with the completion functions, then
      append those functions. */
  function HandleZsh(h: Helpers, script: String): (r: String)
    ensures |r| >= |h.zshFunctions| && r[|r| - |h.zshFunctions|..] == h.zshFunctions
    ensures Find(script, ZSH_DATASTORE_LABEL).None? && Find(script, ZSH_DATABASE_LABEL).None? ==> r == script + h.zshFunctions
    ensures Find(script, ZSH_DATASTORE_LABEL).Some? ==> exists j :: OccursAt(r, ZSH_DATASTORE_LABEL + "_datastores", j)
    ensures Find(script, ZSH_DATABASE_LABEL).Some? ==> exists j :: OccursAt(r, ZSH_DATABASE_LABEL + "_databases", j)
    // no label of the script is left without its completion function
    ensures Tagged(r[..|r| - |h.zshFunctions|], ZSH_DATASTORE_LABEL, "_datastores")
    ensures Tagged(r[..|r| - |h.zshFunctions|], ZSH_DATABASE_LABEL, "_databases")
    // every other part of the script is kept: each `replace` only swaps the occurrences it cuts at
    ensures exists datastores ::
      && ReplacedPieces(script, ZSH_DATASTORE_LABEL, ZSH_DATASTORE_LABEL + "_datastores", datastores)
      && ReplacedPieces(datastores, ZSH_DATABASE_LABEL, ZSH_DATABASE_LABEL + "_databases", r[..|r| - |h.zshFunctions|])
  {
    var datastores := ReplaceAll(script, ZSH_DATASTORE_LABEL, ZSH_DATASTORE_LABEL + "_datastores");
    var labelled := ReplaceAll(datastores, ZSH_DATABASE_LABEL, ZSH_DATABASE_LABEL + "_databases");
    assert (labelled + h.zshFunctions)[|labelled|..] == h.zshFunctions;
    assert (labelled + h.zshFunctions)[..|labelled|] == labelled;
    ZshDatastoreTagged(script, h.zshFunctions);
    ZshDatabaseTagged(script, h.zshFunctions);
    ZshEveryLabelTagged(script);
    ZshPieces(script);
    labelled + h.zshFunctions
  }

  /** After both replacements every datastore label and every database label carries its
      completion function: the inserted names cannot start a label, a label's `:` only ends it,
      and the database replacement leaves the datastore tags in place. */
  lemma ZshEveryLabelTagged(script: String)
    ensures var datastores := ReplaceAll(script, ZSH_DATASTORE_LABEL, ZSH_DATASTORE_LABEL + "_datastores");
      var labelled := ReplaceAll(datastores, ZSH_DATABASE_LABEL, ZSH_DATABASE_LABEL + "_databases");
      Tagged(labelled, ZSH_DATASTORE_LABEL, "_datastores") && Tagged(labelled, ZSH_DATABASE_LABEL, "_databases")
  {
    var datastores := ReplaceAll(script, ZSH_DATASTORE_LABEL, ZSH_DATASTORE_LABEL + "_datastores");
    ZshLabelsEndInColon();
    ZshSuffixesStartNoLabel();
    ReplaceTagsAll(script, ZSH_DATASTORE_LABEL, "_datastores");
    ReplaceTagsAll(datastores, ZSH_DATABASE_LABEL, "_databases");
    forall i | OccursAt(datastores, ZSH_DATASTORE_LABEL + "_datastores", i)
      ensures NoneEndsInside(datastores, ZSH_DATABASE_LABEL, ZSH_DATASTORE_LABEL + "_datastores", i)
    {
      DatabaseLabelEndsOutside(datastores, i);
    }
    ReplaceKeepsTagged(datastores, ZSH_DATABASE_LABEL, "_databases", ZSH_DATASTORE_LABEL, "_datastores", ':');
  }

  /** Both replacements keep the script between the labels they replace. */
  lemma ZshPieces(script: String)
    ensures var datastores := ReplaceAll(script, ZSH_DATASTORE_LABEL, ZSH_DATASTORE_LABEL + "_datastores");
      && ReplacedPieces(script, ZSH_DATASTORE_LABEL, ZSH_DATASTORE_LABEL + "_datastores", datastores)
      && ReplacedPieces(datastores, ZSH_DATABASE_LABEL, ZSH_DATABASE_LABEL + "_databases",
                        ReplaceAll(datastores, ZSH_DATABASE_LABEL, ZSH_DATABASE_LABEL + "_databases"))
  {
    var datastores := ReplaceAll(script, ZSH_DATASTORE_LABEL, ZSH_DATASTORE_LABEL + "_datastores");
    var first := ReplaceAllPieces(script, ZSH_DATASTORE_LABEL, ZSH_DATASTORE_LABEL + "_datastores");
    var second := ReplaceAllPieces(datastores, ZSH_DATABASE_LABEL, ZSH_DATABASE_LABEL + "_databases");
  }

  /** Each label's `:` is its last character and its only one. */
  lemma ZshLabelsEndInColon()
    ensures EndsOnlyIn(ZSH_DATASTORE_LABEL, ':') && EndsOnlyIn(ZSH_DATABASE_LABEL, ':')
  {
    DatastoreLabelColon();
    DatabaseLabelColon();
  }

  /** Neither inserted name can start a label: `_datastores` and `_databases` hold a `d` only
      second, and what follows it parts from both labels. */
  lemma ZshSuffixesStartNoLabel()
    ensures NoTailStarts("_datastores", ZSH_DATASTORE_LABEL)
    ensures NoTailStarts("_databases", ZSH_DATABASE_LABEL)
    ensures NoTailStarts("_databases", ZSH_DATASTORE_LABEL)
  {
    SuffixStartsNoLabel("_datastores", ZSH_DATASTORE_LABEL, 9);
    SuffixStartsNoLabel("_databases", ZSH_DATABASE_LABEL, 8);
    SuffixStartsNoLabel("_databases", ZSH_DATASTORE_LABEL, 4);
  }

  /** A string whose only `d` is its second character, and whose text from there parts from
      `name` at offset `x`, cannot start `name`, which begins with `d`. */
  lemma SuffixStartsNoLabel(u: String, name: String, x: nat)
    requires |u| > 1 && u[1] == 'd' && |name| > x && 1 + x < |u| && u[1 + x] != name[x] && name[0] == 'd'
    requires forall y :: 0 <= y < |u| && y != 1 ==> u[y] != 'd'
    ensures NoTailStarts(u, name)
  {
    forall d | 0 <= d < |u| ensures !Agree(u[d..], name) {
      if d == 1 {
        assert u[d..][x] != name[x];
      } else {
        assert u[d..][0] != name[0];
      }
    }
  }

  /** A datastore label of the script comes back followed by `_datastores`. */
  lemma ZshDatastoreTagged(script: String, functions: String)
    ensures Find(script, ZSH_DATASTORE_LABEL).Some? ==> exists j :: OccursAt(ReplaceAll(ReplaceAll(script, ZSH_DATASTORE_LABEL, ZSH_DATASTORE_LABEL + "_datastores"),
                                            ZSH_DATABASE_LABEL, ZSH_DATABASE_LABEL + "_databases") + functions,
                                 ZSH_DATASTORE_LABEL + "_datastores", j)
  {
    if Find(script, ZSH_DATASTORE_LABEL).None? {
      return;
    }
    var datastores := ReplaceAll(script, ZSH_DATASTORE_LABEL, ZSH_DATASTORE_LABEL + "_datastores");
    ReplacesFirst(script, ZSH_DATASTORE_LABEL, ZSH_DATASTORE_LABEL + "_datastores");
    DatabaseLabelEndsOutside(datastores, Find(script, ZSH_DATASTORE_LABEL).value);
    var j := InsertionKeeps(datastores, ZSH_DATABASE_LABEL, "_databases", ZSH_DATASTORE_LABEL + "_datastores",
                            Find(script, ZSH_DATASTORE_LABEL).value);
    OccursInConcat(ReplaceAll(datastores, ZSH_DATABASE_LABEL, ZSH_DATABASE_LABEL + "_databases"), functions,
                   ZSH_DATASTORE_LABEL + "_datastores", j);
  }

  /** A database label of the script comes back followed by `_databases`. */
  lemma ZshDatabaseTagged(script: String, functions: String)
    ensures Find(script, ZSH_DATABASE_LABEL).Some? ==> exists j :: OccursAt(ReplaceAll(ReplaceAll(script, ZSH_DATASTORE_LABEL, ZSH_DATASTORE_LABEL + "_datastores"),
                                            ZSH_DATABASE_LABEL, ZSH_DATABASE_LABEL + "_databases") + functions,
                                 ZSH_DATABASE_LABEL + "_databases", j)
  {
    if Find(script, ZSH_DATABASE_LABEL).None? {
      return;
    }
    var datastores := ReplaceAll(script, ZSH_DATASTORE_LABEL, ZSH_DATASTORE_LABEL + "_datastores");
    DatastoreLabelEndsOutside(script, Find(script, ZSH_DATABASE_LABEL).value);
    var i := InsertionKeeps(script, ZSH_DATASTORE_LABEL, "_datastores", ZSH_DATABASE_LABEL,
                            Find(script, ZSH_DATABASE_LABEL).value);
    assert Find(datastores, ZSH_DATABASE_LABEL).Some?;
    ReplacesFirst(datastores, ZSH_DATABASE_LABEL, ZSH_DATABASE_LABEL + "_databases");
    OccursInConcat(ReplaceAll(datastores, ZSH_DATABASE_LABEL, ZSH_DATABASE_LABEL + "_databases"), functions,
                   ZSH_DATABASE_LABEL + "_databases", Find(datastores, ZSH_DATABASE_LABEL).value);
  }

  /** The datastore label ends in its only `:`, after an `l`. */
  lemma DatastoreLabelColon()
    ensures ZSH_DATASTORE_LABEL[|ZSH_DATASTORE_LABEL| - 1] == ':' && ZSH_DATASTORE_LABEL[|ZSH_DATASTORE_LABEL| - 2] == 'l'
    ensures forall x :: 0 <= x < |ZSH_DATASTORE_LABEL| - 1 ==> ZSH_DATASTORE_LABEL[x] != ':'
  {
  }

  /** The database label ends in its only `:`, after an `e`; `_datastores` has no `:`. */
  lemma DatabaseLabelColon()
    ensures ZSH_DATABASE_LABEL[|ZSH_DATABASE_LABEL| - 1] == ':' && ZSH_DATABASE_LABEL[|ZSH_DATABASE_LABEL| - 2] == 'e'
    ensures forall x :: 0 <= x < |ZSH_DATABASE_LABEL| - 1 ==> ZSH_DATABASE_LABEL[x] != ':'
    ensures forall x :: 0 <= x < |"_datastores"| ==> "_datastores"[x] != ':'
  {
  }

  /** No database label ends inside a datastore label that already carries `_datastores`: its
      `:` would have to be the label's, and the character before it differs. */
  lemma DatabaseLabelEndsOutside(s: String, i: nat)
    requires OccursAt(s, ZSH_DATASTORE_LABEL + "_datastores", i)
    ensures NoneEndsInside(s, ZSH_DATABASE_LABEL, ZSH_DATASTORE_LABEL + "_datastores", i)
  {
    var tagged := ZSH_DATASTORE_LABEL + "_datastores";
    DatastoreLabelColon();
    DatabaseLabelColon();
    forall p: nat | OccursAt(s, ZSH_DATABASE_LABEL, p)
      ensures !(i < p + |ZSH_DATABASE_LABEL| < i + |tagged|)
    {
      if i < p + |ZSH_DATABASE_LABEL| < i + |tagged| {
        var e := p + |ZSH_DATABASE_LABEL|;
        OccurrenceChar(s, ZSH_DATABASE_LABEL, p, |ZSH_DATABASE_LABEL| - 1);
        OccurrenceChar(s, tagged, i, e - 1 - i);
        if e - 1 - i == |ZSH_DATASTORE_LABEL| - 1 {
          OccurrenceChar(s, ZSH_DATABASE_LABEL, p, |ZSH_DATABASE_LABEL| - 2);
          OccurrenceChar(s, tagged, i, e - 2 - i);
        }
        assert false;
      }
    }
  }

  /** No datastore label ends inside a database label: its `:` would have to be one of the
      database label's, which has none before its end. */
  lemma DatastoreLabelEndsOutside(s: String, i: nat)
    requires OccursAt(s, ZSH_DATABASE_LABEL, i)
    ensures NoneEndsInside(s, ZSH_DATASTORE_LABEL, ZSH_DATABASE_LABEL, i)
  {
    DatastoreLabelColon();
    DatabaseLabelColon();
    forall p: nat | OccursAt(s, ZSH_DATASTORE_LABEL, p)
      ensures !(i < p + |ZSH_DATASTORE_LABEL| < i + |ZSH_DATABASE_LABEL|)
    {
      if i < p + |ZSH_DATASTORE_LABEL| < i + |ZSH_DATABASE_LABEL| {
        var e := p + |ZSH_DATASTORE_LABEL|;
        OccurrenceChar(s, ZSH_DATASTORE_LABEL, p, |ZSH_DATASTORE_LABEL| - 1);
        OccurrenceChar(s, ZSH_DATABASE_LABEL, i, e - 1 - i);
        assert false;
      }
    }
  }

  /** What replaces the case of a tool in the bash script: the datastore completion, the database
      completion for a database tool, and the original case as the fallback. */
  function BashReplacement(h: Helpers, isDatabaseTool: bool, segment: String): (r: String)
    ensures |r| >= |h.bashDatastores| && r[..|h.bashDatastores|] == h.bashDatastores
    ensures var rest := r[|h.bashDatastores|..];
      if isDatabaseTool then rest == h.bashDatabases + "else\n " + segment + "\nfi\n"
      else rest == "else\n " + segment + "\nfi\n"
  {
    var r := h.bashDatastores + (if isDatabaseTool then h.bashDatabases else "") + "else\n " + segment + "\nfi\n";
    assert r[|h.bashDatastores|..] == (if isDatabaseTool then h.bashDatabases else "") + "else\n " + segment + "\nfi\n";
    r
  }

  /** One iteration of the loop of `handle_bash`, for `tool`, with `databaseTools` the database
      registry (`None` when it was never initialised). The case runs from just after
      `satori__run__<tool>)` through the first `esac` after it, inclusive. */
  function BashStep(h: Helpers, s: String, tool: String, databaseTools: Option<set<String>>): (r: Option<String>)
    ensures r.Some? <==> GetIndexes(s, SATORI_RUN_PREFIX_BASH + tool + ")", "esac").Ok? && databaseTools.Some?
    ensures r.Some? ==>
      var (a, e) := GetIndexes(s, SATORI_RUN_PREFIX_BASH + tool + ")", "esac").value;
      && e + 4 <= |s|
      && s[e..e + 4] == "esac"
      && r.value == s[..a] + BashReplacement(h, tool in databaseTools.value, s[a..e + 4]) + s[e + 4..]
  {
    var command := SATORI_RUN_PREFIX_BASH + tool + ")";
    var found := GetIndexes(s, command, "esac");
    if found.Err? then
      BashFallbackNeverSucceeds(s, command);
      match GetIndexes(s, command, "esac\n}")
      case Err(_) => None
      case Ok((a, e)) =>
        assert false;
        None
    else
      var (a, e) := found.value;
      if databaseTools.None? then None
      else
        var replacement := BashReplacement(h, tool in databaseTools.value, s[a..e + 4]);
        Some(ReplaceRange(s, a, e + 4, replacement))
  }

  /** The script after the loop of `handle_bash` has visited the tools `order`. */
  function BashFold(h: Helpers, s: String, order: seq<String>, databaseTools: Option<set<String>>): (r: Option<String>)
    ensures |order| == 0 ==> r == Some(s)
    decreases |order|
  {
    if |order| == 0 then Some(s)
    else match BashFold(h, s, order[..|order| - 1], databaseTools)
      case None => None
      case Some(t) => BashStep(h, t, order[|order| - 1], databaseTools)
  }

  /** Visiting one more tool takes one more loop step. */
  lemma BashFoldAppend(h: Helpers, s: String, order: seq<String>, tool: String, databaseTools: Option<set<String>>)
    requires BashFold(h, s, order, databaseTools).Some?
    ensures BashFold(h, s, order + [tool], databaseTools) == BashStep(h, BashFold(h, s, order, databaseTools).value, tool, databaseTools)
  {
    assert (order + [tool])[..|order|] == order;
  }

  /** The loop state after one more tool of `order`. */
  lemma BashFoldNext(h: Helpers, s: String, order: seq<String>, i: nat, databaseTools: Option<set<String>>)
    requires i < |order| && BashFold(h, s, order[..i], databaseTools).Some?
    ensures BashFold(h, s, order[..i + 1], databaseTools) == BashStep(h, BashFold(h, s, order[..i], databaseTools).value, order[i], databaseTools)
  {
    assert order[..i + 1][..i] == order[..i];
  }

  /** Once a step panics, the whole loop does. */
  lemma {:induction false} BashFoldPanics(h: Helpers, s: String, order: seq<String>, k: nat, databaseTools: Option<set<String>>)
    requires k <= |order| && BashFold(h, s, order[..k], databaseTools).None?
    ensures BashFold(h, s, order, databaseTools).None?
    decreases |order| - k
  {
    if k < |order| {
      assert order[..k + 1][..k] == order[..k];
      BashFoldPanics(h, s, order, k + 1, databaseTools);
    } else {
      assert order[..k] == order;
    }
  }

  /** The datastore completion that replaces the case of a tool in the PowerShell script. */
  function PowerShellDatastores(): String {
    "\n" + Indent(12) + "$completionResults += Get-CompletionDatastores\n" + Indent(12) + "$completionResults\n" + Indent(8)
  }

  /** The block that puts the original case of `tool` back, behind a database completion for a
      database tool. */
  function PowerShellMoved(tool: String, isDatabaseTool: bool, segment: String): String {
    var test := "\n" + Indent(12) + "if($command.StartsWith('" + SATORI_RUN_PREFIX_POWER_SHELL + tool + "')) {\n";
    if isDatabaseTool then
      test
      + Indent(16) + "if ($commandElements.Count -eq 4) {\n"
      + Indent(20) + "$datastoreName = $commandElements[3]\n"
      + Indent(20) + "$completions = Get-CompletionDatabases -DatastoreName $datastoreName\n"
      + Indent(16) + "\n"
      + Indent(16) + "} else {\n"
      + Indent(20) + "$completions=@(" + segment + ")\n"
      + Indent(16) + "}\n"
      + Indent(12) + "}\n" + Indent(12)
    else
      test + Indent(16) + "$completions=@(" + segment + ")\n" + Indent(12) + "}\n" + Indent(12)
  }

  /** What replaces `$completions.Where` at the end of `handle_power_shell`. */
  function PowerShellTail(moved: String): (r: String)
    ensures |r| >= |POWER_SHELL_WHERE| && r[|r| - |POWER_SHELL_WHERE|..] == POWER_SHELL_WHERE
  {
    var head := "\n" + Indent(4) + "if ($completions.Count -eq 0) {\n" + Indent(8) + moved + "\n" + Indent(4) + "\n"
                + Indent(4) + "}\n\n" + Indent(4);
    assert (head + POWER_SHELL_WHERE)[|head|..] == POWER_SHELL_WHERE;
    head + POWER_SHELL_WHERE
  }

  /** One iteration of the loop of `handle_power_shell`: the script with the case of `tool` (from
      just after `satori;run;<tool>' {` up to the first `break`) replaced by the datastore
      completion, and the blocks moved so far with this tool's block appended. */
  function PowerShellStep(s: String, moved: String, tool: String, databaseTools: Option<set<String>>)
    : (r: Option<(String, String)>)
    ensures r.Some? <==> GetIndexes(s, SATORI_RUN_PREFIX_POWER_SHELL + tool + "' {", "break").Ok? && databaseTools.Some?
    ensures r.Some? ==>
      var (a, b) := GetIndexes(s, SATORI_RUN_PREFIX_POWER_SHELL + tool + "' {", "break").value;
      && b <= |s|
      && r.value.0 == s[..a] + PowerShellDatastores() + s[b..]
      && r.value.1 == moved + PowerShellMoved(tool, tool in databaseTools.value, s[a..b])
  {
    match GetIndexes(s, SATORI_RUN_PREFIX_POWER_SHELL + tool + "' {", "break")
    case Err(_) => None
    case Ok((a, b)) =>
      if databaseTools.None? then None
      else
        Some((ReplaceRange(s, a, b, PowerShellDatastores()), moved + PowerShellMoved(tool, tool in databaseTools.value, s[a..b])))
  }

  /** The script and the moved blocks after the loop of `handle_power_shell` has visited `order`. */
  function PowerShellFold(s: String, order: seq<String>, databaseTools: Option<set<String>>): (r: Option<(String, String)>)
    ensures |order| == 0 ==> r == Some((s, ""))
    decreases |order|
  {
    if |order| == 0 then Some((s, ""))
    else match PowerShellFold(s, order[..|order| - 1], databaseTools)
      case None => None
      case Some((t, moved)) => PowerShellStep(t, moved, order[|order| - 1], databaseTools)
  }

  /** Visiting one more tool takes one more loop step. */
  lemma PowerShellFoldAppend(s: String, order: seq<String>, tool: String, databaseTools: Option<set<String>>)
    requires PowerShellFold(s, order, databaseTools).Some?
    ensures var (t, moved) := PowerShellFold(s, order, databaseTools).value;
      PowerShellFold(s, order + [tool], databaseTools) == PowerShellStep(t, moved, tool, databaseTools)
  {
    assert (order + [tool])[..|order|] == order;
  }

  /** The loop state after one more tool of `order`. */
  lemma PowerShellFoldNext(s: String, order: seq<String>, i: nat, databaseTools: Option<set<String>>)
    requires i < |order| && PowerShellFold(s, order[..i], databaseTools).Some?
    ensures var (t, moved) := PowerShellFold(s, order[..i], databaseTools).value;
      PowerShellFold(s, order[..i + 1], databaseTools) == PowerShellStep(t, moved, order[i], databaseTools)
  {
    assert order[..i + 1][..i] == order[..i];
  }

  /** Once a step panics, the whole loop does. */
  lemma {:induction false} PowerShellFoldPanics(s: String, order: seq<String>, k: nat, databaseTools: Option<set<String>>)
    requires k <= |order| && PowerShellFold(s, order[..k], databaseTools).None?
    ensures PowerShellFold(s, order, databaseTools).None?
    decreases |order| - k
  {
    if k < |order| {
      assert order[..k + 1][..k] == order[..k];
      PowerShellFoldPanics(s, order, k + 1, databaseTools);
    } else {
      assert order[..k] == order;
    }
  }

  /** The PowerShell script before the loop: without the bare-word test, with the helper
      functions appended. */
  function PowerShellStart(h: Helpers, script: String): (r: String)
    ensures |r| >= |h.powerShellFunctions| && r[|r| - |h.powerShellFunctions|..] == h.powerShellFunctions
  {
    var s := ReplaceAll(script, POWER_SHELL_BARE_WORD_TEST, "");
    assert (s + h.powerShellFunctions)[|s|..] == h.powerShellFunctions;
    s + h.powerShellFunctions
  }

  /** The end of `handle_power_shell`: the moved cases go back in before `$completions.Where`. */
  function PowerShellFinish(folded: Option<(String, String)>): (r: Option<String>)
    ensures r.Some? <==> folded.Some?
  {
    match folded
    case None => None
    case Some((s, moved)) => Some(ReplaceAll(s, POWER_SHELL_WHERE, PowerShellTail(moved)))
  }

  /** The two global registries of tool names, `None` until the first registration initialises
      them. */
  class Registries {
    var databaseTools: Option<set<String>>
    var tools: Option<set<String>>

    constructor()
      ensures databaseTools == None && tools == None
    {
      databaseTools := None;
      tools := None;
    }

    /** `add_database_tool_autocomplete`: a set insertion, so registering a name again changes
        nothing. */
    method AddDatabaseToolAutocomplete(name: String)
      modifies this
      ensures databaseTools == Some(old(databaseTools).GetOr({}) + {name}) && tools == old(tools)
      ensures old(databaseTools).Some? && name in old(databaseTools).value ==> databaseTools == old(databaseTools)
    {
      if databaseTools.Some? && name in databaseTools.value {
        assert databaseTools.value + {name} == databaseTools.value;
      }
      databaseTools := Some(databaseTools.GetOr({}) + {name});
    }

    /** `add_tool_autocomplete`: a set insertion, so registering a name again changes nothing. */
    method AddToolAutocomplete(name: String)
      modifies this
      ensures tools == Some(old(tools).GetOr({}) + {name}) && databaseTools == old(databaseTools)
      ensures old(tools).Some? && name in old(tools).value ==> tools == old(tools)
    {
      if tools.Some? && name in tools.value {
        assert tools.value + {name} == tools.value;
      }
      tools := Some(tools.GetOr({}) + {name});
    }

    /** `handle_bash`: append the bash helper functions, then rewrite the case of every
        registered tool, visiting the registry in its iteration order `order`. */
    method HandleBash(h: Helpers, script: String) returns (r: Option<String>, order: seq<String>)
      ensures tools.None? ==> r.None?
      ensures tools.Some? ==> Enumerates(order, tools.value) && r == BashFold(h, script + h.bashFunctions, order, databaseTools)
    {
      order := [];
      if tools.None? {
        return None, order;
      }
      var start := script + h.bashFunctions;
      var databaseRegistry := databaseTools;
      order := IterationOrder(tools.value);
      var s := start;
      for i := 0 to |order|
        invariant BashFold(h, start, order[..i], databaseRegistry) == Some(s)
      {
        var next := BashStep(h, s, order[i], databaseRegistry);
        BashFoldNext(h, start, order, i, databaseRegistry);
        if next.None? {
          BashFoldPanics(h, start, order, i + 1, databaseRegistry);
          return None, order;
        }
        s := next.value;
      }
      assert order[..|order|] == order;
      r := Some(s);
    }

    /** `handle_power_shell`: drop the bare-word test, append the PowerShell helper functions,
        replace the case of every registered tool by the datastore completion while collecting the
        original cases, and put them back before `$completions.Where`. */
    method HandlePowerShell(h: Helpers, script: String) returns (r: Option<String>, order: seq<String>)
      ensures tools.None? ==> r.None?
      ensures tools.Some? ==> Enumerates(order, tools.value)
      ensures tools.Some? ==> r == PowerShellFinish(PowerShellFold(PowerShellStart(h, script), order, databaseTools))
    {
      order := [];
      if tools.None? {
        return None, order;
      }
      var start := PowerShellStart(h, script);
      var databaseRegistry := databaseTools;
      order := IterationOrder(tools.value);
      var state := (start, "");
      for i := 0 to |order|
        invariant PowerShellFold(start, order[..i], databaseRegistry) == Some(state)
      {
        var next := PowerShellStep(state.0, state.1, order[i], databaseRegistry);
        PowerShellFoldNext(start, order, i, databaseRegistry);
        if next.None? {
          PowerShellFoldPanics(start, order, i + 1, databaseRegistry);
          return None, order;
        }
        state := next.value;
      }
      assert order[..|order|] == order;
      r := PowerShellFinish(Some(state));
    }

    /** `make_dynamic_completion_script`: Bash, PowerShell and Zsh are rewritten; any other shell
        is an error naming it. */
    method MakeDynamicCompletionScript(h: Helpers, shell: Shell, script: String) returns (r: Completion, order: seq<String>)
      ensures shell !in {Bash, PowerShell, Zsh} ==>
        r == Made(Err("Unsupported shell: " + ShellName(shell) + ". Supported shells are: Bash, PowerShell, Zsh"))
      ensures shell == Zsh ==> r == Made(Ok(HandleZsh(h, script)))
      ensures shell in {Bash, PowerShell} && tools.None? ==> r == Panicked
      ensures shell in {Bash, PowerShell} && tools.Some? ==> Enumerates(order, tools.value)
      ensures shell == Bash && tools.Some? ==>
        r == Completed(BashFold(h, script + h.bashFunctions, order, databaseTools))
      ensures shell == PowerShell && tools.Some? ==>
        r == Completed(PowerShellFinish(PowerShellFold(PowerShellStart(h, script), order, databaseTools)))
      ensures r.Made? && r.result.Err? <==> shell !in {Bash, PowerShell, Zsh}
    {
      order := [];
      match shell
      case Bash =>
        var s;
        s, order := HandleBash(h, script);
        r := Completed(s);
      case PowerShell =>
        var s;
        s, order := HandlePowerShell(h, script);
        r := Completed(s);
      case Zsh =>
        r := Made(Ok(HandleZsh(h, script)));
      case _ =>
        r := Made(Err("Unsupported shell: " + ShellName(shell) + ". Supported shells are: Bash, PowerShell, Zsh"));
    }
  }
}
