/**
 * `run <tool>` for the tools of the embedded tool inventory
 * (src/run/dynamic_tools.rs, src/helpers/tools.rs): look the datastore and the
 * tool up, render the tool's argument and environment templates in a context
 * built from the datastore and the credentials, and hand the command to the
 * executer. Template compilation and rendering belong to a library and are
 * inputs: `compiles(source)` says whether a source text is accepted as a
 * template, `render(source, ctx)` is its rendering in `ctx` (`None` when
 * rendering fails).
 */
module DynamicTools {
  import opened Wrappers
  import opened Strings
  import opened LoginData
  import opened Datastores
  import LoginFlow
  import opened RunData

  const TOOLS_TEMPLATE_NAME: String := "tools"

  /** `EnvTool`: an environment variable of a tool, its value a template. */
  datatype EnvTool = EnvTool(name: String, value: String)

  /** `Tool`, without the flag descriptions that only the command-line wiring reads. */
  datatype Tool = Tool(name: String, command: String, commandArgs: String, env: seq<EnvTool>)

  /** The values a template may refer to. */
  datatype Context = Context(host: String, user: String, password: String, database: Option<String>, port: Option<nat>)

  /** `Tool::get_env`: the tool's variables as (name, value) pairs, in the tool's order. */
  function GetEnv(tool: Tool): (pairs: seq<(String, String)>)
    ensures |pairs| == |tool.env|
    ensures forall i :: 0 <= i < |pairs| ==> pairs[i].0 == tool.env[i].name && pairs[i].1 == tool.env[i].value
  {
    seq(|tool.env|, i requires 0 <= i < |tool.env| => (tool.env[i].name, tool.env[i].value))
  }

  /** The position of the first tool called `name`, as `iter().find` visits the inventory. */
  function FindTool(tools: seq<Tool>, name: String): (r: Option<nat>)
    ensures r.None? <==> forall i :: 0 <= i < |tools| ==> tools[i].name != name
    ensures r.Some? ==> r.value < |tools| && tools[r.value].name == name
    ensures r.Some? ==> forall j :: 0 <= j < r.value ==> tools[j].name != name
  {
    if |tools| == 0 then None
    else if tools[0].name == name then Some(0)
    else match FindTool(tools[1..], name)
      case None => None
      case Some(k) => Some(k + 1)
  }

  /** `get_tool_data`: the first tool called `name`; `None` where the source panics. */
  function GetToolData(tools: seq<Tool>, name: String): (r: Option<Tool>)
    ensures r.None? <==> forall i :: 0 <= i < |tools| ==> tools[i].name != name
    ensures r.Some? ==> r.value.name == name
    ensures r.Some? ==> exists i :: 0 <= i < |tools| && tools[i] == r.value && forall j :: 0 <= j < i ==> tools[j].name != name
  {
    match FindTool(tools, name)
    case None => None
    case Some(i) => Some(tools[i])
  }

  /** `get_jinja_context`: the host is the datastore's connection host, whose error propagates. */
  function GetJinjaContext(info: DatastoreInfo, credentials: Credentials, database: Option<String>): (r: Result<Context, RunError>)
    ensures r.Ok? <==> GetDatastoreName(info).Ok?
    ensures r.Err? ==> r.error == DatastoreHostError(GetDatastoreName(info).error)
    ensures r.Ok? ==> r.value.host == GetDatastoreName(info).value && r.value.port == info.port
    ensures r.Ok? ==> r.value.user == credentials.username && r.value.password == credentials.password
    ensures r.Ok? ==> r.value.database == database
  {
    match GetDatastoreName(info)
    case Err(e) => Err(DatastoreHostError(e))
    case Ok(host) => Ok(Context(host, credentials.username, credentials.password, database, info.port))
  }

  /** `build_args`: the words of the rendered argument template, then the additional arguments. */
  method BuildArgs(argsString: String, additionalArgs: seq<String>) returns (args: seq<String>)
    ensures args == SplitWhitespace(argsString) + additionalArgs
    ensures forall k :: 0 <= k < |SplitWhitespace(argsString)| ==> args[k] != "" && NoWhitespace(args[k])
  {
    args := SplitWhitespace(argsString);
    var i := 0;
    while i < |additionalArgs|
      invariant 0 <= i <= |additionalArgs|
      invariant args == SplitWhitespace(argsString) + additionalArgs[..i]
    {
      args := args + [additionalArgs[i]];
      i := i + 1;
    }
    assert additionalArgs[..i] == additionalArgs;
  }

  /** An argument template that is words separated by single spaces yields exactly those words,
      and the additional arguments follow them. */
  lemma BuildArgsOfSpacedWords(words: seq<String>, additionalArgs: seq<String>)
    requires forall k :: 0 <= k < |words| ==> words[k] != "" && NoWhitespace(words[k])
    ensures SplitWhitespace(JoinSpaces(words)) + additionalArgs == words + additionalArgs
  {
    SplitWhitespaceJoinSpaces(words);
  }

  /** An environment variable's template compiles and renders. */
  predicate Renders(value: String, ctx: Context, compiles: String -> bool, render: (String, Context) -> Option<String>) {
    compiles(value) && render(value, ctx).Some?
  }

  /** Every variable of `pairs` compiles and renders. */
  predicate AllRender(pairs: seq<(String, String)>, ctx: Context, compiles: String -> bool,
                      render: (String, Context) -> Option<String>) {
    forall i :: 0 <= i < |pairs| ==> Renders(pairs[i].1, ctx, compiles, render)
  }

  /** Each variable with its rendered value, names and order kept. */
  function RenderedEnvs(pairs: seq<(String, String)>, ctx: Context, compiles: String -> bool,
                        render: (String, Context) -> Option<String>): seq<(String, String)>
    requires AllRender(pairs, ctx, compiles, render)
  {
    seq(|pairs|, i requires 0 <= i < |pairs| && AllRender(pairs, ctx, compiles, render) =>
      (pairs[i].0, render(pairs[i].1, ctx).value))
  }

  /** The environment construction of `run`: each variable's value is added to the template
      environment under its name, fetched back and rendered; the source unwraps every step, so
      `ok` is false exactly where it panics. */
  method RenderEnvs(pairs: seq<(String, String)>, templates: map<String, String>, ctx: Context,
                    compiles: String -> bool, render: (String, Context) -> Option<String>)
    returns (ok: bool, envs: seq<(String, String)>)
    ensures ok <==> AllRender(pairs, ctx, compiles, render)
    ensures ok ==> |envs| == |pairs|
    ensures ok ==> forall i :: 0 <= i < |pairs| ==> envs[i].0 == pairs[i].0 && Some(envs[i].1) == render(pairs[i].1, ctx)
  {
    var env := templates;
    envs := [];
    var i := 0;
    while i < |pairs|
      invariant 0 <= i <= |pairs| && |envs| == i
      invariant forall j :: 0 <= j < i ==> Renders(pairs[j].1, ctx, compiles, render)
      invariant forall j :: 0 <= j < i ==> envs[j].0 == pairs[j].0 && Some(envs[j].1) == render(pairs[j].1, ctx)
    {
      var (name, value) := pairs[i];
      if !compiles(value) {
        return false, envs;
      }
      env := env[name := value];
      var rendered := render(env[name], ctx);
      if rendered.None? {
        return false, envs;
      }
      envs := envs + [(name, rendered.value)];
      i := i + 1;
    }
    ok := true;
  }

  /** What `run` does once the datastore entry `info` has been found. */
  predicate RunsTool(params: DynamicTool, credentials: Credentials, info: DatastoreInfo, tools: seq<Tool>,
                     compiles: String -> bool, render: (String, Context) -> Option<String>,
                     execute: Command -> Result<(), RunError>, outcome: RunOutcome, executed: Option<Command>)
  {
    match GetToolData(tools, params.tool)
    case None => outcome == Panicked && executed == None
    case Some(tool) =>
      if !compiles(tool.commandArgs) then outcome == Panicked && executed == None
      else match GetJinjaContext(info, credentials, params.database)
        case Err(e) => outcome == Completed(Err(e)) && executed == None
        case Ok(ctx) =>
          if render(tool.commandArgs, ctx).None? || !AllRender(GetEnv(tool), ctx, compiles, render) then
            outcome == Panicked && executed == None
          else
            var c := Command(tool.command, SplitWhitespace(render(tool.commandArgs, ctx).value) + params.additionalArgs,
                             RenderedEnvs(GetEnv(tool), ctx, compiles, render));
            executed == Some(c) && outcome == Completed(execute(c))
  }

  /** `run`. `login` is the outcome of the login flow and `tools` the tool inventory. */
  method Run(params: DynamicTool, login: Result<(Credentials, DatastoresInfo), LoginFlow.LoginError>, tools: seq<Tool>,
             compiles: String -> bool, render: (String, Context) -> Option<String>, execute: Command -> Result<(), RunError>)
    returns (outcome: RunOutcome, executed: Option<Command>)
    ensures login.Err? ==> outcome == Completed(Err(LoginError(login.error))) && executed == None
    ensures login.Ok? && params.datastoreName !in login.value.1.datastores ==>
      outcome == Completed(Err(DatastoreNotFound(params.datastoreName))) && executed == None
    ensures login.Ok? && params.datastoreName in login.value.1.datastores ==>
      RunsTool(params, login.value.0, login.value.1.datastores[params.datastoreName], tools, compiles, render, execute,
               outcome, executed)
  {
    executed := None;
    if login.Err? {
      return Completed(Err(LoginError(login.error))), executed;
    }
    var (credentials, datastoresInfo) := login.value;
    if params.datastoreName !in datastoresInfo.datastores {
      return Completed(Err(DatastoreNotFound(params.datastoreName))), executed;
    }
    var info := datastoresInfo.datastores[params.datastoreName];
    var toolData := GetToolData(tools, params.tool);
    if toolData.None? {
      return Panicked, executed;
    }
    var tool := toolData.value;
    if !compiles(tool.commandArgs) {
      return Panicked, executed;
    }
    var templates := map[TOOLS_TEMPLATE_NAME := tool.commandArgs];
    var context := GetJinjaContext(info, credentials, params.database);
    if context.Err? {
      return Completed(Err(context.error)), executed;
    }
    var argsString := render(templates[TOOLS_TEMPLATE_NAME], context.value);
    if argsString.None? {
      return Panicked, executed;
    }
    var args := BuildArgs(argsString.value, params.additionalArgs);
    var ctx := GetJinjaContext(info, credentials, params.database).value;
    var ok, envs := RenderEnvs(GetEnv(tool), templates, ctx, compiles, render);
    if !ok {
      return Panicked, executed;
    }
    assert envs == RenderedEnvs(GetEnv(tool), ctx, compiles, render);
    var c := Command(tool.command, args, envs);
    executed := Some(c);
    outcome := Completed(execute(c));
  }

  /** The executed command is the tool's own program, and its arguments begin with the words of
      the rendered template, none of them empty or containing white space. */
  lemma ExecutedCommandShape(params: DynamicTool, credentials: Credentials, info: DatastoreInfo, tools: seq<Tool>,
                             compiles: String -> bool, render: (String, Context) -> Option<String>,
                             execute: Command -> Result<(), RunError>, outcome: RunOutcome, c: Command)
    requires RunsTool(params, credentials, info, tools, compiles, render, execute, outcome, Some(c))
    ensures exists i :: 0 <= i < |tools| && tools[i].name == params.tool && c.program == tools[i].command
    ensures |c.args| >= |params.additionalArgs|
    ensures c.args[|c.args| - |params.additionalArgs|..] == params.additionalArgs
    ensures forall k :: 0 <= k < |c.args| - |params.additionalArgs| ==> c.args[k] != "" && NoWhitespace(c.args[k])
  {
    var tool := GetToolData(tools, params.tool).value;
    var ctx := GetJinjaContext(info, credentials, params.database).value;
    var words := SplitWhitespace(render(tool.commandArgs, ctx).value);
    assert c.args == words + params.additionalArgs;
    assert c.args[|words|..] == params.additionalArgs;
  }
}
