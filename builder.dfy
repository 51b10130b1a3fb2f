/** The Sultan object: a buffer of tokens that the chaining calls append
    to, a stack of contexts, rendering, and running the rendered line. */
module Builder {
  import opened Outcomes
  import opened Text
  import opened Dicts
  import opened Tokens
  import opened Contexts
  import opened Rendering

  /** What the shell boundary reported: the process communicated (whatever
      the command's own exit status), or it could not be run at all. */
  datatype ShellOutcome =
    | Communicated(stdout: string, stderr: string)
    | NotStarted(traceback: string)

  /** The Result object run returns. */
  datatype ShellResult = ShellResult(stdout: Option<string>, stderr: Option<string>, traceback: Option<string>)

  /** run either returns a Result or lets the invocation failure propagate. */
  datatype RunResult = Returned(result: ShellResult) | Raised(traceback: string)

  /** The outcome of run: output of a command that ran is returned as is,
      whatever it wrote to stderr; a failure to invoke the shell propagates
      unless the caller asked not to halt, and then it is returned with its
      traceback. */
  function RunOutcome(outcome: ShellOutcome, haltOnNonzero: bool): (r: RunResult)
    ensures outcome.Communicated? ==> r.Returned? && r.result.traceback.None?
    ensures outcome.Communicated? ==> r.result.stdout == Some(outcome.stdout) && r.result.stderr == Some(outcome.stderr)
    ensures outcome.NotStarted? ==> (r.Raised? <==> haltOnNonzero)
    ensures outcome.NotStarted? && r.Raised? ==> r.traceback == outcome.traceback
    ensures outcome.NotStarted? && r.Returned? ==>
              r.result == ShellResult(None, None, Some(outcome.traceback))
  {
    match outcome
    case Communicated(out, err) => Returned(ShellResult(Some(out), Some(err), None))
    case NotStarted(tb) =>
      if haltOnNonzero then Raised(tb) else Returned(ShellResult(None, None, Some(tb)))
  }

  /** What an attribute of the object stands for: 'redirect' gives the
      redirection, any other name a command, with each "__" turned into "-". */
  datatype Attribute = RedirectAttribute | CommandAttribute(name: string)

  /** Sultan.__getattr__ */
  function GetAttribute(name: string): (r: Attribute)
    ensures r.RedirectAttribute? <==> name == "redirect"
    ensures r.CommandAttribute? ==> !HasDoubleUnderscore(r.name)
    ensures r.CommandAttribute? && !HasDoubleUnderscore(name) ==> r.name == name
  {
    if name == "redirect" then RedirectAttribute
    else
      DashesRemoveDoubleUnderscores(name);
      CommandAttribute(DashesForDoubleUnderscores(name))
  }

  /** str(cmd) for one token. */
  method TokenString(t: Token) returns (s: string)
    ensures s == Render(t)
  {
    if t.Command? {
      s := CommandString(t.name, t.args, t.options);
    } else {
      s := Render(t);
    }
  }

  /** The first half of __str__: each token's text after its separator. */
  method JoinTokens(ts: seq<Token>) returns (output: string)
    ensures output == RawBody(ts)
  {
    output := "";
    var i := 0;
    while i < |ts|
      invariant 0 <= i <= |ts|
      invariant output == RawBody(ts[..i])
    {
      var t := ts[i];
      var separator;
      if i == 0 {
        separator := "";
      } else if IsOperator(t) {
        separator := " ";
      } else {
        separator := if IsOperator(ts[i - 1]) then " " else "; ";
      }
      assert separator == Separator(ts, i);
      var text := TokenString(t);
      assert output + separator + text == RawBody(ts[..i + 1]) by {
        RawBodyStep(ts, i);
      }
      output := output + separator + text;
      i := i + 1;
    }
    assert ts[..i] == ts;
  }

  /** The second half of __str__: cd, then source, then sudo, then ssh,
      each wrapping what the previous ones produced. */
  method WrapLine(context: Context, invokingUser: string, body: string) returns (output: string)
    ensures output == Enclose(Layers(context, invokingUser), body)
  {
    output := body;
    if context.cwd != "" {
      output := "cd " + context.cwd + " && " + output;
    }
    assert output == Enclose(CdLayer(context), body) by { CdStep(context, body); }
    ghost var located := output;
    if context.src != "" {
      output := "source " + context.src + " && " + output;
    }
    assert output == Enclose(SourceLayer(context), located) by { SourceStep(context, located); }
    ghost var sourced := output;
    var sudo, user := context.sudo, context.user;
    if sudo {
      if user != invokingUser {
        output := "sudo su - " + user + " -c '" + output + "'";
      } else if invokingUser == "root" {
        output := "su - " + user + " -c '" + output + "'";
      } else {
        output := "sudo " + output;
      }
    }
    assert output == Enclose(SudoLayer(context, invokingUser), sourced) by {
      SudoStep(context, invokingUser, sourced);
    }
    ghost var elevated := output;
    var sshConfig := context.sshOptions;
    if context.hostname != "" {
      var options := if sshConfig != "" then " " + sshConfig + " " else " ";
      output := "ssh" + options + user + "@" + context.hostname + " '" + output + "'";
    }
    assert output == Enclose(SshLayer(context), elevated) by { SshStep(context, elevated); }
    LayersInsideOut(context, invokingUser, body);
  }

  class Sultan {
    var commands: seq<Token>
    var contexts: seq<Context>

    /** Sultan.__init__: an empty buffer and a stack holding the given
        context, if any. */
    constructor (context: Option<Context>)
      ensures commands == []
      ensures contexts == if context.Some? then [context.value] else []
    {
      commands := [];
      contexts := if context.Some? then [context.value] else [];
    }

    /** The top of the stack, or the empty context when there is none. */
    function CurrentContext(): (c: Context)
      reads this
      ensures |contexts| == 0 ==> c == EmptyContext
      ensures |contexts| > 0 ==> c == contexts[|contexts| - 1]
    {
      if |contexts| > 0 then contexts[|contexts| - 1] else EmptyContext
    }

    /** __enter__: a with block needs a context on the stack. */
    method Enter() returns (r: Result<Sultan>)
      ensures r.Err? <==> |contexts| == 0
      ensures r.Err? ==> r.error == InvalidContext
      ensures r.Ok? ==> r.value == this
    {
      if |contexts| == 0 {
        return Err(InvalidContext);
      }
      return Ok(this);
    }

    /** __exit__: pops one context, or does nothing on an empty stack. */
    method Exit()
      modifies this
      ensures commands == old(commands)
      ensures |old(contexts)| > 0 ==> contexts == old(contexts)[..|old(contexts)| - 1]
      ensures |old(contexts)| == 0 ==> contexts == []
    {
      if |contexts| > 0 {
        contexts := contexts[..|contexts| - 1];
      }
    }

    /** _add: appends the token and nothing else. */
    method Add(t: Token) returns (b: Sultan)
      modifies this
      ensures commands == old(commands) + [t] && contexts == old(contexts)
      ensures b == this
    {
      commands := commands + [t];
      b := this;
    }

    method Pipe() returns (b: Sultan)
      modifies this
      ensures commands == old(commands) + [PipeOp] && contexts == old(contexts)
      ensures b == this
    {
      b := Add(PipeOp);
    }

    /** and_ */
    method And() returns (b: Sultan)
      modifies this
      ensures commands == old(commands) + [AndOp] && contexts == old(contexts)
      ensures b == this
    {
      b := Add(AndOp);
    }

    /** or_ */
    method Or() returns (b: Sultan)
      modifies this
      ensures commands == old(commands) + [OrOp] && contexts == old(contexts)
      ensures b == this
    {
      b := Add(OrOp);
    }

    /** Calling the command looked up by name: appends the command, or
        raises (appending nothing) when its 'where' does not check out. */
    method Call(name: string, args: seq<string>, kwargs: Dict<string>, fs: set<string>) returns (r: Result<Sultan>)
      modifies this
      ensures contexts == old(contexts)
      ensures CommandToken(name, args, kwargs, fs).Ok? ==>
                r == Ok(this) && commands == old(commands) + [CommandToken(name, args, kwargs, fs).value]
      ensures CommandToken(name, args, kwargs, fs).Err? ==>
                r == Err(CommandToken(name, args, kwargs, fs).error) && commands == old(commands)
    {
      var t := CommandToken(name, args, kwargs, fs);
      if t.Err? {
        return Err(t.error);
      }
      var b := Add(t.value);
      return Ok(b);
    }

    /** Calling the redirection: appends it, or raises (appending nothing)
        when neither stream was chosen. */
    method Redirect(toFile: string, append: bool, stdout: bool, stderr: bool) returns (r: Result<Sultan>)
      modifies this
      ensures contexts == old(contexts)
      ensures stdout || stderr ==>
                r == Ok(this) && commands == old(commands) + [MakeRedirect(toFile, append, stdout, stderr).value]
      ensures !stdout && !stderr ==> r == Err(NoRedirectStream) && commands == old(commands)
    {
      var t := MakeRedirect(toFile, append, stdout, stderr);
      if t.Err? {
        return Err(t.error);
      }
      var b := Add(t.value);
      return Ok(b);
    }

    method Clear() returns (b: Sultan)
      modifies this
      ensures commands == [] && contexts == old(contexts)
      ensures b == this
    {
      commands := [];
      b := this;
    }

    /** __str__: the loop over the buffer, then the context's wrapping from
        the inside out. Reads the object and changes nothing. */
    method ToString(invokingUser: string) returns (line: string)
      ensures line == Line(commands, CurrentContext(), invokingUser)
    {
      var context := CurrentContext();
      var output := JoinTokens(commands);
      output := Strip(output) + ";";
      line := WrapLine(context, invokingUser, output);
    }

    /** run: renders the line, hands it to the shell, and empties the buffer
        on every path out, including the one that re-raises. */
    method Run(invokingUser: string, outcome: ShellOutcome, haltOnNonzero: bool) returns (line: string, r: RunResult)
      modifies this
      ensures line == Line(old(commands), old(CurrentContext()), invokingUser)
      ensures r == RunOutcome(outcome, haltOnNonzero)
      ensures commands == [] && contexts == old(contexts)
    {
      line := ToString(invokingUser);
      r := RunOutcome(outcome, haltOnNonzero);
      var _ := Clear();
    }

    /** __call__: runs a non-empty buffer (halting on failure), discards
        what run returns, and leaves the buffer empty. Only run's re-raise
        gets out: 'raised' holds its traceback. */
    method Flush(invokingUser: string, outcome: ShellOutcome) returns (raised: Option<string>)
      modifies this
      ensures raised.Some? <==> old(commands) != [] && RunOutcome(outcome, true).Raised?
      ensures raised.Some? ==> raised.value == outcome.traceback
      ensures commands == [] && contexts == old(contexts)
    {
      raised := None;
      if commands != [] {
        var _, result := Run(invokingUser, outcome, true);
        if result.Raised? {
          raised := Some(result.traceback);
        }
        var _ := Clear();
      }
    }
  }

  /** Rendering leaves the object alone, so two renderings agree. */
  method RenderTwice(s: Sultan, invokingUser: string) returns (first: string, second: string)
    ensures first == second
  {
    first := s.ToString(invokingUser);
    second := s.ToString(invokingUser);
  }
}
