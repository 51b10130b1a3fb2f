/** Worked examples, mostly over arbitrary arguments: the pipe, and_ and or_
    docstring examples, load(sudo=True) from the module docstring, and
    further cases of sudo, ssh, redirection, keyword handling and the "__"
    replacement that no docstring shows. */
module Scenarios {
  import opened Outcomes
  import opened Text
  import opened Tokens
  import opened Dicts
  import Configs
  import opened Contexts
  import opened Rendering
  import opened Builder

  lemma NoOptionsText()
    ensures OptionsText([]) == ""
  {
    assert Flags([]) == [];
    assert Join([], " ") == "";
    StripTrimmed("");
  }

  lemma OneArgumentText(arg: string)
    requires Trimmed(arg)
    ensures ArgsText([arg]) == arg
  {
    assert Join([arg], " ") == arg;
    StripTrimmed(arg);
  }

  /** A command with one trimmed argument and no options. */
  lemma OneArgument(name: string, arg: string)
    requires arg != "" && Trimmed(arg)
    ensures Render(Command(name, [arg], [])) == name + " " + arg
  {
    NoOptionsText();
    OneArgumentText(arg);
    assert Render(Command(name, [arg], [])) == CommandLayout(name, OptionsText([]), ArgsText([arg]));
  }

  /** An operator between two tokens stands between single spaces. */
  lemma OperatorBody(first: Token, op: Token, second: Token)
    requires IsOperator(op)
    ensures RawBody([first, op, second]) == Render(first) + " " + Render(op) + " " + Render(second)
  {
    assert RawBody([first]) == Render(first) by { assert [first][..0] == []; }
    assert RawBody([first, op]) == Render(first) + " " + Render(op) by {
      SpacedStep([first], op);
      assert [first] + [op] == [first, op];
    }
    SpacedStep([first, op], second);
    assert [first, op] + [second] == [first, op, second];
  }

  lemma TrimmedConcat(x: string, y: string)
    requires x != "" && y != "" && !IsSpace(x[0]) && !IsSpace(y[|y| - 1])
    ensures Trimmed(x + y)
  {
    assert (x + y)[0] == x[0];
    assert (x + y)[|x + y| - 1] == y[|y| - 1];
  }

  /** Two one-argument commands around an operator, with no context. */
  lemma OperatorBetweenTwo(a: string, f: string, op: Token, b: string, x: string, invokingUser: string)
    requires a != "" && !IsSpace(a[0]) && f != "" && Trimmed(f) && x != "" && Trimmed(x) && IsOperator(op)
    ensures Line([Command(a, [f], []), op, Command(b, [x], [])], EmptyContext, invokingUser)
         == a + " " + f + " " + Render(op) + " " + b + " " + x + ";"
  {
    var first, second := Command(a, [f], []), Command(b, [x], []);
    var left, right := a + " " + f, b + " " + x;
    OneArgument(a, f);
    OneArgument(b, x);
    OperatorBody(first, op, second);
    var raw := left + " " + Render(op) + " " + right;
    assert raw == a + " " + f + " " + Render(op) + " " + b + " " + x;
    TrimmedConcat(left + " " + Render(op) + " ", right);
    StripTrimmed(raw);
    EmptyContextLine([first, op, second], invokingUser);
  }

  /** s.cat(f).pipe().grep(x): a pipe between two commands, no context. */
  lemma PipeBetweenTwo(a: string, f: string, b: string, x: string, invokingUser: string)
    requires a != "" && !IsSpace(a[0]) && f != "" && Trimmed(f) && x != "" && Trimmed(x)
    ensures Line([Command(a, [f], []), PipeOp, Command(b, [x], [])], EmptyContext, invokingUser)
         == a + " " + f + " " + "|" + " " + b + " " + x + ";"
  {
    OperatorBetweenTwo(a, f, PipeOp, b, x, invokingUser);
  }

  /** s.cd(d).and_().touch(x): the second command runs only if the first
      succeeds. */
  lemma AndBetweenTwo(a: string, d: string, b: string, x: string, invokingUser: string)
    requires a != "" && !IsSpace(a[0]) && d != "" && Trimmed(d) && x != "" && Trimmed(x)
    ensures Line([Command(a, [d], []), AndOp, Command(b, [x], [])], EmptyContext, invokingUser)
         == a + " " + d + " " + "&&" + " " + b + " " + x + ";"
  {
    OperatorBetweenTwo(a, d, AndOp, b, x, invokingUser);
  }

  /** s.touch(f).or_().echo(x): the second command runs only if the first
      fails. The argument is rendered verbatim, so a message with a space
      in it is not quoted. */
  lemma OrBetweenTwo(a: string, f: string, b: string, x: string, invokingUser: string)
    requires a != "" && !IsSpace(a[0]) && f != "" && Trimmed(f) && x != "" && Trimmed(x)
    ensures Line([Command(a, [f], []), OrOp, Command(b, [x], [])], EmptyContext, invokingUser)
         == a + " " + f + " " + "||" + " " + b + " " + x + ";"
  {
    OperatorBetweenTwo(a, f, OrOp, b, x, invokingUser);
  }

  /** Without keyword arguments a call adds the command as named. */
  lemma PlainCommand(name: string, args: seq<string>, fs: set<string>)
    ensures CommandToken(name, args, [], fs) == Ok(Command(name, args, []))
  {
    assert !HasKey<string>([], "where") && !HasKey<string>([], "sudo");
    assert Remove<string>([], "where") == [] && Remove<string>([], "sudo") == [];
  }

  /** s.cat(f).pipe().grep(x) on a fresh object fills its buffer in order. */
  method CatPipeGrepBuffer(f: string, x: string) returns (s: Sultan)
    ensures fresh(s)
    ensures s.commands == [Command("cat", [f], []), PipeOp, Command("grep", [x], [])] && s.contexts == []
  {
    s := new Sultan(None);
    PlainCommand("cat", [f], {});
    var _ := s.Call("cat", [f], [], {});
    var _ := s.Pipe();
    PlainCommand("grep", [x], {});
    var _ := s.Call("grep", [x], [], {});
  }

  /** Chaining the same calls renders the line above. */
  method CatPipeGrepChained(f: string, x: string, invokingUser: string) returns (line: string)
    requires f != "" && Trimmed(f) && x != "" && Trimmed(x)
    ensures line == "cat" + " " + f + " " + "|" + " " + "grep" + " " + x + ";"
  {
    var s := CatPipeGrepBuffer(f, x);
    line := s.ToString(invokingUser);
    PipeBetweenTwo("cat", f, "grep", x, invokingUser);
  }

  /** A working directory and sudo as another user, without ssh or source:
      the cd runs inside the other user's shell. */
  lemma SudoOtherUserInDirectory(ts: seq<Token>, cwd: string, user: string, invokingUser: string)
    requires cwd != "" && user != invokingUser
    ensures Line(ts, Context(cwd, true, user, "", "", ""), invokingUser)
         == "sudo su - " + user + " -c '" + ("cd " + cwd + " && " + Body(ts)) + "'"
  {
    var ctx := Context(cwd, true, user, "", "", "");
    var body := Body(ts);
    LayersInsideOut(ctx, invokingUser, body);
    CdStep(ctx, body);
    var located := "cd " + cwd + " && " + body;
    SourceStep(ctx, located);
    SudoStep(ctx, invokingUser, located);
    SshStep(ctx, "sudo su - " + user + " -c '" + located + "'");
  }

  /** Sultan.load(sudo=True) without a user runs as the invoking user: a
      plain sudo prefix, or su when that user is root. */
  lemma LoadSudoAsSelf(invokingUser: string, body: string)
    ensures Load("", true, "", "", None, "", invokingUser, {}).Ok?
    ensures var ctx := Load("", true, "", "", None, "", invokingUser, {}).value;
            Enclose(Layers(ctx, invokingUser), body)
              == if invokingUser == "root" then "su - root -c '" + body + "'" else "sudo " + body
  {
    var ctx := Load("", true, "", "", None, "", invokingUser, {}).value;
    assert ctx == Context("", true, invokingUser, "", "", "");
    LayersInsideOut(ctx, invokingUser, body);
    CdStep(ctx, body);
    SourceStep(ctx, body);
    SudoStep(ctx, invokingUser, body);
    SshStep(ctx, Enclose(SudoLayer(ctx, invokingUser), body));
  }

  /** A host without SSH options: one space after ssh. */
  lemma SshWithoutOptions(body: string)
    ensures Enclose(Layers(Context("", false, "bob", "h.com", "", ""), "bob"), body) == "ssh bob@h.com '" + body + "'"
  {
    var ctx := Context("", false, "bob", "h.com", "", "");
    LayersInsideOut(ctx, "bob", body);
    CdStep(ctx, body);
    SourceStep(ctx, body);
    SudoStep(ctx, "bob", body);
    SshStep(ctx, body);
  }

  /** stdout with append gives the descriptor 1>>. */
  lemma AppendStdout(file: string)
    ensures MakeRedirect(file, true, true, false).Ok?
    ensures Render(MakeRedirect(file, true, true, false).value) == "1>> " + file
  {
  }

  /** timeout is not an SSH option, whatever its value. */
  lemma SshRejectsTimeout(v: string)
    ensures Configs.NewSshConfig([("timeout", v)]) == Err(UnknownKey("timeout"))
  {
    Configs.SshKeys([("timeout", v)]);
    assert Configs.FirstMissing(Configs.SshParams, [("timeout", v)]) == None;
    assert !HasKey(Configs.SshParams, "timeout");
  }

  lemma JoinFour(a: string, b: string, c: string, d: string, sep: string)
    ensures Join([a, b, c, d], sep) == a + sep + b + sep + c + sep + d
  {
    var ps := [a, b, c, d];
    assert ps[..3] == [a, b, c] && ps[..3][..2] == [a, b] && ps[..3][..2][..1] == [a];
    assert Join([a], sep) == a;
    assert Join([a, b], sep) == a + sep + b;
    assert Join([a, b, c], sep) == a + sep + b + sep + c;
  }

  /** identity_file and port render as -i and -p. */
  lemma SshOptionsRender(key: string, port: string)
    ensures Configs.NewSshConfig([("identity_file", key), ("port", port)]).Ok?
    ensures Configs.Arguments(Configs.Config(Configs.SshParams, [("identity_file", key), ("port", port)]))
         == "-i" + " " + key + " " + "-p" + " " + port
  {
    var identity, portEntry := ("identity_file", key), ("port", port);
    var es := [identity, portEntry];
    Configs.SshKeys(es);
    assert HasKey(Configs.SshParams, "identity_file") by { assert Configs.SshParams[0].0 == "identity_file"; }
    assert HasKey(Configs.SshParams, "port") by { assert Configs.SshParams[1].0 == "port"; }
    assert Get(Configs.SshParams, "identity_file").shorthand == "-i";
    assert Get(Configs.SshParams, "port").shorthand == "-p" by {
      assert Configs.SshParams[0].0 != "port";
      assert Configs.SshParams[1..][0].0 == "port";
    }
    assert es[..1] == [identity] && [identity][..0] == [];
    assert Configs.Pairs(Configs.SshParams, [identity]) == ["-i", key];
    assert Configs.Pairs(Configs.SshParams, es) == ["-i", key, "-p", port];
    JoinFour("-i", key, "-p", port, " ");
  }

  /** s.apt__get names the command apt-get: a double underscore between two
      plain words becomes one dash. */
  lemma DoubleUnderscoreBecomesDash(a: string, b: string)
    requires !HasDoubleUnderscore(a) && (a == [] || a[|a| - 1] != '_')
    requires !HasDoubleUnderscore(b) && (b == [] || b[0] != '_')
    ensures GetAttribute(a + "__" + b) == CommandAttribute(a + "-" + b)
  {
    var name := a + "__" + b;
    assert name != "redirect" by {
      assert name[|a|] == '_';
      assert '_' !in "redirect";
    }
    DashesBetween(a, b);
  }

  lemma DashesBetween(a: string, b: string)
    requires !HasDoubleUnderscore(a) && (a == [] || a[|a| - 1] != '_')
    requires !HasDoubleUnderscore(b) && (b == [] || b[0] != '_')
    ensures DashesForDoubleUnderscores(a + "__" + b) == a + "-" + b
  {
    DashesJunction(a, b);
    DashesRemoveDoubleUnderscores(b);
  }

  /** A sudo keyword, whatever its value, prefixes the command and is not
      rendered as an option; the other options stay. */
  lemma SudoKeyword(name: string, args: seq<string>, v: string, k: string, w: string, fs: set<string>)
    requires k != "where" && k != "sudo"
    ensures CommandToken(name, args, [("sudo", v), (k, w)], fs) == Ok(Command("sudo " + name, args, [(k, w)]))
  {
    var sudo, other := ("sudo", v), (k, w);
    var kwargs := [sudo, other];
    assert "sudo" != "where";
    assert !HasKey(kwargs, "where");
    assert HasKey(kwargs, "sudo") by { assert kwargs[0].0 == "sudo"; }
    assert Remove(kwargs, "where") == kwargs;
    assert kwargs[1..] == [other] && [other][1..] == [];
    assert Remove([other], "sudo") == [other] + Remove([], "sudo");
    assert Remove(kwargs, "sudo") == [other];
  }
}
