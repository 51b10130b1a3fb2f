# Sultan's command builder, in Dafny

Sultan is a Python package that builds shell command lines out of chained
method calls and runs them. `s.cat("/var/log/x.log").pipe().grep("abc")`
appends three tokens to the object's buffer: a command, a pipe and another
command. `str(s)` renders the buffer as `cat /var/log/x.log | grep abc;`.
The line is then wrapped in the current context:

- `cd DIR && …` when a working directory is set;
- `source FILE && …` when a source file is set;
- `sudo …`, `su - USER -c '…'` or `sudo su - USER -c '…'`, depending on
  the target user and the invoking user;
- `ssh [OPTIONS] USER@HOST '…'` when a host is set.

`run` hands the line to a shell and empties the buffer. This project models
all of `src/sultan/api.py` except its I/O:

- `Sultan`: `load`, the constructor, `current_context`, `with` entry and
  exit, `__call__`, `__getattr__`, `run`, `_add`, `clear`, `__str__`, and
  `pipe`, `and_` and `or_`;
- the token classes `Command`, `Pipe`, `And`, `Or` and `Redirect`;
- `Config` and `SSHConfig`.

Modules, one file each:

- `Outcomes`: `Option`, `Result` and the error kinds. `IOError`,
  `ValueError` and `InvalidContextError` are modelled as `Err` values.
- `Text`: the parts of Python's `str` that the code uses: `strip`, `join`
  and `replace('__', '-')`.
- `Dicts`: insertion-ordered dicts as sequences of pairs, with `in`, `[k]`
  and `pop`.
- `Tokens`: the buffer's tokens and how each one renders. Also
  `Command.__call__`, which handles `where` and `sudo`, and
  `Redirect.__call__`.
- `Configs`: validating and rendering `Config` and `SSHConfig`.
- `Contexts`: `Sultan.load`.
- `Rendering`: reference functions for the separators and the context
  layers of `__str__`, with lemmas about them.
- `Builder`: the `Sultan` class. Its buffer and context stack are fields
  that the chaining methods update. Its `__str__` loop is proved equal to
  the reference rendering.
- `Scenarios`: worked examples, mostly stated over arbitrary arguments. The
  `pipe`, `and_` and `or_` docstring examples and the module docstring's
  `load(sudo=True)` are among them. The rest are further cases of sudo, ssh,
  redirection, keyword handling and the `__` replacement that no docstring
  shows.

The environment is passed in as parameters:

- the invoking user (`getpass.getuser()`);
- the set of existing paths (`os.path.exists`);
- what the shell reported (`ShellOutcome`).

Python's falsy `None` and `""` context values are both modelled as the empty
string.

Where the code and its documentation disagree, the model follows the code:

- The module docstring shows `Sultan.load(sudo=True)` producing
  `sudo su - root -c '…'`. In the code the user defaults to the invoking
  user, so the line is `sudo …`, or `su - root -c '…'` when run as root
  (`Scenarios.LoadSudoAsSelf`).
- `run` is documented as halting on a nonzero exit status. The code uses
  `Popen(...).communicate()`, which never raises for an exit status. So only
  a failure to start the shell propagates, and only when
  `halt_on_nonzero` is set (`Builder.RunOutcome`).
- The example lines in the `pipe`, `and_` and `or_` docstrings have no
  trailing `;`. `__str__` always appends one (`Scenarios.PipeBetweenTwo`,
  `Scenarios.AndBetweenTwo`, `Scenarios.OrBetweenTwo`).
- The `or_` docstring shows `echo "Step Completed"` with quotes. Arguments
  are rendered verbatim, so the line is `echo Step Completed`
  (`Scenarios.OrBetweenTwo`).
- The module docstring's remote example calls `open(sudo=True, ...)`. The
  function meant is `Sultan.load`.

## Model

| member | source | states |
|---|---|---|
| Text.StripLeftSuffix | src/sultan/api.py:266 | lstrip keeps a suffix of the text and drops only whitespace; what is left does not start with whitespace |
| Text.StripRightPrefix | src/sultan/api.py:266 | rstrip keeps a prefix and drops only whitespace; what is left does not end with whitespace |
| Text.StripTrims | src/sultan/api.py:401 | a stripped text never grows and has no whitespace at either end |
| Text.StripIsSlice | src/sultan/api.py:409 | a stripped text is one contiguous slice of the input, and everything before and after that slice is whitespace |
| Text.StripTrimmed | src/sultan/api.py:266 | strip leaves text with no whitespace at its ends unchanged |
| Text.JoinCons | src/sultan/api.py:401 | a join peels off its first part, which is the form the layout and scenario proofs use |
| Text.DoubleUnderscoreAt | src/sultan/api.py:172 | the scan for "__" that the replacement relies on holds exactly when some index starts two underscores in a row |
| Text.DashesRemoveDoubleUnderscores | src/sultan/api.py:172 | after the replacement no "__" remains; a name without "__" is unchanged; a name with one gets strictly shorter; the result starts with "_" only if the name did |
| Text.DashesAfterPlain | src/sultan/api.py:172 | text with no "__" that does not end in "_" passes through unchanged in front of whatever follows it |
| Text.DashesJunction | src/sultan/api.py:172 | after such text, a "__" becomes "-" whatever follows it, so a name with any number of junctions gets a dash at each |
| Dicts.Get | src/sultan/api.py:378 | the value read for a present key belongs to one of that key's entries |
| Dicts.Remove | src/sultan/api.py:378 | after a pop the key is absent; an entry survives exactly when its key differs; a dict without the key is unchanged |
| Dicts.RemoveOnly | src/sultan/api.py:391 | popping a key held at exactly one position cuts out that entry and keeps the others in order |
| Tokens.CommandSegments | src/sultan/api.py:411-418 | a command renders as its name, then its options, then its arguments, skipping empty parts and joining the rest with single spaces |
| Tokens.LayoutSegments | src/sultan/api.py:412-416 | the conditional appends of the layout equal the space-join of its non-empty parts |
| Tokens.OptionFlags | src/sultan/api.py:402-408 | the loop yields one flag per keyword option, in insertion order: `-k=v` for a one-letter key, `--key=v` otherwise |
| Tokens.CommandString | src/sultan/api.py:399-418 | Command.__str__ returns the reference rendering of the command token |
| Tokens.SplitAtEqualsAfterKey | src/sultan/api.py:408 | a key with no "=" splits back out of `key=value` |
| Tokens.FlagRoundTrip | src/sultan/api.py:407-408 | the key and value can be read back from a rendered flag, for any non-empty key that has no "=" and does not start with "-" |
| Tokens.MakeRedirect | src/sultan/api.py:464-477 | both streams give "&", stdout alone "1", stderr alone "2", each as an if-and-only-if; neither stream raises the ValueError; the file and the append flag are kept |
| Tokens.RedirectRoundTrip | src/sultan/api.py:476-477 | the streams, the append flag and the file can all be read back from a rendered redirection |
| Tokens.Locate | src/sultan/api.py:377-388 | the lookup succeeds exactly when `where` and `where/name` both exist; it returns the path it checked; each failure names the path that is missing |
| Tokens.LocateAsWritten | src/sultan/api.py:384-388 | the lookup as written succeeds exactly when the corrected one does, but it returns `join(where, join(where, name))`; its failures are the corrected lookup's errors |
| Tokens.LocateAsWrittenDoublesRelativeWhere | src/sultan/api.py:388 | for where "bin" and name "ls", with "bin" and "bin/ls" existing, the code runs "bin/bin/ls", which does not exist |
| Tokens.LocateAgreesForAbsoluteWhere | src/sultan/api.py:384-388 | with an absolute `where` the second join changes nothing |
| Tokens.CommandToken | src/sultan/api.py:374-395 | the call fails exactly when a `where` lookup fails, and with that error; otherwise the arguments are kept; the options are the keywords minus `where` and `sudo`, in their insertion order; the name gets the located path `join(where, name)` (the corrected lookup; see ## Findings) and then a "sudo " prefix when `sudo` was given |
| Configs.FirstMissing | src/sultan/api.py:509-512 | reports none exactly when every required parameter was supplied; otherwise it names a required parameter that is absent |
| Configs.FirstUnknown | src/sultan/api.py:516-520 | reports none exactly when every supplied key is in the table; otherwise it names a supplied key the table lacks |
| Configs.FirstMissingIsFirst | src/sultan/api.py:509-512 | the reported parameter is the first missing one in table order: every required parameter before it was supplied |
| Configs.FirstUnknownIsFirst | src/sultan/api.py:516-520 | the reported key is the first unknown one in insertion order: every entry before it is in the table |
| Configs.Check | src/sultan/api.py:503-520 | validation passes exactly when the config is acceptable; a missing required key is reported before any unknown key |
| Configs.ValidateConfig | src/sultan/api.py:503-520 | the two loops with their early raises compute the reference check |
| Configs.NewConfig | src/sultan/api.py:489-492 | a config is built exactly when it validates, and otherwise the validation error is raised |
| Configs.Pairs | src/sultan/api.py:496-500 | rendering produces two words for every entry |
| Configs.PairsContents | src/sultan/api.py:497-500 | word 2j is entry j's shorthand and word 2j+1 is its value |
| Configs.ConfigString | src/sultan/api.py:494-501 | the loop of Config.__str__ computes the reference rendering |
| Configs.NewSshConfig | src/sultan/api.py:524-535 | an SSH config keeps the SSH parameter table |
| Configs.SshKeys | src/sultan/api.py:524-535 | an SSH config is accepted exactly when every key is identity_file or port; any refusal names an unknown key |
| Contexts.Load | src/sultan/api.py:77-104 | load fails exactly for a config that is not an SSH config (ValueError) or a source file that does not exist (IOError), and that is the order the checks run in; the user defaults to the invoking user; the SSH options are the rendered config |
| Rendering.RawBodyStep | src/sultan/api.py:255-264 | each token adds its separator and then its own text to what came before |
| Rendering.AppendToken | src/sultan/api.py:257-262 | the first token has no separator; an operator, or anything after an operator, gets one space; a plain command after a plain command gets "; " |
| Rendering.PlainCommandsInSequence | src/sultan/api.py:255-264 | a buffer of plain commands renders as their texts joined by "; " |
| Rendering.OperatorsJoinWithSpaces | src/sultan/api.py:255-264 | when no two plain commands are adjacent, the buffer renders as its texts joined by single spaces |
| Rendering.EncloseAppend | src/sultan/api.py:268-296 | wrapping with two lists of layers is the same as wrapping with the inner list, then the outer one |
| Rendering.LayersInsideOut | src/sultan/api.py:268-296 | the line is wrapped from the inside out: cd, then source, then sudo, then ssh |
| Rendering.CdStep | src/sultan/api.py:268-270 | a working directory prefixes `cd DIR && ` |
| Rendering.SourceStep | src/sultan/api.py:272-274 | a source file prefixes `source FILE && ` |
| Rendering.SudoStep | src/sultan/api.py:277-285 | sudo as another user gives `sudo su - USER -c '…'`; as the invoking user who is root, `su - USER -c '…'`; otherwise `sudo …` |
| Rendering.SshStep | src/sultan/api.py:288-296 | a host gives `ssh OPTS USER@HOST '…'` with a space on each side of the options, or one space when there are none |
| Rendering.PeelEnclose | src/sultan/api.py:268-296 | stripping the layers off from the outside in gives back exactly what they wrapped |
| Rendering.LineRecoversBody | src/sultan/api.py:266-298 | every rendered line gives back its body, stripped and ending in ";", once its context's layers are removed |
| Rendering.SourceThenCd | src/sultan/api.py:268-274 | with both a source file and a directory, the source comes first and the cd sits inside it |
| Rendering.EmptyContextLine | src/sultan/api.py:119 | with no context the line is the stripped body plus ";", and an empty buffer renders as ";" |
| Builder.RunOutcome | src/sultan/api.py:186-227 | output from a shell that ran is returned with both streams and no traceback; a failure to start propagates exactly when halting is requested; otherwise it is returned with its traceback and no output |
| Builder.GetAttribute | src/sultan/api.py:163-175 | "redirect" and only "redirect" gives the redirection; any other name gives a command whose name has no "__" and equals the attribute name when that had none |
| Builder.TokenString | src/sultan/api.py:263 | str(cmd) is each token's reference text |
| Builder.JoinTokens | src/sultan/api.py:254-264 | the loop of __str__ computes the reference body with its separators |
| Builder.WrapLine | src/sultan/api.py:268-296 | the sequential ifs of __str__ compute the layered reference wrapping |
| Builder.Sultan.constructor | src/sultan/api.py:106-109 | a new object has an empty buffer and a stack holding the given context, if any |
| Builder.Sultan.CurrentContext | src/sultan/api.py:114-119 | the current context is the top of the stack, or the empty context when the stack is empty |
| Builder.Sultan.Enter | src/sultan/api.py:121-144 | entering a with block fails with InvalidContextError exactly when the stack is empty, and otherwise yields the object |
| Builder.Sultan.Exit | src/sultan/api.py:146-151 | leaving pops exactly one context; an empty stack stays empty; the buffer is unchanged |
| Builder.Sultan.Add | src/sultan/api.py:234-241 | the buffer gains exactly the token at its end; the stack is unchanged; the object is returned |
| Builder.Sultan.Pipe | src/sultan/api.py:306-317 | the buffer gains exactly a pipe at its end |
| Builder.Sultan.And | src/sultan/api.py:319-330 | the buffer gains exactly an `&&` at its end |
| Builder.Sultan.Or | src/sultan/api.py:332-343 | the buffer gains exactly an or-operator (two vertical bars) at its end |
| Builder.Sultan.Call | src/sultan/api.py:374-397 | calling a command appends exactly its token, located with `join(where, name)` (the corrected lookup; see ## Findings); when the raise happens instead, the buffer is unchanged |
| Builder.Sultan.Redirect | src/sultan/api.py:464-479 | a redirection naming a stream is appended; one naming neither raises and appends nothing |
| Builder.Sultan.Clear | src/sultan/api.py:243-246 | the buffer becomes empty and the stack is unchanged |
| Builder.Sultan.ToString | src/sultan/api.py:248-298 | str(s) is the reference line for the buffer under the current context and the invoking user |
| Builder.Sultan.Run | src/sultan/api.py:177-232 | run renders the line from the buffer as it was, returns or raises as the shell's outcome dictates, and always leaves the buffer empty |
| Builder.Sultan.Flush | src/sultan/api.py:153-161 | calling the object returns nothing: only a failure that run re-raises (buffer non-empty, shell not started) gets out, with its traceback; an empty buffer runs nothing; either way the buffer ends empty |
| Builder.RenderTwice | src/sultan/api.py:248-298 | rendering changes nothing, so two renderings agree |
| Scenarios.NoOptionsText | src/sultan/api.py:409 | no keyword options render as the empty string |
| Scenarios.OneArgumentText | src/sultan/api.py:401 | a single argument with no whitespace at its ends renders as itself |
| Scenarios.OneArgument | src/sultan/api.py:399-418 | a command with one such argument and no options renders as `name arg` |
| Scenarios.OperatorBody | src/sultan/api.py:255-264 | an operator between two tokens renders as the first token's text, a space, the operator, a space and the second token's text |
| Scenarios.OperatorBetweenTwo | src/sultan/api.py:255-266 | two one-argument commands around any operator, with no context, render as `a f OP b x;` |
| Scenarios.PipeBetweenTwo | src/sultan/api.py:312-314 | the pipe example renders as cat, the file, the pipe character surrounded by spaces, grep, the pattern and ";", with no context |
| Scenarios.AndBetweenTwo | src/sultan/api.py:325-327 | the and_ example renders as `cd DIR && touch FILE;` |
| Scenarios.OrBetweenTwo | src/sultan/api.py:338-340 | the or_ example renders as `touch FILE || echo MESSAGE;`, with the message unquoted |
| Scenarios.PlainCommand | src/sultan/api.py:374-397 | a call without keywords gives the command as named, with its arguments |
| Scenarios.CatPipeGrepBuffer | src/sultan/api.py:314 | chaining cat, pipe and grep on a fresh object fills its buffer with those three tokens, in order |
| Scenarios.CatPipeGrepChained | src/sultan/api.py:312-314 | rendering that object gives that same line |
| Scenarios.SudoOtherUserInDirectory | src/sultan/api.py:268-281 | a directory plus sudo as another user gives `sudo su - USER -c 'cd DIR && BODY'` |
| Scenarios.LoadSudoAsSelf | src/sultan/api.py:100 | a load with sudo and no user gives `sudo BODY` for an ordinary user and `su - root -c 'BODY'` for root |
| Scenarios.SshWithoutOptions | src/sultan/api.py:288-296 | a host without SSH options gives `ssh USER@HOST 'BODY'` |
| Scenarios.AppendStdout | src/sultan/api.py:464-477 | redirecting stdout in append mode renders as `1>> FILE` for any file |
| Scenarios.SshRejectsTimeout | src/sultan/api.py:516-520 | an SSH config with the key timeout, whatever its value, is refused, and the error names timeout |
| Scenarios.SshOptionsRender | src/sultan/api.py:494-501 | identity_file and port are accepted and render as `-i KEY -p PORT` |
| Scenarios.DoubleUnderscoreBecomesDash | src/sultan/api.py:167-172 | an attribute `a__b` names the command `a-b` when a and b contain no "__" and no underscore touches the junction |
| Scenarios.DashesBetween | src/sultan/api.py:172 | replacing "__" in `a__b` yields `a-b` when neither side contains "__" and no underscore touches the junction |
| Scenarios.SudoKeyword | src/sultan/api.py:390-395 | a sudo keyword, whatever its value, prefixes "sudo " and is not rendered as an option; the other options stay |

## Left out

- Running the shell is left out: `subprocess.Popen`, its environment, and the choice of `_context[0]`'s env over the current context's are not modelled. The shell's outcome is a parameter.
- Echo logging, `spit`, the printing in `run`, `quiet`/`q` and `stdin` are left out; they are output or terminal input only.
- `Settings`, `Base` and the logging flag read by the constructor are left out; the module that defines them is not part of this model.
- `context.update(kwargs)` in `load` is left out: a context here has exactly the fields that rendering reads, so extra keys have nowhere to go.
- A context passed to the constructor directly as a dict is left out. Such a dict may lack keys, for example a user of None. Contexts here come from `load`, or are the empty context.
- Command objects are values, so aliasing is left out: one `Command` object that instance-level code calls twice, changing its name twice, is not modelled.
- Names that normal attribute lookup resolves never reach `__getattr__`; that Python detail is left out.
- Quoting is left out: the code escapes nothing, and the model reproduces the text exactly as written.
- Every argument and value is taken to be a string already, so `str(a)` and `str(value)` are left out.
- `os.path` is modelled for POSIX only. The set of existing paths is taken as given, with no normalisation (`bin` and `bin/` are different paths).
- Dict keys are unique in Python. Dicts here are sequences of pairs, and `Dicts.Remove` and `Dicts.Get` are stated for any sequence.
- The text of error messages is left out. That includes the required-parameter message, which its '%s' leaves unformatted. Each error keeps its kind and the key or path it names.
- Configs.Pairs: stated only for validated configs, because rendering an unknown key raises a KeyError that validation rules out.
- Contexts.Load: requires a validated config, because a `Config` object exists only after `validate_config` passed. An SSH config is recognised by its parameter table, not by its Python class.
- Builder.Sultan.Run: the buffer is cleared after rendering even on the raising path; the model returns the raise as a value instead of unwinding.

## Findings

| source | as written | input that shows it | evidently intended | confidence | as-written member | corrected member |
|---|---|---|---|---|---|---|
| src/sultan/api.py:384-388 | after checking that `cmd = join(where, name)` exists, the command is set to `join(where, cmd)`, joining `where` twice | where "bin", name "ls", existing paths {"bin", "bin/ls"}: the code runs "bin/bin/ls", which was never checked and does not exist | the command becomes the path that was checked, `join(where, name)` ("bin/ls"); for an absolute `where` the two agree | not executed | Tokens.LocateAsWritten (shown by Tokens.LocateAsWrittenDoublesRelativeWhere) | Tokens.Locate (used by Tokens.CommandToken) |
