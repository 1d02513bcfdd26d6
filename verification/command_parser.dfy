/**
 * `parseCommand`: the configured pytest command, given either as one string
 * or as an array of strings, becomes a program name and its arguments. A
 * string is split on every single space, so doubled spaces give empty
 * arguments; an array is copied. The first token is the program, the rest
 * are the arguments, and an empty array gives the empty program.
 */
module CommandParser {
  import opened JsString

  const ArgumentSeparator: char := ' '

  /** The TypeScript type `string | Array<string>` that `parseCommand` takes. */
  datatype CommandValue = Text(text: string) | Tokens(tokens: seq<string>)

  /** The `Command` record of `parse.ts`. */
  datatype Command = Command(cmd: string, args: seq<string>)

  /** `parseCommand(value)`: `args.shift() || ""` takes the first token as the
      program, and an empty token list leaves the program "". */
  function ParseCommand(value: CommandValue): (c: Command)
    ensures value.Text? ==>
      && Join([c.cmd] + c.args, ArgumentSeparator) == value.text
      && ArgumentSeparator !in c.cmd
      && forall i :: 0 <= i < |c.args| ==> ArgumentSeparator !in c.args[i]
    ensures value.Tokens? && value.tokens != [] ==> [c.cmd] + c.args == value.tokens
    ensures value.Tokens? && value.tokens == [] ==> c == Command("", [])
  {
    var tokens := if value.Text? then Split(value.text, ArgumentSeparator) else value.tokens;
    if |tokens| == 0 then Command("", [])
    else
      assert [tokens[0]] + tokens[1..] == tokens;
      Command(tokens[0], tokens[1..])
  }

  /** A command whose program and arguments hold no space is read back from
      its space-joined spelling. */
  lemma {:induction false} TextRoundTrip(c: Command)
    requires ArgumentSeparator !in c.cmd
    requires forall i :: 0 <= i < |c.args| ==> ArgumentSeparator !in c.args[i]
    ensures ParseCommand(Text(Join([c.cmd] + c.args, ArgumentSeparator))) == c
  {
    var tokens := [c.cmd] + c.args;
    assert forall i :: 0 <= i < |tokens| ==> ArgumentSeparator !in tokens[i] by {
      assert forall i :: 1 <= i < |tokens| ==> tokens[i] == c.args[i - 1];
    }
    SplitJoin(tokens, ArgumentSeparator);
    assert tokens[1..] == c.args;
  }

  /** The two spellings of a command agree: an array of space-free tokens
      gives the same command as the tokens joined by spaces. */
  lemma {:induction false} TextAndTokensAgree(tokens: seq<string>)
    requires tokens != []
    requires forall i :: 0 <= i < |tokens| ==> ArgumentSeparator !in tokens[i]
    ensures ParseCommand(Text(Join(tokens, ArgumentSeparator))) == ParseCommand(Tokens(tokens))
  {
    SplitJoin(tokens, ArgumentSeparator);
  }

  /** The empty string and the empty array both give no program and no
      arguments. */
  lemma {:induction false} EmptyCommand()
    ensures ParseCommand(Text("")) == Command("", [])
    ensures ParseCommand(Tokens([])) == Command("", [])
  {
    assert Split("", ArgumentSeparator) == [""] by {
      assert FirstIndex("", ArgumentSeparator) == -1;
    }
  }
}
