/// The command-line option parser of the command-line program
/// (kjchess-cli/CommandLineParseResult.swift). The arguments are consumed by
/// one shared iterator: the pure model threads the arguments still to be read
/// through its functions, and the methods keep them in an `ArgumentIterator`
/// object whose `Next` consumes them, proved to agree with the functions.
/// Strings are sequences of characters.
module CommandLine {
  import opened Wrappers
  import opened ArrayUtils
  import opened Separators

  /// The kind of value an option takes; a string option names its argument
  /// for the help text.
  datatype ValueType = NoValueType | StringType(argName: string)

  /// The value a parsed option carries.
  datatype OptionValue = NoValue | StringValue(s: string)

  /// A possible option: its long name, its optional single letter, its value
  /// kind and a line of help.
  datatype OptionDefinition = OptionDefinition(name: string, letter: Option<char>, valueType: ValueType, briefHelp: string)

  /// An option found on the command line.
  datatype CommandLineOption = CommandLineOption(definition: OptionDefinition, value: OptionValue)

  /// The errors the parser throws.
  datatype ParseError =
    | UnimplementedFeature(feature: string)
    | UndefinedOption(option: string)
    | MissingOptionParameter(option: string)
    | InvalidArgumentSyntax(message: string)
    | ValueNotAllowed(option: string)
    | MissingValue(option: string)

  /// What the parser accumulates: options and plain arguments, in order.
  datatype Parsed = Parsed(options: seq<CommandLineOption>, arguments: seq<string>)

  /// The outcome of parsing a whole command line.
  datatype ParseResult = ParseResult(
    arguments: seq<string>,
    optionDefinitions: seq<OptionDefinition>,
    program: Option<string>,
    parsedOptions: seq<CommandLineOption>,
    parsedArguments: seq<string>)

  // ---------------------------------------------------------------------
  // First match
  // ---------------------------------------------------------------------

  /// The position of the first element satisfying `p`.
  function FirstIndex<T>(s: seq<T>, p: T -> bool): (r: Option<nat>)
    ensures r.None? <==> forall i :: 0 <= i < |s| ==> !p(s[i])
    ensures r.Some? ==> r.value < |s| && p(s[r.value])
    ensures r.Some? ==> forall j :: 0 <= j < r.value ==> !p(s[j])
  {
    if |s| == 0 then None
    else if p(s[0]) then Some(0)
    else
      match FirstIndex(s[1..], p)
      case None => None
      case Some(i) => Some(i + 1)
  }

  /// `first(where:)`: the first element satisfying `p`, if any.
  function First<T>(s: seq<T>, p: T -> bool): (r: Option<T>)
    ensures r.None? <==> forall i :: 0 <= i < |s| ==> !p(s[i])
    ensures r.Some? ==> r.value in s && p(r.value)
  {
    match FirstIndex(s, p)
    case None => None
    case Some(i) => Some(s[i])
  }

  /// The first definition with long name `name`.
  function DefinitionNamed(defs: seq<OptionDefinition>, name: string): Option<OptionDefinition>
  {
    First(defs, (d: OptionDefinition) => d.name == name)
  }

  /// The first definition with single letter `letter`.
  function DefinitionLettered(defs: seq<OptionDefinition>, letter: char): Option<OptionDefinition>
  {
    First(defs, (d: OptionDefinition) => d.letter == Some(letter))
  }

  // ---------------------------------------------------------------------
  // Splitting "name=value"
  // ---------------------------------------------------------------------

  /// `parseNameAndValue`: with no '=' the whole string is the name; with one
  /// '=' the name is before it and the value after it; with more the
  /// argument is rejected.
  function NameAndValue(s: string): (r: Result<(string, Option<string>), ParseError>)
    ensures r.Err? <==> multiset(s)['='] >= 2
    ensures r.Err? ==> r.error == InvalidArgumentSyntax("contains multiple '=' characters")
    ensures r.Ok? ==> ('=' in s <==> r.value.1.Some?)
    ensures r.Ok? && r.value.1.None? ==> r.value.0 == s
    ensures r.Ok? && r.value.1.Some? ==>
      s == r.value.0 + "=" + r.value.1.value && '=' !in r.value.0 && '=' !in r.value.1.value
  {
    var components := Components(s, '=');
    ComponentsCount(s, '=');
    JoinComponents(s, '=');
    if |components| == 1 then Ok((components[0], None))
    else if |components| == 2 then
      assert Join(components, '=') == components[0] + "=" + components[1];
      Ok((components[0], Some(components[1])))
    else Err(InvalidArgumentSyntax("contains multiple '=' characters"))
  }

  /// Round trip: a name and a value free of '=' joined by '=' split back
  /// into the two, and a name alone comes back with no value.
  lemma NameAndValueRoundTrip(name: string, value: string)
    requires '=' !in name && '=' !in value
    ensures NameAndValue(name + "=" + value) == Ok((name, Some(value)))
    ensures NameAndValue(name) == Ok((name, None))
  {
    ComponentsJoin([name, value], '=');
    assert Join([name, value], '=') == name + "=" + value;
    ComponentsJoin([name], '=');
  }

  // ---------------------------------------------------------------------
  // Parsing
  // ---------------------------------------------------------------------

  /// Long-option syntax: "--" followed by at least one character.
  predicate IsLongOption(argument: string)
  {
    |argument| > 2 && argument[..2] == "--"
  }

  /// Short-option syntax: "-" followed by at least one character. A long
  /// option is tested first, so "--" on its own is a group holding '-'.
  predicate IsShortGroup(argument: string)
  {
    |argument| > 1 && argument[0] == '-'
  }

  /// The message for a string-valued letter that is not first in a group.
  function CannotGroupMessage(letter: char): string
  {
    ['-', letter] + " cannot be grouped with other options because it requires an argument"
  }

  /// The letters `letters[n..]` of the short group `argument`, with the
  /// options `options` found so far and `rest` the arguments not yet read.
  /// A flag letter adds an option; a string-valued letter must be the first
  /// and takes the rest of the group, or else the next argument; an unknown
  /// letter rejects the whole group. The result is the options with the
  /// arguments left unread, which are a suffix of `rest`.
  function ShortGroup(argument: string, letters: string, n: nat, defs: seq<OptionDefinition>,
                      rest: seq<string>, options: seq<CommandLineOption>): (r: Result<(seq<CommandLineOption>, seq<string>), ParseError>)
    requires n <= |letters|
    decreases |letters| - n
    ensures r.Ok? ==> |r.value.1| <= |rest| && r.value.1 == rest[|rest| - |r.value.1|..]
    ensures r.Ok? ==> options <= r.value.0
  {
    if n == |letters| then Ok((options, rest))
    else
      var letter := letters[n];
      match DefinitionLettered(defs, letter)
      case None => Err(UndefinedOption(argument))
      case Some(d) =>
        if d.valueType.NoValueType? then
          ShortGroup(argument, letters, n + 1, defs, rest, options + [CommandLineOption(d, NoValue)])
        else if n != 0 then Err(InvalidArgumentSyntax(CannotGroupMessage(letter)))
        else if |letters| > 1 then Ok((options + [CommandLineOption(d, StringValue(letters[1..]))], rest))
        else if |rest| > 0 then
          ShortGroup(argument, letters, n + 1, defs, rest[1..], options + [CommandLineOption(d, StringValue(rest[0]))])
        else Err(MissingValue(['-', letter]))
  }

  /// `parse`: reads `args` one at a time, appending recognised options to
  /// `accOptions` and plain arguments to `accArguments`, and stops at the
  /// first error.
  function ParseArguments(args: seq<string>, defs: seq<OptionDefinition>,
                          accOptions: seq<CommandLineOption>, accArguments: seq<string>): (r: Result<Parsed, ParseError>)
    decreases |args|
  {
    if |args| == 0 then Ok(Parsed(accOptions, accArguments))
    else
      var argument := args[0];
      var rest := args[1..];
      if IsLongOption(argument) then
        match NameAndValue(argument[2..])
        case Err(e) => Err(e)
        case Ok((name, value)) =>
          match DefinitionNamed(defs, name)
          case None => Err(UndefinedOption(argument))
          case Some(d) =>
            if d.valueType.NoValueType? then
              if value.Some? then Err(ValueNotAllowed(argument))
              else ParseArguments(rest, defs, Appending(accOptions, CommandLineOption(d, NoValue)), accArguments)
            else if value.Some? then
              ParseArguments(rest, defs, Appending(accOptions, CommandLineOption(d, StringValue(value.value))), accArguments)
            else if |rest| > 0 then
              ParseArguments(rest[1..], defs, Appending(accOptions, CommandLineOption(d, StringValue(rest[0]))), accArguments)
            else Err(MissingValue(argument))
      else if IsShortGroup(argument) then
        match ShortGroup(argument, argument[1..], 0, defs, rest, [])
        case Err(e) => Err(e)
        case Ok((options, remaining)) => ParseArguments(remaining, defs, accOptions + options, accArguments)
      else ParseArguments(rest, defs, accOptions, Appending(accArguments, argument))
  }

  /// `CommandLineParseResult.init`: the first argument is the program, the
  /// others are parsed.
  function ParseResultOf(arguments: seq<string>, defs: seq<OptionDefinition>): (r: Result<ParseResult, ParseError>)
  {
    var program := if |arguments| > 0 then Some(arguments[0]) else None;
    var rest := if |arguments| > 0 then arguments[1..] else [];
    match ParseArguments(rest, defs, [], [])
    case Err(e) => Err(e)
    case Ok(parsed) => Ok(ParseResult(arguments, defs, program, parsed.options, parsed.arguments))
  }

  // ---------------------------------------------------------------------
  // The parser over a shared argument iterator
  // ---------------------------------------------------------------------

  /// The iterator over the arguments that every branch of the parser reads
  /// from.
  class ArgumentIterator {
    /// The arguments not yet read.
    var remaining: seq<string>

    constructor(arguments: seq<string>)
      ensures remaining == arguments
    {
      remaining := arguments;
    }

    /// `next()`: the next argument, consumed, or `None` at the end.
    method Next() returns (r: Option<string>)
      modifies this
      ensures old(remaining) == [] ==> r == None && remaining == []
      ensures old(remaining) != [] ==> r == Some(old(remaining)[0]) && remaining == old(remaining)[1..]
    {
      if remaining == [] {
        r := None;
      } else {
        r := Some(remaining[0]);
        remaining := remaining[1..];
      }
    }
  }

  /// The short-group branch of `parse`: a loop over the letters that skips
  /// the letters after a string-valued one, reading a value from the
  /// iterator when the group holds only that letter.
  method ParseShortGroup(it: ArgumentIterator, argument: string, defs: seq<OptionDefinition>)
    returns (r: Result<seq<CommandLineOption>, ParseError>)
    requires IsShortGroup(argument)
    modifies it
    ensures r.Ok? ==> ShortGroup(argument, argument[1..], 0, defs, old(it.remaining), []) == Ok((r.value, it.remaining))
    ensures r.Err? ==> ShortGroup(argument, argument[1..], 0, defs, old(it.remaining), []) == Err(r.error)
  {
    var letters := argument[1..];
    ghost var outcome := ShortGroup(argument, letters, 0, defs, it.remaining, []);
    var options: seq<CommandLineOption> := [];
    var skipRemainingLetters := false;
    for n := 0 to |letters|
      invariant !skipRemainingLetters ==> ShortGroup(argument, letters, n, defs, it.remaining, options) == outcome
      invariant skipRemainingLetters ==> outcome == Ok((options, it.remaining))
    {
      if skipRemainingLetters {
        continue;
      }
      var letter := letters[n];
      var matching := DefinitionLettered(defs, letter);
      if matching.None? {
        return Err(UndefinedOption(argument));
      }
      var d := matching.value;
      if d.valueType.NoValueType? {
        options := options + [CommandLineOption(d, NoValue)];
      } else if n != 0 {
        return Err(InvalidArgumentSyntax(CannotGroupMessage(letter)));
      } else if |letters| > 1 {
        skipRemainingLetters := true;
        options := options + [CommandLineOption(d, StringValue(letters[1..]))];
      } else {
        var value := it.Next();
        if value.None? {
          return Err(MissingValue(['-', letter]));
        }
        options := options + [CommandLineOption(d, StringValue(value.value))];
      }
    }
    r := Ok(options);
  }

  /// `parse` as the source writes it: a recursive method reading the shared
  /// iterator.
  method Parse(it: ArgumentIterator, defs: seq<OptionDefinition>,
               accOptions: seq<CommandLineOption>, accArguments: seq<string>)
    returns (r: Result<Parsed, ParseError>)
    modifies it
    decreases |it.remaining|
    ensures r == ParseArguments(old(it.remaining), defs, accOptions, accArguments)
    ensures r.Ok? ==> it.remaining == []
  {
    var next := it.Next();
    if next.None? {
      return Ok(Parsed(accOptions, accArguments));
    }
    var argument := next.value;
    if IsLongOption(argument) {
      var nameAndValue := NameAndValue(argument[2..]);
      if nameAndValue.Err? {
        return Err(nameAndValue.error);
      }
      var (name, value) := nameAndValue.value;
      var matching := DefinitionNamed(defs, name);
      if matching.None? {
        return Err(UndefinedOption(argument));
      }
      var d := matching.value;
      if d.valueType.NoValueType? {
        if value.Some? {
          return Err(ValueNotAllowed(argument));
        }
        r := Parse(it, defs, Appending(accOptions, CommandLineOption(d, NoValue)), accArguments);
      } else if value.Some? {
        r := Parse(it, defs, Appending(accOptions, CommandLineOption(d, StringValue(value.value))), accArguments);
      } else {
        var following := it.Next();
        if following.None? {
          return Err(MissingValue(argument));
        }
        r := Parse(it, defs, Appending(accOptions, CommandLineOption(d, StringValue(following.value))), accArguments);
      }
    } else if IsShortGroup(argument) {
      var options := ParseShortGroup(it, argument, defs);
      if options.Err? {
        return Err(options.error);
      }
      r := Parse(it, defs, accOptions + options.value, accArguments);
    } else {
      r := Parse(it, defs, accOptions, Appending(accArguments, argument));
    }
  }

  /// `CommandLineParseResult.init`: takes the program name from a fresh
  /// iterator over the arguments, then parses the rest.
  method MakeParseResult(arguments: seq<string>, defs: seq<OptionDefinition>)
    returns (r: Result<ParseResult, ParseError>)
    ensures r == ParseResultOf(arguments, defs)
  {
    var it := new ArgumentIterator(arguments);
    var program := it.Next();
    var parsed := Parse(it, defs, [], []);
    if parsed.Err? {
      return Err(parsed.error);
    }
    r := Ok(ParseResult(arguments, defs, program, parsed.value.options, parsed.value.arguments));
  }

  // ---------------------------------------------------------------------
  // Looking up parsed options
  // ---------------------------------------------------------------------

  /// `option(named:)`: the first parsed option whose definition has that
  /// name.
  function OptionNamed(result: ParseResult, name: string): (r: Option<CommandLineOption>)
    ensures r.None? <==> forall i :: 0 <= i < |result.parsedOptions| ==> result.parsedOptions[i].definition.name != name
    ensures r.Some? ==>
      exists i :: 0 <= i < |result.parsedOptions| && r.value == result.parsedOptions[i]
        && r.value.definition.name == name
        && forall j :: 0 <= j < i ==> result.parsedOptions[j].definition.name != name
  {
    var found := FirstIndex(result.parsedOptions, (o: CommandLineOption) => o.definition.name == name);
    match found
    case None => None
    case Some(i) => Some(result.parsedOptions[i])
  }

  /// `value(optionNamed:)`: the value of that option, if it was given.
  function ValueOf(result: ParseResult, name: string): (r: Option<OptionValue>)
    ensures r.None? <==> OptionNamed(result, name).None?
    ensures r.Some? ==> r.value == OptionNamed(result, name).value.value
  {
    match OptionNamed(result, name)
    case None => None
    case Some(option) => Some(option.value)
  }

  /// `isPresent(optionNamed:)`: whether some parsed option has that name.
  function IsPresent(result: ParseResult, name: string): (r: bool)
    ensures r <==> exists i :: 0 <= i < |result.parsedOptions| && result.parsedOptions[i].definition.name == name
  {
    OptionNamed(result, name).Some?
  }

  // ---------------------------------------------------------------------
  // Help text
  // ---------------------------------------------------------------------

  /// The long form of an option as it is typed: "--name", or "--name=ARG"
  /// for a string option.
  function LongSyntax(d: OptionDefinition): string
  {
    match d.valueType
    case NoValueType => "--" + d.name
    case StringType(argName) => "--" + d.name + "=" + argName
  }

  /// The value the help text's own example gives an option.
  function ExampleValue(d: OptionDefinition): OptionValue
  {
    match d.valueType
    case NoValueType => NoValue
    case StringType(argName) => StringValue(argName)
  }

  /// `helpName`: "-l/--name" for an option with a letter, else "--name";
  /// it ends with the long option as typed.
  function HelpName(d: OptionDefinition): (r: string)
    ensures |r| >= |d.name| + 2 && r[|r| - |d.name| - 2..] == "--" + d.name
    ensures d.letter.Some? <==> |r| == |d.name| + 5
    ensures d.letter.Some? ==> r[..3] == ['-', d.letter.value, '/']
  {
    match d.letter
    case Some(letter) => ['-', letter, '/'] + "--" + d.name
    case None => "--" + d.name
  }

  /// `helpSyntax` as written: without a letter it shows "=-name" or
  /// "=-name=ARG", a text the parser reads as a plain argument.
  function HelpSyntaxAsWritten(d: OptionDefinition): string
  {
    match d.valueType
    case NoValueType =>
      if d.letter.Some? then ['-', d.letter.value] + ", --" + d.name
      else "=-" + d.name
    case StringType(argName) =>
      if d.letter.Some? then ['-', d.letter.value, ' '] + argName + ", --" + d.name + "=" + argName
      else "=-" + d.name + "=" + argName
  }

  /// `helpSyntax` as its documentation describes it: "-o, --option" or
  /// "-o ARG, --option=ARG", and just the long form without a letter.
  function HelpSyntax(d: OptionDefinition): (r: string)
    ensures |r| >= |LongSyntax(d)| && r[|r| - |LongSyntax(d)|..] == LongSyntax(d)
    ensures d.letter.None? ==> r == LongSyntax(d)
    ensures d.letter.Some? ==> r[..2] == ['-', d.letter.value]
  {
    var long := LongSyntax(d);
    if d.letter.None? then long
    else
      var prefix := match d.valueType
        case NoValueType => ['-', d.letter.value] + ", "
        case StringType(argName) => ['-', d.letter.value, ' '] + argName + ", ";
      assert prefix[..2] == ['-', d.letter.value];
      SplitAppend(prefix, long);
      prefix + long
  }

  /// The two halves of a concatenation are recovered by slicing it. A proof
  /// aid with no Swift counterpart, used by `HelpSyntax` for its suffix.
  lemma SplitAppend(a: string, b: string)
    ensures (a + b)[..|a|] == a && (a + b)[|a|..] == b
  {
  }

  /// With a letter, the documented help text is what `helpSyntax` writes.
  lemma HelpSyntaxWithLetter(d: OptionDefinition)
    requires d.letter.Some?
    ensures HelpSyntax(d) == HelpSyntaxAsWritten(d)
  {
    var l := d.letter.value;
    match d.valueType
    case NoValueType =>
      assert ['-', l] + ", " + ("--" + d.name) == ['-', l] + ", --" + d.name;
    case StringType(argName) =>
      assert ['-', l, ' '] + argName + ", " + ("--" + d.name + "=" + argName)
        == ['-', l, ' '] + argName + ", --" + d.name + "=" + argName;
  }

  // ---------------------------------------------------------------------
  // Properties of the parser
  // ---------------------------------------------------------------------

  /// A parsed option carries a value exactly when its definition takes one.
  predicate KindMatches(o: CommandLineOption)
  {
    o.value.NoValue? <==> o.definition.valueType.NoValueType?
  }

  /// Every option is one of the definitions, with a value of its kind.
  predicate Recognised(defs: seq<OptionDefinition>, options: seq<CommandLineOption>)
  {
    forall i :: 0 <= i < |options| ==> options[i].definition in defs && KindMatches(options[i])
  }

  /// Adding a recognised option keeps the options recognised.
  lemma RecognisedAppend(defs: seq<OptionDefinition>, options: seq<CommandLineOption>, o: CommandLineOption)
    requires Recognised(defs, options) && o.definition in defs && KindMatches(o)
    ensures Recognised(defs, options + [o])
  {
  }

  /// A short group only adds recognised options.
  lemma {:induction false} ShortGroupRecognised(argument: string, letters: string, n: nat, defs: seq<OptionDefinition>,
                                                rest: seq<string>, options: seq<CommandLineOption>)
    requires n <= |letters|
    requires Recognised(defs, options)
    ensures ShortGroup(argument, letters, n, defs, rest, options).Ok? ==>
      Recognised(defs, ShortGroup(argument, letters, n, defs, rest, options).value.0)
    decreases |letters| - n
  {
    if n < |letters| && DefinitionLettered(defs, letters[n]).Some? {
      var d := DefinitionLettered(defs, letters[n]).value;
      if d.valueType.NoValueType? {
        ShortGroupRecognisedStep(argument, letters, n, defs, rest, options, rest, CommandLineOption(d, NoValue));
      } else if n == 0 && |letters| == 1 && |rest| > 0 {
        ShortGroupRecognisedStep(argument, letters, n, defs, rest, options, rest[1..], CommandLineOption(d, StringValue(rest[0])));
      } else if n == 0 && |letters| > 1 {
        RecognisedAppend(defs, options, CommandLineOption(d, StringValue(letters[1..])));
      }
    }
  }

  /// One step of `ShortGroupRecognised`: the group goes on from the next
  /// letter with one more recognised option.
  lemma {:induction false} ShortGroupRecognisedStep(argument: string, letters: string, n: nat, defs: seq<OptionDefinition>,
                                                    rest: seq<string>, options: seq<CommandLineOption>,
                                                    remaining: seq<string>, o: CommandLineOption)
    requires n < |letters| && Recognised(defs, options)
    requires o.definition in defs && KindMatches(o)
    requires ShortGroup(argument, letters, n, defs, rest, options) == ShortGroup(argument, letters, n + 1, defs, remaining, options + [o])
    ensures ShortGroup(argument, letters, n, defs, rest, options).Ok? ==>
      Recognised(defs, ShortGroup(argument, letters, n, defs, rest, options).value.0)
    decreases |letters| - n, 0
  {
    RecognisedAppend(defs, options, o);
    ShortGroupRecognised(argument, letters, n + 1, defs, remaining, options + [o]);
  }

  /// What `ParseExtends` states about one call.
  ghost predicate Extends(args: seq<string>, defs: seq<OptionDefinition>,
                          accOptions: seq<CommandLineOption>, accArguments: seq<string>, r: Result<Parsed, ParseError>)
  {
    r.Ok? ==>
      accOptions <= r.value.options && accArguments <= r.value.arguments
      && Recognised(defs, r.value.options)
      && forall i :: |accArguments| <= i < |r.value.arguments| ==> r.value.arguments[i] in args
  }

  /// Parsing only ever appends: the accumulated options and arguments are
  /// prefixes of the result, every option added is a recognised one, and
  /// every plain argument added was one of the arguments read.
  lemma {:induction false} ParseExtends(args: seq<string>, defs: seq<OptionDefinition>,
                                        accOptions: seq<CommandLineOption>, accArguments: seq<string>)
    requires Recognised(defs, accOptions)
    ensures Extends(args, defs, accOptions, accArguments, ParseArguments(args, defs, accOptions, accArguments))
    decreases |args|
  {
    if |args| > 0 {
      var argument := args[0];
      if IsLongOption(argument) {
        ParseExtendsLong(args, defs, accOptions, accArguments);
      } else if IsShortGroup(argument) {
        var group := ShortGroup(argument, argument[1..], 0, defs, args[1..], []);
        ShortGroupRecognised(argument, argument[1..], 0, defs, args[1..], []);
        if group.Ok? {
          var (options, remaining) := group.value;
          assert Recognised(defs, accOptions + options);
          ParseExtends(remaining, defs, accOptions + options, accArguments);
          assert forall x :: x in remaining ==> x in args;
        }
      } else {
        ParseExtends(args[1..], defs, accOptions, Appending(accArguments, argument));
      }
    }
  }

  /// The long-option case of `ParseExtends`.
  lemma {:induction false} ParseExtendsLong(args: seq<string>, defs: seq<OptionDefinition>,
                                            accOptions: seq<CommandLineOption>, accArguments: seq<string>)
    requires |args| > 0 && IsLongOption(args[0])
    requires Recognised(defs, accOptions)
    ensures Extends(args, defs, accOptions, accArguments, ParseArguments(args, defs, accOptions, accArguments))
    decreases |args|, 0
  {
    var rest := args[1..];
    var nv := NameAndValue(args[0][2..]);
    if nv.Ok? {
      var (name, value) := nv.value;
      var found := DefinitionNamed(defs, name);
      if found.Some? {
        var d := found.value;
        if d.valueType.NoValueType? {
          if value.None? {
            RecognisedAppend(defs, accOptions, CommandLineOption(d, NoValue));
            ParseExtends(rest, defs, Appending(accOptions, CommandLineOption(d, NoValue)), accArguments);
          }
        } else if value.Some? {
          RecognisedAppend(defs, accOptions, CommandLineOption(d, StringValue(value.value)));
          ParseExtends(rest, defs, Appending(accOptions, CommandLineOption(d, StringValue(value.value))), accArguments);
        } else if |rest| > 0 {
          RecognisedAppend(defs, accOptions, CommandLineOption(d, StringValue(rest[0])));
          ParseExtends(rest[1..], defs, Appending(accOptions, CommandLineOption(d, StringValue(rest[0]))), accArguments);
        }
      }
    }
  }

  /// Arguments that do not start with '-' followed by something are kept
  /// as plain arguments, all of them, in order.
  lemma {:induction false} PlainArgumentsInOrder(args: seq<string>, defs: seq<OptionDefinition>,
                                                 accOptions: seq<CommandLineOption>, accArguments: seq<string>)
    requires forall i :: 0 <= i < |args| ==> !IsShortGroup(args[i])
    ensures ParseArguments(args, defs, accOptions, accArguments) == Ok(Parsed(accOptions, accArguments + args))
    decreases |args|
  {
    if |args| > 0 {
      PlainStep(args, defs, accOptions, accArguments);
      PlainArgumentsInOrder(args[1..], defs, accOptions, accArguments + [args[0]]);
      AppendAssociates(accArguments, [args[0]], args[1..]);
      assert [args[0]] + args[1..] == args;
    } else {
      assert accArguments + args == accArguments;
    }
  }

  /// An argument that does not start with '-' is kept as a plain argument.
  lemma PlainStep(args: seq<string>, defs: seq<OptionDefinition>,
                  accOptions: seq<CommandLineOption>, accArguments: seq<string>)
    requires |args| > 0 && !IsShortGroup(args[0])
    ensures ParseArguments(args, defs, accOptions, accArguments)
         == ParseArguments(args[1..], defs, accOptions, accArguments + [args[0]])
  {
    assert !IsLongOption(args[0]) by {
      if |args[0]| > 2 {
        assert args[0][0] == args[0][..2][0];
      }
    }
  }

  /// A lone "-" is a plain argument.
  lemma LoneDash(rest: seq<string>, defs: seq<OptionDefinition>,
                 accOptions: seq<CommandLineOption>, accArguments: seq<string>)
    ensures ParseArguments(["-"] + rest, defs, accOptions, accArguments)
         == ParseArguments(rest, defs, accOptions, accArguments + ["-"])
  {
    assert (["-"] + rest)[1..] == rest;
  }

  /// A lone "--" is not a long option: it is a short group holding the
  /// letter '-', so it is rejected unless some option has '-' as its letter.
  lemma DoubleDash(rest: seq<string>, defs: seq<OptionDefinition>,
                   accOptions: seq<CommandLineOption>, accArguments: seq<string>)
    requires forall i :: 0 <= i < |defs| ==> defs[i].letter != Some('-')
    ensures ParseArguments(["--"] + rest, defs, accOptions, accArguments) == Err(UndefinedOption("--"))
  {
    assert !IsLongOption("--") && IsShortGroup("--");
    assert "--"[1..] == "-";
    assert DefinitionLettered(defs, '-') == None;
  }

  /// "--name" and "--name=value" are long options carrying the text after
  /// the dashes.
  lemma LongArguments(name: string, value: string)
    requires |name| >= 1
    ensures IsLongOption("--" + name) && ("--" + name)[2..] == name
    ensures IsLongOption("--" + name + "=" + value) && ("--" + name + "=" + value)[2..] == name + "=" + value
  {
    assert ("--" + name)[..2] == "--";
    assert ("--" + name + "=" + value)[..2] == "--";
  }

  /// Long options, written "--name" or "--name=value" with a name free of
  /// '=': an unknown name is rejected, whichever way it is written.
  lemma LongUndefined(name: string, value: string, rest: seq<string>, defs: seq<OptionDefinition>,
                      accOptions: seq<CommandLineOption>, accArguments: seq<string>)
    requires |name| >= 1 && '=' !in name && '=' !in value
    requires DefinitionNamed(defs, name).None?
    ensures ParseArguments(["--" + name] + rest, defs, accOptions, accArguments) == Err(UndefinedOption("--" + name))
    ensures ParseArguments(["--" + name + "=" + value] + rest, defs, accOptions, accArguments)
         == Err(UndefinedOption("--" + name + "=" + value))
  {
    NameAndValueRoundTrip(name, value);
    LongArguments(name, value);
  }

  /// A flag given as "--name" is added as an option; given a value with
  /// "--name=value" it is rejected.
  lemma LongFlag(name: string, value: string, rest: seq<string>, defs: seq<OptionDefinition>,
                 accOptions: seq<CommandLineOption>, accArguments: seq<string>)
    requires |name| >= 1 && '=' !in name && '=' !in value
    requires DefinitionNamed(defs, name).Some? && DefinitionNamed(defs, name).value.valueType.NoValueType?
    ensures ParseArguments(["--" + name] + rest, defs, accOptions, accArguments)
         == ParseArguments(rest, defs, accOptions + [CommandLineOption(DefinitionNamed(defs, name).value, NoValue)], accArguments)
    ensures ParseArguments(["--" + name + "=" + value] + rest, defs, accOptions, accArguments)
         == Err(ValueNotAllowed("--" + name + "=" + value))
  {
    NameAndValueRoundTrip(name, value);
    LongArguments(name, value);
    assert (["--" + name] + rest)[1..] == rest;
  }

  /// A string option takes the value after '='.
  lemma LongStringInline(name: string, value: string, rest: seq<string>, defs: seq<OptionDefinition>,
                         accOptions: seq<CommandLineOption>, accArguments: seq<string>)
    requires |name| >= 1 && '=' !in name && '=' !in value
    requires DefinitionNamed(defs, name).Some? && DefinitionNamed(defs, name).value.valueType.StringType?
    ensures ParseArguments(["--" + name + "=" + value] + rest, defs, accOptions, accArguments)
         == ParseArguments(rest, defs, accOptions + [CommandLineOption(DefinitionNamed(defs, name).value, StringValue(value))], accArguments)
  {
    NameAndValueRoundTrip(name, value);
    LongArguments(name, value);
    assert (["--" + name + "=" + value] + rest)[1..] == rest;
  }

  /// A string option written without '=' takes the next argument as its
  /// value, and is rejected when there is none.
  lemma LongStringNext(name: string, value: string, rest: seq<string>, defs: seq<OptionDefinition>,
                       accOptions: seq<CommandLineOption>, accArguments: seq<string>)
    requires |name| >= 1 && '=' !in name
    requires DefinitionNamed(defs, name).Some? && DefinitionNamed(defs, name).value.valueType.StringType?
    ensures ParseArguments(["--" + name, value] + rest, defs, accOptions, accArguments)
         == ParseArguments(rest, defs, accOptions + [CommandLineOption(DefinitionNamed(defs, name).value, StringValue(value))], accArguments)
    ensures ParseArguments(["--" + name], defs, accOptions, accArguments) == Err(MissingValue("--" + name))
  {
    NameAndValueRoundTrip(name, "");
    LongArguments(name, "");
    assert (["--" + name, value] + rest)[1..] == [value] + rest;
    assert ([value] + rest)[1..] == rest;
  }

  /// A letter whose first definition is a flag.
  predicate IsFlag(defs: seq<OptionDefinition>, letter: char)
  {
    DefinitionLettered(defs, letter).Some? && DefinitionLettered(defs, letter).value.valueType.NoValueType?
  }

  /// The definition a flag letter stands for.
  function FlagDefinition(defs: seq<OptionDefinition>, letter: char): OptionDefinition
    requires IsFlag(defs, letter)
  {
    DefinitionLettered(defs, letter).value
  }

  /// The options a run of flag letters stands for, one per letter.
  function FlagOptions(defs: seq<OptionDefinition>, letters: string): (r: seq<CommandLineOption>)
    requires forall i :: 0 <= i < |letters| ==> IsFlag(defs, letters[i])
    ensures |r| == |letters|
    ensures forall i :: 0 <= i < |letters| ==> r[i] == CommandLineOption(FlagDefinition(defs, letters[i]), NoValue)
  {
    if |letters| == 0 then []
    else [CommandLineOption(FlagDefinition(defs, letters[0]), NoValue)] + FlagOptions(defs, letters[1..])
  }

  /// A run of flag letters `letters[n..k]` adds one option per letter and
  /// reads nothing from the arguments.
  lemma {:induction false} ShortGroupFlags(argument: string, letters: string, n: nat, k: nat, defs: seq<OptionDefinition>,
                                           rest: seq<string>, options: seq<CommandLineOption>)
    requires n <= k <= |letters|
    requires forall i :: n <= i < k ==> IsFlag(defs, letters[i])
    ensures ShortGroup(argument, letters, n, defs, rest, options)
         == ShortGroup(argument, letters, k, defs, rest, options + FlagOptions(defs, letters[n..k]))
    decreases k - n
  {
    if n == k {
      assert options + FlagOptions(defs, letters[n..k]) == options;
    } else {
      var o := CommandLineOption(FlagDefinition(defs, letters[n]), NoValue);
      assert ShortGroup(argument, letters, n, defs, rest, options)
          == ShortGroup(argument, letters, n + 1, defs, rest, options + [o]);
      ShortGroupFlags(argument, letters, n + 1, k, defs, rest, options + [o]);
      assert letters[n..k][1..] == letters[n + 1..k];
      var tail := FlagOptions(defs, letters[n + 1..k]);
      assert FlagOptions(defs, letters[n..k]) == [o] + tail;
      AppendAssociates(options, [o], tail);
    }
  }

  /// The flags at the front of a group, `argument[1..k]`, are read as
  /// one option each before the letter at `k` is looked at.
  lemma ShortGroupPrefix(argument: string, k: nat, defs: seq<OptionDefinition>, rest: seq<string>)
    requires IsShortGroup(argument) && 1 <= k <= |argument|
    requires forall i :: 1 <= i < k ==> IsFlag(defs, argument[i])
    ensures forall i :: 0 <= i < k - 1 ==> IsFlag(defs, argument[1..][i])
    ensures ShortGroup(argument, argument[1..], 0, defs, rest, [])
         == ShortGroup(argument, argument[1..], k - 1, defs, rest, FlagOptions(defs, argument[1..k]))
  {
    var letters := argument[1..];
    var flags := argument[1..k];
    assert flags == letters[0..k - 1];
    assert forall i :: 0 <= i < k - 1 ==> letters[i] == argument[i + 1];
    ShortGroupFlags(argument, letters, 0, k - 1, defs, rest, []);
    var options := FlagOptions(defs, flags);
    assert [] + options == options;
  }

  /// Short groups, "-abc": a group of flags gives one option per letter,
  /// and reads no further argument.
  lemma ShortFlagGroup(argument: string, defs: seq<OptionDefinition>, rest: seq<string>)
    requires IsShortGroup(argument)
    requires forall i :: 1 <= i < |argument| ==> IsFlag(defs, argument[i])
    ensures forall i :: 0 <= i < |argument| - 1 ==> IsFlag(defs, argument[1..][i])
    ensures ShortGroup(argument, argument[1..], 0, defs, rest, []) == Ok((FlagOptions(defs, argument[1..]), rest))
  {
    ShortGroupPrefix(argument, |argument|, defs, rest);
    assert argument[1..|argument|] == argument[1..];
  }

  /// After flags, an unknown letter rejects the whole argument.
  lemma ShortUnknownLetter(argument: string, k: nat, defs: seq<OptionDefinition>, rest: seq<string>)
    requires IsShortGroup(argument) && 1 <= k < |argument|
    requires forall i :: 1 <= i < k ==> IsFlag(defs, argument[i])
    requires DefinitionLettered(defs, argument[k]).None?
    ensures ShortGroup(argument, argument[1..], 0, defs, rest, []) == Err(UndefinedOption(argument))
  {
    ShortGroupPrefix(argument, k, defs, rest);
    assert argument[1..][k - 1] == argument[k];
  }

  /// After flags, a string-valued letter is rejected because it is not
  /// first in its group.
  lemma ShortLateString(argument: string, k: nat, defs: seq<OptionDefinition>, rest: seq<string>)
    requires IsShortGroup(argument) && 2 <= k < |argument|
    requires forall i :: 1 <= i < k ==> IsFlag(defs, argument[i])
    requires DefinitionLettered(defs, argument[k]).Some?
    requires DefinitionLettered(defs, argument[k]).value.valueType.StringType?
    ensures ShortGroup(argument, argument[1..], 0, defs, rest, []) == Err(InvalidArgumentSyntax(CannotGroupMessage(argument[k])))
  {
    ShortGroupPrefix(argument, k, defs, rest);
    assert argument[1..][k - 1] == argument[k];
  }

  /// A string-valued letter first in its group takes the rest of the group
  /// as its value ("-oVALUE"); alone it takes the next argument ("-o
  /// VALUE"), and is rejected when there is none.
  lemma ShortStringOption(letter: char, value: string, rest: seq<string>, defs: seq<OptionDefinition>)
    requires DefinitionLettered(defs, letter).Some? && DefinitionLettered(defs, letter).value.valueType.StringType?
    ensures |value| >= 1 ==>
      ShortGroup(['-', letter] + value, [letter] + value, 0, defs, rest, [])
        == Ok(([CommandLineOption(DefinitionLettered(defs, letter).value, StringValue(value))], rest))
    ensures |rest| >= 1 ==>
      ShortGroup(['-', letter], [letter], 0, defs, rest, [])
        == Ok(([CommandLineOption(DefinitionLettered(defs, letter).value, StringValue(rest[0]))], rest[1..]))
    ensures ShortGroup(['-', letter], [letter], 0, defs, [], []) == Err(MissingValue(['-', letter]))
  {
    var o := CommandLineOption(DefinitionLettered(defs, letter).value, StringValue(value));
    assert [] + [o] == [o];
    assert ([letter] + value)[0] == letter && ([letter] + value)[1..] == value;
    if |rest| >= 1 {
      var next := CommandLineOption(DefinitionLettered(defs, letter).value, StringValue(rest[0]));
      assert [] + [next] == [next];
      assert ShortGroup(['-', letter], [letter], 0, defs, rest, [])
          == ShortGroup(['-', letter], [letter], 1, defs, rest[1..], [next]);
    }
  }

  /// The program name is the first argument, never parsed as an option; the
  /// parsed options are recognised ones and the plain arguments come from
  /// the arguments after the first.
  lemma ProgramIsFirstArgument(program: string, rest: seq<string>, defs: seq<OptionDefinition>)
    ensures ParseResultOf([], defs) == Ok(ParseResult([], defs, None, [], []))
    ensures ParseResultOf([program] + rest, defs).Ok? <==> ParseArguments(rest, defs, [], []).Ok?
    ensures ParseResultOf([program] + rest, defs).Ok? ==>
      var result := ParseResultOf([program] + rest, defs).value;
      result.program == Some(program)
      && Recognised(defs, result.parsedOptions)
      && forall i :: 0 <= i < |result.parsedArguments| ==> result.parsedArguments[i] in rest
  {
    assert ([program] + rest)[1..] == rest;
    ParseExtends(rest, defs, [], []);
  }

  // ---------------------------------------------------------------------
  // Help text and the parser
  // ---------------------------------------------------------------------

  /// The arguments the short form of the help text shows after the letter.
  function ExampleArguments(d: OptionDefinition): seq<string>
  {
    match d.valueType
    case NoValueType => []
    case StringType(argName) => [argName]
  }

  /// The long form the help text shows is parsed back to its own option,
  /// with the value the help text names.
  lemma LongSyntaxParses(d: OptionDefinition, defs: seq<OptionDefinition>, rest: seq<string>,
                         accOptions: seq<CommandLineOption>, accArguments: seq<string>)
    requires DefinitionNamed(defs, d.name) == Some(d)
    requires |d.name| >= 1 && '=' !in d.name
    requires d.valueType.StringType? ==> '=' !in d.valueType.argName
    ensures ParseArguments([LongSyntax(d)] + rest, defs, accOptions, accArguments)
         == ParseArguments(rest, defs, accOptions + [CommandLineOption(d, ExampleValue(d))], accArguments)
  {
    match d.valueType
    case NoValueType => LongFlag(d.name, "", rest, defs, accOptions, accArguments);
    case StringType(argName) => LongStringInline(d.name, argName, rest, defs, accOptions, accArguments);
  }

  /// The short form the help text shows, "-l" or "-l ARG", is parsed back
  /// to its own option.
  lemma ShortSyntaxParses(d: OptionDefinition, defs: seq<OptionDefinition>, rest: seq<string>,
                          accOptions: seq<CommandLineOption>, accArguments: seq<string>)
    requires d.letter.Some? && DefinitionLettered(defs, d.letter.value) == Some(d)
    ensures ParseArguments([['-', d.letter.value]] + ExampleArguments(d) + rest, defs, accOptions, accArguments)
         == ParseArguments(rest, defs, accOptions + [CommandLineOption(d, ExampleValue(d))], accArguments)
  {
    var letter := d.letter.value;
    var args := [['-', letter]] + ExampleArguments(d) + rest;
    assert args[0] == ['-', letter] && args[1..] == ExampleArguments(d) + rest;
    assert !IsLongOption(['-', letter]) && IsShortGroup(['-', letter]);
    assert ['-', letter][1..] == [letter];
    match d.valueType
    case NoValueType =>
      var o := CommandLineOption(d, NoValue);
      assert [] + [o] == [o];
      assert ExampleArguments(d) + rest == rest;
      assert ShortGroup(['-', letter], [letter], 0, defs, rest, []) == ShortGroup(['-', letter], [letter], 1, defs, rest, [o]);
    case StringType(argName) =>
      assert args[1..] == [argName] + rest && ([argName] + rest)[1..] == rest;
      ShortStringOption(letter, "", args[1..], defs);
  }

  /// `helpSyntax` as written, for an option without a letter, shows a text
  /// the parser does not read as an option at all: it is kept as a plain
  /// argument.
  lemma HelpSyntaxAsWrittenIsPlain(d: OptionDefinition, defs: seq<OptionDefinition>, rest: seq<string>,
                                   accOptions: seq<CommandLineOption>, accArguments: seq<string>)
    requires d.letter.None?
    ensures ParseArguments([HelpSyntaxAsWritten(d)] + rest, defs, accOptions, accArguments)
         == ParseArguments(rest, defs, accOptions, accArguments + [HelpSyntaxAsWritten(d)])
  {
    var shown := HelpSyntaxAsWritten(d);
    assert shown[0] == '=';
    assert !IsLongOption(shown) by {
      if |shown| > 2 {
        assert shown[..2][0] == '=';
      }
    }
    assert ([shown] + rest)[1..] == rest;
  }

  /// How the help text as written differs from the documented one: with a
  /// letter the two agree; without one, the written text is the long form
  /// with its first dash turned into "=".
  lemma HelpSyntaxAsWrittenDiffers(d: OptionDefinition)
    ensures d.letter.Some? ==> HelpSyntaxAsWritten(d) == HelpSyntax(d)
    ensures d.letter.None? ==>
      var shown := HelpSyntaxAsWritten(d);
      |shown| == |LongSyntax(d)| && shown[0] == '=' && LongSyntax(d)[0] == '-' && shown[1..] == LongSyntax(d)[1..]
  {
  }

  /// An example: the flag "quiet" without a letter is shown as "=-quiet",
  /// which parses as a plain argument; the corrected help text "--quiet",
  /// the same as its `helpName`, parses as the option.
  lemma HelpSyntaxCounterexample()
    ensures
      var d := OptionDefinition("quiet", None, NoValueType, "no output");
      HelpSyntaxAsWritten(d) == "=-quiet"
      && ParseArguments([HelpSyntaxAsWritten(d)], [d], [], []) == Ok(Parsed([], ["=-quiet"]))
      && HelpSyntax(d) == HelpName(d) == "--quiet"
      && ParseArguments([HelpSyntax(d)], [d], [], []) == Ok(Parsed([CommandLineOption(d, NoValue)], []))
  {
    var d := OptionDefinition("quiet", None, NoValueType, "no output");
    var shown := HelpSyntaxAsWritten(d);
    assert shown == "=-quiet";
    HelpSyntaxAsWrittenIsPlain(d, [d], [], [], []);
    assert [shown] + [] == [shown] && [] + [shown] == [shown];
    assert ParseArguments([], [d], [], [shown]) == Ok(Parsed([], [shown]));
    assert DefinitionNamed([d], "quiet") == Some(d);
    var o := CommandLineOption(d, NoValue);
    assert LongSyntax(d) == "--quiet";
    assert HelpName(d) == LongSyntax(d);
    assert [HelpSyntax(d)] + [] == [LongSyntax(d)];
    assert [] + [o] == [o];
    LongSyntaxParses(d, [d], [], [], []);
    assert ParseArguments([], [d], [o], []) == Ok(Parsed([o], []));
  }

  /// For an option without a letter, the corrected help text is exactly
  /// the long form, and so is parsed back to the option.
  lemma HelpSyntaxParses(d: OptionDefinition, defs: seq<OptionDefinition>, rest: seq<string>)
    requires d.letter.None? && DefinitionNamed(defs, d.name) == Some(d)
    requires |d.name| >= 1 && '=' !in d.name
    requires d.valueType.StringType? ==> '=' !in d.valueType.argName
    ensures ParseArguments([HelpSyntax(d)] + rest, defs, [], [])
         == ParseArguments(rest, defs, [CommandLineOption(d, ExampleValue(d))], [])
  {
    var option := CommandLineOption(d, ExampleValue(d));
    assert [HelpSyntax(d)] + rest == [LongSyntax(d)] + rest;
    assert [] + [option] == [option];
    LongSyntaxParses(d, defs, rest, [], []);
  }
}
