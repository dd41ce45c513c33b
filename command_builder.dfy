/**
 * The command builder used to assemble the `docker run` invocation
 * (aztk/utils/command_builder.py). Only its accumulated state is modelled:
 * a base command, the ordered (flag, value) option pairs and an optional
 * trailing argument. How `to_str` renders that state as text is not part of
 * this model; callers receive it as a function over `Command`.
 */
module CommandBuilding {
  import opened Wrappers

  /** One `add_option(flag, value)` call. */
  type CommandOption = (string, string)

  /** Everything a builder has accumulated, as a value. */
  datatype Command = Command(base: string, options: seq<CommandOption>, argument: Option<string>)

  class CommandBuilder {
    var base: string
    var options: seq<CommandOption>
    var argument: Option<string>

    /** `CommandBuilder(executable)`: nothing accumulated yet. */
    constructor (executable: string)
      ensures base == executable && options == [] && argument == None
    {
      base := executable;
      options := [];
      argument := None;
    }

    /** Appends one option pair; the value is kept verbatim, without escaping. */
    method AddOption(flag: string, value: string)
      modifies this
      ensures options == old(options) + [(flag, value)]
      ensures base == old(base) && argument == old(argument)
    {
      options := options + [(flag, value)];
    }

    /** Sets the trailing positional argument, rendered after every option. */
    method AddArgument(value: string)
      modifies this
      ensures argument == Some(value)
      ensures base == old(base) && options == old(options)
    {
      argument := Some(value);
    }

    /** The builder's current state as a value. */
    function Snapshot(): Command
      reads this
    {
      Command(base, options, argument)
    }
  }

  /** The values given with `flag`, in the order they were added. */
  function FlagValues(options: seq<CommandOption>, flag: string): (vs: seq<string>)
    ensures |vs| <= |options|
  {
    if options == [] then []
    else (if options[0].0 == flag then [options[0].1] else []) + FlagValues(options[1..], flag)
  }

  /** How many times `flag` occurs among the options. */
  function CountFlag(options: seq<CommandOption>, flag: string): nat
  {
    |FlagValues(options, flag)|
  }

  /** Selecting by flag distributes over concatenation of option lists. */
  lemma {:induction false} FlagValuesAppend(a: seq<CommandOption>, b: seq<CommandOption>, flag: string)
    ensures FlagValues(a + b, flag) == FlagValues(a, flag) + FlagValues(b, flag)
  {
    if a == [] {
      assert a + b == b;
    } else {
      var head := if a[0].0 == flag then [a[0].1] else [];
      assert (a + b)[0] == a[0] && (a + b)[1..] == a[1..] + b;
      FlagValuesAppend(a[1..], b, flag);
      assert FlagValues(a + b, flag) == head + (FlagValues(a[1..], flag) + FlagValues(b, flag));
    }
  }

  /** An option list in which `flag` never occurs contributes no values for it. */
  lemma {:induction false} FlagValuesAbsent(options: seq<CommandOption>, flag: string)
    requires forall k :: 0 <= k < |options| ==> options[k].0 != flag
    ensures FlagValues(options, flag) == []
  {
    if options != [] {
      FlagValuesAbsent(options[1..], flag);
    }
  }

  /** An option list made only of `flag` contributes all its values, in order. */
  lemma {:induction false} FlagValuesUniform(options: seq<CommandOption>, flag: string)
    requires forall k :: 0 <= k < |options| ==> options[k].0 == flag
    ensures FlagValues(options, flag) == seq(|options|, k requires 0 <= k < |options| => options[k].1)
  {
    if options != [] {
      FlagValuesUniform(options[1..], flag);
    }
  }
}
