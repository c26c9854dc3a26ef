/** `parse_command_line` of command_line.cpp: the options and the two positional
    parameters of the estimator program.

    The arguments are read from `argv[1]` on.  `--method`, `--averaging` and `--step`
    take one, one and two values; any other argument is a positional parameter: the
    first is α, the second N, and the others are ignored.  Every rejected value ends the
    parse with an error message.  `std::stod` and `std::stoi` are outside the model: they
    are the two partial conversions of `Conversions`, and a conversion that throws is
    `None`, which the source turns into −1. */
module CommandLine {
  import opened Wrappers
  import Estimate

  /** `enum class method`. */
  datatype Method = StochasticGradient | ImportanceSampling

  /** `command_line_args`; α < 0 and N < 0 mean "not given yet", and `estimator` is the
      field `method`, a keyword in Dafny. */
  datatype Args = Args(alpha: real, n: int, estimator: Method, averaging: Estimate.AveragingMode,
                       exponent: real, offset: real)

  /** The initial values of `command_line_args`. */
  const Defaults: Args := Args(-1.0, -1, StochasticGradient, Estimate.No, 1.0, 0.0)

  /** `std::stod` and `std::stoi` on one argument. */
  datatype Conversions = Conversions(stod: string -> Option<real>, stoi: string -> Option<int>)

  /** A conversion as the source writes it: the value, or −1 when the conversion throws. */
  function ToReal(conv: Conversions, s: string): real
  {
    match conv.stod(s)
    case Some(x) => x
    case None => -1.0
  }

  function ToInt(conv: Conversions, s: string): int
  {
    match conv.stoi(s)
    case Some(x) => x
    case None => -1
  }

  /** The arguments that take values. */
  predicate IsOption(s: string)
  {
    s == "--method" || s == "--averaging" || s == "--step"
  }

  /** The checks after the loop: α and N must both have been given. */
  function Finish(args: Args): (r: Result<Args>)
    ensures r.Success? <==> args.alpha >= 0.0 && args.n >= 0
    ensures r.Success? ==> r.value == args
  {
    if args.alpha < 0.0 then Failure("missing parameter alpha")
    else if args.n < 0 then Failure("missing parameter N")
    else Success(args)
  }

  /** A positional parameter: the first sets α, the second N, the others change nothing. */
  function Positional(conv: Conversions, option: string, args: Args): (r: Result<Args>)
    ensures r.Success? ==> r.value.(alpha := args.alpha, n := args.n) == args
    ensures args.alpha < 0.0 && r.Success? ==> 0.0 < r.value.alpha < 1.0 && r.value.n == args.n
    ensures args.alpha >= 0.0 && args.n < 0 && r.Success? ==> r.value.n > 100 && r.value.alpha == args.alpha
    ensures args.alpha >= 0.0 && args.n >= 0 ==> r == Success(args)
  {
    if args.alpha < 0.0 then
      var alpha := ToReal(conv, option);
      if alpha <= 0.0 || alpha >= 1.0 then Failure("bad alpha value: " + option)
      else Success(args.(alpha := alpha))
    else if args.n < 0 then
      var n := ToInt(conv, option);
      if n <= 100 then Failure("bad N value: " + option)
      else Success(args.(n := n))
    else Success(args)
  }

  /** What the loop of `parse_command_line` returns from index i on, with the fields set
      so far in `args`. */
  function Loop(argv: seq<string>, conv: Conversions, i: nat, args: Args): (r: Result<Args>)
    ensures r.Success? ==> r.value.alpha >= 0.0 && r.value.n >= 0
    decreases |argv| - i
  {
    if i >= |argv| then Finish(args)
    else
      var option := argv[i];
      if option == "--method" then
        if i + 1 == |argv| then Failure("missing argument for `--method`")
        else
          var value := argv[i + 1];
          if value == "stochastic-gradient" then Loop(argv, conv, i + 2, args.(estimator := StochasticGradient))
          else if value == "importance-sampling" then Loop(argv, conv, i + 2, args.(estimator := ImportanceSampling))
          else Failure("bad method name: " + value)
      else if option == "--averaging" then
        if i + 1 == |argv| then Failure("missing argument for `--averaging`")
        else
          var value := argv[i + 1];
          if value == "yes" then Loop(argv, conv, i + 2, args.(averaging := Estimate.Yes))
          else if value == "no" then Loop(argv, conv, i + 2, args.(averaging := Estimate.No))
          else Failure("bad averaging parameter: " + value)
      else if option == "--step" then
        if i + 1 == |argv| then Failure("missing argument for `--step`")
        else
          var exponent := ToReal(conv, argv[i + 1]);
          if exponent <= 0.0 || exponent > 1.0 then Failure("bad exponent value: " + argv[i + 1])
          else if i + 2 == |argv| then Failure("missing argument for `--step`")
          else
            var offset := ToReal(conv, argv[i + 2]);
            if offset < 0.0 then Failure("bad offset value: " + argv[i + 2])
            else Loop(argv, conv, i + 3, args.(exponent := exponent, offset := offset))
      else
        match Positional(conv, option, args)
        case Failure(e) => Failure(e)
        case Success(next) => Loop(argv, conv, i + 1, next)
  }

  /** The result of `parse_command_line(argc, argv)`.  An accepted command line has α in
      (0, 1), N > 100, an exponent in (0, 1] and an offset >= 0. */
  function Parse(argv: seq<string>, conv: Conversions): (r: Result<Args>)
    ensures r.Success? ==> Accepted(r.value)
  {
    LoopAccepts(argv, conv, 1, Defaults);
    Loop(argv, conv, 1, Defaults)
  }

  /** `parse_command_line(argc, argv)`, with argc = |argv|: the loop over the arguments,
      ending at the first rejected one. */
  method ParseCommandLine(argv: seq<string>, conv: Conversions) returns (r: Result<Args>)
    ensures r == Parse(argv, conv)
  {
    var args := Defaults;
    var i := 1;
    while i < |argv|
      invariant 1 <= i
      invariant Loop(argv, conv, i, args) == Parse(argv, conv)
      decreases |argv| - i
    {
      var option := argv[i];
      if option == "--method" {
        i := i + 1;
        if i == |argv| {
          return Failure("missing argument for `--method`");
        }
        var value := argv[i];
        if value == "stochastic-gradient" {
          args := args.(estimator := StochasticGradient);
        } else if value == "importance-sampling" {
          args := args.(estimator := ImportanceSampling);
        } else {
          return Failure("bad method name: " + value);
        }
      } else if option == "--averaging" {
        i := i + 1;
        if i == |argv| {
          return Failure("missing argument for `--averaging`");
        }
        var value := argv[i];
        if value == "yes" {
          args := args.(averaging := Estimate.Yes);
        } else if value == "no" {
          args := args.(averaging := Estimate.No);
        } else {
          return Failure("bad averaging parameter: " + value);
        }
      } else if option == "--step" {
        i := i + 1;
        if i == |argv| {
          return Failure("missing argument for `--step`");
        }
        var value := argv[i];
        args := args.(exponent := ToReal(conv, value));
        if args.exponent <= 0.0 || args.exponent > 1.0 {
          return Failure("bad exponent value: " + value);
        }
        i := i + 1;
        if i == |argv| {
          return Failure("missing argument for `--step`");
        }
        value := argv[i];
        args := args.(offset := ToReal(conv, value));
        if args.offset < 0.0 {
          return Failure("bad offset value: " + value);
        }
      } else {
        if args.alpha < 0.0 {
          args := args.(alpha := ToReal(conv, option));
          if args.alpha <= 0.0 || args.alpha >= 1.0 {
            return Failure("bad alpha value: " + option);
          }
        } else if args.n < 0 {
          args := args.(n := ToInt(conv, option));
          if args.n <= 100 {
            return Failure("bad N value: " + option);
          }
        }
      }
      i := i + 1;
    }
    if args.alpha < 0.0 {
      return Failure("missing parameter alpha");
    }
    if args.n < 0 {
      return Failure("missing parameter N");
    }
    return Success(args);
  }

  /** The fields of `args` while the loop runs: α and N are either not given yet or
      accepted, and the step parameters always hold accepted values. */
  predicate Partial(args: Args)
  {
    && (args.alpha < 0.0 || 0.0 < args.alpha < 1.0)
    && (args.n < 0 || args.n > 100)
    && 0.0 < args.exponent <= 1.0
    && args.offset >= 0.0
  }

  /** The fields of an accepted command line. */
  predicate Accepted(args: Args)
  {
    && 0.0 < args.alpha < 1.0
    && args.n > 100
    && 0.0 < args.exponent <= 1.0
    && args.offset >= 0.0
  }

  /** From any point of the loop where the fields hold accepted values, a successful
      parse ends with all of them accepted. */
  lemma {:induction false} LoopAccepts(argv: seq<string>, conv: Conversions, i: nat, args: Args)
    requires Partial(args)
    ensures Loop(argv, conv, i, args).Success? ==> Accepted(Loop(argv, conv, i, args).value)
    decreases |argv| - i
  {
    if i < |argv| {
      var option := argv[i];
      if option == "--method" || option == "--averaging" {
        if i + 1 < |argv| {
          var value := argv[i + 1];
          LoopAccepts(argv, conv, i + 2, args.(estimator := StochasticGradient));
          LoopAccepts(argv, conv, i + 2, args.(estimator := ImportanceSampling));
          LoopAccepts(argv, conv, i + 2, args.(averaging := Estimate.Yes));
          LoopAccepts(argv, conv, i + 2, args.(averaging := Estimate.No));
        }
      } else if option == "--step" {
        if i + 2 < |argv| {
          var exponent, offset := ToReal(conv, argv[i + 1]), ToReal(conv, argv[i + 2]);
          if 0.0 < exponent <= 1.0 && offset >= 0.0 {
            LoopAccepts(argv, conv, i + 3, args.(exponent := exponent, offset := offset));
          }
        }
      } else if Positional(conv, option, args).Success? {
        LoopAccepts(argv, conv, i + 1, Positional(conv, option, args).value);
      }
    }
  }

  /** An option given as the last argument has no value: the parse stops there. */
  lemma MissingValue(argv: seq<string>, conv: Conversions, i: nat, args: Args)
    requires i == |argv| - 1 && IsOption(argv[i])
    ensures Loop(argv, conv, i, args) == Failure("missing argument for `" + argv[i] + "`")
  {
  }

  /** Once α and N are given, a further positional argument is skipped: it changes no
      field and the loop moves on to the next argument. */
  lemma ExtraPositionalIgnored(argv: seq<string>, conv: Conversions, i: nat, args: Args)
    requires i < |argv| && !IsOption(argv[i]) && args.alpha >= 0.0 && args.n >= 0
    ensures Loop(argv, conv, i, args) == Loop(argv, conv, i + 1, args)
  {
  }

  /** The loop reads only the arguments from index i on. */
  lemma {:induction false} LoopReadsFrom(argv: seq<string>, other: seq<string>, conv: Conversions, i: nat, args: Args)
    requires |argv| == |other| && i <= |argv| && argv[i..] == other[i..]
    ensures Loop(argv, conv, i, args) == Loop(other, conv, i, args)
    decreases |argv| - i
  {
    if i < |argv| {
      assert argv[i] == argv[i..][0] && other[i] == other[i..][0];
      var option := argv[i];
      if i + 1 < |argv| {
        assert argv[i + 1] == argv[i..][1] && other[i + 1] == other[i..][1];
      }
      if i + 2 < |argv| {
        assert argv[i + 2] == argv[i..][2] && other[i + 2] == other[i..][2];
      }
      forall j | i < j <= |argv|
        ensures argv[j..] == other[j..]
      {
        assert argv[j..] == argv[i..][j - i..] && other[j..] == other[i..][j - i..];
      }
      if IsOption(option) {
        if option == "--step" && i + 3 <= |argv| {
          LoopReadsFrom(argv, other, conv, i + 3,
                        args.(exponent := ToReal(conv, argv[i + 1]), offset := ToReal(conv, argv[i + 2])));
        }
        if i + 2 <= |argv| {
          LoopReadsFrom(argv, other, conv, i + 2, args.(estimator := StochasticGradient));
          LoopReadsFrom(argv, other, conv, i + 2, args.(estimator := ImportanceSampling));
          LoopReadsFrom(argv, other, conv, i + 2, args.(averaging := Estimate.Yes));
          LoopReadsFrom(argv, other, conv, i + 2, args.(averaging := Estimate.No));
        }
      } else if Positional(conv, option, args).Success? {
        LoopReadsFrom(argv, other, conv, i + 1, Positional(conv, option, args).value);
      }
    }
  }

  /** Parsing starts at argv[1]: the program name argv[0] plays no part. */
  lemma ProgramNameIgnored(argv: seq<string>, other: seq<string>, conv: Conversions)
    requires |argv| == |other| >= 1 && argv[1..] == other[1..]
    ensures Parse(argv, conv) == Parse(other, conv)
  {
    LoopReadsFrom(argv, other, conv, 1, Defaults);
  }

  /** With α and N alone, every option keeps its default: stochastic gradient, no
      averaging, exponent 1, offset 0. */
  lemma DefaultsKept(program: string, a: string, n: string, conv: Conversions, alpha: real, count: int)
    requires !IsOption(a) && !IsOption(n)
    requires conv.stod(a) == Some(alpha) && 0.0 < alpha < 1.0
    requires conv.stoi(n) == Some(count) && count > 100
    ensures Parse([program, a, n], conv)
         == Success(Args(alpha, count, StochasticGradient, Estimate.No, 1.0, 0.0))
  {
    var argv := [program, a, n];
    var first := Defaults.(alpha := alpha);
    assert Loop(argv, conv, 1, Defaults) == Loop(argv, conv, 2, first);
    assert Loop(argv, conv, 2, first) == Loop(argv, conv, 3, first.(n := count));
  }

  /** With α alone the parse fails for want of N. */
  lemma NRequired(program: string, a: string, conv: Conversions, alpha: real)
    requires !IsOption(a) && conv.stod(a) == Some(alpha) && 0.0 < alpha < 1.0
    ensures Parse([program, a], conv) == Failure("missing parameter N")
  {
    var argv := [program, a];
    assert Loop(argv, conv, 1, Defaults) == Loop(argv, conv, 2, Defaults.(alpha := alpha));
  }

  /** Without positional arguments the parse fails for want of α. */
  lemma AlphaRequired(program: string, conv: Conversions)
    ensures Parse([program], conv) == Failure("missing parameter alpha")
  {
  }
}
