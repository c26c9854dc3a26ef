/** `command_line_parser` of command_line_parser.hpp/.cpp: a cursor over `argv` that
    hands out at most one handle at a time.

    The parser keeps `count`, the index of the argument under the cursor, and
    `in_handle`, whether a handle is open.  `enter(arg)` opens a handle on argv[count]
    when that argument is `arg`, `dummy()` opens one on whatever argument is there, a
    handle's `next_arg()` moves the cursor on to the value that follows its flag, and the
    handle's destructor moves the cursor past the last argument it read and closes it.

    `Cursor` and the `...Step` functions are the state machine on values; the classes
    `Parser` and `Handle` change their fields as the source does and are proved to follow
    it.  A thrown exception is a `Failure`; `std::logic_error { "error" }` carries the
    message "error".  The destructor is the method `Release`, which the owner of a handle
    calls where the `unique_ptr` would go out of scope. */
module CommandLineParser {
  import opened Wrappers

  /** The two fields of the parser that change: `count` and `in_handle`. */
  datatype Cursor = Cursor(count: int, inHandle: bool)

  /** The state of a new parser. */
  const Start: Cursor := Cursor(0, false)

  /** `finished()`: no argument is left under the cursor. */
  predicate Done(argv: seq<string>, c: Cursor)
  {
    c.count >= |argv|
  }

  /** `enter(arg)`: an error while a handle is open or once the parser is finished;
      otherwise a handle is opened exactly when argv[count] is `arg`, and the cursor does
      not move. */
  function EnterStep(argv: seq<string>, c: Cursor, arg: string): (r: Result<Cursor>)
    requires c.count >= 0
    ensures r.Failure? <==> c.inHandle || Done(argv, c)
    ensures r.Success? ==> r.value.count == c.count && (r.value.inHandle <==> argv[c.count] == arg)
  {
    if c.inHandle || Done(argv, c) then Failure("error")
    else if argv[c.count] == arg then Success(c.(inHandle := true))
    else Success(c)
  }

  /** `dummy()`: a handle on argv[count], whatever it holds. */
  function DummyStep(argv: seq<string>, c: Cursor): (r: Result<Cursor>)
    ensures r.Failure? <==> c.inHandle || Done(argv, c)
    ensures r.Success? ==> r.value.count == c.count && r.value.inHandle
  {
    if c.inHandle || Done(argv, c) then Failure("error")
    else Success(c.(inHandle := true))
  }

  /** `handle::next_arg()` of a handle opened on the flag `name`: the cursor moves on
      first, then the argument under it is the handle's new value, or the call fails when
      there is none. */
  function NextArgStep(argv: seq<string>, c: Cursor, name: string): (r: (Cursor, Result<string>))
    requires c.count >= 0
    ensures r.0 == c.(count := c.count + 1)
    ensures r.1.Success? <==> c.count + 1 < |argv|
    ensures r.1.Success? ==> r.1.value == argv[c.count + 1]
    ensures r.1.Failure? ==> r.1.error == "missing argument for " + name
  {
    var d := c.(count := c.count + 1);
    (d, if Done(argv, d) then Failure("missing argument for " + name) else Success(argv[d.count]))
  }

  /** `dummy_handle::~dummy_handle()`: the cursor moves past the handle's argument and
      the handle is closed. */
  function ReleaseStep(c: Cursor): (r: Cursor)
    ensures r.count == c.count + 1 && !r.inHandle
  {
    Cursor(c.count + 1, false)
  }

  /** k calls of `next_arg()` on a handle opened on the flag `name`, stopping at the
      first that fails: the cursor reached and the values read. */
  function NextArgs(argv: seq<string>, c: Cursor, name: string, k: nat): (Cursor, Result<seq<string>>)
    requires c.count >= 0
    decreases k
  {
    if k == 0 then (c, Success([]))
    else
      var (d, value) := NextArgStep(argv, c, name);
      match value
      case Failure(e) => (d, Failure(e))
      case Success(v) =>
        var (e, rest) := NextArgs(argv, d, name, k - 1);
        (e, if rest.Success? then Success([v] + rest.value) else rest)
  }

  /** k values read after a flag at argv[count] are the k arguments that follow it, and
      the cursor stops on the last of them. */
  lemma {:induction false} NextArgsRead(argv: seq<string>, c: Cursor, name: string, k: nat)
    requires c.count >= 0 && c.count + k < |argv|
    ensures NextArgs(argv, c, name, k).0 == c.(count := c.count + k)
    ensures NextArgs(argv, c, name, k).1 == Success(argv[c.count + 1 .. c.count + k + 1])
    decreases k
  {
    if k > 0 {
      var d := c.(count := c.count + 1);
      assert NextArgStep(argv, c, name) == (d, Success(argv[d.count]));
      NextArgsRead(argv, d, name, k - 1);
      assert argv[c.count + 1 .. c.count + k + 1] == [argv[d.count]] + argv[d.count + 1 .. d.count + k];
    } else {
      assert argv[c.count + 1 .. c.count + 1] == [];
    }
  }

  /** When fewer than k arguments follow the flag, reading k values fails with the
      flag's name, and the cursor stops one past the last argument. */
  lemma {:induction false} NextArgsMissing(argv: seq<string>, c: Cursor, name: string, k: nat)
    requires 0 <= c.count < |argv| <= c.count + k
    ensures NextArgs(argv, c, name, k) == (c.(count := |argv|), Failure("missing argument for " + name))
    decreases k
  {
    var d := c.(count := c.count + 1);
    if d.count < |argv| {
      assert NextArgStep(argv, c, name) == (d, Success(argv[d.count]));
      NextArgsMissing(argv, d, name, k - 1);
    } else {
      assert NextArgStep(argv, c, name) == (d, Failure("missing argument for " + name));
    }
  }

  /** A flag and its k values: `enter` on the flag, k calls of `next_arg` and the
      release of the handle leave the cursor k + 1 arguments further on, with no handle
      open, after reading the k arguments that follow the flag. */
  lemma FlagWithValues(argv: seq<string>, c: Cursor, flag: string, k: nat)
    requires c.count >= 0 && !c.inHandle && c.count + k < |argv| && argv[c.count] == flag
    ensures EnterStep(argv, c, flag) == Success(c.(inHandle := true))
    ensures ReleaseStep(NextArgs(argv, c.(inHandle := true), flag, k).0) == Cursor(c.count + k + 1, false)
    ensures NextArgs(argv, c.(inHandle := true), flag, k).1 == Success(argv[c.count + 1 .. c.count + k + 1])
  {
    NextArgsRead(argv, c.(inHandle := true), flag, k);
  }

  /** `enter` on an argument other than `arg` leaves the parser as it was, so the next
      `enter` or `dummy` looks at the same argument. */
  lemma EnterOtherKeeps(argv: seq<string>, c: Cursor, arg: string)
    requires 0 <= c.count < |argv| && !c.inHandle && argv[c.count] != arg
    ensures EnterStep(argv, c, arg) == Success(c)
    ensures DummyStep(argv, c) == Success(c.(inHandle := true))
  {
  }

  /** Until its handle is released the parser refuses every other handle. */
  lemma OneHandleAtATime(argv: seq<string>, c: Cursor, arg: string, other: string)
    requires c.count >= 0 && EnterStep(argv, c, arg) == Success(c.(inHandle := true))
    ensures EnterStep(argv, c.(inHandle := true), other) == Failure("error")
    ensures DummyStep(argv, c.(inHandle := true)) == Failure("error")
    ensures EnterStep(argv, ReleaseStep(c.(inHandle := true)), other).Success?
        <==> c.count + 1 < |argv|
  {
  }

  /** j rounds of `dummy()` and release from the cursor c. */
  function Skip(argv: seq<string>, c: Cursor, j: nat): Result<Cursor>
    decreases j
  {
    if j == 0 then Success(c)
    else match DummyStep(argv, c)
      case Failure(e) => Failure(e)
      case Success(d) => Skip(argv, ReleaseStep(d), j - 1)
  }

  /** Taking each argument with a dummy handle visits every argument once: from a cursor
      with no handle open, |argv| − count rounds succeed and leave the parser finished,
      one round more fails. */
  lemma {:induction false} SkipToEnd(argv: seq<string>, c: Cursor)
    requires 0 <= c.count <= |argv| && !c.inHandle
    ensures Skip(argv, c, |argv| - c.count) == Success(Cursor(|argv|, false))
    ensures Done(argv, Cursor(|argv|, false))
    ensures Skip(argv, c, |argv| - c.count + 1) == Failure("error")
    decreases |argv| - c.count
  {
    if c.count < |argv| {
      SkipToEnd(argv, Cursor(c.count + 1, false));
    }
  }

  /** The parser object. */
  class Parser {
    const argv: seq<string>
    var count: int
    var inHandle: bool

    /** `count` starts at 0 and only grows. */
    ghost predicate Valid()
      reads this
    {
      count >= 0
    }

    function State(): Cursor
      reads this
    {
      Cursor(count, inHandle)
    }

    /** `command_line_parser(argc, argv)`, with argc = |argv|. */
    constructor(argv: seq<string>)
      ensures this.argv == argv && State() == Start && Valid()
    {
      this.argv := argv;
      count := 0;
      inHandle := false;
    }

    /** `finished()`: true exactly when no argument is left to read. */
    function Finished(): (b: bool)
      reads this
      requires Valid()
      ensures b <==> Done(argv, State())
    {
      count >= |argv|
    }

    /** `enter(arg)`: a handle on argv[count] when it is `arg`, no handle otherwise. */
    method Enter(arg: string) returns (r: Result<Option<Handle>>)
      requires Valid()
      modifies this
      ensures Valid()
      ensures r.Failure? <==> EnterStep(argv, old(State()), arg).Failure?
      ensures EnterStep(argv, old(State()), arg).Failure? ==> r == Failure("error")
      ensures EnterStep(argv, old(State()), arg).Success? ==> State() == EnterStep(argv, old(State()), arg).value
      ensures EnterStep(argv, old(State()), arg).Failure? ==> State() == old(State())
      ensures r.Success? && r.value.None? <==> EnterStep(argv, old(State()), arg) == Success(old(State()))
      ensures EnterStep(argv, old(State()), arg).Success? && EnterStep(argv, old(State()), arg).value != old(State())
        ==> r.Success? && r.value.Some?
      ensures r.Success? && r.value.Some? ==>
        var h := r.value.value;
        fresh(h) && h.parent == this && h.name == Some(arg) && h.val == argv[count] == arg
    {
      if inHandle || Finished() {
        return Failure("error");
      }
      var val := argv[count];
      if val == arg {
        inHandle := true;
        var h := new Handle(this, Some(arg), val);
        return Success(Some(h));
      }
      return Success(None);
    }

    /** `dummy()`: a handle on argv[count], whatever it is. */
    method Dummy() returns (r: Result<Handle>)
      requires Valid()
      modifies this
      ensures Valid()
      ensures r.Failure? <==> DummyStep(argv, old(State())).Failure?
      ensures r.Failure? ==> r == Failure("error") && State() == old(State())
      ensures r.Success? ==>
        && State() == DummyStep(argv, old(State())).value
        && fresh(r.value) && r.value.parent == this && r.value.name == None
        && r.value.val == argv[count]
    {
      if inHandle || Finished() {
        return Failure("error");
      }
      inHandle := true;
      var h := new Handle(this, None, argv[count]);
      return Success(h);
    }
  }

  /** `dummy_handle`, and `handle` when `name` holds the flag it was opened on. */
  class Handle {
    const parent: Parser
    const name: Option<string>
    var val: string

    constructor(parent: Parser, name: Option<string>, val: string)
      ensures this.parent == parent && this.name == name && this.val == val
    {
      this.parent := parent;
      this.name := name;
      this.val := val;
    }

    /** `value()`. */
    function Value(): (v: string)
      reads this
      ensures v == val
    {
      val
    }

    /** `handle::next_arg()`: the cursor moves on, and the handle's value becomes the
        argument under it, or the call fails when the cursor has left `argv`. */
    method NextArg() returns (r: Result<()>)
      requires name.Some? && parent.Valid()
      modifies parent, this
      ensures parent.Valid()
      ensures parent.State() == NextArgStep(parent.argv, old(parent.State()), name.value).0
      ensures r.Success? <==> NextArgStep(parent.argv, old(parent.State()), name.value).1.Success?
      ensures r.Success? ==> val == NextArgStep(parent.argv, old(parent.State()), name.value).1.value
      ensures r.Failure? ==>
        && r.error == NextArgStep(parent.argv, old(parent.State()), name.value).1.error
        && val == old(val)
    {
      parent.count := parent.count + 1;
      if parent.count >= |parent.argv| {
        return Failure("missing argument for " + name.value);
      }
      val := parent.argv[parent.count];
      return Success(());
    }

    /** `dummy_handle::~dummy_handle()`. */
    method Release()
      requires parent.Valid()
      modifies parent
      ensures parent.Valid()
      ensures parent.State() == ReleaseStep(old(parent.State()))
    {
      parent.count := parent.count + 1;
      parent.inHandle := false;
    }
  }
}
