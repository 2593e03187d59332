// The text of a command line kept for a job: strapp and mkcommand.
module Command {
  import opened Options

  // The words of one stage, separated by single spaces.
  function Spaced(argv: seq<string>): string {
    if argv == [] then ""
    else if |argv| == 1 then argv[0]
    else argv[0] + " " + Spaced(argv[1..])
  }

  function Extended(command: Option<string>, argv: seq<string>): string {
    (if command.Some? then command.value + " | " else "") + Spaced(argv)
  }

  // The text built up by one call of mkcommand for each stage.
  function CommandText(stages: seq<seq<string>>): Option<string> {
    if stages == [] then None
    else Some(Extended(CommandText(stages[..|stages| - 1]), stages[|stages| - 1]))
  }

  // strapp on a string that may not exist yet
  method Append(dst: Option<string>, src: string) returns (r: Option<string>)
    ensures r == Some(if dst.None? then src else dst.value + src)
  {
    if dst.None? {
      r := Some(src);
    } else {
      r := Some(dst.value + src);
    }
  }

  lemma {:induction false} SpacedLast(argv: seq<string>, w: string)
    requires argv != []
    ensures Spaced(argv + [w]) == Spaced(argv) + " " + w
  {
    if |argv| == 1 {
      assert (argv + [w])[1..] == [w];
    } else {
      SpacedLast(argv[1..], w);
      assert (argv + [w])[1..] == argv[1..] + [w];
    }
  }

  lemma {:induction false} SpacedStep(start: string, argv: seq<string>, i: nat)
    requires 0 < i < |argv|
    ensures start + Spaced(argv[..i]) + " " + argv[i] == start + Spaced(argv[..i + 1])
  {
    SpacedLast(argv[..i], argv[i]);
    assert argv[..i + 1] == argv[..i] + [argv[i]];
    assert start + (Spaced(argv[..i]) + " " + argv[i]) == start + Spaced(argv[..i]) + " " + argv[i];
  }

  method MkCommand(command: Option<string>, argv: seq<string>) returns (r: Option<string>)
    requires argv != []
    ensures r == Some(Extended(command, argv))
  {
    r := command;
    if r.Some? {
      r := Append(r, " | ");
    }
    ghost var start := if r.Some? then r.value else "";
    r := Append(r, argv[0]);
    assert argv[..1] == [argv[0]] && "" + argv[0] == argv[0];
    var i := 1;
    while i < |argv|
      invariant 1 <= i <= |argv|
      invariant r == Some(start + Spaced(argv[..i]))
    {
      SpacedStep(start, argv, i);
      r := Append(r, " ");
      r := Append(r, argv[i]);
      i := i + 1;
    }
    assert argv[..i] == argv;
  }
}
