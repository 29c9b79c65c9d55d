/**
 * The dumper's argument parser: `-h` asks for the usage text and exit status 1,
 * `-v` turns on verbose output, every other argument names an input file, and an
 * empty file list is a usage error. The arguments are argv[1..argc]; the program
 * name only appears in the usage text, which is not modelled.
 */
module CommandLine {

  datatype Options = Options(files: seq<string>, verbose: bool)

  /** What `get_options` leads to: options to run with, or usage printed and `exit(status)`. */
  datatype ParseOutcome = Run(opts: Options) | UsageExit(status: int)

  predicate IsFlag(arg: string) {
    arg == "-h" || arg == "-v"
  }

  /** The arguments that are not flags, in command-line order. */
  function FileArgs(args: seq<string>): seq<string> {
    if args == [] then []
    else
      var last := args[|args| - 1];
      FileArgs(args[..|args| - 1]) + (if IsFlag(last) then [] else [last])
  }

  /** File arguments keep their order: splitting the command line splits the file list. */
  lemma {:induction false} FileArgsAppend(a: seq<string>, b: seq<string>)
    ensures FileArgs(a + b) == FileArgs(a) + FileArgs(b)
    decreases |b|
  {
    if b != [] {
      var b' := b[..|b| - 1];
      assert (a + b)[..|a + b| - 1] == a + b';
      FileArgsAppend(a, b');
    } else {
      assert a + b == a;
    }
  }

  /** An argument is a file exactly when it occurs on the command line and is not a flag. */
  lemma {:induction false} FileArgsMembers(args: seq<string>, x: string)
    ensures x in FileArgs(args) <==> x in args && !IsFlag(x)
    decreases |args|
  {
    if args != [] {
      var init := args[..|args| - 1];
      assert args == init + [args[|args| - 1]];
      FileArgsMembers(init, x);
    }
  }

  method GetOptions(args: seq<string>) returns (outcome: ParseOutcome)
    ensures outcome.UsageExit? ==> outcome.status == 1
    ensures outcome.UsageExit? <==> "-h" in args || FileArgs(args) == []
    ensures outcome.Run? ==> outcome.opts == Options(FileArgs(args), "-v" in args)
  {
    var files: seq<string> := [];
    var verbose := false;
    var argn := 0;
    while argn < |args|
      invariant 0 <= argn <= |args|
      invariant "-h" !in args[..argn]
      invariant verbose <==> "-v" in args[..argn]
      invariant files == FileArgs(args[..argn])
    {
      var arg := args[argn];
      assert args[..argn + 1][..argn] == args[..argn];
      if arg == "-h" {
        return UsageExit(1);
      } else if arg == "-v" {
        verbose := true;
      } else {
        files := files + [arg];
      }
      argn := argn + 1;
    }
    assert args[..argn] == args;
    if |files| == 0 {
      return UsageExit(1);
    }
    return Run(Options(files, verbose));
  }
}
