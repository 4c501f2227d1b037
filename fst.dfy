/** The `FST` class: an `FSTProcessor` driven the way the command-line tool
    lt-proc drives it. Only the settings that lt-proc's options change are
    kept as state; the transducers, the loading and the processing calls
    belong to `FSTProcessor` and are not part of this model. */
module Lttoolbox {
  import opened Options
  import Argv

  class FST {
    var caseSensitive: bool
    var dictionaryCase: bool
    var nullFlush: bool
    var useDefaultIgnored: bool
    var displayWeights: bool
    var biltransSurfaceForms: bool

    /** The processor's settings as one value. */
    function Current(): Settings
      reads this
    {
      Settings(caseSensitive, dictionaryCase, nullFlush, useDefaultIgnored,
               displayWeights, biltransSurfaceForms)
    }

    /** Opens a processor whose settings are `initial`; the settings an
        `FSTProcessor` starts with are defined outside this model, and the
        dictionary loading is not modelled. */
    constructor (initial: Settings)
      ensures Current() == initial
    {
      caseSensitive := initial.caseSensitive;
      dictionaryCase := initial.dictionaryCase;
      nullFlush := initial.nullFlush;
      useDefaultIgnored := initial.useDefaultIgnored;
      displayWeights := initial.displayWeights;
      biltransSurfaceForms := initial.biltransSurfaceForms;
    }

    method SetCaseSensitiveMode(value: bool)
      modifies this
      ensures Current() == old(Current()).(caseSensitive := value)
    {
      caseSensitive := value;
    }

    method SetDictionaryCaseMode(value: bool)
      modifies this
      ensures Current() == old(Current()).(dictionaryCase := value)
    {
      dictionaryCase := value;
    }

    method SetNullFlush(value: bool)
      modifies this
      ensures Current() == old(Current()).(nullFlush := value)
    {
      nullFlush := value;
    }

    method SetUseDefaultIgnoredChars(value: bool)
      modifies this
      ensures Current() == old(Current()).(useDefaultIgnored := value)
    {
      useDefaultIgnored := value;
    }

    method SetDisplayWeightsMode(value: bool)
      modifies this
      ensures Current() == old(Current()).(displayWeights := value)
    {
      displayWeights := value;
    }

    method SetBiltransSurfaceForms(value: bool)
      modifies this
      ensures Current() == old(Current()).(biltransSurfaceForms := value)
    {
      biltransSurfaceForms := value;
    }

    /** lt-proc: reads the option characters in order, updating `cmd`,
        `bilmode` and the settings, then returns the one (init, process) pair
        it runs. `opts` is what getopt returns, one character per call, up to
        its -1. */
    method LtProc(opts: seq<char>) returns (init: Init, process: Process)
      modifies this
      ensures Current() == Parse(Start(old(Current())), opts).settings
      ensures (init, process) == Dispatch(Parse(Start(old(Current())), opts).cmd,
                                          Parse(Start(old(Current())), opts).bilmode)
    {
      var cmd := NoCommand;
      var bilmode := Unknown;
      ghost var start := Start(Current());
      var i := 0;
      while i < |opts|
        invariant 0 <= i <= |opts|
        invariant Config(cmd, bilmode, Current()) == Parse(start, opts[..i])
      {
        var c := opts[i];
        match c {
          case 'a' | 'b' | 'e' | 'g' | 'p' | 't' | 'x' =>
            if cmd == NoCommand {
              cmd := c;
            } else if cmd == 'g' && c == 'b' {
              cmd := c;
            }
          case 'c' =>
            SetCaseSensitiveMode(true);
          case 'd' =>
            if cmd == NoCommand { cmd := 'g'; }
            bilmode := All;
          case 'l' =>
            if cmd == NoCommand { cmd := 'g'; }
            bilmode := Tagged;
          case 'm' =>
            if cmd == NoCommand { cmd := 'g'; }
            bilmode := TaggedNm;
          case 'n' =>
            if cmd == NoCommand { cmd := 'g'; }
            bilmode := Clean;
          case 'o' =>
            if cmd == NoCommand { cmd := 'b'; }
            SetBiltransSurfaceForms(true);
          case 'w' =>
            SetDictionaryCaseMode(true);
          case 'z' =>
            SetNullFlush(true);
          case 'C' =>
            if cmd == NoCommand { cmd := 'g'; }
            bilmode := CarefulCase;
          case 'I' =>
            SetUseDefaultIgnoredChars(false);
          case 'W' =>
            SetDisplayWeightsMode(true);
          case _ =>
        }
        assert opts[..i + 1] == opts[..i] + [c];
        i := i + 1;
      }
      assert opts[..|opts|] == opts;
      var calls := Dispatch(cmd, bilmode);
      init, process := calls.0, calls.1;
    }

    /** lt_proc_vec: builds the NUL-terminated argument vector from `args`
        and runs lt-proc; `opts` is what getopt returns when scanning it.
        The returned `argv` is the vector as built, before getopt runs. */
    method LtProcVec(args: seq<string>, opts: seq<char>)
      returns (argv: array<array?<char>>, init: Init, process: Process)
      modifies this
      ensures fresh(argv) && argv.Length == |args| + 1 && argv[|args|] == null
      ensures forall i :: 0 <= i < |args| ==>
                argv[i] != null && fresh(argv[i]) && argv[i][..] == Argv.CString(args[i])
      ensures forall i, j :: 0 <= i < j < |args| ==> argv[i] != argv[j]
      ensures Current() == Parse(Start(old(Current())), opts).settings
      ensures (init, process) == Dispatch(Parse(Start(old(Current())), opts).cmd,
                                          Parse(Start(old(Current())), opts).bilmode)
    {
      argv := Argv.BuildArgv(args);
      init, process := LtProc(opts);
    }

    /** lt_proc_len_vec: ignores `argc` and does exactly what lt_proc_vec
        does on the same arguments. */
    method LtProcLenVec(argc: int, args: seq<string>, opts: seq<char>)
      returns (argv: array<array?<char>>, init: Init, process: Process)
      modifies this
      ensures fresh(argv) && argv.Length == |args| + 1 && argv[|args|] == null
      ensures forall i :: 0 <= i < |args| ==>
                argv[i] != null && fresh(argv[i]) && argv[i][..] == Argv.CString(args[i])
      ensures forall i, j :: 0 <= i < j < |args| ==> argv[i] != argv[j]
      ensures Current() == Parse(Start(old(Current())), opts).settings
      ensures (init, process) == Dispatch(Parse(Start(old(Current())), opts).cmd,
                                          Parse(Start(old(Current())), opts).bilmode)
    {
      argv, init, process := LtProcVec(args, opts);
    }
  }
}
