/** The option-folding state machine of `FST::lt_proc`: how a stream of option
    characters (as returned by getopt for the option string
    "abcdeglmnoptwxzCIW") selects one processing command, one generation mode
    and a handful of independent processor settings, and how the chosen
    command is dispatched to one (init, process) pair. */
module Options {

  /** The "no command chosen yet" value of the `cmd` local (the integer 0). */
  const NoCommand: char := '\0'

  /** The generation modes an `FSTProcessor` accepts for generation and
      bilingual lookup. */
  datatype GenerationMode =
    | Unknown       // gm_unknown
    | All           // gm_all
    | Tagged        // gm_tagged
    | TaggedNm      // gm_tagged_nm
    | Clean         // gm_clean
    | CarefulCase   // gm_carefulcase

  /** The processor settings that the option loop changes through setter calls. */
  datatype Settings = Settings(
    caseSensitive: bool,         // setCaseSensitiveMode
    dictionaryCase: bool,        // setDictionaryCaseMode
    nullFlush: bool,             // setNullFlush
    useDefaultIgnored: bool,     // setUseDefaultIgnoredChars
    displayWeights: bool,        // setDisplayWeightsMode
    biltransSurfaceForms: bool)  // setBiltransSurfaceForms

  /** What the option loop has accumulated so far: the two locals `cmd` and
      `bilmode`, and the processor settings. */
  datatype Config = Config(cmd: char, bilmode: GenerationMode, settings: Settings)

  /** The initialisation call that prepares the processor for one command. */
  datatype Init =
    | InitAnalysis
    | InitBiltrans
    | InitDecomposition
    | InitGeneration
    | InitPostgeneration

  /** The processing call run over the input stream. */
  datatype Process =
    | Analysis
    | Bilingual(mode: GenerationMode)
    | Generation(mode: GenerationMode)
    | Postgeneration
    | Transliteration
    | Intergeneration

  /** The commands that can be stored in `cmd`. */
  predicate IsCommand(c: char) {
    c in {'a', 'b', 'e', 'g', 'p', 't', 'x'}
  }

  /** The generation sub-mode flags. */
  predicate IsSubMode(c: char) {
    c in {'d', 'l', 'm', 'n', 'C'}
  }

  /** The characters of the getopt option string "abcdeglmnoptwxzCIW". */
  predicate IsOption(c: char) {
    IsCommand(c) || IsSubMode(c) || c in {'c', 'o', 'w', 'z', 'I', 'W'}
  }

  /** The command an option selects when no command has been chosen yet
      (NoCommand for an option that selects none). */
  function ModeOf(c: char): (m: char)
    ensures m == NoCommand || IsCommand(m)
    ensures m != NoCommand <==> IsCommand(c) || IsSubMode(c) || c == 'o'
    ensures IsCommand(c) ==> m == c
    ensures m == 'g' <==> c == 'g' || IsSubMode(c)
    ensures m == 'b' <==> c == 'b' || c == 'o'
  {
    if IsCommand(c) then c
    else if IsSubMode(c) then 'g'
    else if c == 'o' then 'b'
    else NoCommand
  }

  /** The generation mode a sub-mode flag stores in `bilmode`. */
  function SubModeOf(c: char): (g: GenerationMode)
    requires IsSubMode(c)
    ensures g != Unknown
    ensures g == All <==> c == 'd'
    ensures g == Tagged <==> c == 'l'
    ensures g == TaggedNm <==> c == 'm'
    ensures g == Clean <==> c == 'n'
    ensures g == CarefulCase <==> c == 'C'
  {
    match c
    case 'd' => All
    case 'l' => Tagged
    case 'm' => TaggedNm
    case 'n' => Clean
    case 'C' => CarefulCase
  }

  /** One pass of the option loop's `switch(c)`. */
  function Step(cfg: Config, c: char): (r: Config)
    // `cmd` changes only while unset, or from 'g' to 'b' on an explicit -b
    ensures r.cmd == if cfg.cmd == NoCommand then ModeOf(c)
                     else if cfg.cmd == 'g' && c == 'b' then 'b'
                     else cfg.cmd
    // `bilmode` is overwritten by every sub-mode flag and by nothing else
    ensures r.bilmode == if IsSubMode(c) then SubModeOf(c) else cfg.bilmode
    // a character outside the option string changes nothing
    ensures !IsOption(c) ==> r == cfg
  {
    var s := cfg.settings;
    match c
    case 'a' | 'b' | 'e' | 'g' | 'p' | 't' | 'x' =>
      if cfg.cmd == NoCommand then cfg.(cmd := c)
      else if cfg.cmd == 'g' && c == 'b' then cfg.(cmd := c)
      else cfg
    case 'c' => cfg.(settings := s.(caseSensitive := true))
    case 'd' => cfg.(cmd := if cfg.cmd == NoCommand then 'g' else cfg.cmd, bilmode := All)
    case 'l' => cfg.(cmd := if cfg.cmd == NoCommand then 'g' else cfg.cmd, bilmode := Tagged)
    case 'm' => cfg.(cmd := if cfg.cmd == NoCommand then 'g' else cfg.cmd, bilmode := TaggedNm)
    case 'n' => cfg.(cmd := if cfg.cmd == NoCommand then 'g' else cfg.cmd, bilmode := Clean)
    case 'o' =>
      cfg.(cmd := if cfg.cmd == NoCommand then 'b' else cfg.cmd,
           settings := s.(biltransSurfaceForms := true))
    case 'w' => cfg.(settings := s.(dictionaryCase := true))
    case 'z' => cfg.(settings := s.(nullFlush := true))
    case 'C' => cfg.(cmd := if cfg.cmd == NoCommand then 'g' else cfg.cmd, bilmode := CarefulCase)
    case 'I' => cfg.(settings := s.(useDefaultIgnored := false))
    case 'W' => cfg.(settings := s.(displayWeights := true))
    case _ => cfg
  }

  /** The whole option loop: the options are folded left to right, so the
      last one is applied last. */
  function Parse(cfg: Config, opts: seq<char>): (r: Config)
    // over the whole loop `cmd` only moves from unset, or from 'g' to 'b'
    ensures r.cmd == cfg.cmd || cfg.cmd == NoCommand || (cfg.cmd == 'g' && r.cmd == 'b')
    // `cmd` only ever holds a command letter or 0
    ensures cfg.cmd == NoCommand || IsCommand(cfg.cmd) ==> r.cmd == NoCommand || IsCommand(r.cmd)
    decreases |opts|
  {
    if opts == [] then cfg
    else Step(Parse(cfg, opts[..|opts| - 1]), opts[|opts| - 1])
  }

  /** The state the loop starts from: no command, `gm_unknown`, and whatever
      settings the processor already had. */
  function Start(s: Settings): (cfg: Config)
    ensures cfg.cmd == NoCommand && cfg.bilmode == Unknown && cfg.settings == s
    ensures Dispatch(cfg.cmd, cfg.bilmode) == (InitAnalysis, Analysis)
  {
    Config(NoCommand, Unknown, s)
  }

  /** Whether an init call prepares the processor for a process call. */
  predicate Prepares(i: Init, p: Process) {
    match p
    case Analysis => i == InitAnalysis || i == InitDecomposition
    case Bilingual(_) => i == InitBiltrans
    case Generation(_) => i == InitGeneration
    case Postgeneration | Transliteration | Intergeneration => i == InitPostgeneration
  }

  /** The final `switch(cmd)`: exactly one init call and one process call. */
  function Dispatch(cmd: char, bilmode: GenerationMode): (r: (Init, Process))
    ensures Prepares(r.0, r.1)
    ensures r.1.Bilingual? <==> cmd == 'b'
    ensures r.1.Generation? <==> cmd == 'g'
    ensures r.1.Bilingual? || r.1.Generation? ==> r.1.mode == bilmode
    ensures r.0 == InitDecomposition <==> cmd == 'e'
    ensures r.0 == InitPostgeneration <==> cmd in {'p', 't', 'x'}
    ensures r.1 == Postgeneration <==> cmd == 'p'
    ensures r.1 == Transliteration <==> cmd == 't'
    ensures r.1 == Intergeneration <==> cmd == 'x'
    ensures r.1 == Analysis <==> cmd !in {'b', 'g', 'p', 't', 'x'}
    ensures r == (InitAnalysis, Analysis) <==> cmd !in {'b', 'e', 'g', 'p', 't', 'x'}
  {
    match cmd
    case 'b' => (InitBiltrans, Bilingual(bilmode))
    case 'e' => (InitDecomposition, Analysis)
    case 'g' => (InitGeneration, Generation(bilmode))
    case 'p' => (InitPostgeneration, Postgeneration)
    case 't' => (InitPostgeneration, Transliteration)
    case 'x' => (InitPostgeneration, Intergeneration)
    case _ => (InitAnalysis, Analysis)
  }

  /** Different commands are dispatched to different call pairs, except that
      'a' and "no command" both mean analysis. */
  lemma DispatchDistinguishes(c1: char, c2: char, g: GenerationMode)
    requires IsCommand(c1) && IsCommand(c2) && c1 != c2
    ensures Dispatch(c1, g) != Dispatch(c2, g)
    ensures Dispatch(NoCommand, g) == Dispatch('a', g)
  {
  }

  // ---------------------------------------------------------------------
  // Folding lemmas

  /** Running the loop over `a + b` is running it over `a`, then over `b`. */
  lemma {:induction false} ParseAppend(cfg: Config, a: seq<char>, b: seq<char>)
    ensures Parse(cfg, a + b) == Parse(Parse(cfg, a), b)
    decreases |b|
  {
    if b == [] {
      assert a + b == a;
    } else {
      assert (a + b)[..|a + b| - 1] == a + b[..|b| - 1];
      ParseAppend(cfg, a, b[..|b| - 1]);
    }
  }

  /** Without a mode-selecting option (a command, a sub-mode flag or -o), `cmd`
      is left as it was. */
  lemma {:induction false} NoModeKeepsCmd(cfg: Config, opts: seq<char>)
    requires forall i :: 0 <= i < |opts| ==> ModeOf(opts[i]) == NoCommand
    ensures Parse(cfg, opts).cmd == cfg.cmd
    decreases |opts|
  {
    if opts != [] {
      NoModeKeepsCmd(cfg, opts[..|opts| - 1]);
    }
  }

  /** Without a sub-mode flag, `bilmode` is left as it was. */
  lemma {:induction false} NoSubModeKeepsBilmode(cfg: Config, opts: seq<char>)
    requires forall i :: 0 <= i < |opts| ==> !IsSubMode(opts[i])
    ensures Parse(cfg, opts).bilmode == cfg.bilmode
    decreases |opts|
  {
    if opts != [] {
      NoSubModeKeepsBilmode(cfg, opts[..|opts| - 1]);
    }
  }

  /** With no mode-selecting option the loop leaves `cmd` at 0 and `bilmode` at
      `gm_unknown`, and the dispatch falls to initAnalysis + analysis. */
  lemma DefaultIsAnalysis(s: Settings, opts: seq<char>)
    requires forall i :: 0 <= i < |opts| ==> ModeOf(opts[i]) == NoCommand
    ensures Parse(Start(s), opts).cmd == NoCommand
    ensures Parse(Start(s), opts).bilmode == Unknown
    ensures Dispatch(Parse(Start(s), opts).cmd, Parse(Start(s), opts).bilmode)
            == (InitAnalysis, Analysis)
  {
    NoModeKeepsCmd(Start(s), opts);
    forall i | 0 <= i < |opts| ensures !IsSubMode(opts[i]) {
      assert ModeOf(opts[i]) == NoCommand;
    }
    NoSubModeKeepsBilmode(Start(s), opts);
  }

  /** Once `cmd` holds a command other than 'g', no option changes it. */
  lemma {:induction false} CmdFixedOnceChosen(cfg: Config, opts: seq<char>)
    requires cfg.cmd != NoCommand && cfg.cmd != 'g'
    ensures Parse(cfg, opts).cmd == cfg.cmd
    decreases |opts|
  {
    if opts != [] {
      CmdFixedOnceChosen(cfg, opts[..|opts| - 1]);
    }
  }

  /** Once `cmd` is 'g', it ends as 'b' exactly when an explicit -b follows;
      -o does not override it. */
  lemma {:induction false} GenerationOverriddenOnlyByB(cfg: Config, opts: seq<char>)
    requires cfg.cmd == 'g'
    ensures Parse(cfg, opts).cmd == if 'b' in opts then 'b' else 'g'
    decreases |opts|
  {
    if opts != [] {
      var init := opts[..|opts| - 1];
      GenerationOverriddenOnlyByB(cfg, init);
      assert opts == init + [opts[|opts| - 1]];
      assert 'b' in opts <==> 'b' in init || opts[|opts| - 1] == 'b';
    }
  }

  /** The first mode-selecting option fixes `cmd` (sub-mode flags meaning 'g'
      and -o meaning 'b'); the only later change is an explicit -b replacing
      'g'. */
  lemma FirstModeWins(cfg: Config, opts: seq<char>, k: nat)
    requires cfg.cmd == NoCommand
    requires k < |opts| && ModeOf(opts[k]) != NoCommand
    requires forall j :: 0 <= j < k ==> ModeOf(opts[j]) == NoCommand
    ensures Parse(cfg, opts).cmd ==
            if ModeOf(opts[k]) == 'g' && 'b' in opts[k + 1..] then 'b' else ModeOf(opts[k])
  {
    var before, rest := opts[..k], opts[k + 1..];
    NoModeKeepsCmd(cfg, before);
    var mid := Parse(cfg, before + [opts[k]]);
    assert (before + [opts[k]])[..k] == before;
    assert mid.cmd == ModeOf(opts[k]);
    assert opts == (before + [opts[k]]) + rest;
    ParseAppend(cfg, before + [opts[k]], rest);
    if mid.cmd == 'g' {
      GenerationOverriddenOnlyByB(mid, rest);
    } else {
      CmdFixedOnceChosen(mid, rest);
    }
  }

  /** The last sub-mode flag decides `bilmode`. */
  lemma {:induction false} LastSubModeWins(cfg: Config, opts: seq<char>, k: nat)
    requires k < |opts| && IsSubMode(opts[k])
    requires forall j :: k < j < |opts| ==> !IsSubMode(opts[j])
    ensures Parse(cfg, opts).bilmode == SubModeOf(opts[k])
    decreases |opts|
  {
    if k < |opts| - 1 {
      LastSubModeWins(cfg, opts[..|opts| - 1], k);
    } else {
      assert opts[|opts| - 1] == opts[k];
    }
  }

  /** The settings after the loop: each toggle is set exactly when its flag
      occurs (-I clears the default-ignored-characters setting), and only by
      its own flag. */
  lemma {:induction false} SettingsAfterParse(cfg: Config, opts: seq<char>)
    ensures var s, r := cfg.settings, Parse(cfg, opts).settings;
      r == Settings(s.caseSensitive || 'c' in opts,
                    s.dictionaryCase || 'w' in opts,
                    s.nullFlush || 'z' in opts,
                    s.useDefaultIgnored && 'I' !in opts,
                    s.displayWeights || 'W' in opts,
                    s.biltransSurfaceForms || 'o' in opts)
    decreases |opts|
  {
    if opts != [] {
      var init, c := opts[..|opts| - 1], opts[|opts| - 1];
      SettingsAfterParse(cfg, init);
      StepSettings(Parse(cfg, init), c);
      assert opts == init + [c];
      assert 'c' in opts <==> 'c' in init || c == 'c';
      assert 'w' in opts <==> 'w' in init || c == 'w';
      assert 'z' in opts <==> 'z' in init || c == 'z';
      assert 'I' in opts <==> 'I' in init || c == 'I';
      assert 'W' in opts <==> 'W' in init || c == 'W';
      assert 'o' in opts <==> 'o' in init || c == 'o';
    }
  }

  /** One option sets at most its own toggle. */
  lemma StepSettings(cfg: Config, c: char)
    ensures var s := cfg.settings;
      Step(cfg, c).settings == Settings(s.caseSensitive || c == 'c',
                                        s.dictionaryCase || c == 'w',
                                        s.nullFlush || c == 'z',
                                        s.useDefaultIgnored && c != 'I',
                                        s.displayWeights || c == 'W',
                                        s.biltransSurfaceForms || c == 'o')
  {
  }

  /** The toggle flags -c, -w, -z, -I, -W and characters outside the option
      string never touch `cmd` or `bilmode`. */
  lemma {:induction false} TogglesLeaveModeAlone(cfg: Config, opts: seq<char>)
    requires forall i :: 0 <= i < |opts| ==>
               opts[i] in {'c', 'w', 'z', 'I', 'W'} || !IsOption(opts[i])
    ensures Parse(cfg, opts).cmd == cfg.cmd
    ensures Parse(cfg, opts).bilmode == cfg.bilmode
    decreases |opts|
  {
    if opts != [] {
      TogglesLeaveModeAlone(cfg, opts[..|opts| - 1]);
    }
  }

  /** A stream made only of characters outside the option string (getopt's
      '?' among them) changes nothing at all. */
  lemma {:induction false} UnrecognisedChangeNothing(cfg: Config, opts: seq<char>)
    requires forall i :: 0 <= i < |opts| ==> !IsOption(opts[i])
    ensures Parse(cfg, opts) == cfg
    decreases |opts|
  {
    if opts != [] {
      UnrecognisedChangeNothing(cfg, opts[..|opts| - 1]);
    }
  }

  /** Scenario: -g followed by -o stays generation; -g followed by -b becomes
      bilingual lookup; -o alone selects bilingual lookup. */
  lemma SurfaceFormsDoNotOverrideGeneration(s: Settings)
    ensures Parse(Start(s), "go").cmd == 'g'
    ensures Parse(Start(s), "go").settings.biltransSurfaceForms
    ensures Parse(Start(s), "gb").cmd == 'b'
    ensures Parse(Start(s), "o").cmd == 'b'
  {
    assert "go"[..1] == "g" && "gb"[..1] == "g";
  }
}
