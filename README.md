# lt-proc mode selection in the lttoolbox Python bindings

The lttoolbox bindings wrap the finite-state engine of lttoolbox
(`FSTProcessor`, `Alphabet`, `Transducer`) for Python. Most of the bindings
only expose the engine's methods, but the `FST` class also copies the
command-line tool `lt-proc`. It runs the option characters through a small
state machine, which chooses:

- one processing command (`cmd`): analysis, bilingual lookup, decomposition,
  generation, postgeneration, transliteration or intergeneration;
- one generation mode (`bilmode`);
- a few independent processor settings: case-sensitive matching,
  dictionary case, null-flush, default ignored characters, weight display
  and biltrans surface forms.

It then calls exactly one init function and one process function. The
`lt_proc_vec` entry point first turns a vector of strings into a C `argv`
array.

This project models that logic:

- `options.dfy` (module `Options`) holds the pure specification:
  - the `Config` record, with the locals `cmd` and `bilmode` and the `Settings`;
  - `Step`, one pass of the option `switch`;
  - `Parse`, the whole loop as a left-to-right fold;
  - `Dispatch`, the final `switch(cmd)`;
  - lemmas giving the precedence rules exactly: the first mode option wins,
    an explicit `-b` replaces `-g`, and the last sub-mode flag wins.
- `argv.dfy` (module `Argv`) builds the NUL-terminated argument vector over
  arrays. It also has the C view of such a buffer, with its round trip.
- `fst.dfy` (module `Lttoolbox`) holds the `FST` class. Its fields are the
  processor settings that lt-proc changes through setters. `LtProc` runs the
  option loop imperatively and is proved equal to `Parse` followed by
  `Dispatch`. `LtProcVec` and `LtProcLenVec` wrap it.

The option sequence is taken as given: it is the list of characters that
getopt returns for the option string `abcdeglmnoptwxzCIW`, and the end of the
sequence stands for getopt's `-1`. The getopt error character `?` is one of
the characters outside the option string, so it changes nothing.

The mode options are not mutually exclusive in the code. When several appear,
the first one wins. The one exception is that `-b` replaces an earlier `-g`
or generation sub-mode flag. The model follows the code.

## Model

| member | source | states |
|---|---|---|
| Options.ModeOf | lttoolbox/src/main.cpp:40-85 | An option selects a command exactly when it is a command letter, a generation sub-mode flag or -o. A command letter selects itself; an option selects 'g' iff it is -g or a sub-mode flag, and 'b' iff it is -b or -o |
| Options.SubModeOf | lttoolbox/src/main.cpp:56-85 | d stores gm_all, l gm_tagged, m gm_tagged_nm, n gm_clean and C gm_carefulcase, each iff that flag; never gm_unknown |
| Options.Step | lttoolbox/src/main.cpp:39-94 | One option changes `cmd` only while it is unset, or from 'g' to 'b' on an explicit -b; `bilmode` is overwritten by every sub-mode flag and by nothing else; a character outside the option string changes nothing |
| Options.Parse | lttoolbox/src/main.cpp:34-95 | The whole loop moves `cmd` only from unset, or from 'g' to 'b', and keeps it a command letter or 0. FirstModeWins, LastSubModeWins and SettingsAfterParse give its closed form |
| Options.Start | lttoolbox/src/main.cpp:30-33 | The loop starts with `cmd` 0 (no command), gm_unknown and the processor's current settings, so that dispatch from it alone runs initAnalysis + analysis |
| Options.Dispatch | lttoolbox/src/main.cpp:97-133 | The init call always prepares the process call. Bilingual lookup runs iff cmd is 'b' and generation iff it is 'g', both with `bilmode`. Decomposition init runs iff cmd is 'e'. Postgeneration init runs iff cmd is p, t or x; postgeneration runs iff cmd is 'p', transliteration iff 't', intergeneration iff 'x'. initAnalysis + analysis runs iff cmd is none of b, e, g, p, t, x |
| Options.DispatchDistinguishes | lttoolbox/src/main.cpp:97-133 | Distinct commands dispatch to distinct call pairs; no command dispatches like 'a' |
| Options.ParseAppend | lttoolbox/src/main.cpp:34-95 | Running the loop over a+b equals running it over a and then over b |
| Options.NoModeKeepsCmd | lttoolbox/src/main.cpp:40-85 | With no mode-selecting option, `cmd` is unchanged |
| Options.NoSubModeKeepsBilmode | lttoolbox/src/main.cpp:56-85 | With no sub-mode flag, `bilmode` is unchanged |
| Options.DefaultIsAnalysis | lttoolbox/src/main.cpp:30-132 | With no mode-selecting option, `cmd` stays 0 and `bilmode` stays gm_unknown, and dispatch calls initAnalysis + analysis |
| Options.CmdFixedOnceChosen | lttoolbox/src/main.cpp:40-85 | Once `cmd` holds a command other than 'g', no later option changes it |
| Options.GenerationOverriddenOnlyByB | lttoolbox/src/main.cpp:47-75 | From 'g', `cmd` ends as 'b' iff an explicit -b follows (-o does not count), and otherwise stays 'g' |
| Options.FirstModeWins | lttoolbox/src/main.cpp:40-85 | Starting unset, `cmd` ends as the command of the first mode-selecting option. The one exception: when that command is 'g' and a later -b occurs, `cmd` ends as 'b' |
| Options.LastSubModeWins | lttoolbox/src/main.cpp:56-85 | The last sub-mode flag decides `bilmode` (d all, l tagged, m tagged_nm, n clean, C carefulcase) |
| Options.StepSettings | lttoolbox/src/main.cpp:53-93 | One option sets at most its own setting: c case-sensitive, w dictionary case, z null-flush, I default-ignored off, W weights, o surface forms |
| Options.SettingsAfterParse | lttoolbox/src/main.cpp:53-93 | After the loop, each setting equals its old value changed exactly when its flag occurs anywhere in the options |
| Options.TogglesLeaveModeAlone | lttoolbox/src/main.cpp:53-93 | Options made only of c, w, z, I, W and characters outside the option string never touch `cmd` or `bilmode` |
| Options.UnrecognisedChangeNothing | lttoolbox/src/main.cpp:92-93 | Options made only of characters outside the option string change nothing |
| Options.SurfaceFormsDoNotOverrideGeneration | lttoolbox/src/main.cpp:47-75 | Scenario: "-g -o" stays generation with surface forms on, "-g -b" becomes bilingual lookup, and "-o" alone selects bilingual lookup |
| Argv.CString | lttoolbox/src/main.cpp:144-148 | An argument buffer is |s|+1 long, holds the argument's characters and ends with 0 |
| Argv.AsCString | lttoolbox/src/main.cpp:148 | A C reader sees the characters before the first NUL of a buffer |
| Argv.AsCStringAfterPrefix | lttoolbox/src/main.cpp:144-148 | Reading a buffer passes a NUL-free prefix through unchanged |
| Argv.CStringRoundTrip | lttoolbox/src/main.cpp:144-148 | An argument with no NUL in it is read back from its buffer exactly |
| Argv.EmbeddedNulTruncates | lttoolbox/src/main.cpp:144-148 | An argument with a NUL inside is read back only up to that NUL |
| Argv.BuildArgv | lttoolbox/src/main.cpp:141-150 | argv has argc+1 slots. Each slot i < argc is a fresh, distinct buffer holding args[i] and a final 0. The slot at argc is null |
| Lttoolbox.FST.constructor | lttoolbox/src/main.cpp:19-23 | A new processor has the given settings |
| Lttoolbox.FST.SetCaseSensitiveMode | lttoolbox/src/main.cpp:54 | Sets case-sensitive matching to the value given and leaves the other settings alone |
| Lttoolbox.FST.SetBiltransSurfaceForms | lttoolbox/src/main.cpp:74 | Sets biltrans surface forms to the value given and leaves the other settings alone |
| Lttoolbox.FST.SetDictionaryCaseMode | lttoolbox/src/main.cpp:77 | Sets dictionary case to the value given and leaves the other settings alone |
| Lttoolbox.FST.SetNullFlush | lttoolbox/src/main.cpp:80 | Sets null-flush to the value given and leaves the other settings alone |
| Lttoolbox.FST.SetUseDefaultIgnoredChars | lttoolbox/src/main.cpp:87 | Sets the use of default ignored characters to the value given and leaves the other settings alone |
| Lttoolbox.FST.SetDisplayWeightsMode | lttoolbox/src/main.cpp:90 | Sets weight display to the value given and leaves the other settings alone |
| Lttoolbox.FST.LtProc | lttoolbox/src/main.cpp:25-136 | The settings after the loop are those of `Parse` from the settings before it. The call pair returned is `Dispatch` of the `cmd` and `bilmode` that `Parse` computes |
| Lttoolbox.FST.LtProcVec | lttoolbox/src/main.cpp:138-152 | Returns argv as built by BuildArgv (before getopt runs) and then behaves exactly like LtProc |
| Lttoolbox.FST.LtProcLenVec | lttoolbox/src/main.cpp:153-158 | Ignores its integer argument and has the same effect and results as LtProcVec, argv again as built |

## Left out

- getopt and the reset of the global `optind`: the option characters getopt returns are a parameter, so the model does not tie them to the argv that LtProcVec builds. getopt may also reorder argv's slots in place; `LtProcVec` and `LtProcLenVec` return argv as built, before getopt runs.
- Opening the input and output files, and closing the output; the input and output paths are therefore not parameters.
- Opening, loading and closing the dictionary in the `FST` constructor. The settings a fresh `FSTProcessor` starts with are defined in the engine, which is not part of this model, so the constructor takes them as a parameter.
- The bodies of the `FSTProcessor` setters are modelled as plain field writes. The init and processing functions (analysis, generation, bilingual, postgeneration, transliteration, intergeneration) are not modelled: `LtProc` returns which pair would run instead of running it.
- The argv arrays are never freed in the code; the model records only their contents and freshness.
- The pybind11 module registration only exposes methods of the engine (Alphabet, Transducer, StringUtils, readACX). That engine is not part of this model.
- The build script setup.py.
- C `char` is modelled as a Dafny `char`; nothing here depends on its width.
