# clipit: options, settings and the iteration schedule

A Dafny model of the parts of `clipit.py` that steer a CLIP-guided image
generation run without touching a tensor. It covers:

- `parse_prompt`, which cuts `text:weight:stop` at the last two colons;
- the notebook settings store: `reset_settings`, `add_settings` and
  `apply_settings`;
- `process_args`:
  - the quality tables;
  - the size derived from the scale and the aspect;
  - the `|`- and `,`-separated lists;
  - the sentinels of `--overlay_every` and `--init_noise`;
  - the globals it sets;
- the rounding of the image size to whole tokens in `do_init`;
- the schedule of a run without animation, made of:
  - `train` (padding mode, check-in, optimiser step, re-average);
  - the loop of `do_run` that calls it for iterations `0..iterations`;
  - the ring predecessor of the animation frames.

Modules:

- `Text`: the Python string operations used: `strip`, `split`, `rsplit`, `join`, `lower`.
- `Prompt`: `parse_prompt`.
- `Settings`: the insertion-ordered settings dict.
- `Args`: `process_args` as pure steps.
- `Grid`: the size rounding.
- `Schedule`: `train` and the loop, as event lists.
- `Clipit`: the module globals as the class `ClipitState`, whose methods are
  proved against the functions of the other modules.

argparse is not modelled:

- `ApplySettings` receives it as a function `parse` from the parser's input
  (the command line, or a namespace of the stored settings) to the parsed
  options.
- `ProcessArgs` receives the options `parse` produced.

`float()` is likewise a parameter of `ParsePrompt`. The tensor work of
`train` is represented by the events `Synth`, `CheckIn`, `Step` and
`ReAverage`.

## Model

| member | source | states |
|---|---|---|
| Prompt.PromptFields | clipit.py:193-195 | always three fields, the first being the first piece of `rsplit(':', 2)`, and neither the weight nor the stop field holds a colon |
| Prompt.ParsePrompt | clipit.py:193-197 | succeeds iff both numeric fields convert; the text is the first field, the weight and stop are the converted fields, and a failure names the weight field first, then the stop field |
| Prompt.PromptFieldsNoColon | clipit.py:194-195 | without a colon the prompt is the text, with weight "1" and stop "-inf" |
| Prompt.PromptFieldsOneColon | clipit.py:194-195 | with one colon the prompt is `text:weight`, the text has no colon and the stop is "-inf" |
| Prompt.PromptFieldsColons | clipit.py:194-195 | with two or more colons the prompt is `text:weight:stop`, and the text keeps every colon except the last two |
| Text.JoinRSplit | clipit.py:194 | joining the pieces of `rsplit` with the separator gives back the string |
| Text.RSplitLength | clipit.py:194 | `rsplit(sep, n)` gives min(count of sep, n) + 1 pieces |
| Text.StripUnique | clipit.py:1131 | `strip()` of whitespace, a piece with no whitespace at its ends, and more whitespace, is that piece |
| Text.StripIdempotent | clipit.py:1131 | stripping twice is stripping once |
| Text.JoinSplit | clipit.py:1131 | joining the pieces of `split` with the separator gives back the string |
| Text.SplitJoin | clipit.py:1131 | splitting a join of separator-free pieces gives back the pieces |
| Text.LowerIsNone | clipit.py:1126 | `s.lower() == "none"` exactly for the sixteen case spellings of "none" |
| Settings.Remove | clipit.py:1186-1187 | `pop(k, None)`: the key is gone, nothing is added, every other key keeps its value, a missing key leaves the dict as it was, and a present key's entry is cut out with the others kept in order |
| Settings.Put | clipit.py:1189 | `d[k] = v`: an existing key keeps its position, and a new key goes last |
| Settings.RemoveDistinct | clipit.py:1186-1187 | popping keeps the keys distinct |
| Settings.PutDistinct | clipit.py:1189 | assigning keeps the keys distinct |
| Settings.LookupUpdate | clipit.py:1184-1189 | after one keyword argument its key maps to the value (absent for `None`), and every other key is unchanged |
| Settings.AddAllDistinct | clipit.py:1182-1189 | `add_settings` keeps the keys distinct |
| Settings.AddAllUntouched | clipit.py:1182-1189 | a key that is not passed keeps its value or stays absent |
| Settings.AddAllPassed | clipit.py:1182-1189 | a key passed as `k=v` maps to `v` afterwards, and one passed as `k=None` is absent |
| Settings.FirstUnknownFinds | clipit.py:1197-1200 | the search finds nothing iff every key is known, and otherwise an unknown key with only known keys before it |
| Args.QualityTablesAgree | clipit.py:1049-1074 | the four quality tables have the same keys |
| Args.Truncate | clipit.py:1112-1113 | `int()` on a float truncates toward zero |
| Args.FillQualityDefaults | clipit.py:1076-1087 | aborts iff the quality is unknown; otherwise fills exactly the unset `clip_models`, `iterations` and `num_cuts` with the quality's table values, and `scale` with the table value only when neither `ezsize` nor `scale` is set; set options and every other option are untouched |
| Args.SizeScale | clipit.py:1103-1110 | `--scale`, else the `ezsize` table entry, else an abort naming the ezsize |
| Args.ResolveSize | clipit.py:1102-1117 | a given size is kept; otherwise the size is the aspect's base size times the scale, or the ezsize or aspect abort, and only `size` changes |
| Args.AspectWidthMatchesTable | clipit.py:1119-1124 | the aspect width is the base-size ratio for square and the twitter aspects, 16/9 for widescreen (base ratio 25/14), and 1 outside the table |
| Args.NormaliseInitNoise | clipit.py:1126-1127 | the noise option becomes None iff its lower-case form is "none", and is otherwise kept |
| Args.SplitOnPipes | clipit.py:1130-1148 | a non-empty string becomes its stripped `|` pieces, and a falsy value is kept |
| Args.SplitModels | clipit.py:1159-1160 | the model list is the comma segments each stripped, so one piece more than the commas, each stripped and comma-free |
| Args.NormaliseOverlay | clipit.py:1156-1157 | the overlay period is unset or positive; a positive value is kept and a non-positive one dropped |
| Args.ResolveArgsAborts | clipit.py:1076-1117 | `process_args` aborts iff the quality, the ezsize (when consulted) or the aspect (when the size is needed) is unknown, reporting them in that order |
| Args.ResolveArgsResult | clipit.py:1076-1160 | every field of a successful result: the table defaults only where unset, the size given or computed from the chosen scale, split lists, the sentinels normalised (overlay period and noise), and the other options unchanged |
| Args.ScaledSizeWhole | clipit.py:1111-1114 | an integer scale multiplies the base size exactly |
| Args.SplitOnPipesPieces | clipit.py:1130-1132 | a non-empty string gives one piece more than its pipes, each stripped and pipe-free, and joins back to the string when its pieces had no outer whitespace |
| Args.SplitModelsJoin | clipit.py:1159-1160 | splitting a comma-join of stripped, comma-free names gives back the names |
| Args.NormalQualityModels | clipit.py:1051 | quality "normal" means the models ViT-B/32 and ViT-B/16 |
| Args.ResolveDefaults | clipit.py:1076-1160 | with every option at its parser default the result is scale 2, size 400x224, models ViT-B/32 and ViT-B/16, 350 iterations and 40 cuts |
| Grid.GridSide | clipit.py:358-361 | the rounded side is a multiple of `2**(num_resolutions-1)`, at most the side, and less than one factor below it |
| Grid.GridSideLargest | clipit.py:358-361 | no larger multiple of the factor fits in the side |
| Grid.GridSize | clipit.py:360-361 | each rounded side is a multiple of the factor, at most the requested side and less than one factor below it |
| Grid.GridSizeExamples | clipit.py:358-361 | with a factor of 16, 200x112 becomes 192x112 and 400x224 stays |
| Schedule.PaddingFor | clipit.py:667-670 | reflection exactly on even iterations |
| Schedule.PaddingAlternates | clipit.py:667-670 | consecutive iterations use different padding modes |
| Schedule.Train | clipit.py:811-828 | a call renders first with its iteration's padding, and all its events carry its iteration |
| Schedule.TrainEvents | clipit.py:811-828 | a call raises iff `save_every` is zero or overlays are on with a zero period past iteration 0; it checks in iff `save_every` divides the iteration, steps iff it did not raise first, and re-averages iff it did not raise and the period divides a non-zero iteration |
| Schedule.TrainOrder | clipit.py:811-828 | within one call the events come in the order render, check-in, step, re-average, each at most once |
| Schedule.RunCrashes | clipit.py:896-914 | the loop raises iff `save_every` is zero (at iteration 0), or overlays are on with a zero period and iteration 1 is reached (where it raises) |
| Schedule.RunCrashedStays | clipit.py:896-914 | once a call raises, no later iteration runs |
| Schedule.RunEvents | clipit.py:896-914 | a finished run holds exactly the events of the calls for iterations below the call count |
| Schedule.RunSchedule | clipit.py:896-914 | in a finished run each iteration steps once, with its parity's padding, checks in iff `save_every` divides it, and re-averages iff overlays are on and the period divides a non-zero iteration |
| Schedule.RunStepsInOrder | clipit.py:896-914 | a finished run steps through the iterations 0, 1, ... in order, once each |
| Schedule.RunCheckInCount | clipit.py:896-914 | for a positive `save_every`, a finished run of `calls` calls checks in ceil(calls / save_every) times |
| Schedule.RingPredecessor | clipit.py:891 | the previous frame in the ring is in range, and is `i - 1`, wrapping to the last frame for `i = 0` |
| Schedule.RingPredecessorInverse | clipit.py:891 | each frame is the predecessor of exactly one frame, the one after it |
| Clipit.SettingsInput | clipit.py:1194-1206 | the parser reads a namespace of the settings iff some setting is stored, and otherwise the command line |
| Clipit.AppliedRejects | clipit.py:1191-1209 | `apply_settings` rejects iff some stored key is not a parser option, naming the first such key in insertion order (the parsed options need to be well-shaped only when every key is known); otherwise it fails exactly where `process_args` does |
| Clipit.AppliedEmpty | clipit.py:1191-1209 | with no stored settings, `apply_settings` is `process_args` on the command line |
| Clipit.ClipitState.constructor | clipit.py:39-41 | the globals on import: empty settings, aspect width 1, no spot file, reflection padding, no iteration and no animation state |
| Clipit.ClipitState.ResetSettings | clipit.py:1178-1180 | the settings are empty and no other global changes |
| Clipit.ClipitState.AddSettings | clipit.py:1182-1189 | the settings become the keyword arguments applied in order, with distinct keys, and no other global changes |
| Clipit.ClipitState.ProcessArgs | clipit.py:1034-1176 | returns the resolved options or the abort; on success it sets the aspect width and the spot file and resets the animation globals, and on an abort no global changes |
| Clipit.ClipitState.SetArgGlobals | clipit.py:1119-1174 | sets the aspect width, the spot file and the empty animation globals, and leaves the settings and the padding mode alone |
| Clipit.ClipitState.ApplySettings | clipit.py:1191-1209 | returns what `Applied` specifies for the stored settings and the option names of `setup_parser` (`KnownDests`): the first unknown key, else `process_args`, with the globals of `ProcessArgs` |
| Clipit.ClipitState.Train | clipit.py:811-828 | the events are those of `Schedule.Train`, and the padding global is the iteration's mode |
| Clipit.ClipitState.DoRun | clipit.py:896-914 | the loop's events are `Run(iterations + 1)`, and the iteration counter stops at the last iteration, or at the one that raised, with that iteration's padding |

## Left out

- Tensors, the VQGAN and CLIP models, images, PIL, the optimiser and the
  loss are out of scope. `train`'s work is a sequence of abstract events.
- argparse and `setup_parser` are out of scope, apart from the set of
  option names, which is written out. The parser is a parameter `parse`.
- `float()` in `parse_prompt` is a parameter `toFloat`. Python floats are
  not modelled.
- Args.Truncate: the float `scale` is an exact real, so rounding in a
  binary float product is not modelled.
- Text.Lower: only ASCII letters are lower-cased. No other character
  lower-cases to a letter of "none", so the `== "none"` test is unaffected.
- Clipit.ClipitState.ProcessArgs: takes the options already parsed. The
  choice between the command line and the settings namespace is made in
  `ApplySettings` (`SettingsInput`).
- Clipit.ClipitState.ProcessArgs: the three abort messages print the
  undefined name `argz`. That raises a NameError instead of reaching
  `exit(1)`. Both end the run, so an abort is a single `Err` carrying the
  reason.
- Clipit.ClipitState.ProcessArgs: requires the parsed options to have the
  shapes argparse gives them (`AsParsed`: list options a string or the empty
  list, `clip_models` unset or a string, `init_noise` a string). On the
  notebook path the namespace keeps stored settings as they are, so an
  ill-typed setting such as `clip_models=["ViT-B/32"]` or `prompts=[...]`
  makes `process_args` raise AttributeError part-way, after
  `global_aspect_width` was set; that partial update is not modelled.
  `ApplySettings` demands the shapes only when every stored key is known,
  since the unknown-key error comes before any parsing.
- Setting `torch.backends.cudnn.deterministic` and creating the `steps`
  directory are left out. So are the `anim_cur_zs` and `anim_next_zs`
  tensors that `process_args` clears.
- Clipit.ClipitState.DoRun: requires `iterations >= 0`. With a negative
  value the source loop never reaches `cur_iteration == iterations` and runs
  forever unless a call raises; the runs with a negative count that do raise
  (a zero `save_every` or a zero overlay period) are excluded as well.
- Clipit.ClipitState.DoRun: the RuntimeError and KeyboardInterrupt handlers
  are not modelled. Neither is the video made after the loop.
- The animation branch of `do_run` is not modelled, apart from the ring
  predecessor `prev_i`. Its frame blending works on images and tensors.
- `pixeldrawer.py` and `main()` are not part of this model.
