# 3d_scripts core in Dafny

This project models the core of `3d_scripts`, a set of Python tools that read,
analyse and rewrite G-code for 3D printers. It covers three parts.

- **The analysis library.** A command line is parsed into a `Command` of the
  class its `G` or `M` code names (`command.py`). Each command's `evolve` step
  copies the `MachineState` it starts from and applies its effect to the copy
  (`commands.py`, `machine_state.py`). A `Script` parses a file line by line and
  evolves a fresh state through every command (`script.py`). A `Mutator` walks
  an analysed script and keeps or replaces each command, building a new script
  that it evolves as it goes (`mutator.py`).
- **The temperature tower** (`temptower.py`). It runs a sliced print once to
  learn its height, divides that height into floors, then writes the print again.
  At the start of each floor it inserts that floor's nozzle temperature. It also
  slows the extruding moves that lead to a retraction.
- **The linear-advance tower** (`linear_advance_tower.py`). It works the same
  way, but inserts a linear-advance factor `K` (`M900`), preceded by `M400`.

The state that the Python code updates in place is modelled with Dafny classes:
- `Axis` and `MachineState`;
- `Command`, with its `before`, `after` and line numbers;
- `Script` and `Mutator`;
- the towers' `Machine`.

Each of their methods is proved against a pure specification on values. The main
ones are:
- `Effect` gives the effect of every command class;
- `Final` folds `Effect` over a command list;
- `Plan` gives the output a list of keep/replace decisions produces;
- `Walked` labels the history after a walk back;
- `Level` and `CurSetting` give a floor's setting.

Python's exceptions become the `Failure` case of a `Result`. A Python `None`
becomes `Option.None`.

Modules, one per file:
- `Wrappers`: the `Option` and `Result` types.
- `Text`: string helpers used throughout. They are Python's `split`, `rstrip`,
  `float` on plain decimals and `str` of a float.
- `MachineStates`: `machine_state.py`.
- `CommandProps`: the properties of `Command`, such as `args`, `aargs`, the head
  distances and `vector`.
- `CommandEffects`: the effect of each class in `commands.py`.
- `CommandModel`: the `Command` class and its in-place `evolve`.
- `EffectProperties`: lemmas about the effects.
- `CommandParsing`: the code table, `parse_arg`, `_parse` and `parse`.
- `Scripts`: `script.py`.
- `Mutators`: `mutator.py`.
- `TowerPolicy`: the pure parts of both towers. These are the floor settings,
  `deparse`, and the feedrate rewrite of `modify_move`.
- `TowerMachines`: the towers' `Machine` class, running each line and writing
  the output.

Both tower scripts are modelled by one `Machine` class with a `policy` field.
The policy is `Temperature(start, end)` or `LinearAdvance(startK, endK)`. The
fields, the line handlers and the back-walks of the two scripts are the same
code. The policy decides only these points:
- which setting is inserted, with or without `M400`;
- whether `M104` and `M109` are overridden or passed through;
- whether moves go through `maybe_modify_move` and drop their comment.

## Model

| member | source | states |
|---|---|---|
| Text.SplitAtFirst | command.py:183-187 | `s.split(c, 1)`: with no `c`, the whole text and no rest. Otherwise the part before holds no `c`, and part + `c` + rest is the text. |
| Text.Words | command.py:188 | `str.split()`: every word is non-empty and holds no whitespace, and there are no words exactly when the line is all whitespace. |
| Text.WordsKeepEveryOtherChar | command.py:188 | The words, written one after the other, are the line with its whitespace removed: splitting drops whitespace and nothing else. |
| Text.WordsJoinRoundTrip | temptower.py:314-320 | Splitting words joined by single spaces gives the words back, when each is non-empty and space-free. |
| Text.ParseNumber | command.py:159 | `float(v)` on a plain decimal: a parsed number is well-formed (digits in its whole and fraction parts). |
| Text.RenderParseRoundTrip | command.py:159 | Parsing the text of a well-formed decimal gives the same decimal back. |
| Text.FloatTextOfWhole | command.py:193 | The text `f"{v}"` gives for a whole number is its digits followed by `.0`. |
| Text.NatTextValue | command.py:193 | `str(n)` is canonical and reads back as `n`. |
| Text.CanonicalText | command.py:193 | `str(int(s)) == s` for canonical digit text. |
| Text.RStrip | script.py:43 | `str.rstrip`: a prefix of the text that does not end in whitespace, with only whitespace cut off. |
| MachineStates.WithOffset | machine_state.py:37-41 | After `set_offset(off)`, offset + `off` is the position, or 0 when the position is unknown. Nothing else changes. |
| MachineStates.Moved | machine_state.py:49-58 | `move(amount)`: relative mode gives position + amount, otherwise offset + amount. The new position lies within the widened min/max, which only grow. |
| MachineStates.Axis.constructor | machine_state.py:22-33 | A new axis has the reset value: mode, position, min and max unknown, and offset 0. |
| MachineStates.Axis.Copy | machine_state.py:34-35 | `Axis(other)` has the same field values as `other`. |
| MachineStates.Axis.SetOffset | machine_state.py:37-41 | The axis value becomes `WithOffset` of the old value. |
| MachineStates.Axis.RelativeMove | machine_state.py:43-44 | Requires a known position, as `+=` on `None` raises. The position grows by `amount` and nothing else changes. |
| MachineStates.Axis.AbsoluteMove | machine_state.py:46-47 | The position becomes offset + amount and nothing else changes. |
| MachineStates.Axis.Move | machine_state.py:49-58 | The axis value becomes `Moved` of the old value. |
| MachineStates.Positions | machine_state.py:100-107 | The four axis positions, X, Y, Z, E in order. |
| MachineStates.PosVec | machine_state.py:109-123 | Absent exactly when one of the four positions is unknown, otherwise those four positions. |
| MachineStates.PosVecXyz | machine_state.py:125-137 | Absent exactly when X, Y or Z is unknown, otherwise those three positions. |
| MachineStates.PosVecXy | machine_state.py:139-149 | Absent exactly when X or Y is unknown, otherwise those two positions. |
| MachineStates.LocVec | machine_state.py:151-167 | Absent exactly when `pos_vec` is, otherwise `pos_vec` followed by the time, which may be infinite. |
| MachineStates.MachineState.constructor | machine_state.py:61-88 | A fresh state with fresh axes and every field at its reset value. |
| MachineStates.MachineState.Copy | machine_state.py:86-94 | A copy with the same value and four freshly made axes. |
| MachineStates.CopyIsIndependent | machine_state.py:89-94 | Moving an axis of a copy leaves the original's value unchanged. |
| MachineStates.OffsetThenAbsoluteMove | machine_state.py:37-47 | `set_offset(v)` then an absolute move to `v` puts the axis back where it was, or at 0 when its position was unknown. |
| CommandProps.Lookup | command.py:43 | `self.L` is absent exactly when the command has no letter `L`, otherwise it is that letter's value. |
| CommandProps.AArgs | command.py:57-64 | `aargs` holds exactly the parameters other than G and M, with the same value for every other letter. |
| CommandProps.AArgsInOrder | command.py:57-64 | `aargs` lists its parameters in the order the command has them. |
| CommandProps.BuildArgs | command.py:188 | The dict built from `(letter, value)` pairs has unique letters, exactly the letters of the pairs. |
| CommandProps.Insert | command.py:188 | `d[l] = v` makes `l` map to `v`, adds `l` to the letters and changes no other letter. |
| CommandProps.BuildArgsFrom | command.py:188 | Every entry of the built dict is one of the pairs. |
| CommandProps.BuildArgsKeepsLastValue | command.py:188 | Each letter of the built dict holds the value of that letter's last pair. |
| CommandProps.BuildArgsInOrder | command.py:188 | The built dict lists its letters in the order they first occur among the pairs: a repeated letter keeps its first place. |
| CommandProps.LastInAArgs | command.py:57-64 | Dropping G and M does not change which parameter is the last one with a letter from a set without G and M. |
| CommandProps.HeadDist | command.py:66-76 | `head_dist` is absent exactly when the X/Y/Z position before or after is unknown. |
| CommandProps.HeadDistXy | command.py:78-88 | `head_dist_xy` is absent exactly when the X/Y position before or after is unknown. |
| CommandProps.HeadDistZ | command.py:90-100 | `head_dist_z` is absent exactly when a Z position is unknown, otherwise before + dist == after. |
| CommandProps.HeadDistE | command.py:102-112 | `head_dist_e` is absent exactly when an E position is unknown, otherwise before + dist == after. |
| CommandProps.Minus | command.py:133-135 | The component-wise difference: v + r == u at every index. |
| CommandProps.Vector | command.py:126-135 | `vector` is absent exactly when `pos_vec` before or after is, otherwise before + vector == after on all four axes. |
| CommandProps.MovesHeadAsWrittenAlwaysRaises | command.py:114-124 | As written, `moves_head` reads the missing attribute `positions` and raises for every pair of states. |
| CommandProps.MovesHeadMeansDisplacement | command.py:114-124 | Intended `moves_head`: when it is false, the X/Y/Z position is unchanged. When it is true and both positions are known, they differ. |
| CommandEffects.AxisOfLetter | commands.py:41 | `getattr(state, letter.lower())` names axis X, Y, Z or E exactly for that letter, in either case. |
| CommandEffects.Divided | commands.py:118-126 | A number divided by `d` succeeds exactly for a number, not a flag, and the result times `d` is the number. |
| CommandEffects.MoveStep | commands.py:36-41 | F sets the feedrate of both states to F/60 and changes nothing else. Any other letter moves its axis of the state after. It raises when the letter names no axis, when the value is a flag, or on a relative move from an unknown position. |
| CommandEffects.OffsetStep | commands.py:96-100 | `G92` on a letter succeeds exactly for an axis letter with a number, setting that axis' offset as `set_offset` does. |
| CommandEffects.AccelTypeStep | commands.py:158-173 | S sets all three accelerations, while P, R and T set the print, retract and travel acceleration one each. Any other letter raises. |
| CommandEffects.WithLimit | commands.py:175-188 | Sets exactly the jerk, the acceleration limit or the speed limit of an axis. |
| CommandEffects.LimitStep | commands.py:181-188 | `M201 F` sets the frequency limit. Otherwise the value goes, as given, to the named axis' limit, and a letter that names no axis raises. |
| CommandEffects.MoveTime | commands.py:42-52 | An unknown `head_dist` raises. When the head travels, the time times the feedrate is `head_dist`, and at feedrate 0 the time is infinite (numpy division). When it does not, the time times the feedrate is `head_dist_e`; at feedrate 0 that raises division by zero. |
| CommandEffects.ExtrusionRatio | commands.py:53-60 | Present exactly for a flat move with positive X/Y distance and positive extrusion. The ratio is positive, and times the X/Y distance it gives the extrusion. |
| CommandEffects.Lower | commands.py:61-65 | The widened minimum is at most `x` and at most the old minimum, and equals one of them. |
| CommandEffects.Raise | commands.py:66-70 | The widened maximum is at least `x` and at least the old maximum, and equals one of them. |
| CommandEffects.MoveTail | commands.py:42-70 | After the loop: fails only when the time fails. With a known feedrate it adds the move's time, and an infinite time stays infinite. Otherwise the time is unchanged. The E-per-XY range is widened. |
| CommandEffects.ArgDivided | commands.py:118-126 | `self.S / d` raises for a missing letter. A result times `d` is the parameter's number. |
| CommandEffects.ArgValue | commands.py:75-80 | `self.S` succeeds exactly when the letter is present, and gives its value. Otherwise it raises `MissingArg`. |
| CommandEffects.NoOpEffect | command.py:144-148 | `NoOp` takes the state as both its before and after state. |
| CommandEffects.AbsoluteIntended | commands.py:201-205 | The intended `G90`: every axis in absolute mode, and nothing else changed. |
| CommandModel.SetLimit | commands.py:175-179 | Writing a limit into an axis object gives `WithLimit` of its old value. |
| CommandModel.AxisObjValue | commands.py:41 | The object `getattr(state, letter)` returns holds that axis of the state's value. |
| CommandModel.MoveArg | commands.py:41 | The axis move in place gives `MoveStep`'s state after, or its error. |
| CommandModel.OffsetArg | commands.py:96-100 | The offset set in place gives `OffsetStep`'s state, or its error. |
| CommandModel.LimitArg | commands.py:175-188 | The limit set in place gives `LimitStep`'s state, or its error. |
| CommandModel.AccelStep | commands.py:158-173 | The acceleration set in place gives `AccelTypeStep`'s state, or its error with the state unchanged. |
| CommandModel.ApplyMoveStep | commands.py:36-41 | One loop turn of `Move` in place gives `MoveStep`'s pair of states, or its error. |
| CommandModel.ApplyOtherStep | commands.py:96-188 | One loop turn of a non-move looping command in place gives `ArgStep`'s state, or its error. |
| CommandModel.ApplyStep | commands.py:36-188 | One loop turn of any looping command in place gives `ArgStep`'s pair, or its error. |
| CommandModel.ApplySteps | commands.py:36-41 | The loop over `aargs` gives `FoldSteps`' pair of states, or the first error. |
| CommandModel.ApplyMoveTime | commands.py:42-52 | With a known feedrate the time becomes `MoveTime`'s result, or its error. Without one the state is unchanged. |
| CommandModel.WidenExtrusionRange | commands.py:61-70 | The E-per-XY min and max become `Lower` and `Raise` of the old bounds, and nothing else changes. |
| CommandModel.ApplyMoveTail | commands.py:42-70 | The code after `Move`'s loop, in place, gives `MoveTail`'s state, or its error. |
| CommandModel.DividedArg | commands.py:118-126 | `self.S / d` in place agrees with `ArgDivided`. |
| CommandModel.ApplyEffect | commands.py:33-217 | `_evolve` of any class in place gives the pair of states `Effect` specifies, or its error. |
| CommandModel.ApplySetting | commands.py:75-211 | The non-looping `_evolve`s in place give `SettingEffect`'s state, or its error. |
| CommandModel.ApplyParameter | commands.py:75-193 | The commands that store a parameter give `ParameterEffect`'s state, or its error. |
| CommandModel.ApplyScaled | commands.py:118-126 | M220, M221 and M106 store S/100 or S/255 as `ScaledEffect` says, or raise. |
| CommandModel.ApplyStored | commands.py:75-151 | The temperature commands and M900 store S or K as `StoredEffect` says, or raise. |
| CommandModel.ApplyFixed | commands.py:113-211 | The commands assigning fixed values give `FixedEffect`'s state. |
| CommandModel.ApplyModes | commands.py:113-205 | M82, G91 and G90 set the axis modes as `FixedEffect` says. G90 as written makes every axis relative. |
| CommandModel.ApplyPlacement | commands.py:128-143 | G28, G29 and G27 place the head as `FixedEffect` says. |
| CommandModel.ApplyMove | commands.py:35-70 | `Move._evolve` in place gives `MoveEffect`'s pair of states, or its error. |
| CommandModel.Command.constructor | command.py:36-49 | Requires no G together with M, which is the constructor's assert. Keeps class, text, parameters and comment, with no states and no line numbers. |
| CommandModel.Command.Copy | command.py:32-34 | `copy` is a fresh command of the same class, text, parameters and comment, not evolved or numbered. |
| CommandModel.Command.Evolve | command.py:137-148 | `NoOp` takes `st` as both before and after. Any other class takes `st` as before and a fresh copy as after, changed as `Effect` specifies or with its error. |
| EffectProperties.FreshStateBoundsOk | machine_state.py:61-84 | A fresh state has consistent bounds. |
| EffectProperties.EffectKeepsBounds | machine_state.py:54-58 | Every command keeps each axis' minimum at most its maximum, and the same for the E-per-XY range. This is the assert at line 58. |
| EffectProperties.StepKeepsBounds | commands.py:36-41 | One loop turn keeps the bounds and the time, and changes only the feedrate of the state before. |
| EffectProperties.FoldKeepsBounds | commands.py:36-41 | The whole loop keeps the bounds and the time, and changes only the feedrate of the state before. |
| EffectProperties.SettingKeepsBounds | commands.py:75-211 | A non-looping command leaves every bound as it was. |
| EffectProperties.MoveStepOtherAxis | commands.py:41 | A loop turn for another letter leaves an axis as it was. |
| EffectProperties.FoldUntouchedAxis | commands.py:36-41 | An axis no parameter names is unchanged by the loop. |
| EffectProperties.FoldMovedAxis | commands.py:36-41 | An axis exactly one parameter names is `Moved` by that parameter's number. |
| EffectProperties.FoldFeedrate | commands.py:37-39 | With F the loop sets both feedrates to F/60. Without F it leaves the state before and the feedrate after unchanged. |
| EffectProperties.MoveUnfold | commands.py:35-70 | `Move` is its loop followed by `MoveTail`. |
| EffectProperties.MoveFeedrate | commands.py:37-39 | `G0 F v` sets the feedrate before and after to v/60. Without F the state before is unchanged. |
| EffectProperties.MoveUntouchedAxis | commands.py:36-41 | An axis a `Move` does not name keeps its value. |
| EffectProperties.MoveNamedAxis | commands.py:41 | An axis a `Move` names once moves relatively from its known position, or to offset + value. |
| EffectProperties.MoveElapsedTime | commands.py:42-52 | The time a `Move` adds is `head_dist`/feedrate, or `head_dist_e`/feedrate, measured between its own resulting states. A travelling move at feedrate 0, or one from an infinite time, ends at an infinite time. |
| EffectProperties.MoveExtrusionRange | commands.py:53-70 | After a flat extruding travel move, min E-per-XY <= its ratio <= max E-per-XY. |
| EffectProperties.NoEffect | commands.py:103-146 | `NoOp`, M105 and M420 leave the state as it was. |
| EffectProperties.HeadPlacement | commands.py:128-143 | G28 and G29 put X, Y and Z at 0. G27 makes them unknown. E and every other field keep their values. |
| EffectProperties.ModeChanges | commands.py:113-205 | G91, and G90 as written, make all four axes relative. M82 makes E absolute. Nothing else changes. |
| EffectProperties.SteppersOff | commands.py:207-211 | M84 clears `steppers` and `homed` and nothing else. |
| EffectProperties.ScaledSettings | commands.py:118-193 | M220/M221 store S/100, M106 stores S/255 and M107 stores 0. Each raises exactly when S is missing or a flag, and nothing else changes. |
| EffectProperties.StoredSettings | commands.py:75-151 | M104/M109 store S as the head temperature, M140/M190 as the bed temperature, and M900 stores K. Each raises exactly when the letter is missing. |
| EffectProperties.AccelTypes | commands.py:158-173 | M204 raises unless every parameter is S, P, R or T. Nothing but the accelerations changes. Without S, P, R and T set one each; S alone sets all three. |
| EffectProperties.AccelTypesInOrder | commands.py:158-173 | In any mix of S, P, R and T, each acceleration holds the value of the last parameter that sets it, S or its own letter. So `M204 S100 P200` and `M204 P200 S100` leave different print accelerations. |
| EffectProperties.FoldAccelLast | commands.py:161-173 | The loop over `aargs` leaves each acceleration at the last value that S or its own letter gives. |
| EffectProperties.OffsetThenMoveReturns | commands.py:96-100 | `G92 X v` then an absolute `G0 X v` returns X to where it was, or to 0. |
| EffectProperties.AbsoluteAsWrittenMovesRelatively | commands.py:201-205 | After `G90` as written, `G0 X v` fails on an unknown position and otherwise adds `v`. |
| EffectProperties.AbsoluteIntendedMovesAbsolutely | commands.py:201-205 | After the intended `G90`, `G0 X v` succeeds and sets X to offset + v. |
| CommandParsing.CodeOf | commands.py:33-214 | Each registered class answers to its `code`, such as G0, G1, M109 and G90. |
| CommandParsing.KindOfCode | command.py:193 | `codes[key]` names a class exactly for that class's code. |
| CommandParsing.CodeRoundTrip | command.py:178-179 | Every class's code leads back to that class. |
| CommandParsing.CodeInjective | command.py:178 | No two classes share a code, so `load_codes`' assert never fires. |
| CommandParsing.TableComplete | command.py:164-179 | A table holding every class under its code holds exactly the registered codes. |
| CommandParsing.RegisterAll | command.py:170-179 | The loop of `load_codes` enters every class under its own code, and only those. |
| CommandParsing.CodeRegistry.Load | command.py:164-179 | Once loaded, the table is complete. A loaded table is left as it was. |
| CommandParsing.RemoveDotZero | command.py:193 | `replace('.0', '')` never lengthens the text. |
| CommandParsing.DispatchKey | command.py:193-196 | The intended key starts with its family letter. |
| CommandParsing.KeysAgreeOnWholeNumbers | command.py:193-196 | For a whole number or a flag, the key as written equals the intended key. |
| CommandParsing.DotZeroMisroutes | command.py:193 | `G2.08` is keyed as written to G28 (Home), while the intended key names no class. |
| CommandParsing.DispatchKeyWhole | command.py:193-196 | With the intended key, only a whole number selects a class. |
| CommandParsing.ParseArg | command.py:153-160 | Fails exactly when the rest of the token is non-empty and not a number. The letter is the first character, and the value is a flag exactly for a one-character token. |
| CommandParsing.ParseArgRoundTrip | command.py:153-160 | Parsing the token written for a parameter gives that parameter. |
| CommandParsing.ParseArgs | command.py:188 | Fails exactly when some token fails. Otherwise it holds one parameter per token, as `parse_arg` reads it. |
| CommandParsing.Values | command.py:43 | The command holds one value per parameter, with the same letters. |
| CommandParsing.Classify | command.py:189-199 | Keeps the comment and the values. It never accepts G with M, and gives `NoOp` exactly for no parameters. |
| CommandParsing.ParseLine | command.py:181-200 | The comment is the text after the first `;`. The letters are unique and never G with M. |
| CommandParsing.ValuesLookup | command.py:43 | Looking a letter up in the command finds the value read for it. |
| CommandParsing.ParseLineNoOp | command.py:189-191 | A line parses to `NoOp` exactly when it has no parameter before its comment. |
| CommandParsing.ParseLineArgs | command.py:188 | Each parameter holds its letter's last token, and no letter is invented. |
| CommandParsing.ParseLineKind | command.py:192-197 | The class is the one registered under the as-written key of G, or of M when there is no G. |
| CommandParsing.ParseLineNeedsCommandLetter | command.py:198-199 | Parameters without G or M raise `ParseError` (unknown command). |
| CommandParsing.Parse | command.py:202-209 | Fails exactly when `ParseLine` fails, with its error. Otherwise it is a fresh, unevolved command with the parsed class, parameters and comment, holding the line. |
| Scripts.FinalAppend | script.py:62-71 | Evolving through two lists in turn is evolving through their concatenation. |
| Scripts.Script.Copy | script.py:31-37 | `Script(script)` holds the same commands and file name. |
| Scripts.Script.FromCommands | script.py:49-51 | A new script holding the given commands and name. |
| Scripts.Script.AnalyzeOne | script.py:54-60 | The command's state before is the running state. On success the running state becomes the command's state after. On failure it is unchanged and the error is `Effect`'s. |
| Scripts.Script.AnalyzeStep | script.py:65-70 | One loop turn advances `Final` by one command, keeping the chain of after-is-next-before. |
| Scripts.ChainGrows | script.py:69-70 | A command evolved from the chain's last state extends the chain, so the `assert` of `analyze` on the previous command's `after` holds. |
| Scripts.FinalAt | script.py:65-68 | Evolving from position `ci` is command `ci`'s effect followed by the rest, or that command's error. |
| Scripts.Script.Analyze | script.py:62-71 | Fails exactly when `Final` from a fresh state fails, with that error. On success the state is `Final`'s, and each command's before is the previous one's after. |
| Scripts.ReadAllParses | script.py:43 | The lines that commands were read from all parse. |
| Scripts.ReadNext | script.py:43 | One line becomes a fresh unanalysed command, or it is the first line that fails. |
| Scripts.ParseLines | script.py:43 | Fails exactly when some line fails, with the first failure. Otherwise there is one fresh, unanalysed command per line. |
| Scripts.FromFile | script.py:39-52 | Fails exactly for an empty file or a line that does not parse. Otherwise command `i` has original and current line number `i + 1` and no states. |
| Scripts.NumberLines | script.py:44-47 | Command `i` gets line numbers `i + 1` and keeps its states. |
| Mutators.OriginalAt | mutator.py:33 | `original[ln - 1]`: line 0 reads the last command. It is absent for no line number, a line past the end or an empty original. |
| Mutators.NumberedAtTheirLines | mutator.py:33 | In a script read from a file, every command sits at its line number, so `keep`'s assert holds. |
| Mutators.Step | mutator.py:32-43 | A kept original adds one copy with its line number. A replaced original adds its replacements, each with the original's line number. |
| Mutators.PlanOrder | mutator.py:45-48 | The output follows the original order. Each copy is of a kept original, and each replacement comes from the original it replaces. |
| Mutators.PlanLength | mutator.py:32-43 | A kept original adds exactly one command, a replaced one exactly its replacements. |
| Mutators.PlanPrefix | mutator.py:47-48 | Deciding about one more original only appends to the output. |
| Mutators.FinalSameLines | mutator.py:34 | Evolving depends only on the commands' classes and parameters, so a copy evolves like its original. |
| Mutators.PlanFailure | mutator.py:45-48 | Once the output for a prefix fails to evolve, the whole output does. |
| Mutators.Renumber | mutator.py:49-50 | Output command `k` gets current line number `k + 1`, and nothing else changes. |
| Mutators.Mutator.constructor | mutator.py:53-54 | The mutator starts as a copy of the script, with no original yet. |
| Mutators.Mutator.EvolveNext | mutator.py:37 | Fails exactly when `Final` over the output plus the command fails. Otherwise the output is evolved through it. |
| Mutators.Mutator.Keep | mutator.py:32-37 | Fails when the original is not at its line number. Otherwise it appends one copy with the original line number and evolves it. |
| Mutators.Mutator.Replace | mutator.py:39-43 | Each replacement gets the original line number and evolves, in order. Then all are appended. |
| Mutators.Mutator.Walk | mutator.py:47-48 | After the walk, the output realizes `Plan` of all the decisions, or evolving it fails. |
| Mutators.Mutator.Process | mutator.py:45-51 | The output is `Plan`, renumbered from 1 and evolved. An empty output raises at `commands[-1]`. |
| Mutators.Mutator.Init | mutator.py:53-58 | Analysis failure is passed on. Otherwise the original is the analysed script, and the output is `process`'s. |
| Mutators.Mutator.Restart | mutator.py:57-58 | Starting from the running state of the analysis with an empty output, succeeds exactly when every kept original is at its line and the plan evolves and is non-empty. On success the output realizes the plan, renumbered. |
| TowerPolicy.Trunc | temptower.py:531 | `int(x)`: truncation toward zero, within 1 of `x`, for either sign. |
| TowerPolicy.Increment | temptower.py:501-503 | Fails exactly when `floors` is 1 (division by zero). Otherwise inc * (floors - 1) == end - start. |
| TowerPolicy.ClampFloor | temptower.py:533 | `max(min(f, floors), 0)` lies between 0 and `floors`, and is `f` itself for a floor in range. |
| TowerPolicy.CurSetting | temptower.py:529-535 | Fails exactly when `floors` is 1. A temperature for the temperature tower, a K for the linear-advance tower. |
| TowerPolicy.GroundFloorIsStart | temptower.py:529-535 | Floor 0 gets exactly the start setting. |
| TowerPolicy.TopFloorIsEnd | temptower.py:584-587 | Floor `floors - 1` gets exactly the end setting. |
| TowerPolicy.LevelMonotone | temptower.py:529-535 | With start <= end, a higher floor never gets a lower setting. |
| TowerPolicy.LevelWithinRange | temptower.py:529-535 | Every floor 0 to `floors - 1` gets a setting between start and end. |
| TowerPolicy.NextFloor | temptower.py:569-582 | The floor rises by one exactly when the height passes `(floor + 1) * floor_size`. A setting is inserted then, or from the second layer on while not yet overridden. |
| TowerPolicy.FloorRisesByOne | temptower.py:572-576 | A height several floors up still moves the tower up a single floor. |
| TowerPolicy.DeparseSpacing | temptower.py:314-320 | `deparse` joins the command and arguments with single spaces, and adds ` ; comment` only for a non-empty comment. |
| TowerPolicy.WordsTrailingSpace | temptower.py:277 | A trailing space does not change the words of a line. |
| TowerPolicy.EchoReadsBack | temptower.py:272-277 | An echoed line read back by `run_line` gives the same command and arguments, and the comment behind one space. |
| TowerPolicy.ReplaceFeedrate | temptower.py:384-389 | Replacing the `F` arguments keeps the number of arguments. |
| TowerPolicy.ReplaceFeedrateArgs | temptower.py:382-391 | The argument loop of `modify_move` computes `WithFeedrate`. |
| TowerPolicy.ReplaceKeepsOthers | temptower.py:384-389 | Each `F` argument becomes `fword` and every other argument is kept in place. |
| TowerPolicy.WithFeedrateProperties | temptower.py:381-392 | `modify_move` keeps the other arguments in order and sets every `F` argument to the new feedrate. The new feedrate is present, and the list grows by one exactly when it had no `F`. |
| TowerMachines.AxisIndex | temptower.py:186 | `AXES.index(c)` finds axes 0 to 3 exactly for X, Y, Z and E. |
| TowerMachines.NewAnalysis | temptower.py:63-67 | A new line analysis moves nothing and has no retract flag yet. |
| TowerMachines.RecordedMove | temptower.py:135-150 | In both modes the line ends at the new position, and records the axis' displacement as its delta. |
| TowerMachines.WalkStart | temptower.py:103-108 | The walk stops just below the run of lines it passes. |
| TowerMachines.WalkedLabels | temptower.py:98-112 | The passed lines get their distance to line `n` and the extrusion between them. Lines outside the run, and the tested attributes, are unchanged. |
| TowerMachines.WalkedIdempotent | temptower.py:176-178 | Walking twice changes nothing more, so `check_extruder_pause` repeating `retract`'s pause walk is harmless. |
| TowerMachines.WalksCommute | temptower.py:98-113 | The retract walk and the pause walk can run in either order. |
| TowerMachines.AddLayer | temptower.py:89-92 | A layer height is recorded once, appended in first-printed order. No duplicates are kept. |
| TowerMachines.RetractFlag | temptower.py:122-133 | A move retracts exactly when its E position and the previous one are known and E dropped. |
| TowerMachines.SettingLines | linear_advance_tower.py:466-469 | The setting line comes last. The linear-advance tower writes `M400` before it, and only it writes two lines. |
| TowerMachines.FloorLines | temptower.py:577-582 | Three notes, then the setting lines, then the floor banner numbered `floor + 1`. |
| TowerMachines.ChooseRewrite | temptower.py:408-450 | A move is slowed only when it extrudes, moves the head, is fast and is near a retraction, and the new rate is not below the old. Restoring requires no `F` and a changed feedrate. |
| TowerMachines.MoveStop | temptower.py:181-188 | The first argument that is neither `F` nor an axis letter, where the move returns early. |
| TowerMachines.OffsetKeepsPlace | temptower.py:195-199 | After `G92 <axis><w>`, an absolute move to `<axis><w>` leaves the axis where it was. |
| TowerMachines.RewriteLines | temptower.py:418-450 | A slowed move writes a feedrate note before the rewritten line. The other choices write the line alone, unchanged for `AsIs`. |
| TowerMachines.Machine.constructor | temptower.py:258-264 | Keeps the G-code and starts reset, with nothing written and no analysis. |
| TowerMachines.Machine.Reset | temptower.py:242-256 | Position unknown, bounds, offsets, layers, flags and history cleared. |
| TowerMachines.Machine.Echo | temptower.py:323-325 | The deparsed line is appended exactly while outputting. |
| TowerMachines.Machine.Materialized | temptower.py:76-96 | Fails when X, Y or Z is unknown. Otherwise it widens the printed bounds, adds the layer once, clears `retracted` and `z_up`, and sets `retracting` after a retraction. |
| TowerMachines.Machine.InsertSetting | temptower.py:550-567 | Writes the current floor's setting lines and marks the setting overridden, or fails when `floors` is 1. |
| TowerMachines.Machine.MaybeInsert | temptower.py:569-582 | While outputting, follows `NextFloor` and writes `FloorLines`. Otherwise nothing changes. |
| TowerMachines.Machine.ZLift | temptower.py:475-477 | Only after the first pass, without retracting or z-hopping, may a floor start. The floor rises by at most one. |
| TowerMachines.Machine.WalkBack | temptower.py:163-174 | The history becomes `Walked` of the old one. |
| TowerMachines.Machine.Retract | temptower.py:479-483 | Sets the retract flags, applies both walks and echoes the note. |
| TowerMachines.Machine.DetectRetract | temptower.py:122-133 | Marks the line with `RetractFlag`, retracts when it is set, and remembers E. |
| TowerMachines.Machine.RecordMove | temptower.py:135-150 | The axis moves to `MovedTo`, and the line records `Recorded`. |
| TowerMachines.Machine.MoveAxis | temptower.py:135-161 | Moves the axis, records the line and widens the bounds. A new E maximum materializes. A negative Z argument marks a Z-hop. |
| TowerMachines.Machine.NewMaximum | temptower.py:151-156 | Widens the maximum. A new E maximum calls `materialized`, and a new Z maximum calls `z_lift`. |
| TowerMachines.Machine.NewMinimum | temptower.py:157-161 | Widens the minimum. A negative Z argument clears `z_up` and sets `z_hopping`. |
| TowerMachines.Machine.MoveArg | temptower.py:181-190 | F sets the feedrate and an axis letter moves its axis. Any other letter stops the move. |
| TowerMachines.Machine.MachineMove | temptower.py:180-193 | Applies the arguments up to the first unknown letter. A completed move records the feedrate and detects retraction. |
| TowerMachines.Machine.ApplyArgs | temptower.py:181-190 | The loop reports whether it reached the last argument, and leaves the feedrate as `FeedrateAfter` says. |
| TowerMachines.Machine.ArgTurn | temptower.py:182-190 | One argument: an `F` word sets the feedrate, a known axis moves it, and an unknown letter stops the move exactly at `MoveStop`. The axes not named keep their positions. |
| TowerMachines.Machine.FinishMove | temptower.py:191-193 | A completed move records the feedrate on its line when one is known, otherwise keeps the line's, and marks whether the line retracts. |
| TowerMachines.Machine.SetOffsets | temptower.py:201-208 | The offsets become `Offsets` of the old ones, or its error. |
| TowerMachines.Machine.SetOff | temptower.py:337-339 | Sets the offsets, then echoes the line on success. |
| TowerMachines.Machine.SetTemp | temptower.py:459-473 | From the second layer on, the temperature tower comments the command out and inserts the floor's setting while outputting. Otherwise the command is echoed. |
| TowerMachines.Machine.ModifyMove | temptower.py:381-392 | Writes the move with `WithFeedrate` arguments, then performs it. |
| TowerMachines.Machine.MaybeModifyMove | temptower.py:394-450 | Takes `old_feedrate` from the analysis. On success it writes `RewriteLines` for `ChooseRewrite`'s choice. |
| TowerMachines.Machine.Move | temptower.py:452-456 | Outputting temperature-tower moves go through `maybe_modify_move`. Otherwise the move is echoed and performed, and the temperature tower drops the comment. |
| TowerMachines.Machine.Dispatch | temptower.py:226-237 | G90 and G91 set the mode and echo. The other handlers echo. |
| TowerMachines.Machine.RunLine | temptower.py:266-286 | Starts the line's analysis, copies a blank line while outputting, dispatches a command, then runs the pause walk on a non-extruding line. Output only grows. |
| TowerMachines.Machine.Run | temptower.py:307-311 | Runs every line in order, then keeps the printed bounds and the whole analysis. |
| TowerMachines.Machine.Analyse | temptower.py:505-527 | Runs once, resets and divides into floors. No floors or one floor fails. On success, floor size * floors == height > 0 and the tower starts at floor 0. |
| TowerMachines.Machine.DivideIntoFloors | temptower.py:517-526 | Succeeds exactly for `floors` not 0 or 1 and a positive height, and reports which error otherwise. |
| TowerMachines.Machine.Generate | temptower.py:584-587 | Runs again with output open. Success means the top floor was reached, whose setting is the end setting. |
| TowerMachines.MakeTower | temptower.py:589-590 | 0 or 1 floors fail. A generated tower is the machine's output and ends on floor `floors - 1` with the end setting. |

## Left out

- ParseNumber: reads only plain decimals: a sign, digits and an optional fraction. `float()` also accepts exponents (`1e3`), `inf`, `nan` and `_` digit separators, which the model refuses.
- FloatText: uses exact decimals. It does not model the rounding of Python's float `repr`, so a key such as `G1.00000000000000001` is not folded to `G1`.
- DecValue: exact decimal values stand in for binary floating point throughout.
- MoveTime: has one unsigned infinite time. With `F-0` the feedrate is `-0.0`, so numpy gives `-inf`, and a later `inf + -inf` is `nan`. Signed infinities and `nan` are not modelled.
- Words: `IsSpace` is ASCII whitespace only, so the Unicode whitespace `str.split()` also splits on is not modelled.
- Logging (`INFO`, `CRITICAL`) and all `print` output are left out. The towers' output file is modelled as the `written` list.
- Argument parsing, file reading and output file naming at the top of the tower scripts are left out. The G-code arrives as a list of right-stripped lines.
- formatFeedrate: `f"{feedrate:0.5}"` is a parameter of the tower, because float formatting is outside the model.
- Notes that print numbers (`; temptower.py: height …`, `Retract …`, the floor banner) are kept as structured `Emitted` values, not formatted text.
- The `SLOW_BEFORE == 'any'` branch, the `EXTRA_Z_HOP` lines and `insert_dwell` are dead code at the constants shipped (`SLOW_BEFORE = 'retract'`, `EXTRA_Z_HOP = 0`), so they are not modelled.
- The base `z_lift` and `z_hop` are not modelled: the towers' `z_lift` never calls `z_hop`.
- The linear-advance tower's logging flag (`run_line`, linear_advance_tower.py:384-391) sets a flag and writes nothing.
- The linear-advance `overriden` prefix is not modelled: that tower passes `M104`/`M109` through and never calls `overriden`.
- The scripts' top-level asserts on their arguments (`start_temp < end_temp`, the file exists) are left out.
- `floors` is a real for both towers. The temperature tower reads it with `int()`, which the model does not restrict.
- `retracting` and `z_hopping` start as false rather than absent. `end` gives them that value anyway before they are read.
- `numpy` vector arithmetic in `head_dist` is a parameter `norm`, the Euclidean norm, whose value the model does not fix.
- Python object identity is modelled by Dafny references: `Command`, `Axis`, `MachineState`. The `is` checks of `keep` and `analyze` are kept. `__dict__` attribute storage is modelled by explicit fields.
- The remaining `gcode.py`, `gcode_machine.py`, `smooth.py`, `post.py` and the web and C tools are not part of this model.

## Findings

| source | as written | input that shows it | evidently intended | confidence | as-written member | corrected member |
|---|---|---|---|---|---|---|
| commands.py:204-205 | `G90` sets `axis.relative = True` on every axis, as `G91` does | `G28`, `G90`, `G1 X10`, `G1 X20` ends at X = 30; `G90`, `G1 X10` from a fresh state raises on the unknown position | `G90` selects absolute mode, `relative = False` | high, not executed | EffectProperties.AbsoluteAsWrittenMovesRelatively | EffectProperties.AbsoluteIntendedMovesAbsolutely |
| command.py:193 | the key removes every `.0` with `replace('.0', '')` | `G2.08` is keyed `G28` and runs `Home`; `M10.09` runs `M109` | only a trailing `.0` of a whole number is dropped | high, not executed | CommandParsing.DotZeroMisroutes | CommandParsing.DispatchKeyWhole |
| command.py:116-117 | `moves_head` reads `self.before.positions`, an attribute `MachineState` does not have | any evolved command: the property raises `AttributeError` | compare the X/Y/Z `position`s of the two states | high, not executed | CommandProps.MovesHeadAsWrittenAlwaysRaises | CommandProps.MovesHeadMeansDisplacement |

The model follows the code as written: `Effect` gives `G90` its as-written
effect, and `_parse` dispatches with the as-written key. The intended `G90` is
`AbsoluteIntended` and the intended key is `DispatchKey`; each is proved
separately.
