# AudioTool session and command model

A Dafny model of `AudioTool`, the fluent Android helper that keeps one
working copy of an audio file in a temporary directory and hands FFmpeg
argument vectors that edit that copy in place.

The model has six modules:

- `JavaLang` covers the Java integer semantics the tool relies on. These are
  `int`/`long`, division and remainder that truncate toward zero, and the
  decimal text that `"" + n` produces. A parser (`ParseDecimal`) inverts that
  decimal text.
- `Limiter` is `Limiter.limit`: an inclusive clamp, over integers and over
  reals. Reals stand in for `float`.
- `Commands` holds the filter descriptor (`Filter`) for each editing
  operation. It also holds the limiting builders, the echo presets, and the
  rendering into the FFmpeg argument vector (`Segment`, `Argv`). Every
  vector has the shape `-y -i <working file> … <working file>`.
- `Durations` is the unit conversion of `getDuration`. Its MINUTES result is
  the minute within the current hour.
- `Session` is the class `AudioTool`. Its fields are:
  - the temporary directory;
  - the working file (`audio`);
  - a file store (a map from path to content);
  - an ordered `trace` of engine invocations and callback deliveries.

  Each engine invocation replaces the working file's content with
  `Processed(old content, arguments)`. This is the opaque result of FFmpeg.
  `Valid()` is the session invariant. The working file carries the marker
  `tmp_audio_file_` directly inside the temporary directory. Every engine
  invocation so far edited such a file in place. So an engine run can never
  touch the source file or a saved copy, unless their names carry the marker
  inside that directory.

Inputs from outside the model are explicit parameters:

- the temporary directory;
- the clock reading used in the working file name;
- the source's file extension;
- the outcome of probing the working file's length (`probe`);
- the float-to-text rendering (`renderFloat`).

Behaviour of the code that the model keeps as it is:

- MINUTES is the minute within the hour. 5 400 000 ms gives
  `(5400000 % 3600000) / 60000 = 30`, not 90 (`Durations.NinetyMinuteExample`).
- The code has no state guard and no undo:
  - `withAudio` on a missing source leaves the session as it was, so a
    first such call leaves no working file bound;
  - after `releaseCurrent`, every editing operation except the windowed
    `changeAudioVolume` still calls the engine, on a path that no longer
    exists, and no file changes;
  - the windowed `changeAudioVolume` and `getDuration` probe the working
    file first; when it is missing or unbound, the probe throws, so neither
    the engine nor the callback runs (`thrown` in the model);
  - the unimplemented operations do nothing, or deliver the callback without
    an edit.
- A reversed volume window (start after end) is kept reversed.
- Two paths have no null check on the callback:
  - `cutAudio(int, int, callback)` runs the engine and then throws;
  - `getDuration` throws without delivering.
- `onResultFile` with no working file bound hands the callback null. The
  reverb and shifter stubs go through it, so they do this too.

## Model

| member | source | states |
|---|---|---|
| `JavaLang.Quot` | library/src/main/java/linc/com/library/AudioTool.java:290-292 | Java `long` division by a positive constant truncates toward zero: the remainder it leaves is in [0, d) for non-negative and (-d, 0] for negative dividends |
| `JavaLang.Rem` | library/src/main/java/linc/com/library/AudioTool.java:292 | Java `%` satisfies `(a/d)*d + a%d == a`, and the remainder takes the sign of the dividend and is smaller than the divisor |
| `JavaLang.Decimal` | library/src/main/java/linc/com/library/AudioTool.java:99 | `"" + n` yields a non-empty string of digits and minus signs, so it never contains a path separator |
| `JavaLang.DecimalRoundTrip` | library/src/main/java/linc/com/library/AudioTool.java:99 | the text `"" + n` puts into an argument reads back as exactly `n` |
| `JavaLang.DecimalInjective` | library/src/main/java/linc/com/library/AudioTool.java:47 | distinct integers render as distinct text |
| `Limiter.Clamp` | library/src/main/java/linc/com/library/AudioTool.java:206-207 | integer `Limiter.limit` lands in [min, max], leaves in-range values alone and snaps values below/above to min/max |
| `Limiter.ClampReal` | library/src/main/java/linc/com/library/AudioTool.java:233-234 | the same for the floating-point `Limiter.limit` |
| `Limiter.ClampIdempotent` | library/src/main/java/linc/com/library/AudioTool.java:206-207 | limiting twice equals limiting once |
| `Limiter.ClampRealIdempotent` | library/src/main/java/linc/com/library/AudioTool.java:185-186 | limiting a float twice equals limiting once |
| `Limiter.ClampMonotone` | library/src/main/java/linc/com/library/AudioTool.java:137-138 | limiting keeps order: an ordered pair stays ordered |
| `Commands.EchoArgument` | library/src/main/java/linc/com/library/AudioTool.java:220-226 | a value gets the default two-tap echo string if and only if it is not one of the three named presets |
| `Commands.EchoArgumentInjective` | library/src/main/java/linc/com/library/AudioTool.java:221-225 | each preset maps to its own fixed string: no two presets share one |
| `Commands.Segment` | library/src/main/java/linc/com/library/AudioTool.java:99-277 | every operation contributes at least one argument of its own between input and output |
| `Commands.Argv` | library/src/main/java/linc/com/library/AudioTool.java:99-277 | every engine argument vector begins `-y`, `-i`, working path, ends with the working path, and carries the operation's segment in between: an in-place edit |
| `Commands.CutSecondsFilter` | library/src/main/java/linc/com/library/AudioTool.java:98-101 | integer `cutAudio` passes both offsets through unlimited: the `-ss`/`-to` arguments read back as exactly `start` and `end` |
| `Commands.WindowedVolumeFilter` | library/src/main/java/linc/com/library/AudioTool.java:135-139 | volume lies in [0,12000] and both window ends in [0, durationMillis/1000]; in range unchanged, below the range the lower bound, above it the upper bound; an ordered window stays ordered |
| `Commands.WindowedGainTextInRange` | library/src/main/java/linc/com/library/AudioTool.java:137-139 | the window ends written into the `between(t,…)` argument read back as the limited values, within [0, length in seconds] |
| `Commands.WindowMayStayReversed` | library/src/main/java/linc/com/library/AudioTool.java:137-138 | the ends are limited independently: start 8, end 3 on a 10 s file stays 8 > 3 |
| `Commands.BassFilter` | library/src/main/java/linc/com/library/AudioTool.java:183-188 | gain in [-20,20], width in [0,1], frequency in [0,999999]; in range unchanged, below the range the lower bound, above it the upper bound |
| `Commands.BassTextInRange` | library/src/main/java/linc/com/library/AudioTool.java:185-188 | the frequency written into the `bass=` argument reads back as the limited value, in [0,999999] |
| `Commands.BandPassFilter` | library/src/main/java/linc/com/library/AudioTool.java:205-208 | highpass and lowpass in [0,999999]; in range unchanged, below 0 becomes 0, above 999999 becomes 999999 |
| `Commands.BandPassTextInRange` | library/src/main/java/linc/com/library/AudioTool.java:206-208 | both cut-offs written into the `highpass`/`lowpass` argument read back as the limited values, in [0,999999] |
| `Commands.NoiseRemovalBand` | library/src/main/java/linc/com/library/AudioTool.java:193-196 | noise removal's 400/4000 Hz band passes the limiter unchanged |
| `Commands.VibratoFilter` | library/src/main/java/linc/com/library/AudioTool.java:232-235 | frequency in [0.1,20000], depth in [0,1]; in range unchanged, below the range the lower bound, above it the upper bound |
| `Commands.BuildersIdempotent` | library/src/main/java/linc/com/library/AudioTool.java:183-235 | feeding a built bass, band-pass or vibrato descriptor's numbers back into its builder reproduces it |
| `Durations.DurationIn` | library/src/main/java/linc/com/library/AudioTool.java:286-296 | MILLIS is the probed value; SECONDS is the whole seconds elapsed (truncated toward zero); MINUTES lies in [-59,59], and in [0,59] for non-negative lengths |
| `Durations.MinutesWithinHour` | library/src/main/java/linc/com/library/AudioTool.java:292 | for non-negative lengths MINUTES equals total whole minutes modulo 60: the minute within the hour, not the total |
| `Durations.NinetyMinuteExample` | library/src/main/java/linc/com/library/AudioTool.java:288-292 | 5 400 000 ms gives 5 400 000, 5400 and 30, while total minutes would be 90 |
| `Session.WorkingFileName` | library/src/main/java/linc/com/library/AudioTool.java:43-49 | the working file is a direct entry of the temporary directory whose name starts with `tmp_audio_file_` |
| `Session.WorkingFileNamesDistinct` | library/src/main/java/linc/com/library/AudioTool.java:43-49 | different clock readings give different working file names, even when the two sources have different extensions |
| `Session.Swept` | library/src/main/java/linc/com/library/AudioTool.java:79-86 | the sweep keeps exactly the files that are not marked direct entries of the directory, with their contents unchanged |
| `Session.SweepIdempotent` | library/src/main/java/linc/com/library/AudioTool.java:79-86 | a second sweep removes nothing more |
| `Session.EngineEffect` | library/src/main/java/linc/com/library/AudioTool.java:99 | an in-place engine run changes only the file its arguments name, and only if it exists; no file appears or disappears |
| `Session.FileResult` | library/src/main/java/linc/com/library/AudioTool.java:316-320 | one delivery of the given file (possibly null) for a non-null callback, none for a null callback |
| `Session.AudioTool.constructor` | library/src/main/java/linc/com/library/AudioTool.java:27-34 | a new tool has its directory resolved, no working file and an empty trace |
| `Session.AudioTool.Execute` | library/src/main/java/linc/com/library/AudioTool.java:99 | an engine call is appended to the trace and edits the file it names in place |
| `Session.AudioTool.WithAudio` | library/src/main/java/linc/com/library/AudioTool.java:40-55 | an existing source is copied into the fresh marked working file, which becomes `audio`; a missing source changes nothing |
| `Session.AudioTool.SaveTo` | library/src/main/java/linc/com/library/AudioTool.java:61-67 | the working file's content is copied to the destination; the working path and everything else stay |
| `Session.AudioTool.ReleaseCurrent` | library/src/main/java/linc/com/library/AudioTool.java:72-74 | only the working file is deleted |
| `Session.AudioTool.ReleaseAll` | library/src/main/java/linc/com/library/AudioTool.java:79-86 | the store becomes its sweep: every marked direct entry, the working file included, is gone and every other file is untouched |
| `Session.AudioTool.OnResultFile` | library/src/main/java/linc/com/library/AudioTool.java:316-320 | a non-null callback receives the working file once, or null when none is bound; a null callback receives nothing |
| `Session.AudioTool.CutAudio` | library/src/main/java/linc/com/library/AudioTool.java:98-101 | one engine run with the unlimited `-ss`/`-to` offsets, no delivery |
| `Session.AudioTool.CutAudioNotify` | library/src/main/java/linc/com/library/AudioTool.java:92-96 | the same cut, then the callback receives the working file; there is no null check, so a null callback throws after the engine has run |
| `Session.AudioTool.CutAudioTimecode` | library/src/main/java/linc/com/library/AudioTool.java:108-112 | the time strings go to the engine as given, then the optional delivery |
| `Session.AudioTool.GenerateWaveform` | library/src/main/java/linc/com/library/AudioTool.java:121-129 | changes nothing: no engine run, no delivery |
| `Session.AudioTool.ChangeAudioVolumeWindow` | library/src/main/java/linc/com/library/AudioTool.java:135-156 | a probe that throws leaves files and trace unchanged; otherwise one engine run with the gain and window limited to the probed length, then the optional delivery |
| `Session.AudioTool.ChangeAudioVolume` | library/src/main/java/linc/com/library/AudioTool.java:158-163 | one engine run with the gain exactly as passed (no limiting), then the optional delivery |
| `Session.AudioTool.NormalizeAudioVolume` | library/src/main/java/linc/com/library/AudioTool.java:165-169 | one `loudnorm` engine run, then the optional delivery |
| `Session.AudioTool.ChangeAudioSpeed` | library/src/main/java/linc/com/library/AudioTool.java:171-175 | one engine run with the fixed `atempo=2.0`, whatever `xSpeed` is, then the optional delivery |
| `Session.AudioTool.ChangeAudioPitch` | library/src/main/java/linc/com/library/AudioTool.java:177-181 | changes nothing |
| `Session.AudioTool.ChangeAudioBass` | library/src/main/java/linc/com/library/AudioTool.java:183-191 | one engine run with the limited bass parameters, then the optional delivery |
| `Session.AudioTool.RemoveAudioNoise` | library/src/main/java/linc/com/library/AudioTool.java:193-196 | exactly the effect of `filterAudio(400, 4000, callback)` |
| `Session.AudioTool.RemoveVocal` | library/src/main/java/linc/com/library/AudioTool.java:198-203 | one phase-cancel engine run forced to mono, then the optional delivery |
| `Session.AudioTool.FilterAudio` | library/src/main/java/linc/com/library/AudioTool.java:205-211 | one engine run with the limited high-pass/low-pass pair, then the optional delivery |
| `Session.AudioTool.ReverseAudio` | library/src/main/java/linc/com/library/AudioTool.java:213-217 | one `areverse` engine run copying the video stream, then the optional delivery |
| `Session.AudioTool.ApplyEchoEffect` | library/src/main/java/linc/com/library/AudioTool.java:219-230 | one engine run with the preset's echo string, then the optional delivery |
| `Session.AudioTool.ApplyVibratoEffect` | library/src/main/java/linc/com/library/AudioTool.java:232-238 | one engine run with the limited vibrato parameters, then the optional delivery |
| `Session.AudioTool.ApplyReverbEffect` | library/src/main/java/linc/com/library/AudioTool.java:240-245 | no engine run and no file change, yet the callback receives the working file, or null when none is bound |
| `Session.AudioTool.ApplyShifterEffect` | library/src/main/java/linc/com/library/AudioTool.java:247-274 | no engine run and no file change, yet the callback receives the working file, or null when none is bound |
| `Session.AudioTool.ConvertVideoToAudio` | library/src/main/java/linc/com/library/AudioTool.java:276-280 | one `-vn` engine run, then the optional delivery |
| `Session.AudioTool.JoinAudios` | library/src/main/java/linc/com/library/AudioTool.java:282-284 | changes nothing |
| `Session.AudioTool.GetDuration` | library/src/main/java/linc/com/library/AudioTool.java:286-296 | when the probe succeeds and the callback is non-null, exactly one number, the probed length in the requested unit, is delivered; otherwise the call throws and delivers nothing; files and working path are untouched |
| `Session.AudioTool.ExecuteFFmpeg` | library/src/main/java/linc/com/library/AudioTool.java:298-300 | changes nothing: the command is not run |
| `Session.EditAndSave` | library/src/main/java/linc/com/library/AudioTool.java:40-163 | open, cut to 0–10 s, halve the volume, save: the source file is unchanged and the destination holds the working copy as edited by those two engine runs in order |

## Left out

- FFmpeg itself and the audio it produces. The engine is opaque: an edited
  file holds `Processed(previous content, arguments)`. The engine's return
  code is ignored by the code, and the model ignores it too. A failed or
  partial run is indistinguishable from a successful one.
- `MediaMetadataRetriever` and `Long.parseLong`. The probe's outcome is the
  parameter `probe`: the length in milliseconds, or `None` when the probe
  throws. Which exception it throws is not modelled. The two probe calls of
  the windowed volume operation are taken to return the same value.
- `Commands.WindowedVolumeFilter` requires `0 <= durationMillis <= 2^31 - 1`.
  The `(int)` cast of longer lengths wraps, and the result of
  `Limiter.limit` when max < min is not visible.
- `Session.AudioTool.ChangeAudioVolumeWindow` requires the same of a probed
  length, for the same reason.
- Android `Context` and `ContextCompat.getExternalFilesDirs`. The temporary
  directory is a constructor parameter.
- `System.currentTimeMillis`. The clock reading is a parameter of `WithAudio`.
- `FileManager.copyFile` is not part of this model. A copy is a map update that
  succeeds whenever the source exists. An `IOException` from a copy that
  fails after `audio` has been reassigned is not modelled.
- `Session.AudioTool.SaveTo`: a copy whose source is missing is taken to
  change nothing, since what `FileManager.copyFile` does then is not known.
- `FileManager.getFileExtension` is not part of this model. The extension is a
  parameter and must not contain a path separator.
- `Session.WorkingFileNamesDistinct` takes each extension not to start with a
  digit, as `.mp3` does. Otherwise clock reading 1 with `2.mp3` and clock
  reading 12 with `.mp3` give the same name.
- `Limiter.limit` is not part of this model. It is taken as an inclusive
  clamp.
- Java `float`. Float values are reals, so `0.1f` is taken as 0.1 and float
  rounding is not modelled. Reals have no NaN. `Limiter.limit` compares, so
  it lets NaN through. The ranges in `Commands.WithinDeclaredRanges` therefore
  hold in Java only for arguments that are not NaN. `Float.toString` is the class constant
  `renderFloat`, which the model does not spell out.
- Exceptions reported through `printStackTrace`.
- Null-pointer failures:
  - a null `audio` in the editing operations, which throw on
    `audio.getPath()`, in `releaseCurrent`, which throws on `audio.delete()`,
    and in `saveTo`, which passes null to `FileManager.copyFile`. Their model
    methods require a bound working file;
  - a null `echo`;
  - a null `duration`, on which the `switch` of `getDuration` throws before
    probing;
  - a `listFiles()` that returns null.
- Subdirectories of the temporary directory and `File` path normalisation.
  The store holds plain files under path strings.
- The fluent `return this`. Chaining is a sequence of method calls on the same
  object.
- The unused `android.media.audiofx` and `MediaStore` imports.
