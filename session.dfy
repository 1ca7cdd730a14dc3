/**
  The `AudioTool` session: one working copy of an audio file inside a
  temporary directory, edited in place by the FFmpeg engine.

  The file system is a map from path strings to contents. The engine is
  opaque: after it runs on an existing working file, that file holds
  `Processed(previous content, arguments)`, whatever the engine made of it.
  Everything the session does outside the file system (engine invocations
  and callback deliveries) is recorded, in order, in `trace`.
 */
module Session {
  import opened Wrappers
  import opened JavaLang
  import opened Commands
  import opened Durations

  /** `File.separator` */
  const SEPARATOR: char := '/'
  /** The marker that names every working file of the tool. */
  const TMP_PREFIX: string := "tmp_audio_file_"

  datatype Content =
    | Bytes(data: seq<bv8>)
    | Processed(input: Content, args: seq<string>)

  /** A non-null completion callback, told apart from others by `id`. */
  datatype Callback = Callback(id: nat)

  datatype Event =
    | Engine(args: seq<string>)
      /** `file` is `None` when the callback receives a null `audio` */
    | FileDelivered(callback: Callback, file: Option<string>)
    | NumberDelivered(callback: Callback, value: int)

  predicate StartsWith(s: string, prefix: string)
  {
    |prefix| <= |s| && s[..|prefix|] == prefix
  }

  /** `path` names an entry directly inside the directory `dir`. */
  predicate IsEntryOf(dir: string, path: string)
  {
    |dir| + 1 < |path| && path[..|dir|] == dir && path[|dir|] == SEPARATOR && SEPARATOR !in path[|dir| + 1..]
  }

  /** `path` is an entry of `dir` whose name carries the marker. */
  predicate IsTmpEntry(dir: string, path: string)
  {
    IsEntryOf(dir, path) && StartsWith(path[|dir| + 1..], TMP_PREFIX)
  }

  /**
    The working file `withAudio` creates: the marker, the clock reading and
    the source's extension, inside the temporary directory.
   */
  function WorkingFileName(dir: string, timestamp: int64, extension: string): (p: string)
    requires SEPARATOR !in extension
    ensures IsTmpEntry(dir, p)
  {
    var name := TMP_PREFIX + Decimal(timestamp) + extension;
    assert SEPARATOR !in Decimal(timestamp);
    assert dir + [SEPARATOR] + name == (dir + [SEPARATOR]) + name;
    dir + [SEPARATOR] + name
  }

  /** The middle part of a three-part concatenation can be cut back out. */
  lemma MiddleOfConcat(a: string, m: string, z: string)
    ensures (a + m + z)[|a|..|a| + |m|] == m
  {
    assert forall i :: 0 <= i < |m| ==> (a + m + z)[|a| + i] == m[i];
  }

  /** An extension that does not begin with a digit, such as `.mp3`. */
  predicate IsExtension(e: string)
  {
    SEPARATOR !in e && (e == [] || !IsDigit(e[0]))
  }

  /**
    A shorter clock reading followed by an extension cannot spell a longer
    one: just past the shorter reading, the longer one still has a digit.
   */
  lemma ShorterReadingDiffers(front: string, d1: string, e1: string, d2: string, e2: string)
    requires 1 <= |d1| < |d2| && forall i :: 1 <= i < |d2| ==> IsDigit(d2[i])
    requires e1 == [] || !IsDigit(e1[0])
    ensures front + d1 + e1 != front + d2 + e2
  {
    var k := |front| + |d1|;
    assert (front + d2 + e2)[k] == d2[|d1|];
    if e1 != [] {
      assert (front + d1 + e1)[k] == e1[0];
    }
  }

  /**
    Two different clock readings never give the same working file name,
    whatever extensions the two sources have.
   */
  lemma WorkingFileNamesDistinct(dir: string, t1: int64, t2: int64, e1: string, e2: string)
    requires IsExtension(e1) && IsExtension(e2) && t1 != t2
    ensures WorkingFileName(dir, t1, e1) != WorkingFileName(dir, t2, e2)
  {
    var front := dir + [SEPARATOR] + TMP_PREFIX;
    var d1, d2 := Decimal(t1), Decimal(t2);
    assert WorkingFileName(dir, t1, e1) == front + d1 + e1;
    assert WorkingFileName(dir, t2, e2) == front + d2 + e2;
    if |d1| < |d2| {
      ShorterReadingDiffers(front, d1, e1, d2, e2);
    } else if |d2| < |d1| {
      ShorterReadingDiffers(front, d2, e2, d1, e1);
    } else if front + d1 + e1 == front + d2 + e2 {
      MiddleOfConcat(front, d1, e1);
      MiddleOfConcat(front, d2, e2);
      DecimalInjective(t1, t2);
    }
  }

  /** The store after the sweep of `releaseAll`. */
  function Swept(files: map<string, Content>, dir: string): (m: map<string, Content>)
    ensures forall p :: p in m <==> p in files && !IsTmpEntry(dir, p)
    ensures forall p :: p in m ==> m[p] == files[p]
  {
    map p | p in files && !IsTmpEntry(dir, p) :: files[p]
  }

  /** Sweeping twice deletes nothing more than sweeping once. */
  lemma SweepIdempotent(files: map<string, Content>, dir: string)
    ensures Swept(Swept(files, dir), dir) == Swept(files, dir)
  {
  }

  /** What one in-place engine invocation does to the store. */
  function EngineEffect(files: map<string, Content>, args: seq<string>): (m: map<string, Content>)
    requires IsInPlaceEdit(args)
    ensures m.Keys == files.Keys
    ensures forall p :: p in files && p != args[2] ==> m[p] == files[p]
    ensures args[2] in files ==> m[args[2]] == Processed(files[args[2]], args)
  {
    if args[2] in files then files[args[2] := Processed(files[args[2]], args)] else files
  }

  /** The delivery `onResultFile` makes: one event for a callback, none for null. */
  function FileResult(callback: Option<Callback>, file: Option<string>): (e: seq<Event>)
    ensures |e| == (if callback.Some? then 1 else 0)
    ensures callback.Some? ==> e[0] == FileDelivered(callback.value, file)
  {
    if callback.Some? then [FileDelivered(callback.value, file)] else []
  }

  class AudioTool {
    const tmpDirectory: string
    /** `Float.toString`, which this model does not spell out */
    const renderFloat: real -> string
    var audio: Option<string>
    var files: map<string, Content>
    var trace: seq<Event>

    /**
      The working file carries the marker inside the temporary directory,
      and every engine invocation so far edited such a file in place.
     */
    ghost predicate Valid()
      reads this
    {
      && (audio.Some? ==> IsTmpEntry(tmpDirectory, audio.value))
      && forall k :: 0 <= k < |trace| && trace[k].Engine? ==>
          IsInPlaceEdit(trace[k].args) && IsTmpEntry(tmpDirectory, trace[k].args[2])
    }

    function Working(): string
      reads this
      requires audio.Some?
    {
      audio.value
    }

    /**
      The effect of one editing operation with filter `f`: the engine ran
      once on the working file, then `callback`, if not null, received it.
     */
    ghost predicate Edited(trace0: seq<Event>, files0: map<string, Content>, f: Filter, callback: Option<Callback>)
      reads this
      requires audio.Some?
    {
      var args := Argv(Working(), f, renderFloat);
      trace == trace0 + [Engine(args)] + FileResult(callback, audio) && files == EngineEffect(files0, args)
    }

    /** `getInstance(context)`: the directory is resolved once, no file is bound yet. */
    constructor (tmpDirectory: string, renderFloat: real -> string, files: map<string, Content>)
      ensures Valid()
      ensures this.tmpDirectory == tmpDirectory && this.renderFloat == renderFloat
      ensures audio == None && this.files == files && trace == []
    {
      this.tmpDirectory := tmpDirectory;
      this.renderFloat := renderFloat;
      this.audio := None;
      this.files := files;
      this.trace := [];
    }

    /** `FFmpeg.execute`: the engine edits the file its arguments name. */
    method Execute(args: seq<string>)
      requires Valid()
      requires IsInPlaceEdit(args) && IsTmpEntry(tmpDirectory, args[2])
      modifies this
      ensures Valid() && audio == old(audio)
      ensures trace == old(trace) + [Engine(args)]
      ensures files == EngineEffect(old(files), args)
    {
      trace := trace + [Engine(args)];
      files := EngineEffect(files, args);
    }

    /** `withAudio`: copy an existing source into a fresh working file. */
    method WithAudio(source: string, timestamp: int64, extension: string)
      requires Valid() && SEPARATOR !in extension
      modifies this
      ensures Valid() && trace == old(trace)
      ensures source in old(files) ==>
        && audio == Some(WorkingFileName(tmpDirectory, timestamp, extension))
        && files == old(files)[audio.value := old(files)[source]]
      ensures source !in old(files) ==> audio == old(audio) && files == old(files)
    {
      if source in files {
        var name := WorkingFileName(tmpDirectory, timestamp, extension);
        audio := Some(name);
        files := files[name := files[source]];
      }
    }

    /** `saveTo`: copy the working file, if it exists, to `fullPath`. */
    method SaveTo(fullPath: string)
      requires Valid() && audio.Some?
      modifies this
      ensures Valid() && audio == old(audio) && trace == old(trace)
      ensures Working() in old(files) ==> files == old(files)[fullPath := old(files)[Working()]]
      ensures Working() !in old(files) ==> files == old(files)
    {
      if Working() in files {
        files := files[fullPath := files[Working()]];
      }
    }

    /** `releaseCurrent`: delete the working file and nothing else. */
    method ReleaseCurrent()
      requires Valid() && audio.Some?
      modifies this
      ensures Valid() && audio == old(audio) && trace == old(trace)
      ensures files == old(files) - {Working()}
    {
      files := files - {Working()};
    }

    /**
      `releaseAll`: go through the entries of the temporary directory and
      delete each whose name starts with the marker.
     */
    method ReleaseAll()
      requires Valid()
      modifies this
      ensures Valid() && audio == old(audio) && trace == old(trace)
      ensures files == Swept(old(files), tmpDirectory)
      ensures audio.Some? ==> Working() !in files
    {
      var entries := set p | p in files && IsEntryOf(tmpDirectory, p);
      while entries != {}
        invariant Valid() && audio == old(audio) && trace == old(trace)
        invariant forall p :: p in files <==> p in old(files) && (!IsTmpEntry(tmpDirectory, p) || p in entries)
        invariant forall p :: p in files ==> files[p] == old(files)[p]
        decreases entries
      {
        var entry :| entry in entries;
        if StartsWith(entry[|tmpDirectory| + 1..], TMP_PREFIX) {
          files := files - {entry};
        }
        entries := entries - {entry};
      }
      assert files == Swept(old(files), tmpDirectory);
    }

    /**
      `onResultFile`: hand the working file to a non-null callback; with no
      working file bound the callback receives null.
     */
    method OnResultFile(callback: Option<Callback>)
      modifies this
      ensures audio == old(audio) && files == old(files)
      ensures trace == old(trace) + FileResult(callback, audio)
    {
      if callback.Some? {
        trace := trace + [FileDelivered(callback.value, audio)];
      }
    }

    /** `cutAudio(int, int)`: keep [start, end] seconds; the offsets are not limited. */
    method CutAudio(start: int32, end: int32)
      requires Valid() && audio.Some?
      modifies this
      ensures Valid() && audio == old(audio)
      ensures Edited(old(trace), old(files), CutSecondsFilter(start, end), None)
    {
      Execute(Argv(Working(), CutSecondsFilter(start, end), renderFloat));
    }

    /**
      `cutAudio(int, int, callback)`: the cut, then the callback, with no
      null check: a null callback throws after the engine has run.
     */
    method CutAudioNotify(start: int32, end: int32, callback: Option<Callback>) returns (thrown: bool)
      requires Valid() && audio.Some?
      modifies this
      ensures Valid() && audio == old(audio)
      ensures Edited(old(trace), old(files), CutSecondsFilter(start, end), callback)
      ensures thrown <==> callback.None?
    {
      CutAudio(start, end);
      thrown := callback.None?;
      if !thrown {
        trace := trace + [FileDelivered(callback.value, audio)];
      }
    }

    /** `cutAudio(String, String, callback)`: the offsets go to the engine as given. */
    method CutAudioTimecode(start: string, end: string, callback: Option<Callback>)
      requires Valid() && audio.Some?
      modifies this
      ensures Valid() && audio == old(audio)
      ensures Edited(old(trace), old(files), Trim(start, end), callback)
    {
      Execute(Argv(Working(), Trim(start, end), renderFloat));
      OnResultFile(callback);
    }

    /** `generateWaveform`: declared, does nothing. */
    method GenerateWaveform(format: string, width: int32, height: int32, color: string, callback: Option<Callback>)
      ensures unchanged(this)
    {
    }

    /**
      `changeAudioVolume(volume, start, end, callback)`: gain limited to
      [0, 12000] over a window whose ends are limited to the probed length
      in seconds. `probe` is what probing the working file yields: its
      length in milliseconds, or `None` when the probe throws (no working
      file bound, a missing file, no duration tag). The exception escapes
      before the engine runs, so nothing changes.
     */
    method ChangeAudioVolumeWindow(volume: real, start: int32, end: int32, probe: Option<int64>, callback: Option<Callback>)
      returns (thrown: bool)
      requires Valid()
      requires probe.Some? ==> audio.Some? && Working() in files && 0 <= probe.value <= INT32_MAX
      modifies this
      ensures Valid() && audio == old(audio)
      ensures thrown <==> probe.None?
      ensures thrown ==> files == old(files) && trace == old(trace)
      ensures !thrown ==> Edited(old(trace), old(files), WindowedVolumeFilter(volume, start, end, probe.value), callback)
    {
      thrown := probe.None?;
      if !thrown {
        var f := WindowedVolumeFilter(volume, start, end, probe.value);
        Execute(Argv(Working(), f, renderFloat));
        OnResultFile(callback);
      }
    }

    /** `changeAudioVolume(volume, callback)`: the gain goes to the engine unlimited. */
    method ChangeAudioVolume(volume: real, callback: Option<Callback>)
      requires Valid() && audio.Some?
      modifies this
      ensures Valid() && audio == old(audio)
      ensures Edited(old(trace), old(files), Gain(volume), callback)
    {
      Execute(Argv(Working(), Gain(volume), renderFloat));
      OnResultFile(callback);
    }

    /** `normalizeAudioVolume` */
    method NormalizeAudioVolume(callback: Option<Callback>)
      requires Valid() && audio.Some?
      modifies this
      ensures Valid() && audio == old(audio)
      ensures Edited(old(trace), old(files), Loudnorm, callback)
    {
      Execute(Argv(Working(), Loudnorm, renderFloat));
      OnResultFile(callback);
    }

    /** `changeAudioSpeed`: the tempo is always 2.0, whatever `xSpeed` is (a boxed, nullable Float). */
    method ChangeAudioSpeed(xSpeed: Option<real>, callback: Option<Callback>)
      requires Valid() && audio.Some?
      modifies this
      ensures Valid() && audio == old(audio)
      ensures Edited(old(trace), old(files), Tempo, callback)
    {
      Execute(Argv(Working(), Tempo, renderFloat));
      OnResultFile(callback);
    }

    /** `changeAudioPitch`: declared, does nothing. */
    method ChangeAudioPitch()
      ensures unchanged(this)
    {
    }

    /** `changeAudioBass`: gain, width and frequency limited, then the bass filter. */
    method ChangeAudioBass(bass: real, width: real, frequency: int32, callback: Option<Callback>)
      requires Valid() && audio.Some?
      modifies this
      ensures Valid() && audio == old(audio)
      ensures Edited(old(trace), old(files), BassFilter(bass, width, frequency), callback)
    {
      Execute(Argv(Working(), BassFilter(bass, width, frequency), renderFloat));
      OnResultFile(callback);
    }

    /** `removeAudioNoise`: exactly `filterAudio(400, 4000, callback)`. */
    method RemoveAudioNoise(callback: Option<Callback>)
      requires Valid() && audio.Some?
      modifies this
      ensures Valid() && audio == old(audio)
      ensures Edited(old(trace), old(files), BandPassFilter(400, 4000), callback)
    {
      FilterAudio(400, 4000, callback);
    }

    /** `removeVocal` */
    method RemoveVocal(callback: Option<Callback>)
      requires Valid() && audio.Some?
      modifies this
      ensures Valid() && audio == old(audio)
      ensures Edited(old(trace), old(files), VocalCancel, callback)
    {
      Execute(Argv(Working(), VocalCancel, renderFloat));
      OnResultFile(callback);
    }

    /** `filterAudio`: both cut-off frequencies limited, then high-pass and low-pass. */
    method FilterAudio(highpass: int32, lowpass: int32, callback: Option<Callback>)
      requires Valid() && audio.Some?
      modifies this
      ensures Valid() && audio == old(audio)
      ensures Edited(old(trace), old(files), BandPassFilter(highpass, lowpass), callback)
    {
      Execute(Argv(Working(), BandPassFilter(highpass, lowpass), renderFloat));
      OnResultFile(callback);
    }

    /** `reverseAudio` */
    method ReverseAudio(callback: Option<Callback>)
      requires Valid() && audio.Some?
      modifies this
      ensures Valid() && audio == old(audio)
      ensures Edited(old(trace), old(files), Reverse, callback)
    {
      Execute(Argv(Working(), Reverse, renderFloat));
      OnResultFile(callback);
    }

    /** `applyEchoEffect`: the preset selects a fixed echo argument. */
    method ApplyEchoEffect(echo: Echo, callback: Option<Callback>)
      requires Valid() && audio.Some?
      modifies this
      ensures Valid() && audio == old(audio)
      ensures Edited(old(trace), old(files), EchoEffect(echo), callback)
    {
      Execute(Argv(Working(), EchoEffect(echo), renderFloat));
      OnResultFile(callback);
    }

    /** `applyVibratoEffect`: frequency and depth limited, then the vibrato filter. */
    method ApplyVibratoEffect(frequency: real, depth: real, callback: Option<Callback>)
      requires Valid() && audio.Some?
      modifies this
      ensures Valid() && audio == old(audio)
      ensures Edited(old(trace), old(files), VibratoFilter(frequency, depth), callback)
    {
      Execute(Argv(Working(), VibratoFilter(frequency, depth), renderFloat));
      OnResultFile(callback);
    }

    /** `applyReverbEffect`: no engine run, but the callback still gets the file. */
    method ApplyReverbEffect(audioDepth: real, reverbDepth: real, callback: Option<Callback>)
      requires Valid()
      modifies this
      ensures Valid() && audio == old(audio) && files == old(files)
      ensures trace == old(trace) + FileResult(callback, audio)
    {
      OnResultFile(callback);
    }

    /** `applyShifterEffect`: no engine run, but the callback still gets the file. */
    method ApplyShifterEffect(transitionTime: int32, width: int32, callback: Option<Callback>)
      requires Valid()
      modifies this
      ensures Valid() && audio == old(audio) && files == old(files)
      ensures trace == old(trace) + FileResult(callback, audio)
    {
      OnResultFile(callback);
    }

    /** `convertVideoToAudio`: drop the video stream. */
    method ConvertVideoToAudio(callback: Option<Callback>)
      requires Valid() && audio.Some?
      modifies this
      ensures Valid() && audio == old(audio)
      ensures Edited(old(trace), old(files), AudioOnly, callback)
    {
      Execute(Argv(Working(), AudioOnly, renderFloat));
      OnResultFile(callback);
    }

    /** `joinAudios`: declared, does nothing. */
    method JoinAudios(audios: seq<string>)
      ensures unchanged(this)
    {
    }

    /**
      `getDuration`: deliver the probed length in the requested unit to the
      callback. `probe` is what probing the working file yields, `None` when
      the probe throws; the callback is not checked for null. Either
      exception escapes and nothing is delivered.
     */
    method GetDuration(unit: Duration, probe: Option<int64>, callback: Option<Callback>) returns (thrown: bool)
      requires Valid()
      requires probe.Some? ==> audio.Some? && Working() in files
      modifies this
      ensures Valid() && audio == old(audio) && files == old(files)
      ensures thrown <==> probe.None? || callback.None?
      ensures thrown ==> trace == old(trace)
      ensures !thrown ==> trace == old(trace) + [NumberDelivered(callback.value, DurationIn(unit, probe.value))]
    {
      thrown := probe.None? || callback.None?;
      if !thrown {
        var ms := probe.value;
        match unit
        case Millis => trace := trace + [NumberDelivered(callback.value, ms)];
        case Seconds => trace := trace + [NumberDelivered(callback.value, Quot(ms, MILLIS_PER_SECOND))];
        case Minutes =>
          trace := trace + [NumberDelivered(callback.value, Quot(Rem(ms, MILLIS_PER_HOUR), MILLIS_PER_MINUTE))];
      }
    }

    /** `executeFFmpeg`: declared, does nothing. */
    method ExecuteFFmpeg(command: seq<string>)
      ensures unchanged(this)
    {
    }
  }

  /**
    A session from start to end: open `source`, keep its first ten seconds,
    halve the volume and save the result to `destination`. The source is
    left as it was, and the destination holds the twice-edited copy.
   */
  method EditAndSave(dir: string, fmt: real -> string, store: map<string, Content>,
                     source: string, timestamp: int64, extension: string, destination: string)
    returns (result: map<string, Content>)
    requires source in store && SEPARATOR !in extension
    requires !IsTmpEntry(dir, source) && !IsTmpEntry(dir, destination) && destination != source
    ensures source in result && result[source] == store[source]
    ensures destination in result
    ensures var w := WorkingFileName(dir, timestamp, extension);
      result[destination]
        == Processed(Processed(store[source], Argv(w, CutSecondsFilter(0, 10), fmt)), Argv(w, Gain(0.5), fmt))
  {
    var w := WorkingFileName(dir, timestamp, extension);
    var cut, gain := Argv(w, CutSecondsFilter(0, 10), fmt), Argv(w, Gain(0.5), fmt);
    var tool := new AudioTool(dir, fmt, store);
    tool.WithAudio(source, timestamp, extension);
    assert w != source && w != destination;
    ghost var afterOpen := tool.files;
    assert afterOpen[w] == store[source] && afterOpen[source] == store[source];
    tool.CutAudio(0, 10);
    ghost var trimmed := tool.files;
    assert trimmed == EngineEffect(afterOpen, cut);
    assert trimmed[w] == Processed(store[source], cut) && trimmed[source] == store[source];
    tool.ChangeAudioVolume(0.5, None);
    assert tool.files == EngineEffect(trimmed, gain);
    assert tool.files[w] == Processed(Processed(store[source], cut), gain) && tool.files[source] == store[source];
    tool.SaveTo(destination);
    result := tool.files;
  }
}
