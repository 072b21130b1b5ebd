/**
 * The module-level state of `clipit.py` and the procedures that change it:
 * the notebook settings store, `process_args` with the globals it sets,
 * `apply_settings`, and the non-animation loop of `do_run` over `train`.
 * argparse is a function parameter `parse` from the parser's input to the
 * parsed options.
 */
module Clipit {
  import opened Wrappers
  import opened Text
  import opened Settings
  import opened Args
  import opened Schedule

  /**
   * What the parser reads: the command line, or a namespace holding the
   * stored settings. `V` stands for the Python values a setting may hold.
   */
  datatype ParserInput<V> = CommandLine | Namespace(settings: seq<(string, V)>)

  /** Why `apply_settings` fails: a stored key the parser does not know, or `process_args` gave up. */
  datatype ApplyError = UnknownSetting(key: string) | Aborted(reason: Abort)

  /** The parser input `apply_settings` builds: a namespace only when some setting is stored. */
  function SettingsInput<V>(es: seq<(string, V)>): (r: ParserInput<V>)
    ensures r.CommandLine? <==> es == []
    ensures r.Namespace? ==> r.settings == es
  {
    if |es| > 0 then Namespace(es) else CommandLine
  }

  /**
   * What `apply_settings` returns for the stored settings `es`, with a parser
   * whose option names are `dests` (for `setup_parser`, `KnownDests`): the
   * first unknown key in insertion order is the error; otherwise
   * `process_args` on the parser's reading of the settings.
   */
  function Applied<V>(es: seq<(string, V)>, dests: set<string>, parse: ParserInput<V> -> Args): Result<Args, ApplyError>
    requires FirstUnknown(es, dests).None? ==> AsParsed(parse(SettingsInput(es)))
  {
    match FirstUnknown(es, dests)
    case Some(i) => Err(UnknownSetting(es[i].0))
    case None =>
      match ResolveArgs(parse(SettingsInput(es)))
      case Ok(a) => Ok(a)
      case Err(e) => Err(Aborted(e))
  }

  /**
   * `apply_settings` rejects the settings exactly when some stored key is not
   * a parser option, and then names the first such key; otherwise it fails
   * only where `process_args` does.
   */
  lemma AppliedRejects<V>(es: seq<(string, V)>, dests: set<string>, parse: ParserInput<V> -> Args)
    requires FirstUnknown(es, dests).None? ==> AsParsed(parse(SettingsInput(es)))
    ensures (Applied(es, dests, parse).Err? && Applied(es, dests, parse).error.UnknownSetting?) <==>
      exists i :: 0 <= i < |es| && es[i].0 !in dests
    ensures Applied(es, dests, parse).Err? && Applied(es, dests, parse).error.UnknownSetting? ==>
      var k := Applied(es, dests, parse).error.key;
      && k !in dests
      && exists i :: 0 <= i < |es| && es[i].0 == k && KnownBefore(es, i, dests)
    ensures (forall i :: 0 <= i < |es| ==> es[i].0 in dests) ==>
      && (Applied(es, dests, parse).Ok? <==> ResolveArgs(parse(SettingsInput(es))).Ok?)
      && (Applied(es, dests, parse).Ok? ==> Applied(es, dests, parse).value == ResolveArgs(parse(SettingsInput(es))).value)
  {
    FirstUnknownFinds(es, dests);
    var a := Applied(es, dests, parse);
    match FirstUnknown(es, dests)
    case Some(i) =>
      AppliedUnknown(es, dests, parse, i);
      assert a == Err(UnknownSetting(es[i].0)) && KnownBefore(es, i, dests);
    case None =>
      AppliedKnown(es, dests, parse);
  }

  lemma AppliedKnown<V>(es: seq<(string, V)>, dests: set<string>, parse: ParserInput<V> -> Args)
    requires FirstUnknown(es, dests).None? && AsParsed(parse(SettingsInput(es)))
    ensures var r := ResolveArgs(parse(SettingsInput(es)));
      Applied(es, dests, parse) == if r.Ok? then Ok(r.value) else Err(Aborted(r.error))
  {
  }

  lemma AppliedUnknown<V>(es: seq<(string, V)>, dests: set<string>, parse: ParserInput<V> -> Args, i: nat)
    requires FirstUnknown(es, dests) == Some(i)
    ensures i < |es| && Applied(es, dests, parse) == Err(UnknownSetting(es[i].0))
  {
  }

  /** With nothing stored, `apply_settings` parses the command line. */
  lemma AppliedEmpty<V>(dests: set<string>, parse: ParserInput<V> -> Args)
    requires AsParsed(parse(CommandLine))
    ensures Applied([], dests, parse).Ok? <==> ResolveArgs(parse(CommandLine)).Ok?
    ensures Applied([], dests, parse).Ok? ==> Applied([], dests, parse).value == ResolveArgs(parse(CommandLine)).value
  {
    assert SettingsInput<V>([]) == CommandLine;
  }

  /** The module's globals. */
  class ClipitState<V> {
    /** `global_clipit_settings`. */
    var settings: seq<(string, V)>
    /** `global_aspect_width`. */
    var aspectWidth: real
    /** `global_spot_file`. */
    var spotFile: Option<string>
    /** `global_padding_mode`. */
    var paddingMode: PaddingMode
    var curIteration: Option<int>
    var curAnimIndex: Option<int>
    var animOutputFiles: seq<string>

    /** The settings are a dict: no key twice. */
    predicate Valid()
      reads this
    {
      DistinctKeys(settings)
    }

    /** The globals as the module defines them on import. */
    constructor ()
      ensures Valid()
      ensures settings == [] && aspectWidth == 1.0 && spotFile == None && paddingMode == Reflection
      ensures curIteration == None && curAnimIndex == None && animOutputFiles == []
    {
      settings := [];
      aspectWidth := 1.0;
      spotFile := None;
      paddingMode := Reflection;
      curIteration := None;
      curAnimIndex := None;
      animOutputFiles := [];
    }

    /** `reset_settings`: the store is empty and nothing else changes. */
    method ResetSettings()
      modifies this
      ensures Valid() && settings == []
      ensures aspectWidth == old(aspectWidth) && spotFile == old(spotFile) && paddingMode == old(paddingMode)
      ensures curIteration == old(curIteration) && curAnimIndex == old(curAnimIndex)
      ensures animOutputFiles == old(animOutputFiles)
    {
      settings := [];
    }

    /**
     * `add_settings(**kwargs)`: each keyword argument in turn deletes its key
     * (when `None`) or sets it; what that leaves is described by the lemmas
     * about `AddAll`.
     */
    method AddSettings(kwargs: seq<(string, Option<V>)>)
      requires Valid()
      modifies this
      ensures Valid() && settings == AddAll(old(settings), kwargs)
      ensures aspectWidth == old(aspectWidth) && spotFile == old(spotFile) && paddingMode == old(paddingMode)
      ensures curIteration == old(curIteration) && curAnimIndex == old(curAnimIndex)
      ensures animOutputFiles == old(animOutputFiles)
    {
      for i := 0 to |kwargs|
        invariant settings == AddAll(old(settings), kwargs[..i])
        invariant Valid()
        invariant aspectWidth == old(aspectWidth) && spotFile == old(spotFile) && paddingMode == old(paddingMode)
        invariant curIteration == old(curIteration) && curAnimIndex == old(curAnimIndex)
        invariant animOutputFiles == old(animOutputFiles)
      {
        assert kwargs[..i + 1][..i] == kwargs[..i];
        UpdateDistinct(settings, kwargs[i]);
        var (k, v) := kwargs[i];
        if v.None? {
          settings := Remove(settings, k);
        } else {
          settings := Put(settings, k, v.value);
        }
      }
      assert kwargs[..|kwargs|] == kwargs;
    }

    /**
     * `process_args`: the options from `parse`, resolved as `ResolveArgs` says; on
     * success the aspect width, the spot file and the animation globals are
     * set, and on an abort no global changes.
     */
    method ProcessArgs(parsed: Args) returns (r: Result<Args, Abort>)
      requires AsParsed(parsed)
      modifies this
      ensures r == ResolveArgs(parsed)
      ensures settings == old(settings) && paddingMode == old(paddingMode)
      ensures r.Ok? ==> aspectWidth == AspectWidth(r.value.aspect) && spotFile == r.value.spotFile
      ensures r.Ok? ==> curIteration == None && curAnimIndex == None && animOutputFiles == []
      ensures r.Err? ==> aspectWidth == old(aspectWidth) && spotFile == old(spotFile)
      ensures r.Err? ==> curIteration == old(curIteration) && curAnimIndex == old(curAnimIndex)
      ensures r.Err? ==> animOutputFiles == old(animOutputFiles)
    {
      r := ResolveArgs(parsed);
      if r.Ok? {
        SetArgGlobals(r.value);
      }
    }

    /**
     * The globals `process_args` sets once the options are resolved: the
     * aspect width, the spot file, and the animation state reset to empty.
     */
    method SetArgGlobals(a: Args)
      modifies this
      ensures aspectWidth == AspectWidth(a.aspect) && spotFile == a.spotFile
      ensures curIteration == None && curAnimIndex == None && animOutputFiles == []
      ensures settings == old(settings) && paddingMode == old(paddingMode)
    {
      aspectWidth := AspectWidth(a.aspect);
      curIteration := None;
      curAnimIndex := None;
      animOutputFiles := [];
      spotFile := a.spotFile;
    }

    /**
     * `apply_settings`: every stored key is checked against the parser's
     * options, in insertion order, before `process_args` runs on them.
     */
    method ApplySettings(parse: ParserInput<V> -> Args) returns (r: Result<Args, ApplyError>)
      requires FirstUnknown(settings, KnownDests).None? ==> AsParsed(parse(SettingsInput(settings)))
      modifies this
      ensures r == Applied(old(settings), KnownDests, parse)
      ensures settings == old(settings) && paddingMode == old(paddingMode)
      ensures r.Ok? ==> aspectWidth == AspectWidth(r.value.aspect) && spotFile == r.value.spotFile
      ensures r.Ok? ==> curIteration == None && curAnimIndex == None && animOutputFiles == []
      ensures r.Err? ==> aspectWidth == old(aspectWidth) && spotFile == old(spotFile)
      ensures r.Err? ==> curIteration == old(curIteration) && curAnimIndex == old(curAnimIndex)
      ensures r.Err? ==> animOutputFiles == old(animOutputFiles)
    {
      FirstUnknownFinds(settings, KnownDests);
      if |settings| > 0 {
        for i := 0 to |settings|
          invariant unchanged(this)
          invariant forall j :: 0 <= j < i ==> settings[j].0 in KnownDests
        {
          if settings[i].0 !in KnownDests {
            assert FirstUnknown(settings, KnownDests) == Some(i);
            AppliedUnknown(settings, KnownDests, parse, i);
            return Err(UnknownSetting(settings[i].0));
          }
        }
      }
      var resolved := ProcessArgs(parse(SettingsInput(settings)));
      match resolved
      case Ok(a) => r := Ok(a);
      case Err(e) => r := Err(Aborted(e));
    }

    /**
     * `train(args, it)`, with `ascend_txt`'s padding mode: the events of the
     * call, and the padding mode of the iteration left in the global.
     */
    method Train(cfg: ScheduleConfig, it: nat) returns (t: TrainResult)
      requires curIteration == Some(it)
      modifies this
      ensures t == Schedule.Train(cfg, it)
      ensures paddingMode == PaddingFor(it)
      ensures settings == old(settings) && aspectWidth == old(aspectWidth) && spotFile == old(spotFile)
      ensures curIteration == old(curIteration) && curAnimIndex == old(curAnimIndex)
      ensures animOutputFiles == old(animOutputFiles)
    {
      var events := [Synth(it, if it % 2 == 0 then Reflection else Border)];
      if it % 2 == 0 {
        paddingMode := Reflection;
      } else {
        paddingMode := Border;
      }
      if cfg.saveEvery == 0 {
        return TrainResult(events, true);
      }
      if it % cfg.saveEvery == 0 {
        events := events + [CheckIn(it)];
      }
      events := events + [Step(it)];
      if cfg.overlayEvery.Some? && cfg.overlayEvery.value != 0 && it != 0 {
        var period := cfg.overlayEvery.value + cfg.overlayOffset;
        if period == 0 {
          return TrainResult(events, true);
        }
        if it % period == 0 {
          events := events + [ReAverage(it)];
        }
      }
      return TrainResult(events, false);
    }

    /**
     * The non-animation loop of `do_run`: `train` for iterations `0` to
     * `iterations`, one after the other, unless a call raises. The counter is
     * left at the last iteration run, with that iteration's padding mode.
     */
    method DoRun(cfg: ScheduleConfig, iterations: int) returns (r: RunResult)
      requires iterations >= 0
      modifies this
      ensures r == Run(cfg, iterations + 1)
      ensures r.Finished? ==> curIteration == Some(iterations)
      ensures r.Crashed? ==> curIteration == Some(r.at as int)
      ensures curIteration.Some? && curIteration.value >= 0 && paddingMode == PaddingFor(curIteration.value)
      ensures settings == old(settings) && aspectWidth == old(aspectWidth) && spotFile == old(spotFile)
      ensures curAnimIndex == old(curAnimIndex) && animOutputFiles == old(animOutputFiles)
    {
      curIteration := Some(0);
      var cur: nat := 0;
      var events := [];
      while true
        invariant cur <= iterations && curIteration == Some(cur)
        invariant Run(cfg, cur) == Finished(events)
        invariant settings == old(settings) && aspectWidth == old(aspectWidth) && spotFile == old(spotFile)
        invariant curAnimIndex == old(curAnimIndex) && animOutputFiles == old(animOutputFiles)
        decreases iterations - cur
      {
        var t := Train(cfg, cur);
        RunNext(cfg, cur, events);
        if t.crashed {
          RunCrashedStays(cfg, cur + 1, iterations + 1);
          return Crashed(events + t.events, cur);
        }
        events := events + t.events;
        if cur == iterations {
          return Finished(events);
        }
        cur := cur + 1;
        curIteration := Some(cur);
      }
    }
  }
}
