/**
 * `process_args` after argparse has run: the quality tables fill options the
 * user left unset, the image size is derived from the scale and the aspect,
 * the `|`- and `,`-separated lists are split and stripped, and the sentinel
 * values of `--overlay_every` and `--init_noise` are normalised.
 */
module Args {
  import opened Wrappers
  import opened Text

  /**
   * A list option: `Raw` is the string the user gave, `Items` the list it
   * becomes (argparse's default for these options is the empty list).
   */
  datatype Listed = Raw(text: string) | Items(items: seq<string>)

  datatype Size = Size(width: int, height: int)

  /**
   * The parsed options `process_args` reads or writes; every other option
   * passes through it unchanged and is not represented. `scale` is a
   * float in the source, here an exact real.
   */
  datatype Args = Args(
    quality: string,
    aspect: string,
    ezsize: Option<string>,
    scale: Option<real>,
    size: Option<Size>,
    clipModels: Option<Listed>,
    iterations: Option<int>,
    numCuts: Option<int>,
    initNoise: Option<string>,
    prompts: Listed,
    spotPrompts: Listed,
    spotPromptsOff: Listed,
    labels: Listed,
    imagePrompts: Listed,
    overlayEvery: Option<int>,
    overlayOffset: int,
    saveEvery: int,
    spotFile: Option<string>)

  /** The three ways `process_args` gives up (each prints and exits). */
  datatype Abort =
    | UnknownQuality(quality: string)
    | UnknownEzSize(ezsize: Option<string>)
    | UnknownAspect(aspect: string)

  const QualityToClipModels: map<string, string> := map[
    "draft" := "ViT-B/32",
    "normal" := "ViT-B/32,ViT-B/16",
    "better" := "RN50,ViT-B/32,ViT-B/16",
    "best" := "RN50x4,ViT-B/32,ViT-B/16"]

  const QualityToIterations: map<string, int> := map[
    "draft" := 200, "normal" := 350, "better" := 500, "best" := 500]

  const QualityToScale: map<string, int> := map[
    "draft" := 1, "normal" := 2, "better" := 3, "best" := 4]

  const QualityToNumCuts: map<string, int> := map[
    "draft" := 40, "normal" := 40, "better" := 40, "best" := 40]

  const SizeToScale: map<string, int> := map[
    "small" := 1, "medium" := 2, "large" := 4]

  const AspectToSize: map<string, Size> := map[
    "square" := Size(150, 150),
    "widescreen" := Size(200, 112),
    "twitter" := Size(300, 100),
    "twitter2" := Size(750, 250)]

  /** The four quality tables agree on their keys. */
  lemma QualityTablesAgree()
    ensures QualityToIterations.Keys == QualityToClipModels.Keys
    ensures QualityToScale.Keys == QualityToClipModels.Keys
    ensures QualityToNumCuts.Keys == QualityToClipModels.Keys
  {
  }

  /**
   * The shapes argparse hands over: list options are a string or the empty
   * default list, `--clip_models` is unset or a string, `--init_noise` a string.
   */
  predicate ListParsed(l: Listed) {
    l.Raw? || l.items == []
  }

  predicate AsParsed(a: Args) {
    && (a.clipModels.None? || a.clipModels.value.Raw?)
    && a.initNoise.Some?
    && ListParsed(a.prompts) && ListParsed(a.spotPrompts) && ListParsed(a.spotPromptsOff)
    && ListParsed(a.labels) && ListParsed(a.imagePrompts)
  }

  /** Python's `int()` on a float: truncation toward zero. */
  function Truncate(x: real): (r: int)
    ensures x >= 0.0 ==> 0 <= r && r as real <= x < r as real + 1.0
    ensures x < 0.0 ==> r <= 0 && r as real - 1.0 < x <= r as real
  {
    if x >= 0.0 then x.Floor else -((-x).Floor)
  }

  /** Step 1: the quality tables fill `clip_models`, `iterations`, `num_cuts` and `scale`. */
  function FillQualityDefaults(a: Args): (r: Result<Args, Abort>)
    ensures r.Err? <==> a.quality !in QualityToClipModels
    ensures r.Err? ==> r.error == UnknownQuality(a.quality)
    ensures r.Ok? ==> r.value.clipModels.Some? && r.value.iterations.Some? && r.value.numCuts.Some?
    ensures r.Ok? ==> r.value.scale.Some? || r.value.ezsize.Some?
    ensures r.Ok? && a.clipModels.None? ==> r.value.clipModels == Some(Raw(QualityToClipModels[a.quality]))
    ensures r.Ok? && a.iterations.None? ==> r.value.iterations == Some(QualityToIterations[a.quality])
    ensures r.Ok? && a.numCuts.None? ==> r.value.numCuts == Some(QualityToNumCuts[a.quality])
    ensures r.Ok? && a.ezsize.None? && a.scale.None? ==> r.value.scale == Some(QualityToScale[a.quality] as real)
    ensures r.Ok? && a.clipModels.Some? ==> r.value.clipModels == a.clipModels
    ensures r.Ok? && a.iterations.Some? ==> r.value.iterations == a.iterations
    ensures r.Ok? && a.numCuts.Some? ==> r.value.numCuts == a.numCuts
    ensures r.Ok? && (a.scale.Some? || a.ezsize.Some?) ==> r.value.scale == a.scale
    ensures r.Ok? ==> r.value.(clipModels := a.clipModels, iterations := a.iterations,
                               numCuts := a.numCuts, scale := a.scale) == a
  {
    var q := a.quality;
    if q !in QualityToClipModels then Err(UnknownQuality(q))
    else
      QualityTablesAgree();
      Ok(a.(
        clipModels := if a.clipModels.None? then Some(Raw(QualityToClipModels[q])) else a.clipModels,
        iterations := if a.iterations.None? then Some(QualityToIterations[q]) else a.iterations,
        numCuts := if a.numCuts.None? then Some(QualityToNumCuts[q]) else a.numCuts,
        scale := if a.ezsize.None? && a.scale.None? then Some(QualityToScale[q] as real) else a.scale))
  }

  /** The multiplier of the base size: `--scale`, or failing that the `ezsize` table. */
  function SizeScale(a: Args): (r: Result<real, Abort>)
    ensures a.scale.Some? ==> r == Ok(a.scale.value)
    ensures a.scale.None? && a.ezsize.Some? && a.ezsize.value in SizeToScale ==>
      r == Ok(SizeToScale[a.ezsize.value] as real)
    ensures r.Err? <==> a.scale.None? && (a.ezsize.None? || a.ezsize.value !in SizeToScale)
    ensures r.Err? ==> r.error == UnknownEzSize(a.ezsize)
  {
    match a.scale
    case Some(s) => Ok(s)
    case None =>
      if a.ezsize.Some? && a.ezsize.value in SizeToScale then Ok(SizeToScale[a.ezsize.value] as real)
      else Err(UnknownEzSize(a.ezsize))
  }

  /** The size for a scale and an aspect: `[int(scale*w), int(scale*h)]`. */
  function ScaledSize(scale: real, base: Size): Size {
    Size(Truncate(scale * base.width as real), Truncate(scale * base.height as real))
  }

  /** Step 2: an unset size is the aspect's base size times the scale. */
  function ResolveSize(a: Args): (r: Result<Args, Abort>)
    ensures a.size.Some? ==> r == Ok(a)
    ensures r.Ok? ==> r.value.size.Some? && r.value.(size := a.size) == a
    ensures a.size.None? && SizeScale(a).Ok? && a.aspect in AspectToSize ==>
      r == Ok(a.(size := Some(ScaledSize(SizeScale(a).value, AspectToSize[a.aspect]))))
    ensures r.Err? <==> a.size.None? && (SizeScale(a).Err? || a.aspect !in AspectToSize)
    ensures r.Err? && SizeScale(a).Err? ==> r.error == SizeScale(a).error
    ensures r.Err? && SizeScale(a).Ok? ==> r.error == UnknownAspect(a.aspect)
  {
    if a.size.Some? then Ok(a)
    else
      match SizeScale(a)
      case Err(e) => Err(e)
      case Ok(s) =>
        if a.aspect in AspectToSize then Ok(a.(size := Some(ScaledSize(s, AspectToSize[a.aspect]))))
        else Err(UnknownAspect(a.aspect))
  }

  /** `global_aspect_width`. */
  function AspectWidth(aspect: string): real {
    if aspect == "widescreen" then 16.0 / 9.0
    else if aspect == "twitter" || aspect == "twitter2" then 3.0
    else 1.0
  }

  /**
   * The aspect width is the width-to-height ratio of the aspect's base size
   * for square and the twitter aspects, but 16/9 for widescreen, whose base
   * size 200x112 has the ratio 25/14; an aspect outside the table (possible
   * when the size is given explicitly) has width 1.
   */
  lemma AspectWidthMatchesTable(aspect: string)
    ensures aspect in AspectToSize && aspect != "widescreen" ==>
      AspectWidth(aspect) * AspectToSize[aspect].height as real == AspectToSize[aspect].width as real
    ensures AspectWidth("widescreen") == 16.0 / 9.0
    ensures AspectToSize["widescreen"].width as real / AspectToSize["widescreen"].height as real == 25.0 / 14.0
    ensures aspect !in AspectToSize ==> AspectWidth(aspect) == 1.0
  {
  }

  /** `init_noise.lower() == "none"` turns the option off. */
  function NormaliseInitNoise(n: Option<string>): (r: Option<string>)
    requires n.Some?
    ensures r.None? <==> Lower(n.value) == "none"
    ensures r.Some? ==> r == n
  {
    if Lower(n.value) == "none" then None else n
  }

  /** Python truthiness of a list option: a non-empty string or a non-empty list. */
  predicate Truthy(l: Listed) {
    match l
    case Raw(s) => s != ""
    case Items(xs) => xs != []
  }

  /**
   * A `|`-separated list option: a non-empty string becomes its stripped
   * pieces; the empty string and the empty default list are falsy and stay
   * as they are.
   */
  function SplitOnPipes(l: Listed): (r: Listed)
    requires ListParsed(l)
    ensures l.Raw? && l.text != "" ==> r == Items(StripAll(Split(l.text, '|')))
    ensures !Truthy(l) ==> r == l
  {
    if Truthy(l) then Items(StripAll(Split(l.text, '|'))) else l
  }

  /** `--clip_models`: always split on commas, each piece stripped. */
  function SplitModels(s: string): (r: seq<string>)
    ensures r == StripAll(Split(s, ','))
    ensures |r| == Count(s, ',') + 1
    ensures forall i :: 0 <= i < |r| ==> ',' !in r[i] && Stripped(r[i])
  {
    var pieces := Split(s, ',');
    var r := StripAll(pieces);
    forall i | 0 <= i < |r| ensures ',' !in r[i] {
      if ',' in r[i] {
        StripSubset(pieces[i], ',');
      }
    }
    r
  }

  /** `--overlay_every` at or below zero means never. */
  function NormaliseOverlay(o: Option<int>): (r: Option<int>)
    ensures r.None? || r.value > 0
    ensures o.None? || o.value > 0 ==> r == o
    ensures o.Some? && o.value <= 0 ==> r.None?
  {
    if o.Some? && o.value <= 0 then None else o
  }

  /** Steps 3 to 5: the sentinels and the lists. */
  function Finish(a: Args): Args
    requires AsParsed(a) && a.clipModels.Some?
  {
    a.(initNoise := NormaliseInitNoise(a.initNoise),
       prompts := SplitOnPipes(a.prompts),
       spotPrompts := SplitOnPipes(a.spotPrompts),
       spotPromptsOff := SplitOnPipes(a.spotPromptsOff),
       labels := SplitOnPipes(a.labels),
       imagePrompts := SplitOnPipes(a.imagePrompts),
       overlayEvery := NormaliseOverlay(a.overlayEvery),
       clipModels := Some(Items(SplitModels(a.clipModels.value.text))))
  }

  /** All of `process_args` on the options: the resolved options, or why it aborted. */
  function ResolveArgs(a: Args): Result<Args, Abort>
    requires AsParsed(a)
  {
    match FillQualityDefaults(a)
    case Err(e) => Err(e)
    case Ok(a1) =>
      match ResolveSize(a1)
      case Err(e) => Err(e)
      case Ok(a2) => Ok(Finish(a2))
  }

  /** The scale the size is computed from, when the size is not given. */
  function ChosenScale(a: Args): real
    requires a.quality in QualityToScale
    requires a.scale.Some? || a.ezsize.None? || a.ezsize.value in SizeToScale
  {
    if a.scale.Some? then a.scale.value
    else if a.ezsize.Some? then SizeToScale[a.ezsize.value] as real
    else QualityToScale[a.quality] as real
  }

  /**
   * `process_args` aborts exactly when the quality is unknown, or the size
   * must be computed and either the `ezsize` (consulted only when `--scale`
   * is unset and `--ezsize` is set) or the aspect is unknown; the checks come
   * in that order.
   */
  lemma ResolveArgsAborts(a: Args)
    requires AsParsed(a)
    ensures var badQuality := a.quality !in QualityToClipModels;
      var badEzSize := a.size.None? && a.scale.None? && a.ezsize.Some? && a.ezsize.value !in SizeToScale;
      var badAspect := a.size.None? && a.aspect !in AspectToSize;
      && (ResolveArgs(a).Err? <==> badQuality || badEzSize || badAspect)
      && (badQuality ==> ResolveArgs(a) == Err(UnknownQuality(a.quality)))
      && (!badQuality && badEzSize ==> ResolveArgs(a) == Err(UnknownEzSize(a.ezsize)))
      && (!badQuality && !badEzSize && badAspect ==> ResolveArgs(a) == Err(UnknownAspect(a.aspect)))
  {
    QualityTablesAgree();
  }

  /**
   * What a successful `process_args` leaves: every table-filled option set and
   * never overwritten when the user set it, a size taken from the user or
   * computed from the chosen scale and the aspect's base size, the clip
   * models split on commas, overlays either off or positive, and the options
   * it does not touch unchanged.
   */
  lemma ResolveArgsResult(a: Args)
    requires AsParsed(a) && ResolveArgs(a).Ok?
    ensures var r := ResolveArgs(a).value; var q := a.quality;
      && q in QualityToClipModels
      && r.iterations == (if a.iterations.Some? then a.iterations else Some(QualityToIterations[q]))
      && r.numCuts == (if a.numCuts.Some? then a.numCuts else Some(QualityToNumCuts[q]))
      && r.clipModels == Some(Items(SplitModels(
           if a.clipModels.Some? then a.clipModels.value.text else QualityToClipModels[q])))
      && (a.size.Some? ==> r.size == a.size)
      && (a.size.None? ==>
            && a.aspect in AspectToSize
            && (a.scale.Some? || a.ezsize.None? || a.ezsize.value in SizeToScale)
            && r.size == Some(ScaledSize(ChosenScale(a), AspectToSize[a.aspect])))
      && r.scale == (if a.ezsize.None? && a.scale.None? then Some(QualityToScale[q] as real) else a.scale)
      && r.overlayEvery == NormaliseOverlay(a.overlayEvery)
      && r.initNoise == NormaliseInitNoise(a.initNoise)
      && r.prompts == SplitOnPipes(a.prompts)
      && r.spotPrompts == SplitOnPipes(a.spotPrompts)
      && r.spotPromptsOff == SplitOnPipes(a.spotPromptsOff)
      && r.labels == SplitOnPipes(a.labels)
      && r.imagePrompts == SplitOnPipes(a.imagePrompts)
      && r.quality == a.quality && r.aspect == a.aspect && r.ezsize == a.ezsize
      && r.overlayOffset == a.overlayOffset && r.saveEvery == a.saveEvery && r.spotFile == a.spotFile
  {
    QualityTablesAgree();
  }

  /** An integer scale multiplies the base size exactly. */
  lemma ScaledSizeWhole(n: nat, base: Size)
    requires base.width >= 0 && base.height >= 0
    ensures ScaledSize(n as real, base) == Size(n * base.width, n * base.height)
  {
    assert (n as real) * (base.width as real) == (n * base.width) as real;
    assert (n as real) * (base.height as real) == (n * base.height) as real;
  }

  /**
   * A list option given as a non-empty string becomes one stripped piece per
   * `|`-separated part; when the parts carry no surrounding whitespace,
   * joining the pieces with `|` gives the string back.
   */
  lemma SplitOnPipesPieces(s: string)
    requires s != ""
    ensures var r := SplitOnPipes(Raw(s));
      && r.Items? && |r.items| == Count(s, '|') + 1
      && (forall i :: 0 <= i < |r.items| ==> Stripped(r.items[i]) && '|' !in r.items[i])
      && ((forall i :: 0 <= i < |Split(s, '|')| ==> Stripped(Split(s, '|')[i])) ==> Join(r.items, '|') == s)
  {
    var pieces := Split(s, '|');
    var items := StripAll(pieces);
    forall i | 0 <= i < |items| ensures '|' !in items[i] {
      if '|' in items[i] {
        StripSubset(pieces[i], '|');
      }
    }
    if forall i :: 0 <= i < |pieces| ==> Stripped(pieces[i]) {
      forall i | 0 <= i < |pieces| ensures items[i] == pieces[i] {
        assert [] + pieces[i] + [] == pieces[i];
        StripUnique([], pieces[i], []);
      }
      assert items == pieces;
      JoinSplit(s, '|');
    }
  }

  /** The parser's defaults for the options above (`setup_parser`). */
  function DefaultArgs(): Args {
    Args(
      quality := "normal", aspect := "widescreen", ezsize := None, scale := None, size := None,
      clipModels := None, iterations := None, numCuts := None, initNoise := Some("pixels"),
      prompts := Items([]), spotPrompts := Items([]), spotPromptsOff := Items([]),
      labels := Items([]), imagePrompts := Items([]),
      overlayEvery := None, overlayOffset := 0, saveEvery := 10, spotFile := None)
  }

  /** Splitting a comma-joined list of clean model names gives back the names. */
  lemma SplitModelsJoin(models: seq<string>)
    requires |models| >= 1
    requires forall i :: 0 <= i < |models| ==> ',' !in models[i] && Stripped(models[i])
    ensures SplitModels(Join(models, ',')) == models
  {
    SplitJoin(models, ',');
    forall i | 0 <= i < |models| ensures Strip(models[i]) == models[i] {
      assert [] + models[i] + [] == models[i];
      StripUnique([], models[i], []);
    }
  }

  /** The normal quality's model list splits into its two models. */
  lemma NormalQualityModels()
    ensures SplitModels(QualityToClipModels["normal"]) == ["ViT-B/32", "ViT-B/16"]
  {
    var models := ["ViT-B/32", "ViT-B/16"];
    assert Join(models, ',') == models[0] + [','] + Join(models[1..], ',');
    assert QualityToClipModels["normal"] == Join(models, ',');
    SplitModelsJoin(models);
  }

  /**
   * With every option at its default: normal quality gives two clip models,
   * 350 iterations, 40 cuts and scale 2, so the widescreen size is 400x224.
   */
  lemma ResolveDefaults()
    ensures ResolveArgs(DefaultArgs()) == Ok(DefaultArgs().(
      scale := Some(2.0), size := Some(Size(400, 224)),
      clipModels := Some(Items(["ViT-B/32", "ViT-B/16"])),
      iterations := Some(350), numCuts := Some(40)))
  {
    var d := DefaultArgs();
    var d1 := d.(clipModels := Some(Raw("ViT-B/32,ViT-B/16")), iterations := Some(350),
                 numCuts := Some(40), scale := Some(2.0));
    assert FillQualityDefaults(d) == Ok(d1);
    ScaledSizeWhole(2, Size(200, 112));
    var d2 := d1.(size := Some(Size(400, 224)));
    assert ResolveSize(d1) == Ok(d2);
    assert Lower("pixels") != "none";
    FinishOnlyModels(d2);
    NormalQualityModels();
  }

  /**
   * When the lists are already split, the overlay period is unset or positive
   * and the initial noise is not "none", the last step only splits the model
   * list.
   */
  lemma FinishOnlyModels(a: Args)
    requires AsParsed(a) && a.clipModels.Some?
    requires a.prompts.Items? && a.spotPrompts.Items? && a.spotPromptsOff.Items?
    requires a.labels.Items? && a.imagePrompts.Items?
    requires a.overlayEvery.None? || a.overlayEvery.value > 0
    requires Lower(a.initNoise.value) != "none"
    ensures Finish(a) == a.(clipModels := Some(Items(SplitModels(a.clipModels.value.text))))
  {
  }
}
