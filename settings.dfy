/**
 * The notebook settings dictionary `global_clipit_settings`: an
 * insertion-ordered Python dict from option names to values, kept here as a
 * list of entries with distinct keys. `pop` and item assignment are `Remove`
 * and `Put`; one `add_settings(**kwargs)` call is `AddAll`.
 */
module Settings {
  import opened Wrappers

  /** The keys of the entries, in insertion order. */
  function Keys<V>(es: seq<(string, V)>): (ks: seq<string>)
    ensures |ks| == |es|
    ensures forall i :: 0 <= i < |es| ==> ks[i] == es[i].0
  {
    if es == [] then [] else [es[0].0] + Keys(es[1..])
  }

  /** A dict never holds the same key twice. */
  predicate DistinctKeys<V>(es: seq<(string, V)>) {
    forall i, j :: 0 <= i < j < |es| ==> es[i].0 != es[j].0
  }

  /** `d.get(k)`. */
  function Lookup<V>(es: seq<(string, V)>, k: string): (r: Option<V>)
    ensures r.None? <==> k !in Keys(es)
  {
    if es == [] then None
    else if es[0].0 == k then Some(es[0].1)
    else
      assert Keys(es) == [es[0].0] + Keys(es[1..]);
      Lookup(es[1..], k)
  }

  /** `d.pop(k, None)`: removes `k` if present; the other entries keep their order. */
  function Remove<V>(es: seq<(string, V)>, k: string): (r: seq<(string, V)>)
    ensures k !in Keys(r)
    ensures k !in Keys(es) ==> r == es
    ensures forall x :: x in Keys(r) ==> x in Keys(es)
    ensures forall x :: x != k ==> Lookup(r, x) == Lookup(es, x)
    ensures DistinctKeys(es) && k in Keys(es) ==>
      exists i :: 0 <= i < |es| && es[i].0 == k && r == es[..i] + es[i + 1..]
  {
    if es == [] then []
    else
      var rest := Remove(es[1..], k);
      assert Keys(es) == [es[0].0] + Keys(es[1..]);
      if es[0].0 == k then
        assert DistinctKeys(es) ==> k !in Keys(es[1..]);
        assert es[..0] + es[1..] == es[1..];
        rest
      else
        var r := [es[0]] + rest;
        assert r[0] == es[0] && r[1..] == rest;
        assert Keys(r) == [es[0].0] + Keys(rest);
        assert forall x :: x != k ==> Lookup(r, x) == Lookup(es, x);
        if DistinctKeys(es) && k in Keys(es) then
          DistinctTail(es);
          RemoveOrderCons(es, k, rest);
          r
        else r
  }

  lemma DistinctTail<V>(es: seq<(string, V)>)
    requires es != [] && DistinctKeys(es)
    ensures DistinctKeys(es[1..])
  {
  }

  /** Keeping the first entry keeps the order argument of `Remove` going. */
  lemma RemoveOrderCons<V>(es: seq<(string, V)>, k: string, rest: seq<(string, V)>)
    requires es != [] && es[0].0 != k
    requires exists i :: 0 <= i < |es| - 1 && es[1..][i].0 == k && rest == es[1..][..i] + es[1..][i + 1..]
    ensures exists i :: 0 <= i < |es| && es[i].0 == k && [es[0]] + rest == es[..i] + es[i + 1..]
  {
    var i :| 0 <= i < |es| - 1 && es[1..][i].0 == k && rest == es[1..][..i] + es[1..][i + 1..];
    assert es[..i + 1] == [es[0]] + es[1..][..i];
    assert es[i + 2..] == es[1..][i + 1..];
    assert es[i + 1].0 == k && [es[0]] + rest == es[..i + 1] + es[i + 2..];
  }

  lemma {:induction false} RemoveDistinct<V>(es: seq<(string, V)>, k: string)
    requires DistinctKeys(es)
    ensures DistinctKeys(Remove(es, k))
  {
    if es != [] {
      RemoveDistinct(es[1..], k);
      if es[0].0 != k {
        var rest := Remove(es[1..], k);
        assert Keys(es) == [es[0].0] + Keys(es[1..]);
        assert es[0].0 !in Keys(es[1..]);
        assert es[0].0 !in Keys(rest);
        assert forall j :: 0 <= j < |rest| ==> rest[j].0 in Keys(rest);
      }
    }
  }

  /**
   * `d[k] = v`: an existing key keeps its place and takes the new value; a new
   * key goes at the end.
   */
  function Put<V>(es: seq<(string, V)>, k: string, v: V): (r: seq<(string, V)>)
    ensures Keys(r) == if k in Keys(es) then Keys(es) else Keys(es) + [k]
  {
    if es == [] then [(k, v)]
    else if es[0].0 == k then
      assert ([(k, v)] + es[1..])[1..] == es[1..];
      [(k, v)] + es[1..]
    else
      var rest := Put(es[1..], k, v);
      assert ([es[0]] + rest)[1..] == rest;
      assert k in Keys(es) <==> k in Keys(es[1..]);
      assert [es[0].0] + (Keys(es[1..]) + [k]) == Keys(es) + [k];
      [es[0]] + rest
  }

  lemma PutDistinct<V>(es: seq<(string, V)>, k: string, v: V)
    requires DistinctKeys(es)
    ensures DistinctKeys(Put(es, k, v))
  {
    var r := Put(es, k, v);
    var ks := Keys(es);
    forall i, j | 0 <= i < j < |r| ensures r[i].0 != r[j].0 {
      assert r[i].0 == Keys(r)[i] && r[j].0 == Keys(r)[j];
      assert Keys(r)[i] == ks[i] == es[i].0;
      if j < |ks| {
        assert Keys(r)[j] == ks[j] == es[j].0;
      } else {
        assert Keys(r)[j] == k && k !in ks;
      }
    }
  }

  /** One keyword argument: `None` deletes the key, anything else sets it. */
  function Update<V>(es: seq<(string, V)>, kw: (string, Option<V>)): seq<(string, V)> {
    match kw.1
    case None => Remove(es, kw.0)
    case Some(v) => Put(es, kw.0, v)
  }

  lemma UpdateDistinct<V>(es: seq<(string, V)>, kw: (string, Option<V>))
    requires DistinctKeys(es)
    ensures DistinctKeys(Update(es, kw))
  {
    match kw.1
    case None => RemoveDistinct(es, kw.0);
    case Some(v) => PutDistinct(es, kw.0, v);
  }

  /** `add_settings(**kwargs)`: the keyword arguments applied in order. */
  function AddAll<V>(es: seq<(string, V)>, kwargs: seq<(string, Option<V>)>): seq<(string, V)> {
    if kwargs == [] then es
    else Update(AddAll(es, kwargs[..|kwargs| - 1]), kwargs[|kwargs| - 1])
  }

  lemma {:induction false} LookupRemove<V>(es: seq<(string, V)>, k: string, other: string)
    ensures Lookup(Remove(es, k), other) == if other == k then None else Lookup(es, other)
  {
    if es != [] {
      LookupRemove(es[1..], k, other);
    }
  }

  lemma {:induction false} LookupPut<V>(es: seq<(string, V)>, k: string, v: V, other: string)
    ensures Lookup(Put(es, k, v), other) == if other == k then Some(v) else Lookup(es, other)
  {
    if es != [] && es[0].0 != k {
      LookupPut(es[1..], k, v, other);
    }
  }

  lemma LookupUpdate<V>(es: seq<(string, V)>, kw: (string, Option<V>), other: string)
    ensures Lookup(Update(es, kw), other) == if other == kw.0 then kw.1 else Lookup(es, other)
  {
    match kw.1
    case None => LookupRemove(es, kw.0, other);
    case Some(v) => LookupPut(es, kw.0, v, other);
  }

  /** Adding settings keeps the keys distinct. */
  lemma {:induction false} AddAllDistinct<V>(es: seq<(string, V)>, kwargs: seq<(string, Option<V>)>)
    requires DistinctKeys(es)
    ensures DistinctKeys(AddAll(es, kwargs))
  {
    if kwargs != [] {
      AddAllDistinct(es, kwargs[..|kwargs| - 1]);
      UpdateDistinct(AddAll(es, kwargs[..|kwargs| - 1]), kwargs[|kwargs| - 1]);
    }
  }

  /** A key that is not passed keeps its value, or stays absent. */
  lemma {:induction false} AddAllUntouched<V>(es: seq<(string, V)>, kwargs: seq<(string, Option<V>)>, k: string)
    requires forall i :: 0 <= i < |kwargs| ==> kwargs[i].0 != k
    ensures Lookup(AddAll(es, kwargs), k) == Lookup(es, k)
  {
    if kwargs != [] {
      AddAllUntouched(es, kwargs[..|kwargs| - 1], k);
      LookupUpdate(AddAll(es, kwargs[..|kwargs| - 1]), kwargs[|kwargs| - 1], k);
    }
  }

  /**
   * A key passed as `k=v` maps to `v` afterwards, and a key passed as
   * `k=None` is absent afterwards whether or not it was there (keyword
   * arguments never repeat a name).
   */
  lemma {:induction false} AddAllPassed<V>(es: seq<(string, V)>, kwargs: seq<(string, Option<V>)>, j: nat)
    requires j < |kwargs|
    requires forall i :: 0 <= i < |kwargs| && i != j ==> kwargs[i].0 != kwargs[j].0
    ensures Lookup(AddAll(es, kwargs), kwargs[j].0) == kwargs[j].1
  {
    var last := |kwargs| - 1;
    var init := kwargs[..last];
    LookupUpdate(AddAll(es, init), kwargs[last], kwargs[j].0);
    if j < last {
      assert init[j] == kwargs[j];
      AddAllPassed(es, init, j);
    }
  }

  /** The option names the parser knows: every `dest` of `setup_parser`, and `help`. */
  const KnownDests: set<string> := {
    "help",
    "prompts", "spot_prompts", "spot_prompts_off", "spot_file", "labels",
    "image_prompts", "image_prompt_weight", "image_prompt_shuffle", "image_labels",
    "image_label_weight", "iterations", "save_every", "display_every", "overlay_every",
    "overlay_offset", "overlay_image", "quality", "aspect", "ezsize", "scale",
    "overlay_alpha", "size", "init_image", "init_image_alpha", "init_noise",
    "target_images", "target_image_weight", "target_weight_pix", "animation_dir",
    "animation_alpha", "init_weight", "init_weight_dist", "init_weight_cos",
    "init_weight_pix", "clip_models", "vqgan_model", "vqgan_config", "vqgan_checkpoint",
    "noise_prompt_seeds", "noise_prompt_weights", "step_size", "num_cuts", "cut_pow",
    "seed", "optimiser", "output", "make_video", "cudnn_determinism", "use_clipdraw",
    "strokes", "use_pixeldraw", "do_mono"
  }

  /**
   * The position of the first entry, in insertion order, whose key is not in
   * `known`: the key `apply_settings` reports.
   */
  function FirstUnknown<V>(es: seq<(string, V)>, known: set<string>): (r: Option<nat>)
    ensures r.Some? ==> r.value < |es|
  {
    if es == [] then None
    else if es[0].0 !in known then Some(0)
    else
      match FirstUnknown(es[1..], known)
      case None => None
      case Some(j) => Some(j + 1)
  }

  /** Every entry before position `n` has a key in `known`. */
  predicate KnownBefore<V>(es: seq<(string, V)>, n: int, known: set<string>) {
    forall j :: 0 <= j < n && j < |es| ==> es[j].0 in known
  }

  /**
   * `FirstUnknown` finds nothing exactly when every key is known, and
   * otherwise an unknown key with only known keys before it.
   */
  lemma {:induction false} FirstUnknownFinds<V>(es: seq<(string, V)>, known: set<string>)
    ensures var r := FirstUnknown(es, known);
      && (r.None? <==> forall i :: 0 <= i < |es| ==> es[i].0 in known)
      && (r.Some? ==> es[r.value].0 !in known && KnownBefore(es, r.value, known))
  {
    if es != [] && es[0].0 in known {
      FirstUnknownFinds(es[1..], known);
    }
  }
}
