/**
 * `parse_prompt`: a text prompt may carry a weight and a stop value after
 * colons, `text:weight:stop`. Only the last two colons separate fields, so a
 * text that itself contains colons survives; missing fields take the
 * defaults weight `1` and stop `-inf`.
 */
module Prompt {
  import opened Wrappers
  import opened Text

  /** A parsed prompt; `F` stands for Python's float. */
  datatype Prompt<F> = Prompt(text: string, weight: F, stop: F)

  /** `float()` refused the named field. */
  datatype PromptError = NotANumber(field: string)

  /**
   * The three fields before numeric conversion: `prompt.rsplit(':', 2)`
   * padded with the defaults for the missing trailing fields.
   */
  function PromptFields(prompt: string): (vals: seq<string>)
    ensures |vals| == 3
    ensures vals[0] == RSplit(prompt, ':', 2)[0]
    ensures ':' !in vals[1] && ':' !in vals[2]
  {
    var v := RSplit(prompt, ':', 2);
    v + ["", "1", "-inf"][|v|..]
  }

  /**
   * `parse_prompt`: the text is the first field as it stands; the weight and
   * the stop go through `toFloat`, the weight first, and the first one it
   * refuses is the error.
   */
  function ParsePrompt<F>(prompt: string, toFloat: string -> Option<F>): (r: Result<Prompt<F>, PromptError>)
    ensures r.Ok? <==> toFloat(PromptFields(prompt)[1]).Some? && toFloat(PromptFields(prompt)[2]).Some?
    ensures r.Ok? ==> r.value.text == PromptFields(prompt)[0]
    ensures r.Ok? ==> Some(r.value.weight) == toFloat(PromptFields(prompt)[1])
    ensures r.Ok? ==> Some(r.value.stop) == toFloat(PromptFields(prompt)[2])
    ensures r.Err? && toFloat(PromptFields(prompt)[1]).None? ==> r.error == NotANumber(PromptFields(prompt)[1])
    ensures r.Err? && toFloat(PromptFields(prompt)[1]).Some? ==> r.error == NotANumber(PromptFields(prompt)[2])
  {
    var vals := PromptFields(prompt);
    match toFloat(vals[1])
    case None => Err(NotANumber(vals[1]))
    case Some(weight) =>
      match toFloat(vals[2])
      case None => Err(NotANumber(vals[2]))
      case Some(stop) => Ok(Prompt(vals[0], weight, stop))
  }

  /** Without a colon the whole prompt is the text and both defaults apply. */
  lemma PromptFieldsNoColon(prompt: string)
    requires ':' !in prompt
    ensures PromptFields(prompt) == [prompt, "1", "-inf"]
  {
    assert RSplit(prompt, ':', 2) == [prompt];
  }

  /** With one colon the prompt is `text:weight` and the stop takes its default. */
  lemma PromptFieldsOneColon(prompt: string)
    requires Count(prompt, ':') == 1
    ensures var vals := PromptFields(prompt);
      prompt == vals[0] + ":" + vals[1] && ':' !in vals[0] && vals[2] == "-inf"
  {
    var v := RSplit(prompt, ':', 2);
    RSplitLength(prompt, ':', 2);
    JoinRSplit(prompt, ':', 2);
    assert |v| == 2 && PromptFields(prompt) == v + ["-inf"];
    assert Join(v, ':') == v[0] + ":" + Join(v[1..], ':');
  }

  /**
   * With two colons or more the prompt is cut at its last two colons: the
   * text keeps every earlier colon.
   */
  lemma PromptFieldsColons(prompt: string)
    requires Count(prompt, ':') >= 2
    ensures var vals := PromptFields(prompt);
      && prompt == vals[0] + ":" + vals[1] + ":" + vals[2]
      && Count(vals[0], ':') == Count(prompt, ':') - 2
  {
    var v := RSplit(prompt, ':', 2);
    RSplitLength(prompt, ':', 2);
    JoinRSplit(prompt, ':', 2);
    assert |v| == 3 && PromptFields(prompt) == v;
    JoinThree(v, ':');
    CountThree(v[0], v[1], v[2], ':');
  }

  lemma JoinThree(v: seq<string>, sep: char)
    requires |v| == 3
    ensures Join(v, sep) == v[0] + [sep] + v[1] + [sep] + v[2]
  {
    assert Join(v, sep) == v[0] + [sep] + Join(v[1..], sep);
    assert Join(v[1..], sep) == v[1] + [sep] + Join(v[2..], sep);
  }

  lemma CountThree(a: string, b: string, c: string, sep: char)
    ensures Count(a + [sep] + b + [sep] + c, sep) == Count(a, sep) + Count(b, sep) + Count(c, sep) + 2
  {
    CountAppend(a + [sep] + b + [sep], c, sep);
    CountAppend(a + [sep] + b, [sep], sep);
    CountAppend(a + [sep], b, sep);
    CountAppend(a, [sep], sep);
  }
}
