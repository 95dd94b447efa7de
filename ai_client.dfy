/** The pure parts of the local-model client: which part of the model's
    answer is handed to the JSON parser, and how a successful answer becomes
    the dish's metadata. The HTTP request, its time-out and the retries are
    not modelled; `JSON.parse` is a parameter. */
module AiClient {
  import opened Wrappers
  import opened Text
  import opened JsValues
  import opened DishTypes
  import opened EnrichmentSchema

  const NoJsonObject: string := "AI response did not contain a JSON object."
  const EmptyOutput: string := "Ollama returned empty output."

  /** `extractJson` up to the parse: the text it hands to `JSON.parse`, or
      its error. */
  function ExtractJson(text: string): Result<string> {
    var trimmed := Trim(text);
    if StartsWith(trimmed, "{") && EndsWith(trimmed, "}") then Ok(trimmed)
    else
      var start := IndexOf(trimmed, '{');
      var end := LastIndexOf(trimmed, '}');
      if start >= 0 && end > start then Ok(trimmed[start..end + 1])
      else Err(NoJsonObject)
  }

  /** What is parsed is the trimmed text from its first `{` through its
      last `}`; the error is raised exactly when there is no `{`, or no `}`
      after the first `{`. The whole-text branch is the same slice. */
  lemma ExtractJsonFacts(text: string)
    ensures var trimmed := Trim(text);
      var start := IndexOf(trimmed, '{');
      var end := LastIndexOf(trimmed, '}');
      (ExtractJson(text).Err? <==> start < 0 || end <= start)
      && (ExtractJson(text).Ok? ==> ExtractJson(text).value == trimmed[start..end + 1])
  {
    var trimmed := Trim(text);
    if StartsWith(trimmed, "{") && EndsWith(trimmed, "}") {
      assert trimmed[0] == '{' && trimmed[|trimmed| - 1] == '}';
      assert trimmed[|trimmed| - 1..] == "}";
      assert trimmed[..|trimmed|] == trimmed;
    }
  }

  /** The text handed to `JSON.parse` is an object's brackets and what lies
      between them, taken from the answer as it stands. */
  lemma ExtractedIsBraced(text: string)
    requires ExtractJson(text).Ok?
    ensures var t := ExtractJson(text).value;
      |t| >= 2 && t[0] == '{' && t[|t| - 1] == '}'
      && exists k :: 0 <= k <= |Trim(text)| - |t| && OccursAt(Trim(text), t, k)
  {
    var trimmed := Trim(text);
    var t := ExtractJson(text).value;
    if StartsWith(trimmed, "{") && EndsWith(trimmed, "}") {
      assert trimmed[0] == '{';
      assert trimmed[|trimmed| - 1..] == "}";
      assert OccursAt(trimmed, t, 0);
    } else {
      var start := IndexOf(trimmed, '{');
      var end := LastIndexOf(trimmed, '}');
      assert OccursAt(trimmed, t, start);
    }
  }

  /** The result mapping of `enrichDish` for one answer: `response` is the
      answer's `response` field and `parse` stands for `JSON.parse`. An
      answer that trims to nothing is an error, so is a failed extraction or
      parse; otherwise the metadata is the sanitised parse and the raw
      output is the trimmed answer. */
  function EnrichResult(response: Option<string>, parse: string -> Result<JsValue>): Result<(AiMeta, string)> {
    var rawOutput := Trim(response.GetOr(""));
    if rawOutput == "" then Err(EmptyOutput)
    else
      var extracted := ExtractJson(rawOutput);
      if extracted.Err? then Err(extracted.message)
      else
        var parsed := parse(extracted.value);
        if parsed.Err? then Err(parsed.message)
        else Ok((SanitizeAiMeta(parsed.value), rawOutput))
  }

  /** A successful answer has a non-empty trimmed raw output and metadata
      that is the sanitised parse of the braced part, hence well formed; a
      missing or blank answer is the empty-output error. */
  lemma EnrichResultFacts(response: Option<string>, parse: string -> Result<JsValue>)
    ensures Trim(response.GetOr("")) == "" ==> EnrichResult(response, parse) == Err(EmptyOutput)
    ensures var r := EnrichResult(response, parse);
      r.Ok? ==>
        var rawOutput := Trim(response.GetOr(""));
        r.value.1 == rawOutput && rawOutput != [] && NoEdgeWhitespace(rawOutput)
        && ExtractJson(rawOutput).Ok?
        && parse(ExtractJson(rawOutput).value).Ok?
        && r.value.0 == SanitizeAiMeta(parse(ExtractJson(rawOutput).value).value)
        && WellFormed(r.value.0)
  {
  }
}
