/**
  The extraction service of the Next.js application: the API-key guard, the
  cut of the JSON object out of the model's answer, and the base64 payload
  of an uploaded file's data URL.
*/
module ResponseParsing {
  import opened Wrappers
  import opened Strings

  datatype GeminiError =
    | ApiKeyMissing   // no API key is configured
    | NoValidFormat   // the answer holds no braced span

  /** Some `{` is followed, later in the text, by a `}`. */
  predicate HasBracedSpan(text: string)
  {
    exists i, j :: 0 <= i < j < |text| && text[i] == '{' && text[j] == '}'
  }

  /** `text.match(/\{[\s\S]*\}/)`: the leftmost `{` and, greedily, the last
      `}` after it; the match fails when no `{` has a `}` after it. */
  function ExtractJsonSlice(text: string): (r: Result<string, GeminiError>)
    ensures r.Failure? <==> !HasBracedSpan(text)
    ensures r.Failure? ==> r.error == NoValidFormat
    ensures r.Success? ==> |r.value| >= 2 && r.value[0] == '{' && r.value[|r.value| - 1] == '}'
  {
    match (FirstIndexOf(text, '{'), LastIndexOf(text, '}'))
    case (Some(i), Some(j)) =>
      if i < j then Success(text[i..j + 1])
      else
        assert !HasBracedSpan(text) by {
          forall a, b | 0 <= a < b < |text| && text[a] == '{'
            ensures text[b] != '}'
          {
            assert a >= i && b > j;
            assert text[b] == text[j + 1..][b - j - 1];
          }
        }
        Failure(NoValidFormat)
    case _ => Failure(NoValidFormat)
  }

  /** On success the slice runs exactly from the first `{` of the text to its
      last `}`: nothing braced is cut off on either side. */
  lemma ExtractJsonSliceBounds(text: string, i: nat, j: nat)
    requires i < j < |text| && text[i] == '{' && text[j] == '}'
    requires '{' !in text[..i] && '}' !in text[j + 1..]
    ensures ExtractJsonSlice(text) == Success(text[i..j + 1])
  {
    assert FirstIndexOf(text, '{') == Some(i);
    assert LastIndexOf(text, '}') == Some(j);
  }

  /** `analyzeCashCloseImage` around the model call: `text` is the model's
      answer. A missing key fails before anything else; otherwise the result
      is the JSON slice of the answer, to be parsed by the caller. */
  function AnalyzeCashCloseImage(apiKey: string, text: string): (r: Result<string, GeminiError>)
    ensures apiKey == "" ==> r == Failure(ApiKeyMissing)
    ensures apiKey != "" ==> r == ExtractJsonSlice(text)
  {
    if apiKey == "" then Failure(ApiKeyMissing) else ExtractJsonSlice(text)
  }

  /** `dataUrl.split(',')[1]`: the segment between the first and the second
      comma, or the rest after the only comma; absent (`undefined`) when the
      data URL has no comma. */
  function DataUrlPayload(dataUrl: string): (r: Option<string>)
    ensures r.None? <==> ',' !in dataUrl
    ensures r.Some? ==> ',' !in r.value
  {
    var parts := Split(dataUrl, ',');
    SplitIsSingle(dataUrl, ',');
    if |parts| >= 2 then Some(parts[1]) else None
  }

  /** A data URL `header,payload` gives back its payload, also when more
      comma-separated text follows. */
  lemma DataUrlPayloadOf(header: string, payload: string, tail: string)
    requires ',' !in header && ',' !in payload
    requires tail == "" || tail[0] == ','
    ensures DataUrlPayload(header + [','] + payload + tail) == Some(payload)
  {
    assert header + [','] + payload + tail == header + [','] + (payload + tail);
    SplitAtFirstSeparator(header, payload + tail, ',');
    if tail == "" {
      assert payload + tail == payload;
      SplitWithoutSeparator(payload, ',');
    } else {
      assert payload + tail == payload + [','] + tail[1..];
      SplitAtFirstSeparator(payload, tail[1..], ',');
    }
  }
}
