/** The video request and response records (`VideoModels.cs`): the
    request keeps width and height inside one "WxH" string and the duration
    as a string, with integer views that parse and re-format them; the
    supported durations and resolutions; and the null handling of the
    nullable Unix-timestamp converter. */
module VideoModels {
  import opened Wrappers
  import opened Text
  import opened Numbers

  const DefaultSize: string := "720x1280"
  const DefaultSeconds: string := "4"
  const DefaultModel: string := "sora-2"

  /** The pair `ParseSize` falls back to when the size text is malformed. */
  const FallbackWidth: Int32 := 720
  const FallbackHeight: Int32 := 1280

  /** What `NSeconds` reads when the seconds text is not an integer. */
  const FallbackSeconds: Int32 := 4

  /** `VideoDurations.Options`. */
  const DurationOptions: seq<int> := [4, 8, 12]

  /** `VideoResolutions.Options`: size text and its label, in order. */
  const ResolutionOptions: seq<(string, string)> := [
    ("1920x1080", "Full HD (1920x1080)"),
    ("1080x1920", "Vertical HD (1080x1920)"),
    ("1280x720", "HD (1280x720)"),
    ("720x1280", "Vertical HD (720x1280)"),
    ("1024x1024", "Square (1024x1024)")
  ]

  /** `$"{width}x{height}"`. */
  function FormatSize(width: Int32, height: Int32): string {
    IntToString(width) + "x" + IntToString(height)
  }

  /** `ParseSize()`: split the size text on 'x'; two pieces that are both
      integers give the pair, anything else gives 720 by 1280. */
  function ParseSize(size: string): (Int32, Int32) {
    var parts := Split(size, 'x');
    if |parts| == 2 && ParseInt32(parts[0]).Some? && ParseInt32(parts[1]).Some? then
      (ParseInt32(parts[0]).value, ParseInt32(parts[1]).value)
    else
      (FallbackWidth, FallbackHeight)
  }

  /** A size text with exactly one 'x' parses to its two sides when both are
      integers, and to the fallback otherwise. */
  lemma ParseSizeOfSides(a: string, b: string)
    requires 'x' !in a && 'x' !in b
    ensures ParseSize(a + "x" + b) ==
      if ParseInt32(a).Some? && ParseInt32(b).Some? then (ParseInt32(a).value, ParseInt32(b).value)
      else (FallbackWidth, FallbackHeight)
  {
    SplitJoin([a, b], 'x');
    assert Join([a, b], 'x') == a + "x" + b;
  }

  /** A size text without exactly one 'x' always parses to the fallback. */
  lemma ParseSizeMalformed(size: string)
    requires multiset(size)['x'] != 1
    ensures ParseSize(size) == (FallbackWidth, FallbackHeight)
  {
    SplitCount(size, 'x');
  }

  /** Formatting a pair and parsing it back gives the pair. */
  lemma ParseFormatSize(width: Int32, height: Int32)
    ensures ParseSize(FormatSize(width, height)) == (width, height)
  {
    var w, h := IntToString(width), IntToString(height);
    ParseSizeOfSides(w, h);
    ParseFormatRoundTrip(width);
    ParseFormatRoundTrip(height);
  }

  /** The default size is the fallback pair written out, so a malformed size
      and the default one read back the same. */
  lemma DefaultSizeIsFallback()
    ensures DefaultSize == FormatSize(FallbackWidth, FallbackHeight)
    ensures ParseSize(DefaultSize) == (FallbackWidth, FallbackHeight)
  {
    ParseFormatSize(FallbackWidth, FallbackHeight);
  }

  /** The width and height written in each of `ResolutionOptions`. */
  const ResolutionSides: seq<(Int32, Int32)> :=
    [(1920, 1080), (1080, 1920), (1280, 720), (720, 1280), (1024, 1024)]

  lemma ResolutionTexts()
    ensures |ResolutionSides| == |ResolutionOptions|
    ensures forall i :: 0 <= i < |ResolutionOptions| ==>
      ResolutionOptions[i].0 == FormatSize(ResolutionSides[i].0, ResolutionSides[i].1)
  {
    forall i | 0 <= i < |ResolutionOptions|
      ensures ResolutionOptions[i].0 == FormatSize(ResolutionSides[i].0, ResolutionSides[i].1)
    {
      SizeText(i);
    }
  }

  /** The size text of one entry of `ResolutionOptions`. */
  lemma SizeText(i: nat)
    requires i < |ResolutionOptions|
    ensures ResolutionOptions[i].0 == FormatSize(ResolutionSides[i].0, ResolutionSides[i].1)
  {
    SideTexts();
    var (w, h) := ResolutionSides[i];
    var text := ResolutionOptions[i].0;
    if i == 0 {
      assert text == "1920" + "x" + "1080";
    } else if i == 1 {
      assert text == "1080" + "x" + "1920";
    } else if i == 2 {
      assert text == "1280" + "x" + "720";
    } else if i == 3 {
      assert text == "720" + "x" + "1280";
    } else {
      assert text == "1024" + "x" + "1024";
    }
  }

  /** The decimal text of each side length that `ResolutionOptions` uses. */
  lemma SideTexts()
    ensures IntToString(1920) == "1920" && IntToString(1080) == "1080"
    ensures IntToString(1280) == "1280" && IntToString(720) == "720"
    ensures IntToString(1024) == "1024"
  {
    assert NatToString(1) == "1";
    assert NatToString(10) == "10";
    assert NatToString(12) == "12";
    assert NatToString(19) == "19";
    assert NatToString(72) == "72";
    assert NatToString(102) == "102";
    assert NatToString(108) == "108";
    assert NatToString(128) == "128";
    assert NatToString(192) == "192";
  }

  /** Every offered resolution is a well-formed size text that parses to the
      pair written in it, and the default size is the fourth of them. */
  lemma ResolutionOptionsParse()
    ensures ResolutionOptions[3].0 == DefaultSize
    ensures |ResolutionSides| == |ResolutionOptions|
    ensures forall i :: 0 <= i < |ResolutionOptions| ==> ParseSize(ResolutionOptions[i].0) == ResolutionSides[i]
  {
    ResolutionTexts();
    forall i | 0 <= i < |ResolutionOptions|
      ensures ParseSize(ResolutionOptions[i].0) == ResolutionSides[i]
    {
      ParseFormatSize(ResolutionSides[i].0, ResolutionSides[i].1);
    }
  }

  /** The `NSeconds` setter's choice: 4, 8 or 12 seconds. */
  function RoundSeconds(n: Int32): string {
    if n <= 4 then "4" else if n <= 8 then "8" else "12"
  }

  /** The `NSeconds` getter: the seconds text as an integer, or 4. */
  function SecondsValue(seconds: string): Int32 {
    ParseInt32(seconds).GetOr(FallbackSeconds)
  }

  lemma SecondsFour()
    ensures SecondsValue("4") == 4
  {
    assert IntToString(4) == "4";
    ParseFormatRoundTrip(4);
  }

  lemma SecondsEight()
    ensures SecondsValue("8") == 8
  {
    assert IntToString(8) == "8";
    ParseFormatRoundTrip(8);
  }

  lemma SecondsTwelve()
    ensures SecondsValue("12") == 12
  {
    assert IntToString(12) == "12";
    ParseFormatRoundTrip(12);
  }

  /** Reading back the rounded text gives the rounded duration. */
  lemma RoundSecondsValue(n: Int32)
    ensures SecondsValue(RoundSeconds(n)) == if n <= 4 then 4 else if n <= 8 then 8 else 12
  {
    if n <= 4 {
      SecondsFour();
    } else if n <= 8 {
      SecondsEight();
    } else {
      SecondsTwelve();
    }
  }

  /** Setting `NSeconds := n` and reading it back gives the smallest
      supported duration that is at least `n`, or the longest one when none
      is; the value read is always a supported duration. */
  lemma RoundSecondsSupported(n: Int32)
    ensures SecondsValue(RoundSeconds(n)) in DurationOptions
    ensures n <= SecondsValue(RoundSeconds(n)) || SecondsValue(RoundSeconds(n)) == 12
    ensures forall d :: d in DurationOptions && n <= d ==> SecondsValue(RoundSeconds(n)) <= d
  {
    RoundSecondsValue(n);
  }

  /** The JSON body of a job-creation request. */
  datatype JobRequest = JobRequest(prompt: string, size: string, seconds: string, model: string)

  /** `VideoGenerationRequest`: its four serialized properties are fields;
      `Width`, `Height` and `NSeconds` are views computed from them, and
      their setters rewrite `size` and `seconds`. */
  class VideoGenerationRequest {
    var prompt: string
    var size: string
    var seconds: string
    var model: string

    constructor ()
      ensures prompt == "" && size == DefaultSize && seconds == DefaultSeconds && model == DefaultModel
    {
      prompt, size, seconds, model := "", DefaultSize, DefaultSeconds, DefaultModel;
    }

    function Width(): Int32
      reads this
    {
      ParseSize(size).0
    }

    function Height(): Int32
      reads this
    {
      ParseSize(size).1
    }

    function NSeconds(): Int32
      reads this
    {
      SecondsValue(seconds)
    }

    /** The JSON body sent to the provider. */
    function Body(): JobRequest
      reads this
    {
      JobRequest(prompt, size, seconds, model)
    }

    /** `UpdateSize(width, height)`: writes exactly "{width}x{height}". */
    method UpdateSize(width: Int32, height: Int32)
      modifies this
      ensures size == FormatSize(width, height)
      ensures prompt == old(prompt) && seconds == old(seconds) && model == old(model)
      ensures Width() == width && Height() == height
    {
      size := FormatSize(width, height);
      ParseFormatSize(width, height);
    }

    /** The `Width` setter: keeps the current `Height` view. */
    method SetWidth(width: Int32)
      modifies this
      ensures size == FormatSize(width, old(Height()))
      ensures Width() == width && Height() == old(Height())
      ensures prompt == old(prompt) && seconds == old(seconds) && model == old(model)
    {
      UpdateSize(width, Height());
    }

    /** The `Height` setter: keeps the current `Width` view. */
    method SetHeight(height: Int32)
      modifies this
      ensures size == FormatSize(old(Width()), height)
      ensures Width() == old(Width()) && Height() == height
      ensures prompt == old(prompt) && seconds == old(seconds) && model == old(model)
    {
      UpdateSize(Width(), height);
    }

    /** The `NSeconds` setter: rounds to a supported duration. */
    method SetNSeconds(n: Int32)
      modifies this
      ensures seconds == RoundSeconds(n)
      ensures NSeconds() in DurationOptions
      ensures prompt == old(prompt) && size == old(size) && model == old(model)
    {
      if n <= 4 {
        seconds := "4";
      } else if n <= 8 {
        seconds := "8";
      } else {
        seconds := "12";
      }
      RoundSecondsSupported(n);
    }
  }

  /** A provider error: `code` and `message` (the JSON may hold a null message). */
  datatype VideoError = VideoError(code: string, message: Option<string>)

  /** One generated video of a finished job. */
  datatype VideoGeneration = VideoGeneration(
    generationId: string, videoUrl: Option<string>, thumbnailUrl: Option<string>,
    format: string, resolution: string)

  /** The answer to a job creation. Timestamps are not part of this model. */
  datatype VideoJobResponse = VideoJobResponse(
    jobId: string, status: string, progress: int, error: Option<VideoError>)

  /** The answer to a status request; `generations` is the legacy list. */
  datatype VideoJobStatusResponse = VideoJobStatusResponse(
    jobId: string, status: string, progress: int, error: Option<VideoError>,
    generations: Option<seq<VideoGeneration>>)

  /** The JSON token a converter reads or writes. */
  datatype JsonToken =
    | JsonNull
    | JsonNumber(value: int)
    | JsonString(text: string)
    | JsonOther(tokenType: string)

  const Int64Min: int := -0x8000_0000_0000_0000
  const Int64Max: int := 0x7FFF_FFFF_FFFF_FFFF

  /** What a converter throws: a `JsonException` with its message, or the
      failure of `GetInt64`/`FromUnixTimeSeconds` on an out-of-range number. */
  datatype TimestampError = Unconvertible(message: string) | OutOfRange

  /** `NullableUnixTimestampConverter.Read`. Turning seconds or text into a
      date is library code and comes in as `fromUnix` and `tryParse`. */
  function ReadNullableTimestamp<D>(token: JsonToken, fromUnix: int -> Option<D>, tryParse: string -> Option<D>)
    : (r: Result<Option<D>, TimestampError>)
    ensures token.JsonNull? <==> r == Success(None)
    ensures r.Success? && r.value.Some? ==>
      (token.JsonNumber? && fromUnix(token.value) == r.value) || (token.JsonString? && tryParse(token.text) == r.value)
    ensures token.JsonOther? ==> r == Failure(Unconvertible("Unable to convert " + token.tokenType + " to DateTime?"))
    ensures token.JsonString? && tryParse(token.text).None? ==> r == Failure(Unconvertible("Unable to convert String to DateTime?"))
  {
    match token
    case JsonNull => Success(None)
    case JsonNumber(n) =>
      if Int64Min <= n <= Int64Max && fromUnix(n).Some? then Success(fromUnix(n)) else Failure(OutOfRange)
    case JsonString(text) =>
      if tryParse(text).Some? then Success(tryParse(text))
      else Failure(Unconvertible("Unable to convert String to DateTime?"))
    case JsonOther(kind) => Failure(Unconvertible("Unable to convert " + kind + " to DateTime?"))
  }

  /** `NullableUnixTimestampConverter.Write`: null for an absent value, the
      Unix seconds otherwise. */
  function WriteNullableTimestamp<D>(value: Option<D>, toUnix: D -> int): (token: JsonToken)
    ensures value.None? <==> token == JsonNull
    ensures value.Some? ==> token == JsonNumber(toUnix(value.value))
  {
    match value
    case None => JsonNull
    case Some(d) => JsonNumber(toUnix(d))
  }

  /** Writing a timestamp and reading it back gives it back, provided its
      Unix seconds fit in a `long` and convert back to the same value. */
  lemma TimestampRoundTrip<D>(value: Option<D>, toUnix: D -> int, fromUnix: int -> Option<D>, tryParse: string -> Option<D>)
    requires value.Some? ==> Int64Min <= toUnix(value.value) <= Int64Max && fromUnix(toUnix(value.value)) == value
    ensures ReadNullableTimestamp(WriteNullableTimestamp(value, toUnix), fromUnix, tryParse) == Success(value)
  {
  }
}
