/**
  The string handling around the two Gemini calls: what is sent (base64
  payload and MIME type), how the identification answer is cleaned, and when
  either function gives up with `null`. The provider itself is an oracle.
 */
module Gemini {
  import opened Wrappers
  import opened JsText

  const PngMime: string := "image/png"
  const JpegMime: string := "image/jpeg"
  const NotFound: string := "NOT_FOUND"

  /** `if (!apiKey) return null`: a key counts only when present and non-empty. */
  predicate KeyTruthy(key: Option<string>) {
    key.Some? && key.value != []
  }

  /** The inline image part sent for identification. */
  datatype VisionRequest = VisionRequest(mimeType: string, data: string)

  /** What the vision call yields: it throws, or `response.text`, which may be undefined. */
  datatype VisionReply = VisionThrows | VisionText(text: Option<string>)

  /** The provider call made (if any) and the identified model (`null` as `None`). */
  datatype Identification = Identification(request: Option<VisionRequest>, model: Option<string>)

  /** A parsed spec object; either property may be missing, since nothing checks them. */
  datatype Specs = Specs(dac: Option<string>, laser: Option<string>)

  /**
    What the spec call plus `JSON.parse(response.text)` yield: a throw from the
    provider, a parse failure, a falsy JSON value (`null`, `false`, `0`, `""`)
    or any truthy value, read as an object whose `dac`/`laser` may be absent.
   */
  datatype SpecReply = SpecThrows | Unparsable | ParsedFalsy | ParsedObject(specs: Specs)

  /** Whether the provider was asked, and the specs handed back (`None` for any falsy return). */
  datatype SpecLookup = SpecLookup(requested: bool, specs: Option<Specs>)

  /** Position of the first occurrence of `c`, if any. */
  function IndexOf(s: string, c: char): (r: Option<nat>)
    ensures r.None? <==> c !in s
    ensures r.Some? ==> r.value < |s| && s[r.value] == c && c !in s[..r.value]
  {
    if s == [] then None
    else if s[0] == c then Some(0)
    else
      match IndexOf(s[1..], c)
      case None => None
      case Some(i) =>
        assert s[..i + 1] == [s[0]] + s[1..][..i];
        Some(i + 1)
  }

  /** `s.split(',')[1]` for a string containing a comma: the second comma-separated field. */
  function SecondField(s: string): string
    requires ',' in s
  {
    var i := IndexOf(s, ',').value;
    var rest := s[i + 1..];
    match IndexOf(rest, ',')
    case None => rest
    case Some(j) => rest[..j]
  }

  /** `r` sits between the first comma of `s` (at `i`) and the next comma or the end. */
  predicate SecondFieldAt(s: string, r: string, i: int) {
    && 0 <= i && i + 1 + |r| <= |s|
    && ',' !in s[..i] && s[i] == ','
    && r == s[i + 1..i + 1 + |r|] && ',' !in r
    && (i + 1 + |r| == |s| || s[i + 1 + |r|] == ',')
  }

  /**
    The base64 payload: the text between the first and the second comma (or
    the end) when there is a comma, otherwise the whole input.
   */
  function ExtractBase64(image: string): (r: string)
    ensures ',' !in image ==> r == image
    ensures ',' in image ==> exists i :: SecondFieldAt(image, r, i)
  {
    IncludesChar(image, ',');
    if Includes(image, ",") then
      var i := IndexOf(image, ',').value;
      var r := SecondField(image);
      assert SecondFieldAt(image, r, i);
      r
    else image
  }

  /** `image/png` exactly when the data URL mentions it anywhere; `image/jpeg` otherwise. */
  function MimeType(image: string): (r: string)
    ensures r == PngMime || r == JpegMime
    ensures r == PngMime <==> exists i :: OccursAt(image, PngMime, i)
  {
    IncludesIff(image, PngMime);
    if Includes(image, PngMime) then PngMime else JpegMime
  }

  /** The quote-stripping regular expression can match: the text is one quoted line. */
  predicate IsQuotedLine(t: string) {
    |t| >= 2 && t[0] == '"' && t[|t| - 1] == '"' && !HasLineTerminator(t)
  }

  /**
    `replace(/^"(.*)"$/, '$1')`: removes one enclosing pair of double quotes when
    the text is a single quoted line, and otherwise leaves it alone.
   */
  function StripQuotes(t: string): (r: string)
    ensures r != t <==> IsQuotedLine(t)
    ensures r != t ==> t == ['"'] + r + ['"'] && !HasLineTerminator(r)
  {
    if IsQuotedLine(t) then
      var r := t[1..|t| - 1];
      assert t == ['"'] + r + ['"'];
      assert forall i :: 0 <= i < |r| ==> r[i] == t[i + 1];
      r
    else t
  }

  /** `response.text?.trim().replace(…)`: undefined stays undefined. */
  function CleanText(text: Option<string>): Option<string> {
    match text
    case None => None
    case Some(t) => Some(StripQuotes(Trim(t)))
  }

  /** The answer is rejected when it is empty/undefined or mentions the sentinel anywhere. */
  predicate Usable(cleaned: Option<string>) {
    cleaned.Some? && cleaned.value != [] && !Includes(cleaned.value, NotFound)
  }

  /**
    `identifyModelFromImage`: without a key nothing is sent and the answer is
    `null`; otherwise exactly one request carries the extracted payload and
    MIME type, and the answer is the cleaned text unless it is unusable or the
    call threw.
   */
  function IdentifyModelFromImage(key: Option<string>, image: string, vision: VisionRequest -> VisionReply)
    : (r: Identification)
    ensures !KeyTruthy(key) ==> r == Identification(None, None)
    ensures KeyTruthy(key) ==> r.request == Some(VisionRequest(MimeType(image), ExtractBase64(image)))
    ensures r.model.Some? <==>
      && r.request.Some?
      && vision(r.request.value).VisionText?
      && Usable(CleanText(vision(r.request.value).text))
    ensures r.model.Some? ==>
      && r.model == CleanText(vision(r.request.value).text)
      && r.model.value != []
      && !(exists i :: OccursAt(r.model.value, NotFound, i))
  {
    if !KeyTruthy(key) then Identification(None, None)
    else
      var request := VisionRequest(MimeType(image), ExtractBase64(image));
      match vision(request)
      case VisionThrows => Identification(Some(request), None)
      case VisionText(text) =>
        var result := CleanText(text);
        if Usable(result) then
          IncludesIff(result.value, NotFound);
          Identification(Some(request), result)
        else Identification(Some(request), None)
  }

  /**
    `fetchSpecsWithAI`: without a key the provider is not asked and the answer
    is `null`; otherwise a truthy parsed value comes back as it is and every
    other outcome (throw, parse failure, falsy JSON) reads as no specs.
   */
  function FetchSpecsWithAI(key: Option<string>, reply: SpecReply): (r: SpecLookup)
    ensures r.requested <==> KeyTruthy(key)
    ensures r.specs.Some? <==> KeyTruthy(key) && reply.ParsedObject?
    ensures r.specs.Some? ==> r.specs.value == reply.specs
  {
    if !KeyTruthy(key) then SpecLookup(false, None)
    else
      match reply
      case ParsedObject(specs) => SpecLookup(true, Some(specs))
      case _ => SpecLookup(true, None)
  }
}
