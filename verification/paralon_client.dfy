/** The ParalonCloud image client: construction from the configuration, and the
    request building, response normalisation and error wrapping of its three
    operations (generate, edit, variation). The OpenAI-compatible SDK behind it
    is a parameter `sdk`; each operation also returns the list of SDK calls it
    made, so that what was sent can be stated. */
module ParalonClient {
  import opened Wrappers
  import opened Text
  import Config

  type Bytes = seq<bv8>

  /** The files the process can open, by path. */
  type FileSystem = map<string, Bytes>

  /** A constructed client: the SDK is bound to this key and base URL. */
  datatype Client = Client(apiKey: string, baseUrl: string)

  /** One element of an SDK response's `data` list. `hasUrl`/`hasB64` say whether
      the attribute exists at all; `url`/`b64` hold its value (`None` for null);
      `repr` is the element's `str()`; `typeName` its class name. */
  datatype ImageItem = ImageItem(
    typeName: string,
    hasUrl: bool, url: Option<string>,
    hasB64: bool, b64: Option<string>,
    repr: string)

  /** What an SDK call returned: no response object at all, or one whose `data`
      is null or a list. */
  datatype SdkResponse = NoResponse | Response(data: Option<seq<ImageItem>>)

  /** An SDK call either returns or raises an exception with the given text. */
  datatype SdkOutcome = Returned(response: SdkResponse) | Raised(message: string)

  /** The keyword arguments of each SDK call. */
  datatype SdkRequest =
    | GenerateRequest(model: string, prompt: string, size: string, quality: string, n: int)
    | EditRequest(model: string, image: Bytes, prompt: string, mask: Option<Bytes>, size: string, n: int)
    | VariationRequest(model: string, image: Bytes, size: string, n: int)

  /** One call made through the SDK bound to `client`. */
  datatype SdkCall = SdkCall(client: Client, request: SdkRequest)

  const AuthenticationPrefix := "Authentication failed. " + "Check your PARALONCLOUD_API_KEY in .env file. Error: "
  const EndpointPrefix := "API endpoint not found. " + "Check PARALONCLOUD_API_BASE in .env file. Error: "
  const GeneratePrefix := "Error generating image: "
  const EditPrefix := "Error editing image: "
  const VariationPrefix := "Error creating image variation: "
  const NoDataMessage := "No data returned from API"

  // ---------------------------------------------------------------------------
  // Construction

  /** `ParalonClient()`: the configuration is validated before the SDK client is
      built, so a missing or empty key yields the validation error and no client. */
  function NewClient(settings: Config.Settings): (r: Result<Client, string>)
    ensures r.Success? <==> settings.apiKey.Some? && settings.apiKey.value != ""
    ensures r.Success? ==> r.value.apiKey == settings.apiKey.value && r.value.baseUrl == settings.apiBase
    ensures r.Failure? ==> r.error == Config.MissingKeyMessage
  {
    match Config.Validate(settings)
    case Fail(e) => Failure(e)
    case Pass => Success(Client(settings.apiKey.value, settings.apiBase))
  }

  /** Construction from the process environment: a client exists exactly when
      the key variable is set to a non-empty value; its base URL is the base
      variable's value, or the default when that variable is unset. */
  lemma ConstructionFromEnvironment(env: map<string, string>)
    ensures NewClient(Config.FromEnvironment(env)).Success? <==>
      Config.ApiKeyVariable in env && env[Config.ApiKeyVariable] != ""
    ensures NewClient(Config.FromEnvironment(env)).Success? ==>
      NewClient(Config.FromEnvironment(env)).value ==
        Client(env[Config.ApiKeyVariable],
               if Config.ApiBaseVariable in env then env[Config.ApiBaseVariable] else Config.DefaultApiBase)
    ensures NewClient(Config.FromEnvironment(env)).Failure? ==>
      NewClient(Config.FromEnvironment(env)).error == Config.MissingKeyMessage
  {
  }

  // ---------------------------------------------------------------------------
  // Generate

  /** Python truthiness of an attribute: present, not null and not empty. */
  predicate Truthy(present: bool, value: Option<string>)
  {
    present && value.Some? && value.value != ""
  }

  /** The string one generated item contributes: its url, else its base64 data,
      else its string form. */
  function ItemText(item: ImageItem): string
  {
    if Truthy(item.hasUrl, item.url) then item.url.value
    else if Truthy(item.hasB64, item.b64) then item.b64.value
    else item.repr
  }

  /** An attribute read that tolerates absence: `None` when the attribute is missing. */
  function Attribute(present: bool, value: Option<string>): Option<string>
  {
    if present then value else None
  }

  /** A candidate that Python would treat as true: present and not empty. */
  predicate NonEmpty(candidate: Option<string>)
  {
    candidate.Some? && candidate.value != ""
  }

  /** The ordered-priority choice: the first candidate that is a non-empty
      string, else `fallback`. */
  function FirstNonEmpty(candidates: seq<Option<string>>, fallback: string): (r: string)
    ensures (exists i :: 0 <= i < |candidates| && NonEmpty(candidates[i])) ==>
      exists i :: 0 <= i < |candidates| && candidates[i] == Some(r) && r != "" &&
        forall j :: 0 <= j < i ==> !NonEmpty(candidates[j])
    ensures (forall i :: 0 <= i < |candidates| ==> !NonEmpty(candidates[i])) ==> r == fallback
  {
    if candidates == [] then fallback
    else if NonEmpty(candidates[0]) then candidates[0].value
    else
      var r := FirstNonEmpty(candidates[1..], fallback);
      assert forall i :: 1 <= i < |candidates| ==> candidates[i] == candidates[1..][i - 1];
      if exists i :: 0 <= i < |candidates| && NonEmpty(candidates[i]) then
        var i :| 0 <= i < |candidates| && NonEmpty(candidates[i]);
        assert NonEmpty(candidates[1..][i - 1]);
        var k :| 0 <= k < |candidates[1..]| && candidates[1..][k] == Some(r) && r != "" &&
          forall j :: 0 <= j < k ==> !NonEmpty(candidates[1..][j]);
        assert forall j :: 0 <= j < k + 1 ==> !NonEmpty(candidates[j]) by {
          forall j | 0 <= j < k + 1 ensures !NonEmpty(candidates[j]) {
            if j > 0 { assert candidates[j] == candidates[1..][j - 1]; }
          }
        }
        assert candidates[k + 1] == Some(r);
        r
      else
        r
  }

  /** The per-item choice is the priority list url, then b64_json, then the string
      form; in particular base64 data is never chosen over a non-empty url. */
  lemma ItemTextByPriority(item: ImageItem)
    ensures ItemText(item) == FirstNonEmpty([Attribute(item.hasUrl, item.url), Attribute(item.hasB64, item.b64)], item.repr)
    ensures Truthy(item.hasUrl, item.url) ==> ItemText(item) == item.url.value
  {
  }

  /** The response carries a non-empty `data` list (`response and response.data`). */
  predicate HasData(resp: SdkResponse)
  {
    resp.Response? && resp.data.Some? && |resp.data.value| > 0
  }

  /** Which wrapped message a generate failure receives. */
  datatype GenerateFailure = AuthenticationFailed | EndpointNotFound | GenerationFailed

  /** The substring tests on the exception text, in their fixed order. */
  function FailureKind(message: string): GenerateFailure
  {
    if Contains(message, "401") || Contains(message, "Unauthorized") then AuthenticationFailed
    else if Contains(message, "404") || Contains(message, "Not Found") then EndpointNotFound
    else GenerationFailed
  }

  function FailurePrefix(kind: GenerateFailure): string
  {
    match kind
    case AuthenticationFailed => AuthenticationPrefix
    case EndpointNotFound => EndpointPrefix
    case GenerationFailed => GeneratePrefix
  }

  /** The text of the exception `generate_image` raises for a failure with text
      `message`. The original text is always embedded, and the three wrapped forms
      can be told apart by their beginning: an authentication form exactly when
      the text mentions 401 or Unauthorized; an endpoint form exactly when it does
      not but mentions 404 or Not Found; the generic form otherwise. */
  function ClassifyGenerateError(message: string): (wrapped: string)
    ensures Contains(wrapped, message)
    ensures |message| <= |wrapped| && wrapped[|wrapped| - |message|..] == message
    ensures wrapped == AuthenticationPrefix + message || wrapped == EndpointPrefix + message ||
      wrapped == GeneratePrefix + message
    ensures StartsWith(wrapped, AuthenticationPrefix) <==>
      Contains(message, "401") || Contains(message, "Unauthorized")
    ensures StartsWith(wrapped, EndpointPrefix) <==>
      !(Contains(message, "401") || Contains(message, "Unauthorized")) &&
      (Contains(message, "404") || Contains(message, "Not Found"))
    ensures StartsWith(wrapped, GeneratePrefix) <==>
      !(Contains(message, "401") || Contains(message, "Unauthorized")) &&
      !(Contains(message, "404") || Contains(message, "Not Found"))
  {
    var kind := FailureKind(message);
    var prefix := FailurePrefix(kind);
    ContainsSuffix(prefix, message);
    StartsWithAppend(prefix, message);
    match kind
    case AuthenticationFailed =>
      PrefixesDiffer(prefix, EndpointPrefix, message, 1);
      PrefixesDiffer(prefix, GeneratePrefix, message, 0);
      prefix + message
    case EndpointNotFound =>
      PrefixesDiffer(prefix, AuthenticationPrefix, message, 1);
      PrefixesDiffer(prefix, GeneratePrefix, message, 0);
      prefix + message
    case GenerationFailed =>
      PrefixesDiffer(prefix, AuthenticationPrefix, message, 0);
      PrefixesDiffer(prefix, EndpointPrefix, message, 0);
      prefix + message
  }

  /** The "no data" text mentions none of the markers the classification tests. */
  lemma NoDataLacksMarker(marker: string)
    requires marker == "401" || marker == "Unauthorized" || marker == "404" || marker == "Not Found"
    ensures !Contains(NoDataMessage, marker)
  {
    if marker == "Not Found" {
      DifferAt(NoDataMessage, marker, 2);
      FirstCharAbsent(NoDataMessage[1..], marker);
    } else {
      FirstCharAbsent(NoDataMessage, marker);
    }
  }

  /** The "no data" exception is caught by the same handler and matches neither
      the 401 nor the 404 test, so it surfaces with the generic prefix:
      "Error generating image: No data returned from API". */
  lemma NoDataClassification()
    ensures ClassifyGenerateError(NoDataMessage) == GeneratePrefix + NoDataMessage
  {
    NoDataLacksMarker("401");
    NoDataLacksMarker("Unauthorized");
    NoDataLacksMarker("404");
    NoDataLacksMarker("Not Found");
  }

  /** `generate_image`: one SDK call with the arguments forwarded unchanged
      (quality included whatever the model); on success one string per `data`
      item, in order; every failure goes through the 401/404 classification. */
  method GenerateImage(client: Client, prompt: string, model: string, size: string, quality: string, n: int,
                       sdk: SdkCall -> SdkOutcome)
    returns (r: Result<seq<string>, string>, calls: seq<SdkCall>)
    ensures calls == [SdkCall(client, GenerateRequest(model, prompt, size, quality, n))]
    ensures sdk(calls[0]).Raised? ==> r == Failure(ClassifyGenerateError(sdk(calls[0]).message))
    ensures sdk(calls[0]).Returned? && !HasData(sdk(calls[0]).response) ==>
      r == Failure(GeneratePrefix + NoDataMessage)
    ensures r.Success? <==> sdk(calls[0]).Returned? && HasData(sdk(calls[0]).response)
    ensures r.Success? ==>
      var data := sdk(calls[0]).response.data.value;
      |r.value| == |data| > 0 &&
      forall i :: 0 <= i < |data| ==> r.value[i] == ItemText(data[i])
  {
    var call := SdkCall(client, GenerateRequest(model, prompt, size, quality, n));
    calls := [call];
    var outcome := sdk(call);
    match outcome
    case Raised(message) =>
      r := Failure(ClassifyGenerateError(message));
    case Returned(response) =>
      if !HasData(response) {
        NoDataClassification();
        r := Failure(ClassifyGenerateError(NoDataMessage));
      } else {
        var data := response.data.value;
        var results: seq<string> := [];
        for i := 0 to |data|
          invariant |results| == i
          invariant forall k :: 0 <= k < i ==> results[k] == ItemText(data[k])
        {
          results := results + [ItemText(data[i])];
        }
        r := Success(if results != [] then results else []);
      }
  }

  // ---------------------------------------------------------------------------
  // Edit and variation

  /** Which attribute the edit/variation comprehension reads from every element. */
  datatype Field = Url | B64Json

  function FieldName(field: Field): string
  {
    match field
    case Url => "url"
    case B64Json => "b64_json"
  }

  predicate HasField(item: ImageItem, field: Field)
  {
    match field
    case Url => item.hasUrl
    case B64Json => item.hasB64
  }

  function FieldValue(item: ImageItem, field: Field): Option<string>
  {
    match field
    case Url => item.url
    case B64Json => item.b64
  }

  /** The text of Python's AttributeError for a missing attribute. */
  function AttributeError(typeName: string, attribute: string): string
  {
    "'" + typeName + "' object has no attribute '" + attribute + "'"
  }

  /** `[img.<field> for img in items]`: every element's value, possibly null, in
      order; the first element lacking the attribute raises. */
  function Project(items: seq<ImageItem>, field: Field): (r: Result<seq<Option<string>>, string>)
    ensures r.Success? <==> forall i :: 0 <= i < |items| ==> HasField(items[i], field)
    ensures r.Success? ==>
      |r.value| == |items| && forall i :: 0 <= i < |items| ==> r.value[i] == FieldValue(items[i], field)
    ensures r.Failure? ==>
      exists k :: 0 <= k < |items| && !HasField(items[k], field) &&
        (forall j :: 0 <= j < k ==> HasField(items[j], field)) &&
        r.error == AttributeError(items[k].typeName, FieldName(field))
  {
    if items == [] then Success([])
    else if !HasField(items[0], field) then Failure(AttributeError(items[0].typeName, FieldName(field)))
    else
      match Project(items[1..], field)
      case Success(rest) => Success([FieldValue(items[0], field)] + rest)
      case Failure(e) => Failure(e)
  }

  /** The field chosen for a non-empty list: decided by the first element alone. */
  function ChosenField(data: seq<ImageItem>): Field
    requires |data| > 0
  {
    if data[0].hasUrl then Url else B64Json
  }

  /** The result expression shared by `edit_image` and `create_variation`: every
      url when the first element has a `url` attribute, else every b64_json; a
      null or empty `data` list gives an empty result, not an error, while a
      missing response object raises. */
  function ExtractImages(response: SdkResponse): (r: Result<seq<Option<string>>, string>)
    ensures response.NoResponse? ==> r == Failure(AttributeError("NoneType", "data"))
    ensures response.Response? && !HasData(response) ==> r == Success([])
    ensures HasData(response) ==>
      var data := response.data.value;
      (r.Success? <==> forall i :: 0 <= i < |data| ==> HasField(data[i], ChosenField(data))) &&
      (r.Success? ==>
        |r.value| == |data| &&
        forall i :: 0 <= i < |data| ==> r.value[i] == FieldValue(data[i], ChosenField(data)))
    ensures HasData(response) && r.Failure? ==>
      var data := response.data.value;
      exists k :: 0 <= k < |data| && !HasField(data[k], ChosenField(data)) &&
        (forall j :: 0 <= j < k ==> HasField(data[j], ChosenField(data))) &&
        r.error == AttributeError(data[k].typeName, FieldName(ChosenField(data)))
  {
    match response
    case NoResponse => Failure(AttributeError("NoneType", "data"))
    case Response(data) =>
      if data.Some? && |data.value| > 0 then Project(data.value, ChosenField(data.value))
      else Success([])
  }

  /** When the first element lacks `url`, every element contributes its
      b64_json even if a later element carries a non-empty url. */
  lemma FirstElementDecides(data: seq<ImageItem>, i: nat)
    requires |data| > 0 && !data[0].hasUrl && i < |data|
    requires forall k :: 0 <= k < |data| ==> data[k].hasB64
    ensures ExtractImages(Response(Some(data))).Success?
    ensures ExtractImages(Response(Some(data))).value[i] == data[i].b64
  {
  }

  /** The text of Python's FileNotFoundError when opening `path`. */
  function NoSuchFile(path: string): string
  {
    "[Errno 2] No such file or directory: '" + path + "'"
  }

  /** The mask sent with an edit: the file's bytes when a non-empty mask path is
      given and that file exists, otherwise none. */
  function MaskToSend(fs: FileSystem, maskPath: Option<string>): (mask: Option<Bytes>)
    ensures mask.Some? <==> maskPath.Some? && maskPath.value != "" && maskPath.value in fs
    ensures mask.Some? ==> mask.value == fs[maskPath.value]
  {
    if maskPath.Some? && maskPath.value != "" && maskPath.value in fs then Some(fs[maskPath.value]) else None
  }

  /** The outcome of an edit or variation call before its failure text is wrapped. */
  function Completed(outcome: SdkOutcome): Result<seq<Option<string>>, string>
  {
    match outcome
    case Raised(message) => Failure(message)
    case Returned(response) => ExtractImages(response)
  }

  /** `edit_image`: an unreadable image fails before any SDK call; otherwise one
      call with the image, the mask chosen by `MaskToSend` and the other arguments
      unchanged. Every failure carries the edit prefix followed by the original
      text, with no 401/404 classification. */
  method EditImage(client: Client, fs: FileSystem, imagePath: string, prompt: string, maskPath: Option<string>,
                   model: string, size: string, n: int, sdk: SdkCall -> SdkOutcome)
    returns (r: Result<seq<Option<string>>, string>, calls: seq<SdkCall>)
    ensures imagePath !in fs ==> calls == [] && r == Failure(EditPrefix + NoSuchFile(imagePath))
    ensures imagePath in fs ==>
      calls == [SdkCall(client, EditRequest(model, fs[imagePath], prompt, MaskToSend(fs, maskPath), size, n))]
    ensures imagePath in fs && sdk(calls[0]).Raised? ==> r == Failure(EditPrefix + sdk(calls[0]).message)
    ensures imagePath in fs ==> r == Completed(sdk(calls[0])).MapFailure(e => EditPrefix + e)
    ensures r.Failure? ==> StartsWith(r.error, EditPrefix)
  {
    if imagePath !in fs {
      calls := [];
      r := Failure(EditPrefix + NoSuchFile(imagePath));
      StartsWithAppend(EditPrefix, NoSuchFile(imagePath));
      return;
    }
    var image := fs[imagePath];
    var mask := MaskToSend(fs, maskPath);
    var call := SdkCall(client, EditRequest(model, image, prompt, mask, size, n));
    calls := [call];
    r := Completed(sdk(call)).MapFailure(e => EditPrefix + e);
    if r.Failure? {
      StartsWithAppend(EditPrefix, Completed(sdk(call)).error);
    }
  }

  /** `create_variation`: as `EditImage` without prompt or mask, and with the
      variation prefix on every failure. */
  method CreateVariation(client: Client, fs: FileSystem, imagePath: string,
                         model: string, size: string, n: int, sdk: SdkCall -> SdkOutcome)
    returns (r: Result<seq<Option<string>>, string>, calls: seq<SdkCall>)
    ensures imagePath !in fs ==> calls == [] && r == Failure(VariationPrefix + NoSuchFile(imagePath))
    ensures imagePath in fs ==> calls == [SdkCall(client, VariationRequest(model, fs[imagePath], size, n))]
    ensures imagePath in fs && sdk(calls[0]).Raised? ==> r == Failure(VariationPrefix + sdk(calls[0]).message)
    ensures imagePath in fs ==> r == Completed(sdk(calls[0])).MapFailure(e => VariationPrefix + e)
    ensures r.Failure? ==> StartsWith(r.error, VariationPrefix)
  {
    if imagePath !in fs {
      calls := [];
      r := Failure(VariationPrefix + NoSuchFile(imagePath));
      StartsWithAppend(VariationPrefix, NoSuchFile(imagePath));
      return;
    }
    var image := fs[imagePath];
    var call := SdkCall(client, VariationRequest(model, image, size, n));
    calls := [call];
    r := Completed(sdk(call)).MapFailure(e => VariationPrefix + e);
    if r.Failure? {
      StartsWithAppend(VariationPrefix, Completed(sdk(call)).error);
    }
  }
}
