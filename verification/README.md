# ParalonCloud image client — a Dafny model

The ParalonCloud image tool is a small web backend. It forwards image generation,
image editing and image variation requests to an OpenAI-compatible API and returns
the images it receives. This project models the client that sits between the web
layer and that API. The model covers:

- **construction**: the configuration is read from the environment and validated.
  A missing or empty API key means no client is built.
- **generate**: one SDK call with the caller's arguments passed through unchanged.
  The `data` list of the response is turned into one string per item, in order.
  Each item gives its non-empty url, else its non-empty base64 data, else its string
  form. A missing or empty `data` list is an error.
- **generate error classification**: the text of any failure is wrapped in one of
  three messages. The choice is made by substring tests, in a fixed order:
  "401"/"Unauthorized" first, then "404"/"Not Found", then a generic prefix.
- **edit and variation**: the image file is read, plus the mask file for an edit,
  then one SDK call is made. The result is every element's `url` when the first
  element has a `url` attribute, and every element's `b64_json` otherwise. A null
  or empty `data` list gives an empty result; a missing response object raises
  AttributeError. Every failure is wrapped with
  a fixed prefix for that operation.

The SDK is a parameter `sdk: SdkCall -> SdkOutcome`, where an `SdkCall` is the
client plus the keyword arguments. A call either returns a response or raises an
exception with a message. Each operation also returns the list of SDK calls it
made. This is how "exactly one call, arguments forwarded unchanged" is stated. A
response is `NoResponse` or `Response(data)`, where `data` is null or a list of
`ImageItem` records. Each record says whether `url` and `b64_json` exist as
attributes, what their values are (possibly null), the item's string form and its
class name. The files the client can open are a map from path to bytes.

Modules: `Wrappers` (Option, Result, Outcome), `Text` (the prefix test the contracts
use, and Python's substring `in`), `Config` (app/config.py) and `ParalonClient` (app/paralon_client.py).

The client makes exactly one SDK call per operation and always forwards
`quality`. It has no endpoint probing, no alternative response body shapes and
no fallback client.

## Model

| member | source | states |
|---|---|---|
| `Config.Validate` | app/config.py:19-21 | validation passes exactly when the key is present and non-empty; otherwise it fails with "PARALONCLOUD_API_KEY not found in environment variables" |
| `ParalonClient.ConstructionFromEnvironment` | app/config.py:7-8 | built from the process environment, a client exists exactly when `PARALONCLOUD_API_KEY` is set to a non-empty value, and it then holds that key and the `PARALONCLOUD_API_BASE` value, or `https://paraloncloud.com/v1` when that variable is unset; otherwise the error is the validation message |
| `ParalonClient.NewClient` | app/paralon_client.py:9-14 | a client is built exactly when the key is present and non-empty, and it then holds the configured key and base URL; otherwise the validation message is the error and no client exists |
| `ParalonClient.GenerateImage` | app/paralon_client.py:30-58 | exactly one SDK call, carrying model, prompt, size, quality and n unchanged (quality always sent); it succeeds exactly when the response has a non-empty `data` list; on success there is one string per item, in the same order, each chosen by the item rule; a raised message goes through the classification; a missing response or empty `data` gives "Error generating image: No data returned from API" |
| `ParalonClient.ItemTextByPriority` | app/paralon_client.py:49-56 | the string for a generated item is the first non-empty value from the priority list (url, b64_json), else the item's string form; a non-empty url always wins over base64 data |
| `ParalonClient.ClassifyGenerateError` | app/paralon_client.py:59-66 | the wrapped text is the chosen prefix followed by the original text; it begins with the authentication message exactly when the text mentions "401" or "Unauthorized"; it begins with the endpoint message exactly when it mentions neither of those but mentions "404" or "Not Found"; otherwise it begins with "Error generating image: " |
| `ParalonClient.NoDataLacksMarker` | app/paralon_client.py:61-63 | the text "No data returned from API" contains none of "401", "Unauthorized", "404", "Not Found" |
| `ParalonClient.NoDataClassification` | app/paralon_client.py:44-66 | the internal no-data exception, caught by the same handler, comes out as "Error generating image: " followed by "No data returned from API" |
| `Text.ContainsIff` | app/paralon_client.py:61-63 | the substring test used by the classification holds exactly when the pattern occurs at some index of the text |
| `ParalonClient.Project` | app/paralon_client.py:106 | the comprehension over one attribute succeeds exactly when every element has that attribute; it then keeps the length, and each position holds that element's value, possibly null; otherwise the error is the AttributeError text of the first element without the attribute |
| `ParalonClient.ExtractImages` | app/paralon_client.py:106 | no response object gives the AttributeError for `data`; a null or empty `data` gives an empty list, not an error; otherwise the attribute read from every element is `url` when the first element has it and `b64_json` when it does not; on success the length equals that of `data`; otherwise the error is the AttributeError text of the first element lacking that attribute |
| `ParalonClient.FirstElementDecides` | app/paralon_client.py:106 | when the first element lacks `url`, every position holds that element's b64_json, even where a later element carries a url |
| `ParalonClient.MaskToSend` | app/paralon_client.py:87-90 | a mask is sent exactly when a non-empty mask path is given and that file exists, and it is then that file's content |
| `ParalonClient.EditImage` | app/paralon_client.py:83-108 | a missing image file fails with "Error editing image: " plus the file-not-found text, and no SDK call is made; otherwise exactly one call is made, with the image bytes, the chosen mask and the other arguments unchanged; a raised message is wrapped with "Error editing image: " and no 401/404 classification; every failure begins with that prefix |
| `ParalonClient.CreateVariation` | app/paralon_client.py:123-141 | the same as for an edit but without a prompt or mask, and every failure begins with "Error creating image variation: " |

`ExtractImages` models line 106. Line 139 of `create_variation` is the same
expression, and `CreateVariation` uses `ExtractImages` too.

## Left out

- The OpenAI SDK itself: which HTTP requests it sends, how it parses replies and the text of its exceptions. These are the parameter `sdk` and the message of `Raised`.
- `run_in_executor`, thread offloading and the event loop (app/paralon_client.py:32-33, 93-94, 128-129). These are concurrency and scheduling. A failure of `asyncio.get_event_loop` is not modelled.
- Reading files: the only failure modelled is a missing file. Its message is written as `[Errno 2] No such file or directory: '<path>'`. Python's `repr` of a path that itself contains quotes is not reproduced. Permission errors, and a mask path that names a directory (`os.path.exists` is true but `open` fails), are not modelled.
- The AttributeError text uses the item's class name as it is recorded in `ImageItem.typeName`.
- app/main.py (routing, uploads, saving and downloading images) and app/image_processor.py (download, style blending, resize, format conversion). These are I/O and floating-point image work around the client, so they are not part of this model.
- app/config.py's `.env` loading and directory creation. The environment is passed as a map.
- NewClient: the SDK client's own construction (app/paralon_client.py:11-14) is taken to succeed. The SDK may reject a malformed base URL there, and that failure is not modelled.
- The Python default argument values of `generate_image`, `edit_image` and `create_variation` (app/paralon_client.py:16, 68, 110): every operation here takes all its arguments explicitly, as app/main.py passes them all.
