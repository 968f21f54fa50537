# GenAI image challenge: the decision logic, in Dafny

`genai_challenge.py` is a Streamlit page that sends a text prompt to one of
three Bedrock image models (Nova Canvas, Titan Image Generator, Stable
Diffusion XL), shows the result, lets the user download it or save it to
an S3 bucket, and runs a carousel over the images already in the bucket.
Almost all of it is UI and cloud calls. This project models the logic
between those calls and proves what it guarantees:

- **Request bodies** (module `Requests`, `requests.dfy`). The Stable
  Diffusion body is built as a dict and loses its `style_preset` key when
  the style is the `"None"` sentinel. `BuildSdBody` is that imperative
  build over a `map<string, Json>`. The Titan and Nova bodies are records
  that differ only in their seed. Each body has a JSON encoder and a
  decoder, and the round trip through them is proved. `BuildInvocation`
  is the model dispatch of the Generate action.
- **Form check and names** (module `Naming`, `naming.dfy`). The fields-filled
  check gates the Generate button. The download file name is
  `fname_lname_%Y%m%d_%H%M%S.png`, and the clock reading is a parameter.
  The S3 key is `images/<file name>`.
- **Listing filter** (module `Listing`, `listing.dfy`). `list_images_in_s3`
  becomes a nested loop over pages, where each page is `Option<seq<string>>`
  (`None` means the page has no `Contents`). It is proved equal to a filter
  over the concatenated pages.
- **Carousel** (module `Carousel`, `carousel.dfy`). The session's
  `image_index` and `loaded_images` are the fields of class `Gallery`. Its
  methods are Prev, Next, display-current, preload, clear and a whole run
  of the section. Each method is proved against a pure function: `PrevIndex`,
  `NextIndex`, `LoadKey`, `Preload` or `GalleryRun`. The lemmas are proved
  about those functions. `get_image_from_s3` is an oracle
  `fetch: string -> Option<Img>`. Each operation returns the keys it fetched,
  so that "fetched only when not cached" can be stated.
- Small string helpers that copy Python's `strip`, `lower`, `endswith` and
  `split('/')[-1]` are in module `Text` (`text.dfy`). `Option` is in
  `wrappers.dfy`.

Python's `%` is a floored modulo and Dafny's is Euclidean. The two agree
whenever the divisor is positive, which is always the case here (the list
length, once the list is known to be non-empty). So `(i - 1) % n` keeps
its source form.

A run of the carousel reads the persisted index against a list that is
listed again on every run. When the bucket shrinks so that the index
points past the end, and neither Prev nor Next was clicked, the source
raises `IndexError` inside `display_current_image`. `GalleryRun` models
this as the outcome `IndexError`. `RunIndexError` states exactly when it
happens. `Gallery.DisplayCurrent` requires an index inside the list.

## Model

| member | source | states |
|---|---|---|
| `Text.TrimStart` | genai_challenge.py:285-287 | `lstrip`: the result is a suffix of the input, everything dropped is whitespace (Python's `isspace` set), and the result is empty or starts with a non-space |
| `Text.TrimEnd` | genai_challenge.py:285-287 | `rstrip`: the result is a prefix of the input, everything dropped is whitespace, and the result is empty or ends with a non-space |
| `Text.Strip` | genai_challenge.py:285-287 | `strip()`: neither end of the result is whitespace; `StripEmptyIff` states when the result is empty |
| `Text.StripEmptyIff` | genai_challenge.py:285-287 | `s.strip() == ""` exactly when `s` has no non-whitespace character |
| `Text.Lower` | genai_challenge.py:239 | `lower()` keeps the length and folds each character on its own (A–Z to a–z, all else unchanged) |
| `Text.EndsWith` | genai_challenge.py:239 | `endswith`: `ExtensionDecides` states which last characters of a key decide the image filter |
| `Text.AfterLastSlash` | genai_challenge.py:403 | `key.split('/')[-1]` is the longest suffix of the key without a `/`: it has no `/`, and it is the whole key or is preceded by a `/` |
| `Text.AfterLastSlashOfPath` | genai_challenge.py:403 | the caption of `dir/name` is `name` when `name` has no `/` |
| `Requests.SdRequestBody` | genai_challenge.py:73-82 | the body meant for a prompt and a style: `SdPresetStyles` states that only the `"None"` entry drops the style, and `BuildSdBody` that the dict built in place is its JSON encoding |
| `Requests.SdBodyJson` | genai_challenge.py:73-82 | the JSON dict of a Stable Diffusion body: `SdBodyRoundTrip` states that it decodes back to the body, with the style key absent exactly for `None` |
| `Requests.BuildSdBody` | genai_challenge.py:73-82 | `style_preset` is present exactly when the style is not `"None"`, and then equals the style; the other keys are always exactly `text_prompts = [{"text": text}]`, `cfg_scale = 10`, `seed = 0`, `steps = 50`; the dict is the JSON encoding of `SdRequestBody(text, style)` and decodes back to it |
| `Requests.SdBodyRoundTrip` | genai_challenge.py:73-82 | every Stable Diffusion body is recovered from its JSON dict, with the style key absent exactly for `None` |
| `Requests.SdPresetStyles` | genai_challenge.py:16-35 | of the 18 selector entries, the first (`"None"`) gives a body without a style and every other entry is sent unchanged |
| `Requests.TitanBody` | genai_challenge.py:111-122 | the Titan body: `TitanNovaDifferOnlyInSeed` fixes every field of it and `TextToImageRoundTrip` its JSON round trip |
| `Requests.NovaBody` | genai_challenge.py:164-175 | the Nova body: `TitanNovaDifferOnlyInSeed` states that it is the Titan body with seed 42 |
| `Requests.TitanNovaDifferOnlyInSeed` | genai_challenge.py:111-175 | the Nova body is the Titan body with seed 42 instead of 0; both are `TEXT_IMAGE` with width = height = 1024, one image, cfgScale 8.0 and standard quality |
| `Requests.TextToImageRoundTrip` | genai_challenge.py:111-122 | every Titan / Nova body is recovered from its JSON dict |
| `Requests.BuildInvocation` | genai_challenge.py:298-303 | Nova Canvas, Amazon Titan and Stable Diffusion get their own model id and body, and only Stable Diffusion uses the style; accept and content type are `application/json` |
| `Naming.Form` | genai_challenge.py:284-295 | Generate is enabled exactly when prompt, first name and last name each contain a non-whitespace character, and the warning shows exactly when it is disabled |
| `Naming.PadDigits` | genai_challenge.py:309 | a zero-padded field has exactly the requested width and only digits |
| `Naming.Timestamp` | genai_challenge.py:309 | `%Y%m%d_%H%M%S` is 15 characters: digits everywhere except an underscore at position 8 |
| `Naming.TimestampRoundTrip` | genai_challenge.py:309 | the stamp determines the clock reading: parsing it gives back the date and time |
| `Naming.DownloadFilename` | genai_challenge.py:310 | the download file name: `DownloadFilenameParts` splits it back into the names, the stamp and `.png` |
| `Naming.DownloadFilenameParts` | genai_challenge.py:310 | the file name ends in `.png`, its stamp part parses back to the clock reading, and before that part it is `fname + "_" + lname` with the names untrimmed |
| `Naming.StorageKey` | genai_challenge.py:347 | the S3 key of a saved image: `SavedKeyShownByGallery` and `SlashInNameChangesCaption` state how the gallery lists and captions it |
| `Naming.SavedKeyShownByGallery` | genai_challenge.py:347 | the saved key is `images/` + file name, it passes the gallery's image filter, and the gallery captions it with the file name when neither name contains a `/` |
| `Naming.SlashInNameChangesCaption` | genai_challenge.py:347 | when a name contains a `/`, the gallery caption is not the file name |
| `Listing.IsImageKey` | genai_challenge.py:239 | the image filter: `IsImageKeyCaseInsensitive` and `ExtensionDecides` state that only the lower-cased extension decides |
| `Listing.AllKeys` | genai_challenge.py:235-238 | the keys of all pages in order: `AllKeysMembership` states that a key is in it exactly when a page with `Contents` lists it |
| `Listing.ImageKeys` | genai_challenge.py:235-240 | the filtered keys: `ImageKeysAppend` states that order is kept and `ImageKeysCount` that image keys keep their count and others vanish |
| `Listing.ListImagesInS3` | genai_challenge.py:227-245 | the loop returns the image keys of all pages, in order, and returns `[]` when the client raised |
| `Listing.ImageKeysAppend` | genai_challenge.py:236-240 | filtering distributes over concatenation, so order is kept |
| `Listing.ListingAppend` | genai_challenge.py:236-240 | the result for two runs of pages is the first run's result followed by the second's |
| `Listing.ImageKeysCount` | genai_challenge.py:239-240 | each image key appears in the result exactly as often as in the listing, and any other key does not appear |
| `Listing.ImageKeysMembership` | genai_challenge.py:235-242 | a key is in the result exactly when some page with `Contents` lists it and it is an image key |
| `Listing.IsImageKeyCaseInsensitive` | genai_challenge.py:239 | a key and its lower-cased form are kept or dropped together |
| `Listing.ExtensionDecides` | genai_challenge.py:239 | only the last four or five characters, lower-cased, decide whether a key is kept (`.png`, `.jpg`, `.jpeg`) |
| `Carousel.PrevIndex` | genai_challenge.py:376 | the result is in `[0, n)` for any index, and on a position of the list it steps back one, with 0 going to `n - 1` |
| `Carousel.NextIndex` | genai_challenge.py:380 | the result is in `[0, n)` for any index, and on a position of the list it steps forward one, with `n - 1` going to 0 |
| `Carousel.Navigate` | genai_challenge.py:375-380 | the index after a click: `Gallery.Prev`, `Gallery.Next` and `PrevNextInverse` state its effect |
| `Carousel.PrevNextInverse` | genai_challenge.py:375-380 | Prev then Next, and Next then Prev, give back the index |
| `Carousel.AdvanceBy` | genai_challenge.py:427-438 | `k` auto-scroll steps stay in `[0, n)`, and `AdvanceByIsMod` states that they land on `(i + k) % n` |
| `Carousel.AdvanceByIsMod` | genai_challenge.py:435 | `k` auto-scroll steps from `i` give `(i + k) % n` |
| `Carousel.AutoScrollFullCycle` | genai_challenge.py:427-438 | `n` auto-scroll steps come back to the start |
| `Carousel.AutoScrollReaches` | genai_challenge.py:427-438 | every position is reached in fewer than `n` auto-scroll steps |
| `Carousel.LoadKey` | genai_challenge.py:394-398 | the key is fetched exactly when it is not cached; it is inserted only after a fetch that succeeded, with the fetched image; no entry is removed or overwritten |
| `Carousel.Preload` | genai_challenge.py:410-414 | the preload loop over the keys: `PreloadKeys`, `PreloadValues` and `PreloadFetches` state the cache and the fetches it leaves |
| `Carousel.PreloadContents` | genai_challenge.py:410-414 | after preload, the cache keys are the old keys plus every listed key whose fetch succeeded; old entries are unchanged and new ones hold their fetched image |
| `Carousel.PreloadKeys` | genai_challenge.py:410-414 | after preload, the cache keys are exactly the old keys plus the listed keys whose fetch succeeded |
| `Carousel.PreloadValues` | genai_challenge.py:410-414 | preload neither removes nor overwrites a cached entry, and each new entry holds the image its fetch returned |
| `Carousel.PreloadFetches` | genai_challenge.py:410-414 | preload fetches only listed keys that were not cached, and fetches a key whose fetch succeeds at most once |
| `Carousel.ShownSlide` | genai_challenge.py:400-404 | an image is shown exactly when the key is cached; it is the cached image, captioned with the part of the key after its last `/` |
| `Carousel.GalleryRun` | genai_challenge.py:366-441 | one run of the carousel section never leaves a negative index |
| `Carousel.RunIndexError` | genai_challenge.py:364-441 | a run raises `IndexError` exactly when the list is non-empty, the index is past its end, and none of Prev, Next or Clear was clicked; a run that displays, or one that starts in range, leaves the index in range |
| `Carousel.RunCache` | genai_challenge.py:408-421 | Clear empties the cache and keeps the index; every other run keeps all cached entries and fetches only listed keys that were not cached |
| `Carousel.AutoScrollRunsState` | genai_challenge.py:427-438 | after `k` auto-scroll runs the index has moved `k` steps, each image shown on the way is cached if its fetch succeeded, and nothing cached before is dropped |
| `Carousel.AutoScrollRuns` | genai_challenge.py:427-438 | `k` auto-scroll runs never leave a negative index; `AutoScrollRunsState` states the index and cache they reach |
| `Carousel.AutoScrollCachesAll` | genai_challenge.py:427-438 | one auto-scroll run per image brings the index back to the start and caches every listed image whose fetch succeeds |
| `Carousel.Gallery.constructor` | genai_challenge.py:357-361 | a fresh session starts at index 0 with an empty cache |
| `Carousel.Gallery.Prev` | genai_challenge.py:375-376 | the index becomes `PrevIndex(old index, n)`; the cache is untouched |
| `Carousel.Gallery.Next` | genai_challenge.py:379-380 | the index becomes `NextIndex(old index, n)`; the cache is untouched |
| `Carousel.Gallery.DisplayCurrent` | genai_challenge.py:390-404 | the cache and the fetch log are those of `LoadKey` on the current key, and what is shown is `ShownSlide` of the new cache |
| `Carousel.Gallery.PreloadAll` | genai_challenge.py:408-415 | the loop leaves the cache and fetch log of `Preload` over the listed keys |
| `Carousel.Gallery.ClearCache` | genai_challenge.py:418-421 | the cache is empty afterwards |
| `Carousel.Gallery.Run` | genai_challenge.py:357-441 | the new index, cache, outcome and fetch log are those of `GalleryRun` on the old index and cache |

## Left out

- Bedrock calls are not modelled: `invoke_model`, parsing the response (`artifacts[0].base64`, `images[0]`), and the error messages. They are network I/O. The model stops at the request handed to the client.
- The Titan v2 to v1 fallback (genai_challenge.py:142-152) is not modelled. It is a second network call whose result only an oracle could give.
- S3 calls are not modelled: `put_object`, `get_object` and the paginator. The paginator's pages are an input to `Listing.ListImagesInS3`, and `None` stands for the client raising. A fetch is the oracle `fetch`.
- The `@st.cache_data(ttl=300)` cache on `get_image_from_s3` is not modelled. It lives in Streamlit and depends on time. Each call to `fetch` in the model is one call of `get_image_from_s3`, which may be a cache hit.
- Image codecs are not modelled: `base64_to_image`, `PIL.Image.open` and `save_image`'s PNG encoding. They are foreign libraries, so images are the opaque type parameter `Img`.
- `Carousel.LoadKey` reads `if image:` as "the fetch returned an image". The source returns `None` on failure, and a PIL image is truthy.
- JSON text is not modelled: `json.dumps` and the key order of the serialized body. Bodies are JSON values, where a dict is an unordered map.
- Streamlit plumbing is not modelled: widgets, columns, spinners, success/error/info messages, and the "Image i of n" and "Loaded x of n" captions. `st.rerun()` is modelled only as the end of a run (`Cleared`, and the next auto-scroll run).
- The clock and the pause are not modelled. `datetime.now()` becomes the `DateTime` parameter, and `time.sleep(scroll_speed)` is dropped: an auto-scroll run is one display and one advance.
- The progress fraction `(index + 1) / len` (genai_challenge.py:445) is not modelled, because it is floating point.
- The generated-image session state (`image_bytes`, `filename`, `image_base64`) and the download button are not modelled. They only carry values through the UI.
- Text.Lower: folds only A–Z. Python's `str.lower()` follows full Unicode case mapping. For the image filter the two agree as long as no non-ASCII character in a key lower-cases to a string ending in `.png`, `.jpg` or `.jpeg`.
- Naming.Timestamp: pads every year to four digits. On some platforms Python's `strftime("%Y")` does not pad years before 1000.
- Naming.ValidDateTime: bounds the day by 31 rather than by the length of the month. The stamp format and its round trip do not depend on this.
