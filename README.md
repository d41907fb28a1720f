# Offline VK player: verified model of the playback engine, effects and track-list fetch

This project models the core of a desktop player for tracks from the VK social
network, in Dafny, and proves properties of that model.

- **Playback engine** (`core/audio_engine.py`, class `AudioEngine`), in `engine.dfy`
  and `resampling.dfy`:
  - the control state: buffer, stream, position, volume, speed, playing flag;
  - the operations that change it: load, play, pause, stop, seek, volume, speed;
  - the block callback the output driver calls. It resamples the decoded
    buffer by linear interpolation at the current speed, pads with silence
    past the end of the track, then applies the equalizer, the limiter and
    the volume, in that order.
- **Effects** (`core/effects.py`), in `effects.dfy`:
  - the ten-band equalizer's gain table and filter board, and the limiter's
    fixed compressor settings;
  - the DSP library itself is a parameter: a function from the sample rate,
    the parameters and a block to a block of the same shape.
- **Track-list fetch** (`core/vk_client.py`, `get_audio`), in `vk_client.dfy`
  and `pyjson.dfy`:
  - the decoded JSON response, and the Python operations applied to it (`in`,
    `[]`, `.get`, iteration, truthiness), each with its exception case;
  - the per-item filtering, the thumbnail choice (the `photo_<N>` key with
    the largest N) and the effect of any exception: the whole call returns
    an empty list. The HTTP request is a parameter.

Modules: `Wrappers` (Option), `Effects`, `Resampling`, `Engine`, `PyJson`, `VkClient`.

How the model is stated:
- **Imperative code** is modelled as classes with fields and `modifies` frames.
  - `AudioEngine` keeps the invariant `Valid()` on every method.
  - The callback writes into an `array` of frames. Its loops are proved
    against the pure function `Resample`.
- **The `get_audio` loops** are methods (`SelectThumbnail`, `ExtractTracks`).
  They are proved equal to the functions `BestPhoto` and `TrackList`, whose
  properties are lemmas.

Three details of the source that the model keeps as written:
- `if file_data:` and `if file_path:` test Python truthiness, so empty bytes
  fall through to the path, and an empty path fails.
- In an item whose `album['thumb']` is not a dict, the keys of the album
  itself are scanned.
- The second silence guard of the callback (audio_engine.py:112-115) cannot
  be reached. The block's first source index is already known to be at most
  the last index that can be interpolated (frame count − 2), so at least
  one frame is valid. The model has no branch for it.

## Model

| member | source | states |
|---|---|---|
| Engine.AudioEngine.constructor | core/audio_engine.py:10-21 | no stream, no buffer, rate 44100, position 0, not playing, volume 1, speed 1; an equalizer and a limiter at 44100 with flat gains, built on the given DSP chains, the limiter's compressor at -12 dB, ratio 1.5, attack 10 ms, release 1000 ms |
| Engine.DecodeRequest | core/audio_engine.py:30-42 | definition: non-empty bytes are decoded first, else a non-empty path that exists, else failure; characterised by LoadTrack |
| Engine.AudioEngine.LoadTrack | core/audio_engine.py:25-52 | always stops and rewinds; succeeds exactly when the request decodes (non-empty bytes first, else a non-empty path that exists); on success the buffer, sample rate and both effect rates are the decoded ones, on failure all of them are kept |
| Engine.AudioEngine.Play | core/audio_engine.py:54-67 | without a buffer nothing changes; otherwise playing, opening a stream with the buffer's rate, channel count and block size 2048 only when none is open |
| Engine.AudioEngine.Pause | core/audio_engine.py:69-70 | not playing; invariant kept |
| Engine.AudioEngine.Stop | core/audio_engine.py:72-78 | not playing, position 0, stream closed |
| Engine.Clamp | core/audio_engine.py:83 | the result lies in [lo, hi], equals x inside, lo below and hi above |
| Engine.AudioEngine.Seek | core/audio_engine.py:80-83 | without a buffer the position is kept; otherwise it is seconds times the sample rate clamped to [0, frame count] |
| Engine.AudioEngine.SetVolume | core/audio_engine.py:85-86 | the volume is the argument clamped to [0, 1] |
| Engine.AudioEngine.SetSpeed | core/audio_engine.py:88-90 | a speed that is not negative is stored; a negative one leaves the old speed |
| Engine.AudioEngine.Callback | core/audio_engine.py:92-138 | paused or without a buffer: silence, nothing else changes; start past the last index that can be interpolated (frame count − 2): silence, playing stops, position kept; otherwise the block is the resampled block through equalizer, limiter and volume, the position advances by frames times speed, and playing continues exactly when every frame was valid |
| Engine.CountValid | core/audio_engine.py:109-110 | the loop computes the number of valid frames |
| Engine.Render | core/audio_engine.py:100-130 | writes exactly the resampled block and returns the number of valid frames |
| Engine.Clear | core/audio_engine.py:97 | every frame becomes silence of its own width |
| Engine.Overwrite | core/audio_engine.py:134 | the block's contents become the processed block |
| Engine.Scale | core/audio_engine.py:138 | every sample is multiplied by the volume |
| Engine.ScaleFrame | core/audio_engine.py:138 | same width, and every sample is multiplied by the volume |
| Engine.ScaleBlock | core/audio_engine.py:138 | same length, and every frame is scaled channel by channel |
| Engine.Cleared | core/audio_engine.py:97 | same length, and every frame is silence of the original width |
| Engine.EndOfTrackIsFinal | core/audio_engine.py:104-107 | after the end-of-track callback, a second callback is also silent, with not playing and the position unchanged |
| Resampling.MaxIndex | core/audio_engine.py:102 | definition: frame count − 2; characterised by Interpolate and ValidPrefix |
| Resampling.SourceIndex | core/audio_engine.py:100 | definition: position + i × speed; characterised by SourceIndexMonotone and FrameAt |
| Resampling.Silence | core/audio_engine.py:129 | a frame of the given width, all zeros |
| Resampling.Lerp | core/audio_engine.py:124 | same width; with a mix weight in [0, 1] each sample lies between the two frames' samples |
| Resampling.Interpolate | core/audio_engine.py:117-124 | both frames read exist, the width is the channel count, each sample lies between the samples of frames floor(idx) and floor(idx)+1 |
| Resampling.FrameAt | core/audio_engine.py:109-129 | definition: interpolated while the source index is at most frame count − 2, silent after; characterised by PrefixThenSilence |
| Resampling.Resample | core/audio_engine.py:100-129 | as many frames as asked, each as wide as the buffer |
| Resampling.ValidCount | core/audio_engine.py:109-110 | at most the block size |
| Resampling.SourceIndexMonotone | core/audio_engine.py:100 | source indices do not decrease along a block when the speed is not negative |
| Resampling.ValidPrefix | core/audio_engine.py:109-110 | frame i is valid exactly when i is below the valid count: the valid frames form a prefix |
| Resampling.ScanCountsValid | core/audio_engine.py:109-110 | a scan that stops at the first index past the last interpolable one, or at the block's end, has counted exactly the valid frames |
| Resampling.AllValid | core/audio_engine.py:109-110 | a valid last frame makes every frame valid |
| Resampling.PrefixThenSilence | core/audio_engine.py:109-130 | the block is the interpolated valid prefix then silence, and is padded exactly when the last source index is past the end |
| Resampling.StartPastEnd | core/audio_engine.py:104-107 | a start past the last index that can be interpolated (frame count − 2) gives no valid frame and an all-silent block |
| Resampling.UnitSpeedIsIdentity | core/audio_engine.py:100-124 | at speed 1 from a whole position the valid frames are the buffer's own frames |
| Resampling.PaddingExample | core/audio_engine.py:100-130 | ten mono frames at speed 2 in a block of six: five valid frames 0, 2, 4, 6, 8, then one silent frame |
| Effects.BandFilter | core/effects.py:10-17 | definition: a low shelf for the first band, a high shelf for the last, peak filters between; characterised by Equalizer.constructor |
| Effects.Equalizer.constructor | core/effects.py:4-19 | bands 32 Hz to 16 kHz, ten zero gains, a low shelf then eight peaks then a high shelf, q 0.707 on the shelves and 1.0 on the peaks, each at its band frequency with gain 0 |
| Effects.Equalizer.SetGain | core/effects.py:21-24 | an index in range updates that band in both the gain table and the filter board; out of range nothing changes; the table and board stay in step |
| Effects.Equalizer.Process | core/effects.py:26-29 | the DSP output has the shape of the input |
| Effects.MultiBandLimiter.constructor | core/effects.py:32-35 | one compressor at threshold -12 dB, ratio 1.5, attack 10 ms, release 1000 ms |
| Effects.MultiBandLimiter.SetParams | core/effects.py:37-38 | no state changes |
| Effects.MultiBandLimiter.Process | core/effects.py:40-43 | the DSP output has the shape of the input |
| PyJson.Truthy | core/vk_client.py:40 | definition of Python truthiness: null, false, zero and empty containers are false; used by SkipWithoutUrl, AudioParams and GetAudio |
| PyJson.IsSubstring | core/vk_client.py:47 | definition of `in` on a string: a contiguous run; used by In |
| PyJson.Lookup | core/vk_client.py:47 | absent exactly when no field has the key; when present, some field holds that key and value |
| PyJson.In | core/vk_client.py:47 | on an object, whether the key is present; on a list, whether the string is an element; raises exactly for values that are neither object, list nor string |
| PyJson.Subscript | core/vk_client.py:47 | succeeds only on an object, with the value of the key there |
| PyJson.Get | core/vk_client.py:43 | succeeds exactly on an object; a missing key gives the default |
| PyJson.Iter | core/vk_client.py:46 | a list yields its elements; raises exactly for values that are neither object, list nor string |
| PyJson.Keys | core/vk_client.py:46 | iterating an object yields its keys, in order |
| PyJson.Chars | core/vk_client.py:46 | iterating a string yields its one-character strings, in order |
| VkClient.Digit | core/vk_client.py:58 | the decimal digit character of the value |
| VkClient.Decimal | core/vk_client.py:58 | a non-empty string of decimal digits |
| VkClient.DecimalValue | core/vk_client.py:58 | the decimal spelling of n reads back as n |
| VkClient.DigitsUntrimmed | core/vk_client.py:58 | stripping white space leaves a digit string unchanged |
| VkClient.DigitsOneSegment | core/vk_client.py:58 | a digit string has no underscore to split on |
| VkClient.SeparatorNotSkipped | core/vk_client.py:57-62 | `int()` rejects a suffix that starts with U+001C, so such a key is passed over |
| VkClient.TooManyDigits | core/vk_client.py:58 | a digit string longer than 4300 digits is rejected |
| VkClient.LongSuffixSkipped | core/vk_client.py:56-62 | a `photo_` key with more than 4300 suffix digits has rank 0 and never wins |
| VkClient.PhotoKeyResolution | core/vk_client.py:56-58 | `photo_` followed by the decimal spelling of n, at most 4300 digits long, has resolution n |
| VkClient.IsSpace | core/vk_client.py:58 | definition: the characters `int()` skips around a number (ASCII \t \n \v \f \r and space, and non-ASCII Unicode white space; not the separators U+001C to U+001F); characterised by DigitsUntrimmed and SeparatorNotSkipped |
| VkClient.TrimStart | core/vk_client.py:58 | definition: leading white space removed; characterised by DigitsUntrimmed |
| VkClient.TrimEnd | core/vk_client.py:58 | definition: trailing white space removed; characterised by DigitsUntrimmed |
| VkClient.DigitsValue | core/vk_client.py:58 | definition: the value of a decimal digit string; characterised by DecimalValue |
| VkClient.ParseInt | core/vk_client.py:58 | definition of `int()` on an underscore-free string (the only kind `split('_')` yields): white space, an optional sign, 1 to 4300 decimal digits, else ValueError; characterised by DecimalValue and PhotoKeyResolution |
| VkClient.Segment | core/vk_client.py:58 | definition of element 1 of `key.split('_')`; characterised by DigitsOneSegment |
| VkClient.Resolution | core/vk_client.py:56-58 | definition: the parsed suffix of a `photo_` key, else None; characterised by PhotoKeyResolution and RankBeats |
| VkClient.Rank | core/vk_client.py:56-61 | definition: the resolution when it is positive, else 0; characterised by RankBeats |
| VkClient.Ranks | core/vk_client.py:55-62 | one rank per key |
| VkClient.RanksAt | core/vk_client.py:55-62 | rank j is the rank of key j |
| VkClient.MaxRank | core/vk_client.py:54-61 | an upper bound of the ranks that, when positive, is attained |
| VkClient.FirstWithRank | core/vk_client.py:59-61 | the first index holding the given rank |
| VkClient.Choice | core/vk_client.py:54-62 | definition: the value of the first pair of the largest positive rank, else None; characterised by ChoiceIsFirstLargest, ChoiceHasFirstLargest and ChoiceAppend |
| VkClient.ChoiceIsFirstLargest | core/vk_client.py:54-62 | a positive rank larger than every earlier one and at least every later one is the one chosen |
| VkClient.ChoiceHasFirstLargest | core/vk_client.py:54-62 | when some rank is positive, the chosen index holds a positive rank larger than every earlier one and at least every later one |
| VkClient.ChoiceAppend | core/vk_client.py:59-61 | one more key takes over exactly when its rank is strictly larger than the best so far |
| VkClient.BestPhoto | core/vk_client.py:54-62 | definition: Choice over the keys' ranks; characterised by BestPhotoSpec and NoPhoto |
| VkClient.BestPhotoSpec | core/vk_client.py:54-62 | the thumbnail is the value of the first key of the largest positive `photo_<N>` |
| VkClient.NoPhoto | core/vk_client.py:50-62 | without a `photo_<N>` key of positive N the thumbnail is None |
| VkClient.ScanStep | core/vk_client.py:55-61 | one key more: its rank is appended, and it becomes the choice and the maximum exactly when its rank is strictly larger |
| VkClient.RankBeats | core/vk_client.py:57-61 | a parsed resolution beats a best-so-far that is not negative exactly when the key's rank does |
| VkClient.SelectThumbnail | core/vk_client.py:54-62 | the scan over the keys ends with the thumbnail BestPhoto chooses |
| VkClient.ImageUrl | core/vk_client.py:50-72 | definition of the thumbnail lookup, None where it raises; characterised by ImageUrlCases |
| VkClient.Record | core/vk_client.py:74-82 | definition of the track record, None on a missing field; characterised by KeptCopiesFields |
| VkClient.Outcome | core/vk_client.py:47-82 | definition of one item's fate: skipped, kept or raising; characterised by KeptCopiesFields and SkipWithoutUrl |
| VkClient.KeptCopiesFields | core/vk_client.py:47-81 | a kept item is an object with a truthy url whose six fields are copied unchanged together with its thumbnail |
| VkClient.SkipWithoutUrl | core/vk_client.py:47-48 | an object item is dropped exactly when its url is missing or falsy |
| VkClient.ImageUrlCases | core/vk_client.py:50-72 | no album or no thumb gives None; a dict thumb is scanned; any other thumb makes the album's own keys be scanned |
| VkClient.Outcomes | core/vk_client.py:46-82 | one outcome per item, in order |
| VkClient.Collect | core/vk_client.py:45-83 | definition: the kept tracks in order, None once an outcome raises; characterised by CollectRaises and CollectOrder |
| VkClient.TrackList | core/vk_client.py:45-83 | definition: Collect of the items' outcomes; characterised by TrackListOrder and TrackListRaises |
| VkClient.KeptIndices | core/vk_client.py:46-82 | strictly increasing positions of exactly the kept items |
| VkClient.CollectRaises | core/vk_client.py:85-87 | the list is lost exactly when some item raises |
| VkClient.CollectOrder | core/vk_client.py:74-83 | the collected tracks are those of the kept items, in order |
| VkClient.TrackListRaises | core/vk_client.py:85-87 | the track list is lost exactly when some item raises |
| VkClient.TrackListOrder | core/vk_client.py:46-83 | track j comes from the j-th kept item, and no kept item is missed |
| VkClient.TrackListAppend | core/vk_client.py:46-83 | one more item extends the list by that item's outcome |
| VkClient.RaiseAborts | core/vk_client.py:85-87 | an item that raises loses the whole list, wherever it stands |
| VkClient.AudioParams | core/vk_client.py:31-35 | the count is always sent; the owner only when it is truthy |
| VkClient.TracksFrom | core/vk_client.py:37-87 | definition: the tracks for an API outcome, empty on an error, a falsy response, a non-dict response or non-iterable items; characterised by TracksFromItems |
| VkClient.TracksFromItems | core/vk_client.py:38-87 | a response with a list of items gives those items' tracks, or nothing when one raises |
| VkClient.Client.constructor | core/vk_client.py:6 | no access token |
| VkClient.Client.GetAudio | core/vk_client.py:27-87 | without a truthy token the result is empty; otherwise it is the track list of the `audio.get` response for the count and owner |
| VkClient.ExtractTracks | core/vk_client.py:45-83 | the loop over the items computes TrackList, stopping at the first item that raises |
| VkClient.ExtractItem | core/vk_client.py:47-82 | the loop body computes the item's outcome |
| VkClient.ExtractImage | core/vk_client.py:50-72 | the thumbnail lookup computes ImageUrl for an object item |

## Left out

- The engine's lock and the driver thread. Callbacks and control calls are modelled as atomic and one at a time.
- The sound device. Opening, starting, stopping and closing the stream are modelled only as the stream's parameters, or None once closed. Device errors are not modelled.
- The decoder and the file system. These are parameters: `decode` maps a source to a buffer or a raised error, and `pathExists` tests a path. File-like objects passed as `file_data` are not modelled; only bytes are.
- Numeric precision. Samples and the position are exact reals. The conversion to 32-bit floats, their rounding and NaN are not modelled.
- Engine.AudioEngine.Callback: requires a block of at least one frame while playing. With zero frames, `indices[0]` raises in the source.
- Engine.AudioEngine.Callback: `status` and `time` are unused except for printing, so they are not parameters.
- The DSP of the equalizer's filters and the compressor. Each is a parameter that keeps the block's shape.
- Effects.Equalizer.Process: the library's filter state carried from block to block (`reset=False`) is not modelled; each block is a function of its input and the parameters only.
- Effects.MultiBandLimiter.Process: the compressor state carried from block to block (`reset=False`, release 1000 ms) is not modelled; each block is a function of its input, the sample rate and the settings only.
- Logging and printing, in both files.
- Engine: the last frame of the buffer is never played, because the source only interpolates towards a following frame. This is how the source works, and the model keeps it.
- VkClient.ParseInt: Python's `int()` also accepts non-ASCII decimal digits; the model accepts only 0-9.
- VkClient.ParseInt: underscores between digits, which `int()` accepts, are not modelled; the suffix is cut at the first underscore before parsing, so none can occur.
- VkClient.ParseInt: the 4300-digit bound is Python's default limit on integer-string conversion; a process that changes the limit is not modelled.
- PyJson.Lookup: a JSON object is assumed not to repeat a key; the first field with the key is used.
- VkClient.Client.constructor: the user id, the API version, the user agent and the cache directory (which the source creates on disk) are not modelled.
- VKClient methods outside `get_audio`: `authenticate`, `download_track`, `download_image`, `_check_url`, and the body of `_call_api`. The request is a parameter that returns the `response` member or raises.
- The other files of the repository (database, exporter, user interface, entry point) are not part of this model.
