# Watermark bot: filter plan, command builder and settings state

A Dafny model of the core of a Telegram bot that burns a text and/or image
watermark into uploaded videos with ffmpeg. The bot keeps per-user settings
in a document store. It also keeps a process-local map of "pending inputs":
the field that a user's next free-text message is meant to set. From these
settings it builds one ffmpeg command per upload.

The model has three parts:

- **Filter plan and ffmpeg command** (`filter_plan.dfy`, `positions.dfy`,
  `strings.dfy`). First the probed video size is worked out: 1280x720 by
  default, and an unreadable width leaves the height at its default too.
  The user's anchor key is looked up in the nine-entry position table, with
  `mc` as the fallback. The filter graph is first stated as typed fragments,
  each with the stream labels it reads and writes:
  - `drawtext [0:v] -> [base]`;
  - `scale [1:v] -> [wm]`;
  - `overlay <main>[wm] -> [v]`.

  The fragments are then serialized with ffmpeg's textual syntax. Serializing
  single-quote-escapes the text and splits the anchor at its first colon into
  x and y. The watermark is scaled to `max(1, int(dim * percent / 100))`.
  `BuildFilters` and `BuildCommand` build the argument list by appending,
  the way `process_video` does, and are proved equal to the specification
  function `Command`.
- **Text-input state machine** (`bot.dfy`, `settings.dfy`):
  - three menu taps put a user in `waiting_text`, `waiting_color` or
    `waiting_size`;
  - the next text message is either accepted, which writes its one field and
    clears the pending entry, or rejected, which leaves both the store and
    the pending entry as they were, so the user can retry.
- **Direct settings writes** (`bot.dfy`, `settings.dfy`): the colour presets,
  the size presets, the overlay switch and the reset to defaults that runs
  when a video arrives.

Mutable state is the class `Bot.WatermarkBot`. It has two fields: `docs`,
the store keyed by user id, and `pending`. Each handler is a method that
states its entire new state. The store's `get_text_data` raises when the user
has no document at all, because it calls `.get` on `None`. When that happens
the handler stops before writing anything: the model states "nothing
changes", and `HandleTextInput` returns `StoreFailed`. A document that exists
but has no `text_settings` yields the default record
`("", "white", 24, False)`.

Notes on how the code is read:

- **Custom colour check.** The code accepts any seven-character string that
  starts with `#` (`bot.py:268`), so `#GGGGGG` is stored. It never checks for
  hex digits. The model follows the code (`Settings.AcceptsColor`,
  `Settings.ApplyExamples`).
- **Text records are always full.** Every write of a text record writes all
  four keys. So the per-key `.get(..., default)` fallbacks in
  `toggle_text_cb` and `process_video` can never fire. `TextSettings` is
  therefore a record with four fields, and not a partial dictionary.
- **The reset keeps pending inputs.** The `start_cmd` reset (`bot.py:42-43`)
  does not touch the pending-input map, so a pending input survives it.
- **Shared command tail.** The source writes out the same nine trailing
  arguments in both branches of the filter test (`bot.py:135`, `bot.py:138`).
  The model writes them once, as `FilterPlan.EncodeArgs`.
- **Parameters instead of calls.** The watermark path is an
  `Option<string>` parameter: `get_user_watermark` is a placeholder that
  returns `None`, and a path of `""` counts as no watermark. The metadata
  probe is a `Probe` parameter. The message id and the `PRESET`
  configuration value are also parameters.

## Model

| member | source | states |
|---|---|---|
| Positions.Lookup | bot.py:76-77 | the position expression of an anchor key (definition); LookupSpec, LookupHasColon and the column lemmas pin it down |
| Positions.XY | bot.py:104-107 | the drawtext x and y of a position (definition); LookupXY and SplitFirstParts pin it down |
| Positions.TableKeys | bot.py:23-33 | the position table has exactly the nine anchor keys tl, tc, tr, ml, mc, mr, bl, bc, br |
| Positions.LookupSpec | bot.py:76-77 | a known key yields its own table entry; any other key yields the centre expression `(w-text_w)/2:(h-text_h)/2` |
| Positions.LookupHasColon | bot.py:23-33 | every looked-up position contains a colon, so the `y = "10"` fallback of the colon test is never taken |
| Positions.LeftColumn | bot.py:24-30 | the keys tl, ml, bl give positions whose x part is `10` |
| Positions.CentreColumn | bot.py:25-31 | the keys tc, mc, bc give positions whose x part is `(w-text_w)/2` |
| Positions.RightColumn | bot.py:26-32 | the keys tr, mr, br give positions whose x part is `main_w-text_w-10` |
| Positions.Fallback | bot.py:77 | any key outside the table gives the centre entry `(w-text_w)/2:(h-text_h)/2` |
| Positions.LookupXY | bot.py:104-107 | the x and y taken from a looked-up position, rejoined by a colon, give the position back, and x contains no colon |
| Strings.SplitFirst | bot.py:105 | `s.split(c, 1)` for a string containing c (definition); SplitFirstParts pins it down |
| Strings.SplitFirstParts | bot.py:105 | `split(":", 1)` loses nothing: left + ":" + right is the input and the left part has no colon |
| Strings.Escape | bot.py:100 | `text.replace("'", r"\'")` (definition); EscapeLength, EscapeQuotesEscaped, UnescapeEscape, EscapeAppend, EscapeNoQuotes and EscapeOneQuote pin it down |
| Strings.EscapeLength | bot.py:100 | escaping adds exactly one character per single quote |
| Strings.EscapeQuotesEscaped | bot.py:100 | every quote in the escaped text is directly preceded by a backslash |
| Strings.UnescapeEscape | bot.py:100 | escaping is lossless: removing the inserted backslashes restores the text |
| Strings.EscapeNoQuotes | bot.py:100 | text without quotes passes through unchanged |
| Strings.EscapeAppend | bot.py:100 | escaping works character by character: the escape of a concatenation is the concatenation of the escapes |
| Strings.EscapeOneQuote | bot.py:100 | a single quote between quote-free texts gains exactly one backslash (`O'Brien` becomes `O\'Brien`) and nothing else changes |
| Strings.NatToString | bot.py:113 | `str(n)` for a natural number (definition); NatToStringDigits pins it down |
| Strings.IntToString | bot.py:127 | `str(i)` with a minus sign for negative values (definition); ParseIntToString pins it down |
| Strings.ParseInt | bot.py:276 | `int(text)` for an optional sign and ASCII digits, None for the ValueError (definition); ParseIntToString and ParseIntRejects pin it down |
| Strings.Join | bot.py:134 | `";".join(filters)` (definition); used by Assemble, whose shape AssembleShape states |
| Strings.NatToStringDigits | bot.py:127 | the decimal form of a number is a non-empty digit string whose value is that number |
| Strings.ParseIntToString | bot.py:276 | `int(str(i)) == i` for every integer, negative ones included |
| Strings.ParseIntRejects | bot.py:275-281 | text with a non-digit character (other than a leading sign) is not a number |
| Settings.StoredText | db.py:16 | the text settings of an existing document, or the default record (definition); GetTextData's contract states it |
| Settings.GetTextData | db.py:14-16 | a result exists exactly when the user has a document; the stored record if there is one, else the default record |
| Settings.SetTextData | db.py:18-23 | upsert: the user's `text_settings` becomes the new record, its placement fields are kept, every other user's document is unchanged |
| Settings.PresetColor | bot.py:205 | the colour each preset button stores (definition); WithPresetColor and PresetColorsAccepted use it |
| Settings.WithPresetColor | bot.py:205-209 | a colour preset writes its colour (`white`, `black`, `#FF0000`, `#0000FF`) and changes no other field |
| Settings.PresetColorsAccepted | bot.py:205 | the red and blue presets are seven-character `#` strings; white and black are names that the custom path would reject |
| Settings.WithSize | bot.py:232-235 | a size tap writes that size and changes no other field |
| Settings.PresetSizeStored | bot.py:223-224 | the three size buttons store 20, 30 and 40 pixels and keep the other fields |
| Settings.Toggled | bot.py:249-251 | the toggle flips the switch and changes nothing else |
| Settings.ToggleTwice | bot.py:250 | toggling twice restores the record |
| Settings.AcceptsColor | bot.py:268 | the custom colour test: starts with `#` and has length 7 (definition); ApplyColor and ApplyExamples pin it down |
| Settings.ApplyInput | bot.py:262-281 | the record after a message in a pending state, or None when it is rejected (definition); ApplyInputOneField, ApplyText, ApplyColor, ApplySize pin it down and HandleTextInput is specified by it |
| Settings.ApplyInputOneField | bot.py:262-282 | an accepted message writes only the field of its pending state |
| Settings.ApplyText | bot.py:264-265 | any message is accepted verbatim as the overlay text |
| Settings.ApplyColor | bot.py:267-273 | a colour is accepted if and only if it starts with `#` and has length 7, and it is stored as sent |
| Settings.ApplySize | bot.py:274-281 | a size is accepted if and only if the message parses as an integer, and the parsed value is stored |
| Settings.ApplySizeOfInt | bot.py:276-277 | every integer written in decimal is accepted as a size and stored as that integer |
| Settings.ApplyExamples | bot.py:267-281 | `#1A2B3C` and `#GGGGGG` are stored, `not-a-hex` is rejected; `12` and `-5` are stored, `abc` is rejected |
| FilterPlan.Dimensions | bot.py:61-71 | the probed width and height with their defaults (definition); DimensionsDefault pins the fallback |
| FilterPlan.DimensionsDefault | bot.py:61-71 | without metadata, or with neither field present, the size is 1280x720 |
| FilterPlan.ScaledDim | bot.py:125-126 | `max(1, int(dim * percent / 100))` (definition); ScaledDimSpec characterises it independently |
| FilterPlan.ScaledDimSpec | bot.py:125-126 | the scaled watermark side is at least 1; it is exactly 1 when dim * percent < 100, otherwise the floor of dim * percent / 100 |
| FilterPlan.ScaledDimExamples | bot.py:125-126 | 1280x720 at 50 percent gives 640x360; 1 at 1 percent clamps to 1 |
| FilterPlan.FilterGraph | bot.py:94-130 | the typed filter plan for given settings, position, size and percentage (definition); FilterGraphShape, FilterGraphDrawText and BuildFilters pin it down |
| FilterPlan.BuildPlan | bot.py:76-130 | the plan of a job, with its anchor looked up and its size probed (definition); PlanShape, DrawTextIffActive, PlanSink and PlanWellChained state its properties |
| FilterPlan.PlanShape | bot.py:94-130 | the four plans (none, text only, image only, text and image), with each fragment's labels, values and order |
| FilterPlan.FilterGraphShape | bot.py:94-130 | PlanShape for any position expression, probed size and scale percentage |
| FilterPlan.FilterGraphDrawText | bot.py:98 | DrawTextIffActive for any position expression, probed size and scale percentage |
| FilterPlan.DrawTextIffActive | bot.py:98 | a drawtext fragment is present if and only if the overlay switch is on and the text is non-empty |
| FilterPlan.PlanSink | bot.py:119-130 | the mapped label is `[v]` with an image, else `[base]` with text, else `[0:v]` |
| FilterPlan.PlanWellChained | bot.py:117-130 | every plan is a well-formed chain: each label is defined before it is read and never redefined, no label is read twice, and the sink is the last output and is not read by any fragment |
| FilterPlan.DrawTextFilter | bot.py:98-119 | with text active, the first filter is drawtext on `[0:v]` to `[base]`, with the escaped text, the stored colour and size, and the anchor's x and y |
| FilterPlan.OutputPath | bot.py:86 | `watermarked_<message id>.mp4` (definition) |
| FilterPlan.EncodeArgs | bot.py:135-138 | the audio mapping, encoder options and output path both branches end with (definition); AssembleShape states where it sits |
| FilterPlan.Assemble | bot.py:90-138 | the argument list around a given plan (definition); AssembleShape pins it down |
| FilterPlan.Command | bot.py:90-138 | the argument list of a job (definition); CommandShape and PassthroughCommand pin it down and BuildCommand is proved equal to it |
| FilterPlan.AssembleShape | bot.py:90-138 | for any plan, the argument list is: the main input; the watermark input if there is one; `-filter_complex <graph> -map <sink>` if and only if there are fragments, else `-map 0:v`; then the nine encoding arguments ending with the output path |
| FilterPlan.CommandShape | bot.py:90-138 | AssembleShape for the plan the job builds |
| FilterPlan.PassthroughCommand | bot.py:136-138 | with no text and no image, the command is the exact fifteen-element passthrough list |
| FilterPlan.DrawTextOptions | bot.py:109-116 | the drawtext options in the order the source writes them (definition); DrawTextFilter states the rendered first filter |
| FilterPlan.Render | bot.py:118-129 | the textual form of one fragment (definition); DrawTextFilter and BuildFilters tie it to the source's templates |
| FilterPlan.RenderAll | bot.py:118-134 | the filter strings of a fragment list, one per fragment; RenderAllAppend states that it is built by appending |
| FilterPlan.RenderAllAppend | bot.py:118-129 | appending a fragment appends its rendering to the filter list |
| FilterPlan.BuildFilters | bot.py:94-130 | the appended filter strings and the final label are the rendering of the plan and its sink |
| FilterPlan.BuildCommand | bot.py:90-138 | the appended command is the serialized plan `Command(job)` |
| Bot.WatermarkBot.constructor | bot.py:20 | the store and the pending-input map start empty |
| Bot.WatermarkBot.StartCmd | bot.py:40-43 | both of the user's records are reset to the defaults; pending inputs are unchanged |
| Bot.WatermarkBot.SetTextCb | bot.py:187-188 | the user now waits for text, overriding any earlier pending input; the store is unchanged |
| Bot.WatermarkBot.ColorCustomCb | bot.py:215-216 | the user now waits for a colour; the store is unchanged |
| Bot.WatermarkBot.SizeCustomCb | bot.py:241-242 | the user now waits for a size; the store is unchanged |
| Bot.WatermarkBot.ColorSimpleCb | bot.py:204-209 | with a document, the preset colour is written and the other fields are kept; without one, nothing changes; pending inputs are unchanged |
| Bot.WatermarkBot.SizeCb | bot.py:231-235 | with a document, the size is written and the other fields are kept; without one, nothing changes |
| Bot.WatermarkBot.ToggleTextCb | bot.py:248-251 | with a document, the switch is flipped and the other fields are kept; without one, nothing changes |
| Bot.WatermarkBot.HandleTextInput | bot.py:258-283 | no pending input: ignored, nothing changes; no document: fails, nothing changes; rejected: nothing changes and the user still waits; accepted: the record becomes ApplyInput's result and the pending entry is removed |
| Bot.WatermarkBot.JobCommand | bot.py:73-138 | no document: no command; otherwise the command of the stored placement (default mc/50) and text settings |
| Bot.CustomColorConversation | bot.py:216-283 | after `not-a-hex` the user still waits for a colour; after `#1A2B3C` the colour is stored and the wait is over |
| Bot.ToggleTwiceRestores | bot.py:248-251 | two taps on the overlay switch restore the record and leave pending inputs alone |

## Left out

- Telegram transport: message and callback routing, the regex filters and handler order, replies, callback answers and menu keyboards. One consequence of handler order is not modelled: the reset handler at `bot.py:36-43` is registered for video uploads with a filter that overlaps the upload handler's. Which of the two runs depends on the framework's dispatch, which is not part of this model.
- The `check_sub` subscription gate and the `settings_cb` menu rendering: chat I/O, with no effect on stored state.
- Downloading, running ffmpeg, its exit status, uploading the result and deleting temporary files: external processes and the file system.
- The hachoir metadata parser is not part of this model. Its result is the `Probe` parameter.
- `get_user_watermark` is a placeholder in the source. The watermark path is a parameter.
- Concurrency: handlers interleave at every `await`, and the model treats each handler as one atomic step.
- Floating point: `width * img_size / 100` is a float division in the source. The model uses exact truncation toward zero, which can differ from the float result only for very large products.
- Strings.ParseInt: models `int(text)` only for an optional sign followed by ASCII digits. It does not model surrounding whitespace, underscores between digits or non-ASCII Unicode digits, which Python also accepts.
- Bot.WatermarkBot.SizeCb: takes the size as a natural number. It does not model parsing the digits of the callback data at `bot.py:232`.
- The meaning of the filter graph to ffmpeg (how ffmpeg tokenizes quotes and colons inside the drawtext options) is not modelled. The model states the exact strings the bot produces.
- Logging (`bot.py:140`, `bot.py:151`, `bot.py:155`): diagnostics only.
