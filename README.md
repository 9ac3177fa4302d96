# SAPI5 speech driver: markup compiler, phoneme conversion and ducking hooks

This project models the core of NVDA's SAPI5 synthesizer driver,
`source/synthDrivers/sapi5.py`, in Dafny:

- **The markup compiler.** `SynthDriver.speak` turns a speech sequence into
  one SAPI5 XML string. The sequence holds strings, index, character-mode,
  break, pitch, volume, rate and phoneme commands, plus other commands.
  - The driver tracks three things:
    - the tags that should be open, as an ordered dict from tag name to attributes;
    - the tags it has actually written and not yet closed (`openedTags`);
    - a `tagsChanged` flag.
  - Before each text item, `outputTags` closes everything that is open,
    innermost first, and opens the current tags, but only when the flag is
    set. It runs once more at the end, after `tags.clear()`.
  - Modules: `Speak` (the items, the state machine as functions `Flush`,
    `Step`, `Steps` and `Compile`, the class `TagWriter` with the
    imperative `OutputTags` and the loop body `Feed`, and the method
    `Speak`), `Markup` (tokens, escaping,
    rendering, tag balance) and `OrderedDict` (Python dict order).
  - `textList` is a list of tokens. The pieces `<name`, ` attr="value"` and
    `>` of one opening tag make one `Open` token. `RenderAll` is the string
    the driver joins.
- **Phoneme conversion.** `_convertPhoneme` maps IPA to SAPI's US English
  phones through `IPA_TO_SAPI`. A stress mark puts a `1` after the next
  phone. Other languages raise `LookupError`, and a symbol missing from the
  table raises `KeyError`. Module `Phonemes` has the imperative
  `ConvertPhoneme`, proved against the function `Convert`.
- **Unit conversions.** `_percentToRate`, `_percentToPitch` and `_get_rate`,
  plus Python's `int()` of a float, are in module `Units`.
- **Audio ducking hooks.** `waveOutOpen` and `waveOutClose` keep the
  `_duckersByHandle` registry. `ensureWaveOutHooks` installs the two hooks.
  Module `Ducking` holds the class `WaveOutHooks` for the two globals, the
  registry update as functions, and a replay of call histories.

Behaviour of the code worth knowing:

- Every character-mode, pitch, volume and rate command sets `tagsChanged`,
  even when the tags did not change (sapi5.py:356, 361, 370, 379).
- Balance is proved for every speech sequence, as a property of the token
  list: every tag the driver itself opens is closed innermost-first, and
  none stays open.
- Only plain strings have `<` escaped (sapi5.py:345). `PhonemeCommand`
  text goes into the markup as it is, both inside `<pron>` and as the
  fallback text written when conversion fails (sapi5.py:382-383, 386-387).
  Phoneme text containing `<` can therefore add markup of its own to the
  joined string. `Speak.PhonemeTextIsWrittenRaw` shows a balanced token
  list whose string is a lone `</pitch>`.

Outside effects are parameters:

- the driver's pitch and the SAPI voice's rate, volume and language
  (`Speak.Driver`);
- the status code of the real winmm call;
- the result of `AudioDucker.enable()`;
- whether ducking is supported;
- whether each native hook succeeded.

## Model

| member | source | states |
|---|---|---|
| `Units.Truncate` | source/synthDrivers/sapi5.py:378 | `int(x)` of a float truncates toward zero: the result is within 1 of `x` and no farther from 0 than `x` |
| `Units.PercentToRate` | source/synthDrivers/sapi5.py:239-240 | the engine rate `r` for a percent `p` is the one with `5r+50 <= p < 5r+55` (floor division) |
| `Units.PercentToPitch` | source/synthDrivers/sapi5.py:285-286 | the `absmiddle` pitch `q` for a percent `p` is the one with `2(q+25) <= p < 2(q+25)+2` |
| `Units.EngineRateToPercent` | source/synthDrivers/sapi5.py:220-221 | `_get_rate` gives a multiple of 5 |
| `Units.RateRoundTrip` | source/synthDrivers/sapi5.py:220-240 | for every engine rate `r`, `_percentToRate(r*5+50) == r` |
| `Units.PercentToRateIsBandOfGetRate` | source/synthDrivers/sapi5.py:220-240 | `_percentToRate(p) == r` exactly when `p` lies in `r`'s five-percent band of `_get_rate` |
| `Units.DefaultsAreZero` | source/synthDrivers/sapi5.py:239-240 | `_percentToRate(50) == 0`, `(100) == 10`, `(0) == -10`; `_percentToPitch(50) == 0`, `(100) == 25`, `(0) == -25` |
| `Units.ConversionsInRange` | source/synthDrivers/sapi5.py:285-286 | percents in 0..100 give rates in -10..10 and pitches in -25..25, monotonically |
| `OrderedDict.Get` | source/synthDrivers/sapi5.py:318 | a dict lookup finds a value exactly for the dict's keys, and the value is one stored under the key |
| `OrderedDict.Set` | source/synthDrivers/sapi5.py:350 | `d[k] = v` keeps an existing key in place, appends a new one, and changes no other key's value |
| `OrderedDict.Delete` | source/synthDrivers/sapi5.py:352-355 | `del d[k]` with `KeyError` ignored: an absent key leaves the dict unchanged, other keys keep their values |
| `OrderedDict.DeleteKeys` | source/synthDrivers/sapi5.py:364-367 | deleting a key leaves the other keys in their order |
| `OrderedDict.DeleteAfterSet` | source/synthDrivers/sapi5.py:348-356 | assigning a key and then deleting it equals deleting it |
| `OrderedDict.SetAfterDeleteMovesLast` | source/synthDrivers/sapi5.py:328 | a key deleted and assigned again moves to the end of the iteration order |
| `Markup.Decimal` | source/synthDrivers/sapi5.py:347 | Python's `"%d" % n`: the string starts with `-` exactly when `n` is negative, and the rest is the decimal digits of the magnitude of `n`, without a leading zero |
| `Markup.Digits` | source/synthDrivers/sapi5.py:358 | the digits of a natural number, most significant first: only `0`-`9`, they spell `n`, and there is no leading zero |
| `Markup.RenderAttrs` | source/synthDrivers/sapi5.py:329-332 | definition: ` attr="value"` for each attribute of a tag, in the dict's order |
| `Markup.Render` | source/synthDrivers/sapi5.py:326-383 | definition: the text of each token: `<name attrs>`, `</name>`, raw characters, `<Bookmark Mark="n" />`, `<silence msec="n" />`, `<pron sym="...">text</pron>` |
| `Markup.RenderAll` | source/synthDrivers/sapi5.py:397 | definition: `"".join(textList)`; properties in `Markup.RenderAllAppend` |
| `Markup.RenderAllAppend` | source/synthDrivers/sapi5.py:397 | joining is piecewise: the string of `a + b` is the string of `a` followed by that of `b`, for all token lists |
| `Markup.Escape` | source/synthDrivers/sapi5.py:345 | the escaped text has no `<`, and a text without `<` is unchanged |
| `Markup.EscapeDistributes` | source/synthDrivers/sapi5.py:345 | escaping works character by character: `Escape(a+b) == Escape(a)+Escape(b)` |
| `Markup.EscapeLength` | source/synthDrivers/sapi5.py:345 | each `<` grows by 3 characters (`&lt;`), nothing else changes length |
| `Markup.CloseTokens` | source/synthDrivers/sapi5.py:325-326 | the closing tags are the open tags in reverse order |
| `Markup.OpenTokens` | source/synthDrivers/sapi5.py:328-333 | the opening tags are the dict's entries in iteration order, with their attributes |
| `Markup.UnwindCloses` | source/synthDrivers/sapi5.py:325-327 | closing `openedTags` in reverse unwinds exactly those tags |
| `Markup.UnwindOpens` | source/synthDrivers/sapi5.py:328-333 | opening the dict's tags leaves exactly its keys open, in order |
| `Phonemes.Translate` | source/synthDrivers/sapi5.py:298-310 | definition: the phone list with a pending stress flag, or the first unknown symbol; characterised by `TranslateFailsIff`, `TranslateKeepsPhones` and `StressFollowsNextSymbol` |
| `Phonemes.JoinSpace` | source/synthDrivers/sapi5.py:310 | definition: `" ".join(out)` |
| `Phonemes.Convert` | source/synthDrivers/sapi5.py:292-310 | definition: `LookupError` for a voice whose language is not US English, otherwise the joined phones or the `KeyError`; `ConvertPhoneme` is proved equal to it |
| `Phonemes.ConvertPhoneme` | source/synthDrivers/sapi5.py:292-310 | the loop with its pending `outAfter` returns the space-joined phones of `Convert`, or its `LookupError` (other language) or `KeyError` (unknown symbol) |
| `Phonemes.TranslateFailsIff` | source/synthDrivers/sapi5.py:300-304 | conversion fails exactly when some non-stress symbol is missing from `IPA_TO_SAPI`, and it names the first one |
| `Phonemes.TranslateKeepsPhones` | source/synthDrivers/sapi5.py:300-310 | a successful conversion, with the stress markers removed, is the table's phone for each non-stress symbol, in order |
| `Phonemes.StressFollowsNextSymbol` | source/synthDrivers/sapi5.py:301-309 | `ˈ` puts `1` right after the next symbol's phone; repeated marks count once; a trailing mark puts `1` last |
| `Phonemes.ConvertExamples` | source/synthDrivers/sapi5.py:288-310 | `ˈθs` is `th 1 s` for a US English voice; any other voice raises `LookupError`; `k` raises `KeyError` |
| `Speak.PitchAttrs` | source/synthDrivers/sapi5.py:338 | definition: the pitch tag's one attribute, `absmiddle` = `_percentToPitch(percent)` |
| `Speak.Scale` | source/synthDrivers/sapi5.py:360 | definition: `int(setting * multiplier)`, truncated toward zero by `Units.Truncate` (also lines 369 and 378) |
| `Speak.Initial` | source/synthDrivers/sapi5.py:336-338 | before the first item the only requested tag is `pitch`, at the driver's pitch, nothing is open or written, and the flag is set |
| `Speak.Flush` | source/synthDrivers/sapi5.py:322-334 | definition of `outputTags` on the state; properties in `Speak.FlushKeepsConsistent` |
| `Speak.Step` | source/synthDrivers/sapi5.py:342-390 | one pass of the loop body for each kind of item; `textList` only grows (the old list is a prefix of the new) |
| `Speak.Steps` | source/synthDrivers/sapi5.py:342-390 | the loop over the whole sequence; `textList` only grows |
| `Speak.Compile` | source/synthDrivers/sapi5.py:342-395 | the loop, then `tags.clear()` and a forced `outputTags`: the list after the last item is kept, and only closing tags follow it |
| `Speak.TagWriter.constructor` | source/synthDrivers/sapi5.py:313-321 | empty `textList`, `tags` and `openedTags`, with `tagsChanged` set |
| `Speak.TagWriter.OutputTags` | source/synthDrivers/sapi5.py:322-334 | the two loops close the open tags in reverse and open the current ones when the flag is set, and change nothing otherwise |
| `Speak.TagWriter.Feed` | source/synthDrivers/sapi5.py:343-390 | one pass of the loop body changes the writer's state exactly as `Speak.Step` says, for every kind of item |
| `Speak.Speak` | source/synthDrivers/sapi5.py:312-399 | the imperative loop builds the string `RenderAll(Compile(items, d))` |
| `Speak.FlushKeepsConsistent` | source/synthDrivers/sapi5.py:322-334 | after `outputTags` the flag is clear, the open tags are the current tags, and only tags were written |
| `Speak.StepKeepsConsistent` | source/synthDrivers/sapi5.py:342-391 | every item keeps the output's open tags equal to `openedTags`, keeps a clear flag in step with `tags`, and never drops the pitch tag |
| `Speak.StepsKeepConsistent` | source/synthDrivers/sapi5.py:336-391 | along the sequence that invariant holds, and a pitch tag is always requested |
| `Speak.CompileBalanced` | source/synthDrivers/sapi5.py:392-395 | the finished token list is balanced: every tag the driver opens is closed innermost-first and none stays open (phoneme text is not inspected; see `Speak.PhonemeTextIsWrittenRaw`) |
| `Speak.TextWrittenInsideCurrentTags` | source/synthDrivers/sapi5.py:343-345 | a text item is written escaped, after only tags, inside exactly the current tags, which include pitch |
| `Speak.QuietItemsWriteNoTags` | source/synthDrivers/sapi5.py:320-345 | with the flag clear, items that are not tag commands write no tag and leave the tag state alone |
| `Speak.NoRedundantChurn` | source/synthDrivers/sapi5.py:320-345 | after a text item, more text and other non-tag items close and reopen no tag |
| `Speak.IndexAndBreakLeaveTags` | source/synthDrivers/sapi5.py:346-358 | index and break commands append one `Bookmark` or `silence` element and touch neither `tags` nor the flag |
| `Speak.TagCommandsOnlyRequest` | source/synthDrivers/sapi5.py:348-379 | tag commands write nothing and always set the flag; resets delete their tag, and deleting an absent tag is a no-op |
| `Speak.SpellOnOffIsNetNoOp` | source/synthDrivers/sapi5.py:348-356 | character mode on then off, with no text between, leaves `tags` as it was |
| `Speak.VolumeResetRemovesOverride` | source/synthDrivers/sapi5.py:362-370 | a volume multiplier of 1 after any other leaves no volume tag |
| `Speak.PhonemeFallback` | source/synthDrivers/sapi5.py:380-387 | a failed conversion writes the item's text if it has one, otherwise nothing, and leaves the tag state alone |
| `Speak.UnknownSymbolFallsBackToText` | source/synthDrivers/sapi5.py:380-387 | a symbol missing from the table, with text `cat`, writes `cat` for any voice |
| `Speak.PhonemeTextIsWrittenRaw` | source/synthDrivers/sapi5.py:380-387 | an unconvertible phoneme with text `</pitch>` compiles to a balanced token list whose string is the lone closing tag `</pitch>` |
| `Speak.CompileExample` | source/synthDrivers/sapi5.py:336-397 | one text `a<b` at pitch 50 compiles to `<pitch absmiddle="0">a&lt;b</pitch>` |
| `Markup.RenderDefaultPitchTag` | source/synthDrivers/sapi5.py:328-332 | the default pitch tag renders as `<pitch absmiddle="0">` |
| `Ducking.AfterOpen` | source/synthDrivers/sapi5.py:98-103 | definition: the registry after the open hook; a ducker is stored under the handle only for status 0 and a non-null pointer |
| `Ducking.AfterClose` | source/synthDrivers/sapi5.py:117-118 | definition: the registry after the close hook; the entry is popped only for status 0 and a non-zero handle |
| `Ducking.Replay` | source/synthDrivers/sapi5.py:87-122 | definition: the registry after a history of hooked calls, from an empty dict; characterised by `RegistryTracksOpenHandles` |
| `Ducking.WaveOutHooks.constructor` | source/synthDrivers/sapi5.py:87 | the registry and the hook list start empty |
| `Ducking.WaveOutHooks.WaveOutOpen` | source/synthDrivers/sapi5.py:90-107 | returns the real status; status 0 with a non-null handle pointer stores a ducker under the handle, whether or not `enable()` succeeded; otherwise the registry is unchanged |
| `Ducking.WaveOutHooks.WaveOutClose` | source/synthDrivers/sapi5.py:109-122 | returns the real status; status 0 with a non-zero handle removes its entry, absent or not; otherwise the registry is unchanged |
| `Ducking.RegistryTracksOpenHandles` | source/synthDrivers/sapi5.py:87-122 | a handle has a ducker exactly when its last successful open has not been followed by a successful close; the ducker is that open's; handle 0 is never closed, so once opened it keeps its ducker |
| `Ducking.CloseIsIdempotent` | source/synthDrivers/sapi5.py:117-118 | closing a handle twice: the second close changes nothing |
| `Ducking.OpenTwoCloseReverse` | source/synthDrivers/sapi5.py:98-118 | opening two handles and closing them in reverse order leaves the registry empty |
| `Ducking.InstallHooksAsWritten` | source/synthDrivers/sapi5.py:124-129 | definition: `ensureWaveOutHooks` as written, where a failed close hook leaves the open hook in the list |
| `Ducking.InstallHooks` | source/synthDrivers/sapi5.py:124-129 | definition: the corrected installation, all or nothing; properties in `HooksAllOrNothing` |
| `Ducking.AsWrittenLeavesCloseUnhooked` | source/synthDrivers/sapi5.py:124-129 | as written: a failed close hook leaves the open hook recorded, and a later call returns with `waveOutClose` unhooked |
| `Ducking.HooksAllOrNothing` | source/synthDrivers/sapi5.py:124-129 | corrected installation installs open then close only on an empty list with ducking supported, raises exactly when a hook fails, keeps the list all-or-nothing, and a second call is a no-op |
| `Ducking.WaveOutHooks.EnsureWaveOutHooks` | source/synthDrivers/sapi5.py:124-129 | the method follows the corrected installation and leaves the registry alone |

## Findings

| source | as written | input that shows it | evidently intended | confidence | as-written member | corrected member |
|---|---|---|---|---|---|---|
| source/synthDrivers/sapi5.py:124-129 | the open hook is appended to `_waveOutHooks` before the close hook is attempted; if the close hook fails, `RuntimeError` propagates with the open hook still in the list | first call: ducking supported, open hook succeeds, close hook fails (raises); second call (driver loaded again): the list is non-empty, so it returns without hooking `waveOutClose`, and duckers are added but never removed | both hooks or neither: a failed close hook drops the open one, so a later call tries again | medium, not executed | `Ducking.InstallHooksAsWritten` | `Ducking.InstallHooks` |

## Left out

- COM and SAPI glue is not modelled:
  - `_initTts`, `_set_voice`, `_getAvailableVoices`, `_getVoiceTokens` and its `locale` lookup;
  - the `rate`, `pitch`, `volume` and `voice` getters and setters other than `_get_rate`, and `_get_lastIndex`;
  - `terminate`, `cancel`, `pause` and the `SPAudioState` calls;
  - the final `self.tts.Speak(text, flags)` call.

  They are thin wrappers over an external COM object. `Speak.Speak` returns the joined string instead of passing it with the `IsXML | Async` flags.
- `SapiSink` and `check` are not modelled: the first forwards engine events through a weak reference, the second is a registry lookup.
- `FunctionHooker` is not modelled internally: the native hook and unhook calls, the `mbcs` encoding and unhooking in `__del__`. Only whether each hook succeeded is an input, and the path of sapi.dll under `$SYSTEMROOT` is not modelled.
- The real `windll.winmm` calls and the capture of `WindowsError` into a status code are not modelled. The resulting status is a parameter.
- `Ducking.WaveOutHooks.WaveOutClose`: the close hook receives its handle as a signed 32-bit `c_long` (sapi5.py:109), while the open hook keys the dict by the value written through the handle pointer, whose width comes from winmm's declared argument types. The conversion is not modelled: both are the same unbounded integer, so `Ducking.RegistryTracksOpenHandles` takes a close's argument to be the open's key.
- Locking of `_duckersByHandle`: the hooks can run on the engine's audio thread. The registry is modelled sequentially.
- `Units.Truncate`: multipliers are exact reals, so IEEE float rounding of `value * multiplier` is not modelled, and `multiplier == 1` is an exact comparison.
- `Speak.TagWriter.OutputTags`: the inner loop over a tag's attributes writes one `Open` token rather than one list element per attribute; the joined string is the same.
- Logging (`log.*`, `audioDucking._isDebug`) has no effect on results and is left out.
- `PhonemeCommand.text` of `None` is modelled as the empty string, which behaves the same in both places it is used.
