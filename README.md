# Subtitle script converter: the conversion core, in Dafny

`app.py` is a Streamlit tool that turns a subtitle script saved as a Word
document into the house format. The document's first paragraph becomes the
upper-cased file name as a title. Every later paragraph is classified by its
stripped text:

- SRT line numbers are queued and cleared after the loop;
- SRT timecode lines are made bold;
- speaker lines ("Name: text") are rebuilt with a bold, highlighted name
  prefix, each speaker keeping one colour drawn from a shuffled 20-colour
  palette;
- anything else is left as it is.

Finally every run is set to 12 points.

This project models that core and proves what it does:

- `TextRules`: ASCII character classes, `str.strip()` and `str.upper()`.
- `LineClassifier`: the three line tests. Each is written as a greedy scan,
  which is what the converter runs. Each also has a ghost "shape" predicate
  saying which strings the regular expression matches, and a lemma
  connects the two in both directions. The classification order is proved
  harmless: a timecode can never be a speaker line, and a line number can
  be neither.
- `SpeakerColors`: the palette, and `ColorRegistry`, a class holding
  `speaker_color_map` and `used_colors` as a `map` field and a `seq` field.
  `get_speaker_color` is a method on it.
- `DocModel`: runs, paragraphs and the document, whose body is an array.
  It also holds the specification functions: `Rewrite` says what happens
  to one paragraph after the title, `Formatted` what the final size pass
  does to one paragraph, and `Title` what the title paragraph becomes.
- `Processing`: `process_docx` and `set_all_text_formatting` as methods
  with loops over the array, each proved against those functions.

The `shuffle` that fills the pool at start-up is the constructor's argument.
That argument may be any arrangement of the palette with no colour twice;
every permutation of the palette is one (`ShuffledPaletteIsPool`). The
`random.choice` fallback, used once the pool is empty, is an arbitrary
choice (`:|`) among the palette colours. The registry is passed to
`ProcessDocx` as an object rather than living in module globals. Reading and
writing the `.docx` file become the `Document` class's constructor and its
`body` array.

In python-docx, `paragraph.text = ""` clears the paragraph and then adds one
empty run. After lines 160-170 a speaker paragraph therefore holds three
runs: that empty run, then the two runs lines 163-170 add (the bold
highlighted prefix and the rest). `SpeakerRuns` keeps the empty run first.
The texts of the runs still join to the stripped text
(`DocModel.SpeakerRunsText`).

## Model

| member | source | states |
|---|---|---|
| TextRules.RunLengthAt | app.py:139 | every character of a greedy `[...]*` run satisfies the class |
| TextRules.RunLengthStops | app.py:139 | the character after a greedy run, if any, is outside the class |
| TextRules.RunLengthExact | app.py:139 | any prefix inside the class that is followed by the end or by a character outside it is exactly the greedy run |
| TextRules.LeadingSpaces | app.py:135 | the leading run `strip` removes is all whitespace and stops at the first other character |
| TextRules.TrailingSpacesFacts | app.py:135 | the trailing run `strip` removes is all whitespace and is preceded by a non-whitespace character |
| TextRules.Strip | app.py:135 | `str.strip()`: the result has no whitespace at either end and is a contiguous piece of the input with only whitespace cut off on both sides |
| TextRules.StripKeepsStripped | app.py:135 | text with no outer whitespace is not changed by `strip` |
| TextRules.StripIdempotent | app.py:135 | stripping twice equals stripping once |
| TextRules.StripWithoutSpaces | app.py:135 | text without whitespace is kept as is |
| TextRules.UpperChar | app.py:111 | `str.upper()` on one character: the result is never a lower-case ASCII letter, is a letter exactly when the input is, and differs from the input only when the input is a lower-case letter, which maps to the letter 32 code points below it |
| TextRules.UpperCharIdempotent | app.py:111 | upper-casing an upper-cased character changes nothing |
| TextRules.Upper | app.py:111 | `str.upper()` on ASCII, `UpperChar` applied to each character in order; UpperAt and UpperIdempotent state its properties |
| TextRules.UpperAt | app.py:111 | `str.upper()` keeps the length, maps each position by `UpperChar`, and leaves no lower-case ASCII letter |
| TextRules.UpperIdempotent | app.py:111 | upper-casing twice equals upper-casing once |
| LineClassifier.IsLineNumber | app.py:139 | the greedy scan for `re.fullmatch(r"^\s*\d+\s*$", text)`: leading whitespace, then at least one digit, then only whitespace up to the end; LineNumberMatchesPattern proves it equal to the pattern |
| LineClassifier.LineNumberMatchesPattern | app.py:139 | the scan accepts a string exactly when `\s*\d+\s*` matches all of it, for some split |
| LineClassifier.LineNumberHasShape | app.py:139 | an accepted string splits at the scan's run ends into whitespace, one or more digits, whitespace |
| LineClassifier.LineNumberShapeAccepted | app.py:139 | every split the pattern allows is accepted by the scan |
| LineClassifier.LineNumberOfStripped | app.py:135-139 | on stripped text, the line-number test holds exactly when the text is non-empty and all digits |
| LineClassifier.GreedyRunEndsAt | app.py:61 | a whitespace run followed by a non-whitespace character is the run a greedy `\s+` takes |
| LineClassifier.IsTimecode | app.py:61 | the scan for TIMECODE_REGEX: a 12-character stamp, a greedy whitespace run of at least one, `-->`, another such run, a stamp, then the end or a final line feed; TimecodeMatchesPattern proves it equal to the pattern |
| LineClassifier.TimecodeMatchesPattern | app.py:61 | the scan accepts a string exactly when TIMECODE_REGEX matches it: two `DD:DD:DD,DDD` stamps around `-->` with one or more whitespace characters on each side, then the end (or a final line feed, as `$` allows) |
| LineClassifier.TimecodeHasShape | app.py:61 | an accepted string has the pattern's shape |
| LineClassifier.TimecodeShapeAccepted | app.py:61 | every string of the pattern's shape is accepted; backtracking into `\s+` cannot find another match |
| LineClassifier.MatchSpeaker | app.py:60 | SPEAKER_REGEX.match: a match ends group 1 at index 2 or later, strictly before the end of group 0, which lies within the text |
| LineClassifier.NameThenColonUnique | app.py:60 | at most one split of a text matches `^([A-Z][a-z\s&]+):`, because `:` is not a name character |
| LineClassifier.MatchSpeakerIsPattern | app.py:60 | a match found by the scan has the pattern's shape, with `\s*` greedy; the scan finds none exactly when no split matches |
| LineClassifier.SpeakerShapeUnique | app.py:60 | with group 1 fixed, the greedy `\s*` leaves only one place for group 0 to end |
| LineClassifier.SpeakerShapeIsMatch | app.py:60 | every split with the pattern's shape is exactly the match the scan reports, group 1 and group 0 both |
| LineClassifier.SpeakerName | app.py:154 | the speaker name: group 1 of the match, stripped |
| LineClassifier.Classify | app.py:139-151 | the first of the three tests, in the source's order; a speaker result carries the match bounds |
| LineClassifier.TimecodeIsNotSpeaker | app.py:144-150 | a timecode line could never match the speaker pattern, so the `else` excludes nothing |
| LineClassifier.LineNumberIsNothingElse | app.py:139-150 | a stripped line number is neither a timecode nor a speaker line |
| LineClassifier.ClassifyStripped | app.py:135-151 | on stripped text each kind holds exactly when its pattern matches: all digits, timecode shape, or a name and colon with the greedy `\s*` after |
| SpeakerColors.PaletteIsDistinct | app.py:15-36 | the palette has twenty pairwise different colours |
| SpeakerColors.PermutationOfDistinct | app.py:41-42 | a rearrangement of a sequence without repeats has no repeats and only that sequence's members |
| SpeakerColors.ShuffledPaletteIsPool | app.py:41-42 | every shuffle of the palette is a full pool: twenty palette colours, none twice |
| SpeakerColors.ColorRegistry.constructor | app.py:38-42 | start-up: empty map, pool equal to the shuffled palette, registry invariant established |
| SpeakerColors.ColorRegistry.ResetMap | app.py:98-100 | the map is emptied and the pool is left as the previous conversion left it |
| SpeakerColors.ColorRegistry.GetSpeakerColor | app.py:44-57 | the result is a palette colour and is stored for the name. A known name gets its stored colour and nothing changes. A new name with a non-empty pool gets the pool's last colour, which no other speaker has; the pool loses exactly that colour and the map gains exactly that key. With an empty pool only the new key is added. A call made while the pool is non-empty keeps the colours pairwise different if they were |
| DocModel.Kind | app.py:135 | a paragraph's kind is the classification of its stripped text |
| DocModel.SpeakerOf | app.py:150-154 | the speaker a paragraph asks a colour for: group 1 stripped when it is a speaker line, none otherwise |
| DocModel.SpeakerRuns | app.py:160-170 | a rebuilt speaker line's runs: the empty run left by `text = ""`, group 0 bold with the colour, then the rest; SpeakerRunsText states their text |
| DocModel.Rewrite | app.py:135-177 | one paragraph after the title before the size pass: a line number cleared, a timecode bolded, a speaker line rebuilt from `SpeakerRuns` with its speaker's colour, anything else kept; RewriteLineNumber, RewriteTimecode, RewriteSpeaker and RewritePlain state each case |
| DocModel.Bolded | app.py:145-146 | every run with `bold` set, nothing else changed; BoldedKeepsText states its properties |
| DocModel.Formatted | app.py:86-92 | every run of a paragraph set to 12 points; FormattedSizes states its properties |
| DocModel.Title | app.py:111-117 | the title paragraph: one run holding the upper-cased file name, bold, 16 points, centred; TitleFacts states its properties |
| DocModel.BoldedKeepsText | app.py:145-146 | bolding keeps the number of runs and the text, and makes every run bold |
| DocModel.SizedKeepsText | app.py:87-89 | sizing keeps the number of runs and the text, and gives every run the size |
| DocModel.RewriteLineNumber | app.py:139-141 | a paragraph after the title whose stripped text is all digits ends with no runs and empty text, keeping its alignment |
| DocModel.RewriteTimecode | app.py:144-149 | a timecode paragraph keeps its run count, text and alignment, every run becomes bold, and it names no speaker |
| DocModel.RewriteSpeaker | app.py:150-170 | a speaker paragraph matches the speaker pattern, its speaker is group 1 stripped, it is rebuilt from `SpeakerRuns` with that speaker's colour, and its text becomes the stripped text |
| DocModel.SpeakerRunsText | app.py:157-170 | a speaker line's runs: an empty plain run, the prefix (group 0) bold with the colour, and the plain rest; prefix and rest join to the stripped text |
| DocModel.RewritePlain | app.py:144-151 | a paragraph that passes none of the tests is left exactly as it was |
| DocModel.RewriteStable | app.py:46-57 | how a paragraph is rewritten depends on the map only through its own speaker's entry |
| DocModel.FormattedSizes | app.py:84-92 | after the final pass every run has 12 points; run count, text and alignment are kept |
| DocModel.TitleFacts | app.py:111-117 | whatever it held before, the title is one bold run holding the upper-cased file name, centred, with no lower-case letter; the final pass resets 16 points to 12 |
| DocModel.NamesStep | app.py:150-156 | taking one more paragraph adds its speaker, if it has one, and nothing else |
| DocModel.NamesHas | app.py:150-156 | every speaker line in the range contributes its speaker |
| DocModel.NamesOnly | app.py:150-156 | every name collected is the speaker of some paragraph in the range |
| DocModel.SpeakerNamesExactly | app.py:150-156 | a name is collected exactly when some paragraph of the range is a speaker line for it |
| DocModel.Document.constructor | app.py:102 | the opened document's body holds the parsed paragraphs |
| DocModel.Document.AddParagraph | app.py:108-109 | one empty paragraph is appended and the others are kept |
| Processing.BoldRuns | app.py:145-146 | the loop leaves the runs `Bolded` |
| Processing.SetAllTextFormatting | app.py:84-92 | every paragraph of the body ends `Formatted` from its old value |
| Processing.PoolStep | app.py:46-55 | one colour lookup keeps the registry's progress: map keys are the speakers seen, the pool has lost one colour per new speaker while it lasted, and if there are no more speakers than the pool held at the start, each speaker's colour is one the pool lost and their colours are pairwise different |
| Processing.PoolColorsStep | app.py:46-55 | after a new speaker pops a colour off the end of the pool, every speaker's colour is still one the pool has lost |
| Processing.InjectiveStep | app.py:46-55 | giving a new speaker a colour no speaker holds keeps speakers' colours pairwise different |
| Processing.EarlierStable | app.py:46-57 | paragraphs whose speakers already have colours are rewritten the same way after further lookups |
| Processing.HandledKeeps | app.py:46-57 | handling a paragraph never drops or changes a colour already given |
| Processing.ProgressStep | app.py:126-156 | handling paragraph `i` keeps the registry's progress, with the speakers of paragraphs 1 to `i` |
| Processing.RewrittenStep | app.py:126-170 | after paragraph `i` is handled, paragraphs 1 to `i` are rewritten (line numbers still waiting) and the rest are untouched |
| Processing.QueuedStep | app.py:139-141 | after paragraph `i` is handled, the queue lists exactly the line numbers among paragraphs 1 to `i`, each once and in increasing order |
| Processing.ClearingFinishes | app.py:173-177 | once the queued paragraphs are cleared, every paragraph after the title is `Rewrite` of its original |
| Processing.RewriteParagraph | app.py:135-170 | one loop body: a line number is only reported; any other paragraph comes back `Rewrite`n with the registry's colours; only a speaker line changes the registry, by one lookup |
| Processing.HighlightSpeaker | app.py:157-170 | clearing the text and appending the prefix and rest runs gives `SpeakerRuns` |
| Processing.SetTitle | app.py:104-117 | paragraph 0, added if there is none, becomes `Title`; no other paragraph changes |
| Processing.ClearQueued | app.py:173-177 | every queued paragraph is cleared and every other paragraph is kept |
| Processing.RewriteBody | app.py:121-170 | the rewrite loop: paragraphs after the title rewritten by kind (line numbers queued once each, in increasing order), title untouched, registry progress for the speakers seen |
| Processing.RewriteStep | app.py:126-170 | one loop turn keeps the loop invariant, moving it on by one paragraph |
| Processing.ConvertBody | app.py:121-177 | the loop and then the clearing pass: every paragraph after the title becomes `Rewrite` of its original with the final colours |
| Processing.ProcessDocx | app.py:95-181 | the body has the old paragraph count, or 1 if it was empty. Paragraph 0 is the formatted title; every later paragraph is `Formatted(Rewrite(...))` of its original. The map's keys are exactly the document's speakers, the pool has lost one colour per speaker while it lasted, and if the document has no more speakers than the pool held, every speaker's colour is one the pool lost and no two speakers share a colour |

## Left out

- The Streamlit page, upload and download, and the error display (app.py:194-237): user interface with no conversion logic.
- Reading and saving the `.docx` (app.py:102, 187-192): library I/O. The document is given as its paragraphs.
- Page numbers in the footer, `set_page_number` and its calls (app.py:64-82, 183-185): a field inserted by the library into a part of the document this model does not have.
- The style reset to "Normal" (app.py:129) and every font-name assignment (app.py:81, 88, 115): library styling with no logic. A run records only its text, bold flag, highlight and size.
- Lines 166-167 (`highlight_color.rgb`, and an `RGBColor` stored as the highlight): whether python-docx accepts these, or raises, is library behaviour not in view. The speaker run simply records the colour.
- Real randomness (app.py:42, 52): the shuffle is the registry constructor's argument, and the fallback draw is an arbitrary palette colour.
- Unicode: characters are ASCII for the purpose of `\d`, `\s`, `strip`, `upper` and `re.IGNORECASE`. Non-ASCII digits, whitespace and letters (and their case forms) are treated as none of these.
- The `random.shuffle` call itself: the registry's constructor accepts any pool of twenty palette colours without repeats rather than a permutation as such. Every permutation qualifies (ShuffledPaletteIsPool), and nothing more is assumed.
- The size test at app.py:91-92 has no counterpart: it never fires, because the size was set on the line before it.
- Processing.ProcessDocx: states which colours the speakers hold as a set, not which speaker got which. In the source the n-th new speaker in document order takes the n-th colour from the end of the pool (app.py:49); stating that needs a first-appearance function over the paragraphs, which the model does not define.
- Module globals: the registry is an explicit object passed to `ProcessDocx`. The map is emptied at the start of each call, and the pool carries over from one call to the next exactly as `used_colors` does. The deployed app is a Streamlit script that runs again from the top on every button press, so app.py:40-42 reshuffle a full pool before each `process_docx` call. The carry-over shows only when `process_docx` is called twice in one run of the script.
