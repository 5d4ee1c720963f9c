# Text progress bar, modelled in Dafny

A model of the core of the Obsidian "text progress bar" plugin. The plugin
renders a fenced code block such as

```
Books read: 5/10
fill:#
length:5
```

as a row of text symbols. The first row is a label followed by `done/total`.
The other rows are `key:value` overrides of the persisted settings.

The source has two copies of the bar logic, and the model keeps both:

- `Bar.ProgressBar` is the `ProgressBar` class of `src/bar.ts`. It has
  getter/setter pairs, the progress figures, and `renderBar`.
- `Plugin.TextProgress` is the `TextProgress` plugin class of `src/main.ts`.
  It has `parseLabel`, the `fill` accessor pair, `renderTransition`, and the
  code-block processor. The processor splits the block into rows, parses the
  label, merges the override rows, copies six fields, falls back on the
  length, and lays out the segments.

Both classes are Dafny classes. Their fields are the source's fields, and their
methods update those fields in place. The loops of the source (the segment
loops and the settings merge loop) are `while`/`for` loops. Each loop is proved
against a specification function:

- `Segments.Layout` is the bar as a sequence of `Filled`/`Transition`/`Empty`
  segments.
- `Settings.Merge` is the dictionary after the rows are written in order.
- `LabelPattern.MatchLabel` is what `line.match(labelRegex)` returns. It is
  defined as a leftmost, greedy search, and `MatchLabelSpec` proves that it
  answers with the leftmost match and the longest label there.

`Ratio` holds the progress arithmetic. The source computes in floating point.
The model uses exact reals, written the way the source writes them:
`(done / total) * length`, `Math.floor(...)`, and `... % 1` taken as the
fractional part. The integer meaning of each figure is proved beside it. For
example, the filled count is `done * length / total` and the remainder is
`(done * length) % total / total`.

Helpers live in separate modules. `Strings` holds JavaScript's `split`, `join`
and `trim` and decimal digit runs. `Wrappers` holds `Option`.

Where the prose description of the plugin and the code differ, the model follows
the code:

- The override keys are `open` and `close`, not `prefix` and `suffix`.
- `labelHide` comes from the persisted settings. A `labelHide:` row is merged
  but never read (src/main.ts:164).
- A first row that does not match keeps the label and numbers already stored on
  the plugin object. Nothing is reset to zero.
- Only decimal digit runs are accepted as numbers. `\d+` admits no fractions.
- `main.ts` does not cap the filled count at the length, while `bar.ts` does.
  `Segments.CapIrrelevant` proves that the two give the same bar.
- A text-valued `length` row is read only when, after trimming white space, it
  is a decimal digit run. Any other text reads as 0, so the bar falls back to
  `total`. JavaScript reads more forms: `+5` as 5, `2.5` as 2.5 (three
  segments), `1e1` as 10 and `0x10` as 16 (see `Settings.LengthOf` below).

## Model

| member | source | states |
|---|---|---|
| Ratio.BarLength | src/bar.ts:42-44 | the configured length when positive, otherwise `total`; at least 1 when `total > 0` |
| Ratio.Percent | src/bar.ts:62-64 | the percentage times `total` is 100 times `done`; never negative and never clamped |
| Ratio.FilledParts | src/main.ts:174 | `floor((done/total)*length)` equals the integer quotient `done*length/total`, and reaches `length` once `done >= total` |
| Ratio.DoneParts | src/bar.ts:70-72 | the capped filled count is `min(done*length/total, length)`, never above `length`, and exactly `length` once `done >= total` |
| Ratio.Remainder | src/bar.ts:66-68 | `((done/total)*length) % 1` lies in [0, 1), equals `((done*length) % total)/total`, and is zero exactly when the division is exact |
| Ratio.TransitionIndex | src/bar.ts:58-60 | `floor(remainder * n)` is below `n` (a valid index into the symbol list) and equals `((done*length) % total) * n / total` |
| Ratio.ScaledFloor | src/main.ts:174 | the real floor of the scaled position equals the integer quotient |
| Ratio.ScaledFraction | src/main.ts:175 | the fractional part of the scaled position is the remainder of the division over `total` |
| Ratio.OverflowFills | src/bar.ts:70-72 | once `done >= total` the uncapped count is at least `length` |
| Ratio.ProductFloor | src/main.ts:79 | for a remainder below `total`, `floor(rem/total * n) == rem*n/total < n` |
| Ratio.PercentMilestones | src/bar.ts:62-64 | the percentage is at least 100 exactly when `done >= total`, and is 0 exactly when `done == 0` |
| Segments.SegmentAt | src/bar.ts:109-115 | the segment at one index, as the loop bodies of `renderBar` and of the processor (src/main.ts:181-187) choose it; no contract of its own, `LayoutShape` and `SingleTransition` state the shape it gives the bar |
| Segments.Layout | src/bar.ts:105-117 | the bar has exactly `length` segments |
| Segments.LayoutShape | src/bar.ts:105-117 | a bar is `min(complete, length)` filled segments, then at most one transition segment, then empty segments |
| Segments.FullBar | src/bar.ts:109 | when `complete >= length` every segment is filled |
| Segments.SingleTransition | src/main.ts:181-187 | every transition segment stands at index `complete`; there is one exactly when the boundary is partly filled and `complete < length` |
| Segments.CapIrrelevant | src/main.ts:174-187 | capping `complete` at the length (as `bar.ts` does and `main.ts` does not) yields the same bar |
| Strings.IndexOf | src/main.ts:144 | the index of the first occurrence: it holds the character, and no earlier position does |
| Strings.Split | src/main.ts:71 | `split` yields at least one piece, no piece holds the separator, and a string without it splits into itself |
| Strings.JoinSplit | src/main.ts:66-72 | joining the pieces of a split gives back the string: the `fill` getter returns what the setter stored |
| Strings.SplitJoin | src/bar.ts:50-56 | splitting a join of separator-free pieces gives back the pieces |
| Strings.Trim | src/main.ts:114 | `trim`: no longer than the input, and the result neither starts nor ends with white space (`TrimStart`, `TrimEnd` and `TrimIdempotent` give the rest) |
| Strings.Join | src/main.ts:67 | `join` on one separator; no contract of its own, its partner is `Split` through `JoinSplit` and `SplitJoin` |
| Strings.DigitsValue | src/main.ts:91-92 | `+groups.done` on a digit run, as a decimal value; no contract of its own, its partner is `Decimal` through `DigitsValueDecimal` |
| Strings.TrimStart | src/main.ts:114 | the result is a suffix of the input, only white space was removed, and it does not start with white space |
| Strings.TrimEnd | src/main.ts:114 | the result is a prefix of the input, only white space was removed, and it does not end with white space |
| Strings.TrimIdempotent | src/main.ts:114 | trimming a trimmed block changes nothing |
| Strings.TrimLeading | src/main.ts:114 | `trimStart` removes exactly the leading white space |
| Strings.Decimal | src/main.ts:91-92 | the inverse of `+groups.done` on a digit run, used only for the round trip in `DigitsValueDecimal`: non-empty, digits only, no leading zero |
| Strings.DigitsValueDecimal | src/main.ts:91-92 | reading back the decimal notation of `n` gives `n` |
| Bar.ProgressBar.constructor | src/bar.ts:28-32 | the label and the two numbers are stored; the fields the source leaves unset start empty |
| Bar.ProgressBar.Fill | src/bar.ts:34-36 | the `fill` getter; no contract of its own, `SetFill` states what it returns after a write |
| Bar.ProgressBar.Transition | src/bar.ts:50-52 | the `transition` getter, the stored symbols joined with commas; `SetTransition` states that it returns the string set |
| Bar.ProgressBar.SetFill | src/bar.ts:34-40 | the `fill` getter returns the value set |
| Bar.ProgressBar.Length | src/bar.ts:42-44 | the effective length is at least 1 whenever `total > 0` |
| Bar.ProgressBar.SetLength | src/bar.ts:42-48 | after setting, the getter returns the value when positive, otherwise `total` |
| Bar.ProgressBar.SetTransition | src/bar.ts:50-56 | the comma-split symbols are stored (never an empty list), and the getter returns the string set |
| Bar.ProgressBar.DonePercent | src/bar.ts:62-64 | `getDonePercent` times `total` is 100 times `done` |
| Bar.ProgressBar.Remainder | src/bar.ts:66-68 | `getRemainder` lies in [0, 1) and is zero exactly when `done * length` is a multiple of `total` |
| Bar.ProgressBar.DoneParts | src/bar.ts:70-72 | `getDoneParts` is `min(done*length/total, length)`: never above the length, and the full length once `done >= total` |
| Bar.ProgressBar.RenderTransition | src/bar.ts:58-60 | the symbol at index `((done*length) % total) * n / total` of the `n` stored symbols, always a valid index |
| Bar.ProgressBar.RenderBar | src/bar.ts:81-122 | the label unless `labelHide` is set, the fill's pictographic flag, prefix and suffix, and exactly the `Layout` of `getDoneParts`/`getRemainder` |
| Bar.CalculatesProgress | tests/bar.test.ts:7-57 | the percentages 0/50/100/200, the filled parts 0/5/10/15, and the remainders 0.1 and 0 of the test suite |
| LabelPattern.SkipSpaces | src/main.ts:12 | `\s*` takes the whole run of white space, and the run ends at a character that is not white space |
| LabelPattern.SkipDigits | src/main.ts:12 | `\d+` takes the whole run of digits, and the run ends at a character that is not a digit |
| LabelPattern.TailShapeForced | src/main.ts:12 | every way for `:\s*\d+\/\d+` to match at a colon uses exactly the maximal runs, so the captured numbers are unique |
| LabelPattern.TailAtShape | src/main.ts:12 | the maximal runs are one way for the tail to match |
| LabelPattern.RunEnd | src/main.ts:12 | `.` can extend up to the first line terminator, and no further |
| LabelPattern.Greedy | src/main.ts:12 | the greedy `.+` ends at the last label end where the tail matches; no later end matches |
| LabelPattern.Search | src/main.ts:12 | the search returns the leftmost start at which the pattern matches, with the longest label there; `None` means no start matches |
| LabelPattern.TailAt | src/main.ts:12 | the captures of `:\s*(\d+)\/(\d+)` at a colon, taking whole runs; no contract of its own, `TailAtShape` and `TailShapeForced` tie it to every backtracking match |
| LabelPattern.MatchLabel | src/main.ts:85-89 | `label.match(labelRegex)`: a match has a non-empty label without line terminators, so the `groups.label` test passes on every match; `MatchLabelSpec` gives the rest |
| LabelPattern.MatchLabelSpec | src/main.ts:85 | `match` fails exactly when the pattern matches nowhere; otherwise its groups are those of the leftmost match with the longest label |
| LabelPattern.SingleLineLabel | src/main.ts:12 | on a line without line terminators, the label is the longest non-empty prefix followed by `:`, optional white space, digits, `/` and digits |
| LabelPattern.MatchFromPrefix | src/main.ts:12 | a match from index 0 with no later accepted colon fixes the groups |
| LabelPattern.BooksRead | src/main.ts:83-99 | `Books read: 5/10` gives the label `Books read`, 5 and 10 |
| LabelPattern.GreedyLabel | src/main.ts:12 | `a: 1/2: 3/4` gives the label `a: 1/2`, 3 and 4: the last accepted colon ends the label |
| Settings.DefaultSymbols | src/main.ts:29-37 | `DEFAULT_SETTINGS` (`Settings.Defaults`) splits into three moon-phase transition symbols and a single fill symbol, and its length 0 defers to `total` |
| Settings.Snapshot | src/main.ts:129-137 | the per-block copy holds exactly the seven persisted keys, with the string ones as text |
| Settings.RowKey | src/main.ts:144 | the key of a row, `first`; no contract of its own, `SplitFirstColon` and `RowParts` state what it is |
| Settings.RowValue | src/main.ts:144-145 | the value of a row, `restJoined`; no contract of its own, `SplitFirstColon` and `RowParts` state what it is |
| Settings.RowParts | src/main.ts:144-145 | the key holds no colon; a row with a colon is its key, the colon and its value; a row without one is its own key with the empty value |
| Settings.SplitFirstColon | src/main.ts:144-145 | splitting a row on every colon and joining all pieces but the first is splitting it at its first colon |
| Settings.Merge | src/main.ts:143-147 | merging rows into a well-typed copy keeps every key the bar reads present |
| Settings.MergeRows | src/main.ts:143-147 | the merge loop computes `Merge`: each row is written over the copy, in order |
| Settings.MergeLastWins | src/main.ts:143-147 | the last row that names a key decides its value |
| Settings.MergeKeepsUnnamed | src/main.ts:143-147 | a key that no row names keeps its persisted value (or stays absent) |
| Settings.MergeKeys | src/main.ts:143-147 | the merged keys are the persisted keys plus the keys the rows name, and nothing else |
| Settings.LengthOf | src/main.ts:153 | a numeric length is taken as it is; a text length is never negative, and a plain digit run reads as its value |
| Settings.SpacedLength | src/main.ts:153 | white space before the digits (`length: 10`) does not change the length read |
| Settings.Resolve | src/main.ts:149-154 | the six fields read from a well-typed dictionary; no contract of its own, `ResolveIgnoresOtherKeys` and `ResolveMerged` state what it gives |
| Settings.ResolveIgnoresOtherKeys | src/main.ts:149-154 | writing `labelHide` or an unknown key leaves all six copied fields unchanged |
| Settings.ResolveMerged | src/main.ts:129-154 | `fill` and `length` come from the last row naming them, or from the persisted settings when no row does |
| Settings.UnnamedKept | src/main.ts:129-154 | `fill` or `length` named by no row keeps the persisted value |
| Settings.LastRowWins | src/main.ts:143-154 | `fill` or `length` named by a row that no later row overrides takes that row's value |
| Settings.ColonInValue | src/main.ts:141-147 | `open:a:b` sets `open` to `a:b` |
| Settings.OverrideDefaults | src/main.ts:129-154 | rows `fill:🌑` and `length:5` over the defaults change those two fields and keep the rest |
| Plugin.Rows | src/main.ts:114-117 | the block's rows include at least a first row |
| Plugin.TextProgress.constructor | src/main.ts:39-50 | the persisted settings are stored; the other fields start empty |
| Plugin.TextProgress.Fill | src/main.ts:66-68 | the `fill` getter, the stored parts joined with commas; `SetFill` states that it returns the value set |
| Plugin.TextProgress.SetFill | src/main.ts:66-72 | the comma-split fill is stored, and the `fill` getter returns the value set |
| Plugin.TextProgress.RenderTransition | src/main.ts:74-81 | the symbol at index `((done*length) % total) * n / total` of the `n` comma-split transition symbols, always a valid index |
| Plugin.TextProgress.ParseLabel | src/main.ts:83-99 | answers true exactly when the line matches, and then stores the label and both numbers; otherwise changes nothing |
| Plugin.TextProgress.ReadLabelRow | src/main.ts:114-125 | the override rows are the rows after the first; the label fields follow a match of the first row, or keep their values and the notice is raised |
| Plugin.TextProgress.ApplyOverrides | src/main.ts:129-154 | the six fields hold the values resolved from the persisted settings merged with the rows |
| Plugin.TextProgress.CopyFields | src/main.ts:149-154 | transition, open, close, fill, length and empty are read from the merged dictionary, and the `fill` getter returns the merged fill |
| Plugin.TextProgress.RenderSegments | src/main.ts:170-191 | the loop emits exactly the `Layout` of the uncapped filled count and a nonzero remainder |
| Plugin.TextProgress.Drawn | src/main.ts:160-194 | the block drawn from the current fields; no contract of its own, `RenderSegments`, `Segments.LayoutShape` and `Segments.SingleTransition` state what its segments are |
| Plugin.TextProgress.RenderBlock | src/main.ts:156-195 | the length falls back to `total`; the bar is drawn exactly when `total > 0` |
| Plugin.TextProgress.ReadBlock | src/main.ts:114-154 | the label fields and the notice follow the first row; the six fields follow the merged rows |
| Plugin.TextProgress.ProcessBlock | src/main.ts:112-198 | the whole processor: label fields and notice from the first row, the six fields from the merge, the length fallback, and a drawn bar exactly when `total > 0` |

## Left out

- The DOM is left out: the elements, class names, `innerHTML`, the `highlight` template tag, the label span and the `section` container. A render is returned as a value (`RenderedBar`, `RenderedBlock`).
- The emoji test `/\p{Emoji}/u` needs Unicode property data, so it is a caller-supplied predicate applied to the fill.
- `new Notice(...)` is returned as data (`BlockOutput.notice`), not shown.
- Plugin lifecycle code is left out: `onload`, `loadSettings`/`saveSettings`, the settings tab and `registerMarkdownCodeBlockProcessor`. These are host API calls. The processor is modelled as a method the host calls with the block's text.
- The "No progress bars found." branch is left out. It cannot be reached, because `split` always returns at least one row (`Plugin.Rows`).
- Floating-point rounding is left out. The figures are exact reals, so the model cannot show cases where IEEE doubles differ from exact arithmetic. Number precision for very long digit runs is left out for the same reason.
- A zero `total` is not rendered. `bar.ts` needs `total > 0` for its figures. For `main.ts` the model returns `bar == None`, while the source still renders the label section and the `open`/`close` frame, with one of three sets of segments between them:
  - none, when the length falls back to a `total` of 0;
  - `length` empty segments for `0/0` with a configured length, because `floor(NaN)` fails both tests at src/main.ts:181 and src/main.ts:186;
  - `length` filled segments when `done > 0`, because `floor(Infinity)` is above every index.
- The same holds for the first block whose label row does not match. There the constructor's zeros stand for the source's undefined `done` and `total`, whose division gives `NaN` as in the `0/0` case.
- `Settings.LengthOf`: JavaScript also reads signs, fractions, exponents and hexadecimal in a text length. The model reads only white space around a decimal digit run, and any other text as 0, which makes the bar fall back to `total` as the source does for text it reads as 0 or `NaN`.
- The text-valued length stays a string in the source. Its one strict comparison, `complete === this.length`, then fails. That comparison makes no difference to the bar: every index below the length is already below `complete` when `complete` reaches the length (`Segments.FullBar`).
- `done` and `total` are non-negative integers (`nat`). In `main.ts` they come from `\d+`. In `bar.ts` they are plain numbers that the tests set to non-negative integers.
- The `ProgressBar` fields the source leaves `undefined` until assigned start as `""`, `0` and `[""]`, and `labelHide` starts false. In `bar.ts` a fresh `ProgressBar` whose `fill` was never set makes `renderBar` throw a `TypeError` at `this.fill.match` (src/bar.ts:97), because `_fill` is undefined; the model renders it with the empty fill. The `TextProgress` fields `labelPosition`, `progressFormat`, `progressHide` and `progressPosition` are never read by the core and are left out.
- Settings.MergeKeys: a row whose key is `__proto__` is stored as an ordinary key. In JavaScript, `settings["__proto__"] = restJoined` (src/main.ts:146) with a string value is ignored and adds no key, so for such a row the merged keys differ from the source's. No field the bar reads changes either way.
- `bar.ts` appends the suffix with `bar.innerText += this.suffix`, which in a browser would replace the segment spans with flat text. That DOM effect is left out; the model keeps the segments and the suffix.
