# pnelson/log in Dafny

A model of the Go logging library `log`, with proofs about it. The library has three parts:

- **Levels.** Four severities, DBG, INF, WRN and ERR. Their integer values (30, 34, 33, 31) double as ANSI colour numbers. Each level has a 3-character token, and the JSON encoding is that token in quotes. Decoding strips surrounding quotes, upper-cases the input and looks the token up. When there is no match, decoding fails and keeps the old value.
- **A Logger.** It wraps one Handler. Each call builds an Entry from the level, the message, the data map and the current time. The Entry goes to the handler exactly once, and a handler error is printed to standard error.
- **Five handlers.**
  - The structured (JSON) handler drops INF entries, and drops DBG entries unless debug is on.
  - The text, shell and minimal-shell handlers each write one line per entry. A line holds the entry's data as ` key: value` segments in sorted key order, with ANSI colours in the shell formats.
  - The discard handler writes nothing.

Modules, one file each:

- `Wrappers` (`wrappers.dfy`): `Option` and `Error`.
- `Levels` (`levels.dfy`): the level datatype, the `levels` table and the `reverse` map, `String`, and the JSON encode and decode of a level.
- `Data` (`data.dfy`):
  - the data map `M`;
  - a lexicographic string order and its total-order lemmas;
  - `SortedKeys`, the specification of `M.Keys`, and `Keys` itself (a collecting loop, then an in-place insertion sort over an array).
- `Formats` (`formats.dfy`):
  - `Entry`;
  - the exact text, shell and minimal-shell lines, including the ANSI escapes;
  - a function that removes ANSI escapes, and the lemmas relating the three formats.
- `Handlers` (`handlers.dfy`):
  - the destinations, as classes: a `Writer` (an `io.Writer`) and an `Encoder` (a `json.Encoder`);
  - one class per handler, with the handler's fields and `Log` method;
  - the `Handler` interface, as a datatype over the five handler classes.
- `Logging` (`logger.dfy`): `Logger`, `New`, `Logger.Log`, the standard-error sink, and the five logger constructors.

Modelling choices:

- A `Writer` records everything written to it. A failing `Writer` (its `failure` is set) writes nothing and returns its error on every write.
- An `Encoder` records the structured records it encoded, or fails on every call in the same way.
- The clock, `Sprintf` and `%v` rendering are inputs:
  - an `Instant` carries the two renderings of the time that the handlers use;
  - the message arrives already formatted;
  - a `Value` carries its `%v` text.
- Decoding a level trims every leading and trailing quote before the lookup, so the unquoted `wrn` decodes just as `"wrn"` does. The model follows the code here.
- Go interface dispatch is `Handlers.Dispatch`, a match over the `Handler` datatype.
- `Handlers.Handled` is a predicate over the state before and after a call. It gives, per handler, the new state of its destination after one `Log` call.

## Model

| member | source | states |
|---|---|---|
| Levels.Code | levels.go:13-25 | The level values are 30 (DBG), 34 (INF), 33 (WRN) and 31 (ERR), all within the 35-slot table and none equal to 32. |
| Levels.CodeInjective | levels.go:13-25 | The four level constants are pairwise distinct. |
| Levels.LevelTable | levels.go:27-33 | The `levels` array has 35 slots: "DBG", "INF", "WRN" and "ERR" sit at slots 30, 34, 33 and 31, and every other slot is empty. |
| Levels.String | levels.go:44-47 | Each level maps to its 3-character token "DBG", "INF", "WRN" or "ERR". |
| Levels.ReverseInvertsTable | levels.go:35-42 | `reverse` holds exactly the four tokens. It inverts `levels` in both directions: `reverse[levels[l]] == l`, and every key is the token of its level. |
| Levels.MarshalJSON | levels.go:49-52 | The encoding is the token wrapped in exactly one pair of double quotes (5 characters, exactly two of them quotes), and it never returns an error. |
| Levels.Quotes | levels.go:56 | A run of n quote characters, the cut-set `"` of bytes.Trim. |
| Levels.TrimLeft | levels.go:56 | Removes the whole leading run of quotes: the input is that run followed by the result, and the result does not start with a quote. |
| Levels.TrimRight | levels.go:56 | Removes the whole trailing run of quotes: the input is the result followed by that run, and the result does not end with a quote. |
| Levels.TrimStrips | levels.go:56 | bytes.Trim(b, `"`) leaves no leading and no trailing quote. It gives the empty string exactly when the input is made only of quotes, and keeps a quote-free input as it is. |
| Levels.UpperChar | levels.go:56 | Upper-cases ASCII letters by moving them 32 code points down, and leaves every other character unchanged. |
| Levels.ToUpper | levels.go:56 | Has the input's length and upper-cases each character. |
| Levels.UnmarshalJSON | levels.go:54-62 | Succeeds exactly when the quote-trimmed, upper-cased input is one of the four tokens. On success the new value has that token. On failure the receiver is unchanged and the error is "log: invalid level". |
| Levels.TrimLeftOfQuoted | levels.go:56 | Trimming the left of n quotes followed by a text that does not start with a quote gives back that text. |
| Levels.TrimRightOfQuoted | levels.go:56 | Trimming the right of a text that does not end with a quote, followed by m quotes, gives back that text. |
| Levels.TrimOfQuoted | levels.go:56 | bytes.Trim removes any numbers of surrounding quotes from a text that neither starts nor ends with a quote. |
| Levels.CaseVariantUpper | levels.go:56 | A case variant of a level token upper-cases to that token. |
| Levels.UpperIsVariant | levels.go:56 | A text that upper-cases to a level's token is a case variant of that token. |
| Levels.DecodeIgnoresCaseAndQuotes | levels.go:54-62 | Any case variant of a level's token, inside any numbers of quotes, decodes to that level without error, e.g. `"wrn"` decodes to WRN. |
| Levels.RoundTrip | levels_test.go:29-47 | Decoding the encoding of any level gives that level without error, whatever the receiver held. |
| Levels.DecodeSucceedsOnlyOnTokens | levels.go:54-62 | Decoding succeeds if and only if the trimmed input equals some level's token up to case, and the decoded level is then that level. |
| Levels.LongNameIsInvalid | levels.go:56-59 | `"DEBUG"` is not a level: decoding it fails and keeps the receiver. |
| Data.LessEq | logger.go:44 | The byte-wise comparison of sort.Strings: a prefix comes before any extension of it, and a non-empty string comes only before a non-empty string whose first character is not smaller. |
| Data.LessEqReflexive | logger.go:44 | The byte-wise string order of sort.Strings is reflexive. |
| Data.LessEqAntisymmetric | logger.go:44 | The string order is antisymmetric. |
| Data.LessEqTransitive | logger.go:44 | The string order is transitive. |
| Data.LessEqTotal | logger.go:44 | The string order is total. |
| Data.SortedUnique | logger.go:44 | Two ascending sequences with the same elements are equal, so the sorted order of a collection is unique. |
| Data.HeadIsLeast | logger.go:44 | The first element of an ascending sequence is at most each of its elements. |
| Data.TailMultiset | logger.go:40-44 | Dropping the head removes exactly one occurrence of it. |
| Data.MinimumExists | logger.go:44 | A non-empty key set has a least key. |
| Data.RemoveOne | logger.go:40-43 | Taking one key out of a set leaves the others, with one fewer element. |
| Data.PrependLeast | logger.go:44 | The least key followed by the sorted remaining keys is strictly ascending. |
| Data.SortedKeys | logger.go:38-46 | The specification of `M.Keys`: every key of the set exactly once (equal multisets, equal membership and equal size), in strictly ascending order. |
| Data.SortedKeysExample | logger_test.go:8-15 | The keys {"c","a","b"} sort to ["a","b","c"]. |
| Data.SortStrings | logger.go:44 | sort.Strings in place: the array ends ascending and is a permutation of its old contents. |
| Data.InsertLast | logger.go:44 | One insertion step: the first i+1 elements become ascending and the multiset is unchanged. |
| Data.StartInserting | logger.go:44 | A sorted prefix with one new element after it is the start of an insertion step. |
| Data.SwapKeepsInserting | logger.go:44 | Swapping the moving element with a larger left neighbour keeps the insertion state, one position further left, and keeps the multiset. |
| Data.InsertingDone | logger.go:44 | An insertion that stops at the front, or below its left neighbour, leaves the prefix ascending. |
| Data.Keys | logger.go:38-46 | Collects the keys in an arbitrary iteration order and sorts them. The result equals `SortedKeys` of the key set: strictly ascending, every key exactly once, length equal to the map's size (so an empty or nil map gives no keys), independent of iteration order. |
| Formats.Digits | handlers.go:90 | The `%d` rendering of a level value is a non-empty string of decimal digits. |
| Formats.DigitsSpell | handlers.go:90 | The decimal digits read back as the number they render, so `%d` prints the level's own value. |
| Formats.TwoDigits | handlers.go:90 | A two-digit number renders as its tens digit followed by its units digit. |
| Formats.LevelDigits | handlers.go:90 | Each level value renders as two digits: `3`, then the level's last digit (`30`, `34`, `33`, `31`). |
| Formats.TextPair | handlers.go:69 | A text segment is a space, the key, `": "` and the value's `%v` text, at those positions and of that combined length. |
| Formats.ShellPairSpelled | handlers.go:92 | A shell segment is the format ` ESC[1;<code>m<key>:ESC[0m <value>` written out. |
| Formats.TextHeader | handlers.go:67 | The text header starts with the level's token and a space, ends with a space and the message, and holds the clock in between. |
| Formats.ShellHeaderSpelled | handlers.go:90 | The shell header is the format `ESC[1;<code>m<LVL>ESC[0m ESC[1;30m<time> ESC[1;37m<message>ESC[0m` written out. |
| Formats.MinimalHeaderSpelled | handlers.go:113 | The minimal header is the format `ESC[1;<code>m•ESC[0m ESC[1;37m<message>ESC[0m` written out. |
| Formats.TextLine | handlers.go:67-71 | The text line starts with the text header, is longer than it, and ends with the newline of Fprintln. |
| Formats.ShellLine | handlers.go:90-94 | The shell line starts with the shell header, is longer than it, and ends with a newline. |
| Formats.MinimalLine | handlers.go:113-117 | The minimal line starts with the minimal header, is longer than it, and ends with a newline. |
| Formats.TextPairsOneMore | handlers.go:68-70 | Writing the next key's segment after the text so far extends the written text segments by exactly that segment. |
| Formats.ShellPairsOneMore | handlers.go:91-116 | Writing the next key's coloured segment extends the written shell segments by exactly that segment. |
| Formats.TextLineWritten | handlers.go:67-71 | The header, the segments of the sorted keys and a newline, written in turn, append exactly the text line. |
| Formats.ShellLineWritten | handlers.go:90-94 | The same for the shell line. |
| Formats.MinimalLineWritten | handlers.go:113-117 | The same for the minimal-shell line. |
| Formats.TextLineWithoutData | handlers.go:67-71 | With no data the text line is `<LVL> <time> <message>` and a newline. |
| Formats.TextPairsFree | handlers.go:68-70 | A character other than `' '` and `':'` that occurs in none of the entry's message, clock text, keys and values does not occur in the key segments either. |
| Formats.TextLineIsOneLine | handlers.go:67-71 | When the message, time, keys and values hold no newline, a text line ends with its only newline. |
| Formats.SkipEscape | handlers.go:90 | Skipping to the end of an escape sequence consumes at least one character of non-empty input. |
| Formats.StripAnsi | handlers.go:90-92 | The text a terminal shows contains no escape character. |
| Formats.StripPlain | handlers.go:90 | Escape-free text passes through unchanged. |
| Formats.SkipThrough | handlers.go:90 | An escape sequence is skipped through its final `m`. |
| Formats.StripEscape | handlers.go:90 | A whole escape sequence strips to nothing. |
| Formats.StripSgr | handlers.go:90 | The colour escape `ESC[1;<code>m` strips to nothing. |
| Formats.StripReset | handlers.go:90 | The reset escape `ESC[0m` strips to nothing. |
| Formats.StripPainted | handlers.go:90 | A coloured, then reset, escape-free span strips to the span. |
| Formats.PairStripsToText | handlers.go:69-92 | Without escapes, a shell key segment is the text key segment. |
| Formats.PairsStripToText | handlers.go:68-93 | Without escapes, the shell key segments of any key list are its text key segments. |
| Formats.StripSpaceThenColoured | handlers.go:90 | A space and a colour escape before escape-free text strip to the space and the text. |
| Formats.StripSpaceThenPainted | handlers.go:90 | A space and a coloured span strip to the space and the span's text. |
| Formats.HeaderPartsStrip | handlers.go:67-90 | For escape-free token, time and message, the shell header layout strips to `<token> <time> <message>`. |
| Formats.ShellHeaderStrips | handlers.go:67-90 | Without escapes, the shell header is the text header `<LVL> <time> <message>`. |
| Formats.MinimalHeaderStrips | handlers.go:113 | Without escapes, the minimal header is the bullet, a space and the message. |
| Formats.ShellStripsFor | handlers.go:67-94 | For any key list, the stripped shell line equals the text line over the same keys. |
| Formats.MinimalStripsFor | handlers.go:113-117 | For any key list, the stripped minimal line is the bullet, the message, the text key segments and a newline. |
| Formats.ShellLineStripsToTextLine | handlers.go:67-94 | With its colour escapes removed, the shell line is exactly the text line: the shell format only adds colour. |
| Formats.MinimalLineStripsToBulletLine | handlers.go:113-117 | With its escapes removed, the minimal-shell line has no time and no level token: the bullet, the message, the text key segments and a newline. |
| Formats.SingleKey | logger.go:38-46 | A one-pair map has that single key as its key list and a single segment. |
| Formats.SinglePairLines | handlers.go:67-117 | With one data pair, each line is its header, that pair's segment and a newline. |
| Formats.ShellSinglePair | handlers.go:90-94 | With one data pair, the shell line is, escape by escape, the coloured token, the grey time, the white message, the coloured `key:` segment and a newline. |
| Formats.MinimalSinglePair | handlers.go:113-117 | With one data pair, the minimal line is, escape by escape, the coloured bullet, the white message, the coloured `key:` segment and a newline. |
| Formats.TextLineExample | handlers.go:67-71 | A WRN "disk low" entry at 12:00:00 with free=5% gives the text line `WRN 12:00:00 disk low free: 5%` and a newline. |
| Formats.ShellLineExample | handlers.go:90-94 | The same entry's shell line: token and key in colour 33 with resets, the time in colour 30, the message in colour 37 then a reset. |
| Formats.MinimalLineExample | handlers.go:113-117 | The same entry's minimal line: a bullet in colour 33, the message in colour 37, then the coloured key segment. |
| Formats.ColourExamples | handlers.go:90 | The escapes for colours 33, 30 and 37, and the reset, spelled out. |
| Handlers.Writer.Write | handlers.go:67 | A write appends its text to a working destination, leaves a failing one unchanged, and returns the destination's error. |
| Handlers.ToRecord | handlers.go:11-17 | The structured record: the level field is the quoted token, and the `data` field is absent exactly when the data is empty (`omitempty`). |
| Handlers.FromRecord | handlers.go:11-17 | Decoding a record into a fresh Entry succeeds exactly when its quote-trimmed, upper-cased level field is one of the four tokens. On success the entry has the level of that token, the record's message and time, and its data (an absent `data` field gives the empty map). |
| Handlers.RecordRoundTrip | handlers_test.go:30-38 | Every record the structured handler writes decodes back to the entry it came from. |
| Handlers.Encoder.Encode | handlers.go:49 | Encoding appends the entry's record when the encoder works, writes nothing otherwise, and returns the encoder's error. |
| Handlers.Suppressed | handlers.go:43-46 | INF is always dropped. DBG is dropped exactly when debug is off. WRN and ERR are never dropped. |
| Handlers.DefaultHandler.Log | handlers.go:42-50 | A dropped entry writes nothing and returns nil. A kept entry appends exactly one record (when the encoder works) and returns the encoder's error. |
| Handlers.WriteTextPairs | handlers.go:68-70 | The loop writes the ` key: value` segments of the keys in order. |
| Handlers.WriteShellPairs | handlers.go:91-93 | The loop writes the coloured key segments of the keys in order. |
| Handlers.TextHandler.Log | handlers.go:62-73 | Appends exactly the text line, or nothing to a failing writer, and always returns nil. |
| Handlers.ShellHandler.Log | handlers.go:85-96 | Appends exactly the shell line, or nothing to a failing writer, and always returns nil. |
| Handlers.MinimalShellHandler.Log | handlers.go:109-119 | Appends exactly the minimal-shell line, or nothing to a failing writer, and always returns nil. |
| Handlers.DiscardHandler.Log | handlers.go:128-131 | Writes nothing and returns nil. |
| Handlers.Dispatch | handlers.go:19-22 | One interface call runs the variant's Log. It changes only that handler's destination, as `Handled` describes, and returns the error `Report` gives. |
| Logging.Fallback.Println | logger.go:31 | Printing an error to standard error appends its text and a newline. |
| Logging.Complaint | logger.go:30-32 | Standard error receives nothing for a nil error, and the error text and a newline otherwise. |
| Logging.Logger.New | logger.go:16-19 | The Logger stores the given handler. |
| Logging.Logger.Log | logger.go:21-33 | The handler sees the Entry of exactly these level, message, data and time, once. Standard error receives the handler's error and nothing else. Nothing is returned to the caller. |
| Logging.OnlyStructuredComplains | logger.go:29-32 | Of the five library handlers, standard error is written exactly when the handler is the structured one, the entry is kept and the encoder fails. |
| Logging.NewLogger | handlers.go:32-40 | Builds a Logger over a fresh structured handler with the given encoder and debug switch. |
| Logging.NewTextLogger | handlers.go:57-60 | Builds a Logger over a fresh text handler of the given writer. |
| Logging.NewShellLogger | handlers.go:80-83 | Builds a Logger over a fresh shell handler of the given writer. |
| Logging.NewMinimalShellLogger | handlers.go:103-107 | Builds a Logger over a fresh minimal-shell handler of the given writer. |
| Logging.NewDiscardLogger | handlers.go:123-126 | Builds a Logger over a fresh discard handler. |
| Logging.QuietProduction | handlers_test.go:18-39 | A production logger with debug off writes no record and prints nothing for DBG and INF. |
| Logging.KeptProduction | handlers_test.go:18-50 | A production logger keeps WRN and ERR, and DBG when debug is on. With a working encoder the call appends exactly one record that decodes back to the logged entry, and prints nothing. |

## Left out

- **Locking.** The mutexes and lock/unlock pairs in the handlers are not modelled. The model is sequential.
- **JSON bytes.** The structured handler's encoder works on records (level token, message, optional data, time), not on JSON text. How `json.Encoder` renders those bytes, and how `interface{}` values encode, are not modelled.
- **Time.** `time.Now().UTC()`, `Local()` and the `"15:04:05"` layout are not modelled. The caller passes an `Instant` holding both renderings.
- **Formatting.** `fmt.Sprintf` and the `%v` rendering of values are not modelled. `Logger.Log` takes the formatted message, and each `Value` carries its rendering.
- **Standard error.** The write itself and its possible failure are not modelled. `Fallback` appends and never fails.
- **Writes that fail part way.** A `Writer` either takes every write or fails every write (all or nothing per destination). A write that fails after some bytes is not modelled.
- **Map iteration order.** Go's randomised iteration order is modelled as an arbitrary choice at each step of `Data.Keys`. The proved result does not depend on that choice.
- **Bytes.** Bytes are modelled as characters. The bullet `•` is one character here, not its 3 UTF-8 bytes. The string order compares characters, which on the characters used here agrees with sort.Strings' byte order.
- **NewLogger's argument.** `NewLogger` takes the encoder instead of the `io.Writer` it wraps.
- Levels.UpperChar, Levels.ToUpper: upper-case ASCII letters only, because Unicode case mapping is not modelled. Go's `strings.ToUpper` also maps, for example, U+0131 to `I`, so in Go `"ınf"` decodes to INF, and the model does not capture that.
- **Out-of-range levels.** The `Level` datatype admits only the four constants. For any other integer, Go's `String` returns an empty string for an unnamed value in 0 to 34 and panics outside 0 to 34 (negative values included), and the model does not capture that. The empty slots of the table are still modelled in `LevelTable`.
- Handlers.RecordRoundTrip: the data values and the whole `Instant` come back by construction, because a record carries them as they are. In Go, `json.Decoder` turns data values into JSON types (a number becomes a `float64`) and decodes the time from its RFC 3339 text, so only the level, the message, the key set and the time instant truly round-trip. Logging.KeptProduction relies on this lemma and inherits the same limit.
- Handlers.Encoder.Encode, Logging.KeptProduction: Go's `json.Encoder.Encode` also fails, writing nothing, on data it cannot marshal (a NaN or infinite float, a channel, a function, a complex number), and `Logger.Log` then prints that error to standard error. The model cannot express this, because a `Value` is only its `%v` text, so an Encode on a working encoder always succeeds here. "Exactly one record, nothing printed" holds only for data that marshals.
- Logging.OnlyStructuredComplains: Go's `Handler` is an open interface, and `New` accepts any caller type with a `Log(Entry) error` method, whose errors `Logger.Log` prints as well. The model closes the interface over the five library handlers, and handlers written by callers are not modelled.
