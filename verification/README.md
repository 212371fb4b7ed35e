# conclusive: the visitor bar-chart series

`conclusive` is a terminal client for Plausible Analytics. It fetches the
timeseries of daily visitor counts for a site and draws them as a bar chart.
The one piece of logic between the deserialized response and the chart is the
loop that builds the chart's series. For every `TimeseriesResult { date, visitors }`
it pushes one pair onto `stats`. The pair holds the last two bytes of the date
(`&date[len-2..]`, the day of the month for an ISO date) and the visitor count
unchanged. `TUI::new` then stores that series as the application state.

This project models that loop in Dafny and proves what it computes:

- `rust_str.dfy` (module `RustStr`): the Rust semantics the loop relies on.
  It covers a `String` as UTF-8 bytes and `usize` subtraction in debug builds
  (panics on overflow) and release builds (wraps modulo 2^64). It also covers
  the range-from slice `&s[start..]` with `str::is_char_boundary`. A panic is
  an `Err` value naming its cause.
- `timeseries.dfy` (module `Timeseries`): the `TimeseriesResult` and
  `TimeseriesResponse` records, and the day label. The label exists exactly
  when the date has at least two bytes and its last two bytes do not start
  inside a multi-byte character. Otherwise the loop panics.
- `stats.dfy` (module `Stats`): `BuildStats`, the series as a function of the
  results (defined only when no date panics), and `CollectStats`, the loop
  itself including its panic at the first bad date.
- `dashboard.dfy` (module `Dashboard`): the `TUI` state, `TUI::new`, and the
  step from the response to the state handed to the bar chart.

Dates are byte sequences rather than characters, because Rust's `len()` and
slice indices count bytes. For a plain-ASCII date, bytes and characters
coincide (`Timeseries.AsciiDayLabel`). Visitor counts are `u64` values. The loop
only copies them, so no arithmetic on them needs a width.

Facts about the code the model keeps:

- `visitors` is a required `u64` (src/main.rs:35). There is no optional count
  and no default.
- The loop keeps no total. It only pushes pairs.
- A date the slice rejects makes the program panic. The point is not skipped.
- The pair pushed for one result is `Stats.StatOf`: the day label and the
  visitor count.

## Model

| member | source | states |
|---|---|---|
| RustStr.Sub | src/main.rs:93-94 | `len - 2` on `usize`: panics exactly when the length is below 2 in a debug build; otherwise its result plus 2 equals the length modulo 2^64, and is `len - 2` when no wrap occurs |
| RustStr.SliceFrom | src/main.rs:94 | `&date[start..]` succeeds exactly when `start` is within the string and on a character boundary; it then returns the `len - start` bytes that complete the prefix to the whole string; it panics out of bounds exactly when `start` is past the end, and for not being on a character boundary otherwise |
| Timeseries.DayLabel | src/main.rs:93-94 | the label of a sliceable date is two bytes long and is the suffix the date ends with |
| Timeseries.TryDayLabel | src/main.rs:93-94 | the label expression as evaluated succeeds exactly when the date has at least two bytes and the cut is on a character boundary, and then yields the day label; a short date panics with subtract overflow in debug and out of bounds in release, a long one with a misplaced cut panics with not-a-char-boundary |
| Timeseries.ProfilesAgree | src/main.rs:93-94 | debug and release builds panic on the same dates and give the same label otherwise |
| Timeseries.LabelDependsOnlyOnDate | src/main.rs:93-94 | two results with equal dates get equal labels, whatever their visitor counts (true by construction: the label is a function of the date alone) |
| Timeseries.AsciiDateHasDayLabel | src/main.rs:94 | a plain-ASCII date of at least two bytes never makes the slice panic |
| Timeseries.IsoDateLabelIsDay | src/main.rs:94 | a date in `YYYY-MM-DD` shape (ASCII digits, dashes at 4 and 7) never makes the slice panic, and its label is the day field after the second dash, bytes 8 and 9 |
| Timeseries.MultiByteEndingPanics | src/main.rs:94 | a four-byte date ending in a three-byte character makes the slice panic for not being on a character boundary, in either build |
| Stats.BuildStats | src/main.rs:90-95 | one entry per result; entry `i` has a two-byte label that is the suffix of `results[i].date`, and exactly `results[i].visitors` as its count |
| Stats.BuildStatsPointwise | src/main.rs:92-94 | entry `i` of the series is the pair derived from `results[i]` alone, so order is preserved |
| Stats.BuildStatsAppend | src/main.rs:90-95 | the series of two concatenated runs of results is the concatenation of their series |
| Stats.CollectStats | src/main.rs:90-95 | the loop finishes exactly when every date admits the slice, and then yields one entry per result, entry `k` being the pair derived from `results[k]` (the entries `BuildStats` has, by `Stats.BuildStatsPointwise`); otherwise it panics at a result whose predecessors all admit the slice, with the panic that result's label expression raises |
| Dashboard.New | src/main.rs:47-52 | `TUI::new(stats).stats == stats` |
| Dashboard.Prepare | src/main.rs:90-103 | the application state exists exactly when no date panics; its series then has one bar per result, in order, labelled with the date's day label and as high as its visitor count; otherwise the panic is at the first result whose date the slice rejects, with that date's panic cause |
| Dashboard.ThreeDaysScenario | src/main.rs:90-95 | the dates 2021-05-01, -02 and -03 with counts 10, 0 and 5 give the series ("01", 10), ("02", 0), ("03", 5) |

## Left out

- Command-line parsing with clap, including the `"7d"` default period (src/main.rs:56-73): library configuration with no logic of its own.
- Reading `PLAUSIBLE_TOKEN` from the environment (src/main.rs:75): process I/O.
- The HTTP request, the status check that exits with code 1, and JSON deserialization (src/main.rs:77-88): network I/O and foreign libraries. The model starts from an already deserialized `TimeseriesResponse`.
- The debug print of the series (src/main.rs:97): output to stdout. `println!` panics if the write fails (a closed pipe, say), which ends the program between the loop and `TUI::new`.
- Raw-mode terminal setup, `Terminal::new` and `clear` (src/main.rs:99-105): terminal I/O. They cannot change the series, but lines 99 and 101 can return an `io::Error` between the loop and `TUI::new`.
- The layout split and the `BarChart` widget's configuration and drawing (src/main.rs:106-131): the layout arithmetic and bar rendering live in the `tui` crate, whose source is not part of this model.
- Timeseries.DayLabel: does not state that the label is valid UTF-8, because the model does not define UTF-8 well-formedness of dates. It states only the byte-level result and the character-boundary condition the slice checks.
- Dashboard.New: the Rust series borrows its labels from the response (a `&str` tied to its lifetime). The model copies the bytes, and ownership is not modelled.
- Dashboard.Prepare: assumes the print at src/main.rs:97 and the terminal calls at 99 and 101 succeed. If the print panics or a terminal call returns an `io::Error`, the program ends before `TUI::new` even when no date panics, and the model does not represent that path.
