# nvidia-smi Prometheus exporter: the emission core

This Dafny project models the part of the exporter (`src/app.go`) that turns a
parsed nvidia-smi report into Prometheus text exposition lines on the
`/metrics` response. The handler writes these lines, in this order:

- the driver version, exactly as reported;
- the number of attached GPUs, reduced to its digits and dots;
- then, for each GPU in report order, up to nineteen lines that share one
  label set, `name="<product name> [<minor number>]", uuid="<uuid>"`.

A per-device reading whose normalised value is empty writes no line at all.

## Files

- `normalize.dfy` (module `Normalize`): `filterNumber` as a character filter
  that keeps `0`-`9` and `.`. It is characterised as the unique numeric
  subsequence of maximal length, with its multiplicities, idempotence and
  distribution over concatenation.
- `exposition.dfy` (module `Exposition`):
  - `formatValue` (one `key{meta} value\n` line);
  - a parser for such lines, with round trips in both directions;
  - line-break counting.
- `smi_log.dfy` (module `SmiLog`):
  - the report record `NvidiaSmiLog` and its nested groups;
  - the nineteen per-device metric names;
  - the reading behind each name.
- `response.dfy` (module `Response`): the response writer as a `Sink` class.
  - `body` is the text written so far.
  - The ghost field `writes` lists the strings written, one per call.
  - A write reports the UTF-8 length of what it wrote.
- `emitter.dfy` (module `Emitter`):
  - `writeMetric` and the handler's loop, as methods on the `Sink`;
  - the pure functions they are proved against (`EmittedLines`, `Render`).
- `emission_properties.dfy` (module `EmissionProperties`): what the emitted
  response promises, proved about those functions:
  - which line carries which reading, and in which order;
  - the line count;
  - the two opening lines;
  - the effect of one missing reading;
  - line breaks;
  - parsing every line back;
  - concrete examples.

The emission is a function of the report alone. `Emitter.Metrics` appends
exactly `Render(report)` to the response, so the same report always yields
the same text.

Two details of the output:

- The code writes nineteen per-device metrics. The four clocks
  each come as a current and a `_max` pair, and there are three temperatures
  (src/app.go:117-135).
- The GPU-count line has a single space between name and value
  (`nvidiasmi_attached_gpus 2`), because it goes through `formatValue` like
  every other line (src/app.go:113). That line is also written when the
  normalised count is empty.

## Model

| member | source | states |
|---|---|---|
| SmiLog.Readings | src/app.go:18-61 | The nineteen raw readings of a device (fields of the `Gpu` record and its nested groups of the report record `NvidiaSmiLog`), at the positions of their metric names in `MetricNames`; there are exactly as many readings as names (19) |
| Normalize.FilterNumber | src/app.go:71-74 | The result holds only digits and dots and is never longer than the input |
| Normalize.FilterIsSubsequence | src/app.go:71-74 | The result is a subsequence of the input, in the input's order |
| Normalize.FilterLength | src/app.go:71-74 | The result is exactly as long as the number of digits and dots in the input |
| Normalize.NumericSubsequenceBound | src/app.go:71-74 | No all-numeric subsequence of the input is longer than its count of digits and dots |
| Normalize.FilterUnique | src/app.go:71-74 | Any all-numeric subsequence of maximal length is the result, so the result is the digit-and-dot subsequence of the input |
| Normalize.FilterMultiplicity | src/app.go:71-74 | Every digit or dot occurs as often in the result as in the input; every other character does not occur |
| Normalize.FilterEmptyIff | src/app.go:71-74 | The result is empty exactly when the input holds no digit or dot |
| Normalize.FilterIdentity | src/app.go:71-74 | An input made only of digits and dots is returned unchanged |
| Normalize.FilterIdempotent | src/app.go:71-74 | Filtering twice gives the same as filtering once |
| Normalize.FilterConcat | src/app.go:71-74 | Filtering distributes over concatenation |
| Exposition.FormatValue | src/app.go:63-69 | The line starts with the key, ends with a newline, and is as long as key, labels with braces (only when there are labels), space, value and newline |
| EmissionProperties.FormatLabelled | src/app.go:63-69 | Without labels the line is `key value\n`; with labels it is `key{meta} value\n` |
| Exposition.ParseFormat | src/app.go:63-69 | A line formatted from a key without `{` and a value without a space parses back to the same key, labels and value |
| Exposition.FormatParse | src/app.go:63-69 | Conversely, every line that parses is the formatting of its parts |
| Exposition.FormatValueNewlines | src/app.go:63-69 | The formatter adds exactly one line break to those already in key, labels and value |
| Response.Utf8Length | src/app.go:80 | The byte count a write reports is at least the number of characters and at most four times that |
| Response.Sink.WriteString | src/app.go:80 | A write appends the string to the body, records it as one write, and reports its UTF-8 length |
| Emitter.Label | src/app.go:115 | Defines the label set of one device: `name="<product name> [<minor number>]", uuid="<uuid>"` (its properties are `EmissionProperties.LabelNonEmpty` and `EmissionProperties.LabelNoNewline`) |
| Emitter.HeaderLines | src/app.go:112-113 | Defines the two opening lines: the driver version as reported, without labels, then the normalised GPU count, without labels |
| Emitter.DeviceLines | src/app.go:117-135 | Defines a device's block: the conditional lines of its nineteen readings, in the order of `MetricNames`, under the device's label set |
| Emitter.EmittedLines | src/app.go:112-136 | Defines every line of the response: the two opening lines, then each device's block in report order |
| Emitter.Render | src/app.go:112-136 | Defines the response body: the emitted lines one after the other |
| Emitter.MetricLines | src/app.go:76-84 | A reading yields one line when its normalised value is non-empty, and none otherwise |
| Emitter.WriteMetric | src/app.go:76-84 | Writes nothing and returns 0 exactly when the normalised value is empty; otherwise it writes exactly the formatted line with the normalised value and returns its byte length |
| Emitter.WriteDevice | src/app.go:115-135 | The loop body writes exactly the device's lines (`DeviceLines`), under the device's label set |
| Emitter.DeviceLinesUnrolled | src/app.go:117-135 | A device's lines are the nineteen conditional lines, in the handler's fixed order of names and fields |
| Emitter.WriteHeader | src/app.go:112-113 | The two unlabelled writes append exactly `HeaderLines(report)` |
| Emitter.WriteDevices | src/app.go:114-136 | The loop over the devices appends exactly their blocks, one after the other, in report order |
| Emitter.Metrics | src/app.go:112-136 | The handler appends exactly the lines `EmittedLines(report)` to the response, one write per line, and the body grows by `Render(report)` |
| EmissionProperties.RenderOpening | src/app.go:112-113 | The first line is `nvidiasmi_driver_version <raw version>`, the second is `nvidiasmi_attached_gpus <normalised count>`, both always written, and the body is these two followed by the device lines |
| EmissionProperties.AttachedGpusLineParse | src/app.go:113 | The GPU-count line reads back with no labels and the normalised count |
| EmissionProperties.FilterCountExample | src/app.go:113 | A raw count of `"2 "` normalises to `"2"` |
| EmissionProperties.AttachedGpusExample | src/app.go:113 | A raw count of `"2 "` is written as `nvidiasmi_attached_gpus 2` followed by a newline |
| EmissionProperties.PresentIndices | src/app.go:117-135 | The positions of the readings that survive normalisation: at most one per position, all within range |
| EmissionProperties.PresentIndicesSurvive | src/app.go:117-135 | Every listed reading normalises to a non-empty value |
| EmissionProperties.PresentIndicesIncreasing | src/app.go:117-135 | The positions are listed in strictly increasing order |
| EmissionProperties.PresentIndicesComplete | src/app.go:117-135 | Every reading that normalises to a non-empty value is listed |
| EmissionProperties.ReadingLinesByIndex | src/app.go:117-135 | Line j of a block of readings is the formatted line of the j-th surviving reading, under that reading's own name and with its normalised value |
| EmissionProperties.DeviceLinesParse | src/app.go:115-135 | Every device line parses back to its metric name, the device's label set and the normalised reading, in name order |
| EmissionProperties.NoBraceInNames | src/app.go:117-135 | No metric name holds a `{` or a line break, so the lines can be read back unambiguously |
| EmissionProperties.LabelNonEmpty | src/app.go:115 | The device label set is never empty, so device lines always carry braces |
| EmissionProperties.GpusLinesCount | src/app.go:114-136 | The devices before position hi yield one line per surviving reading, at most 19 per device |
| EmissionProperties.LineCount | src/app.go:112-136 | The response has 2 lines plus one per surviving per-device reading, and at most 2 + 19 × the number of GPUs |
| EmissionProperties.ReadingLinesSplit | src/app.go:117-135 | The lines of a block of readings split at any position |
| EmissionProperties.ReadingLinesAgree | src/app.go:117-135 | Readings that agree on a range yield the same lines there |
| EmissionProperties.ReadingDropped | src/app.go:76-84 | Within one device, a reading replaced by one that normalises to empty loses exactly its own line, if it had one, and nothing else changes |
| EmissionProperties.DeviceDropped | src/app.go:115-135 | The same for a whole device that differs from another only in that reading |
| EmissionProperties.DeviceReplaced | src/app.go:114-136 | Replacing one device changes only that device's block of lines in the response |
| EmissionProperties.ReadingSkipped | src/app.go:114-136 | Over the whole response, a per-device reading that becomes empty removes exactly its line past the two opening lines, if it had one, and leaves every other line in place and in order |
| EmissionProperties.HeaderNewlines | src/app.go:112-113 | When the driver version holds no line break, each of the two opening lines holds exactly one |
| EmissionProperties.RenderNewlines | src/app.go:112-136 | When the driver version and the device identities hold no line break, the body holds exactly one line break per written line |
| EmissionProperties.FanSpeedExample | src/app.go:115-117 | A fan speed of `"34 %"` becomes the device's first line, `nvidiasmi_fan_speed{<labels>} 34` |
| EmissionProperties.FilterExample | src/app.go:71-74 | `"34 %"` normalises to `"34"` |
| EmissionProperties.FilterPointExample | src/app.go:71-74 | `"70.5 W"` normalises to `"70.5"`, keeping the decimal point |
| EmissionProperties.FilterUnavailableExample | src/app.go:71-74 | `"N/A"` normalises to the empty string, so such a reading writes no line |

## Left out

- Running `nvidia-smi` or `/bin/cat test.xml`, `os.Getwd`, the `TEST_MODE` switch and the error path when the command fails (src/app.go:89-105). These are process and OS I/O; the model starts from the parsed report.
- XML decoding (`xml.Unmarshal`, src/app.go:109). It is a library call whose error is ignored; the report datatype is the model's input.
- The regular-expression engine (src/app.go:72). `FilterNumber` is the character filter the pattern `[^0-9.]` denotes, over Unicode scalar values. An invalid UTF-8 byte, which Go reads as U+FFFD, is also removed; that is not modelled at the byte level.
- The HTTP routing, the index page, `ListenAndServe` and logging (src/app.go:86-87, 139-165). This is plumbing around the core.
- Write errors. `io.WriteString`'s error is ignored by the handler, and `writeMetric` returns `nil` when it writes nothing. The `Sink` never fails, so `WriteMetric` returns only the byte count.
- `ProductBrand` and `PCI.PCIBus` (src/app.go:23, 27-29). They are decoded but never emitted.
- No escaping of the label values is done, as in the source. A product name holding `"` or a line break yields a malformed line. `EmissionProperties.RenderNewlines` therefore assumes the device identities hold no line break.
- `ParseLine` is a reader for the lines this exporter writes. It is not a full Prometheus exposition parser (no comments, escapes or timestamps).
