/**
 * The emission part of the /metrics handler: writeMetric, and the walk over the
 * parsed report that writes the driver-version line, the attached-GPUs line
 * and then, device by device, up to nineteen labelled lines. The functions
 * below say which lines a report yields; the methods write them to a Sink and
 * are proved to write exactly those.
 */
module Emitter {
  import opened Normalize
  import opened Exposition
  import opened SmiLog
  import opened Response

  const DriverVersionKey: string := "nvidiasmi_driver_version"
  const AttachedGpusKey: string := "nvidiasmi_attached_gpus"

  /** The label set shared by every line of one device. */
  function Label(g: Gpu): string
  {
    "name=\"" + g.productName + " [" + g.minorNumber + "]\"" + ", " + "uuid=\"" + g.uuid + "\""
  }

  /** What writeMetric writes for one reading: nothing when it normalises to "". */
  function MetricLines(name: string, meta: string, value: string): (ls: seq<string>)
    ensures |ls| == (if FilterNumber(value) == "" then 0 else 1)
  {
    var filtered := FilterNumber(value);
    if filtered == "" then [] else [FormatValue(name, meta, filtered)]
  }

  /** The lines of readings lo to hi - 1, each under the name at the same position. */
  function ReadingLines(names: seq<string>, meta: string, values: seq<string>, lo: nat, hi: nat): seq<string>
    requires |names| == |values| && hi <= |names|
    decreases hi
  {
    if hi <= lo then []
    else ReadingLines(names, meta, values, lo, hi - 1) + MetricLines(names[hi - 1], meta, values[hi - 1])
  }

  /** All lines of one device. */
  function DeviceLines(g: Gpu): seq<string>
  {
    ReadingLines(MetricNames, Label(g), Readings(g), 0, |Readings(g)|)
  }

  /** The lines of every device, one block per device, in report order. */
  function DeviceBlocks(gs: seq<Gpu>): (bs: seq<seq<string>>)
    ensures |bs| == |gs|
  {
    seq(|gs|, i requires 0 <= i < |gs| => DeviceLines(gs[i]))
  }

  /** Blocks lo to hi - 1, one after the other. */
  function Join(bs: seq<seq<string>>, lo: nat, hi: nat): seq<string>
    requires hi <= |bs|
    decreases hi
  {
    if hi <= lo then [] else Join(bs, lo, hi - 1) + bs[hi - 1]
  }

  /** The two unlabelled lines that open every response. */
  function HeaderLines(r: NvidiaSmiLog): seq<string>
  {
    [ FormatValue(DriverVersionKey, "", r.driverVersion),
      FormatValue(AttachedGpusKey, "", FilterNumber(r.attachedGpus)) ]
  }

  /** Every line the handler writes for the report r, in order. */
  function EmittedLines(r: NvidiaSmiLog): seq<string>
  {
    HeaderLines(r) + Join(DeviceBlocks(r.gpus), 0, |r.gpus|)
  }

  /** The response body the handler writes for the report r. */
  function Render(r: NvidiaSmiLog): string
  {
    Concat(EmittedLines(r))
  }

  /** writeMetric: normalise the reading and write its line unless the result is empty. */
  method WriteMetric(w: Sink, name: string, meta: string, value: string) returns (n: nat)
    requires w.Valid()
    modifies w
    ensures w.Valid()
    ensures w.writes == old(w.writes) + MetricLines(name, meta, value)
    ensures w.body == old(w.body) + if FilterNumber(value) == "" then ""
                                    else FormatValue(name, meta, FilterNumber(value))
    ensures n == 0 <==> FilterNumber(value) == ""
    ensures n == Utf8Length(Concat(MetricLines(name, meta, value)))
  {
    var filtered := FilterNumber(value);
    if filtered != "" {
      n := w.WriteString(FormatValue(name, meta, filtered));
      assert Concat([FormatValue(name, meta, filtered)]) == FormatValue(name, meta, filtered);
    } else {
      n := 0;
    }
  }

  /**
   * The emission part of the /metrics handler: the driver version as reported,
   * the normalised GPU count, then each device's block, into the response w.
   */
  method Metrics(w: Sink, report: NvidiaSmiLog)
    requires w.Valid()
    modifies w
    ensures w.Valid()
    ensures w.writes == old(w.writes) + EmittedLines(report)
    ensures w.body == old(w.body) + Render(report)
  {
    ghost var start := w.writes;
    WriteHeader(w, report);
    WriteDevices(w, report.gpus);
    EmittedWritten(start, report);
    ConcatAppend(start, EmittedLines(report));
  }

  /** The handler's loop: each device's block, in report order. */
  method WriteDevices(w: Sink, gpus: seq<Gpu>)
    requires w.Valid()
    modifies w
    ensures w.Valid()
    ensures w.writes == old(w.writes) + Join(DeviceBlocks(gpus), 0, |gpus|)
  {
    ghost var bs := DeviceBlocks(gpus);
    AppendNothing(old(w.writes));
    for i := 0 to |gpus|
      invariant w.Valid()
      invariant w.writes == old(w.writes) + Join(bs, 0, i)
    {
      WriteDevice(w, gpus[i]);
      DeviceBlocksStep(old(w.writes), gpus, i);
    }
  }

  /** The two unlabelled lines: the driver version as reported, then the normalised GPU count. */
  method WriteHeader(w: Sink, report: NvidiaSmiLog)
    requires w.Valid()
    modifies w
    ensures w.Valid()
    ensures w.writes == old(w.writes) + HeaderLines(report)
  {
    var written := w.WriteString(FormatValue(DriverVersionKey, "", report.driverVersion));
    written := w.WriteString(FormatValue(AttachedGpusKey, "", FilterNumber(report.attachedGpus)));
    HeaderWritten(old(w.writes), report);
  }

  /*
   * The lemmas below keep an arbitrary prefix pre on both sides of their
   * equations: the handler appends to whatever the response already holds, and
   * stating each step with that prefix in place saves the callers from
   * re-associating long sums of sequences.
   */

  /** After the two opening writes the response holds the header lines. */
  lemma HeaderWritten(pre: seq<string>, r: NvidiaSmiLog)
    ensures pre + [FormatValue(DriverVersionKey, "", r.driverVersion)]
                + [FormatValue(AttachedGpusKey, "", FilterNumber(r.attachedGpus))]
         == pre + HeaderLines(r)
  {
    var h := HeaderLines(r);
    assert [h[0]] + [h[1]] == h;
    AppendAssoc(pre, [h[0]], [h[1]]);
  }

  lemma AppendNothing<T>(s: seq<T>)
    ensures s + [] == s
  {
  }

  /** Once every device block is written, the response holds all emitted lines. */
  lemma EmittedWritten(pre: seq<string>, r: NvidiaSmiLog)
    ensures pre + HeaderLines(r) + Join(DeviceBlocks(r.gpus), 0, |r.gpus|) == pre + EmittedLines(r)
  {
    AppendAssoc(pre, HeaderLines(r), Join(DeviceBlocks(r.gpus), 0, |r.gpus|));
  }

  lemma AppendAssoc<T>(a: seq<T>, b: seq<T>, c: seq<T>)
    ensures a + b + c == a + (b + c)
  {
  }

  /** Writing device i after devices 0 to i - 1 gives devices 0 to i. */
  lemma DeviceBlocksStep(pre: seq<string>, gs: seq<Gpu>, i: nat)
    requires i < |gs|
    ensures pre + Join(DeviceBlocks(gs), 0, i) + DeviceLines(gs[i]) == pre + Join(DeviceBlocks(gs), 0, i + 1)
  {
    var bs := DeviceBlocks(gs);
    assert Join(bs, 0, i + 1) == Join(bs, 0, i) + bs[i];
    AppendAssoc(pre, Join(bs, 0, i), bs[i]);
    assert bs[i] == DeviceLines(gs[i]);
  }

  /** The body of the handler's loop: the label set of gpu, then its nineteen readings. */
  method WriteDevice(w: Sink, gpu: Gpu)
    requires w.Valid()
    modifies w
    ensures w.Valid()
    ensures w.writes == old(w.writes) + DeviceLines(gpu)
  {
    var meta := "name=\"" + gpu.productName + " [" + gpu.minorNumber + "]\"" + ", " + "uuid=\"" + gpu.uuid + "\"";
    assert meta == Label(gpu);
    ghost var start := w.writes;
    var written: nat;
    written := WriteMetric(w, FanSpeedKey, meta, gpu.fanSpeed);
    written := WriteMetric(w, MemoryUsageTotalKey, meta, gpu.fbMemoryUsage.total);
    written := WriteMetric(w, MemoryUsageUsedKey, meta, gpu.fbMemoryUsage.used);
    written := WriteMetric(w, MemoryUsageFreeKey, meta, gpu.fbMemoryUsage.free);
    written := WriteMetric(w, UtilizationGpuKey, meta, gpu.utilization.gpuUtil);
    written := WriteMetric(w, UtilizationMemoryKey, meta, gpu.utilization.memoryUtil);
    written := WriteMetric(w, TempGpuKey, meta, gpu.temperature.gpuTemp);
    written := WriteMetric(w, TempGpuMaxKey, meta, gpu.temperature.gpuTempMaxThreshold);
    written := WriteMetric(w, TempGpuSlowKey, meta, gpu.temperature.gpuTempSlowThreshold);
    written := WriteMetric(w, PowerDrawKey, meta, gpu.powerReadings.powerDraw);
    written := WriteMetric(w, PowerLimitKey, meta, gpu.powerReadings.powerLimit);
    written := WriteMetric(w, ClockGraphicsKey, meta, gpu.clocks.graphicsClock);
    written := WriteMetric(w, ClockGraphicsMaxKey, meta, gpu.maxClocks.graphicsClock);
    written := WriteMetric(w, ClockSmKey, meta, gpu.clocks.smClock);
    written := WriteMetric(w, ClockSmMaxKey, meta, gpu.maxClocks.smClock);
    written := WriteMetric(w, ClockMemKey, meta, gpu.clocks.memClock);
    written := WriteMetric(w, ClockMemMaxKey, meta, gpu.maxClocks.memClock);
    written := WriteMetric(w, ClockVideoKey, meta, gpu.clocks.videoClock);
    written := WriteMetric(w, ClockVideoMaxKey, meta, gpu.maxClocks.videoClock);
    DeviceLinesUnrolled(start, gpu);
  }

  /** DeviceLines, reading after reading, in the order the handler writes them. */
  lemma DeviceLinesUnrolled(pre: seq<string>, g: Gpu)
    ensures pre + DeviceLines(g) == pre +
      MetricLines(FanSpeedKey, Label(g), g.fanSpeed) +
      MetricLines(MemoryUsageTotalKey, Label(g), g.fbMemoryUsage.total) +
      MetricLines(MemoryUsageUsedKey, Label(g), g.fbMemoryUsage.used) +
      MetricLines(MemoryUsageFreeKey, Label(g), g.fbMemoryUsage.free) +
      MetricLines(UtilizationGpuKey, Label(g), g.utilization.gpuUtil) +
      MetricLines(UtilizationMemoryKey, Label(g), g.utilization.memoryUtil) +
      MetricLines(TempGpuKey, Label(g), g.temperature.gpuTemp) +
      MetricLines(TempGpuMaxKey, Label(g), g.temperature.gpuTempMaxThreshold) +
      MetricLines(TempGpuSlowKey, Label(g), g.temperature.gpuTempSlowThreshold) +
      MetricLines(PowerDrawKey, Label(g), g.powerReadings.powerDraw) +
      MetricLines(PowerLimitKey, Label(g), g.powerReadings.powerLimit) +
      MetricLines(ClockGraphicsKey, Label(g), g.clocks.graphicsClock) +
      MetricLines(ClockGraphicsMaxKey, Label(g), g.maxClocks.graphicsClock) +
      MetricLines(ClockSmKey, Label(g), g.clocks.smClock) +
      MetricLines(ClockSmMaxKey, Label(g), g.maxClocks.smClock) +
      MetricLines(ClockMemKey, Label(g), g.clocks.memClock) +
      MetricLines(ClockMemMaxKey, Label(g), g.maxClocks.memClock) +
      MetricLines(ClockVideoKey, Label(g), g.clocks.videoClock) +
      MetricLines(ClockVideoMaxKey, Label(g), g.maxClocks.videoClock)
  {
    ReadingLinesUnrolled(pre, MetricNames, Label(g), Readings(g));
  }

  lemma ReadingLinesUnrolled(pre: seq<string>, names: seq<string>, meta: string, values: seq<string>)
    requires |names| == |values| >= 19
    ensures pre + ReadingLines(names, meta, values, 0, 19) == pre +
      MetricLines(names[0], meta, values[0]) +
      MetricLines(names[1], meta, values[1]) +
      MetricLines(names[2], meta, values[2]) +
      MetricLines(names[3], meta, values[3]) +
      MetricLines(names[4], meta, values[4]) +
      MetricLines(names[5], meta, values[5]) +
      MetricLines(names[6], meta, values[6]) +
      MetricLines(names[7], meta, values[7]) +
      MetricLines(names[8], meta, values[8]) +
      MetricLines(names[9], meta, values[9]) +
      MetricLines(names[10], meta, values[10]) +
      MetricLines(names[11], meta, values[11]) +
      MetricLines(names[12], meta, values[12]) +
      MetricLines(names[13], meta, values[13]) +
      MetricLines(names[14], meta, values[14]) +
      MetricLines(names[15], meta, values[15]) +
      MetricLines(names[16], meta, values[16]) +
      MetricLines(names[17], meta, values[17]) +
      MetricLines(names[18], meta, values[18])
  {
    assert ReadingLines(names, meta, values, 0, 1) == MetricLines(names[0], meta, values[0]);
    ReadingLinesStep(pre, names, meta, values, 1);
    ReadingLinesStep(pre, names, meta, values, 2);
    ReadingLinesStep(pre, names, meta, values, 3);
    ReadingLinesFour(pre, names, meta, values, 4);
    ReadingLinesFour(pre, names, meta, values, 8);
    ReadingLinesFour(pre, names, meta, values, 12);
    ReadingLinesStep(pre, names, meta, values, 16);
    ReadingLinesStep(pre, names, meta, values, 17);
    ReadingLinesStep(pre, names, meta, values, 18);
  }

  lemma ReadingLinesStep(pre: seq<string>, names: seq<string>, meta: string, values: seq<string>, k: nat)
    requires |names| == |values| && k < |names|
    ensures pre + ReadingLines(names, meta, values, 0, k + 1)
         == pre + ReadingLines(names, meta, values, 0, k) + MetricLines(names[k], meta, values[k])
  {
  }

  lemma ReadingLinesFour(pre: seq<string>, names: seq<string>, meta: string, values: seq<string>, k: nat)
    requires |names| == |values| && k + 4 <= |names|
    ensures pre + ReadingLines(names, meta, values, 0, k + 4) ==
      pre + ReadingLines(names, meta, values, 0, k) + MetricLines(names[k], meta, values[k]) +
      MetricLines(names[k + 1], meta, values[k + 1]) + MetricLines(names[k + 2], meta, values[k + 2]) +
      MetricLines(names[k + 3], meta, values[k + 3])
  {
    ReadingLinesStep(pre, names, meta, values, k);
    ReadingLinesStep(pre, names, meta, values, k + 1);
    ReadingLinesStep(pre, names, meta, values, k + 2);
    ReadingLinesStep(pre, names, meta, values, k + 3);
  }
}
