/**
 * What the emitted response promises: its first two lines, how many lines it
 * has, which reading each per-device line carries and in which order, what
 * happens when one reading is missing, and that every line can be read back.
 */
module EmissionProperties {
  import opened Wrappers
  import opened Normalize
  import opened Exposition
  import opened SmiLog
  import opened Response
  import opened Emitter

  /** The positions in lo to hi - 1 of the readings that survive normalisation, in increasing order. */
  function PresentIndices(values: seq<string>, lo: nat, hi: nat): (ks: seq<nat>)
    requires hi <= |values|
    decreases hi
    ensures lo <= hi ==> |ks| <= hi - lo
    ensures forall j :: 0 <= j < |ks| ==> lo <= ks[j] < hi
  {
    if hi <= lo then []
    else PresentIndices(values, lo, hi - 1) + if FilterNumber(values[hi - 1]) != "" then [hi - 1] else []
  }

  /** Every position in ks is a reading of values that survives normalisation. */
  ghost predicate AllSurvive(values: seq<string>, ks: seq<nat>)
  {
    forall j :: 0 <= j < |ks| ==> ks[j] < |values| && FilterNumber(values[ks[j]]) != ""
  }

  /** The positions in ks are strictly increasing, so each appears once. */
  ghost predicate Increasing(ks: seq<nat>)
  {
    forall j, j' :: 0 <= j < j' < |ks| ==> ks[j] < ks[j']
  }

  /** Every listed reading survives normalisation. */
  lemma {:induction false} PresentIndicesSurvive(values: seq<string>, lo: nat, hi: nat)
    requires hi <= |values|
    decreases hi
    ensures AllSurvive(values, PresentIndices(values, lo, hi))
  {
    if lo < hi {
      var n := hi - 1;
      PresentIndicesSurvive(values, lo, n);
      var ks0 := PresentIndices(values, lo, n);
      if FilterNumber(values[n]) != "" {
        assert PresentIndices(values, lo, hi) == ks0 + [n];
        SurviveStep(values, ks0, n);
      } else {
        assert PresentIndices(values, lo, hi) == ks0 + [];
        AppendNothing(ks0);
      }
    }
  }

  lemma SurviveStep(values: seq<string>, ks: seq<nat>, n: nat)
    requires AllSurvive(values, ks) && n < |values| && FilterNumber(values[n]) != ""
    ensures AllSurvive(values, ks + [n])
  {
    var ks' := ks + [n];
    forall j | 0 <= j < |ks'| ensures ks'[j] < |values| && FilterNumber(values[ks'[j]]) != "" {
      if j < |ks| {
        assert ks'[j] == ks[j];
      }
    }
  }

  /** The positions are listed in increasing order, each once. */
  lemma {:induction false} PresentIndicesIncreasing(values: seq<string>, lo: nat, hi: nat)
    requires hi <= |values|
    decreases hi
    ensures Increasing(PresentIndices(values, lo, hi))
  {
    if lo < hi {
      var n := hi - 1;
      PresentIndicesIncreasing(values, lo, n);
      var ks0 := PresentIndices(values, lo, n);
      if FilterNumber(values[n]) != "" {
        assert PresentIndices(values, lo, hi) == ks0 + [n];
        IncreasingStep(ks0, n);
      } else {
        assert PresentIndices(values, lo, hi) == ks0 + [];
        AppendNothing(ks0);
      }
    }
  }

  lemma IncreasingStep(ks: seq<nat>, n: nat)
    requires Increasing(ks) && forall j :: 0 <= j < |ks| ==> ks[j] < n
    ensures Increasing(ks + [n])
  {
    var ks' := ks + [n];
    forall j, j' | 0 <= j < j' < |ks'| ensures ks'[j] < ks'[j'] {
      assert ks'[j] == ks[j];
      if j' < |ks| {
        assert ks'[j'] == ks[j'];
      }
    }
  }

  /** Every reading in lo to hi - 1 that survives normalisation is listed. */
  lemma {:induction false} PresentIndicesComplete(values: seq<string>, lo: nat, hi: nat)
    requires hi <= |values|
    decreases hi
    ensures var ks := PresentIndices(values, lo, hi);
      forall k :: lo <= k < hi && FilterNumber(values[k]) != "" ==> k in ks
  {
    if lo < hi {
      var n := hi - 1;
      PresentIndicesComplete(values, lo, n);
      var ks0 := PresentIndices(values, lo, n);
      if FilterNumber(values[n]) != "" {
        assert PresentIndices(values, lo, hi) == ks0 + [n];
      } else {
        AppendNothing(ks0);
        assert PresentIndices(values, lo, hi) == ks0;
      }
    }
  }

  /**
   * The lines of a block of readings are, in order, one line per surviving
   * reading, under that reading's own name, carrying its normalised value.
   */
  lemma {:induction false} ReadingLinesByIndex(names: seq<string>, meta: string, values: seq<string>, lo: nat, hi: nat)
    requires |names| == |values| && hi <= |names|
    decreases hi
    ensures ByIndex(names, meta, values, lo, hi)
  {
    if lo < hi {
      ReadingLinesByIndex(names, meta, values, lo, hi - 1);
      if FilterNumber(values[hi - 1]) == "" {
        ByIndexSkip(names, meta, values, lo, hi);
      } else {
        ByIndexKeep(names, meta, values, lo, hi);
      }
    }
  }

  /**
   * The lines of readings lo to hi - 1 are, in order, one line per surviving
   * reading, under that reading's own name, carrying its normalised value.
   */
  ghost predicate ByIndex(names: seq<string>, meta: string, values: seq<string>, lo: nat, hi: nat)
    requires |names| == |values| && hi <= |names|
  {
    LinesAt(names, meta, values, ReadingLines(names, meta, values, lo, hi), PresentIndices(values, lo, hi))
  }

  /** Line j of ls is the line of reading ks[j]. */
  ghost predicate LinesAt(names: seq<string>, meta: string, values: seq<string>, ls: seq<string>, ks: seq<nat>)
  {
    && |names| == |values| && |ls| == |ks|
    && (forall j :: 0 <= j < |ks| ==> ks[j] < |names|)
    && forall j :: 0 <= j < |ls| ==> ls[j] == FormatValue(names[ks[j]], meta, FilterNumber(values[ks[j]]))
  }

  lemma ByIndexSkip(names: seq<string>, meta: string, values: seq<string>, lo: nat, hi: nat)
    requires |names| == |values| && lo < hi <= |names|
    requires FilterNumber(values[hi - 1]) == ""
    requires ByIndex(names, meta, values, lo, hi - 1)
    ensures ByIndex(names, meta, values, lo, hi)
  {
    var ls0, ks0 := ReadingLines(names, meta, values, lo, hi - 1), PresentIndices(values, lo, hi - 1);
    AppendNothing(ls0);
    AppendNothing(ks0);
    assert ReadingLines(names, meta, values, lo, hi) == ls0;
    assert PresentIndices(values, lo, hi) == ks0;
  }

  lemma ByIndexKeep(names: seq<string>, meta: string, values: seq<string>, lo: nat, hi: nat)
    requires |names| == |values| && lo < hi <= |names|
    requires FilterNumber(values[hi - 1]) != ""
    requires ByIndex(names, meta, values, lo, hi - 1)
    ensures ByIndex(names, meta, values, lo, hi)
  {
    var n := hi - 1;
    var ls0, ks0 := ReadingLines(names, meta, values, lo, n), PresentIndices(values, lo, n);
    KeptLast(names, meta, values, lo, hi);
    ByIndexStep(names, meta, values, ls0, ks0, n);
  }

  lemma KeptLast(names: seq<string>, meta: string, values: seq<string>, lo: nat, hi: nat)
    requires |names| == |values| && lo < hi <= |names|
    requires FilterNumber(values[hi - 1]) != ""
    ensures ReadingLines(names, meta, values, lo, hi)
         == ReadingLines(names, meta, values, lo, hi - 1) + [FormatValue(names[hi - 1], meta, FilterNumber(values[hi - 1]))]
    ensures PresentIndices(values, lo, hi) == PresentIndices(values, lo, hi - 1) + [hi - 1]
  {
  }

  lemma ByIndexStep(names: seq<string>, meta: string, values: seq<string>, ls: seq<string>, ks: seq<nat>, n: nat)
    requires n < |names| && LinesAt(names, meta, values, ls, ks)
    ensures LinesAt(names, meta, values, ls + [FormatValue(names[n], meta, FilterNumber(values[n]))], ks + [n])
  {
  }

  /** The readings of one device that survive normalisation, by position in MetricNames. */
  function DevicePresent(g: Gpu): seq<nat>
  {
    PresentIndices(Readings(g), 0, |Readings(g)|)
  }

  /** How many per-device readings of devices lo to hi - 1 survive normalisation. */
  function PresentCount(gs: seq<Gpu>, lo: nat, hi: nat): nat
    requires hi <= |gs|
    decreases hi
  {
    if hi <= lo then 0 else PresentCount(gs, lo, hi - 1) + |DevicePresent(gs[hi - 1])|
  }

  lemma {:induction false} GpusLinesCount(gs: seq<Gpu>, hi: nat)
    requires hi <= |gs|
    ensures |Join(DeviceBlocks(gs), 0, hi)| == PresentCount(gs, 0, hi) <= 19 * hi
  {
    if 0 < hi {
      var n := hi - 1;
      var bs := DeviceBlocks(gs);
      GpusLinesCount(gs, n);
      ReadingLinesByIndex(MetricNames, Label(gs[n]), Readings(gs[n]), 0, |Readings(gs[n])|);
      assert |bs[n]| == |DevicePresent(gs[n])| <= 19;
      assert |Join(bs, 0, hi)| == |Join(bs, 0, n)| + |bs[n]|;
    }
  }

  /**
   * The response has the two unlabelled lines plus one line per reading that
   * survives normalisation, hence at most 2 + 19 lines per device.
   */
  lemma LineCount(r: NvidiaSmiLog)
    ensures |EmittedLines(r)| == 2 + PresentCount(r.gpus, 0, |r.gpus|)
    ensures |EmittedLines(r)| <= 2 + 19 * |r.gpus|
  {
    GpusLinesCount(r.gpus, |r.gpus|);
  }

  /**
   * The body opens with the driver version exactly as reported, then the
   * normalised GPU count; both lines are written even when their value is empty.
   */
  lemma RenderOpening(r: NvidiaSmiLog)
    ensures EmittedLines(r)[0] == DriverVersionKey + " " + r.driverVersion + "\n"
    ensures EmittedLines(r)[1] == AttachedGpusKey + " " + FilterNumber(r.attachedGpus) + "\n"
    ensures Render(r) == EmittedLines(r)[0] + EmittedLines(r)[1] + Concat(Join(DeviceBlocks(r.gpus), 0, |r.gpus|))
  {
    var h := HeaderLines(r);
    ConcatAppend(h, Join(DeviceBlocks(r.gpus), 0, |r.gpus|));
    assert h[..1][..0] == [];
    assert Concat(h[..1]) == h[0];
    assert Concat(h) == Concat(h[..1]) + h[1];
  }

  /** Every per-device line names its metric, carries the device's labels and a bare number. */
  lemma DeviceLinesParse(g: Gpu)
    ensures var ls, ks := DeviceLines(g), DevicePresent(g);
      && |ls| == |ks|
      && forall j :: 0 <= j < |ls| ==>
           ParseLine(ls[j]) == Some(Sample(MetricNames[ks[j]], Label(g), FilterNumber(Readings(g)[ks[j]])))
  {
    var ls, ks := DeviceLines(g), DevicePresent(g);
    ReadingLinesByIndex(MetricNames, Label(g), Readings(g), 0, |Readings(g)|);
    forall j | 0 <= j < |ls|
      ensures ParseLine(ls[j]) == Some(Sample(MetricNames[ks[j]], Label(g), FilterNumber(Readings(g)[ks[j]])))
    {
      var k := ks[j];
      NoBraceInNames(k);
      NumericHasNoSpace(FilterNumber(Readings(g)[k]));
      ParseFormat(MetricNames[k], Label(g), FilterNumber(Readings(g)[k]));
    }
  }

  /** The GPU-count line reads back with no labels and the normalised count, possibly empty. */
  lemma AttachedGpusLineParse(r: NvidiaSmiLog)
    ensures ParseLine(EmittedLines(r)[1]) == Some(Sample(AttachedGpusKey, "", FilterNumber(r.attachedGpus)))
  {
    NumericHasNoSpace(FilterNumber(r.attachedGpus));
    ParseFormat(AttachedGpusKey, "", FilterNumber(r.attachedGpus));
  }

  /** No metric name holds a '{' or a line break. */
  lemma NoBraceInNames(k: nat)
    requires k < |MetricNames|
    ensures '{' !in MetricNames[k] && '\n' !in MetricNames[k]
  {
    PlainNames0();
    PlainNames1();
    PlainNames2();
    PlainNames3();
    PlainNames4();
    PlainNames5();
    PlainNames6();
  }

  lemma PlainNames0()
    ensures '{' !in FanSpeedKey && '\n' !in FanSpeedKey
         && '{' !in MemoryUsageTotalKey && '\n' !in MemoryUsageTotalKey
         && '{' !in MemoryUsageUsedKey && '\n' !in MemoryUsageUsedKey
  {
  }

  lemma PlainNames1()
    ensures '{' !in MemoryUsageFreeKey && '\n' !in MemoryUsageFreeKey
         && '{' !in UtilizationGpuKey && '\n' !in UtilizationGpuKey
         && '{' !in UtilizationMemoryKey && '\n' !in UtilizationMemoryKey
  {
  }

  lemma PlainNames2()
    ensures '{' !in TempGpuKey && '\n' !in TempGpuKey
         && '{' !in TempGpuMaxKey && '\n' !in TempGpuMaxKey
         && '{' !in TempGpuSlowKey && '\n' !in TempGpuSlowKey
  {
  }

  lemma PlainNames3()
    ensures '{' !in PowerDrawKey && '\n' !in PowerDrawKey
         && '{' !in PowerLimitKey && '\n' !in PowerLimitKey
         && '{' !in ClockGraphicsKey && '\n' !in ClockGraphicsKey
  {
  }

  lemma PlainNames4()
    ensures '{' !in ClockGraphicsMaxKey && '\n' !in ClockGraphicsMaxKey
         && '{' !in ClockSmKey && '\n' !in ClockSmKey
         && '{' !in ClockSmMaxKey && '\n' !in ClockSmMaxKey
  {
  }

  lemma PlainNames5()
    ensures '{' !in ClockMemKey && '\n' !in ClockMemKey
         && '{' !in ClockMemMaxKey && '\n' !in ClockMemMaxKey
         && '{' !in ClockVideoKey && '\n' !in ClockVideoKey
  {
  }

  lemma PlainNames6()
    ensures '{' !in ClockVideoMaxKey && '\n' !in ClockVideoMaxKey
  {
  }

  lemma NumericHasNoSpace(s: string)
    requires AllNumeric(s)
    ensures ' ' !in s && '\n' !in s
  {
  }

  /** A block of readings splits at any position. */
  lemma {:induction false} ReadingLinesSplit(names: seq<string>, meta: string, values: seq<string>, lo: nat, mid: nat, hi: nat)
    requires |names| == |values| && lo <= mid <= hi <= |names|
    decreases hi
    ensures ReadingLines(names, meta, values, lo, hi)
         == ReadingLines(names, meta, values, lo, mid) + ReadingLines(names, meta, values, mid, hi)
  {
    var a := ReadingLines(names, meta, values, lo, mid);
    if mid == hi {
      assert ReadingLines(names, meta, values, mid, hi) == [];
      AppendNothing(a);
    } else {
      ReadingLinesSplit(names, meta, values, lo, mid, hi - 1);
      SplitExtend(ReadingLines(names, meta, values, lo, hi), ReadingLines(names, meta, values, lo, hi - 1), a,
        ReadingLines(names, meta, values, mid, hi - 1), ReadingLines(names, meta, values, mid, hi),
        MetricLines(names[hi - 1], meta, values[hi - 1]));
    }
  }

  /** One more part at the end of a split whole extends its right-hand side. */
  lemma SplitExtend(whole: seq<string>, whole0: seq<string>, left: seq<string>, right0: seq<string>, right: seq<string>, m: seq<string>)
    requires whole0 == left + right0 && whole == whole0 + m && right == right0 + m
    ensures whole == left + right
  {
    AppendAssoc(left, right0, m);
  }

  /** Blocks of readings that agree from lo to hi - 1 yield the same lines there. */
  lemma {:induction false} ReadingLinesAgree(names: seq<string>, meta: string, values: seq<string>, values': seq<string>, lo: nat, hi: nat)
    requires |names| == |values| == |values'| && hi <= |names|
    requires forall k :: lo <= k < hi ==> values[k] == values'[k]
    decreases hi
    ensures ReadingLines(names, meta, values, lo, hi) == ReadingLines(names, meta, values', lo, hi)
  {
    if lo < hi {
      ReadingLinesAgree(names, meta, values, values', lo, hi - 1);
    }
  }

  /** The reading at position k contributes its own lines between those before and after it. */
  lemma ReadingLinesAt(names: seq<string>, meta: string, values: seq<string>, k: nat)
    requires |names| == |values| && k < |names|
    ensures ReadingLines(names, meta, values, 0, |names|)
         == ReadingLines(names, meta, values, 0, k) + MetricLines(names[k], meta, values[k])
            + ReadingLines(names, meta, values, k + 1, |names|)
  {
    var n := |names|;
    var m := MetricLines(names[k], meta, values[k]);
    ReadingLinesSplit(names, meta, values, 0, k, n);
    ReadingLinesSplit(names, meta, values, k, k + 1, n);
    PrependEmpty(m);
    assert ReadingLines(names, meta, values, k, k + 1) == m;
    AppendAssoc(ReadingLines(names, meta, values, 0, k), m, ReadingLines(names, meta, values, k + 1, n));
  }

  /**
   * Within one device: replacing reading k by one that normalises to "" removes
   * exactly the line of reading k, if it had one, and leaves every other line.
   */
  lemma ReadingDropped(names: seq<string>, meta: string, values: seq<string>, k: nat, v: string)
    requires |names| == |values| && k < |values| && FilterNumber(v) == ""
    ensures var n := |names|;
      var before, after := ReadingLines(names, meta, values, 0, n), ReadingLines(names, meta, values[k := v], 0, n);
      var p := |ReadingLines(names, meta, values, 0, k)|;
      && (FilterNumber(values[k]) == "" ==> after == before)
      && (FilterNumber(values[k]) != "" ==>
            && p < |before|
            && before[p] == FormatValue(names[k], meta, FilterNumber(values[k]))
            && after == before[..p] + before[p + 1..])
  {
    var n := |names|;
    var values' := values[k := v];
    ReadingLinesAt(names, meta, values, k);
    ReadingLinesAt(names, meta, values', k);
    ReadingLinesAgree(names, meta, values, values', 0, k);
    ReadingLinesAgree(names, meta, values, values', k + 1, n);
    assert MetricLines(names[k], meta, values'[k]) == [];
    DropMiddle(ReadingLines(names, meta, values, 0, n), ReadingLines(names, meta, values', 0, n),
      ReadingLines(names, meta, values, 0, k), MetricLines(names[k], meta, values[k]),
      ReadingLines(names, meta, values, k + 1, n),
      FilterNumber(values[k]) != "", FormatValue(names[k], meta, FilterNumber(values[k])));
  }

  /** When the middle part m of pre + m + post is either nothing or one line, dropping it removes just that line. */
  lemma DropMiddle(before: seq<string>, after: seq<string>, pre: seq<string>, m: seq<string>, post: seq<string>,
                   present: bool, line: string)
    requires before == pre + m + post && after == pre + [] + post
    requires !present ==> m == []
    requires present ==> m == [line]
    ensures !present ==> after == before
    ensures present ==> |pre| < |before| && before[|pre|] == line && after == before[..|pre|] + before[|pre| + 1..]
  {
    if present {
      assert before[..|pre|] == pre;
      assert before[|pre| + 1..] == post;
    }
  }

  /** A sequence of blocks splits at any block. */
  lemma {:induction false} JoinSplit(bs: seq<seq<string>>, lo: nat, mid: nat, hi: nat)
    requires lo <= mid <= hi <= |bs|
    decreases hi
    ensures Join(bs, lo, hi) == Join(bs, lo, mid) + Join(bs, mid, hi)
  {
    if mid < hi {
      JoinSplit(bs, lo, mid, hi - 1);
      AppendAssoc(Join(bs, lo, mid), Join(bs, mid, hi - 1), bs[hi - 1]);
    }
  }

  /** Blocks that agree from lo to hi - 1 join to the same lines. */
  lemma {:induction false} JoinAgree(bs: seq<seq<string>>, bs': seq<seq<string>>, lo: nat, hi: nat)
    requires hi <= |bs| == |bs'|
    requires forall i :: lo <= i < hi ==> bs[i] == bs'[i]
    decreases hi
    ensures Join(bs, lo, hi) == Join(bs', lo, hi)
  {
    if lo < hi {
      JoinAgree(bs, bs', lo, hi - 1);
    }
  }

  lemma PrependEmpty(a: seq<string>)
    ensures [] + a == a
  {
  }

  /** Block i sits between the blocks before it and the blocks after it. */
  lemma JoinAt(bs: seq<seq<string>>, i: nat)
    requires i < |bs|
    ensures Join(bs, 0, |bs|) == Join(bs, 0, i) + bs[i] + Join(bs, i + 1, |bs|)
  {
    var n := |bs|;
    JoinSplit(bs, 0, i, n);
    JoinSplit(bs, i, i + 1, n);
    PrependEmpty(bs[i]);
    assert Join(bs, i, i + 1) == bs[i];
    AppendAssoc(Join(bs, 0, i), bs[i], Join(bs, i + 1, n));
  }

  /**
   * Over the whole response: when device i is replaced by one that differs only
   * in reading k, and that reading now normalises to "", exactly the line of
   * reading k of device i disappears (if there was one); every other line of
   * the response stays, in the same order.
   */
  lemma ReadingSkipped(r: NvidiaSmiLog, i: nat, g': Gpu, k: nat)
    requires i < |r.gpus| && k < |MetricNames|
    requires g'.productName == r.gpus[i].productName
    requires g'.minorNumber == r.gpus[i].minorNumber
    requires g'.uuid == r.gpus[i].uuid
    requires Readings(g') == Readings(r.gpus[i])[k := Readings(g')[k]]
    requires FilterNumber(Readings(g')[k]) == ""
    ensures var before, after := EmittedLines(r), EmittedLines(r.(gpus := r.gpus[i := g']));
      var raw := Readings(r.gpus[i])[k];
      && (FilterNumber(raw) == "" ==> after == before)
      && (FilterNumber(raw) != "" ==>
            exists p :: 2 <= p < |before|
              && before[p] == FormatValue(MetricNames[k], Label(r.gpus[i]), FilterNumber(raw))
              && after == before[..p] + before[p + 1..])
  {
    var g := r.gpus[i];
    var head, tail := DeviceReplaced(r, i, g');
    var q := DeviceDropped(g, g', k);
    RemoveLine(EmittedLines(r), EmittedLines(r.(gpus := r.gpus[i := g'])), head, DeviceLines(g), DeviceLines(g'), tail,
      FilterNumber(Readings(g)[k]) != "", q, FormatValue(MetricNames[k], Label(g), FilterNumber(Readings(g)[k])));
  }

  /**
   * When the middle part d of h + d + t either stays or loses its element q,
   * which is line, the whole either stays or loses that line, past h.
   */
  lemma RemoveLine(s: seq<string>, s': seq<string>, h: seq<string>, d: seq<string>, d': seq<string>, t: seq<string>,
                   dropped: bool, q: nat, line: string)
    requires s == h + d + t && s' == h + d' + t && 2 <= |h|
    requires !dropped ==> d' == d
    requires dropped ==> q < |d| && d[q] == line && d' == d[..q] + d[q + 1..]
    ensures !dropped ==> s' == s
    ensures dropped ==> exists p :: 2 <= p < |s| && s[p] == line && s' == s[..p] + s[p + 1..]
  {
    if dropped {
      RemoveInside(s, s', h, d, d', t, q);
      assert 2 <= |h| + q;
    }
  }

  /** Replacing device i changes only the block of device i. */
  lemma DeviceReplaced(r: NvidiaSmiLog, i: nat, g': Gpu) returns (head: seq<string>, tail: seq<string>)
    requires i < |r.gpus|
    ensures head == HeaderLines(r) + Join(DeviceBlocks(r.gpus), 0, i) && 2 <= |head|
    ensures tail == Join(DeviceBlocks(r.gpus), i + 1, |r.gpus|)
    ensures EmittedLines(r) == head + DeviceLines(r.gpus[i]) + tail
    ensures EmittedLines(r.(gpus := r.gpus[i := g'])) == head + DeviceLines(g') + tail
  {
    var n := |r.gpus|;
    var gs' := r.gpus[i := g'];
    var bs, bs' := DeviceBlocks(r.gpus), DeviceBlocks(gs');
    BlocksReplaced(r.gpus, i, g');
    JoinAt(bs, i);
    JoinReplaced(bs, bs', i);
    var h := HeaderLines(r);
    tail := Join(bs, i + 1, n);
    assert HeaderLines(r.(gpus := gs')) == h;
    AppendAssoc(h, Join(bs, 0, i) + bs[i], tail);
    AppendAssoc(h, Join(bs, 0, i), bs[i]);
    AppendAssoc(h, Join(bs, 0, i) + bs'[i], tail);
    AppendAssoc(h, Join(bs, 0, i), bs'[i]);
    head := h + Join(bs, 0, i);
  }

  lemma BlocksReplaced(gs: seq<Gpu>, i: nat, g': Gpu)
    requires i < |gs|
    ensures var bs, bs' := DeviceBlocks(gs), DeviceBlocks(gs[i := g']);
      && |bs'| == |bs|
      && bs[i] == DeviceLines(gs[i]) && bs'[i] == DeviceLines(g')
      && forall j :: 0 <= j < |bs| && j != i ==> bs'[j] == bs[j]
  {
    var gs' := gs[i := g'];
    var bs, bs' := DeviceBlocks(gs), DeviceBlocks(gs');
    forall j | 0 <= j < |bs| && j != i ensures bs'[j] == bs[j] {
      assert gs'[j] == gs[j];
    }
  }

  /** Replacing block i of a sequence of blocks replaces only its lines. */
  lemma JoinReplaced(bs: seq<seq<string>>, bs': seq<seq<string>>, i: nat)
    requires i < |bs| == |bs'|
    requires forall j :: 0 <= j < |bs| && j != i ==> bs'[j] == bs[j]
    ensures Join(bs', 0, |bs|) == Join(bs, 0, i) + bs'[i] + Join(bs, i + 1, |bs|)
  {
    JoinAt(bs', i);
    JoinAgree(bs, bs', 0, i);
    JoinAgree(bs, bs', i + 1, |bs|);
  }

  /** Within one device: the reading k that now normalises to "" loses its line, and only it. */
  lemma DeviceDropped(g: Gpu, g': Gpu, k: nat) returns (q: nat)
    requires k < |MetricNames|
    requires g'.productName == g.productName && g'.minorNumber == g.minorNumber && g'.uuid == g.uuid
    requires Readings(g') == Readings(g)[k := Readings(g')[k]]
    requires FilterNumber(Readings(g')[k]) == ""
    ensures q == |ReadingLines(MetricNames, Label(g), Readings(g), 0, k)|
    ensures var raw := Readings(g)[k];
      && (FilterNumber(raw) == "" ==> DeviceLines(g') == DeviceLines(g))
      && (FilterNumber(raw) != "" ==>
            && q < |DeviceLines(g)|
            && DeviceLines(g)[q] == FormatValue(MetricNames[k], Label(g), FilterNumber(raw))
            && DeviceLines(g') == DeviceLines(g)[..q] + DeviceLines(g)[q + 1..])
  {
    var lab, vs, vs' := Label(g), Readings(g), Readings(g');
    assert Label(g') == lab;
    assert DeviceLines(g') == ReadingLines(MetricNames, lab, vs[k := vs'[k]], 0, |vs|);
    ReadingDropped(MetricNames, lab, vs, k, vs'[k]);
    q := |ReadingLines(MetricNames, lab, vs, 0, k)|;
  }

  /** When the middle part d of h + d + t loses its element q, so does the whole. */
  lemma RemoveInside(s: seq<string>, s': seq<string>, h: seq<string>, d: seq<string>, d': seq<string>, t: seq<string>, q: nat)
    requires q < |d| && s == h + d + t && s' == h + d' + t && d' == d[..q] + d[q + 1..]
    ensures |h| + q < |s| && s[|h| + q] == d[q]
    ensures s' == s[..|h| + q] + s[|h| + q + 1..]
  {
    var p := |h| + q;
    assert s[..p] == h + d[..q];
    assert s[p + 1..] == d[q + 1..] + t;
    AppendAssoc(h, d[..q], d[q + 1..] + t);
    AppendAssoc(h + d[..q], d[q + 1..], t);
    AppendAssoc(h, d[..q], d[q + 1..]);
  }

  /** Concatenated single lines hold one line break each. */
  lemma {:induction false} ConcatNewlines(ls: seq<string>)
    requires forall j :: 0 <= j < |ls| ==> NewlineCount(ls[j]) == 1
    ensures NewlineCount(Concat(ls)) == |ls|
  {
    if ls != [] {
      var n := |ls| - 1;
      ConcatNewlines(ls[..n]);
      NewlineCountConcat(Concat(ls[..n]), ls[n]);
    }
  }

  lemma {:induction false} NoNewlines(s: string)
    requires '\n' !in s
    ensures NewlineCount(s) == 0
  {
    if s != [] {
      assert s[..|s| - 1][0..] == s[..|s| - 1];
      NoNewlines(s[..|s| - 1]);
    }
  }

  /**
   * When the driver version and the device identities hold no line break,
   * the body has exactly as many line breaks as lines were written: every
   * write is one whole line.
   */
  lemma RenderNewlines(r: NvidiaSmiLog)
    requires '\n' !in r.driverVersion
    requires forall g :: g in r.gpus ==> '\n' !in g.productName && '\n' !in g.minorNumber && '\n' !in g.uuid
    ensures NewlineCount(Render(r)) == |EmittedLines(r)|
  {
    var ls := EmittedLines(r);
    forall j | 0 <= j < |ls| ensures NewlineCount(ls[j]) == 1 {
      EmittedLineNewlines(r, j);
    }
    ConcatNewlines(ls);
  }

  lemma EmittedLineNewlines(r: NvidiaSmiLog, j: nat)
    requires '\n' !in r.driverVersion
    requires forall g :: g in r.gpus ==> '\n' !in g.productName && '\n' !in g.minorNumber && '\n' !in g.uuid
    requires j < |EmittedLines(r)|
    ensures NewlineCount(EmittedLines(r)[j]) == 1
  {
    if j < 2 {
      HeaderLineNewlines(r, j);
    } else {
      DevicePartNewlines(r, j);
    }
  }

  lemma HeaderLineNewlines(r: NvidiaSmiLog, j: nat)
    requires '\n' !in r.driverVersion
    requires j < 2
    ensures NewlineCount(EmittedLines(r)[j]) == 1
  {
    HeaderNewlines(r);
    IndexBefore(HeaderLines(r), Join(DeviceBlocks(r.gpus), 0, |r.gpus|), j);
  }

  lemma HeaderNewlines(r: NvidiaSmiLog)
    requires '\n' !in r.driverVersion
    ensures forall j :: 0 <= j < |HeaderLines(r)| ==> NewlineCount(HeaderLines(r)[j]) == 1
  {
    HeaderKeysPlain();
    NumericHasNoSpace(FilterNumber(r.attachedGpus));
    LineNewlines(DriverVersionKey, "", r.driverVersion);
    LineNewlines(AttachedGpusKey, "", FilterNumber(r.attachedGpus));
  }

  lemma HeaderKeysPlain()
    ensures '\n' !in DriverVersionKey && '\n' !in AttachedGpusKey
  {
  }

  lemma IndexBefore(h: seq<string>, t: seq<string>, j: nat)
    requires j < |h|
    ensures (h + t)[j] == h[j]
  {
  }

  lemma DevicePartNewlines(r: NvidiaSmiLog, j: nat)
    requires forall g :: g in r.gpus ==> '\n' !in g.productName && '\n' !in g.minorNumber && '\n' !in g.uuid
    requires 2 <= j < |EmittedLines(r)|
    ensures NewlineCount(EmittedLines(r)[j]) == 1
  {
    var h := HeaderLines(r);
    var bs := DeviceBlocks(r.gpus);
    var rest := Join(bs, 0, |r.gpus|);
    assert EmittedLines(r) == h + rest;
    var i, q := LineOwner(bs, |r.gpus|, j - 2);
    IndexAfter(h, rest, j - 2);
    assert EmittedLines(r)[j] == rest[j - 2] == bs[i][q];
    var g := r.gpus[i];
    assert bs[i] == DeviceLines(g) && g in r.gpus;
    DeviceLineNewlines(g, q);
  }

  lemma DeviceLineNewlines(g: Gpu, q: nat)
    requires '\n' !in g.productName && '\n' !in g.minorNumber && '\n' !in g.uuid
    requires q < |DeviceLines(g)|
    ensures NewlineCount(DeviceLines(g)[q]) == 1
  {
    var ks := DevicePresent(g);
    ReadingLinesByIndex(MetricNames, Label(g), Readings(g), 0, |Readings(g)|);
    var k := ks[q];
    NoBraceInNames(k);
    LabelNoNewline(g);
    NumericHasNoSpace(FilterNumber(Readings(g)[k]));
    LineNewlines(MetricNames[k], Label(g), FilterNumber(Readings(g)[k]));
  }

  /** A line whose parts hold no line break holds exactly one. */
  lemma LineNewlines(key: string, meta: string, v: string)
    requires '\n' !in key && '\n' !in meta && '\n' !in v
    ensures NewlineCount(FormatValue(key, meta, v)) == 1
  {
    NoNewlines(key);
    NoNewlines(meta);
    NoNewlines(v);
    FormatValueNewlines(key, meta, v);
  }

  lemma IndexAfter(h: seq<string>, t: seq<string>, j: nat)
    requires j < |t|
    ensures (h + t)[|h| + j] == t[j]
  {
  }

  lemma LabelNoNewline(g: Gpu)
    requires '\n' !in g.productName && '\n' !in g.minorNumber && '\n' !in g.uuid
    ensures '\n' !in Label(g)
  {
  }

  /** The block that holds line j of the blocks before hi, and the place within it. */
  lemma {:induction false} LineOwner(bs: seq<seq<string>>, hi: nat, j: nat) returns (i: nat, q: nat)
    requires hi <= |bs| && j < |Join(bs, 0, hi)|
    decreases hi
    ensures i < hi && q < |bs[i]| && Join(bs, 0, hi)[j] == bs[i][q]
  {
    var n := hi - 1;
    var prefix := Join(bs, 0, n);
    if j < |prefix| {
      i, q := LineOwner(bs, n, j);
    } else {
      i, q := n, j - |prefix|;
    }
  }

  /**
   * The example of a fan-speed reading: "34 %" becomes the device's first line,
   * carrying 34 under the device's labels.
   */
  lemma FanSpeedExample(g: Gpu)
    requires g.fanSpeed == "34 %"
    ensures |DeviceLines(g)| > 0
    ensures DeviceLines(g)[0] == FanSpeedKey + "{" + Label(g) + "} " + "34" + "\n"
  {
    var values := Readings(g);
    FilterExample();
    ReadingLinesSplit(MetricNames, Label(g), values, 0, 1, |values|);
    var first := FormatValue(FanSpeedKey, Label(g), "34");
    var rest := ReadingLines(MetricNames, Label(g), values, 1, |values|);
    assert MetricNames[0] == FanSpeedKey && values[0] == g.fanSpeed;
    assert MetricLines(MetricNames[0], Label(g), values[0]) == [first];
    PrependEmpty([first]);
    assert ReadingLines(MetricNames, Label(g), values, 0, 1) == [first];
    assert DeviceLines(g) == [first] + rest;
    LabelNonEmpty(g);
    FormatLabelled(FanSpeedKey, Label(g), "34");
  }

  /** Normalisation keeps the digits of a reading and drops its unit. */
  lemma FilterExample()
    ensures FilterNumber("34 %") == "34"
  {
  }

  /** A decimal point survives normalisation. */
  lemma FilterPointExample()
    ensures FilterNumber("70.5 W") == "70.5"
  {
  }

  /** A reading the tool reports as not available normalises to "", so its line is skipped. */
  lemma FilterUnavailableExample()
    ensures FilterNumber("N/A") == ""
  {
  }

  lemma LabelNonEmpty(g: Gpu)
    ensures Label(g) != ""
  {
    assert Label(g)[0] == 'n';
  }

  /** A line written out: braces around the labels only when there are labels. */
  lemma FormatLabelled(key: string, meta: string, value: string)
    ensures meta == "" ==> FormatValue(key, meta, value) == key + " " + value + "\n"
    ensures meta != "" ==> FormatValue(key, meta, value) == key + "{" + meta + "} " + value + "\n"
  {
  }

  /** The example of a GPU-count line: "2 " is written as 2, after a single space. */
  lemma AttachedGpusExample(r: NvidiaSmiLog)
    requires r.attachedGpus == "2 "
    ensures EmittedLines(r)[1] == "nvidiasmi_attached_gpus 2\n"
  {
    FilterCountExample();
    RenderOpening(r);
    AttachedGpusLiteral();
  }

  /** A trailing space after the GPU count is dropped. */
  lemma FilterCountExample()
    ensures FilterNumber("2 ") == "2"
  {
  }

  lemma AttachedGpusLiteral()
    ensures AttachedGpusKey + " " + "2" + "\n" == "nvidiasmi_attached_gpus 2\n"
  {
  }
}
