/**
 * The parsed nvidia-smi report (NvidiaSmiLog): every field is the raw text the
 * tool printed, possibly empty when the element was missing. Product brand and
 * PCI bus are parsed by the exporter but never emitted, so they are not kept.
 */
module SmiLog {

  datatype FbMemoryUsage = FbMemoryUsage(total: string, used: string, free: string)

  datatype Utilization = Utilization(gpuUtil: string, memoryUtil: string)

  datatype Temperature = Temperature(gpuTemp: string, gpuTempMaxThreshold: string, gpuTempSlowThreshold: string)

  datatype PowerReadings = PowerReadings(powerDraw: string, powerLimit: string)

  /** Used twice: for the current clocks and for the maximum clocks. */
  datatype Clocks = Clocks(graphicsClock: string, smClock: string, memClock: string, videoClock: string)

  datatype Gpu = Gpu(
    productName: string,
    uuid: string,
    minorNumber: string,
    fanSpeed: string,
    fbMemoryUsage: FbMemoryUsage,
    utilization: Utilization,
    temperature: Temperature,
    powerReadings: PowerReadings,
    clocks: Clocks,
    maxClocks: Clocks)

  datatype NvidiaSmiLog = NvidiaSmiLog(driverVersion: string, attachedGpus: string, gpus: seq<Gpu>)

  /** The per-device metric names, in the order the exporter writes them. */
  const FanSpeedKey: string := "nvidiasmi_fan_speed"
  const MemoryUsageTotalKey: string := "nvidiasmi_memory_usage_total"
  const MemoryUsageUsedKey: string := "nvidiasmi_memory_usage_used"
  const MemoryUsageFreeKey: string := "nvidiasmi_memory_usage_free"
  const UtilizationGpuKey: string := "nvidiasmi_utilization_gpu"
  const UtilizationMemoryKey: string := "nvidiasmi_utilization_memory"
  const TempGpuKey: string := "nvidiasmi_temp_gpu"
  const TempGpuMaxKey: string := "nvidiasmi_temp_gpu_max"
  const TempGpuSlowKey: string := "nvidiasmi_temp_gpu_slow"
  const PowerDrawKey: string := "nvidiasmi_power_draw"
  const PowerLimitKey: string := "nvidiasmi_power_limit"
  const ClockGraphicsKey: string := "nvidiasmi_clock_graphics"
  const ClockGraphicsMaxKey: string := "nvidiasmi_clock_graphics_max"
  const ClockSmKey: string := "nvidiasmi_clock_sm"
  const ClockSmMaxKey: string := "nvidiasmi_clock_sm_max"
  const ClockMemKey: string := "nvidiasmi_clock_mem"
  const ClockMemMaxKey: string := "nvidiasmi_clock_mem_max"
  const ClockVideoKey: string := "nvidiasmi_clock_video"
  const ClockVideoMaxKey: string := "nvidiasmi_clock_video_max"

  const MetricNames: seq<string> := [
    FanSpeedKey,
    MemoryUsageTotalKey,
    MemoryUsageUsedKey,
    MemoryUsageFreeKey,
    UtilizationGpuKey,
    UtilizationMemoryKey,
    TempGpuKey,
    TempGpuMaxKey,
    TempGpuSlowKey,
    PowerDrawKey,
    PowerLimitKey,
    ClockGraphicsKey,
    ClockGraphicsMaxKey,
    ClockSmKey,
    ClockSmMaxKey,
    ClockMemKey,
    ClockMemMaxKey,
    ClockVideoKey,
    ClockVideoMaxKey
  ]

  /** The raw reading behind each name of MetricNames, at the same position. */
  function Readings(g: Gpu): (vs: seq<string>)
    ensures |vs| == |MetricNames| == 19
  {
    [ g.fanSpeed,
      g.fbMemoryUsage.total, g.fbMemoryUsage.used, g.fbMemoryUsage.free,
      g.utilization.gpuUtil, g.utilization.memoryUtil,
      g.temperature.gpuTemp, g.temperature.gpuTempMaxThreshold, g.temperature.gpuTempSlowThreshold,
      g.powerReadings.powerDraw, g.powerReadings.powerLimit,
      g.clocks.graphicsClock, g.maxClocks.graphicsClock,
      g.clocks.smClock, g.maxClocks.smClock,
      g.clocks.memClock, g.maxClocks.memClock,
      g.clocks.videoClock, g.maxClocks.videoClock ]
  }
}
