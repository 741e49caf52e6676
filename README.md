# waysensor-rs core, modelled in Dafny

waysensor-rs is a set of Waybar status-bar sensors. Each sensor reads a kernel interface or a
command's output, decides a reading, a CSS class and a percentage, and prints one JSON object
per update. This project models the parts of that code that decide things:

- the AMD GPU `gpu_metrics` binary decoder: the header, the v1 and v2 layouts, throttle-status
  bits, little-endian field reads, the reader's cache and direct/mmap reads
  (`amd_metrics.dfy`, `little_endian.dfy`);
- the older decoder copy in `amdgpu/reader.rs` and `types.rs` (`amd_legacy.dfy`);
- the AMD sensor's recovery state machine, display settings, output formats and builder
  (`amd_sensor.dfy`, `gpu_error.dfy`), and the sysfs-text variant (`amd_sysfs.dfy`);
- the shared core library: output builders, icon and position parsing, threshold classes,
  interval checks, colour overrides, icon placement and error temporariness (`core_lib.dfy`);
- the CPU (`/proc/stat`, `/proc/cpuinfo`), memory (`/proc/meminfo`), disk (`df -P`,
  `/proc/mounts`, trend history, cache), multi-disk, battery and NVIDIA (`nvidia-smi` CSV)
  sensors (`cpu.dfy`, `memory.dfy`, `disk.dfy`, `multi_disk.dfy`, `battery.dfy`,
  `nvidia_gpu.dfy`), with the helpers they share (`readings.dfy`);
- the battery and thermal error tables and recovery strategies (`battery_error.dfy`,
  `thermal_error.dfy`, `backoff.dfy`).

Conventions:

- File contents, command outputs and the clock are inputs. Time is a `nat` number of
  milliseconds.
- A sensor whose fields the source updates in place is a class. Its methods are proved
  against specification functions, and the properties are proved about those functions.
- `u8`..`u64` are subset types of `int`.
- Where the source uses `f64`, the model uses `real`, or the integer floor where the source
  casts to an integer.
- `str::parse` for unsigned and signed integers is modelled exactly. `str::trim`, `lines`,
  `split` and `split_whitespace` are modelled in `text.dfy`.
- `wrappers.dfy` holds `Option` and `Result`.

Where the repository's documentation and its code disagree, the model follows the code. Where the code itself is evidently wrong, "## Findings" keeps the code as written in one member and a corrected definition in another, and the rest of the model uses the corrected one; the rows of the members built on it say so.

## Model

| member | source | states |
|---|---|---|
| `CoreLib.NewOutput` | core/src/lib.rs:84-91 | a new output holds the text and leaves tooltip, class and percentage unset |
| `CoreLib.WithTooltip` | core/src/lib.rs:101-104 | the tooltip is set; text, class and percentage are unchanged |
| `CoreLib.WithClass` | core/src/lib.rs:108-111 | the class is set; text, tooltip and percentage are unchanged |
| `CoreLib.WithPercentage` | core/src/lib.rs:119-126 | callable only with a percentage of at most 100 (the source panics above it); the percentage is set and nothing else changes |
| `CoreLib.BuiltPercentageBounded` | core/src/lib.rs:2377-2389 | chaining the builders yields exactly the record with the given text, tooltip, class and percentage |
| `CoreLib.ParseIconPosition` | core/src/lib.rs:1033-1042 | Before exactly for before/pre/left and After exactly for after/post/right, ignoring ASCII case; anything else is an error |
| `CoreLib.ParseIconStyle` | core/src/lib.rs:1100-1109 | NerdFont exactly for nerdfont/nerd/nf and None exactly for none/no/empty, ignoring ASCII case; anything else is an error |
| `CoreLib.IconPositionRoundTrip` | core/src/lib.rs:1020-1042 | parsing the displayed name of a position gives that position back |
| `CoreLib.IconStyleRoundTrip` | core/src/lib.rs:1087-1109 | parsing the displayed name of a style gives that style back |
| `CoreLib.IconNamesRoundTrip` | core/src/lib.rs:1020-1109 | both parsers invert their Display implementations |
| `CoreLib.IconParsingCaseInsensitive` | core/src/lib.rs:1034 | lowering the input first accepts the same strings and changes no parsed value |
| `CoreLib.NerdFontAlias` | core/src/lib.rs:1102 | each Nerd Font alias parses to NerdFont |
| `CoreLib.NoIconsAlias` | core/src/lib.rs:1103 | each no-icon alias, the empty string included, parses to None |
| `CoreLib.IconStyleExamples` | core/src/lib.rs:2396-2408 | the aliases listed in the library tests parse as expected, "invalid" is refused and "LEFT" reads as Before |
| `CoreLib.InvalidStyleRefused` | core/src/lib.rs:2407 | "invalid" is not an icon style |
| `CoreLib.CapitalisedPositionRead` | core/src/lib.rs:1034-1035 | "LEFT" reads as Before |
| `CoreLib.ThresholdLevel` | core/src/lib.rs:1202-1215 | critical exactly when value >= critical; warning exactly when warning <= value < critical |
| `CoreLib.ClassForThresholds` | core/src/lib.rs:1202-1215 | the theme's class for the threshold level, critical checked first, normal below both thresholds |
| `CoreLib.ThresholdLevelMonotone` | core/src/lib.rs:1202-1215 | a larger value never lands in a less severe class |
| `CoreLib.ClassForThresholdsExamples` | core/src/lib.rs:2423-2432 | with thresholds 70/90, 50 is normal, 80 warning and 95 critical |
| `CoreLib.DefaultConfig` | core/src/lib.rs:1427-1445 | the default update interval respects the 100 ms minimum |
| `CoreLib.WithUpdateIntervalMs` | core/src/lib.rs:1306-1332 | callable only with at least 100 ms (the source panics below it); sets the interval and nothing else |
| `CoreLib.ValidateUpdateInterval` | core/src/lib.rs:1448-1461 | the deserialiser accepts exactly intervals of at least 100 ms, unchanged |
| `CoreLib.IntervalChecksAgree` | core/src/lib.rs:1324-1332 | builder and deserialiser accept exactly the same intervals |
| `CoreLib.ApplyColorOverrides` | core/src/lib.rs:1385-1405 | each of the four colours is replaced exactly when its override is given; every other field is unchanged |
| `CoreLib.ApplyColorOverridesIdempotent` | core/src/lib.rs:1385-1405 | applying the same overrides twice equals applying them once; no overrides change nothing |
| `CoreLib.WithCustom` | core/src/lib.rs:1409-1413 | the key maps to the new value, other keys keep theirs and no other field changes |
| `CoreLib.GetCustom` | core/src/lib.rs:1422-1424 | present exactly when the key is set, with its value |
| `CoreLib.GetCustomAfterWithCustom` | core/src/lib.rs:1409-1424 | reading back a key just set gives its value; other keys read as before |
| `CoreLib.WithIcon` | core/src/lib.rs:1589-1601 | style None or an empty icon gives the text unchanged; otherwise icon, spacing spaces and text (Before) or the mirror image (After) |
| `CoreLib.WithIconExamples` | core/src/lib.rs:2478-2486 | the library's with_icon examples with spacings 1, 2 and 3 |
| `CoreLib.WithIconAndColors` | core/src/lib.rs:1621-1661 | a whitespace-only icon or style None gives the coloured text only; otherwise the coloured icon and text around the spacer, in the configured order, each part wrapped in a span exactly when its colour is set |
| `CoreLib.WithIconAndColorsUncolored` | core/src/lib.rs:1589-1661 | without colours it agrees with with_icon for every icon that is empty or not whitespace-only |
| `CoreLib.WithIconAndColorsBlankIcon` | core/src/lib.rs:1593 | the two helpers disagree on a whitespace-only icon: with_icon keeps it, the coloured variant drops it |
| `CoreLib.KeyValue` | core/src/lib.rs:1678-1712 | the coloured "key:" and the coloured value joined by one space; without colours exactly "key: value" |
| `CoreLib.ThemedOutput` | core/src/lib.rs:1880-1905 | text, tooltip and percentage are passed through and the class is the theme's class for the threshold level |
| `CoreLib.SimpleThemedOutput` | core/src/lib.rs:1907-1923 | no percentage is set |
| `CoreLib.IsTemporary` | core/src/lib.rs:2358-2368 | Unavailable gives its own flag, Timeout true, Io true exactly for Interrupted or TimedOut, everything else false |
| `CoreLib.UnavailableConstructors` | core/src/lib.rs:2310-2324 | temporarily_unavailable is temporary, unavailable and a Parse error are not |
| `Text.ParseUnsigned` | sensors/battery/src/battery.rs:237-247 | `parse::<uN>()`: a success is an optional "+" followed by one or more digits whose value is within the type's maximum; empty text or text not starting with a digit or "+" fails |
| `Text.ParseUnsignedOfNatToString` | sensors/battery/src/battery.rs:237-247 | the decimal text of a number parses back to it exactly when it fits the type |
| `Text.IntErrorIffRejected` | sensors/disk/src/multi_disk.rs:119-133 | the integer-parse error cause exists exactly when the parse fails, and an all-digit text that fails is an overflow |
| `Text.IntErrorExamples` | sensors/disk/src/multi_disk.rs:119-133 | "42" is a u16; "" is empty input; "4x" and "+" have an invalid digit; "70000" overflows a u16 |
| `Text.SaturatingCast` | sensors/battery/src/battery.rs:83-88 | the float-to-unsigned `as` cast: within 0..=max, 0 for non-positive values, max past the range and the truncation in between |
| `Text.SaturatingCastMonotone` | sensors/battery/src/battery.rs:83-88 | the cast preserves order |
| `Text.SplitOnce` | sensors/cpu/src/cpu.rs:217 | no result exactly when the separator is absent; otherwise the part before (free of the separator), the separator and the rest make up the text |
| `Text.SplitJoin` | sensors/nvidia-gpu/src/nvidia_gpu.rs:132 | joining fields that hold no separator character and splitting again gives the fields back |
| `Text.Lines` | sensors/nvidia-gpu/src/nvidia_gpu.rs:126 | only the empty text has no lines |
| `LittleEndian.LeValueOfLeBytes` | sensors/amd-gpu/src/metrics.rs:864-874 | encoding a value that fits in `n` bytes little-endian and decoding it gives the value back |
| `LittleEndian.LeBytesOfLeValue` | sensors/amd-gpu/src/metrics.rs:864-874 | decoding bytes and re-encoding them at the same width gives the bytes back |
| `LittleEndian.ReadU16Le` | sensors/amd-gpu/src/metrics.rs:864-867 | the result is `data[offset] + 256 * data[offset+1]`, low byte first |
| `LittleEndian.ReadU64Le` | sensors/amd-gpu/src/metrics.rs:869-874 | the result is the eight bytes at `offset` weighted by 256^0 .. 256^7, low byte first |
| `LittleEndian.ReadersReadOnlyTheirWindow` | sensors/amd-gpu/src/amdgpu/reader.rs:192-202 | the helpers depend only on bytes `offset..offset+7` (resp. `offset..offset+1`) of the input |
| `LittleEndian.ReadU16LeOfLeBytes` | sensors/amd-gpu/src/metrics.rs:864-867 | a u16 written little-endian at any position reads back as the same value |
| `LittleEndian.ReadU64LeOfLeBytes` | sensors/amd-gpu/src/metrics.rs:869-874 | a u64 written little-endian at any position reads back as the same value |
| `AmdGpuError.ToSensorError` | sensors/amd-gpu/src/gpu.rs:43-54 | MetricsFile/Discovery become permanent Unavailable, MetricsParsing/Performance become Parse, Thermal/Hardware become InvalidData, each keeping the reason |
| `AmdGpuError.ConvertedErrorsArePermanent` | sensors/amd-gpu/src/gpu.rs:43-54 | no converted GPU error is temporary, and the file path of a metrics-file error is dropped |
| `AmdMetrics.HeaderOf` | sensors/amd-gpu/src/metrics.rs:664-668 | the header's size is the LE u16 at byte 0 and the revisions are bytes 2 and 3 |
| `AmdMetrics.Version` | sensors/amd-gpu/src/metrics.rs:25-27 | the version text starts with 'v' and is at least "vX.Y" long |
| `AmdMetrics.VersionInjective` | sensors/amd-gpu/src/metrics.rs:25-27 | equal version strings come from equal format and content revisions |
| `AmdMetrics.VersionExample` | sensors/amd-gpu/src/metrics.rs:881-890 | header (100,1,2) renders "v1.2" and a v3.0 header renders "v3.0" |
| `AmdMetrics.ExpectedSize` | sensors/amd-gpu/src/metrics.rs:38-49 | a known v1 size is 96 + 4 per content revision, a known v2 size 120 + 4 per content revision |
| `AmdMetrics.SupportedIffSized` | sensors/amd-gpu/src/metrics.rs:30-49 | `is_supported` holds exactly for the versions with an expected size (v1.0-1.3, v2.0-2.1) plus v3.0 |
| `AmdMetrics.ActiveFlags` | sensors/amd-gpu/src/metrics.rs:162-171 | the loop over the 13-entry table returns the names of the set table bits, in table order |
| `AmdMetrics.FlagsUpToMembership` | sensors/amd-gpu/src/metrics.rs:140-171 | a table name is listed exactly when its bit is set in the word |
| `AmdMetrics.FlagsUpToNames` | sensors/amd-gpu/src/metrics.rs:162-171 | only names from the table are ever listed |
| `AmdMetrics.Severity` | sensors/amd-gpu/src/metrics.rs:173-177 | severity lies in [0,1] and is 0 exactly when no named flag is active |
| `AmdMetrics.ThermalMeansThmFlag` | sensors/amd-gpu/src/metrics.rs:180-184 | thermal throttling (bits 32-34) holds iff one of THM_CORE/THM_GFX/THM_SOC is listed |
| `AmdMetrics.PowerMeansPowerFlag` | sensors/amd-gpu/src/metrics.rs:186-190 | power throttling (bits 16-23) holds iff one of PPT0-3/SPL/FPPT/SPPT/SPPT_APU is listed |
| `AmdMetrics.ThrottleExample` | sensors/amd-gpu/src/metrics.rs:893-903 | 0x10001 lists exactly PROCHOT_CPU and PPT0, is throttling, power and not thermal |
| `AmdMetrics.UnnamedBitHasNoSeverity` | sensors/amd-gpu/src/metrics.rs:157-177 | a set bit outside the table (bit 40) makes `is_throttling` true while no flag is listed and severity is 0 |
| `AmdMetrics.BaseV1` | sensors/amd-gpu/src/metrics.rs:696-735 | the v1 base record read at its fixed body offsets has every optional field absent |
| `AmdMetrics.ParseV1Metrics` | sensors/amd-gpu/src/metrics.rs:689-758 | the parser (with its VCN loop) returns exactly `ParseV1Spec`: an error below 92 body bytes, else the base record plus the groups its revision and length admit |
| `AmdMetrics.ReadU16Array` | sensors/amd-gpu/src/metrics.rs:769-783 | the loop fills a fresh array with the `n` LE u16 values at `base + 2i` |
| `AmdMetrics.BaseV2` | sensors/amd-gpu/src/metrics.rs:785-829 | the v2 base record read at its fixed body offsets has the three voltages absent |
| `AmdMetrics.ParseV2Metrics` | sensors/amd-gpu/src/metrics.rs:760-839 | the parser returns exactly `ParseV2Spec`: an error below 116 body bytes, else the five arrays, the base fields and the v2.1 voltages when admitted |
| `AmdMetrics.ParseMetricsFromBytes` | sensors/amd-gpu/src/metrics.rs:657-686 | decoding returns exactly `ParseMetricsSpec`: header check, version check, then the parser the format revision selects |
| `AmdMetrics.ParseRejections` | sensors/amd-gpu/src/metrics.rs:657-674 | fewer than 4 bytes and unsupported versions give their parse errors; any success had a header and a supported version |
| `AmdMetrics.V3IsSupportedButRejected` | sensors/amd-gpu/src/metrics.rs:678-685 | a v3.0 header passes `is_supported` yet decoding fails with "Unsupported format version: v3.0" |
| `AmdMetrics.ParseKeepsHeader` | sensors/amd-gpu/src/metrics.rs:676-680 | a decoded blob is V1 iff byte 2 is 1 and V2 iff it is 2, carries the blob's header and has the fixed array lengths |
| `AmdMetrics.LayoutGuards` | sensors/amd-gpu/src/metrics.rs:690-694 | the v1 parser fails iff the body is shorter than 92 bytes, the v2 parser iff shorter than 116 |
| `AmdMetrics.V1FieldOffsets` | sensors/amd-gpu/src/metrics.rs:696-735 | every v1 base field equals the LE integer at its offset + 4 in the whole blob, and an accepted v1 blob has at least 96 bytes |
| `AmdMetrics.V1OptionalFields` | sensors/amd-gpu/src/metrics.rs:737-755 | each optional v1 group is present iff its revision and length guard hold, and then holds the LE values at 78/80, 82/84, 92 and 94+2i |
| `AmdMetrics.V1VoltagesFollowRevision` | sensors/amd-gpu/src/metrics.rs:690-745 | for an accepted body the voltage groups depend only on content revision (rev >= 1, rev >= 2), the 92-byte guard implying 82 and 90 |
| `AmdMetrics.V1FullRevisionThree` | sensors/amd-gpu/src/metrics.rs:747-754 | a 104-byte v1.3 body decodes with every optional group present |
| `AmdMetrics.V2Layout` | sensors/amd-gpu/src/metrics.rs:760-836 | v2 arrays are read at 16+2i (8), 32+2i (2), 54+2i (8), 84+2i (8), 100+2i (2), throttle at 104, fan at 112, and the voltages present iff rev >= 1 and >= 122 bytes |
| `AmdMetrics.V2SocclkAliasesFirstCoreClock` | sensors/amd-gpu/src/metrics.rs:787-816 | in v2, `current_socclk` equals `current_coreclk[0]` (both read offset 84) |
| `AmdMetrics.IndexedMapLookup` | sensors/amd-gpu/src/metrics.rs:412-424 | each per-domain label maps to its own domain's value (labels never collide) |
| `AmdMetrics.IndexedMapKeys` | sensors/amd-gpu/src/metrics.rs:412-424 | a per-domain map holds only labelled keys with the prefix |
| `AmdMetrics.Temperature` | sensors/amd-gpu/src/metrics.rs:238-240 | V1 reports (temperature_edge, "Edge"), V2 (temperature_gfx, "GFX") |
| `AmdMetrics.TemperatureListShape` | sensors/amd-gpu/src/metrics.rs:391-406 | the list has 6 entries on V1 and 12 on V2, opens with the primary temperature, and V2 entry 2+i is ("Core{i}", core i) |
| `AmdMetrics.Power` | sensors/amd-gpu/src/metrics.rs:253-255 | V1 prefers current_socket_power over average_socket_power; V2 reports average_socket_power |
| `AmdMetrics.PowerIsInBreakdown` | sensors/amd-gpu/src/metrics.rs:257-264 | the breakdown always holds "Socket", holds "Current Socket" iff V1 has it, the reported power is that entry, and V2 lists each core |
| `AmdMetrics.Activity` | sensors/amd-gpu/src/metrics.rs:266-268 | the activity is the average GFX activity of either layout |
| `AmdMetrics.ActivityIsInBreakdown` | sensors/amd-gpu/src/metrics.rs:270-283 | the breakdown's "GFX" entry is the reported activity, and v1.3 adds "VCN{i}" for each engine |
| `AmdMetrics.Frequency` | sensors/amd-gpu/src/metrics.rs:285-287 | the frequency is the current GFX clock of either layout |
| `AmdMetrics.FrequencyIsInTable` | sensors/amd-gpu/src/metrics.rs:289-306 | the table's "GFX Current" entry is the reported frequency on both layouts |
| `AmdMetrics.PwmPercent` | sensors/amd-gpu/src/metrics.rs:471-475 | the percentage is the floor of pwm * 100 / 255 |
| `AmdMetrics.FanSpeed` | sensors/amd-gpu/src/metrics.rs:312-320 | V1: has_fan iff raw > 0, raw kept up to 100 and PWM-scaled above; V2 always PWM-scales fan_pwm, has_fan iff fan_pwm > 0 |
| `AmdMetrics.FanSpeedIsPercentForPwmRange` | sensors/amd-gpu/src/metrics.rs:312-320 | a raw value in 0-255 always reads as at most 100 % |
| `AmdMetrics.MemoryInfoOf` | sensors/amd-gpu/src/metrics.rs:326-333 | memory info is always present, without VRAM sizes, with the current UCLK as frequency and UMC activity on V1 only |
| `AmdMetrics.VoltageInfoOf` | sensors/amd-gpu/src/metrics.rs:335-341 | voltage info is always present and carries the layout's optional gfx/soc/mem voltages unchanged |
| `AmdMetrics.PowerEfficiency` | sensors/amd-gpu/src/metrics.rs:96-105 | 0 when power is 0, else the real r with r * power == activity |
| `AmdMetrics.ThermalEfficiency` | sensors/amd-gpu/src/metrics.rs:107-116 | 0 when the primary temperature is 0, else the real r with r * temperature == activity |
| `AmdMetrics.EfficiencyExample` | sensors/amd-gpu/src/metrics.rs:924-970 | activity 80 at 200 W and 60 degrees gives power efficiency 80/200 and thermal efficiency 80/60 |
| `AmdMetrics.CacheLookup` | sensors/amd-gpu/src/metrics.rs:563-589 | the slot is served iff the strategy is Basic or Aggressive, it is occupied and its age is below max_age; None and MemoryMapped never serve |
| `AmdMetrics.FreshEntryLifetime` | sensors/amd-gpu/src/metrics.rs:592-606 | after `update_cache` the read count is previous + 1 (or 1), and the entry is served exactly while `later < now + max_age` |
| `AmdMetrics.ChangeThresholdIgnored` | sensors/amd-gpu/src/metrics.rs:575-582 | Aggressive behaves as Basic with the same age whatever its change_threshold |
| `AmdMetrics.ReadDirectAgreesAboveHeaderSize` | sensors/amd-gpu/src/metrics.rs:624-654 | the code as written panics exactly for headers claiming 1-3 bytes and otherwise agrees with the corrected read |
| `AmdMetrics.TinyStructureSizeUnderflows` | sensors/amd-gpu/src/metrics.rs:638-645 | the header (3, 1, 0) makes the written read underflow, while the corrected read reports "Invalid structure size: 3" |
| `AmdMetrics.ReadDirectIgnoresSurplus` | sensors/amd-gpu/src/metrics.rs:624-654 | the direct read decodes exactly `structure_size` bytes, ignores later bytes and rejects sizes over 1024 |
| `AmdMetrics.MappingIsReused` | sensors/amd-gpu/src/metrics.rs:609-621 | an existing mapping is decoded without opening the file; a new mapping is the file's bytes; an open error leaves no mapping |
| `AmdMetrics.ReadFileResult` | sensors/amd-gpu/src/metrics.rs:540-560 | a fresh slot is returned as is; otherwise the result is the direct read (with the corrected size guard of "## Findings"), or the mapped read under MemoryMapped |
| `AmdMetrics.ReadFileState` | sensors/amd-gpu/src/metrics.rs:540-560 | after a read, a hit keeps slot, map and last-success time; a fresh read leaves the map it used, and only a successful one stores the next cache entry and the time |
| `AmdMetrics.FreshReadServedNext` | sensors/amd-gpu/src/metrics.rs:540-560 | under Basic or Aggressive, a successful fresh read is what every read within max_age afterwards returns, whatever the file then holds |
| `AmdMetrics.MetricsReader.constructor` | sensors/amd-gpu/src/metrics.rs:529-537 | a new reader keeps the strategy with an empty slot, no map, no errors and no successful read |
| `AmdMetrics.MetricsReader.CheckCache` | sensors/amd-gpu/src/metrics.rs:563-589 | the reader's lookup is `CacheLookup` on its own strategy and slot |
| `AmdMetrics.MetricsReader.UpdateCache` | sensors/amd-gpu/src/metrics.rs:592-606 | the slot becomes `NextCache` (untouched under None) and nothing else changes |
| `AmdMetrics.MetricsReader.ParseMetrics` | sensors/amd-gpu/src/metrics.rs:657-686 | the reader's decode is `ParseMetricsSpec` |
| `AmdMetrics.MetricsReader.ReadDirect` | sensors/amd-gpu/src/metrics.rs:624-654 | the direct read returns `ReadDirectSpec` (with the corrected size guard) |
| `AmdMetrics.MetricsReader.ReadWithMmap` | sensors/amd-gpu/src/metrics.rs:609-621 | the result and the new mapping are `MmapSpec` of the old mapping; the slot and counters are unchanged |
| `AmdMetrics.MetricsReader.ReadFile` | sensors/amd-gpu/src/metrics.rs:540-560 | with the corrected size guard of "## Findings": a fresh slot is served with no state change; otherwise a successful fresh read refreshes the slot, zeroes error_count and stamps the time, and a failure leaves slot and counters as they were; the new slot, map and time are `ReadFileState` |
| `AmdMetrics.MetricsReader.InvalidateCache` | sensors/amd-gpu/src/metrics.rs:841-847 | the slot and the map are both cleared, nothing else changes |
| `AmdMetrics.MetricsReader.CacheStats` | sensors/amd-gpu/src/metrics.rs:850-853 | stats exist iff the slot is occupied and are its read count and age |
| `AmdMetrics.InvalidateThenRead` | sensors/amd-gpu/src/metrics.rs:841-847 | with the corrected size guard of "## Findings": after invalidation the next read is always fresh, and a successful Basic/Aggressive read is then served with read count 1 and age 0 |
| `AmdLegacy.LegacyV1Layout` | sensors/amd-gpu/src/amdgpu/reader.rs:56-107 | the v1 parser accepts iff content revision <= 3 and the body has >= 96 bytes; its record is the full decoder's base record with no optional field |
| `AmdLegacy.LegacyParseV2` | sensors/amd-gpu/src/amdgpu/reader.rs:111-189 | the loops fill the five arrays and the parser returns `LegacyParseV2Spec`: content revision 0 only, the corrected 114-byte guard, the v2.0 record |
| `AmdLegacy.LegacyV2Layout` | sensors/amd-gpu/src/amdgpu/reader.rs:121-185 | accepted v2.0 arrays sit at 16+2i, 32+2i, 50+2i, 84+2i and 100+2i, average gfxclk at 66, throttle at 104, fan at 112, and the padding is zero |
| `AmdLegacy.LegacyParseMetrics` | sensors/amd-gpu/src/amdgpu/reader.rs:45-54 | dispatch returns `LegacyParseSpec`: the v1 parser for format 1, the v2 parser with the corrected 114-byte guard of "## Findings" for format 2, else an unsupported-version error |
| `AmdLegacy.LegacyDispatch` | sensors/amd-gpu/src/amdgpu/reader.rs:45-54 | any format revision other than 1 or 2 fails with "Unsupported format version: vX.Y"; a success is V1 with rev <= 3 or V2 with rev 0 |
| `AmdLegacy.LegacyReadFile` | sensors/amd-gpu/src/amdgpu/reader.rs:15-42 | the file read returns `LegacyReadSpec`: header, a size in 4..1024, exactly size - 4 body bytes, then dispatch |
| `AmdLegacy.LegacyPanicsExactlyOnShortInputs` | sensors/amd-gpu/src/amdgpu/reader.rs:29-37 | the code as written fails only on sizes 1-3 and on v2.0 bodies of 96-113 bytes, and otherwise agrees with the corrected read |
| `AmdLegacy.LegacyReadsExactlyStructureSize` | sensors/amd-gpu/src/amdgpu/reader.rs:36-42 | exactly `structure_size` bytes are decoded; later file bytes do not change the result |
| `AmdLegacy.ShortV2BodyPanics` | sensors/amd-gpu/src/amdgpu/reader.rs:114-119 | a v2.0 header claiming 100 bytes passes the written 96-byte guard and reads past the body, where the corrected guard reports insufficient data |
| `AmdLegacy.LegacyTinyStructureSizeUnderflows` | sensors/amd-gpu/src/amdgpu/reader.rs:29-37 | header (3, 1, 0) underflows `structure_size - 4` as written, while the corrected guard reports "Invalid structure size: 3" |
| `AmdLegacy.LegacyTemperature` | sensors/amd-gpu/src/amdgpu/types.rs:102-104 | V1_0 reports (temperature_edge, "Edge"), V2_0 (temperature_gfx, "GFX") |
| `AmdLegacy.LegacyPower` | sensors/amd-gpu/src/amdgpu/types.rs:106-108 | power is the average socket power on both layouts |
| `AmdLegacy.LegacyActivity` | sensors/amd-gpu/src/amdgpu/types.rs:110-112 | activity is the average GFX activity on both layouts |
| `AmdLegacy.LegacyFrequency` | sensors/amd-gpu/src/amdgpu/types.rs:114-116 | frequency is the average GFX clock, not the current one |
| `AmdLegacy.LegacyFanSpeed` | sensors/amd-gpu/src/amdgpu/types.rs:122-130 | V1_0: raw when raw <= 100, else floor(raw*100/255), has_fan iff raw > 0; V2_0 always scales fan_pwm, has_fan iff fan_pwm > 0 |
| `AmdLegacy.LegacyV1AgainstFullDecoder` | sensors/amd-gpu/src/amdgpu/types.rs:101-130 | on one v1 record without current power both decoders agree on temperature, power, activity and fan, while frequency is the average clock here and the current clock there |
| `AmdLegacy.LegacyThrottleFlags` | sensors/amd-gpu/src/amdgpu/types.rs:33-62 | with the same 13-entry table, a name is listed iff its bit is set |
| `AmdSensor.NewBuilder` | sensors/amd-gpu/src/gpu.rs:204-222 | a builder for a fixed path, no auto-detection, Compact format, 75/90 degrees, 200/250 W, Basic 500 ms, recovery on with 5 errors |
| `AmdSensor.AutoDetectBuilder` | sensors/amd-gpu/src/gpu.rs:224-242 | a builder without a path, with auto-detection and the same defaults |
| `AmdSensor.ResolvePath` | sensors/amd-gpu/src/gpu.rs:320-327 | auto-detection without a GPU is Unavailable, a fixed builder without a path is a Config error, otherwise the discovered or configured path |
| `AmdSensor.SensorName` | sensors/amd-gpu/src/gpu.rs:377-379 | the name is "amd-gpu-" followed by one character per character of the card name: a space becomes '-', an ASCII capital its lower-case letter, anything else itself |
| `AmdSensor.SensorNameOfPlainCard` | sensors/amd-gpu/src/gpu.rs:377-379 | a card name in lower case without spaces gives exactly "amd-gpu-" followed by that name |
| `AmdSensor.ThresholdValues` | sensors/amd-gpu/src/gpu.rs:338-350 | the value attached to a threshold-order error starts with "warning: " and the warning threshold and ends with ", critical: " and the critical threshold, each shown by `f64`'s `{}` |
| `AmdSensor.BuildValidatesThresholds` | sensors/amd-gpu/src/gpu.rs:338-351 | a built sensor has temp_warning < temp_critical and power_warning < power_critical; otherwise the matching Config error carrying the offending pair as its value, temperature checked first |
| `AmdSensor.BuildIgnoresErrorRecovery` | sensors/amd-gpu/src/gpu.rs:312-316 | the `error_recovery` settings do not change what `build` returns |
| `AmdSensor.DefaultBuilderBuilds` | sensors/amd-gpu/src/gpu.rs:863-872 | a builder with the default thresholds for an existing path builds |
| `AmdSensor.RecoveryStepContract` | sensors/amd-gpu/src/gpu.rs:468-497 | success zeroes the count, clears the error time and remembers (metrics, now); failure increments the count, stamps the time, and returns the stale metrics iff count <= 3 and age < 10 s, else the original error |
| `AmdSensor.FailureRunMasksAtMostThree` | sensors/amd-gpu/src/gpu.rs:480-497 | over a run of failures the count grows by one each, and failure i is masked iff it is among the first three and the metrics are younger than 10 s |
| `AmdSensor.FourthFailurePropagates` | sensors/amd-gpu/src/gpu.rs:484-497 | after a success, three quick failures return the stale metrics and the fourth returns its error |
| `AmdSensor.BoolSetting` | sensors/amd-gpu/src/gpu.rs:411-435 | a `show_*` flag takes the configured value only when it is a boolean, else keeps its value |
| `AmdSensor.FlagsFromOrderListed` | sensors/amd-gpu/src/gpu.rs:437-455 | with a display order, each flag is on iff its name is listed as a string |
| `AmdSensor.EnableFieldFlags` | sensors/amd-gpu/src/gpu.rs:444-452 | a display-order entry turns on only the flag it names; unknown names and non-strings change nothing |
| `AmdSensor.DisplayOrderWins` | sensors/amd-gpu/src/gpu.rs:409-456 | a display order alone decides the flags; without one a non-boolean `show_power` leaves the flag as it was |
| `AmdSensor.TruncateU8` | sensors/amd-gpu/src/gpu.rs:613-675 | `as u8` on an integer keeps the value below 256 and is always below 256 |
| `AmdSensor.RatioPercentU8` | sensors/amd-gpu/src/gpu.rs:636-644 | the float-to-u8 cast of num/den*100: the floor when below 256, 255 when above, 255 for x/0 with x > 0 and 0 for 0/0 |
| `AmdSensor.CustomPartsAppend` | sensors/amd-gpu/src/gpu.rs:651-666 | custom fields contribute independently, in list order |
| `AmdSensor.CustomIgnoresUnknown` | sensors/amd-gpu/src/gpu.rs:651-666 | an unknown custom field name anywhere in the list changes nothing |
| `AmdSensor.FormatOutputFallbacks` | sensors/amd-gpu/src/gpu.rs:583-676 | Compact with no flags falls back to activity, Custom with no known field to temperature, Minimal has no percentage while every other format has one, Power's primary value is the power |
| `AmdSensor.PercentageExamples` | sensors/amd-gpu/src/gpu.rs:626-637 | 125 W of a 250 W critical is 50 %, 700 W saturates at 255, 0/0 gives 0, an activity of 300 wraps to 44 |
| `AmdSensor.ReadThresholds` | sensors/amd-gpu/src/gpu.rs:743-747 | Power uses the power pair, Activity uses (70, 90), every other format the temperature pair |
| `AmdSensor.ViewOf` | sensors/amd-gpu/src/gpu.rs:749-757 | the class is the theme's class for the primary value against the chosen thresholds |
| `AmdSensor.ActivityClassIgnoresTemperatureThresholds` | sensors/amd-gpu/src/gpu.rs:743-747 | under Activity, 95 % activity is critical whatever the temperature thresholds |
| `AmdSensor.NumberSetting` | sensors/amd-gpu/src/gpu.rs:766-780 | temp_warning/temp_critical are replaced only by numeric values |
| `AmdSensor.ConfigureSkipsOrderCheck` | sensors/amd-gpu/src/gpu.rs:764-791 | `configure` accepts temp_warning 95 over a critical of 90, which `build` would reject |
| `AmdSensor.AmdgpuSensor.constructor` | sensors/amd-gpu/src/gpu.rs:381-403 | a built sensor has the builder's settings, temperature/power/utilization shown, memory/frequency hidden and no error history |
| `AmdSensor.AmdgpuSensor.ReadMetricsWithRecovery` | sensors/amd-gpu/src/gpu.rs:468-497 | with the corrected size guard of "## Findings": the result and the new (count, error time, last metrics) are `RecoveryStep` applied to the reader's result; the reader keeps its strategy and its slot, map and last-success time become `ReadFileState` of the read |
| `AmdSensor.AmdgpuSensor.UpdateDisplayConfig` | sensors/amd-gpu/src/gpu.rs:409-456 | the new flags are `DisplayConfigSpec` of the old flags and the custom settings |
| `AmdSensor.AmdgpuSensor.ApplyDisplayOrder` | sensors/amd-gpu/src/gpu.rs:437-455 | the loop clears all five flags and then enables each listed name, giving `FlagsFromOrder` |
| `AmdSensor.AmdgpuSensor.EnableItem` | sensors/amd-gpu/src/gpu.rs:444-452 | one display-order entry enables the flag it names |
| `AmdSensor.AmdgpuSensor.FormatOutput` | sensors/amd-gpu/src/gpu.rs:576-678 | the formatted parts, primary value and percentage are `FormatOutputSpec` of the format and flags |
| `AmdSensor.AmdgpuSensor.Read` | sensors/amd-gpu/src/gpu.rs:714-758 | with the corrected size guard of "## Findings": the recovery state advances by `RecoveryStep`; an error propagates, otherwise the view formats the metrics and classes the primary value against the format's thresholds; the reader keeps its strategy and its slot, map and last-success time become `ReadFileState` of the read |
| `AmdSensor.AmdgpuSensor.InvalidateCache` | sensors/amd-gpu/src/gpu.rs:705-708 | the reader's slot and map and the remembered metrics are cleared; the reader's strategy, error count and last-success time are kept |
| `AmdSensor.AmdgpuSensor.Configure` | sensors/amd-gpu/src/gpu.rs:764-791 | numeric temperature thresholds are applied, flags updated, config replaced, then the cache and the remembered metrics cleared; the reader's strategy, error count and last-success time are kept |
| `AmdSensor.AmdgpuSensor.IsThrottling` | sensors/amd-gpu/src/gpu.rs:699-702 | known iff metrics were remembered, and then true iff their throttle word is non-zero |
| `AmdSensor.Build` | sensors/amd-gpu/src/gpu.rs:319-404 | fails exactly when `BuildSpec` fails, with its error (a threshold-order error carries the offending pair); otherwise a fresh valid sensor with the builder's settings |
| `AmdSysfs.FormatFromName` | sensors/amd-gpu/src/amdgpu/mod.rs:63-70 | any name other than the four known ones selects Compact |
| `AmdSysfs.FormatNamesRoundTrip` | sensors/amd-gpu/src/amdgpu/mod.rs:63-70 | every format's name selects that format, and a non-Compact format is selected by exactly its own name |
| `AmdSysfs.ReadFileUnsigned` | sensors/amd-gpu/src/amdgpu/mod.rs:156-168 | an unreadable file is an Io error; a success is the trimmed text parsed within the width; an unparsable text is a Parse error naming the path |
| `AmdSysfs.ReadFileErrorNamesCause` | sensors/amd-gpu/src/amdgpu/mod.rs:156-168 | a rejected text always has an integer-parse cause, and the Parse message is "Failed to parse <path>: <cause>" |
| `AmdSysfs.ReadTemperature` | sensors/amd-gpu/src/amdgpu/mod.rs:170-189 | no amdgpu hwmon temperature file gives 50; otherwise it succeeds exactly when the u32 read does and yields the millidegrees divided by 1000 (truncated to u16 above 65535 degrees) |
| `AmdSysfs.ReadHwmonPower` | sensors/amd-gpu/src/amdgpu/mod.rs:191-209 | no amdgpu hwmon power file gives 0; otherwise the u32 read of power1_average, errors included |
| `AmdSysfs.ReadFanSpeed` | sensors/amd-gpu/src/amdgpu/mod.rs:231-251 | no fan file gives 0; otherwise it succeeds exactly when the u16 read does and yields pwm * 100 / 255 rounded down |
| `AmdSysfs.FanScaleOfFile` | sensors/amd-gpu/src/amdgpu/mod.rs:231-251 | a pwm1 file holding n reads as n * 100 / 255: 255 is 100 % and 128 is 50 % |
| `AmdSysfs.NumberFileReads` | sensors/amd-gpu/src/amdgpu/mod.rs:156-168 | a file holding a decimal number within the width and a newline reads back as that number |
| `AmdSysfs.LineFrequency` | sensors/amd-gpu/src/amdgpu/mod.rs:217-225 | a line gives a frequency only when it contains '*', and the frequency fits in u16 |
| `AmdSysfs.FrequencyFromLines` | sensors/amd-gpu/src/amdgpu/mod.rs:215-228 | the frequency found in pp_dpm_sclk always fits in u16 |
| `AmdSysfs.FirstStarredLineWins` | sensors/amd-gpu/src/amdgpu/mod.rs:217-225 | lines before the first usable starred line are skipped and lines after it are ignored |
| `AmdSysfs.NoStarredLineGivesDefault` | sensors/amd-gpu/src/amdgpu/mod.rs:228 | without a usable starred line the frequency is the 800 MHz default |
| `AmdSysfs.ReadCurrentFrequency` | sensors/amd-gpu/src/amdgpu/mod.rs:211-229 | the loop over the lines returns the frequency of the first usable starred line, or 800 when the file is missing |
| `AmdSysfs.ReadSysfsMetrics` | sensors/amd-gpu/src/amdgpu/mod.rs:130-154 | Ok exactly when the temperature, gpu_busy_percent, power and fan reads all succeed, and otherwise the first of their errors in that order; on success the temperature is the hwmon reading, the activity the parsed gpu_busy_percent (a u16), the power the microwatts in whole watts rounded down, the frequency the pp_dpm_sclk frequency and the fan speed the pwm1 percentage |
| `AmdSysfs.ShowFlag` | sensors/amd-gpu/src/amdgpu/mod.rs:331-336 | a show_* key that is missing or not a boolean means shown |
| `AmdSysfs.OrderPartsAppend` | sensors/amd-gpu/src/amdgpu/mod.rs:319-328 | display_order entries contribute independently, in list order |
| `AmdSysfs.DisplayOrderParts` | sensors/amd-gpu/src/amdgpu/mod.rs:319-328 | each display_order entry adds its own part exactly where it stands |
| `AmdSysfs.UnrenderedOrderEntries` | sensors/amd-gpu/src/amdgpu/mod.rs:325 | unknown names such as "memory" or "frequency", and non-string entries, add nothing |
| `AmdSysfs.DisplayTextDefaults` | sensors/amd-gpu/src/amdgpu/mod.rs:312-355 | with no custom keys the text is "<t>°C <p>W <a>%"; an empty display_order falls back to "<a>%" |
| `AmdSysfs.BuildDisplayText` | sensors/amd-gpu/src/amdgpu/mod.rs:312-355 | the built text is the display_order parts or the shown parts, joined by spaces, with the activity as fallback when none |
| `AmdSysfs.OrderedParts` | sensors/amd-gpu/src/amdgpu/mod.rs:319-328 | the loop over display_order collects exactly the parts of the known names, in order |
| `AmdSysfs.TemperaturePercent` | sensors/amd-gpu/src/amdgpu/mod.rs:295 | the temperature as a percentage of 100 degrees, capped at 100 |
| `AmdSysfs.PowerPercent` | sensors/amd-gpu/src/amdgpu/mod.rs:412 | the power as a percentage of 300 W, rounded down and capped at 100 |
| `AmdSysfs.FormatThresholds` | sensors/amd-gpu/src/amdgpu/mod.rs:289-440 | with the configuration's GPU icon, every format carries the tooltip and a percentage (at most 100, except Activity whose u8 cast wraps below 256); the class comes from the temperature against the sensor thresholds, from the power against 200/250 W, or from the activity against 70/90 % |
| `AmdSysfs.PowerFormatExamples` | sensors/amd-gpu/src/amdgpu/mod.rs:405-423 | 250 W reads as 83 % and critical; 600 W is capped at 100 % |
| `AmdSysfs.AmdgpuSysfsSensor.constructor` | sensors/amd-gpu/src/amdgpu/mod.rs:54-82 | the sensor is named "amd-gpu", keeps the path and thresholds, picks the format by name and starts from the default configuration |
| `AmdSysfs.NewSensor` | sensors/amd-gpu/src/amdgpu/mod.rs:54-82 | a failed GPU discovery propagates; otherwise a fresh sensor on the discovered path, named "amd-gpu", with the given temperature thresholds, the format chosen by name and the default configuration |
| `AmdSysfs.AmdgpuSysfsSensor.Read` | sensors/amd-gpu/src/amdgpu/mod.rs:266-276 | a metrics error propagates; otherwise the output is the configured format applied to the metrics, with the configuration's GPU icon |
| `AmdSysfs.AmdgpuSysfsSensor.Configure` | sensors/amd-gpu/src/amdgpu/mod.rs:282-286 | the configuration is replaced, nothing else changes |
| `Cpu.Active` | sensors/cpu/src/cpu.rs:118-120 | the time outside idle and iowait, never more than the total |
| `Cpu.UsagePercent` | sensors/cpu/src/cpu.rs:132-142 | within [0, 100]; 0 when the saturating total delta is 0; otherwise active delta / total delta * 100, clamped at 100 |
| `Cpu.UsageExample` | sensors/cpu/src/cpu.rs:684-697 | 150 active jiffies out of 1000 is 15 % |
| `Cpu.ParseAllU64` | sensors/cpu/src/cpu.rs:155-165 | a success holds every word parsed as a u64, in order |
| `Cpu.ParseStatLineContract` | sensors/cpu/src/cpu.rs:150-183 | a parsed line starts with "cpu" and its fields are the u64 words after the label, missing iowait..steal being 0; a "cpu" line with 1 to 3 numeric fields is the "Insufficient CPU statistics" error |
| `Cpu.ParsedStatFields` | sensors/cpu/src/cpu.rs:174-182 | user, nice, system and idle are words 1 to 4; iowait and steal are 0 when absent and read from their word when present |
| `Cpu.NatStringsParse` | sensors/cpu/src/cpu.rs:155-160 | decimal renderings of u64 values are single words that parse back to the values |
| `Cpu.StatLineWords` | sensors/cpu/src/cpu.rs:155-160 | a label and eight rendered counters split back into those nine words |
| `Cpu.StatLineRoundTrip` | sensors/cpu/src/cpu.rs:150-183 | a "cpu" label followed by the eight counters parses back to exactly those counters |
| `Cpu.StatLineShape` | sensors/cpu/src/cpu.rs:150-160 | such a line has nine words and its last eight parse as the counters |
| `Cpu.ParseNineWords` | sensors/cpu/src/cpu.rs:155-182 | a "cpu" line of nine words whose last eight are u64 values reads as those eight, at most 8 fields being taken |
| `Cpu.ParseCoreLine` | sensors/cpu/src/cpu.rs:86-105 | the aggregate "cpu " line and non-cpu lines are rejected; a success comes from a per-core line whose counters are the stat-line parse |
| `Cpu.CoreTagIsWord` | sensors/cpu/src/cpu.rs:91-97 | "cpu<id>" is one word whose text after "cpu" is the id |
| `Cpu.ParseCoreLineOf` | sensors/cpu/src/cpu.rs:86-105 | a per-core line whose first word is "cpu" plus a usize and whose counters parse yields that core id and counters |
| `Cpu.CoreLineShape` | sensors/cpu/src/cpu.rs:87 | "cpu<id> v0 … v7" is a per-core line |
| `Cpu.CoreTagPrefix` | sensors/cpu/src/cpu.rs:87 | a first word "cpu" followed by a non-space character makes a per-core line |
| `Cpu.CoreLineRoundTrip` | sensors/cpu/src/cpu.rs:86-105 | "cpu<id>" and eight counters parse back to that core id and those counters |
| `Cpu.AggregateLineIsNotCore` | sensors/cpu/src/cpu.rs:87-89 | the aggregate line is always refused as "Line is not a CPU core line" |
| `Cpu.CoreStatsFromParsed` | sensors/cpu/src/cpu.rs:377-385 | at most one core per line, each from a per-core line that parses |
| `Cpu.CoreStatsFromStep` | sensors/cpu/src/cpu.rs:377-385 | other lines are skipped, a failing per-core line ends the collection, a parsing one is appended |
| `Cpu.BadCoreLineStopsCollection` | sensors/cpu/src/cpu.rs:380-383 | a per-core line that fails to parse hides all later cores, while a non-core line does not |
| `Cpu.ReadAllCpuStats` | sensors/cpu/src/cpu.rs:367-390 | the read error or empty-file error, else the aggregate line's stats and the collected cores |
| `Cpu.CollectCores` | sensors/cpu/src/cpu.rs:377-385 | the loop collects exactly the per-core stats up to the first failing per-core line |
| `Cpu.FindCore` | sensors/cpu/src/cpu.rs:414-415 | the previous sample of the core with that id, or none when no previous core has it |
| `Cpu.CoreUsagesMatched` | sensors/cpu/src/cpu.rs:412-419 | every per-core usage is within [0, 100] and belongs to a core present in both samples; every such core gets one |
| `Cpu.CoreUsages` | sensors/cpu/src/cpu.rs:412-419 | the loop pairs each current core with its previous sample, in current order |
| `Cpu.PairsOf` | sensors/cpu/src/cpu.rs:215-217 | one key/value pair per line, from the trimmed line split at the first colon |
| `Cpu.InfoFoldCount` | sensors/cpu/src/cpu.rs:225-227 | core_count is the number of "processor" lines |
| `Cpu.InfoFoldName` | sensors/cpu/src/cpu.rs:222-224 | the first "model name" is kept and never replaced |
| `Cpu.InfoFoldFrequency` | sensors/cpu/src/cpu.rs:228-230 | once a "cpu MHz" value has parsed it is never replaced |
| `Cpu.CpuInfoContract` | sensors/cpu/src/cpu.rs:210-241 | the core count is the number of processor lines and the model name is the first "model name" value, or "Unknown CPU" |
| `Cpu.InfoLine` | sensors/cpu/src/cpu.rs:216-232 | one loop step updates the three locals as the step function says |
| `Cpu.ParseCpuinfoContent` | sensors/cpu/src/cpu.rs:210-241 | the loop over the lines yields the cpuinfo specification |
| `Cpu.OldSampleIgnoresSecondReading` | sensors/cpu/src/cpu.rs:404-438 | with a previous sample at least 100 ms old, the second reading plays no part |
| `Cpu.CpuSensor.constructor` | sensors/cpu/src/cpu.rs:320-339 | named "cpu", default configuration, the thresholds as given, no previous sample and an empty history |
| `Cpu.NewCpuSensor` | sensors/cpu/src/cpu.rs:320-339 | critical <= warning is the Config threshold error; otherwise a fresh sensor named "cpu" with the default configuration, those thresholds, no previous sample (total or per core) and no history |
| `Cpu.CpuSensor.CalculateUsage` | sensors/cpu/src/cpu.rs:398-467 | errors leave the previous sample alone; a success returns the usage of the specification and makes the first reading, timed now, the new previous sample |
| `Cpu.CpuSensor.Read` | sensors/cpu/src/cpu.rs:473-604 | on success the usage is pushed into a history bounded by sparkline_length, both previous samples become the first reading, the percentage is the rounded clamped usage and the class follows the thresholds; an error is the usage calculation's error and changes neither the history nor the previous samples |
| `Cpu.CpuSensor.Configure` | sensors/cpu/src/cpu.rs:611-622 | an interval below 100 ms is a Config error and keeps the old configuration; otherwise the configuration is replaced |
| `Cpu.AvailabilitySpec` | sensors/cpu/src/cpu.rs:628-646 | a missing /proc/stat is Unavailable, a permission error becomes PermissionDenied(/proc/stat), a readable parsing file is Ok |
| `Memory.MemUsed` | sensors/memory/src/memory.rs:65-67 | total minus available, saturating at 0: used + available = total when available <= total, else 0 |
| `Memory.SwapUsed` | sensors/memory/src/memory.rs:91-93 | swap total minus swap free, saturating at 0 |
| `Memory.TotalUsedWithSwap` | sensors/memory/src/memory.rs:107-115 | combined use never exceeds combined capacity |
| `Memory.PercentagesBounded` | sensors/memory/src/memory.rs:71-126 | each percentage is 0 when its denominator is 0; used, swap and combined percentages lie within [0, 100]; available % is at most 100 when available <= total |
| `Memory.UsedAndAvailableComplement` | sensors/memory/src/memory.rs:65-89 | with a nonzero total and available <= total, used % + available % = 100 |
| `Memory.NoSwapCombinedIsRam` | sensors/memory/src/memory.rs:107-126 | without swap the combined percentage is the RAM percentage |
| `Memory.CombinedBetween` | sensors/memory/src/memory.rs:107-126 | the combined percentage lies between the RAM and the swap percentages |
| `Memory.CalculationExample` | sensors/memory/src/memory.rs:520-543 | the library's 16 GB / 8 GB swap example: 4 GB used (25 %), 75 % available, 2 GB swap used (25 %), 6 of 24 GB combined (25 %) |
| `Memory.KeyOf` | sensors/memory/src/memory.rs:169-178 | a key is recognised only under its own name |
| `Memory.KeyNamesRoundTrip` | sensors/memory/src/memory.rs:169-178 | every recognised key's name selects that key |
| `Memory.SetFieldFrame` | sensors/memory/src/memory.rs:169-178 | assigning one key changes that field and no other |
| `Memory.Fallback` | sensors/memory/src/memory.rs:181-183 | a nonzero MemAvailable is kept; a zero one becomes MemFree + Buffers + Cached |
| `Memory.MeminfoLineWords` | sensors/memory/src/memory.rs:154 | a kernel-style "Key: n kB" line is the three words key:, n and kB |
| `Memory.MeminfoLineSets` | sensors/memory/src/memory.rs:153-178 | such a line sets its known key to n * 1024 bytes and leaves the record alone for an unknown key |
| `Memory.MemLineStepContract` | sensors/memory/src/memory.rs:153-178 | lines of fewer than two words are skipped; a non-u64 second word is the "Failed to parse <key> value" error whatever the key; otherwise the key without trailing colons is assigned value * 1024, unknown keys ignored |
| `Memory.MemFoldStopsAtFailure` | sensors/memory/src/memory.rs:160-163 | the first failing line's error is the result, whatever follows |
| `Memory.ListingLines` | sensors/memory/src/memory.rs:153-178 | one line per listed key |
| `Memory.AssignedSnoc` | sensors/memory/src/memory.rs:169-178 | each further line assigns its field on top of the earlier ones |
| `Memory.AssignedLastWins` | sensors/memory/src/memory.rs:169-178 | a field holds 1024 times the last value listed for it, or its previous value |
| `Memory.ListingFields` | sensors/memory/src/memory.rs:144-178 | from zero, each field is 1024 times its last listed value, or 0 when not listed |
| `Memory.ListingParses` | sensors/memory/src/memory.rs:153-178 | a listing of kernel-style lines parses to its values assigned in order |
| `Memory.MeminfoListingRoundTrip` | sensors/memory/src/memory.rs:144-194 | parsing a kernel-style listing yields its values in bytes, then the MemAvailable fallback |
| `Memory.MemFoldErrorsAreParse` | sensors/memory/src/memory.rs:160-163 | the parse fails only with a Parse error |
| `Memory.MeminfoFields` | sensors/memory/src/memory.rs:153-179 | the loop over the seven locals computes the line-by-line fold |
| `Memory.ParseMeminfoContent` | sensors/memory/src/memory.rs:144-194 | the loop, then the fallback, yields the meminfo specification |
| `Memory.SelectValueContract` | sensors/memory/src/memory.rs:409-435 | show_available ignores include_swap and themes on 100 − available %, which equals used % when available <= total; swap without swap space changes nothing; the used figures lie within [0, 100] |
| `Memory.MemorySensor.constructor` | sensors/memory/src/memory.rs:238-247 | named "memory", default configuration, the given thresholds and flags, empty history |
| `Memory.MemorySensor.Read` | sensors/memory/src/memory.rs:403-455 | a meminfo error propagates and leaves the history; otherwise the selected value is pushed into the bounded history, the percentage is it rounded and clamped and the class follows the thresholds |
| `Memory.MemorySensor.Configure` | sensors/memory/src/memory.rs:461-464 | any configuration is accepted and replaces the old one |
| `Memory.NewMemorySensor` | sensors/memory/src/memory.rs:225-248 | critical <= warning is the Config threshold error; otherwise a fresh sensor named "memory" with the default configuration, the given thresholds and flags and an empty history |
| `Memory.WithDefaults` | sensors/memory/src/memory.rs:252-254 | always succeeds: "memory", the default configuration, 70 % / 90 %, RAM only, used figure, empty history |
| `Memory.WithSwap` | sensors/memory/src/memory.rs:257-262 | critical <= warning is the Config threshold error; otherwise `new(w, c, true, false)`: "memory", the default configuration, those thresholds, swap included, used figure, empty history |
| `Memory.ShowAvailable` | sensors/memory/src/memory.rs:265-270 | critical <= warning is the Config threshold error; otherwise `new(w, c, false, true)`: "memory", the default configuration, those thresholds, RAM only, available figure, empty history |
| `Memory.MemoryAvailability` | sensors/memory/src/memory.rs:470-490 | a missing /proc/meminfo is Unavailable, a permission error becomes PermissionDenied, otherwise it succeeds exactly when the file parses and fails with its parse error |
| `Disk.ConvertedErrors` | sensors/disk/src/disk.rs:69-83 | a converted disk error is temporary only for an interrupted or timed-out command; InvalidPath becomes InvalidData carrying the path; UsageCalculation and PerformanceMonitoring become Parse errors with their reason |
| `Disk.UsedPercentage` | sensors/disk/src/disk.rs:133-139 | 0 for an empty filesystem, otherwise used / total * 100, within [0, 100] when used <= total |
| `Disk.AvailablePercentage` | sensors/disk/src/disk.rs:142-148 | 0 for an empty filesystem, otherwise available / total * 100, within [0, 100] when available <= total |
| `Disk.InodeUsagePercentage` | sensors/disk/src/disk.rs:151-158 | present exactly when both inode counts are known and the total is nonzero, and then used / total * 100 |
| `Disk.PercentagesComplement` | sensors/disk/src/disk.rs:133-148 | when used + available = total > 0 the two percentages sum to 100 |
| `Disk.PercentageExample` | sensors/disk/src/disk.rs:807-824 | the library's example: 60 % used, 40 % available, 30 % of inodes |
| `Disk.TrendOf` | sensors/disk/src/disk.rs:205-222 | none with fewer than two samples or less than one whole second between the first and the last; otherwise the change scaled to one day |
| `Disk.PerDay` | sensors/disk/src/disk.rs:216-219 | a change over a span, scaled to one day |
| `Disk.TrendSign` | sensors/disk/src/disk.rs:205-222 | a rising usage gives a positive trend and a falling one a negative trend |
| `Disk.UsageTrend.constructor` | sensors/disk/src/disk.rs:188-193 | an empty history with the given bound |
| `Disk.UsageTrend.AddSample` | sensors/disk/src/disk.rs:195-202 | the sample is appended and the oldest dropped once the history exceeds its bound |
| `Disk.TrendExample` | sensors/disk/src/disk.rs:827-839 | 50 %, 52 % and 54 % an hour apart rise 48 points a day |
| `Disk.DfRowOf` | sensors/disk/src/disk.rs:536-549 | succeeds exactly when fields 2, 3 and 4 parse as u64, giving device, type and the three sizes; otherwise the error names the first field that failed |
| `Disk.ParseDfOutput` | sensors/disk/src/disk.rs:530-553 | the loop skips the header and decides on the first line with at least six fields |
| `Disk.DfFirstDataLine` | sensors/disk/src/disk.rs:532-550 | short lines before the first data line are skipped and lines after it are ignored |
| `Disk.DfNoDataLine` | sensors/disk/src/disk.rs:552 | without a line of at least six fields the result is "Could not parse df output" |
| `Disk.DfLineWords` | sensors/disk/src/disk.rs:533 | a printed df row splits back into its seven words |
| `Disk.DfLineParses` | sensors/disk/src/disk.rs:530-553 | a printed df row with sizes within u64 parses back to the same row |
| `Disk.InodeSpec` | sensors/disk/src/disk.rs:556-585 | a spawn failure is an Io error, a failing df -i gives no counts, undecodable output is a Parse error, otherwise the counts of the first line with four fields |
| `Disk.ParseInodeOutput` | sensors/disk/src/disk.rs:574-584 | the loop yields the counts of the first line with at least four fields, each absent when it does not parse |
| `Disk.IsReadonly` | sensors/disk/src/disk.rs:588-603 | an unreadable /proc/mounts is an Io error; otherwise the first mounts line for the path decides |
| `Disk.ReadonlyFirstMatch` | sensors/disk/src/disk.rs:595-600 | the first line whose mount point is the path decides: read-only exactly when "ro" is one of its comma-separated options |
| `Disk.ReadonlyUnmounted` | sensors/disk/src/disk.rs:602 | a path without a mounts line is taken as read-write |
| `Disk.NewBuilder` | sensors/disk/src/disk.rs:287-301 | a builder for the path with warning 80, critical 95, default cache, highest-usage mode and 24 trend samples |
| `Disk.MultiDiskBuilder` | sensors/disk/src/disk.rs:303-317 | the same defaults without a path |
| `Disk.AddPath` | sensors/disk/src/disk.rs:319-323 | the path is appended and nothing else changes |
| `Disk.WithWarningThreshold` | sensors/disk/src/disk.rs:325-329 | the warning threshold is min(t, 100) and nothing else changes |
| `Disk.WithCriticalThreshold` | sensors/disk/src/disk.rs:331-335 | the critical threshold is min(t, 100) and nothing else changes |
| `Disk.WithTrendHistorySize` | sensors/disk/src/disk.rs:367-371 | the trend history size is max(size, 2) and nothing else changes |
| `Disk.BuilderStaysBounded` | sensors/disk/src/disk.rs:287-371 | both constructors start with thresholds <= 100 and a history of at least 2, and every setter keeps that |
| `Disk.DiskSensorName` | sensors/disk/src/disk.rs:400-401 | the name is "disk-" followed by the path's name part (`NamePart`, characterised by `Disk.NamePartChars`) |
| `Disk.NamePartChars` | sensors/disk/src/disk.rs:400-401 | the name part is the path from its first character that is neither '/' nor '-' to its last such character, each '/' shown as '-'; only slashes and dashes are dropped at either end, and it neither starts nor ends with '-' |
| `Disk.DiskSensorNameOfAbsolute` | sensors/disk/src/disk.rs:400-401 | a path "/" + w, where w neither starts nor ends with '/' or '-', gives "disk-" followed by w with every '/' as '-' (so "/mnt/data" gives "disk-mnt-data") |
| `Text.ReplaceChar` | sensors/disk/src/disk.rs:400-401 | `replace` of one character by another is `SwapAll`: the same length, that character swapped position by position |
| `Text.TrimMatchesKeepsMiddle` | sensors/disk/src/disk.rs:400-401 | `trim_matches(c)` keeps the text from right after the leading run of `c`, and only `c` follows what it keeps |
| `Text.ReplaceThenTrim` | sensors/disk/src/disk.rs:400-401 | replacing then trimming keeps the original text between its leading and trailing runs of characters that become the trimmed one, swapped |
| `Text.ReplaceThenTrimAfterOne` | sensors/disk/src/disk.rs:400-401 | after one leading separator, a text that neither starts nor ends with a trimmed character is kept whole, swapped |
| `Disk.BuildSpec` | sensors/disk/src/disk.rs:373-398 | no path is a Config error; a missing path or a non-directory is InvalidData naming it; warning >= critical is the threshold Config error; it succeeds exactly otherwise, with the disk name |
| `Disk.BuilderExamples` | sensors/disk/src/disk.rs:842-869 | thresholds 75/90 build; 95/80 fail with a Config error whose message starts "Warning threshold" |
| `Disk.FetchSpec` | sensors/disk/src/disk.rs:478-527 | a spawn failure is an Io error, a failing df a Parse error with its stderr; a success carries the first df data row, the fetch time and the read-only flag, and no inode counts unless monitored |
| `Disk.CacheLifetime` | sensors/disk/src/disk.rs:457-461 | a cached reading is served exactly while its age is below max_age; a zero max_age or an empty slot never serves |
| `Disk.CacheFromCustom` | sensors/disk/src/disk.rs:745-757 | cache_max_age_ms replaces max_age only when it is a u64 number, aggressive_cache replaces aggressive only when it is a boolean |
| `Disk.CacheFromCustomIdempotent` | sensors/disk/src/disk.rs:745-757 | applying the same configuration twice equals applying it once; without those keys the cache settings stay |
| `Disk.ReadingOf` | sensors/disk/src/disk.rs:694-738 | the percentage is the used %, or 100 − available %, rounded into u8; the themed value is that figure or, with inode monitoring, the inode % when higher; the class follows the thresholds |
| `Disk.InodesNeverLowerLevel` | sensors/disk/src/disk.rs:719-727 | inode monitoring never lowers the class and never changes the percentage |
| `Disk.FreeViewMatchesUsedView` | sensors/disk/src/disk.rs:698-712 | when used + available = total > 0, showing free space themes exactly like showing used space |
| `Disk.AvailabilitySpec` | sensors/disk/src/disk.rs:773-798 | succeeds exactly when the path exists and df succeeds; otherwise InvalidData "Path no longer exists", the Io error, or "Cannot read disk usage information" |
| `Disk.DiskSensor.constructor` | sensors/disk/src/disk.rs:403-416 | the sensor takes the builder's settings, an empty cache and an empty trend bounded by the builder's size |
| `Disk.DiskSensor.Fetch` | sensors/disk/src/disk.rs:478-527 | the fetch yields the fetch specification |
| `Disk.DiskSensor.GetDiskInfo` | sensors/disk/src/disk.rs:453-475 | serves the cache while fresh; otherwise fetches, samples the trend only with performance monitoring and replaces the cache; a failed fetch or a cache hit changes nothing |
| `Disk.DiskSensor.Read` | sensors/disk/src/disk.rs:694-738 | the reading of the cached or fetched information, errors propagated; the cache is updated as get_disk_info does, and a refresh under performance monitoring pushes (now, used %) into the bounded trend history |
| `Disk.DiskSensor.Configure` | sensors/disk/src/disk.rs:744-767 | the configuration is replaced, the cache settings follow the custom keys and the cached reading is cleared |
| `Disk.Build` | sensors/disk/src/disk.rs:373-416 | fails exactly as the build specification does; otherwise a fresh sensor with the builder's settings |
| `Disk.NewDiskSensor` | sensors/disk/src/disk.rs:448-450 | succeeds exactly for an existing directory, failing with the build error otherwise; a success has the disk name, thresholds 80/95, no cached reading, the default 5 s cache, the display and monitoring flags off and an empty trend of at most 24 samples |
| `MultiDisk.UsedPercentage` | sensors/disk/src/multi_disk.rs:38-44 | 0 for an empty disk, otherwise used / total * 100, never negative and at most 100 when used <= total |
| `MultiDisk.AvailablePercentage` | sensors/disk/src/multi_disk.rs:46-52 | 0 for an empty disk, otherwise available / total * 100, never negative and at most 100 when available <= total |
| `MultiDisk.SizeError` | sensors/disk/src/multi_disk.rs:119-133 | a size field that is not a u64 gives a Parse error naming the field and the integer-parse cause |
| `MultiDisk.InfoOf` | sensors/disk/src/multi_disk.rs:115-141 | a data line succeeds exactly when fields 2, 3 and 4 parse as u64, giving the sizes, type and device; otherwise the error names the first size that failed |
| `MultiDisk.InfoFrom` | sensors/disk/src/multi_disk.rs:113-148 | a success is about the probed path and every failure is a Parse error |
| `MultiDisk.UsageSpec` | sensors/disk/src/multi_disk.rs:97-155 | a spawn failure is an Io error, a failing df is a temporary Unavailable naming the path, undecodable output a Parse error "Invalid UTF-8: " followed by the decoder's text; a success is the first line of at least seven fields |
| `MultiDisk.GetDiskUsage` | sensors/disk/src/multi_disk.rs:97-155 | the line loop yields the usage specification |
| `MultiDisk.Probes` | sensors/disk/src/multi_disk.rs:160-165 | one probe per path, in path order |
| `MultiDisk.Oks` | sensors/disk/src/multi_disk.rs:160-165 | no more successes than probes |
| `MultiDisk.GatherSpec` | sensors/disk/src/multi_disk.rs:157-176 | succeeds exactly when some path answers, with the answers in path order; otherwise a temporary "No disk information available" |
| `MultiDisk.GetAllDiskInfo` | sensors/disk/src/multi_disk.rs:157-176 | the loop over the paths yields the gathering specification |
| `MultiDisk.OksFromResults` | sensors/disk/src/multi_disk.rs:160-165 | every kept entry is one of the successful answers |
| `MultiDisk.OksAllOk` | sensors/disk/src/multi_disk.rs:160-165 | when every probe succeeds, all answers are kept in order |
| `MultiDisk.OksAppend` | sensors/disk/src/multi_disk.rs:160-165 | the answers kept from two runs of probes are those of each in turn |
| `MultiDisk.GatheredFromPaths` | sensors/disk/src/multi_disk.rs:157-176 | every gathered entry is the answer of one of the paths |
| `MultiDisk.AllPathsGathered` | sensors/disk/src/multi_disk.rs:157-176 | when every path answers, the entries are their answers one to one |
| `MultiDisk.HighestIndex` | sensors/disk/src/multi_disk.rs:185-190 | an entry with maximal used %, the last of the fullest as max_by picks |
| `MultiDisk.CombinedInfo` | sensors/disk/src/multi_disk.rs:191-205 | "All disks", "combined", "<n> disks" and the sums of total, used and available |
| `MultiDisk.SumWithin` | sensors/disk/src/multi_disk.rs:193-195 | if every disk has used at most m percent of its size, so do the sums |
| `MultiDisk.CombinedWithinHighest` | sensors/disk/src/multi_disk.rs:185-205 | the combined used % never exceeds the highest single used % |
| `MultiDisk.Select` | sensors/disk/src/multi_disk.rs:183-220 | HighestUsage shows a fullest disk, Combined the sums without a title, Cycle the entry at current mod n, Specific(i) entry i or, for i >= n, "No disk at index i"; every titled entry is labelled with its basename |
| `MultiDisk.NextMode` | sensors/disk/src/multi_disk.rs:207-212 | a read moves Cycle to (current + 1) mod n and leaves other modes alone |
| `MultiDisk.AdvanceLast` | sensors/disk/src/multi_disk.rs:207-212 | k + 1 reads are k reads and one more step |
| `MultiDisk.CycleRoundRobin` | sensors/disk/src/multi_disk.rs:207-212 | after k reads over n disks the cycle position is (c + k) mod n, so every disk is shown in turn |
| `MultiDisk.ReadingOf` | sensors/disk/src/multi_disk.rs:222-253 | the used % (or 100 − available %) is the themed value, its u8 rounding the percentage; the text shows the rounded used or free figure; the class follows the thresholds |
| `MultiDisk.HighestIsMostSevere` | sensors/disk/src/multi_disk.rs:185-190 | the disk HighestUsage shows is at least as severe as every other |
| `MultiDisk.FreeViewMatchesUsedView` | sensors/disk/src/multi_disk.rs:222-238 | when used + available = total > 0 the free view themes like the used view |
| `MultiDisk.LastIndexOf` | sensors/disk/src/multi_disk.rs:310 | the position of the last occurrence, or none exactly when absent |
| `MultiDisk.Basename` | sensors/disk/src/multi_disk.rs:306-312 | "/" is "root"; a path ending in '/' or without '/' is returned whole; otherwise the non-empty last segment |
| `MultiDisk.BasenameOfSegment` | sensors/disk/src/multi_disk.rs:306-312 | the base name of prefix/w is w for any segment w |
| `MultiDisk.BasenameExamples` | sensors/disk/src/multi_disk.rs:306-312 | "/" gives "root" and "/mnt/data/" stays whole |
| `MultiDisk.MultiName` | sensors/disk/src/multi_disk.rs:80-84 | "disk-multi" unless exactly one path, and always starting with "disk-" |
| `MultiDisk.NamesOfRoot` | sensors/disk/src/multi_disk.rs:80-84 | the root path is named "disk--" here but "disk-" by the single-disk builder |
| `MultiDisk.FirstMissing` | sensors/disk/src/multi_disk.rs:71-78 | the first path that does not exist, or none when all exist |
| `MultiDisk.NewSpec` | sensors/disk/src/multi_disk.rs:56-95 | an empty list is "No paths specified"; a missing path is "Path does not exist: <path>"; it succeeds exactly otherwise, with the sensor name |
| `MultiDisk.MultiDiskSensor.constructor` | sensors/disk/src/multi_disk.rs:86-94 | the given name, paths, thresholds, view and mode, with the default theme |
| `MultiDisk.MultiDiskSensor.Read` | sensors/disk/src/multi_disk.rs:181-259 | no answering path is an error and keeps the mode; otherwise the mode advances, a Specific index beyond the answers is an error, and the reading is of the selected entry |
| `MultiDisk.MultiDiskSensor.Configure` | sensors/disk/src/multi_disk.rs:265-268 | only the theme is taken |
| `MultiDisk.NewMultiDiskSensor` | sensors/disk/src/multi_disk.rs:56-95 | fails exactly as the constructor specification does; otherwise a fresh sensor with the given settings |
| `Battery.TimeRemainingHours` | sensors/battery/src/battery.rs:36-67 | only a charging or discharging battery has a time; a time is never negative and a charging time is positive |
| `Battery.TimeRemainingContract` | sensors/battery/src/battery.rs:36-67 | discharging: a time exists exactly when energy and a positive power, or charge and a positive current, are known, and time * rate equals the energy (or charge) left; charging: exactly when energy (or charge) is still missing to full at a positive rate, and the present amount plus time * rate reaches full; energy takes precedence over charge |
| `Battery.TwoDigits` | sensors/battery/src/battery.rs:74 | the `{:02}` minutes field is exactly two digits that read back as the value |
| `Battery.ClockTextReadsBack` | sensors/battery/src/battery.rs:69-78 | the `h:mm` text splits at its colon into hours and two-digit minutes whose value hours * 60 + minutes is the total number of minutes |
| `Battery.FormatTimeRemaining` | sensors/battery/src/battery.rs:69-78 | the text is "Unknown" exactly when no time remaining can be computed |
| `Battery.HealthOf` | sensors/battery/src/battery.rs:83-88 | the `as u8` health of full over design is at most 255 and, when full <= design, the largest whole percentage not above full / design * 100 |
| `Battery.HealthBound` | sensors/battery/src/battery.rs:83-88 | the saturating cast of the real ratio, times 100, is the floor of the exact percentage and at most 100 when full <= design |
| `Battery.HealthPercentage` | sensors/battery/src/battery.rs:80-92 | a health value, when present, fits in a u8 |
| `Battery.HealthContract` | sensors/battery/src/battery.rs:80-92 | health exists exactly when energy full/design with a positive design, or charge full/design with a positive design, are known; energy takes precedence; at most 100 when full does not exceed design |
| `Battery.BatteryIndicator` | sensors/battery/src/battery.rs:113-124 | "Charging" gives the charging mark, "Full" the full mark, any other status the charge bucket of the percentage |
| `Battery.ChargeBucketContract` | sensors/battery/src/battery.rs:117-122 | the buckets are exactly 80 and up, 50-79, 20-49 and below 20, and less charge never gives a less worrying bucket |
| `Battery.SelectIconContract` | sensors/battery/src/battery.rs:288-299 | the charging icon is chosen exactly for "Charging"; otherwise more charge (up to 100) never shows an emptier icon, the full icon is chosen exactly for 90-100 and a capacity above 100 falls to the empty icon |
| `Battery.BatteryLevel` | sensors/battery/src/battery.rs:402-410 | critical exactly when capacity <= critical threshold, warning exactly when critical < capacity <= warning threshold |
| `Battery.BatteryLevelAntitone` | sensors/battery/src/battery.rs:402-410 | less charge never gives a lower severity |
| `Battery.BatteryClass` | sensors/battery/src/battery.rs:398-412 | "Charging" and "Full" batteries get the good class whatever their charge; others get the class of their threshold level |
| `Battery.OptionalUnsigned` | sensors/battery/src/battery.rs:237-278 | an optional number is present exactly when its file is readable and its trimmed text parses within the type's range |
| `Battery.OptionalText` | sensors/battery/src/battery.rs:249-280 | an optional text attribute is present exactly when its file is readable |
| `Battery.CapacityOf` | sensors/battery/src/battery.rs:254-261 | an unreadable capacity file is an Io error; an unparsable one a Parse error starting "Failed to parse capacity: "; a success is the u8 the trimmed text parses to |
| `Battery.InfoFrom` | sensors/battery/src/battery.rs:213-281 | the record carries the given capacity and status |
| `Battery.BatteryInfoSpecContract` | sensors/battery/src/battery.rs:212-283 | reading succeeds exactly when capacity parses and status is readable; a capacity error is returned as is; on success the capacity fits a u8 and the status is the trimmed file text |
| `Battery.CapacityReadsBack` | sensors/battery/src/battery.rs:254-261 | a capacity file holding the decimal text of a u8 and a newline reads back as that value |
| `Battery.TimeLine` | sensors/battery/src/battery.rs:314-321 | the tooltip has a time line exactly for charging and discharging batteries |
| `Battery.ReadingOf` | sensors/battery/src/battery.rs:449-463 | the reading reports the capacity as its percentage, the battery class as its class and the health percentage |
| `Battery.BatterySensor.constructor` | sensors/battery/src/battery.rs:167-175 | a new sensor holds the name, path and thresholds, the default configuration and no previous capacity or time |
| `Battery.BatterySensor.ReadBatteryInfo` | sensors/battery/src/battery.rs:212-283 | the record read is the one the attribute files determine |
| `Battery.BatterySensor.Measure` | sensors/battery/src/battery.rs:449-452 | the reading is the one the attribute files, configuration and thresholds determine |
| `Battery.BatterySensor.Read` | sensors/battery/src/battery.rs:449-464 | returns that reading; on success records the capacity and the time, on failure changes nothing |
| `Battery.BatterySensor.Configure` | sensors/battery/src/battery.rs:470-473 | any configuration is accepted and replaces the old one |
| `Battery.FileName` | sensors/battery/src/battery.rs:161-165 | when present, the file name is the last component once trailing slashes and `.` components are dropped: a non-empty text without a slash and neither `.` nor `..`; it is absent exactly when that component is empty, `.` or `..` |
| `Battery.FileNameNone` | sensors/battery/src/battery.rs:161-165 | the empty path, `.`, `..` and `/` have no file name |
| `Battery.FileNameSkipsTail` | sensors/battery/src/battery.rs:161-165 | a trailing `/.` is skipped: `BAT0/.` names `BAT0` |
| `Battery.LastSegment` | sensors/battery/src/battery.rs:161-165 | the result has no slash and is either the whole path or exactly what follows its last slash |
| `Battery.NewCheck` | sensors/battery/src/battery.rs:137-176 | a missing path is Unavailable (not temporary) naming it; a readable type file other than "Battery" is Unavailable naming the path and type; without a type file the path is accepted; a success names the battery after its file name, "battery" when it has none |
| `Battery.NewBatterySensor` | sensors/battery/src/battery.rs:126-176 | a named battery is looked up under /sys/class/power_supply, otherwise the discovered one (whose error is returned); the sensor is created exactly when the path checks pass, with the given thresholds, the default configuration and no previous capacity or time |
| `Battery.NamedBatteryName` | sensors/battery/src/battery.rs:131-165 | a battery opened by a plain name (not empty, `.` or `..`, without a slash) is named after it |
| `Battery.LastSegmentAfterSlash` | sensors/battery/src/battery.rs:161-165 | the last segment of a path ending in a slash followed by a slash-free name is that name |
| `Battery.BatteryExamples` | sensors/battery/src/battery.rs:69-78 | 90 minutes read "1:30", 5 % shows as "  5%", 85 % discharging is the high mark, charging shows the charging mark and 70 % the three-quarters icon |
| `BatteryErrors.SafetyCriticalNotRecoverable` | sensors/battery/src/error.rs:187-247 | a thermal battery error, the only safety-critical one, is never recoverable |
| `BatteryErrors.CategoryIdentifiesVariant` | sensors/battery/src/error.rs:208-227 | each variant has its own category tag, from which the variant can be recovered |
| `BatteryErrors.CategoriesDistinct` | sensors/battery/src/error.rs:208-227 | two errors with the same category are the same variant |
| `BatteryErrors.RetryDelay` | sensors/battery/src/error.rs:229-241 | no delay exactly for unrecoverable errors; 500 ms for a timeout, 1 s for a resource, 2 s for a service, 100 ms for analytics and 250 ms for every other recoverable error |
| `BatteryErrors.ConversionsRetriedAfterDefault` | sensors/battery/src/error.rs:249-272 | I/O, integer, float and JSON errors convert to Io and Parse errors that are retried after 250 ms, tagged "io" and "parse" |
| `BatteryErrors.DelayForAttempt` | sensors/battery/src/error.rs:302-312 | attempt 0 waits the base delay, later attempts never more than the maximum |
| `BatteryErrors.ShouldRetry` | sensors/battery/src/error.rs:315-322 | a retry needs attempts left and a recoverable error; with safety handling on, a safety-critical error is never retried; for other errors the two conditions are also sufficient |
| `BatteryErrors.SafetyHandlingRedundant` | sensors/battery/src/error.rs:315-322 | switching the safety-critical handling flag never changes the decision, since safety-critical errors are unrecoverable anyway |
| `BatteryErrors.RetriedErrorsHaveDelay` | sensors/battery/src/error.rs:229-322 | an error granted a retry always has a retry delay |
| `BatteryErrors.DefaultStrategyDelays` | sensors/battery/src/error.rs:288-312 | the default strategy waits 200, 400 and 800 ms on attempts 0-2 and never less on a later attempt |
| `BatteryErrors.SourceExamples` | sensors/battery/src/error.rs:340-372 | a missing battery is "not_found" and final; a thermal error is safety-critical and final; an I/O error is retried at attempt 0 but not at 5; the delay grows from attempt 1 to 2 |
| `ThermalErrors.SafetyCriticalNotRecoverable` | sensors/thermal/src/error.rs:144-175 | critical temperature, throttling and cooling failure are never recoverable |
| `ThermalErrors.SeverityOf` | sensors/thermal/src/error.rs:177-188 | critical exactly for critical temperature and cooling failure, high exactly for throttling and fan control, medium exactly for configuration and permission errors |
| `ThermalErrors.SafetyCriticalSeverity` | sensors/thermal/src/error.rs:167-188 | a safety-critical error is at least high severity, and every critical-severity error is safety-critical |
| `ThermalErrors.SeverityLabelsDistinct` | sensors/thermal/src/error.rs:241-250 | the displayed severity labels are pairwise different |
| `ThermalErrors.CategoryIdentifiesVariant` | sensors/thermal/src/error.rs:190-211 | each variant has its own category tag, from which the variant can be recovered |
| `ThermalErrors.CategoriesDistinct` | sensors/thermal/src/error.rs:190-211 | two errors with the same category are the same variant |
| `ThermalErrors.RetryDelay` | sensors/thermal/src/error.rs:213-225 | no delay exactly for unrecoverable errors; 500 ms for a timeout, 1 s for a resource, 2 s for a service, 100 ms for fan control and 250 ms for every other recoverable error |
| `ThermalErrors.ConversionsRetriedAfterDefault` | sensors/thermal/src/error.rs:252-275 | I/O, float, integer and JSON errors convert to low-severity errors retried after 250 ms |
| `ThermalErrors.DelayForAttempt` | sensors/thermal/src/error.rs:308-318 | attempt 0 waits the base delay, later attempts never more than the maximum |
| `ThermalErrors.ShouldRetry` | sensors/thermal/src/error.rs:321-328 | a retry is granted exactly when attempts remain and the error is recoverable; never for a safety-critical error |
| `ThermalErrors.RetriedErrorsHaveDelay` | sensors/thermal/src/error.rs:213-328 | an error granted a retry has a retry delay and is not of critical severity |
| `ThermalErrors.DefaultStrategyDelays` | sensors/thermal/src/error.rs:293-318 | the default strategy waits 100, 200 and 400 ms on attempts 0-2 and never less on a later attempt |
| `ThermalErrors.SourceExamples` | sensors/thermal/src/error.rs:350-390 | a critical temperature is "critical_temp", final, safety-critical and of critical severity; configuration is medium and I/O low; an I/O error is retried at attempt 0 but not at 5; the delay grows from attempt 1 to 2 |
| `Backoff.DelayForAttempt` | sensors/battery/src/error.rs:302-312 | attempt 0 waits the base; later attempts wait the exact base * multiplier^attempt truncated to whole ms, capped at the maximum; a negative product saturates to 0 |
| `Backoff.PowAtLeastOne` | sensors/battery/src/error.rs:307-308 | a power of a multiplier of at least one is at least one |
| `Backoff.PowMonotone` | sensors/battery/src/error.rs:307-308 | powers of a multiplier of at least one grow with the exponent |
| `Backoff.ExactDelayMonotone` | sensors/battery/src/error.rs:307-308 | the exact delay grows with the attempt for a multiplier of at least one |
| `Backoff.DelayMonotone` | sensors/thermal/src/error.rs:308-318 | with a multiplier of at least one, a later attempt never waits less |
| `NvidiaGpu.MemoryUsagePercent` | sensors/nvidia-gpu/src/nvidia_gpu.rs:47-53 | 0 without memory, otherwise used / total * 100, never negative and at most 100 when used <= total |
| `NvidiaGpu.FirstToken` | sensors/nvidia-gpu/src/nvidia_gpu.rs:152-155 | the first whitespace-separated token, when there is one, is non-empty and free of whitespace |
| `NvidiaGpu.ParseOutputAsWritten` | sensors/nvidia-gpu/src/nvidia_gpu.rs:126-132 | output of fewer than two non-blank lines is rejected as an invalid format |
| `NvidiaGpu.ParseOutput` | sensors/nvidia-gpu/src/nvidia_gpu.rs:126-132 | with the header skip removed, only output without any line is rejected as an invalid format |
| `NvidiaGpu.RequiredErrors` | sensors/nvidia-gpu/src/nvidia_gpu.rs:144-164 | the first of temperature, utilization and memory used that does not parse is the error reported, each with its own message |
| `NvidiaGpu.RequiredValues` | sensors/nvidia-gpu/src/nvidia_gpu.rs:144-164 | the four required readings succeed exactly when each field parses, and are the parsed values of the trimmed floats and of the first tokens (or "0") of the memory fields |
| `NvidiaGpu.ParseFieldsContract` | sensors/nvidia-gpu/src/nvidia_gpu.rs:134-199 | fewer than six fields is an "Insufficient" error naming the count; otherwise the line parses exactly when the required fields do, with their error, and the metrics carry the required readings and the trimmed name and driver version |
| `NvidiaGpu.OptionalFieldsPresent` | sensors/nvidia-gpu/src/nvidia_gpu.rs:166-188 | power draw and the two clocks exist only past the sixth, seventh and eighth field, and the clocks fit a u32 |
| `NvidiaGpu.OptionalFieldsNeverFail` | sensors/nvidia-gpu/src/nvidia_gpu.rs:166-188 | the optional fields never decide success: a line parses exactly when its first six fields do, with the same required readings |
| `NvidiaGpu.InsufficientFieldsNamesCount` | sensors/nvidia-gpu/src/nvidia_gpu.rs:134-139 | the refusal names the number of fields found, different counts giving different messages |
| `NvidiaGpu.AsWrittenIgnoresFirstLine` | sensors/nvidia-gpu/src/nvidia_gpu.rs:126-132 | as written, the result depends only on the second line: the first is discarded as a header |
| `NvidiaGpu.ShownReadsBack` | sensors/nvidia-gpu/src/nvidia_gpu.rs:166-188 | a printed optional reading is one token that parses back to its value, and "[N/A]" parses to nothing |
| `NvidiaGpu.RowFieldsParse` | sensors/nvidia-gpu/src/nvidia_gpu.rs:134-199 | the fields of a printed row parse to the row's metrics |
| `NvidiaGpu.RowLineShape` | sensors/nvidia-gpu/src/nvidia_gpu.rs:126-132 | a printed row is one line that splits at ", " into its fields |
| `NvidiaGpu.RowLineParses` | sensors/nvidia-gpu/src/nvidia_gpu.rs:121-199 | the output of a one-GPU query without a header, as `noheader` requests, parses to that GPU's metrics (for whole-watt power draws) |
| `NvidiaGpu.AsWrittenRejectsSingleRow` | sensors/nvidia-gpu/src/nvidia_gpu.rs:126-132 | as written, that same single-row output is rejected as an invalid format |
| `NvidiaGpu.QueryArguments` | sensors/nvidia-gpu/src/nvidia_gpu.rs:210-216 | the query names the nine fields and the csv/noheader/nounits format, plus `--id=<n>` exactly when a GPU id is set |
| `NvidiaGpu.QueryArgumentsNameGpu` | sensors/nvidia-gpu/src/nvidia_gpu.rs:210-216 | different GPU selections give different arguments |
| `NvidiaGpu.SpawnError` | sensors/nvidia-gpu/src/nvidia_gpu.rs:218-225 | a missing program is the non-temporary "install NVIDIA drivers" unavailability, any other spawn failure an Io error |
| `NvidiaGpu.QueryResult` | sensors/nvidia-gpu/src/nvidia_gpu.rs:207-239 | with the corrected parser of "## Findings": a spawn failure, a failing exit (with its stderr or "Unknown error") and non-UTF-8 output are each their own error; success exactly when the run succeeded with output whose first line parses, giving the parsed metrics |
| `NvidiaGpu.QueryResultAsWritten` | sensors/nvidia-gpu/src/nvidia_gpu.rs:207-239 | the query as written: every outcome other than printed text as `QueryResult`, and printed text read by the parser that requires two lines and reads the second |
| `NvidiaGpu.AsWrittenQueryRefusesSingleRow` | sensors/nvidia-gpu/src/nvidia_gpu.rs:207-239 | as written, a working one-GPU query is the parse error "Invalid nvidia-smi output format", while the corrected query yields the row's metrics |
| `NvidiaGpu.QueryOfRow` | sensors/nvidia-gpu/src/nvidia_gpu.rs:207-239 | with the corrected parser: a successful run printing one row yields that row's metrics, for whole-watt power draws (as written it is refused, see `AsWrittenQueryRefusesSingleRow`) |
| `NvidiaGpu.AvailabilitySpec` | sensors/nvidia-gpu/src/nvidia_gpu.rs:429-449 | a failing `--help` spawn or exit is reported as such; after that the error of the corrected query is the result |
| `NvidiaGpu.AvailableIffQueryParses` | sensors/nvidia-gpu/src/nvidia_gpu.rs:429-449 | the sensor is available exactly when `--help` succeeds and the corrected metrics query succeeds |
| `NvidiaGpu.AvailableOfRow` | sensors/nvidia-gpu/src/nvidia_gpu.rs:429-449 | with the corrected parser: a working driver that prints one row makes the sensor available, for whole-watt power draws (as written its query is refused) |
| `NvidiaGpu.NvidiaGpuSensor.constructor` | sensors/nvidia-gpu/src/nvidia_gpu.rs:91-100 | a new sensor is "nvidia-gpu" with the default configuration, the thresholds as reals, no GPU id and empty histories |
| `NvidiaGpu.NvidiaGpuSensor.UpdateHistory` | sensors/nvidia-gpu/src/nvidia_gpu.rs:241-261 | utilization, temperature and memory-usage percentage are each appended to their history, bounded by the sparkline length |
| `NvidiaGpu.NvidiaGpuSensor.Read` | sensors/nvidia-gpu/src/nvidia_gpu.rs:363-414 | through the corrected query: a failed query is returned and changes no history; otherwise the histories are updated and the reading carries the metrics, the rounded utilization clamped to 0-100 and the threshold class of the utilization |
| `NvidiaGpu.NvidiaGpuSensor.Configure` | sensors/nvidia-gpu/src/nvidia_gpu.rs:420-423 | any configuration is accepted and replaces the old one |
| `NvidiaGpu.NewNvidiaGpuSensor` | sensors/nvidia-gpu/src/nvidia_gpu.rs:83-101 | critical <= warning is the Config threshold error; otherwise a fresh default sensor with those thresholds |
| `NvidiaGpu.NewWithGpuId` | sensors/nvidia-gpu/src/nvidia_gpu.rs:104-113 | the same threshold check; a success is named "nvidia-gpu-<id>", queries that GPU, has the default configuration and empty histories |
| `NvidiaGpu.WithDefaults` | sensors/nvidia-gpu/src/nvidia_gpu.rs:116-118 | always succeeds: "nvidia-gpu" on no particular GPU, warning 80 and critical 95, the default configuration and empty histories |
| `Readings.ThresholdMessage` | sensors/cpu/src/cpu.rs:321-326 | the refusal of critical <= warning starts "Critical threshold (" |
| `Readings.ThresholdMessageTail` | sensors/cpu/src/cpu.rs:321-326 | after the prefix come the critical value's digits, then the warning value's digits in the second pair of parentheses |
| `Readings.ThresholdMessageNamesBoth` | sensors/memory/src/memory.rs:231-236 | the message determines both thresholds: different pairs are reported differently |
| `Readings.SaturatingSub` | sensors/memory/src/memory.rs:65-67 | a - b when b <= a, and 0 otherwise |
| `Readings.Percent` | sensors/memory/src/memory.rs:71-78 | 0 for an empty whole, otherwise part / whole * 100, never negative, at most 100 for a part within the whole and at least 100 beyond it |
| `Readings.PercentComplement` | sensors/memory/src/memory.rs:71-88 | the used and available percentages of parts that make up the whole sum to 100 |
| `Readings.RoundClamp` | sensors/cpu/src/cpu.rs:594 | `round().clamp(0.0, 100.0) as u8`: a whole number 0-100, the nearest one (halves up) inside the range and the bound outside it |
| `Readings.RoundU8` | sensors/disk/src/disk.rs:703-710 | `round() as u8`: the nearest whole number, saturating at 0 and 255 |
| `Readings.RoundU8OfPercent` | sensors/disk/src/disk.rs:703-710 | on a value between 0 and 100 the saturating round and the clamped round agree |
| `Readings.PushHistory` | sensors/cpu/src/cpu.rs:477-480 | the new value is last; the history grows by one unless that passes the limit, in which case the oldest value is dropped |
| `Readings.HistoryBound` | sensors/cpu/src/cpu.rs:477-480 | below the limit the value is appended, at the limit the oldest is dropped, so a history within the limit stays within it; one already over it keeps its length |

## Left out

- Filesystem and sysfs access are inputs, not modelled I/O: opening files, `read_exact`, the directory scans of `find_amd_gpu_drm_path`, `find_gpu_metrics_file`, `find_battery`, `list_available_batteries`, the hwmon lookups and `GpuDiscovery`. Each becomes a parameter holding the bytes or text, or the error that reading gave.
- Memory mapping is modelled as a second source of the same bytes. Page sharing and mapping lifetime are not modelled.
- The `df`, `ps` and `nvidia-smi` subprocesses are foreign calls. Their outcome is a parameter: exit status, stdout and stderr.
- Wall-clock time (`Instant`, `SystemTime`) is an explicit millisecond argument.
- `thread::sleep` between the two `/proc/stat` samples is replaced by passing the second sample.
- The tokio interval loops and the `main.rs` command-line programs are not modelled.
- `Arc<Mutex<…>>` around caches and maps becomes a plain field. Locking, poisoning and concurrency are not modelled.
- Floating-point text formatting is not modelled: `{:3.0}`, `{:.1}`, tooltips, `create_gauge`, sparklines, `get_usage_indicator`, `bytes_to_human`, `rate_to_human`, `frequency_to_human` and the top-process lists. The AMD sensor's output is a list of typed parts instead of rendered text, and the `{}` text of an `f64` in its build errors is a parameter (`FloatDisplay`).
- Floating-point rounding is not modelled: ratios are exact reals.
- `parse::<f64>` is modelled as the decimal subset `[+|-]digits[.digits]`. Exponents, `inf` and `NaN` are not accepted by the model.
- Whitespace is ASCII whitespace. Rust's `trim` and `split_whitespace` also treat other Unicode `White_Space` characters as whitespace.
- The chained `source` of a parse error is dropped. The model keeps the message and, where the text shows it, the integer-parse cause.
- `ThermalMonitor`, `PerformanceAnalytics`, `get_memory_usage` and the `clone_box` plumbing are not shown in the source. The memory usage is a parameter of the AMD sensor's read.
- `GlobalConfig` persistence is not modelled: load, save, `find_config_file`, RON and serde (de)serialisation, and the example-config template.
- The `handle_safety_critical` and `handle_emergency` helpers only log to stderr and return `Ok`, so they are not modelled.
- Disk: `time_until_full` is float forecasting and is not modelled.
- Disk: `usage_trend_per_day` and `invalidate_cache` are one-line wrappers and are not modelled. `Disk.TrendOf` and the cache replacement in `configure` cover their logic.
- QueryResult: reads `nvidia-smi` output with the corrected parser, so a one-GPU run succeeds where `query_gpu_metrics` as written fails, and with several GPUs and no `--id` the first line is read where the source reads the second. `QueryResultAsWritten` keeps the code as written.
- NvidiaGpu.RowLineParses: the printed rows render power draw as a whole number of watts, so this lemma, `QueryOfRow` and `AvailableOfRow` do not cover decimal readings such as "45.67", although `ParseDecimal` accepts them.
- NvidiaGpuSensor.Read: goes through the corrected `QueryResult`, and so do `AvailabilitySpec`, `AvailableIffQueryParses`, `QueryOfRow` and `AvailableOfRow`.
- Backoff.DelayForAttempt: the exponent is the attempt itself; attempts of 2^31 and more, which `attempt as i32` turns into negative exponents, are not modelled.
- Cpu.Total: the sum of the eight counters is unbounded. The source's `u64` sum would overflow only near 2^64.
- Memory.MeminfoFields: kB values are multiplied by 1024 without the `u64` overflow the source would hit above 2^54 kB.
- AmdSensor.SensorName: lower-cases ASCII capitals only. The source's `str::to_lowercase` is Unicode-aware, so a card name with other capitals ('Ä' → 'ä') differs, and one whose lower-case form is longer ('İ') changes the length; card names are taken to be ASCII.
- MultiDisk.CombinedInfo: the sums of totals, used and available space are unbounded. The source's `u64` sums would overflow only near 2^64.
- These files are not part of this model:
  - `sensors/network`, `sensors/intel-gpu` and `sensors/thermal/src/thermal.rs`: sysfs scans and float speeds and temperatures;
  - `sensors/battery/src/types.rs`;
  - `discover/src/main.rs`;
  - the per-crate `main.rs` and `lib.rs` re-export files.

## Findings

| source | as written | input that shows it | evidently intended | confidence | as-written member | corrected member |
|---|---|---|---|---|---|---|
| sensors/amd-gpu/src/metrics.rs:638-645 | `structure_size` 1-3 passes the `== 0` guard, then `structure_size - 4` underflows (a panic in debug builds, a huge length in release builds) | header bytes [3, 0, 1, 0] | a size below the 4-byte header is rejected as "Invalid structure size" | high (not executed) | `AmdMetrics.TinyStructureSizeUnderflows` | `AmdMetrics.MetricsReader.ReadDirect` |
| sensors/amd-gpu/src/amdgpu/reader.rs:29-37 | the same underflow in the older reader | header bytes [3, 0, 1, 0] | the same size check | high (not executed) | `AmdLegacy.LegacyTinyStructureSizeUnderflows` | `AmdLegacy.LegacyReadFile` |
| sensors/amd-gpu/src/amdgpu/reader.rs:114-119 | the v2.0 guard admits 96 body bytes, but the parser reads `fan_pwm` at bytes 112-113, so a body of 96-113 bytes is indexed out of bounds | header [100, 0, 2, 0] followed by 96 zero bytes | bodies shorter than 114 bytes are rejected as insufficient data | high (not executed) | `AmdLegacy.ShortV2BodyPanics` | `AmdLegacy.LegacyParseV2` |
| sensors/nvidia-gpu/src/nvidia_gpu.rs:126-132 | the query asks for `noheader` output, yet the parser requires two lines and skips the first as a header, so one GPU's single row is rejected and `query_gpu_metrics` (line 237) fails | the single line of a one-GPU query | parse the first line of headerless output | medium (not executed; depends on `nvidia-smi` honouring `noheader`) | `NvidiaGpu.AsWrittenQueryRefusesSingleRow` | `NvidiaGpu.QueryResult` |
