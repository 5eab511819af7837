# ECA KPI and capture core, modelled in Dafny

This project models the sequential core of the ECA telecom analysis suite
(F2G-Telco-Academy/ECA). Four kinds of logic are modelled:

- The line-driven KPI classifiers and aggregators. They read one decoded
  tshark, SCAT or JSON log line at a time, classify it with ordered
  substring and regular-expression checks, and bump attempt/success
  counters. Some counters are de-duplicated per frame or broken down per
  cause or cell. Success rates are derived from the counters.
- The procedure correlation of the Java backend. It pairs RRC, handover and
  PDN messages by transaction key and flushes leftovers as incomplete.
- The byte layouts of the GSMTAP version 2 header and of the classic
  libpcap file header and packet record, with their encoders and decoders.
- The rate tables, PDCP loss, cell load, the QMDL/SDM/LPD format mapping,
  output-path derivation and the SCAT argument list.

Each source file has its own Dafny module. The form follows the source:
- Objects whose methods update fields become classes. This covers the
  calculators, the monitors, the message parser, the capture buffers and the
  PCAP writer. Each such class has a `State()` or contents function, and its
  methods are proved against a step function over that state.
- Loops become methods with invariants. This covers the Java counting and
  correlation loops, the byte writers and the in-place sort of `calculateLoss`.
- Pure expressions become functions with lemmas. This covers the rate
  tables, the filters, the type maps, the decoders and the path helpers.

Shared helper modules:
- `Wrappers`: `Option` and `Result`.
- `Text`: ASCII case conversion, substring search, the ordered-substring
  reading of `a.*b` patterns, splitting, and decimal and hexadecimal text.
- `Patterns`: first-match tables.
- `NumberSearch`: the keyword-then-number regular expressions and `int()`.
- `Rates`: rates and averages as exact rationals.
- `Counters`: counter maps.
- `Bytes`: big- and little-endian byte codecs over bytes as integers 0 to 255.
- `JavaInt`: 32-bit wrap-around and `Integer.parseInt`.
- `JsonInput`: a decoded JSON line.

Rates and averages are Dafny `real`, so they are exact rationals rather
than floating point. Inputs that the source reads from the outside are
parameters of the model. These are subprocess output, files, clocks, JSON
decoding, `Double.parseDouble`, and the `int()` and `float()` conversions
of `get_packet_details`, which `ComprehensiveKpi.ParseLine` takes as the
functions `toInt` and `toFloat`.

Where the source and its evident intent disagree, the operation takes a
parameter that selects the behaviour as written or the corrected one, and
each class keeps that choice in a field set by its constructor:
- `TelecomParser.Detection`: the lower-cased, case-sensitive search of
  `_detect_message_type`, or a search that ignores case.
- `RealtimeKpiExtractor.NrOrder`: the NR setup test before the NR setup
  complete test, or after it.
- `ProcedureCorrelation.Order`: the RRC setup test before the setup complete
  test, or after it.
- `GsmtapListener.LengthUnit`: the GSMTAP header length read as octets, or
  as 32-bit words.
- `GsmtapListener.Refill`: a flush that writes the PCAP global header into
  the buffer again, or one that does not.
- `MissingKpi.LossForm`: the PDCP loss in wrapping Java `int`s, or exact.

"## Findings" proves, for each, an input on which the two differ.

The model follows the code where the system's design description differs
from it:
- Classification is first match in the code's if/elif or table order. It is
  not a choice of the longest or most specific pattern.
- Matching is case-sensitive wherever the code compares case-sensitively.
  Examples are the as-written telecom detector, which searches the
  lower-cased text with the patterns as written, and the substring tests of
  the real-time extractor and the Java services. It ignores case only where
  the code upper-cases the line or asks for it.
- Frame de-duplication is the source's unbounded set, emptied at each
  `FRAME N:` line. There is no bounded eviction.
- No counter is clamped. The comprehensive calculator's `failures` field
  can go negative and a rate can pass 100%, as in
  the code.
- The `max(den, 1)` rate form and the `den > 0` guarded form agree only
  when there are attempts or no successes; with no attempts and some
  successes the `max` form reports `100 * num` (`Rates.RateFormsAgree`).

## Model

| member | source | states |
|---|---|---|
| OldKpiCalculator.FrameHeader | old-scat-codebase/scripts/kpi_calculator_comprehensive_old.py:92 | a result means the upper-cased line starts with `FRAME ` and carries a non-empty run of digits as the frame number |
| OldKpiCalculator.Triple | old-scat-codebase/scripts/kpi_calculator_comprehensive_old.py:100-142 | a request/accept/reject triple raises a counter exactly when it takes a new de-duplication key, and then it raises one of its three counters and takes that counter's key for the current frame |
| OldKpiCalculator.LteBlock | old-scat-codebase/scripts/kpi_calculator_comprehensive_old.py:115-128 | the LTE chain only adds keys, and raises `lte_rrc_request` exactly when the line says `C1: RRCCONNECTIONREQUEST` and the frame's request key is not yet taken, and then takes that key |
| OldKpiCalculator.LteProcedures | old-scat-codebase/scripts/kpi_calculator_comprehensive_old.py:129-183 | the ATTACH to MEASUREMENTREPORT branches only add keys and never raise `lte_rrc_request` |
| OldKpiCalculator.LteOther | old-scat-codebase/scripts/kpi_calculator_comprehensive_old.py:143-174 | the SERVICE REQUEST, E-RAB, RACH, HANDOVER, PDN and BEARER MODIFY branches never raise `lte_rrc_request` |
| OldKpiCalculator.WcdmaBlock | old-scat-codebase/scripts/kpi_calculator_comprehensive_old.py:186-214 | the WCDMA chain only adds keys and never raises `lte_rrc_request` |
| OldKpiCalculator.GsmBlock | old-scat-codebase/scripts/kpi_calculator_comprehensive_old.py:217-222 | the GSM block raises at most a GSM handover counter |
| OldKpiCalculator.NrBlock | old-scat-codebase/scripts/kpi_calculator_comprehensive_old.py:225-235 | the NR block raises at most an NR RRC or registration counter |
| OldKpiCalculator.CallControlBlock | old-scat-codebase/scripts/kpi_calculator_comprehensive_old.py:238-255 | the call-control block raises at most a setup, connect or disconnect counter |
| OldKpiCalculator.MeasurementBlock | old-scat-codebase/scripts/kpi_calculator_comprehensive_old.py:258-259 | the last block raises at most `measurement_reports` |
| OldKpiCalculator.StepCases | old-scat-codebase/scripts/kpi_calculator_comprehensive_old.py:85-97 | every line counts one packet; a frame header sets the frame and empties the key set and does nothing else; any other line goes through the classification blocks |
| OldKpiCalculator.KpisComplete | old-scat-codebase/scripts/kpi_calculator_comprehensive_old.py:261-296 | the KPI key type has exactly the 23 keys of the dictionary |
| OldKpiCalculator.KpisHaveEveryKey | old-scat-codebase/scripts/kpi_calculator_comprehensive_old.py:261-296 | `calculate_kpis` returns an entry for every one of its 23 keys and no other |
| OldKpiCalculator.KpiEntry | old-scat-codebase/scripts/kpi_calculator_comprehensive_old.py:261-296 | each dictionary entry is the rate or the average defined for its key |
| OldKpiCalculator.StepCountsPacket | old-scat-codebase/scripts/kpi_calculator_comprehensive_old.py:87 | every call increments `total_packets` by exactly one |
| OldKpiCalculator.FrameLineResets | old-scat-codebase/scripts/kpi_calculator_comprehensive_old.py:92-97 | a `FRAME N:` line sets `current_frame` to N, empties `frame_messages` and changes no KPI counter or sample list |
| OldKpiCalculator.StepKeepsFrame | old-scat-codebase/scripts/kpi_calculator_comprehensive_old.py:99-259 | a line that is not a frame header keeps the current frame and only adds de-duplication keys |
| OldKpiCalculator.CountersNeverDecrease | old-scat-codebase/scripts/kpi_calculator_comprehensive_old.py:85-259 | no counter ever goes down |
| OldKpiCalculator.OnlyLteRequests | old-scat-codebase/scripts/kpi_calculator_comprehensive_old.py:185-259 | none of the blocks after the LTE chain raises `lte_rrc_request` |
| OldKpiCalculator.ClassifyRequest | old-scat-codebase/scripts/kpi_calculator_comprehensive_old.py:111-117 | the classification blocks raise `lte_rrc_request` by one exactly when an LTE-context line says `C1: RRCCONNECTIONREQUEST` and the frame's key is free, and then they take the key |
| OldKpiCalculator.RequestStep | old-scat-codebase/scripts/kpi_calculator_comprehensive_old.py:85-117 | `lte_rrc_request` rises by one exactly on the lines that pass `count_once`, and those lines take the frame's key |
| OldKpiCalculator.RequestOncePerFrame | old-scat-codebase/scripts/kpi_calculator_comprehensive_old.py:100-117 | within one frame, any number of `C1: RRCCONNECTIONREQUEST` lines raise `lte_rrc_request` at most once, and not at all once the frame's key is taken |
| OldKpiCalculator.ReleaseClassified | old-scat-codebase/scripts/kpi_calculator_comprehensive_old.py:124-128 | an RRC release that reaches its branch counts as normal iff the line has NORMAL or MO-SIGNALLING, and as abnormal iff it has neither |
| OldKpiCalculator.NoSetupOnComplete | old-scat-codebase/scripts/kpi_calculator_comprehensive_old.py:238-245 | a call-control line containing both SETUP and COMPLETE never raises a call-setup counter |
| OldKpiCalculator.EcNoAppendedTwice | old-scat-codebase/scripts/kpi_calculator_comprehensive_old.py:204-214 | a WCDMA measurement report appends its Ec/No value twice and its RSCP value once, and nothing for a value that is absent |
| OldKpiCalculator.ComprehensiveKpiCalculator.constructor | old-scat-codebase/scripts/kpi_calculator_comprehensive_old.py:18-83 | a new calculator has every counter 0, no samples, no frame and no keys |
| OldKpiCalculator.ComprehensiveKpiCalculator.ProcessPacket | old-scat-codebase/scripts/kpi_calculator_comprehensive_old.py:85-259 | `process_packet` moves the calculator's fields to the state `Step` gives for the old state and the line |
| OldKpiProperties.RateEntry | old-scat-codebase/scripts/kpi_calculator_comprehensive_old.py:266-294 | every rate entry is its successes over `max(attempts, 1)` times 100 |
| OldKpiProperties.AverageEntry | old-scat-codebase/scripts/kpi_calculator_comprehensive_old.py:277-286 | every average entry is the mean of its sample list, or 0 without samples |
| OldKpiProperties.KpiWithoutAttempts | old-scat-codebase/scripts/kpi_calculator_comprehensive_old.py:266 | with no RRC requests the RRC rate is 100 times the setups, so it is 0 exactly when there are no setups |
| OldKpiProperties.CallDropOverConnects | old-scat-codebase/scripts/kpi_calculator_comprehensive_old.py:273 | the call drop rate divides disconnects by connects, not by setups |
| OldKpiProperties.AbnormalReleaseRateBounded | old-scat-codebase/scripts/kpi_calculator_comprehensive_old.py:274 | the abnormal release rate lies between 0 and 100 |
| OldKpiProperties.AveragesOfSamples | old-scat-codebase/scripts/kpi_calculator_comprehensive_old.py:277 | the RSRP average is 0 without samples and otherwise lies between the smallest and the largest sample |
| JsonInput.MessageText | scat/realtime_kpi_monitor.py:47-48 | a decoded object gives its string `message`, or the empty text when the field is absent; a list, object, number, boolean or null message, a non-object or an undecodable line gives none, since the regular expression search raises on them |
| RealtimeKpiMonitor.Row | scat/realtime_kpi_monitor.py:53-86 | every counter is raised by exactly one row of the `if/elif` chain |
| RealtimeKpiMonitor.RowsDistinct | scat/realtime_kpi_monitor.py:53-86 | no two rows of the chain raise the same counter |
| RealtimeKpiMonitor.Classify | scat/realtime_kpi_monitor.py:53-86 | a message raises a counter exactly when some row's case-insensitive pattern matches it |
| RealtimeKpiMonitor.Message | scat/realtime_kpi_monitor.py:45-50 | a line that does not start with `{` after stripping is classified as-is; one that does but fails to decode is not classified at all |
| RealtimeKpiMonitor.AtMostOneCounter | scat/realtime_kpi_monitor.py:53-86 | each counter moves by at most one per line, and no two counters move on the same line |
| RealtimeKpiMonitor.CounterMovesOnItsRow | scat/realtime_kpi_monitor.py:53-86 | a counter moves exactly when the first matching row of the chain is its own row |
| RealtimeKpiMonitor.CountersNeverDecrease | scat/realtime_kpi_monitor.py:53-86 | counters never decrease |
| RealtimeKpiMonitor.FailedLineUnchanged | scat/realtime_kpi_monitor.py:44-91 | a line whose handling raises leaves every counter and `last_update` unchanged; any other line sets `last_update` to the current time |
| RealtimeKpiMonitor.RrcRequestFirst | scat/realtime_kpi_monitor.py:53-54 | a message containing `rrcconnectionrequest` in any case is an RRC attempt, whatever else it says |
| RealtimeKpiMonitor.RatesWithoutAttempts | scat/realtime_kpi_monitor.py:96 | with no RRC attempts the RRC rate is 100 times the successes, so it is 0 exactly when there are no successes |
| RealtimeKpiMonitor.RateWithAttempts | scat/realtime_kpi_monitor.py:98 | with handover attempts, the handover rate times the attempts is 100 times the successes |
| RealtimeKpiMonitor.RealtimeKpiMonitor.constructor | scat/realtime_kpi_monitor.py:17-40 | a new monitor has every counter 0 and `last_update` the creation time |
| RealtimeKpiMonitor.RealtimeKpiMonitor.ParseLogLine | scat/realtime_kpi_monitor.py:42-91 | `parse_log_line` moves the monitor to the state `Step` gives for the old state, the line, its JSON decoding and the time |
| Counters.BumpGet | scat/realtime_kpi_monitor.py:53-86 | raising the counter a classification chose moves only that counter, by one |
| Counters.BumpsGet | old-scat-codebase/scripts/kpi_calculator_comprehensive_old.py:116-259 | several choices applied in order raise a counter by the number of choices that name it |
| Counters.OnlyFirstChooses | old-scat-codebase/scripts/kpi_calculator_comprehensive_old.py:116-117 | a choice that only the first block can make is counted once or not at all |
| KpiParser.Row | old-scat-codebase/src/exporters/kpi_parser.py:40-61 | every counter is raised by exactly one row of the `if/elif` chain |
| KpiParser.RowsDistinct | old-scat-codebase/src/exporters/kpi_parser.py:40-61 | no two rows of the chain raise the same counter |
| KpiParser.Classify | old-scat-codebase/src/exporters/kpi_parser.py:40-61 | a string message raises a counter exactly when some row's case-sensitive substring test holds |
| KpiParser.RowOfIff | old-scat-codebase/src/exporters/kpi_parser.py:40-61 | a message takes row `i` exactly when every word of row `i` is `in` it and the words of no earlier row all are |
| KpiParser.StringRowOf | old-scat-codebase/src/exporters/kpi_parser.py:40-61 | on a string message the `in` tests are the substring table: both pick the same row |
| KpiParser.ClassifyOperand | old-scat-codebase/src/exporters/kpi_parser.py:40-61 | a message, string, list or object, raises a counter exactly when all words of some row are `in` it; on a string this is the substring classification |
| KpiParser.MessageOperand | old-scat-codebase/src/exporters/kpi_parser.py:35-40 | a decoded object yields its message for the `in` tests: the empty string when absent, a string as text, a list or object by its members; a number, boolean or null, a non-object or undecodable line yields nothing |
| KpiParser.InitialRatesCurrent | old-scat-codebase/src/exporters/kpi_parser.py:10-31 | a new exporter's rate attributes already agree with its zero counters |
| KpiParser.StepKeepsRatesCurrent | old-scat-codebase/src/exporters/kpi_parser.py:63-67 | after every parsed line each rate equals `succ / max(att, 1) * 100` of the current counters, and a line that changes nothing keeps rates that already agreed |
| KpiParser.UndecodedLineUnchanged | old-scat-codebase/src/exporters/kpi_parser.py:33-72 | a line on which the handler raises (not JSON, not an object, or a number, boolean or null message) changes nothing, not even `last_update`; every other line, list and object messages included, sets `last_update` |
| KpiParser.ListMessageMembership | old-scat-codebase/src/exporters/kpi_parser.py:40-41 | a list message counts by element equality: `["RRCConnectionRequest"]` is an RRC attempt, `["RRCConnectionRequest x"]` raises nothing, while the string `RRCConnectionRequest x` is an attempt |
| KpiParser.AtMostOneCounter | old-scat-codebase/src/exporters/kpi_parser.py:40-61 | each counter moves by at most one per line, and no two counters move on the same line |
| KpiParser.CounterMovesOnItsRow | old-scat-codebase/src/exporters/kpi_parser.py:40-61 | a counter moves exactly when the first row whose `in` tests all hold is its own row |
| KpiParser.CompleteWithMobilityIsAttempt | old-scat-codebase/src/exporters/kpi_parser.py:52-55 | a reconfiguration line with `mobilityControlInfo` counts as a handover attempt even when it also says Complete |
| KpiParser.KpiMetrics.constructor | old-scat-codebase/src/exporters/kpi_parser.py:10-31 | a new exporter has zero counters, integer-0 rates and `last_update` the creation time |
| KpiParser.KpiMetrics.ParseScatLogLine | old-scat-codebase/src/exporters/kpi_parser.py:33-72 | `parse_scat_log_line` moves the exporter to the state `Step` gives for the old state, the JSON decoding of the line and the time, with list and object messages tested by membership |
| KpiExtractor.RrcAttemptOrSuccess | old-scat-codebase/src/scat/kpi_extractor.py:53-58 | an RRC packet raises the attempts exactly when it names the request, the successes exactly when it names the setup complete but not the request, and never both |
| KpiExtractor.RachBoth | old-scat-codebase/src/scat/kpi_extractor.py:60-65 | a RACH packet containing both Attempt and Success raises both counters |
| KpiExtractor.MeasurementAppends | old-scat-codebase/src/scat/kpi_extractor.py:40-51 | a measurement report appends one parsed integer to the RSRP list when the metric is matched and nothing otherwise, keeps the earlier samples, and changes no counter |
| KpiExtractor.NoKeywordNoSample | old-scat-codebase/src/scat/kpi_extractor.py:42-44 | a packet that does not contain the metric name in any case yields no sample |
| KpiExtractor.EmptyResults | old-scat-codebase/src/scat/kpi_extractor.py:86-94 | without samples the average is 0 and without attempts the rate is 0 |
| KpiExtractor.RateIsPercentage | old-scat-codebase/src/scat/kpi_extractor.py:109-112 | a handover success count within the attempts gives a rate between 0 and 100 |
| KpiExtractor.KpiExtractor.constructor | old-scat-codebase/src/scat/kpi_extractor.py:10-38 | a new extractor has empty sample lists and zero counters |
| KpiExtractor.KpiExtractor.ParseMeasurementReport | old-scat-codebase/src/scat/kpi_extractor.py:40-51 | `parse_measurement_report` moves the extractor to the state the measurement-report function gives |
| KpiExtractor.KpiExtractor.ParseRrcConnection | old-scat-codebase/src/scat/kpi_extractor.py:53-58 | `parse_rrc_connection` moves the extractor to the state the RRC function gives |
| KpiExtractor.KpiExtractor.ParseRach | old-scat-codebase/src/scat/kpi_extractor.py:60-65 | `parse_rach` moves the extractor to the state the RACH function gives |
| KpiExtractor.KpiExtractor.ParseHandover | old-scat-codebase/src/scat/kpi_extractor.py:67-72 | `parse_handover` moves the extractor to the state the handover function gives |
| KpiExtractor.KpiExtractor.ParseErab | old-scat-codebase/src/scat/kpi_extractor.py:74-79 | `parse_erab` moves the extractor to the state the E-RAB function gives |
| RealtimeKpiExtractor.CauseOf | scat/realtime_kpi_extractor.py:108-111 | the fallback is reported exactly when no key is in the line, or the first key found maps to the fallback name |
| RealtimeKpiExtractor.CauseIsFirstKey | scat/realtime_kpi_extractor.py:99-123 | with distinct names different from the fallback, cause `i` is reported exactly when its key is in the line and no earlier key is, and the fallback exactly when no key is in the line |
| RealtimeKpiExtractor.EstablishmentCauseSpec | scat/realtime_kpi_extractor.py:99-111 | the establishment cause is the name of the first key, in dictionary order, found in the line, else UNKNOWN |
| RealtimeKpiExtractor.ReleaseCauseSpec | scat/realtime_kpi_extractor.py:113-123 | the release cause is the name of the first key found in the line, else OTHER |
| RealtimeKpiExtractor.CellId | scat/realtime_kpi_extractor.py:141-144 | a cell id is a non-empty run of digits |
| RealtimeKpiExtractor.NrSetupCompleteUnreachable | scat/realtime_kpi_extractor.py:92-97 | as written, the NR setup-complete branch is never taken, because every line it needs already takes the NR setup branch |
| RealtimeKpiExtractor.BranchOf | scat/realtime_kpi_extractor.py:32-97 | under either order of the two NR tests (`AsWritten` is the code's, `CompleteFirst` the swapped one) a line takes a branch exactly when some row of that chain matches it |
| RealtimeKpiExtractor.NrSetupCompleteCounted | scat/realtime_kpi_extractor.py:92-97 | an NR setup complete that no earlier row catches takes the NR setup branch as written, and the setup-complete branch with the two NR rows swapped |
| RealtimeKpiExtractor.RequestCountsOneCause | scat/realtime_kpi_extractor.py:33-38 | an RRC request raises `LTE_RRC.total` by one and exactly one `by_cause` count, that of its establishment cause, and remembers that cause |
| RealtimeKpiExtractor.SetupCompleteCause | scat/realtime_kpi_extractor.py:41-44 | a setup complete raises `LTE_RRC.success`, and adds `<cause>_SUCCESS` only when a cause was seen on an earlier request |
| RealtimeKpiExtractor.HandoverByCell | scat/realtime_kpi_extractor.py:65-68 | a handover command raises `LTE_HO.total`, and the `by_cell` total only once a serving cell has been seen |
| RealtimeKpiExtractor.CellFollowsMeasurements | scat/realtime_kpi_extractor.py:51-62 | under either NR order the serving cell only changes on a line that takes the RSRP branch, and then it becomes the cell id of that line |
| RealtimeKpiExtractor.ApplyKeepsCell | scat/realtime_kpi_extractor.py:32-97 | of all branches only the RSRP branch can change the serving cell, and only to the line's cell id |
| RealtimeKpiExtractor.Values | scat/realtime_kpi_extractor.py:165 | the list of sample values has one value per sample, in order |
| RealtimeKpiExtractor.Min | scat/realtime_kpi_extractor.py:167 | `min` is a sample no larger than any other |
| RealtimeKpiExtractor.Max | scat/realtime_kpi_extractor.py:168 | `max` is a sample no smaller than any other |
| RealtimeKpiExtractor.LastHundred | scat/realtime_kpi_extractor.py:171 | `[-100:]` keeps the most recent samples, at most a hundred of them |
| RealtimeKpiExtractor.SuccessRates | scat/realtime_kpi_extractor.py:148-174 | the result holds exactly the KPIs with `total > 0` |
| RealtimeKpiExtractor.SummaryRate | scat/realtime_kpi_extractor.py:153-154 | the success rate times the total is 100 times the successes, a percentage when the successes stay within the total |
| RealtimeKpiExtractor.StatsBounds | scat/realtime_kpi_extractor.py:164-172 | the time series holds at most 100 samples, the average lies between min and max, and the count is the number of samples |
| RealtimeKpiExtractor.ApplyKeepsSamplesUncounted | scat/realtime_kpi_extractor.py:32-97 | every branch keeps samples only in the `RSRP` record, whose total no branch raises |
| RealtimeKpiExtractor.StepKeepsSamplesUncounted | scat/realtime_kpi_extractor.py:29-97 | every line keeps samples only in the `RSRP` record, whose total stays 0 |
| RealtimeKpiExtractor.MeasurementsNeverReported | scat/realtime_kpi_extractor.py:152-172 | hence no reported KPI ever carries measurement statistics |
| RealtimeKpiExtractor.RealtimeKpiExtractor.constructor | scat/realtime_kpi_extractor.py:15-27 | a new extractor has no records, no serving cell and no establishment cause, and keeps the NR order it is given |
| RealtimeKpiExtractor.RealtimeKpiExtractor.ExtractCause | scat/realtime_kpi_extractor.py:99-123 | the cause loop returns the cause the first-key function defines |
| RealtimeKpiExtractor.RealtimeKpiExtractor.ProcessLine | scat/realtime_kpi_extractor.py:29-97 | `process_line` moves the extractor to the state `Step` gives, under the extractor's NR order, for the old state, the line and the time stamp; with `AsWritten` this is the code's chain |
| RealtimeKpiExtractor.RealtimeKpiExtractor.CalculateSuccessRates | scat/realtime_kpi_extractor.py:148-174 | the loop over the records returns the result dictionary the summary function defines |
| TelecomParser.FindHexId | scat/src/scat/telecom_parser.py:154 | the search returns the leftmost position of `0x` followed by four hexadecimal digits, and fails only when there is none |
| TelecomParser.HexDigitsBound | scat/src/scat/telecom_parser.py:154-159 | `n` hexadecimal digits have a value below `16^n` |
| TelecomParser.SubsystemId | scat/src/scat/telecom_parser.py:154-159 | the id is absent exactly when the text has no `0xNNNN`, and is otherwise the 16-bit value of the four digits of such a match |
| TelecomParser.SubsystemNamesDistinct | scat/src/scat/telecom_parser.py:16-34 | distinct subsystem ids get distinct names, whether from the table or the `SSID_` fallback |
| TelecomParser.UnknownSubsystemName | scat/src/scat/telecom_parser.py:160 | an id outside the table is named `SSID_` and four hexadecimal digits, which read back as the id |
| TelecomParser.Row | scat/src/scat/telecom_parser.py:36-143 | every message type is produced by exactly one row of the pattern table |
| TelecomParser.RowsDistinct | scat/src/scat/telecom_parser.py:36-143 | no two rows of the table give the same type |
| TelecomParser.TypesDistinct | scat/src/scat/telecom_parser.py:36-143 | the table's types are pairwise distinct |
| TelecomParser.DetectAsWritten | scat/src/scat/telecom_parser.py:201-210 | as written, a type is found exactly when some row matches the lower-cased text with case-sensitive literals |
| TelecomParser.Detect | scat/src/scat/telecom_parser.py:201-210 | a type is found exactly when some row matches the text without regard to case |
| TelecomParser.DetectIff | scat/src/scat/telecom_parser.py:201-210 | with the case-insensitive detector the message gets type `t` exactly when a pattern of `t` matches and no pattern of an earlier row does |
| TelecomParser.UpperAlternativeNeverHolds | scat/src/scat/telecom_parser.py:203-207 | as written, a pattern holding an upper-case letter never matches the lower-cased text |
| TelecomParser.LowerAlternativeAgrees | scat/src/scat/telecom_parser.py:203-207 | a pattern written in lower case matches the lower-cased text exactly when it matches without regard to case |
| TelecomParser.LowerLiteralMissing | scat/src/scat/telecom_parser.py:203-207 | a pattern fails without regard to case when one of its lower-case literals is missing from the lower-cased text |
| TelecomParser.RrcRowAsWritten | scat/src/scat/telecom_parser.py:42-46 | as written, the RRC_CONNECTION row only matches through `rrc.*establishment` or `connection.*reconfiguration` |
| TelecomParser.RequestHoldsIgnoringCase | scat/src/scat/telecom_parser.py:43 | without regard to case, `RRC.*connection.*request` matches the text `rrc connection request` |
| TelecomParser.RequestMissedAsWritten | scat/src/scat/telecom_parser.py:203-207 | as written, `RRC.*connection.*request` does not match the lower-cased text `rrc connection request` |
| TelecomParser.RrcRequestMissed | scat/src/scat/telecom_parser.py:201-210 | the text `rrc connection request` matches `RRC.*connection.*request` without regard to case, but the as-written search misses it |
| TelecomParser.RequestNoRach | scat/src/scat/telecom_parser.py:38-41 | no RACH pattern matches the text `rrc connection request`, in any case |
| TelecomParser.RequestRowMissedAsWritten | scat/src/scat/telecom_parser.py:42-46 | as written, no RRC_CONNECTION pattern matches the lower-cased text `rrc connection request` |
| TelecomParser.RequestMissedByDetector | scat/src/scat/telecom_parser.py:201-210 | the whole detector as written does not type `rrc connection request` as RRC_CONNECTION |
| TelecomParser.RequestFoundIgnoringCase | scat/src/scat/telecom_parser.py:201-210 | the case-insensitive detector types `rrc connection request` as RRC_CONNECTION |
| TelecomParser.RrcRequestDetection | scat/src/scat/telecom_parser.py:201-210 | on `rrc connection request` the detector as written finds no RRC_CONNECTION message and the case-insensitive detector does |
| TelecomParser.Parse | scat/src/scat/telecom_parser.py:150-199 | with either detector (`AsWritten` is `_detect_message_type` as it stands), there is no result exactly when that detector finds no type and there is no non-zero subsystem id; a result is named after the detected type, a result without a type is `CELLULAR_DEBUG`; it carries the subsystem's name, and reports an id exactly when a non-zero one was found |
| TelecomParser.NoTypeIsCellularDebug | scat/src/scat/telecom_parser.py:182 | no table type is named `CELLULAR_DEBUG`, so that name marks exactly the untyped messages |
| TelecomParser.ParsedSubsystemId | scat/src/scat/telecom_parser.py:183 | a reported subsystem id is `0x` and four hexadecimal digits, which read back as the id found in the text |
| TelecomParser.CountersAfterGet | scat/src/scat/telecom_parser.py:315-321 | each parsed message raises its type's count by one when it has a type, its subsystem's count by one, and no other count |
| TelecomParser.StatesAfter | scat/src/scat/telecom_parser.py:323-334 | a missing type or one naming no procedure step leaves the procedure states unchanged |
| TelecomParser.TypesAreNoProcedures | scat/src/scat/telecom_parser.py:326-334 | no type name names a request, attempt, completion, acceptance, failure or rejection |
| TelecomParser.StatesNeverChange | scat/src/scat/telecom_parser.py:323-334 | so `_update_procedure_states` never changes the procedure states |
| TelecomParser.CountersKeepKeys | scat/src/scat/telecom_parser.py:315-321 | every counter key stays a type name or `subsystem_` and a subsystem |
| TelecomParser.StepKeepsReachable | scat/src/scat/telecom_parser.py:150-199 | with either detector, from a new parser, the procedure states stay empty and every counter counts a type or a subsystem |
| TelecomParser.RateKeyIff | scat/src/scat/telecom_parser.py:341-346 | a procedure's rate key is present exactly when it was already a key or the procedure has attempts, and its value is then `success / attempts * 100` |
| TelecomParser.RateKeysDistinct | scat/src/scat/telecom_parser.py:342 | the five rate keys are distinct |
| TelecomParser.AttemptKeysAreNoCounters | scat/src/scat/telecom_parser.py:343 | no counter key is the attempt key of a rate procedure |
| TelecomParser.NoRatesReported | scat/src/scat/telecom_parser.py:336-348 | a running parser has no attempts, so `get_metrics` adds no success rate that was not already a counter |
| TelecomParser.TelecomMessageParser.constructor | scat/src/scat/telecom_parser.py:145-148 | a new parser has no message counts and no procedure states, and keeps the detector it is given |
| TelecomParser.TelecomMessageParser.ParseMessage | scat/src/scat/telecom_parser.py:150-199 | `parse_message` returns what `Parse` gives with the parser's detector and moves the counters to the state `Step` gives with it; with `AsWritten` this is the code's lower-cased, case-sensitive search |
| TelecomParser.TelecomMessageParser.UpdateCounters | scat/src/scat/telecom_parser.py:315-321 | `_update_counters` sets the message counts to what the counter function defines and keeps the procedure states |
| TelecomParser.TelecomMessageParser.UpdateProcedureStates | scat/src/scat/telecom_parser.py:323-334 | `_update_procedure_states` sets the states to what the state function defines and keeps the counts |
| TelecomParser.TelecomMessageParser.GetMetrics | scat/src/scat/telecom_parser.py:336-348 | the loop over the five procedures returns the metrics the rate function defines |
| ProcedureCorrelation.FlushLeftovers | src/main/java/com/nathan/p2/service/ProcedureCorrelationService.java:132-137 | the flush appends every open procedure, marked as a failure, once each after the emitted ones, in the map's unspecified order |
| ProcedureCorrelation.PutSize | src/main/java/com/nathan/p2/service/ProcedureCorrelationService.java:100 | adding a key grows a map by at most one entry, and overwriting a present key keeps its size |
| ProcedureCorrelation.RemoveSize | src/main/java/com/nathan/p2/service/ProcedureCorrelationService.java:112 | removing a present key shrinks a map by exactly one entry |
| ProcedureCorrelation.CalculateLatencies | src/main/java/com/nathan/p2/service/ProcedureCorrelationService.java:434-441 | only the two latencies change; each is set to the truncated milliseconds from the request only when its time is positive |
| ProcedureCorrelation.CorrelateRrc | src/main/java/com/nathan/p2/service/ProcedureCorrelationService.java:87-145 | under either test order (`AsWritten` is the code's) the loop and the flush return the emitted procedures followed by the flushed incomplete ones of that order's fold, and no more procedures than requests |
| ProcedureCorrelation.RequestOpens | src/main/java/com/nathan/p2/service/ProcedureCorrelationService.java:91-100 | a request opens a procedure under its transaction id, or its frame number when it has none, replacing any procedure under that key, and emits nothing |
| ProcedureCorrelation.RejectClassified | src/main/java/com/nathan/p2/service/ProcedureCorrelationService.java:121 | a reject that names no request or setup is classified as a reject under either order of the tests |
| ProcedureCorrelation.RejectCloses | src/main/java/com/nathan/p2/service/ProcedureCorrelationService.java:121-129 | a reject removes the open procedure of its key and emits it with `success=false` and reason "Rejected"; with none open it changes nothing |
| ProcedureCorrelation.SetupPrefix | src/main/java/com/nathan/p2/service/ProcedureCorrelationService.java:102-110 | the name `RRCConnectionSetupComplete` contains `RRCConnectionSetup` |
| ProcedureCorrelation.SetupCompleteUnreachable | src/main/java/com/nathan/p2/service/ProcedureCorrelationService.java:102-119 | as written, no message is ever classified as a setup complete, because the setup test comes first |
| ProcedureCorrelation.SetupCompleteLiteral | src/main/java/com/nathan/p2/service/ProcedureCorrelationService.java:102-110 | the message name `RRCConnectionSetupComplete` is a setup as written and a setup complete under the corrected order |
| ProcedureCorrelation.AsWrittenNeverSucceeds | src/main/java/com/nathan/p2/service/ProcedureCorrelationService.java:90-130 | as written, no RRC procedure is ever open or emitted with `success=true` |
| ProcedureCorrelation.CompleteFirstSucceeds | src/main/java/com/nathan/p2/service/ProcedureCorrelationService.java:90-130 | a request followed by its setup complete is emitted as one success under the corrected order, while as written nothing is emitted and the request stays open |
| ProcedureCorrelation.CompleteCloses | src/main/java/com/nathan/p2/service/ProcedureCorrelationService.java:110-119 | under the corrected order, a setup complete with a request open under its key removes it and emits it as a success carrying the complete's frame |
| ProcedureCorrelation.RrcRunSize | src/main/java/com/nathan/p2/service/ProcedureCorrelationService.java:90-130 | open plus emitted RRC procedures never outnumber the requests |
| ProcedureCorrelation.RrcStepSize | src/main/java/com/nathan/p2/service/ProcedureCorrelationService.java:90-130 | only a request can add to the open and emitted procedures together, and by at most one |
| ProcedureCorrelation.PreviousFrame | src/main/java/com/nathan/p2/service/ProcedureCorrelationService.java:206 | `frameNum - 1` in Java `int` arithmetic is one less, wrapping at the smallest value |
| ProcedureCorrelation.CorrelateHandovers | src/main/java/com/nathan/p2/service/ProcedureCorrelationService.java:182-232 | the loop and the flush return the completed handovers followed by the flushed ones, and no more than there were commands |
| ProcedureCorrelation.CompleteEmittedOnce | src/main/java/com/nathan/p2/service/ProcedureCorrelationService.java:204-214 | a complete emits a handover exactly when a command is open under its transaction id or frame−1, closes that key, and repeating it emits nothing more |
| ProcedureCorrelation.CompleteWithMobilityIsCommand | src/main/java/com/nathan/p2/service/ProcedureCorrelationService.java:195-204 | a complete with mobility control information is taken as a new command, not as a complete |
| ProcedureCorrelation.HandoverRunSize | src/main/java/com/nathan/p2/service/ProcedureCorrelationService.java:186-216 | open plus emitted handovers never outnumber the commands |
| ProcedureCorrelation.CorrelatePdn | src/main/java/com/nathan/p2/service/ProcedureCorrelationService.java:307-369 | the loop and the flush return the closed PDN procedures followed by the flushed incomplete ones, and no more than there were requests |
| ProcedureCorrelation.PdnOutcomes | src/main/java/com/nathan/p2/service/ProcedureCorrelationService.java:319-351 | 0xc2 closes an open procedure as a failure with its ESM cause, 0xd3 closes it as a success, 0xd2 only records the activation, and nothing but a request changes a state without that procedure open |
| ProcedureCorrelation.MissingPtiChangesNothing | src/main/java/com/nathan/p2/service/ProcedureCorrelationService.java:326-352 | a packet without a PTI, other than a request, changes nothing |
| ProcedureCorrelation.PdnRunSize | src/main/java/com/nathan/p2/service/ProcedureCorrelationService.java:311-354 | open plus emitted PDN procedures never outnumber the requests |
| GsmtapListener.EncodeHeader | src/main/java/com/nathan/p2/service/GsmtapListenerService.java:150-164 | the 16-byte GSMTAP header the decoder reads: its encoding is exactly 16 bytes long |
| GsmtapListener.Decode | src/main/java/com/nathan/p2/service/GsmtapListenerService.java:145-178 | a datagram is rejected exactly when it is shorter than 16 bytes; otherwise the payload is the bytes from the header length on, or none when nothing is left, where the header length counts octets as written or 32-bit words as GSMTAP defines it |
| GsmtapListener.DecodeEncode | src/main/java/com/nathan/p2/service/GsmtapListenerService.java:150-164 | every header field read back from an encoded header is the field that was written, the sign-extended signal level and SNR and the 32-bit frame number included, and the type name and RAT follow the type |
| GsmtapListener.PayloadAfterHeader | src/main/java/com/nathan/p2/service/GsmtapListenerService.java:167-171 | with the header-length byte read as words, a standard 16-byte header (length 4) yields exactly the bytes after it, and no payload when there are none |
| GsmtapListener.AsWrittenPayloadKeepsHeader | src/main/java/com/nathan/p2/service/GsmtapListenerService.java:167-171 | with the header-length byte read as octets, as written, the payload of a standard header starts with its last 12 header bytes |
| GsmtapListener.UnknownTypeName | src/main/java/com/nathan/p2/service/GsmtapListenerService.java:206 | an unknown type is named UNKNOWN_ followed by its decimal value, which reads back as the type, and its RAT is UNKNOWN |
| GsmtapListener.KnownName | src/main/java/com/nathan/p2/service/GsmtapListenerService.java:183-208 | a known type's name never begins with UN, and it begins with LTE_, UMTS_ or 5GNR_ exactly for the LTE, UMTS and NR types |
| GsmtapListener.TypeNamesDistinct | src/main/java/com/nathan/p2/service/GsmtapListenerService.java:183-208 | different types get different names |
| GsmtapListener.RatFollowsName | src/main/java/com/nathan/p2/service/GsmtapListenerService.java:213-226 | the RAT is LTE, WCDMA or 5GNR exactly when the type name carries the matching prefix, whatever the sub-type |
| GsmtapListener.GlobalHeaderFields | src/main/java/com/nathan/p2/service/GsmtapListenerService.java:346-359 | the global header is 24 bytes, begins with the big-endian magic a1 b2 c3 d4, and holds snap length 65535 and link type 1 |
| GsmtapListener.RecordBE | src/main/java/com/nathan/p2/service/GsmtapListenerService.java:361-375 | a packet record is 16 header bytes followed by the datagram unchanged |
| GsmtapListener.RecordFields | src/main/java/com/nathan/p2/service/GsmtapListenerService.java:361-375 | the record's captured and original lengths are both the datagram's length, its microseconds are below one million, and its seconds are the clock's seconds cut to 32 bits |
| GsmtapListener.Flush | src/main/java/com/nathan/p2/service/GsmtapListenerService.java:382-393 | a non-empty buffer is appended to the file; flushing an empty buffer changes nothing |
| GsmtapListener.Receive | src/main/java/com/nathan/p2/service/GsmtapListenerService.java:105-120 | a datagram the header parser rejects, shorter than 16 bytes, is not recorded |
| GsmtapListener.WriteAppendsRecord | src/main/java/com/nathan/p2/service/GsmtapListenerService.java:361-380 | without the header rewrite, writing a packet grows the file-plus-buffer contents by exactly its record, whether or not the 1 MiB flush happens |
| GsmtapListener.FlushKeepsContents | src/main/java/com/nathan/p2/service/GsmtapListenerService.java:382-388 | without the header rewrite, a flush moves the buffer to the file and loses or adds nothing |
| GsmtapListener.RewriteAddsHeader | src/main/java/com/nathan/p2/service/GsmtapListenerService.java:390-392 | as written, every flush of a non-empty buffer puts a second global header into the stream |
| GsmtapListener.SecondHeaderInFile | src/main/java/com/nathan/p2/service/GsmtapListenerService.java:382-393 | as written, one packet over 1 MiB followed by close leaves header, record, header in the file; without the rewrite it is header and record |
| GsmtapListener.SessionCapture.constructor | src/main/java/com/nathan/p2/service/GsmtapListenerService.java:333-344 | a new session buffers exactly the global header, has recorded nothing and keeps the refill mode it is given |
| GsmtapListener.SessionCapture.WritePcapGlobalHeader | src/main/java/com/nathan/p2/service/GsmtapListenerService.java:346-359 | the global header is appended to the buffer and marked written; the file and the records are unchanged |
| GsmtapListener.SessionCapture.WritePcapPacket | src/main/java/com/nathan/p2/service/GsmtapListenerService.java:361-380 | the session steps as the write function says under its refill mode; what follows the first global header grows by this packet's record, and, as written (`RewriteHeader`), by one more global header when the write passes 1 MiB and flushes |
| GsmtapListener.SessionCapture.FlushToFile | src/main/java/com/nathan/p2/service/GsmtapListenerService.java:382-393 | the session steps as the flush function says under its refill mode; without the rewrite nothing is added after the first global header, as written (`RewriteHeader`) a flush of a non-empty buffer adds another global header |
| GsmtapListener.SessionCapture.Close | src/main/java/com/nathan/p2/service/GsmtapListenerService.java:395-402 | under either refill mode the file after close is the global header followed by everything written before it; without the rewrite that is every record and nothing is left buffered, as written a non-empty buffer leaves a fresh global header buffered |
| LiveGsmtapCapture.KeepHexAndSpace | src/main/java/com/nathan/p2/service/LiveGsmtapCaptureService.java:263 | the cleaned line holds only hexadecimal digits and spaces and is no longer than the line |
| LiveGsmtapCapture.SplitSpaces | src/main/java/com/nathan/p2/service/LiveGsmtapCaptureService.java:263 | splitting on runs of white space gives pieces without spaces, of which only the first may be empty |
| LiveGsmtapCapture.SplitSpacesHex | src/main/java/com/nathan/p2/service/LiveGsmtapCaptureService.java:263 | every piece of a cleaned line is a run of hexadecimal digits |
| LiveGsmtapCapture.PiecesBytesSpec | src/main/java/com/nathan/p2/service/LiveGsmtapCaptureService.java:264-270 | the pieces give no bytes exactly when some piece does not fit a Java int; otherwise one byte per piece, each the low byte of the piece's value, and 0 for an empty piece |
| LiveGsmtapCapture.DiagMessage | src/main/java/com/nathan/p2/service/LiveGsmtapCaptureService.java:254-278 | a line without the QC_IMAGE or DIAG marker yields nothing |
| LiveGsmtapCapture.PiecesToBytes | src/main/java/com/nathan/p2/service/LiveGsmtapCaptureService.java:264-270 | the piece-by-piece loop computes exactly the bytes of the specification, or nothing when a piece is rejected |
| LiveGsmtapCapture.ParseDiagMessage | src/main/java/com/nathan/p2/service/LiveGsmtapCaptureService.java:254-278 | the method returns exactly the specified diagnostic bytes of the line |
| LiveGsmtapCapture.MarkerLettersAreData | src/main/java/com/nathan/p2/service/LiveGsmtapCaptureService.java:256-263 | the marker's own hexadecimal letters survive the cleaning: the line DIAG 01 gives the two bytes 0xDA 0x01 |
| LiveGsmtapCapture.WrapInGsmtap | src/main/java/com/nathan/p2/service/LiveGsmtapCaptureService.java:282-321 | the wrapped packet is the encoding of the fixed LTE RRC header followed by the message unchanged |
| LiveGsmtapCapture.WrapperHeaderBytes | src/main/java/com/nathan/p2/service/LiveGsmtapCaptureService.java:286-313 | the wrapper's 16 header bytes are version 2, length 4, type 0x0D, signal and SNR 0x80, sub-type 1 and zero everywhere else |
| LiveGsmtapCapture.WrappedDecodes | src/main/java/com/nathan/p2/service/LiveGsmtapCaptureService.java:282-321 | both header parsers read a wrapped message back as version 2, type LTE_RRC, RAT LTE, ARFCN 0 and frame 0; the parser that reads the length in words returns the message as payload, the parser as written returns the last 12 header bytes followed by the message |
| LiveGsmtapCapture.GlobalHeaderLEBytes | src/main/java/com/nathan/p2/service/LiveGsmtapCaptureService.java:414-426 | the little-endian global header is the magic number, version 2.4, zero zone and sigfigs, snap length 65535 and link type 1, each field little-endian |
| LiveGsmtapCapture.GlobalHeaderLEFields | src/main/java/com/nathan/p2/service/LiveGsmtapCaptureService.java:414-426 | read field by field, the little-endian header holds the same values as the session capture's big-endian header |
| LiveGsmtapCapture.RecordLE | src/main/java/com/nathan/p2/service/LiveGsmtapCaptureService.java:428-463 | a record is 16 header bytes followed by the packet unchanged |
| LiveGsmtapCapture.RecordLEFields | src/main/java/com/nathan/p2/service/LiveGsmtapCaptureService.java:428-463 | the record's two lengths are the packet length, its microseconds are below one million, and its seconds are the clock's seconds as a Java int |
| LiveGsmtapCapture.PcapWriter.constructor | src/main/java/com/nathan/p2/service/LiveGsmtapCaptureService.java:410-412 | a new writer's file is empty |
| LiveGsmtapCapture.PcapWriter.WriteGlobalHeader | src/main/java/com/nathan/p2/service/LiveGsmtapCaptureService.java:414-426 | the file grows by exactly the little-endian global header |
| LiveGsmtapCapture.PcapWriter.WritePacket | src/main/java/com/nathan/p2/service/LiveGsmtapCaptureService.java:428-463 | the file grows by exactly the packet's record |
| ComprehensiveKpi.Kept | scat/scripts/kpi_calculator_comprehensive.py:30-31 | the kept lines are among the output's lines and each is neither blank nor a "Cannot" line |
| ComprehensiveKpi.KeptAppend | scat/scripts/kpi_calculator_comprehensive.py:30-31 | the filter decides line by line: filtering two pieces of output is filtering each and joining the results |
| ComprehensiveKpi.SkippedLinesIgnored | scat/scripts/kpi_calculator_comprehensive.py:24-35 | wherever it sits, a line adds one to the packet count exactly when it is counted, and blank and "Cannot" lines add nothing |
| ComprehensiveKpi.BlankOutputCountsNone | scat/scripts/kpi_calculator_comprehensive.py:30-32 | output made only of white space counts no packet |
| ComprehensiveKpi.FailureIsFinal | scat/scripts/kpi_calculator_comprehensive.py:37-52 | once one line's int or float conversion raises, no later line undoes it and the whole result is the empty list |
| ComprehensiveKpi.DetailsPerLine | scat/scripts/kpi_calculator_comprehensive.py:44-48 | there are never more events than counted lines, and exactly as many when every line holds a separator |
| ComprehensiveKpi.LineWithoutFieldsIgnored | scat/scripts/kpi_calculator_comprehensive.py:46-48 | a line without a '\|' separator adds no event |
| ComprehensiveKpi.DetailsOfStep | scat/scripts/kpi_calculator_comprehensive.py:44-48 | one more line leaves the events alone when it is skipped, fails the whole run when its conversion raises, and otherwise appends exactly its event |
| ComprehensiveKpi.ReadDetail | scat/scripts/kpi_calculator_comprehensive.py:45-48 | the loop body reads one line exactly as the line specification says |
| ComprehensiveKpi.GetPacketDetails | scat/scripts/kpi_calculator_comprehensive.py:37-52 | the method returns exactly the specified event list, empty when the subprocess or a conversion raises |
| ComprehensiveKpi.AnalyzedComplete | scat/scripts/kpi_calculator_comprehensive.py:54-176 | analyze counts every event the model names |
| ComprehensiveKpi.CountsEveryEvent | scat/scripts/kpi_calculator_comprehensive.py:54-176 | every event is counted with the tshark output of its own display filter |
| ComprehensiveKpi.DetailsEveryEvent | scat/scripts/kpi_calculator_comprehensive.py:54-176 | every event's details come from the tshark output of its own display filter |
| ComprehensiveKpi.GuardedValue | scat/scripts/kpi_calculator_comprehensive.py:223-247 | a guarded rate's value is the guarded percentage, and it is the integer 0 exactly when there are no attempts |
| ComprehensiveKpi.KpiTable | scat/scripts/kpi_calculator_comprehensive.py:178-251 | the kpis dict holds a key for every count and for every rate |
| ComprehensiveKpi.RateBounded | scat/scripts/kpi_calculator_comprehensive.py:179-247 | a rate whose successes stay within its attempts lies between 0 and 100 |
| ComprehensiveKpi.FormsAgree | scat/scripts/kpi_calculator_comprehensive.py:179-247 | a rate equals the max-form rate exactly when it is written in max form, or there are attempts, or there are no successes |
| ComprehensiveKpi.RateValue | scat/scripts/kpi_calculator_comprehensive.py:179-247 | each rate is its own row's successes over its attempts, in max form for the first ten rows and guarded for the rest, with 0 only for no attempts |
| ComprehensiveKpi.CallDropOverConnects | scat/scripts/kpi_calculator_comprehensive.py:217 | the call drop rate divides disconnects by connects |
| ComprehensiveKpi.FailureFields | scat/scripts/kpi_calculator_comprehensive.py:361-540 | the statistics carry a failures field for exactly the nine groups that have one |
| ComprehensiveKpi.FailuresSign | scat/scripts/kpi_calculator_comprehensive.py:372 | a failures field is attempts minus successes, unclamped: negative exactly when more successes than attempts were counted |
| ComprehensiveKpi.NegativeFailures | scat/scripts/kpi_calculator_comprehensive.py:372 | one RRC setup counted without any request reports -1 failures |
| ComprehensiveKpi.TotalsCompared | scat/scripts/kpi_calculator_comprehensive.py:617 | the exported total is at most the logged total and equals it exactly when the eight procedures it leaves out are all 0 |
| ComprehensiveKpi.SimpleKpiCalculator.constructor | scat/scripts/kpi_calculator_comprehensive.py:19-22 | a new calculator has empty kpis and event details |
| ComprehensiveKpi.SimpleKpiCalculator.Analyze | scat/scripts/kpi_calculator_comprehensive.py:54-256 | after analyze, the event details are those of each event's filter and the kpis are the table of each event's count |
| EnhancedKpiExtraction.CountedLines | src/main/java/com/nathan/p2/service/EnhancedKpiExtractionService.java:150-155 | never more packets than lines |
| EnhancedKpiExtraction.CountPackets | src/main/java/com/nathan/p2/service/EnhancedKpiExtractionService.java:136-162 | the counting loop returns exactly the number of non-blank lines that do not start with "Cannot", and 0 when the process fails |
| EnhancedKpiExtraction.CountedAppend | src/main/java/com/nathan/p2/service/EnhancedKpiExtractionService.java:150-155 | the count of two pieces of output is the sum of their counts |
| EnhancedKpiExtraction.OneLine | src/main/java/com/nathan/p2/service/EnhancedKpiExtractionService.java:152-154 | wherever it sits, a line adds one to the count exactly when it is neither blank nor a "Cannot" line |
| EnhancedKpiExtraction.AllCounted | src/main/java/com/nathan/p2/service/EnhancedKpiExtractionService.java:152-154 | every line is counted exactly when none is blank or starts with "Cannot" |
| EnhancedKpiExtraction.ParseLine | src/main/java/com/nathan/p2/service/EnhancedKpiExtractionService.java:187-195 | a line yields a detail or an exception only when it is counted and splits into at least two parts |
| EnhancedKpiExtraction.DetailsWithinCount | src/main/java/com/nathan/p2/service/EnhancedKpiExtractionService.java:185-196 | there are never more details than countPackets counts for the same output |
| EnhancedKpiExtraction.DetailsStep | src/main/java/com/nathan/p2/service/EnhancedKpiExtractionService.java:185-196 | one turn of the loop: a failing line ends the list with what was read before it, a skipped line adds nothing, a parsed line appends its detail |
| EnhancedKpiExtraction.ReadDetail | src/main/java/com/nathan/p2/service/EnhancedKpiExtractionService.java:187-195 | the loop body reads one line exactly as the line specification says |
| EnhancedKpiExtraction.GetPacketDetails | src/main/java/com/nathan/p2/service/EnhancedKpiExtractionService.java:168-203 | the method returns exactly the specified details, empty when the process fails |
| EnhancedKpiExtraction.FailureDropsRest | src/main/java/com/nathan/p2/service/EnhancedKpiExtractionService.java:185-201 | a line whose parseInt or parseDouble throws drops itself and every line after it, and keeps every detail read before |
| EnhancedKpiExtraction.DetailsAppend | src/main/java/com/nathan/p2/service/EnhancedKpiExtractionService.java:185-196 | without failing lines, the details of joined outputs are the joined details |
| EnhancedKpiExtraction.DetailsOfPrinted | src/main/java/com/nathan/p2/service/EnhancedKpiExtractionService.java:168-203 | the frame numbers and epoch times tshark prints as frame\|time lines are read back exactly |
| EnhancedKpiExtraction.SharedFilter | src/main/java/com/nathan/p2/service/EnhancedKpiExtractionService.java:65-78 | the E-RAB complete and handover complete counters are distinct keys but use the same display filter |
| EnhancedKpiExtraction.CalculateSuccessRates | src/main/java/com/nathan/p2/service/EnhancedKpiExtractionService.java:268-337 | the result has exactly the thirteen rate keys, each the guarded percentage of its own counters read with getOrDefault, and 0.0 when the request count is missing or not positive |
| EnhancedKpiExtraction.ThirteenRates | src/main/java/com/nathan/p2/service/EnhancedKpiExtractionService.java:268-337 | there are exactly thirteen rates |
| EnhancedKpiExtraction.RateCountersDiffer | src/main/java/com/nathan/p2/service/EnhancedKpiExtractionService.java:268-337 | each rate divides two different counters |
| EnhancedKpiExtraction.RateBounded | src/main/java/com/nathan/p2/service/EnhancedKpiExtractionService.java:272-274 | a rate whose successes stay within its attempts lies between 0 and 100 |
| EnhancedKpiExtraction.RatesOverAllCounters | src/main/java/com/nathan/p2/service/EnhancedKpiExtractionService.java:272-274 | with every counter present, each rate is computed over the counters themselves |
| EnhancedKpiExtraction.PutCount | src/main/java/com/nathan/p2/service/EnhancedKpiExtractionService.java:46 | a put changes only its own key, and every present counter still holds its filter's count |
| EnhancedKpiExtraction.PutDetails | src/main/java/com/nathan/p2/service/EnhancedKpiExtractionService.java:48 | a put changes only its own key, and every present event list still holds its filter's details |
| EnhancedKpiExtraction.LteRrcAndAttach | src/main/java/com/nathan/p2/service/EnhancedKpiExtractionService.java:45-56 | the LTE RRC and attach section fills exactly its five counters with their filters' counts and the four event lists with their filters' details |
| EnhancedKpiExtraction.PutLteProcedures | src/main/java/com/nathan/p2/service/EnhancedKpiExtractionService.java:58-75 | the TAU, E-RAB, PDN and service request section adds exactly its counters, each with its filter's count |
| EnhancedKpiExtraction.PutLteRadio | src/main/java/com/nathan/p2/service/EnhancedKpiExtractionService.java:76-86 | the LTE handover, measurement report and security section adds exactly its counters, each with its filter's count |
| EnhancedKpiExtraction.PutWcdma | src/main/java/com/nathan/p2/service/EnhancedKpiExtractionService.java:87-106 | the WCDMA section adds exactly its counters, each with its filter's count |
| EnhancedKpiExtraction.PutPacketAndCall | src/main/java/com/nathan/p2/service/EnhancedKpiExtractionService.java:107-122 | the PDP, routing area, call control and RACH section adds exactly its counters, each with its filter's count |
| EnhancedKpiExtraction.SectionsCoverAll | src/main/java/com/nathan/p2/service/EnhancedKpiExtractionService.java:44-122 | the five sections together fill every counter |
| EnhancedKpiExtraction.ExtractAllKpis | src/main/java/com/nathan/p2/service/EnhancedKpiExtractionService.java:39-131 | every counter is present with its filter's count, E-RAB complete equals handover complete, the four event lists hold their filters' details, and the thirteen rates are the guarded percentages of the counters |
| MissingKpi.CountWhere | src/main/java/com/nathan/p2/service/MissingKpiExtractor.java:57-61 | a count of matching lines never exceeds the number of lines |
| MissingKpi.CountWhereStep | src/main/java/com/nathan/p2/service/MissingKpiExtractor.java:57-61 | one more line adds one to the count exactly when it matches |
| MissingKpi.CountWhereImplies | src/main/java/com/nathan/p2/service/MissingKpiExtractor.java:57-61 | a weaker condition never counts fewer lines |
| MissingKpi.CountWhereExclusive | src/main/java/com/nathan/p2/service/MissingKpiExtractor.java:57-61 | three mutually exclusive conditions together count at most every line once |
| MissingKpi.ExtractAuthKpis | src/main/java/com/nathan/p2/service/MissingKpiExtractor.java:51-76 | requests, responses and rejects are the counts of the first branch each line takes, together at most the number of lines, and the success rate is the guarded percentage of responses over requests |
| MissingKpi.BearerStepValid | src/main/java/com/nathan/p2/service/MissingKpiExtractor.java:87-99 | one line keeps the bearer state valid: accepts are credited only to requested QCIs, the last request's QCI has a request, and every requested QCI has at least one |
| MissingKpi.BearerRunValid | src/main/java/com/nathan/p2/service/MissingKpiExtractor.java:83-99 | the state after any output is valid |
| MissingKpi.AcceptBeforeRequestIgnored | src/main/java/com/nathan/p2/service/MissingKpiExtractor.java:95-97 | an accept seen before any request changes nothing |
| MissingKpi.ValidReportFacts | src/main/java/com/nathan/p2/service/MissingKpiExtractor.java:101-116 | the report has exactly the requested QCIs, every accepted QCI among them, and each rate is that QCI's accepts times 100 over its non-zero requests |
| MissingKpi.ExtractDedicatedBearerKpis | src/main/java/com/nathan/p2/service/MissingKpiExtractor.java:78-119 | the loop's report is exactly the report of the bearer state the step function reaches on the output |
| MissingKpi.ExtractRejectCauses | src/main/java/com/nathan/p2/service/MissingKpiExtractor.java:121-147 | the service, TAU and authentication rejects are the counts of the first branch each line takes, together at most the number of lines |
| MissingKpi.SeqMin | src/main/java/com/nathan/p2/service/MissingKpiExtractor.java:273 | the minimum is one of the numbers and no number is smaller |
| MissingKpi.SeqMax | src/main/java/com/nathan/p2/service/MissingKpiExtractor.java:273 | the maximum is one of the numbers and no number is larger |
| MissingKpi.Loss | src/main/java/com/nathan/p2/service/MissingKpiExtractor.java:270-277 | the loss is a percentage from 0 up to but below 100, and 0 for fewer than two numbers |
| MissingKpi.LossAsWrittenNegative | src/main/java/com/nathan/p2/service/MissingKpiExtractor.java:273-276 | with 32-bit int arithmetic as written, the numbers 0 and 2147483647 give a negative loss, while the exact loss is just below 100% |
| MissingKpi.LossAsWrittenAgrees | src/main/java/com/nathan/p2/service/MissingKpiExtractor.java:273-276 | when the range fits a Java int, the int arithmetic gives the exact loss |
| MissingKpi.Sort | src/main/java/com/nathan/p2/service/MissingKpiExtractor.java:272 | the list ends sorted and a permutation of what it was |
| MissingKpi.Insert | src/main/java/com/nathan/p2/service/MissingKpiExtractor.java:272 | one insertion step extends the sorted prefix by one element and permutes the array |
| MissingKpi.SortedEnds | src/main/java/com/nathan/p2/service/MissingKpiExtractor.java:272-273 | after sorting, the first and last elements are the minimum and the maximum of the original list |
| MissingKpi.CalculateLoss | src/main/java/com/nathan/p2/service/MissingKpiExtractor.java:270-277 | the caller's list is left sorted and permuted, and the result is the loss of the numbers it held in the chosen arithmetic: wrapping `int`s as written (`Wrapping`), or exact |
| MissingKpi.PdcpSamples | src/main/java/com/nathan/p2/service/MissingKpiExtractor.java:157-167 | a line contributes at most one number, to the downlink or the uplink list |
| MissingKpi.ExtractPdcpLoss | src/main/java/com/nathan/p2/service/MissingKpiExtractor.java:149-180 | the downlink and uplink losses are the losses of their sequence numbers in the chosen arithmetic; with exact arithmetic each is a percentage below 100 |
| MissingKpi.ExtractBler | src/main/java/com/nathan/p2/service/MissingKpiExtractor.java:182-199 | the BLER is the guarded percentage of lines with a CRC error over non-empty lines, between 0 and 100 |
| MissingKpi.CellLoad | src/main/java/com/nathan/p2/service/MissingKpiExtractor.java:241 | the load is between 0 and 100, reaches 100 exactly at 1000 lines or more, and below that is a tenth of the count |
| MissingKpi.ExtractCellLoad | src/main/java/com/nathan/p2/service/MissingKpiExtractor.java:232-246 | the load is that of the number of non-empty lines |
| MissingKpi.McsValues | src/main/java/com/nathan/p2/service/MissingKpiExtractor.java:253-260 | there are at most as many indices as non-empty lines, each a Java int |
| MissingKpi.McsValuesStep | src/main/java/com/nathan/p2/service/MissingKpiExtractor.java:255-259 | a line adds its trimmed integer when it is non-empty and parseInt accepts it, and nothing otherwise |
| MissingKpi.ExtractModulationScheme | src/main/java/com/nathan/p2/service/MissingKpiExtractor.java:248-268 | the stored metric is the average of the accepted indices, 0 without any |
| MissingKpi.McsAverageInTable | src/main/java/com/nathan/p2/service/MissingKpiExtractor.java:262 | indices within the 0..31 table give an average within 0..31 |
| MissingKpi.TauPairsBounded | src/main/java/com/nathan/p2/service/MissingKpiExtractor.java:209-223 | each latency uses up its own request: the latencies plus a pending request are at most the requests seen |
| MissingKpi.AcceptWithoutRequestIgnored | src/main/java/com/nathan/p2/service/MissingKpiExtractor.java:217-220 | an accept with no pending request changes nothing |
| MissingKpi.ExtractTauLatency | src/main/java/com/nathan/p2/service/MissingKpiExtractor.java:201-230 | the result is the mean of the latencies the step function collects, 0 without any, and there are no more latencies than requests |
| QmdlConversion.DeriveOutputPath | src/main/java/com/nathan/p2/service/QmdlConversionService.java:114-126 | the derived capture stays in the directory of the log, and a bare name stays bare |
| QmdlConversion.TerminatorLength | src/main/java/com/nathan/p2/service/QmdlConversionService.java:115 | the final line terminator that `$` may stand before is no longer than the name |
| QmdlConversion.ReplacementChanges | src/main/java/com/nathan/p2/service/QmdlConversionService.java:115-119 | a replaced ".qmdl2" or ".qmdl" extension always changes the name, so the `.pcap` append does not happen then |
| QmdlConversion.DerivedName | src/main/java/com/nathan/p2/service/QmdlConversionService.java:115-121 | a lower-case ".qmdl2" or ".qmdl" at the end, or just before a final line terminator, is replaced by ".pcap" with the terminator kept after it; every other name, an upper-case ".QMDL" included, gets ".pcap" appended |
| QmdlConversion.TerminatorStaysLast | src/main/java/com/nathan/p2/service/QmdlConversionService.java:115 | a log named `x.qmdl` and a final newline gets a capture named `x.pcap` and that newline |
| QmdlConversion.DerivedPathIsPcap | src/main/java/com/nathan/p2/service/QmdlConversionService.java:114-126 | the derived path ends in ".pcap", or in ".pcap" and the final line terminator of a replaced name, always in ".pcap" for a name without one; it stays in the same directory and never equals the log's own path |
| QmdlConversion.QmdlExtensionInAnyCase | src/main/java/com/nathan/p2/service/QmdlConversionService.java:289-293 | a name ending in ".qmdl", ".qmdl2", ".dlf" or ".sdm", in any ASCII case and in any directory, is a QMDL file |
| QmdlConversion.UpperCaseQmdlKeepsExtension | src/main/java/com/nathan/p2/service/QmdlConversionService.java:114-126 | the extension test ignores case but the renaming does not: an upper-case ".QMDL" log counts as a QMDL file and its capture is named with ".QMDL.pcap" |
| QmdlConversion.ValidateQmdlFile | src/main/java/com/nathan/p2/service/QmdlConversionService.java:90-109 | validation passes exactly when the file exists, holds at least 100 bytes and at least 4 bytes are read; each failure is its own error, checked in that order |
| QmdlConversion.ValidationIff | src/main/java/com/nathan/p2/service/QmdlConversionService.java:90-109 | when the bytes read are the whole file, it passes exactly when it exists and holds at least 100 bytes, the header-too-short error can never occur, and a small file reports its size |
| OfflineLogConversion.FormatOfScatType | src/main/java/com/nathan/p2/service/OfflineLogConversionService.java:24-32 | a format read back from a scat type string has that type string |
| OfflineLogConversion.ScatTypeInjective | src/main/java/com/nathan/p2/service/OfflineLogConversionService.java:24-32 | the three formats have three different scat type strings, and each reads back as its own format |
| OfflineLogConversion.DetectFormat | src/main/java/com/nathan/p2/service/OfflineLogConversionService.java:68-78 | an unknown name is rejected with a message quoting the lower-cased name |
| OfflineLogConversion.DetectFormatIff | src/main/java/com/nathan/p2/service/OfflineLogConversionService.java:68-78 | compared in lower case, QMDL is chosen exactly for ".qmdl" or ".qmdl2", SDM exactly for ".sdm", LPD exactly for ".lpd", and a name is rejected exactly when it has none of these |
| OfflineLogConversion.FormatsAndQmdlFiles | src/main/java/com/nathan/p2/service/OfflineLogConversionService.java:68-78 | names detected as Qualcomm or Samsung logs are QMDL files to the QMDL service, and HiSilicon names are not |
| OfflineLogConversion.ScatArguments | src/main/java/com/nathan/p2/service/OfflineLogConversionService.java:35-43 | the scat argument list is -m scat -t, the format's type, -d, the input, -F, the output |
| OfflineLogConversion.ReadScatArguments | src/main/java/com/nathan/p2/service/OfflineLogConversionService.java:35-43 | an argument list that reads back has eight entries and the format's type in fourth place |
| OfflineLogConversion.ScatArgumentsRoundTrip | src/main/java/com/nathan/p2/service/OfflineLogConversionService.java:35-43 | reading back the built argument list gives the format, the input and the output it was built from |
| Bytes.Unsigned32 | src/main/java/com/nathan/p2/service/GsmtapListenerService.java:160 | the bit pattern of a Java int is the int itself when it is not negative, and the int plus 2^32 otherwise |
| Bytes.Signed32 | src/main/java/com/nathan/p2/service/GsmtapListenerService.java:160 | getInt reads the Java int whose bit pattern is the four bytes |
| Bytes.SignedUnsigned32 | src/main/java/com/nathan/p2/service/GsmtapListenerService.java:160 | reading back the bit pattern of a Java int gives that int |
| Bytes.Signed8 | src/main/java/com/nathan/p2/service/GsmtapListenerService.java:158-159 | get without masking gives a value from -128 to 127 that agrees with the byte modulo 256 |
| Bytes.BE16RoundTrip | src/main/java/com/nathan/p2/service/GsmtapListenerService.java:157 | a big-endian 16-bit field reads back as the value written, wherever it sits |
| Bytes.BE32RoundTrip | src/main/java/com/nathan/p2/service/GsmtapListenerService.java:160 | a big-endian 32-bit field reads back as the value written, wherever it sits |
| Bytes.LE16RoundTrip | src/main/java/com/nathan/p2/service/LiveGsmtapCaptureService.java:414-426 | a little-endian 16-bit field reads back as the value written, wherever it sits |
| Bytes.LE32RoundTrip | src/main/java/com/nathan/p2/service/LiveGsmtapCaptureService.java:437-456 | a little-endian 32-bit field reads back as the value written, wherever it sits |
| Bytes.LE32ReversesBE32 | src/main/java/com/nathan/p2/service/LiveGsmtapCaptureService.java:437-456 | the little-endian bytes of a field are its big-endian bytes reversed |
| JavaInt.Wrap32 | src/main/java/com/nathan/p2/service/GsmtapListenerService.java:362-364 | a Java int cast leaves a value alone when it fits and otherwise agrees with it modulo 2^32 |
| JavaInt.Truncate | src/main/java/com/nathan/p2/service/ProcedureCorrelationService.java:349 | a cast to long truncates toward zero |
| JavaInt.ParseIntForm | src/main/java/com/nathan/p2/service/MissingKpiExtractor.java:161 | an accepted text is an optional sign followed by digits only, a `-` gives a value of at most 0 and no `-` one of at least 0; a run of digits is read as its decimal value when that fits an `int` and is rejected otherwise |
| JavaInt.ParseIntText | src/main/java/com/nathan/p2/service/MissingKpiExtractor.java:161 | parseInt reads back every int printed in decimal |
| NumberSearch.GapExcludesNumber | scat/realtime_kpi_extractor.py:132 | no separator class holds a digit or a minus sign, so the separator run always ends where the number starts |
| NumberSearch.FindLeftmost | old-scat-codebase/src/scat/kpi_extractor.py:42-44 | a search finds the leftmost position where the pattern matches, and fails only when it matches nowhere |
| NumberSearch.FindShape | old-scat-codebase/src/scat/kpi_extractor.py:42-44 | every capture is an optional minus sign and at least one digit, and only digits when the pattern has no sign |
| NumberSearch.SearchInt | old-scat-codebase/src/scat/kpi_extractor.py:42-51 | the integer search fails exactly when the pattern matches nowhere |
| NumberSearch.FindNeedsKey | scat/realtime_kpi_extractor.py:132-146 | a text holding none of the keywords yields no number |
| Patterns.FirstMatchFrom | scat/src/scat/telecom_parser.py:201-210 | the row found matches and no row before it from the start point matches; none is found only when no such row matches |
| Patterns.FirstMatch | scat/src/scat/telecom_parser.py:201-210 | the row chosen matches and no earlier row does; none is chosen only when no row matches |
| Patterns.FirstMatchIff | scat/src/scat/telecom_parser.py:201-210 | row i is chosen exactly when it matches and no earlier row does |
| Patterns.Pick | scat/src/scat/telecom_parser.py:201-210 | a label is picked exactly when some row matches |
| Patterns.PickIff | scat/src/scat/telecom_parser.py:201-210 | with distinct labels, label i is picked exactly when row i matches and no earlier row does |
| Patterns.WordsMatch | scat/realtime_kpi_extractor.py:99-111 | a keyword row matches exactly when the keyword occurs in the text |
| Patterns.FirstWord | scat/realtime_kpi_extractor.py:99-111 | the keyword loop returns exactly the first keyword that occurs in the text |
| Rates.RateFormsAgree | scat/scripts/kpi_calculator_comprehensive.py:179-247 | the max form and the guarded form of a rate agree exactly when there are attempts or no successes |
| Rates.RateTimesDen | scat/scripts/kpi_calculator_comprehensive.py:179 | a max-form rate times its attempts is a hundred times its successes, and without attempts the rate is a hundred times the successes |
| Rates.GuardedTimesDen | src/main/java/com/nathan/p2/service/EnhancedKpiExtractionService.java:274 | a guarded rate times its attempts is a hundred times its successes, and without attempts the rate is 0 |
| Rates.RateBounds | src/main/java/com/nathan/p2/service/EnhancedKpiExtractionService.java:274 | successes within attempts give a rate between 0 and 100 in both forms |
| Rates.AverageBounds | old-scat-codebase/scripts/kpi_calculator_comprehensive_old.py:277-278 | an average of samples lies between the smallest and the largest sample |
| Rates.MeanRealBounds | src/main/java/com/nathan/p2/service/MissingKpiExtractor.java:225 | a mean of real samples lies between the smallest and the largest sample |

## Left out

- External processes and files: the tshark, adb, SCAT and python subprocesses, `ProcessBuilder`, `Files.*`, `FileOutputStream` and file reads. Their outputs are parameters (line sequences, decoded messages, file sizes), and their writes are the byte sequences the model produces.
- Sockets: the GSMTAP `DatagramSocket` receive loop and websockets. A received datagram is a parameter of `GsmtapListener.Receive`.
- Concurrency: Reactor `Mono`/`Flux`/`Sinks`, threads, `synchronized`, `AtomicBoolean` and `ConcurrentHashMap`. Each service is modelled as one sequential caller.
- Network exporters: the HTTP/Prometheus handlers and the metrics text they render. Only the totals and `failures` fields of the comprehensive calculator's statistics are modelled, because they carry arithmetic.
- Clocks: `time.time()`, `datetime.now()`, `Instant.now()` and `System.currentTimeMillis()` are parameters.
- Parsers: `json.loads` and Jackson are replaced by the decoded `JsonInput` value or the message record they produce. A list or object message is kept as the strings Python's `in` can find in it. `Double.parseDouble` results are parameters, and so are the `int()` and `float()` conversions of `get_packet_details` (the `toInt` and `toFloat` parameters of `ComprehensiveKpi.ParseLine`).
- Iteration order: the order in which Java `HashMap` and Python dict iteration flush leftover procedures is unspecified. The model flushes in one particular order and states only which procedures come out.
- Regular expressions: they are modelled as ordered-substring checks for `a.*b` patterns and as the keyword-then-number searches of `NumberSearch`, over ASCII text. Case conversion is ASCII only. Java's `$` in `deriveOutputPath` is modelled with its match before a final line terminator; names are sequences of Unicode characters, not UTF-16 units.
- `JavaInt.ParseInt`: it accepts ASCII digits only, not other Unicode decimal digits.
- Java `split("\\s+")` in `parseDiagMessage`: it is modelled as splitting on spaces. This is exact, because the cleaned text holds no other white space.
- Doubles: they are exact reals, and Python's `round()` of rates is not applied.
- RSRP/RSRQ index conversion: `extractMeasurements` of the enhanced extraction service converts indices to dBm and dB in floating point, so it is not part of this model.
- Modulation label: the label that `extractModulationScheme` computes is never stored, so only the average MCS is modelled.
- Telecom parser extractors: `_extract_measurements`, `_extract_procedure_info`, `_extract_security_info`, `_extract_frequency_info`, the timestamp and `get_procedure_summary` only fill dictionaries that nothing here reads. `TelecomParser.Parse` covers the type, subsystem and raw-message fields.
- `rrc_state`: the real-time extractor's field is never assigned and is omitted.
- E-RAB correlation: `correlateLteErabSetup` always returns an empty list after running tshark, so it is an I/O-only operation and is not modelled.
- Logging.
- Other repository parts: the frontend, Spring controllers and configuration, installers and device detection, the remaining analysers, and `scat/comprehensive_telecom_parser.py`. The last is not valid source: its lines are in reverse order.

## Findings

| source | as written | input that shows it | evidently intended | confidence | as-written member | corrected member |
|---|---|---|---|---|---|---|
| scat/src/scat/telecom_parser.py:201-210 | the text is lower-cased, but patterns holding upper-case letters such as `RRC.*connection.*request` are searched case-sensitively in it, so they can never match | the message `rrc connection request` | patterns match without regard to case | high, not executed | TelecomParser.RrcRequestDetection | TelecomParser.DetectIff |
| src/main/java/com/nathan/p2/service/ProcedureCorrelationService.java:102-119 | the `contains("RRCConnectionSetup")` test comes before the SetupComplete test and also catches `RRCConnectionSetupComplete`, so no RRC procedure is ever completed as a success | `RRCConnectionRequest` then `RRCConnectionSetupComplete`, both with transaction id `0` | a setup complete closes the procedure with success | high, not executed | ProcedureCorrelation.AsWrittenNeverSucceeds | ProcedureCorrelation.CompleteFirstSucceeds |
| scat/realtime_kpi_extractor.py:92-97 | an NR `RRCSetupComplete` line is taken by the earlier `'RRCSetup' in line` branch, so 5G RRC successes are never counted | the line `NR RRCSetupComplete` | the complete line raises the 5G success counter | high, not executed | RealtimeKpiExtractor.NrSetupCompleteUnreachable | RealtimeKpiExtractor.NrSetupCompleteCounted |
| src/main/java/com/nathan/p2/service/GsmtapListenerService.java:167-171 | the GSMTAP header length, which counts 32-bit words, is used as a byte offset, so the payload keeps the last 12 header bytes | a standard header with length 4, such as the output of `wrapInGsmtap` | the payload starts at byte `4 * hdr_len` | high, not executed | GsmtapListener.AsWrittenPayloadKeepsHeader | GsmtapListener.PayloadAfterHeader |
| src/main/java/com/nathan/p2/service/GsmtapListenerService.java:382-393 | after each flush the PCAP global header is written into the buffer again, so the file gets a second global header in the middle of its records | one record over the 1 MiB flush threshold, then close | the global header is written once, at the start of the file | high, not executed | GsmtapListener.SecondHeaderInFile | GsmtapListener.SessionCapture.Close |
| src/main/java/com/nathan/p2/service/MissingKpiExtractor.java:273-276 | `expected` and `lost` are Java `int`, so a sequence-number span of 2^31 wraps and the loss comes out negative | sequence numbers 0 and 2147483647 | the loss of the exact span, inside [0, 100) | low (real PDCP sequence numbers are small), not executed | MissingKpi.LossAsWrittenNegative | MissingKpi.CalculateLoss |
