# NYOS-APR core, modelled in Dafny

NYOS-APR builds Annual Product Reviews (APR) for a tablet product. It has:

- a synthetic data generator (`PharmaceuticalDataGenerator`). It produces manufacturing batches, QC results, complaints, CAPAs, environmental readings, equipment calibrations, stability tests, raw-material receipts and batch releases. Hidden quality "scenarios" (COVID disruption, Press-A wear, an MCC supplier change, and others) shift the numbers over known date windows;
- report helpers. They detect anomalies in an uploaded table, find the period a table covers, roll file reports up into monthly reports, and compute the yearly status and QC pass rate;
- a PDF builder. It turns markdown into paragraphs and numbers the sections;
- a statistics layer. It classifies parameter trends and counts QC, CAPA, complaint and per-machine figures;
- two API routers. One generates and downloads the data; the other uploads CSV files into the database.

This project models that core in Dafny.

## How the model is built

- **Random draws.** Every random draw is an input: each generator takes a draw stream `nat -> Draw` indexed by its record counter. A generator is therefore a function of its arguments and its draws. The result that the source's reseeding makes reproducible is, in the model, the same result for the same draws.
- **Loops.** The loops of the generators, the upload, the PDF converter and the statistics are `method`s with `while`/`for` loops. Each is proved against a plan function, `Rows(make, Plan(...))`. Lemmas then state what the source promises of every row of that plan: numbering, dates, per-row rules and id uniqueness.
- **Tables.** Tables are sequences of records. Dictionaries are `map`s, or lists of items where their order matters.
- **Dates.** Dates are proleptic Gregorian dates with `date.toordinal()` numbering. `FromToOrdinal` proves the numbering is a bijection. Timestamps are minutes.
- **Numbers.** Python floats are exact reals. `round`, `int()` and `//` are written out in `Numeric`.

## Model

| member | source | states |
|---|---|---|
| Scenarios.OutsideWindowsNeutral | backend/app/services/data_generation_service.py:111-160 | outside every scenario window the adjustments are the neutral ones (no modifier, rates 1.0, no label), for any equipment |
| Scenarios.AdjustmentFields | backend/app/services/data_generation_service.py:122-158 | each modifier as a table over the windows: COVID yield −2, MCC dissolution −5 and complaint rate ×1.5, Press-B (days 1-15, Press-B only) hardness +1.5 and dissolution −8, supplier yield −1 and CAPA rate ×1.3; fields are assigned, not accumulated |
| Scenarios.AdjustmentLabel | backend/app/services/data_generation_service.py:122-158 | the scenario label is fixed by the date alone, except in the Press-A window, where only Press-A is labelled |
| Scenarios.WindowsDisjoint | backend/app/services/data_generation_service.py:122-158 | no date lies in two scenario windows, so no assignment overrides another |
| Scenarios.PressAWearBoundedMonotone | backend/app/services/data_generation_service.py:127-131 | the Press-A wear `min(0.05 · days since 2021-09-01, 2.0)` lies in [0, 2] and never decreases with the date |
| Scenarios.PressAWearOnlyPressA | backend/app/services/data_generation_service.py:127-131 | in the Press-A window every other piece of equipment gets no hardness modifier |
| Calendar.FromToOrdinal | backend/app/services/data_generation_service.py:188-189 | `fromordinal(toordinal(d)) == d` for every valid date: stepping a day by `timedelta(days=1)` is stepping its ordinal |
| Calendar.ParseFormatIso | backend/app/services/data_generation_service.py:287 | the `%Y-%m-%d` text of a date parses back to the same date, so the QC, complaint, stability and release steps can read back the dates manufacturing writes (:374) |
| Calendar.NextMonthFollows | backend/app/services/data_generation_service.py:745-748 | the first day of the next month, December rolling over to January, is the day after the last day of the month |
| Numeric.RoundIdempotent | backend/app/services/data_generation_service.py:409-410 | rounding a value already rounded to `k` places changes nothing |
| Numeric.MeanBetweenMinMax | backend/app/services/data_generation_service.py:410-411 | the mean of a non-empty list lies between its minimum and its maximum |
| Text.PaddedIdInjective | backend/app/services/data_generation_service.py:199 | ids `x-NNNNN` padded from different numbers differ whatever their heads, which is what makes every numbered id of the generator unique |
| Text.ZeroPadValue | backend/app/services/data_generation_service.py:199 | the `{n:05d}`-style padding keeps the number the digits denote |
| Manufacturing.ShiftStartHour | backend/app/services/data_generation_service.py:202-204 | the start hour lies in 0..23 after the `% 24` of the night shift |
| Manufacturing.ClampYield | backend/app/services/data_generation_service.py:257 | the clamped yield lies in [90, 100], and a yield already in range is kept |
| Manufacturing.ActualYield | backend/app/services/data_generation_service.py:258 | the actual yield `int(theoretical · pct / 100)` lies between 0 and the theoretical yield |
| Manufacturing.OtherOperator | backend/app/services/data_generation_service.py:218-219 | the secondary operator is an operator other than the primary |
| Manufacturing.Weights | backend/app/services/data_generation_service.py:222-224 | the batch size is the API weight plus the excipient weight |
| Manufacturing.Rejects | backend/app/services/data_generation_service.py:261-263 | the reject count is non-negative and its reason is "None" when at most 10 tablets were rejected |
| Manufacturing.Deviation | backend/app/services/data_generation_service.py:266-268 | `has_deviation` is Yes or No, and the deviation id and type are non-empty exactly when it is Yes |
| Manufacturing.MakeBatch | backend/app/services/data_generation_service.py:197-348 | one batch record keeps all the per-row rules above, carries the id `{prefix}-{yy}-{index:05d}`, the day and the product |
| Manufacturing.DayCount | backend/app/services/data_generation_service.py:190-195 | a day in the COVID window makes 10 to 15 batches, any other day `batches_per_day` (none when that is not positive) |
| Manufacturing.DayCountFollowsScenario | backend/app/services/data_generation_service.py:193-195 | testing the COVID window is the same as testing the COVID label of the scenario table |
| Manufacturing.DayTotal | backend/app/services/data_generation_service.py:188-189 | the day loop visits `(end − start).days + 1` days, none when the end is before the start |
| Manufacturing.GenerateManufacturing | backend/app/services/data_generation_service.py:164-354 | an IndexError for a product index outside the product list; otherwise the rows of the production plan from `start` to `end`, built by the loop body |
| Manufacturing.GenerateDays | backend/app/services/data_generation_service.py:188-352 | the day loop builds exactly the rows of the plan of its days, with `batch_index` running across days |
| Manufacturing.ScheduleSize | backend/app/services/data_generation_service.py:189-197 | away from the COVID window the table holds `days · batches_per_day` rows |
| Manufacturing.PlanNumbered | backend/app/services/data_generation_service.py:186 | the plan numbers its batches 1, 2, 3, … across the whole call and keeps each to its day (also data_generation_service.py:350) |
| Manufacturing.PlanOrdered | backend/app/services/data_generation_service.py:188-352 | rows come in day order |
| Manufacturing.MakerGood | backend/app/services/data_generation_service.py:197-348 | the loop body keeps, for every slot, the per-row promises, the slot's date and the slot's id |
| Manufacturing.ManufacturingTable | backend/app/services/data_generation_service.py:164-354 | every row of a table is a well-formed batch dated inside the period, row `i` is batch number `i + 1`, and the dates never go backwards |
| Manufacturing.BatchIdsUnique | backend/app/services/data_generation_service.py:199 | row `i`'s id ends in `i + 1`, so no two batch ids of a table are equal (also data_generation_service.py:350) |
| Qc.PassFail | backend/app/services/data_generation_service.py:403 | the text is "Pass" exactly when the test passes, else "Fail" (also data_generation_service.py:412, 417, 423, 435) |
| Qc.Comments | backend/app/services/data_generation_service.py:507 | the comment is empty exactly when the sample passed |
| Qc.TestDate | backend/app/services/data_generation_service.py:378 | the test date is a valid date 1 to 3 days after manufacture |
| Qc.OtherAnalyst | backend/app/services/data_generation_service.py:384-385 | the physical analyst is a QC analyst other than the chemical one |
| Qc.Dissolution | backend/app/services/data_generation_service.py:410-411 | the dissolution mean is the mean of the six vessels rounded to one decimal, the minimum is their minimum, and the mean lies between minimum and maximum |
| Qc.Measure | backend/app/services/data_generation_service.py:396-435 | six vessels with that mean and minimum, non-negative microbial counts |
| Qc.QcRow | backend/app/services/data_generation_service.py:372-508 | the record of one batch: sample id `QC-{batch_id}`, the batch's product, a test date 1-3 days later, and every pass/fail rule, with overall Pass exactly when all seven criteria hold |
| Qc.GenerateQc | backend/app/services/data_generation_service.py:356-510 | a ValueError exactly when some manufacturing date does not parse; otherwise one record per manufacturing row, in the same order |
| Qc.QcTableSamples | backend/app/services/data_generation_service.py:372-447 | every record of a QC table is the sample of its own batch and keeps the QC rules |
| Qc.QcSampleIdsUnique | backend/app/services/data_generation_service.py:392 | distinct batch ids give distinct sample ids |
| Complaints.Severity | backend/app/services/data_generation_service.py:550-556 | the severity is Critical, Major or Minor, and only Critical or Major for an adverse event |
| Complaints.InvestigationRequired | backend/app/services/data_generation_service.py:564 | a Critical or Major complaint is always investigated |
| Complaints.CapaReference | backend/app/services/data_generation_service.py:591 | a CAPA reference exists exactly when the outcome mentions a CAPA |
| Complaints.ComplaintStatus | backend/app/services/data_generation_service.py:594-600 | closed after 60 days, closed or under investigation after 30, open or under investigation before |
| Complaints.TriageOf | backend/app/services/data_generation_service.py:550-588 | adverse events are Critical or Major, Critical/Major are investigated, and the complaint is reportable exactly when it is a Critical adverse event |
| Complaints.Closure | backend/app/services/data_generation_service.py:594-605 | `days_to_close` is set exactly when the status is Closed, and is then 5 to 45 |
| Complaints.Complaint | backend/app/services/data_generation_service.py:536-619 | a complaint is filed exactly when the draw is under the effective rate; it then keeps the complaint rules, names its batch, is received 2-90 days after manufacture and carries its number |
| Complaints.FirstWithIdUnique | backend/app/services/data_generation_service.py:534 | with unique batch ids the `.iloc[0]` lookup finds the row itself |
| Complaints.GenerateComplaints | backend/app/services/data_generation_service.py:512-624 | a KeyError on the empty table, a ValueError exactly when a looked-up date does not parse, otherwise the complaints that are filed, numbered as they are filed |
| Complaints.FiledInOrder | backend/app/services/data_generation_service.py:531-619 | complaints follow the batches they were filed for, in order |
| Complaints.FiledFacts | backend/app/services/data_generation_service.py:540-619 | every filed complaint keeps the complaint rules and names the batch it was filed for |
| Complaints.ComplaintIdsUnique | backend/app/services/data_generation_service.py:545 | complaint ids number only the filed complaints 1, 2, 3, …, so no two are equal (also data_generation_service.py:622) |
| Capa.LateStatusClosed | backend/app/services/data_generation_service.py:702-703 | every status chosen after 120 days contains "Closed" |
| Capa.EarlyStatusOpen | backend/app/services/data_generation_service.py:713 | no status chosen within 60 days contains "Closed" |
| Capa.ProgressOf | backend/app/services/data_generation_service.py:701-722 | closed after 120 days, never closed within 60, and completion dates only for the closed ones |
| Capa.Capa | backend/app/services/data_generation_service.py:656-741 | one CAPA keeps the CAPA rules: its id, an open date in its month, a target 30-90 days after opening, and a status consistent with its age |
| Capa.GenerateCapa | backend/app/services/data_generation_service.py:626-750 | the months from the month of `start` to the month of `end`, each with `int(base · capa_rate_modifier)` CAPAs, numbered across months |
| Capa.PlanNumbered | backend/app/services/data_generation_service.py:648-748 | CAPAs are numbered consecutively and every CAPA opens in a month from the first to the last, December rolling into January |
| Capa.CapaTable | backend/app/services/data_generation_service.py:626-750 | every CAPA of the table keeps the CAPA rules, and CAPA `k` carries number `k + 1`, so ids never repeat |
| Environmental.Climate | backend/app/services/data_generation_service.py:796-803 | the summer temperature and humidity replace the usual ones in July and August of every year |
| Environmental.EnvRow | backend/app/services/data_generation_service.py:777-831 | a reading is Pass exactly when the temperature is in [18, 25], the humidity in [30, 60] and the pressure at least 10, each flag saying which held; it carries its room, its hour and its id |
| Environmental.GenerateEnvironmental | backend/app/services/data_generation_service.py:752-837 | an empty table when no day is visited, an IndexError when more than three readings a day are asked for, otherwise the readings of every room on every day |
| Environmental.EnvTable | backend/app/services/data_generation_service.py:772-835 | every reading keeps the reading rules, falls on a day of the call, and reading `k` carries number `k + 1`, so record ids never repeat |
| Equipment.FrequenciesPositive | backend/app/services/data_generation_service.py:859-871 | every instrument is calibrated every 30 to 365 days |
| Equipment.Timing | backend/app/services/data_generation_service.py:879-885 | the scheduled date is the loop date, the actual date follows it by one of the listed delays, and `next_due` is the actual date plus the instrument's period |
| Equipment.Judge | backend/app/services/data_generation_service.py:904-906 | a calibration fails exactly when it is out of tolerance and the draw is below 0.05, so one within tolerance passes |
| Equipment.GenerateEquipment | backend/app/services/data_generation_service.py:839-931 | for each instrument, the calibrations of its schedule, in instrument order |
| Equipment.InstrumentSchedule | backend/app/services/data_generation_service.py:875-929 | an instrument is calibrated first on `start`, then every `freq_days`, never after `end`, with consecutive numbers |
| Equipment.CalibratorNotReviewer | backend/app/services/data_generation_service.py:924-925 | no calibration is reviewed by the analyst who made it |
| Equipment.CalTable | backend/app/services/data_generation_service.py:839-931 | every calibration keeps its rules, is scheduled inside the period, and calibration `k` carries number `k + 1`, so ids never repeat |
| Stability.Stride | backend/app/services/data_generation_service.py:954 | the stride `max(1, n // (batches_per_study · 4))` is at least 1 |
| Stability.StridedAt | backend/app/services/data_generation_service.py:954 | element `k` of the strided list is element `k · step` of the list |
| Stability.SelectionFacts | backend/app/services/data_generation_service.py:953-954 | at most `4 · batches_per_study` distinct ids of the table are chosen, and all of them in order when the table has no more |
| Stability.DegradationOrder | backend/app/services/data_generation_service.py:978-986 | the expected assay never rises with time under any condition, and is lowest under accelerated storage and highest long-term |
| Stability.Measure | backend/app/services/data_generation_service.py:986-989 | total impurities never fall below the initial 0.1 % |
| Stability.GenerateStability | backend/app/services/data_generation_service.py:933-1013 | a KeyError on the empty table, a ZeroDivisionError for 0 batches per study, a ValueError exactly when a chosen batch's date does not parse, otherwise the tests of the plan: 18 per chosen batch |
| Stability.StabTable | backend/app/services/data_generation_service.py:962-1011 | every test keeps its rules, is dated `30 · timepoint` days after manufacture, and test `k` belongs to chosen batch `k / 18` and to one of that batch's three studies |
| RawMaterials.Receipts | backend/app/services/data_generation_service.py:1045-1047 | a week brings `receipts_per_week + randint(-2, 2)` receipts, none when that is negative |
| RawMaterials.Disposition | backend/app/services/data_generation_service.py:1074-1080 | Released exactly on a pass, Rejected exactly on a failure, Quarantine otherwise |
| RawMaterials.GenerateRawMaterials | backend/app/services/data_generation_service.py:1015-1104 | the receipts of every week from `start` to `end`, numbered across weeks |
| RawMaterials.PlanSize | backend/app/services/data_generation_service.py:1043-1047 | the table holds between `W · max(0, rpw − 2)` and `W · max(0, rpw + 2)` receipts for `W` weeks |
| RawMaterials.RawTable | backend/app/services/data_generation_service.py:1015-1104 | every receipt keeps its rules and its GRN number reads back as its position plus one |
| BatchRelease.Disposition | backend/app/services/data_generation_service.py:1143-1150 | only a batch with an OOS result is rejected, an OOS batch is never plainly released, and a batch with neither OOS nor deviation is released |
| BatchRelease.Review | backend/app/services/data_generation_service.py:1138-1139 | review starts 1-3 days after the QC test and completes 1-2 days later |
| BatchRelease.ReleaseOf | backend/app/services/data_generation_service.py:1152-1156 | release date and days to release are missing exactly for a rejected batch; otherwise the release is 1-5 days after review and the days count from manufacture |
| BatchRelease.QcFor | backend/app/services/data_generation_service.py:1129-1132 | the QC record found has the batch's id; none is found exactly when no QC record names the batch |
| BatchRelease.QcForFirst | backend/app/services/data_generation_service.py:1129-1132 | the QC record found is the first one with the batch's id, as `.iloc[0]` takes it |
| BatchRelease.GenerateBatchRelease | backend/app/services/data_generation_service.py:1106-1185 | an empty table for no batches, a KeyError (or the date's ValueError) for an empty QC table, otherwise the releases of the batches that have a QC record |
| BatchRelease.ReleasedInOrder | backend/app/services/data_generation_service.py:1126-1183 | release records keep manufacturing order |
| BatchRelease.ReleasedCovers | backend/app/services/data_generation_service.py:1129-1131 | only batches without a QC record are skipped |
| BatchRelease.NoneSkipped | backend/app/services/data_generation_service.py:1129-1131 | when every batch has a QC record no batch is skipped |
| BatchRelease.ReleaseTable | backend/app/services/data_generation_service.py:1126-1183 | every release record keeps the release rules for its batch and the QC record found for it |
| AllData.QcOfTable | backend/app/services/data_generation_service.py:1208-1211 | the QC table made from the manufacturing table has one record per batch, in order |
| AllData.AllTablesGenerated | backend/app/services/data_generation_service.py:1187-1247 | the nine tables of the period are those each generator's own contract describes, the release table being built from the manufacturing and QC tables |
| AllData.GenerateAll | backend/app/services/data_generation_service.py:1187-1247 | succeeds exactly when the period yields a batch, fails with a KeyError otherwise, and returns the nine tables keyed by data type |
| AllData.GeneratedDatesParse | backend/app/services/data_generation_service.py:1208-1211 | every generated manufacturing date parses, so the later steps never raise a ValueError |
| AllData.PeriodRangeCases | backend/app/services/data_generation_service.py:1271-1287 | without a start date a month gives its first to last day and no month gives the whole year, the year defaulting to the current one, with a ValueError naming the year (`year N is out of range`, 10000 for December 9999) or the month (`month must be in 1..12`); a given start and end are kept; a start without an end runs 30 days, with an OverflowError past 9999-12-31 |
| AllData.YearAfterLastText | backend/app/services/data_generation_service.py:1279 | the year `datetime(year + 1, 1, 1)` names for December 9999, and so its error message, is written "10000" |
| AllData.SelectedKeys | backend/app/services/data_generation_service.py:1294-1295 | the tables kept have distinct keys, each a requested data type |
| AllData.GenerateCsvForPeriod | backend/app/services/data_generation_service.py:1249-1305 | the period, the nine tables of that period and the tables of the requested types, in dictionary order |
| AllData.EntryNamesDiffer | backend/app/services/data_generation_service.py:1323 | different data types give different archive entry names under one prefix |
| AllData.CreateZipArchive | backend/app/services/data_generation_service.py:1308-1327 | one entry per buffer, in order, named `{prefix}_{name}.csv` and holding that buffer |
| Reports.Detect | backend/app/services/report_service.py:141-247 | a rule reports exactly when its columns exist and some row matches, counting the matching rows |
| Reports.LowYieldCheck | backend/app/services/report_service.py:141-151 | low yield is reported exactly when some yield is below 95; warning under 5 rows, else critical, with at most the first 10 batch ids of the low rows |
| Reports.DeviationCheck | backend/app/services/report_service.py:153-162 | deviations are the rows whose `deviation_id` is present and not the empty text, reported as information |
| Reports.OosResultCheck | backend/app/services/report_service.py:164-175 | OOS results count rows whose lowered `overall_result` is fail or oos, with at most 10 batch ids |
| Reports.OosAssayCheck | backend/app/services/report_service.py:177-186 | OOS assays are the rows whose numeric assay lies outside [95, 105] |
| Reports.CriticalComplaintCheck | backend/app/services/report_service.py:189-198 | critical complaints are the rows whose lowered severity is critical or high, reported as critical |
| Reports.ReportableCheck | backend/app/services/report_service.py:200-209 | reportable complaints are the rows whose lowered `regulatory_reportable` is yes, reported as critical |
| Reports.OverdueCheck | backend/app/services/report_service.py:211-223 | overdue CAPAs need both columns, and are the rows whose target date parses and is before now and whose lowered status does not contain "closed" |
| Reports.CriticalCapaCheck | backend/app/services/report_service.py:225-234 | critical CAPAs are the rows whose lowered `risk_score` is critical |
| Reports.CalibrationFailureCheck | backend/app/services/report_service.py:237-247 | failures are the rows whose lowered result is fail; at most 10 equipment ids are listed, without repeats, each of a failed row |
| Reports.DetectAnomalies | backend/app/services/report_service.py:136-249 | each of the five data types runs its own rules, and any other type reports nothing |
| Reports.ParsedDates | backend/app/services/report_service.py:268 | the dates kept are exactly the cells that parse |
| Reports.MostCommon | backend/app/services/report_service.py:271-272 | the value returned is a most frequent one |
| Reports.ExtractPeriod | backend/app/services/report_service.py:252-283 | no year when no date parses, else the most frequent year; a month exactly when all dates share one, and then that month |
| Reports.PreviousMonth | backend/app/services/report_service.py:586-587 | (y, m − 1) after January, (y − 1, 12) for January |
| Reports.PreviousMonthInverse | backend/app/services/report_service.py:586-587 | the month after the previous month is the month itself |
| Reports.GroupOfSelects | backend/app/services/report_service.py:422-430 | each metrics group holds exactly its type's metrics, in order, and no group is empty |
| Reports.TaggedOf | backend/app/services/report_service.py:432-437 | every anomaly of every file report is kept, tagged with its file's name, and nothing else |
| Reports.Aggregate | backend/app/services/report_service.py:416-437 | the roll-up loop gives the report ids, the grouped metrics and the tagged anomalies |
| Reports.FirstOfMonth | backend/app/services/report_service.py:396-398 | the stored report found is one of that month, and one is found exactly when one exists |
| Reports.DetectTrends | backend/app/services/report_service.py:581-609 | a single yield trend exactly when the previous month's report exists and has batch metrics |
| Reports.JanuaryLooksAtDecember | backend/app/services/report_service.py:586-591 | January's trends come from December of the year before |
| Reports.GenerateMonthlyReport | backend/app/services/report_service.py:386-579 | the stored report when it exists and regeneration is not forced; a ValueError when no file report of the month is included; otherwise the roll-up with the trends of the previous month |
| Reports.CountsAgree | backend/app/services/report_service.py:770-778 | two counts under nested tests agree exactly when no element passes only the weaker test |
| Reports.QcPassRate | backend/app/services/report_service.py:766-778 | the pass rate lies in [0, 100], is 0 for a year without QC results, and is 100 exactly when all of them passed |
| Reports.OverallQcPassRate | backend/app/services/report_service.py:793 | the rounded rate stays in [0, 100] and keeps its two ends |
| Reports.LastIndex | backend/app/services/report_service.py:1060-1075 | the position of the last report of a month, with no later report of that month |
| Reports.HierarchyStatus | backend/app/services/report_service.py:1039-1084 | the year (the current one by default), file report counts with completed + pending + failed ≤ total, a slot for each month 1..12 filled by that month's last report, and the year's first APR |
| Reports.Classify | backend/app/services/report_service.py:1092-1108 | success on a report, skipped on a ValueError, failed on any other error |
| Reports.RegenerateAll | backend/app/services/report_service.py:1086-1119 | twelve monthly entries in month order, each classified from its month's outcome, then the APR |
| Pdf.CleanMarkdown | backend/app/services/pdf_service.py:468-484 | the five substitutions in source order: bold `**` and `__`, italic `*` and `_`, code spans |
| Pdf.CleanUnchanged | backend/app/services/pdf_service.py:470-484 | text with no `*`, `_` or backquote comes back unchanged |
| Pdf.CleanNonEmpty | backend/app/services/pdf_service.py:470-484 | a non-empty text is never cleaned to nothing |
| Pdf.BoldPair | backend/app/services/pdf_service.py:474 | a closed `**…**` pair becomes a `<b>` element |
| Pdf.ClassifyRules | backend/app/services/pdf_service.py:415-460 | lines are tested in order: `### `, then `## ` or `# `, then `- ` or `* `, then `^\d+\.\s` keeping its number, else body text |
| Pdf.ParseMarkdown | backend/app/services/pdf_service.py:394-466 | "No content available" for empty or missing markdown; otherwise the paragraphs of the lines in order, list items waiting until a blank line, a header, a paragraph or the end flushes them |
| Pdf.OneParaPerLine | backend/app/services/pdf_service.py:404-464 | every non-blank line gives exactly one paragraph and every blank line none |
| Pdf.ParasInLineOrder | backend/app/services/pdf_service.py:404-464 | the paragraphs of earlier lines come first |
| Pdf.Glyph | backend/app/services/pdf_service.py:520-523 | ✓ exactly when the value is at least 95, else ⚠ |
| Pdf.StatusColumn | backend/app/services/pdf_service.py:516-526 | batches always met, yield and QC pass rate by the 95 threshold, no status for complaints and CAPAs |
| Pdf.QcGlyphFromRecords | backend/app/services/pdf_service.py:520-523 | a year whose QC results all passed shows ✓, and a year without QC results ⚠ |
| Pdf.TocMatchesSections | backend/app/services/pdf_service.py:609-640 | the table of contents and the body name the same ten sections in the same order |
| Pdf.CreateToc | backend/app/services/pdf_service.py:367-392 | a heading, a spacer, one entry numbered `i` for the `i`-th section, in order, and a page break |
| Pdf.MainSections | backend/app/services/pdf_service.py:627-645 | sections 1 to 10 in order, each its numbered header, a rule, its markdown content and a spacer, followed by a page break after sections 1, 3, 6 and 8 |
| Pdf.SectionOpensNumbered | backend/app/services/pdf_service.py:486-492 | each section opens with its number and its contents title |
| Pdf.PageBreaksAfterMajorSections | backend/app/services/pdf_service.py:643-645 | a section ends with a page break exactly when it is section 1, 3, 6 or 8 |
| Gemini.Attr | backend/app/services/gemini_service.py:204-213 | `getattr` of an unknown column and of a NULL alike give nothing |
| Gemini.LatestIsMax | backend/app/services/gemini_service.py:190 | no latest date exactly when no batch has a date; otherwise the latest is some batch's date and no batch is later |
| Gemini.Direction | backend/app/services/gemini_service.py:218-231 | stable with no alert under five values; otherwise up or down with an alert beyond ±5 %, and no change when the first half averages 0 |
| Gemini.FlatSeriesIsStable | backend/app/services/gemini_service.py:218-231 | a flat series never alerts, whatever its level, zero included |
| Gemini.RisingHalvesTrendUp | backend/app/services/gemini_service.py:218-231 | a second half averaging more than 5 % above a positive first half trends up, with an alert |
| Gemini.Summary | backend/app/services/gemini_service.py:233-243 | dates and values kept aligned, `count` = number of values, the direction of the values, and min ≤ average ≤ max |
| Gemini.TrendFrom | backend/app/services/gemini_service.py:193-243 | "Not enough data for this period" with fewer than two batches in the window, "Not enough data" with fewer than two values, otherwise the summary of the values |
| Gemini.AnalyzeTrends | backend/app/services/gemini_service.py:184-243 | "Not enough data" without batches, the ValueError of `max()` when no batch has a date, the overflow of the date subtraction below year 1 or past 9999-12-31, else the trend of the window |
| Gemini.TrendPointsInWindow | backend/app/services/gemini_service.py:193-213 | every point of a trend is a batch made between the cutoff and the latest batch, with that batch's value |
| Gemini.ComplaintsOpenClosed | backend/app/services/gemini_service.py:317-322 | open and closed complaints are told apart by exact lowered status, so together they are at most all complaints |
| Gemini.CapasPartition | backend/app/services/gemini_service.py:323-329 | every CAPA with a status is open or closed by the "closed" substring, never both |
| Gemini.PassRate | backend/app/services/gemini_service.py:310-312 | the QC rate lies in [0, 100], is 0 without results or passes, and 100 when all passed |
| Gemini.ColumnAverage | backend/app/services/gemini_service.py:291-308 | the average is 0 without truthy values, and otherwise lies between the rounded smallest and largest of them |
| Gemini.TallyOfKeys | backend/app/services/gemini_service.py:334-344 | the machines with a tally are exactly the machines of the batches |
| Gemini.TallyOfMachine | backend/app/services/gemini_service.py:334-344 | a machine's tally counts its own batches and sums their hardness and yield |
| Gemini.MachineTotals | backend/app/services/gemini_service.py:334-344 | the first loop builds the tally of every machine |
| Gemini.AddAverages | backend/app/services/gemini_service.py:346-349 | every machine keeps its entry and gets the averages sum / count |
| Gemini.ComplaintsByCategory | backend/app/services/gemini_service.py:351-355 | the loop counts every category as often as it occurs |
| Gemini.MachineCountsAddUp | backend/app/services/gemini_service.py:334-349 | the per-machine batch counts add up to the number of batches |
| Gemini.CategoryCountsAddUp | backend/app/services/gemini_service.py:351-355 | the per-category counts add up to the number of complaints |
| Gemini.GetFullStats | backend/app/services/gemini_service.py:246-357 | the statistics of the rows in the date range: QC pass count with `qc_failed` = total − pass, the open/closed counts, and per-machine figures |
| Gemini.MachineFigures | backend/app/services/gemini_service.py:334-349 | each machine's figures are the count, the sums and their averages over its own batches |
| GenerationRouter.ListDataTypes | backend/app/routers/generation.py:88-143 | nine entries, keyed by exactly the tables the generator produces, in order, each once (also generation.py:169-179) |
| GenerationRouter.ValidateTypes | backend/app/routers/generation.py:193-199 | a 400 exactly when some requested type is unknown, listing those types and the valid ones |
| GenerationRouter.MonthRange | backend/app/routers/generation.py:202-207 | the first to the last day of the month, December included |
| GenerationRouter.MonthRangeDays | backend/app/routers/generation.py:202-207 | every day from the start to the end of the range falls in the requested year and month |
| GenerationRouter.MonthRangeOrdered | backend/app/routers/generation.py:202-207 | both ends are valid dates and the end is not before the start |
| GenerationRouter.DayOfMonth | backend/app/routers/generation.py:202-207 | the dates from the first to the last day of a month are exactly that month's dates |
| GenerationRouter.CustomRange | backend/app/routers/generation.py:293-294 | a 400 exactly when the end date is before the start date |
| GenerationRouter.EndOfDayKeepsDays | backend/app/routers/generation.py:306-307 | moving the end to 23:59:59 keeps in the period exactly the days up to the end date |
| GenerationRouter.CustomPrefixReadsBack | backend/app/routers/generation.py:319 | the custom prefix `{start}_to_{end}` reads back as its two dates |
| GenerationRouter.MonthPrefixInjective | backend/app/routers/generation.py:219 | different months give different `{year}_{month:02d}` prefixes |
| GenerationRouter.MonthYearPrefixesDiffer | backend/app/routers/generation.py:219 | a month's prefix is never a year's prefix (also generation.py:268) |
| GenerationRouter.CustomPrefixDiffers | backend/app/routers/generation.py:219 | a custom prefix is never a month's or a year's (also generation.py:268, 319) |
| GenerationRouter.SingleFileNameInjective | backend/app/routers/generation.py:437 | different (year, month, type) requests give different file names |
| GenerationRouter.SingleFileIsArchiveEntry | backend/app/routers/generation.py:437 | a single file is named as its entry in the month's archive |
| GenerationRouter.EstimateClosedForm | backend/app/routers/generation.py:372-383 | the `int()` estimates as integer divisions of natural numbers |
| GenerationRouter.ManufacturingEstimateExact | backend/app/routers/generation.py:362-371 | away from the COVID window a month's manufacturing, QC and release estimate equals the number of batches the generator plans for it (also generation.py:384-385) |
| GenerationRouter.EnvironmentalEstimateExact | backend/app/routers/generation.py:376-377 | the environmental estimate equals the readings the generator plans, eighteen a day |
| GenerationRouter.PreviewTypes | backend/app/routers/generation.py:364 | the requested types, or all nine when none is given |
| GenerationRouter.PreviewCounts | backend/app/routers/generation.py:364-385 | exactly the requested types that have a formula get a count, and each count is that type's formula |
| GenerationRouter.PreviewMonth | backend/app/routers/generation.py:336-394 | the type check's 400, otherwise one file and one estimate per covered type over the days of the month, with its first and last day |
| GenerationRouter.DownloadMonth | backend/app/routers/generation.py:183-233 | the type check, then the month's archive under `{year}_{month:02d}`, a generator error becoming a 500 |
| GenerationRouter.DownloadYear | backend/app/routers/generation.py:236-282 | the type check, then the year's archive under `{year}_full_year` |
| GenerationRouter.DownloadCustom | backend/app/routers/generation.py:285-333 | the date check before the type check, then the archive under `{start}_to_{end}` |
| GenerationRouter.DownloadSingle | backend/app/routers/generation.py:398-449 | an unknown type is a 400 before generation; a generator error or a missing table is a 500; otherwise the type's table under `{year}_{month:02d}_{type}.csv` |
| GenerationRouter.SingleTypeKept | backend/app/routers/generation.py:425-435 | selecting one known type from a successful generation keeps its table, so that 500 never comes from a missing buffer |
| GenerationRouter.ListScenarios | backend/app/routers/generation.py:452-513 | seven distinct scenarios, counted by `total_scenarios`, each with three effects on known data types |
| GenerationRouter.ListedPeriodsAreWindows | backend/app/routers/generation.py:464-510 | every listed period is exactly the months in which the generator applies that scenario's label |
| Upload.SafeFloat | backend/app/routers/data.py:16-23 | a missing cell gives the default, a number gives itself, text gives its decimal value or the default when it does not read |
| Upload.SafeIntTruncates | backend/app/routers/data.py:26-33 | `int(float(v))` keeps the whole part toward zero, and falls back to the default otherwise |
| Upload.SafeStr | backend/app/routers/data.py:36-40 | the default for a missing cell, else the text `str()` prints |
| Upload.SafeStrOfIntReadsBack | backend/app/routers/data.py:26-40 | the text written for an integer cell reads back as the same integer |
| Upload.SafeDate | backend/app/routers/data.py:43-50 | always a valid date: `now` for a missing cell, the date of an ISO `YYYY-MM-DD` text (optionally followed by a time), `now` for any other text |
| Upload.Pick | backend/app/routers/data.py:222-224 | the nested `row.get` chain yields the first column the row has, else the last default (also data.py:312-314) |
| Upload.RecordOfLast | backend/app/routers/data.py:226-297 | each column of a record holds the conversion of the last field of that name |
| Upload.BatchHardness | backend/app/routers/data.py:217-224 | `tablet_hardness_n` is divided by 9.81 when present; otherwise the kilopond columns are used as they are |
| Upload.QcHardness | backend/app/routers/data.py:311-317 | QC hardness above 50 is taken as newtons and divided by 9.81 |
| Upload.NewtonReading | backend/app/routers/data.py:217-224 | a converted reading stays positive and shrinks by the factor, and a kilopond reading is kept (also data.py:316-317) |
| Upload.DissolutionFallback | backend/app/routers/data.py:320-331 | a provided mean is kept; otherwise the fallback lies between the smallest and the largest positive vessel, or stays 0 without one |
| Upload.DissolutionMean | backend/app/routers/data.py:320-331 | the vessel loop collects the positive values of vessels 1 to 6 and averages them |
| Upload.KindOf | backend/app/routers/data.py:210 | the kind of data; batches and QC results exactly for "batch" and "qc" (also data.py:305, 563-566) |
| Upload.KnownTypes | backend/app/routers/data.py:210-566 | exactly the nine known data types are accepted |
| Upload.KeyColumn | backend/app/routers/data.py:212 | the key column and the default-id prefix of each kind, and none for batch releases (also data.py:308, 373, 408, 456, 486, 506, 525) |
| Upload.KeyOf | backend/app/routers/data.py:212 | a row's own key cell, or the prefix followed by the current count (also data.py:308) |
| Upload.RecordHasFields | backend/app/routers/data.py:226-297 | a record holds a column for every field of its table |
| Upload.RecordKey | backend/app/routers/data.py:212-216 | a record's key column holds its row's key (also data.py:226) |
| Upload.RecordWorkedOut | backend/app/routers/data.py:217-224 | batch and QC records hold the converted hardness and the worked-out dissolution mean (also data.py:311-331) |
| Upload.UpsertAllKeys | backend/app/routers/data.py:210-303 | afterwards the keys are the old keys and the rows' keys, and keys no row uses keep their record |
| Upload.UpsertLastWins | backend/app/routers/data.py:210-303 | the record stored under a key is the one the last row with that key made |
| Upload.UpsertRows | backend/app/routers/data.py:210-303 | the upsert loop overwrites or inserts each row's record and counts every row |
| Upload.InsertRows | backend/app/routers/data.py:454-561 | an insert-only kind appends one record per row, in file order, and counts every row (also data.py:305-369 for the QC results) |
| Upload.BatchImportTouchesOnlyBatches | backend/app/routers/data.py:210-303 | importing batches changes the batch table only |
| Upload.UploadData | backend/app/routers/data.py:192-592 | a 400 with nothing written for a non-`.csv` name or an unknown type; otherwise every row is written, an upload record with the row count is stored, and that count is returned |

## Left out

- Manufacturing.GenerateManufacturing: the shift, equipment and operator draws are indexes into their lists. The weights of `random.choices` (shift 0.5/0.35/0.15) are not modelled. Neither are the shapes of the normal and exponential draws: each is an abstract value.
- RawMaterials.GenerateRawMaterials: the CoA status, supplier and test-status draws are indexes into their lists. Their `random.choices` weights (CoA received 0.98/0.02) are not modelled.
- BatchRelease.GenerateBatchRelease: the disposition weights (0.7/0.3 for an OOS batch, 0.8/0.2 for a deviation) are not modelled. The draw picks either outcome, so `Disposition` states only which outcomes are possible.
- Complaints.GenerateComplaints: the severity weights (0.05/0.25/0.70, and 0.4/0.6 for an adverse event) and the reporter-type weights (0.4/0.3/0.2/0.1) of `random.choices` are not modelled; either draw picks any listed value. The Faker sentences and names are abstract strings.
- Capa.GenerateCapa: the source weights (0.35/0.20/0.15/0.10 and four of 0.05), the risk-score weights (0.05/0.15/0.50/0.30) and the status weights (0.9/0.1 for a CAPA opened more than 120 days before `now`, 0.6/0.2/0.2 for one opened 61 to 120 days before) are not modelled; each draw picks any listed value.
- Equipment.GenerateEquipment: the delay weights (0.7/0.1/0.1/0.05/0.03/0.02 over 0, 1, 2, 3, 5 and 10 days) are not modelled; the delay is any of the listed values.
- Qc.Measure: the content-uniformity standard deviation `np.std(cu_values)` needs a square root and is an abstract non-negative draw. The acceptance value is computed from that draw and the mean of the ten rounded values. It is not tied to their actual standard deviation.
- Numeric.Round: floats are exact reals, and `round(x, k)` is round-half-even on the exact value. Python rounds the binary float, so `round(2.675, 2)` is 2.67 in Python and 2.68 here. No other floating-point effect is modelled.
- CSV and ZIP bytes: pandas `to_csv`, number formatting in the CSV text, BytesIO and zip compression are not modelled. An archive is a list of named tables and its entries.
- `datetime.now()` and `datetime.utcnow()`: the current time is a parameter (`now`), with minute precision. Seconds and microseconds are not modelled.
- Reports.Overdue: `pd.to_datetime(target_date, errors="coerce")` is modelled only for ISO `YYYY-MM-DD` text with no time part. Other formats pandas accepts read as missing.
- Reports.ExtractPeriod: as for `Overdue`, only ISO dates parse, and other formats count as unparsable.
- Reports.DetectAnomalies: a `.str.lower()` on a column with no text value, and `df["yield_percent"] < 95` on a text column, raise in pandas. The model instead treats those cells as not matching, so the rule reports nothing rather than raising.
- Pdf.NumberedPrefix: `\d` is ASCII digits only. Python's `re` also matches other Unicode decimal digits.
- Upload.SafeDate: a number is read as nanoseconds since 1970, as pandas does. The time part of a date text is not validated, and time zones are not modelled.
- Upload.SafeDate: only ISO `YYYY-MM-DD` texts, optionally followed by a time, are read as dates. `pd.to_datetime` also reads other layouts, such as "2024/01/15", "01/15/2024", "20240115", "15 Jan 2024" and "2024-1-5"; for those the model gives `now`, where the source stores the date the text names.
- Upload.SafeDate: pandas reads the integer −2^63 as `NaT`, which `safe_date` then returns. The model has no missing-date value and reads that integer as a day in the year 1677 instead.
- Upload.SafeFloat: `ParseDecimal` reads signed decimals with an optional fraction. Exponents, `inf`, `nan` and digit underscores are not modelled, and such text falls back to the default.
- Upload.UploadData: the CSV parsing by `pd.read_csv`, a UTF-8 decode error and the background report task behind `generate_report` are not modelled; the rows come in already read. The database is a map per keyed table and a list per insert-only table. An ORM column the upload does not map is not modelled. A lookup is assumed to see rows added earlier in the same upload (SQLAlchemy autoflush; `db.py` is not part of this model). Unique constraints and a duplicate `sample_id` error are not modelled.
- Upload: the other endpoints of `data.py` (dashboard, the `get_*` listings, uploads, summary statistics) are outside the core and are not modelled.
- Gemini.AnalyzeTrends: `parameter` reaches only the numeric batch columns. A cutoff below year 1 or past 9999-12-31 raises OverflowError in Python, and the model reports both as that error. A `days` beyond ±999999999 makes `timedelta` itself raise OverflowError with another message; the model gives the same error with the date message. Dates compare as days, without the datetime-versus-date distinction.
- Calendar.ValidDate: a date of the model has no upper year bound, while Python's `datetime` stops at 9999-12-31 (`Calendar.PyDate`, `Calendar.LastPyDate`). Only the period computation (`AllData.PeriodRange`) and `Gemini.AnalyzeTrends` return the OverflowError or ValueError Python raises at that bound. The generators below run past it and return their tables, where Python raises. Each generator is affected as follows.
- Manufacturing.GenerateManufacturing: the day step `current_date += timedelta(days=1)` (backend/app/services/data_generation_service.py:352) runs once more after the last day, so Python raises OverflowError for a period that ends on 9999-12-31. The model returns the table.
- Qc.GenerateQc: the test date `mfg_date + timedelta(days=randint(1, 3))` (:378) raises OverflowError when it passes 9999-12-31. The model returns a later date.
- Complaints.GenerateComplaints: the complaint date, 2 to 90 days after manufacture (:542), raises OverflowError in Python once it passes 9999-12-31. The model does not raise.
- Capa.GenerateCapa: the month step `datetime(year + 1, 1, 1)` (:746) raises ValueError after December 9999, and the target and completion offsets (:698-709) raise OverflowError past 9999-12-31. The model does not raise.
- Environmental.GenerateEnvironmental: the day step (:835) raises OverflowError for a period that ends on 9999-12-31. The model does not raise.
- Equipment.GenerateEquipment: the step `current += timedelta(days=freq_days)` (:929) and the actual and next-due offsets (:882-885) raise OverflowError near 9999-12-31. The model does not raise.
- Stability.GenerateStability: the test date `mfg_date + timedelta(days=timepoint * 30)` (:970) raises OverflowError past 9999-12-31. The model does not raise.
- RawMaterials.GenerateRawMaterials: the receipt, expiry and week steps (:1049, :1092, :1102) raise OverflowError near 9999-12-31. The model does not raise.
- BatchRelease.GenerateBatchRelease: the review, QC-complete and release offsets (:1138-1153) raise OverflowError past 9999-12-31. The model does not raise.
- AllData.GenerateAll: because the generators above do not raise at the year-9999 bound, the only failure it states is the KeyError of a period with no batch. Python also raises OverflowError (or ValueError) for a period that reaches 9999-12-31.
- AllData.GenerateCsvForPeriod: for a period that `PeriodRange` accepts but that reaches 9999-12-31, such as 9999-12-01 to 9999-12-31, the model returns the tables where Python raises OverflowError. The same holds for the download endpoints of `GenerationRouter`, which call it.
- AllData.PeriodRangeCases: years are limited to 1..9999, as Python's `datetime` is. Beyond that the ValueError `datetime` raises is returned, with CPython's message `year N is out of range` naming the year it was given (`year 10000 is out of range` for December 9999).
- Qc.GenerateQc: a manufacturing date that `strptime` rejects gives the fixed message "time data does not match format '%Y-%m-%d'". Python quotes the offending text in that message and says "day is out of range for month" for a date such as 2024-02-30. The same holds for the lines below.
- Complaints.GenerateComplaints: its `strptime` failure has the same fixed message, without the offending text.
- Stability.GenerateStability: its `strptime` failure has the same fixed message, without the offending text.
- BatchRelease.GenerateBatchRelease: its `strptime` failures, on the manufacturing date and on the QC test date, have the same fixed message, without the offending text.
- Report generation with Gemini: `generate_file_report`, `extract_file_metrics`, the LLM sections of `generate_monthly_report` and `generate_apr_report`, and the chat and summary functions call the model or only build prompt text. They are not modelled. The monthly report's stored text fields are not modelled either.
- Database ordering: `.first()` and `.all()` are taken in insertion order. SQL ordering, sessions, commits and background tasks are not modelled.
- ReportLab: styles, canvas drawing, the logo, the cover and signature pages, the statistics table layout and the document build are not modelled. Paragraphs and items are plain values.
- `generate_data_async` (`run_in_executor`) and the FastAPI response wrappers (StreamingResponse, headers) are not modelled. A download returns its archive or its error.
- Dictionaries are `map`s, or lists of items where their iteration order is observable.
