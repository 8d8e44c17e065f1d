# andritz-cm-portal — a Dafny model of the report generator, forms, work orders and drawings

andritz-cm-portal is a browser front-end for condition monitoring at paper mills. This project models its core in Dafny and proves properties of that model. The core has four parts:

- **The PDF report generator** (`src/utils/pdfGenerator.js`). It covers the status and risk colour tables, the document id and file name, and the drawing helpers: the labelled info row, the section bar, the status badge, bullet lists, the signature block, and the header and footer. It also covers the four report layouts: the Condition Monitoring Report, the Post-Maintenance Form, the Root Cause Failure Analysis and the Safety Form. The jsPDF document is the class `Canvas.Doc`. It holds the current pen, fill and stroke state and an append-only log of drawing commands. Every drawing method states its effect on that log as a pure `…Commands` function. Lemmas about those functions state:
  - where things land on the page;
  - which colour they take;
  - what is truncated;
  - that the id in the header is the one in the footer and in the file name.
- **The report forms** (`src/pages/FormsTab.js`). A form record is a map from field names to JavaScript values (`FormData.Record`). Field updates, the PPE checkbox toggle and image upload are modelled. So are the required-field validation of each of the four forms and what a submission does: the error toast, or the generated document and the success toast.
- **The work-order board** (`src/pages/WorkOrders.js`). It covers the work-order number, the form's inputs, creating, re-stating and deleting orders, attachments, the status filter with case-insensitive search, and the per-status counts. The board is a class whose list of orders the methods reassign.
- **The drawings tab** (`src/pages/DrawingsTab.js`). It covers the mill → area → subarea → floor tree, the three selection transitions, the drawing-key lookup, the asset colour rule and the tooltip clamp on the one floor map.

Some inputs come from the environment, and the model takes them as parameters:
- `Math.random()` is a `rand` in [0, 1).
- The clock is `now` (milliseconds), `year`, and the formatted `stamp` and `today` strings.
- A file read by `FileReader` is its data URL.
- Whether jsPDF throws is a `throws` flag.
- Text width, line splitting and the table plug-in's end position are the `Canvas.Metrics` functions. Text widths are assumed non-negative, as jsPDF's are; nothing else is assumed about them.

## Model

| member | source | states |
|---|---|---|
| PdfGenerator.OrDash | src/utils/pdfGenerator.js:35 | `value \|\| '—'`: never empty; an entered value is kept and a missing one becomes the em dash |
| PdfGenerator.StatusColor | src/utils/pdfGenerator.js:77-83 | `getStatusColor` yields only green, orange, red or dark blue |
| PdfGenerator.StatusColorClasses | src/utils/pdfGenerator.js:77-83 | each colour in both directions: green iff the lower-cased status is good/normal, orange iff caution/warning, red iff alert/critical, dark blue iff none of the six (the missing status included) |
| PdfGenerator.RiskColor | src/utils/pdfGenerator.js:85-91 | `getRiskColor` yields only green, orange, red or dark grey |
| PdfGenerator.RiskColorClasses | src/utils/pdfGenerator.js:85-91 | green iff low, orange iff medium, red iff high/critical, dark grey iff anything else, compared after lower-casing |
| PdfGenerator.ColorsIgnoreCase | src/utils/pdfGenerator.js:78 | both colour maps give the same colour for a word, its upper-case and its lower-case form |
| PdfGenerator.FormStatusColors | src/utils/pdfGenerator.js:77-91 | the form's own status values: "acceptable" is dark blue, "caution" orange, "alert" red; a missing status is dark blue and a missing risk dark grey |
| PdfGenerator.Serial | src/utils/pdfGenerator.js:165 | `Math.floor(Math.random() * 999)` is at most 998 |
| PdfGenerator.Serial3Digits | src/utils/pdfGenerator.js:165 | `String(n).padStart(3,'0')` of a serial is exactly three decimal digits |
| PdfGenerator.Serial3Value | src/utils/pdfGenerator.js:165 | the three padded digits read back as the serial: padding loses nothing |
| PdfGenerator.DocIdFormat | src/utils/pdfGenerator.js:165 | the report id is PREFIX-NNN-YEAR: the kind's prefix, a dash, three digits reading back as the serial, a dash, the year's digits; nine characters after the prefix for four-digit years (the PMF, RCFA and SF ids at lines 365, 460 and 534 are built the same way) |
| PdfGenerator.Dot | src/utils/pdfGenerator.js:17-22 | appends one filled circle of radius 1.5 at (x, y) and leaves that fill colour current |
| PdfGenerator.BoldLabel | src/utils/pdfGenerator.js:24-29 | appends the text in bold 9-point type of the given colour and leaves that pen current |
| PdfGenerator.NormalText | src/utils/pdfGenerator.js:31-36 | appends the text, or the dash when it is empty, in normal type of the given size and colour; the drawn text is never empty |
| PdfGenerator.ValueX | src/utils/pdfGenerator.js:41-45 | the value of a field row starts at least 5 right of the row's x, after the measured "label: " |
| PdfGenerator.InfoRowCommands | src/utils/pdfGenerator.js:38-46 | a field row is a dot, the label and the value on the same baseline, value right of label, value never empty and equal to the entered value when there is one |
| PdfGenerator.InfoRow | src/utils/pdfGenerator.js:38-46 | `infoRow` appends exactly `InfoRowCommands` and leaves a red fill and the value's normal 9-point pen |
| PdfGenerator.RowPairCommands | src/utils/pdfGenerator.js:376-377 | two field rows side by side (x 16 and 110): the contract states only that they are six commands, the count the report layouts slice by |
| PdfGenerator.RowPair | src/utils/pdfGenerator.js:376-377 | appends `RowPairCommands` and leaves the value pen current |
| PdfGenerator.SectionBar | src/utils/pdfGenerator.js:48-58 | `sectionBar` appends the 3x7 accent bar and its label and returns y + 11, which lies below the bar |
| PdfGenerator.RoundedBox | src/utils/pdfGenerator.js:60-64 | appends one filled, mid-grey outlined box of corner radius 2 and leaves those colours current |
| PdfGenerator.BadgeWidth | src/utils/pdfGenerator.js:67 | a badge is at least 6 wide |
| PdfGenerator.StatusBadge | src/utils/pdfGenerator.js:66-75 | `statusBadge` appends the pill (width measured in the pen current before it) and the upper-cased text in white bold 8-point, and returns an x strictly right of the pill |
| PdfGenerator.SignatureCommands | src/utils/pdfGenerator.js:443-448 | a signature line is a dot, a bold caption and the value starting exactly after the caption's bold width |
| PdfGenerator.Signature | src/utils/pdfGenerator.js:337-353 | appends `SignatureCommands` and leaves the blue bold pen current |
| PdfGenerator.SignatureBlockCommands | src/utils/pdfGenerator.js:440-448 | the closing block is a rule at y and two signature lines 6 below it: seven commands |
| PdfGenerator.SignatureBlock | src/utils/pdfGenerator.js:514-522 | appends `SignatureBlockCommands` |
| PdfGenerator.Take | src/utils/pdfGenerator.js:417 | `slice(0, k)`: a prefix of the lines, of length min(k, n) |
| PdfGenerator.BulletsAt | src/utils/pdfGenerator.js:417 | a bulleted paragraph has two commands per line; line i is its red dot and its text, both 6i below the first baseline |
| PdfGenerator.BulletsBand | src/utils/pdfGenerator.js:425 | every command of a bulleted paragraph lies between its first and last baselines |
| PdfGenerator.ClippedFits | src/utils/pdfGenerator.js:593-594 | a paragraph clipped to its budget stays inside its box whenever 8 + 6(budget - 1) is below the box height |
| PdfGenerator.DrawBullets | src/utils/pdfGenerator.js:594 | the `forEach` loop appends exactly `Bullets(lines, ...)`, one row per iteration, and leaves the text pen unchanged |
| PdfGenerator.SectionLines | src/utils/pdfGenerator.js:416-417 | a section draws at most its budget of wrapped lines |
| PdfGenerator.BulletSectionFits | src/utils/pdfGenerator.js:590-601 | in a titled section the white box follows the bar and every bullet lies inside the box |
| PdfGenerator.BulletSection | src/utils/pdfGenerator.js:421-425 | a titled section appends bar, box and clipped bullets, in the pen the paragraph was wrapped in |
| PdfGenerator.IdInFooterAndFileName | src/utils/pdfGenerator.js:156 | the footer line contains the report id, and the saved file name starts with it |
| PdfGenerator.HeaderCommands | src/utils/pdfGenerator.js:95-145 | the header is ten commands and ends with the id, right-aligned at the top right |
| PdfGenerator.FooterCommands | src/utils/pdfGenerator.js:149-158 | the footer is three commands, the second the id line |
| PdfGenerator.PageFramed | src/utils/pdfGenerator.js:162-171 | every document starts with the white background, carries the id in the header (index 10), in the footer and in the file name, saves last, and holds the body unchanged in between (footer and save at lines 355-356) |
| PdfGenerator.HeaderBand | src/utils/pdfGenerator.js:98-106 | appends the first three header commands |
| PdfGenerator.HeaderBrand | src/utils/pdfGenerator.js:108-123 | appends the logo text, the red rule and the upper-cased mill name wrapped to 34 |
| PdfGenerator.HeaderTitle | src/utils/pdfGenerator.js:125-144 | appends the divider, title, subtitle and id |
| PdfGenerator.AddHeader | src/utils/pdfGenerator.js:95-145 | `addHeader` appends exactly `HeaderCommands` |
| PdfGenerator.AddFooter | src/utils/pdfGenerator.js:149-158 | `addFooter` appends exactly `FooterCommands` with the generation stamp |
| PdfGenerator.BeginPage | src/utils/pdfGenerator.js:167-171 | a new document holds the background followed by the header |
| PdfGenerator.EndPage | src/utils/pdfGenerator.js:355-356 | after the footer and save the log is the whole framed page |
| FormData.OrElse | src/utils/pdfGenerator.js:194 | `data.k \|\| fallback`: a truthy field is shown as itself (never empty), a falsy one as the fallback |
| ConditionMonitorReport.StatusText | src/utils/pdfGenerator.js:203 | the badge status is never empty and is "Caution" when the field is missing or empty |
| ConditionMonitorReport.RiskText | src/utils/pdfGenerator.js:215 | the risk badge reads "Medium Risk" when no risk was entered |
| ConditionMonitorReport.AssetText | src/utils/pdfGenerator.js:198 | the asset cell is the name (or the dash), followed by "  —  id" exactly when an asset id was entered |
| ConditionMonitorReport.TemperatureText | src/utils/pdfGenerator.js:209 | the temperature with " °F" when entered, otherwise the dash |
| ConditionMonitorReport.VibrationText | src/utils/pdfGenerator.js:221 | the vibration-level cell is never empty |
| ConditionMonitorReport.VibrationPrecedence | src/utils/pdfGenerator.js:221 | `data.geLevel \|\| data.vibrationLevel \|\| '—'` (FormData.FirstOf): the overall level wins over `vibrationLevel`, whatever that holds; the dash only when neither is entered |
| ConditionMonitorReport.MissingBadgeDefaults | src/utils/pdfGenerator.js:203-215 | with neither status nor risk entered the badges read CAUTION in orange and MEDIUM RISK in dark grey, although "Medium" alone would map to orange: the risk colour comes from the raw field |
| ConditionMonitorReport.GeneralFrameCommands | src/utils/pdfGenerator.js:177-188 | the general section's tab, caption and box: the contract states only the count, three commands |
| ConditionMonitorReport.StatusRowCommands | src/utils/pdfGenerator.js:202-204 | the status row and its badge: the contract states only the count, five commands; StatusBadgeShown states what the badge shows |
| ConditionMonitorReport.GeneralLeftCommands | src/utils/pdfGenerator.js:175-204 | frame, location, asset and status rows: the contract states only the count, fourteen commands |
| ConditionMonitorReport.GeneralMiddleCommands | src/utils/pdfGenerator.js:206-215 | diagnosis, temperature and risk rows with the risk badge: the contract states only the count, eleven commands; RiskBadgeShown states the badge |
| ConditionMonitorReport.GeneralRightCommands | src/utils/pdfGenerator.js:217-221 | the CMR id row and the vibration-level row: the contract states only the count, six commands; IdRowShown states the id |
| ConditionMonitorReport.DescriptionLines | src/utils/pdfGenerator.js:307-308 | the observations are clipped to at most five wrapped lines |
| ConditionMonitorReport.ImagePanelCommands | src/utils/pdfGenerator.js:284-295 | the photo placeholder: the contract states only the count, four commands |
| ConditionMonitorReport.DescriptionPanelCommands | src/utils/pdfGenerator.js:297-308 | the description panel: the contract states only the count, four commands; DescriptionClipped states its lines |
| ConditionMonitorReport.DiagnosisFrameCommands | src/utils/pdfGenerator.js:226-235 | the diagnosis tab, caption and box: the contract states only the count, three commands |
| ConditionMonitorReport.ChartsCommands | src/utils/pdfGenerator.js:226-268 | the diagnosis frame and both chart panels' boxes and captions: the contract states only the count, nine commands |
| ConditionMonitorReport.PhotoRowCommands | src/utils/pdfGenerator.js:282-308 | the photo and description panels side by side: the contract states only the count, eight commands |
| ConditionMonitorReport.SignatureRowsCommands | src/utils/pdfGenerator.js:332-353 | rule plus "Emitted by" and "Note Date" signatures: the contract states only the count, seven commands |
| ConditionMonitorReport.SectionsStack | src/utils/pdfGenerator.js:173-335 | the cursor arithmetic (42, +74, +136, +6) stacks the general box, the diagnosis box and the signature rule without overlap, and the signature line stays above the footer rule |
| ConditionMonitorReport.StatusBadgeShown | src/utils/pdfGenerator.js:202-204 | the status badge is filled with `getStatusColor` of the shown status and shows it upper-cased, 3 right of the pill's left edge |
| ConditionMonitorReport.RiskBadgeShown | src/utils/pdfGenerator.js:213-215 | the risk badge is filled with `getRiskColor(data.risk)` and shows the upper-cased risk text |
| ConditionMonitorReport.IdRowShown | src/utils/pdfGenerator.js:218 | the "CMR:" row shows the report id |
| ConditionMonitorReport.RecommendationOverflows | src/utils/pdfGenerator.js:318-330 | the recommendation is not clipped: with six or more wrapped lines the fifth is drawn below the diagnosis box and the sixth below the signature rule |
| ConditionMonitorReport.DescriptionClipped | src/utils/pdfGenerator.js:307-308 | the description draws a prefix of at most five of the wrapped observation lines |
| ConditionMonitorReport.SideTab | src/utils/pdfGenerator.js:177-185 | appends the grey tab and its caption turned 90 degrees |
| ConditionMonitorReport.GeneralFrame | src/utils/pdfGenerator.js:177-188 | appends `GeneralFrameCommands` |
| ConditionMonitorReport.StatusRow | src/utils/pdfGenerator.js:202-204 | appends `StatusRowCommands` |
| ConditionMonitorReport.GeneralLeft | src/utils/pdfGenerator.js:175-204 | appends `GeneralLeftCommands` |
| ConditionMonitorReport.GeneralMiddle | src/utils/pdfGenerator.js:206-215 | appends `GeneralMiddleCommands` |
| ConditionMonitorReport.GeneralRight | src/utils/pdfGenerator.js:217-221 | appends `GeneralRightCommands` |
| ConditionMonitorReport.GeneralSection | src/utils/pdfGenerator.js:175-223 | appends the whole general section and moves the cursor by 74 |
| ConditionMonitorReport.Panel | src/utils/pdfGenerator.js:241-249 | appends a chart panel's box and caption |
| ConditionMonitorReport.Charts | src/utils/pdfGenerator.js:225-268 | appends `ChartsCommands` |
| ConditionMonitorReport.ImagePanel | src/utils/pdfGenerator.js:284-295 | appends `ImagePanelCommands` |
| ConditionMonitorReport.DescriptionPanel | src/utils/pdfGenerator.js:297-308 | appends `DescriptionPanelCommands` |
| ConditionMonitorReport.Recommendation | src/utils/pdfGenerator.js:312-328 | appends the heading and one bullet per wrapped recommendation line (the `forEach` loop) |
| ConditionMonitorReport.PhotoRow | src/utils/pdfGenerator.js:282-310 | appends `PhotoRowCommands` |
| ConditionMonitorReport.DiagnosisSection | src/utils/pdfGenerator.js:225-330 | appends the whole diagnosis section and moves the cursor by 136 |
| ConditionMonitorReport.DrawBody | src/utils/pdfGenerator.js:173-353 | appends `Body`, the cursor passing 42, 116 and 252 |
| ConditionMonitorReport.Generate | src/utils/pdfGenerator.js:162-358 | returns the CMR id and a fresh document whose log is the framed page around `Body` |
| PostMaintenanceReport.ReadingsRows | src/utils/pdfGenerator.js:392-396 | the readings table has a Before and an After row of three cells each, and no reading cell is ever empty |
| PostMaintenanceReport.NoReadingsShowDashes | src/utils/pdfGenerator.js:393-396 | with no readings entered all four reading cells show the dash |
| PostMaintenanceReport.EnteredReadingsShown | src/utils/pdfGenerator.js:393-396 | each entered reading appears unchanged in its own row and column |
| PostMaintenanceReport.NotesLines | src/utils/pdfGenerator.js:435-436 | the notes are clipped to at most four wrapped lines |
| PostMaintenanceReport.SignatureRowsCommands | src/utils/pdfGenerator.js:440-448 | rule plus "Completed by" and "Date" signatures: the contract states only the count, seven commands; SignatureFollowsTable states where they sit |
| PostMaintenanceReport.LowerSectionsFit | src/utils/pdfGenerator.js:409-437 | below the table each paragraph stays inside its box (maintenance between y+10 and y+42, parts between y+58 and y+78) and the notes start above the closing rule |
| PostMaintenanceReport.PartsInBarPen | src/utils/pdfGenerator.js:421-425 | the parts list is drawn in the bold dark-blue pen the section bar leaves behind; line i sits 6i below the first |
| PostMaintenanceReport.SignatureFollowsTable | src/utils/pdfGenerator.js:407-448 | everything after the table moves with its bottom edge: the closing rule is 128 and the signature line 134 below `lastAutoTable.finalY` |
| PostMaintenanceReport.AssetRows | src/utils/pdfGenerator.js:382-384 | appends the asset-name and area rows |
| PostMaintenanceReport.Info | src/utils/pdfGenerator.js:374-384 | appends the info box and its six field rows |
| PostMaintenanceReport.Readings | src/utils/pdfGenerator.js:388-407 | appends bar, box and table, and returns the cursor 8 below the table's end |
| PostMaintenanceReport.Notes | src/utils/pdfGenerator.js:429-436 | appends the notes section, clipped to four unbulleted lines |
| PostMaintenanceReport.Lower | src/utils/pdfGenerator.js:409-448 | appends the three sections and the signatures at y, y+48, y+84, y+120 |
| PostMaintenanceReport.DrawBody | src/utils/pdfGenerator.js:371-448 | appends `Body` |
| PostMaintenanceReport.Generate | src/utils/pdfGenerator.js:362-453 | returns the PMF id and a fresh document whose log is the framed page around `Body` |
| RcfaReport.WhyLabels | src/utils/pdfGenerator.js:493 | the rows are labelled "WHY 1" to "WHY 5", all different |
| RcfaReport.FirstLine | src/utils/pdfGenerator.js:497-498 | `wLines[0] \|\| '—'`: never empty; the first wrapped line when there is a non-empty one, otherwise the dash |
| RcfaReport.WhysLength | src/utils/pdfGenerator.js:486-500 | the five-whys table draws exactly four commands per answer |
| RcfaReport.WhysAt | src/utils/pdfGenerator.js:486-500 | the `forEach` draws four commands per answer, answer i being exactly its own row |
| RcfaReport.WhyRowLayout | src/utils/pdfGenerator.js:487-499 | each row's box ends 2 above the next row's top; the centred label and the non-empty answer sit on a baseline inside the box; the rows' boxes alternate light grey (even index: WHY 1, 3, 5) and white, each with a blue tab and a white label |
| RcfaReport.InfoCommands | src/utils/pdfGenerator.js:468-479 | the event box and its seven field rows: the contract states only the count, twenty-two commands, which places the five whys at 24 onwards (WhysInBody) |
| RcfaReport.ActionLines | src/utils/pdfGenerator.js:510-511 | the corrective actions are clipped to at most five wrapped lines |
| RcfaReport.SignatureRowsCommands | src/utils/pdfGenerator.js:514-522 | rule plus "Analyst" and "Date" signatures: the contract states only the count, seven commands; ClosingFits states where they sit |
| RcfaReport.WhysInBody | src/utils/pdfGenerator.js:482-500 | in the body, row i (commands 24+4i to 27+4i, right after the info box and the section bar) shows the answer `data.why{i+1} \|\| '—'` (RcfaReport.WhyAnswers) |
| RcfaReport.ClosingFits | src/utils/pdfGenerator.js:499-516 | the last answer row ends above the root-cause bar, the root-cause box above the actions box, and the clipped actions stay inside their box above the closing rule |
| RcfaReport.ActionsInRed | src/utils/pdfGenerator.js:506-511 | the corrective actions are drawn in the normal red pen the root-cause row leaves current, line i 6i below the first |
| RcfaReport.WhyRowDraw | src/utils/pdfGenerator.js:487-499 | appends one answer row |
| RcfaReport.DrawWhys | src/utils/pdfGenerator.js:485-500 | the loop appends exactly `Whys` and advances the cursor 18 per answer |
| RcfaReport.Info | src/utils/pdfGenerator.js:468-479 | appends `InfoCommands` |
| RcfaReport.WhysSection | src/utils/pdfGenerator.js:482-500 | appends the bar and the five rows; the cursor ends at 194 |
| RcfaReport.RootCause | src/utils/pdfGenerator.js:503-507 | appends the root-cause bar, box and red row, leaving the red pen current |
| RcfaReport.Actions | src/utils/pdfGenerator.js:509-511 | appends the white box and the bulleted actions |
| RcfaReport.Closing | src/utils/pdfGenerator.js:502-522 | appends root cause, actions and signatures |
| RcfaReport.DrawBody | src/utils/pdfGenerator.js:466-522 | appends `Body` |
| RcfaReport.Generate | src/utils/pdfGenerator.js:457-527 | returns the RCFA id and a fresh document whose log is the framed page around `Body` |
| SafetyReport.CheckedCount | src/utils/pdfGenerator.js:574 | at most as many items are checked as there are items |
| SafetyReport.PpeItemMarks | src/utils/pdfGenerator.js:574-586 | an item draws a tick iff it is checked, its box is green iff it is checked, and its caption comes last in the pen that shows the state |
| SafetyReport.PpeGridLength | src/utils/pdfGenerator.js:569-587 | the checklist loop draws two commands per item plus one tick per checked item |
| SafetyReport.PpeLabelDrawn | src/utils/pdfGenerator.js:569-587 | every item's caption is drawn, at its own cell, in bold green when checked and normal grey otherwise |
| SafetyReport.PpeCells | src/utils/pdfGenerator.js:568-573 | the eight cells (`i % 4` columns 47 apart, `floor(i / 4)` rows 14 apart) are pairwise distinct and lie inside the checklist box |
| SafetyReport.TicksCountChecked | src/utils/pdfGenerator.js:553-587 | the checklist section is bar, box, two commands per item and one tick per checked item |
| SafetyReport.ParagraphsFit | src/utils/pdfGenerator.js:590-602 | the hazards and control-measures paragraphs stay inside their boxes, which end before the next bar |
| SafetyReport.DrawPpeItem | src/utils/pdfGenerator.js:570-586 | appends one checklist item |
| SafetyReport.DrawPpeGrid | src/utils/pdfGenerator.js:569-587 | the `forEach` appends exactly `PpeGrid` |
| SafetyReport.Info | src/utils/pdfGenerator.js:542-550 | appends the job box and its five field rows |
| SafetyReport.Ppe | src/utils/pdfGenerator.js:553-587 | appends the checklist bar, box and grid |
| SafetyReport.SignOffCaptions | src/utils/pdfGenerator.js:610-611 | appends the two dotted signature captions |
| SafetyReport.SignOffNames | src/utils/pdfGenerator.js:612-614 | appends the employee and supervisor names, blank when missing |
| SafetyReport.SignOff | src/utils/pdfGenerator.js:605-615 | appends the sign-off bar, rules, captions and names |
| SafetyReport.DateLine | src/utils/pdfGenerator.js:617-623 | appends the rule and the dated signature line |
| SafetyReport.Lower | src/utils/pdfGenerator.js:590-623 | appends hazards, controls, sign-off and date |
| SafetyReport.DrawBody | src/utils/pdfGenerator.js:540-623 | appends `Body` |
| SafetyReport.Generate | src/utils/pdfGenerator.js:531-628 | returns the SF id and a fresh document whose log is the framed page around `Body` |
| FormsTab.FilledIffTrimmed | src/pages/FormsTab.js:225 | a field passes a required check iff it holds text whose `trim()` is non-empty |
| FormsTab.FirstMissingNone | src/pages/FormsTab.js:225-229 | the chain of early returns lets the form through iff every required field is filled |
| FormsTab.FirstMissingAt | src/pages/FormsTab.js:225-229 | when field i is the first unfilled one, its message is the one shown, whatever the later fields hold |
| FormsTab.FirstMissingWitness | src/pages/FormsTab.js:225-229 | any message shown belongs to the first unfilled required field |
| FormsTab.ValidatedFieldsShown | src/pages/FormsTab.js:230-232 | once the checks pass, every required field is non-empty text and its `data.k \|\| placeholder` value is the entry itself, whatever the placeholder |
| FormsTab.FreshConditionReportRejected | src/pages/FormsTab.js:194-225 | the condition form submitted untouched shows "Technician Name is required" |
| FormsTab.FreshMaintenanceReportRejected | src/pages/FormsTab.js:369-389 | the maintenance form submitted untouched shows "Technician Name is required" |
| FormsTab.FreshRcfaRejected | src/pages/FormsTab.js:472-488 | the RCFA form submitted untouched shows "Analyst Name is required" |
| FormsTab.FreshSafetyFormRejected | src/pages/FormsTab.js:572-588 | the safety form submitted untouched shows "Employee Name is required" |
| FormsTab.FreshConditionReportIsRed | src/pages/FormsTab.js:204-216 | the condition form starts at status "alert" and risk "high": the select shows the Alert option and both report badges would be red |
| FormsTab.AlertAndHighAreRed | src/pages/FormsTab.js:214-216 | any record with status "alert" and risk "high" selects the Alert option and gets red status and risk badges |
| FormsTab.FreshSafetyFormUnticked | src/pages/FormsTab.js:572-581 | a fresh safety form has no PPE item checked |
| FormsTab.FindStatus | src/pages/FormsTab.js:60 | `find`: nothing iff no option has the value; otherwise the first option with that value |
| FormsTab.StatusLookup | src/pages/FormsTab.js:60 | the status select shows the option with the stored value, and the Alert option for any other value; it always shows one of the three |
| FormsTab.ImageAcceptance | src/pages/FormsTab.js:100-113 | a file is read in iff it is present, its type starts with "image/" and it is at most 6 MiB; no file is ignored; a wrong or missing type is rejected with the type message before the size is looked at |
| FormsTab.WithText | src/pages/FormsTab.js:219 | `f(k)` stores the input's text under k and leaves every other field as it was |
| FormsTab.WithImage | src/pages/FormsTab.js:220 | `fImg(k)` stores the data URL (or null) under k and leaves every other field as it was |
| FormsTab.Toggled | src/pages/FormsTab.js:584 | `toggle(k)` negates the truthiness of field k and leaves every other field as it was |
| FormsTab.ToggleTwice | src/pages/FormsTab.js:584 | toggling twice restores the box's truthiness, and the record itself when the key held a flag |
| FormsTab.ToggleFlipsTick | src/pages/FormsTab.js:637-638 | clicking a PPE item flips whether the report ticks that item and no other |
| FormsTab.Kept | src/pages/FormsTab.js:32 | `filter(Boolean)` keeps no more parts than given, and no kept part is empty |
| FormsTab.KeptOne | src/pages/FormsTab.js:32 | a single part is kept, as its text, exactly when it is truthy: `null`, `false` and "" are dropped |
| FormsTab.KeptAppend | src/pages/FormsTab.js:32 | filtering a concatenation is filtering each part in turn, so (with KeptOne) exactly the truthy parts are kept, in order |
| FormsTab.CxEmpty | src/pages/FormsTab.js:32 | nothing is kept iff no part is truthy, and then `cx` gives "" |
| FormsTab.CxSplits | src/pages/FormsTab.js:32 | splitting `cx`'s result on spaces gives back exactly the kept class names when none holds a space |
| FormsTab.DropZoneClasses | src/pages/FormsTab.js:123 | the drop zone has class "ft-drop", plus "ft-dropActive" exactly when an image is present |
| FormsTab.ReportForm.constructor | src/pages/FormsTab.js:194-212 | a form opens on its kind's initial record |
| FormsTab.ReportForm.SetText | src/pages/FormsTab.js:219 | the record becomes `WithText` of the old record |
| FormsTab.ReportForm.SetImage | src/pages/FormsTab.js:220 | the record becomes `WithImage` of the old record |
| FormsTab.ReportForm.Toggle | src/pages/FormsTab.js:584 | the record becomes `Toggled` of the old record |
| FormsTab.ReportForm.AttachImage | src/pages/FormsTab.js:100-113 | returns the file's verdict; the record changes, to hold the data URL, only when the file is accepted |
| FormsTab.ReportForm.Submit | src/pages/FormsTab.js:222-239 | a missing field shows its message, closes nothing and generates nothing; a generator failure shows "PDF generation failed" and keeps the form open; otherwise the success toast names the id of the page generated from the form's record, and the form closes |
| FormsTab.GenerateReport | src/pages/FormsTab.js:232 | dispatches to the generator of the form's kind: the id and the finished page are that kind's |
| WorkOrders.WONumberShape | src/pages/WorkOrders.js:21-23 | a work-order number is "WO-", the base-36 clock reading, a dash and a three-character serial: seven characters more than the reading |
| WorkOrders.WONumberUpperCase | src/pages/WorkOrders.js:22 | the clock reading appears upper-cased: no lower-case letter in the middle |
| WorkOrders.WONumberDigits | src/pages/WorkOrders.js:22 | the last three characters are decimal digits |
| WorkOrders.WONumberClock | src/pages/WorkOrders.js:22 | the clock reading can be read back: the middle, lower-cased and parsed in base 36, is `Date.now()` |
| WorkOrders.WONumberSerial | src/pages/WorkOrders.js:22 | the last three characters parse to `floor(random * 999)`, at most 998 |
| WorkOrders.BlankDraft | src/pages/WorkOrders.js:33-42 | the blank form is incomplete, of medium priority, open, with no attachments |
| WorkOrders.CreatedKeepsForm | src/pages/WorkOrders.js:50 | `{ ...form, id, createdAt }` keeps the whole form: the new order's form fields are the submitted form, its id the clock reading and its creation time the given instant |
| WorkOrders.WithField | src/pages/WorkOrders.js:232-257 | an input's `onChange` sets its one field to the typed value; the number, the attachments and every other field are unchanged |
| WorkOrders.FilledDraftComplete | src/pages/WorkOrders.js:33-46 | typing non-empty "Opened By", "Asset Name" and "Reason" into a blank form makes it pass the required-field check |
| WorkOrders.AttachInBatches | src/pages/WorkOrders.js:68-71 | picking files in two batches lists the same attachments, in the same order, as picking them at once |
| WorkOrders.WithStatus | src/pages/WorkOrders.js:57-58 | same length; exactly the orders with the id get the new status, every other order is unchanged |
| WorkOrders.WithStatusIdempotent | src/pages/WorkOrders.js:58 | re-statusing keeps every id, and repeating it changes nothing |
| WorkOrders.Without | src/pages/WorkOrders.js:62-63 | an order survives deletion iff it was there and has another id; the list never grows |
| WorkOrders.WithoutKeepsOrder | src/pages/WorkOrders.js:63 | deletion keeps the remaining orders in their order |
| WorkOrders.WithoutRemovesExactly | src/pages/WorkOrders.js:63 | deletion removes exactly as many orders as carry the id, and deleting again changes nothing |
| WorkOrders.DeleteForgetsUpdate | src/pages/WorkOrders.js:57-63 | re-statusing an order and then deleting it gives the same list as deleting it straight away |
| WorkOrders.Filtered | src/pages/WorkOrders.js:73-77 | an order is shown iff it matches the status filter and the case-insensitive search on number, asset or opener; never more than stored |
| WorkOrders.FilteredKeepsOrder | src/pages/WorkOrders.js:73 | the table shows orders in their stored order |
| WorkOrders.ShowAll | src/pages/WorkOrders.js:74-75 | with filter "all" and an empty search every order is shown, in order |
| WorkOrders.SearchIgnoresCase | src/pages/WorkOrders.js:75 | typing the search in capitals shows the same orders |
| WorkOrders.Counts | src/pages/WorkOrders.js:79 | the overview has an entry for exactly the four statuses |
| WorkOrders.CountIn | src/pages/WorkOrders.js:79 | orders with one of the given statuses are at most all orders, and all of them when every status is among those |
| WorkOrders.SumCountsDistinct | src/pages/WorkOrders.js:79 | for distinct statuses, adding up the per-status counts counts each matching order once |
| WorkOrders.CountsAddUp | src/pages/WorkOrders.js:79 | the four counts add up to at most the number of orders, and to exactly that when every order has one of the four statuses |
| WorkOrders.Board.constructor | src/pages/WorkOrders.js:26-42 | the page opens with the stored orders and a blank form |
| WorkOrders.Board.Submit | src/pages/WorkOrders.js:44-55 | an incomplete form changes nothing; otherwise the new order is put first, the earlier orders follow unchanged, and the form is reset with a fresh number |
| WorkOrders.Board.UpdateStatus | src/pages/WorkOrders.js:57-60 | the orders become `WithStatus` of the old orders |
| WorkOrders.Board.Delete | src/pages/WorkOrders.js:62-66 | the orders become `Without` of the old orders |
| WorkOrders.Board.Edit | src/pages/WorkOrders.js:232-257 | the form becomes `WithField` of the old form; the orders are not touched |
| WorkOrders.Board.AttachFiles | src/pages/WorkOrders.js:68-71 | the picked files, as `{ name, size, type }` records (WorkOrders.Listed), are appended after the form's existing attachments, and nothing else in the form changes |
| WorkOrders.CreatedIsShown | src/pages/WorkOrders.js:50-79 | a new order is counted under its status and shown first under its own status filter |
| Text.LowerForgetsCase | src/pages/WorkOrders.js:75 | after `toLowerCase` earlier case changes no longer matter |
| Text.TrimEmptyIffBlank | src/pages/FormsTab.js:225 | `trim()` gives "" iff the string is only white space |
| Text.BlankIffTrimEmpty | src/pages/FormsTab.js:225 | the blank strings are exactly those `trim()` empties |
| Text.Includes | src/pages/WorkOrders.js:75 | `includes` holds iff the needle occurs at some position |
| Text.ToRadix | src/pages/WorkOrders.js:22 | `toString(radix)` gives a non-empty numeral of digits of the alphabet |
| Text.FromRadixToRadix | src/pages/WorkOrders.js:22 | reading back a numeral gives the number written |
| Text.Base36CaseRoundTrip | src/pages/WorkOrders.js:22 | upper-casing a base-36 numeral loses nothing: lower-casing it gives it back |
| Text.DecimalLength | src/pages/WorkOrders.js:22 | numbers below 1000 have at most three decimal digits, years 1000-9999 exactly four |
| Text.PadStart | src/pages/WorkOrders.js:22 | `padStart` fills on the left with the pad character up to the width, keeping the string as its suffix |
| Text.Split | src/pages/FormsTab.js:32 | splitting always gives at least one part |
| Text.SplitJoin | src/pages/FormsTab.js:32 | splitting a `join` on its separator recovers the parts when none contains it |
| DrawingsTab.AfterArea | src/pages/DrawingsTab.js:245 | an area click closes the area exactly when it was the open one and opens it otherwise; subarea and floor are cleared |
| DrawingsTab.AfterSubarea | src/pages/DrawingsTab.js:261 | a subarea click keeps the area, closes the subarea exactly when it was the open one and opens it otherwise; the floor is cleared |
| DrawingsTab.AfterFloor | src/pages/DrawingsTab.js:275 | a floor click sets area, subarea and floor together, so the selection stays nested |
| DrawingsTab.ItemsOf | src/pages/DrawingsTab.js:242-274 | `tree[area]`, `subareas[sub]`: a name the level does not list has nothing under it; a listed one gives the items of an entry of that name |
| DrawingsTab.LookupListed | src/pages/DrawingsTab.js:242-274 | in a level whose names are distinct, looking up an entry's name gives exactly that entry's items, so each button opens its own list |
| DrawingsTab.ClicksStayInTree | src/pages/DrawingsTab.js:242-290 | since buttons are only drawn for names under the open levels, each of the three clicks keeps every chosen name one the tree lists at its place |
| DrawingsTab.ViewOf | src/pages/DrawingsTab.js:299 | the placeholder is shown exactly when no floor is selected |
| DrawingsTab.KeyParts | src/pages/DrawingsTab.js:220 | two drawing keys of one mill are equal only when their area, subarea and floor parts are, for area and subarea names without a dash |
| DrawingsTab.DrawingOnlyForPulp3FifthFloor | src/pages/DrawingsTab.js:212-221 | for Clearwater Augusta the drawing is found exactly when Pulp › Pulp 3 › 5th Floor is selected |
| DrawingsTab.OtherMillsHaveNoDrawing | src/pages/DrawingsTab.js:212-214 | GPI Macon and New-Indy Catawba have no drawing whatever is selected |
| DrawingsTab.UnknownMillEmpty | src/pages/DrawingsTab.js:217 | a mill the tree does not list gets the empty tree and no area buttons |
| DrawingsTab.TreeKeysDistinct | src/pages/DrawingsTab.js:172-210 | every mill's tree lists each area once and, under each area, each subarea once (as object keys are), and no area or subarea name holds a dash |
| DrawingsTab.TreeNamesDashFree | src/pages/DrawingsTab.js:172-220 | every name a nested selection inside a mill's tree can print into the drawing key, "null" included, is free of dashes |
| DrawingsTab.DrawingIffPulp3FifthFloor | src/pages/DrawingsTab.js:212-221 | for every nested selection inside the Clearwater Augusta tree (every one the sidebar can make), the drawing is found exactly when Pulp › Pulp 3 › 5th Floor is selected |
| DrawingsTab.Sidebar.constructor | src/pages/DrawingsTab.js:217-218 | the tab opens on the mill's tree with nothing selected and the placeholder shown |
| DrawingsTab.Sidebar.ClickArea | src/pages/DrawingsTab.js:245 | an area click moves the selection by `AfterArea` and keeps it nested and in the tree |
| DrawingsTab.Sidebar.ClickSubarea | src/pages/DrawingsTab.js:261 | a subarea click moves the selection by `AfterSubarea` and keeps it nested and in the tree |
| DrawingsTab.Sidebar.ClickFloor | src/pages/DrawingsTab.js:275-288 | a floor click moves the selection by `AfterFloor`, and the drawing is then found exactly when that floor button carried the green dot |
| DrawingsTab.DrawingReachable | src/pages/DrawingsTab.js:172-221 | Pulp, Pulp 3 and 5th Floor are buttons of the Clearwater Augusta tree, and clicking them shows the drawing |
| DrawingsTab.OutlineMeaning | src/pages/DrawingsTab.js:109-121 | an asset outline is blue exactly for a point on the route that is not missing, red otherwise; the unhovered fill is red exactly for the missing point; the hovered fill is the route tint exactly on the route |
| DrawingsTab.MapOutlines | src/pages/DrawingsTab.js:7-30 | on the Pulp 3, 5th floor map the missing point is off the route, so an outline is blue exactly for the points on the route |
| DrawingsTab.TooltipAnchor | src/pages/DrawingsTab.js:139 | the tooltip sits 10 right of the point but never past x = 680, and 40 above it but never above y = 10 |
| DrawingsTab.MapTooltips | src/pages/DrawingsTab.js:7-30 | on this map neither clamp engages: every tooltip sits at (x + 10, y − 40) |

## Left out

- Font metrics, line wrapping (`splitTextToSize`) and the autoTable plug-in's layout and styling are abstract `Canvas.Metrics` functions. Properties that depend on a wrapped line count or a table height are stated in terms of those functions. The table's colours (a dark-blue head with white bold text, black body text on white, alternate rows in light blue; src/utils/pdfGenerator.js:402-404) are not logged either.
- `setLineWidth`, `saveGraphicsState`/`restoreGraphicsState` and opacity are not logged. They change only stroke width and transparency, never position, text or colour.
- The decorative chart traces of the Condition Monitoring Report (src/utils/pdfGenerator.js:250-258 and 269-280) are left out. They are fixed grid lines, a polyline and spikes that do not depend on the data. The chart panels, their captions and frames are modelled.
- `doc.save` is modelled as a final `Save(fileName)` command. Writing the file to disk is I/O.
- A failing jsPDF call is modelled only by the `throws` flag of `FormsTab.ReportForm.Submit`. The commands drawn before the throw are not modelled.
- Text.ToLower and Text.ToUpper map ASCII letters only. JavaScript's `toLowerCase`/`toUpperCase` also map other Unicode letters, sometimes to several characters. The three lemmas below hold of this model but not of the JavaScript for such text.
- Text.LowerForgetsCase: false in JavaScript for non-ASCII text. `"ß".toUpperCase()` is `"SS"`, which lower-cases to `"ss"`, not `"ß"`.
- PdfGenerator.ColorsIgnoreCase: false in JavaScript for non-ASCII text. `getRiskColor("hıgh")` (dotless ı) is dark grey, but its upper-case form "HIGH" is red.
- WorkOrders.SearchIgnoresCase: false in JavaScript for non-ASCII text. Searching for "ß" matches only text holding "ß", but its upper-case form "SS" also matches "ss".
- FormsTab validation: a boolean stored in a text field counts as missing. JavaScript would throw calling `.trim()` on it. No form stores a boolean in a text field.
- FormsTab.AttachImage: `FileReader`'s asynchronous read is not modelled. The data URL it produces is a parameter, and the image is stored in the same step.
- Toasts of the work-order board, the `setViewOrder`/`setShowModal` modal state, React rendering, inline CSS and hover styling are left out. The one exception is the asset paints of the floor map.
- The work-order list's persistence in `localStorage` (the `useWorkOrders` hook) is not part of this model. The board starts from a given list.
- WorkOrders.Board.Submit reads the clock once, for both the id and the work-order number. JavaScript calls `Date.now()` twice, so the two readings may differ by a millisecond.
- DrawingsTab: `HAS_DRAWING` is modelled as its one own key. Keys inherited from the JavaScript object prototype (such as "constructor") are not lookups any selection can produce: every key starts with a mill id and a dash.
- DrawingsTab.DrawingOnlyForPulp3FifthFloor: the if-and-only-if is stated only for area and subarea names without a dash. With dashes, different selections can produce the same key string. DrawingIffPulp3FifthFloor removes this condition for every selection the sidebar can make, because every name in the trees is dash-free (TreeNamesDashFree).
- DrawingsTab: for the trees of GPI Macon and New-Indy Catawba, only OtherMillsHaveNoDrawing and TreeKeysDistinct are proved. The reachability lemma covers Clearwater Augusta.
- The SVG map's arrows, legend and fixed decoration are left out. Only the assets' colours and tooltip positions are modelled.
- The `Canvas.Doc` methods model the jsPDF interface the generator calls. They are not part of the repository.
