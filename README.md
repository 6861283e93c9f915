# AnalizaTuPc — a verified model of the analysis pipeline

AnalizaTuPc scores a PC's hardware description against usage profiles. It also writes a report
and serves three clients. This project models in Dafny the parts of it that decide results:

- **Scoring engine** (`scoring.dfy`, module `Scoring`): `score_system` of `backend/main.py`.
  - The disk tier scalar and the three weighted linear profiles over the raw figures.
  - The stable descending sort that picks the winner, and Python's `round(x, 1)` of its value.
- **Analyze handler** (`report.dfy`, module `Report`): the rest of `analyze`.
  - The `report_{timestamp}` artifact names, the temporary files it creates and removes, and the
    uploads it makes only when a storage token is configured.
  - The server is a class whose working directory and upload log change in place.
- **Identifier allocator** (`database.dfy`, module `Database`): the `system_analyses` table and
  `get_next_analysis_id`.
  - The table is a class holding a sequence of rows, with allocate-then-insert as one step.
  - `analysis_id` is a nullable UNIQUE column, so it is an `Option<int>`.
- **Mobile fallback analysis** (`local_analysis.dfy`, module `LocalAnalysis`):
  `analyzeSystem` and `generateLocalAnalysis` of `AnalizaTuPc/App.js`.
  - The ladders of thresholds and keywords, the clamp, and the five category scores.
  - The step-by-step score is a chain of methods, each proved against a ladder function.
- **Mobile results screen and forms** (`results_screen.dfy`, `mobile_forms.dfy`):
  - `getScoreColor`, `getScoreLabel` and `formatScore`;
  - the `handleManualSubmit` and `handleRegister` checks.
- **Desktop authentication** (`auth.dfy`, module `Auth`): `AuthService` of
  `electron-app/auth.js`, as a class over its fields and `localStorage`. It covers:
  - the login and registration checks and the live password check;
  - routing a failed registration's message to a field;
  - guest mode, the authentication predicates and logout.
- **Desktop analysis button** (`renderer.dfy`, module `Renderer`): `electron-app/renderer.js`.
  - The request body with its `||` fallbacks and the Authorization header.
  - The result text, built by a loop over the profiles, and the error text.
  - The page (button and output area) is a class.
- **Shared primitives**:
  - `text.dfy` (`Text`): substring search, ASCII lower-casing, JavaScript `trim`, and decimal
    printing of integers.
  - `jsnumber.dfy` (`JsNumber`): `parseInt`, `parseFloat`, `Math.round`, `toFixed(1)` and
    printing a number in a template literal.
  - `read_back.dfy` (`ReadBack`): what the printed numbers read back as.
  - `wrappers.dfy`: `Option` and `Result`.

The clock, the network, the storage service and the browser's storage are all parameters. So are
the server's replies. Numbers are exact: reals for floats, unbounded integers for ints.

### Behaviour of the code worth knowing

- **Scoring**:
  - `score_system` scores exactly three profiles: Ofimática, Gaming and Virtualización.
  - It weights the raw figures (GHz × cores, GB of RAM, the disk tier, GB of VRAM). Nothing is
    normalised to [0,1] or capped.
  - `main_score` is the winner's value rounded to one decimal. It is not a percentage: the
    sample record in `Scoring.WorkedExample` scores 7.2.
  - Values are therefore unbounded. What is proved is monotonicity, the tie-break and the
    rounding bound.
- **Identifiers**:
  - `get_next_analysis_id` allocates from one sequence shared by every user. The table has no
    owner column.
  - The read of the largest id and the insert are separate statements, so two concurrent
    requests can get the same id.
  - The code offers no operation to read, list or delete stored analyses.
- **Analyze handler output**:
  - `analyze` computes the two storage URLs and then returns only the PDF stream. The score and
    the URLs are never returned as JSON.
  - Both clients read a JSON body. Against this handler the desktop client always shows its
    error text (`Renderer.ShownText` with a thrown error). The client model takes the reply as
    a parameter, so its result-text branch is modelled as the client code is written.

## Model

| member | source | states |
|---|---|---|
| Scoring.DiskTier | backend/main.py:39 | The tier is 1.0 exactly when the lower-cased tag equals "nvme", 0.6 exactly when it does not but contains "ssd" somewhere, and 0.2 otherwise |
| Scoring.DiskTierCaseInsensitive | backend/main.py:39 | A tag and its lower-cased form get the same tier |
| Scoring.CombinedTagIsSsdTier | backend/main.py:39 | The nvme test is an exact equality: "NVMe SSD" only reaches the SSD tier |
| Scoring.HddTier | backend/main.py:39 | "hdd" contains neither marker and gets the lowest tier |
| Scoring.WeightsSumToOne | backend/main.py:41-45 | Each profile's four weights are non-negative and sum to 1.0 |
| Scoring.ProfileScoresShape | backend/main.py:41-45 | The score map has the three declared profiles as keys, in declaration order, each with its weighted value |
| Scoring.ProfileNamesDistinct | backend/main.py:41-45 | Distinct profiles have distinct keys, so the map has three entries |
| Scoring.InsertDesc | backend/main.py:46 | Inserting into the sorted list adds exactly one element and keeps the multiset otherwise |
| Scoring.InsertDescSorted | backend/main.py:46 | Insertion keeps the list non-increasing; the new head is the inserted entry or the old head |
| Scoring.SortDesc | backend/main.py:46 | `sorted(..., reverse=True)` returns a permutation of the entries |
| Scoring.SortDescSorted | backend/main.py:46 | The sorted list is non-increasing and a permutation of the input |
| Scoring.FirstMaxIndex | backend/main.py:46-47 | Reference winner: a position holding the maximum value, with every earlier position strictly smaller |
| Scoring.SortDescHead | backend/main.py:46-47 | The head of the stable descending sort is the first entry holding the maximum, so an exact tie goes to the earlier profile |
| Scoring.RoundTenths | backend/main.py:49 | `round(x, 1)` in tenths is within half a tenth of 10·x, and an exact half goes to the even neighbour |
| Scoring.ScoreSystem | backend/main.py:35-49 | Total on every input. `scores` is the unrounded map; the main profile's value is at least every other value and strictly above every profile declared before it; `main_score` is that value rounded to tenths |
| Scoring.MainScoreCloseToValue | backend/main.py:49 | `main_score` is within 0.05 of the winner's exact value |
| Scoring.CpuFigureMonotone | backend/main.py:36 | The cpu figure (speed × cores) does not decrease when speed or cores grow |
| Scoring.ProfileValueMonotone | backend/main.py:36-45 | Every profile value is non-decreasing in speed, cores, RAM and VRAM |
| Scoring.WorkedValues | backend/main.py:36-45 | 2.0 GHz × 4 cores, 8 GB, "hdd", no VRAM gives 6.44, 3.63 and 7.22 |
| Scoring.WorkedExample | backend/main.py:35-49 | That record is won by Virtualización with main_score 7.2 |
| Scoring.ZeroRecord | backend/main.py:35-49 | An all-zero record is scored without failure; Ofimática wins with 0.0 |
| Report.ArtifactNamesShareStem | backend/main.py:85-110 | The JSON and PDF names share the `report_{timestamp}` stem and differ; their remote paths differ; the Content-Disposition names the same PDF file |
| Report.FileNameDeterminesTimestamp | backend/main.py:85-96 | Equal file names imply equal timestamps |
| Report.UploadPlanTargets | backend/main.py:94-100 | There are uploads exactly when a token is set; each stores one of the two local artifacts under `/AnalizaTuPc/` with its own name |
| Report.Backend.constructor | backend/main.py:13-14 | The server starts with the configured token, an empty working directory and no uploads |
| Report.Backend.Analyze | backend/main.py:80-111 | The result is `ScoreSystem(info)`; both temporary files are gone afterwards; the uploads are PDF then JSON, and only with a token; without a token both URLs are None |
| Database.MaxIdSpec | backend/database.py:34-36 | The largest id is None exactly when every id is NULL; otherwise it is a stored id that bounds every stored id |
| Database.NextAnalysisIdSpec | backend/database.py:33-37 | 1 on an empty table. Otherwise one more than a stored id and larger than every stored id. It raises exactly on a non-empty table of NULL ids |
| Database.NextAnalysisId | backend/database.py:33-37 | Reference definition of the allocation: 1 on an empty table; an error only on a non-empty table, and only a TypeError |
| Database.TopByIdDesc | backend/database.py:34 | `order_by(desc).first()`: None exactly on an empty table; otherwise a stored row that no row sorts above (NULL sorts lowest) |
| Database.AllocatedIdKeepsUnique | backend/database.py:16-37 | Inserting a row under the allocated id keeps the UNIQUE constraint |
| Database.FillFromEmpty | backend/database.py:33-37 | From an empty table, n allocate-then-insert steps give ids 1..n in insertion order, whoever submitted them |
| Database.RemoveNonMaxKeepsMax | backend/database.py:34-36 | Removing a row that does not hold the largest id keeps the largest id |
| Database.RemoveNonMaxKeepsNextId | backend/database.py:34-36 | Removing a row that does not hold the largest id leaves the next id unchanged |
| Database.RemovedIdGone | backend/database.py:16 | Under the UNIQUE constraint, a removed row's id is held by no remaining row |
| Database.RemoveMaxAllowsReuse | backend/database.py:34-36 | Removing the row with the largest id m frees m. The next allocation on a non-empty remainder is at most m, and exactly m when m − 1 is still stored |
| Database.AnalysisTable.constructor | backend/database.py:30-31 | A freshly created table is empty and satisfies the UNIQUE constraint |
| Database.AnalysisTable.GetNextAnalysisId | backend/database.py:33-37 | The top-row-plus-one query equals the largest-id-plus-one definition and changes nothing |
| Database.AnalysisTable.Insert | backend/database.py:16 | An insert is refused with an integrity error exactly when it repeats a stored non-NULL id; otherwise the row is appended; the constraint is kept |
| Database.AnalysisTable.AllocateAndInsert | backend/database.py:16-37 | The result is the allocation for the table before the insert. With an id, the row is appended under it (never refused); on the all-NULL error the table is unchanged; no duplicate id appears |
| LocalAnalysis.LaddersDescending | AnalizaTuPc/App.js:93-132 | The speed, core, RAM and VRAM ladders have positive bonuses and, tier to tier, falling thresholds and non-rising bonuses |
| LocalAnalysis.LadderFirstMatch | AnalizaTuPc/App.js:95-97 | The if-else chain pays the bonus of the first tier whose minimum is reached |
| LocalAnalysis.LadderNoMatch | AnalizaTuPc/App.js:95-97 | No bonus when no minimum is reached |
| LocalAnalysis.LadderBonusSpec | AnalizaTuPc/App.js:93-132 | The threshold chain read as a whole: 0 when no tier is reached; otherwise the bonus of a reached tier with every earlier tier out of reach |
| LocalAnalysis.LadderBonusRange | AnalizaTuPc/App.js:93-132 | A descending ladder pays between 0 and its top bonus |
| LocalAnalysis.LadderMonotone | AnalizaTuPc/App.js:93-132 | A better figure never earns a smaller bonus |
| LocalAnalysis.ContainsAnyPair | AnalizaTuPc/App.js:88 | A tier matches when either of its two keywords occurs |
| LocalAnalysis.KeywordFirstMatch | AnalizaTuPc/App.js:88-91 | The keyword chain pays the bonus of the first tier with a keyword in the (non-empty) text |
| LocalAnalysis.KeywordNoMatch | AnalizaTuPc/App.js:88-91 | An empty text or one without any keyword earns nothing |
| LocalAnalysis.KeywordBonusSpec | AnalizaTuPc/App.js:88-124 | The keyword chain read as a whole: 0 for an empty text or no match; otherwise the bonus of a matched tier with no earlier tier matched |
| LocalAnalysis.KeywordBonusRange | AnalizaTuPc/App.js:88-124 | A keyword ladder pays between 0 and its top bonus |
| LocalAnalysis.SpeedTiers | AnalizaTuPc/App.js:94-97 | The speed ladder equals the source's chain: 15, 10, 5 from 4.5, 3.5, 2.5 GHz |
| LocalAnalysis.CoresTiers | AnalizaTuPc/App.js:100-105 | The core ladder equals the chain 20/15/10/5/2 from 16/12/8/6/4 cores |
| LocalAnalysis.RamTiers | AnalizaTuPc/App.js:108-112 | The RAM ladder equals the chain 20/15/10/5 from 32/16/8/4 GB |
| LocalAnalysis.VramTiers | AnalizaTuPc/App.js:127-132 | The VRAM ladder equals the chain 10/7/5/3/1 from 12/8/6/4/2 GB |
| LocalAnalysis.CpuModelTiers | AnalizaTuPc/App.js:88-91 | The processor ladder equals the chain of `includes` tests (i9/Ryzen 9 … i3/Ryzen 3) |
| LocalAnalysis.GpuTiers | AnalizaTuPc/App.js:120-124 | The graphics ladder equals the chain of `includes` tests (RTX 40/RX 7900 … GTX 10/RX 400) |
| LocalAnalysis.NumericBonusRange | AnalizaTuPc/App.js:93-132 | The four numeric ladders pay at most 15, 20, 20 and 10 |
| LocalAnalysis.RawScoreBounds | AnalizaTuPc/App.js:85-132 | The unclamped sum lies in [50, 185] |
| LocalAnalysis.BaseScore | AnalizaTuPc/App.js:134-135 | The clamped base score lies in [50, 100] |
| LocalAnalysis.MainProfile | AnalizaTuPc/App.js:145 | "Gaming/Profesional" exactly from 80, "Multimedia" exactly in [60,80), "Oficina" exactly in [40,60), "Básico" exactly below 40 |
| LocalAnalysis.CategoryScores | AnalizaTuPc/App.js:147-159 | Five entries named Gaming, Edición Video, Ofimática, Virtualización and ML Ligero in that order, each score in [0,100] |
| LocalAnalysis.ZeroEarnsNothing | AnalizaTuPc/App.js:93-132 | A reading of 0 is below the lowest tier of every numeric ladder |
| LocalAnalysis.UnparsableSpeedEarnsNothing | AnalizaTuPc/App.js:94-97 | An unparsable speed reads as 0 (`|| 0`) and earns no bonus |
| LocalAnalysis.UnparsableCountEarnsNothing | AnalizaTuPc/App.js:100-132 | An unparsable core count, RAM or VRAM reads as 0 and earns nothing |
| LocalAnalysis.CategoryScore | AnalizaTuPc/App.js:138-141 | The category score is in [0, 100]; it is 0 exactly below 0.5, 100 exactly from 99.5, and otherwise within half a point of base·multiplier + bonus |
| LocalAnalysis.CategoryScoreMonotone | AnalizaTuPc/App.js:138-141 | A larger base never lowers a category score |
| LocalAnalysis.CategoryScoresFloor | AnalizaTuPc/App.js:147-159 | With a base in [50, 100] every one of the five categories scores between 43 and 100 |
| LocalAnalysis.AddCpuModelBonus | AnalizaTuPc/App.js:88-91 | The processor step adds exactly the processor ladder's bonus |
| LocalAnalysis.AddSpeedBonus | AnalizaTuPc/App.js:94-97 | The speed step adds exactly the speed ladder's bonus |
| LocalAnalysis.AddCoresBonus | AnalizaTuPc/App.js:100-105 | The core step adds exactly the core ladder's bonus |
| LocalAnalysis.AddRamBonus | AnalizaTuPc/App.js:108-112 | The RAM step adds exactly the RAM ladder's bonus |
| LocalAnalysis.AddDiskBonus | AnalizaTuPc/App.js:115-117 | The storage step adds 15 for exactly "NVMe", 10 for exactly "SSD", else nothing |
| LocalAnalysis.DiskBonus | AnalizaTuPc/App.js:115-117 | 15 exactly for "NVMe", 10 exactly for "SSD", 0 for every other tag, with no case folding |
| LocalAnalysis.AddGpuBonus | AnalizaTuPc/App.js:120-124 | The graphics step adds exactly the graphics ladder's bonus |
| LocalAnalysis.AddVramBonus | AnalizaTuPc/App.js:127-132 | The VRAM step adds exactly the VRAM ladder's bonus |
| LocalAnalysis.GenerateLocalAnalysis | AnalizaTuPc/App.js:84-162 | Corrected fallback. `main_score` is the clamped base score in [50, 100]; the profile follows the 80/60/40 bands and is never "Básico"; the five category scores are `CategoryScores` of the parsed figures and that base; `is_guest` is the absence of a token |
| LocalAnalysis.RequestHeaders | AnalizaTuPc/App.js:60-66 | The JSON content type always comes first; an Authorization header is present exactly when the token is truthy, and then it is `Bearer ` followed by the token |
| LocalAnalysis.AnalyzeSystem | AnalizaTuPc/App.js:58-82 | Corrected `analyzeSystem`. The headers are `RequestHeaders(token)`. An ok JSON reply is returned as is. Any other outcome gives the local analysis: its main score is the base score, its profile is `MainProfile` of it, its five category scores are `CategoryScores`, and `is_guest` is the absence of a token. It never fails |
| LocalAnalysis.GenerateLocalAnalysisAsWritten | AnalizaTuPc/App.js:161 | As written, building the fallback result always throws a ReferenceError for `token` |
| LocalAnalysis.AnalyzeSystemAsWritten | AnalizaTuPc/App.js:58-82 | As written, every path that needs the fallback (not-ok reply, network failure, bad JSON) rejects with that ReferenceError |
| LocalAnalysis.AsReply | AnalizaTuPc/App.js:74-81 | A settled fallback becomes the promise's value or its rejection, keeping the error |
| ResultsScreen.ScoreColor | AnalizaTuPc/App.js:482-487 | Each colour is returned exactly on its band: ≥80, [60,80), [40,60), <40 |
| ResultsScreen.ScoreLabel | AnalizaTuPc/App.js:489-494 | Each label is returned exactly on its band, with the same thresholds |
| ResultsScreen.ColorAndLabelAgree | AnalizaTuPc/App.js:482-494 | Colour and label describe the same band: two scores share a colour exactly when they share a label |
| ResultsScreen.BandMonotone | AnalizaTuPc/App.js:482-494 | A higher score never falls into a lower band |
| ResultsScreen.FormatScore | AnalizaTuPc/App.js:497-502 | A score up to 1 (negative ones included) is read as a fraction: the result is the integer within half a point of score×100. A larger score is the integer within half a point of the score itself. Hence a fraction in [0,1] gives [0,100] and a score in (1,100] gives [1,100] |
| ResultsScreen.FormatScoreScales | AnalizaTuPc/App.js:497-502 | A whole percentage from 2 to 100 is shown the same whether it comes as a fraction or as a percentage |
| ResultsScreen.FormatScoreBoundary | AnalizaTuPc/App.js:497-502 | 1 is read as 100 %, and 1.01 as 1 % |
| ResultsScreen.LocalScoresNeverBasic | AnalizaTuPc/App.js:489-502 | After formatting, neither the main score nor any of the five category scores of a local analysis is labelled "Básico" |
| MobileForms.ManualSubmit | AnalizaTuPc/App.js:748-754 | The form proceeds exactly when CPU model, speed, cores, RAM and GPU model are all filled in; otherwise it shows the alert |
| MobileForms.OptionalFieldsIgnored | AnalizaTuPc/App.js:749 | Disk type and VRAM never decide whether the form is accepted |
| MobileForms.Register | AnalizaTuPc/App.js:316-325 | Registration proceeds exactly when username, email and password are filled in and the passwords match; an empty field gives the empty-fields alert |
| MobileForms.RegisterEmptyBeforeMismatch | AnalizaTuPc/App.js:316-325 | The mismatch alert appears exactly when the three fields are filled and the passwords differ |
| MobileForms.EmptyConfirmationIsMismatch | AnalizaTuPc/App.js:317-323 | An empty confirmation is reported as a mismatch, not as an empty field |
| Auth.LoginCheck | electron-app/auth.js:83-90 | Nothing is reported exactly when the trimmed username and the untrimmed password are non-empty; otherwise both login inputs are marked |
| Auth.RegisterCheck | electron-app/auth.js:129-147 | Registration passes exactly when trimmed username and email are non-empty, the password has at least 6 UTF-16 code units, and it equals the confirmation |
| Auth.RegisterCheckOrder | electron-app/auth.js:134-147 | An empty field is reported first; a short password iff the fields are filled and 0 < UTF-16 length < 6; a mismatch iff the rest passes |
| Auth.TrimmingAppliesToNamesOnly | electron-app/auth.js:129-139 | A blank username is refused as empty, while six blanks are an acceptable password |
| Auth.SurrogatePairsCountTwice | electron-app/auth.js:139 | A password of three emoji is three characters but six UTF-16 units, so it meets the six-character minimum |
| Text.Utf16Length | electron-app/auth.js:139 | JavaScript's `length`: between the number of characters and twice it, and 0 only for the empty string |
| Auth.ConfirmFeedback | electron-app/auth.js:70-76 | The live mismatch message is shown exactly when both passwords are filled and differ |
| Auth.LiveCheckAgreesWithSubmit | electron-app/auth.js:70-76 | Once the other checks pass, the live check and the submit-time mismatch check agree |
| Auth.DetailOr | electron-app/auth.js:109 | `data.detail || fallback`: a non-empty detail is kept; otherwise the non-empty fallback is used |
| Auth.RouteRegisterError | electron-app/auth.js:175-177 | Goes to the email input exactly when the message mentions "email"; the server's text is kept exactly when it mentions "email" or "username" (or is the generic text) |
| Auth.RoutingPrefersEmail | electron-app/auth.js:175-177 | A message naming both "email" and "username" goes to the email input unchanged |
| Auth.HandleRegister | electron-app/auth.js:128-183 | A request is sent exactly when the checks pass. A success schedules the auto-login with the trimmed username and the password as typed. A refusal routes the detail or the default message. A failure to connect routes the error's own message |
| Auth.AuthService.constructor | electron-app/auth.js:5-7 | The fields are read back from the stored session |
| Auth.AuthService.IsAuthenticated | electron-app/auth.js:218-220 | `!!this.token`: the token field is present and non-empty. A predicate; its behaviour across the session is stated by `SaveSession`, `ContinueAsGuest` and `Logout` |
| Auth.AuthService.IsGuest | electron-app/auth.js:222-224 | The stored `is_guest` value is exactly "true". A predicate; `ContinueAsGuest` makes it true and `Logout` false |
| Auth.AuthService.SaveSession | electron-app/auth.js:111-117 | A granted session sets both fields and exactly the two storage keys, and opens the app |
| Auth.AuthService.HandleLogin | electron-app/auth.js:82-126 | A request is sent exactly when the check passes. A granted login saves the session and leaves the guest flag unchanged. A refusal shows the detail or the default message on the password input. Nothing else changes |
| Auth.AuthService.HandleAutoLogin | electron-app/auth.js:185-207 | A granted login saves the session; anything else returns to the login tab with the session untouched |
| Auth.AuthService.ContinueAsGuest | electron-app/auth.js:209-212 | Sets the guest flag and opens the app; `IsGuest` holds afterwards and `IsAuthenticated` is unchanged |
| Auth.AuthService.Logout | electron-app/auth.js:226-231 | Removes exactly the three session keys and returns to the login page; `IsGuest` is false, and `IsAuthenticated` is unchanged because the fields are not cleared |
| Renderer.BuildPayload | electron-app/renderer.js:9-17 | The model names are sent as typed; the disk type is never empty and defaults to "HDD"; speed, cores and RAM are never 0 |
| Renderer.ParsedNumbersAreSent | electron-app/renderer.js:9-17 | Fields that parse to non-zero numbers are sent as those numbers |
| Renderer.FallbacksApply | electron-app/renderer.js:11-16 | NaN and 0 alike give the fallbacks 1.0, 1, 1.0, "HDD" and 0 |
| Renderer.ZeroAndWordFallBack | electron-app/renderer.js:11-16 | "0" parses as 0 and "no" as NaN for both parsers, so both fall back |
| Renderer.TypedCoresAreSent | electron-app/renderer.js:12 | A non-zero core count typed as an integer is sent as that integer |
| Renderer.AuthHeaders | electron-app/renderer.js:19-25 | The JSON content type always comes first. A bearer header is present exactly when a non-empty token is stored and guest mode is off, and it carries that token |
| Renderer.HeadersAfterSessionChanges | electron-app/renderer.js:19-25 | After guest mode or logout no token is sent. After a login the token is sent exactly when it is non-empty and no guest flag was left behind |
| Renderer.MainScorePrintedExactly | electron-app/renderer.js:41 | The main score printed in the header reads back as the engine's rounded score |
| Renderer.ProfileLinesPrefix | electron-app/renderer.js:44-46 | The profile lines are written in the order of the scores: the lines for a prefix of the scores are a prefix of all the lines |
| Renderer.ClosingHeading | electron-app/renderer.js:48-55 | A guest sees only the guest notice; a signed-in user's part opens with the downloads heading |
| Renderer.ClosingPdfLine | electron-app/renderer.js:50 | With a PDF link, the PDF line follows the heading |
| Renderer.ClosingJsonLine | electron-app/renderer.js:51 | With a JSON link, the signed-in part ends with the JSON line |
| Renderer.ClosingWarnsIffNoLinks | electron-app/renderer.js:52 | The no-uploads warning is the whole closing part exactly when neither link is present |
| Renderer.ResultText | electron-app/renderer.js:41-55 | The loop builds the header, the heading, one line per profile in order, and the closing part |
| Renderer.ClosingText | electron-app/renderer.js:48-55 | The line-by-line appends build the closing part |
| Renderer.RejectionText | electron-app/renderer.js:39 | A refusal is shown as the error prefix, "Error: ", then the detail or "Error en el análisis" |
| Renderer.OutcomeText | electron-app/renderer.js:37-60 | The output is the result text for an answer, the rejection text for a refusal, and the prefix plus the error's text for a thrown error |
| Renderer.AnalyzePage.constructor | electron-app/renderer.js:2-3 | The page starts with the button enabled and the output empty |
| Renderer.AnalyzePage.OnClick | electron-app/renderer.js:5-64 | Sends the built payload and headers; afterwards the button is enabled again and the output shows the outcome's text under the stored guest flag |
| JsNumber.IntOr | electron-app/renderer.js:12 | `parseInt(..) || d`: a non-zero number is kept; NaN and 0 give the fallback |
| JsNumber.RealOr | electron-app/renderer.js:11 | `parseFloat(..) || d`: a non-zero number is kept; NaN and 0 give the fallback |
| JsNumber.ParseInt | electron-app/renderer.js:12 | `parseInt` yields a number only when the text contains a decimal digit, so an empty or digit-free field is NaN |
| JsNumber.ParseFloat | electron-app/renderer.js:11-16 | `parseFloat` yields a number only when the text contains a decimal digit, so an empty or digit-free field is NaN |
| JsNumber.DigitPrefix | electron-app/renderer.js:12 | `parseInt` reads the longest run of digits: a prefix of digits followed by a non-digit or the end |
| JsNumber.IntRoundTrip | electron-app/renderer.js:12 | A printed integer parses back to itself with `parseInt` |
| JsNumber.NatParsesAsFloat | electron-app/renderer.js:11 | A printed natural parses back to itself with `parseFloat` |
| JsNumber.LetterIsNaN | electron-app/renderer.js:11-16 | Text starting with a letter is NaN for both parsers |
| JsNumber.JsRound | AnalizaTuPc/App.js:140 | `Math.round` returns the integer within half of x, with halves going up |
| JsNumber.JsRoundMonotone | AnalizaTuPc/App.js:140 | `Math.round` is monotone |
| JsNumber.JsRoundOfInt | AnalizaTuPc/App.js:499-501 | `Math.round` returns an integer unchanged |
| JsNumber.ToFixed1 | electron-app/renderer.js:45 | `toFixed(1)` ends with a point and one digit, and starts with '-' exactly for negative values |
| JsNumber.TenthsToString | electron-app/renderer.js:41 | A printed count of tenths starts with '-' exactly when it is negative |
| ReadBack.ToFixed1ParsesBack | electron-app/renderer.js:45 | A `toFixed(1)` percentage reads back within 0.05 of the exact value |
| ReadBack.TenthsParseBack | electron-app/renderer.js:41 | A score printed by the template literal reads back as exactly that many tenths |
| Text.ContainsIffOccurs | backend/main.py:39 | The substring test agrees with "occurs at some position" |
| Text.ToLower | backend/main.py:39 | Lower-casing keeps the length and lower-cases each ASCII letter in place |
| Text.ToLowerIdempotent | backend/main.py:39 | Lower-casing twice equals lower-casing once |
| Text.TrimEmptyIffBlank | electron-app/auth.js:83-86 | `trim()` is empty exactly for all-whitespace text; a non-empty result has no whitespace at either end |
| Text.IntToString | backend/main.py:85-86 | The printed integer is non-empty and starts with '-' exactly for negative values |
| Text.IntToStringInjective | backend/main.py:85-86 | Distinct integers print differently |

## Left out

- PDF generation (`create_pdf_bytes`, fpdf, fonts): the model keeps only the file names and the
  Content-Disposition header. The document's content and layout are not modelled.
- The JSON report's content (`json.dump`) is not modelled; only the file's creation and removal
  are.
- The storage service (`dropbox_upload.py`, folder creation at start-up): the links the two
  uploads return are parameters of `Report.Backend.Analyze`. The upload log records what is sent.
- The clock is a `timestamp` parameter. The two upload calls' failures are modelled only as
  `None` links.
- `backend/auth.py`, `backend/models.py`, HTTP routing, CORS and pydantic validation are not
  part of this model. The record posted to `/api/analyze` arrives already typed.
- Concurrency: two requests can both read the same largest id before either inserts. The model
  makes allocate-then-insert one sequential step, so that race is not captured.
- Row deletion does not exist in the code. The removal lemmas in `Database` describe what the
  allocator does after a row is removed by other means.
- `Database.AnalysisTable.AllocateAndInsert` models only the `analysis_id` column's constraint.
  The table's `id` primary key (autoincrement) is not modelled.
- Binary floating point: figures are exact reals.
  - `round(x, 1)` in `Scoring.RoundTenths` is round-half-even on the exact value. Binary
    representation effects (for example `round(2.675, 2)`) are not captured.
  - `Math.round` and `toFixed(1)` are likewise exact.
- JsNumber.ParseFloat does not read "Infinity" and does not overflow to infinity. The parsers
  model ASCII digits only.
- JsNumber.ToFixed1 does not model the exponent form that `toFixed` uses from 1e21 upwards.
- JsNumber.TenthsToString does not model the exponent form a template literal prints from 1e21
  upwards; it always prints plain decimal digits.
- Text.ToLower lower-cases ASCII letters only. Python's Unicode `lower()` also changes other
  letters, which the markers "nvme" and "ssd" do not contain.
- `JSON.parse` of the stored user (auth.js:7) is not modelled: the user is kept as its stored
  text.
- The two-second delay before the automatic login (auth.js:170-172) is not modelled. The login
  is recorded as scheduled and then modelled by `Auth.AuthService.HandleAutoLogin`.
- The DOM: showing an error becomes a `FieldError` value; the loading indicators are not
  modelled.
- The mobile app's screens and styles are not modelled, except the helpers above. The
  `AnalizaTuPc-Fixed` and `app/` variants are not part of this model.
- LocalAnalysis.AnalyzeSystem returns the backend's JSON body as text and does not parse it.

## Findings

| source | as written | input that shows it | evidently intended | confidence | as-written member | corrected member |
|---|---|---|---|---|---|---|
| AnalizaTuPc/App.js:161 | `generateLocalAnalysis` builds `is_guest: !token`, but `token` is a parameter of `analyzeSystem` and not in scope here, so every call throws a ReferenceError. Both fallback calls in `analyzeSystem` (lines 77 and 80) therefore reject | any form data with the backend answering 500 (or unreachable) | the local analysis is returned whenever the backend does not answer, with `is_guest` reflecting the caller's token | high (not executed) | LocalAnalysis.AnalyzeSystemAsWritten | LocalAnalysis.AnalyzeSystem |
