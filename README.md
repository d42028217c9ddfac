# Headhunter toolkit — a verified model

This project models the deterministic core of a headhunting toolkit written in Python. The toolkit enriches 104 job-site company records with contact details, sources and deduplicates candidates, scores candidates against job descriptions, learns a consultant's preferences, and schedules follow-ups. Browser runs, sheet writes, files and clocks become inputs. The decisions the scripts take on them are modelled and proved.

One Dafny module models one source file:

| module | source file | what it models |
|---|---|---|
| `Utils` | crawlers/scraper-stable/utils.py | phone cascade and normalisation, first e-mail, the three-tier website search, labelled captures, text sanitising |
| `Validator` | crawlers/scraper-stable/validator.py | full-string phone/e-mail/website checks, the six-field validation, quality score and summary |
| `Checkpoint` | crawlers/scraper-stable/checkpoint.py | the resume state (`CheckpointManager`) as a class with its counters and lists |
| `Reporter` | crawlers/scraper-stable/reporter.py | success rate, elapsed time, ETA and the report lines |
| `Scraper` | crawlers/scraper-stable/scraper.py | the bounded retry loop, the fetch acceptance rule, the sheet write plan and the stop-on-failure write loop |
| `CrawlerMain` | crawlers/scraper-stable/main.py | the work-list filter, the resume row and the per-item run with its save points |
| `StableTool` | tools/scraper-stable/main.py | the earlier single-file scraper: validators, line scans, recursive retry, field fallback, skip/record/auto-pause run loop |
| `Scraper104` | crawlers/scraper-104.py | the ref-grouping loop over a search snapshot and the output defaults |
| `CompanyContact` | skills/headhunter/scripts/scraper-company-contact.py | company id, job-page ref scan, website crawl and the merged record |
| `GithubTalent` | skills/headhunter/scripts/github-talent-search.py | search query, username filter, profile classification |
| `Dedup` | scripts/dedup_engine.py | name/company normalisation, fingerprints, merging, the recommendation history |
| `AiMatcher` | scripts/ai_matcher_v2.py | the four score parts, red flags, clamping and confidence bands |
| `BatchMatch` | skills/headhunter/scripts/batch-match.py | keyword skills, experience years, the 70/30 score, buckets and the sorted batch |
| `MultiChannel` | scripts/multi-channel-sourcing.py | the tech test, the channel counts and the channel plan |
| `LearningEngine` | scripts/learning-engine.py | the decision log, the preference analysis, weight suggestions and their application |
| `AutoFollowup` | skills/headhunter/scripts/auto-followup.py | scheduling, due and upcoming lists, completion, the daily reminder cut-off |
| `Dashboard` | skills/headhunter/scripts/dashboard.py | jobs and candidates stores, status updates and the overview |
| `ResumeBatch` | batch/batch-parse-resumes.py | name, position and skills from resume text, file ids, the unprocessed filter |
| `ContactFinder` | scripts/contact-finder.py | e-mail and phone extraction, the search channels and their aggregation |
| `PttScraper` | scripts/scraper-ptt-softjob.py | board page URLs, the candidate record of an article, the title filter and the parse loop |

Four helper modules are shared:
- `Wrappers` holds `Option` and `Result`.
- `Text` holds Python's whitespace set, ASCII case mapping, strip, find/replace, split/join and decimal rendering.
- `Seqs` holds filters, counts, first-occurrence deduplication and a stable sort by an integer key.
- `Pattern` is a scanner for the regular expressions the scripts use. Each expression is a concatenation of atoms: class repetitions, word alternations, `$` and `\b`. The scanner searches them in the order Python's backtracking engine does. Each expression is written out as a sequence of atoms, and its matches are described independently by lemmas.

Where a source file changes state in place, the model is a class whose methods are proved against specification functions. These classes are the checkpoint manager, the dedup engine, the learning engine, the dashboard and follow-up stores, the earlier tool's scraper, and the candidate record the AI matcher writes into. Pure code is modelled as functions with lemmas.

## Model

| member | source | states |
|---|---|---|
| Utils.FirstFound | crawlers/scraper-stable/utils.py:43-45 | the first pattern in list order that is found anywhere in the text, with its leftmost match; none exactly when no pattern is found |
| Utils.ExtractPhoneClean | crawlers/scraper-stable/utils.py:31-59 | extract_phone returns nothing for empty text, and a returned phone holds no whitespace or parentheses |
| Utils.NormalizePhoneClean | crawlers/scraper-stable/utils.py:48-57 | no whitespace or parenthesis survives the normalisation of a match |
| Utils.ExtractPhoneFirstPattern | crawlers/scraper-stable/utils.py:43-57 | the phone comes from the leftmost match of the first pattern found, even when a later pattern matches earlier in the text |
| Utils.NormalizePhoneDigits | crawlers/scraper-stable/utils.py:50-56 | a ten-digit number starting with 0 is formatted to twelve characters, and removing the hyphens gives the digits back |
| Utils.NormalizeTen | crawlers/scraper-stable/utils.py:50-56 | a ten-digit number starting with 0 is split 2-4-4 when its second digit is a landline area code 2..8, else 4-3-3 |
| Utils.RemoveHyphens3 | crawlers/scraper-stable/utils.py:53-56 | removing the hyphens from three digit groups joined by hyphens gives the digits |
| Utils.DigitsKept | crawlers/scraper-stable/utils.py:48 | digits are never removed as junk |
| Utils.LandlineSpells | crawlers/scraper-stable/utils.py:38 | 0 followed by nine or ten digits matches the first pattern |
| Utils.BarePatternShadowed | crawlers/scraper-stable/utils.py:37-45 | wherever the second pattern 0\d{9,10} is found, the first is found too, so the second never decides the result |
| Utils.ExtractEmail | crawlers/scraper-stable/utils.py:61-71 | a returned e-mail holds no upper-case letter |
| Utils.ExtractEmailShape | crawlers/scraper-stable/utils.py:61-71 | the e-mail is the leftmost match of the pattern, lower-cased, with exactly one '@' and a non-empty local part |
| Utils.EmailMatchOneAt | crawlers/scraper-stable/utils.py:66 | in a match of the e-mail pattern the '@' ends the local part and occurs nowhere else |
| Utils.OneAtInMatch | crawlers/scraper-stable/utils.py:66 | a match of class+ '@' class+ '.' class+ whose classes exclude '@' has a single '@' after the first run |
| Utils.LowerOneAt | crawlers/scraper-stable/utils.py:69 | lower-casing keeps a single '@' single and off the front |
| Utils.ExtractWebsiteShape | crawlers/scraper-stable/utils.py:73-114 | extract_website returns nothing for empty text, and whichever of its three tiers decides, the website starts with "http" and never contains 104.com.tw |
| Utils.LabelledWebsiteShape | crawlers/scraper-stable/utils.py:79-95 | a website found after a label starts with "http" (https:// is added when missing) and is not a 104 link |
| Utils.AbsoluteUrlKeepsScheme | crawlers/scraper-stable/utils.py:98-100 | a cleaned match of an http pattern still starts with "http" |
| Utils.FirstForeignUrlShape | crawlers/scraper-stable/utils.py:98-103 | the first cleaned absolute URL without 104.com.tw starts with "http" and is not a 104 link |
| Utils.WwwWebsiteShape | crawlers/scraper-stable/utils.py:106-112 | a www. website starts with "http" and is not a 104 link |
| Utils.WithSchemeShape | crawlers/scraper-stable/utils.py:93-94 | adding the scheme gives a URL that starts with "http" and adds no 104 link |
| Utils.Parse104SnapshotShape | crawlers/scraper-stable/utils.py:116-146 | empty snapshot text gives six empty fields; the website read from a snapshot is never a 104 link |
| Utils.Parse104LabelledLines | crawlers/scraper-stable/utils.py:148-164 | address, industry and services are single lines of at most 100, 50 and 200 characters |
| Utils.LabelledValueOneLine | crawlers/scraper-stable/utils.py:149-164 | a labelled capture, stripped, holds no newline and is no longer than its window |
| Utils.Parse104PrefersHeading | crawlers/scraper-stable/utils.py:136-146 | for any non-empty text: when the "公司網址" heading is followed by a non-empty URL that URL is the website, and otherwise the website is exactly what extract_website finds |
| Utils.CollapseSpaces | crawlers/scraper-stable/utils.py:178 | every whitespace character left is a single space, never two in a row, and the text is empty exactly when it was |
| Utils.SanitizeTextShape | crawlers/scraper-stable/utils.py:172-181 | the sanitised text has no whitespace at either end and never two whitespace characters in a row; missing or empty text gives "" |
| Utils.CollapseFixed | crawlers/scraper-stable/utils.py:178 | collapsing text that is already single-spaced changes nothing |
| Utils.SanitizeTextIdempotent | crawlers/scraper-stable/utils.py:172-181 | sanitising twice is sanitising once |
| Validator.ValidPhoneIff | crawlers/scraper-stable/validator.py:13-28 | validate_phone is true exactly for a present, non-empty string laid out as 0 + 1-2 digits - 3-4 digits - 4 digits, or as 0 + 9-10 digits, the whole string (Python's `$` also allowing one final newline) |
| Validator.HyphenPatternIff | crawlers/scraper-stable/validator.py:20 | the first phone pattern, anchored at the start, matches exactly the hyphenated layouts |
| Validator.HyphenSound | crawlers/scraper-stable/validator.py:20 | every match of the hyphenated pattern has the hyphenated layout |
| Validator.HyphenComplete | crawlers/scraper-stable/validator.py:20 | every string with the hyphenated layout is matched |
| Validator.DigitPatternIff | crawlers/scraper-stable/validator.py:21 | the second phone pattern matches exactly 0 followed by nine or ten digits |
| Validator.LandlineOutputValid | crawlers/scraper-stable/validator.py:19-26 | a ten-digit landline number as the phone extractor formats it (0X-XXXX-XXXX) passes validate_phone |
| Validator.MobileOutputInvalid | crawlers/scraper-stable/validator.py:19-26 | a ten-digit mobile number as the phone extractor formats it (09XX-XXX-XXX) never passes validate_phone |
| Validator.ValidEmailIff | crawlers/scraper-stable/validator.py:31-37 | validate_email is true exactly for a present string local@domain.tld, with local and domain over their character classes and a top-level domain of two or more ASCII letters, taking up the whole string |
| Validator.EmailSound | crawlers/scraper-stable/validator.py:36 | every match of the e-mail pattern has that layout |
| Validator.EmailComplete | crawlers/scraper-stable/validator.py:36 | every string with that layout is matched |
| Validator.EmailClasses | crawlers/scraper-stable/validator.py:36 | the two bracket classes of the pattern hold exactly the local-part and domain characters |
| Validator.ValidWebsiteIff | crawlers/scraper-stable/validator.py:40-46 | validate_website is true exactly for a present string starting http:// or https:// (any case), then non-space text, a '.', and two or more letters to the end |
| Validator.WebsiteSound | crawlers/scraper-stable/validator.py:45 | every case-insensitive match of the website pattern has that layout |
| Validator.WebsiteComplete | crawlers/scraper-stable/validator.py:45 | every string with that layout is matched |
| Validator.TrailingSlashInvalid | crawlers/scraper-stable/validator.py:45 | a URL ending in '/' is never a valid website |
| Validator.ValidateCompanyData | crawlers/scraper-stable/validator.py:49-60 | six results named phone, email, website, address, industry, services, in that order; the last three are whether the field is present and non-empty |
| Validator.QualityScore | crawlers/scraper-stable/validator.py:63-67 | the score is valid/total×100 (score × total = valid × 100), 0 for no results; hence within 0..100, 100 exactly when every result is valid and 0 exactly when none is |
| Validator.OneOfSixScore | crawlers/scraper-stable/validator.py:63-67 | one valid field of six scores exactly 100/6 |
| Validator.ScorePercent | crawlers/scraper-stable/validator.py:86 | the printed `{score:.0f}` is the integer within one half of the exact score, and at most 100 |
| Validator.RoundSixths | crawlers/scraper-stable/validator.py:86 | n sixths of 100 round to (100n + 3) / 6, never on a tie |
| Validator.NoDataHead | crawlers/scraper-stable/validator.py:85 | the summary opens with the no-data text exactly when there are no parts |
| Validator.NoDataSummaryIff | crawlers/scraper-stable/validator.py:70-86 | get_data_summary reports "無有效數據" exactly when phone, e-mail and website are all invalid and the address is empty |
| Checkpoint.Fresh | crawlers/scraper-stable/checkpoint.py:29-40 | a fresh record has consistent counters, nothing processed, empty success and failure lists, and resumes after the header row 1 |
| Checkpoint.UpdatedCounts | crawlers/scraper-stable/checkpoint.py:51-70 | an update counts the company once, appends it to exactly the success or the failure list (leaving the other list and counter alone), records the row, and keeps the start and update times |
| Checkpoint.UpdatedConsistent | crawlers/scraper-stable/checkpoint.py:51-70 | every update keeps processed = success + failed and the list lengths equal to their counters |
| Checkpoint.LastRowCanDecrease | crawlers/scraper-stable/checkpoint.py:53 | the row is overwritten, not maximised: processing an earlier row moves the resume point back |
| Checkpoint.SuccessRate | crawlers/scraper-stable/checkpoint.py:82-83 | the rate is success / processed * 100, and 0 when nothing is processed |
| Checkpoint.SuccessRateBounds | crawlers/scraper-stable/checkpoint.py:82-83 | with consistent counters the rate lies in 0..100 and is 100 exactly when something was processed and nothing failed |
| Checkpoint.CheckpointManager.constructor | crawlers/scraper-stable/checkpoint.py:14-27 | the stored record is loaded, or a fresh one when the file is missing or unreadable |
| Checkpoint.CheckpointManager.Save | crawlers/scraper-stable/checkpoint.py:42-49 | stamps the update time, changes nothing else, and writes the record out |
| Checkpoint.CheckpointManager.UpdateProgress | crawlers/scraper-stable/checkpoint.py:51-70 | the new record is the update of the old one, and consistency is preserved |
| Checkpoint.CheckpointManager.GetLastRow | crawlers/scraper-stable/checkpoint.py:72-74 | the stored row, or 1 when none is stored |
| Checkpoint.CheckpointManager.GetStatistics | crawlers/scraper-stable/checkpoint.py:76-84 | the three counters as stored; the rate is success/processed×100 when something was processed and 0 otherwise, within 0..100 for consistent counters |
| Checkpoint.CheckpointManager.Reset | crawlers/scraper-stable/checkpoint.py:86-89 | the record becomes a fresh one and is written out |
| Checkpoint.CheckpointManager.GetFailedCompanies | crawlers/scraper-stable/checkpoint.py:91-93 | the stored failure list itself, as long as the failure counter when the record is consistent |
| Checkpoint.CheckpointManager.ShouldSave | crawlers/scraper-stable/checkpoint.py:95-97 | true exactly when the interval divides the processed count (Python's modulo, a zero interval raises) |
| Checkpoint.DividesMod | crawlers/scraper-stable/checkpoint.py:97 | divisibility is exactly a zero remainder, for negative intervals too |
| Reporter.CalculateStats | crawlers/scraper-stable/reporter.py:34-67 | the counters as recorded, the success rate of the checkpoint, elapsed whole seconds split into minutes and 0..59 seconds, the estimate over 302 companies (0 when nothing is processed), and the resume row |
| Reporter.RemainingSign | crawlers/scraper-stable/reporter.py:49-56 | the remaining-time estimate is never negative up to 302 processed companies, and negative beyond them once time has passed |
| Reporter.SplitSeconds | crawlers/scraper-stable/reporter.py:44-46 | `int(t // 60)` minutes and `int(t % 60)` seconds together make the whole seconds of t, the seconds within 0..59 |
| Reporter.FormatReport | crawlers/scraper-stable/reporter.py:69-87 | the message line and a blank line come first exactly when a non-empty message is given, the estimate line appears exactly when it is positive, and the report ends with the current row |
| Reporter.ReportFinal | crawlers/scraper-stable/reporter.py:101-124 | the closing report opens with the finish line and a blank line, and carries the per-company average, over whole elapsed seconds, exactly when something was processed |
| Scraper.Fetch104Page | crawlers/scraper-stable/scraper.py:61-96 | the snapshot is kept exactly when the browser run exits with status 0 and prints at least 100 characters, and it is that output |
| Scraper.FirstAccepted | crawlers/scraper-stable/scraper.py:26-36 | the first attempt in the range whose run yields a snapshot, with every earlier one failing; none exactly when all fail |
| Scraper.ScrapeCompany | crawlers/scraper-stable/scraper.py:22-59 | data is returned exactly when some attempt of 1..retry_times yields a snapshot; it is the parse of the first such snapshot, after that many fetches; otherwise every attempt was made; one sleep separates consecutive attempts |
| Scraper.Planned | crawlers/scraper-stable/scraper.py:104-116 | one non-empty cell per truthy field, never more cells than fields |
| Scraper.PlannedSound | crawlers/scraper-stable/scraper.py:104-116 | every planned cell is a truthy field with its column |
| Scraper.PlannedComplete | crawlers/scraper-stable/scraper.py:104-116 | every truthy field is planned |
| Scraper.PlannedAscending | crawlers/scraper-stable/scraper.py:104-116 | planning keeps the columns in order |
| Scraper.PlanThenFixed | crawlers/scraper-stable/scraper.py:104-129 | the planned cells of columns up to H followed by three later fixed cells keep column order and hold exactly the truthy fields before the fixed cells |
| Scraper.WritePlanShape | crawlers/scraper-stable/scraper.py:102-129 | the update list is the truthy contact fields in columns B..H, in order, then status in I, the date in J and "Jacky" in K: between 3 and 9 cells |
| Scraper.StatusIff | crawlers/scraper-stable/scraper.py:119-120 | the status is "待聯繫" exactly when a phone or an e-mail was found, and "待查" otherwise |
| Scraper.UpdateGoogleSheets | crawlers/scraper-stable/scraper.py:131-154 | cells are written in order; the result is true exactly when every cell write succeeds, and on failure writing stopped at the first failing cell |
| CrawlerMain.EndRow | crawlers/scraper-stable/main.py:31 | in test mode (a non-zero limit) the range spans exactly `limit` rows; otherwise it ends at row 250 |
| CrawlerMain.Padded | crawlers/scraper-stable/main.py:48-50 | the row keeps its cells and is padded with empty cells up to five columns |
| CrawlerMain.ItemOfEligible | crawlers/scraper-stable/main.py:52-77 | a row yields an item only with a name, an http 104 link and a phone or e-mail to look up, and the item carries the row number |
| CrawlerMain.ItemNeeds | crawlers/scraper-stable/main.py:52-68 | a field is needed exactly when its trimmed cell is empty or "待查"; name and link are the trimmed cells |
| CrawlerMain.CollectShape | crawlers/scraper-stable/main.py:46-77 | every collected item satisfies the row test and lies in the fetched range, and rows strictly increase |
| CrawlerMain.CollectComplete | crawlers/scraper-stable/main.py:46-77 | every row that yields an item is collected |
| CrawlerMain.WorkListShape | crawlers/scraper-stable/main.py:46-80 | the company list holds eligible items from the fetched range, at most one per row, in row order |
| CrawlerMain.WorkListComplete | crawlers/scraper-stable/main.py:46-80 | each eligible row appears in the company list with its own row number |
| CrawlerMain.GetCompaniesFromSheets | crawlers/scraper-stable/main.py:24-84 | a failed fetch gives no companies; otherwise the loop returns the work list of the fetched rows |
| CrawlerMain.ResumeRow | crawlers/scraper-stable/main.py:111 | the start row is after the last processed row and never above row 2 of the header, i.e. at least 2 |
| CrawlerMain.StepCounts | crawlers/scraper-stable/main.py:129-181 | processing one company, whether it succeeds, fails or raises, counts it once, keeps the counters consistent, and adds a success only when it neither raised nor failed |
| CrawlerMain.StepsCounts | crawlers/scraper-stable/main.py:129-181 | n loop passes count n companies, keep the counters consistent and add exactly the successes among them |
| CrawlerMain.AfterItemsCounts | crawlers/scraper-stable/main.py:129-181 | the same for the checkpoint states the loop goes through |
| CrawlerMain.ProcessOne | crawlers/scraper-stable/main.py:130-181 | one loop pass updates the checkpoint as the specification of a pass says (scrape, sheet update, progress, periodic save) |
| CrawlerMain.ProcessAll | crawlers/scraper-stable/main.py:129-185 | the loop processes every company unless interrupted, stops at the interruption, and saves the checkpoint either way |
| CrawlerMain.RunCrawler | crawlers/scraper-stable/main.py:86-192 | main loads or resets the checkpoint, fetches the range from the resume row, stops with the checkpoint untouched when there are no companies, otherwise processes them and saves; the failure list is shown only after an uninterrupted run |
| StableTool.PhoneSearchIff | tools/scraper-stable/main.py:59-60 | the search for 0\d{1,2}-?\d{6,8} succeeds exactly when the string holds a run of 0, one or two digits, an optional '-', and six digits |
| StableTool.PhoneSearchSound | tools/scraper-stable/main.py:59-60 | every successful search has such a run |
| StableTool.PhoneSearchComplete | tools/scraper-stable/main.py:59-60 | every such run is found |
| StableTool.ValidatePhoneIff | tools/scraper-stable/main.py:56-60 | validate_phone is true exactly for a present string that holds such a run (so never for "" or "待查") |
| StableTool.LandlineValidForPipeline | crawlers/scraper-stable/validator.py:20 | the hyphenated landline layout 02-1234-5678 passes the crawler's own validator |
| StableTool.LandlineNoPhoneRun | tools/scraper-stable/main.py:59 | 02-1234-5678 holds no run of six digits after the area code |
| StableTool.HyphenatedLandlineRejected | tools/scraper-stable/main.py:56-60 | the landline layout that the crawler writes and accepts is rejected by this tool's validate_phone |
| StableTool.ValidateEmailIff | tools/scraper-stable/main.py:62-66 | validate_email is true exactly for a present string local@domain.tld taking up the whole string, the same as the crawler's validate_email |
| StableTool.IdAfter | tools/scraper-stable/main.py:86 | the captured group is a non-empty run of lower-case letters and digits |
| StableTool.CompanyId | tools/scraper-stable/main.py:86-88 | the company id captured from a line is non-empty, of lower-case letters and digits |
| StableTool.UrlOfLine | tools/scraper-stable/main.py:85-89 | a line yields a URL exactly when it has "/url:", "/company/", no "/search" and a matching link; the URL is the company page followed by the id |
| StableTool.UrlInLine | tools/scraper-stable/main.py:85-89 | the URL returned stands in the line itself |
| StableTool.CompanyIdFound | tools/scraper-stable/main.py:86 | "/url:", spaces, the company page and one id character make the link pattern match |
| StableTool.FirstFrom | tools/scraper-stable/main.py:83-91 | the first value yielded by a line from k on, every earlier line yielding none; none exactly when no line yields one |
| StableTool.ScanCompanyUrl | tools/scraper-stable/main.py:82-91 | the line loop returns at the first line that yields a URL |
| StableTool.ParagraphValueIff | tools/scraper-stable/main.py:117 | on a line without newlines, a value is read exactly when "paragraph:" occurs before its last character |
| StableTool.ScanPhoneIsLast | tools/scraper-stable/main.py:115-119 | the phone is the value under the last phone heading that has one, and absent when there is none |
| StableTool.ScanEmailIsLast | tools/scraper-stable/main.py:120-123 | the e-mail is the value under the last e-mail heading that is not a phone heading, and absent when there is none |
| StableTool.ScanContact | tools/scraper-stable/main.py:112-125 | the heading loop computes the contact of the snapshot lines |
| StableTool.AttemptsUsed | tools/scraper-stable/main.py:93-100 | at least one attempt is made; every attempt before the last raised, and the last succeeded or retries were exhausted |
| StableTool.RetriedIsLastAttempt | tools/scraper-stable/main.py:68-100 | the retried result is the scan of the last attempt's snapshot, or the give-up value when that attempt raised too |
| StableTool.Search104Company | tools/scraper-stable/main.py:68-100 | search_104_company retries a raising attempt with retry + 1 up to max_retries, then gives up with None |
| StableTool.ExtractContact | tools/scraper-stable/main.py:102-134 | extract_contact retries the same way and gives up with no phone and no e-mail |
| StableTool.RetriedKeeps | tools/scraper-stable/main.py:93-100 | a property of every scan result and of the give-up value holds of the retried result |
| StableTool.FirstFromKeeps | tools/scraper-stable/main.py:83-91 | a property of None and of every line's result holds of the first result |
| StableTool.RetriedNoneIff | tools/scraper-stable/main.py:68-100 | a retried search gives nothing exactly when every attempt made raised or found nothing |
| StableTool.SearchUrlNonEmpty | tools/scraper-stable/main.py:169-172 | a found page URL is never empty, so the truthiness test only rules out None |
| StableTool.PhoneToWrite | tools/scraper-stable/main.py:180 | the scraped phone when it validates, else the current cell (its "待查" branch also keeps the cell); a changed value holds a phone run |
| StableTool.EmailToWrite | tools/scraper-stable/main.py:181 | the scraped e-mail when it validates, else the current cell; a changed value is a whole e-mail address |
| StableTool.ProcessCompany | tools/scraper-stable/main.py:160-190 | search, extract and write: the cells written are those chosen from a found page, and the result is true exactly when a page was found and the sheet update went through |
| StableTool.CellsSource | tools/scraper-stable/main.py:160-190 | nothing is written exactly when no search attempt found a page; written cells are current values or validated scraped ones |
| StableTool.FreshProgress | tools/scraper-stable/main.py:27-42 | a first run starts with balanced counters, no rows, nothing processed and no update time |
| StableTool.PauseMeansFailureRate | tools/scraper-stable/main.py:225-233 | with balanced counters and at least five rows processed, the pause fires exactly when more than the configured share of them failed |
| StableTool.ScaleKeepsOrder | tools/scraper-stable/main.py:230 | multiplying by a positive count keeps the order of the rates |
| StableTool.StepEffect | tools/scraper-stable/main.py:196-246 | a processed row is skipped unchanged; a raising row is failed but stays unprocessed and breaks the balance; otherwise the row is processed once and counted as success or failure, and balance is kept |
| StableTool.RunKeepsBalance | tools/scraper-stable/main.py:196-246 | with no exception escaping and non-zero intervals the counters stay balanced over a run |
| StableTool.RunProcessesOnce | tools/scraper-stable/main.py:199-210 | the processed list only grows, and never repeats a row when it had no repeats |
| StableTool.StableScraper.constructor | tools/scraper-stable/main.py:17-42 | progress.json is loaded, or a fresh record is started |
| StableTool.StableScraper.SaveProgress | tools/scraper-stable/main.py:44-47 | stamps last_updated, changes nothing else, and writes the record out |
| StableTool.StableScraper.RecordOutcome | tools/scraper-stable/main.py:208-217 | the row is recorded as processed and as a success or failure; the file is untouched |
| StableTool.StableScraper.RecordError | tools/scraper-stable/main.py:243-246 | the except branch fails the row without marking it processed |
| StableTool.StableScraper.SettleAt | tools/scraper-stable/main.py:219-237 | the periodic save, report and auto-pause after a recorded row |
| StableTool.StableScraper.ProcessAt | tools/scraper-stable/main.py:204-246 | one loop pass as the step specifies; an interrupt saves before exiting |
| StableTool.StableScraper.Run | tools/scraper-stable/main.py:192-256 | the loop runs as specified, then saves (an interrupt has already saved and exits) |
| StableTool.Limited | tools/scraper-stable/main.py:262-263 | `companies[:limit]`: a prefix of min(limit, n) companies, and a negative limit drops that many from the end |
| Scraper104.JobUrl | crawlers/scraper-104.py:58 | an href starting with "http" is the job URL as it is; any other is prefixed with the 104 site |
| Scraper104.SearchJobs | crawlers/scraper-104.py:18-96 | search_104_jobs returns the jobs that the specification of the scan yields with the script's title pattern (no jobs when the snapshot does not parse) |
| Scraper104.ScanRefs | crawlers/scraper-104.py:42-91 | the ref loop with its early break and its final append computes exactly the specified jobs |
| Scraper104.StepFillsOneField | crawlers/scraper-104.py:61-84 | a link that is not a title fills at most one still-missing field of the open job, overwrites none, and closes no job |
| Scraper104.StepCloses | crawlers/scraper-104.py:53-59 | a step closes at most one job, only when a title arrives while a job is open, and keeps the jobs closed before |
| Scraper104.StepWellFormed | crawlers/scraper-104.py:45-84 | every step keeps each job well formed: a title matching the pattern, its URL, and only fields that passed their tests |
| Scraper104.RunWellFormed | crawlers/scraper-104.py:45-87 | the whole loop keeps every job well formed |
| Scraper104.RunBounded | crawlers/scraper-104.py:86-87 | starting below max_results closed jobs, the loop closes at most max_results |
| Scraper104.RunNonPositive | crawlers/scraper-104.py:86-91 | a non-positive max_results closes no job |
| Scraper104.JobsBounded | crawlers/scraper-104.py:86-91 | the result never exceeds a non-negative max_results, is empty for a non-positive one, and holds only well-formed jobs |
| Scraper104.RunIgnoresNonLinks | crawlers/scraper-104.py:50-51 | refs whose role is not link make no difference |
| Scraper104.FormatJobDefaults | crawlers/scraper-104.py:106-113 | a missing company, location or salary reads "N/A"; present fields, the title and the URL are copied |
| Scraper104.FormatJobs | crawlers/scraper-104.py:105-113 | one formatted row per job, in order |
| CompanyContact.CompanyIdFromUrl | skills/headhunter/scripts/scraper-company-contact.py:18-25 | an id is found exactly when the pattern matches; it is the group after "/job/" of the first match, a non-empty run of lower-case letters and digits |
| CompanyContact.CompanyIdAfterJob | skills/headhunter/scripts/scraper-company-contact.py:22-24 | a found id stands right after "/job/" in the URL |
| CompanyContact.CompanyIdFound | skills/headhunter/scripts/scraper-company-contact.py:22-24 | "/job/" followed by a lower-case letter or digit anywhere yields an id |
| CompanyContact.PhoneOf | skills/headhunter/scripts/scraper-company-contact.py:60-62 | a phone is found exactly when the pattern matches; it is the text of the first match (no match starts earlier), a piece of the text at least two characters long |
| CompanyContact.EmailOf | skills/headhunter/scripts/scraper-company-contact.py:66-68 | an e-mail is found exactly when the pattern matches; it is the text of the first match (no match starts earlier), a piece of the text holding an "@" |
| CompanyContact.RegexesNonBlank | skills/headhunter/scripts/scraper-company-contact.py:60-68 | neither regular expression ever reports an empty text |
| CompanyContact.CompanyLinkOf | skills/headhunter/scripts/scraper-company-contact.py:71-72 | a link with "/company/" gives its URL, made absolute on the 104 site unless it already starts with "http" |
| CompanyContact.WebsiteOf | skills/headhunter/scripts/scraper-company-contact.py:75-77 | a labelled, non-empty, non-relative link gives the website, with "https://" added unless it starts with "http" |
| CompanyContact.ScanCompanyPage | skills/headhunter/scripts/scraper-company-contact.py:27-79 | an unparseable snapshot gives None, otherwise the scan of its refs |
| CompanyContact.PhoneNeverOverwritten | skills/headhunter/scripts/scraper-company-contact.py:59-62 | once a phone is found no later ref replaces it |
| CompanyContact.EmailNeverOverwritten | skills/headhunter/scripts/scraper-company-contact.py:65-68 | once an e-mail is found no later ref replaces it |
| CompanyContact.ScanPhoneFirst | skills/headhunter/scripts/scraper-company-contact.py:53-62 | the phone is that of the first ref whose name holds one |
| CompanyContact.ScanEmailFirst | skills/headhunter/scripts/scraper-company-contact.py:53-68 | the e-mail is that of the first ref whose name holds one |
| CompanyContact.ScanCompanyUrlLast | skills/headhunter/scripts/scraper-company-contact.py:70-72 | company_url comes from the last company link |
| CompanyContact.ScanWebsiteLast | skills/headhunter/scripts/scraper-company-contact.py:74-77 | the website comes from the last labelled link |
| CompanyContact.StripTrailing | skills/headhunter/scripts/scraper-company-contact.py:91-94 | rstrip removes exactly the trailing run of the character |
| CompanyContact.ContactUrls | skills/headhunter/scripts/scraper-company-contact.py:89-95 | the site itself, then the four contact paths under the slash-stripped site |
| CompanyContact.ContactUrlsDistinct | skills/headhunter/scripts/scraper-company-contact.py:89-95 | the five pages tried are five different URLs |
| CompanyContact.FirstContact | skills/headhunter/scripts/scraper-company-contact.py:97-119 | the contact of the first page that has a phone or an e-mail, or nothing when none has |
| CompanyContact.CrawlWebsite | skills/headhunter/scripts/scraper-company-contact.py:81-119 | the loop returns the first page's contact, or nothing for an empty site |
| CompanyContact.OrPending | skills/headhunter/scripts/scraper-company-contact.py:153-155 | a truthy value, else "待查" |
| CompanyContact.ContactRecord | skills/headhunter/scripts/scraper-company-contact.py:126-161 | the input record with phone, email and website always set non-empty and every other input field kept |
| CompanyContact.ScrapeCompanyContact | skills/headhunter/scripts/scraper-company-contact.py:126-161 | the method returns the merged record the specification defines |
| CompanyContact.UnparseablePagePending | skills/headhunter/scripts/scraper-company-contact.py:136-138 | an unparseable job page marks the three contact fields pending and adds nothing else |
| CompanyContact.ParsedPageStatus | skills/headhunter/scripts/scraper-company-contact.py:151-158 | a parsed page adds the greeting and the waiting status |
| CompanyContact.PageContactWins | skills/headhunter/scripts/scraper-company-contact.py:141-155 | a phone or e-mail from the job page is the one reported; the website is the page's |
| CompanyContact.WebsiteFillsMissing | skills/headhunter/scripts/scraper-company-contact.py:141-148 | a missing phone or e-mail is taken from the crawl of a known website |
| CompanyContact.ScrapeAll | skills/headhunter/scripts/scraper-company-contact.py:177-181 | one detailed record per input company, in order |
| GithubTalent.Query | skills/headhunter/scripts/github-talent-search.py:33-39 | the query starts with the location clause |
| GithubTalent.QueryClauses | skills/headhunter/scripts/github-talent-search.py:33-39 | each optional clause is present when its value is truthy, and the bare location query is all that remains when none is |
| GithubTalent.PiecesOccur | skills/headhunter/scripts/github-talent-search.py:35-39 | each appended clause is a piece of the whole query |
| GithubTalent.SearchUrl | skills/headhunter/scripts/github-talent-search.py:41 | the URL is the search prefix, the query with each space turned into '+', and the users suffix |
| GithubTalent.SearchUrlHasNoSpace | skills/headhunter/scripts/github-talent-search.py:41 | the search URL holds no space |
| GithubTalent.FramedNoSpace | skills/headhunter/scripts/github-talent-search.py:41 | a space-free prefix, middle and suffix make a space-free URL |
| GithubTalent.UserCharIn | skills/headhunter/scripts/github-talent-search.py:66 | the class [a-zA-Z0-9_-] admits exactly the user-name characters |
| GithubTalent.UsernamePatternIff | skills/headhunter/scripts/github-talent-search.py:66 | ^[a-zA-Z0-9_-]+$ matches exactly a non-empty run of user-name characters, optionally followed by one final newline |
| GithubTalent.ScanUsernames | skills/headhunter/scripts/github-talent-search.py:50-79 | the ref loop returns the users the specification picks, none when the snapshot cannot be parsed |
| GithubTalent.SearchGithubUsers | skills/headhunter/scripts/github-talent-search.py:19-79 | the users picked from the snapshot of the search URL built from the criteria |
| GithubTalent.PickFromRefs | skills/headhunter/scripts/github-talent-search.py:59-73 | every listed user is a user-name link of the snapshot, under its own ref id |
| GithubTalent.PickDistinct | skills/headhunter/scripts/github-talent-search.py:72-73 | no user name is listed twice |
| GithubTalent.PickBounded | skills/headhunter/scripts/github-talent-search.py:75-76 | the list grows by at most one per ref and stops at max_results |
| GithubTalent.PickComplete | skills/headhunter/scripts/github-talent-search.py:59-76 | a list that ends below max_results holds every user-name link of the snapshot |
| GithubTalent.UsernamesSound | skills/headhunter/scripts/github-talent-search.py:50-79 | distinct user-name links, at most max_results of them (at most one when max_results is not positive) |
| GithubTalent.NavigationIsNotUser | skills/headhunter/scripts/github-talent-search.py:64-71 | "Follow", "Page 2" and "Python" links are never taken for users |
| GithubTalent.CommaGroups | skills/headhunter/scripts/github-talent-search.py:132 | (?:,\d+)* consumes only digits and commas |
| GithubTalent.Fraction | skills/headhunter/scripts/github-talent-search.py:132 | (?:\.\d+)? consumes only digits and a dot |
| GithubTalent.KiloSuffix | skills/headhunter/scripts/github-talent-search.py:132 | [kK]? consumes only a k |
| GithubTalent.FollowersOf | skills/headhunter/scripts/github-talent-search.py:132-134 | the count exists exactly when the name holds a digit, starts with a digit, is a piece of the name and holds only count characters |
| GithubTalent.ClassifyFields | skills/headhunter/scripts/github-talent-search.py:123-134 | one ref name sets at most the one field its branch chooses (email, then http links as twitter or website, then followers) and nothing else |
| GithubTalent.ClassifyAllLast | skills/headhunter/scripts/github-talent-search.py:119-134 | each field holds what the last qualifying ref name gives; the rest of the profile is untouched |
| GithubTalent.BoxComIsTwitter | skills/headhunter/scripts/github-talent-search.py:126-127 | "https://box.com" holds "x.com" and is filed as twitter |
| GithubTalent.QuotedFacts | skills/headhunter/scripts/github-talent-search.py:141 | a capture of [^"]+ after a quote is non-empty, quote-free and stands after a quote in the line |
| GithubTalent.QuotedOf | skills/headhunter/scripts/github-talent-search.py:141-143 | the first quoted text of a line, present exactly when the pattern matches |
| GithubTalent.LocationOf | skills/headhunter/scripts/github-talent-search.py:139-143 | a line mentioning "location" in any case gives exactly its first quoted text (QuotedOf); any other line gives none |
| GithubTalent.ProfileOf | skills/headhunter/scripts/github-talent-search.py:100-112 | the profile has the user name and its URL; name, bio, company and repos are never filled |
| GithubTalent.GetUserProfile | skills/headhunter/scripts/github-talent-search.py:81-148 | the loops return the profile the specification defines: the classified ref names, then the first location |
| GithubTalent.SearchAndExtract | skills/headhunter/scripts/github-talent-search.py:150-187 | one outcome per user found, in order: the profile when details are asked for, else the name and URL |
| Dedup.Simplified | scripts/dedup_engine.py:51-58 | a surname character is replaced only by its simplified form, which is lower-case, not a space and not itself traditional |
| Dedup.NormalizeName | scripts/dedup_engine.py:39-60 | the result is the name with its whitespace removed and every other character lower-cased and mapped from traditional to simplified; "" stays "", and no whitespace, upper-case letter or traditional surname character is left |
| Dedup.NormalizedChars | scripts/dedup_engine.py:45-58 | lower-casing, removing whitespace and simplifying leaves only normalised characters |
| Dedup.SimplifiedChar | scripts/dedup_engine.py:57-58 | simplifying keeps a character lower-case and non-space and cannot be applied twice to effect |
| Dedup.NormalizeNameIdempotent | scripts/dedup_engine.py:39-60 | normalising an already normalised name changes nothing |
| Dedup.RemoveEach | scripts/dedup_engine.py:77-78 | removing the suffixes one after another only deletes characters |
| Dedup.NormalizeCompany | scripts/dedup_engine.py:62-83 | "" stays ""; otherwise no whitespace and no upper-case letter is left |
| Dedup.GenerateFingerprint | scripts/dedup_engine.py:85-108 | a non-empty e-mail decides the fingerprint (its hash); a plain fingerprint always holds the "_" separator; without e-mail, name and company the LinkedIn URL is hashed if present, else the GitHub URL, else "_" is returned; a URL hash occurs only in that case |
| Dedup.CheckedFingerprint | scripts/dedup_engine.py:85-106 | generate_fingerprint raises AttributeError, naming the field, in the order it reads them: a truthy name or company that is not text, an e-mail field that is present but not text, and, only when the "_" fallback is reached, a truthy LinkedIn URL that is not text or (with no LinkedIn URL) such a GitHub URL; otherwise it is GenerateFingerprint, the hash of the lower-cased, stripped e-mail when that is non-empty |
| Dedup.FingerprintByName | scripts/dedup_engine.py:95-108 | without e-mails, two candidates with a name or company share a fingerprint exactly when their normalised "name_company" strings agree |
| Dedup.United | scripts/dedup_engine.py:130-140 | skills and platforms become the unions of both records' lists; every other field is c1's |
| Dedup.Filled | scripts/dedup_engine.py:142-145 | truthy fields of the base stay; fields the base lacks or holds falsy take c2's value; nothing else changes |
| Dedup.FilledKeepsItems | scripts/dedup_engine.py:135-145 | filling in missing fields never loses the merged skill or platform union |
| Dedup.MergeData | scripts/dedup_engine.py:128-154 | the merged record has every key of both, the unions of skills and platforms, c1's truthy fields and every c1 field c2 lacks, c2's values where c1 had none or a falsy one, the larger years of experience when both give a number, and the one present when only one record gives it |
| Dedup.MergeKeepsTruthy | scripts/dedup_engine.py:128-154 | a field truthy in either input stays truthy in the merged record |
| Dedup.TableByKeys | scripts/dedup_engine.py:112-126 | the dictionary's keys are the distinct fingerprints in first-occurrence order, and exactly the ones it holds |
| Dedup.TableByMarked | scripts/dedup_engine.py:117-124 | each entry keeps the mark its first candidate gave it when merging preserves marks |
| Dedup.MergeKeepsMark | scripts/dedup_engine.py:119-121 | merging into an entry keeps its mark |
| Dedup.DistinctKeysMembers | scripts/dedup_engine.py:112-126 | a fingerprint is among the dictionary keys exactly when some candidate has it |
| Dedup.TableByShape | scripts/dedup_engine.py:112-126 | the dictionary is well formed and keyed by the distinct fingerprints in first-occurrence order |
| Dedup.ValuesMarked | scripts/dedup_engine.py:126 | each listed value carries the mark of its key |
| Dedup.MergeKeepsTag | scripts/dedup_engine.py:119-123 | merging another candidate into a record keeps its fingerprint field |
| Dedup.MergedWellFormed | scripts/dedup_engine.py:110-126 | every entry is tagged with its own fingerprint and the keys are the distinct fingerprints |
| Dedup.MergedShape | scripts/dedup_engine.py:110-126 | one merged record per distinct fingerprint, in first-occurrence order, each tagged with it, never more than the input |
| Dedup.TableByNext | scripts/dedup_engine.py:114-124 | one more candidate inserts into (or merges with) the dictionary built so far |
| Dedup.FirstIffAbsent | scripts/dedup_engine.py:117-123 | a candidate reaches the `else` branch exactly when no earlier candidate has its fingerprint |
| Dedup.MergeCandidates | scripts/dedup_engine.py:110-126 | the loop returns the merged list the dictionary specification defines; in the caller's list, the dict of each first occurrence of a fingerprint gains that fingerprint in its 'fingerprint' entry (line 123) and every other dict is unchanged |
| Dedup.MergedStoredFingerprint | scripts/dedup_engine.py:123-126 | every merged record carries the fingerprint it was merged under, so filtering or marking merged records reads the merge's own fingerprints |
| Dedup.RecommendedIff | scripts/dedup_engine.py:158-165 | a fingerprint is recommended exactly when some record admitted by the job filter carries it |
| Dedup.KeepUnlistedExact | scripts/dedup_engine.py:168-175 | exactly the candidates whose fingerprint is recommended are dropped; the rest keep their order |
| Dedup.KeepUnlistedAppend | scripts/dedup_engine.py:169-173 | one more candidate is appended exactly when it is not recommended |
| Dedup.CountComplement | scripts/dedup_engine.py:169-173 | kept and dropped candidates together are all of them |
| Dedup.FirstMatch | scripts/dedup_engine.py:184-187 | the first record with the fingerprint and job, no earlier one matching |
| Dedup.WithStatusEffect | scripts/dedup_engine.py:207-215 | only the first matching record changes, its status becomes the new one exactly when there is a match, identities are kept and unique pairs stay unique |
| Dedup.MarkOneEffect | scripts/dedup_engine.py:179-203 | after marking, the candidate's pair has the status, at most one record is added, existing identities and statuses of other pairs stay, pairs stay unique |
| Dedup.MarkAllByEffect | scripts/dedup_engine.py:177-203 | after marking a list every candidate's pair has the status, at most one record per candidate is added and pairs stay unique |
| Dedup.MarkAllEffect | scripts/dedup_engine.py:177-205 | the same for candidates keyed by their stored or generated fingerprint |
| Dedup.StatsBound | scripts/dedup_engine.py:217-235 | contacted, skipped and pending together never exceed total, which counts every record for the filter once (twice for a status literally "total") |
| Dedup.DedupEngine.constructor | scripts/dedup_engine.py:16-32 | the history is the stored file, or empty when there is none |
| Dedup.DedupEngine.FilterAlreadyRecommended | scripts/dedup_engine.py:156-175 | returns the candidates whose fingerprint is not recommended for the job, as specified by KeepUnlisted and Recommended |
| Dedup.DedupEngine.RecommendedFor | scripts/dedup_engine.py:158-165 | the loop collects exactly the recommended fingerprints |
| Dedup.DedupEngine.MarkAsRecommended | scripts/dedup_engine.py:177-205 | the history becomes every candidate marked in turn, and the file holds it |
| Dedup.DedupEngine.UpdateStatus | scripts/dedup_engine.py:207-215 | the history becomes the first match updated, and the file holds it |
| Dedup.DedupEngine.RecommendationStats | scripts/dedup_engine.py:217-235 | the loop returns the tallies StatsOf specifies |
| AiMatcher.NormalizeSkill | scripts/ai_matcher_v2.py:30-47 | a name outside the synonym table comes back lower-cased and stripped; a listed one is replaced by a canonical name the table leaves alone |
| AiMatcher.SynonymCanonical | scripts/ai_matcher_v2.py:34-46 | every synonym maps to a name that is not itself a key of the table |
| AiMatcher.NormalizeSkillUnlisted | scripts/ai_matcher_v2.py:30-47 | an unlisted name comes back lower-cased and stripped, and normalising it again changes nothing |
| AiMatcher.LowerStripFixed | scripts/ai_matcher_v2.py:32 | lower-casing and stripping is idempotent |
| AiMatcher.CanonicalFixed | scripts/ai_matcher_v2.py:34-47 | a canonical name normalises to itself |
| AiMatcher.NormalizeSkillIdempotent | scripts/ai_matcher_v2.py:30-47 | normalising a normalised skill changes nothing |
| AiMatcher.NormalizeAllIdempotent | scripts/ai_matcher_v2.py:55-57 | normalising a normalised list changes nothing |
| AiMatcher.MatchedNormalized | scripts/ai_matcher_v2.py:55-64 | matching lists that were already normalised counts the same as matching the raw lists |
| AiMatcher.Matched | scripts/ai_matcher_v2.py:60-64 | the count of JD entries (with repeats) found among the candidate's skills never exceeds the list |
| AiMatcher.Ratio | scripts/ai_matcher_v2.py:61-65 | the match ratio lies in 0..1, is 0 for an empty list, and is 1 exactly when a non-empty list is fully matched |
| AiMatcher.UnitRatio | scripts/ai_matcher_v2.py:61 | a part over a positive whole lies in 0..1 and is 1 only for the whole |
| AiMatcher.SkillScore | scripts/ai_matcher_v2.py:49-81 | the skill score lies in 0..40 |
| AiMatcher.SkillScoreFull | scripts/ai_matcher_v2.py:68-70 | the cap at 40 never bites: the score is 35 × required ratio + 5 × preferred ratio, and 40 exactly when both lists are non-empty and fully matched |
| AiMatcher.ExperienceScoreOrder | scripts/ai_matcher_v2.py:83-111 | the score lies in 5..30, is 30 exactly for an exact fit, at least 25 exactly when the requirement is met, and a larger shortfall never scores more |
| AiMatcher.IndustryScoreMeaning | scripts/ai_matcher_v2.py:113-134 | at least 15 exactly when the industries match (ignoring case), positive exactly when industry or role matches, 20 exactly when both do |
| AiMatcher.BonusScore | scripts/ai_matcher_v2.py:136-163 | the bonus lies in 0..10 |
| AiMatcher.BonusScoreSum | scripts/ai_matcher_v2.py:136-163 | the cap never bites: the bonus is GitHub 5 + tier A 3 or B 2 + community 2, and 10 exactly for an active tier-A community member |
| AiMatcher.CheckRedFlags | scripts/ai_matcher_v2.py:165-190 | each flag appears once exactly when its condition holds (three or more job changes, a stored ratio below 0.3 with 1.0 when none, a location differing ignoring case without remote work), and the penalty is the sum of the flags' penalties, within -45..0 |
| AiMatcher.FlaggedFacts | scripts/ai_matcher_v2.py:167-190 | the flag list has no repeats, at most three entries, each present exactly when raised, and penalties of -15, -20 and -10 per flag |
| AiMatcher.SumPenaltiesAppend | scripts/ai_matcher_v2.py:173-187 | penalties of two flag lists add up |
| AiMatcher.Round2Below | scripts/ai_matcher_v2.py:75 | the ratio rounded to two places falls below 0.3 exactly when the ratio is below 0.295 |
| AiMatcher.Clamped | scripts/ai_matcher_v2.py:224 | the clamped total lies in 0..100 and equals the sum when that is already in range |
| AiMatcher.Bounded | scripts/ai_matcher_v2.py:223-238 | the total is clamped to 0..100 and banded P0/P1/P2/REJECT by 80, 60 and 40 |
| AiMatcher.BandCuts | scripts/ai_matcher_v2.py:227-238 | P0 exactly from 80, REJECT exactly below 40 |
| AiMatcher.MatchTotal | scripts/ai_matcher_v2.py:192-266 | the total is the sum of the parts held to 0..100, the sum never exceeds 100 so only the lower clamp can bite, and the confidence is its band |
| AiMatcher.PartsAtMost100 | scripts/ai_matcher_v2.py:223 | parts within their maxima and a non-positive penalty sum to at most 100 |
| AiMatcher.NoRequiredSkillsMismatch | scripts/ai_matcher_v2.py:176-180 | a JD without required skills stores the ratio 0, so every candidate is flagged skill_mismatch |
| AiMatcher.MatchMismatchThreshold | scripts/ai_matcher_v2.py:192-200 | in a match the skill-mismatch flag is raised exactly when the unrounded required ratio is below 0.295 |
| AiMatcher.AssembleFields | scripts/ai_matcher_v2.py:240-264 | the candidate id is the profile's id, else its name, else "unknown"; the name or ""; the total lies in [0, 100] and carries its band; the JD's id and title and every part are copied unchanged |
| AiMatcher.CandidateRecord.constructor | scripts/ai_matcher_v2.py:284-295 | a candidate record starts without a stored ratio |
| AiMatcher.Match | scripts/ai_matcher_v2.py:192-266 | match writes the rounded required ratio into the caller's record and returns the specified result |
| BatchMatch.SkillsIn | skills/headhunter/scripts/batch-match.py:17-54 | the skills found are exactly the listed skills whose upper-cased name occurs in the upper-cased text, each once |
| BatchMatch.CollectMentioned | skills/headhunter/scripts/batch-match.py:49-52 | the loop keeps the names the text mentions, in list order |
| BatchMatch.ExtractSkills | skills/headhunter/scripts/batch-match.py:17-54 | extract_skills computes the specified skill set |
| BatchMatch.GoFoundInGoogle | skills/headhunter/scripts/batch-match.py:49-52 | containment is substring search, so "Go" is found in "Google" |
| BatchMatch.CapturedNumberIsInt | skills/headhunter/scripts/batch-match.py:69-71 | for every hit findall reports, the number is int() of its non-empty digit group |
| BatchMatch.YearNumbersAreInts | skills/headhunter/scripts/batch-match.py:61-71 | the same for each of the three year patterns |
| BatchMatch.KeepAllIsMax | skills/headhunter/scripts/batch-match.py:67-73 | from 0, the running maximum is the largest number below 50, or 0 when there is none |
| BatchMatch.KeepAllAppend | skills/headhunter/scripts/batch-match.py:68-73 | running the maximum over two lists is running it over the first and continuing over the second |
| BatchMatch.ExperienceYearsIsMax | skills/headhunter/scripts/batch-match.py:56-75 | the years are the largest number below 50 captured by any of the three patterns, or 0 |
| BatchMatch.KeepMatches | skills/headhunter/scripts/batch-match.py:70-73 | the inner loop continues the running maximum over one pattern's matches |
| BatchMatch.KeepAcross | skills/headhunter/scripts/batch-match.py:67-75 | the outer loop runs the maximum over every pattern in turn |
| BatchMatch.ExtractExperienceYears | skills/headhunter/scripts/batch-match.py:56-75 | extract_experience_years computes the specified years |
| BatchMatch.SubsetSize | skills/headhunter/scripts/batch-match.py:85-86 | the common set is no larger than either set it is cut from |
| BatchMatch.UppersSize | skills/headhunter/scripts/batch-match.py:85 | upper-casing a list gives a set no larger than the list |
| BatchMatch.Present | skills/headhunter/scripts/batch-match.py:89-91 | the ticked skills are exactly the JD skills the resume has, ignoring case |
| BatchMatch.Absent | skills/headhunter/scripts/batch-match.py:89-93 | the gaps are exactly the JD skills the resume lacks |
| BatchMatch.SkillsPartition | skills/headhunter/scripts/batch-match.py:89-93 | every JD skill lands in exactly one of the two lists, one entry per JD skill |
| BatchMatch.SkillPart | skills/headhunter/scripts/batch-match.py:84-95 | the skill part lies in 0..70 (35 when the JD names no skill) |
| BatchMatch.ScaledShare | skills/headhunter/scripts/batch-match.py:86-87 | a share of a positive whole scaled by k lies in 0..k |
| BatchMatch.ScoreBounds | skills/headhunter/scripts/batch-match.py:77-111 | the score is the truncated total, within 10..100, and there is one item per JD skill plus one for a stated experience requirement |
| BatchMatch.FullSkillMarks | skills/headhunter/scripts/batch-match.py:84-93 | the full 70 for skills means no JD skill is missing |
| BatchMatch.SplitStep | skills/headhunter/scripts/batch-match.py:89-93 | one more JD skill goes to the end of exactly one list |
| BatchMatch.SkillItems | skills/headhunter/scripts/batch-match.py:89-93 | the skill loop produces a tick for each JD skill the resume has and a gap line for each it lacks, in JD order |
| BatchMatch.ExperienceLine | skills/headhunter/scripts/batch-match.py:98-109 | the experience branch adds 30, 20, 10 or 15 points and at most one item |
| BatchMatch.CalculateMatchScore | skills/headhunter/scripts/batch-match.py:77-111 | calculate_match_score returns the specified score and item lists |
| BatchMatch.BucketsPartition | skills/headhunter/scripts/batch-match.py:228-230 | the high, mid and low buckets of the summary coincide with the status of the score |
| BatchMatch.MatchResumeToJd | skills/headhunter/scripts/batch-match.py:113-145 | the report holds both skill sets, both years, the score, its status and the items |
| BatchMatch.Reports | skills/headhunter/scripts/batch-match.py:151-155 | one report per resume, in input order, labelled with the given id and name or Resume-i / 候選人 i |
| BatchMatch.MapIndexedStep | skills/headhunter/scripts/batch-match.py:151-155 | one more input adds exactly its own result, computed with its index |
| BatchMatch.RankOrdered | skills/headhunter/scripts/batch-match.py:158 | the sort is a permutation with the scores non-increasing |
| BatchMatch.RankStable | skills/headhunter/scripts/batch-match.py:158 | reports with equal scores keep their order |
| BatchMatch.BatchMatchResumes | skills/headhunter/scripts/batch-match.py:147-160 | batch_match returns the labelled reports sorted by score, highest first |
| MultiChannel.AnyOccurs | scripts/multi-channel-sourcing.py:42-44 | true exactly when one of the words occurs in the text |
| MultiChannel.IsTechPositionIff | scripts/multi-channel-sourcing.py:32-51 | a title is technical exactly when its lower-cased form contains a tech keyword or a lower-cased listed position |
| MultiChannel.ChannelCount | scripts/multi-channel-sourcing.py:59 | the truncated share of the total, lifted to 1 when it is below 1 |
| MultiChannel.CountsOf | scripts/multi-channel-sourcing.py:57-61 | one count per channel of the strategy, each at least 1 |
| MultiChannel.CalculateChannelCounts | scripts/multi-channel-sourcing.py:53-61 | the loop returns the counts of the chosen strategy |
| MultiChannel.TechCounts | scripts/multi-channel-sourcing.py:19-24 | tech counts are LinkedIn 30 %, GitHub 50 %, CakeResume 20 % of the total, each at least 1 |
| MultiChannel.NonTechCounts | scripts/multi-channel-sourcing.py:25-29 | non-tech counts are LinkedIn 60 %, CakeResume 30 %, company websites 10 %, each at least 1 |
| MultiChannel.CountsWithinTotal | scripts/multi-channel-sourcing.py:19-30 | the percentages sum to 100, so unless a share is lifted to 1 the counts add up to at most the total |
| MultiChannel.FirstCompanies | scripts/multi-channel-sourcing.py:109 | target_companies[:count]: the first min(count, n) companies, and for a negative count all but the last -count (none when that is more than there are) |
| MultiChannel.CompanyQueries | scripts/multi-channel-sourcing.py:109-120 | one query per company, in order |
| MultiChannel.SearchCompanyWebsite | scripts/multi-channel-sourcing.py:105-126 | the loop returns one query for each of the first count companies |
| MultiChannel.TechSearchPlan | scripts/multi-channel-sourcing.py:128-171 | a technical title searches LinkedIn, GitHub and CakeResume, in that order, with the tech counts |
| MultiChannel.TechSearches | scripts/multi-channel-sourcing.py:153-166 | with the tech channels, the three searches in order with their counts |
| MultiChannel.NonTechSearchPlan | scripts/multi-channel-sourcing.py:128-171 | a non-technical title searches LinkedIn and CakeResume, then company websites exactly when target companies are given, for at most the website count of them |
| MultiChannel.NonTechSearches | scripts/multi-channel-sourcing.py:153-171 | with the non-tech channels, LinkedIn and CakeResume, plus the website search when targets are given |
| LearningEngine.Recent | scripts/learning-engine.py:84-90 | the recent decisions are exactly those dated strictly after now minus the given days |
| LearningEngine.Min | scripts/learning-engine.py:136 | the minimum score is no larger than any contacted decision's and is attained by one |
| LearningEngine.SumAtLeastMin | scripts/learning-engine.py:124-136 | the sum is at least the minimum times the count |
| LearningEngine.MinAtMostMean | scripts/learning-engine.py:124-136 | the minimum score threshold never exceeds the mean score |
| LearningEngine.QuotientAtLeast | scripts/learning-engine.py:124 | a lower bound on a total over a positive count bounds the mean |
| LearningEngine.OneMoreBound | scripts/learning-engine.py:124 | one more term of at least the minimum keeps the sum bound |
| LearningEngine.Rate | scripts/learning-engine.py:117-121 | a count over part of a list as a fraction of it, within 0..1 |
| LearningEngine.PreferencesOf | scripts/learning-engine.py:114-137 | the GitHub and tier-A rates are the shares of contacted decisions with those features, the averages are the means of the contacted scores and skill matches, and the score threshold is the least contacted score, at most the average |
| LearningEngine.RedFlagsOf | scripts/learning-engine.py:140-154 | the job-hopping and skill-mismatch rates lie in 0..1 and are the shares of skipped decisions carrying those flags |
| LearningEngine.AnalyzeThreshold | scripts/learning-engine.py:82-97 | fewer than five recent decisions give insufficient_data, and both outcomes report the number of recent decisions |
| LearningEngine.AnalyzeCounts | scripts/learning-engine.py:99-111 | contacted and skipped are counted over the recent decisions, never exceed them together, and the contact rate is the contacted share |
| LearningEngine.AnalyzeSections | scripts/learning-engine.py:113-154 | preferences appear exactly when something was contacted, red flags exactly when something was skipped |
| LearningEngine.RecentIgnoresOld | scripts/learning-engine.py:87-90 | decisions outside the window are never recent, wherever they stand in the log |
| LearningEngine.AnalyzeIgnoresOld | scripts/learning-engine.py:82-156 | adding decisions outside the window anywhere in the log changes no analysis |
| LearningEngine.DefaultWeights | scripts/learning-engine.py:50-57 | the default weights hold skill_match and bonus |
| LearningEngine.SuggestShape | scripts/learning-engine.py:158-198 | at most three suggestions, none for insufficient data or without preferences, in the fixed order bonus, skill_match, company_tier_bonus; bonus and skill_match rise by 0.05 up to 0.15 and 0.50 from their current weights |
| LearningEngine.SuggestAllThree | scripts/learning-engine.py:168-193 | with default weights and all three preferences strong, the three suggestions 0.10→0.15, 0.40→0.45 and 3→5 come out |
| LearningEngine.SuggestFails | scripts/learning-engine.py:158-193 | the call fails (KeyError) exactly when a bonus or skill_match suggestion is triggered while that weight is missing from the current weights |
| LearningEngine.SuggestTriggers | scripts/learning-engine.py:168-193 | bonus is suggested exactly when the GitHub-active rate exceeds 0.7, skill_match exactly when the mean skill match exceeds 0.8, company_tier_bonus exactly when the A-tier rate exceeds 0.6; each carries its current weight and min(0.15, w+0.05), min(0.50, w+0.05) or 3→5 |
| LearningEngine.LastIndex | scripts/learning-engine.py:202-213 | the last adjustment of a parameter, if any |
| LearningEngine.AppliedValue | scripts/learning-engine.py:200-215 | each parameter ends with its last adjustment's suggestion or keeps its old value; parameters are added, never removed |
| LearningEngine.Engine.constructor | scripts/learning-engine.py:15-57 | the log and the weights are loaded, or an empty log and the default weights when the files are missing |
| LearningEngine.Engine.RecordDecision | scripts/learning-engine.py:65-80 | one record is appended, with the candidate's fingerprint, else name, else "unknown", and the given fields; the weights are untouched |
| LearningEngine.Engine.ApplyWeightAdjustments | scripts/learning-engine.py:200-215 | the weights become the adjustments applied in order, stamped with the time; the log is untouched |
| AutoFollowup.RuleFor | skills/headhunter/scripts/auto-followup.py:12-33 | the four statuses with rules each have one to four intervals; other statuses have none |
| AutoFollowup.NumberedUnique | skills/headhunter/scripts/auto-followup.py:88 | follow-up ids FU-nnnn numbered by position never repeat |
| AutoFollowup.NumberedAppend | skills/headhunter/scripts/auto-followup.py:88-107 | appending follow-ups numbered on from the file's length keeps the list numbered |
| AutoFollowup.AppendNumbered | skills/headhunter/scripts/auto-followup.py:107 | the same, as an implication for any list |
| AutoFollowup.DueToday | skills/headhunter/scripts/auto-followup.py:116-125 | exactly the open follow-ups due today or earlier |
| AutoFollowup.Upcoming | skills/headhunter/scripts/auto-followup.py:127-139 | exactly the open follow-ups due from today to the end date, sorted by due date |
| AutoFollowup.UpcomingStable | skills/headhunter/scripts/auto-followup.py:139 | follow-ups due the same day keep their file order |
| AutoFollowup.FirstWithId | skills/headhunter/scripts/auto-followup.py:146-147 | the first follow-up with the id, or none when no follow-up has it |
| AutoFollowup.Completed | skills/headhunter/scripts/auto-followup.py:148-151 | the entry is marked done at the given time; only the completion fields change |
| AutoFollowup.CompletedLeavesDue | skills/headhunter/scripts/auto-followup.py:141-158 | completing an entry takes exactly it off the due list |
| AutoFollowup.Future | skills/headhunter/scripts/auto-followup.py:175 | exactly the open follow-ups due after today and within the week |
| AutoFollowup.DailyReminderTruncates | skills/headhunter/scripts/auto-followup.py:175-181 | the reminder lists the first at most five later entries and counts the rest |
| AutoFollowup.Plan | skills/headhunter/scripts/auto-followup.py:83-105 | one follow-up per interval, in order, numbered on from the count, due that many days after the start, pending, with no completion date and no completion notes |
| AutoFollowup.Store.constructor | skills/headhunter/scripts/auto-followup.py:47-53 | a missing or unreadable file is an empty list |
| AutoFollowup.Store.ScheduleFollowup | skills/headhunter/scripts/auto-followup.py:60-114 | an unsupported status schedules nothing; otherwise one pending follow-up per interval, with no completion date or notes, is appended, due from the start or today, and numbering is kept |
| AutoFollowup.Store.CompleteFollowup | skills/headhunter/scripts/auto-followup.py:141-158 | the first follow-up with the id is completed and returned; an unknown id changes nothing and gives None |
| Dashboard.NumberedIdInjective | skills/headhunter/scripts/dashboard.py:61 | ids JOB-nnn / CAN-nnn built from different numbers differ |
| Dashboard.StatusUpdatedShape | skills/headhunter/scripts/dashboard.py:109-130 | an update sets the status and time, keeps every other field (identity, profile, company, title, experience, salary), links a given job once and only when not already linked, and with notes appends exactly the entry (new status, job, notes, time), otherwise leaves the history alone |
| Dashboard.FirstWithId | skills/headhunter/scripts/dashboard.py:109-110 | the first candidate with the id, or none when no candidate has it |
| Dashboard.CountIn | skills/headhunter/scripts/dashboard.py:142-144 | a stage count never exceeds the number of candidates |
| Dashboard.CountInUnion | skills/headhunter/scripts/dashboard.py:167 | summing disjoint stage counts is counting their union |
| Dashboard.RecentCandidates | skills/headhunter/scripts/dashboard.py:150-152 | the first five (or all) candidates by update time, newest first, a sub-multiset of the list |
| Dashboard.RecentAreLatest | skills/headhunter/scripts/dashboard.py:150-152 | nobody left out of the recent list was updated later than the last one shown |
| Dashboard.CountStale | skills/headhunter/scripts/dashboard.py:154-158 | the follow-up count never exceeds the recommended candidates |
| Dashboard.Generate | skills/headhunter/scripts/dashboard.py:135-185 | the pipeline has every stage with its count; the totals are the list lengths; active jobs are the jobs whose status is "active"; pool and placed are those stage counts; the follow-up count is the stale recommended candidates and at most the recommended; the generation time is now; one activity line per recent candidate, in order, with its id, name, stage label (or raw status) and update day |
| Dashboard.SummaryWithinTotal | skills/headhunter/scripts/dashboard.py:162-169 | in-process counts the candidates in matching, recommended, interview or offer, and pool, in-process and placed together never exceed the candidates |
| Dashboard.Store.constructor | skills/headhunter/scripts/dashboard.py:42-48 | a missing or unreadable file is an empty list |
| Dashboard.Store.AddJob | skills/headhunter/scripts/dashboard.py:55-76 | one active job with no candidates, created at the given time, is appended with the given fields, numbered after the existing ones, and a numbered list stays numbered |
| Dashboard.Store.AddCandidate | skills/headhunter/scripts/dashboard.py:78-102 | one candidate with no job links is appended with the given company, title, experience and expected salary, numbered after the existing ones, and a numbered list stays numbered |
| Dashboard.Store.UpdateCandidateStatus | skills/headhunter/scripts/dashboard.py:104-133 | the first candidate with the id is updated and returned; an unknown id changes nothing and gives None |
| Dashboard.NumberedUnique | skills/headhunter/scripts/dashboard.py:61 | numbered records have distinct ids |
| Dashboard.NumberedAppend | skills/headhunter/scripts/dashboard.py:85 | appending the next number keeps the list numbered |
| ResumeBatch.Take | batch/batch-parse-resumes.py:43-45 | s[:n]: the first min(n, |s|) characters, the whole text when it is short enough |
| ResumeBatch.ExtractName | batch/batch-parse-resumes.py:29-45 | "未知" without a non-blank line; otherwise the second non-blank line cut to 50 characters when the first is too long or names a resume keyword and a second exists, else the first cut to 50 (the first unchanged when it looks like a name) |
| ResumeBatch.NonBlankFrom | batch/batch-parse-resumes.py:32 | every kept line is the stripped form of a line of the text |
| ResumeBatch.NonBlankAppend | batch/batch-parse-resumes.py:32 | the kept lines of two runs of lines are those of the first followed by those of the second |
| ResumeBatch.NonBlankSingle | batch/batch-parse-resumes.py:32 | one line is kept, stripped, exactly when its strip is non-empty; no lines keep nothing |
| ResumeBatch.NonBlankComplete | batch/batch-parse-resumes.py:32 | every line whose strip is non-empty is kept, stripped |
| ResumeBatch.NonBlankFirst | batch/batch-parse-resumes.py:32-37 | the first kept line is the strip of the first line whose strip is non-empty |
| ResumeBatch.ExtractNameFromLine | batch/batch-parse-resumes.py:29-45 | when the text has a non-blank line, the name is such a line of the text, stripped and cut to 50 characters |
| ResumeBatch.FirstMentioned | batch/batch-parse-resumes.py:57-59 | the first listed entry the text contains, none exactly when the text contains none |
| ResumeBatch.ExtractPosition | batch/batch-parse-resumes.py:47-61 | the first listed finance position the lower-cased text contains, title-cased, else "Finance Manager" |
| ResumeBatch.Display | batch/batch-parse-resumes.py:76 | a keyword of at most four characters is reported in upper case, a longer one title-cased (upper after a non-letter, lower after a letter), character by character |
| ResumeBatch.MentionedKeywords | batch/batch-parse-resumes.py:73-76 | every name found is the display name of a keyword the text contains |
| ResumeBatch.Shown | batch/batch-parse-resumes.py:78 | the first min(5, found) names found, in keyword order, each of a keyword the text contains |
| ResumeBatch.MentionedSnoc | batch/batch-parse-resumes.py:74-76 | one more keyword adds its display name exactly when the text contains it |
| ResumeBatch.CollectSkills | batch/batch-parse-resumes.py:73-76 | the keyword loop returns the names Mentioned specifies |
| ResumeBatch.ExtractSkills | batch/batch-parse-resumes.py:63-78 | the first five names joined, or "待確認" when none is found |
| ResumeBatch.SkillsLineCases | batch/batch-parse-resumes.py:73-78 | "待確認" when the lower-cased text contains no keyword; otherwise the shown names, of which there is at least one, joined by ", " |
| ResumeBatch.BeforeFirst | batch/batch-parse-resumes.py:91 | the text before the first occurrence of the separator, or all of it |
| ResumeBatch.ShiftOccurs | batch/batch-parse-resumes.py:91 | an occurrence in the tail is one in the text a place further on |
| ResumeBatch.FileId | batch/batch-parse-resumes.py:90-91 | with "---" in the name, the part before its first occurrence; otherwise the name with every ".pdf" removed |
| ResumeBatch.ParseResumeFields | batch/batch-parse-resumes.py:80-106 | no row exactly for empty text; otherwise the extracted name, position, skills and file id |
| ResumeBatch.Unprocessed | batch/batch-parse-resumes.py:116-119 | exactly the files whose names mention no processed id |
| ResumeBatch.KeepParsed | batch/batch-parse-resumes.py:123-132 | the loop keeps, in order, the rows of the files that parse |
| ResumeBatch.BatchParse | batch/batch-parse-resumes.py:108-132 | the rows of the unprocessed files that yield text, in order |
| ResumeBatch.BatchSources | batch/batch-parse-resumes.py:116-132 | at most as many rows as files, each parsed from an unprocessed file |
| ContactFinder.Texts | scripts/contact-finder.py:14 | findall's list holds one matched text per match, each a piece of the text |
| ContactFinder.MatchTexts | scripts/contact-finder.py:14 | every text findall reports is a piece of the input |
| ContactFinder.LitInMatches | scripts/contact-finder.py:13-14 | a literal part of the pattern (the "@") appears in every reported match |
| ContactFinder.ExtractEmails | scripts/contact-finder.py:11-15 | the e-mail matches, each once, and exactly the matches |
| ContactFinder.EmailsAreAddresses | scripts/contact-finder.py:11-15 | every extracted address is a piece of the text holding an "@" |
| ContactFinder.ConcatMembers | scripts/contact-finder.py:26-29 | a value is in the extended list exactly when one of the per-pattern lists holds it |
| ContactFinder.CollectMatches | scripts/contact-finder.py:26-29 | the loop extends the list by each pattern's matches in order |
| ContactFinder.ExtractAll | scripts/contact-finder.py:26-31 | every match of every pattern, each once, nothing else |
| ContactFinder.ExtractPhones | scripts/contact-finder.py:17-31 | the matches of the three Taiwanese phone patterns, each once, each a piece of the text |
| ContactFinder.GoogleQueries | scripts/contact-finder.py:33-59 | three results whose queries are exactly "name company email", "name company contact" and "name company 聯絡", in that order (the prefix, the suffix and the length together), each with no e-mails and no phones |
| ContactFinder.GoogleQueriesDistinct | scripts/contact-finder.py:35-39 | the three queries differ |
| ContactFinder.SearchGithub | scripts/contact-finder.py:61-80 | the GitHub profile URL of the user, with nothing found |
| ContactFinder.GithubUrlInjective | scripts/contact-finder.py:68 | different users get different profile URLs |
| ContactFinder.SearchCompanyWebsite | scripts/contact-finder.py:82-125 | one unfound result per common page, its URL the website followed by the page path |
| ContactFinder.CompanyPagesDistinct | scripts/contact-finder.py:86-98 | the six page URLs differ |
| ContactFinder.QueryNothing | scripts/contact-finder.py:163-165 | results carrying nothing add nothing to the gathered lists |
| ContactFinder.NothingGathered | scripts/contact-finder.py:154-175 | with every channel a placeholder, nothing is ever gathered |
| ContactFinder.FindContactInfo | scripts/contact-finder.py:127-203 | the Google source always, the GitHub source exactly when a user name is given, the gathered e-mails and phones each once, and contact_found exactly when one was gathered |
| ContactFinder.BatchFindContacts | scripts/contact-finder.py:205-225 | one result per candidate in order, none with a contact; an empty batch fails at the percentage division |
| PttScraper.PageUrl | scripts/scraper-ptt-softjob.py:21-25 | the board's index page, with the page number in the name for every page after the first |
| PttScraper.PageUrlInjective | scripts/scraper-ptt-softjob.py:21-25 | different pages of a board have different URLs |
| PttScraper.PageUrlsDistinct | scripts/scraper-ptt-softjob.py:19-25 | no listing page is fetched twice |
| PttScraper.Unescape | scripts/scraper-ptt-softjob.py:98-109 | the literal a keyword's regular expression stands for is no longer than the keyword |
| PttScraper.Display | scripts/scraper-ptt-softjob.py:110 | a keyword of at most three characters is reported in upper case, a longer one title-cased (upper after a non-letter, lower after a letter), character by character |
| PttScraper.MentionedExactly | scripts/scraper-ptt-softjob.py:107-110 | a name is reported exactly when it is the display name of a keyword that is found |
| PttScraper.MentionedSnoc | scripts/scraper-ptt-softjob.py:108-110 | one more keyword adds its display name exactly when it is found |
| PttScraper.CollectSkills | scripts/scraper-ptt-softjob.py:107-110 | the skill loop returns the names Mentioned specifies |
| PttScraper.UnescapeNodeJs | scripts/scraper-ptt-softjob.py:100 | node\.js is searched as the literal "node.js" |
| PttScraper.DisplayNodeJs | scripts/scraper-ptt-softjob.py:110 | node\.js is reported with its backslash, as "Node\.Js" |
| PttScraper.DisplayCpp | scripts/scraper-ptt-softjob.py:99-110 | c\+\+ is searched as "c++" and reported as "C\+\+" |
| PttScraper.WholeWordFits | scripts/scraper-ptt-softjob.py:109 | a whole-word match is the literal in the text with a word boundary on each side |
| PttScraper.NotWholeWord | scripts/scraper-ptt-softjob.py:109 | without a bounded occurrence the keyword is not found |
| PttScraper.CppNeedsWordAfter | scripts/scraper-ptt-softjob.py:99-109 | "c++" followed by a space is not found, because the \b after "+" needs a word character |
| PttScraper.YearsOf | scripts/scraper-ptt-softjob.py:113-114 | 0 when the years pattern matches nowhere; otherwise int() of the digit group of the first match (no match starts earlier) |
| PttScraper.LeadingNumber | scripts/scraper-ptt-softjob.py:113-114 | 0 without a match; otherwise int() of the leading digit group of the first match, a non-empty run of digits |
| PttScraper.EmailOf | scripts/scraper-ptt-softjob.py:117-118 | an e-mail is found exactly when the pattern matches; it is the text of the first match (no match starts earlier), a piece of the content holding an "@" |
| PttScraper.EmailFound | scripts/scraper-ptt-softjob.py:117-118 | any local@domain.tld with a tld of two letters or more in the content makes the e-mail search succeed |
| PttScraper.LineIdOf | scripts/scraper-ptt-softjob.py:121-122 | an id is found exactly when the LINE pattern matches; it is the id group of the first match (no match starts earlier), non-empty, of letters, digits, "_" and "-" |
| PttScraper.LineIdFound | scripts/scraper-ptt-softjob.py:121-122 | "LINE" in any case directly followed by an id character anywhere in the content makes the LINE search succeed |
| PttScraper.CandidateInfoFields | scripts/scraper-ptt-softjob.py:90-131 | no record exactly for empty content; otherwise the title, the source tag, the found skills once each, the years, the first e-mail and the LINE id |
| PttScraper.ExtractCandidateInfo | scripts/scraper-ptt-softjob.py:90-131 | the method returns the record CandidateInfo specifies |
| PttScraper.FilterArticles | scripts/scraper-ptt-softjob.py:150-155 | the loop keeps, in order, the articles whose title matches |
| PttScraper.EmptyKeywordKeepsAll | scripts/scraper-ptt-softjob.py:149-155 | an empty keyword, as a trailing comma gives, keeps every article |
| PttScraper.KeywordListRejoins | scripts/scraper-ptt-softjob.py:149 | joining the keywords back with commas gives the lower-cased argument |
| PttScraper.ArticleCandidate | scripts/scraper-ptt-softjob.py:164-169 | a candidate only from fetched content naming a skill, carrying the article's title and URL |
| PttScraper.Head | scripts/scraper-ptt-softjob.py:161 | the first min(10, n) filtered articles |
| PttScraper.CollectCandidates | scripts/scraper-ptt-softjob.py:160-171 | the loop returns the candidates of the first ten filtered articles, in order |
| PttScraper.CandidatesBounded | scripts/scraper-ptt-softjob.py:160-171 | at most ten candidates, each with a skill and drawn from one of the first ten articles |

## Specification functions

Some functions only compute a value, or carry only a contract that spells out their own definition; the lemmas and methods in the rows above state what that value means. Each such function is listed here with the lines it models and the rows that state its properties.

- Utils.ExtractPhone (crawlers/scraper-stable/utils.py:31-59): Utils.ExtractPhoneClean, Utils.ExtractPhoneFirstPattern
- Utils.NormalizePhone (crawlers/scraper-stable/utils.py:48-57): Utils.NormalizePhoneClean, Utils.NormalizePhoneDigits, Utils.NormalizeTen
- Utils.ExtractWebsite (crawlers/scraper-stable/utils.py:73-114): Utils.ExtractWebsiteShape
- Utils.Parse104Snapshot (crawlers/scraper-stable/utils.py:116-146): Utils.Parse104SnapshotShape, Utils.Parse104LabelledLines, Utils.Parse104PrefersHeading
- Utils.SanitizeText (crawlers/scraper-stable/utils.py:172-181): Utils.SanitizeTextShape, Utils.SanitizeTextIdempotent
- Validator.ValidPhone (crawlers/scraper-stable/validator.py:13-28): Validator.ValidPhoneIff, Validator.LandlineOutputValid, Validator.MobileOutputInvalid
- Validator.ValidEmail (crawlers/scraper-stable/validator.py:31-37): Validator.ValidEmailIff
- Validator.ValidWebsite (crawlers/scraper-stable/validator.py:40-46): Validator.ValidWebsiteIff, Validator.TrailingSlashInvalid
- AiMatcher.ExperienceScore (scripts/ai_matcher_v2.py:83-111): AiMatcher.ExperienceScoreOrder
- AiMatcher.IndustryScore (scripts/ai_matcher_v2.py:113-134): AiMatcher.IndustryScoreMeaning
- AiMatcher.MatchOf (scripts/ai_matcher_v2.py:192-266): AiMatcher.Match, AiMatcher.MatchTotal, AiMatcher.MatchMismatchThreshold, AiMatcher.NoRequiredSkillsMismatch
- MultiChannel.IsTechPosition (scripts/multi-channel-sourcing.py:32-51): MultiChannel.IsTechPositionIff
- MultiChannel.MultiChannelSearch (scripts/multi-channel-sourcing.py:128-171): MultiChannel.TechSearchPlan, MultiChannel.NonTechSearchPlan
- LearningEngine.Analyze (scripts/learning-engine.py:82-97): LearningEngine.AnalyzeThreshold, LearningEngine.AnalyzeCounts, LearningEngine.AnalyzeSections, LearningEngine.AnalyzeIgnoresOld
- LearningEngine.Suggest (scripts/learning-engine.py:158-193): LearningEngine.SuggestFails, LearningEngine.SuggestTriggers, LearningEngine.SuggestShape, LearningEngine.SuggestAllThree
- BatchMatch.ScoreOf (skills/headhunter/scripts/batch-match.py:77-111): BatchMatch.ScoreBounds, BatchMatch.CalculateMatchScore
- BatchMatch.ReportOf (skills/headhunter/scripts/batch-match.py:113-145): BatchMatch.MatchResumeToJd
- ResumeBatch.ParseResume (batch/batch-parse-resumes.py:80-106): ResumeBatch.ParseResumeFields
- ResumeBatch.SkillsLine (batch/batch-parse-resumes.py:63-78): ResumeBatch.ExtractSkills
- CrawlerMain.Step (crawlers/scraper-stable/main.py:129-181): CrawlerMain.StepCounts
- StableTool.ParagraphValue (tools/scraper-stable/main.py:117): StableTool.ParagraphValueIff
- StableTool.Retried (tools/scraper-stable/main.py:93-100): StableTool.AttemptsUsed, StableTool.RetriedIsLastAttempt, StableTool.RetriedNoneIff, StableTool.RetriedKeeps
- StableTool.RunFrom (tools/scraper-stable/main.py:196-246): StableTool.StepEffect, StableTool.RunKeepsBalance, StableTool.RunProcessesOnce
- Scraper104.Step (crawlers/scraper-104.py:61-84): Scraper104.StepFillsOneField, Scraper104.StepCloses, Scraper104.StepWellFormed
- Scraper104.Run (crawlers/scraper-104.py:45-87): Scraper104.RunWellFormed, Scraper104.RunBounded, Scraper104.RunNonPositive, Scraper104.RunIgnoresNonLinks
- Scraper104.Finish (crawlers/scraper-104.py:89-91): Scraper104.ScanRefs, Scraper104.JobsBounded
- Scraper104.Jobs (crawlers/scraper-104.py:18-96): Scraper104.SearchJobs, Scraper104.JobsBounded
- CompanyContact.Scan (skills/headhunter/scripts/scraper-company-contact.py:27-79): CompanyContact.ScanCompanyPage, CompanyContact.ScanPhoneFirst, CompanyContact.ScanEmailFirst, CompanyContact.ScanCompanyUrlLast, CompanyContact.ScanWebsiteLast
- CompanyContact.Absorb (skills/headhunter/scripts/scraper-company-contact.py:59-62): CompanyContact.PhoneNeverOverwritten, CompanyContact.EmailNeverOverwritten
- CompanyContact.Fill (skills/headhunter/scripts/scraper-company-contact.py:141-148): CompanyContact.WebsiteFillsMissing, CompanyContact.PageContactWins
- PttScraper.CandidateInfo (scripts/scraper-ptt-softjob.py:90-131): PttScraper.CandidateInfoFields, PttScraper.ExtractCandidateInfo
- PttScraper.Relevant (scripts/scraper-ptt-softjob.py:150-155): PttScraper.FilterArticles, PttScraper.EmptyKeywordKeepsAll
- GithubTalent.Classify (skills/headhunter/scripts/github-talent-search.py:123-134): GithubTalent.ClassifyFields, GithubTalent.BoxComIsTwitter
- GithubTalent.ClassifyAll (skills/headhunter/scripts/github-talent-search.py:119-134): GithubTalent.ClassifyAllLast
- GithubTalent.Pick (skills/headhunter/scripts/github-talent-search.py:59-73): GithubTalent.PickFromRefs, GithubTalent.PickDistinct, GithubTalent.PickBounded, GithubTalent.PickComplete
- GithubTalent.Usernames (skills/headhunter/scripts/github-talent-search.py:50-79): GithubTalent.UsernamesSound, GithubTalent.ScanUsernames, GithubTalent.SearchGithubUsers
- GithubTalent.Names (skills/headhunter/scripts/github-talent-search.py:72): GithubTalent.PickDistinct, GithubTalent.PickComplete, GithubTalent.ScanUsernames
- Dedup.KeysOf (scripts/dedup_engine.py:114-115): Dedup.TableByKeys, Dedup.DistinctKeysMembers, Dedup.TableByShape
- Dedup.Values (scripts/dedup_engine.py:126): Dedup.ValuesMarked, Dedup.MergedShape, Dedup.MergeCandidates
- Dedup.StoredFingerprint (scripts/dedup_engine.py:170, scripts/dedup_engine.py:180): Dedup.MergedStoredFingerprint, Dedup.DedupEngine.FilterAlreadyRecommended, Dedup.DedupEngine.MarkAsRecommended, Dedup.MarkAllEffect
- AiMatcher.NormalizeAll (scripts/ai_matcher_v2.py:55-57): AiMatcher.NormalizeAllIdempotent, AiMatcher.MatchedNormalized
- BatchMatch.MapIndexed (skills/headhunter/scripts/batch-match.py:151-155): BatchMatch.MapIndexedStep, BatchMatch.Reports, BatchMatch.BatchMatchResumes
- MultiChannel.LowerAll (scripts/multi-channel-sourcing.py:47-48): MultiChannel.IsTechPositionIff
- ResumeBatch.NonBlank (batch/batch-parse-resumes.py:32): ResumeBatch.NonBlankFrom, ResumeBatch.NonBlankComplete, ResumeBatch.NonBlankAppend, ResumeBatch.NonBlankSingle, ResumeBatch.NonBlankFirst
- ResumeBatch.Mentioned (batch/batch-parse-resumes.py:73-76): ResumeBatch.MentionedKeywords, ResumeBatch.MentionedSnoc, ResumeBatch.CollectSkills, ResumeBatch.Shown
- ContactFinder.MatchLists (scripts/contact-finder.py:27-28): ContactFinder.CollectMatches, ContactFinder.ExtractAll
- PttScraper.PageUrls (scripts/scraper-ptt-softjob.py:19-25): PttScraper.PageUrlsDistinct
- PttScraper.Mentioned (scripts/scraper-ptt-softjob.py:107-110): PttScraper.MentionedExactly, PttScraper.MentionedSnoc, PttScraper.CollectSkills
- PttScraper.KeywordList (scripts/scraper-ptt-softjob.py:149): PttScraper.KeywordListRejoins, PttScraper.FilterArticles

## Left out

- Browser, sheet and network calls are inputs, not modelled. This covers agent-browser and gog subprocesses, curl, and the placeholder web searches. A snapshot, a page text, an attempt outcome or a cell-write result is a parameter (a function or a sequence of outcomes).
- Files and JSON are not modelled. A store starts from the value its file held (or a fresh state when the file is missing or unreadable) and records the value it last wrote. JSON shapes become datatypes or string-keyed maps.
- Clocks are parameters. ISO dates are day numbers and timestamps are whole seconds, so comparing YYYY-MM-DD strings is comparing days.
- Sleeps and random delays are left out, because no decision depends on them. The retry loop only counts where the delays fall.
- Logging, printing, argument parsing, `sys.exit` and the `__main__` blocks are left out. An interruption is an explicit flag checked between items.
- Telegram and console text is left out as I/O: `print_dashboard`, `format_for_telegram`, `print_status` and the text of `format_daily_reminder`. Only the reminder's five-item cut-off is modelled.
- `generate_weekly_report` in scripts/learning-engine.py is left out. It only formats the analysis and suggestions, which are modelled.
- The listing-page regex of `fetch_ptt_board` and the HTML stripping of `parse_article_content` in scripts/scraper-ptt-softjob.py are left out. The listed articles and each article's content are inputs.
- The stdout branch of `main` in scripts/scraper-ptt-softjob.py (line 179) refers to an undefined `f`. It is output only and is not modelled.
- PDF text extraction (pdfplumber) is not modelled. The text a PDF yields is an input, "" when extraction fails. The Google Sheets row layout of the resume batch is output only.
- md5 is not modelled. A hashed fingerprint is the datatype value `Hashed(text)`, which keeps the text that would be hashed. The 16-character hex prefix is not computed.
- Python sets used as `list(set(...))` are modelled as first-occurrence deduplication. Membership and the absence of repeats are exact; the order a Python set would produce is not modelled.
- Case mapping is ASCII only. `\d` is the ASCII digits.
- `\s` is Python's `str.isspace` set.
- `\w` is ASCII letters, digits and `_`, plus every non-ASCII character that is neither whitespace nor CJK punctuation. Python's Unicode categories are not modelled.
- Python `round()` and format specifiers (`:.1f`, `:.0f`, `%`) are left out. Scores and rates are exact reals or integers. In reports, numbers are kept as values rather than rendered text.
- Float arithmetic is left out; every rate and score is an exact rational.
- LearningEngine.PreferencesOf: the rates and means are exact quotients, and the two-place rounding before the suggestion thresholds is not applied (a float edge case at the 0.7, 0.8 and 0.6 cut-offs).
- LearningEngine.RedFlagsOf: the rates are exact quotients, not rounded to two places.
- AiMatcher.Round2: round(x, 2) is taken as round-half-up; Python's binary-float rounding of halves is not modelled.
- Dedup.NormalizeCompany: the contract states the character facts of the result (no whitespace, no upper-case letter, "" for ""), not which suffix occurrences were removed; RemoveEach only states that removal deletes characters.
- Dedup.GenerateFingerprint: assumes every field it reads is text, falsy or missing, as merge, filter and mark do; the AttributeErrors of non-text fields are stated only by CheckedFingerprint. The exact "name_company" text is stated only up to equality, by FingerprintByName.
- Dedup.CheckedFingerprint: a fingerprint tag stored under a field it reads counts as non-text, although Python would read that stored fingerprint as a string.
- Dedup.MergeData: when both records give a years_of_experience and they are not both numbers, Python's max compares two strings or raises TypeError; the model keeps the value the fill step leaves (c1's when truthy, else c2's) and does not model that comparison or the error.
- Dedup.StoredFingerprint: only a fingerprint tag that merge_candidates stored counts as carried. Python uses any stored 'fingerprint' value as is, such as a hex string read back from JSON or a null. The model recomputes the fingerprint instead, because md5 is not modelled and a stored hex string has no counterpart in it. Example: for {'email': 'a@b.c', 'fingerprint': 'x'}, Python uses 'x' and the model uses Hashed("a@b.c").
- Dedup.DedupEngine.FilterAlreadyRecommended: a candidate whose stored 'fingerprint' is not a tag is checked under its recomputed fingerprint, not the stored value (see Dedup.StoredFingerprint). Records returned by merge_candidates are covered exactly (Dedup.MergedStoredFingerprint).
- Dedup.DedupEngine.MarkAsRecommended: a candidate whose stored 'fingerprint' is not a tag is marked under its recomputed fingerprint, not the stored value (see Dedup.StoredFingerprint).
- Dedup.MarkAllEffect: keys each candidate by Dedup.StoredFingerprint, so it has the same gap for a stored 'fingerprint' that is not a tag.
- Dedup.MergeCandidates: in Python, the returned list and the caller's list share the dict of each first occurrence that nothing merged into, so a later change to one shows in the other. The model returns the two lists as separate values and does not model that aliasing.
- GithubTalent.FollowersOf: states that the count starts with a digit and is a piece of the name made of count characters, not that it is the first such piece.
- CompanyContact.CompanyIdFromUrl: states the id as the group of the first match of the pattern; that a greedy group is the maximal run after "/job/" is left to the pattern semantics and is not stated as a separate property.
- PttScraper.Unescape: only the length bound is stated in general; UnescapeNodeJs and DisplayCpp state the two escaped keywords of the list.
- The crawlers' config.py constants are model parameters: the retry count, the retry delay and the checkpoint interval. The unused report interval and column table are left out.
