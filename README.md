# vacancy_scaper: a verified model of the resume search core

vacancy_scaper is a Telegram bot that helps a recruiter find candidates. Each
chat answers a few questions: keywords, region, a salary range picked from
buttons, and a set of experience levels toggled with buttons. The bot then
searches two job sites and shows the best five resumes:

- **Work.ua** is scraped. The bot fetches the listing pages, reads the
  candidate count off page 1, fetches the remaining pages (even pages first,
  then odd ones), follows every resume link and parses each resume page
  (salary, work experience, a "filling percentage" from the page's word
  tokens).
- **Robota.ua** is queried through its JSON API. One POST learns the total and
  a second POST fetches that many documents, each turned into a resume.

Both lists are concatenated and sorted by filling percentage, highest first.
The sort is stable and the first five are shown.

The model is written in Dafny, one module per part of the program:

| file | module | models |
|---|---|---|
| `wrappers.dfy` | `Wrappers` | `Option`, `Result`, and the first-error-wins map over a sequence (`TryMap`) |
| `text.dfy` | `Text` | the Python string operations the parsers use: `strip`, `replace`, `split`, `str(int)`/`int(str)`, `isalnum`, `in` |
| `dicts.dfy` | `Dicts` | JSON tables as their entries in file order; the dict `json.load` builds from them (`items()`, `dict.get`), `keys()`, and the inverted mapping |
| `models.dfy` | `Models` | `Resume`, `Experience`, `SearchOptions`, `UserState`, and `Resume.__lt__` |
| `nlp.dfy` | `Nlp` | `get_most_similar_word` over a scoring function and a threshold |
| `ranking.dfy` | `Ranking` | `sort(reverse=True)` as an in-place insertion sort on an array, proved to be the stable descending sort, and the top five |
| `work_ua.dfy` | `WorkUa` | the Work.ua scraper: candidate count, page plan, query payload, listing pages, `parse_resume`, `search_resumes` |
| `robota_ua.dfy` | `RobotaUa` | the Robota.ua client: payload, document mapping, `search_resumes` |
| `bot.dfy` | `TelegramBot` | the session table as the `ResumeBot` class, whose handler methods update it; `format_resume`; the combined search |

The outside world is passed in as parameters:

- the HTTP requests;
- what BeautifulSoup extracts from a page;
- NLTK's tokens and stop words;
- the rapidfuzz scorer;
- the tables loaded from JSON files.

Each imperative routine is a `method` with loops. Each is proved equal to a
specification function, and that function's properties are proved as
lemmas.

## Model

| member | source | states |
|---|---|---|
| Models.LessOnlyByScore | src/models/Resume.py:17-18 | resumes compare by filling percentage alone; the other fields play no part |
| Models.LessIrreflexive | src/models/Resume.py:17-18 | no resume ranks below itself |
| Models.LessTransitive | src/models/Resume.py:17-18 | the comparison is transitive |
| Models.LessTie | src/models/Resume.py:17-18 | two resumes are incomparable exactly when their percentages are equal |
| Nlp.MostSimilarWord | src/utils/nlp.py:22-27 | a word is returned iff some vocabulary entry scores strictly above the threshold; it is then an entry of the vocabulary with the highest score; an empty vocabulary gives None |
| Nlp.MostSimilarWordFirstBest | src/utils/nlp.py:22 | among equally scoring entries, the earliest is returned |
| Text.Strip | src/parsers/work_ua_parser.py:177 | `strip()` gives the part of the string after its leading whitespace run with only whitespace after it; it is trimmed at both ends, never lengthens, and is "" exactly for all-whitespace input |
| Text.ReplaceNbsp | src/parsers/work_ua_parser.py:177 | each no-break space becomes a space; all other characters are kept in place |
| Text.Clean | src/parsers/work_ua_parser.py:171-177 | `format_experience_detail` gives the stripped text character by character with each no-break space turned into a space, so no no-break space and no outer whitespace remain |
| Text.CleanIdempotent | src/parsers/work_ua_parser.py:171-177 | cleaning twice is cleaning once |
| Text.ParseIntRoundTrip | src/telegram_bot/telegram_resume_bot.py:434-435 | `int(str(n)) == n` for every integer |
| Text.FirstWord | src/parsers/work_ua_parser.py:338 | `split()[0]` is the non-empty whitespace-free word that starts after the leading whitespace and ends at whitespace or the end of the text; IndexError (None) exactly for all-whitespace text |
| Text.RemoveAllAbsent | src/parsers/work_ua_parser.py:362 | `replace(pat, "")` leaves a string without `pat` unchanged |
| Text.RemoveAllOnce | src/parsers/work_ua_parser.py:362 | `replace(pat, "")` on a text holding `pat` once, with no earlier occurrence, leaves the text before it followed by the text after it |
| Dicts.Get | src/parsers/robota_ua_parser.py:183-185 | `dict.get` gives None iff the key is absent, otherwise the value of its last (surviving) entry |
| Dicts.ItemsDistinct | src/telegram_bot/telegram_resume_bot.py:83 | the dict `json.load` builds has each key once, however often the JSON repeats it |
| Dicts.ItemsValues | src/telegram_bot/telegram_resume_bot.py:83 | each item holds the value of its key's last appearance |
| Dicts.ItemsCover | src/telegram_bot/telegram_resume_bot.py:83 | every key that appears has an item |
| Dicts.InvertEntries | src/telegram_bot/telegram_resume_bot.py:237 | the comprehension over a list of items has exactly the items' values as keys |
| Dicts.InvertEntriesLast | src/telegram_bot/telegram_resume_bot.py:237 | in the comprehension, a value no later item carries maps to its own item's key |
| Dicts.Invert | src/telegram_bot/telegram_resume_bot.py:237 | the inverted dict over the loaded dict's items: its keys are exactly the values some key holds, and each maps back to a key that holds it |
| Dicts.InvertLast | src/telegram_bot/telegram_resume_bot.py:237 | the last write wins: a value that no later item of the dict carries maps back to its own item's key |
| Dicts.InvertInjective | src/telegram_bot/telegram_resume_bot.py:237 | a value that one key alone holds maps back to that key |
| Wrappers.TryMapSuccess | src/parsers/work_ua_parser.py:235-257 | a first-error-wins loop succeeds iff every step does, with one result per input in order |
| Wrappers.TryMapFirstFailure | src/parsers/work_ua_parser.py:259-261 | a failing loop reports the error of the first failing step |
| Wrappers.MapSeq | src/parsers/robota_ua_parser.py:229-231 | mapping a function over a list keeps its length and applies the function to each element in place |
| Ranking.SortFacts | src/telegram_bot/telegram_resume_bot.py:381 | the sort is non-increasing, a permutation, and stable: the resumes of each percentage keep their input order |
| Ranking.StableSortIsUnique | src/telegram_bot/telegram_resume_bot.py:381 | every stable descending sort of the list gives the same sequence, so this insertion sort and Timsort agree |
| Ranking.SortDescending | src/telegram_bot/telegram_resume_bot.py:381 | the in-place sort leaves the array holding the stable descending sort of its old contents |
| Ranking.InsertStep | src/telegram_bot/telegram_resume_bot.py:381 | one insertion step puts the next element into the sorted prefix and leaves the rest of the array alone |
| Ranking.ShiftRight | src/telegram_bot/telegram_resume_bot.py:381 | the shifting loop moves up by one every element of the sorted prefix that ranks strictly below the new one, and stops at the first that does not |
| Ranking.Rank | src/telegram_bot/telegram_resume_bot.py:380-382 | the shown list is the first five of the sorted concatenation, Work.ua first |
| Ranking.RankedFacts | src/telegram_bot/telegram_resume_bot.py:380-382 | at most five resumes, all from the inputs, best first; nothing dropped scores above anything shown; ties keep Work.ua before Robota.ua |
| WorkUa.DigitRunEnd | src/parsers/work_ua_parser.py:152 | `\d+` takes the maximal run of digits |
| WorkUa.FirstMatchFromFacts | src/parsers/work_ua_parser.py:151-153 | `re.search` finds the leftmost match position, or none exists |
| WorkUa.GetTotalCandidates | src/parsers/work_ua_parser.py:150-159 | a count is found iff the pattern matches somewhere; otherwise the source raises |
| WorkUa.CandidateCountIsLeftmost | src/parsers/work_ua_parser.py:151-157 | the count is the digit run of the leftmost match |
| WorkUa.LeftmostMatchStartsDigitRun | src/parsers/work_ua_parser.py:151-157 | the leftmost match begins a digit run, so no leading digit is lost |
| WorkUa.TotalPages | src/parsers/work_ua_parser.py:226 | `ceil(total / 14)`: the smallest number of 14-resume pages that holds the total |
| WorkUa.Stride | src/parsers/work_ua_parser.py:235-247 | `range(start, last + 1, 2)`, element by element |
| WorkUa.StrideMembers | src/parsers/work_ua_parser.py:235-247 | a page is in the range iff it lies in bounds with the parity of the start |
| WorkUa.PagePlanCoversEachPageOnce | src/parsers/work_ua_parser.py:212-257 | page 1 comes first, and every page from 1 to the last is fetched exactly once |
| WorkUa.Lookup | src/parsers/work_ua_parser.py:191-198 | a table lookup fails with KeyError of that key exactly when the key is missing |
| WorkUa.ExperienceIds | src/parsers/work_ua_parser.py:196-199 | the loop over labels gives the table IDs of all labels, or the KeyError of the first unknown one |
| WorkUa.UnpackSearchOptions | src/parsers/work_ua_parser.py:185-201 | the method builds the payload `SearchPayload` describes |
| WorkUa.SearchPayloadKeys | src/parsers/work_ua_parser.py:185-201 | a built payload has exactly the keys of the truthy options: the search text, the matched region, and the salary codes from the tables |
| WorkUa.SearchPayloadExperience | src/parsers/work_ua_parser.py:196-199 | `experience` is the IDs of the labels joined with "+", one per label, in order |
| WorkUa.SearchPayloadFails | src/parsers/work_ua_parser.py:192-199 | the payload fails exactly when a truthy salary or an experience label is missing from its table |
| WorkUa.GetResumePages | src/parsers/work_ua_parser.py:203-263 | the method returns what `ResumePages` describes: page 1, the even pages, the odd pages, or the first error |
| WorkUa.ResumePagesAsPlan | src/parsers/work_ua_parser.py:231-257 | after page 1, the pages follow the rest of the page plan |
| WorkUa.ResumePagesFollowPlan | src/parsers/work_ua_parser.py:212-263 | the pages arrive iff every planned page can be fetched; they arrive one per plan entry, in plan order |
| WorkUa.SalaryOf | src/parsers/work_ua_parser.py:333-338 | no salary without the tag or the marker; with the marker, IndexError exactly when only whitespace follows its last occurrence, and otherwise the first word of that text, a non-empty word without whitespace |
| WorkUa.NextDetails | src/parsers/work_ua_parser.py:350 | `find_next_sibling("p", class_="mb-0")` is the first later details paragraph |
| WorkUa.MakeEntry | src/parsers/work_ua_parser.py:348-369 | an entry holds the stripped heading, a duration iff the paragraph had one (cleaned), and cleaned details |
| WorkUa.MakeEntryWithoutDuration | src/parsers/work_ua_parser.py:360-363 | details without the duration text are the cleaned paragraph text |
| WorkUa.MakeEntryRemovesDuration | src/parsers/work_ua_parser.py:360-363 | details holding the duration once are the cleaned text before it followed by the text after it |
| WorkUa.DetailedHeadingsFacts | src/parsers/work_ua_parser.py:344-351 | the headings that have a details paragraph after them, in increasing order |
| WorkUa.EntriesFollowHeadings | src/parsers/work_ua_parser.py:342-370 | one entry per heading with a paragraph after it, in document order |
| WorkUa.NoParagraphNoEntries | src/parsers/work_ua_parser.py:350-351 | with no details paragraph there are no entries |
| WorkUa.SharedParagraph | src/parsers/work_ua_parser.py:350 | a heading without its own paragraph borrows the next heading's |
| WorkUa.MeaningfulCount | src/parsers/work_ua_parser.py:377-382 | the meaningful tokens never outnumber the tokens |
| WorkUa.RoundHalfEven | src/parsers/work_ua_parser.py:388 | Python's `round` of a quotient: the nearest integer, and the even one at an exact half |
| WorkUa.FillingPercentage | src/parsers/work_ua_parser.py:372-388 | `round(100 * meaningful / total)`: 0 without tokens; otherwise within one half of the exact quotient and even at an exact half; hence 0 to 100, 0 when nothing is meaningful and 100 when every token is |
| WorkUa.ParseResume | src/parsers/work_ua_parser.py:316-390 | the method builds the dict `ParsedResumeOf` describes, or raises where it does |
| WorkUa.ToResume | src/parsers/work_ua_parser.py:437-439 | the resume takes the link, the `salary_expectation` key, the experience and the percentage of the dict |
| WorkUa.SalaryNeverReachesResume | src/parsers/work_ua_parser.py:327-339 | the salary found is stored only under the misspelled key, so the resume's salary is always "" |
| WorkUa.SalaryLostExample | src/parsers/work_ua_parser.py:336-339 | for a description with the salary marker and a word, the word is found, yet the resume has no salary |
| WorkUa.CorrectedKeepsSalary | src/parsers/work_ua_parser.py:339 | with the key spelled `salary_expectation`, the resume carries the salary word |
| WorkUa.ResumeLinksConcat | src/parsers/work_ua_parser.py:417-419 | the links of two runs of pages are those of the first run followed by those of the second |
| WorkUa.FetchedHtmls | src/parsers/work_ua_parser.py:422-429 | never more fetched pages than links |
| WorkUa.KeptLinksFacts | src/parsers/work_ua_parser.py:423-426 | exactly the positions of the links whose page came back non-empty, in increasing order |
| WorkUa.FetchedHtmlsFromKeptLinks | src/parsers/work_ua_parser.py:422-429 | the j-th fetched page is the page of the j-th link that came back |
| WorkUa.CollectLinks | src/parsers/work_ua_parser.py:417-419 | the `extend` loop gathers the links of every listing page, page by page, as `ResumeLinks` describes |
| WorkUa.FetchAll | src/parsers/work_ua_parser.py:422-429 | the fetch loop keeps exactly the non-empty pages, as `FetchedHtmls` and `KeptLinks` describe |
| WorkUa.WithLinks | src/parsers/work_ua_parser.py:434-439 | the j-th parsed resume is given link j |
| WorkUa.SearchResumes | src/parsers/work_ua_parser.py:392-444 | the method's three loops compute `SearchResumesOf`: payload, pages, links, fetched pages, parsed resumes; the two Work.ua corrections under Findings are applied |
| WorkUa.ParseAll | src/parsers/work_ua_parser.py:433-444 | the last loop parses every fetched page and attaches the link the page came from, with the salary under its intended key |
| WorkUa.ParsePage | src/parsers/work_ua_parser.py:435 | one page is parsed as `parse_resume` does, with the salary under its intended key |
| WorkUa.CorrectedPipelineFacts | src/parsers/work_ua_parser.py:422-444 | in the pipeline the search uses, each resume has its own page's link, salary word ("" without one) and filling percentage |
| WorkUa.ResumesFromLinksFacts | src/parsers/work_ua_parser.py:414-444 | one resume per page that came back; the j-th has link j but was parsed from the page of the j-th kept link |
| WorkUa.MisalignedLinkExample | src/parsers/work_ua_parser.py:434-437 | when the first of two resume pages fails, the one resume parsed comes from link 2 but carries link 1 |
| WorkUa.WithKeptLinks | src/parsers/work_ua_parser.py:437 | the corrected pairing gives each parsed resume the link its page came from |
| WorkUa.AlignedResumesCarryTheirLink | src/parsers/work_ua_parser.py:423-439 | in the corrected pipeline, every resume carries the link its page was fetched from |
| WorkUa.AlignedLinkExample | src/parsers/work_ua_parser.py:434-437 | on that same input, the corrected pipeline gives the resume link 2 |
| WorkUa.KeptLinksAll | src/parsers/work_ua_parser.py:423-426 | when every page comes back, every link position is kept |
| WorkUa.AlignedWhenNothingDropped | src/parsers/work_ua_parser.py:434-439 | when no page is dropped, the source and the corrected pipeline agree |
| RobotaUa.FormatSalaryExpectation | src/parsers/robota_ua_parser.py:120-131 | the stripped salary with each no-break space turned into a space, character by character |
| RobotaUa.FormatSalaryIdempotent | src/parsers/robota_ua_parser.py:131 | formatting twice is formatting once |
| RobotaUa.UnpackResume | src/parsers/robota_ua_parser.py:144-160 | a document's resume has link base + "/candidates/" + ID, the formatted salary, one entry per experience (position, dates, company), and its percentage |
| RobotaUa.HrefIdentifiesResume | src/parsers/robota_ua_parser.py:145 | two documents with the same link have the same resume ID |
| RobotaUa.UnpackResumeInjective | src/parsers/robota_ua_parser.py:144-160 | equal resumes come from documents with the same ID, experience, formatted salary and percentage |
| RobotaUa.UnpackAll | src/parsers/robota_ua_parser.py:229-231 | one resume per document, in document order |
| RobotaUa.UnpackDocuments | src/parsers/robota_ua_parser.py:229-231 | the document loop appends one unpacked resume per document, as `UnpackAll` describes |
| RobotaUa.CityId | src/parsers/robota_ua_parser.py:172-173 | a city ID is sent iff the region's best match is a non-empty name, and it is that name's table entry |
| RobotaUa.KnownIds | src/parsers/robota_ua_parser.py:182-186 | the list comprehension never gives more IDs than labels |
| RobotaUa.KnownIdsFromLabels | src/parsers/robota_ua_parser.py:182-186 | every ID listed is the non-zero table entry of some label |
| RobotaUa.KnownIdsOfLabels | src/parsers/robota_ua_parser.py:182-186 | every label with a truthy table entry contributes its ID |
| RobotaUa.KnownIdsConcat | src/parsers/robota_ua_parser.py:182-186 | the comprehension distributes over concatenation of the label list |
| RobotaUa.KnownIdsDropsUnknown | src/parsers/robota_ua_parser.py:185 | a label missing from the table or mapped to 0 is skipped without error |
| RobotaUa.KnownIdsAllKnown | src/parsers/robota_ua_parser.py:182-186 | when every label is known, the IDs are their entries, in label order |
| RobotaUa.TruthyLookupsFromLabels | src/parsers/robota_ua_parser.py:182-186 | for any lookup, every value kept is the non-zero result for some label |
| RobotaUa.TruthyLookupsOfLabels | src/parsers/robota_ua_parser.py:182-186 | for any lookup, every truthy result is kept |
| RobotaUa.TruthyLookupsConcat | src/parsers/robota_ua_parser.py:182-186 | the filtered comprehension distributes over concatenation of the labels |
| RobotaUa.TruthyLookupsAllKnown | src/parsers/robota_ua_parser.py:182-186 | when every result is truthy, all of them are kept, in label order |
| RobotaUa.UnpackSearchOptions | src/parsers/robota_ua_parser.py:162-195 | the method, with its in-place appends, builds the payload `SearchPayload` describes |
| RobotaUa.SearchPayloadFails | src/parsers/robota_ua_parser.py:184-193 | payload built iff an experience list is present and, for "More than 5 years", both longer ranges are in the table; None raises TypeError; a missing "5 to 10 years" raises its KeyError, and with it present a missing "More than 10 years" raises that KeyError |
| RobotaUa.SearchPayloadFacts | src/parsers/robota_ua_parser.py:172-195 | search text and salaries pass through; the city is matched; the known IDs come first in label order; "More than 5 years" adds the two longer ranges' IDs |
| RobotaUa.SearchResumes | src/parsers/robota_ua_parser.py:197-239 | the method's document loop computes `SearchResumesOf` |
| RobotaUa.SearchResumesFacts | src/parsers/robota_ua_parser.py:215-239 | second request = first with `count` = total; resumes iff it returns 200 with documents, one per document in order; 4xx/5xx raise; a missing total raises KeyError |
| TelegramBot.Started | src/telegram_bot/telegram_resume_bot.py:98-107 | `start` makes the chat FREE with empty texts, zero salaries and no experience; other chats keep their entries |
| TelegramBot.Cleared | src/telegram_bot/telegram_resume_bot.py:145-155 | `clear` does the same but stores blank salaries |
| TelegramBot.Stopped | src/telegram_bot/telegram_resume_bot.py:131 | `stop` removes the chat and keeps every other entry; KeyError iff the chat is absent |
| TelegramBot.StopUndoesStart | src/telegram_bot/telegram_resume_bot.py:98-131 | stop after start gives the table without the chat |
| TelegramBot.StartAndClearDiffer | src/telegram_bot/telegram_resume_bot.py:98-155 | start and clear agree except in the two salaries, where they differ |
| TelegramBot.Accepted | src/telegram_bot/telegram_resume_bot.py:196-228 | no change for an unknown chat; otherwise typed text becomes the query or region when that was asked for, and the chat ends FREE with nothing else changed |
| TelegramBot.AcceptedOnce | src/telegram_bot/telegram_resume_bot.py:216-228 | a second text right after the first changes nothing |
| TelegramBot.ParameterRequested | src/telegram_bot/telegram_resume_bot.py:171-184 | `/keywords` or `/region` sets the waiting state; KeyError only for those commands in an unknown chat; other text changes nothing |
| TelegramBot.KeywordsDialogue | src/telegram_bot/telegram_resume_bot.py:174-228 | `/keywords` then text sets exactly the search query and frees the chat |
| TelegramBot.RegionDialogue | src/telegram_bot/telegram_resume_bot.py:180-228 | `/region` then text sets exactly the region and frees the chat |
| TelegramBot.Prompted | src/telegram_bot/telegram_resume_bot.py:292-401 | the experience and salary commands set the waiting state and change nothing else; KeyError iff the chat is absent |
| TelegramBot.UpToColon | src/telegram_bot/telegram_resume_bot.py:435-452 | the colon-free prefix before the first colon |
| TelegramBot.SalaryChosen | src/telegram_bot/telegram_resume_bot.py:433-454 | `salary_from:N` stores the lower bound and waits for the upper; `salary_to:N` stores the upper and frees the chat; ValueError on a bad number, checked before the chat lookup; other data changes nothing |
| TelegramBot.SalaryField | src/telegram_bot/telegram_resume_bot.py:435-453 | the field is the text right after the prefix, up to the next `:` or the end, and holds no `:` |
| TelegramBot.SalaryFieldOfButton | src/telegram_bot/telegram_resume_bot.py:404-440 | the field after a button's prefix is the value the button was built with |
| TelegramBot.ToButtonIsNotFromButton | src/telegram_bot/telegram_resume_bot.py:433-450 | an upper-bound button never takes the lower-bound branch |
| TelegramBot.FromButtonPressed | src/telegram_bot/telegram_resume_bot.py:404-437 | pressing the lower-bound button for n stores n and asks for the upper bound |
| TelegramBot.ToButtonPressed | src/telegram_bot/telegram_resume_bot.py:440-454 | pressing the upper-bound button for n stores n and frees the chat |
| TelegramBot.SalaryDialogue | src/telegram_bot/telegram_resume_bot.py:401-454 | two presses store both bounds and free the chat; nothing else changes |
| TelegramBot.RemoveFirst | src/telegram_bot/telegram_resume_bot.py:342 | `list.remove` of a present element leaves one element fewer: the same multiset less one copy of that element |
| TelegramBot.RemoveFirstAt | src/telegram_bot/telegram_resume_bot.py:342 | `list.remove` deletes the first occurrence and nothing else |
| TelegramBot.Toggle | src/telegram_bot/telegram_resume_bot.py:341-344 | a selected option is removed at its first occurrence; an unselected one is appended |
| TelegramBot.ToggleFacts | src/telegram_bot/telegram_resume_bot.py:340-344 | toggling keeps the selection free of repeats, flips the option's membership, and keeps the other selections in order |
| TelegramBot.ToggleTwice | src/telegram_bot/telegram_resume_bot.py:340-344 | toggling an unselected option twice restores the selection; a selected one moves to the end |
| TelegramBot.ExperienceChosen | src/telegram_bot/telegram_resume_bot.py:311-344 | complete frees the chat; reset empties the selection; other data toggles its option; KeyError for an unknown chat or unknown data |
| TelegramBot.ExperienceButton | src/telegram_bot/telegram_resume_bot.py:340-344 | when one option alone has a given callback data, pressing that button toggles that option |
| TelegramBot.ToggleSelection | src/telegram_bot/telegram_resume_bot.py:340-344 | `remove` or `append` on the chat's list is the toggle, and the list stays free of repeats |
| TelegramBot.ResumeBot.constructor | src/telegram_bot/telegram_resume_bot.py:48-55 | the bot starts with no chats and the loaded experience table |
| TelegramBot.ResumeBot.Start | src/telegram_bot/telegram_resume_bot.py:98-107 | the table becomes `Started` of the old one; no chat's selection has repeats |
| TelegramBot.ResumeBot.Clear | src/telegram_bot/telegram_resume_bot.py:137-155 | the table becomes `ClearedCorrected` of the old one, i.e. the defaults `start` sets (third finding); the invariant holds |
| TelegramBot.ResumeBot.Stop | src/telegram_bot/telegram_resume_bot.py:131 | the table becomes `Stopped` of the old one, or stays unchanged with the KeyError |
| TelegramBot.ResumeBot.AcceptParameter | src/telegram_bot/telegram_resume_bot.py:196-228 | the table becomes `Accepted` of the old one |
| TelegramBot.ResumeBot.SetParameter | src/telegram_bot/telegram_resume_bot.py:171-184 | the table becomes `ParameterRequested` of the old one, or stays unchanged with the error |
| TelegramBot.ResumeBot.Prompt | src/telegram_bot/telegram_resume_bot.py:286-401 | the table becomes `Prompted` of the old one, or stays unchanged with the error |
| TelegramBot.ResumeBot.SalaryCallback | src/telegram_bot/telegram_resume_bot.py:430-454 | the table becomes `SalaryChosen` of the old one, or stays unchanged with the error |
| TelegramBot.ResumeBot.ExperienceMapping | src/telegram_bot/telegram_resume_bot.py:230-237 | the mapping is keyed by exactly the values the loaded dict holds, each mapped to a key that holds it |
| TelegramBot.ResumeBot.ExperienceCallback | src/telegram_bot/telegram_resume_bot.py:311-344 | the table becomes `ExperienceChosen` of the old one, edited in place by remove/append; selections stay free of repeats |
| TelegramBot.OrNA | src/telegram_bot/telegram_resume_bot.py:477-479 | a missing or empty field is shown as N/A; otherwise the field itself |
| TelegramBot.RenderResumeFacts | src/telegram_bot/telegram_resume_bot.py:469-483 | the text starts with the link line and ends with the percentage line, whose number parses back to the percentage; the salary line follows the link line when the salary is non-empty; with neither salary nor experience the text is just those two lines |
| TelegramBot.NoSalaryLine | src/telegram_bot/telegram_resume_bot.py:469-474 | without a non-empty salary, no salary line follows the link line |
| TelegramBot.EmptyEntryText | src/telegram_bot/telegram_resume_bot.py:477-479 | an entry with no fields reads N/A on each of its three lines |
| TelegramBot.AppendEntries | src/telegram_bot/telegram_resume_bot.py:476-479 | the loop appends the three lines of every entry, in order |
| TelegramBot.FormatResume | src/telegram_bot/telegram_resume_bot.py:458-483 | the method builds the text `RenderResume` describes |
| TelegramBot.SearchOptionsOf | src/telegram_bot/telegram_resume_bot.py:375 | validation fails iff a salary is blank; otherwise the options carry over field by field |
| TelegramBot.SearchReplyFacts | src/telegram_bot/telegram_resume_bot.py:375-389 | the reply gives the total found and shows the ranked top: at most five resumes, best first, drawn from both parsers |
| TelegramBot.RunParsers | src/telegram_bot/telegram_resume_bot.py:377-378 | both parsers run, Work.ua first; the first error propagates; a Robota.ua None fails the concatenation |
| TelegramBot.Reply | src/telegram_bot/telegram_resume_bot.py:384-389 | the message holds the count line and the formatted resumes joined by newlines |
| TelegramBot.Respond | src/telegram_bot/telegram_resume_bot.py:380-389 | with the parsers' results, the reply is their error, or the total found and the ranked top five rendered |
| TelegramBot.Search | src/telegram_bot/telegram_resume_bot.py:364-389 | the method gives the reply `SearchReply` describes and changes nothing |
| TelegramBot.ClearThenSearchFails | src/telegram_bot/telegram_resume_bot.py:146-155 | a search right after `clear` always fails validation on `salary_from` |
| TelegramBot.ClearedCorrected | src/telegram_bot/telegram_resume_bot.py:139-155 | the corrected `clear` stores what `start` stores, and its options validate |
| TelegramBot.CorrectedClearThenSearchValidates | src/telegram_bot/telegram_resume_bot.py:139-155 | after the corrected `clear`, validation gives zero salaries and an empty experience list |

## Left out

- HTTP, ScraperAPI URLs, request headers, timeouts and the Robota.ua login. The requests are function parameters (`ScrapeIo`, `RobotaIo`). A failed request is an error result; a request exception is not modelled as an exception.
- `build_resumes_url` and `urlencode`: the Work.ua payload is a map. Its key order and its URL encoding are not modelled.
- BeautifulSoup parsing, `get_text` and `get_resume_href_from_html`. What these extract (page text, links, the resume page's meta tag, the siblings after the "Work experience" heading) is supplied by the `ScrapeIo` parameter.
- NLTK: `word_tokenize`, lower-casing and the English stop-word list are supplied as the token list and the stop-word set.
- rapidfuzz `token_sort_ratio` is a scoring-function parameter. `RobotaUa.CityId` assumes that a region of None matches nothing; rapidfuzz's handling of None is not modelled.
- Environment variables and the JSON tables under `data/` are parameters (`Config`, `Dict`). Their loading and file I/O are not modelled.
- Telegram itself is not modelled: sending and editing messages, building inline keyboards, `query.answer()`, and registering handlers (`run`) with their command and callback-pattern routing. Each handler is modelled as its effect on the session table.
- The `"search" not in search_options` branch of the bot's search cannot be reached, because every session stores "search". It is not modelled.
- Logging.
- Floating point: the filling percentage is computed as an exact rational and rounded half to even. A float `meaningful / total * 100` that lands off an exact half the other way is not modelled.
- Unicode case folding for the `re.IGNORECASE` search is modelled for ASCII letters only. Python's `\d` also matches non-ASCII digits; the model reads only '0'–'9'.
- `Text.IsAlnumChar` covers ASCII letters and digits, the Cyrillic letters U+0410 to U+044F, Ё and ё, and the Ukrainian letters Є, І, Ї and Ґ in both cases. Other Unicode letters and digits are not modelled.
- `Text.ParseInt` does not accept underscores or non-ASCII digits, which Python's `int` does.
- Robota.ua documents are records with the fields the parser reads. A document missing one of them (a KeyError in the source) is not modelled. `resumeId` is an integer.
- A Robota.ua document whose `salary` is JSON null, on which `format_salary_expectation` raises AttributeError, is not modelled: `Document.salary` is a string.
- `Dicts.Keys` lists a repeated JSON key once per entry, where Python's `keys()` lists it once. The region match takes the first best-scoring name, and that is the same string in both lists.
- The Robota.ua payload's `salary` object and its JSON field names are flattened into `Payload` fields.
- pydantic validation of the resume dicts is not modelled beyond the blank-salary case in `TelegramBot.SearchOptionsOf`. `search_options.copy()` is not modelled either: the options are immutable values here.
- `html_helper.save_and_open_html` and `main.py` are not part of this model.

## Findings

| source | as written | input that shows it | evidently intended | confidence | as-written member | corrected member |
|---|---|---|---|---|---|---|
| src/parsers/work_ua_parser.py:434-437 | The resume parsed from the i-th page that came back gets `hrefs[i - 1]`, the i-th link, even when earlier links failed to fetch. | Links `/resumes/1/` and `/resumes/2/`; the first fetch fails and the second succeeds. The one resume is parsed from `/resumes/2/` but carries `/resumes/1/`. | Each resume carries the link its page was fetched from. | not executed | WorkUa.MisalignedLinkExample | WorkUa.AlignedResumesCarryTheirLink |
| src/parsers/work_ua_parser.py:327-339 | The salary found is written under the key `"salary expectation"` (with a space), which `Resume` ignores. `salary_expectation` stays "". | A Description meta tag `salary starting at 20000`: "20000" is found, but the resume's salary is "". | Store the salary under `salary_expectation`. | not executed | WorkUa.SalaryLostExample | WorkUa.CorrectedKeepsSalary |
| src/telegram_bot/telegram_resume_bot.py:146-155 | `clear` stores `""` for both salaries, although its description says it restores the defaults. `SearchOptions` validation then rejects `""` for `Optional[int]`. | `/clear` then `/search` in any chat: validation fails on `salary_from`. | Restore the defaults `start` stores (zero salaries). | not executed | TelegramBot.ClearThenSearchFails | TelegramBot.ClearedCorrected |

Each finding has two halves:

- The as-written half models the code as it stands: `WorkUa.ResumesFromLinks`, `WorkUa.ParsedResumeOf` with `WorkUa.ToResume`, and `TelegramBot.Cleared`. Its lemma exhibits the discrepancy.
- The corrected half is what the rest of the model uses:
  - `WorkUa.SearchResumesOf` and the `WorkUa.SearchResumes` method go through `WorkUa.AlignedResumesFromLinks` with `WorkUa.CorrectedParseStep`.
  - `TelegramBot.ResumeBot.Clear` stores what `start` stores.
- `WorkUa.AlignedWhenNothingDropped` shows that the link correction changes nothing when every resume page comes back.
