# jrn_resume ATS engine in Dafny

The service scores résumés for applicant tracking systems (ATS) and checks résumés and cover letters. This project models its rule engine in Dafny and proves what the rules promise.

**ATS analysis** (`AtsAnalysis`)
- The résumé is flattened into one text.
- Four sub-scores are computed: formatting, keywords, content structure and readability.
- They are combined with fixed weights into the overall score.
- Required skills are split into matching and missing ones, and the missing ones by priority.
- Recommendations are emitted in rule order and cut to ten.
- Industry insights are reported.

**Keyword matcher** (`Keywords`): normalises text, extracts dictionary terms, single words, bigrams and trigrams, looks up industry keywords and skills without regard to case, and suggests missing keywords.

**Six-factor scorer** (`AtsScoring`): formatting, content quality, keyword relevance, section completeness, ATS compatibility and industry alignment, with score bands and the three most urgent improvement areas.

**Score history** (`AtsRepository`)
- The per-résumé score log is capped at 50 entries.
- Its trend is the least-squares slope of the last five scores, compared without division.
- The per-user statistics and the industry benchmarks are also modelled.

**Résumé validation** (`Validators`, `ValidationService`, `ResumeModel`): field predicates, per-section error lists, completeness percentages, recommendations and the résumé score.

**Cover letters** (`CoverLetterValidation`, `CoverLetterPatterns`, `CoverLetterModel`)
- Structure errors and the word-count band.
- Completeness, content and style advice, and the clamped score.
- The tone, formality, confidence and enthusiasm classifiers, word variety and sentence complexity, and the improvement suggestions.

**Optimisation suggestions** (`AtsSuggestions`, `AtsEnhancementRules`, `AtsEnhancement`): five generators, the impact of each suggestion, and the sort-and-cut that keeps the most useful ones. The static benchmarks are here too.

**Small services**
- `Pagination`: the arithmetic of a paginated response.
- `ExportService`: the export-job cache, a class whose map is updated in place.
- `TemplateService`: the template catalogue queries.

**Shared modules**
- `ResumeData`: the résumé shape.
- `Text`: Python's `str` operations over `seq<char>`.
- `Basics`: numeric and list helpers.
- `Wrappers`: `Option` and `Result`.

**How the code is modelled**
- Pure computations are functions with lemmas.
- Loops are methods proved against those functions.
- Exceptions the code raises become `Result` errors.
- The clock, fresh ids, the PDF renderer and the random choice of a verb are parameters.

## Model

| member | source | states |
|---|---|---|
| Pagination.PageCount | app/schemas/response.py:26 | the page count is at least 1, is 1 for an empty result, and is otherwise the least number of pages of `size` items that holds `total` items: (pages − 1)·size < total ≤ pages·size |
| Pagination.Create | app/schemas/response.py:9-40 | construction succeeds exactly when total ≥ 0, page ≥ 1 and size ≥ 1 (the field constraints); a zero size with a positive total is the division-by-zero error; on success the inputs pass through, pages is the ceiling above, has_next ⇔ page < pages and has_prev ⇔ page > 1 |
| Pagination.NextIffItemsRemain | app/schemas/response.py:26-27 | for a non-empty result, a next page exists exactly when the current page ends before the last item (page·size < total) |
| Pagination.FirstPage | app/schemas/response.py:26-28 | the first page never has a previous page, and has a next page exactly when total > size |
| ResumeModel.Sections | app/models/resume.py:98-104 | the five sections, in the dictionary's order, with the defaults of the record's properties |
| ResumeModel.CompletedIn | app/models/resume.py:110-118 | the number of sections that pass their type check never exceeds the number of sections |
| ResumeModel.MissingIn | app/models/resume.py:114-121 | a name is listed exactly when some section of that name is falsy; completed plus missing never exceed the section count |
| ResumeModel.CalculateCompleteness | app/models/resume.py:96-128 | the loop's result: 5 sections in total, the completed count and missing list of the specification functions, and percentage = completed·100/5 |
| ResumeModel.PercentageSteps | app/models/resume.py:123 | the percentage is 20 times the completed count, so one of 0, 20, 40, 60, 80, 100 |
| ResumeModel.MissingIffFalsy | app/models/resume.py:112-121 | section k is reported missing exactly when its value is falsy |
| ResumeModel.AccountedIff | app/models/resume.py:112-121 | completed + missing equals the section count exactly when no truthy section fails its type check |
| ResumeModel.BlankSummaryUnaccounted | app/models/resume.py:112-121 | a whitespace-only summary is truthy but not completed, so completed + missing < 5 |
| ResumeModel.CompletesIsTruthy | app/models/resume.py:112-119 | a value counted as completed is truthy |
| CoverLetterModel.SectionsListed | app/models/cover_letter.py:108-114 | every section kind appears in the fixed list of five |
| CoverLetterModel.DoneCount | app/models/cover_letter.py:116 | the completed count is at most the number of sections, 0 exactly when none is completed and the full count exactly when all are |
| CoverLetterModel.MissingIn | app/models/cover_letter.py:120 | the missing list holds exactly the uncompleted sections, in order, and completed + missing = number of sections |
| CoverLetterModel.CalculateCompleteness | app/models/cover_letter.py:106-128 | five sections; completed + missing = 5; a section is missing exactly when it is not completed; percentage = 20·completed ∈ {0, 20, 40, 60, 80, 100}; 100 exactly when all are completed and 0 exactly when none is |
| CoverLetterModel.JobInformationNeedsBoth | app/models/cover_letter.py:109 | job information is missing exactly when the job title or the company name is missing |
| CoverLetterModel.EmptyLetterIsZero | app/models/cover_letter.py:108-120 | a letter without job data or hiring manager and with only blank paragraphs is 0% complete with all five sections missing |
| CoverLetterModel.GetWordCount | app/models/cover_letter.py:130-150 | the word count is the whitespace-token sum over opening, bodies and closing, and is 0 exactly when every paragraph is blank |
| ResumeData.VerbsUsedMeaning | app/services/ats_analysis_service.py:491-512 | a word is among the counted action verbs exactly when it is one of the 18 fixed verbs and, lower-cased with trailing `.,!?:;` dropped, it is the first word of some responsibility bullet of some job |
| ResumeData.BulletVerbsMeaning | app/utils/ats_scoring.py:512-517 | for one job's bullets: a verb is collected exactly when it is a fixed action verb that opens one of the bullets |
| ResumeData.CollectActionVerbs | app/utils/ats_scoring.py:501-517 | the outer loop over the jobs yields exactly the set of action verbs that open some bullet of some job, which never holds more than the 18 fixed verbs |
| ResumeData.AddBulletVerbs | app/services/ats_analysis_service.py:503-510 | the inner loop over one job's bullets adds exactly that job's bullet-opening action verbs to the set found so far |
| ResumeData.VerbsUsed | app/utils/ats_scoring.py:499-519 | only verbs of the fixed action-verb set are ever counted |
| ResumeData.WorkDatesMembers | app/services/ats_analysis_service.py:236-244 | a date is gathered exactly when it is non-empty and is the start or end date of some job; the same loop appears at app/services/ats_enhancement_service.py:380-384 |
| Validators.ValidEmailHasOneAt | app/utils/validators.py:13-16 | an address the e-mail pattern accepts contains exactly one `@` |
| Validators.EmailExamples | app/utils/validators.py:13-16 | `jane.doe@example.com` is accepted; `jane@example`, whose domain has no dot, is rejected |
| Validators.PhoneIgnoresSeparators | app/utils/validators.py:19-23 | inserting any non-digit character (space, dash, bracket) anywhere never changes whether a phone number is accepted, since only its digits are counted |
| Validators.ValidUrlHasScheme | app/utils/validators.py:26-32 | every non-empty URL the pattern accepts starts with `http://` or `https://` |
| Validators.UrlExamples | app/utils/validators.py:26-32 | the empty URL is accepted (optional field), `https://jane.dev/cv` is accepted, the scheme-less `jane.dev/cv` is rejected, and so is `http://a._x`, whose top-level domain is empty |
| Validators.EmptyTldRejected | app/utils/validators.py:30 | the top-level domain after the last dot needs at least one of its characters: `http://a._x` is rejected |
| Validators.ValidDateOfYearMonth | app/utils/validators.py:35-44 | a zero-padded `YYYY-MM` string is accepted exactly when the year is at least 1 and the month lies in 1..12 |
| Validators.DateExamples | app/utils/validators.py:35-44 | the empty date and the one-digit month `2024-3` are accepted; month 13, a trailing character and a slash separator are rejected |
| Validators.ParseIntOfNatToString | app/utils/validators.py:53 | `int()` reads the decimal rendering of every natural number back as that number |
| Validators.ValidYearRange | app/utils/validators.py:47-57 | the year check accepts a year exactly when it lies between 1900 and the current year plus ten, and never accepts the empty string |
| Validators.SectionErrorsMembership | app/utils/validators.py:95-126 | a list section reports issue `i` against entry number `k` exactly when 1 ≤ k ≤ the number of entries and checking the k-th entry (numbered from 1) finds `i`; it reports nothing else |
| Validators.SectionErrorsEmpty | app/utils/validators.py:95-126 | a list section is valid exactly when none of its entries has an issue |
| Validators.CollectSectionErrors | app/utils/validators.py:99-124 | the loop over the entries and their checks appends each entry's issues in order, numbered from 1 |
| Validators.ValidatePersonalInfo | app/utils/validators.py:68-92 | the errors are the missing required fields (first name, last name, email, phone), then an invalid email, an invalid phone and each invalid profile URL (one whose scheme, host or 1–6 character top-level domain is wrong), each checked only when given; valid ⇔ no errors |
| Validators.ValidateWorkExperience | app/utils/validators.py:95-125 | the errors are each job's missing fields, invalid dates, end-not-after-start and responsibility problems, numbered by job; valid ⇔ no errors |
| Validators.ValidateEducation | app/utils/validators.py:128-147 | the errors are each entry's missing fields, invalid graduation year (against the given current year) and out-of-range GPA; valid ⇔ no errors |
| Validators.ValidateCertifications | app/utils/validators.py:150-172 | the errors are each certification's missing fields, invalid issue or expiry date and invalid credential URL; valid ⇔ no errors |
| Validators.ValidateProjects | app/utils/validators.py:175-203 | the errors are each project's missing fields, missing technologies, invalid URLs and invalid dates; valid ⇔ no errors |
| Validators.ValidateLanguages | app/utils/validators.py:206-221 | the errors are a missing language, and a missing or unknown proficiency; valid ⇔ no errors |
| Validators.ValidateSkills | app/utils/validators.py:224-240 | a value that is not a dictionary gives the single "must be a dictionary" error; otherwise each category that is not a list, or that holds a blank skill, gives one error; valid ⇔ no errors |
| Validators.EndNotAfterStartReported | app/utils/validators.py:111-113 | job k gets the "end date must be after start date" error exactly when both dates are given and the end date is not greater than the start date in string order |
| Validators.ProficiencyReported | app/utils/validators.py:216-219 | language k gets the proficiency error exactly when a proficiency is given and it is not one of Basic, Intermediate, Advanced, Native, Fluent |
| Validators.NoResponsibilitiesReportedTwice | app/utils/validators.py:101-122 | a job with no responsibilities is reported both as missing the required field and by the "at least one responsibility" rule |
| Validators.NoTechnologiesReportedTwice | app/utils/validators.py:181-189 | a project with no technologies is reported both as missing the required field and by the "at least one technology" rule |
| Validators.CategoriesErrorsMembership | app/utils/validators.py:234-238 | every skills error comes from one of the categories, and every error of a category appears |
| Validators.BlankSkillReported | app/utils/validators.py:234-238 | a list-valued category is flagged for empty skills exactly when one of its skills is blank once stripped |
| Validators.ContentErrorsUnguarded | app/utils/validators.py:243-284 | skipping an empty optional section loses no error; the résumé is valid exactly when each of the seven section validators accepts its section |
| Validators.MissingPersonalInfoErrors | app/utils/validators.py:247-250 | a résumé without personal information gets exactly the four "is required" errors, in the order first name, last name, email, phone |
| Validators.ValidateResumeContent | app/utils/validators.py:243-284 | the errors are personal, work, education and skills errors, then those of certifications, projects and languages when present, in that order; valid ⇔ no errors |
| Validators.JobEndNotAfterStart | app/utils/validators.py:113-116 | a job is reported exactly when both dates are given and the end date is not after the start date under string comparison |
| ValidationService.SectionCompleteFacts | app/services/validation_service.py:91-103 | falsy section data is never complete; a string is complete exactly when it is not blank; any other value is complete exactly when it is truthy |
| ValidationService.TallySections | app/services/validation_service.py:58-73 | the loop over a section table counts the complete sections and lists the names of the others, in table order |
| ValidationService.CalculateCompleteness | app/services/validation_service.py:42-89 | the result reports the complete and missing required sections out of 5, the complete optional sections, and the percentage computed from those two counts |
| ValidationService.CompleteAndIncompletePartition | app/services/validation_service.py:63-67 | complete plus missing sections add up to the number of sections, and a name is listed as missing exactly when its section is incomplete |
| ValidationService.CompletenessShape | app/services/validation_service.py:42-89 | every required section is counted or listed as missing; the percentage is 17 points per complete required and 5 per complete optional section, stays within 0..100, and is 100 only when all eight sections are complete |
| ValidationService.BlankSummaryIsMissing | app/services/validation_service.py:100-101 | a professional summary made only of whitespace is still listed as a missing section |
| ValidationService.SummaryRecommendations | app/services/validation_service.py:110-113 | "add a summary" appears exactly when the summary is empty, "expand your summary" exactly when it is shorter than 50 characters but not empty |
| ValidationService.WorkRecommendations | app/services/validation_service.py:116-130 | "add work experience" appears exactly when there is no work history; otherwise only per-job advice appears |
| ValidationService.LaterSectionRecommendations | app/services/validation_service.py:133-150 | "add education", "add certifications" and "add projects" appear exactly when those sections are empty |
| ValidationService.LinkRecommendations | app/services/validation_service.py:153-158 | the LinkedIn advice appears exactly when no LinkedIn URL is given; the GitHub advice exactly when the résumé looks technical and gives no GitHub URL |
| ValidationService.GenerateRecommendations | app/services/validation_service.py:105-164 | the method's result is the first ten of the rules that fire, in the service's order, with the job loop producing each job's advice in job order |
| ValidationService.SummaryAndWorkTriggers | app/services/validation_service.py:110-118 | over the whole rule list: the summary advice follows the summary's emptiness and length, the work advice follows an empty work history |
| ValidationService.SectionTriggers | app/services/validation_service.py:133-147 | over the whole rule list: the education, certification and project advice each appear exactly when that section is empty |
| ValidationService.LinkAndErrorTriggers | app/services/validation_service.py:152-162 | over the whole rule list: the LinkedIn and GitHub advice follow their conditions, and the "fix the validation errors" advice appears exactly when there are errors |
| ValidationService.ShortJobsAdvised | app/services/validation_service.py:120-124 | every job with fewer than three responsibilities gets its own "add more responsibilities" advice naming its title |
| ValidationService.RecommendationsBounded | app/services/validation_service.py:164 | at most ten recommendations are returned, and when ten or fewer rules fire all of them are returned |
| ValidationService.ResumeScoreBounds | app/services/validation_service.py:197-251 | for a completeness in 0..100 the résumé score lies in 0..80 (quality adds at most 51 × 0.4 points, so the cap at 100 never applies) and is at least the completeness share alone |
| ValidationService.ResumeScoreMonotone | app/services/validation_service.py:199-249 | a higher completeness never gives a lower résumé score |
| ValidationService.ValidateResume | app/services/validation_service.py:16-37 | the errors are the validator's, valid ⇔ no errors, the completeness and missing fields are those of the completeness rule, the recommendations are computed with "has errors" ⇔ not valid, and the score uses the reported completeness |
| ValidationService.ValidateSection | app/services/validation_service.py:253-283 | an unknown section type gives an invalid result with completeness 0 and the single "unknown section type" error; data not of the named section's shape fails the call; otherwise valid ⇔ the section's validator finds no errors, completeness is 100 when valid and 0 otherwise, and the messages are the validator's errors, one for one and in order |
| ValidationService.JobRecommendations | app/services/validation_service.py:120-130 | one job only ever draws the more-responsibilities and quantify-achievements advice |
| ValidationService.OpeningRecommendations | app/services/validation_service.py:109-130 | the summary and work rules: add a summary exactly when there is none, expand it exactly when it has 1 to 49 characters, add work experience exactly when there is none, and nothing about later sections |
| ValidationService.SectionRecommendations | app/services/validation_service.py:109-147 | each section rule fires exactly when its section is missing or short, and no link or validation advice comes from them |
| ValidationService.QualityScore | app/services/validation_service.py:202-246 | the quality points never exceed 51 |
| Keywords.IndustryKeywords | app/utils/ats_keywords.py:226-232 | an empty industry gives no keywords, and any keywords returned belong to one of the table's industries, looked up by the lower-cased name |
| Keywords.IndustryKeywordsIgnoreCase | app/utils/ats_keywords.py:231-232 | two industry names that differ only in letter case give the same keywords |
| Keywords.SkillPriorities | app/utils/ats_keywords.py:256-262 | any industry other than technology, healthcare or finance (in any case), including the empty one, gets three empty priority tiers |
| Keywords.ExtendAll | app/utils/ats_keywords.py:244-245 | the `extend` loop appends the given lists in order |
| Keywords.IndustrySkills | app/utils/ats_keywords.py:234-254 | the industry's skills as a duplicate-free set: empty for an empty industry, and containing every keyword of the industry |
| Keywords.ExtractKeywords | app/utils/ats_keywords.py:161-199 | the four loops yield exactly the keyword set of the text (dictionary terms, single words, relevant bigrams and trigrams); an empty text has none, and every keyword is a substring of the normalised text |
| Keywords.AddDictionaryTerms | app/utils/ats_keywords.py:174-177 | the dictionary loop adds exactly the technical terms that are substrings of the searched text |
| Keywords.AddSingleWords | app/utils/ats_keywords.py:180-186 | the single-word loop adds exactly the words longer than 2 that are not stop words, not all digits, and made only of ASCII letters and '-' |
| Keywords.AddBigrams | app/utils/ats_keywords.py:189-192 | the bigram loop adds exactly the relevant phrases among the pairs of adjacent words |
| Keywords.AddTrigrams | app/utils/ats_keywords.py:194-197 | the trigram loop adds exactly the relevant phrases among the triples of adjacent words |
| Keywords.FindAllSubstrings | app/utils/ats_keywords.py:285-287 | every match `re.findall` returns for a soft-skill pattern is a substring of the searched text |
| Keywords.ExtractSkillsFromText | app/utils/ats_keywords.py:264-289 | the skills found are the technical terms occurring in the lower-cased text plus the soft-skill pattern matches, and each is a substring of the lower-cased text |
| Keywords.KeywordDensity | app/utils/ats_keywords.py:291-303 | the density is the total count of (lower-cased) keyword occurrences per 100 words; it is 0 for an empty text, an empty keyword list or a text without words, and never negative |
| Keywords.SplitByPriority | app/utils/ats_keywords.py:318-327 | the three priority lists split the missing keywords exactly, each keyword landing in the tier its category gives it |
| Keywords.SuggestKeywordImprovements | app/utils/ats_keywords.py:305-336 | missing and present split the lower-cased target set against the current one; the high/medium/low tiers split the missing keywords by category; the match percentage is present ÷ number of targets × 100, within 0..100, and 0 for no targets |
| Keywords.NormalizedWords | app/utils/ats_keywords.py:167-168 | the normalised text is its own words joined by single spaces |
| Keywords.KeywordIsSubstring | app/utils/ats_keywords.py:171-197 | every extracted keyword occurs in the normalised text |
| Keywords.KeywordsUseNormalChars | app/utils/ats_keywords.py:167-177 | every extracted keyword consists of word characters, '-' and spaces only, so a dictionary term holding any other character is never extracted from any text |
| Keywords.UnmatchableTerms | app/utils/ats_keywords.py:32-75 | the technical and industry terms "c++", "c#", "asp.net", "next.js", "nuxt.js" and "ci/cd" are never extracted as keywords, whatever the text |
| Keywords.SingleWordKeywordShape | app/utils/ats_keywords.py:180-197 | a keyword without a space that is not a dictionary term passes the single-word test |
| AtsScoring.OverallWrittenOut | app/utils/ats_scoring.py:73-82 | the overall score is 0.15·formatting + 0.25·content quality + 0.25·keyword relevance + 0.15·section completeness + 0.10·ATS compatibility + 0.10·industry alignment |
| AtsScoring.WeightsSumToOne | app/utils/ats_scoring.py:73-80 | the six factor weights add up to 1 |
| AtsScoring.OverallIsWeightedAverage | app/utils/ats_scoring.py:82 | the overall score lies between the lowest and highest factor score, equals the common score when all six agree, and never falls when a factor score rises |
| AtsScoring.ExtractAllText | app/utils/ats_scoring.py:521-573 | the résumé text gathers names, summary, each job's title, company and responsibilities, each education entry, every skill, each project and each certification, and joins the non-empty parts with single spaces |
| AtsScoring.EmptyResumeHasNoText | app/utils/ats_scoring.py:521-573 | a résumé with nothing in it yields the empty text |
| AtsScoring.SimpleKeywordShape | app/utils/ats_scoring.py:575-588 | every simple keyword is longer than two characters, is not one of the 14 stop words and holds only word characters |
| AtsScoring.ShareBounds | app/utils/ats_scoring.py:99-125 | a share of part ≤ whole entries scaled to `points` lies in 0..points and reaches `points` exactly when every entry counts |
| AtsScoring.FormattingParts | app/utils/ats_scoring.py:91-131 | the formatting score is the sum of five parts worth at most 30, 20, 25, 15 and 10, so it stays within 0..100 and the cap never binds; the work and education parts are full exactly when every entry carries all its structural fields |
| AtsScoring.ScoreFormatting | app/utils/ats_scoring.py:91-131 | the step-by-step computation, with the structured entries counted in loops, gives the formatting score |
| AtsScoring.CheckQuantifiedAchievements | app/utils/ats_scoring.py:486-497 | the early-return loops answer true exactly when some bullet of some job, lower-cased, holds a digit or "increased by", "reduced by" or "improved by" |
| AtsScoring.ScoreActionVerbs | app/utils/ats_scoring.py:499-519 | ten points per distinct action verb opening a bullet, within 0..100, and 100 exactly when ten or more distinct verbs are used |
| AtsScoring.ContentQualityRange | app/utils/ats_scoring.py:133-191 | the content-quality score lies in 3..100 (the skills part always gives at least 3), and the uncapped points never exceed 105 |
| AtsScoring.ContentQualityCapBinds | app/utils/ats_scoring.py:133-191 | a résumé in the top band of every part reaches 105 uncapped points, so the cap at 100 does bind |
| AtsScoring.ScoreContentQuality | app/utils/ats_scoring.py:133-191 | the step-by-step computation gives the content-quality score: summary, responsibility depth, quantified achievements, action verbs, skill diversity and bonus sections, capped at 100 |
| AtsScoring.OverlapBounds | app/utils/ats_scoring.py:213-224 | the keyword-overlap points lie between 0 and the points available (60 for the job, 40 for the industry) |
| AtsScoring.EmptyResumeDividesByZero | app/utils/ats_scoring.py:227 | scoring an empty résumé against a job description divides by the résumé's zero word count |
| AtsScoring.KeywordRelevanceAsWritten | app/utils/ats_scoring.py:193-233 | the score as written fails (division by zero) exactly when a job description or an industry is given and the résumé text has no words |
| AtsScoring.RelevancePoints | app/utils/ats_scoring.py:205-231 | the job overlap (up to 60), the industry overlap (up to 40) and the density points, capped, lie in 0..100 |
| AtsScoring.KeywordRelevanceScore | app/utils/ats_scoring.py:193-233 | the corrected score is 50 when neither a job description nor an industry is given, and always lies in 0..100 |
| AtsScoring.KeywordRelevanceCorrected | app/utils/ats_scoring.py:193-233 | the corrected score equals the code's score wherever the code does not divide by zero; where it does, the corrected score is the two overlaps alone, capped at 100, with no density points |
| AtsScoring.ScoreOverlap | app/utils/ats_scoring.py:213-224 | the overlap is the number of distinct shared keywords over the reference list's length, scaled to the points, and nothing for an empty reference |
| AtsScoring.ScoreKeywordRelevance | app/utils/ats_scoring.py:193-233 | the step-by-step computation gives the (corrected) keyword-relevance score |
| AtsScoring.ScoreSectionCompleteness | app/utils/ats_scoring.py:235-275 | the loop over the four essential sections plus the optional share gives the section-completeness score |
| AtsScoring.SectionCompletenessRange | app/utils/ats_scoring.py:235-275 | the essential sections give at most 70 and the optional ones at most 30, so the score stays within 0..100 uncapped, and it is 100 exactly for a résumé with all four contact fields, work, education, a listed skill, a summary and all three optional sections |
| AtsScoring.AtsCompatibilityRange | app/utils/ats_scoring.py:277-329 | the compatibility score lies in 25..100, so the floor at 0 never binds; without any work date only the special-character and missing-section deductions apply |
| AtsScoring.CountMissingSections | app/utils/ats_scoring.py:294-298 | the loop counts how many of personal info, work experience and education are absent |
| AtsScoring.CheckDates | app/utils/ats_scoring.py:300-327 | the deduction is 10 for a work date not opening with YYYY-MM, 5 for a malformed email and 5 for a phone with fewer than ten digits, and nothing when no work date is set |
| AtsScoring.ScoreAtsCompatibility | app/utils/ats_scoring.py:277-329 | the deductions applied step by step give the compatibility score |
| AtsScoring.TechAlignment | app/utils/ats_scoring.py:354-395 | the technology alignment points lie in 0..100 |
| AtsScoring.HealthcareAlignment | app/utils/ats_scoring.py:397-426 | the healthcare alignment points lie in 0..100 |
| AtsScoring.FinanceAlignment | app/utils/ats_scoring.py:428-460 | the finance alignment points lie in 0..100 |
| AtsScoring.GeneralAlignment | app/utils/ats_scoring.py:462-484 | the general alignment points start at 50 and lie in 50..100 |
| AtsScoring.IndustryAlignmentRange | app/utils/ats_scoring.py:331-352 | with an industry the score is its rules' points uncapped (the cap never binds); the score lies in 0..100, and any industry other than technology, healthcare and finance scores at least 50 |
| AtsScoring.LevelBands | app/utils/ats_scoring.py:602-626 | a score lands in the highest band (Excellent 80, Good 60, Fair 40) whose floor it reaches, and a higher score never lands in a lower band |
| AtsScoring.ScoreBreakdown | app/utils/ats_scoring.py:602-626 | every factor appears with its score, its band and that band's colour |
| AtsScoring.WeakFactorsShape | app/utils/ats_scoring.py:650-652 | the weak-factor loop keeps exactly the factors below their threshold, in priority order |
| AtsScoring.ImprovementAreasShape | app/utils/ats_scoring.py:628-654 | at most three areas, each below its threshold, in priority order; a weak factor is left out only when three more urgent weak factors are reported |
| AtsScoring.IdentifyImprovementAreas | app/utils/ats_scoring.py:628-654 | the loop over the priority order followed by the cut gives the improvement areas |
| AtsScoring.DetailedScoresInRange | app/utils/ats_scoring.py:50-70 | each of the six detailed scores lies in 0..100 |
| AtsScoring.ScoreFactors | app/utils/ats_scoring.py:50-70 | the six factor methods together give the detailed scores |
| AtsScoring.CalculateComprehensiveScore | app/utils/ats_scoring.py:42-89 | the result holds the detailed scores, their weighted overall score (within 0..100), the breakdown and the improvement areas |
| AtsScoring.JobPoints | app/utils/ats_scoring.py:209-216 | the job-description points lie in 0..60 |
| AtsScoring.IndustryPoints | app/utils/ats_scoring.py:218-224 | the industry points lie in 0..40 |
| AtsAnalysis.CollectTextParts | app/services/ats_analysis_service.py:97-177 | gathers the name, summary, job, education, skill, project and certification texts in the order the service reads them |
| AtsAnalysis.ExtractResumeText | app/services/ats_analysis_service.py:95-184 | the text is the kept parts joined by single spaces; it is empty exactly when every part is blank, and otherwise has at least one word |
| AtsAnalysis.KeptPartsShape | app/services/ats_analysis_service.py:179 | every kept part is stripped and non-empty, and nothing is kept exactly when every part is blank |
| AtsAnalysis.JoinedPartsEmptyIff | app/services/ats_analysis_service.py:179-180 | the joined text is empty exactly when every part is blank, and a non-empty joined text has words |
| AtsAnalysis.ResumeTextEmptyIff | app/services/ats_analysis_service.py:95-180 | a résumé has no text exactly when every text field is blank |
| AtsAnalysis.ResumeTextHasWords | app/services/ats_analysis_service.py:95-180 | a résumé with some text has at least one word |
| AtsAnalysis.EmptyContentHasNoText | app/services/ats_analysis_service.py:95-180 | a résumé with no sections yields no text at all |
| AtsAnalysis.MissingSectionIssues | app/services/ats_analysis_service.py:194-202 | every issue raised for the required sections is a missing-section issue |
| AtsAnalysis.MissingPersonalIssues | app/services/ats_analysis_service.py:205-213 | every issue raised for the contact fields is a missing-field issue |
| AtsAnalysis.JobIssues | app/services/ats_analysis_service.py:223-234 | each job's missing title, company or responsibilities costs 5 points |
| AtsAnalysis.CheckJob | app/services/ats_analysis_service.py:224-234 | appends one job's issues and deducts exactly their penalty |
| AtsAnalysis.CheckJobs | app/services/ats_analysis_service.py:221-234 | appends every job's issues in order and deducts exactly their total penalty |
| AtsAnalysis.CheckDates | app/services/ats_analysis_service.py:247 | reports the dates as inconsistent exactly when they come in more than one length |
| AtsAnalysis.DatesInconsistentIff | app/services/ats_analysis_service.py:247 | dates are inconsistent exactly when two of them differ in length |
| AtsAnalysis.CheckSectionsAndContact | app/services/ats_analysis_service.py:193-213 | starts from 100 and deducts 15 per missing section and 5 per missing contact field |
| AtsAnalysis.CheckSummary | app/services/ats_analysis_service.py:215-218 | a missing summary costs 10 points and adds one piece of advice |
| AtsAnalysis.CheckDateConsistency | app/services/ats_analysis_service.py:247-250 | inconsistent dates cost 5 points and add one piece of advice |
| AtsAnalysis.AnalyzeFormatting | app/services/ats_analysis_service.py:186-257 | the score is 100 minus the total penalty of the issues found, floored at 0, with the issues in the order they are checked |
| AtsAnalysis.FormattingPerfectIff | app/services/ats_analysis_service.py:186-257 | formatting scores 100 exactly when no issue is found |
| AtsAnalysis.KeywordScore | app/services/ats_analysis_service.py:334-376 | the keyword score is clamped to 0..100 |
| AtsAnalysis.JobBonusRange | app/services/ats_analysis_service.py:350-353 | the job-match bonus lies in 0..30 and is the full 30 when every job keyword matches |
| AtsAnalysis.KeywordScoreMonotone | app/services/ats_analysis_service.py:334-372 | matching more job or industry keywords never lowers the keyword score |
| AtsAnalysis.MatchBounds | app/services/ats_analysis_service.py:293-295 | no more keywords match than the job description has |
| AtsAnalysis.UpToTen | app/services/ats_analysis_service.py:298 | picks min(10, n) of the n missing keywords, all of them missing |
| AtsAnalysis.ExtractJobKeywords | app/services/ats_analysis_service.py:289-291 | the job's keywords are those extracted from its lower-cased text |
| AtsAnalysis.MatchJob | app/services/ats_analysis_service.py:289-298 | the match percentage lies in 0..100 and is absent when the job has no keywords; at most ten missing keywords are reported, each in the job but not the résumé |
| AtsAnalysis.MatchedKeywords | app/services/ats_analysis_service.py:313 | the matched keywords are exactly those the résumé and the job share |
| AtsAnalysis.KeywordDensity | app/services/ats_analysis_service.py:306-307 | the density is keywords per hundred words, an empty text counting as one word |
| AtsAnalysis.AnalyzeKeywords | app/services/ats_analysis_service.py:266-319 | the keyword analysis of the résumé's text against the job and industry, with every score and percentage in range |
| AtsAnalysis.AnalyzeKeywordsOfText | app/services/ats_analysis_service.py:274-319 | the keyword analysis of a lower-cased text, with the score in 0..100 and the job match in 0..100 |
| AtsAnalysis.FindQuantifiableAchievement | app/services/ats_analysis_service.py:466-486 | finds a quantified responsibility exactly when some job has one |
| AtsAnalysis.QuantifyingVerbs | app/services/ats_analysis_service.py:480 | a responsibility that opens with improved, increased or reduced counts as quantified |
| AtsAnalysis.QuantifyingVerbsUsed | app/services/ats_analysis_service.py:480-511 | a résumé credited with the verb improved, increased or reduced always has a quantifiable achievement |
| AtsAnalysis.CountResponsibilities | app/services/ats_analysis_service.py:403-411 | totals the responsibilities of every job, each job counting as valid |
| AtsAnalysis.Charge | app/services/ats_analysis_service.py:389-446 | appends issues and deducts exactly their penalty |
| AtsAnalysis.CheckWork | app/services/ats_analysis_service.py:401-445 | the detail and quantification issues of the work history, and the action verbs its bullets open with |
| AtsAnalysis.CheckContent | app/services/ats_analysis_service.py:389-446 | the content issues in the order checked, the score 100 minus their penalty, and the verbs used |
| AtsAnalysis.AnalyzeContentStructure | app/services/ats_analysis_service.py:378-464 | the content report of the résumé: word count, issues, verbs used and score |
| AtsAnalysis.ContentScoreAtLeast30 | app/services/ats_analysis_service.py:378-449 | the content score lies in 30..100, so the floor at 0 never binds |
| AtsAnalysis.ContentPenaltyAtMost70 | app/services/ats_analysis_service.py:389-446 | the content penalties add up to at most 70 |
| AtsAnalysis.PartPenalties | app/services/ats_analysis_service.py:389-446 | each of the five checks raises at most one issue, costing at most 20, 15, 15, 10 and 10 points |
| AtsAnalysis.FivePartsPenalty | app/services/ats_analysis_service.py:389-446 | five checks of one issue each cost at most 70 points together |
| AtsAnalysis.ReadabilityRange | app/services/ats_analysis_service.py:519-550 | readability lies in 0..100 and is 0 for a blank text |
| AtsAnalysis.ReadabilityOfPerfectIff | app/services/ats_analysis_service.py:537-546 | the score is 100 exactly when sentences average 15 words and words average 5 characters |
| AtsAnalysis.ReadabilityPerfectIff | app/services/ats_analysis_service.py:519-546 | a text reads at 100 exactly when it has sentences averaging 15 words of 5 characters on average |
| AtsAnalysis.OverallOfEqualScores | app/services/ats_analysis_service.py:562-576 | the weights add up to one: four equal part scores give that score overall |
| AtsAnalysis.OverallMonotone | app/services/ats_analysis_service.py:552-576 | the overall score lies in 0..100 and never falls when a part score rises |
| AtsAnalysis.CollectCurrentSkills | app/services/ats_analysis_service.py:590-597 | the current skills are the lower-cased non-empty skills of every category |
| AtsAnalysis.JobSkills | app/services/ats_analysis_service.py:601-603 | the skills the job description names, lower-cased, or none without a job |
| AtsAnalysis.IndustryRequiredSkills | app/services/ats_analysis_service.py:605-607 | the skills of the target industry, lower-cased, or none without an industry |
| AtsAnalysis.CompareSkills | app/services/ats_analysis_service.py:609-632 | missing and matching skills split the required ones; the missing ones are split into critical, important and nice-to-have tiers; the percentage is the matched share, 100 when nothing is required |
| AtsAnalysis.AnalyzeSkillGaps | app/services/ats_analysis_service.py:582-645 | the skill-gap analysis of the résumé's skills against the job's and the industry's |
| AtsAnalysis.SkillMatchPercentage | app/services/ats_analysis_service.py:629-632 | the match percentage lies in 0..100 and is 100 exactly when no required skill is missing |
| AtsAnalysis.ZeroMatchGetsNoAlignmentAdvice | app/services/ats_analysis_service.py:698 | as written, a 0% job match gets no job-alignment advice although a match below 60% is meant to |
| AtsAnalysis.FixStructureAll | app/services/ats_analysis_service.py:673-681 | one structure fix per formatting issue, in the issues' order |
| AtsAnalysis.FixFirstIssues | app/services/ats_analysis_service.py:672-681 | structure fixes for the first three issues when formatting scores below 80, none otherwise |
| AtsAnalysis.GenerateRecommendations | app/services/ats_analysis_service.py:658-759 | the structure fixes, then one recommendation per failed threshold in the order checked, capped at ten |
| AtsAnalysis.MediumAdvice | app/services/ats_analysis_service.py:697-712 | the medium-priority advice: "expand content" exactly when the résumé has fewer than 200 words, job alignment (carrying the match) exactly when a job match is given and is below 60% (including 0%, by the corrected rule), nothing else, all of medium priority |
| AtsAnalysis.RecommendationParts | app/services/ats_analysis_service.py:668-755 | a recommendation is given exactly when it is a structure fix or some threshold's advice |
| AtsAnalysis.RecommendationTriggers | app/services/ats_analysis_service.py:672-752 | each recommendation appears exactly when its threshold fails: keywords below 70, a job match below 60%, fewer than 200 words, readability below 70, fewer than 5 verbs, formatting below 80 with an issue |
| AtsAnalysis.RecommendationsUncut | app/services/ats_analysis_service.py:755 | the cap of ten never drops a recommendation |
| AtsAnalysis.AdviceMembership | app/services/ats_analysis_service.py:683-752 | each threshold advice is present exactly when its threshold fails |
| AtsAnalysis.RecommendationsOrdered | app/services/ats_analysis_service.py:668-755 | at most eight recommendations, high before medium before low priority |
| AtsAnalysis.MissingTrending | app/services/ats_analysis_service.py:818-821 | the trending skills whose lower-cased form the résumé lacks, and only those |
| AtsAnalysis.InsightsShape | app/services/ats_analysis_service.py:761-832 | insights exist exactly when an industry is given; an unknown industry gets no benchmark, trends or advice; a known one gets its trends, and advice exactly when a trending skill is missing |
| AtsAnalysis.AnalyzeResume | app/services/ats_analysis_service.py:28-93 | rejects a missing résumé and, exactly when every text field is blank, an empty one; otherwise every score and report is that of the résumé, stamped with the given time |
| AtsAnalysis.BuildAnalysis | app/services/ats_analysis_service.py:46-85 | gathers the scores, recommendations, skill gaps and insights of a résumé with text |
| AtsAnalysis.ScoreResume | app/services/ats_analysis_service.py:46-55 | the four part analyses of the résumé and the overall score, which lies in 0..100 |
| AtsRepository.KeepLast | app/repositories/ats_repository.py:145-146 | keeps the last min(n, length) entries, in order |
| AtsRepository.RecordedShape | app/repositories/ats_repository.py:124-162 | the new entry goes last and the date is updated; an existing history gains one entry, drops its oldest only when it already held 50, and counts one more analysis; the first analysis creates a one-entry history counted once |
| AtsRepository.RecordedWellFormed | app/repositories/ats_repository.py:138-162 | a recorded history counts at least one analysis and holds exactly min(analyses, 50) entries, given that the old one did |
| AtsRepository.ScoreHistoryStore.UpdateScoreHistory | app/repositories/ats_repository.py:124-167 | replaces the résumé's row by its recorded history and leaves every other row unchanged |
| AtsRepository.ScoreHistoryStore.GetScoreHistory | app/repositories/ats_repository.py:89-117 | no row gives no scores and a neutral trend; otherwise the last `limit` entries (all for 0) with the trend of exactly those entries |
| AtsRepository.LimitScores | app/repositories/ats_repository.py:107 | a limit of 0 keeps everything, a positive one keeps the last `limit` entries, a negative one drops the first entries |
| AtsRepository.SlopeFacts | app/repositories/ats_repository.py:183-201 | for two to five scores the denominator is non-zero and the slope exceeds 2 or falls below −2 exactly when the cross-multiplied test says so |
| AtsRepository.TrendCrossMultiplied | app/repositories/ats_repository.py:169-201 | the trend computed with means and a division equals the division-free classification on every history |
| AtsRepository.TrendNeutralOnlyWhenShort | app/repositories/ats_repository.py:171-189 | the trend is neutral exactly when there are fewer than two scores, so the zero-denominator branch never fires |
| AtsRepository.TrendOfRecent | app/repositories/ats_repository.py:175-176 | only the last five scores decide the trend |
| AtsRepository.EvenStepsTrend | app/repositories/ats_repository.py:174-201 | scores changing by the same step d improve exactly when d > 2, decline exactly when d < −2 and are stable otherwise, constant scores included |
| AtsRepository.TrendExamples | app/repositories/ats_repository.py:169-201 | 40, 45, 50, 55, 60 is improving, its reverse declining, and any constant run of two or six scores stable |
| Basics.Highest | app/repositories/ats_repository.py:224 | the highest score is one of the scores and no score exceeds it |
| Basics.Lowest | app/repositories/ats_repository.py:225 | the lowest score is one of the scores and no score is below it |
| AtsRepository.CountSince | app/repositories/ats_repository.py:227-230 | the analyses of the last 30 days never outnumber all analyses |
| AtsRepository.UserStatsShape | app/repositories/ats_repository.py:203-242 | zeros without analyses; otherwise the count of analyses, lowest ≤ average ≤ highest with both extremes attained, the newest minus the oldest score as improvement, the newest date, and a month count within the total |
| AtsRepository.BenchmarksFor | app/repositories/ats_repository.py:290-291 | keeps exactly the table's benchmarks whose industry equals the request ignoring case |
| AtsRepository.IndustryBenchmarks | app/repositories/ats_repository.py:250-293 | all four benchmarks without an industry, otherwise exactly the case-insensitive matches |
| CoverLetterValidation.ValidateStructure | app/services/cover_letter_validation_service.py:88-114 | the structure errors of the opening, each body paragraph in order, and the closing |
| CoverLetterValidation.EndParagraphMeaning | app/services/cover_letter_validation_service.py:93-96 | an opening or closing is reported missing exactly when blank and too short exactly when present with under 20 stripped characters, never both |
| CoverLetterValidation.BodiesErrorsKinds | app/services/cover_letter_validation_service.py:102-106 | the body-paragraph checks raise no opening, closing or missing-bodies error |
| CoverLetterValidation.BodiesErrorsMeaning | app/services/cover_letter_validation_service.py:102-106 | body paragraph n is reported empty exactly when blank, and too short exactly when present with under 30 stripped characters |
| CoverLetterValidation.BodyErrorsMeaning | app/services/cover_letter_validation_service.py:103-106 | one paragraph raises at most its own empty or too-short error |
| CoverLetterValidation.EndErrorsMeaning | app/services/cover_letter_validation_service.py:88-114 | each opening and closing error appears exactly when its condition holds, and the missing-bodies error exactly when there are no body paragraphs |
| CoverLetterValidation.BodyErrorsReported | app/services/cover_letter_validation_service.py:99-106 | in the whole letter, body paragraph n is reported empty or too short exactly when it is |
| CoverLetterValidation.CalculateWordCount | app/services/cover_letter_validation_service.py:127-141 | the word count is the sum of the whitespace-separated words of the opening, every body and the closing |
| CoverLetterValidation.ParagraphWordsZero | app/services/cover_letter_validation_service.py:131-139 | a paragraph contributes no words exactly when it is blank |
| CoverLetterValidation.BodiesWordsZero | app/services/cover_letter_validation_service.py:134-136 | the bodies contribute no words exactly when every body is blank |
| CoverLetterValidation.NoWordsIffAllBlank | app/services/cover_letter_validation_service.py:127-141 | a letter has no words exactly when every paragraph is blank |
| CoverLetterValidation.WordCountErrors | app/services/cover_letter_validation_service.py:116-125 | at most one error: too short exactly under 100 words, too long exactly over 600, none exactly within 100..600 |
| CoverLetterValidation.Completeness | app/services/cover_letter_validation_service.py:143-155 | completeness is 0, 25, 50, 75 or 100; 100 exactly when opening, body, closing and 200 words are all present, 0 exactly when none is |
| CoverLetterValidation.BlankLetterIncomplete | app/services/cover_letter_validation_service.py:143-155 | a letter whose every paragraph is blank is 0% complete |
| CoverLetterValidation.FirstContained | app/services/cover_letter_validation_service.py:180-185 | the first listed phrase the text contains, none exactly when it contains none |
| CoverLetterValidation.FirstContainedUnique | app/services/cover_letter_validation_service.py:180-185 | the phrase found is the only one occurring with no occurring phrase listed before it |
| CoverLetterValidation.LengthAdvice | app/services/cover_letter_validation_service.py:167-175 | asks to expand exactly under 250 words and to condense exactly over 400 |
| CoverLetterValidation.WeakPhraseAdvice | app/services/cover_letter_validation_service.py:179-185 | names exactly the first weak phrase the lower-cased opening contains |
| CoverLetterValidation.OpeningAdvice | app/services/cover_letter_validation_service.py:177-190 | for a present opening, the weak-phrase advice and, exactly when it names no company or position, the advice to mention them |
| CoverLetterValidation.BodyAdvice | app/services/cover_letter_validation_service.py:192-208 | when there are bodies, asks for examples exactly when no body has one and for numbers exactly when no body has one |
| CoverLetterValidation.ClosingAdvice | app/services/cover_letter_validation_service.py:210-214 | asks for a call to action exactly when a present closing lacks one |
| CoverLetterValidation.GenerateContentRecommendations | app/services/cover_letter_validation_service.py:157-216 | the length, opening, body and closing advice in that order, the weak-phrase scan stopping at the first hit |
| CoverLetterValidation.LengthAndOpeningAdvice | app/services/cover_letter_validation_service.py:167-190 | in the content advice, expand, condense and mention-the-company each appear exactly when their condition holds |
| CoverLetterValidation.WeakPhraseAdviceMeaning | app/services/cover_letter_validation_service.py:178-185 | the content advice replaces exactly the first weak phrase of a present opening |
| CoverLetterValidation.BodyAndClosingAdvice | app/services/cover_letter_validation_service.py:192-214 | in the content advice, examples, numbers and a call to action are asked for exactly when missing |
| CoverLetterValidation.AdviceIn | app/services/cover_letter_validation_service.py:157-216 | a piece of advice is given exactly when the rule it belongs to gives it |
| CoverLetterValidation.Occurrences | app/services/cover_letter_validation_service.py:273-275 | a word occurs no more often than there are words |
| CoverLetterValidation.CountedOrderMeaning | app/services/cover_letter_validation_service.py:271-275 | the counted words are listed once each in first-seen order, and are exactly the alphabetic words longer than four letters |
| CoverLetterValidation.FrequentMembers | app/services/cover_letter_validation_service.py:277 | the frequent words are exactly the listed words occurring more than three times, and have no repeats when the list has none |
| CoverLetterValidation.WordingAdvice | app/services/cover_letter_validation_service.py:229-257 | asks for power words exactly when fewer than three occur, and for active voice exactly when more than two passive phrases occur |
| CoverLetterValidation.LongParagraphAdvice | app/services/cover_letter_validation_service.py:259-268 | names the long paragraphs exactly when there are some |
| CoverLetterValidation.RepeatedWordsMeaning | app/services/cover_letter_validation_service.py:270-277 | the repeated words are distinct, alphabetic, longer than four letters and occur more than three times |
| CoverLetterValidation.RepetitionAdvice | app/services/cover_letter_validation_service.py:278-281 | names the first three repeated words exactly when some word repeats |
| CoverLetterValidation.WordFrequencies | app/services/cover_letter_validation_service.py:271-275 | the frequency map holds exactly the counted words, each with its number of occurrences, in first-seen order |
| CoverLetterValidation.FindLongParagraphs | app/services/cover_letter_validation_service.py:260-263 | the loop collects the numbers of the long paragraphs |
| CoverLetterValidation.FrequentWords | app/services/cover_letter_validation_service.py:277 | the loop keeps exactly the words counted more than three times, in order |
| CoverLetterValidation.GenerateStyleRecommendations | app/services/cover_letter_validation_service.py:218-298 | the wording, long-paragraph and repetition advice in that order |
| CoverLetterValidation.RepetitionAdviceMeaning | app/services/cover_letter_validation_service.py:270-281 | the repetition advice names one to three distinct alphabetic words longer than four letters, each occurring more than three times |
| CoverLetterValidation.LongParagraphsMeaning | app/services/cover_letter_validation_service.py:260-263 | paragraph n is named exactly when it is a present body of more than 150 words |
| CoverLetterValidation.WordScore | app/services/cover_letter_validation_service.py:310-317 | the word points lie in 0..20 and are the full 20 exactly within 250..400 words |
| CoverLetterValidation.QualityScore | app/services/cover_letter_validation_service.py:321-347 | the quality points never exceed 40 |
| CoverLetterValidation.OverallScore | app/services/cover_letter_validation_service.py:300-355 | the score lies in 0..100 |
| CoverLetterValidation.RawScoreAtMost100 | app/services/cover_letter_validation_service.py:308-355 | the points before the penalty never exceed 100, so only the floor at 0 can bind |
| CoverLetterValidation.ScoreFallsWithErrors | app/services/cover_letter_validation_service.py:351-355 | more validation errors never raise the score |
| CoverLetterValidation.ErrorCostsFive | app/services/cover_letter_validation_service.py:351-355 | while the floor does not bind, each further error costs exactly 5 points |
| CoverLetterValidation.ValidateCoverLetterContent | app/services/cover_letter_validation_service.py:32-86 | valid exactly when there is no structure error and the word count lies in 100..600; the errors, count, completeness, advice and score are those of the letter, the score in 0..100 |
| CoverLetterValidation.ToneOf | app/services/cover_letter_validation_service.py:435-468 | enthusiastic exactly with more than two positive words, professional exactly with more formal than casual words, too casual exactly when neither holds and some casual word occurs |
| CoverLetterValidation.FormalityOf | app/services/cover_letter_validation_service.py:470-483 | too informal exactly with more than two contractions, very formal exactly otherwise with more than one formal transition |
| CoverLetterValidation.EnthusiasmOf | app/services/cover_letter_validation_service.py:509-524 | high exactly with three or more enthusiasm words, low exactly with none |
| CoverLetterValidation.EnthusiasmGrowsWithText | app/services/cover_letter_validation_service.py:509-524 | adding text never lowers the enthusiasm level |
| CoverLetterValidation.CapitalPhrasesNeverCount | app/services/cover_letter_validation_service.py:485-500 | as written, the phrases with a capital "I" never occur in the lower-cased text, so at most three phrases of each list can count |
| CoverLetterValidation.OnlyLowerCasePhrasesCount | app/services/cover_letter_validation_service.py:485-500 | as written, the confident count is that of "my expertise", "proven track record" and "demonstrated ability" alone, and the uncertain count that of "maybe", "perhaps" and "hopefully" alone |
| CoverLetterValidation.ConfidenceAsWritten | app/services/cover_letter_validation_service.py:485-507 | as written, the letter is confident exactly when more of those three confident phrases than of the three uncertain ones occur and at least two do, lacks confidence exactly when more uncertain ones occur, and is moderate otherwise |
| CoverLetterValidation.ConfidenceOf | app/services/cover_letter_validation_service.py:485-507 | with the phrases lower-cased too: confident exactly when more confident than uncertain phrases occur and at least two do, lacking confidence exactly when more uncertain ones occur, moderate otherwise |
| CoverLetterValidation.ConfidentPhrasesCount | app/services/cover_letter_validation_service.py:485-500 | with the phrases lower-cased too, every listed phrase the text contains is counted |
| CoverLetterValidation.WordRunLength | app/services/cover_letter_validation_service.py:528 | measures the run of word characters at the start of a text, stopping at the first other character |
| CoverLetterValidation.WordRuns | app/services/cover_letter_validation_service.py:528 | the words found are non-empty runs of word characters |
| CoverLetterValidation.LowerLong | app/services/cover_letter_validation_service.py:528 | keeps only words longer than three characters |
| CoverLetterValidation.WordVarietyOf | app/services/cover_letter_validation_service.py:526-541 | no report exactly when there are no long words; otherwise it counts all long words and the distinct ones, with the unique percentage equal to the variety |
| CoverLetterValidation.VarietyRange | app/services/cover_letter_validation_service.py:533-541 | the variety lies in (0, 100] and is 100 exactly when no long word repeats |
| CoverLetterValidation.SentenceLengths | app/services/cover_letter_validation_service.py:551 | one word count per sentence |
| CoverLetterValidation.SentenceComplexityOf | app/services/cover_letter_validation_service.py:543-567 | the "Unknown" report exactly when the text has no sentence |
| CoverLetterValidation.SentenceComplexityShape | app/services/cover_letter_validation_service.py:551-567 | counts the sentences; shortest ≤ average ≤ longest, both extremes attained; all sentences under 10 words make the text simple and all of 20 or more make it complex |
| CoverLetterValidation.AnalyzeToneAndStyle | app/services/cover_letter_validation_service.py:411-433 | the analysis of the joined letter text: high enthusiasm ⇔ at least three enthusiasm words, too informal ⇔ more than two contractions, no variety report ⇔ no long words, no complexity report ⇔ no sentences; the tone and the confidence are those of the tone and (corrected) confidence classifiers |
| CoverLetterValidation.AttitudeSuggestions | app/services/cover_letter_validation_service.py:573-592 | tone, confidence and enthusiasm suggestions exactly when the analysis finds the letter too casual, lacking confidence or unenthusiastic |
| CoverLetterValidation.WritingSuggestions | app/services/cover_letter_validation_service.py:594-617 | the vocabulary suggestion exactly when variety is below 60, and at most one sentence suggestion, by complexity |
| CoverLetterValidation.ImprovementSuggestions | app/services/cover_letter_validation_service.py:569-619 | each suggestion appears exactly when its weakness is found, at most one about sentence length, at most five in all |
| CoverLetterValidation.LetterSuggestions | app/services/cover_letter_validation_service.py:526-619 | a letter is told to use formal language exactly when its tone is too casual, and to state its qualifications confidently exactly when it lacks confidence (by the corrected classifier); a letter without long words is always told to vary its vocabulary, one whose long words never repeat never is, and one is told to show interest exactly when no enthusiasm word occurs |
| CoverLetterPatterns.CountContainedPositive | app/services/cover_letter_validation_service.py:368-378 | some phrase is counted exactly when the text contains one of the listed phrases, so `any(indicator in text)` is a positive count |
| CoverLetterPatterns.CountContainedMonotone | app/services/cover_letter_validation_service.py:368-409 | a text containing everything another text contains counts at least as many of the listed phrases |
| CoverLetterPatterns.MentionNeedsCapital | app/services/cover_letter_validation_service.py:357-366 | a company or position mention needs an upper-case letter somewhere in the text |
| CoverLetterPatterns.NumbersNeedDigit | app/services/cover_letter_validation_service.py:380-391 | a text shows numbers only if it holds a digit |
| CoverLetterPatterns.DigitStringIsNumber | app/services/cover_letter_validation_service.py:380-391 | a non-empty run of digits on its own always counts as a number |
| CoverLetterPatterns.PassiveMatchesBelow | app/services/cover_letter_validation_service.py:241-252 | the passive matches starting before position n are at most n |
| CoverLetterPatterns.NoPassiveStartNoCount | app/services/cover_letter_validation_service.py:241-252 | without a passive pattern starting before n, none is counted there |
| CoverLetterPatterns.PassiveNeedsEd | app/services/cover_letter_validation_service.py:241-247 | every passive match holds a word ending in "ed" |
| AtsSuggestions.BaseImpact | app/services/ats_enhancement_service.py:421-430 | a section's impact lies in 50..90, and any section outside the table counts 50 |
| AtsSuggestions.Impact | app/services/ats_enhancement_service.py:419-438 | the impact is the section's impact plus 5 per keyword added, plus at most 20 more; never below 50 |
| AtsSuggestions.ImpactIncrements | app/services/ats_enhancement_service.py:432-438 | each further keyword adds exactly 5, and the 20-point bonus is given exactly when the reason mentions "missing" in any case |
| AtsSuggestions.Insert | app/services/ats_enhancement_service.py:107 | inserting into a list sorted by descending key keeps it sorted and adds exactly that one element |
| AtsSuggestions.SortDescending | app/services/ats_enhancement_service.py:107 | the sorted list is ordered by descending key and is a permutation of the input |
| AtsSuggestions.SliceLength | app/services/ats_enhancement_service.py:109 | `xs[:n]` keeps min(n, len) elements for n ≥ 0 and drops the last -n for a negative n |
| AtsSuggestions.TopPrefix | app/services/ats_enhancement_service.py:107-109 | a prefix of a sorted list is sorted, drawn from the list, and outranks everything it leaves out |
| AtsSuggestions.PrefixDominates | app/services/ats_enhancement_service.py:107-109 | every element of the prefix has at least the key of every element after it |
| AtsSuggestions.TopSuggestions | app/services/ats_enhancement_service.py:106-109 | the kept suggestions are sorted by impact, as many as the slice allows, drawn from the input, and none left out has a higher impact than one kept |
| AtsEnhancementRules.FirstPrefix | app/services/ats_enhancement_service.py:161-164 | the first listed weak opening the lower-cased text starts with, none exactly when it starts with none |
| AtsEnhancementRules.FindFirstPrefix | app/services/ats_enhancement_service.py:163-181 | the loop over the weak openings stops at the same first match |
| AtsEnhancementRules.TopSkills | app/services/ats_enhancement_service.py:139-142 | at most three skills are taken from each category |
| AtsEnhancementRules.MissingSummaryKeywords | app/services/ats_enhancement_service.py:184-187 | exactly the first five job keywords the summary's keywords lack, at most five |
| AtsEnhancementRules.SummarySuggestions | app/services/ats_enhancement_service.py:115-200 | fails exactly when a summary must be written from a bare skills list; otherwise at most two summary suggestions, and for an empty summary one exactly when there is work experience |
| AtsEnhancementRules.RewordAdvice | app/services/ats_enhancement_service.py:160-181 | one rewording exactly when there is work experience and the summary opens with a weak phrase |
| AtsEnhancementRules.ExpertiseAdvice | app/services/ats_enhancement_service.py:183-198 | one expertise suggestion exactly when a job description is given and some of its first five keywords are missing from the summary |
| AtsEnhancementRules.ExpertiseKeywordsAreMissing | app/services/ats_enhancement_service.py:183-198 | every keyword the expertise suggestion adds comes from the job description and is absent from the summary |
| AtsEnhancementRules.Verb | app/services/ats_enhancement_service.py:224-225 | the randomly chosen verb is always one of the strong starters |
| AtsEnhancementRules.MetricSuggestions | app/services/ats_enhancement_service.py:240-260 | one metric suggestion exactly when the bullet quantifies nothing and mentions "managed" or "project" |
| AtsEnhancementRules.BulletSuggestions | app/services/ats_enhancement_service.py:219-260 | at most two work suggestions about the bullet, none exactly when it opens with no weak phrase and either quantifies something or mentions neither "managed" nor "project" |
| AtsEnhancementRules.ResponsibilitySuggestionsSection | app/services/ats_enhancement_service.py:219-260 | every suggestion about one job's bullets is a work-experience suggestion |
| AtsEnhancementRules.WorkSuggestionsSection | app/services/ats_enhancement_service.py:216-260 | every suggestion about the work history is a work-experience suggestion |
| AtsEnhancementRules.StrongBulletsNeedNothing | app/services/ats_enhancement_service.py:219-260 | bullets that all open strongly and quantify something get no suggestion |
| AtsEnhancementRules.AdviseBullet | app/services/ats_enhancement_service.py:219-260 | the loop over the weak starters gives the same advice as the rules |
| AtsEnhancementRules.AdviseResponsibilities | app/services/ats_enhancement_service.py:219-260 | the loop over one job's bullets gives their advice in order |
| AtsEnhancementRules.OptimizeWorkExperience | app/services/ats_enhancement_service.py:202-262 | the first three work suggestions, all about work experience |
| AtsEnhancementRules.KindOfMeaning | app/services/ats_enhancement_service.py:291-298 | a skill is a language exactly when it mentions one, a tool exactly when it mentions a tool but no language, technical otherwise |
| AtsEnhancementRules.OfKind | app/services/ats_enhancement_service.py:291-298 | a category never holds more skills than were listed |
| AtsEnhancementRules.OfKindMembers | app/services/ats_enhancement_service.py:291-298 | a category holds exactly the listed skills of its kind |
| AtsEnhancementRules.KindsPartition | app/services/ats_enhancement_service.py:291-298 | every skill is filed in exactly one of the three categories |
| AtsEnhancementRules.CategorizeSkills | app/services/ats_enhancement_service.py:281-298 | the filing loop builds the three categories, whose sizes add up to the list's |
| AtsEnhancementRules.CategoryNames | app/services/ats_enhancement_service.py:300-308 | a category is named exactly when it is non-empty, and "Core Competencies" never is |
| AtsEnhancementRules.MissingIndustrySkills | app/services/ats_enhancement_service.py:312-320 | at most five industry skills, each absent from the current skills ignoring case |
| AtsEnhancementRules.OrganizeAdvice | app/services/ats_enhancement_service.py:275-309 | one organising suggestion exactly when the skills are a bare list or empty |
| AtsEnhancementRules.IndustryAdvice | app/services/ats_enhancement_service.py:311-329 | one industry suggestion exactly when an industry is given and some of its skills are missing, adding exactly those |
| AtsEnhancementRules.SkillsSuggestions | app/services/ats_enhancement_service.py:264-331 | at most two skills suggestions |
| AtsEnhancementRules.IndustrySkillsAreMissing | app/services/ats_enhancement_service.py:312-320 | every skill the industry suggestion adds belongs to the industry and is missing from the résumé |
| AtsEnhancementRules.IntegrationSuggestions | app/services/ats_enhancement_service.py:352-364 | at most one suggestion per keyword, each adding one keyword the summary lacks, and none for an empty summary |
| AtsEnhancementRules.KeywordIntegration | app/services/ats_enhancement_service.py:333-366 | fails exactly when the résumé text must be read from a bare skills list; otherwise at most two suggestions, none without a job description or summary |
| AtsEnhancementRules.MissingResumeKeywords | app/services/ats_enhancement_service.py:344-348 | at most ten job keywords, each absent from the résumé's keywords |
| AtsEnhancementRules.IntegratedKeywordsAreMissing | app/services/ats_enhancement_service.py:343-366 | each integration suggestion adds one keyword of the job description that the résumé lacks |
| AtsEnhancementRules.SuggestKeywordIntegration | app/services/ats_enhancement_service.py:352-364 | the loop over the chosen keywords gives the same suggestions |
| AtsEnhancementRules.MissingContact | app/services/ats_enhancement_service.py:400-406 | names no field exactly when all four contact fields are filled, and "Email" exactly when the email is empty |
| AtsEnhancementRules.ContactFieldsInOrder | app/services/ats_enhancement_service.py:403-406 | the loop over the four required fields names the empty ones in their order |
| AtsEnhancementRules.DateAdvice | app/services/ats_enhancement_service.py:386-397 | one date suggestion exactly when some date does not begin with YYYY-MM |
| AtsEnhancementRules.ContactAdvice | app/services/ats_enhancement_service.py:399-415 | one contact suggestion exactly when a contact field is empty |
| AtsEnhancementRules.FormattingSuggestions | app/services/ats_enhancement_service.py:368-417 | at most two suggestions, none when no date is filled in, about work experience or contact details only |
| AtsEnhancementRules.CollectMissingContact | app/services/ats_enhancement_service.py:400-406 | the loop over first name, last name, email and phone collects the names of exactly the empty ones, in that order |
| AtsEnhancementRules.SuggestFormattingImprovements | app/services/ats_enhancement_service.py:368-417 | the loops over the jobs and the fields give the same suggestions |
| AtsEnhancement.OptimizeProfessionalSummary | app/services/ats_enhancement_service.py:115-200 | the loop gives the summary suggestions, or the error of reading a bare skills list |
| AtsEnhancement.OptimizeSkillsSection | app/services/ats_enhancement_service.py:264-331 | the filing loop gives the skills suggestions |
| AtsEnhancement.SuggestKeywordIntegrationFor | app/services/ats_enhancement_service.py:333-366 | the integration suggestions, capped at two, or the error of reading a bare skills list |
| AtsEnhancement.CandidatesFailIff | app/services/ats_enhancement_service.py:64-113 | the pipeline fails exactly when the skills are a bare list and a summary must be written or a job description is given |
| AtsEnhancement.CandidatesBound | app/services/ats_enhancement_service.py:64-104 | with a skills dictionary the pipeline never fails and gathers at most eleven suggestions |
| AtsEnhancement.GenerateOptimizationSuggestions | app/services/ats_enhancement_service.py:64-113 | fails exactly when a generator does; otherwise the kept suggestions are sorted by impact, as many as the slice keeps, drawn from all candidates, and none left out outranks one kept |
| AtsEnhancement.GetAtsBenchmarks | app/services/ats_enhancement_service.py:471-521 | exactly the static benchmarks matching the industry and role level ignoring case, all four without filters |
| AtsEnhancement.NoFilterAllFour | app/services/ats_enhancement_service.py:479-521 | without filters all four benchmarks come back |
| AtsEnhancement.IndustryFilterIgnoresCase | app/services/ats_enhancement_service.py:515-516 | two industry names equal ignoring case select the same benchmarks |
| ExportService.ContentKey | app/services/export_service.py:84 | a job's content key never collides with its own id |
| ExportService.StatusOf | app/services/export_service.py:102-118 | a job is reported exactly when its id holds a job that has not expired, and then as stored |
| ExportService.FileOf | app/services/export_service.py:120-133 | bytes are returned only for a live completed job, and they are the ones stored under its content key |
| ExportService.CreatedFileRoundTrip | app/services/export_service.py:43-133 | after a completed job and its file are stored, the status lookup returns the job and the file lookup returns the bytes until it expires |
| ExportService.CleanedUpIsGone | app/services/export_service.py:135-152 | after clean-up neither the job nor its file can be looked up |
| ExportService.OnlyCompletedJobsDownload | app/services/export_service.py:124-125 | a pending or failed job never yields a file |
| ExportService.ValidateExportRequest | app/services/export_service.py:202-227 | valid exactly when the format is supported, the content non-empty and both names present; an unsupported format is reported first |
| ExportService.Exporter.constructor | app/services/export_service.py:16-18 | the cache starts empty |
| ExportService.Exporter.CreateExportJob | app/services/export_service.py:43-100 | stores the job under the fresh id, created now and expiring a day later; a PDF job completes now with its download URL, its size and no error, and its bytes under the content key, or fails now with the renderer's message and no URL or size; any other format stays pending with no URL, size, error or completion time; nothing else in the cache changes |
| ExportService.Exporter.CleanupExportJob | app/services/export_service.py:135-152 | removes the job and its content key and nothing else, and reports success |
| ExportService.Exporter.GetExportStatus | app/services/export_service.py:102-118 | returns the live job; an expired job is cleaned up, and otherwise the cache is unchanged |
| ExportService.Exporter.GetExportFile | app/services/export_service.py:120-133 | returns the file of a live completed job, cleaning up an expired one and otherwise changing nothing |
| ExportService.Exporter.ListExpired | app/services/export_service.py:157-163 | lists each expired job's id exactly once |
| ExportService.Exporter.CleanupAll | app/services/export_service.py:165-166 | removes every listed job and its content and nothing else |
| ExportService.Exporter.CleanupExpiredJobs | app/services/export_service.py:154-173 | removes exactly the expired jobs and their files, and returns how many jobs there were |
| ExportService.Exporter.CountJobs | app/services/export_service.py:238-251 | the scan counts the completed, failed, pending and the user's jobs |
| ExportService.Exporter.StatusesPartition | app/services/export_service.py:245-251 | every stored job has exactly one of the three statuses, so the status counts add up to the total |
| ExportService.Exporter.GetExportStatistics | app/services/export_service.py:229-268 | the counts of all jobs and of each status, which add up to the total, the success rate, and the user's count exactly when a user is given |
| ExportService.SuccessRate | app/services/export_service.py:258 | the rate lies in 0..100, is 0 without jobs, and is 100 exactly when every job completed |
| TemplateService.CatalogueIdsUnique | app/services/template_service.py:13-214 | no two templates of the catalogue share an id, as the dictionary keys guarantee |
| TemplateService.GetTemplate | app/services/template_service.py:243-256 | a template is found exactly when one with that id exists, and it carries that id |
| TemplateService.GetTemplateFinds | app/services/template_service.py:243-256 | with unique ids, looking up a template's id finds that very template |
| TemplateService.ValidateTemplateId | app/services/template_service.py:271-273 | an id is valid exactly when it is one of the templates' ids, exactly when the lookup finds it |
| TemplateService.GetTemplateSections | app/services/template_service.py:258-269 | the sections of a known template, and nothing for an unknown id |
| TemplateService.GetTemplateStyling | app/services/template_service.py:342-353 | the styling of a known template, and nothing for an unknown id |
| TemplateService.Listed | app/services/template_service.py:216-237 | lists a template exactly when premium templates are included or it is not premium; with premium included, all of them |
| TemplateService.GetAllTemplates | app/services/template_service.py:216-237 | the loop over the catalogue gives that listing |
| TemplateService.FreeCatalogue | app/services/template_service.py:13-237 | the catalogue offers one free template and three in all |
| TemplateService.TitleFrom | app/services/template_service.py:284 | title-casing keeps the length and upper-cases a leading letter |
| TemplateService.IndexOf | app/services/template_service.py:282 | the position of the category with that key, or none exactly when no category has it |
| TemplateService.CategoriesGroup | app/services/template_service.py:275-296 | one category per category the templates use, with distinct keys, each listing exactly its templates in table order and counting them; the counts add up to the number of templates |
| TemplateService.AddToGrouping | app/services/template_service.py:280-294 | filing one more template keeps the grouping of the table extended by it |
| TemplateService.AddExistingGrouping | app/services/template_service.py:289-294 | a template of a known category is appended to that category and counted |
| TemplateService.AddNewGrouping | app/services/template_service.py:282-294 | a template of a new category opens a category holding just it |
| TemplateService.AddToTotal | app/services/template_service.py:289 | filing a template raises the total count by one |
| TemplateService.GetTemplateCategories | app/services/template_service.py:275-296 | the loop builds the categories, which group the table and count every template once |
| TemplateService.GetDefaultTemplateContent | app/services/template_service.py:302-340 | the blank content for a known template, and "Template id not found" exactly for an unknown one |
| TemplateService.DefaultContentCompleteness | app/models/resume.py:96-128 | the blank content counts two of five sections complete and lists the summary, work experience and education as missing |
| TemplateService.Found | app/services/template_service.py:355-386 | finds exactly the templates of the requested category whose name, description or features contain the query ignoring case |
| TemplateService.SearchTemplates | app/services/template_service.py:355-386 | the loop over the catalogue gives those results |
| TemplateService.EmptyQueryFindsAll | app/services/template_service.py:355-386 | an empty query without category lists every template |
| TemplateService.SearchIgnoresQueryCase | app/services/template_service.py:359-373 | queries equal ignoring case find the same templates |
| TemplateService.RecommendedIds | app/services/template_service.py:396-413 | the two default ids without a profile, otherwise an ordering of the three catalogue ids |
| TemplateService.InfosOf | app/services/template_service.py:416-429 | at most one entry per id, each describing a template of the table |
| TemplateService.GetRecommendedTemplates | app/services/template_service.py:392-435 | at most three recommended templates, each from the table |
| TemplateService.InfosOfKnown | app/services/template_service.py:416-429 | when every id is known, each gives an entry |
| TemplateService.CatalogueLookups | app/services/template_service.py:13-214 | "professional", "modern" and "creative" are the catalogue's first, second and third templates |
| TemplateService.DefaultRecommendations | app/services/template_service.py:398-400 | without a profile the professional and modern templates are recommended, in that order |
| TemplateService.ProfileRecommendations | app/services/template_service.py:401-429 | with a profile all three catalogue templates are recommended |

## Left out

**Text and numbers**
- Unicode: `\w`, digits, letters, `str.lower`, `str.title` and `str.isalpha` are taken over ASCII. Whitespace is the full `str.isspace` set.
- Floating point: ratios, densities, means and percentages are exact reals. IEEE-754 rounding at exact boundaries is not reproduced.
- `round(x, 1)` is not modelled:
  - the cover-letter variety, unique percentage and average sentence length are kept unrounded;
  - so is the history's average score;
  - the variety threshold of 60 is compared with the unrounded value.
- AtsScoring.CalculateComprehensiveScore: the overall score and the per-factor breakdown scores are not rounded to one decimal.

**Libraries, I/O and state outside the model**
- The textstat Flesch reading-ease advice of the style recommendations (app/services/cover_letter_validation_service.py:284-296) is a floating-point library call and is not modelled.
- Logging is not modelled. Neither are the `except Exception` handlers, which log and return `None`, `{}`, `False` or `0`. Only the errors the code itself raises or hits are modelled, as `Result` values:
  - the missing or blank résumé;
  - `.values()` on a skills list;
  - the unknown template.
- The division by zero of the keyword-relevance score is a `Result` only in `AtsScoring.KeywordRelevanceAsWritten`, the as-written half of the second finding. Every operation that uses the score takes the corrected `AtsScoring.KeywordRelevanceScore`, which never fails.
- `get_improvement_suggestions` reads a tone analysis dictionary. The model takes the typed analysis of a letter, so an empty or partial dictionary (as returned after an error) is not modelled.
- SQL persistence: `save_analysis`, `get_latest_analysis`, `get_analysis_history` and `delete_old_analyses` of the repository are queries with no logic of their own and are not modelled. The score histories are a map from résumé id to record.
- The PDF renderer is the `pdf` parameter of `CreateExportJob`, either some bytes or an error message. The fresh `uuid4` id is the `id` parameter.
- `get_supported_formats` is the constant `{"pdf"}` of supported formats.
- The clock is the parameter `now`. `create_export_job` reads `datetime.utcnow()` up to three times; the model uses one instant for all of them.
- `validate_year_format` reads the current year; it is the `currentYear` parameter.
- `random.choice` of a strong verb is the `choose` parameter, so the verb is some member of the list.
- `list(set(...))` has no defined order. The model keeps such collections as sets, and a slice of one (`[:5]`, `[:10]`) is some subset of at most that many elements.

**Data shapes**
- A résumé field that is absent, `None` or `""` is the empty string.
  - AtsEnhancementRules.TitleOr: a job title stored as `""` gives `"Professional"` in the model, whereas `.get('job_title', 'Professional')` would give `""`.
- The validators receive typed sections. A field holding a value of the wrong type is not modelled, except where the code checks for it (skills not a dictionary, a category not a list).
- The résumé's `skills` is a dictionary of lists. A flat list is modelled only where the code handles one: the enhancement service and `validate_skills`.
- The export cache holds either job records or file bytes (`Entry`), the two kinds of value the code stores in it.
- Each template category carries its dictionary key (`Category.key`).
- The recommendation profile is a map from string to string.

**Operations**
- AtsEnhancementRules.RewordSummary: the replacement is a plain concatenation. `re.sub` would interpret backslash escapes in a job title used as the replacement string.
- AtsSuggestions.TopSuggestions: the contract does not state that suggestions of equal impact keep their original order (Python's sort is stable), though the insertion used is stable.
- The ATS recommendations, the validation errors and recommendations, and the cover-letter advice and improvement suggestions are constructors, one per message, not the message texts. The category and priority of a cover-letter suggestion are functions of its constructor.
- `calculate_comprehensive_score` has no caller in the repository; it is modelled all the same.
- The example lemmas for e-mail addresses, URLs and dates illustrate the validators on fixed strings; they state no general property.

**Corrected rules used in place of the code's (see "## Findings")**
- AtsAnalysis.MediumAdvice: gives job-alignment advice for a 0% job match, which the code at app/services/ats_analysis_service.py:698 skips.
- AtsAnalysis.GenerateRecommendations: uses the corrected job-alignment rule, so a 0% job match draws the alignment advice the code does not give.
- AtsAnalysis.RecommendationTriggers: states the corrected job-alignment trigger (any match below 60%, 0% included), not the code's.
- AtsAnalysis.AdviceMembership: states the corrected job-alignment trigger, not the code's.
- AtsAnalysis.BuildAnalysis: its recommendations follow the corrected job-alignment rule.
- AtsAnalysis.AnalyzeResume: its recommendations follow the corrected job-alignment rule.
- AtsScoring.ScoreKeywordRelevance: returns a score for a résumé without words scored against a job description or an industry, where the code raises ZeroDivisionError (app/utils/ats_scoring.py:227).
- AtsScoring.ScoreFactors: uses the corrected keyword-relevance score, so it never fails on a résumé without words.
- AtsScoring.DetailedScores: uses the corrected keyword-relevance score, so it never fails on a résumé without words.
- AtsScoring.CalculateComprehensiveScore: uses the corrected keyword-relevance score, so it never fails on a résumé without words.
- CoverLetterValidation.AnalyzeToneAndStyle: its confidence is the corrected `ConfidenceOf`, which finds the phrases with a capital "I"; the code never finds them.
- CoverLetterValidation.LetterSuggestions: the "sound more confident" advice follows the corrected confidence, not the code's.

## Findings

| source | as written | input that shows it | evidently intended | confidence | as-written member | corrected member |
|---|---|---|---|---|---|---|
| app/services/ats_analysis_service.py:698 | `if job_match_percentage and job_match_percentage < 60` treats a 0% match as no match | a résumé sharing no keyword with a job description (match 0%) gets no job-alignment advice | advise alignment for every job match below 60%, including 0% | not executed | AtsAnalysis.JobAlignmentAsWritten, AtsAnalysis.ZeroMatchGetsNoAlignmentAdvice | AtsAnalysis.NeedsJobAlignment |
| app/utils/ats_scoring.py:227 | the keyword density divides by the number of words of the résumé text | an empty résumé scored against the job description "python developer" raises ZeroDivisionError | a résumé without words gets no density points | not executed | AtsScoring.KeywordRelevanceAsWritten, AtsScoring.EmptyResumeDividesByZero | AtsScoring.KeywordRelevanceScore, AtsScoring.KeywordRelevanceCorrected |
| app/services/cover_letter_validation_service.py:487-500 | phrases such as "I am confident" and "I think" are searched in the lower-cased text, so the ten with a capital "I" never match | "I am confident I can lead" counts no confident phrase and is rated moderate, not confident | compare the phrases in lower case too | not executed | CoverLetterValidation.ConfidenceAsWritten, CoverLetterValidation.CapitalPhrasesNeverCount | CoverLetterValidation.ConfidenceOf, CoverLetterValidation.ConfidentPhrasesCount |
