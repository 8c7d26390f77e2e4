# CV scoring engine, modelled in Dafny

This project models the deterministic core of a CV-versus-job-description
analyser. It covers:

- **Keyword extraction** (`KeywordExtractor`). Text is normalised, tokenised and
  filtered, and tokens are ranked by frequency. Fixed skill and verb lists are
  matched by substring containment. Achievements, requirements and
  qualifications are pulled out by pattern, and a CV's keywords are compared
  with a job's as sets.
- **CV structure analysis** (`CvAnalyzer`). This covers the boolean detectors,
  section detection, the formatting-issue flags, the legacy additive ATS score,
  the fixed-order suggestion rules and the enhancement opportunities.
- **The weighted banded score** (`ScoringSystem`). Five component scores set by
  threshold tables are combined with fixed weights. This module also gives the
  grade and percentile bands, the strengths, the weaknesses and the next steps.
- **Document helpers** (`PdfProcessor`). This covers the file-extension
  dispatch, line cleaning and section splitting.
- **The analysis-response parser** (`OllamaClient`). It reads the language
  model's answer: the score and the headed sections.
- **The analytics dashboard's helpers** (`AnalyticsDashboard`). This covers its
  own grade, percentile, colour, structure and technical tables, the goal
  widget's remaining points, and the per-session score history capped at ten
  entries.
- **The chat assistant** (`ChatInterface`). This covers the fallback-reply
  router, the context prompt with truncated CV and job text, and the session's
  chat history.

`TextUtil` models the Python string operations the core relies on:
`lower`, `strip`, `split`, `join`, `in` on strings, and `str(n)`. `Wrappers`
holds `Option` and `Result`.

Session state is modelled as classes whose methods update fields:
`AnalyticsDashboard.ScoreSession` and `ChatInterface.ChatSession`. A session
key that does not exist yet is `None`. Loops that build lists or dictionaries
are methods, and each one is proved equal to a specification function.
Properties are proved about those functions.

Where the repository's prose and its code disagree, the model follows the
code:

- `keyword_extractor.py` holds one technical-skill taxonomy, not two.
- The Ollama score is the first match of `SCORE:\s*(\d+)`. That is not
  necessarily the number after the first `SCORE:`.
- The scoring system and the legacy ATS score are two different formulas. They
  are kept as two separate strategies.

## Model

| member | source | states |
|---|---|---|
| KeywordExtractor.CleanTextIsClean | utils/keyword_extractor.py:138-143 | cleaned text is lower case, holds only word characters and single spaces, and has no space at either end |
| KeywordExtractor.CollapseSingleSpaces | utils/keyword_extractor.py:142 | after `\s+` is replaced by one space, no two spaces are adjacent |
| KeywordExtractor.CollapseSpacedLower | utils/keyword_extractor.py:141-142 | collapsing lower-case, punctuation-free text leaves only single spaces and lower-case word characters |
| KeywordExtractor.SanitizedChars | utils/keyword_extractor.py:141 | lower-casing and replacing non-word characters leaves only whitespace and lower-case word characters |
| KeywordExtractor.CleanTextFixpoint | utils/keyword_extractor.py:138-143 | text that is already clean comes back unchanged |
| KeywordExtractor.CleanTextIdempotent | utils/keyword_extractor.py:138-143 | cleaning twice equals cleaning once |
| KeywordExtractor.CollapseNoop | utils/keyword_extractor.py:142 | collapsing text with no whitespace runs changes nothing |
| KeywordExtractor.FilterTokens | utils/keyword_extractor.py:150-155 | the kept tokens are exactly the input tokens that pass the filter, with none added |
| KeywordExtractor.FilterTokensAppend | utils/keyword_extractor.py:150-155 | filtering preserves order: filtering a concatenation gives the concatenation of the filtered parts |
| KeywordExtractor.TokensOfClean | utils/keyword_extractor.py:145-157 | every token kept from clean text is lower case, not a stopword, longer than two characters and not all digits |
| KeywordExtractor.TokensOfCleanText | utils/keyword_extractor.py:138-157 | the same holds for the tokens of any text after `_clean_text` |
| KeywordExtractor.Count | utils/keyword_extractor.py:161 | an occurrence count is at most the length, and positive exactly when the token occurs |
| KeywordExtractor.FirstIndex | utils/keyword_extractor.py:161 | the first position holding the token |
| KeywordExtractor.FirstIndexOf | utils/keyword_extractor.py:161 | an occurrence with no earlier occurrence is the first one |
| KeywordExtractor.Tally | utils/keyword_extractor.py:161 | the `Counter` has a key for exactly the tokens present |
| KeywordExtractor.TallyCounts | utils/keyword_extractor.py:161 | the `Counter` maps each token to its number of occurrences |
| KeywordExtractor.Distinct | utils/keyword_extractor.py:161 | the `Counter`'s key order holds exactly the tokens present |
| KeywordExtractor.DistinctInOrder | utils/keyword_extractor.py:161 | that key order is the order of first occurrence |
| KeywordExtractor.CountOne | utils/keyword_extractor.py:161 | one counting step extends the tally and the key order from a prefix to the next prefix |
| KeywordExtractor.CountTokens | utils/keyword_extractor.py:161 | `Counter(tokens)` is the tally and the first-occurrence order of the tokens |
| KeywordExtractor.InsertionPoint | utils/keyword_extractor.py:162 | the insertion position comes after every token at least as frequent and before the first less frequent one |
| KeywordExtractor.RankByCount | utils/keyword_extractor.py:162 | `most_common()` lists every distinct token once, by descending count, with ties in first-occurrence order |
| KeywordExtractor.TopKeywords | utils/keyword_extractor.py:159-162 | at most `top_n` distinct tokens, each present, in ranking order, each ranking before any token left out, and a token is left out only once `top_n` are taken; nothing when `top_n <= 0` |
| KeywordExtractor.SeenEarlier | utils/keyword_extractor.py:161-162 | every token already ranked first occurs before the next distinct token |
| KeywordExtractor.InsertRanked | utils/keyword_extractor.py:162 | inserting the next distinct token after all tokens at least as frequent keeps the ranking order |
| KeywordExtractor.InsertSorted | utils/keyword_extractor.py:162 | inserting between the tokens that rank before it and those it ranks before keeps a list sorted |
| KeywordExtractor.PhrasesIn | utils/keyword_extractor.py:164-233 | the phrases of a list found in the text are exactly the list's members contained in it, in list order |
| KeywordExtractor.CollectPhrases | utils/keyword_extractor.py:164-233 | the search-and-append loop collects exactly those phrases |
| KeywordExtractor.ExtractTechnicalSkills | utils/keyword_extractor.py:164-174 | a skill is returned exactly when it is in the taxonomy and a substring of the lower-cased text, with no duplicates |
| KeywordExtractor.ExtractSoftSkills | utils/keyword_extractor.py:207-222 | a soft skill is returned exactly when it is a substring of the lower-cased text, in list order |
| KeywordExtractor.ExtractActionVerbs | utils/keyword_extractor.py:224-233 | an action verb is returned exactly when it is a substring of the lower-cased text, in list order |
| KeywordExtractor.Take | utils/keyword_extractor.py:251 | a prefix of at most `n` elements, which is the whole list when that is shorter |
| KeywordExtractor.ExtractAchievements | utils/keyword_extractor.py:235-251 | the matches of the five patterns in pattern order, cut to at most ten |
| KeywordExtractor.LongStrippedConcat | utils/keyword_extractor.py:176-205 | concatenating lists of stripped long items gives such a list |
| KeywordExtractor.LongItemsShape | utils/keyword_extractor.py:184-188 | each item kept from one block is stripped and longer than the minimum |
| KeywordExtractor.BlockItemsShape | utils/keyword_extractor.py:182-188 | every item collected from all blocks is stripped and longer than the minimum |
| KeywordExtractor.KeepLongItems | utils/keyword_extractor.py:185-188 | the inner loop keeps exactly the stripped items longer than the minimum, in order |
| KeywordExtractor.CollectItems | utils/keyword_extractor.py:180-190 | the nested loop yields the long items of every block in order, cut to the cap |
| KeywordExtractor.ExtractRequirements | utils/keyword_extractor.py:176-190 | at most ten requirements, each stripped and longer than ten characters |
| KeywordExtractor.ExtractQualifications | utils/keyword_extractor.py:192-205 | at most five qualifications, each stripped and longer than five characters |
| KeywordExtractor.SubsetCard | utils/keyword_extractor.py:118-127 | a matched set is no larger than the job set, and equal in size only when it is the whole job set |
| KeywordExtractor.Percentage | utils/keyword_extractor.py:124-127 | the share times the whole is the part times 100; the share is 0 when the whole is empty |
| KeywordExtractor.PercentageRange | utils/keyword_extractor.py:124-127 | a share lies in [0,100], is 100 exactly when the part is the whole, and is 0 exactly when the part is empty |
| KeywordExtractor.KeywordDensity | utils/keyword_extractor.py:253-262 | the two counts are the list lengths; the ratio is 0 without job keywords, otherwise cv count / job count, and never negative |
| KeywordExtractor.CompareKeywords | utils/keyword_extractor.py:99-136 | matched and missing are disjoint, their union is the lower-cased job keyword set, matched lies in the CV's set and missing avoids it; the same for technical skills |
| KeywordExtractor.MatchPercentageRange | utils/keyword_extractor.py:124-127 | the match percentage lies in [0,100], is 0 without job keywords or matches, and is 100 exactly when every job keyword is matched |
| KeywordExtractor.ExtractKeywordsFromJobDescription | utils/keyword_extractor.py:50-74 | the keywords are the top-ranked filtered tokens of the cleaned text, with every property of `_get_top_keywords` (at most `top_n`, distinct, ranking order, nothing better left out); exactly the taxonomy skills present; the requirements and qualifications are the first 10 and 5 long items of the pattern matches, each stripped; the soft skills found, in list order |
| KeywordExtractor.ExtractKeywordsFromCv | utils/keyword_extractor.py:76-97 | the keywords are the top-ranked filtered tokens of the cleaned text, with every property of `_get_top_keywords` (at most `top_n`, distinct, ranking order, nothing better left out); exactly the taxonomy skills present; the action verbs found, in list order; the achievements are the first ten matches of the five patterns in order |
| CvAnalyzer.LongRunsBound | utils/cv_analyzer.py:315-320 | runs of three or more characters number at most a third of the text |
| CvAnalyzer.CountWhere | utils/cv_analyzer.py:323-324 | a character count is at most the length |
| CvAnalyzer.BulletAnywhere | utils/cv_analyzer.py:288-291 | a bullet, dash or asterisk anywhere in the text sets the bullet detector, not only at the start of a line |
| CvAnalyzer.KeywordDetectorsIgnoreCase | utils/cv_analyzer.py:264-286 | the summary, experience, education and skills detectors (and the action-verb detector) give the same answer on a text and on its lower-cased form |
| CvAnalyzer.KeywordDetectorsAppend | utils/cv_analyzer.py:264-286 | each keyword detector tests for a substring, so once it fires on a text it still fires when more text follows |
| CvAnalyzer.VerbThenDigitAppend | utils/cv_analyzer.py:299-301 | a verb followed by a digit on its line is still found when more text follows |
| CvAnalyzer.LargeNumberAppend | utils/cv_analyzer.py:298 | a number followed by a magnitude word is still found when more text follows |
| CvAnalyzer.QuantifiedAppend | utils/cv_analyzer.py:293-303 | a CV with a quantified achievement keeps it when more text follows: every pattern matches anywhere |
| CvAnalyzer.DistinctCard | utils/cv_analyzer.py:235-252 | the distinct elements of a list are no more than its length |
| CvAnalyzer.DetectSections | utils/cv_analyzer.py:235-252 | a section keyword is returned exactly when it is a substring of the lower-cased text; no more than the 16 keywords |
| CvAnalyzer.FormattingIssues | utils/cv_analyzer.py:310-327 | each message appears exactly when its count passes its threshold, at most once, at most three in all, in check order |
| CvAnalyzer.ShortTextNoIssues | utils/cv_analyzer.py:310-327 | a text under 18 characters has no formatting issue |
| CvAnalyzer.AnalyzeStructure | utils/cv_analyzer.py:79-95 | each field is its detector on the text; the length flag holds iff 200 <= words <= 1000; the section count is the number of distinct keywords present, at most 16 |
| CvAnalyzer.KeywordPart | utils/cv_analyzer.py:103 | the keyword part is the match percentage capped at 40 |
| CvAnalyzer.StructurePartRange | utils/cv_analyzer.py:107-123 | the structure part is at most 30, and reaches 30 exactly when every detector is set |
| CvAnalyzer.TechnicalPart | utils/cv_analyzer.py:128 | the technical part is two points per matched skill, capped at 20 |
| CvAnalyzer.ContentPart | utils/cv_analyzer.py:132-136 | the content part is at most 10, and reaches 10 exactly with action verbs and at least 200 words |
| CvAnalyzer.LegacyAtsScore | utils/cv_analyzer.py:97-140 | the score is at most 100, and non-negative for a non-negative match percentage |
| CvAnalyzer.AtsCapNeverBinds | utils/cv_analyzer.py:97-140 | the four parts never total more than 100, so the final `min` never applies |
| CvAnalyzer.AtsScoreRange | utils/cv_analyzer.py:97-140 | for a comparison from `compare_keywords`, the score lies in [0,100] |
| CvAnalyzer.AtsScoreMonotone | utils/cv_analyzer.py:97-140 | a higher match percentage and no fewer matched skills never lower the score |
| CvAnalyzer.FiredAmongMembers | utils/cv_analyzer.py:160-233 | a rule is kept exactly when it is listed and its condition holds |
| CvAnalyzer.FiredAmongOrdered | utils/cv_analyzer.py:160-233 | keeping the rules that fire preserves the checking order |
| CvAnalyzer.FiredAmongDrops | utils/cv_analyzer.py:160-233 | a listed rule that does not fire makes the result shorter than the list |
| CvAnalyzer.FiredRules | utils/cv_analyzer.py:160-233 | the rules that fire, each once, in the order the source checks them; exactly those whose condition holds; at most seven, since the two length rules exclude each other |
| CvAnalyzer.GenerateSuggestions | utils/cv_analyzer.py:160-233 | one entry per fired rule, in the order the rules fire, each the rendering of its rule; so at most seven suggestions |
| CvAnalyzer.Render | utils/cv_analyzer.py:166-231 | a rule's suggestion: its own title and category; the keyword-gap description exactly for 'Improve Keyword Matching', carrying the match percentage and missing keywords; the technical-gap description exactly for 'Add Technical Skills', carrying the missing skills; the rule's priority |
| CvAnalyzer.TitlesDistinct | utils/cv_analyzer.py:166-231 | no two rules share a title, so a suggestion's title names the rule that emitted it |
| CvAnalyzer.DescriptionFor | utils/cv_analyzer.py:166-231 | only the two keyword rules format data into their description, and each carries its own figures; every other rule has its fixed text |
| CvAnalyzer.PriorityOf | utils/cv_analyzer.py:166-231 | 'high' exactly for the keyword, technical-skills and quantify rules; 'low' exactly for 'Reduce Length'; 'medium' otherwise |
| CvAnalyzer.RenderedGaps | utils/cv_analyzer.py:166-180 | a rendered list holds a gap description exactly when its rules include the gap rule |
| CvAnalyzer.SuggestionGaps | utils/cv_analyzer.py:166-180 | the suggestions hold a keyword-gap entry exactly below a 50% match, carrying that percentage and the missing keywords, and a technical-gap entry exactly when technical skills are missing |
| CvAnalyzer.KeywordSuggestionsIff | utils/cv_analyzer.py:166-213 | 'Improve Keyword Matching' fires iff the match percentage is below 50; 'Add Technical Skills' iff some technical skill is missing; summary, bullet-point and quantify rules iff the structure lacks that element; action verbs iff the text has none |
| CvAnalyzer.LengthSuggestionsIff | utils/cv_analyzer.py:216-231 | 'Expand Content' appears iff there are fewer than 200 words, 'Reduce Length' iff more than 800, and never both |
| CvAnalyzer.AppropriateLengthNotExpand | utils/cv_analyzer.py:216-231 | a CV that passes `_check_length` (200 to 1000 words) never gets 'Expand Content', and it gets 'Reduce Length' exactly when it has more than 800 words |
| CvAnalyzer.WeakFound | utils/cv_analyzer.py:349-353 | one entry for exactly each weak phrase present |
| CvAnalyzer.MetricsFound | utils/cv_analyzer.py:355-359 | one entry for exactly each verb present but never followed by a digit on its line |
| CvAnalyzer.FindEnhancementOpportunities | utils/cv_analyzer.py:345-361 | the loops emit the weak-phrase entries and then the metric entries, in list order |
| CvAnalyzer.OpportunitiesIff | utils/cv_analyzer.py:345-361 | an entry appears exactly for a weak phrase present or an unquantified verb |
| CvAnalyzer.QuantifiedVerbNotFlagged | utils/cv_analyzer.py:355-359 | a verb followed by a number on its line is never flagged |
| ScoringSystem.WeightsSumToOne | utils/scoring_system.py:14-20 | the five weights sum to exactly 1.0 |
| ScoringSystem.KeywordScore | utils/scoring_system.py:61-75 | the keyword component is one of 95, 85, 70, 50, 30 |
| ScoringSystem.KeywordScoreMonotone | utils/scoring_system.py:61-75 | a higher match percentage never gives a lower keyword component |
| ScoringSystem.StructureScore | utils/scoring_system.py:77-114 | the structure component lies in [0,100] |
| ScoringSystem.StructurePointsAtMost100 | utils/scoring_system.py:77-114 | the allocations total at most 100, so `min` never binds; 100 is reached exactly with every element present |
| ScoringSystem.Penalty | utils/scoring_system.py:137-139 | the enhancement penalty is `min(3n, 15)` |
| ScoringSystem.ContentScore | utils/scoring_system.py:116-141 | the content component lies in [0,100] |
| ScoringSystem.ContentPointsRange | utils/scoring_system.py:116-141 | the content points always lie in [40,85], so neither clamp binds |
| ScoringSystem.TechnicalScore | utils/scoring_system.py:143-163 | 70 without technical skills on either side; otherwise one of 95, 85, 70, 55, 35 |
| ScoringSystem.TechnicalScoreExtremes | utils/scoring_system.py:143-163 | every skill matched gives 95; none matched gives 35 |
| ScoringSystem.FormattingScore | utils/scoring_system.py:165-179 | `max(0, min(100, 100 - 15 * issues))` |
| ScoringSystem.ComponentScoresOf | utils/scoring_system.py:34-39 | all five components lie in [0,100] |
| ScoringSystem.FormattingAtLeast55 | utils/scoring_system.py:165-179 | with the at most three issues the detector reports, formatting scores at least 55 |
| ScoringSystem.WeightedSumBounds | utils/scoring_system.py:41-45 | a weighted sum of scores in [0,100] lies between 0 and 100 times the sum of the weights |
| ScoringSystem.OverallInRange | utils/scoring_system.py:41-45 | the overall score lies in [0,100] |
| ScoringSystem.GradeOf | utils/scoring_system.py:181-202 | 'D' exactly below 50 |
| ScoringSystem.GradeMonotone | utils/scoring_system.py:181-202 | a higher score never gets a lower grade |
| ScoringSystem.Percentile | utils/scoring_system.py:204-216 | the percentile is one of 95, 80, 60, 40, 20 |
| ScoringSystem.PercentileMonotone | utils/scoring_system.py:204-216 | a higher score never gets a lower percentile |
| ScoringSystem.Spaced | utils/scoring_system.py:236 | `replace('_', ' ')` changes exactly the underscores |
| ScoringSystem.StrongMessages | utils/scoring_system.py:222-231 | a message for every component at or above 80; empty exactly when all are below 80 |
| ScoringSystem.WeakMessages | utils/scoring_system.py:244-253 | a message for every component below 60; empty exactly when all are at least 60 |
| ScoringSystem.StrongMessagesOrigin | utils/scoring_system.py:222-231 | every strength message is the message of a component scoring at least 80 |
| ScoringSystem.WeakMessagesOrigin | utils/scoring_system.py:244-253 | every weakness message is the message of a component scoring below 60 |
| ScoringSystem.StrongMessagesInOrder | utils/scoring_system.py:222-231 | the messages of two strong components appear in component order |
| ScoringSystem.WeakMessagesInOrder | utils/scoring_system.py:244-253 | the messages of two weak components appear in component order |
| ScoringSystem.StrongLastInOrder | utils/scoring_system.py:222-231 | a strong component's message comes before that of a strong component appended after it |
| ScoringSystem.WeakLastInOrder | utils/scoring_system.py:244-253 | a weak component's message comes before that of a weak component appended after it |
| ScoringSystem.BestIndex | utils/scoring_system.py:235 | the first component with the highest score |
| ScoringSystem.CollectStrong | utils/scoring_system.py:222-231 | the loop collects exactly the strong messages |
| ScoringSystem.FindBest | utils/scoring_system.py:235 | `max` by score returns the first best component |
| ScoringSystem.IdentifyStrengths | utils/scoring_system.py:218-238 | never empty: the strong messages, or else the single best component |
| ScoringSystem.IdentifyWeaknesses | utils/scoring_system.py:240-255 | the loop collects exactly the weak messages |
| ScoringSystem.InsertByScore | utils/scoring_system.py:262 | one insertion step adds exactly the new component |
| ScoringSystem.SortByScore | utils/scoring_system.py:262 | sorting permutes the components |
| ScoringSystem.InsertLowerBound | utils/scoring_system.py:262 | inserting keeps every element above a common lower bound |
| ScoringSystem.ConsSorted | utils/scoring_system.py:262 | an element scoring no more than the rest keeps a sorted list sorted when put first |
| ScoringSystem.InsertKeepsSorted | utils/scoring_system.py:262 | inserting keeps the list sorted by score |
| ScoringSystem.SortIsSorted | utils/scoring_system.py:262 | the sorted list is in ascending score order |
| ScoringSystem.StepsOrigin | utils/scoring_system.py:293-297 | every step is a leading recommendation of a listed component scoring below 80 |
| ScoringSystem.GenerateNextSteps | utils/scoring_system.py:257-299 | at most five steps: the two leading recommendations of each of the three lowest components below 80 |
| ScoringSystem.LowerThanSorted | utils/scoring_system.py:262-293 | a component at position `i` of the sorted list has at most `i` components scoring lower |
| ScoringSystem.NextStepsFromLowest | utils/scoring_system.py:262-299 | every step belongs to a component below 80 that no more than two others score lower than |
| ScoringSystem.CalculateOverallScore | utils/scoring_system.py:22-59 | the components; the weighted overall score in [0,100]; improvement potential = 100 - overall; its grade and percentile; the strengths are the strong messages, or else the best component alone; the weaknesses are the weak messages; the next steps are the leading recommendations of the three lowest components below 80, at most five |
| PdfProcessor.Extension | utils/pdf_processor.py:28 | the extension holds no dot and no upper-case letter |
| PdfProcessor.Dispatch | utils/pdf_processor.py:28-35 | the PDF reader exactly for 'pdf', the DOCX reader exactly for 'docx', otherwise the 'Unsupported file format' error |
| PdfProcessor.DispatchBySuffix | utils/pdf_processor.py:28-35 | only the text after the last dot counts, lower-cased |
| PdfProcessor.DispatchUpperCase | utils/pdf_processor.py:28-35 | an upper-case '.PDF' selects the PDF reader |
| PdfProcessor.DispatchNoDot | utils/pdf_processor.py:28 | a name with no dot is its own extension |
| PdfProcessor.CleanedLines | utils/pdf_processor.py:79-86 | every kept line is stripped and longer than one character, with no more lines than given |
| PdfProcessor.CleanedLinesAppend | utils/pdf_processor.py:82-85 | cleaning works line by line and keeps the relative order |
| PdfProcessor.CleanedLinesAvoid | utils/pdf_processor.py:82-85 | cleaning never introduces a character that no line held |
| PdfProcessor.CleanedLinesFixpoint | utils/pdf_processor.py:82-85 | only empty or one-character lines (after stripping) are dropped; other stripped lines are kept unchanged |
| PdfProcessor.CleanText | utils/pdf_processor.py:68-87 | the loop produces the cleaned lines joined by newlines |
| PdfProcessor.CleanTextLines | utils/pdf_processor.py:78-87 | the lines of the cleaned text are exactly the kept lines |
| PdfProcessor.CleanTextIdempotent | utils/pdf_processor.py:78-87 | cleaning cleaned text changes nothing |
| PdfProcessor.FirstHit | utils/pdf_processor.py:123-126 | the position where a loop with `break` stops: every earlier entry is false, and the entry there is true unless the loop ran to the end |
| PdfProcessor.SectionAfter | utils/pdf_processor.py:117-126 | a line moves to summary if it mentions it; otherwise to experience if it mentions that; then education, then skills; a line that mentions none leaves the section unchanged; the result is the current section or a heading the line mentions |
| PdfProcessor.Scan | utils/pdf_processor.py:116-130 | the current section is never personal information |
| PdfProcessor.ScanPersonalInfo | utils/pdf_processor.py:99-130 | nothing is ever gathered for personal information |
| PdfProcessor.ScanNoUpper | utils/pdf_processor.py:116-130 | lines without upper case gather text without upper case |
| PdfProcessor.ScanNeedsHeader | utils/pdf_processor.py:117-130 | a heading section is current or holds text only after a line that mentions it |
| PdfProcessor.ScanRoute | utils/pdf_processor.py:116-126 | the loop's current section is the heading routing applied to every line read so far, from 'other' |
| PdfProcessor.GatherStep | utils/pdf_processor.py:129-130 | one iteration appends a non-blank line and a newline to the section it is routed to, and changes no other section |
| PdfProcessor.ScanGathered | utils/pdf_processor.py:116-130 | each section's text is exactly the non-blank lines routed to it, each followed by a newline, in order |
| PdfProcessor.BlankLineIgnored | utils/pdf_processor.py:129-130 | a blank line leaves every section's text as it was |
| PdfProcessor.SectionLines | utils/pdf_processor.py:116 | the lines read are lower case |
| PdfProcessor.GatherSections | utils/pdf_processor.py:119-130 | the loop gathers exactly what the scan specifies |
| PdfProcessor.StripSections | utils/pdf_processor.py:133-134 | every section is stripped |
| PdfProcessor.ExtractSections | utils/pdf_processor.py:89-134 | the six sections of `SectionsOf`, whose contents `PdfProcessor.SectionContents` states |
| PdfProcessor.PersonalInfoEmpty | utils/pdf_processor.py:99-134 | 'personal_info' is always empty |
| PdfProcessor.SectionLowerStripped | utils/pdf_processor.py:116-134 | every section is lower case and stripped |
| PdfProcessor.SectionNeedsHeader | utils/pdf_processor.py:117-130 | a heading section has text only if some line mentions one of its keywords |
| PdfProcessor.SectionContents | utils/pdf_processor.py:116-134 | each section is the stripped concatenation of the non-blank lower-cased lines routed to it, each followed by a newline |
| OllamaClient.FirstScoreMatch | utils/ollama_client.py:234 | the leftmost position where `SCORE:\s*(\d+)` matches, or none |
| OllamaClient.DigitRunEnd | utils/ollama_client.py:234 | `\d+` takes the whole run of digits |
| OllamaClient.ScoreDigits | utils/ollama_client.py:234-235 | the captured group is a non-empty run of digits |
| OllamaClient.HeaderKey | utils/ollama_client.py:247 | the key has no space and no upper case, and is no longer than the line |
| OllamaClient.HeaderKeyNotEmpty | utils/ollama_client.py:244-247 | a header line gives a non-empty key |
| OllamaClient.ParseLinesShape | utils/ollama_client.py:242-250 | the open section's lines are stripped and non-empty, and none are held before a header |
| OllamaClient.ParsedAnalysis | utils/ollama_client.py:229-267 | the text is returned verbatim; the score is the number after `SCORE:` when there is one, and 70 without a match; a score too long for `int` raises and gives score 70 with no sections; otherwise the sections are those parsed from the lines, whose contents `OllamaClient.SectionContent` and `OllamaClient.SectionContentMiddle` state |
| OllamaClient.ReadLine | utils/ollama_client.py:243-250 | one iteration of the loop |
| OllamaClient.ReadLines | utils/ollama_client.py:242-250 | the loop computes the specification's parse state |
| OllamaClient.ParseCvAnalysis | utils/ollama_client.py:229-267 | the method returns the specification's result |
| OllamaClient.ScoreRoundTrip | utils/ollama_client.py:234-235 | the number after 'SCORE: ' is read back exactly, with no clamp to 100 |
| OllamaClient.DigitRunAll | utils/ollama_client.py:234 | a digit run that ends before a non-digit is read whole |
| OllamaClient.NoHeaderNoSections | utils/ollama_client.py:242-250 | without a header line every line is discarded |
| OllamaClient.KeysFromHeaders | utils/ollama_client.py:244-254 | every stored or open key comes from a header line |
| OllamaClient.SectionKeysFromHeaders | utils/ollama_client.py:242-254 | every section of the result is named by a header line of the text |
| OllamaClient.KeptLines | utils/ollama_client.py:243-250 | the stripped non-empty lines of a body, never more than the body |
| OllamaClient.StepBodyLine | utils/ollama_client.py:249-250 | inside a section, a non-header line appends its stripped form when it is non-empty and changes nothing else |
| OllamaClient.ParseLinesSnoc | utils/ollama_client.py:242-250 | reading one more line is one more loop step |
| OllamaClient.ParseLinesRun | utils/ollama_client.py:242-250 | reading a prefix and then a body is reading the body from the prefix's state |
| OllamaClient.ReadBody | utils/ollama_client.py:242-250 | inside a section, header-free lines only append their kept lines to the content |
| OllamaClient.HeaderOpens | utils/ollama_client.py:244-248 | a header line opens the section named by its key with no content |
| OllamaClient.SectionContent | utils/ollama_client.py:242-254 | the last header's section holds exactly the stripped non-empty lines after it, joined by newlines |
| OllamaClient.StepPreserves | utils/ollama_client.py:242-250 | a line that does not reopen a stored section leaves its value as it was |
| OllamaClient.RunPreserves | utils/ollama_client.py:242-250 | the same over any run of lines that never reopens it |
| OllamaClient.OpenAfterBody | utils/ollama_client.py:242-250 | after a header and non-header lines, the header's section is open and holds the kept lines |
| OllamaClient.StepHeader | utils/ollama_client.py:244-248 | a header stores the open section and opens its own, empty |
| OllamaClient.ClosedByNext | utils/ollama_client.py:242-250 | the next header with another key stores the section with its kept lines |
| OllamaClient.CloseKeeps | utils/ollama_client.py:252-254 | storing the last open section leaves every other section as it was |
| OllamaClient.SectionContentMiddle | utils/ollama_client.py:242-254 | a section followed by another header holds exactly the stripped non-empty lines up to that header, joined by newlines, unless a later header reopens it |
| OllamaClient.StepKeepsKey | utils/ollama_client.py:244-250 | a stored or open key stays stored or open after one more line |
| OllamaClient.RunKeepsKey | utils/ollama_client.py:242-250 | a stored or open key stays stored or open after any further lines |
| OllamaClient.HeaderKeyKept | utils/ollama_client.py:242-254 | every header line names a section of the result |
| OllamaClient.HeaderKeysPresent | utils/ollama_client.py:242-254 | every header line of the text names a section of the parsed sections |
| AnalyticsDashboard.ScoreGrade | components/analytics_dashboard.py:314-331 | never below 'C'; 'C' exactly below 60; 'A+' exactly from 90 |
| AnalyticsDashboard.ScoreGradeMonotone | components/analytics_dashboard.py:314-331 | a higher score never gets a lower grade |
| AnalyticsDashboard.ScoreGradeVersusEngine | components/analytics_dashboard.py:314-331 | agrees with the scoring system's grade from 55 up; below 55 it says 'C' where the scoring system is lower |
| AnalyticsDashboard.PercentileOf | components/analytics_dashboard.py:370-381 | one of 95, 85, 70, 55, 30; 95 exactly from 90; 30 exactly below 60 |
| AnalyticsDashboard.PercentileMonotone | components/analytics_dashboard.py:370-381 | a higher score never gets a lower percentile |
| AnalyticsDashboard.PercentileFollowsGrade | components/analytics_dashboard.py:370-381 | 95 exactly for 'A+', at least 85 exactly from 'A-', 30 exactly for 'C' |
| AnalyticsDashboard.ScoreColor | components/analytics_dashboard.py:305-312 | one of three colours: green exactly from 85, red exactly below 70, yellow otherwise |
| AnalyticsDashboard.ColorFollowsGrade | components/analytics_dashboard.py:305-331 | green exactly for 'A' and 'A+', red exactly below 'B' |
| AnalyticsDashboard.StructurePoints | components/analytics_dashboard.py:344-356 | the allocations total at most 100, and exactly 100 when all six elements are present |
| AnalyticsDashboard.StructureScore | components/analytics_dashboard.py:340-358 | lies in [0,100]; 0 without a structure analysis; otherwise the points, uncapped |
| AnalyticsDashboard.StructureFullMarks | components/analytics_dashboard.py:340-358 | every element present scores exactly 100 |
| AnalyticsDashboard.StructureMonotone | components/analytics_dashboard.py:340-358 | gaining elements never lowers the score |
| AnalyticsDashboard.TechScore | components/analytics_dashboard.py:360-368 | lies in [0,100]; 70 when both lists are empty; otherwise score times total = 100 times matched |
| AnalyticsDashboard.TechScoreExtremes | components/analytics_dashboard.py:360-368 | nothing missing gives 100; nothing matched gives 0 |
| AnalyticsDashboard.TechScoreMonotone | components/analytics_dashboard.py:360-368 | one more matched skill never lowers the score, including from the 70 of an empty analysis |
| AnalyticsDashboard.GoalRemaining | components/analytics_dashboard.py:293-298 | never negative; 0 exactly when the current score (70 by default) reaches the target; otherwise the gap |
| AnalyticsDashboard.Recent | components/analytics_dashboard.py:393-395 | at most ten entries; a history of ten or fewer is kept whole |
| AnalyticsDashboard.RecentAppend | components/analytics_dashboard.py:388-395 | after appending: between 1 and 10 entries, the new entry last, preceded by the most recent old entries in their order |
| AnalyticsDashboard.ScoreSession.constructor | components/analytics_dashboard.py:385-386 | a fresh session holds no history and no scores |
| AnalyticsDashboard.ScoreSession.RemainingTo | components/analytics_dashboard.py:297-298 | the session's remaining points are never negative |
| AnalyticsDashboard.ScoreSession.UpdateHistory | components/analytics_dashboard.py:383-399 | the history becomes the last ten of the old history plus the new entry; previous = the old current score, or the new score when there was none; current = the new score |
| ChatInterface.FallbackTopic | components/chat_interface.py:305-316 | the first category in the order score, keywords, improve, summary with a trigger word in the lower-cased prompt; the default exactly when no trigger word occurs |
| ChatInterface.FallbackIgnoresCase | components/chat_interface.py:305-316 | a prompt and its lower-cased form are routed alike |
| ChatInterface.FallbackAppend | components/chat_interface.py:307-316 | matching is by substring: more text can only move the reply earlier in the order |
| ChatInterface.FallbackResponseIgnoresCase | components/chat_interface.py:289-316 | a prompt and its lower-cased form get the same canned reply |
| ChatInterface.Excerpt | components/chat_interface.py:203-210 | a text within the limit is kept verbatim; a longer one becomes its first `limit` characters plus "..." |
| ChatInterface.AnalysisLines | components/chat_interface.py:219-225 | five lines; the ATS line carries the stored score text (or N/A) verbatim between its label and "/100" |
| ChatInterface.AnalysisCountsReadBack | components/chat_interface.py:215-224 | the two counts read back as the lengths of the matched and missing lists |
| ChatInterface.ContextParts | components/chat_interface.py:195-231 | persona first; CV lines exactly when there is CV text and job lines exactly when there is a job; the analysis lines exactly when there are results; the question third from the end and the closing line last |
| ChatInterface.PromptContents | components/chat_interface.py:195-233 | the prompt starts with the persona line and a newline, and contains the question and each included excerpt |
| ChatInterface.BuildContextPrompt | components/chat_interface.py:192-233 | the list built by `extend` and joined with newlines is the specified prompt, which starts with the persona line and contains the question |
| ChatInterface.UserCount | components/chat_interface.py:153 | the number of user entries: at most the history length, and 0 exactly when no entry is from the user |
| ChatInterface.ChatSession.constructor | components/chat_interface.py:150-151 | a fresh session has no history |
| ChatInterface.ChatSession.AddUserMessage | components/chat_interface.py:148-157 | the history becomes the old one (or empty) plus exactly one user entry at the end |
| ChatInterface.ChatSession.ClearChatHistory | components/chat_interface.py:327-331 | an existing history becomes empty; an absent one stays absent |

## Left out

- I/O and frameworks:
  - Streamlit rendering: the charts, metrics, buttons and widgets of the dashboard and the chat, and `_add_message_actions`.
  - The Ollama HTTP calls: `generate_response`, `is_connected` and the prompt-building methods. `_generate_ai_response` is not modelled either, so neither is the assistant entry it appends, because its content comes from the network.
  - Reading PDF and DOCX files. `PdfProcessor.Dispatch` says which reader would be called, not what it returns.
- Abstracted inputs:
  - `datetime.now()` timestamps are a parameter.
  - The NLTK stopword list is a set parameter.
  - `KeywordExtractor.TokenizeAndFilter`: NLTK's `word_tokenize` is modelled as a whitespace split of the cleaned text. The Treebank tokenizer behind it also splits the contractions "cannot", "gimme", "gonna", "gotta", "lemme" and "wanna" into two tokens, and the model keeps each of these words whole. For example, "cannot cannot cannot" gives no keywords in the program, because "can" and "not" are both stopwords, but gives ["cannot"] in the model.
  - The textstat readability score is an input of `ScoringSystem.ContentScore`.
- Regex engine:
  - The e-mail, phone and line-anchored bullet patterns are predicates the model takes as parameters.
  - `re.findall` for the achievement, requirement and qualification patterns is a function parameter.
  - The other patterns are written out by hand.
- Text handling:
  - Letter case is ASCII only: `lower()`, `upper()`, `\w` and `isdigit()` ignore non-ASCII letters and digits.
  - The whitespace set is that of `str.isspace()`.
- Rounding:
  - `round(x, 2)` and `round(x, 1)` are not modelled. Percentages, ratios and the overall score are exact reals.
  - `KeywordExtractor.KeywordDensity` and `KeywordExtractor.CompareKeywords` state the unrounded ratios.
  - `ScoringSystem.CalculateOverallScore` states the unrounded weighted sum.
- Dictionary defaults:
  - Dictionaries read with `.get` are records with the fields the code reads.
  - A missing `structure_analysis` is `None` in `AnalyticsDashboard.StructureScore`.
  - Falsy `analysis_results` (`None` or `{}`) is `None` in `ChatInterface.ContextParts`.
  - The ATS score shown in the prompt is the text of the stored value, with 'N/A' when it is absent.
- `AnalyticsDashboard.TechScore` takes the two keyword lists directly rather than reading them out of the results dictionary.
- ChatInterface.FallbackResponse: it returns the canned reply of `ChatInterface.FallbackTopic`, where the routing properties are stated. The model does not prove that the five canned replies differ from one another.
- `KeywordExtractor.RankByCount`: `Counter.most_common()` is modelled as a stable insertion by count, not as Python's sort. The contract states membership and strict ranking order, which together mean each distinct token appears exactly once.
- CvAnalyzer.DescriptionFor: the suggestion texts are not formatted. The keyword-gap description carries the whole missing-keyword set, not the first five joined by commas (`[:5]`). The technical-gap description carries the whole set, not the first three (`[:3]`). The percentage is exact, not printed with `:.1f`. The source takes these cuts from lists whose order comes from Python sets, so which five or three it shows is unspecified.
- CvAnalyzer.HasContactInfo: the e-mail and phone patterns are parameters, so the model states only that either search matching sets the flag.
- CvAnalyzer.UsesBulletPoints: the two line-anchored patterns are parameters. `CvAnalyzer.BulletAnywhere` states what the unanchored character class does.
- `OllamaClient.HeaderKey`: the key is made from the whole header line, including any text after the colon, as the code does.
- `OllamaClient.ParsedAnalysis`: `int()` raises on more than 4300 digits, and the model takes the exception path then. Other exceptions cannot occur in the modelled code.
- Not part of the core and so not modelled: `analyze_cv`, `_get_ai_analysis`, `_calculate_score_delta`, `generate_score_report`, the quick-prompt buttons, and `components/improvement_suggestions.py`.
