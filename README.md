# SimLog core, modelled in Dafny

SimLog is an emotion journal. A user writes one diary entry a day. The backend does four things with an entry:

- It classifies the entry into one of the eight Plutchik emotions (기쁨, 신뢰, 두려움, 놀람, 슬픔, 혐오, 분노, 기대) and gives it an intensity from 1 to 10.
- It colours the entry from an eight-colour wheel.
- It folds the entry into a rolling seven-day aggregate of summaries and emotions.
- It pays the author seeds for a small garden.

The aggregate feeds three other features:

- A negative-mood alert, which the user can snooze for seven days.
- Counsellor share links, which require consent. Only a digest of each link's token is stored. A link can be revoked and it expires.
- Statistics with a representative colour.

The garden has its own parts:

- a daily attendance streak;
- a seed-priced shop;
- placing items, where the item's name and a chosen variant pick an image file.

Three stand-alone scripts normalise asset file names.

This project models the deterministic heart of all of that, and proves what each piece promises.

The modules:

- `EmotionColor` covers `backend/services/emotion_color_service.py`:
  - the colour tables;
  - the intensity tint;
  - the sixteen-entry palette;
  - the nearest-colour search;
  - the representative colour of many records;
  - the keyword scorer;
  - the shade name.
- `AiAnalysis` covers `backend/services/ai_analysis_service.py`:
  - the fallback classifier with a fixed vocabulary;
  - the template summaries;
  - the fallback keyword list;
  - the clean-up of a model's keyword list;
  - the conversion of a model answer.
- `RecordService` covers `backend/services/record_service.py`:
  - the upsert into the seven-day aggregate;
  - the one-record-a-day rule and the seed reward;
  - the refresh after an edit;
  - the local keyword extractor and summary;
  - the emotion statistics.
- `Alerts` covers `backend/controllers/alerts_controller.py`: the suppression window, the defensive reading of the aggregate, the alert rule, acknowledgement, and the developer-only forced alert.
- `ReportService` covers `backend/services/report_service.py`:
  - the consent row;
  - share creation, from the aggregate or recomputed from records;
  - reading a share, with revocation and expiry;
  - owner-only revocation;
  - the list of active shares.
- `Garden` covers `backend/services/garden_service.py`: attendance, the garden and shop filters, purchases, placing and removing items, and the variant-to-image mapping.
- `Voice` covers `backend/services/voice_service.py`: the language-code mapping and the audio size check.
- `FileNames` holds what the three rename scripts share:
  - `os.path.splitext`;
  - the `Key=([^,]+)` capture;
  - the direction table.
- `RenameAllAssets`, `RenameAllAssetsUnified` and `RenameGardenFiles` each model one script's `clean_filename`.
- `Common` holds the Python built-ins the services rely on: substring tests, `lower`, `strip`, joins, slices, rounding and decimal rendering.
- `Models` holds the database rows. Each table is a class whose rows are keyed by the table's unique column.

Conventions:

- Time is whole seconds on one UTC clock. A calendar date is `t / 86400`.
- A fraction is kept as an exact count over a total.
- The decimal colour factors are integer percentages.
- Code that changes state is written as methods on those classes, with loops where the source has loops. Each method is proved equal to a specification function, and the lemmas are proved about that function.

## Model

| member | source | states |
|---|---|---|
| EmotionColor.DyadLookup | backend/services/emotion_color_service.py:79-88 | A labelled ordered pair of emotions yields one of the eight dyad labels. |
| EmotionColor.EmotionIndex | backend/services/emotion_color_service.py:10-59 | A label has a table position exactly when it is one of the eight emotions, and the wheel holds it at that position. |
| EmotionColor.Resolve | backend/services/emotion_color_service.py:211-213 | A known emotion is drawn with its own primary and an unknown one with 기쁨's; the channels always lie in 0..255. |
| EmotionColor.BaseColorsInRange | backend/services/emotion_color_service.py:10-59 | Every primary has its channels in 0..255. |
| EmotionColor.WheelDistinct | backend/services/emotion_color_service.py:76 | The eight wheel labels are pairwise different. |
| EmotionColor.ResolveAt | backend/services/emotion_color_service.py:211-213 | The k-th wheel label is drawn with the k-th primary. |
| EmotionColor.ModifierFor | backend/services/emotion_color_service.py:62-73 | Intensity i in 1..10 uses row i, and anything else uses row 5. Brightness is 100 − 5i percent. Saturation is below 100% exactly for 1..4. |
| EmotionColor.ModifierScale | backend/services/emotion_color_service.py:62-73 | Along 1..10 brightness strictly falls and saturation never falls; the saturation step applies only to intensities 1 to 4. |
| EmotionColor.Brighten | backend/services/emotion_color_service.py:217 | Darkening keeps channels in range and grows none of them. |
| EmotionColor.Pull | backend/services/emotion_color_service.py:230-232 | A desaturated channel lands between its old value and the maximum, and the maximum stays put. |
| EmotionColor.Saturate | backend/services/emotion_color_service.py:220-234 | The saturation step keeps the largest channel and moves every channel into [c, max]. At 100% saturation, or on a grey, it changes nothing. |
| EmotionColor.Mix | backend/services/emotion_color_service.py:91-97 | Mixing two in-range colours halves each channel sum, truncated, and stays in range. |
| EmotionColor.HexOf | backend/services/emotion_color_service.py:236 | The hex is '#' followed by six lower-case hex digits. |
| EmotionColor.HexRoundTrip | backend/services/emotion_color_service.py:236 | Parsing the rendered hex gives the channels back, so `hex` and `rgb` always agree. |
| EmotionColor.Tint | backend/services/emotion_color_service.py:217-234 | The tinted colour is the darkened primary, pulled toward its maximum only at intensities 1..4. Its hex is rendered from its channels. |
| EmotionColor.ColorWithIntensity | backend/services/emotion_color_service.py:209-243 | The result carries the resolved emotion's name and description, channels in range, a matching hex, and the input intensity echoed. |
| EmotionColor.UnknownEmotionIsJoy | backend/services/emotion_color_service.py:211-213 | An unknown label gives exactly 기쁨's colour. |
| EmotionColor.OutOfScaleIsFive | backend/services/emotion_color_service.py:214-242 | An intensity outside 1..10 is coloured like 5, but the result still echoes the given intensity. |
| EmotionColor.DarkerWithIntensity | backend/services/emotion_color_service.py:208-236 | Over the whole scale 1..10 and for every emotion label, a stronger intensity never makes a channel lighter, the saturation step at intensities 1 to 4 included. |
| EmotionColor.PaletteKeysDistinct | backend/services/emotion_color_service.py:76-88 | The wheel labels and the dyad labels are sixteen different keys. |
| EmotionColor.PrimariesAt | backend/services/emotion_color_service.py:103-106 | The first pass gives the eight primaries tinted to the intensity, in wheel order. |
| EmotionColor.ExtendedPalette | backend/services/emotion_color_service.py:100-127 | The palette has exactly sixteen entries. |
| EmotionColor.DyadLabelAt | backend/services/emotion_color_service.py:113-117 | Every wheel-neighbour pair finds its non-empty dyad label through the forward lookup. |
| EmotionColor.PaletteKeys | backend/services/emotion_color_service.py:100-127 | The palette keys are the wheel in order, then the dyad labels. |
| EmotionColor.PaletteKeysUnique | backend/services/emotion_color_service.py:100-127 | No palette key occurs twice. |
| EmotionColor.WheelColor | backend/services/emotion_color_service.py:103-106 | Colouring the k-th label is tinting the k-th primary. |
| EmotionColor.PalettePrimary | backend/services/emotion_color_service.py:102-106 | Entry k < 8 is the k-th label with its colour at the intensity clamped to 1..10. |
| EmotionColor.PaletteBlend | backend/services/emotion_color_service.py:113-125 | Entry 8 + k carries the k-th dyad label as key and name, plus the clamped intensity. Its channels are the halved sums of the two neighbouring primaries. |
| EmotionColor.PaletteHex | backend/services/emotion_color_service.py:121 | Every palette colour is in range, with a hex that matches its channels. |
| EmotionColor.DyadStep | backend/services/emotion_color_service.py:113-125 | One turn of the palette loop appends the next blend under its label. |
| EmotionColor.BuildExtendedPalette | backend/services/emotion_color_service.py:100-127 | The loop that fills the dictionary builds exactly the palette. |
| EmotionColor.FirstMinIndexIsMin | backend/services/emotion_color_service.py:130-142 | The running minimum is nearest of all candidates, and strictly nearer than every earlier one. |
| EmotionColor.ClosestIndex | backend/services/emotion_color_service.py:133-140 | The chosen entry has minimal squared distance, and every earlier entry is strictly farther, so ties go to the earliest key. |
| EmotionColor.ClosestKey | backend/services/emotion_color_service.py:130-142 | The answer is the nearest entry's key. An empty palette, or an empty key, gives 기쁨. |
| EmotionColor.FirstMinStep | backend/services/emotion_color_service.py:138-140 | A new candidate replaces the running best only when it is strictly nearer. |
| EmotionColor.FindClosestFromPalette | backend/services/emotion_color_service.py:130-142 | The search loop returns that key. |
| EmotionColor.FindClosestEmotion | backend/services/emotion_color_service.py:337-348 | The result is a wheel emotion: the first one, in table order, whose primary is nearest. |
| EmotionColor.ValidRgbs | backend/services/emotion_color_service.py:257-259 | The valid colours are empty exactly when no record has a three-channel colour. |
| EmotionColor.AverageIntensity | backend/services/emotion_color_service.py:269-278 | The mean intensity over all records is rounded half to even and clamped to 1..10. |
| EmotionColor.ClosestKeyLookup | backend/services/emotion_color_service.py:280-283 | On the palette, the nearest key looked up again finds the nearest entry. |
| EmotionColor.ExtendedPaletteShaped | backend/services/emotion_color_service.py:100-127 | The built palette is keyed as the lookup lemma needs. |
| EmotionColor.AverageEmotionColor | backend/services/emotion_color_service.py:246-293 | With no valid colour the result is 기쁨 at 5. Otherwise `period` is the number of valid colours, the intensity is the clamped mean, and the emotion is the key nearest the mean colour. |
| EmotionColor.AverageIsNearest | backend/services/emotion_color_service.py:280-291 | The chosen colour is a palette entry, and no palette colour is nearer to the mean. |
| EmotionColor.GetAverageEmotionColor | backend/services/emotion_color_service.py:246-293 | The loops compute exactly that representative colour. |
| EmotionColor.KeywordScores | backend/services/emotion_color_service.py:183-206 | Each emotion scores three tenths per distinct keyword found. 기쁨 scores one tenth exactly when nothing matched, so some score is positive. |
| EmotionColor.AnalyzeEmotionKeywords | backend/services/emotion_color_service.py:178-206 | The nested loops compute exactly those scores. |
| EmotionColor.FirstMaxIndex | backend/services/emotion_color_service.py:159 | The pick is the first position holding the maximum. |
| EmotionColor.ScoreIntensity | backend/services/emotion_color_service.py:162 | The intensity lies in 1..10. It equals the tenths, except that 9 tenths (three keywords, which sum to 0.8999… in floating point) gives 8. |
| EmotionColor.AnalyzeEmotionFromText | backend/services/emotion_color_service.py:150-175 | The primary is the first wheel emotion with the best score, and its intensity comes from that score. The colour and message follow from both. |
| EmotionColor.NoKeywordIsMildJoy | backend/services/emotion_color_service.py:203-204 | A text with no keyword is 기쁨 at intensity 1. |
| EmotionColor.ShadeRank | backend/services/emotion_color_service.py:301-318 | The shade step is the top one exactly above a mean of 200, and the bottom one exactly at or below 50. |
| EmotionColor.ShadePrefix | backend/services/emotion_color_service.py:309-318 | The prefix is one of the five shade words. |
| EmotionColor.AverageColorName | backend/services/emotion_color_service.py:296-334 | The name is the shade word and the emotion's colour word, or 회색 for an unknown emotion. |
| EmotionColor.ShadeMonotone | backend/services/emotion_color_service.py:309-318 | A brighter colour never gets a darker shade word. |
| AiAnalysis.Hits | backend/services/ai_analysis_service.py:170-171 | The hits are exactly the vocabulary entries that occur in the text. |
| AiAnalysis.Score | backend/services/ai_analysis_service.py:170-171 | A score is zero exactly when no vocabulary entry occurs, i.e. it counts distinct entries. |
| AiAnalysis.NegativeEmotion | backend/services/ai_analysis_service.py:177-187 | The refinement only yields 슬픔, 분노, 두려움 or 놀람. |
| AiAnalysis.DecideCases | backend/services/ai_analysis_service.py:176-199 | Each case holds in both directions:<br>a negative win gives the refined emotion at clamp(2·neg, 1, 10);<br>a positive win gives 기쁨;<br>two zero scores give 신뢰;<br>a non-zero tie gives 슬픔 at 5.<br>The result is never 혐오 or 기대. |
| AiAnalysis.AnalyzeFallback | backend/services/ai_analysis_service.py:149-215 | The result applies the decision rule to the two scores of the lowered text. It has confidence 60%, is marked not from AI, has the colour of (emotion, intensity) and the keyword-analysis message. |
| AiAnalysis.FallbackIgnoresCase | backend/services/ai_analysis_service.py:167 | Lowering a text first changes nothing. |
| AiAnalysis.SeedEntryIsSadness | backend/services/ai_analysis_service.py:167-199 | The first line of the development seed week is classified 슬픔 at intensity 2. |
| AiAnalysis.SeedNegativeHits | backend/services/ai_analysis_service.py:154-170 | That line holds only the negative stem 우울. |
| AiAnalysis.SeedPositiveHits | backend/services/ai_analysis_service.py:161-171 | That line holds no positive stem. |
| AiAnalysis.SeedNoCues | backend/services/ai_analysis_service.py:177-187 | That line holds no refining cue, so the refinement defaults to 슬픔. |
| AiAnalysis.SummaryTemplate | backend/services/ai_analysis_service.py:227-236 | Exactly the eight emotions have a template sentence. |
| AiAnalysis.SummaryFor | backend/services/ai_analysis_service.py:238-244 | An emotion gets its template; any other label gets the generic sentence built from it. |
| AiAnalysis.SummaryFallback | backend/services/ai_analysis_service.py:218-245 | The fallback summary is always one of the eight templates; the generic line is unreachable. |
| AiAnalysis.FirstHit | backend/services/ai_analysis_service.py:358-362 | A category yields its first keyword that occurs, and yields none exactly when no keyword occurs. |
| AiAnalysis.HitCategories | backend/services/ai_analysis_service.py:358-362 | The categories with a hit are exactly those with some keyword in the text, listed once each in ascending order. |
| AiAnalysis.CategoryHits | backend/services/ai_analysis_service.py:355-362 | In category order, one keyword for each category that has a hit and none for the others: the first of its keywords that occurs, so no category contributes twice. |
| AiAnalysis.KeywordsFallback | backend/services/ai_analysis_service.py:338-376 | The list has 1 to 5 entries. The primary emotion is put in front when no category produced it, and the list is cut to five. |
| AiAnalysis.KeywordsFallbackFromVocabulary | backend/services/ai_analysis_service.py:343-370 | Every fallback keyword is the primary emotion or a category keyword. |
| AiAnalysis.WithLeadFromCategories | backend/services/ai_analysis_service.py:358-376 | For any text, category table and leading label, the list with the label put in front and cut to five holds only the label and category keywords. |
| AiAnalysis.CollectHits | backend/services/ai_analysis_service.py:358-362 | The nested loop with its `break` computes exactly the category hits. |
| AiAnalysis.ExtractKeywordsFallback | backend/services/ai_analysis_service.py:338-376 | The method computes exactly the fallback list. |
| AiAnalysis.UniqueContents | backend/services/ai_analysis_service.py:317-330 | The de-duplicated list has no repeats and holds exactly the present values. |
| AiAnalysis.DedupContents | backend/services/ai_analysis_service.py:317-330 | The clean-up keeps exactly the stripped non-empty strings, once each. |
| AiAnalysis.FirstSomeIsFirst | backend/services/ai_analysis_service.py:322-330 | No position before the first occurrence holds the value. |
| AiAnalysis.PrefixFirstSome | backend/services/ai_analysis_service.py:322-330 | A first occurrence inside a prefix is the same in the whole list. |
| AiAnalysis.UniqueOrder | backend/services/ai_analysis_service.py:322-330 | The kept values appear in order of their first occurrences. |
| AiAnalysis.DedupKeywords | backend/services/ai_analysis_service.py:317-330 | The loop with a `seen` set computes exactly the clean-up. |
| AiAnalysis.CleanKeywords | backend/services/ai_analysis_service.py:317-332 | The keywords are the first five cleaned entries, or the fallback list when none survives; always 1 to 5 of them. |
| AiAnalysis.ConvertModelAnswer | backend/services/ai_analysis_service.py:420-443 | The defaults are 기쁨, 5 and 50%. The colour is the table colour, with its name replaced only by a non-empty model colour name. The result is marked from AI. |
| AiAnalysis.ConvertKeepsChannels | backend/services/ai_analysis_service.py:429-433 | Only the colour's name can differ from the table colour. |
| Voice.LanguageTable | backend/services/voice_service.py:50-63 | The table only yields one of the four engine codes. |
| Voice.MapLanguage | backend/services/voice_service.py:47-64 | The result is one of the four codes. A missing code gives Kor, a listed code gives its entry after lowering, and anything else gives Kor. |
| Voice.MapLanguageIgnoresCase | backend/services/voice_service.py:49 | The mapping ignores ASCII case. |
| Voice.MapLanguageKorean | backend/services/voice_service.py:51-53 | The Korean codes in any case, the empty code and an unlisted code all give Kor. |
| Voice.MapLanguageEnglish | backend/services/voice_service.py:54-56 | The English codes give Eng. |
| Voice.MapLanguageJapanese | backend/services/voice_service.py:57-59 | The Japanese codes give Jpn. |
| Voice.MapLanguageChinese | backend/services/voice_service.py:60-62 | The Chinese codes give Chn. |
| Voice.MapLanguageIdempotent | backend/services/voice_service.py:49-64 | Mapping an output again gives it back. |
| Voice.ValidateAudio | backend/services/voice_service.py:124-134 | Empty data is rejected first, then data over 10 MiB. Exactly 10 MiB is valid. |
| Voice.AudioError | backend/services/voice_service.py:128-134 | Exactly the rejections carry a message. |
| FileNames.LastIndexOf | rename_all_assets.py:7 | The position found is the last occurrence of the character, or −1. |
| FileNames.Splitext | rename_all_assets.py:7 | Root and extension concatenate to the path, and the extension is empty or a single dot-part with no slash. |
| FileNames.SplitextAppend | rename_all_assets.py:7 | Appending an extension to a proper stem splits back into the two. |
| FileNames.SearchFromLeftmost | rename_all_assets.py:10-13 | The search finds the leftmost match, and finds none exactly when there is none. |
| FileNames.CaptureLeftmost | rename_all_assets.py:10-13 | A capture exists exactly when `Key=` followed by a non-comma occurs, and it is the leftmost one. |
| FileNames.Capture | rename_all_assets.py:10-13 | The value is the non-empty, comma-free text right after `Key=`, up to the next comma or the end. |
| RenameAllAssets.TablesAgreeWithFallback | rename_all_assets.py:20-35 | Every colour and bloom table entry equals lower-casing with spaces turned into `_`, and every size entry equals lower-casing. |
| RenameAllAssets.KindOf | rename_all_assets.py:15-99 | A name without Color is left alone. Color with Bloom Type is the flower case. |
| RenameAllAssets.CleanFilename | rename_all_assets.py:4-99 | The result always keeps the original extension, and a name without Color is unchanged. |
| RenameAllAssets.CleanFilenameStem | rename_all_assets.py:15-97 | The new stems are `<color>_<bloom>`, `<direction>_<size>` (the colour left out) and `<color>`. |
| RenameAllAssetsUnified.FolderOf | rename_all_assets_unified.py:10-120 | A folder is left alone exactly when it holds none of the twelve folder keywords. |
| RenameAllAssetsUnified.PondBordersInPond | rename_all_assets_unified.py:92-120 | A folder holding "pond/pond_borders" also holds "pond/pond". |
| RenameAllAssetsUnified.PondBordersUnreachable | rename_all_assets_unified.py:92-146 | The border branch is never chosen. |
| RenameAllAssetsUnified.RocksName | rename_all_assets_unified.py:26-33 | The three rock names map to their files in test order; any other name is unchanged. |
| RenameAllAssetsUnified.BloomOptionName | rename_all_assets_unified.py:35-43 | With both values the name is `<color>_<level>_bloom.png`, otherwise it is unchanged. |
| RenameAllAssetsUnified.BloomColorName | rename_all_assets_unified.py:45-53 | With both values the name is `<color>_<size>.png`, otherwise it is unchanged. |
| RenameAllAssetsUnified.DirectionName | rename_all_assets_unified.py:55-74 | With a direction the name is the prefix and the direction through the table (otherwise snake-cased), plus `.png`; otherwise it is unchanged. |
| RenameAllAssetsUnified.ValueName | rename_all_assets_unified.py:76-90 | With the value the name is the snake-cased value between prefix and suffix, plus `.png`; otherwise it is unchanged. |
| RenameAllAssetsUnified.BorderName | rename_all_assets_unified.py:120-146 | With all three values the name is `pond_border_<color>_<direction>.png`, otherwise it is unchanged. |
| RenameAllAssetsUnified.CleanFilenameIn | rename_all_assets_unified.py:10-148 | Every branch returns the filename or a `.png` name. |
| RenameAllAssetsUnified.CleanFilename | rename_all_assets_unified.py:4-148 | The result is the filename or a `.png` name, and an unlisted folder keeps the name. |
| RenameAllAssetsUnified.AlreadyCleanFolders | rename_all_assets_unified.py:10-24 | Fish, lotus and flower files keep their names. |
| RenameAllAssetsUnified.BorderFilesNamedAsPond | rename_all_assets_unified.py:92-110 | A border file is named like a pond file, `pond_<direction>.png`. |
| RenameAllAssetsUnified.FolderOfCorrected | rename_all_assets_unified.py:92-120 | With the border test first, a border folder picks the border branch, and every other folder picks what it did before. |
| RenameAllAssetsUnified.CleanFilenameCorrected | rename_all_assets_unified.py:4-148 | Outside border folders the corrected rename is the original one. |
| RenameAllAssetsUnified.BorderFilesNamedAsBorders | rename_all_assets_unified.py:120-146 | Corrected, a border file with its three values becomes `pond_border_<color>_<direction>.png`. |
| RenameGardenFiles.CleanSizeIsLower | rename_garden_files.py:42-48 | The size table agrees with lower-casing, so a size is always lower-cased. |
| RenameGardenFiles.CleanFilenameShape | rename_garden_files.py:4-53 | A rename needs both Direction and Size, and gives `<direction>_<size>` plus the original extension. Otherwise the name is unchanged. |
| RecordService.OtherDays | backend/services/record_service.py:117 | The filter keeps exactly the items dated another day. |
| RecordService.OtherDaysAppend | backend/services/record_service.py:117 | The filter keeps the relative order of the kept items. |
| RecordService.UpsertShape | backend/services/record_service.py:107-122 | Exactly one item carries today's date, and it is last. A new cache is `[item]`. Otherwise the other days' items come first, from their earliest end cut to leave at most `period_days`. |
| RecordService.NegativeCount | backend/services/record_service.py:126-129 | The negative days never outnumber the items. |
| RecordService.EmptyEmotionNotNegative | backend/services/record_service.py:96-100 | An item stored without an emotion ("") never counts as negative. |
| RecordService.Summaries | backend/services/record_service.py:132 | Only non-empty summaries are rolled up. |
| RecordService.RollUpBounds | backend/services/record_service.py:132-133 | The roll-up is at most 200 characters, is a prefix of the last three summaries joined by spaces, and is all of it when that fits. |
| RecordService.Refresh | backend/services/record_service.py:107-133 | The refreshed cache holds the upserted items, their negative ratio and their roll-up. |
| RecordService.RefreshRatio | backend/services/record_service.py:125-130 | The ratio lies in [0, 1] over the item count, and the cache never holds more than `periodDays` items. |
| RecordService.FilterOtherDays | backend/services/record_service.py:115-117 | The filtering loop computes exactly the other days' items. |
| RecordService.CountAndCollect | backend/services/record_service.py:125-132 | The counting loop computes exactly the negative count and the summaries. |
| RecordService.RefreshCache | backend/services/record_service.py:107-133 | Assigning the fields step by step gives exactly the refreshed cache. |
| RecordService.UpdateWeeklyCache | backend/services/record_service.py:85-135 | Only the (user, 7-day) row changes, to the refreshed cache; it is created when missing. |
| RecordService.Matching | backend/services/record_service.py:280-282 | The matches are exactly the vocabulary words that occur in the text, kept in vocabulary order (a subsequence of the vocabulary). |
| RecordService.ExtractKeywords | backend/services/record_service.py:268-288 | The keywords are at most five matches in vocabulary order, or exactly the two default words when nothing matches. |
| RecordService.ExtractKeywordsOccur | backend/services/record_service.py:279-288 | Each keyword returned is a vocabulary word that occurs in the text, unless the defaults were returned. |
| RecordService.ExtractKeywordsLoop | backend/services/record_service.py:271-288 | The appending loop computes exactly that list. |
| RecordService.GenerateSummary | backend/services/record_service.py:305-332 | The local summary is always one of the eight templates. |
| RecordService.PrimaryKeywordFallbackUnused | backend/services/record_service.py:33-49 | A record's keywords are the model's keywords, or else the local ones. They are never empty, so the primary-emotion fallback never applies. |
| RecordService.Rewarded | backend/services/record_service.py:66-67 | An existing author gains exactly two seeds; no other user changes. |
| RecordService.SecondRecordRefused | backend/services/record_service.py:25-30 | Once a user the limit applies to has written today, a second record that day is refused. |
| RecordService.HasTodayRecord | backend/services/record_service.py:291-302 | The scan finds a record of the user dated today exactly when one exists. |
| RecordService.ChooseKeywords | backend/services/record_service.py:33-49 | The fallbacks are tried in the source's order. |
| RecordService.CreateRecord | backend/services/record_service.py:12-82 | If a user the limit applies to has already written today, the call fails with nothing changed. Otherwise it appends the record, pays two seeds, and upserts today's item into the 7-day aggregate. |
| RecordService.Edited | backend/services/record_service.py:187-201 | The edit keeps the id, owner and date. New content recomputes the keywords, the summary and the keyword-scorer analysis; absent content keeps all four. A given sleep score, stress score or sharing flag overwrites the stored one; an absent one keeps it. |
| RecordService.FindRecord | backend/services/record_service.py:182-184 | The record found has the given id and owner; none means there is no such record. |
| RecordService.UpdateRecord | backend/services/record_service.py:172-216 | An unknown record changes nothing. Otherwise the record becomes the edited one, and the aggregate is refreshed under today's date. |
| RecordService.EditUsesToday | backend/services/record_service.py:206-213 | The item an edit refreshes carries the day of the edit, not the day the record was written. |
| RecordService.BumpCounts | backend/services/record_service.py:249 | A bump adds one to the total and to that label only. |
| RecordService.DistributionCounts | backend/services/record_service.py:245-249 | The counts sum to the number of analysed records, and each label counts its analysed records. |
| RecordService.EmotionDistribution | backend/services/record_service.py:245-249 | The loop computes exactly that distribution. |
| RecordService.PeriodRecords | backend/services/record_service.py:143-154 | The period holds exactly the user's records of the last `days` days. |
| RecordService.PeriodBounded | backend/services/record_service.py:150-154 | Selecting the period keeps every record date under a bound that holds for all rows. |
| RecordService.PeriodNewestFirst | backend/services/record_service.py:150-154 | When the rows are stored in creation order, the period's records come newest first. |
| RecordService.EmotionStatistics | backend/services/record_service.py:230-265 | No records gives a count of 0 and 기쁨 at 5. Otherwise the result has the record count, the distribution and the representative colour. |
| RecordService.GetEmotionStatistics | backend/services/record_service.py:230-265 | The call computes the statistics of the period's records. |
| Alerts.SafeItems | backend/controllers/alerts_controller.py:46-59 | The defensive pass keeps at most one field per entry. |
| Alerts.SafeItemsEmpty | backend/controllers/alerts_controller.py:46-62 | Nothing survives exactly when no entry is, or parses to, an object. |
| Alerts.DaysNegative | backend/controllers/alerts_controller.py:64 | The negative days never exceed the surviving items. |
| Alerts.HasUnhashablePrefix | backend/controllers/alerts_controller.py:64 | An unhashable field in a prefix is one in the whole list. |
| Alerts.RuleForShortLists | backend/controllers/alerts_controller.py:64-68 | Up to eight items, the rule is exactly 5·neg ≥ 3·n. |
| Alerts.CountClauseForLongLists | backend/controllers/alerts_controller.py:68 | Five negative days out of nine alert on the count clause alone. |
| Alerts.Evaluate | backend/controllers/alerts_controller.py:38-78 | An evaluation reports neg ≤ n, the ratio neg/n with n ≥ 1, and the alert rule on them. It is never "suppressed". |
| Alerts.Check | backend/controllers/alerts_controller.py:21-81 | The check is suppressed exactly within seven days of the last acknowledgement. |
| Alerts.NothingReadableNoAlert | backend/controllers/alerts_controller.py:38-62 | No cache, a non-list value, or no readable object gives no alert. |
| Alerts.AlertOnlyFromEvaluation | backend/controllers/alerts_controller.py:25-78 | An alert needs no suppression, a list cache, readable entries and no error. |
| Alerts.ToRaw | backend/controllers/alerts_controller.py:46-59 | The stored items map one-to-one onto JSON entries. |
| Alerts.ToRawSafe | backend/controllers/alerts_controller.py:46-64 | Items the record service writes all survive the pass, and give the aggregate's negative count. |
| Alerts.EvaluateReadable | backend/controllers/alerts_controller.py:61-78 | Readable hashable entries give the full payload: the rule, seven days, the ratio and the count. |
| Alerts.CheckAgreesWithAggregate | backend/controllers/alerts_controller.py:64-77 | On an aggregate the record service wrote, the check alerts by that aggregate's own negative count. |
| Alerts.SafeItemsLoop | backend/controllers/alerts_controller.py:46-59 | The loop computes exactly the defensive pass. |
| Alerts.CountNegative | backend/controllers/alerts_controller.py:64 | The count succeeds exactly when every field is hashable, and it then counts the negative days. |
| Alerts.EvaluateColumn | backend/controllers/alerts_controller.py:38-78 | The step-by-step verdict computes exactly the evaluation. |
| Alerts.CheckNegativeAlert | backend/controllers/alerts_controller.py:19-81 | The endpoint applies the check to the user's state row and aggregate. |
| Alerts.ForceShow | backend/controllers/alerts_controller.py:85-101 | A non-developer is refused (403), and only then. A developer gets a test alert over seven days with six negative days and ratio 0.85. |
| Alerts.Acknowledge | backend/controllers/alerts_controller.py:105-121 | Only the user's row changes (created when missing), to the current time. |
| Alerts.AcknowledgeSuppresses | backend/controllers/alerts_controller.py:25-32 | After an acknowledgement at t, every check before t plus seven days is suppressed; from then on the cache decides. |
| ReportService.GetConsent | backend/services/report_service.py:30-57 | Consent is true exactly when a row says so. The action asks for consent otherwise, and the stored times are reported. |
| ReportService.ConsentAfter | backend/services/report_service.py:60-71 | Consenting stamps the consent time and clears the revocation. Withdrawing stamps the revocation and keeps the consent time. |
| ReportService.SetConsent | backend/services/report_service.py:60-79 | Only the user's row changes, to the new answer; it is created when missing. |
| ReportService.ConsentRoundTrip | backend/services/report_service.py:30-71 | The view reports the answer just set, and no other user's view changes. |
| ReportService.Window | backend/services/report_service.py:102-114 | The window holds exactly the user's records of the look-back period. |
| ReportService.ItemsOf | backend/services/report_service.py:126-148 | There is one item per record. |
| ReportService.SnapshotFromRecords | backend/services/report_service.py:116-152 | No records is an error, and only that. Otherwise the items of the last `period_days` records get the aggregate's ratio and roll-up. |
| ReportService.RecomputedBounds | backend/services/report_service.py:121-152 | A recomputation keeps 1..period_days items, a ratio in [0, 1] and a roll-up of at most 200 characters. |
| ReportService.ShareSnapshot | backend/services/report_service.py:88-152 | An aggregate with items is used verbatim; otherwise the records decide. |
| ReportService.CollectItems | backend/services/report_service.py:121-148 | The loop builds exactly the items. |
| ReportService.RecomputeSnapshot | backend/services/report_service.py:116-152 | The step-by-step recomputation gives exactly that snapshot. |
| ReportService.NewShare | backend/services/report_service.py:82-183 | No consent, no snapshot source, or a digest already stored each refuse the share. A stored share is unrevoked, expires `expires_in_days` after now, and holds the snapshot and the digest. |
| ReportService.IsStored | backend/services/report_service.py:170-183 | The scan finds exactly the stored digests. |
| ReportService.CreateWeeklyShare | backend/services/report_service.py:82-188 | Only the digest is stored; the plaintext token and the expiry are returned. A refused share leaves the table as it was. |
| ReportService.FindShare | backend/services/report_service.py:193 | The first row with the digest is found, and none only if no row has it. |
| ReportService.GetSharedReport | backend/services/report_service.py:191-202 | An unknown or revoked link is invalid and a link past its expiry is expired. Otherwise the stored snapshot comes back unchanged. |
| ReportService.NewShareReadable | backend/services/report_service.py:167-202 | A new share is read back by its own token up to its expiry, and reads as expired after it. |
| ReportService.OtherTokensUnaffected | backend/services/report_service.py:26-27 | With an injective digest, storing a share changes nothing for any other token. |
| ReportService.FindShareAppend | backend/services/report_service.py:193 | Appending a row with another digest does not change a lookup. |
| ReportService.FindOwned | backend/services/report_service.py:206-209 | The row found has the digest and the owner; none means no such row. |
| ReportService.RevokeSharedReport | backend/services/report_service.py:205-215 | Only the owner's row with that digest is marked revoked, and the answer is then true even when it already was. Otherwise nothing changes. |
| ReportService.RevokedIsInvalid | backend/services/report_service.py:194-195 | A revoked share reads as invalid. |
| ReportService.ActiveShares | backend/services/report_service.py:220-224 | The active shares are exactly the owner's unrevoked, unexpired ones. |
| ReportService.ListActiveShares | backend/services/report_service.py:218-231 | Only their creation and expiry times are listed. |
| ReportService.ActiveIffReadable | backend/services/report_service.py:194-224 | A share is listed as active exactly when its token reads it. |
| Garden.StreakAfter | backend/services/garden_service.py:30-33 | The streak grows by one after a yesterday attendance, and otherwise restarts at one. |
| Garden.Award | backend/services/garden_service.py:36 | The award is one seed plus one per full week of streak, at most three. |
| Garden.Attend | backend/services/garden_service.py:21-48 | A second attendance the same day changes nothing and pays 0. Otherwise it pays the award on the new streak and stamps today. |
| Garden.AttendOncePerDay | backend/services/garden_service.py:21-27 | Attending twice in a day pays once. |
| Garden.ConsecutiveDays | backend/services/garden_service.py:30-36 | Consecutive days lengthen the streak, and a skipped day restarts it at one with a one-seed award. |
| Garden.AttendKeepsStreak | backend/services/garden_service.py:30-39 | The streak stays non-negative and the balance never falls; a new day pays 1 to 3 seeds. |
| Garden.CheckAttendance | backend/services/garden_service.py:11-48 | A missing user fails with nothing changed. Otherwise only that user's row changes, by the attendance rule. |
| Garden.EquippedItems | backend/services/garden_service.py:58-60 | The garden shows exactly the user's placed items. |
| Garden.GardenInfo | backend/services/garden_service.py:51-77 | A missing user fails, and only then. Otherwise the placed items, the seeds and the streak are reported. |
| Garden.ShopItems | backend/services/garden_service.py:80-97 | The shop lists exactly the available templates. |
| Garden.PurchaseCheck | backend/services/garden_service.py:102-117 | A purchase fails on a missing user, a missing template, an unavailable template, or too few seeds, checked in that order. |
| Garden.Count | backend/services/garden_service.py:121 | `range(quantity)` iterates `quantity` times, and never for a negative quantity. |
| Garden.Bought | backend/services/garden_service.py:122-129 | A new item copies the template, unplaced and at the origin. |
| Garden.Batch | backend/services/garden_service.py:121-129 | The new items take consecutive fresh ids. |
| Garden.PurchaseItem | backend/services/garden_service.py:100-146 | A failed check changes nothing. Otherwise the seeds drop by price·quantity and `quantity` new items are added, and their ids are returned. |
| Garden.PurchaseBalance | backend/services/garden_service.py:115-131 | After a purchase the balance is non-negative and lowered by exactly the cost, and the new ids were free. |
| Garden.NonPositiveQuantity | backend/services/garden_service.py:115-131 | A quantity of zero or less is accepted and adds no items; a negative one raises the balance. |
| Garden.FirstMatchFrom | backend/services/garden_service.py:184-196 | The match found is the first key that occurs in the name. |
| Garden.Pick | backend/services/garden_service.py:184-196 | The code is that of the first key occurring in the name, or the default. |
| Garden.FindCode | backend/services/garden_service.py:211-221 | The loop that breaks at the first hit computes exactly that code. |
| Garden.FirstMatchMostSpecific | backend/services/garden_service.py:211-221 | In a table where no key contains an earlier one, the matched key is never part of another key that also matches. |
| Garden.FreshFirstCharsNoShadowing | backend/services/garden_service.py:211-221 | A table whose keys' first characters are fresh has no shadowing. |
| Garden.DeadBranches | backend/services/garden_service.py:171-355 | The second lotus test never fires, and as written neither does the bud test. |
| Garden.DefaultVariant | backend/services/garden_service.py:179-340 | Each branch's default variant is one it recognises. |
| Garden.Image | backend/services/garden_service.py:167-443 | Only the masonry and unhandled branches leave the image alone. |
| Garden.UnknownVariantFallsBack | backend/services/garden_service.py:179-340 | An unrecognised variant gets the branch's default image. |
| Garden.KnownVariantsDistinct | backend/services/garden_service.py:171-432 | Two different recognised variants give different images. |
| Garden.FenceVariantsDistinct | backend/services/garden_service.py:244-287 | Fence variants give different images. |
| Garden.PondVariantsDistinct | backend/services/garden_service.py:317-342 | Pond variants give different images, whatever the colour. |
| Garden.BudVariantsDistinct | backend/services/garden_service.py:355-377 | Bud sizes give different images. |
| Garden.VeggieVariantsDistinct | backend/services/garden_service.py:427-432 | The two vegetable variants give different images. |
| Garden.BorderVariantsDistinct | backend/services/garden_service.py:378-407 | Border variants give different images. |
| Garden.FenceLabelsInjective | backend/services/garden_service.py:244-287 | No two fence variants share a label. |
| Garden.PondLabelsInjective | backend/services/garden_service.py:317-342 | No two pond variants share a label. |
| Garden.BudSizesInjective | backend/services/garden_service.py:369-375 | No two bud sizes share a label. |
| Garden.BorderLabelsInjective | backend/services/garden_service.py:378-407 | No two border variants share a label. |
| Garden.VariantImageWith | backend/services/garden_service.py:167-443 | The name's branch decides whether an image is chosen. |
| Garden.ChooseImage | backend/services/garden_service.py:167-441 | The step-by-step search computes exactly the image of the corrected mapping. |
| Garden.CorrectedTablesNoShadowing | backend/services/garden_service.py:211-425 | The corrected tables never pass over a more specific key. |
| Garden.BushTableShadows | backend/services/garden_service.py:211-221 | As written, the bush table has a key that shadows a later one. |
| Garden.MossBushAsWritten | backend/services/garden_service.py:208-221 | As written, "이끼 초록 부시" is drawn green. |
| Garden.MossBushCorrected | backend/services/garden_service.py:208-221 | Corrected, it is drawn moss green. |
| Garden.DarkMossBushAsWritten | backend/services/garden_service.py:208-221 | As written, the seeded "어두운 이끼 초록 부시" is drawn green. |
| Garden.DarkMossBushCorrected | backend/services/garden_service.py:208-221 | Corrected, it is drawn dark moss green. |
| Garden.DarkGreyBorderBranch | backend/services/garden_service.py:171-378 | "어두운 회색 연못 테두리" takes the border branch. |
| Garden.DarkGreyBorderAsWritten | backend/services/garden_service.py:378-390 | As written, it is drawn grey. |
| Garden.DarkGreyBorderCorrected | backend/services/garden_service.py:378-390 | Corrected, it is drawn dark grey. |
| Garden.LightGreenBorderBranch | backend/services/garden_service.py:171-378 | "연한 초록 연못 테두리" takes the border branch. |
| Garden.LightGreenBorderAsWritten | backend/services/garden_service.py:378-390 | As written, it is drawn green. |
| Garden.LightGreenBorderCorrected | backend/services/garden_service.py:378-390 | Corrected, it is drawn light green. |
| Garden.CherryTomatoBranch | backend/services/garden_service.py:171-408 | "체리 토마토" takes the vegetable branch. |
| Garden.CherryTomatoAsWritten | backend/services/garden_service.py:410-425 | As written, it is drawn as a tomato. |
| Garden.CherryTomatoCorrected | backend/services/garden_service.py:410-425 | Corrected, it is drawn as cherry tomatoes. |
| Garden.YellowBudAsWritten | backend/services/garden_service.py:182-207 | As written, "노란 꽃봉오리" is a yellow flower, and its bud sizes are unknown there. |
| Garden.YellowBudCorrected | backend/services/garden_service.py:355-377 | Corrected, it takes the bud branch, where each size has an image. |
| Garden.Placed | backend/services/garden_service.py:167-447 | Placing sets equipped and the position. The image changes only to a chosen image, and never without a variant. |
| Garden.Removed | backend/services/garden_service.py:475-477 | Removing clears equipped and puts the item at (0, 0). |
| Garden.EquipItem | backend/services/garden_service.py:149-463 | Someone else's or a missing item fails with nothing changed. Otherwise only that item changes, to the placed one. |
| Garden.UnequipItem | backend/services/garden_service.py:466-483 | Someone else's or a missing item fails with nothing changed. Otherwise only that item changes, to the removed one. |
| Garden.PlaceAndRemove | backend/services/garden_service.py:58-60 | A placed item shows in the garden at its position and a removed one does not; no other item's membership changes. |

## Left out

- The calls to the language model, to the speech-to-text service and to audio conversion are foreign I/O. A model answer is an input value (`AiAnalysis.ModelAnswer`, `RecordService.AiOutputs`).
- The token generator and the hash are not modelled. The token is an input. The digest is a function parameter, assumed injective only where a lemma needs it.
- Time zones are not modelled. `datetime.now` and `date.today` become one integer clock `now`, and a date is `now / 86400`.
- Floating-point values are kept exact. Ratios are (count, total) pairs, and `round(x, 3)` is not applied. Colour factors are integer percentages, and keyword scores are in tenths, with the one rounding case that matters written out.
- `Alerts.RatioRule`: the 0.6 ratio test is exact, assuming exact decimal division of the counts.
- JSON nulls inside model answers and rows are read as absent values.
- `Models.EmotionAnalysis` with neither field stands for two Python values: the empty dict `{}`, and a non-empty dict that has neither key. A truth test on the dict tells them apart, but no writer in the core stores `{}`, so the model reads the value as the second.
- The `print` logging, database commits and their errors, and the silently caught exception around the cache update in record creation are left out. Only the rollback on a duplicate digest is modelled.
- `get_user_inventory`, and the `sell_item` and `_get_item_layer` that callers use, are not part of this model. The item layer column is not modelled either.
- Garden result messages are not modelled.
- `Garden.GardenInfo` and `Garden.ShopItems` return keyed maps, so the list order of the query result is not kept.
- The records table's storage order stands for `created_at` order.
- `generate_average_color_name_with_gpt` is a call into the language model and is not modelled.
- `Common.Lower` lowers ASCII letters only. That differs from Python only on non-ASCII capitals, and none occur in the tables.
- Garden.EquipItem: places items with the corrected mapping, `Garden.VariantImage`. The as-written mapping is `Garden.VariantImageAsWritten`, and the lemmas above compare the two.
- The rename scripts' directory walks and file renames are I/O. Only `clean_filename` is modelled, and the unused border-type clean-up in the unified script is left out.

## Findings

| source | as written | input that shows it | evidently intended | confidence | as-written member | corrected member |
|---|---|---|---|---|---|---|
| backend/services/garden_service.py:211-221 | '초록' is tested before '이끼 초록' | the bush "이끼 초록 부시" | the moss-green bush image | not executed | Garden.MossBushAsWritten | Garden.MossBushCorrected |
| backend/services/garden_service.py:380-390 | '회색' is tested before '어두운 회색' | the border "어두운 회색 연못 테두리" | the dark-grey border image | not executed | Garden.DarkGreyBorderAsWritten | Garden.DarkGreyBorderCorrected |
| backend/services/garden_service.py:211-221 | '초록' is tested before '어두운 이끼' | the seeded bush "어두운 이끼 초록 부시" (backend/add_all_garden_items.py:192) | the dark-moss-green bush image | not executed | Garden.DarkMossBushAsWritten | Garden.DarkMossBushCorrected |
| backend/services/garden_service.py:380-390 | '초록' is tested before '연한 초록' | the seeded border "연한 초록 연못 테두리" (backend/add_all_garden_items.py:234) | the light-green border image | not executed | Garden.LightGreenBorderAsWritten | Garden.LightGreenBorderCorrected |
| backend/services/garden_service.py:410-425 | '토마토' is tested before '체리 토마토' | the vegetable "체리 토마토" | the Cherry Tomatoes image | not executed | Garden.CherryTomatoAsWritten | Garden.CherryTomatoCorrected |
| backend/services/garden_service.py:355-377 | the flower test at line 182 takes every bud | "노란 꽃봉오리" with variant big_bud | the yellow bud image of size Big Bud | not executed | Garden.YellowBudAsWritten | Garden.YellowBudCorrected |
| rename_all_assets_unified.py:92-146 | "pond/pond" is tested before "pond/pond_borders" | a file in a pond/pond_borders folder | a `pond_border_<color>_<direction>.png` name | not executed | RenameAllAssetsUnified.BorderFilesNamedAsPond | RenameAllAssetsUnified.BorderFilesNamedAsBorders |
