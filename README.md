# FiNot core in Dafny

FiNot is a Telegram bot for personal bookkeeping. A user writes
"beli makan 25rb", sends a photo of a receipt or a voice note. The bot
turns the message into transactions with a language model, sanity-checks
them and stores them. On top of that it offers paid plans with weekly AI
credits, payments through an external payment provider, single-use vouchers,
a /history summary, and model-written reports: daily insight, balance
prediction, saving recommendation, health score, saving simulation, and
weekly or monthly analysis.

This project models the core of that bot and proves properties of the
model. There is one module per source file:

- **Text, Json, Wrappers.** The parts of Python's `str`, decoded JSON values and
  `Option`/`Result` that the bot relies on. Library calls the bot makes but
  does not implement are bundled as a record of functions (`Json.Foreign`):
  JSON decoding, float parsing and ISO 8601 parsing.
- **LlmParser.** Reads the model's reply into transaction candidates. It finds the
  first balanced `{...}`, reads one object or a `transactions` array, and
  fails as a whole when any element is bad.
- **SanityChecks, TransactionService, Schemas.** The review flags and the
  confidence penalty, the category mapping, the stored records, and the
  schema rules.
- **Tesseract, OcrService.** The multi-mode OCR loop with its winner rule, and the
  two-pass receipt policy. The OCR engine is a parameter that says what it
  reads per mode.
- **Prompts, IntentClassifier.** Where the user's input goes in each prompt,
  and how a classification reply is read, with its fallbacks.
- **Worker, ProcessMessage.** The text, receipt and voice pipelines as a
  class holding the prompts sent and the three tables, and the background
  job that dispatches to them.
- **Plans, Subscription, Payment, Voucher.** The plan table; plans, credits
  and subscriptions as a class over the account tables; payment orders with
  the provider's webhook; and voucher codes with redemption.
- **History, Analysis.** The /history window, filter and summary; the
  analysis summary, the reading of the model's report, and the balance and
  simulation arithmetic.
- **Telegram.** Update routing, command parsing, period defaults, the credit
  gate, free-text routing by intent, the reply for processed messages, and
  the health-score bands.

Code that updates state step by step is modelled as such. The loops in the
parser, the sanity checks, the OCR loop, the worker's save loop and the
summary builders become methods with loop invariants. Each is proved
against a specification function. Services that change database rows
become classes whose methods are proved to move the state exactly as a
specification function of the old state says. The lemmas beside those
functions state what the source promises: round trips, invariants,
idempotence, "nothing else changes".

Conventions:

- Time is whole seconds since the epoch. It is passed in where the source
  reads the clock.
- Dates are rendered by a calendar function given as a parameter.
- Rows are kept in creation order, so "the newest matching row" is the last one.
- Amounts are unbounded integers; confidences and scores are exact reals.
- The language model, the transcriber, the image files and the store's
  willingness to insert are parameters.

Where parts of the source disagree with one another, the model follows
each piece of code as written:

- The amount reader in `worker/llm/parser.py:57-62` has no rule for a
  trailing "k", so "150k" reads as 150, although the extraction prompt
  (`worker/llm/prompts.py:50`) asks the model for "150k" as 150000. Only
  `parse_amount_text` in `app/utils/helpers.py` expands "k" to a thousand.
- The OCR service retries below 5 stripped characters and reports
  success only above 5 (`worker/services/ocr_service.py:39-50`), so a
  text of exactly 5 is neither; the Tesseract engine keeps a pass only
  above 10 (`worker/ocr/tesseract.py:68`).
- The intent classifier cuts its reply from the first `{` to the last `}`.
  It does not use the parser's balanced scan (`worker/llm/parser.py:18-30`).

Three lemmas state these differences: `Helpers.KSuffixDisagreement`,
`OcrService.ThresholdGap` and `Analysis.AnalysisSpanAgainstClassifier`.

## Model

| member | source | states |
|---|---|---|
| LlmParser.FirstClose | worker/llm/parser.py:18-30 | the first index from which the brace depth returns to zero, and no earlier one |
| LlmParser.JsonSpan | worker/llm/parser.py:18-32 | the span from the first `{` to the first `}` that closes it; an error exactly when no `}` ever brings the depth back to zero; a `}` at depth zero is skipped |
| LlmParser.JsonSpanOf | worker/llm/parser.py:15-16 | a value that is not a string is rejected before the scan |
| LlmParser.ExtractJsonBlock | worker/llm/parser.py:13-32 | the brace-stack loop returns exactly the span `JsonSpan` describes |
| LlmParser.NormalizeIntent | worker/llm/parser.py:35-47 | empty or falsy raises "Intent kosong"; income/pemasukan/masuk and expense/pengeluaran/keluar in any case map to the two directions; any other string raises naming it; a non-string raises AttributeError |
| LlmParser.IntentCaseInsensitive | worker/llm/parser.py:40 | lower-casing the input first changes neither acceptance nor the direction |
| LlmParser.DropSeparators | worker/llm/parser.py:57 | text without spaces, commas or dots is left unchanged |
| LlmParser.ParseAmount | worker/llm/parser.py:50-70 | a string gives its slang value, never negative; an int or float is taken as is; a bool fails as not a decimal; null, arrays and objects fail as a bad format |
| LlmParser.SlangDigits | worker/llm/parser.py:57-65 | a plain digit string is its own value |
| LlmParser.SlangRb | worker/llm/parser.py:60 | digits followed by "rb" are worth a thousand times the digits ("25rb" is 25000) |
| LlmParser.SlangJt | worker/llm/parser.py:58 | digits followed by "jt" are worth a million times the digits ("5jt" is 5000000) |
| LlmParser.SlangK | worker/llm/parser.py:57-62 | there is no "k" rule: "150k" is 150 |
| LlmParser.SlangDotted | worker/llm/parser.py:57 | a thousands dot is dropped: "25.000" is 25000 |
| LlmParser.PyFloat | worker/llm/parser.py:92-95 | ints and floats convert, null and containers raise |
| LlmParser.CheckFields | worker/llm/parser.py:85-87 | passes exactly when every required field is present |
| LlmParser.ParseSingle | worker/llm/parser.py:73-105 | a parsed transaction comes only from an object holding all seven required keys |
| LlmParser.FirstMissingFieldReported | worker/llm/parser.py:75-87 | the first missing field, in the order intent, amount, currency, date, category, note, confidence, is the one named |
| LlmParser.ParsedFields | worker/llm/parser.py:89-105 | currency is upper-cased, category lower-cased, note stringified, the date passed through, intent, amount and confidence are the converted values |
| LlmParser.BadConfidenceRejected | worker/llm/parser.py:92-95 | a confidence that float() refuses is a ParserError naming it |
| LlmParser.InElement | worker/llm/parser.py:135-136 | a ParserError inside element k is re-raised numbered; other errors pass unchanged |
| LlmParser.ParseItems | worker/llm/parser.py:128-138 | succeeds exactly when every element parses; then one candidate per element, in order, with its index and the raw text |
| LlmParser.FailureSticks | worker/llm/parser.py:129-136 | a failure in a prefix of the batch is the failure of the whole batch |
| LlmParser.BatchFailsAtFirstBadElement | worker/llm/parser.py:129-136 | the first failing element decides the error of the whole parse, and no partial list is returned |
| LlmParser.Caught | worker/llm/parser.py:146-149 | TypeError and ValueError become ParserError; success passes unchanged |
| LlmParser.ParseResponse | worker/llm/parser.py:108-149 | a failure is a ParserError (or the AttributeError of a non-dict); a success is non-empty, each candidate carrying the raw text and its position |
| LlmParser.BatchShape | worker/llm/parser.py:119-138 | with a `transactions` array the output has one candidate per element, element k parsed and numbered k |
| LlmParser.BatchRejected | worker/llm/parser.py:122-126 | a `transactions` value that is not a list, or an empty list, is rejected |
| LlmParser.SingleShape | worker/llm/parser.py:140-144 | without the key the whole object is the single candidate with index 0 |
| LlmParser.ParseLlmResponse | worker/llm/parser.py:108-149 | the method computes `ParseResponse` |
| LlmParser.ParseBatch | worker/llm/parser.py:128-138 | the append loop computes `ParseItems` |
| SanityChecks.MappingTargetsValid | worker/services/sanity_checks.py:25-64 | every alias in the mapping points at a valid category |
| SanityChecks.CategoriesNormalised | worker/services/sanity_checks.py:9-22 | every valid category is non-empty and already lower case and unpadded |
| SanityChecks.NormalizeCategory | worker/services/sanity_checks.py:127-146 | the result is always a valid category; not corrected exactly when the lower-cased, stripped input is already valid; empty input and unknown input give ("lainnya", corrected); an alias gives its target |
| SanityChecks.Get | worker/services/sanity_checks.py:139-146 | the alias target, or "lainnya" for an unknown word |
| SanityChecks.NormalizeIdempotent | worker/services/sanity_checks.py:132-136 | normalising a normalised category returns it unchanged and uncorrected |
| SanityChecks.Warnings | worker/services/sanity_checks.py:82-93 | one warning per flag, in the order of the flags |
| SanityChecks.CorrectionWarning | worker/services/sanity_checks.py:102-105 | the correction note is never empty |
| SanityChecks.Clamp0 | worker/services/sanity_checks.py:109 | `max(0.0, x)`: never negative, never below x, and one of the two |
| SanityChecks.RunSanityChecks | worker/services/sanity_checks.py:67-124 | the method computes `Sanity` |
| SanityChecks.CheckAmountAndConfidence | worker/services/sanity_checks.py:78-94 | the flags raised by the amount and confidence rules, their warnings, and review exactly when a flag was raised |
| SanityChecks.FlagRules | worker/services/sanity_checks.py:79-94 | at most two flags; "Invalid Amount" iff amount ≤ 0 and then first; "Low Confidence" iff confidence < 0.4; "Moderate Confidence" iff 0.4 ≤ confidence < 0.6 |
| SanityChecks.ReviewIffFlagged | worker/services/sanity_checks.py:80-94 | review is requested exactly when some flag was raised |
| SanityChecks.CategoryDoesNotFlag | worker/services/sanity_checks.py:96-105 | the category changes neither the flags, nor review, nor the adjusted confidence |
| SanityChecks.AdjustedBounds | worker/services/sanity_checks.py:107-109 | the adjusted confidence is `max(0, confidence − 0.05·flags)`, never negative and never above a non-negative confidence |
| SanityChecks.CleanPasses | worker/services/sanity_checks.py:79-109 | amount > 0 and confidence ≥ 0.6 give no flags, no review and the confidence unchanged |
| SanityChecks.CategoryIsNormalised | worker/services/sanity_checks.py:97-100 | the stored category is the normaliser's answer for the given category (default "lainnya"), so a valid one |
| SanityChecks.WarningEmptyIff | worker/services/sanity_checks.py:115 | the joined warning is empty exactly when nothing was flagged and nothing corrected |
| Helpers.FormatCurrency | app/utils/helpers.py:17-21 | rupiah is "Rp " followed by the amount with a dot after every three digits counted from the right, a leading "-" when negative, and `str(amount)` once the dots are removed; any other currency is its code, a space, the amount grouped the same way with commas, and ".00" |
| Text.GroupPlacement | app/utils/helpers.py:19-21 | `{:,}` with the comma replaced by a separator that is neither a digit nor "-": the separators fall exactly every three digits from the right, the sign leads, and removing them gives `str(i)` |
| Text.GroupNatPlacement | app/utils/helpers.py:19-21 | the same placement for a non-negative amount, by induction on the thousands |
| Helpers.ParseAmountText | app/utils/helpers.py:63-84 | never fails and never negative; empty text is 0 |
| Helpers.UnitsK | app/utils/helpers.py:76 | after digits, "k" expands to three zeros |
| Helpers.UnitsRb | app/utils/helpers.py:74 | after digits, "rb" expands to three zeros |
| Helpers.UnitsJt | app/utils/helpers.py:72 | after digits, "jt" expands to six zeros |
| Helpers.Scaled | app/utils/helpers.py:68-82 | digits with a unit word read as the digits followed by the unit's zeros |
| Helpers.ThousandsK | app/utils/helpers.py:76 | "150k" is 150000: "k" counts as a thousand |
| Helpers.ThousandsRb | app/utils/helpers.py:74 | "25rb" is 25000 |
| Helpers.MillionsJt | app/utils/helpers.py:72 | "5jt" is 5000000 |
| Helpers.KSuffixDisagreement | app/utils/helpers.py:76 | for any non-zero digits, this parser reads "<d>k" as a thousand times what the transaction parser reads (worker/llm/parser.py:57-62 has no "k" rule) |
| Helpers.FormattedRupiahRoundTrip | app/utils/helpers.py:17-20 | reading back a formatted rupiah amount with `parse_amount_text` gives the amount for every non-negative amount, and its magnitude for a negative one (the reader keeps digits only) |
| Helpers.RupiahUnits | app/utils/helpers.py:72-76 | no unit word occurs in "rp" followed by digits and minus signs |
| Helpers.DropControls | app/utils/helpers.py:49 | deleting `[\x00-\x1F\x7F]` leaves no control character |
| Helpers.CollapseSpace | app/utils/helpers.py:50 | every whitespace run becomes one space: no other whitespace and never two in a row |
| Helpers.SanitizeText | app/utils/helpers.py:45-51 | the result has no control characters, only single spaces, and no whitespace at either end |
| Helpers.StripKeepsSpaced | app/utils/helpers.py:51 | stripping keeps the single-space property |
| Helpers.CollapseFixed | app/utils/helpers.py:50 | text with only single spaces is not changed by the collapse |
| Helpers.DropControlsFixed | app/utils/helpers.py:49 | text without control characters is not changed by their deletion |
| Helpers.SanitizeIdempotent | app/utils/helpers.py:45-51 | sanitising twice is sanitising once |
| Helpers.PrefixPy | app/utils/helpers.py:60 | Python's `text[:k]`, including a negative k counted from the end |
| Helpers.TruncateText | app/utils/helpers.py:54-60 | text within the limit is unchanged; longer text becomes its first max−3 characters and "...", exactly max long when max ≥ 3 |
| Helpers.SmallLimitOverflows | app/utils/helpers.py:60 | for every limit below 3 and every text longer than the limit, the result is still longer than the limit |
| Tesseract.CountedConfs | worker/ocr/tesseract.py:56-59 | the entries that are digit strings above zero, all positive; empty exactly when no entry counts |
| Tesseract.Sum | worker/ocr/tesseract.py:60 | a sum of positive values is positive exactly when there is one |
| Tesseract.MeanConfidence | worker/ocr/tesseract.py:56-60 | the mean is never negative, and positive exactly when some entry counts |
| Tesseract.MeanAtMost | worker/ocr/tesseract.py:56-60 | when every counted entry is at most m, so is the mean |
| Tesseract.AttemptOf | worker/ocr/tesseract.py:62-76 | one log entry per mode: an error entry exactly when the mode failed, otherwise the stripped length and the confidence |
| Tesseract.AttemptsSnoc | worker/ocr/tesseract.py:62-76 | trying one more mode appends exactly its entry to the log |
| Tesseract.RunSnoc | worker/ocr/tesseract.py:67-70 | trying the next mode updates the best attempt by exactly one iteration's rule |
| Tesseract.Run | worker/ocr/tesseract.py:38-71 | the best confidence is never negative; a mode is recorded exactly when text is; with none the confidence is 0 |
| Tesseract.StepRaises | worker/ocr/tesseract.py:68-71 | an iteration never lowers the best confidence and reaches any eligible attempt's |
| Tesseract.RunDominates | worker/ocr/tesseract.py:68-71 | no attempt longer than ten characters scored more than the recorded best |
| Tesseract.RunWinner | worker/ocr/tesseract.py:38-71 | a recorded best is an eligible attempt with positive confidence, and every eligible attempt before it scored strictly less (ties keep the earlier mode) |
| Tesseract.ExtractText | worker/ocr/tesseract.py:27-93 | without the engine: empty text and the "not available" metadata; otherwise the loop's text and metadata are those of `Run` and the attempts log over [6, 4, 3, 11] |
| Tesseract.TryModes | worker/ocr/tesseract.py:38-76 | the loop over the modes ends with the best attempt `Run` defines and the full attempts log |
| Tesseract.AttemptsInOrder | worker/ocr/tesseract.py:25-76 | exactly four entries, one per mode in the order 6, 4, 3, 11, failed modes included |
| Tesseract.BestTextShape | worker/ocr/tesseract.py:68-86 | the text is empty or the stripped text of an attempt longer than ten characters; the mode is recorded exactly when there is text |
| OcrService.Receipt | worker/services/ocr_service.py:13-61 | an image that does not load gives failure, empty text and the error metadata; otherwise the text of the final pass, and success exactly when it has more than 5 stripped characters |
| OcrService.ExtractOnce | worker/services/ocr_service.py:28-37 | one engine call on the image preprocessed normally or aggressively |
| OcrService.ProcessReceiptImage | worker/services/ocr_service.py:13-61 | the method computes `Receipt`, making the aggressive pass only when the first text is empty or under 5 stripped characters, and at most once |
| OcrService.ThresholdGap | worker/services/ocr_service.py:39-50 | a text of exactly five stripped characters is neither retried nor reported as success |
| OcrService.EngineAvoidsGap | worker/services/ocr_service.py:39-50 | with the Tesseract engine a pass reads nothing or more than ten characters, so the retry happens exactly when the first pass read nothing and success means some text was read |
| OcrService.PassShape | worker/ocr/tesseract.py:68-71 | a pass returns empty text or more than ten stripped characters |
| TransactionService.TruncateToInt | worker/services/transaction_service.py:30 | Python's `int()` of a float: truncation toward zero, within one of the value and on its side of zero |
| TransactionService.ResolveDate | worker/services/transaction_service.py:38-52 | "today"/"hari ini" is now, "yesterday"/"kemarin" is one day earlier, any other string is read as ISO 8601 with "Z" as +00:00; a missing, empty, non-string or unreadable date is now |
| TransactionService.RelativeDatesIgnoreCase | worker/services/transaction_service.py:42-44 | the relative date words are recognised in any letter case |
| TransactionService.Linked | worker/services/transaction_service.py:54-58 | an id is linked exactly when it is truthy |
| TransactionService.FlagNames | worker/services/transaction_service.py:63-64 | the stored flags are the flag names, one per flag, in order |
| TransactionService.RecordFollowsSanity | worker/services/transaction_service.py:27-68 | with a sanity result the stored category and review flag are its verdict and it is kept in `extra`; without one the parsed category is kept and review is false; the original confidence is always kept |
| TransactionService.CheckedRecordValid | worker/services/transaction_service.py:32-35 | a record built from the sanity checks of the same transaction has a valid category, review exactly when flagged, and at most two flags |
| TransactionService.Store.constructor | worker/services/transaction_service.py:17-145 | the three tables start empty |
| TransactionService.Store.SaveTransaction | worker/services/transaction_service.py:17-91 | an accepted row is appended and summarised with the next id, intent, integer amount, category and review flag; a refused insert changes nothing and is reported; the other tables are untouched |
| TransactionService.Store.SaveOcrResult | worker/services/transaction_service.py:94-114 | an accepted OCR row is appended and its id returned; a refused one changes nothing |
| TransactionService.Store.SaveLlmResponse | worker/services/transaction_service.py:117-145 | the audit row is appended with the default model name and the metadata only when truthy; a refused one changes nothing |
| IntentClassifier.IntentOf | worker/llm/intent_classifier.py:18-147 | `UserIntent(s)`: a member is found only by its own value |
| IntentClassifier.IntentValueRoundTrip | worker/llm/intent_classifier.py:18-33 | every member is found by its value, so lookup inverts the value |
| IntentClassifier.OuterSpan | worker/llm/intent_classifier.py:135-141 | the slice from the first `{` to the last `}`; missing either brace is an error; a `}` before the first `{` gives the empty slice |
| IntentClassifier.ParseClassification | worker/llm/intent_classifier.py:133-168 | a reply without both braces gives UNKNOWN at confidence 0.0 |
| IntentClassifier.ClassificationPrompt | worker/llm/intent_classifier.py:73-131 | the prompt ends with the user's message quoted on its own line |
| IntentClassifier.Classify | worker/llm/intent_classifier.py:40-71 | a failed model call falls back to TRANSACTION at 0.3; otherwise the reply is parsed |
| IntentClassifier.ReadIntent | worker/llm/intent_classifier.py:144-158 | a named intent is matched in any letter case, anything else is UNKNOWN, and a missing confidence is 0.5 |
| IntentClassifier.MissingIntentIsUnknown | worker/llm/intent_classifier.py:144-158 | a reply without "intent" is UNKNOWN, not a failure, with period, direction and reasoning read from the reply |
| IntentClassifier.NonStringIntentFails | worker/llm/intent_classifier.py:144-168 | an "intent" that is not a string makes the whole reply a parse failure |
| IntentClassifier.ClassificationCaseInsensitive | worker/llm/intent_classifier.py:144 | letter case of the intent does not matter |
| IntentClassifier.OuterSpanDiffersFromBalanced | worker/llm/intent_classifier.py:135-141 | on "{}{}" the classifier cuts "{}{}" while the transaction parser (worker/llm/parser.py:18-30) cuts "{}" |
| Prompts.BuildPrompt | worker/llm/prompts.py:8-15 | "ocr" selects the receipt template, "audio" the voice one, anything else the text one |
| Prompts.FramedInjective | worker/llm/prompts.py:113-114 | the same frame around two inputs gives equal prompts only for equal inputs |
| Prompts.BuildersFrameInput | worker/llm/prompts.py:113-208 | each builder puts its input verbatim between a head and a tail that do not depend on it |
| Prompts.BuildPromptInjective | worker/llm/prompts.py:8-15 | different inputs give different prompts |
| Prompts.BalanceShownGrouped | worker/llm/prompts.py:245-254 | the balance appears after "Rp " comma-grouped, and reads back as the balance |
| Prompts.SimulationShownGrouped | worker/llm/prompts.py:348-358 | the balance and the daily average both appear comma-grouped and read back |
| Worker.NoticeFor | worker/worker_main.py:91-312 | a ParserError gets the handler's "could not understand" message; every other exception gets an outage or generic message |
| Worker.Conclude | worker/worker_main.py:84-116 | success exactly when the pipeline finished, carrying its transactions and source; otherwise the source, the notice for the exception and its detail |
| Worker.AuditMeta | worker/worker_main.py:60-179 | without an OCR confidence, the usage dict as returned (none when absent); for a receipt, every usage key with its own value, "ocr_confidence" holding the confidence, and no other key |
| Worker.Worker.constructor | worker/worker_main.py:32-346 | the worker starts with no prompts sent and empty tables |
| Worker.Worker.SaveOne | worker/worker_main.py:69-80 | one loop iteration: the sanity-checked row is appended when the store accepts it, and a refusal changes nothing |
| Worker.Worker.SaveAll | worker/worker_main.py:67-80 | the save loop's table and result are those of `SaveFrom` over the planned rows |
| Worker.Worker.ParseReply | worker/worker_main.py:64 | the reply is parsed by `parse_llm_response` |
| Worker.Worker.RunInterpret | worker/worker_main.py:46-80 | prompt, model call, audit record, parse and save, as `Interpret` describes |
| Worker.Worker.HandleReply | worker/worker_main.py:53-80 | audit record, parse and save after the model replied, as `Handle` describes |
| Worker.Worker.ProcessText | worker/worker_main.py:32-116 | `process_text_message` as `TextSpec` describes |
| Worker.Worker.ProcessImage | worker/worker_main.py:119-227 | `process_image_message` as `ImageSpec` describes |
| Worker.Worker.ProcessReceipt | worker/worker_main.py:152-227 | the image pipeline from the OCR text on, as `ReceiptSpec` describes |
| Worker.Worker.StoreOcrText | worker/worker_main.py:160-162 | the OCR text is stored only for a linked receipt and only when the store accepts it; otherwise the log is unchanged and a refusal is reported |
| Worker.Worker.ProcessAudio | worker/worker_main.py:230-312 | `process_audio_message` as `AudioSpec` describes |
| Worker.Worker.ProcessBackground | worker/worker_main.py:315-346 | `process_message_background` as `BackgroundSpec` describes |
| Worker.SavedRecordChecked | worker/worker_main.py:69-78 | a row the loop saves has a valid category, review exactly when flagged, the user's id and the audit row's id |
| Worker.RecordsChecked | worker/worker_main.py:67-80 | every row the loop would insert went through the sanity checks |
| Worker.SaveFromShape | worker/worker_main.py:67-80 | the loop appends a prefix of its rows in order; it saves them all with consecutive ids, or stops at the first row the store refused |
| Worker.SaveFromComplete | worker/worker_main.py:67-80 | when the store accepts every row, every row is saved |
| Worker.InterpretLog | worker/worker_main.py:46-64 | one run sends exactly one prompt, writes no OCR row and at most one audit row |
| Worker.HandleLog | worker/worker_main.py:53-80 | after the model call no prompt and no OCR row is added, and at most one audit row |
| Worker.InterpretThroughSave | worker/worker_main.py:64-80 | the transaction table after a run is what the save loop makes of the planned rows |
| Worker.HandleThroughSave | worker/worker_main.py:64-80 | likewise from the reply on |
| Worker.InterpretAppends | worker/worker_main.py:66-89 | a run appends a prefix of the planned rows and leaves earlier rows alone; a success appended all of them, one per reported transaction |
| Worker.SavedPrefix | worker/worker_main.py:66-89 | the same facts for any table and result known to come from the save loop |
| Worker.InterpretSavesChecked | worker/worker_main.py:69-78 | the rows a run appends went through the sanity checks and point at the audit row it wrote |
| Worker.ParserErrorAudited | worker/worker_main.py:53-98 | a reply that was recorded but cannot be parsed adds exactly one audit row holding the raw reply, and no transaction |
| Worker.ParsedReplySaved | worker/worker_main.py:66-89 | with a working model and store, a parsable reply saves one row per parsed transaction |
| Worker.UnreadableReceiptSkipsModel | worker/worker_main.py:152-158 | a receipt whose final OCR text is under 5 stripped characters fails with its confidence, without a model call or any row |
| Worker.UnclearVoiceSkipsModel | worker/worker_main.py:247-252 | an empty transcript or one under 3 stripped characters fails without a model call or any row |
| Worker.TextCallsModelOnce | worker/worker_main.py:47-50 | a text message is sent to the model once, in the text template |
| Worker.ImageCallsModelAtMostOnce | worker/worker_main.py:139-166 | a photo reaches the model at most once, with its final OCR text in the receipt template |
| Worker.ReceiptCallsModelAtMostOnce | worker/worker_main.py:152-166 | from the OCR text on, at most one model call, in the receipt template |
| Worker.AudioCallsModelAtMostOnce | worker/worker_main.py:245-258 | a voice note reaches the model at most once, with its transcription in the audio template |
| Worker.MissingInputRejected | worker/worker_main.py:336-346 | a message without the input its type needs, or of an unknown type, changes nothing and reports "Unknown message type" |
| Worker.OutageNotices | worker/worker_main.py:100-312 | only text messages tell a model outage apart from an internal error |
| Worker.OcrRowOnlyWithReceipt | worker/worker_main.py:160-162 | an OCR row is written only for a truthy receipt id |
| ProcessMessage.Coerce | worker/jobs/process_message.py:27-35 | a known input type is kept, anything else becomes TEXT |
| ProcessMessage.ReceiptId | worker/jobs/process_message.py:56 | the receipt id is present exactly when the payload's value is truthy |
| ProcessMessage.ProcessMessageJob.constructor | worker/jobs/process_message.py:18-37 | the job keeps the user and the payload and coerces the input type |
| ProcessMessage.ProcessMessageJob.Execute | worker/jobs/process_message.py:39-80 | `execute` dispatches by input type as `ExecuteSpec` describes |
| ProcessMessage.MissingInputSkipped | worker/jobs/process_message.py:48-67 | a payload without its text or file path gives None and changes nothing |
| ProcessMessage.JobFailedOnlyForScalarText | worker/jobs/process_message.py:49-80 | only a text job whose text is a number or a boolean ends in the exception dict, labelled "text", with nothing changed |
| ProcessMessage.ExecuteAgreesWithBackground | worker/jobs/process_message.py:48-67 | on a string payload a job that finds its input does exactly what `process_message_background` (worker/worker_main.py:315-346) does |
| ProcessMessage.ReceiptIdPassedThrough | worker/jobs/process_message.py:56-61 | a non-zero receipt id reaches the image handler unchanged |
| Schemas.IntentTypeOf | app/models/enums.py:4-6 | only "income" and "expense" are members of the intent type, each found by its value |
| Schemas.IntentTypeRoundTrip | app/models/enums.py:4-6 | every direction is found by its own value |
| Schemas.ValidateDate | app/models/schemas.py:19-30 | the validator returns every value unchanged, whether or not it reads as a date |
| Schemas.LlmOutputErrors | app/models/schemas.py:10-17 | the intent, amount and confidence fields are rejected exactly when outside the intent type, not positive, or outside [0, 1] |
| Schemas.ValidateLlmOutput | app/models/schemas.py:10-30 | valid exactly when intent, amount and confidence are; then the values are kept, currency defaults to "IDR" and the date passes unchanged; otherwise the rejected fields are listed |
| Schemas.LlmOutputDefaults | app/models/schemas.py:13-14 | absent currency and date read as "IDR" and None |
| Schemas.ValidateTransaction | app/models/schemas.py:33-44 | valid exactly when the intent is a member and the amount positive; currency defaults to "IDR" and review to false, the other fields kept |
| Schemas.StoredRowsAgainstSchema | app/models/schemas.py:33-44 | a row `save_transaction` (worker/services/transaction_service.py:27-36) stores satisfies the creation schema exactly when its amount is positive |
| Schemas.FractionalAmountStoredAsZero | app/models/schemas.py:36 | every parsed amount strictly between -1 and 1 is stored as 0 (worker/services/transaction_service.py:30), which the creation schema would refuse |
| Plans.FeatureOf | app/config.py:51-57 | a switch is found only by its own key |
| Plans.FeatureKeyRoundTrip | app/config.py:51-57 | every switch is found by its key |
| Plans.PlanConfig | app/config.py:41-101 | exactly the three plans free, pro and elite are configured |
| Plans.PlanOrFree | app/config.py:41-58 | an unknown plan reads as the free plan |
| Plans.WeeklyAllowance | app/config.py:64-85 | a weekly allowance is positive exactly for pro and elite |
| Plans.FreeHasNoFeatures | app/config.py:51-57 | the free plan has every switch off |
| Plans.FeaturesMonotone | app/config.py:51-99 | each plan has every switch the cheaper one has, and elite has more than pro |
| Plans.PricesAndDurations | app/config.py:44-83 | prices 0 < 19000 < 49000, and both paid plans last 30 days |
| Plans.WeeklyAllowances | app/config.py:64-85 | pro gets 50 credits a week, elite 150, free and unknown plans none |
| Subscription.WeekStart | app/services/subscription_service.py:105-107 | Monday 00:00 of the week holding `now`: at most `now` and less than seven days before it, on a day boundary that is a Monday |
| Subscription.Deactivate | app/services/subscription_service.py:47-50 | the same rows, with exactly this user's rows made inactive and every other field kept |
| Subscription.LastCredit | app/services/subscription_service.py:78-81 | the newest row of the user (from the week start when one is given), or none when no row matches |
| Subscription.View | app/services/subscription_service.py:94-100 | credits are reported exactly when some remain; the remainder is never negative and is total minus used whenever credits are reported |
| Subscription.LatestActive | app/services/subscription_service.py:281-287 | an active row of the user whose end date no other active row of theirs exceeds, or none when the user has no active row |
| Subscription.DaysLeft | app/services/subscription_service.py:290-293 | whole days until the end date, floored, and zero once it has passed |
| Subscription.PlanName | app/services/subscription_service.py:276 | an unconfigured plan is named "Unknown" |
| Subscription.FeatureAccess | app/services/subscription_service.py:308-322 | for each of the seven switches, true exactly when the plan (an unknown plan read as free) turns it on; a key the config dict does not hold is false |
| Subscription.ConfigKeysAnswer | app/services/subscription_service.py:321-322 | the other config keys answer with their own truthiness: name and features on every plan, price, duration and weekly allowance only on pro and elite, the monthly allowance only on free |
| Subscription.MonthlyCreditsNotMonotone | app/services/subscription_service.py:321-322 | the lookup of "ai_credits_monthly" is truthy on free and falsy on pro |
| Subscription.PlanDowngrade | app/services/subscription_service.py:18-57 | a paid plan is reported only with a current subscription; otherwise the user is set to free and all their subscriptions deactivated; nobody else's rows change and credits never do |
| Subscription.PlanIdempotent | app/services/subscription_service.py:18-57 | a second plan lookup changes nothing more and reports the same plan |
| Subscription.CreditsReport | app/services/subscription_service.py:60-143 | credits are reported exactly when the remainder is positive, never negative; at most one row is added, a fresh unused row of this user, and then credits are reported |
| Subscription.CreditsIdempotent | app/services/subscription_service.py:60-143 | a second credit check finds the row the first read or opened, and changes nothing |
| Subscription.FirstFreeCheck | app/services/subscription_service.py:76-100 | a free user's first check opens a row of five unused credits and reports 5 of 5 |
| Subscription.CheckedRow | app/services/subscription_service.py:146-187 | when the check reports credits, the row a charge finds is the very row the check reported on |
| Subscription.ConsumeCharges | app/services/subscription_service.py:146-193 | a charge succeeds exactly when the check reports credits; it then adds `amount` to the used count of the reported row and changes nothing else; on failure only the check's effects remain |
| Subscription.ConsumeMayOverdraw | app/services/subscription_service.py:146-187 | whenever the check reports credits, any charge larger than the remainder succeeds and leaves the user's charged row with more used than total |
| Subscription.ActivationLeavesOneActive | app/services/subscription_service.py:196-265 | after activation the new subscription is the user's only active one, their plan is the new plan, and a weekly credit row is added exactly when the plan has a weekly allowance |
| Subscription.ActivatedPlanHolds | app/services/subscription_service.py:196-265 | a paid activation keeps the plan exactly until its end date and reads as free after it |
| Subscription.ActivatedCreditsFull | app/services/subscription_service.py:240-250 | within the activation's week a paid user's check reports the full weekly allowance |
| Subscription.StatusShowsSubscription | app/services/subscription_service.py:268-305 | a paid plan in the status always comes with its active, unexpired subscription and non-negative days left; other plans show none |
| Subscription.AccessMonotone | app/services/subscription_service.py:308-322 | access to each switch only grows from free to pro to elite; free and unknown plans get no switch |
| Subscription.AccountDb.GetUserPlan | app/services/subscription_service.py:18-57 | the new state and plan are those of the plan lookup on the old state |
| Subscription.AccountDb.CheckAiCredits | app/services/subscription_service.py:60-143 | the new state and report are those of the credit check on the old state |
| Subscription.AccountDb.ConsumeAiCredit | app/services/subscription_service.py:146-193 | the new state and verdict are those of the charge on the old state |
| Subscription.AccountDb.ActivateSubscription | app/services/subscription_service.py:196-265 | the new state and reply are those of the activation on the old state |
| Subscription.AccountDb.GetSubscriptionStatus | app/services/subscription_service.py:268-305 | the new state and status are those of the status query on the old state |
| Payment.TransactionRef | app/services/payment_service.py:40 | the provider reference starts with "TRK-" |
| Payment.RefInjective | app/services/payment_service.py:40 | two references built from eight-character nonces are equal only when their creation times and nonces are equal |
| Payment.OrderShape | app/services/payment_service.py:22-71 | an order is refused exactly for plans other than pro and elite, and then nothing is stored; otherwise one pending payment of this user and plan is appended, charging the plan's positive price and expiring thirty minutes later, and its id and reference are returned |
| Payment.ReferenceOf | app/services/payment_service.py:87 | a truthy "id" is the reference; when "id" is missing or falsy the "transaction_id" value (or null) is the reference |
| Payment.FindByRef | app/services/payment_service.py:95-97 | the first payment carrying this reference, or none when no payment carries it |
| Payment.WebhookEffects | app/services/payment_service.py:86-153 | a missing or unknown reference, an already paid payment or a failure changes nothing; otherwise only that payment's status (and paid time) changes, it was not paid before, and accounts change only on confirmation |
| Payment.PaidWebhookActivates | app/services/payment_service.py:107-137 | a paid, success or completed status marks the payment paid now and activates a thirty-day subscription of its user and plan, returned in the answer |
| Payment.WebhookIdempotent | app/services/payment_service.py:103-105 | a second delivery of the same paid webhook changes nothing and answers "already processed" |
| Payment.OtherStatusOverwrites | app/services/payment_service.py:139-149 | any other status is stored lower-cased, even over an expired order |
| Payment.CheckExpires | app/services/payment_service.py:156-188 | the answer is "expired" exactly when the payment exists, is pending and past its deadline, and then only its status becomes "expired"; otherwise nothing changes and the stored status is reported |
| Payment.CheckSettles | app/services/payment_service.py:164-179 | a second check changes nothing and never reports "expired" again |
| Payment.VerifySignature | app/services/payment_service.py:195-207 | with no secret configured every payload is accepted; otherwise exactly the payload's HMAC digest is |
| Payment.PaymentService.CreatePaymentOrder | app/services/payment_service.py:22-71 | the stored payments and answer are those of the order function on the old payments |
| Payment.PaymentService.HandleWebhook | app/services/payment_service.py:74-153 | the new payments and accounts and the answer are those of the webhook function on the old state |
| Payment.PaymentService.CheckPaymentStatus | app/services/payment_service.py:156-192 | the stored payments and answer are those of the status check on the old payments |
| Voucher.AlphabetAt | app/services/voucher_service.py:14 | every drawn character is an upper-case ASCII letter or a digit |
| Voucher.GenerateCode | app/services/voucher_service.py:10-16 | a code is "FN-" followed by `length` characters from A–Z0–9 |
| Voucher.CodesDistinct | app/services/voucher_service.py:10-16 | two draws of the same length that give the same code are the same draw |
| Voucher.CodesCover | app/services/voucher_service.py:10-16 | every "FN-" code of `length` characters from A–Z0–9 is the code of some draw |
| Voucher.NormalizeCode | app/services/voucher_service.py:45-49 | the code is stripped and upper-cased, and "FN-" is put in front exactly when the result holds no "-" (a "FN-" prefix always holds one) |
| Voucher.CodeChars | app/services/voucher_service.py:10-16 | a generated code has no space and no lower-case letter, its only "-" is the one after "FN" |
| Voucher.UpperRestoresCode | app/services/voucher_service.py:10-16 | upper-casing a generated code, or its lower-cased form, gives the code back |
| Voucher.NormalizeFindsCode | app/services/voucher_service.py:45-53 | a generated code typed as is or in lower case normalises to the stored code |
| Voucher.AlphabetText | app/services/voucher_service.py:14-15 | a run of alphabet characters is unchanged by stripping and upper-casing and holds no "-" |
| Voucher.NormalizeFindsBody | app/services/voucher_service.py:47-49 | typing only the twelve characters after "FN-" finds the code |
| Voucher.FindCode | app/services/voucher_service.py:51-53 | the voucher with exactly this code, or none when no voucher has it |
| Voucher.CreateKeepsCodesUnique | app/services/voucher_service.py:18-40 | a new voucher is stored unused with its plan lower-cased and codes stay unique; a code already taken is refused and nothing is stored |
| Voucher.GrantedPlan | app/services/voucher_service.py:65-67 | the granted plan is pro or elite: the voucher's own plan, lower-cased, when it is one of them, pro otherwise |
| Voucher.RedeemEffects | app/services/voucher_service.py:42-96 | an unknown or used code changes nothing; a fresh one activates the granted plan for the voucher's duration and marks that voucher, and only it, used by this user now |
| Voucher.RedeemOnce | app/services/voucher_service.py:58-59 | once a code is redeemed, any later redeem of it by anyone is refused as used at the first redeem's time, and changes nothing |
| Voucher.FindCodeUnchanged | app/services/voucher_service.py:76-83 | marking vouchers used does not change which voucher a code finds |
| Voucher.VoucherService.CreateVoucher | app/services/voucher_service.py:18-40 | the stored vouchers and answer are those of creating a voucher with the drawn twelve-character code |
| Voucher.VoucherService.RedeemVoucher | app/services/voucher_service.py:42-96 | the new vouchers and accounts and the answer are those of the redeem function on the old state |
| Voucher.VoucherService.RedeemFresh | app/services/voucher_service.py:61-92 | for an unused voucher: the granted plan is activated for the voucher's duration, and that voucher alone is marked used by this user at this time |
| History.PeriodRange | app/services/transaction_services.py:17-34 | a window exactly for today, week, month and year, each ending now: today starts at midnight, the others 7, 30 and 365 days back; any other period is an error |
| History.Filter | worker/analysis_service.py:35-41 | a row is returned exactly when it is in the table and the query accepts it, and the result is no longer than the table |
| History.FilterAppend | worker/analysis_service.py:35-41 | filtering a table is filtering its two halves and joining the results, so table order and repeated rows are kept |
| History.FilterKeeps | worker/analysis_service.py:35-41 | appending a row the query accepts appends exactly that row to its result |
| History.FilterSkips | worker/analysis_service.py:35-41 | appending a row the query rejects leaves its result unchanged |
| History.Query | app/services/transaction_services.py:37-57 | every returned row belongs to the user, lies in the window and matches the direction when it is income or expense, and every such row of the table is returned; being a History.Filter, it keeps table order and repeats |
| History.OtherDirectionIgnored | app/services/transaction_services.py:48-51 | a direction other than income or expense selects the same rows as no direction |
| History.SumsPartition | app/services/transaction_services.py:65-66 | income, expense and the remaining intents partition the total amount |
| History.RecentCount | app/services/transaction_services.py:80 | at most five transactions are listed, and fewer only when there are fewer |
| History.RecentLines | app/services/transaction_services.py:80-86 | one line per listed transaction, for the last ones in order |
| History.AppendRecent | app/services/transaction_services.py:80-86 | the loop appends one line per transaction of the last five, oldest first, after the lines already there |
| History.BuildHistorySummary | app/services/transaction_services.py:60-88 | the text the summary function gives: the "no transactions" line for none, otherwise the totals block and the recent lines joined by newlines |
| History.HistoryListsRecent | app/services/transaction_services.py:69-88 | the summary is eight heading lines followed by exactly the last min(5, n) transactions, oldest first |
| History.IncomeMarked | app/services/transaction_services.py:83-86 | a listed transaction starts "  +" for income and "  -" for anything else, so it is marked "+" exactly when it is income |
| History.HistoryTotals | app/services/transaction_services.py:65-75 | a transaction that is neither income nor expense changes neither total nor the totals lines |
| Analysis.NonIncomeSplit | worker/analysis_service.py:56-59 | the summary's expense total is the expenses proper plus every amount of another intent |
| Analysis.Kind | worker/analysis_service.py:53 | a row is called "Pemasukan" exactly when it is income |
| Analysis.NoteText | worker/analysis_service.py:54 | a missing note prints as nothing |
| Analysis.SummaryLines | worker/analysis_service.py:50-54 | one detail line per row of the window, in order |
| Analysis.SummaryLinesSnoc | worker/analysis_service.py:50-54 | the lines of a longer list extend those of its prefix by the last row's line |
| Analysis.Tally | worker/analysis_service.py:46-59 | the loop yields exactly the detail lines, the income total, and the total of everything that is not income |
| Analysis.TransactionSummary | worker/analysis_service.py:29-69 | the summary text of the user's rows created in the last `days` days: the empty-window sentence, or the totals and the detail lines |
| Analysis.ExpenseTotalsDisagree | worker/analysis_service.py:56-59 | a row that is neither income nor expense counts as spending here and in neither total of the /history summary |
| Analysis.AnalysisSpan | worker/analysis_service.py:88-92 | the slice from the first `{` to the last `}` when the first comes before the last, the whole reply otherwise |
| Analysis.AnalysisJson | worker/analysis_service.py:86-95 | the decoded slice, or, when it does not decode, an error object carrying the raw reply |
| Analysis.AnalysisSpanAgainstClassifier | worker/analysis_service.py:88-92 | with both braces in order the slice equals the intent classifier's; on "}{" and "{" the two differ |
| Analysis.CallAnalysis | worker/analysis_service.py:72-95 | a model failure is passed on; a reply is decoded, never raising |
| Analysis.InsightDays | worker/analysis_service.py:105-242 | the daily insight reads one day, the weekly analysis seven, the saving, health and monthly reports thirty |
| Analysis.InsightSpec | worker/analysis_service.py:102-114 | a report fails exactly when the model fails on the prompt of the report's window summary; otherwise it carries the decoded reply |
| Analysis.BalanceUsed | worker/analysis_service.py:122-129 | a given balance other than 0 is used as is; None or 0 is replaced by income minus expense over all the user's rows |
| Analysis.BalanceSpec | worker/analysis_service.py:117-151 | a balance that is not positive gets the canned zero-day answer; a positive one is echoed in the answer, and only then can the model fail |
| Analysis.NoBalanceNoModel | worker/analysis_service.py:131-141 | without a positive balance the answer does not depend on the model and predicts zero days |
| Analysis.PositiveBalancePrompted | worker/analysis_service.py:143-147 | a positive balance is put in the prompt and returned beside the decoded reply |
| Analysis.DailyAverage | worker/analysis_service.py:193-201 | the thirty-day expense total divided by 30 and floored, or 0 with no expense rows |
| Analysis.ClampedBalance | worker/analysis_service.py:207-209 | the balance floored at zero |
| Analysis.SimulationSpec | worker/analysis_service.py:184-221 | the scenario, clamped balance, daily average and thirty-day summary make the prompt; the report fails exactly when the model does and otherwise carries the decoded reply |
| Analysis.ExpensesOnlyAverage | worker/analysis_service.py:193-201 | a row of another user or intent, or older than thirty days, does not move the daily average |
| Analysis.SimulationBalanceClamped | worker/analysis_service.py:207-209 | the simulation balance is the balance when positive and zero otherwise |
| Telegram.ImageDocument | app/webhook/telegram.py:355-360 | a document's image check is defined exactly when it is an object whose mime type is a string, and then it holds exactly when that mime type starts with "image/" |
| Telegram.RouteUpdate | app/webhook/telegram.py:330-374 | a text starting with "/" is a command whatever else the message carries; otherwise a photo, then a voice note or audio file, then non-empty text, then an image document, each exactly under its condition; command and text routes carry the text |
| Telegram.CommandOf | app/webhook/telegram.py:386-428 | /start and /help both show help, and exactly the words outside the thirteen known commands are unknown |
| Telegram.ParseCommand | app/webhook/telegram.py:383-385 | the command is the first whitespace-separated word, lower-cased, with the bot mention removed, and the arguments are the words after it; there is none exactly when the text has no word |
| Telegram.SingleWord | app/webhook/telegram.py:383 | a word without whitespace splits into itself alone |
| Telegram.MentionAndCaseIgnored | app/webhook/telegram.py:383-386 | "/Help@finot_bot" parses to "/help" with no arguments and reaches the help handler |
| Telegram.PeriodArg | app/webhook/telegram.py:473-476 | the period is always a known one: the first argument lower-cased when it names one, the default otherwise |
| Telegram.HistoryPeriodAccepted | app/webhook/telegram.py:471-501 | whatever is typed, /history and /export hand the history query a period it accepts, week and month by default |
| Telegram.AnalysisMonthly | app/webhook/telegram.py:749-753 | /analysis is monthly exactly when its first argument is "monthly" in any case |
| Telegram.BuyPlan | app/webhook/telegram.py:433-441 | /buy takes a plan exactly when its first argument is pro or elite in any case, lower-cased |
| Telegram.BuyPlanOrderable | app/webhook/telegram.py:431-468 | a plan /buy accepts is one the payment service takes an order for |
| Telegram.CheckCreditsAndConsume | app/webhook/telegram.py:240-286 | the new account tables and the answer are those of the gate function: plan lookup, feature check, credit check, then a charge of one |
| Telegram.LockedFeatureChargesNothing | app/webhook/telegram.py:245-255 | the gate answers premium-only exactly when the plan lacks the feature asked for, and then the credit table is untouched |
| Telegram.GateChargesOne | app/webhook/telegram.py:258-286 | past the feature check the user is let through exactly when the credit check reports credits, one credit is charged to the row it reported on and one fewer is reported left; a refusal charges nothing and is never a failed charge |
| Telegram.HandlePhotoGate | app/webhook/telegram.py:927-946 | the new account tables and the answer are those of the photo gate: scanning must be in the plan before the credit gate runs |
| Telegram.FreePhotoCostsNothing | app/webhook/telegram.py:931-940 | a scan is refused exactly for users not on pro or elite, before any credit is read or spent |
| Telegram.PredictRejectsBeforeCharging | app/webhook/telegram.py:563-582 | a missing or unreadable balance is answered before the gate and changes nothing; the model runs only when the gate allowed |
| Telegram.PeriodFromIntent | app/webhook/telegram.py:843-849 | a classified period that is falsy reads as the default; a string is narrowed to a known period; any other value makes the handler fail |
| Telegram.RouteIntent | app/webhook/telegram.py:827-904 | a message is processed as a transaction exactly when its intent is transaction or unknown; an analysis intent is monthly exactly when its period is "month"; a history period is always known |
| Telegram.ConfidenceIgnored | app/webhook/telegram.py:895-900 | the confidence never changes the route, and a failed or unreadable classification is processed as a transaction |
| Telegram.GatedFeature | app/webhook/telegram.py:529-789 | exactly /insight, /saving and /analysis ask for a plan feature |
| Telegram.GatedReportsNeedPlan | app/webhook/telegram.py:529-789 | a free user is refused every gated report; the monthly analysis is open exactly to elite, the other gated reports exactly to pro and elite |
| Telegram.AmountLine | app/webhook/telegram.py:118-125 | the amount line starts with the money-bag emoji exactly when the transaction is income, and with the flying-money emoji otherwise |
| Telegram.ResponseSpec | app/webhook/telegram.py:95-104 | a failed result is shown as its error after a cross; a result with no transaction as the "none detected" warning |
| Telegram.CollectBlocks | app/webhook/telegram.py:117-131 | the loop's lines are the blocks of the transactions in order |
| Telegram.FormatTransactionResponse | app/webhook/telegram.py:95-133 | the reply is the response function's text: error, nothing detected, or the header, the transcription cut to 100 characters, and one block per transaction, numbered when there are several |
| Telegram.ReviewLineIffFlagged | app/webhook/telegram.py:128-129 | a transaction's lines hold the review warning exactly when it needs review |
| Telegram.BlocksPrefix | app/webhook/telegram.py:117-131 | the blocks of the first transactions begin the blocks of all of them |
| Telegram.BlockPlaced | app/webhook/telegram.py:117-131 | the k-th block of the reply is exactly the k-th transaction's, numbered k+1 when numbering is on |
| Telegram.ScoreBand | app/webhook/telegram.py:673-680 | green exactly from 80, yellow from 60 below 80, orange from 40 below 60, red below 40 |
| Telegram.HealthScore | app/webhook/telegram.py:669 | a report without a total score reads as 0 |
| Telegram.DailyCut | app/webhook/telegram.py:708-711 | /simulate without an argument cuts 10000 a day |
| Telegram.SimulationAlwaysFails | app/webhook/telegram.py:706-744 | as written, every simulation that passes the gate costs one credit and ends in the handler's error |
| Telegram.DefaultScenario | worker/analysis_service.py:184-187 | with no argument the corrected call asks exactly the analysis service's default scenario |
| Telegram.CorrectedSimulationAnswers | app/webhook/telegram.py:706-744 | corrected, a simulation that passes the gate charges the same, never ends in the error, and shows the model's answer to the user's scenario or the "not enough data" reply when the model fails |

## Left out

- Database errors: missing foreign keys, connection failures and constraint violations other than a duplicate voucher code are not modelled. The services' `except` branches are modelled only where a modelled input reaches them: a parse failure, a model failure, an unknown plan's missing weekly allowance, or a payload value of the wrong type.
- Row ids and ordering: ids count from 1 in insertion order, and "order by createdAt" reads as table order. Rows created in the same instant are not told apart.
- Worker.Worker: the environment holds the parser and the sanity checks as function fields (`Env.parse`, `Env.check`). The predicate `Worker.Faithful` states that they are `LlmParser.ParseResponse` and `SanityChecks.Sanity`. The worker's lemmas about saved rows assume it, which keeps the parser's definitions out of the pipeline's bookkeeping proofs.
- ProcessMessage.ProcessMessageJob.Execute: payloads whose "text" is a list or object, or whose "receipt_id" is a truthy non-integer, are excluded by the `Payload` precondition. In the source, those raise inside the handlers.
- TransactionService: the audit row's `rawOutput` is stored as given. The JSON wrapping of usage metadata is reduced to "null when falsy".
- I/O and concurrency: sending Telegram messages, downloading files, the HTTP server, background tasks and the race between the credit check and the charge are not modelled. Every call runs to completion in order.
- Images and audio: loading, OpenCV preprocessing, Tesseract itself and Whisper transcription are parameters (what the engine reads per mode, what the transcriber returns).
- Randomness and cryptography: voucher codes and payment references take the drawn characters as parameters. The HMAC-SHA256 digest of RFC 2104 is a parameter of `Payment.VerifySignature`.
- Floating point: confidences, the 0.05 penalty and health scores are exact reals, and Python float rounding at boundaries is not modelled.
- Text.IsDigit: accepts the ASCII digits 0-9 only, where Python's regular-expression `\d`, `str.isdigit` and `int()` also accept other Unicode decimal digits. The same holds for `Text.PyInt` and the digit readers built on them (worker/llm/parser.py:62, app/utils/helpers.py:79-82, app/webhook/telegram.py:575 and 710, worker/ocr/tesseract.py:58).
- Text: case mapping is ASCII only. There is no Unicode case folding, and strftime's rendering is the `dateStr` parameter.
- Schemas: pydantic's coercions (strings to numbers, datetime parsing) are not modelled. Validation is stated on already-typed values.
- Telegram: the help, status, upgrade and /buy replies, and the texts of the gate's refusals, are left out. So is the formatting of the report replies for /insight, /predict, /saving, /health beyond its colour band, and /analysis. Only the decision each handler makes is modelled.
- Telegram: the OCR-confidence suffix of a receipt reply (app/webhook/telegram.py:980-981) and /export's spreadsheet file (pandas, app/services/transaction_services.py:91-124) are not part of this model.
- Subscription.FeatureAccess: returns the truthiness of the looked-up config value, not the value itself. Every caller only tests it with `not`.
- Subscription.AccessMonotone: holds for the seven feature switches only. For other config keys the lookup is not monotone (`Subscription.MonthlyCreditsNotMonotone`).
- Plans: the marketing bullet lists are kept only as their lengths, which decide their truthiness.
- Voucher: `get_all_vouchers` is a plain listing query with no logic of its own.
- Environment and wiring: loading settings, logging and startup checks in app/config.py outside `PLAN_CONFIG` are not modelled.
- The language-model client: retries, backoff sleeps and the shared client are left out. The model is a function from prompt to reply or failure.
- Prompt template prose is opaque (`Prompts.Templates`). Only where the input is placed is modelled.
- Subscription.AccountDb.ActivateSubscription: for a user that does not exist, the source fails on the database's user reference and re-raises. The model adds the subscription and leaves the user table unchanged, because database errors are not modelled.

## Findings

| source | as written | input that shows it | evidently intended | confidence | as-written member | corrected member |
|---|---|---|---|---|---|---|
| app/webhook/telegram.py:723 | `/simulate` calls `get_saving_simulation(user_id, daily_cut=daily_cut)`, but the function at worker/analysis_service.py:184-187 takes `user_scenario`, so the call raises TypeError after a credit has been charged | "/simulate 10000" from a user with credits left | pass the daily cut as the scenario sentence, in the service's own default wording "hemat <cut> per hari" | not executed | Telegram.SimulateAsWritten | Telegram.SimulateCorrected |
