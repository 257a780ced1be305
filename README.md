# llm-mod-rs moderation pipeline, modelled in Dafny

llm-mod-rs is a Discord moderation bot. For each guild message it asks a
language model whether the message breaks the community's rule against job
posts and recruitment solicitation. On a positive verdict it posts an embed
to the guild's report channel. The embed quotes the first 512 grapheme
clusters of the message and links to it. An offline harness runs the same
classifier over labelled cases and counts mispredictions.

The model has five modules:

- `Wrappers`: `Option` and `Result`.
- `Graphemes`: message text as a sequence of extended grapheme clusters
  (Unicode Standard Annex #29, section 3). `Text` concatenates the clusters.
- `Classifier`: `evaluate_message`. Its chain of early returns is
  `EvaluateMessage`. The model call is a function parameter
  `llm: string -> Result<ChatResponse, LlmError>`. It stands for building the
  fixed request around the content and sending it. The `serde_json` decoding
  of `Evaluation` is a function parameter `parse: string -> Option<Evaluation>`.
- `Handler`: `Handler::message` as the pure function `Handle(msg, classify)`.
  It returns the texts passed to the classifier and the report to post, if
  any. It also holds `SELF_ID`, the fixed guild-to-channel table and the
  512-cluster summary.
- `Harness`: the misprediction loop of `run_tests`, as the method `RunTests`.
  Its loop invariant ties the counter to the recursive `Mispredictions`.

A first choice whose content is present but empty is not rejected early.
The empty string goes to `parse` like any other answer (src/main.rs:74-82),
and the parser decides.

## Model

| member | source | states |
|---|---|---|
| Graphemes.Text | src/main.rs:132-134 | joining clusters gives at least one character per cluster; the text is empty exactly when there are no clusters, so `is_empty()` on the string means "no clusters" |
| Graphemes.TextAppend | src/main.rs:132-134 | the text of a concatenation of cluster sequences is the concatenation of their texts |
| Graphemes.SplitAtCluster | src/main.rs:132-134 | the text of the first k clusters is a prefix of the whole text, and the rest of the text is exactly the text of the remaining clusters |
| Classifier.EvaluateMessage | src/main.rs:29-94 | call error gives false; no choices gives false; a first choice without content gives false; unparseable content gives false; otherwise the verdict is the parsed `violates_rules` |
| Classifier.FailClosed | src/main.rs:56-93 | the verdict is true if and only if the call succeeded, a first choice with content exists, and that content parsed to `{"violates_rules": true}` |
| Classifier.OnlyFirstChoiceConsulted | src/main.rs:66-80 | two successful responses whose first choices are equal give the same verdict, whatever follows the first choice |
| Classifier.ParserSeesOnlyAnswerText | src/main.rs:74-91 | the parser is applied to the first choice's content only: two parsers that agree there give the same verdict |
| Handler.ReportChannel | src/main.rs:116-122 | guild 145457131640848384 goes to channel 335451227028717568, guild 238666723824238602 to 1315930244682743839, and every other guild to no channel (agrees with the `Routes` table) |
| Handler.Summary | src/main.rs:132-134 | the summary is a prefix of the content's clusters, at most 512 long; it is the whole content when that has at most 512 clusters, and exactly 512 clusters otherwise |
| Handler.SummaryEndsOnClusterBoundary | src/main.rs:131-134 | the message text is the summary text followed by the text of the omitted clusters, so the summary never ends inside a cluster; it is non-empty for non-empty content |
| Handler.Handle | src/main.rs:102-150 | a message with no guild, empty content, a bot author, the bot's own id (`SELF_ID` = 1314997214866571284) or an unrouted guild makes no classifier call and gets no report; an in-scope message makes exactly one classifier call, on its own text; a report is posted exactly when that call says true; it goes to the guild's routed channel with title "found violating message" and two fields, "summary" (the 512-cluster summary) then "message link" (the permalink) |
| Handler.ClassifierSeesOnlyMessageText | src/main.rs:127-130 | two classifiers that agree on the message's text give the same outcome |
| Handler.ReportOnlyOnPositiveVerdict | src/main.rs:127-145 | with the model classifier plugged in, a posted report implies: an in-scope message, a first choice with content, that content parsed to true, and a summary that is a prefix of the message text |
| Harness.Mispredictions | src/main.rs:164-177 | the number of mispredicted cases is at most the number of cases |
| Harness.NoMispredictionsIffAllPass | src/main.rs:171-185 | zero mispredictions if and only if every case's verdict equals its `expected_result` |
| Harness.MispredictionsAppend | src/main.rs:165-177 | mispredictions over concatenated case lists add up, so each loop iteration adds exactly the current case's misprediction to the counter |
| Harness.RunTests | src/main.rs:159-188 | after the loop, `mispredictions` equals the number of cases whose verdict differs from the label; the reported pass count `cases.len() - mispredictions` lies between 0 and `cases.len()`; the run passes (`assert_eq!(mispredictions, 0)`) exactly when every case passes |

## Left out

- Model loading and inference (`generate_model`, `send_chat_request`) are left out. So are the request settings: temperature 0, max length 100, the JSON-schema constraint and the system prompt. Language-model behaviour cannot be specified, so the response is the abstract input `llm`.
- JSON decoding by `serde_json` into `Evaluation` is left out. It is the abstract input `parse`.
- Unicode grapheme segmentation (`unicode_segmentation`) is left out. Message content arrives already split into clusters.
- The Discord gateway, `Client`, intents, `send_message`, embed rendering and the delivery-error branch are left out as network I/O. A failed send is logged and nothing more happens, so the posted report is the last effect either way.
- The embed footer with the elapsed seconds is left out. So are the harness's `times` vector and average time. These are wall-clock and floating-point work.
- Logging, `env::var`, loading `messages.json`, `main`/`run_bot` and async execution are left out. The harness takes its cases as a parameter.
- Concurrency between handler invocations is left out. The handler holds no mutable state, so each event is handled on its own.
- Harness.RunTests: each case's verdict comes from one function `llm` of the content. Two identical cases therefore get the same model answer. The real model is only intended to be deterministic (temperature 0).
- Harness.RunTests: the failing `assert_eq!` panics in the source. The model returns it as `ok == false`. The per-case `println!` output is not modelled.
