# COMAR chatbot core, modelled in Dafny

The repository is a chatbot for COMAR Assurances. It has a React front end and a Python back end. This project models the parts of it whose behaviour is decided by the code itself rather than by a network service, a model or a browser:

- **Chat page session** (`session.dfy`, module `Session`). `frontend/src/components/Independent.tsx` is a state machine over React state.
  - The state is `messages`, `loading`, `dynamicPrompts`, `selectedTags`, `selectedBranch`, `inputValue`, `messageHistory` and `curConversation`. It is the class `ChatSession`, with one method per event.
  - Every asynchronous completion is a method of its own: the chat answer, a chat failure, a question query's result or failure. The caller can therefore interleave completions in any order, as the browser can.
  - The handlers are modelled as written:
    - a failed answer appends a notice and leaves the empty placeholder;
    - there is no stale-response guard, so the last completion wins;
    - `resetToStart` issues its query with the tags it had before the reset;
    - the cancel button aborts nothing, because the abort controller is never set.
  - `Valid()` is the invariant every handler keeps:
    - each user message is followed at once by an assistant message;
    - the `loading` flag is set only while the conversation is non-empty. A reset clears both, yet the request sent before it may still answer afterwards;
    - the history effect has stored the current conversation.
- **Question catalog** (`questions.dfy`, `tags.dfy`). The selections by branch, by one tag (`backend/controllers/questions_controller.py`) and by several tags (`backend/controllers/tag_controller.py`). The tag selection raises a 404 error when nothing matches. Its loop is the generic `Seqs.SelectLoop`, proved against `Seqs.Filter`.
- **Retrieval text** (`mistral.dfy`, `retrieval.dfy`):
  - the summary of a knowledge chunk, and the context block of retrieved chunks that goes into the prompt (`backend/controllers/mistral_controller.py`);
  - the text of a chunk that is embedded, and the normalisation of free text (`backend/controllers/retrieval.py`).
- **Scraper helpers** (`scraper.dfy`). From `backend/scrapper.py`: keyword routing of a page to a section folder, whitespace collapsing, and the name of the saved file.
- **Landing-page question browser** (`homepage.dfy`). From `frontend/src/components/HomePage.tsx`: the constant branch table, the flattened question list, the tag search and the branch lookup. The page state is the class `Page`.
- **Shared definitions**:
  - `text.dfy` holds the string primitives: trimming, case mapping, accent folding, splitting and joining, decimal numerals;
  - `seqs.dfy` holds order-preserving filtering;
  - `wrappers.dfy` holds `Option` and `Result`.

## Model

| member | source | states |
|---|---|---|
| Questions.QuestionsByBranch | backend/controllers/questions_controller.py:10-12 | the result is an order-preserving subsequence of the catalog holding exactly the questions whose branch equals the name up to case, each as many times as the catalog lists it; it is empty exactly when no question is in the branch (no error) |
| Questions.QuestionsByTag | backend/controllers/questions_controller.py:14-16 | the result is an order-preserving subsequence holding exactly the questions carrying the tag up to case, each as many times as the catalog lists it; empty, not an error, when none does |
| Questions.HasTagIff | backend/controllers/questions_controller.py:16 | a question matches exactly when one of its own tags equals the searched tag once both are lower-cased |
| Questions.SelectionsHaveNoDuplicates | backend/controllers/questions_controller.py:10-16 | a catalog without repeats gives selections without repeats |
| Seqs.SelectLoop | backend/controllers/tag_controller.py:21-24 | the loop appending each matching question yields exactly the order-preserving filter of the catalog |
| Tags.QuestionsByTags | backend/controllers/tag_controller.py:15-29 | success returns the catalog questions matching some normalised user tag, in catalog order, never empty and free of repeats when the catalog is; the 404 error with its detail message is returned exactly when no question matches, in particular for an empty tag list |
| Tags.MatchesAnyIff | backend/controllers/tag_controller.py:19-23 | a question is selected exactly when some stripped, lower-cased user tag equals some lower-cased tag of the question |
| Tags.UserTagPaddingIgnored | backend/controllers/tag_controller.py:19 | whitespace in front of a user tag does not change the normalised tags |
| Tags.PaddedQuestionTagNeverMatches | backend/controllers/tag_controller.py:22-23 | a catalog tag that begins with whitespace equals no normalised user tag, because catalog tags are lower-cased but not stripped |
| Mistral.FormatChunkContent | backend/controllers/mistral_controller.py:36-58 | returns the content verbatim when it is present and not blank; otherwise the ", "-join of the labelled parts of the known fields |
| Mistral.PartsUpToLabels | backend/controllers/mistral_controller.py:41-57 | every summary part is the label of a present field followed by that field's value, and the parts come in label order |
| Mistral.PartsInLabelOrder | backend/controllers/mistral_controller.py:42-57 | the summary parts follow the fixed order nom, type, adresse, telephone, fax, email, code_agence, coordinates |
| Mistral.LabelShownIff | backend/controllers/mistral_controller.py:42-57 | a part with a given label is shown exactly when that field is present, and then it carries the field's value |
| Mistral.EmailShownIff | backend/controllers/mistral_controller.py:52-53 | the email part is shown exactly when the email is present and not blank |
| Mistral.CoordinatesShownIff | backend/controllers/mistral_controller.py:56-57 | the coordinates part is shown exactly when both latitude and longitude are present, as "Coordinates: lat, lon" |
| Mistral.EmptyRenderingIff | backend/controllers/mistral_controller.py:38-58 | the rendering is "" exactly when there is no usable content and no known field is shown |
| Mistral.ContextTextSnoc | backend/controllers/mistral_controller.py:77 | one more retrieved chunk appends a blank line and its "- " bullet at the end of the context block |
| Mistral.ContextTextStart | backend/controllers/mistral_controller.py:77 | the context block is empty for no chunks and otherwise starts with the first chunk's bullet |
| Retrieval.TextForEmbedding | backend/controllers/retrieval.py:18-61 | the parts appended one by one are exactly the embedding lines, and the result is their "\n"-join |
| Retrieval.AppendPrefixed | backend/controllers/retrieval.py:41-42 | the list loop appends one prefixed line per element, in list order, after the existing parts |
| Retrieval.AppendContact | backend/controllers/retrieval.py:53-55 | the contact loop appends "Key: value" per entry, with the key capitalised, in entry order |
| Retrieval.EmbeddingLinesLayout | backend/controllers/retrieval.py:26-59 | the single fields come first; each element of services, medical coverage, special features, contact and legal then gives exactly one line at a fixed position, in that block order |
| Retrieval.MissingSectionsAreEmpty | backend/controllers/retrieval.py:32 | a chunk without sections yields only its name and URL lines, as an empty sections object does |
| Retrieval.LinesNotEmpty | backend/controllers/retrieval.py:26-59 | no embedding line is empty |
| Retrieval.EmptyTextIff | backend/controllers/retrieval.py:61 | the text is "" exactly when there is no line, which is exactly when the chunk has no name, no URL and nothing in its sections |
| Retrieval.NormalizeText | backend/controllers/retrieval.py:9-16 | every character of the result is a word character or whitespace and is already lower-cased and unaccented |
| Retrieval.NormalizeTextKeeps | backend/controllers/retrieval.py:10-15 | a character appears in the result exactly when it is a word or whitespace character that some input character folds to |
| Retrieval.NormalizeTextIdempotent | backend/controllers/retrieval.py:9-16 | normalising normalised text changes nothing |
| Scraper.ClassifySection | backend/scrapper.py:47-55 | returns the first section, in table order, having a normalised keyword inside the normalised url or title; returns "autres" exactly when no section has one |
| Scraper.FoldersDistinct | backend/scrapper.py:17-27 | the section names and "autres" are pairwise distinct, so every result names one folder |
| Scraper.CleanTextSingleSpaced | backend/scrapper.py:44-45 | cleaned text has no whitespace at either end, and each whitespace character in it is a single space between two words |
| Scraper.CleanTextKeepsWords | backend/scrapper.py:44-45 | cleaning keeps the words of the text, in order |
| Scraper.CleanTextIdempotent | backend/scrapper.py:44-45 | cleaning cleaned text changes nothing |
| Scraper.FileStem | backend/scrapper.py:87 | the file stem has at most 50 characters and contains no '/' |
| Scraper.FileStemOfTitle | backend/scrapper.py:87 | the stem is the first 50 characters of the title with '/' replaced by '-', and a short title without '/' is kept whole |
| Scraper.FoldersArePlainNames | backend/scrapper.py:17-27 | every name `classify_section` can return is a folder name, non-empty and without '/', so `os.path.join` with it is plain concatenation with '/' |
| Scraper.SavedPathInSectionFolder | backend/scrapper.py:87 | for a section `classify_section` returns, the saved path is the output folder, the section and a file name holding no '/', so the file lands directly in its section folder |
| HomePage.FlattenSnoc | frontend/src/components/HomePage.tsx:48 | the questions of one more branch are appended at the end |
| HomePage.FlattenMembers | frontend/src/components/HomePage.tsx:48 | a question is listed exactly when some branch holds it |
| HomePage.AllQuestionsByBranch | frontend/src/components/HomePage.tsx:22-48 | all questions are the insurance questions followed by the claims questions |
| HomePage.FilteredForSelects | frontend/src/components/HomePage.tsx:50-57 | an empty tag lists nothing; otherwise the list is an order-preserving subsequence of all questions holding exactly those carrying the lower-cased tag |
| HomePage.SearchTagNormalised | frontend/src/components/HomePage.tsx:138 | the stored search tag is trimmed and lower-cased |
| HomePage.SearchTagStable | frontend/src/components/HomePage.tsx:138 | entering the stored tag again stores the same value |
| HomePage.FindBranch | frontend/src/components/HomePage.tsx:119 | finds the first branch with the key, or none exactly when no branch has it |
| HomePage.BranchListByKey | frontend/src/components/HomePage.tsx:119 | "insurance" and "claims" list their own questions; any other key lists none |
| HomePage.Page.constructor | frontend/src/components/HomePage.tsx:44-46 | nothing selected, an empty tag and no listed questions |
| HomePage.Page.SearchInputChanged | frontend/src/components/HomePage.tsx:138 | stores the trimmed, lower-cased input and the effect recomputes the listed questions for it; the branch is unchanged |
| HomePage.Page.SelectBranch | frontend/src/components/HomePage.tsx:59-61 | stores the selection, cleared or not; the tag and the listed questions are unchanged |
| HomePage.Page.ListedBranchQuestions | frontend/src/components/HomePage.tsx:115-120 | a non-empty selected branch lists the questions of the first branch with that key (`BranchList`); nothing is listed otherwise |
| Session.QueryFor | frontend/src/components/Independent.tsx:135-162 | the general branch is queried exactly when no tag is selected; otherwise the selected tags are |
| Session.FormatPrompts | frontend/src/components/Independent.tsx:140-143 | one prompt per question, in order, whose description is the question |
| Session.PromptKeysReadBack | frontend/src/components/Independent.tsx:141 | each prompt key is a decimal numeral that reads back as its question's id |
| Session.PromptKeysDistinct | frontend/src/components/Independent.tsx:141 | questions with distinct ids give prompts with distinct keys |
| Session.FormatPromptsAppend | frontend/src/components/Independent.tsx:140-143 | the mapping distributes over concatenation |
| Session.DisplayedPrompts | frontend/src/components/Independent.tsx:369-376 | the list shows the loaded prompts when there are some, otherwise the single loading item; never nothing |
| Session.FillLast | frontend/src/components/Independent.tsx:215-220 | the last message takes the new content and keeps its role, and every earlier message and the length are unchanged |
| Session.AnswerCompletesTurn | frontend/src/components/Independent.tsx:211-220 | an answer right after its submission turns the placeholder into the answer |
| Session.FailureKeepsPlaceholder | frontend/src/components/Independent.tsx:211-223 | a failure right after a submission leaves the empty placeholder and adds the notice, three messages in all |
| Session.PairedEndsWithAssistant | frontend/src/components/Independent.tsx:211 | a well-paired conversation never ends with a user message |
| Session.SubmittedPaired | frontend/src/components/Independent.tsx:211 | an accepted submission keeps user messages answered in place |
| Session.NoticePaired | frontend/src/components/Independent.tsx:223 | appending the failure notice keeps user messages answered in place |
| Session.FilledPaired | frontend/src/components/Independent.tsx:215-220 | filling in the last message keeps user messages answered in place |
| Session.ArchiveKeepsOthers | frontend/src/components/Independent.tsx:229-236 | a non-empty conversation is stored under its key; an empty one stores nothing; every other key is untouched |
| Session.ArchiveSettles | frontend/src/components/Independent.tsx:229-236 | after the effect the history holds the conversation, and running it again changes nothing |
| Session.SubmitOutcomeFor | frontend/src/components/Independent.tsx:205-210 | blank input is ignored whatever the busy flag; non-blank input is refused exactly while busy; otherwise the input itself is sent |
| Session.ChatSession.constructor | frontend/src/components/Independent.tsx:72-85 | the initial values of the state hooks |
| Session.ChatSession.LoadQuestions | frontend/src/components/Independent.tsx:135-167 | the query for the current tags: the general branch exactly when no tag is selected |
| Session.ChatSession.SelectTags | frontend/src/components/Independent.tsx:164-167 | stores the tags and issues the query for them; nothing else changes |
| Session.ChatSession.QueryCompleted | frontend/src/components/Independent.tsx:140-157 | the prompts become the mapped result, even for a query issued before a later one; nothing else changes |
| Session.ChatSession.QueryFailed | frontend/src/components/Independent.tsx:145-161 | the prompts become empty, so the loading item is shown; nothing else changes |
| Session.ChatSession.SelectBranch | frontend/src/components/Independent.tsx:195-202 | the prompts become the branch's mapped questions and the branch is selected |
| Session.ChatSession.Reset | frontend/src/components/Independent.tsx:186-193 | messages, tags and input are emptied, the branch is "général" and loading is false; the queries are the one for the pre-reset tags and then the general one; history and prompts are unchanged |
| Session.ChatSession.Submit | frontend/src/components/Independent.tsx:205-212 | blank input changes nothing, and neither does input while busy; otherwise exactly the user message and an empty assistant placeholder are appended, loading is set and the history stores the conversation |
| Session.ChatSession.AnswerArrived | frontend/src/components/Independent.tsx:213-226 | the last message takes the trimmed answer and the earlier ones are unchanged; loading is cleared and the history updated |
| Session.ChatSession.FillReply | frontend/src/components/Independent.tsx:215-226 | the updater writes the reply into the last message, keeping its role, the earlier messages and the pairing; an emptied conversation stays empty; loading is cleared and the history effect stores the result |
| Session.ChatSession.AnswerFailed | frontend/src/components/Independent.tsx:221-226 | exactly one assistant message "Something went wrong." is appended, the placeholder stays, loading is cleared |
| Session.ChatSession.InputChanged | frontend/src/components/Independent.tsx:435 | stores the input; nothing else changes |
| Session.ChatSession.SendInput | frontend/src/components/Independent.tsx:431-434 | submits the input as `Submit` does, then the input is empty whatever the outcome |
| Session.ChatSession.PromptClicked | frontend/src/components/Independent.tsx:378-380 | submits the clicked item's description, including that of the loading item |
| Session.ChatSession.Cancel | frontend/src/components/Independent.tsx:436-438 | nothing is aborted |
| Session.FirstExchange | frontend/src/components/Independent.tsx:205-236 | a question answered in time leaves the question and the trimmed answer, stored under the default conversation |
| Session.BusySubmission | frontend/src/components/Independent.tsx:207-210 | a second question while the first is pending is refused and leaves the conversation as it was |
| Session.StaleQueryAfterReset | frontend/src/components/Independent.tsx:186-193 | a reset with tags selected issues a tag query and a general query; if the tag query answers last, its questions are shown although no tag is selected |
| Session.FailedThenReset | frontend/src/components/Independent.tsx:186-236 | after a failure and a reset the conversation is empty, while the history still holds the failed exchange |
| Text.BlankIff | backend/controllers/mistral_controller.py:38 | a string is blank exactly when stripping leaves nothing of it |

## Left out

- Whitespace is only the six ASCII whitespace characters. This applies to JavaScript `trim`, to Python `strip` and `split()`, and to the regular-expression class `\s` in `normalize_text`. Both languages also count Unicode spaces, such as the no-break spaces U+00A0 and U+202F common in French text before "?" and ":". Not modelled, therefore:
  - trimming and splitting at those spaces;
  - `normalize_text` keeping them: the model deletes them.
- Case mapping (`lower`, `toLowerCase`, `capitalize`) follows Python exactly on ASCII and Latin-1, including 'ß' becoming "Ss", 'ÿ' becoming 'Ÿ' and 'µ' becoming Greek capital mu. Characters beyond Latin-1 are left unchanged, so a capital such as 'Œ' is not lower-cased.
- Accent removal (NFD, then dropping `Mn` marks) strips the diacritic from every Latin-1 letter that has a canonical decomposition. Characters beyond Latin-1 are left unchanged.
- The regular-expression class `\w` is exact within Latin-1:
  - ASCII letters and digits and `_`;
  - the Latin-1 letters, ª, µ and º among them;
  - the superscript digits ¹²³ and the fractions ¼½¾.
  Letters and digits beyond Latin-1, such as 'œ' or 'ł', count as non-word characters, so `normalize_text` deletes them in the model where Python keeps them.
- JSON values are modelled as strings.
  - A chunk field that holds a number, such as latitude, is taken as already rendered by the f-string.
  - A non-string `content` or `email`, on which `.strip()` would raise, is not modelled.
  - The `contact` dictionary is a sequence in insertion order.
- File and network I/O are not modelled. The callers pass the catalog in as a list, and the query a handler starts is returned as a value. Not modelled:
  - loading `questions.json`;
  - the pydantic `Question(**q)` validation;
  - the chat service request;
  - the Mistral API call and the rest of `generate_course_response`;
  - the SentenceTransformer/FAISS `Retriever`;
  - crawling, scraping and writing files.
- Session.ChatSession.AnswerArrived: when the conversation has been emptied by a reset while the answer was pending, the source writes through `updated[-1]`. That throws a TypeError inside the React state updater. The model leaves the empty conversation unchanged instead.
- Session.ChatSession.AnswerArrived: the source mutates the last message object in place. That object is shared with the stored history entry. The model replaces it by value. The history effect rewrites the entry right after, so the state reached is the same.
- React scheduling is not modelled: batching, effects running after render, and real asynchrony. Each completion is a separate method call, applied in whatever order the caller chooses.
- The `message.warning` toast is not modelled. It is only the `RejectedBusy` outcome.
- `Session.ChatSession.Cancel` models the cancel button only as far as the source reaches: `abortController.current` is never assigned, so nothing is aborted. The `AbortController` itself is not modelled.
- Presentation is not modelled:
  - markdown rendering of answers;
  - the scroll and theme effects;
  - tag rendering, attachments, the sidebar, the conversation list and branch descriptions;
  - `handleQuestionClick`'s DOM writes on the landing page;
  - the unused `TAGS` constant.
- `IntToString` models `id.toString()` for integer ids. JavaScript numbers that are not safe integers are not modelled.
