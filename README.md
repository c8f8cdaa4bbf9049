# Study-materials browser: backpack, catalog filter and PDF chat controller

This project models the three pieces of logic in a student-materials web application:

- **Backpack** (`src/contexts/backpack.tsx`). An ordered list of saved `Material` records. It has add-if-absent by id, remove-all by id and membership by id. It is mirrored into one local-storage slot: a non-empty list is written there and an empty list clears the slot. The slot is modelled as `Option<seq<Material>>`. The provider is the class `Backpack.BackpackProvider`. Its methods are proved against pure functions (`AddIfAbsent`, `RemoveById`, `SomeHasId`, `Persisted`, `Loaded`), and lemmas about those functions state what the source promises.
- **Catalog filter** (`src/components/dashboard-client.tsx`). Three selectors: semester, subject and material type. Each holds `"all"` or one value, and their conjunction filters the static catalog (`src/lib/constants.ts`, the module `Constants`). The filter is pure, so `Dashboard` has functions and lemmas only: soundness, completeness, order preservation, multiplicities, monotonicity, independence of the selectors, and a worked example on the shipped catalog.
- **PDF chat controller** (`src/components/viewer/pdf-chat-client.tsx`). Its state fields are `apiKey`, `isApiKeyModalOpen`, `pdfFile`, `pdfDataUri`, `chatHistory` and `isLoading`, plus the browser's local storage. The class `PdfChat.PdfChatClient` performs each handler step by step on these fields, and each method is proved equal to a transition function on the value `ChatState`. The asynchronous chatbot call is split in two. `BeginSubmit` returns the call it issues, or `None`. `CompleteSubmit` receives the call's outcome, either `Answered(answer)` or `Threw(ErrorInstance(message) | NonErrorValue)`. The file reader is split the same way: `FileChange` accepts or refuses the file, and `FileLoaded` is the reader's load callback.

JavaScript's semantics are written out where the code depends on them:
- truthiness of nullable strings: `null` and `""` are both falsy;
- `String.prototype.trim` and its exact whitespace set (`JsStrings.Trim`, proved empty exactly for blank strings);
- `Number.prototype.toString` on integers below 10^21 in magnitude, the range in which JavaScript spells them in plain digits (`JsStrings.NumberToString`, proved injective, so a semester choice selects exactly one semester).

Behaviour of the code the model keeps:
- Submit needs a read document (`pdfDataUri`), an idle session and a key (`src/components/viewer/pdf-chat-client.tsx:94`).
- An empty stored key counts as absent (line 56).
- The file reader's callback resets the transcript whenever it fires, even while a call is in flight. The reply to the old question is then appended to the new, empty transcript (lines 80 and 111, `PdfChat.ReplyAfterNewDocument`).
- The controller accepts PDF uploads only (line 75).

## Definitions

The contracts below are stated in terms of these definitions; each transcribes one rule of the source.

- `Types.MaterialType.Label`: the `type` union of `src/lib/types.ts:4` ("Question Paper", "Notes", "Syllabus"), the string that `material.type === selectedType` compares at `src/components/dashboard-client.tsx:28`.
- `Dashboard.Matches` (with `SemesterMatches`, `SubjectMatches`, `KindMatches`): the filter callback of `src/components/dashboard-client.tsx:25-29`. Each selector is "all" or equals the entry's semester spelling, subject or type label.
- `Backpack.Persisted`: the persist effect of `src/contexts/backpack.tsx:25-31`. A non-empty list is written to the slot and an empty one clears it.
- `Backpack.Loaded`: the load effect of `src/contexts/backpack.tsx:18-23`. A set slot replaces the list.
- `JsStrings.IsWhitespace`: the ECMAScript WhiteSpace and LineTerminator code points that `trim` removes at `src/components/viewer/pdf-chat-client.tsx:98`; `IsBlank` says every character is one of them.
- `PdfChat.Truthy`: JavaScript truthiness of a nullable string, as in `if (storedKey)` (line 56) and `!apiKey` (line 94). `null` and `""` are falsy.
- `PdfChat.StoredKey`: `localStorage.getItem("geminiApiKey")` (line 55).
- `PdfChat.IsValidApiKey`: the key schema's at-least-one-character rule (lines 31-33).
- `PdfChat.AcceptsFile`: the file-type test `file.type === "application/pdf"` (line 75).
- `PdfChat.CanSubmit`: the submit guard of line 94.
- `PdfChat.Mounted`: the initial `useState` values (lines 36-41) over the given storage.

## Model

| member | source | states |
|---|---|---|
| `Backpack.SomeHasId` | src/contexts/backpack.tsx:46-48 | the query is true exactly when some entry of the list has the id |
| `Backpack.AddIfAbsent` | src/contexts/backpack.tsx:33-40 | afterwards the id is present; the old list is a prefix of the result; the list grows by exactly one, with `item` at the end, exactly when the id was absent |
| `Backpack.RemoveById` | src/contexts/backpack.tsx:42-44 | no entry with the id remains; an entry is kept exactly when it was present and has another id |
| `Backpack.AddIdempotent` | src/contexts/backpack.tsx:35-38 | adding the same item twice gives the same list as adding it once |
| `Backpack.AddKeepsIdsUnique` | src/contexts/backpack.tsx:33-40 | pairwise distinct ids stay pairwise distinct after an add |
| `Backpack.RemoveAbsentIsIdentity` | src/contexts/backpack.tsx:43 | removing an id that no entry has leaves the list unchanged |
| `Backpack.RemoveIsSubsequence` | src/contexts/backpack.tsx:43 | the kept entries are a subsequence of the old list (relative order preserved) |
| `Backpack.RemoveCounts` | src/contexts/backpack.tsx:43 | every entry with another id keeps its multiplicity; entries with the id occur zero times |
| `Backpack.RemoveKeepsIdsUnique` | src/contexts/backpack.tsx:43 | pairwise distinct ids stay pairwise distinct after a remove |
| `Backpack.PersistThenLoad` | src/contexts/backpack.tsx:18-31 | a list written by the persist effect is read back unchanged by the next mount's load effect (an empty list clears the slot and reloads as empty) |
| `Backpack.BackpackProvider.constructor` | src/contexts/backpack.tsx:16-31 | after mounting, the list is the stored list (empty if the slot is unset) and the slot mirrors it |
| `Backpack.BackpackProvider.Load` | src/contexts/backpack.tsx:18-23 | the list becomes `Loaded` of the slot: a set slot replaces the list, an unset slot leaves it as it was (run once, at mount) |
| `Backpack.BackpackProvider.Persist` | src/contexts/backpack.tsx:25-31 | the slot becomes `Persisted` of the list: unset exactly when the list is empty, and otherwise exactly the list |
| `Backpack.BackpackProvider.AddToBackpack` | src/contexts/backpack.tsx:33-40 | from a state whose slot mirrors the list (`Valid()`), the new list is `AddIfAbsent` of the old one, unique ids are preserved, and the slot mirrors the new list |
| `Backpack.BackpackProvider.RemoveFromBackpack` | src/contexts/backpack.tsx:42-44 | from a state whose slot mirrors the list (`Valid()`), the new list is `RemoveById` of the old one, unique ids are preserved, and the slot mirrors the new list |
| `Backpack.BackpackProvider.IsItemInBackpack` | src/contexts/backpack.tsx:46-48 | the answer is true exactly when some entry of the current list has the id |
| `Constants.CatalogIdsUnique` | src/lib/constants.ts:14-95 | the shipped catalog's ids are pairwise distinct |
| `Dashboard.FilterMaterials` | src/components/dashboard-client.tsx:24-30 | the result is never longer than the catalog (its meaning is given by the lemmas below) |
| `Dashboard.FilterMembership` | src/components/dashboard-client.tsx:24-30 | soundness and completeness: an entry is shown exactly when it is in the catalog and `Matches` (the callback of lines 25-29) accepts it |
| `Dashboard.FilterSound` | src/components/dashboard-client.tsx:26-28 | every shown entry satisfies each selector that is not "all" (semester spelling, subject, type label) |
| `Dashboard.UnfilteredShowsCatalog` | src/components/dashboard-client.tsx:20-30 | with the initial selection (all three "all") the result is the whole catalog, in order |
| `Dashboard.FilterIsSubsequence` | src/components/dashboard-client.tsx:24 | the result is a subsequence of the catalog: the order is preserved |
| `Dashboard.FilterCounts` | src/components/dashboard-client.tsx:24-30 | a matching entry occurs as often as in the catalog and a non-matching one not at all, so no duplicates are introduced |
| `Dashboard.FilterConcat` | src/components/dashboard-client.tsx:24-30 | filtering a concatenation is the concatenation of the filtered parts |
| `Dashboard.FilterMonotone` | src/components/dashboard-client.tsx:26-28 | widening the selection (any selector set to "all") gives a result that has the old result as a subsequence |
| `Dashboard.WideningKeepsCounts` | src/components/dashboard-client.tsx:26-28 | widening the selection never shows an entry fewer times than before |
| `Dashboard.ResetOneSelectorWidens` | src/components/dashboard-client.tsx:26-28 | every shown entry is still shown after any one selector is set back to "all" |
| `Dashboard.FilterTwice` | src/components/dashboard-client.tsx:24-30 | filtering by one selection and then another equals filtering once by a selection that accepts exactly what both accept |
| `Dashboard.FiltersIndependent` | src/components/dashboard-client.tsx:25-29 | the result equals the three single-selector filters applied in turn, and as a set it is their intersection |
| `Dashboard.SemesterSelectionExact` | src/components/dashboard-client.tsx:26 | choosing the spelling of semester k shows exactly the catalog entries of semester k |
| `Dashboard.FifthSemesterMatches` | src/lib/constants.ts:14-95 | of the shipped entries, the "5" semester choice accepts exactly the OS syllabus and the DBMS paper |
| `Dashboard.FifthSemesterOfCatalog` | src/lib/constants.ts:14-95 | on the shipped catalog the "5" semester choice shows the OS syllabus, then the DBMS paper |
| `Dashboard.EveryEntryHasItsOptions` | src/components/dashboard-client.tsx:45-83 | every shipped entry's semester and subject are among the options the selectors offer (`Semesters`, `Subjects`), and choosing them and its type label shows the entry |
| `Sequences.SubsequenceMultiset` | src/components/dashboard-client.tsx:24-28 | a subsequence never holds an element more often than its source |
| `JsStrings.TrimStart` | src/components/viewer/pdf-chat-client.tsx:98 | the result is the suffix of the input from its first non-whitespace character on; everything dropped is whitespace (`IsWhitespace`, the ECMAScript set) |
| `JsStrings.TrimEnd` | src/components/viewer/pdf-chat-client.tsx:98 | the result is the prefix of the input up to its last non-whitespace character; everything dropped is whitespace |
| `JsStrings.Trim` | src/components/viewer/pdf-chat-client.tsx:98 | the trimmed question is empty exactly when every character is whitespace |
| `JsStrings.NatToString` | src/components/dashboard-client.tsx:26 | the spelling is non-empty, made of decimal digits, and one digit long exactly for numbers below ten |
| `JsStrings.NatToStringValue` | src/components/dashboard-client.tsx:26 | the digits of `NatToString(n)` denote `n` (`DecimalValue`, most significant digit first), with no leading zero |
| `JsStrings.NumberToString` | src/components/dashboard-client.tsx:26 | the spelling is non-empty and starts with '-' exactly for negative numbers |
| `JsStrings.NumberToStringValue` | src/components/dashboard-client.tsx:26 | after the optional '-', the spelling is decimal digits denoting the magnitude, with no leading zero unless the number is 0 |
| `JsStrings.NatToStringInjective` | src/components/dashboard-client.tsx:26 | distinct natural numbers have distinct spellings |
| `JsStrings.NumberToStringInjective` | src/components/dashboard-client.tsx:26 | distinct integers have distinct spellings, so comparing a semester's spelling with the selector compares numbers |
| `PdfChat.KeyLoaded` | src/components/viewer/pdf-chat-client.tsx:54-61 | `StoredKey` (line 55) is read; a `Truthy` one (line 56) becomes the key and the dialog is left alone; otherwise the dialog opens and the key is unchanged; nothing else changes |
| `PdfChat.KeySaved` | src/components/viewer/pdf-chat-client.tsx:63-66 | a key the schema accepts (`IsValidApiKey`, at least one character) is stored under "geminiApiKey", becomes the key and closes the dialog, and other storage entries are untouched; a key the schema rejects changes nothing |
| `PdfChat.KeyDialogSet` | src/components/viewer/pdf-chat-client.tsx:137 | the dialog's open flag is set and nothing else changes |
| `PdfChat.FileChosen` | src/components/viewer/pdf-chat-client.tsx:73-90 | a file `AcceptsFile` admits (a chosen "application/pdf" file, line 75) becomes the file and starts a read; no file or any other type changes nothing (not the file, not the document, not the transcript) |
| `PdfChat.FileRead` | src/components/viewer/pdf-chat-client.tsx:78-81 | when a started read finishes, its data URI becomes the document and the transcript is emptied; nothing else changes |
| `PdfChat.SubmitBegun` | src/components/viewer/pdf-chat-client.tsx:92-103 | a call is issued exactly when the guard `CanSubmit` holds (a document is read, no call is in flight, a key is set: line 94) and the question is not blank after `trim` (line 98); then loading is set and exactly one user message with the verbatim question is appended, and the call carries document, question and key; otherwise nothing changes |
| `PdfChat.BotReply` | src/components/viewer/pdf-chat-client.tsx:111-118 | the reply is the answer, or "Error: " followed by the Error's message, or followed by "An unknown error occurred." for a non-Error value |
| `PdfChat.SubmitCompleted` | src/components/viewer/pdf-chat-client.tsx:105-126 | exactly one bot message with the reply is appended and loading returns to false, on success and on failure alike; nothing else changes |
| `PdfChat.SubmitRoundTrip` | src/components/viewer/pdf-chat-client.tsx:102-126 | a completed submit grows the transcript by exactly the two messages [user question, bot reply], leaves every other field as before, and leaves the session ready for the next question |
| `PdfChat.SingleFlight` | src/components/viewer/pdf-chat-client.tsx:94 | while a call is in flight, any further submit issues no call and changes nothing |
| `PdfChat.KeySurvivesReload` | src/components/viewer/pdf-chat-client.tsx:54-66 | a saved key is loaded by the next mount, which keeps the dialog closed |
| `PdfChat.NoKeyNoCall` | src/components/viewer/pdf-chat-client.tsx:94 | without a stored key the dialog opens, and even after a PDF is read a submit issues no call and changes nothing |
| `PdfChat.NewDocumentResetsTranscript` | src/components/viewer/pdf-chat-client.tsx:75-81 | an accepted PDF, once read, is the file and the document, and the transcript is empty |
| `PdfChat.ReplyAfterNewDocument` | src/components/viewer/pdf-chat-client.tsx:111 | if a new PDF is read while a call is in flight, the reply is the only message of the new transcript |
| `PdfChat.PdfChatClient.constructor` | src/components/viewer/pdf-chat-client.tsx:36-61 | mounting over the given storage: the initial values (`Mounted`, lines 36-41), then the key-load effect, so the state is `KeyLoaded(Mounted(storage))` |
| `PdfChat.PdfChatClient.SaveKey` | src/components/viewer/pdf-chat-client.tsx:63-71 | the key is saved exactly when the schema accepts it, and the new state is `KeySaved` of the old one |
| `PdfChat.PdfChatClient.SetKeyModalOpen` | src/components/viewer/pdf-chat-client.tsx:137 | the new state is `KeyDialogSet` of the old one |
| `PdfChat.PdfChatClient.FileChange` | src/components/viewer/pdf-chat-client.tsx:73-90 | the file is accepted exactly when it is a PDF, and the new state is `FileChosen` of the old one |
| `PdfChat.PdfChatClient.FileLoaded` | src/components/viewer/pdf-chat-client.tsx:78-81 | the new state is `FileRead` of the old one |
| `PdfChat.PdfChatClient.BeginSubmit` | src/components/viewer/pdf-chat-client.tsx:92-103 | the new state and the issued call are `SubmitBegun` of the old state and the question |
| `PdfChat.PdfChatClient.CompleteSubmit` | src/components/viewer/pdf-chat-client.tsx:105-126 | the new state is `SubmitCompleted` of the old state and the outcome |
| `PdfChat.AnsweredQuestionScenario` | src/components/viewer/pdf-chat-client.tsx:92-126 | key stored, PDF read, "What is covered in Module 2?" answered with "Core Concepts": the transcript is exactly that question and that answer, and loading is off |
| `PdfChat.QuotaFailureScenario` | src/components/viewer/pdf-chat-client.tsx:112-118 | a call failing with "quota exceeded" leaves the question followed by one bot message "Error: quota exceeded", and loading is off |
| `PdfChat.MissingKeyScenario` | src/components/viewer/pdf-chat-client.tsx:54-61 | with no stored key the dialog is open, and a question about a read PDF issues no call and leaves the transcript empty |
| `PdfChat.PngUploadScenario` | src/components/viewer/pdf-chat-client.tsx:73-90 | choosing an "image/png" file is refused and the earlier document and transcript stay as they were |

## Left out

- Reading the file's bytes into a base64 data URI (`FileReader.readAsDataURL`): the data URI is an opaque string passed to `FileLoaded`.
- `pendingReads` is not a field of the component. It counts reads that were started and not yet finished, so that a load callback can only follow an accepted file. Several reads may finish in any order.
- The chatbot flow (`src/ai/flows/pdf-chatbot.ts`): the prompt template, the model call, the `process.env` key assignment and the response schema. Its effect on the controller is the abstract `ChatbotOutcome` given to `CompleteSubmit`.
- JSON serialization of the backpack: the slot holds the list itself. A stored value that does not parse (`JSON.parse` throwing) is not modelled.
- React scheduling. The backpack's mount is modelled as load, then persist. React also runs the persist effect once before the loaded list arrives; that briefly clears the slot, and it is restored on the next render. Other interleavings, such as unmounting while a call is in flight, are not modelled either.
- Toasts, `console.error`, the form reset after submit (line 100), and the disabled state of the textarea and send button: these are UI only. Double submits are excluded by the `isLoading` guard, which is modelled.
- react-hook-form and zod beyond the schema's at-least-one-character rule.
- `PdfChat.KeySaved`, `PdfChat.PdfChatClient.SaveKey`, `Backpack.BackpackProvider.Persist`: local-storage reads and writes are assumed not to throw. In the source, `localStorage.setItem` can throw (a full quota, or storage disabled), and nothing catches it. At `src/components/viewer/pdf-chat-client.tsx:64` a throw would skip `setApiKey` and the dialog close, leaving the key unset and the dialog open. At `src/contexts/backpack.tsx:27` it would abort the persist effect. The model's writes always succeed.
- `JsStrings.NumberToString`: matches JavaScript's `toString` only below 10^21 in magnitude. From 10^21 on JavaScript writes exponent form (`"1e+21"`). Semester values are 1 to 8, so the filter is unaffected.
- Non-integral semester numbers: `NumberToString` spells integers only.
- String lengths count Unicode code points, not UTF-16 units. This does not change the min-length-one rule or `trim`.
- `useBackpack` throwing outside a provider (lines 57-63), the JSX of all components, the sidebar, layout, pages, theming and routing: these are UI only.
- The sample document text in `src/components/material-client.tsx`: fixed display text.
