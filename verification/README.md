# Freyja prompt composer and `Session::Ask`, in Dafny

Freyja is a console chat front-end for a llama inference engine. This project models
the two pieces of it that hold logic of their own:

- **`PromptComposer`**. It stores a system text and a user text, each passed through
  `SanitizePrompt`. `SanitizePrompt` deletes six chat-control markers, one marker at a
  time in a fixed order, then trims `isspace` whitespace from both ends. `Build` renders
  the stored text as a ChatML or a Llama-3 prompt that ends with an open assistant
  header.
- **`Session::Ask`**. It runs one question-and-answer turn:
  - it composes and tokenizes the prompt, retrying without special-token parsing when
    the first pass fails, and rejects a bad token count;
  - it clears the engine's memory and decodes the prompt as one batch at positions
    `[0, n)`;
  - it checks shift support and reserves the output;
  - it samples up to `maxNew` tokens one by one. When the cursor reaches the context
    size, it removes the oldest `nCtx - nCtx/2` positions and keeps `nCtx/2`
    (`keep = nCtx / 2`), shifting the kept ones down.

The inference engine is an oracle, the `Session.Engine` record. It fixes, for one turn:

- the count `llama_tokenize` reports for a text and a parse-special flag;
- whether the prompt batch decodes, and whether the single-token decode of loop
  iteration `k` succeeds;
- whether the memory can shift;
- the token sampled in iteration `i`, the end-of-sequence token (`llama_vocab_eos`), and each token's
  text piece.

The engine's KV memory for sequence 0 is the set of occupied positions. That set is
obtained by replaying the trace of engine calls the turn issues (`KvMemory.Occupied`).
The turn returns that trace as a real output.

Modules:

| file | module | contents |
|---|---|---|
| wrappers.dfy | `Wrappers` | `Option`, `Result` |
| text.dfy | `Text` | `isspace`, `find`, trimming, the subsequence relation |
| sanitizer.dfy | `Sanitizer` | `SanitizePrompt` and its properties |
| sanitizer_examples.dfy | `SanitizerExamples` | concrete inputs, including the two splice cases |
| composer.dfy | `Composer` | the composer state, the setters, `Build` and both dialects |
| kv_memory.dfy | `KvMemory` | engine calls, the occupied-position set, memory operations |
| session.dfy | `Session` | the engine oracle, the window arithmetic, the generation loop, `Ask` |

Three behaviours of the code shape the model:

- **Memory is cleared on every turn.** `Ask` calls `llama_memory_clear` (Session.cpp:79)
  and restarts the cursor at the prompt length (Session.cpp:112). So there is no cursor
  carried between turns and no eviction before the prompt is injected. The only eviction
  is the check inside the generation loop (Session.cpp:121). `Session.hpp` declares
  `currentPos_`, but nothing reads or writes it. `KvMemory.ClearForgetsHistory` states
  that nothing issued before a clear affects the memory.
- **Sanitizing is neither idempotent nor marker-free.** Erasing a marker can splice a
  new one together, as the lemmas below show:
  - `<|im_<|im_end|>end|>` sanitizes to `<|im_end|>`;
  - `<|im_st<|im_end|>art|>` sanitizes to `<|im_start|>`;
  - a second pass changes the result of the first.
- **A negative `maxNew` is an error.** `out.reserve(maxNew * 4)` (Session.cpp:111)
  receives a negative value converted to `size_t`. `std::string::reserve` then throws
  `std::length_error`, after the prompt has been decoded. The model returns
  `CapacityError` at that point.

## Model

| member | source | states |
|---|---|---|
| Text.Find | Freyja/PromptComposer.cpp:23 | a found index is at or after the start, the marker occurs there, and no earlier occurrence from the start exists |
| Text.FindNone | Freyja/PromptComposer.cpp:23 | `find` reports `npos` exactly when the marker occurs nowhere at or after the start |
| Text.FindFirst | Freyja/PromptComposer.cpp:23 | the first occurrence at or after the start is what `find` returns |
| Text.LeadingSpaces | Freyja/PromptComposer.cpp:30-31 | the span skipped before the first non-space: all whitespace, and followed by a non-space when shorter than the text |
| Text.TrailingSpaces | Freyja/PromptComposer.cpp:30-34 | the span skipped by the reverse search: all whitespace, and preceded by a non-space when shorter than the text |
| Text.Trim | Freyja/PromptComposer.cpp:29-34 | trimming never lengthens, and a non-empty result neither starts nor ends with whitespace |
| Text.TrimSlice | Freyja/PromptComposer.cpp:29-34 | the trimmed text is one contiguous slice with only whitespace cut around it, and it is empty exactly when the input is blank |
| Text.TrimIsSubseq | Freyja/PromptComposer.cpp:29-34 | trimming only deletes characters |
| Sanitizer.Cut | Freyja/PromptComposer.cpp:25 | `erase(pos, len)` shortens the text by `len`, keeps everything before `pos`, and moves everything after the erased span down to `pos` |
| Sanitizer.EraseFrom | Freyja/PromptComposer.cpp:22-26 | the find-and-erase loop for one marker terminates, never lengthens the text, and leaves the part before the start position alone |
| Sanitizer.EraseFromSubseq | Freyja/PromptComposer.cpp:22-26 | the loop's result is a subsequence of its input |
| Sanitizer.EraseFromUnchanged | Freyja/PromptComposer.cpp:20-26 | the loop leaves the text unchanged exactly when the marker does not occur from the start position on; otherwise every erase shortens it strictly |
| Sanitizer.EraseMarker | Freyja/PromptComposer.cpp:18-27 | one turn of the marker loop, with the empty-marker guard, never lengthens the text |
| Sanitizer.EraseAll | Freyja/PromptComposer.cpp:18-27 | the marker loop over a list never lengthens the text |
| Sanitizer.EraseAllSubseq | Freyja/PromptComposer.cpp:18-27 | the marker loop only deletes characters |
| Sanitizer.EraseAllInOrder | Freyja/PromptComposer.cpp:8-27 | the six markers are erased in the listed order, the document-start marker first and the ChatML turn end last |
| Sanitizer.Sanitize | Freyja/PromptComposer.cpp:3-35 | the empty string is returned unchanged; the result is a subsequence of the input, no longer than it, and a non-empty result neither starts nor ends with whitespace |
| Sanitizer.EraseMarkerAbsent | Freyja/PromptComposer.cpp:22-26 | a marker that does not occur is skipped |
| Sanitizer.AbsentByChar | Freyja/PromptComposer.cpp:23 | a `<`-marker cannot occur when every `<` of the text is followed by a character that differs from the marker's at the same offset |
| Sanitizer.MarkerSkipped | Freyja/PromptComposer.cpp:18-27 | such a marker's loop leaves the text alone |
| Sanitizer.LlamaMarkersSkipped | Freyja/PromptComposer.cpp:10-13 | when every `<` of the text has an `i` two places later, none of the four Llama-3 markers changes it |
| Sanitizer.EraseMarkerAt | Freyja/PromptComposer.cpp:22-26 | with one occurrence after `a` and none restarting from there, the marker loop yields the splice `a + b` |
| Sanitizer.TrimUntouched | Freyja/PromptComposer.cpp:29-34 | text that neither starts nor ends with whitespace is not trimmed |
| Sanitizer.EraseAllAbsent | Freyja/PromptComposer.cpp:18-27 | text holding no marker passes the marker loop unchanged |
| Sanitizer.NoAngleOnlyTrimmed | Freyja/PromptComposer.cpp:18-34 | input without `<` is only trimmed |
| Sanitizer.WhitespaceOnlyBecomesEmpty | Freyja/PromptComposer.cpp:29-34 | whitespace-only input becomes empty |
| SanitizerExamples.WorkedExample | Freyja/PromptComposer.cpp:3-35 | a ChatML system turn holding `system`, a newline and `hi`, between two blanks, sanitizes to that inner text |
| SanitizerExamples.SpliceLeavesMarker | Freyja/PromptComposer.cpp:22-26 | erasing a ChatML turn end that sits inside another one splices that outer one together before the resume position, and it survives |
| SanitizerExamples.SpliceRecreatesEarlierMarker | Freyja/PromptComposer.cpp:18-27 | erasing a ChatML turn end that sits inside a ChatML turn start recreates the turn start, whose loop has already run |
| SanitizerExamples.LoneImEndErasedOn | Freyja/PromptComposer.cpp:3-35 | a lone ChatML turn end sanitizes to the empty string |
| SanitizerExamples.SanitizeNotIdempotent | Freyja/PromptComposer.cpp:3-35 | some input changes again on a second sanitizing pass |
| Composer.SetSystem | Freyja/PromptComposer.hpp:25-30 | stores the sanitized system text and keeps the user text and the format |
| Composer.SetUser | Freyja/PromptComposer.hpp:32-37 | stores the sanitized user text and keeps the system text and the format |
| Composer.NewComposer | Freyja/PromptComposer.hpp:17-23 | the constructor equals an empty composer of the given format on which both setters ran |
| Composer.DefaultFormatIsLlama3 | Freyja/PromptComposer.hpp:17-18 | the default composer is an empty Llama-3 one |
| Composer.SetUserLastWins | Freyja/PromptComposer.hpp:32-37 | a later `SetUser` overrides an earlier one |
| Composer.SettersCommute | Freyja/PromptComposer.hpp:25-37 | the two setters are independent of each other |
| Composer.BuildChatML | Freyja/PromptComposer.hpp:56-67 | the ChatML prompt is the system turn (only for non-empty system text), then the user turn, then the open assistant header |
| Composer.BuildLlama3 | Freyja/PromptComposer.hpp:69-84 | the Llama-3 prompt is the system turn (only for non-empty system text), then the user turn, then the open assistant header, with no document-start marker |
| Composer.RenderConversation | Freyja/PromptComposer.hpp:56-84 | a generic chat template applied to the composer's conversation gives the optional system turn followed by the user turn |
| Composer.Build | Freyja/PromptComposer.hpp:39-45 | Llama-3 renders the Llama-3 layout and every other format the ChatML layout |
| Composer.BuildIsTemplate | Freyja/PromptComposer.hpp:39-84 | the prompt is the chat template of the stored conversation followed by an open assistant header |
| Composer.BuildEndsWithUserThenAssistant | Freyja/PromptComposer.hpp:56-84 | every prompt ends with the user turn followed by the open assistant header |
| Composer.BuildOpensWithFirstHeader | Freyja/PromptComposer.hpp:56-84 | every prompt opens with the header of its first turn |
| Composer.BuildSystemTurnIff | Freyja/PromptComposer.hpp:56-84 | the prompt opens with a system header exactly when the system text is non-empty, and otherwise with the user header |
| Composer.Llama3NoBeginOfText | Freyja/PromptComposer.hpp:69-84 | a Llama-3 prompt opens with the header-start marker, so never with the document-start marker |
| KvMemory.Range | Freyja/Session.cpp:83-90 | a position is in `[lo, hi)` exactly when `lo <= p < hi` |
| KvMemory.RangeSize | Freyja/Session.cpp:121-140 | the window `[lo, hi)` holds `hi - lo` positions |
| KvMemory.WritesFreshAt | Freyja/Session.cpp:138-141 | in a fresh-writing trace, every decode writes inside the window and onto positions free just before it |
| KvMemory.ClearForgetsHistory | Freyja/Session.cpp:79 | after a memory clear, nothing issued before it affects the occupied positions |
| KvMemory.RemoveThenShift | Freyja/Session.cpp:124-125 | the two eviction calls remove `[0, d)` and move the rest down by `d`; they decode nothing, count one removal and keep every write fresh |
| KvMemory.EvictWindow | Freyja/Session.cpp:121-127 | on the full window `[0, hi)`, removing `[0, d)` and shifting down by `d` leaves exactly `[0, hi - d)` |
| KvMemory.ExtendWindow | Freyja/Session.cpp:139-140 | writing position `p` onto `[0, p)` gives `[0, p + 1)` |
| KvMemory.EvictionsAppend | Freyja/Session.cpp:121-127 | evictions of a concatenated trace add up |
| Session.NewSession | Freyja/Session.cpp:6-12 | the session's composer is the sanitizing constructor applied to the system prompt and an empty user text |
| Session.TokenizeCalls | Freyja/Session.cpp:51-67 | tokenizing first parses special tokens; a second call, on the same text with `parse_special` false, is issued exactly when the first count is negative |
| Session.TokenCountOfLastCall | Freyja/Session.cpp:51-67 | the count the turn goes on with is the engine's answer to the last tokenize call, and it is negative exactly when both passes failed |
| Session.FirstEos | Freyja/Session.cpp:115-131 | the loop stops at the first end token below `maxNew`, or at `maxNew` when there is none |
| Session.StopAt | Freyja/Session.cpp:115-131 | a loop that reaches `i` without an earlier end token, and stops there, generated exactly `i` tokens |
| Session.StopAfter | Freyja/Session.cpp:115-131 | a non-ending token sampled below `maxNew` is among the generated ones |
| Session.CleanMeans | Freyja/Session.cpp:129-145 | the first `i` iterations were clean exactly when each sampled a non-end token whose decode succeeded |
| Session.Cursor | Freyja/Session.cpp:112-140 | the cursor at the top of every iteration lies in `[1, nCtx]` |
| Session.Slot | Freyja/Session.cpp:121-140 | every single-token decode writes a position in `[0, nCtx)` |
| Session.Expected | Freyja/Session.cpp:138-141 | the reference single-token batches, one per generated token |
| Session.ExpectedAt | Freyja/Session.cpp:138-141 | the `j`-th single-token decode carries the `j`-th sampled token at its slot, on sequence 0, requesting logits |
| Session.CursorBeforeFull | Freyja/Session.cpp:112-140 | until the window fills, decodes use consecutive positions after the prompt |
| Session.SlotClosedForm | Freyja/Session.cpp:112-140 | the slot of token `k` is `n + k` until the window fills, then `keep + (n + k - nCtx) mod (nCtx - keep)` |
| Session.SlotAfterFull | Freyja/Session.cpp:121-127 | once the window has filled, new tokens never land in the kept half `[0, keep)` |
| Session.SlotPeriodic | Freyja/Session.cpp:121-140 | once the window has filled, slots repeat with period `nCtx - keep` |
| Session.SlotExample | Freyja/Session.cpp:112-140 | with a 10-token prompt in 16 positions, tokens go to 10..15, then 8, 9, 10, ... |
| Session.PromptBatch | Freyja/Session.cpp:82-90 | the prompt batch puts token `i` at position `i` on sequence 0, with logits for the last token only |
| Session.PromptBatchPositions | Freyja/Session.cpp:82-90 | the prompt batch writes exactly `[0, n)` |
| Session.AfterPromptBatch | Freyja/Session.cpp:77-98 | after the clear and the prompt batch, the memory holds exactly `[0, n)`, whatever came before, and no eviction was added |
| Session.EvictOccupied | Freyja/Session.cpp:121-127 | an eviction on the full window leaves exactly `[0, keep)` and keeps every write fresh |
| Session.EvictObservers | Freyja/Session.cpp:123-125 | an eviction decodes nothing and counts once |
| Session.CheckWindow | Freyja/Session.cpp:120-127 | evicts exactly when the cursor has reached `nCtx`, leaving the cursor on the slot of the coming token and the memory equal to `[0, slot)` |
| Session.DecodeToken | Freyja/Session.cpp:138-141 | a single-token decode on `[0, pos)` at `pos` yields `[0, pos + 1)` and writes a free position |
| Session.Emit | Freyja/Session.cpp:129-145 | the end token stops the loop without appending; otherwise the piece is appended and decoded at the slot; a failed decode is reported |
| Session.Finished | Freyja/Session.cpp:115-131 | a loop leaving cleanly at `i` generated `i` tokens, all decoded |
| Session.Aborted | Freyja/Session.cpp:141-145 | a failed decode happens below the stop, so not every generated token decoded |
| Session.GenerateLoop | Freyja/Session.cpp:110-146 | the loop keeps the memory equal to `[0, cursor)` with the cursor at most `nCtx`, writes only fresh positions inside the window, and leaves on budget, end token or decode failure |
| Session.Generate | Freyja/Session.cpp:110-150 | succeeds exactly when every generated token decoded, returning their pieces, the final window and the decode sequence; evicts exactly when the prompt and the iterations entered exceed `nCtx` |
| Session.Prepare | Freyja/Session.cpp:46-67 | the tokenize calls and the count the turn goes on with; no memory is touched |
| Session.Run | Freyja/Session.cpp:76-150 | clear, then the prompt batch, then the error cascade (prompt decode, shift support, negative budget), then generation; success exactly when all of these pass |
| Session.Turn | Freyja/Session.cpp:46-150 | an invalid count fails before any memory call; otherwise the clear and the prompt batch follow, then the outcome and the final window as in `Run` |
| Session.Ask | Freyja/Session.cpp:34-151 | the composer keeps the new sanitized user message, the built prompt is tokenized first, a reply is the generated text, at most `nCtx` positions are occupied, and every decode wrote a fresh in-window position |

## Left out

- Loading the model, context and sampler (Freyja/Init.hpp, Session.cpp:17-31), the destructor (Session.cpp:153-176), the console program (Freyja/Freyja.cpp) and all logging: resource plumbing and I/O with no logic of their own.
- The inference engine itself: tokenization, sampling, logits and decoding are the fields of the `Session.Engine` oracle. A sampled token depends only on the iteration number within the turn.
- Prompt token ids: a prompt batch entry carries the token's index in the tokenized prompt, not its id.
- The fixed buffers. `buf[4096]` (Session.cpp:50) is folded into the tokenize oracle, whose count is negative when the buffer is too small. `piece[256]` (Session.cpp:134) is folded into the piece oracle, which returns a string.
- The unchecked negative length `llama_token_to_piece` can return (Session.cpp:135-136) is not modelled: a piece is always a string.
- Strings are read as bytes: a Dafny `string` stands for the bytes of the `std::string`, one `char` per byte. `isspace` is applied per `unsigned char` (PromptComposer.cpp:30) and `find`/`erase` work on bytes; since every marker and every whitespace character is ASCII, the model is exact under that reading. `isspace` is taken in the "C" locale (its six characters).
- The `static_cast<int32_t>` of the prompt length (Session.cpp:46) is not modelled: a prompt longer than `INT32_MAX` bytes, whose length would wrap, is outside the model; the tokenize oracle takes the whole string.
- `int` overflow of `maxNew * 4` (Session.cpp:111) is not modelled; only a negative `maxNew` is.
- Freeing the batches (Session.cpp:95, 98, 143, 148): memory management with no effect on the result.
- `Session.hpp`'s `currentPos_` is declared but never used, so there is no state carried between turns.
- Session.Ask: states the turn's outcome only in summary; the full error cascade, call order and final window are on Session.Turn, which `Ask` runs on the built prompt.
- Sanitizer.Sanitize: does not claim that the result is marker-free or that sanitizing is idempotent, because the code guarantees neither (see the SanitizerExamples rows).
