# sc4-query-ui-hooks, modelled in Dafny

sc4-query-ui-hooks is a plug-in for SimCity 4. It intercepts the game's
query tool and lets other plug-ins subscribe to it:

- Before and after a building query dialog is shown, every dialog
  subscriber is notified.
- When the tooltip of a building, network, flora or prop occupant is built,
  the first custom-tooltip subscriber that accepts it replaces the game's
  tooltip. Append-text subscribers then add lines of their own.
- A Shift-click on a lot or flora copies it.
- Holding Control or Alt changes the terrain query text.

The plug-in also provides the subscribers of its own:

- a data provider that resolves `#token#` variables in query dialogs
  through the game's string detokenizer, and its older director form;
- debug tooltip handlers for networks, flora and props.

This project models that core. Each part keeps the form of its source:

- Hook servers, handlers and directors are classes. Their subscriber sets,
  reference counts and cached pointers are fields that methods update,
  under `modifies` clauses.
- Dispatch loops are methods with loop invariants. Each is proved against
  a specification function.
- The token callbacks, the property look-ups and the string utilities are
  functions and lemmas.
- The game itself is not modelled. Its functions are recorded as events
  in a trace (`ShimTrace`), and its services are oracles passed in as
  parameters: number formatting, localised strings, the simulators, the
  style DLL and COM class objects.
- Process memory is a byte map. Installing a hook writes a CALL rel32
  instruction into it, as described under "CALL—Call Procedure" in the
  Intel 64 and IA-32 Architectures Software Developer's Manual, Volume 2A.

Modules, one per file:

| module | models |
|---|---|
| `Types`, `Wrappers`, `SeqUtil`, `Printf` | fixed-width integers, `Option`/`Result`, sequence lemmas, `%u`/`%x`/`%08x` rendering |
| `GZCom`, `ComBase` | pointers, interface IDs, the saturating reference count of the two base classes |
| `Registry`, `HookDispatch` | `unordered_set` add/remove, first-responder and broadcast dispatch over an arbitrary but fixed iteration order |
| `BuildingHookServer`, `ToolTipHookServers` | the four hook servers |
| `StringViewUtil`, `GZStringUtil` | `TryParse`, `RemoveLeft`, `Split`, the case-insensitive comparisons; `AppendLine` and friends on a mutable `GZString` |
| `Patcher` | `InstallCallHook` on a byte map |
| `ShimTrace`, `BuildingQueryHooks`, `ToolTipQueryHooks`, `TerrainQueryHooks` | the interception shims |
| `PropertyUtil`, `OccupantUtil`, `AvailableBuildingStyles`, `ClickToCopyOccupantFilter` | the display-name chain, the style map, the copy filter |
| `NetworkToolTipHandler`, `FloraToolTipHandler`, `PropToolTipHandler`, `QueryToolTipProvider` | the debug tooltip handlers and their provider |
| `HostData`, `TokenEngine`, `StringDetokenizer`, `QueryVariablesProvider`, `QueryVariablesDirector` | typed property reads, the shared token helpers, the detokenizer's registration trace, the 53-token data provider and the 30-token director |

## Model

| member | source | states |
|---|---|---|
| `GZCom.Incremented` | src/data-providers/DataProviderBase.cpp:37-40 | `++refCount` on a uint32: one more below the maximum, wrapping to 0 at 0xFFFFFFFF |
| `GZCom.Decremented` | src/data-providers/DataProviderBase.cpp:42-50 | the saturating decrement: never below the old count, equal to it exactly when the count is 0, otherwise one less |
| `GZCom.ReleaseUndoesAddRef` | src/data-providers/query-tooltip-handlers/QueryToolTipHandlerBase.cpp:41-54 | a Release undoes an AddRef short of the wrap-around, and a Release at 0 leaves 0 |
| `ComBase.UnknownBase.constructor` | src/data-providers/DataProviderBase.cpp:60-62 | the reference count starts at 0 (QueryToolTipHandlerBase.cpp:23-26 is the same) |
| `ComBase.UnknownBase.QueryInterface` | src/data-providers/DataProviderBase.cpp:24-35 | succeeds exactly for the unknown-interface IID, answering `this` with one more reference; any other IID returns false, leaves the out pointer as the caller passed it and the count unchanged |
| `ComBase.UnknownBase.AddRef` | src/data-providers/query-tooltip-handlers/QueryToolTipHandlerBase.cpp:41-44 | the count is incremented and the new count returned |
| `ComBase.UnknownBase.Release` | src/data-providers/query-tooltip-handlers/QueryToolTipHandlerBase.cpp:46-54 | the count drops by one only when positive and is returned; nothing is destroyed |
| `ComBase.UnknownBase.PostAppInit` | src/data-providers/DataProviderBase.cpp:52-54 | the default changes nothing |
| `ComBase.UnknownBase.PreAppShutdown` | src/data-providers/query-tooltip-handlers/QueryToolTipHandlerBase.cpp:19-21 | the default changes nothing |
| `Registry.Added` | src/BuildingQueryHookServer.cpp:173-183 | the set after AddNotification: the target is in it unless null, every other pointer keeps its membership, a null target changes nothing |
| `Registry.Removed` | src/BuildingQueryHookServer.cpp:185-195 | the set after RemoveNotification: the target is absent, every other pointer keeps its membership, a null target changes nothing |
| `Registry.AddChangesIffReported` | src/BuildingQueryHookServer.cpp:179 | an add that reports true grows the set by exactly one; one that reports false leaves it unchanged |
| `Registry.RemoveChangesIffReported` | src/BuildingQueryHookServer.cpp:191 | a remove that reports true shrinks the set by exactly one; one that reports false leaves it unchanged |
| `Registry.SecondCallChangesNothing` | src/BuildingQueryHookServer.cpp:197-219 | a second add of the same target reports false and leaves the set as the first add left it; the same for a second remove |
| `Registry.RemoveUndoesAdd` | src/BuildingQueryHookServer.cpp:221-243 | removing a target that an add just inserted reports true and restores the original set |
| `Registry.NeverStoresNull` | src/FloraQueryToolTipHookServer.cpp:135-181 | neither add nor remove can put the null pointer into a set |
| `Registry.EnumerationEmpty` | src/BuildingQueryHookServer.cpp:46-47 | an iteration order is empty exactly when its set is, so the `size() > 0` guards change nothing |
| `HookDispatch.FirstResponder` | src/BuildingQueryHookServer.cpp:92-119 | first-responder dispatch: never visits more entries than the order has; when handled, the last visited entry is non-null and its subscriber returned true on the values the earlier ones left, and every non-null subscriber before it declined on the values it was handed; when not handled, every entry was visited and every non-null subscriber declined |
| `HookDispatch.FirstResponderStep` | src/BuildingQueryHookServer.cpp:97-116 | one loop step: a null entry is skipped, a subscriber returning true ends the dispatch, otherwise it continues with the next entry and the values this one left |
| `HookDispatch.DispatchFirstResponder` | src/BuildingQueryHookServer.cpp:92-119 | the loop with `break` returns exactly the handled flag and the final by-reference values of `FirstResponder` |
| `HookDispatch.FirstResponderFindsFirst` | src/BuildingQueryHookServer.h:40-51 | when a subscriber's answer does not depend on what earlier ones wrote, the dispatch is handled iff some non-null subscriber accepts, and no subscriber before the one that handled it accepts |
| `HookDispatch.FirstResponderIgnoresRest` | src/BuildingQueryHookServer.cpp:112-113 | after the subscriber that handled the tooltip, whatever follows in the order is never consulted: replacing it leaves the outcome unchanged |
| `HookDispatch.NonNull` | src/BuildingQueryHookServer.cpp:51-56 | the entries a broadcast calls: no longer than the order, and holding exactly its non-null entries |
| `HookDispatch.NonNullSplit` | src/BuildingQueryHookServer.cpp:49-57 | the called entries of a concatenation are those of each part, in order |
| `HookDispatch.NonNullOfNoNulls` | src/BuildingQueryHookServer.cpp:49-57 | without null entries a broadcast calls every entry, in order |
| `HookDispatch.BroadcastCallsEachOnce` | src/BuildingQueryHookServer.cpp:44-76 | over an iteration order of a null-free set, a broadcast calls each subscriber exactly once and nothing else |
| `HookDispatch.DistinctCount` | src/BuildingQueryHookServer.h:89-91 | in an order without repeats, each pointer occurs once if present and otherwise not at all |
| `HookDispatch.Broadcast` | src/BuildingQueryHookServer.cpp:49-57 | the broadcast loop notifies exactly the non-null entries of the order, in order, with no early exit |
| `HookDispatch.AppendedTextSplit` | src/BuildingQueryHookServer.cpp:132-148 | the text appended for a concatenated order is the text for each part, in order |
| `HookDispatch.AppendedTextIsLines` | src/BuildingQueryHookServer.cpp:140-146 | the appended text is empty or ends with a newline, and is empty when every subscriber returns false |
| `HookDispatch.AppendBroadcast` | src/BuildingQueryHookServer.cpp:132-148 | the append loop leaves the destination as its old value followed by each true subscriber's text as a newline-terminated line, in order; false results add nothing |
| `BuildingHookServer.BuildingQueryHookServer.constructor` | src/BuildingQueryHookServer.cpp:20-23 | a new server has count 0 and three empty, null-free subscriber sets |
| `BuildingHookServer.BuildingQueryHookServer.QueryInterface` | src/BuildingQueryHookServer.cpp:25-42 | succeeds exactly for the server IID or the unknown-interface IID, answering `this` with one more reference; otherwise writes a null out pointer, returns false and keeps the count; the sets never change |
| `BuildingHookServer.BuildingQueryHookServer.AddRef` | src/BuildingQueryHookServer.cpp:152-155 | increments the count and returns the new value |
| `BuildingHookServer.BuildingQueryHookServer.Release` | src/BuildingQueryHookServer.cpp:157-171 | decrements only when positive and returns the count; the singleton is never destroyed |
| `BuildingHookServer.BuildingQueryHookServer.AddDialogNotification` | src/BuildingQueryHookServer.cpp:173-183 | returns true iff the target is non-null and was absent; the dialog set becomes `Added(old, target)`; only the dialog set may change; preserves the invariant that no set holds the null pointer |
| `BuildingHookServer.BuildingQueryHookServer.RemoveDialogNotification` | src/BuildingQueryHookServer.cpp:185-195 | returns true iff the target is non-null and was present; the dialog set becomes `Removed(old, target)`; only the dialog set may change; preserves the invariant that no set holds the null pointer |
| `BuildingHookServer.BuildingQueryHookServer.AddCustomToolTipNotification` | src/BuildingQueryHookServer.cpp:197-207 | as for the dialog family, on the custom-tooltip set only; preserves the invariant that no set holds the null pointer |
| `BuildingHookServer.BuildingQueryHookServer.RemoveCustomToolTipNotification` | src/BuildingQueryHookServer.cpp:209-219 | as for the dialog family, on the custom-tooltip set only; preserves the invariant that no set holds the null pointer |
| `BuildingHookServer.BuildingQueryHookServer.AddAppendToolTipNotification` | src/BuildingQueryHookServer.cpp:221-231 | as for the dialog family, on the append-text set only; preserves the invariant that no set holds the null pointer |
| `BuildingHookServer.BuildingQueryHookServer.RemoveAppendToolTipNotification` | src/BuildingQueryHookServer.cpp:233-243 | as for the dialog family, on the append-text set only; preserves the invariant that no set holds the null pointer |
| `BuildingHookServer.BuildingQueryHookServer.HasCustomToolTipSubscribers` | src/BuildingQueryHookServer.cpp:78-81 | true iff the custom-tooltip set has a member |
| `BuildingHookServer.BuildingQueryHookServer.HasAppendToolTipSubscribers` | src/BuildingQueryHookServer.cpp:122-125 | true iff the append-text set has a member |
| `BuildingHookServer.BuildingQueryHookServer.SendDialogNotifications` | src/BuildingQueryHookServer.cpp:44-76 | the shared broadcast of the two dialog notifications calls exactly the non-null entries of the order, so each dialog subscriber exactly once |
| `BuildingHookServer.BuildingQueryHookServer.SendBeforeQueryDialogNotifications` | src/BuildingQueryHookServer.cpp:44-59 | BeforeDialogShown reaches exactly the non-null entries of the iteration order, so each dialog subscriber exactly once |
| `BuildingHookServer.BuildingQueryHookServer.SendAfterQueryDialogNotifications` | src/BuildingQueryHookServer.cpp:61-76 | AfterDialogShown reaches each dialog subscriber exactly once, with no early exit |
| `BuildingHookServer.BuildingQueryHookServer.SendCustomToolTipMessage` | src/BuildingQueryHookServer.cpp:83-120 | the handled flag and the final title, text, image IDs and meter are those of the first-responder dispatch over the custom set; an empty set returns false and calls nobody |
| `BuildingHookServer.BuildingQueryHookServer.SendAppendToolTipMessage` | src/BuildingQueryHookServer.cpp:127-150 | appends each true append subscriber's text as a line, but only when the CUSTOM-tooltip set is non-empty; otherwise the destination is unchanged |
| `ToolTipHookServers.ServerIID` | src/FloraQueryToolTipHookServer.cpp:33-50 | each kind's server interface is distinct from the unknown interface |
| `ToolTipHookServers.ServerIIDsDistinct` | src/NetworkQueryToolTipHookServer.cpp:24-41 | no server answers another kind's interface |
| `ToolTipHookServers.QueryToolTipHookServer.constructor` | src/FloraQueryToolTipHookServer.cpp:28-31 | count 0 and two empty subscriber sets (the network and prop servers at line 19 likewise) |
| `ToolTipHookServers.QueryToolTipHookServer.QueryInterface` | src/PropQueryToolTipHookServer.cpp:24-41 | only this kind's server IID and the unknown IID succeed, with one more reference; otherwise a null out pointer, false and no AddRef |
| `ToolTipHookServers.QueryToolTipHookServer.AddRef` | src/FloraQueryToolTipHookServer.cpp:52-55 | returns the incremented count |
| `ToolTipHookServers.QueryToolTipHookServer.Release` | src/NetworkQueryToolTipHookServer.cpp:48-56 | the count never drops below 0 |
| `ToolTipHookServers.QueryToolTipHookServer.HasCustomToolTipSubscribers` | src/FloraQueryToolTipHookServer.cpp:67-70 | true iff the custom set is non-empty |
| `ToolTipHookServers.QueryToolTipHookServer.HasAppendToolTipSubscribers` | src/PropQueryToolTipHookServer.cpp:96-99 | true iff the append set is non-empty |
| `ToolTipHookServers.QueryToolTipHookServer.SendCustomToolTipMessage` | src/NetworkQueryToolTipHookServer.cpp:63-94 | handled flag, title and text are those of the first-responder dispatch, stopping at the first subscriber returning true |
| `ToolTipHookServers.QueryToolTipHookServer.SendAppendToolTipMessage` | src/FloraQueryToolTipHookServer.cpp:110-133 | gated on the custom set being non-empty; otherwise appends each true result as a newline-terminated line |
| `ToolTipHookServers.QueryToolTipHookServer.AddCustomToolTipNotification` | src/FloraQueryToolTipHookServer.cpp:135-145 | true iff non-null and newly inserted; only the custom set changes (network/prop at lines 126-136); preserves the invariant that no set holds the null pointer |
| `ToolTipHookServers.QueryToolTipHookServer.RemoveCustomToolTipNotification` | src/NetworkQueryToolTipHookServer.cpp:138-148 | true iff non-null and erased; only the custom set changes; preserves the invariant that no set holds the null pointer |
| `ToolTipHookServers.QueryToolTipHookServer.AddAppendToolTipNotification` | src/PropQueryToolTipHookServer.cpp:150-160 | true iff non-null and newly inserted; only the append set changes; preserves the invariant that no set holds the null pointer |
| `ToolTipHookServers.QueryToolTipHookServer.RemoveAppendToolTipNotification` | src/FloraQueryToolTipHookServer.cpp:171-181 | true iff non-null and erased; only the append set changes; preserves the invariant that no set holds the null pointer |
| `GZStringUtil.Terminated` | src/GZStringUtil.cpp:49-57 | what AppendLine adds always ends with a newline, keeps the line as its prefix, is at most one character longer, and equals the line exactly when the line already ends with `'\n'` |
| `GZStringUtil.TerminatedEmptyAndIdempotent` | src/GZStringUtil.cpp:53-56 | an empty line adds exactly `"\n"`, and terminating an already terminated line changes nothing |
| `GZStringUtil.EndsWithNewLineDoubled` | src/GZStringUtil.cpp:59-67 | a string appended to itself ends with a newline exactly when the original does, so testing after the append is alias-safe |
| `GZStringUtil.AppendLine` | src/GZStringUtil.cpp:49-57 | the destination becomes its old value followed by the line and, unless the line ends with `'\n'`, one newline |
| `GZStringUtil.AppendLineFrom` | src/GZStringUtil.cpp:32-46 | the cIGZString overload appends the same `Terminated` text, judged by `EndsWithNewLine` (false for an empty string), even when the line is the destination itself (lines 59-67) |
| `GZStringUtil.CString` | src/GZStringUtil.cpp:91-101 | a formatted buffer read back as `const char*`: a NUL-free prefix of the buffer that stops exactly at the first NUL |
| `GZStringUtil.FormattedLine` | src/GZStringUtil.cpp:77-81 | empty exactly when formatting failed or produced no characters; otherwise the formatted text up to its first NUL as one terminated line |
| `GZStringUtil.CStringOfPlain` | src/GZStringUtil.cpp:93-101 | a buffer without NUL reads back whole |
| `GZStringUtil.PlainLine` | src/GZStringUtil.cpp:81-102 | a non-empty NUL-free formatted text is appended as one terminated line |
| `GZStringUtil.LineFeedAdded` | src/GZStringUtil.cpp:53-56 | a line not ending in `'\n'` gets exactly one |
| `GZStringUtil.EndsWithLineFeed` | src/GZStringUtil.cpp:53 | a line already ending in `'\n'` is appended unchanged |
| `GZStringUtil.PlainTail` | src/GZStringUtil.cpp:81-102 | a NUL-free formatted text whose last part has no NUL or newline is appended whole plus one `"\n"` |
| `GZStringUtil.PlainConcat` | src/GZStringUtil.cpp:91-101 | two NUL-free texts concatenate to a NUL-free text |
| `GZStringUtil.AppendLineFormatted` | src/GZStringUtil.cpp:69-106 | the destination gains exactly `FormattedLine` of the formatting result: nothing when the length is <= 0 |
| `GZStringUtil.FormattedLeadingNul` | src/GZStringUtil.cpp:97-101 | a formatted text starting with NUL still adds a bare `"\n"` |
| `GZStringUtil.SetLocalizedStringValue` | src/GZStringUtil.cpp:108-126 | returns true iff the lookup succeeds; then the destination is replaced by the localized text; on failure it is unchanged |
| `StringViewUtil.IEquals` | src/StringViewUtil.cpp:29 | the `iequals` walk is true iff both strings have the same length and agree character by character after ASCII case folding |
| `StringViewUtil.IStartsWith` | src/StringViewUtil.cpp:35 | the `istarts_with` walk is true iff the test is no longer than the input and matches its front ignoring case |
| `StringViewUtil.EqualsIgnoreCase` | src/StringViewUtil.cpp:26-30 | true iff the lengths are equal and the strings match ignoring case |
| `StringViewUtil.StartsWithIgnoreCase` | src/StringViewUtil.cpp:32-36 | true iff lhs is at least as long as rhs and its first `|rhs|` characters match rhs ignoring case |
| `StringViewUtil.RemoveLeft` | src/StringViewUtil.cpp:114-124 | the result is `input[n..]` when the input is longer than `n` (the dropped prefix followed by the result gives back the input), and empty otherwise |
| `StringViewUtil.RemoveLeftOfConcat` | src/StringViewUtil.h:41-48 | removing a prefix by its length gives back exactly what followed it |
| `StringViewUtil.DigitValue` | src/StringViewUtil.cpp:173 | the digit value `from_chars` gives a character lies in -1..35 (-1 for a non-digit) |
| `StringViewUtil.TryParseUInt32` | src/StringViewUtil.cpp:160-182 | on failure the out value is 0; success is impossible for the empty input and a bare `"0x"`/`"0X"` |
| `StringViewUtil.TryParseInt32` | src/StringViewUtil.cpp:136-158 | the `long` overload (32-bit): on failure the out value is 0; the empty input and a bare `"0x"` fail |
| `StringViewUtil.DigitCharValue` | src/StringViewUtil.cpp:173 | the parser reads each digit printf writes back as its value |
| `StringViewUtil.AppendDigit` | src/StringViewUtil.cpp:173 | one more digit multiplies the value by the base and adds the digit |
| `StringViewUtil.NumeralDigits` | src/StringViewUtil.cpp:173 | every numeral printf writes in base 2..16 is all digits and reads back as its value |
| `StringViewUtil.NumeralDigitsStep` | src/StringViewUtil.cpp:173 | the inductive step of the numeral read-back |
| `StringViewUtil.DivMod` | src/StringViewUtil.cpp:173 | quotient times base plus remainder gives back the number |
| `StringViewUtil.DecimalHasNoHexPrefix` | src/StringViewUtil.cpp:166-171 | a decimal numeral never starts with `"0x"` in either case, so it is parsed in base 10 |
| `StringViewUtil.ParseDecimalRoundTrip` | src/StringViewUtil.cpp:160-182 | every uint32 written with `%u` parses back to itself |
| `StringViewUtil.ParseHexRoundTrip` | src/StringViewUtil.cpp:166-171 | every uint32 written as `0x`/`0X` plus hex digits parses back to itself in base 16 |
| `StringViewUtil.ParseDecimalOverflow` | src/StringViewUtil.cpp:175-181 | a decimal numeral of 2^32 or more fails, with out value 0 |
| `StringViewUtil.ParseSignedRoundTrip` | src/StringViewUtil.cpp:136-158 | every int32 written with `%d` parses back to itself through the `long` overload |
| `StringViewUtil.ParseAcceptsExamples` | src/StringViewUtil.cpp:142-153 | `"42"` and `"0x2A"` both parse to 42 |
| `StringViewUtil.ParseRejectsExamples` | src/StringViewUtil.cpp:175-181 | `"12abc"`, `""`, `"0x"` and `"-1"` fail with out value 0 |
| `StringViewUtil.ParseSignedExamples` | src/StringViewUtil.cpp:142-153 | the `long` overload reads `"-1"` as -1 and `"0x-5"` as -5 |
| `StringViewUtil.FindFrom` | src/StringViewUtil.cpp:67-70 | the inner scan ends between its start and the end of the input |
| `StringViewUtil.FindFromSpec` | src/StringViewUtil.cpp:100-103 | the scan stops at the first occurrence of the character, or at the end when there is none |
| `StringViewUtil.FindFromIs` | src/StringViewUtil.cpp:85-88 | any index before which the character does not occur and at which it occurs (or the input ends) is the scan's answer |
| `StringViewUtil.FindFromShift` | src/StringViewUtil.cpp:100-103 | scanning the tail of a string is scanning the whole string shifted by the tail's offset |
| `StringViewUtil.PieceEnd` | src/StringViewUtil.cpp:62-105 | a turn opened by a quote ends after the quote; any other turn ends at or after its start; both within the input |
| `StringViewUtil.NextTurn` | src/StringViewUtil.cpp:78-110 | the next turn starts strictly later, at most two past the end |
| `StringViewUtil.ScanTo` | src/StringViewUtil.cpp:100-103 | the scanning loop stops at `FindFrom` |
| `StringViewUtil.Split` | src/StringViewUtil.cpp:38-112 | the results become their old elements followed by `Pieces(input, delim)`: one piece per loop turn, quoted pieces without their quotes and running to the closing quote or the end, the character after a closing quote skipped, empty pieces not pushed |
| `StringViewUtil.SplitTurn` | src/StringViewUtil.cpp:62-105 | the piece one turn reads and the index where the next turn starts are those `PieceAt` and `NextTurn` name |
| `StringViewUtil.SplitStep` | src/StringViewUtil.cpp:107-110 | one turn keeps the loop invariant: the pieces pushed so far followed by those still to come are all of them |
| `StringViewUtil.ShiftPiece` | src/StringViewUtil.cpp:67-70 | the piece a scan reads is the same in a tail and in the whole string |
| `StringViewUtil.Unfold` | src/StringViewUtil.cpp:50-111 | the pieces from a turn are the piece it reads, if non-empty, then the pieces from the next turn |
| `StringViewUtil.TurnShift` | src/StringViewUtil.cpp:50-105 | a turn reads the same piece and ends at the same place in a tail and in the whole string |
| `StringViewUtil.UnfoldWith` | src/StringViewUtil.cpp:107-110 | the unfolding of one turn, with its piece named |
| `StringViewUtil.UnfoldShifted` | src/StringViewUtil.cpp:50-105 | the unfolding of a turn inside a tail, seen from the whole string |
| `StringViewUtil.PiecesShift` | src/StringViewUtil.cpp:50-111 | splitting from an offset is splitting the remaining tail |
| `StringViewUtil.PiecesNonEmpty` | src/StringViewUtil.cpp:107-110 | Split pushes only non-empty pieces |
| `StringViewUtil.UnquotedPiecesExcludeDelimiter` | src/StringViewUtil.cpp:98-105 | without quote characters in the input, no piece contains the delimiter |
| `StringViewUtil.SinglePiece` | src/StringViewUtil.cpp:98-110 | a non-empty input with no delimiter and no leading quote yields exactly one piece, the input itself |
| `StringViewUtil.QuotedPiece` | src/StringViewUtil.cpp:62-97 | a quoted piece may hold the delimiter, excludes both quotes, and the character right after the closing quote is skipped |
| `StringViewUtil.UnterminatedQuote` | src/StringViewUtil.cpp:67-78 | an unterminated quote runs to the end of the input |
| `StringViewUtil.SplitJoinRoundTrip` | src/StringViewUtil.cpp:38-112 | splitting undoes joining with the delimiter, for non-empty pieces without the delimiter and without a leading quote |
| `StringViewUtil.DelimitedHead` | src/StringViewUtil.cpp:98-110 | a plain piece followed by the delimiter is read as that piece, and reading resumes after the delimiter |
| `Patcher.CallDisplacement` | src/Patcher.cpp:29 | the displacement written is `(pfnFunc - address - 5) mod 2^32`, so `address + 5 + displacement` is `pfnFunc` modulo 2^32 |
| `Patcher.CallDisplacementUnique` | src/Patcher.cpp:29 | encoding and decoding are inverse: a CALL at the address reaches the target exactly when its displacement is the one written |
| `Patcher.ModularCancel` | src/Patcher.cpp:29 | two 32-bit displacements that reach the same address modulo 2^32 are equal |
| `Patcher.LittleEndian32` | src/Patcher.cpp:29 | a uint32 store writes exactly four bytes |
| `Patcher.LittleEndianRoundTrip` | src/Patcher.cpp:29 | reading back the four stored bytes gives the stored value |
| `Patcher.FromLittleEndianRoundTrip` | src/Patcher.cpp:29 | storing the value read from four bytes writes the same four bytes |
| `Patcher.OffsetsDistinct` | src/Patcher.cpp:28-29 | the five addresses of the instruction are distinct even across the 2^32 wrap, so no store overwrites another |
| `Patcher.OffsetStep` | src/Patcher.cpp:29 | address + 1 + k is address + (k + 1) modulo 2^32 |
| `Patcher.PatchedIsCall` | src/Patcher.cpp:28-29 | the patched bytes decode as opcode 0xE8 whose rel32 operand calls exactly `pfnFunc` |
| `Patcher.PatchedFrame` | src/Patcher.cpp:21-29 | every address outside `[address, address+5)` keeps its presence and its byte |
| `Patcher.InstallAll` | src/BuildingQueryHooks.cpp:514-524 | a sequence of InstallCallHook calls throws exactly when some site's protection change fails |
| `Patcher.InstallAllFrame` | src/BuildingQueryHooks.cpp:514-524 | bytes outside every patched site are left as they were |
| `Patcher.DecodeCallFrame` | src/Patcher.cpp:28-29 | decoding a CALL reads only its five bytes |
| `Patcher.InstallAllDecodes` | src/BuildingQueryHooks.cpp:514-524 | with every protection change succeeding and non-overlapping sites, each site ends up calling its own hook |
| `Patcher.ProcessMemory.WriteByte` | src/Patcher.cpp:28 | a byte store changes exactly that address |
| `Patcher.ProcessMemory.WriteUInt32` | src/Patcher.cpp:29 | a uintptr_t store writes the little-endian bytes of the value at address..address+3 |
| `Patcher.ProcessMemory.InstallCallHook` | src/Patcher.cpp:17-30 | throws iff the protection change fails, and then no byte is written; otherwise the memory becomes `Patched`: 0xE8 at the address and the displacement in the next four bytes, nothing else |
| `ShimTrace.Trace.constructor` | src/BuildingQueryHooks.cpp:54-75 | a trace starts empty |
| `ShimTrace.Trace.Record` | src/BuildingQueryHooks.cpp:67 | recording appends exactly one call |
| `ShimTrace.Occurrences` | src/BuildingQueryHooks.cpp:67 | a count of calls, at most the trace's length and 0 exactly when the call is absent |
| `ShimTrace.CustomToolTipStep` | src/BuildingQueryHooks.cpp:87-113 | without a dispatch the tooltip is unhandled and unchanged; a handled tooltip needs a dispatch and a non-null subscriber in the order |
| `BuildingQueryHooks.HookedDoQueryDialog` | src/BuildingQueryHooks.cpp:54-75 | returns the game dialog's result; the trace gains the before notifications, the game dialog, then the after notifications, or only the game dialog when there is no server |
| `BuildingQueryHooks.DialogRunsOnceBetweenNotifications` | src/BuildingQueryHooks.cpp:60-74 | the game's dialog runs exactly once, in second place between the before and after notifications when there is a server, and alone when there is none |
| `BuildingQueryHooks.SetCustomToolTip` | src/BuildingQueryHooks.cpp:87-113 | returns false and leaves the tooltip unchanged without dispatching when the server is null or has no custom subscribers; otherwise returns exactly what the server's first-responder dispatch returns, with the values it left |
| `BuildingQueryHooks.SetAppendedToolTipText` | src/BuildingQueryHooks.cpp:115-127 | the text grows only when the server exists and has append subscribers (and, through the server, custom subscribers), by the appended lines |
| `BuildingQueryHooks.HookedGetBuildingOccupantTipInfo` | src/BuildingQueryHooks.cpp:133-147 | a handled custom tooltip is final: the game function is not called and nothing is appended; otherwise the game function runs once on the values the subscribers left and the append step extends its text |
| `BuildingQueryHooks.AppendNeedsCustomSubscriber` | src/BuildingQueryHookServer.cpp:129-130 | as written, while the server has no custom-tooltip subscriber no append subscriber ever extends a building tooltip |
| `BuildingQueryHooks.CopyLot` | src/BuildingQueryHooks.cpp:250-288 | succeeds iff the lot exemplar ID is non-zero, the window manager exists and the place-lot control is created; then that lot is installed for placement, otherwise nothing is |
| `BuildingQueryHooks.CopyFloraOccupant` | src/BuildingQueryHooks.cpp:290-311 | a flora control is installed iff the type is neither 0 nor dead flora 0x29CFF3CB and the control is created; the result is what the 3D view answers |
| `BuildingQueryHooks.ProcessQueryToolClick` | src/BuildingQueryHooks.cpp:426-469 | copies only when `(modifiers & 7) == Shift` and the app and 3D view exist; a lot copy uses the lot under the cursor, a flora copy happens only when there is no lot; a true result always comes with a copy |
| `BuildingQueryHooks.ShiftOnlyModifier` | src/BuildingQueryHooks.cpp:418-432 | the modifier test accepts exactly Shift held with neither Control nor Alt; other flag bits are ignored |
| `BuildingQueryHooks.LotTakesPriority` | src/BuildingQueryHooks.cpp:451-462 | with a lot configuration under the cursor, the outcome is the lot copy even when the picked occupant is flora |
| `BuildingQueryHooks.CopyGuards` | src/BuildingQueryHooks.cpp:250-311 | lot exemplar 0, flora type 0 and dead flora are never copied, whatever the modifiers |
| `BuildingQueryHooks.HookSites` | src/BuildingQueryHooks.cpp:514-524 | the sound-suppression site is among the patched sites iff query sounds are disabled in the settings |
| `BuildingQueryHooks.Install` | src/BuildingQueryHooks.cpp:149-175 | the memory and the thrown flag are those of installing the dialog hook at both sites, the tooltip hook, and the silent sound hook when sounds are disabled, stopping at the first failure |
| `BuildingQueryHooks.HookSitesDisjoint` | src/BuildingQueryHooks.cpp:151-172 | no two building hook sites share a byte |
| `BuildingQueryHooks.InstalledSitesCallHooks` | src/BuildingQueryHooks.cpp:514-524 | after a complete installation each site holds a CALL of its own hook function |
| `ToolTipQueryHooks.SetCustomToolTip` | src/NetworkQueryHooks.cpp:39-59 | returns false and leaves title and text unchanged when the server is null or has no custom subscribers; otherwise returns the first-responder dispatch's answer with the values it left (the flora and prop copies at src/FloraQueryHooks.cpp:33-50 and src/PropQueryHooks.cpp:23-40 behave the same) |
| `ToolTipQueryHooks.SetAppendedToolTipText` | src/NetworkQueryHooks.cpp:61-73 | the destination gains the appended lines only when the server exists and has append subscribers (and, as written, custom subscribers); otherwise it is unchanged |
| `ToolTipQueryHooks.HookedGetNetworkOccupantTipInfo` | src/NetworkQueryHooks.cpp:79-90 | a handled tooltip is final and the game is not called; otherwise the game builds title and text from what the subscribers left, once, and the append step extends the text |
| `ToolTipQueryHooks.HookedGetNamedOccupantTipInfo` | src/FloraQueryHooks.cpp:67-81 | a handled flora or prop tooltip is left as set; otherwise the title becomes the occupant's display name when one is found (else stays) and the text gains the appended lines; the same at src/PropQueryHooks.cpp:57-71 |
| `ToolTipQueryHooks.NullOccupantKeepsTitle` | src/OccupantUtil.cpp:27-37 | a null occupant has no display name, so its title is never replaced |
| `ToolTipQueryHooks.AppendNeedsCustomSubscriber` | src/NetworkQueryToolTipHookServer.cpp:101-124 | as written, with no custom subscriber the server is not dispatched and appends nothing |
| `ToolTipQueryHooks.Install` | src/NetworkQueryHooks.cpp:93-96 | installs one CALL hook at the kind's site: 0x4D74A8 for networks, 0x4D747F for flora (src/FloraQueryHooks.cpp:84-87), 0x4D74BF for props (src/PropQueryHooks.cpp:74-77) |
| `ToolTipQueryHooks.TipInfoSitesDisjoint` | src/NetworkQueryHooks.cpp:95 | the three tooltip hook sites do not overlap |
| `TerrainQueryHooks.GetActiveModifierKeys` | src/TerrainQueryHooks.cpp:51-71 | each flag is set exactly when its key is down and no other bit is set |
| `TerrainQueryHooks.BranchForKeys` | src/TerrainQueryHooks.cpp:103-147 | the bit tests pick, for every key combination, the text of the table: none or all keys moisture, Alt alone humidity and wind, Control alone flammability, land value and pollution, anything else nothing |
| `TerrainQueryHooks.LandValueDescription` | src/TerrainQueryHooks.cpp:163-176 | Low, Medium and High are named as such, and every other land value type is "Unknown", in both directions |
| `TerrainQueryHooks.BranchText` | src/TerrainQueryHooks.cpp:103-205 | a branch writes a text iff it is not the empty branch, and the text is always about the queried location |
| `TerrainQueryHooks.HookedTerrainQuerySprintf` | src/TerrainQueryHooks.cpp:82-220 | with all four simulators the keys' branch chooses the text, otherwise the plain position text is written; the result is the formatting call's return value, or 0 when nothing is written |
| `TerrainQueryHooks.Install` | src/TerrainQueryHooks.cpp:223-226 | installs one CALL hook at 0x4D7335 |
| `PropertyUtil.GetUserVisibleNameKey` | src/PropertyUtil.cpp:31-61 | a key exists iff the holder exists and property 0x8A416A99 is a Uint32 array of exactly three values; the key's group and instance are its second and third values |
| `PropertyUtil.GetUserVisibleName` | src/PropertyUtil.cpp:63-94 | a user-visible name exists iff the key exists and the localized string it names exists |
| `PropertyUtil.GetExemplarName` | src/PropertyUtil.cpp:97-102 | an exemplar name exists iff the holder exists and has string property 0x20 |
| `PropertyUtil.GetDisplayName` | src/PropertyUtil.cpp:104-126 | fails for a null holder and exactly when item name, user-visible name and exemplar name are all missing; the item name wins when present, then the user-visible name |
| `PropertyUtil.MalformedKeyFallsThroughToExemplarName` | src/PropertyUtil.cpp:45-46 | a user-visible-name property of the wrong type or count is skipped, so without an item name the display name is the exemplar name |
| `PropertyUtil.DisplayNameIsACandidate` | src/PropertyUtil.cpp:104-126 | a display name is always one of the three candidate names |
| `OccupantUtil.SetDisplayName` | src/OccupantUtil.cpp:27-37 | reports success iff a display name exists, writes it into the title then, and leaves the title unchanged otherwise |
| `OccupantUtil.SetExemplarName` | src/OccupantUtil.cpp:39-49 | reports success iff an exemplar name exists, writes it then, and leaves the string unchanged otherwise |
| `OccupantUtil.ExemplarNameLine` | src/data-providers/query-tooltip-handlers/FloraQueryToolTipHandler.cpp:128-130 | the debug line always ends in a newline: the exemplar name terminated, or a bare newline when there is none |
| `OccupantUtil.AppendExemplarNameLine` | src/data-providers/query-tooltip-handlers/PropQueryToolTipHandler.cpp:97-99 | the text gains exactly the exemplar-name line |
| `FloraToolTipHandler.DateLineShape` | src/data-providers/query-tooltip-handlers/FloraQueryToolTipHandler.cpp:136-143 | a date line is the caption, the date text cut at its first NUL, and one line feed; it always starts with the caption |
| `FloraToolTipHandler.BirthDateLine` | src/data-providers/query-tooltip-handlers/FloraQueryToolTipHandler.cpp:136-139 | the birth date line is "Birth date: " and the date text, terminated |
| `FloraToolTipHandler.LastSeedingDateLine` | src/data-providers/query-tooltip-handlers/FloraQueryToolTipHandler.cpp:140-143 | the last seeding date line is "Last seeding date: " and the date text, terminated |
| `FloraToolTipHandler.FloraDebugTextLines` | src/data-providers/query-tooltip-handlers/FloraQueryToolTipHandler.cpp:128-144 | a non-flora occupant's debug text is its exemplar name line alone; a flora occupant's adds the birth and last seeding date lines in that order; the debug text always ends in a line feed |
| `FloraToolTipHandler.FloraQueryToolTipHandler.constructor` | src/data-providers/query-tooltip-handlers/FloraQueryToolTipHandler.cpp:33-36 | a new handler has reference count 0 and holds neither a date object nor a language manager |
| `FloraToolTipHandler.FloraQueryToolTipHandler.PostCityInit` | src/data-providers/query-tooltip-handlers/FloraQueryToolTipHandler.cpp:38-52 | keeps the city's date and, when the flora server is available, adds itself to its custom tooltip subscribers and changes nothing else there; the server keeps its null-free invariant |
| `FloraToolTipHandler.FloraQueryToolTipHandler.PreCityShutdown` | src/data-providers/query-tooltip-handlers/FloraQueryToolTipHandler.cpp:54-73 | drops the date and, when the flora server is available, removes itself from its custom tooltip subscribers and changes nothing else there; the server keeps its null-free invariant |
| `FloraToolTipHandler.FloraQueryToolTipHandler.PostAppInit` | src/data-providers/query-tooltip-handlers/FloraQueryToolTipHandler.cpp:75-80 | keeps the language manager |
| `FloraToolTipHandler.FloraQueryToolTipHandler.PreAppShutdown` | src/data-providers/query-tooltip-handlers/FloraQueryToolTipHandler.cpp:82-91 | drops the language manager |
| `FloraToolTipHandler.FloraQueryToolTipHandler.QueryInterface` | src/data-providers/query-tooltip-handlers/FloraQueryToolTipHandler.cpp:93-104 | succeeds iff the IID is the flora custom tooltip target or GZUnknown, hands out this object or its base, and adds one reference exactly on success |
| `FloraToolTipHandler.FloraQueryToolTipHandler.AddRef` | src/data-providers/query-tooltip-handlers/FloraQueryToolTipHandler.cpp:106-109 | adds one reference (wrapping at 2^32) and returns the new count |
| `FloraToolTipHandler.FloraQueryToolTipHandler.Release` | src/data-providers/query-tooltip-handlers/FloraQueryToolTipHandler.cpp:111-114 | drops one reference, never below 0, and returns the new count |
| `FloraToolTipHandler.FloraQueryToolTipHandler.ProcessToolTip` | src/data-providers/query-tooltip-handlers/FloraQueryToolTipHandler.cpp:116-149 | handles a tooltip iff it is a debug query of a non-null occupant; then the title becomes the display name when one exists and the text gains exactly the debug text; otherwise title and text are unchanged |
| `PropToolTipHandler.PropQueryToolTipHandler.constructor` | src/data-providers/query-tooltip-handlers/PropQueryToolTipHandler.cpp:32-34 | a new handler has reference count 0 |
| `PropToolTipHandler.PropQueryToolTipHandler.PostCityInit` | src/data-providers/query-tooltip-handlers/PropQueryToolTipHandler.cpp:36-47 | when the prop server is available, adds itself to its custom tooltip subscribers and changes nothing else there; the server keeps its null-free invariant |
| `PropToolTipHandler.PropQueryToolTipHandler.PreCityShutdown` | src/data-providers/query-tooltip-handlers/PropQueryToolTipHandler.cpp:49-60 | when the prop server is available, removes itself from its custom tooltip subscribers and changes nothing else there; the server keeps its null-free invariant |
| `PropToolTipHandler.PropQueryToolTipHandler.QueryInterface` | src/data-providers/query-tooltip-handlers/PropQueryToolTipHandler.cpp:62-73 | succeeds iff the IID is the prop custom tooltip target or GZUnknown, hands out this object or its base, and adds one reference exactly on success |
| `PropToolTipHandler.PropQueryToolTipHandler.AddRef` | src/data-providers/query-tooltip-handlers/PropQueryToolTipHandler.cpp:75-78 | adds one reference (wrapping at 2^32) and returns the new count |
| `PropToolTipHandler.PropQueryToolTipHandler.Release` | src/data-providers/query-tooltip-handlers/PropQueryToolTipHandler.cpp:80-83 | drops one reference, never below 0, and returns the new count |
| `PropToolTipHandler.PropQueryToolTipHandler.ProcessToolTip` | src/data-providers/query-tooltip-handlers/PropQueryToolTipHandler.cpp:85-104 | handles a tooltip iff it is a debug query of a non-null occupant; then the title becomes the display name when one exists and the text gains exactly the exemplar name line; otherwise nothing changes |
| `NetworkToolTipHandler.OfCode` | src/data-providers/query-tooltip-handlers/NetworkQueryToolTipHandler.cpp:139-187 | an enumeration value names a network type iff it is below 13, and the type's own value is that value |
| `NetworkToolTipHandler.CodeRoundTrip` | src/data-providers/query-tooltip-handlers/NetworkQueryToolTipHandler.cpp:36-43 | every type's value reads back as the same type |
| `NetworkToolTipHandler.MakeListEntry` | src/data-providers/query-tooltip-handlers/NetworkQueryToolTipHandler.cpp:36-43 | an entry pairs a type with the flag bit 1 shifted by its value |
| `NetworkToolTipHandler.ListEntriesAreMade` | src/data-providers/query-tooltip-handlers/NetworkQueryToolTipHandler.cpp:46-63 | each of the 13 written-out list entries is the entry MakeListEntry builds for its type |
| `NetworkToolTipHandler.ListCoversEveryType` | src/data-providers/query-tooltip-handlers/NetworkQueryToolTipHandler.cpp:46-63 | the list names every network type, each exactly once |
| `NetworkToolTipHandler.FirstSetTypeIn` | src/data-providers/query-tooltip-handlers/NetworkQueryToolTipHandler.cpp:74-82 | the search finds nothing iff no entry's bit is set, and otherwise the type of the first entry whose bit is set |
| `NetworkToolTipHandler.FindFirstSetType` | src/data-providers/query-tooltip-handlers/NetworkQueryToolTipHandler.cpp:74-82 | the loop stops at the first entry whose bit is set and reports it, and reports nothing when no bit matches |
| `NetworkToolTipHandler.GetNetworkType` | src/data-providers/query-tooltip-handlers/NetworkQueryToolTipHandler.cpp:67-87 | succeeds iff the occupant exists and its flags have a listed bit; the type is the first such in list order, and left unchanged on failure |
| `NetworkToolTipHandler.TypeIffLowBits` | src/data-providers/query-tooltip-handlers/NetworkQueryToolTipHandler.cpp:46-63 | flags have a type exactly when one of their low thirteen bits is set |
| `NetworkToolTipHandler.HighwayBeforeRoad` | src/data-providers/query-tooltip-handlers/NetworkQueryToolTipHandler.cpp:46-51 | a piece that is both highway and road is reported as a highway: list order, not type value, decides |
| `NetworkToolTipHandler.TitleInstancesDistinct` | src/data-providers/query-tooltip-handlers/NetworkQueryToolTipHandler.cpp:89-137 | no two network types share a title string |
| `NetworkToolTipHandler.SetNetworkTitle` | src/data-providers/query-tooltip-handlers/NetworkQueryToolTipHandler.cpp:89-137 | succeeds iff the type's localized string in group 0xEA5524EB exists, and then the title is that string; otherwise the title is unchanged |
| `NetworkToolTipHandler.EnglishName` | src/data-providers/query-tooltip-handlers/NetworkQueryToolTipHandler.cpp:139-187 | every type's debug name is non-empty and contains no NUL or '/' |
| `NetworkToolTipHandler.GetNetworkEnglishName` | src/data-providers/query-tooltip-handlers/NetworkQueryToolTipHandler.cpp:139-187 | the name is empty exactly for values that name no type |
| `NetworkToolTipHandler.SetTypeNames` | src/data-providers/query-tooltip-handlers/NetworkQueryToolTipHandler.cpp:189-216 | the listed names are at most one per entry |
| `NetworkToolTipHandler.FirstNameIsTitleType` | src/data-providers/query-tooltip-handlers/NetworkQueryToolTipHandler.cpp:189-216 | the first listed name is the name of the type the tooltip is titled with, and none is listed exactly when there is no type |
| `NetworkToolTipHandler.JoinSetTypeNames` | src/data-providers/query-tooltip-handlers/NetworkQueryToolTipHandler.cpp:195-213 | the loop builds the prefix followed by the set types' names in list order, with '/' between consecutive names |
| `NetworkToolTipHandler.GetNetworkTypesString` | src/data-providers/query-tooltip-handlers/NetworkQueryToolTipHandler.cpp:189-216 | the result is "Network Types: ", the joined names, and a line feed |
| `NetworkToolTipHandler.HighwayRoadTypesString` | src/data-providers/query-tooltip-handlers/NetworkQueryToolTipHandler.cpp:189-216 | flags 0x5 give "Network Types: Highway/Road" followed by a line feed |
| `NetworkToolTipHandler.NetworkOrientation` | src/data-providers/query-tooltip-handlers/NetworkQueryToolTipHandler.cpp:218-253 | always starts with "Network Orientation: "; it is the prefix alone iff the value is not one of the eight known rotations, and otherwise ends with a line feed |
| `NetworkToolTipHandler.AdditionalNetworkCount` | src/data-providers/query-tooltip-handlers/NetworkQueryToolTipHandler.cpp:283 | only the count's low byte is used |
| `NetworkToolTipHandler.EdgeConnectionLines` | src/data-providers/query-tooltip-handlers/NetworkQueryToolTipHandler.cpp:255-271 | the heading and the edge code line of a network each read back whole and end with exactly one line feed |
| `NetworkToolTipHandler.AppendEdgeConnectionData` | src/data-providers/query-tooltip-handlers/NetworkQueryToolTipHandler.cpp:255-271 | the destination gains exactly the heading line and the edge code line |
| `NetworkToolTipHandler.AppendAdditionalNetworks` | src/data-providers/query-tooltip-handlers/NetworkQueryToolTipHandler.cpp:289-294 | array entries 0 to count-1 are appended in order, numbered as networks 2 onwards |
| `NetworkToolTipHandler.AppendEdgeConnections` | src/data-providers/query-tooltip-handlers/NetworkQueryToolTipHandler.cpp:273-314 | without a store nothing is added; otherwise the heading and network 1, then the array's networks, or, with no array and one additional network, a zero-coded network 2 of the first network's type |
| `NetworkToolTipHandler.CountLowByteOnly` | src/data-providers/query-tooltip-handlers/NetworkQueryToolTipHandler.cpp:282-283 | a count of 0x100 lists network 1 alone, whatever the array holds |
| `NetworkToolTipHandler.UnallocatedSecondNetwork` | src/data-providers/query-tooltip-handlers/NetworkQueryToolTipHandler.cpp:297-309 | with no array and one additional network, network 2 is listed with the first network's type and codes 00,00,00,00 |
| `NetworkToolTipHandler.UnallocatedManyNetworks` | src/data-providers/query-tooltip-handlers/NetworkQueryToolTipHandler.cpp:297-310 | with no array and more than one additional network, only network 1 is listed |
| `NetworkToolTipHandler.NetworkDetailsLines` | src/data-providers/query-tooltip-handlers/NetworkQueryToolTipHandler.cpp:434-447 | the details are the types line, piece ID, base texture, wealth, orientation, cell and edge connections, each line ended by exactly one line feed |
| `NetworkToolTipHandler.DebugTextKeepsPrefix` | src/data-providers/query-tooltip-handlers/NetworkQueryToolTipHandler.cpp:418-449 | only the water pipe text with a plumbing simulator discards the earlier text; in every other case it stays a prefix |
| `NetworkToolTipHandler.AppendNetworkDetails` | src/data-providers/query-tooltip-handlers/NetworkQueryToolTipHandler.cpp:434-447 | the text gains exactly the network details, in that order |
| `NetworkToolTipHandler.NetworkQueryToolTipHandler.constructor` | src/data-providers/query-tooltip-handlers/NetworkQueryToolTipHandler.cpp:331-334 | a new handler has reference count 0 and no plumbing simulator |
| `NetworkToolTipHandler.NetworkQueryToolTipHandler.QueryInterface` | src/data-providers/query-tooltip-handlers/NetworkQueryToolTipHandler.cpp:368-379 | succeeds iff the IID is the network custom tooltip target or GZUnknown, hands out this object or its base, and adds one reference exactly on success |
| `NetworkToolTipHandler.NetworkQueryToolTipHandler.AddRef` | src/data-providers/query-tooltip-handlers/NetworkQueryToolTipHandler.cpp:381-384 | adds one reference (wrapping at 2^32) and returns the new count |
| `NetworkToolTipHandler.NetworkQueryToolTipHandler.Release` | src/data-providers/query-tooltip-handlers/NetworkQueryToolTipHandler.cpp:386-389 | drops one reference, never below 0, and returns the new count |
| `NetworkToolTipHandler.NetworkQueryToolTipHandler.PostCityInit` | src/data-providers/query-tooltip-handlers/NetworkQueryToolTipHandler.cpp:336-351 | keeps the plumbing simulator and, when the network server is available, adds itself to its custom tooltip subscribers only; the server keeps its null-free invariant |
| `NetworkToolTipHandler.NetworkQueryToolTipHandler.PreCityShutdown` | src/data-providers/query-tooltip-handlers/NetworkQueryToolTipHandler.cpp:353-366 | drops the plumbing simulator and, when the network server is available, removes itself from its custom tooltip subscribers only; the server keeps its null-free invariant |
| `NetworkToolTipHandler.NetworkQueryToolTipHandler.SetDebugQueryText` | src/data-providers/query-tooltip-handlers/NetworkQueryToolTipHandler.cpp:418-449 | water pipes get the distressed pipe counts when the simulator exists (text unchanged otherwise), power poles keep the text, every other network appends its details |
| `NetworkToolTipHandler.NetworkQueryToolTipHandler.ProcessToolTip` | src/data-providers/query-tooltip-handlers/NetworkQueryToolTipHandler.cpp:391-416 | handles a tooltip iff it is a debug query of a network piece with a type whose localized title exists; then the title is that name and the text the type's debug text; otherwise nothing changes |
| `QueryToolTipProvider.FanOut` | src/data-providers/QueryToolTipProvider.cpp:48-74 | every lifecycle notification reaches the three handlers, flora first, then network, then prop, each with the same event |
| `QueryToolTipProvider.QueryToolTipProvider.constructor` | src/data-providers/QueryToolTipProvider.cpp:26-28 | the provider and its three handlers start with distinct reference counts, the provider's at 0, and no notifications yet |
| `QueryToolTipProvider.QueryToolTipProvider.QueryInterface` | src/data-providers/QueryToolTipProvider.cpp:30-46 | each handler's custom tooltip target IID is answered by that handler and GZUnknown by the provider; any other IID fails; exactly the answering object gains one reference |
| `QueryToolTipProvider.QueryToolTipProvider.PostAppInit` | src/data-providers/QueryToolTipProvider.cpp:48-53 | the flora handler keeps the language manager and the three handlers are notified in order |
| `QueryToolTipProvider.QueryToolTipProvider.PreAppShutdown` | src/data-providers/QueryToolTipProvider.cpp:55-60 | the flora handler drops the language manager and the three handlers are notified in order |
| `QueryToolTipProvider.QueryToolTipProvider.PostCityInit` | src/data-providers/QueryToolTipProvider.cpp:62-67 | the flora handler keeps the date, the network handler the plumbing simulator, and each handler subscribes to its own server's custom tooltips, in order; the server keeps its null-free invariant |
| `QueryToolTipProvider.QueryToolTipProvider.PreCityShutdown` | src/data-providers/QueryToolTipProvider.cpp:69-74 | the handlers drop their city objects and each unsubscribes from its own server, in order; the server keeps its null-free invariant |
| `AvailableBuildingStyles.RecordedKeeps` | src/AvailableBuildingStyles.cpp:98 | recording a child never removes or changes a style already present |
| `AvailableBuildingStyles.StyleKeys` | src/AvailableBuildingStyles.cpp:80-103 | a style ID is known exactly when some child with that ID is a button other than the title bar and minimize buttons |
| `AvailableBuildingStyles.FrameButtonsExcluded` | src/AvailableBuildingStyles.cpp:82-86 | the title bar button 0x2BC619F3 and the minimize button 0xEBC619FD never become styles |
| `AvailableBuildingStyles.FirstCaptionKept` | src/AvailableBuildingStyles.cpp:98 | when several buttons share an ID, the first one's caption is the style name |
| `AvailableBuildingStyles.AvailableBuildingStyles.constructor` | src/AvailableBuildingStyles.cpp:45-78 | the style map is what the callback builds over the style list's children in order, and empty when the dialog is missing |
| `AvailableBuildingStyles.AvailableBuildingStyles.BuildingStyleWinEnumProc` | src/AvailableBuildingStyles.cpp:80-103 | always continues the enumeration and records a style button's caption unless its ID is already known |
| `AvailableBuildingStyles.AvailableBuildingStyles.AppendStyleName` | src/AvailableBuildingStyles.cpp:28-43 | succeeds iff the style is known, then appends exactly its name; otherwise the destination is unchanged |
| `ClickToCopyOccupantFilter.IncludedTypes` | src/ClickToCopyOccupantFilter.cpp:28-39 | the filter accepts exactly the building, flora and prop occupant types |
| `ClickToCopyOccupantFilter.IsPropertyHolderIncluded` | src/ClickToCopyOccupantFilter.cpp:41-44 | every property holder is rejected |
| `TokenEngine.Replacement` | src/data-providers/BuildingQueryVariablesProvider.cpp:1219-1225 | a handled token's text is what the callback wrote when it succeeded, and empty when it failed |
| `TokenEngine.MakeNumberString` | src/data-providers/BuildingQueryVariablesProvider.cpp:130-154 | succeeds iff the language utility formats the number (or the money amount), and then the text is that formatting; otherwise nothing is written |
| `TokenEngine.GetOccupantLot` | src/data-providers/BuildingQueryVariablesProvider.cpp:97-112 | a lot is found iff the city, the occupant, the lot manager and the occupant's lot all exist, and it is the occupant's lot |
| `TokenEngine.CopySC4StringValue` | src/data-providers/BuildingQueryVariablesProvider.cpp:156-167 | always reports success; copies a non-null string and leaves the destination as it was for a null one |
| `TokenEngine.FundedCostIsFirstStop` | src/data-providers/BuildingQueryVariablesProvider.cpp:194-225 | the cost found is non-zero exactly when some item has a funded purpose and a non-zero cost, and then it is the first such item's cost |
| `TokenEngine.FindFullFundingCost` | src/data-providers/BuildingQueryVariablesProvider.cpp:192-227 | the loop, which runs while nothing is found, yields the cost of the first funded item with a non-zero cost, or 0 |
| `TokenEngine.MatchedStyleNames` | src/data-providers/BuildingQueryVariablesProvider.cpp:282-293 | the matched names are at most one per style, each the name of a style whose group the occupant has |
| `TokenEngine.EachFollowedByIsJoinPlusSeparator` | src/data-providers/BuildingQueryVariablesProvider.cpp:286-301 | appending a separator after every name and cutting the last one off gives the names joined by the separator |
| `TokenEngine.MaxisNamesNonEmpty` | src/data-providers/BuildingQueryVariablesProvider.cpp:296-302 | since every Maxis style name is non-empty, something is written exactly when some style matches |
| `TokenEngine.AppendMaxisStyleNames` | src/data-providers/BuildingQueryVariablesProvider.cpp:280-303 | reports a write iff some Maxis style group matches, and the text is the matched names in table order joined by the separator |
| `TokenEngine.MatchedSnoc` | src/data-providers/BuildingQueryVariablesProvider.cpp:284-303 | one more style adds its name to the matched names exactly when its group matches |
| `TokenEngine.MaxisMatchedExample` | src/data-providers/BuildingQueryVariablesProvider.cpp:89-95 | groups 0x2000 and 0x2002 match "Chicago 1890" and "Houston 1990", in that order |
| `TokenEngine.StyleListExample` | src/data-providers/BuildingQueryVariablesProvider.cpp:280-303 | with the pipe separator those two styles give "Chicago 1890 \| Houston 1990" |
| `QueryVariablesProvider.GetTokenSeparator` | src/data-providers/BuildingQueryVariablesProvider.cpp:246-256 | the separator is " \| " for the pipe type and a line feed for the line type, never empty |
| `QueryVariablesProvider.FullFundingToken` | src/data-providers/BuildingQueryVariablesProvider.cpp:175-233 | the money text of the first funded item's non-zero cost, and of 0 when the city, occupant, budget simulator or item list is missing |
| `QueryVariablesProvider.GetBuildingFullFundingToken` | src/data-providers/BuildingQueryVariablesProvider.cpp:175-233 | the method's loop computes exactly the full-funding token |
| `QueryVariablesProvider.JoinWithEndsWithLast` | src/data-providers/BuildingQueryVariablesProvider.cpp:284-303 | a joined list is at least as long as its last name |
| `QueryVariablesProvider.KeyShapeNotParameterized` | src/data-providers/BuildingQueryVariablesProvider.cpp:1188-1191 | a token of the table-key shape does not start with the budget prefix |
| `QueryVariablesProvider.CapReliefLoopStep` | src/data-providers/BuildingQueryVariablesProvider.cpp:805-835 | one pass of the integer loop, a separator when it is not the first and then the entry, extends the text by one pair |
| `QueryVariablesProvider.PairLoopEnds` | src/data-providers/BuildingQueryVariablesProvider.cpp:805 | the loop stepping by two stops after (count + 1) / 2 pairs |
| `QueryVariablesProvider.MaxisJoinNonEmpty` | src/data-providers/BuildingQueryVariablesProvider.cpp:296-302 | a fallback that matched a style writes a non-empty text |
| `QueryVariablesProvider.StylesToken` | src/data-providers/BuildingQueryVariablesProvider.cpp:258-316 | always succeeds with a non-empty text: "None" without an occupant or when the list is empty or fails; otherwise the style DLL's list, or the matched Maxis styles joined by the separator |
| `QueryVariablesProvider.GetBuildingStylesToken` | src/data-providers/BuildingQueryVariablesProvider.cpp:258-316 | the method's loop computes exactly the styles token |
| `QueryVariablesProvider.SummaryInstance` | src/data-providers/BuildingQueryVariablesProvider.cpp:318-398 | residential and commercial services buildings have a summary for low, medium and high wealth, offices for medium and high, industry always, no purpose never |
| `QueryVariablesProvider.SummaryInstancesDistinct` | src/data-providers/BuildingQueryVariablesProvider.cpp:318-398 | no two purposes (and, where wealth matters, no two wealth levels) share a summary string |
| `QueryVariablesProvider.SummaryToken` | src/data-providers/BuildingQueryVariablesProvider.cpp:318-398 | succeeds iff there is a building occupant whose profile has a summary whose localized string exists, and then the text is that string |
| `QueryVariablesProvider.WallToWallToken` | src/data-providers/BuildingQueryVariablesProvider.cpp:400-436 | fails without an occupant; "Unknown" without the style DLL; otherwise the localized yes or no string for the DLL's wall-to-wall answer |
| `QueryVariablesProvider.CapacityToken` | src/data-providers/BuildingQueryVariablesProvider.cpp:438-453 | the number text of the lot's capacity for the developer type, and of 0 without a lot |
| `QueryVariablesProvider.OccupancyToken` | src/data-providers/BuildingQueryVariablesProvider.cpp:455-470 | the number text of the lot's population of the developer type, and of 0 without a lot |
| `QueryVariablesProvider.GrowthStageToken` | src/data-providers/BuildingQueryVariablesProvider.cpp:472-489 | the number text of the lot configuration's growth stage; "Unknown", still a success, without a lot or configuration |
| `QueryVariablesProvider.JobsToken` | src/data-providers/BuildingQueryVariablesProvider.cpp:498-526 | the rounded job count of the wealth level, and 0 without a lot or when the job query fails |
| `QueryVariablesProvider.TravelJobsToken` | src/data-providers/BuildingQueryVariablesProvider.cpp:528-565 | the traffic simulator's trip capacity for the wealth level; 0 without a lot or traffic simulator, or for a lot with a travel designate |
| `QueryVariablesProvider.LotWealth` | src/data-providers/BuildingQueryVariablesProvider.cpp:1009-1056 | building type 0 takes the lot's occupant wealth; otherwise the building profile's wealth, or no wealth without a building |
| `QueryVariablesProvider.WealthName` | src/data-providers/BuildingQueryVariablesProvider.cpp:1009-1056 | the name is "None" exactly for no wealth and for codes outside the enumeration |
| `QueryVariablesProvider.WealthToken` | src/data-providers/BuildingQueryVariablesProvider.cpp:1009-1056 | always succeeds; "None" without a lot, otherwise the name of the lot's wealth |
| `QueryVariablesProvider.MySimNameToken` | src/data-providers/BuildingQueryVariablesProvider.cpp:567-597 | succeeds iff every step of the MySim lookup exists; a null personal name succeeds with an empty text |
| `QueryVariablesProvider.WaterSourceName` | src/data-providers/BuildingQueryVariablesProvider.cpp:638-685 | codes above 2 read "Unknown" and only those |
| `QueryVariablesProvider.WaterSourceToken` | src/data-providers/BuildingQueryVariablesProvider.cpp:638-685 | succeeds iff there is an occupant; "None" without the water source property, otherwise the source's name |
| `QueryVariablesProvider.PurposeCost` | src/data-providers/BuildingQueryVariablesProvider.cpp:687-721 | a non-zero cost comes only from a budget item found for the purpose ID parsed from the text after the prefix, with an occupant, a city and a budget simulator |
| `QueryVariablesProvider.BudgetPurposeTypeCost` | src/data-providers/BuildingQueryVariablesProvider.cpp:687-721 | when the text after the prefix parses as a purpose ID and the occupant, the city, its budget simulator and that purpose's budget item all exist, the money text of the item's cost; otherwise the money text of 0 |
| `QueryVariablesProvider.PurposeCostOfHexID` | src/data-providers/BuildingQueryVariablesProvider.cpp:687-721 | a token with a purpose ID in hexadecimal reads that purpose's budget item cost |
| `QueryVariablesProvider.PurposeCostSentinels` | src/data-providers/BuildingQueryVariablesProvider.cpp:687-721 | the bare prefix and a non-numeric suffix give the cost 0 |
| `QueryVariablesProvider.CapReliefEntry` | src/data-providers/BuildingQueryVariablesProvider.cpp:813-834 | a pair reads "name=value" for one of the nine known demand IDs whose value formats, otherwise "0x%08x=%u"; never empty |
| `QueryVariablesProvider.CapReliefPairs` | src/data-providers/BuildingQueryVariablesProvider.cpp:805-835 | the text of n pairs is empty exactly when n is 0 |
| `QueryVariablesProvider.CapReliefPairsStep` | src/data-providers/BuildingQueryVariablesProvider.cpp:805-835 | each further pair adds a separator, after the first, and its entry |
| `QueryVariablesProvider.FormatCapReliefPairs` | src/data-providers/BuildingQueryVariablesProvider.cpp:805-835 | the loop over every second element writes the text of (count + 1) / 2 pairs |
| `QueryVariablesProvider.CapReliefToken` | src/data-providers/BuildingQueryVariablesProvider.cpp:738-844 | succeeds iff the text is non-empty; fails without an occupant; "None" without the demand property; without the float property, the text of every integer (ID, value) pair joined by the separator |
| `QueryVariablesProvider.GetCapReliefToken` | src/data-providers/BuildingQueryVariablesProvider.cpp:738-844 | the method computes exactly the cap-relief token |
| `QueryVariablesProvider.CapReliefFailsOnlyWhenEmpty` | src/data-providers/BuildingQueryVariablesProvider.cpp:803-843 | in the integer branch the token fails exactly when the property holds no values |
| `QueryVariablesProvider.CapReliefSinglePair` | src/data-providers/BuildingQueryVariablesProvider.cpp:813-834 | a known demand ID with a formatted value reads as name=value, an unknown one in hexadecimal and decimal |
| `QueryVariablesProvider.EffectToken` | src/data-providers/BuildingQueryVariablesProvider.cpp:856-922 | fails without an occupant; "None" without the property; with exactly two values that format, "Magnitude=m \| Radius=r", and failure otherwise |
| `QueryVariablesProvider.ParkEffectOfTwoValues` | src/data-providers/BuildingQueryVariablesProvider.cpp:856-922 | a park effect of two values reads back those two numbers |
| `QueryVariablesProvider.PollutionText` | src/data-providers/BuildingQueryVariablesProvider.cpp:932-1007 | the text exists iff all four numbers format |
| `QueryVariablesProvider.PollutionToken` | src/data-providers/BuildingQueryVariablesProvider.cpp:932-1007 | fails without an occupant; "None" without the property; otherwise the four numbers' text, failing when one does not format |
| `QueryVariablesProvider.PollutionAtCenterOfFourValues` | src/data-providers/BuildingQueryVariablesProvider.cpp:932-1007 | four center values are read in the order air, water, garbage, radiation |
| `QueryVariablesProvider.BulldozeCostToken` | src/data-providers/BuildingQueryVariablesProvider.cpp:1058-1076 | the money text of the 64-bit bulldoze cost, and of 0 when it cannot be read |
| `QueryVariablesProvider.Uint8NumberToken` | src/data-providers/BuildingQueryVariablesProvider.cpp:1078-1097 | the number text of a single-byte property, and of 0 when it cannot be read |
| `QueryVariablesProvider.Uint32NumberTokenAsWritten` | src/data-providers/BuildingQueryVariablesProvider.cpp:1099-1118 | as written the inverted test makes the token format 0 for every input |
| `QueryVariablesProvider.Uint32NumberToken` | src/data-providers/BuildingQueryVariablesProvider.cpp:1099-1118 | as intended: the number text of a single 32-bit property, and of 0 when it cannot be read |
| `QueryVariablesProvider.PowerConsumedReadsZero` | src/data-providers/BuildingQueryVariablesProvider.cpp:1178 | a building consuming 250 units reads "0" as written and "250" as intended |
| `QueryVariablesProvider.RunTokenCallback` | src/data-providers/BuildingQueryVariablesProvider.cpp:1121-1180 | running a table entry writes exactly what its callback's specification gives |
| `QueryVariablesProvider.MatchingPrefixIsFirst` | src/data-providers/BuildingQueryVariablesProvider.cpp:1193-1205 | a prefix matches iff the token starts with one of them, and then it is the first such |
| `QueryVariablesProvider.GetParameterizedTokenCallback` | src/data-providers/BuildingQueryVariablesProvider.cpp:1193-1205 | the loop finds a prefix iff one matches, and returns the first that does |
| `QueryVariablesProvider.UnknownTokenCallback` | src/data-providers/BuildingQueryVariablesProvider.cpp:1207-1254 | returns true iff the token is handled, and then the output is exactly the replacement; an unhandled token leaves the output unchanged |
| `QueryVariablesProvider.ParameterizedPrefixMatch` | src/data-providers/BuildingQueryVariablesProvider.cpp:1188-1191 | the only parameterised entry matches exactly the tokens that start with "budget_purpose_type_cost:" |
| `QueryVariablesProvider.ResolveHandledIff` | src/data-providers/BuildingQueryVariablesProvider.cpp:1207-1254 | a token is handled iff it is one of the 53 table keys or starts with the budget prefix, case-sensitively |
| `QueryVariablesProvider.DialogTokenKeys` | src/data-providers/BuildingQueryVariablesProvider.cpp:1127-1140 | every dialog and lot token key starts with a lower-case letter and its third character is not the `d` of "budget" |
| `QueryVariablesProvider.DeveloperTokenKeys` | src/data-providers/BuildingQueryVariablesProvider.cpp:1141-1164 | the same for the occupancy and capacity keys |
| `QueryVariablesProvider.PropertyTokenKeys` | src/data-providers/BuildingQueryVariablesProvider.cpp:1165-1179 | the same for the property keys |
| `QueryVariablesProvider.TableKeysAreNotParameterized` | src/data-providers/BuildingQueryVariablesProvider.cpp:1213-1232 | no table key starts with the budget prefix, so the exact lookup never hides a parameterised token |
| `QueryVariablesProvider.BudgetTokenResolves` | src/data-providers/BuildingQueryVariablesProvider.cpp:1233-1251 | a budget token with a hexadecimal purpose ID resolves to the money text of that purpose's cost |
| `QueryVariablesProvider.CapitalisedBudgetTokenUnhandled` | src/data-providers/BuildingQueryVariablesProvider.cpp:1197 | the prefix test is case-sensitive: a capitalised budget token is not handled |
| `QueryVariablesProvider.PowerConsumedResolves` | src/data-providers/BuildingQueryVariablesProvider.cpp:1178 | "power_consumed" resolves through the corrected 32-bit number token |
| `QueryVariablesProvider.MySimNameWithEmptyContext` | src/data-providers/BuildingQueryVariablesProvider.cpp:1219-1225 | an empty context makes the MySim token handled with an empty text, not unhandled |
| `QueryVariablesProvider.NoLotSentinels` | src/data-providers/BuildingQueryVariablesProvider.cpp:438-489 | without a lot the growth stage reads "Unknown", the wealth "None", and capacities and occupancies format 0 |
| `QueryVariablesProvider.BuildingQueryVariablesProvider.constructor` | src/data-providers/BuildingQueryVariablesProvider.cpp:1260-1265 | a new provider has reference count 0, no city and an empty token context |
| `QueryVariablesProvider.BuildingQueryVariablesProvider.QueryInterface` | src/data-providers/BuildingQueryVariablesProvider.cpp:1267-1278 | succeeds iff the IID is the building query hook target or GZUnknown, hands out this object or its base, and adds one reference exactly on success |
| `QueryVariablesProvider.BuildingQueryVariablesProvider.AddRef` | src/data-providers/BuildingQueryVariablesProvider.cpp:1280-1283 | adds one reference (wrapping at 2^32) and returns the new count |
| `QueryVariablesProvider.BuildingQueryVariablesProvider.Release` | src/data-providers/BuildingQueryVariablesProvider.cpp:1285-1288 | drops one reference, never below 0, and returns the new count |
| `QueryVariablesProvider.BuildingQueryVariablesProvider.PostCityInit` | src/data-providers/BuildingQueryVariablesProvider.cpp:1290-1305 | remembers the city and, when the hook server is available, adds itself to its dialog subscribers only; the server keeps its null-free invariant |
| `QueryVariablesProvider.BuildingQueryVariablesProvider.PreCityShutdown` | src/data-providers/BuildingQueryVariablesProvider.cpp:1307-1322 | forgets the city and, when the hook server is available, removes itself from its dialog subscribers only; the server keeps its null-free invariant |
| `QueryVariablesProvider.BuildingQueryVariablesProvider.BeforeDialogShown` | src/data-providers/BuildingQueryVariablesProvider.cpp:1324-1344 | with a detokenizer, stores the occupant and city in the static context and registers the callback with that context; without one, changes nothing |
| `QueryVariablesProvider.BuildingQueryVariablesProvider.AfterDialogShown` | src/data-providers/BuildingQueryVariablesProvider.cpp:1346-1354 | with a detokenizer, unregisters the same callback and context |
| `Printf.Hex8Width` | src/data-providers/BuildingQueryVariablesProvider.cpp:830 | the `%08x` rendering of any 32-bit value is exactly eight digits |
| `QueryVariablesDirector.FullFundingToken` | src/child-directors/BuildingQueryVariablesDllDirector.cpp:180-245 | fails without a city, an occupant, a budget simulator or the item list; otherwise the money text of the first funded item's non-zero cost, or of 0 |
| `QueryVariablesDirector.GetBuildingFullFundingToken` | src/child-directors/BuildingQueryVariablesDllDirector.cpp:180-245 | the method's loop computes exactly the director's full-funding token |
| `QueryVariablesDirector.StylesToken` | src/child-directors/BuildingQueryVariablesDllDirector.cpp:247-296 | fails without the COM pointer or an occupant; with the style DLL, its result and text; otherwise the matched Maxis styles joined by " \| ", failing when none matched |
| `QueryVariablesDirector.GetBuildingStylesToken` | src/child-directors/BuildingQueryVariablesDllDirector.cpp:247-296 | the method's fallback loop computes exactly the director's styles token |
| `QueryVariablesDirector.WallToWallToken` | src/child-directors/BuildingQueryVariablesDllDirector.cpp:298-325 | fails without the COM pointer, an occupant or the style DLL; otherwise the same text as the data provider's wall-to-wall token |
| `QueryVariablesDirector.CapacityToken` | src/child-directors/BuildingQueryVariablesDllDirector.cpp:327-343 | fails without a lot; otherwise the number text of the lot's capacity for the developer type |
| `QueryVariablesDirector.GrowthStageToken` | src/child-directors/BuildingQueryVariablesDllDirector.cpp:345-363 | fails without a lot or lot configuration; otherwise the number text of the growth stage |
| `QueryVariablesDirector.OccupancyToken` | src/child-directors/BuildingQueryVariablesDllDirector.cpp:398-414 | fails without a lot; otherwise the number text of the lot's population of the developer type |
| `QueryVariablesDirector.RunTokenCallback` | src/child-directors/BuildingQueryVariablesDllDirector.cpp:460-492 | running a table entry writes exactly what its callback's specification gives |
| `QueryVariablesDirector.Resolve` | src/child-directors/BuildingQueryVariablesDllDirector.cpp:494-520 | a token is handled iff it is one of the 30 table keys, matched exactly |
| `QueryVariablesDirector.UnknownTokenCallback` | src/child-directors/BuildingQueryVariablesDllDirector.cpp:494-520 | returns true iff the token is a table key, and then the output is the callback's text, or empty when the callback fails; otherwise the output is unchanged |
| `QueryVariablesDirector.BudgetTokensUnknown` | src/child-directors/BuildingQueryVariablesDllDirector.cpp:460-492 | the director has no parameterised tokens: a token starting with the budget prefix is not handled |
| `QueryVariablesDirector.DialogTokenKeys` | src/child-directors/BuildingQueryVariablesDllDirector.cpp:462-467 | every dialog token key starts with a lower-case letter and its third character is not the `d` of "budget" |
| `QueryVariablesDirector.DeveloperTokenKeys` | src/child-directors/BuildingQueryVariablesDllDirector.cpp:468-491 | the same for the occupancy and capacity keys |
| `QueryVariablesDirector.DirectorAgreesWithProvider` | src/child-directors/BuildingQueryVariablesDllDirector.cpp:460-492 | wherever a director callback succeeds (and a style list from the DLL is non-empty), the data provider writes the same text for the same occupant and city |
| `QueryVariablesDirector.NoLotLeavesEmpty` | src/child-directors/BuildingQueryVariablesDllDirector.cpp:327-414 | without a lot the director leaves the growth stage, capacity and occupancy replacements empty where the provider writes "Unknown" |
| `QueryVariablesDirector.BuildingQueryVariablesDllDirector.constructor` | src/child-directors/BuildingQueryVariablesDllDirector.cpp:522-527 | a new director has no city, no detokenizer and no message-server subscriptions |
| `QueryVariablesDirector.BuildingQueryVariablesDllDirector.GetDirectorID` | src/child-directors/BuildingQueryVariablesDllDirector.cpp:552-555 | the director ID is 0x1317A7E6 |
| `QueryVariablesDirector.BuildingQueryVariablesDllDirector.PostAppInit` | src/child-directors/BuildingQueryVariablesDllDirector.cpp:573-597 | keeps the application's detokenizer; when the message server exists, subscribes to the city-init then the city-shutdown message, otherwise subscribes to nothing; always succeeds |
| `QueryVariablesDirector.BuildingQueryVariablesDllDirector.PostCityInit` | src/child-directors/BuildingQueryVariablesDllDirector.cpp:616-631 | remembers the city and, when the hook server is available, adds itself to its dialog subscribers only; the server keeps its null-free invariant |
| `QueryVariablesDirector.BuildingQueryVariablesDllDirector.PreCityShutdown` | src/child-directors/BuildingQueryVariablesDllDirector.cpp:633-648 | forgets the city and, when the hook server is available, removes itself from its dialog subscribers only; the server keeps its null-free invariant |
| `QueryVariablesDirector.BuildingQueryVariablesDllDirector.DoMessage` | src/child-directors/BuildingQueryVariablesDllDirector.cpp:599-614 | dispatches the city-init and city-shutdown messages, ignores the rest, and always reports the message handled |
| `QueryVariablesDirector.BuildingQueryVariablesDllDirector.BeforeDialogShown` | src/child-directors/BuildingQueryVariablesDllDirector.cpp:650-667 | with a detokenizer, registers the callback with a new context holding the COM pointer, the occupant and the city |
| `QueryVariablesDirector.BuildingQueryVariablesDllDirector.AfterDialogShown` | src/child-directors/BuildingQueryVariablesDllDirector.cpp:669-677 | with a detokenizer, unregisters the callback with a context built afresh from the same values |
| `StringDetokenizer.StringDetokenizer.constructor` | src/child-directors/BuildingQueryVariablesDllDirector.cpp:650-677 | a new detokenizer has received no registrations |
| `StringDetokenizer.StringDetokenizer.AddUnknownTokenReplacementMethod` | src/child-directors/BuildingQueryVariablesDllDirector.cpp:659 | each call is recorded, in order, with its callback, context and add-or-remove flag |

## Left out

- Host memory protection: `VirtualProtect` becomes a `protect` predicate. A site it refuses makes `InstallCallHook` throw before any byte is written.
- `InstallJump` and the naked-assembly `HookedOnMouseDownL` (src/BuildingQueryHooks.cpp:474-504) are not modelled, so `BuildingQueryHooks.Install` does not install the mouse-down jump. The body of `InstallJump` is not part of this model. Only the CALL hooks and the click decision `ProcessQueryToolClick` are modelled.
- Calling conventions and the fixed addresses of the real game functions: each real function is an oracle whose call is recorded in `ShimTrace.Trace`.
- Raw-offset reads (`QueryToolHelpers::GetOccupant`, `GetUnderTextureID`) are not modelled. The occupant and the under-texture ID are inputs.
- Keyboard state: `GetAsyncKeyState` becomes parameters. These are the key states of `TerrainQueryHooks.GetActiveModifierKeys`, the modifier word of `ProcessQueryToolClick` and the debug-query flag of the tooltip hooks.
- Floating point is not computed. Floats are opaque bit patterns passed through unchanged. This covers terrain positions, humidity, wind and land-value figures, the tooltip meter percentage and pollution radii.
- `lroundf` is an oracle (`HostData.LRound`), and only its value on zero is fixed.
- QueryVariablesProvider.CapReliefToken: the `%f` branch for the float cap-relief property (src/data-providers/BuildingQueryVariablesProvider.cpp:759-800) is an oracle. Its contract states only that this branch succeeds iff its text is non-empty.
- TerrainQueryHooks.BranchText: the formatted numbers are not rendered. The contract states which branch writes and that its text is about the queried location, not the digits `sprintf` would print.
- Foreign services are oracles passed in as parameters:
  - the language utility's number and money formatting, and localised string look-up;
  - the budget, traffic, lot, plumbing and MySim simulators;
  - the building-style DLL, COM `GetClassObject` and the flora date conversion.
- The typed reads of SCPropertyUtil are taken to succeed as follows: `ReadUint8`, `ReadUint32` and `ReadSint64` exactly when the property exists with the requested type and exactly one value; `ReadString` whenever the property exists and holds text, whatever its length. The bodies of those reads are not part of this model.
- Strings are sequences of `char` with one `char` per byte of the C string: the section sign in the cap-relief demand names (`SECTION_SIGN`) is the two UTF-8 bytes C2 A7, not one character. No decoding or encoding is modelled.
- Interface IDs are named constants (`GZCom.InterfaceId`), not their numeric values. Most of those values live in headers that are not part of this model. The models only compare IDs for equality.
- The iteration order of each `std::unordered_set` is a parameter `order`, required to enumerate the set without repeats. Results that do not depend on order are proved for every such order.
- The Lua bridge is not modelled (src/data-providers/lua).
- Settings, FileSystem, Logger and DebugUtil are not modelled.
- Two provider actions are left out: plugin-path logging in `BeforeDialogShown`, and `LogBuildingOccupantPluginPath` with `GetResourceFilePath`, which are resource look-ups followed by logging.
- `DebugLogTokenizerVariables` is left out. It only writes debug output.
- The bootstrap directors are left out (QueryUIHooksDllDirector, QueryToolTipDllDirector). They do version gating and wire the globals.
- The director's `OnStart` is framework registration and is left out.
- The director's `QueryInterface`, `AddRef` and `Release` defer to the framework's `cRZMessage2COMDirector` (not part of this model).
- The older director registers a pointer to a context that lives on the stack of `BeforeDialogShown` (src/child-directors/BuildingQueryVariablesDllDirector.cpp:659-661). This dangling pointer cannot be expressed in the model. The model records a fresh context value on each call, so only the add/remove pairing is captured.
- Click-to-copy UI actions are not modelled (src/BuildingQueryHooks.cpp:192-416): window look-up, picking and view-control creation. Only the guards of `CopyLot` and `CopyFloraOccupant` and the branch choice are modelled. This also leaves out the `PositionToCell(..., cellX, cellX)` call at line 376.
- The window walk in the `AvailableBuildingStyles` constructor is not modelled. The constructor takes the (child ID, caption) pairs the walk would visit, in order.
- `StringViewUtil::TrimQuotes` and `TrimWhiteSpace` are not modelled. They only forward to Boost's trimming functions, and nothing in the modelled core calls them.
- `SendAppendToolTipMessage` in all four servers is modelled as written. It dispatches only when the custom-tooltip set is non-empty (src/BuildingQueryHookServer.cpp:129), even though it iterates the append set.
- `CopySC4StringValue` is modelled as written: it returns true even for a null string. The provider's only caller clears the output first, so the two cases write the same text. This is not listed as a finding.
- QueryVariablesProvider.UnknownTokenCallback: the `power_consumed` and `water_consumed` entries of the token table use the corrected `Uint32NumberToken`. The as-written form is kept beside it, as described under Findings.

## Findings

| source | as written | input that shows it | evidently intended | confidence | as-written member | corrected member |
|---|---|---|---|---|---|---|
| src/data-providers/BuildingQueryVariablesProvider.cpp:1099-1118 | `GetUint32NumberToken` resets the value to 0 when `GetPropertyValue` succeeds, so the read value is thrown away and every `power_consumed` and `water_consumed` token formats 0 | a building whose power-consumed property holds the single value 250: the token reads "0" | the value read (250) is formatted, and 0 only when the read fails, as `GetUint8NumberToken` at lines 1078-1097 does | not executed | `QueryVariablesProvider.Uint32NumberTokenAsWritten` (shown by `QueryVariablesProvider.PowerConsumedReadsZero`) | `QueryVariablesProvider.Uint32NumberToken` |
