# Genio editor core, modelled in Dafny

This project models four pieces of sequential logic from Genio, the Haiku IDE.
It states and proves their properties with the Dafny verifier.

- **Tab strip** (`tab_manager.dfy`, module `TabStrip`). The editor's tab bar is a sequence of tabs. Each tab records the view it shows, its label and its colour. The module covers:
  - the index lists that the "Close", "Close all" and "Close other" menu entries send to the window;
  - the close message itself;
  - looking up the tab of a view;
  - the selected-index check;
  - adding, removing and moving tabs;
  - the close-button setting;
  - the debounce of the button that opens the tab menu.
- **Console pane** (`console_io.dfy`, module `ConsoleIO`). Command output arrives per stream and is filtered by the stdout and stderr check boxes. It waits in a FIFO and is appended to the text view one item per `MSG_POST_OUTPUT`. The filter is checked again at display time. The pane also has an at-most-one-command state machine, the start and end banners, and the pipe flush in `Pulse`.
- **Settings store** (`config_manager.dfy`, module `Config`). It holds a key/value storage, one descriptor per registered setting, and the change notices sent to the application. It also models the `manager[key]` proxy, which reads and writes one setting.
- **Text helpers** (`text_utils.dfy`, module `TextUtils`). These are the word alphabet, `Contains` (through `std::string::find`), `IsASpace` and `EscapeQuotesWrap`.

`wrappers.dfy` holds `Option` and `Result`. `interface_kit.dfy` holds `rgb_color`.

Sent messages are not delivered in the model. They are appended to sequences on the sender:
- the tab manager's messages to its target;
- the console's self-posted `MSG_POST_OUTPUT` count and its messages to the window;
- the settings' notices.

Values from the environment are parameters:
- the click time and the double-click interval;
- whether the command's process is alive;
- what its pipes hold;
- whether the application object exists.

## Model

| member | source | states |
|---|---|---|
| `TextUtils.Find` | src/helpers/TextUtils.cpp:12 | `s.find(ch)`: Npos (-1) exactly when no position holds `ch`, otherwise the first position that holds it |
| `TextUtils.Contains` | src/helpers/TextUtils.cpp:11-13 | true iff some position of `s` holds `ch` |
| `TextUtils.IsASpace` | src/helpers/TextUtils.cpp:15-17 | true exactly for the codes 0x20 and 0x09..0x0d; every other integer, negative ones, 0x08 and 0x0e included, is not a space |
| `TextUtils.EscapeQuotesWrap` | src/helpers/TextUtils.cpp:19-24 | the result is two characters longer, starts and ends with `"`, and holds the path unchanged in between (inner quotes are not escaped) |
| `TextUtils.WordCharactersExactly` | src/helpers/TextUtils.cpp:9 | `Contains(wordCharacters, c)` holds iff `c` is `_`, an ASCII letter or an ASCII digit |
| `TextUtils.WordCharactersDistinct` | src/helpers/TextUtils.cpp:9 | the word alphabet has 63 characters, no two equal |
| `TabStrip.Countdown` | src/helpers/tabview/TabManager.cpp:470-472 | the list "Close all" builds: `count` entries, entry `k` is `count-1-k` |
| `TabStrip.CountdownExcept` | src/helpers/tabview/TabManager.cpp:482-485 | the list "Close other" builds: every index in range but the skipped one, strictly decreasing, one shorter exactly when the skipped index is in range |
| `TabStrip.CountdownCoversAll` | src/helpers/tabview/TabManager.cpp:466-475 | "Close all" names each index in `[0,count)` exactly once, strictly decreasing |
| `TabStrip.CountdownExceptOutOfRange` | src/helpers/tabview/TabManager.cpp:476-489 | a "tab_index" outside the strip makes "Close other" close the same tabs as "Close all" |
| `TabStrip.CountdownExceptExtend` | src/helpers/tabview/TabManager.cpp:482-485 | one more loop step adds the next lower index unless it is the skipped one |
| `TabStrip.FirstIndexOf` | src/helpers/tabview/TabManager.cpp:941-951 | the smallest index whose tab shows the view, or -1 exactly when no tab shows it |
| `TabStrip.RemoveAt` | src/helpers/tabview/TabManager.cpp:1085 | removing an item: one shorter, items before the index unchanged, items after it shifted down by one |
| `TabStrip.InsertAt` | src/helpers/tabview/TabManager.cpp:1044 | inserting an item: one longer, the new item at the index, the others unchanged and in order |
| `TabStrip.MoveItemPlacesEntry` | src/helpers/tabview/TabManager.cpp:1056-1075 | a moved tab lands at `to` with its view, label and colour, and the strip keeps its length |
| `TabStrip.MoveItemKeepsOthersInOrder` | src/helpers/tabview/TabManager.cpp:1056-1075 | all other tabs keep their relative order |
| `TabStrip.MoveItemPermutes` | src/helpers/tabview/TabManager.cpp:1056-1075 | moving is a permutation: no tab is lost or added |
| `TabStrip.MoveItemUndo` | src/helpers/tabview/TabManager.cpp:1056-1075 | moving from `to` back to `from` restores the strip |
| `TabStrip.TabManager.constructor` | src/helpers/tabview/TabManager.cpp:836-878 | a new manager has no tabs, no visible item, nothing sent, and a controller with close buttons available |
| `TabStrip.TabManager.CountTabs` | src/helpers/tabview/TabManager.cpp:1101-1105 | the number of tabs |
| `TabStrip.TabManager.ViewForTab` | src/helpers/tabview/TabManager.cpp:931-938 | the view of the tab at the index, or None (NULL) exactly when there is no such tab |
| `TabStrip.TabManager.TabLabel` | src/helpers/tabview/TabManager.cpp:1114-1122 | the label of the tab at the index, or the empty string when there is no such tab |
| `TabStrip.TabManager.TabForView` | src/helpers/tabview/TabManager.cpp:941-951 | the search loop returns the first matching index or -1 |
| `TabStrip.TabManager.HasView` | src/helpers/tabview/TabManager.cpp:954-958 | true iff some tab shows the view |
| `TabStrip.TabManager.SelectTab` | src/helpers/tabview/TabManager.cpp:966-1000 | selecting a tab in range shows its card and sends TABMANAGER_TAB_SELECTED with its index |
| `TabStrip.TabManager.SelectTabOfView` | src/helpers/tabview/TabManager.cpp:1002-1008 | selects the first tab showing the view if there is one, and changes nothing otherwise |
| `TabStrip.TabManager.SelectedTabIndex` | src/helpers/tabview/TabManager.cpp:1011-1024 | out_of_range exactly when the visible index is not below the tab count, otherwise the visible index unchanged (a negative one included) |
| `TabStrip.TabManager.CloseTabs` | src/helpers/tabview/TabManager.cpp:1027-1034 | exactly one TABMANAGER_TAB_CLOSE_MULTI message is sent, with `tabIndex[0..size)` in order and nothing else |
| `TabStrip.TabManager.AddTab` | src/helpers/tabview/TabManager.cpp:1037-1054 | the new tab is inserted at the index with the panel colour, and TABMANAGER_TAB_NEW_OPENED with the index is sent |
| `TabStrip.TabManager.RemoveTab` | src/helpers/tabview/TabManager.cpp:1078-1098 | an index with no tab returns None and changes nothing; otherwise exactly that tab goes and its view is returned |
| `TabStrip.TabManager.MoveTabs` | src/helpers/tabview/TabManager.cpp:1056-1075 | the strip becomes "remove at `from`, insert at `to`", `to` becomes the selected index, and one selection message is sent |
| `TabStrip.TabManager.SetCloseButtonsAvailable` | src/helpers/tabview/TabManager.cpp:1144-1151 | afterwards the controller's `CloseButtonsAvailable()` is the new value, and a redraw is requested only when the value changed |
| `TabStrip.TabManagerController.constructor` | src/helpers/tabview/TabManager.cpp:781-791 | close buttons start available |
| `TabStrip.TabManagerController.SetCloseButtonsAvailable` | src/helpers/tabview/TabManager.cpp:433-436 | reading the setting back with `CloseButtonsAvailable()` gives the value set |
| `TabStrip.TabManagerController.CloseTab` | src/helpers/tabview/TabManager.cpp:816-820 | sends a close message naming exactly that one tab |
| `TabStrip.TabManagerController.MoveTabs` | src/helpers/tabview/TabManager.cpp:451-454 | forwards the drag and gets the manager's move guarantees |
| `TabStrip.TabManagerController.HandleTabMenuAction` | src/helpers/tabview/TabManager.cpp:456-493 | "Close" with a "tab_index" closes that tab. "Close all" closes `count-1` down to 0. "Close other" closes every other tab, highest index first. Without "tab_index", or for any other message, nothing is sent |
| `TabStrip.TabManagerController.CloseButtonsAvailable` | src/helpers/tabview/TabManager.cpp:438-441 | the recorded setting: true for a new controller (constructor) and the last value given to `SetCloseButtonsAvailable` |
| `TabStrip.TabMenuTabButton.OpensMenu` | src/helpers/tabview/TabManager.cpp:191-192 | a disabled or already-down button never opens the menu; otherwise a click opens it iff at least `clickSpeed` has passed since the menu closed |
| `TabStrip.TabMenuTabButton.LaterClickOpens` | src/helpers/tabview/TabManager.cpp:191-192 | waiting longer never stops a click from opening the menu |
| `TabStrip.TabMenuTabButton.constructor` | src/helpers/tabview/TabManager.cpp:167-171 | a new button is up and its close time is 0 |
| `TabStrip.TabMenuTabButton.MouseDown` | src/helpers/tabview/TabManager.cpp:185-200 | the button fires (one invocation, then down) iff it is enabled, not down, and `clickTime >= closeTime + clickSpeed` |
| `TabStrip.TabMenuTabButton.MenuClosed` | src/helpers/tabview/TabManager.cpp:207-211 | the button is up, it records the close time, and no click before `closeTime + clickSpeed` can open the menu |
| `Config.Descriptor` | src/config/ConfigManager.h:29-38 | the registered descriptor holds exactly the template's fields plus the six descriptor fields. Those six take the arguments' values. Every other field is the template's |
| `Config.ConfigManager.constructor` | src/config/ConfigManager.h:19 | empty storage and registry; the notice code is the one given |
| `Config.ConfigManager.UpdateMessageWhat` | src/config/ConfigManager.h:60 | the notice code given at construction (a constant field, so no operation changes it) |
| `Config.ConfigManager.Get` | src/config/ConfigManager.h:65-66 | the stored value of the key, None when there is none |
| `Config.ConfigManager.AddConfig` | src/config/ConfigManager.h:21-43 | `storage[key]` becomes the default value, `get` returns it, and exactly one descriptor is appended |
| `Config.ConfigManager.Set` | src/config/ConfigManager.h:68-79 | an invalid key changes nothing and sends nothing. A valid key changes only `storage[key]`, so `get` then returns the new value. One notice is sent with the notice code, the key and the value, if the application exists |
| `Config.ConfigManagerReturn.constructor` | src/config/ConfigManager.h:91-94 | the proxy refers to its key and manager |
| `Config.ConfigManagerReturn.Read` | src/config/ConfigManager.h:96-97 | reading the proxy is `get` of its key |
| `Config.ConfigManagerReturn.Assign` | src/config/ConfigManager.h:99-100 | assigning to the proxy is `set` of its key, with the same guarantees |
| `ConsoleIO.AcceptsExactly` | src/helpers/console_io/ConsoleIOView.cpp:250-253 | fd 1 passes iff stdout is enabled, fd 2 iff stderr is enabled, every other stream always |
| `ConsoleIO.RunColor` | src/helpers/console_io/ConsoleIOView.cpp:321-331 | stderr text is (236,126,14) and all other text (0,0,0), both with alpha 255 |
| `ConsoleIO.Banner` | src/helpers/console_io/ConsoleIOView.cpp:211-217 | the banner is 32 dashes, 3 spaces, the command type, a space, the status, 32 dashes and a newline, position by position |
| `ConsoleIO.ConsoleIOView.constructor` | src/helpers/console_io/ConsoleIOView.cpp:50-67 | a new view shows no text, has nothing pending and runs nothing; its stdout and stderr check boxes start off and its Stop button enabled (the widgets' defaults) until it is attached |
| `ConsoleIO.ConsoleIOView.AttachedToWindow` | src/helpers/console_io/ConsoleIOView.cpp:222-239 | both streams are enabled and Stop is disabled |
| `ConsoleIO.ConsoleIOView.ConsoleOutputReceived` | src/helpers/console_io/ConsoleIOView.cpp:247-265 | output of a disabled stream is dropped. Any other output is appended at the tail of the queue, and one post request is sent |
| `ConsoleIO.ConsoleIOView.HandleConsoleOutput` | src/helpers/console_io/ConsoleIOView.cpp:309-341 | the filter is checked again. Passing text is appended at the end of the buffer, with a style run starting at the old length in the stream's colour |
| `ConsoleIO.ConsoleIOView.PostOutputReceived` | src/helpers/console_io/ConsoleIOView.cpp:164-173 | sends no post request. On an empty queue, nothing else changes. Otherwise exactly the head leaves the queue, FIFO. If its stream is still enabled, its text is appended with a style run at the old length in the stream's colour; if not, the text view is unchanged |
| `ConsoleIO.ConsoleIOView.ClearOutputReceived` | src/helpers/console_io/ConsoleIOView.cpp:152-163 | the text buffer and the pending queue are both empty |
| `ConsoleIO.ConsoleIOView.BannerMessage` | src/helpers/console_io/ConsoleIOView.cpp:205-220 | the banner is sent as stdout output only when the `console_banner` setting is on. It is queued with one post request exactly when stdout is also enabled |
| `ConsoleIO.ConsoleIOView.RunProcessReceived` | src/helpers/console_io/ConsoleIOView.cpp:174-191 | a command runs afterwards and nothing goes to the window. If one ran already, Stop is unchanged, and the "Another command is running." notice is queued with one post request if stdout is enabled. Otherwise Stop is enabled and the "started" banner is queued with one post request when the banner setting and stdout are on |
| `ConsoleIO.ConsoleIOView.StopCommand` | src/helpers/console_io/ConsoleIOView.cpp:117-134 | when idle, the queue, post requests, Stop and window messages are unchanged. When running, the command ends and Stop is disabled. The "ended" banner is queued with one post request when the banner setting and stdout are on. Exactly one exit message with the command type is posted |
| `ConsoleIO.ConsoleIOView.MessageReceived` | src/helpers/console_io/ConsoleIOView.cpp:136-202 | STDERR/STDOUT with their string queue it on fd 2/1 as ConsoleOutputReceived does; without it nothing changes. Clear empties text, runs and queue. Post output, run process and stop/exit have exactly the effect of their handlers above, and leave the text view alone except for post output. Unknown codes change nothing |
| `ConsoleIO.ConsoleIOView.Pulse` | src/helpers/console_io/ConsoleIOView.cpp:96-115 | with no command, or while its process lives, nothing changes. Once the process is gone and the pipes are read, non-empty stdout then stderr contents are queued through the filter, with one post request each, and nothing else changes. If the pipes cannot be read, the effect is exactly StopCommand's |

## Left out

- The Language Server Protocol transport (`src/lsp-client/Transport.h`). It only declares `notify`, `request`, `readStep`, `readMessage` and `writeMessage` and has no bodies. There is no framing, codec or request correlation in the code to model.
- Drawing, layout and mouse geometry in `TabManager.cpp`. This covers the tab and button drawing, sizes, contrast tints, and placing the tab pop-up menu. The scroll and menu messages of the tab container group are also left out. It is all floating-point UI work, and the tab container's `SetFirstVisibleTabIndex` is not shown.
- The console's auto-scroll (`ConsoleIOView.cpp:333-345`). It compares floating-point scroll-bar positions.
- The console's widget construction in `_Init`.
- The wrap and banner check boxes that `MSG_CLEAR_OUTPUT` and `AttachedToWindow` reset from the settings. Only the `console_banner` setting itself decides whether a banner is shown.
- Spawning, interrupting and killing the command's process, and reading its pipes. Their outcomes are parameters of `Pulse`.
- Message delivery through `BMessenger` and `Window()->PostMessage`. Sent messages are recorded on the sender and never delivered.
- `ConsoleIO.ConsoleIOView.ConsoleOutputReceived`: a failed allocation of the output record (`new(std::nothrow)`, `AddItem`) is not modelled, because memory exhaustion is outside the model.
- Translation (`B_TRANSLATE`). The notice is the untranslated English text.
- The code that sets `fCmdType`. It is not in `ConsoleIOView.cpp`, so the command type is given at construction.
- `EnableStopButton`, `Clear` and `RunCommand`. They only set the button or send `MSG_CLEAR_OUTPUT` or `MSG_RUN_PROCESS`, whose handlers are modelled.
- The `BAutolock` locking in `ConfigManager.h`, because it is concurrency.
- `LoadFromFile`, `SaveToFile`, `ResetToDefaults`, `HasAllDefaultValues`, `PrintAll`, `PrintValues`, `Has` and `operator[]`. They are file I/O or are declared without bodies.
- `_CheckKeyIsValid`. It is declared without a body, so the store takes it as a predicate given at construction.
- `Config.ConfigManager.Get`: `GMessage`'s lookup of a key with no value is not shown. The model answers None for it.
- `Config.TypeCode`: `MessageValue<T>::Type()` is not shown. The model uses Haiku's type constants for bool, int32 and string settings only.
- The `BCardLayout` and `TabContainerView` internals, which are not shown. The card items and the container's tabs are one sequence. The card layout keeps its visible item by identity: removing it leaves no visible item, and inserting or removing an item before it shifts its index.
- `TabStrip.TabManager.SelectTab`: the container's selection is assumed to call back `TabSelected` with the same index, as the comment at `TabManager.cpp:966-971` says. Selecting an index outside the strip is taken to do nothing.
- The fields of `selInfo` and `addInfo` that `TabSelected` and `AddTab` copy into their messages.
- The container's reselection when a tab is removed (`TabContainerView::RemoveTab`).
- `TabStrip.TabManager.MoveTabs` requires `from` and `to` to name existing tabs. With a bad `from`, `RemoveTab` returns NULL and the unshown container and card layout decide what happens next.
- `TabStrip.TabManager.AddTab` requires an index in `[0, count]`. What the card layout does with other indices is not shown.
- `SetTabLabel`, `SetTabIcon`, `SetTabColor`, the tool-tip code and the getters `TabGroup`, `GetTabContainerView`, `ContainerView` and `Target`. They forward to the unshown container or return a field.
- `int32` and `bigtime_t` are modelled as unbounded integers. Tab counts, indices and click times never come near the limits.
- Byte strings. `std::string` and `BString` hold bytes, and the model uses Dafny character sequences without an encoding. The lengths in `Banner` and `EscapeQuotesWrap` count characters, which equal bytes only for ASCII text.
- `TextUtils.WordCharactersExactly`: the source writes the word alphabet as one 63-character literal. The model writes the same characters, in the same order, as four adjacent literals.
