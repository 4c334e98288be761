# LibPinyinBackEnd bridge model

This project is a Dafny model of `LibPinyinBackEnd`, the bridge in ibus-libpinyin between the input method and the libpinyin conversion library (`src/PYLibPinyin.cc`). The bridge does three things, and the model covers each:

- **Lazy, at-most-once contexts.** It creates the Pinyin and the Chewing (bopomofo) context on first demand. It creates the per-scheme cache directory and applies the current configuration at once.
- **Option translation.**
  - It maps the option bitmask through the 20-row fuzzy table onto libpinyin's ambiguity toggles, plus the incomplete-pinyin switch.
  - It maps the keyboard indices through the double-pinyin table (0..5) and the zhuyin table (0..3).
- **Debounced saving of the user database.**
  - `modified()` restarts a timer and arms at most one recurring 300-second task.
  - The task saves and stops only once 300 seconds have passed since the last change.
  - The destructor saves once, if a task is armed, and then finalises the contexts.

Modules:

- `Wrappers` (`wrappers.dfy`): the `Option` type.
- `LibPinyinOptions` (`options.dfy`): the three tables and the settings value. It also holds `BuildFuzzySettings`, the settings loop of `setFuzzyOptions`, proved against `FuzzySettings`, the reference function "the toggles of exactly the rows whose bit is set".
- `LibPinyin` (`backend.dfy`): the class `LibPinyinBackEnd`, with these fields:
  - `scheduled` is `m_timeout_id != 0`.
  - `elapsed` holds the whole seconds read from `m_timer`.
  - `pinyinContext` and `chewingContext` are the two contexts.
  - The ghost field `armed` counts the main-loop sources that call the callback.
  - The ghost field `log` records the directory creations and libpinyin's init, alloc, free, save and fini calls, in order. The settings and scheme calls are kept only as the last value applied, in `Context`; the GLib timer and source calls are kept as `elapsed`, `scheduled` and `armed`.

  `Valid()` is the bridge's invariant. One source is armed exactly while a task is recorded. Each context has been initialised exactly once while it exists, and never while it does not.
- `LibPinyinScenarios` (`scenarios.dfy`): clients that derive the end-to-end behaviour from the contracts alone:
  - three `modified()` calls arm one task;
  - a firing inside the quiet period saves nothing;
  - two allocations share one context;
  - teardown saves before it finalises;
  - index 2 selects ABC, and index 7 leaves the scheme alone.

libpinyin is treated as a black box. A context is the record of what the bridge applied to it: its data and user directories, its last fuzzy settings and its last keyboard schemes. Every other library call, and every directory creation, is recorded as an `Effect` in the ghost log. Three inputs become parameters: the outcome of the directory creation, the home directory, and the passage of time. Time passes through `Wait(seconds)`, and the main loop firing the task is `Dispatch()`.

Two behaviours of the code worth noting:

- The Chewing context is always initialised with no user directory. The `libbopomofo` cache directory is still created, and then dropped (`src/PYLibPinyin.cc:83-91`).
- The keyboard loops call the setter for every matching row, so the last match wins (`LastMatch`). With the tables as given, at most one row matches.

## Model

| member | source | states |
|---|---|---|
| `LibPinyinOptions.RowOf` | src/PYLibPinyin.cc:118-140 | every ambiguity toggle has a row of the fuzzy table that carries it |
| `LibPinyinOptions.RowOfInverse` | src/PYLibPinyin.cc:118-140 | no toggle appears on two rows, so a row determines its toggle and vice versa |
| `LibPinyinOptions.EnabledExtend` | src/PYLibPinyin.cc:155-159 | one more loop iteration adds the row's toggle exactly when the row's bit is set in the mask |
| `LibPinyinOptions.BuildFuzzySettings` | src/PYLibPinyin.cc:148-159 | the settings loop sets the incomplete switch, clears every toggle, and switches on each row whose bit is set. The result equals `FuzzySettings(option, bits)`, whatever the settings held before |
| `LibPinyinOptions.FuzzyToggleExactly` | src/PYLibPinyin.cc:115-159 | a toggle is on exactly when its row's bit is set in the mask, with no extras and no omissions. `use_incomplete` is on exactly when the incomplete bit is set |
| `LibPinyinOptions.CiChiWithIncomplete` | src/PYLibPinyin.cc:120-159 | with non-overlapping bits, a mask holding only the c/ch bit and the incomplete bit gives exactly `use_incomplete` and `AmbCiChi` |
| `LibPinyinOptions.LastMatch` | src/PYLibPinyin.cc:186-192 | the scheme set by a table loop is None iff no row has the index. Otherwise it is the scheme of a matching row with no later match |
| `LibPinyinOptions.LastMatchByIndex` | src/PYLibPinyin.cc:217-223 | in a table keyed 0..n-1, index k selects row k and any other index selects nothing |
| `LibPinyinOptions.ShuangPinLookup` | src/PYLibPinyin.cc:167-177 | indices 0..5 select `shuang_pin_options[index]` (2 selects ABC). Any other index selects no scheme |
| `LibPinyinOptions.ZhuYinLookup` | src/PYLibPinyin.cc:198-207 | indices 0..3 select `chewing_options[index]`. Any other index selects no scheme |
| `LibPinyin.InitCountAppend` | src/PYLibPinyin.cc:59-66 | the count of `pinyin_init` calls in a log is additive over concatenation. `Valid()` uses it to keep each context at one init |
| `LibPinyin.LibPinyinBackEnd.constructor` | src/PYLibPinyin.cc:34-39 | no armed task, a freshly started timer, no contexts, nothing called yet |
| `LibPinyin.LibPinyinBackEnd.Destroy` | src/PYLibPinyin.cc:41-54 | one save of the existing contexts happens iff a task is armed. The task is removed, then each existing context is finalised, and both become null |
| `LibPinyin.LibPinyinBackEnd.AllocPinyinInstance` | src/PYLibPinyin.cc:56-71 | an existing context is reused unchanged. Otherwise the cache directory is created and the context is initialised once, with the user directory only if mkdir succeeded. The configuration is then applied. The instance comes from the Pinyin context |
| `LibPinyin.LibPinyinBackEnd.FreePinyinInstance` | src/PYLibPinyin.cc:73-77 | the given instance is handed back to libpinyin (a `Free` of its own kind is recorded) and nothing else changes |
| `LibPinyin.LibPinyinBackEnd.AllocChewingInstance` | src/PYLibPinyin.cc:79-94 | an existing context is reused unchanged. Otherwise the bopomofo directory is created, the context is initialised once with no user directory whatever mkdir returned, and the configuration is applied |
| `LibPinyin.LibPinyinBackEnd.FreeChewingInstance` | src/PYLibPinyin.cc:96-100 | the given instance is handed back to libpinyin (a `Free` of its own kind is recorded) and nothing else changes |
| `LibPinyin.LibPinyinBackEnd.SetFuzzyOptions` | src/PYLibPinyin.cc:143-164 | requires the context. Its settings become `FuzzySettings(option)`, the other context is untouched, and the result is always true |
| `LibPinyin.LibPinyinBackEnd.SetPinyinOptions` | src/PYLibPinyin.cc:179-196 | with no Pinyin context it returns false and changes nothing. Otherwise the double-pinyin scheme becomes the table's match for the index, or stays as it was when none matches. The fuzzy settings are applied and the result is true |
| `LibPinyin.LibPinyinBackEnd.SetChewingOptions` | src/PYLibPinyin.cc:210-227 | with no Chewing context it returns false and changes nothing. Otherwise the zhuyin scheme becomes the table's match for the index, or stays as it was. The fuzzy settings are applied and the result is true |
| `LibPinyin.LibPinyinBackEnd.Modified` | src/PYLibPinyin.cc:229-241 | elapsed time becomes 0 and exactly one task is armed, however many times it is called |
| `LibPinyin.LibPinyinBackEnd.Wait` | src/PYLibPinyin.cc:249 | the timer advances by the given whole seconds |
| `LibPinyin.LibPinyinBackEnd.TimeoutCallback` | src/PYLibPinyin.cc:243-258 | at 300 s or more it saves the existing contexts, clears the task and returns false. Below that it saves nothing, keeps the task and returns true |
| `LibPinyin.LibPinyinBackEnd.Dispatch` | src/PYLibPinyin.cc:238-258 | a firing removes the main-loop source exactly when the callback returns false, so `Valid()` (one source iff a task is recorded) is preserved |
| `LibPinyin.LibPinyinBackEnd.SaveUserDB` | src/PYLibPinyin.cc:260-268 | saves exactly the contexts that exist, Pinyin first, and returns true |

## Left out

- libpinyin itself is not modelled:
  - what `pinyin_init`, `pinyin_fini`, `pinyin_alloc_instance`, `pinyin_free_instance`, `pinyin_set_options`, `pinyin_set_double_pinyin_scheme`, `pinyin_set_chewing_scheme` and `pinyin_save` do inside the library;
  - context creation failing;
  - the library's identity of instances.

  These calls appear only as recorded effects and as the context record. An `Instance` records only which context it came from.
- `PinyinCustomSettings` is unseen (the contracts of `CustomSettings.SetUseIncomplete`, `CustomSettings.SetUseAmbiguities` and `Option.Or` only spell out the assumed behaviour):
  - Its default contents are not modelled; `BuildFuzzySettings` is proved independent of them.
  - `set_use_ambiguities(PINYIN_AmbAny, value)` is taken to set every toggle to `value`, as the name says.
- The numeric values of `PINYIN_FUZZY_*` and `PINYIN_INCOMPLETE_PINYIN` are defined in a header that is not part of this model. They are the parameter `OptionBits`.
- Path handling uses plain concatenation, `<home>/.cache/ibus/<leaf>`. `g_build_filename`'s separator normalisation, `g_get_home_dir`, `g_free` and the 0700 mode are not modelled. Whether `g_mkdir_with_parents` succeeds is an input.
- The GLib timer and main loop are not modelled:
  - `g_timer_elapsed` is a whole number of seconds (the source truncates the double to `guint`).
  - No floating point and no 32-bit limit on elapsed time.
  - The 300-second firing period is not enforced: `Dispatch` may be called at any time while the task is armed.
  - `g_timer_destroy` and the numeric source id are left out.
- The singleton plumbing is left out: `m_instance`, `init`, `finalize`, the static `libpinyin_backend`, and `g_assert` beyond the precondition of `SetFuzzyOptions`.
- `Config`, `PinyinConfig` and `BopomofoConfig` are not part of this model. Their values arrive as the `Config` parameter.
- LibPinyin.LibPinyinBackEnd.Destroy: as in the source, the task flag is not reset. The object is not valid afterwards and is not used again.
