# libobs hotkey platform layer (Linux/BSD) in Dafny

This project models the part of `libobs/obs-nix.c` that binds a hotkey backend and renders key combinations as text.

- **The hotkey backend registry.** `obs_hotkeys_callbacks` is a static table of six callbacks: init, free, is_pressed, key_to_str, key_from_virtual_key and key_to_virtual_key. `obs_hotkeys_platform_init` reads the current `obs_platform_type`. It binds the X11 set (platform `OBS_PLATFORM_DEFAULT`) or the Wayland set (`OBS_PLATFORM_WAYLAND`) as a unit, each only if that backend was compiled in. It then returns what the bound init returns. `obs_hotkeys_platform_free` calls the bound free and clears all six slots. Four wrappers forward to the bound callbacks.
- **The key-combination formatter.** `add_combo_key` and `obs_key_combination_to_str` append a combination's text to a caller-owned `dstr`, in place. Parts come in the fixed order Control, Meta (the Command flag), Alt, Shift, then the primary key. A part whose name is empty is skipped. `" + "` goes in only when the output already holds text.

Files:

- `platform.dfy`: `Platform.PlatformType`, the `obs_platform_type` enum.
- `keys.dfy`: `Keys.Key`, `Keys.Modifier` and `Keys.KeyCombination`.
- `wrappers.dfy`: `Option`.
- `hotkeys_registry.dfy`: `HotkeysRegistry`, covering the backends, the `Registry` class and the `HotkeysCore` class.
- `combination_format.dfy`: `CombinationFormat`, covering the specification function `Render`, a reference definition through `Join`, the lemmas, and the in-place methods over a `DStr` class.

Registry state:

- `Registry` has one field per callback slot. Each field is an `Option` of a function value, and `None` is a NULL pointer.
- Two constants `x11` and `wayland` hold the compiled-in backends. `None` stands for a build without `ENABLE_X11` or `ENABLE_WAYLAND`.
- The ghost field `bound` names the backend the slots come from.
- The ghost field `calls` records every call made into a backend's init or free.
- `Valid()` is the table's invariant: all six slots come from one compiled-in backend, or all six are NULL.
- A call through a NULL slot is undefined behaviour in the source. Each operation that makes such a call states a bound table as a `requires` clause. `KeyCombinationToStr` requires it only when the combination has a part to render, since otherwise the source calls no backend operation.

Formatter:

- `Render(out, c, name)` is the text `obs_key_combination_to_str` leaves in a string that held `out`, when the bound backend names keys by `name`.
- `RenderIsJoin` ties it to an independent definition: the non-empty strings among `out` and the part names, in order, joined by `" + "`.

## Model

| member | source | states |
|---|---|---|
| `HotkeysRegistry.Registry.constructor` | libobs/obs-nix.c:307-319 | The static table starts with all six slots NULL, nothing bound and no backend call made. |
| `HotkeysRegistry.Registry.Selected` | libobs/obs-nix.c:323-348 | The backend init ends up calling. A backend newly chosen over the prior binding is compiled in, and it is X11 exactly when the platform is `OBS_PLATFORM_DEFAULT`. When the compiled-in backend for the platform exists, that backend is chosen, whatever was bound before. Otherwise the prior binding stays. |
| `HotkeysRegistry.Registry.Bind` | libobs/obs-nix.c:325-333 | One six-assignment block (also 338-346): afterwards all six slots hold the given backend's operations (`Holds(ops)`), and `bound` and `calls` are unchanged. |
| `HotkeysRegistry.Registry.PlatformInit` | libobs/obs-nix.c:321-350 | With `OBS_PLATFORM_DEFAULT` and X11 compiled in, all six slots hold the X11 operations. With `OBS_PLATFORM_WAYLAND` and Wayland compiled in, all six hold the Wayland operations. With no compiled-in match, the slots keep their old contents. The all-or-nothing invariant holds afterwards. The result and the new hotkeys state are exactly those of the bound backend's init, called once. A call that would go through a NULL init slot is excluded by the precondition. |
| `HotkeysRegistry.Registry.PlatformFree` | libobs/obs-nix.c:352-362 | The bound backend's free is applied exactly once to the hotkeys state. Afterwards all six slots are NULL and the table is unbound. Freeing an unbound table (a NULL call) is excluded by the precondition. |
| `HotkeysRegistry.Registry.PlatformIsPressed` | libobs/obs-nix.c:364-368 | Returns exactly the bound backend's is_pressed result for the context and key. It changes nothing. |
| `HotkeysRegistry.Registry.KeyToStr` | libobs/obs-nix.c:370-373 | Returns exactly the name the bound backend's key_to_str gives the key. It changes nothing. |
| `HotkeysRegistry.Registry.KeyFromVirtualKey` | libobs/obs-nix.c:375-378 | Returns exactly the bound backend's key for the native code. It changes nothing. |
| `HotkeysRegistry.Registry.KeyToVirtualKey` | libobs/obs-nix.c:380-383 | Returns exactly the bound backend's native code for the key. It changes nothing. |
| `HotkeysRegistry.InitThenFree` | libobs/obs-nix.c:321-362 | Init followed by free on an unbound table calls the selected backend's init once and then its free once. It leaves the table unbound with all slots NULL, as it was before init. |
| `CombinationFormat.AppendName` | libobs/obs-nix.c:391-396 | One add_combo_key step keeps the old output as a prefix. It leaves the output unchanged exactly when the name is empty, and it grows the output otherwise. Into an empty output it writes just the name, so no leading separator. |
| `CombinationFormat.AppendNames` | libobs/obs-nix.c:385-396 | A run of add_combo_key steps keeps the old output as a prefix. |
| `CombinationFormat.AddComboKey` | libobs/obs-nix.c:385-399 | The caller's string becomes exactly one `AppendName` step applied to the bound backend's name for the key. |
| `CombinationFormat.Render` | libobs/obs-nix.c:401-419 | The text left in a string that held `out`: one add_combo_key step per set flag, then the primary key unless `OBS_KEY_NONE`. Its contract says no flags and `OBS_KEY_NONE` leave `out` as it was. `RenderIsJoin`, `RenderUnchanged` and `KeyNoneIgnored` pin down the rest. |
| `CombinationFormat.KeyCombinationToStr` | libobs/obs-nix.c:401-419 | On a bound table, the caller's string, updated in place, becomes `Render` of its old contents, the combination and the bound backend's key names. A combination with nothing to render needs no bound table and leaves the string unchanged, since the source then calls no backend operation. |
| `CombinationFormat.PartKeys` | libobs/obs-nix.c:404-418 | The keys rendered never include `OBS_KEY_NONE`. Every key except the primary key is a modifier key. A primary key other than `OBS_KEY_NONE` comes last. |
| `CombinationFormat.ModifierKeysExactly` | libobs/obs-nix.c:404-415 | A modifier's key is rendered exactly when its flag is set. |
| `CombinationFormat.ModifierKeysOrdered` | libobs/obs-nix.c:404-415 | The rendered modifier keys are strictly ordered Control, Meta, Alt, Shift, whatever the flags. |
| `CombinationFormat.AppendNamesIsJoin` | libobs/obs-nix.c:385-396 | Appending names one at a time equals joining, with `" + "`, the non-empty strings among the prior output and the names. So no separator is ever leading, trailing or doubled. |
| `CombinationFormat.RenderIsAppendNames` | libobs/obs-nix.c:401-419 | The formatter's five guarded steps equal appending the names of `PartKeys(c)` in order. |
| `CombinationFormat.RenderIsJoin` | libobs/obs-nix.c:401-419 | The rendered string is the prior output and the non-empty part names, in the fixed order, joined by `" + "`. |
| `CombinationFormat.RenderKeepsPrefix` | libobs/obs-nix.c:391-395 | What the output held before is kept as a prefix. |
| `CombinationFormat.RenderFromEmpty` | libobs/obs-nix.c:401-419 | Rendered into an empty string, the result is exactly the non-empty part names joined by `" + "`. |
| `CombinationFormat.AppendNamesUnchanged` | libobs/obs-nix.c:391-396 | Appending names leaves the output unchanged if and only if every name is empty. |
| `CombinationFormat.RenderUnchanged` | libobs/obs-nix.c:401-419 | The output is unchanged if and only if every rendered part's name is empty. |
| `CombinationFormat.EmptyCombinationUnchanged` | libobs/obs-nix.c:401-419 | No modifier flags and `OBS_KEY_NONE` leave the output unchanged. |
| `CombinationFormat.KeyNoneIgnored` | libobs/obs-nix.c:416-418 | A primary key of `OBS_KEY_NONE` never contributes, whatever name the backend would give it. |
| `CombinationFormat.RenderCtrlAltA` | libobs/obs-nix.c:404-418 | Control and Alt with primary key "A", named "Ctrl", "Alt" and "A", render as `"Ctrl + Alt + A"`. |
| `CombinationFormat.RenderControlBeforeShift` | libobs/obs-nix.c:404-415 | The flags {Shift, Control} render as `"Control + Shift"`, never Shift first. |
| `CombinationFormat.RenderSkipsEmptyModifier` | libobs/obs-nix.c:391-396 | Control named "" plus primary key "A" renders as `"A"`, with no leading separator. |

Behaviour of the code worth noting:

- **Init with no matching backend.** The code calls whatever the init slot holds: the earlier binding, or NULL. `Registry.Selected` models that, and the precondition excludes only the NULL case.
- **Free while unbound.** The code calls through a NULL free slot, so `PlatformFree` requires a bound table.
- **What "non-empty output" means.** The separator test looks at the caller's whole string, including what it held before the call. `Render` takes that prior content as `out`.

## Left out

- The system-information logging in libobs/obs-nix.c:90-305 (`log_processor_info`, `log_memory_info`, `log_kernel_version`, `log_distribution_info`, `log_system_info` and the rest). It is file, sysctl, sysinfo and uname I/O whose only effect is log output.
- `get_module_extension`, `add_default_module_paths` and `find_libobs_data_file` (libobs/obs-nix.c:40-88). They are compile-time path tables and filesystem probes through `check_path`, which is not part of this model.
- The concrete `obs_x11_*` and `obs_wayland_*` backends are not part of this model. Each backend is a value of `Operations` whose six function values are arbitrary. The state a backend's init and free change is the abstract type `CoreState`. The state is_pressed queries is the abstract type `PlatformContext`.
- Round trips between key_from_virtual_key and key_to_virtual_key. These are a property of each backend, not of this layer, which only forwards.
- `obs_set_platform` and `obs_get_platform` (libobs/obs-platform.h:33-37): their bodies are not part of this model. `PlatformInit` receives the current platform as a parameter. The display-pointer accessors are left out.
- `dstr` allocation and `dstr_free` (libobs/obs-nix.c:387, 398). Strings are `seq<char>` values, and the caller's `dstr` is a `DStr` object whose `text` field is reassigned.
- `Registry.KeyToStr`: the source's key_to_str fills a `dstr` out-parameter. The model returns the name instead. add_combo_key always passes a fresh empty `dstr`, so the model assumes the backend leaves exactly the key's name in it.
- The `INTERACT_*` bit values are not shown. The modifier mask is modelled as the set of flags that are set, so other bits of the mask have no effect, as in the source's `&` tests.
- `AppendNamesIsJoin`: "no doubled separator" is stated structurally, as a join of non-empty names. A backend name that itself contains `" + "` is not excluded.
- Concurrency between init/free and the dispatch calls. The source has no locking and assumes these calls are serialized.
