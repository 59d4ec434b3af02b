# DeskTitle gadget — verified model

DeskTitle is an Enlightenment panel gadget that shows the name of the
current virtual desktop. Most of `src/e_mod_main.c` is glue to the host
(Evas/Edje objects, Ecore timers, menus, configuration storage). This
project models the sequential logic under that glue, in four parts:

- **Config-item registry** (`_ut_config_item_get`, `_gc_id_new`). The lookup
  by id and the synthesis of a new id are pure functions in `ConfigItems`:
  `FindById`, `NewIdNumber` and `NewId`. They are built on C's `strrchr`,
  `atoi` and `%d`, written out in `CText`. The list update is the method
  `DeskTitle.Module.ConfigItemGet`, with the source's search loop.
  `ConfigItems.Resolved` states its whole effect.
- **Desktop-title selection** (`_ut_cb_check`). `DeskNames.SelectTitle` is
  the search. `DeskTitle.Check` runs the source's loop over the records and
  writes the gadget's text.
- **Single open-menu slot** (`_ut_cb_mouse_down`, `_ut_menu_cb_post`,
  `e_modapi_shutdown`). This is the `menu` field of `DeskTitle.Module`.
- **Instance registry and timer rebinding** (`_gc_init`, `_gc_shutdown`,
  `_ut_config_updated`). These are the `instances` and `timers` fields of
  `DeskTitle.Module` and the `monitor` field of each `Instance`.
  `Module.Valid()` is the invariant every `Module` method and
  `DeskTitle.ConfigUpdated` require and ensure; `DeskTitle.Check` writes only
  the themed object's text, which the invariant does not read. Each registered
  instance is there once and owns exactly one live timer, whose callback is
  for that instance. Every live timer belongs to a registered instance.

Config items, instances, timers and menus are classes. The source compares
them by pointer (`inst->ci != ci`), and Dafny object identity does the same.
The `timers` set holds this module's live Ecore timers. A timer is a handle
with a period and the instance its callback receives.

Behaviour of the program worth knowing:

- Ids are not checked for uniqueness. `ConfigItems.NewIdMayRepeat` gives a
  list whose synthesised id equals an existing id.
- A last id without `.` gives the number 0. A `.` followed by text in which
  `atoi` finds no digits gives `atoi` = 0, plus one, which is 1
  (`ConfigItems.NewIdNotNumeric`).
- A record with a non-null empty name matches, and the title is shown as the
  empty string.
- Only the polling variant exists: the title is refreshed by a timer. There is
  no desktop-change event handling and no rename dialog.

## Model

| member | source | states |
|---|---|---|
| `CText.LastIndexOf` | src/e_mod_main.c:249 | `strrchr`: None exactly when the character is absent; otherwise the index of an occurrence with none after it |
| `CText.FormatInt` | src/e_mod_main.c:252 | the `%d` text of a number is non-empty and has no '.'; it is the digits without a leading zero, or '-' followed by such digits |
| `CText.AtoiFormatInt` | src/e_mod_main.c:250-252 | `atoi` reads back every number that `%d` writes |
| `CText.AtoiNotNumeric` | src/e_mod_main.c:250 | `atoi` gives 0 when no digit follows the leading white space and the optional sign |
| `CText.Atoi` | src/e_mod_main.c:250 | `atoi`: a negative result only when the text after the white space starts with '-', a positive one only when it does not |
| `CText.AfterLastSplit` | src/e_mod_main.c:249-250 | the text after the last '.' of `p + "." + q`, when `q` has no '.', is `q` |
| `ConfigItems.ConfigItem.constructor` | src/e_mod_main.c:265-268 | a new item carries the given id and check and update intervals of 60 |
| `ConfigItems.FindById` | src/e_mod_main.c:257-262 | the index of the first item whose id is non-null and equal to the key; items with a null id are skipped; None when no item matches |
| `ConfigItems.Resolved` | src/e_mod_main.c:239-272 | the effect of a lookup: the returned item is in the new list, the old list is a prefix of it, and at most one item is added |
| `ConfigItems.FindByIdAppend` | src/e_mod_main.c:257-270 | appending an item keeps an existing first match; a new item with the key becomes the match; otherwise there is still none |
| `ConfigItems.ResolvedTwice` | src/e_mod_main.c:255-272 | a second lookup of the same id returns the item the first lookup found or created, and leaves the list unchanged |
| `ConfigItems.NewIdNumber` | src/e_mod_main.c:241-250 | the synthesised number is 0 for an empty list, and non-zero only when the last id contains '.' |
| `ConfigItems.NewId` | src/e_mod_main.c:252 | a synthesised id is "desktitle." followed by text with no '.', and the text after its last '.' is the `%d` form of the synthesised number; together these make everything after "desktitle." exactly that `%d` form |
| `ConfigItems.NewIdEmpty` | src/e_mod_main.c:241-252 | with no items the synthesised id is "desktitle.0" |
| `ConfigItems.NewIdNoDot` | src/e_mod_main.c:244-252 | a last id without '.' (such as the default "0") gives number 0 and id "desktitle.0" |
| `ConfigItems.NewIdAfterNumber` | src/e_mod_main.c:248-252 | a last id ending in '.' and the number n gives number n + 1 and id "desktitle." followed by n + 1 |
| `ConfigItems.NewIdAfterSeven` | src/e_mod_main.c:248-252 | a last id ending in ".7" gives "desktitle.8" |
| `ConfigItems.NewIdNotNumeric` | src/e_mod_main.c:249-252 | a suffix after the last '.' in which no digit follows the white space and optional sign gives number 1 |
| `ConfigItems.SynthesizedIdsCountUp` | src/e_mod_main.c:239-270 | after an item with the synthesised id is appended, the next synthesised number is one higher |
| `ConfigItems.NewIdMayRepeat` | src/e_mod_main.c:239-270 | no uniqueness check: after items "desktitle.0" and "0" the synthesised id is that of the first item |
| `DeskNames.SelectTitle` | src/e_mod_main.c:423-437 | a non-empty title exists only when some record names the zone's current desk |
| `DeskNames.SelectTitleFirst` | src/e_mod_main.c:423-434 | the first record that names the desk decides the title; null records, other zones, other desks and matching records with a null name before it are skipped |
| `DeskNames.SelectTitleNone` | src/e_mod_main.c:423-437 | with no record naming the desk the title is the empty string |
| `DeskNames.SelectTitleSound` | src/e_mod_main.c:423-437 | the title is always the name of a record for the zone and desk, or empty |
| `DeskTitle.RemoveFirst` | src/e_mod_main.c:129 | `eina_list_remove`: an absent element leaves the list unchanged; a present one is removed at its first occurrence and the elements before and after it keep their order, so the list shrinks by one and loses exactly one copy of it |
| `DeskTitle.RemoveFirstDistinct` | src/e_mod_main.c:129 | removing an instance from a list without repeats leaves a list without repeats that holds every other instance and not the removed one |
| `DeskTitle.Module.Load` | src/e_mod_main.c:325-336 | startup keeps the loaded items; with none loaded, one fresh item "0" with intervals 60; no instances, no menu, no timers; the invariant holds |
| `DeskTitle.Module.ConfigItemGet` | src/e_mod_main.c:232-273 | a known non-null id returns the first item with it and changes nothing; otherwise one fresh item is appended with that id, or with the synthesised id for a null id, and intervals 60; a null id always creates; the invariant is kept |
| `DeskTitle.Module.IdNew` | src/e_mod_main.c:165-172 | returns the synthesised id and appends exactly one fresh item carrying it, with check and update intervals of 60; the invariant is kept |
| `DeskTitle.Module.GadconInit` | src/e_mod_main.c:84-113 | the instance gets the resolved item and is appended to the instance list; it gets a fresh timer of period 0.1 that is added to the live timers; the menu is untouched and the invariant is kept |
| `DeskTitle.Module.GadconShutdown` | src/e_mod_main.c:115-136 | with a null client, null client data or null themed object nothing changes; otherwise the instance's timer is cancelled and the instance leaves the list; the invariant is kept |
| `DeskTitle.Module.MouseDown` | src/e_mod_main.c:174-193 | with a menu open nothing changes; otherwise button 3 records a fresh menu for the instance and any other button leaves the slot empty; the invariant is kept |
| `DeskTitle.Module.MenuPost` | src/e_mod_main.c:215-221 | the slot is empty afterwards, whether or not a menu was open; the invariant is kept |
| `DeskTitle.Module.Unload` | src/e_mod_main.c:343-376 | module shutdown leaves no open menu and no items; the invariant is kept |
| `DeskTitle.ConfigUpdated` | src/e_mod_main.c:275-293 | every instance bound to the item gets a fresh timer with the item's update interval, and its old timer is cancelled; all other instances and timers are untouched; the invariant is kept; without a configuration nothing happens |
| `DeskTitle.Check` | src/e_mod_main.c:411-440 | a present instance's text becomes the selected title and the timer is kept; only a null instance stops the timer |

## Left out

- Rendering is not modelled: Evas/Edje objects, theme and icon file paths, `_gc_icon`, `_gc_orient` and `_gc_label`. The themed object is reduced to the text of its "desktitle" part.
- Menu construction, labels, icons, positioning and the synthetic mouse-up are host UI calls, so only the slot state is kept. `_ut_menu_cb_configure` opens the settings dialog, and `e_mod_config.c` is not part of this model.
- Configuration storage (`E_CONFIG_DD`, `e_config_domain_load`, `e_modapi_save`) and locale binding are I/O. The result of loading is a parameter of `Module.Load`.
- Memory freeing, string sharing, mouse-callback registration and gadget-provider registration have no state the model keeps.
- In `e_modapi_shutdown`, the deletion of an open settings dialog is left out, because that dialog's code is not part of this model.
- `DeskTitle.Check` takes the zone number and the current desk position as parameters. In the source they come from host queries (`inst->gcc->gadcon->zone`, `e_desk_current_get`). The record list is a parameter too.
- Timer scheduling and firing are host-driven. A timer is a handle with a period. Periods are `real`, so the rounding of the double 0.1 is not modelled.
- `CText.Atoi`: works on unbounded integers. C's `int` range, and the undefined behaviour of `atoi` and of the `+ 1` on overflow, are not modelled.
- Strings are `seq<char>`. The NUL termination of C strings is not modelled.
- `DeskTitle.Module.ConfigItemGet`, `DeskTitle.Module.IdNew` and `DeskTitle.Module.GadconInit`: a null id when the last item's id is null is excluded by a precondition (`ConfigItems.CanSynthesize`). There the source calls `strrchr` on a null pointer, which is undefined behaviour.
- `DeskTitle.Module.GadconShutdown`: requires that a client passing the three null checks carries a registered instance. The host only shuts down clients that `_gc_init` created, and this is what lets the invariant be kept.
