# Dome explorer navigation core in Dafny

The dome explorer is a browser-based virtual tour. The visitor stands inside a
360° panorama projected onto a sphere (a *dome*). Clickable viewpoint buttons
move the visitor to the adjacent dome. This project models the navigation core
and proves properties of it. The core has three parts:

- **The viewpoint graph** (`configuration.dfy`, module `Configuration`). This is
  the static dome table: each key maps to a name, an asset path, a texture
  resolution and an ordered list of hotspots. The starting key is `Corridor`.
  Dome keys are a closed datatype, `DomeKey`, and the table is a constant
  `map<DomeKey, Dome>`. Predicates state what a well-formed table is:
  - every key present;
  - referential integrity of hotspot targets;
  - no self-targets;
  - hotspots inside the texture.

  Lemmas prove these predicates of the table, plus its exact shape. `Follow`
  gives the dome reached by a sequence of picks, and lemmas about it show the
  graph is strongly connected.
- **The dome manager** (`navigation.dfy`, class `Navigation.DomeManager`). It
  holds the current key, the photo dome and the list of live buttons.
  `InitDomeButtons` disposes every old button in order and empties the list.
  It then pushes one new button per hotspot of the current dome. A ghost log
  (`lifecycle`) records every creation and disposal. The log is written only by
  the button's constructor and by its `Dispose`, so it records the calls the
  code actually makes. The contracts use it to state that all disposals come
  before all creations, and that each old button is disposed exactly once.
- **The viewpoint button** (class `Navigation.ViewpointButton`). It has a
  default and an active material, pointer-over and pointer-out handlers, a
  pick handler and `Dispose`. The pick handler does three things: it sets the
  manager's key to the button's target, swaps the dome texture to the target
  path and rebuilds the buttons.

`tour.dfy` (module `Tour`) is client code. It models the start-up the
explorer intends: build the manager, then build the starting dome's buttons
with `InitDomeButtons`. It also walks the first move, from the corridor to the
main hall.

Where the snapshot does not type-check, the model follows its evident intent:

- `src/DomeManager.ts:47-53` omits the two materials that
  `src/Button.ts:37-40` declares. In the model, the manager owns a default
  material (`VIEWPOINT_TEXTURE`) and an active material
  (`VIEWPOINT_ACTIVE_TEXTURE`) and passes both to every button. Those two
  constants are imported at `src/DomeManager.ts:3`.
- `src/DomeExplorer.ts:67-70` calls `initButtonMaterials` and
  `initDomeViewpoints`, which do not exist. In the model, the materials are
  set in the manager's constructor, and the starting dome's buttons are built
  by `InitDomeButtons` (`Tour.StartTour`).
- `src/DomeManager.ts:3` imports `BUTTON_DISTANCE`, `BUTTON_SIZE` and
  `DOME_DIAMETER` from `./configuration`. They are defined in `src/settings.ts`.
  The model keeps them beside the table with the values from `src/settings.ts`.

`InitDomeButtons` is split into two helpers, `DisposeViewButtons` (the teardown
loop and the clear) and `CreateViewButtons` (the creation loop). The statements
and their order are the source's.

## Model

| member | source | states |
|---|---|---|
| Configuration.ConfigurationWellFormed | src/configuration.ts:23-51 | The key set is exactly corridor, main hall and old room. Every hotspot target and the starting key are keys of the table. No hotspot targets its own dome. Every hotspot pixel lies inside its dome's resolution. |
| Configuration.KeyInTable | src/configuration.ts:23-49 | Every dome key has an entry in the table, and the table has referential integrity, so the `as keyType` lookups never miss. |
| Configuration.HotspotTargetsPerDome | src/configuration.ts:24-48 | Corridor leads to main hall and old room, in that order. Main hall and old room each lead only to corridor. Every dome's texture is 4096×2048. |
| Configuration.FollowStaysInTable | src/configuration.ts:23-49 | In any table with referential integrity, every sequence of picks from a dome of the table ends on a dome of the table. |
| Configuration.PicksFromStartStayInTable | src/configuration.ts:23-51 | No sequence of picks from the starting dome ever reaches a key that the table lacks. |
| Configuration.FollowAppend | src/configuration.ts:23-49 | Following picks `p` and then picks `q` reaches the same dome as following `p + q`. |
| Configuration.EveryDomeReachable | src/configuration.ts:23-51 | Every dome can be reached from the starting dome by some sequence of picks. |
| Configuration.StartReachableFromEveryDome | src/configuration.ts:23-51 | From every dome, some sequence of picks leads back to the starting dome. |
| Configuration.StronglyConnected | src/configuration.ts:23-51 | Every dome can be reached from every other dome. |
| Navigation.HotspotBindings | src/DomeManager.ts:44-57 | Pushing one button per hotspot gives one binding per hotspot, in order. Binding j has hotspot j's target key, anchor, target asset path and target name. |
| Navigation.MirroredButton | src/DomeManager.ts:44-56 | If the buttons mirror the current dome, button j follows hotspot j. Its target path and label are the target dome's `assetPath` and `name`, and its anchor is hotspot j's pixel projected at `BUTTON_DISTANCE`. |
| Navigation.BindingsMatch | src/DomeManager.ts:44-57 | Buttons built one per hotspot, in order, have exactly that dome's bindings. |
| Navigation.LifecycleStaysValid | src/DomeManager.ts:35-56 | Appending the disposal of every live button and then creations never disposes any button twice. |
| Navigation.ViewpointButton.constructor | src/Button.ts:37-57 | A new button keeps its target key, path, name, anchor and both materials. Its mesh shows the default material and is not disposed. Building it appends exactly one creation of this button to its manager's log. |
| Navigation.ViewpointButton.PointerOver | src/Button.ts:64-70 | Pointer-over shows the active material and changes nothing else. |
| Navigation.ViewpointButton.PointerOut | src/Button.ts:72-78 | Pointer-out shows the default material again and changes nothing else. |
| Navigation.ViewpointButton.Pick | src/Button.ts:80-88 | After a pick, the manager's key is the target key and the dome texture is the target path. Every button in the old list (this one included) has its mesh disposed, keeps its look and is no longer in the list, and each old button's disposal is logged once before any creation. The new list mirrors the target dome's hotspots, and each new button is fresh and shows its default material. When the buttons mirrored the dome, picking button j follows hotspot j and loads the target dome's own asset. |
| Navigation.ViewpointButton.Dispose | src/Button.ts:94-96 | Dispose releases the mesh, appends exactly one disposal of this button to its manager's log and changes nothing else. |
| Navigation.DomeManager.constructor | src/DomeManager.ts:22-28 | The current key is the starting key, the button list is empty and the log is empty. The photo dome shows the starting dome's asset. |
| Navigation.DomeManager.InitDomeButtons | src/DomeManager.ts:33-58 | The current key does not change. Every button held before the call is disposed exactly once, in order, before any new button is created; the log holds just the calls to `Dispose` and to the button constructor that the method makes. No old button remains, and the new list mirrors the current dome's hotspots in configuration order. Every new button is fresh and shows the default material. |
| Navigation.DomeManager.DisposeViewButtons | src/DomeManager.ts:35-38 | Each old button is disposed once, in list order, by its own `Dispose` call, and its look is kept. Afterwards the list is empty and no button has been disposed twice. |
| Navigation.DomeManager.CreateViewButtons | src/DomeManager.ts:40-57 | Starting from an empty list, it creates exactly one fresh, distinct, undisposed button per hotspot of the current dome, in order, with the manager's materials. The log gains one creation per pushed button and nothing else, so no button is built without being pushed. |
| Navigation.DomeManager.SetDomeKey | src/DomeManager.ts:63-72 | After the setter, the getter returns the key that was set. Nothing else changes. |
| Tour.StartTour | src/DomeExplorer.ts:67-70 | The initial start-up leaves the manager on the starting dome, with its texture and with buttons mirroring the starting dome's hotspots. |
| Tour.HoverAndLeave | src/Button.ts:64-78 | Pointer-over followed by pointer-out puts a freshly built button back in its initial state. |
| Tour.VisitMainHall | src/Button.ts:82-85 | Starting at the corridor and picking its first button leads to the main hall and its texture. The single new button leads back to the corridor, and the picked button is disposed and no longer in the list. The manager stays valid and the new button is fresh and shows its default material. |
| Tour.ReturnToCorridor | src/Button.ts:64-88 | After reaching the main hall, hovering over its button, leaving it and picking it brings the visitor back to the corridor and its texture. The corridor's two buttons lead to the main hall and the old room, in that order, and show their default material on live meshes. |

## Left out

- The pixel-to-sphere projection (`src/getPositionFromPixelPosition.ts`) uses `Math.sin`/`Math.cos` over floats. Here it is a symbolic term (`PixelAnchor`, of type `Anchor`) built from the pixel, the resolution and the distance, so its distance-preservation, periodicity and pole properties are not modelled. `PixelAnchor` is a datatype constructor and therefore injective: distinct pixels give distinct anchors in the model, whereas the real projection maps pixels a full turn apart, and every pixel on a pole row, to the same point. No contract relies on this.
- The scene, the engine, `MeshBuilder`, the action manager and the tooltip that each button creates (`src/Button.ts:43-46`, `53`, `63`) are rendering and UI code. A button's mesh is modelled by two fields, the material shown and whether it is disposed. The button name, size and anchor are kept as plain values.
- Texture loading behind `new Texture(...)` (`src/Button.ts:84`) is asynchronous. It is modelled as an assignment of the target path to the dome's texture, and load completion and failure are not modelled.
- Overlapping or re-entrant pick events are not modelled. Picks are a strict sequence of calls, and the source has no guard against them.
- `src/Tooltip.ts`, `src/InfoBubble.ts`, `src/UIManager.ts`, `src/PageManager.ts`, `src/LoadingScreen.ts`, `src/DomeExplorer.ts` (apart from its start-up intent), `src/index.ts` and the webpack files are UI, DOM, timing and build code. They are not part of this model.
- Hotspot targets are strings cast with `as keyType` (`src/configuration.ts:29-46`, `src/DomeManager.ts:49-51`); here they are `DomeKey` values. A target string that names no key cannot be written in the model, although in the source it would make the lookup at `src/DomeManager.ts:49` yield `undefined` and reading its `assetPath` would throw. The table has no such string, so the behaviour on it is unchanged, and on this table `TargetsResolve` follows from `CoversAllKeys`.
- `dispose` (`src/Button.ts:94-96`) releases only the button's mesh. The tooltip's line, dot and bubble were added to the full-screen UI (`src/Tooltip.ts:63`, `70`, `81`), and nothing in this code removes them, so unless the UI library drops controls linked to a disposed mesh they accumulate across transitions. The tooltip is outside the model, so this possible leak is not modelled.
- The `dome` getter (`src/DomeManager.ts:79-81`) is the manager's constant `dome` field.
- Colours, fonts, the camera field of view and the welcome message from `src/settings.ts` are not used by the navigation core.
