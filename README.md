# VTK WebAssembly scene manager and glTF texture settings, in Dafny

This project models two small decision cores of VTK.

**`vtkWasmSceneManager`** (`scene_manager.dfy`, module `WasmSceneManager`) is the remote-control surface a host uses to drive native VTK objects by their object-manager identifiers. It can resize, render, reset a camera, start or stop an interactor's event loop, and attach or detach an external observer callback. Each operation resolves the identifier, checks the object's kind the way `SafeDownCast` does, performs at most one effect and returns `true`, or returns `false` / tag `0` on a miss. `StartEventLoop` also clears the global `InteractorManagesTheEventLoop` flag before the lookup, so the flag is cleared on a miss too.

- The object-manager table is an abstract map from identifiers to an `ObjKind`: a render window with or without an interactor, a renderer, another `vtkObject`, or a `vtkObjectBase` that is not a `vtkObject`.
- The foreign calls are entries in a ghost effect log: `UpdateSize`, `Render`, `ResetCamera`, `Start`, `TerminateApp`. So are the external callback's invocations and the deletion of a `CallbackBridge`.
- The class `SceneManager` has these fields and updates them in place. Each method's contract ties its new state and result to a pure step function on the `Scene` value. The step functions state the return rules and the "only this effect" rules.
- Lemmas over any sequence of requests (`Run`) state what holds across calls:
  - the registry is never changed;
  - the scene invariant is kept;
  - the event-loop flag is only ever cleared;
  - the log only grows;
  - the callback is only handed identifiers of registered objects;
  - an unknown identifier always misses.
- Two lemmas chain the step functions directly. `ObserverLifecycle` follows one observer through add, fire, remove, fire again and remove again. `DuplicateObserversAreIndependent` shows that two observers of the same event fire and are removed independently.

**`vtkGLTFTexture::GetVTKTexture`** (`gltf_texture.dfy`, module `GLTFTexture`) maps a glTF 2.0 sampler to `vtkTexture` settings. The sampler's filtering and wrapping modes are those of the "Samplers" section of the Khronos glTF 2.0 specification. The method makes the source's setter calls in the source's order on a record that starts from caller-supplied defaults. Its contract is stated against independent definitions of what the filter names mean: each filter is a texel sampling plus an optional mipmap-level sampling.

`RemoveObserver` returns `true` whenever the identifier resolves to a `vtkObject`. This holds even when the tag is unknown or was already removed, so a second removal also returns `true`.

## Model

| member | source | states |
|---|---|---|
| `WasmSceneManager.SetSizeStep` | Web/WebAssembly/vtkWasmSceneManager.cxx:30-42 | true iff the id names a render window with an interactor; then exactly one `SizeUpdated(id, width, height)` is logged; otherwise (no interactor, not a window, unknown id) nothing changes |
| `WasmSceneManager.RenderStep` | Web/WebAssembly/vtkWasmSceneManager.cxx:45-54 | true iff the id names a render window (interactor or not); then exactly one `Rendered(id)` is logged, else nothing changes |
| `WasmSceneManager.ResetCameraStep` | Web/WebAssembly/vtkWasmSceneManager.cxx:57-66 | true iff the id names a renderer; then exactly one `CameraReset(id)` is logged, else nothing changes |
| `WasmSceneManager.StartEventLoopStep` | Web/WebAssembly/vtkWasmSceneManager.cxx:69-82 | the event-loop flag is false afterwards even on a miss; true iff the id names a render window, then one `LoopStarted(id)`; needs the window's interactor to exist |
| `WasmSceneManager.StopEventLoopStep` | Web/WebAssembly/vtkWasmSceneManager.cxx:85-97 | true iff the id names a render window, then one `LoopTerminated(id)`; flag, registry and observers untouched; needs the interactor to exist |
| `WasmSceneManager.AddObserverStep` | Web/WebAssembly/vtkWasmSceneManager.cxx:109-128 | tag 0 and nothing changes iff the id is not a vtkObject; otherwise returns the object's tag and adds exactly one subscription (count +1) holding the event name and a bridge capturing (callback, id); other objects' observers unchanged |
| `WasmSceneManager.RemoveObserverStep` | Web/WebAssembly/vtkWasmSceneManager.cxx:131-141 | false and nothing changes iff the id is not a vtkObject; otherwise true, the tag is gone afterwards, and if it was present its bridge deletion is logged once; a tag with no scene-manager observer changes nothing |
| `WasmSceneManager.NotifyStep` | Web/WebAssembly/vtkWasmSceneManager.cxx:123-126 | the callback is invoked once iff the tag's observer listens to the fired event, with the captured identifier (equal to the object's id) and the event name; otherwise nothing happens |
| `WasmSceneManager.StepInvariants` | Web/WebAssembly/vtkWasmSceneManager.cxx:30-141 | any single operation keeps the registry and the scene invariant, never sets the event-loop flag, only appends to the log, and only passes registered vtkObject ids to callbacks |
| `WasmSceneManager.RunInvariants` | Web/WebAssembly/vtkWasmSceneManager.cxx:30-141 | the same five facts for any admissible sequence of operations (induction) |
| `WasmSceneManager.UnknownIdentifierMisses` | Web/WebAssembly/vtkWasmSceneManager.cxx:30-141 | every operation on an identifier absent from the registry returns false / tag 0, and observers, registry and log stay as they were |
| `WasmSceneManager.ObserverLifecycle` | Web/WebAssembly/vtkWasmSceneManager.cxx:109-141 | add returns the tag; firing calls `callback(id, eventName)` once; removal returns true, logs one bridge deletion and restores the observers; firing again does nothing; a second removal returns true and changes nothing |
| `WasmSceneManager.DuplicateObserversAreIndependent` | Web/WebAssembly/vtkWasmSceneManager.cxx:109-128 | two observers for the same (id, event) get distinct tags, each fires its own callback with the id and the event name, and removing one leaves the other firing its own callback |
| `WasmSceneManager.SceneManager.constructor` | Web/WebAssembly/vtkWasmSceneManager.cxx:18 | starts with no observers, an empty log, the given registry and flag, and the invariant holds |
| `WasmSceneManager.SceneManager.SetSize` | Web/WebAssembly/vtkWasmSceneManager.cxx:30-42 | keeps `Valid()`; new state and result are those of `SetSizeStep` on the old state |
| `WasmSceneManager.SceneManager.Render` | Web/WebAssembly/vtkWasmSceneManager.cxx:45-54 | keeps `Valid()`; new state and result are those of `RenderStep` |
| `WasmSceneManager.SceneManager.ResetCamera` | Web/WebAssembly/vtkWasmSceneManager.cxx:57-66 | keeps `Valid()`; new state and result are those of `ResetCameraStep` |
| `WasmSceneManager.SceneManager.StartEventLoop` | Web/WebAssembly/vtkWasmSceneManager.cxx:69-82 | keeps `Valid()`; new state and result are those of `StartEventLoopStep` |
| `WasmSceneManager.SceneManager.StopEventLoop` | Web/WebAssembly/vtkWasmSceneManager.cxx:85-97 | keeps `Valid()`; new state and result are those of `StopEventLoopStep` |
| `WasmSceneManager.SceneManager.AddObserver` | Web/WebAssembly/vtkWasmSceneManager.cxx:109-128 | keeps `Valid()`; on a hit the tag is non-zero and unused on that object; new state and tag are those of `AddObserverStep` with that tag |
| `WasmSceneManager.SceneManager.RemoveObserver` | Web/WebAssembly/vtkWasmSceneManager.cxx:131-141 | keeps `Valid()`; new state and result are those of `RemoveObserverStep` |
| `WasmSceneManager.SceneManager.Notify` | Web/WebAssembly/vtkWasmSceneManager.cxx:123-126 | keeps `Valid()`; new state and result are those of `NotifyStep` |
| `GLTFTexture.GetVTKTexture` | IO/Geometry/vtkGLTFTexture.cxx:16-62 | colour mode direct scalars, blending modulate, input the glTF image; mipmap iff the min filter uses mipmaps; clamp on either axis gives repeat off and edge-clamp on; otherwise repeat on either axis gives repeat on and edge-clamp off; both mirrored keeps the defaults and warns (warning iff both mirrored); interpolate iff either filter has a linear stage or the default was already on |

## Left out

- `PrintSelf` of both classes and the `std::cout` lines of `StartEventLoop` and `StopEventLoop`: these only produce output.
- What `UpdateSize`, `Render`, `ResetCamera`, `Start` and `TerminateApp` do: these are foreign calls, recorded only as log entries. That `Start` blocks until the loop ends, and any operations re-entered from inside the loop, are not modelled.
- `StartEventLoop` and `StopEventLoop` dereference a render window's interactor without a null check. The model makes "the window has an interactor" a precondition of both (`InteractorPresent`) and does not model the crash.
- How the object manager registers and unregisters objects and allocates identifiers is not part of this model. The registry is fixed when the scene manager is built, and no operation changes it.
- How `vtkObject::AddObserver` picks tags is not modelled. A tag is any non-zero value not in use by a scene-manager observer on that object; the model does not know the tags of observers that other code attached. Tags may be reused after removal, and the width of `unsigned long` is not modelled.
- RemoveObserverStep: the observer table holds only the observers attached through the scene manager. `vtkObject::RemoveObserver(tag)` removes any observer on the object with that tag, including one that other VTK code attached, such as an interactor style's observers. Removing such a tag is a no-op in the model, because the model does not hold those observers.
- The event-name conversion is not modelled. VTK turns the name given to `AddObserver` into an event id, and the bridge turns the fired id back into a name. The model matches names directly, so unknown names and `AnyEvent` subscriptions are out.
- The order in which an object calls several observers of the same event is not modelled. `Notify` fires one observer, chosen by tag.
- `CallbackBridge` memory is modelled only as "the bridge exists while its subscription exists", with a log entry when it is deleted. The bridges deleted when the observed object itself is destroyed are not modelled. Neither is the JavaScript/WebAssembly calling convention of the callback.
- vtkTexture's own defaults: they are the `defaults` parameter of `GetVTKTexture`. The warning macro is the boolean `warned`; its text and logging mechanism are left out.
- `Rendering/Annotation/vtkCornerAnnotation.h` is not part of this model: it only declares rendering and layout code and has no logic to model.
