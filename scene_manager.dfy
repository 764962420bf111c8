/** A model of vtkWasmSceneManager, the identifier-addressed remote-control
    surface of a VTK scene: resize, render, reset the camera, start and stop
    the interactor's event loop, and attach or detach an external observer
    callback, all addressed by the integer identifier the object manager
    handed out for a native object.

    The object manager's table is an abstract map from identifiers to the
    kind of object they name. The foreign calls (UpdateSize, Render,
    ResetCamera, Start, TerminateApp) and the invocations of the external
    callback are recorded in a ghost effect log. */
module WasmSceneManager {

  /** vtkTypeUInt32, the type of an object-manager identifier. */
  newtype uint32 = x: int | 0 <= x < 0x1_0000_0000

  /** C `int`, the type of the width and height passed to SetSize. */
  newtype int32 = x: int | -0x8000_0000 <= x < 0x8000_0000

  /** The tag vtkObject::AddObserver hands out; 0 is the failure value. */
  type Tag = nat

  /** Opaque handle of the caller's ObserverCallbackF function. */
  type CallbackRef = nat

  /** What SafeDownCast finds behind an identifier. A render window's
      interactor may be absent; a NonObject is a vtkObjectBase that is not
      a vtkObject, so it cannot be observed. */
  datatype ObjKind =
    | RenderWindow(hasInteractor: bool)
    | Renderer
    | OtherObject
    | NonObject

  /** The heap-allocated CallbackBridge: the callback and the identifier
      the observer was attached through. */
  datatype Bridge = Bridge(callback: CallbackRef, senderId: uint32)

  /** One observer on an object: the event it listens to and its bridge. */
  datatype Subscription = Subscription(eventName: string, bridge: Bridge)

  /** The externally visible things an operation does. */
  datatype Effect =
    | SizeUpdated(target: uint32, width: int32, height: int32)
    | Rendered(target: uint32)
    | CameraReset(target: uint32)
    | LoopStarted(target: uint32)
    | LoopTerminated(target: uint32)
    | CallbackInvoked(callback: CallbackRef, senderId: uint32, eventName: string)
    | BridgeDeleted(bridge: Bridge)

  /** The abstract state the scene manager works on. */
  datatype Scene = Scene(
    registry: map<uint32, ObjKind>,
    observers: map<uint32, map<Tag, Subscription>>,
    effects: seq<Effect>,
    interactorManagesTheEventLoop: bool)

  /** A new scene together with the value an operation returns. */
  datatype Outcome<T> = Outcome(scene: Scene, value: T)

  // ---------------------------------------------------------------------
  // Resolution and capability queries

  predicate IsRenderWindow(s: Scene, id: uint32) {
    id in s.registry && s.registry[id].RenderWindow?
  }

  predicate IsWindowWithInteractor(s: Scene, id: uint32) {
    id in s.registry && s.registry[id] == RenderWindow(true)
  }

  predicate IsRenderer(s: Scene, id: uint32) {
    id in s.registry && s.registry[id] == Renderer
  }

  /** vtkObject::SafeDownCast(GetObjectAtId(id)) is not null. */
  predicate IsVtkObject(s: Scene, id: uint32) {
    id in s.registry && s.registry[id] != NonObject
  }

  /** StartEventLoop and StopEventLoop dereference the interactor of a
      render window without checking it: callers must not reach that case. */
  predicate InteractorPresent(s: Scene, id: uint32) {
    IsRenderWindow(s, id) ==> IsWindowWithInteractor(s, id)
  }

  function SubscriptionsOf(s: Scene, id: uint32): map<Tag, Subscription> {
    if id in s.observers then s.observers[id] else map[]
  }

  /** A tag the object may hand out next: non-zero and not in use by a
      scene-manager observer on it. */
  predicate TagAvailable(s: Scene, id: uint32, tag: Tag) {
    tag != 0 && tag !in SubscriptionsOf(s, id)
  }

  /** Observers hang only on observable registered objects, under non-zero
      tags, and each bridge captured the identifier it is filed under. */
  predicate ValidScene(s: Scene) {
    forall id | id in s.observers ::
      IsVtkObject(s, id) &&
      forall tag | tag in s.observers[id] ::
        tag != 0 && s.observers[id][tag].bridge.senderId == id
  }

  function Log(s: Scene, e: Effect): Scene {
    s.(effects := s.effects + [e])
  }

  // ---------------------------------------------------------------------
  // One function per operation: the new scene and the returned value

  /** SetSize: resize through the interactor of a render window. */
  function SetSizeStep(s: Scene, id: uint32, width: int32, height: int32): (r: Outcome<bool>)
    ensures r.value <==> IsWindowWithInteractor(s, id)
    ensures r.scene.registry == s.registry && r.scene.observers == s.observers
    ensures r.scene.interactorManagesTheEventLoop == s.interactorManagesTheEventLoop
    ensures r.scene.effects == s.effects + (if r.value then [SizeUpdated(id, width, height)] else [])
  {
    if id in s.registry then
      match s.registry[id]
      case RenderWindow(hasInteractor) =>
        if hasInteractor then Outcome(Log(s, SizeUpdated(id, width, height)), true)
        else Outcome(s, false)
      case _ => Outcome(s, false)
    else Outcome(s, false)
  }

  /** Render: render any render window, with or without an interactor. */
  function RenderStep(s: Scene, id: uint32): (r: Outcome<bool>)
    ensures r.value <==> IsRenderWindow(s, id)
    ensures r.scene.registry == s.registry && r.scene.observers == s.observers
    ensures r.scene.interactorManagesTheEventLoop == s.interactorManagesTheEventLoop
    ensures r.scene.effects == s.effects + (if r.value then [Rendered(id)] else [])
  {
    if id in s.registry && s.registry[id].RenderWindow? then Outcome(Log(s, Rendered(id)), true)
    else Outcome(s, false)
  }

  /** ResetCamera: reset the camera of a renderer. */
  function ResetCameraStep(s: Scene, id: uint32): (r: Outcome<bool>)
    ensures r.value <==> IsRenderer(s, id)
    ensures r.scene.registry == s.registry && r.scene.observers == s.observers
    ensures r.scene.interactorManagesTheEventLoop == s.interactorManagesTheEventLoop
    ensures r.scene.effects == s.effects + (if r.value then [CameraReset(id)] else [])
  {
    if id in s.registry && s.registry[id].Renderer? then Outcome(Log(s, CameraReset(id)), true)
    else Outcome(s, false)
  }

  /** StartEventLoop: the global flag is cleared before the lookup, so it is
      cleared on a miss too; then the interactor's loop is started. */
  function StartEventLoopStep(s: Scene, id: uint32): (r: Outcome<bool>)
    requires InteractorPresent(s, id)
    ensures r.value <==> IsRenderWindow(s, id)
    ensures !r.scene.interactorManagesTheEventLoop
    ensures r.scene.registry == s.registry && r.scene.observers == s.observers
    ensures r.scene.effects == s.effects + (if r.value then [LoopStarted(id)] else [])
  {
    var cleared := s.(interactorManagesTheEventLoop := false);
    if id in cleared.registry && cleared.registry[id].RenderWindow? then
      Outcome(Log(cleared, LoopStarted(id)), true)
    else Outcome(cleared, false)
  }

  /** StopEventLoop: ask the interactor of a render window to terminate. */
  function StopEventLoopStep(s: Scene, id: uint32): (r: Outcome<bool>)
    requires InteractorPresent(s, id)
    ensures r.value <==> IsRenderWindow(s, id)
    ensures r.scene.registry == s.registry && r.scene.observers == s.observers
    ensures r.scene.interactorManagesTheEventLoop == s.interactorManagesTheEventLoop
    ensures r.scene.effects == s.effects + (if r.value then [LoopTerminated(id)] else [])
  {
    if id in s.registry && s.registry[id].RenderWindow? then Outcome(Log(s, LoopTerminated(id)), true)
    else Outcome(s, false)
  }

  /** AddObserver: attach a bridge capturing (callback, id) for eventName.
      objectTag is the tag the object's own AddObserver hands out; it only
      matters when the identifier resolves to a vtkObject. */
  function AddObserverStep(s: Scene, id: uint32, eventName: string, callback: CallbackRef,
                           objectTag: Tag): (r: Outcome<Tag>)
    requires IsVtkObject(s, id) ==> TagAvailable(s, id, objectTag)
    ensures r.value == 0 <==> !IsVtkObject(s, id)
    ensures r.value != 0 ==> r.value == objectTag
    ensures r.value == 0 ==> r.scene == s
    ensures r.value != 0 ==>
      && SubscriptionsOf(r.scene, id) ==
           SubscriptionsOf(s, id)[r.value := Subscription(eventName, Bridge(callback, id))]
      && |SubscriptionsOf(r.scene, id)| == |SubscriptionsOf(s, id)| + 1
    ensures forall other :: other != id ==> SubscriptionsOf(r.scene, other) == SubscriptionsOf(s, other)
    ensures r.scene.registry == s.registry && r.scene.effects == s.effects
    ensures r.scene.interactorManagesTheEventLoop == s.interactorManagesTheEventLoop
  {
    if !(id in s.registry && s.registry[id] != NonObject) then Outcome(s, 0)
    else
      var subs := SubscriptionsOf(s, id);
      var sub := Subscription(eventName, Bridge(callback, id));
      Outcome(s.(observers := s.observers[id := subs[objectTag := sub]]), objectTag)
  }

  /** RemoveObserver: drop the subscription filed under tag, if there is
      one, which deletes its bridge; true whenever the id resolves. */
  function RemoveObserverStep(s: Scene, id: uint32, tag: Tag): (r: Outcome<bool>)
    ensures r.value <==> IsVtkObject(s, id)
    ensures r.value ==> tag !in SubscriptionsOf(r.scene, id)
    ensures r.value ==> SubscriptionsOf(r.scene, id) == SubscriptionsOf(s, id) - {tag}
    ensures r.value && tag in SubscriptionsOf(s, id) ==>
      r.scene.effects == s.effects + [BridgeDeleted(SubscriptionsOf(s, id)[tag].bridge)]
    ensures !(r.value && tag in SubscriptionsOf(s, id)) ==> r.scene == s
    ensures forall other :: other != id ==> SubscriptionsOf(r.scene, other) == SubscriptionsOf(s, other)
    ensures r.scene.registry == s.registry
    ensures r.scene.interactorManagesTheEventLoop == s.interactorManagesTheEventLoop
  {
    if !(id in s.registry && s.registry[id] != NonObject) then Outcome(s, false)
    else if id in s.observers && tag in s.observers[id] then
      var bridge := s.observers[id][tag].bridge;
      Outcome(Log(s, BridgeDeleted(bridge)).(observers := s.observers[id := s.observers[id] - {tag}]), true)
    else Outcome(s, true)
  }

  /** The object named id fires eventName to its observer filed under tag:
      the bridge forwards its captured identifier and the event's name to
      the external callback. Nothing happens when there is no such
      observer or it listens to another event. */
  function NotifyStep(s: Scene, id: uint32, tag: Tag, eventName: string): (r: Outcome<bool>)
    ensures r.value <==> tag in SubscriptionsOf(s, id) && SubscriptionsOf(s, id)[tag].eventName == eventName
    ensures r.value && ValidScene(s) ==>
      r.scene.effects == s.effects + [CallbackInvoked(SubscriptionsOf(s, id)[tag].bridge.callback, id, eventName)]
    ensures !r.value ==> r.scene == s
    ensures r.scene.registry == s.registry && r.scene.observers == s.observers
    ensures r.scene.interactorManagesTheEventLoop == s.interactorManagesTheEventLoop
  {
    if id in s.observers && tag in s.observers[id] && s.observers[id][tag].eventName == eventName then
      var bridge := s.observers[id][tag].bridge;
      Outcome(Log(s, CallbackInvoked(bridge.callback, bridge.senderId, eventName)), true)
    else Outcome(s, false)
  }

  // ---------------------------------------------------------------------
  // Sequences of requests

  datatype Request =
    | SetSizeRequest(id: uint32, width: int32, height: int32)
    | RenderRequest(id: uint32)
    | ResetCameraRequest(id: uint32)
    | StartEventLoopRequest(id: uint32)
    | StopEventLoopRequest(id: uint32)
    | AddObserverRequest(id: uint32, eventName: string, callback: CallbackRef, objectTag: Tag)
    | RemoveObserverRequest(id: uint32, tag: Tag)
    | NotifyRequest(id: uint32, tag: Tag, eventName: string)

  /** A boolean result, or the tag AddObserver returns. */
  datatype Answer = Done(ok: bool) | Issued(tag: Tag)

  /** The failure values: false and the tag 0. */
  predicate IsMiss(a: Answer) {
    a == Done(false) || a == Issued(0)
  }

  predicate Admissible(s: Scene, q: Request) {
    match q
    case StartEventLoopRequest(id) => InteractorPresent(s, id)
    case StopEventLoopRequest(id) => InteractorPresent(s, id)
    case AddObserverRequest(id, _, _, objectTag) => IsVtkObject(s, id) ==> TagAvailable(s, id, objectTag)
    case _ => true
  }

  function Step(s: Scene, q: Request): (r: Outcome<Answer>)
    requires Admissible(s, q)
  {
    match q
    case SetSizeRequest(id, w, h) => var o := SetSizeStep(s, id, w, h); Outcome(o.scene, Done(o.value))
    case RenderRequest(id) => var o := RenderStep(s, id); Outcome(o.scene, Done(o.value))
    case ResetCameraRequest(id) => var o := ResetCameraStep(s, id); Outcome(o.scene, Done(o.value))
    case StartEventLoopRequest(id) => var o := StartEventLoopStep(s, id); Outcome(o.scene, Done(o.value))
    case StopEventLoopRequest(id) => var o := StopEventLoopStep(s, id); Outcome(o.scene, Done(o.value))
    case AddObserverRequest(id, name, cb, t) =>
      var o := AddObserverStep(s, id, name, cb, t); Outcome(o.scene, Issued(o.value))
    case RemoveObserverRequest(id, t) => var o := RemoveObserverStep(s, id, t); Outcome(o.scene, Done(o.value))
    case NotifyRequest(id, t, name) => var o := NotifyStep(s, id, t, name); Outcome(o.scene, Done(o.value))
  }

  /** Every request of qs meets its precondition in the scene it meets. */
  predicate Admits(s: Scene, qs: seq<Request>)
    decreases |qs|
  {
    qs == [] || (Admissible(s, qs[0]) && Admits(Step(s, qs[0]).scene, qs[1..]))
  }

  function Run(s: Scene, qs: seq<Request>): (r: Outcome<seq<Answer>>)
    requires Admits(s, qs)
    ensures |r.value| == |qs|
    decreases |qs|
  {
    if qs == [] then Outcome(s, [])
    else
      var first := Step(s, qs[0]);
      var rest := Run(first.scene, qs[1..]);
      Outcome(rest.scene, [first.value] + rest.value)
  }

  // ---------------------------------------------------------------------
  // Properties

  /** One request keeps the registry and the scene invariant, never sets
      the event-loop flag, only appends to the log, and every callback it
      invokes is given the identifier of an observable registered object. */
  lemma StepInvariants(s: Scene, q: Request)
    requires ValidScene(s) && Admissible(s, q)
    ensures var t := Step(s, q).scene;
      && t.registry == s.registry
      && ValidScene(t)
      && (t.interactorManagesTheEventLoop ==> s.interactorManagesTheEventLoop)
      && |s.effects| <= |t.effects| && t.effects[..|s.effects|] == s.effects
      && forall i | |s.effects| <= i < |t.effects| ::
           t.effects[i].CallbackInvoked? ==> IsVtkObject(s, t.effects[i].senderId)
  {
  }

  /** The invariants of StepInvariants hold over any run of requests. */
  lemma {:induction false} RunInvariants(s: Scene, qs: seq<Request>)
    requires ValidScene(s) && Admits(s, qs)
    ensures var t := Run(s, qs).scene;
      && t.registry == s.registry
      && ValidScene(t)
      && (t.interactorManagesTheEventLoop ==> s.interactorManagesTheEventLoop)
      && |s.effects| <= |t.effects| && t.effects[..|s.effects|] == s.effects
      && forall i | |s.effects| <= i < |t.effects| ::
           t.effects[i].CallbackInvoked? ==> IsVtkObject(s, t.effects[i].senderId)
    decreases |qs|
  {
    if qs != [] {
      var m := Step(s, qs[0]).scene;
      StepInvariants(s, qs[0]);
      RunInvariants(m, qs[1..]);
      var t := Run(s, qs).scene;
      assert t == Run(m, qs[1..]).scene;
      assert t.effects[..|m.effects|] == m.effects;
      assert t.effects[..|s.effects|] == m.effects[..|s.effects|];
      forall i | |s.effects| <= i < |t.effects|
        ensures t.effects[i].CallbackInvoked? ==> IsVtkObject(s, t.effects[i].senderId)
      {
        if i < |m.effects| {
          assert t.effects[i] == m.effects[i];
        }
      }
    }
  }

  /** An identifier the registry does not know: every request addressed to
      it misses, and nothing but the event-loop flag changes. */
  lemma {:induction false} UnknownIdentifierMisses(s: Scene, id: uint32, qs: seq<Request>)
    requires ValidScene(s) && id !in s.registry
    requires forall i | 0 <= i < |qs| :: qs[i].id == id
    requires Admits(s, qs)
    ensures forall i | 0 <= i < |qs| :: IsMiss(Run(s, qs).value[i])
    ensures var t := Run(s, qs).scene;
      t.registry == s.registry && t.observers == s.observers && t.effects == s.effects
    decreases |qs|
  {
    if qs != [] {
      var first := Step(s, qs[0]);
      assert SubscriptionsOf(s, id) == map[];
      assert IsMiss(first.value);
      assert first.scene.registry == s.registry && first.scene.observers == s.observers;
      assert first.scene.effects == s.effects;
      StepInvariants(s, qs[0]);
      UnknownIdentifierMisses(first.scene, id, qs[1..]);
      var r := Run(s, qs);
      forall i | 0 <= i < |qs| ensures IsMiss(r.value[i]) {
        if i > 0 {
          assert r.value[i] == Run(first.scene, qs[1..]).value[i - 1];
        }
      }
    }
  }

  /** An observer's whole life: the tag AddObserver returns, firing its
      event calls the callback once with the captured identifier and the
      event name, removal deletes the bridge, after which firing does
      nothing and a second removal still returns true and does nothing. */
  lemma ObserverLifecycle(s: Scene, id: uint32, eventName: string, callback: CallbackRef, tag: Tag)
    requires ValidScene(s) && IsVtkObject(s, id) && TagAvailable(s, id, tag)
    ensures var added := AddObserverStep(s, id, eventName, callback, tag);
      var fired := NotifyStep(added.scene, id, tag, eventName);
      var removed := RemoveObserverStep(fired.scene, id, tag);
      var refired := NotifyStep(removed.scene, id, tag, eventName);
      var again := RemoveObserverStep(refired.scene, id, tag);
      && added.value == tag
      && fired.value
      && fired.scene.effects == s.effects + [CallbackInvoked(callback, id, eventName)]
      && removed.value
      && removed.scene.effects == fired.scene.effects + [BridgeDeleted(Bridge(callback, id))]
      && SubscriptionsOf(removed.scene, id) == SubscriptionsOf(s, id)
      && !refired.value && refired.scene == removed.scene
      && again.value && again.scene == removed.scene
  {
  }

  /** Two observers for the same event get two tags; each fires on its own,
      and removing the first leaves the second in place. */
  lemma DuplicateObserversAreIndependent(s: Scene, id: uint32, eventName: string,
                                         cb1: CallbackRef, tag1: Tag, cb2: CallbackRef, tag2: Tag)
    requires IsVtkObject(s, id) && TagAvailable(s, id, tag1) && TagAvailable(s, id, tag2) && tag1 != tag2
    ensures var first := AddObserverStep(s, id, eventName, cb1, tag1);
      var second := AddObserverStep(first.scene, id, eventName, cb2, tag2);
      var removed := RemoveObserverStep(second.scene, id, tag1);
      && first.value == tag1 && second.value == tag2
      && NotifyStep(second.scene, id, tag1, eventName).value
      && NotifyStep(second.scene, id, tag1, eventName).scene.effects ==
           second.scene.effects + [CallbackInvoked(cb1, id, eventName)]
      && NotifyStep(second.scene, id, tag2, eventName).value
      && NotifyStep(second.scene, id, tag2, eventName).scene.effects ==
           second.scene.effects + [CallbackInvoked(cb2, id, eventName)]
      && !NotifyStep(removed.scene, id, tag1, eventName).value
      && NotifyStep(removed.scene, id, tag2, eventName).scene.effects ==
           removed.scene.effects + [CallbackInvoked(cb2, id, eventName)]
  {
  }

  // ---------------------------------------------------------------------
  // The scene manager object

  /** Upper bound of a finite set of tags: a tag above it is unused. */
  ghost function TagBound(tags: set<Tag>): (b: Tag)
    ensures forall t :: t in tags ==> t < b
    decreases tags
  {
    if tags == {} then 0
    else
      var t :| t in tags;
      var rest := TagBound(tags - {t});
      assert forall u :: u in tags ==> u == t || u in tags - {t};
      if t < rest then rest else t + 1
  }

  lemma UnusedTagExists(tags: set<Tag>)
    ensures exists t: Tag :: t != 0 && t !in tags
  {
    var t := TagBound(tags) + 1;
    assert t !in tags;
  }

  class SceneManager {
    /** The object manager's identifier table (GetObjectAtId). */
    var registry: map<uint32, ObjKind>
    /** The observers attached to each object, by tag. */
    var observers: map<uint32, map<Tag, Subscription>>
    /** Foreign calls and callback invocations, in order. */
    ghost var effects: seq<Effect>
    /** vtkRenderWindowInteractor::InteractorManagesTheEventLoop. */
    var interactorManagesTheEventLoop: bool

    ghost function State(): Scene
      reads this
    {
      Scene(registry, observers, effects, interactorManagesTheEventLoop)
    }

    ghost predicate Valid()
      reads this
    {
      ValidScene(State())
    }

    /** A scene manager over the objects already registered, with the
        process-wide event-loop flag as it currently stands. */
    constructor (registry: map<uint32, ObjKind>, interactorManagesTheEventLoop: bool)
      ensures Valid()
      ensures State() == Scene(registry, map[], [], interactorManagesTheEventLoop)
    {
      this.registry := registry;
      this.observers := map[];
      this.effects := [];
      this.interactorManagesTheEventLoop := interactorManagesTheEventLoop;
    }

    method SetSize(identifier: uint32, width: int32, height: int32) returns (ok: bool)
      requires Valid()
      modifies this
      ensures Valid()
      ensures var r := SetSizeStep(old(State()), identifier, width, height);
        State() == r.scene && ok == r.value
    {
      if identifier in registry && registry[identifier].RenderWindow? {
        if registry[identifier].hasInteractor {
          effects := effects + [SizeUpdated(identifier, width, height)];
          return true;
        }
      }
      return false;
    }

    method Render(identifier: uint32) returns (ok: bool)
      requires Valid()
      modifies this
      ensures Valid()
      ensures var r := RenderStep(old(State()), identifier);
        State() == r.scene && ok == r.value
    {
      if identifier in registry && registry[identifier].RenderWindow? {
        effects := effects + [Rendered(identifier)];
        return true;
      }
      return false;
    }

    method ResetCamera(identifier: uint32) returns (ok: bool)
      requires Valid()
      modifies this
      ensures Valid()
      ensures var r := ResetCameraStep(old(State()), identifier);
        State() == r.scene && ok == r.value
    {
      if identifier in registry && registry[identifier] == Renderer {
        effects := effects + [CameraReset(identifier)];
        return true;
      }
      return false;
    }

    method StartEventLoop(identifier: uint32) returns (ok: bool)
      requires InteractorPresent(State(), identifier)
      requires Valid()
      modifies this
      ensures Valid()
      ensures var r := StartEventLoopStep(old(State()), identifier);
        State() == r.scene && ok == r.value
    {
      interactorManagesTheEventLoop := false;
      if identifier in registry && registry[identifier].RenderWindow? {
        effects := effects + [LoopStarted(identifier)];
        return true;
      }
      return false;
    }

    method StopEventLoop(identifier: uint32) returns (ok: bool)
      requires InteractorPresent(State(), identifier)
      requires Valid()
      modifies this
      ensures Valid()
      ensures var r := StopEventLoopStep(old(State()), identifier);
        State() == r.scene && ok == r.value
    {
      if identifier in registry && registry[identifier].RenderWindow? {
        effects := effects + [LoopTerminated(identifier)];
        return true;
      }
      return false;
    }

    /** The returned tag is 0 on a miss; otherwise it is a fresh non-zero
        tag the object chose, under which the new bridge is filed. */
    method AddObserver(identifier: uint32, eventName: string, callback: CallbackRef) returns (tag: Tag)
      requires Valid()
      modifies this
      ensures Valid()
      ensures IsVtkObject(old(State()), identifier) ==> TagAvailable(old(State()), identifier, tag)
      ensures var r := AddObserverStep(old(State()), identifier, eventName, callback, tag);
        State() == r.scene && tag == r.value
    {
      if !(identifier in registry && registry[identifier] != NonObject) {
        return 0;
      }
      var subs := if identifier in observers then observers[identifier] else map[];
      UnusedTagExists(subs.Keys);
      tag :| tag != 0 && tag !in subs;
      observers := observers[identifier := subs[tag := Subscription(eventName, Bridge(callback, identifier))]];
    }

    method RemoveObserver(identifier: uint32, tag: Tag) returns (ok: bool)
      requires Valid()
      modifies this
      ensures Valid()
      ensures var r := RemoveObserverStep(old(State()), identifier, tag);
        State() == r.scene && ok == r.value
    {
      if !(identifier in registry && registry[identifier] != NonObject) {
        return false;
      }
      if identifier in observers && tag in observers[identifier] {
        // The subscription held the last reference to the callback command,
        // whose client-data delete callback frees the bridge.
        effects := effects + [BridgeDeleted(observers[identifier][tag].bridge)];
        observers := observers[identifier := observers[identifier] - {tag}];
      }
      return true;
    }

    /** The object named identifier notifies its observer filed under tag
        that eventName happened. */
    method Notify(identifier: uint32, tag: Tag, eventName: string) returns (invoked: bool)
      requires Valid()
      modifies this
      ensures Valid()
      ensures var r := NotifyStep(old(State()), identifier, tag, eventName);
        State() == r.scene && invoked == r.value
    {
      if identifier in observers && tag in observers[identifier]
         && observers[identifier][tag].eventName == eventName
      {
        var bridge := observers[identifier][tag].bridge;
        effects := effects + [CallbackInvoked(bridge.callback, bridge.senderId, eventName)];
        return true;
      }
      return false;
    }
  }
}
