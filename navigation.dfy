/**
 * The dome manager and its viewpoint buttons: the state machine that moves
 * the viewer from dome to dome. The two classes live in one module because
 * each refers to the other (a button holds its manager and calls back into
 * it; the manager builds the buttons).
 */
module Navigation {
  import opened Configuration

  /**
   * A button's anchor in 3D space. The projection from a texture pixel onto the sphere
   * is kept symbolic: the anchor is identified by the pixel, the texture
   * resolution and the distance it was computed from.
   */
  datatype Anchor = PixelAnchor(pixel: Vector2, resolution: Vector2, distance: real)

  /** The projection of a texture pixel onto a sphere of the given radius (symbolic). */
  function PositionFromPixelPosition(position: Vector2, resolution: Vector2, distance: real): Anchor
  {
    PixelAnchor(position, resolution, distance)
  }

  /** A material, identified by the image it shows. */
  datatype Material = StandardMaterial(texture: string)

  /** A panorama texture, identified by its path. */
  datatype Texture = Texture(url: string)

  /** The sphere the current panorama is projected onto. */
  class PhotoDome {
    var photoTexture: Texture

    constructor (url: string)
      ensures photoTexture == Texture(url)
    {
      photoTexture := Texture(url);
    }
  }

  /** What a viewpoint button is bound to: where it sits and where it leads. */
  datatype ButtonBinding = ButtonBinding(position: Anchor, targetPath: string, targetKey: DomeKey, targetName: string)

  /** The binding of the button built for hotspot `h` of a dome with texture resolution `resolution`. */
  function BindingFor(resolution: Vector2, h: Hotspot): ButtonBinding
    requires h.target in DOME_CONFIGURATION
  {
    ButtonBinding(
      PositionFromPixelPosition(h.position, resolution, BUTTON_DISTANCE),
      DOME_CONFIGURATION[h.target].assetPath,
      h.target,
      DOME_CONFIGURATION[h.target].name)
  }

  /**
   * The bindings of the buttons built for `hotspots`, defined the way the
   * button list grows: one push per hotspot, in order.
   */
  function HotspotBindings(resolution: Vector2, hotspots: seq<Hotspot>): (bs: seq<ButtonBinding>)
    requires forall h :: h in hotspots ==> h.target in DOME_CONFIGURATION
    ensures |bs| == |hotspots|
    ensures forall j :: 0 <= j < |hotspots| ==>
      && bs[j].targetKey == hotspots[j].target
      && bs[j].position == PositionFromPixelPosition(hotspots[j].position, resolution, BUTTON_DISTANCE)
      && bs[j].targetPath == DOME_CONFIGURATION[hotspots[j].target].assetPath
      && bs[j].targetName == DOME_CONFIGURATION[hotspots[j].target].name
  {
    if hotspots == [] then []
    else
      var n := |hotspots| - 1;
      HotspotBindings(resolution, hotspots[..n]) + [BindingFor(resolution, hotspots[n])]
  }

  /** The bindings the buttons of dome `k` must have. */
  function DomeBindings(k: DomeKey): seq<ButtonBinding>
  {
    KeyInTable(k);
    HotspotBindings(DOME_CONFIGURATION[k].resolution, DOME_CONFIGURATION[k].hotspots)
  }

  /** One entry of the manager's ghost record of button lifetimes. */
  datatype ButtonEvent = Created(button: ViewpointButton) | Disposed(button: ViewpointButton)

  /** The log entries of disposing `buttons`, in order. */
  ghost function Disposals(buttons: seq<ViewpointButton>): seq<ButtonEvent>
  {
    seq(|buttons|, i requires 0 <= i < |buttons| => Disposed(buttons[i]))
  }

  /** The log entries of creating `buttons`, in order. */
  ghost function Creations(buttons: seq<ViewpointButton>): seq<ButtonEvent>
  {
    seq(|buttons|, i requires 0 <= i < |buttons| => Created(buttons[i]))
  }

  /** No button appears twice in a list. */
  ghost predicate Distinct(buttons: seq<ViewpointButton>)
  {
    forall i, j :: 0 <= i < j < |buttons| ==> buttons[i] != buttons[j]
  }

  /** No button was disposed twice. */
  ghost predicate DisposedAtMostOnce(log: seq<ButtonEvent>)
  {
    forall i, j :: 0 <= i < j < |log| && log[i].Disposed? ==> log[j] != log[i]
  }

  /** The bindings of a list of buttons, in list order. */
  function Bindings(buttons: seq<ViewpointButton>): seq<ButtonBinding>
  {
    seq(|buttons|, i requires 0 <= i < |buttons| => buttons[i].Binding())
  }

  /** A button that takes the viewer to another dome when picked. */
  class ViewpointButton {
    const name: string
    const size: real
    const material: Material
    const materialActive: Material
    const position: Anchor
    const domeManager: DomeManager
    const targetPath: string
    const targetKey: DomeKey
    const targetName: string
    // The button's plane mesh: what it shows and whether it has been released.
    var meshMaterial: Material
    var meshDisposed: bool

    function Binding(): ButtonBinding
    {
      ButtonBinding(position, targetPath, targetKey, targetName)
    }

    constructor (name: string, size: real, material: Material, materialActive: Material, position: Anchor,
                 domeManager: DomeManager, targetPath: string, targetKey: DomeKey, targetName: string)
      modifies domeManager`lifecycle
      ensures domeManager.lifecycle == old(domeManager.lifecycle) + [Created(this)]
      ensures this.name == name && this.size == size && this.position == position
      ensures this.material == material && this.materialActive == materialActive
      ensures this.domeManager == domeManager
      ensures Binding() == ButtonBinding(position, targetPath, targetKey, targetName)
      ensures meshMaterial == material && !meshDisposed
    {
      this.name := name;
      this.size := size;
      this.position := position;
      this.domeManager := domeManager;
      this.targetKey := targetKey;
      this.material := material;
      this.materialActive := materialActive;
      this.meshMaterial := material;
      this.targetName := targetName;
      this.targetPath := targetPath;
      this.meshDisposed := false;
      new;
      domeManager.lifecycle := domeManager.lifecycle + [Created(this)];
    }

    /** Pointer-over handler: show the active material. */
    method PointerOver()
      modifies this`meshMaterial
      ensures meshMaterial == materialActive
    {
      meshMaterial := materialActive;
    }

    /** Pointer-out handler: show the default material again. */
    method PointerOut()
      modifies this`meshMaterial
      ensures meshMaterial == material
    {
      meshMaterial := material;
    }

    /**
     * Pick handler: make the target the current dome, show its panorama and
     * rebuild the buttons for it.
     */
    method Pick()
      requires domeManager.Valid()
      modifies domeManager, domeManager.dome, domeManager.viewButtons
      ensures domeManager.Valid() && domeManager.Mirrors()
      ensures domeManager.domeKey == targetKey
      ensures domeManager.dome.photoTexture == Texture(targetPath)
      ensures domeManager.lifecycle ==
        old(domeManager.lifecycle) + Disposals(old(domeManager.viewButtons)) + Creations(domeManager.viewButtons)
      ensures forall b :: b in old(domeManager.viewButtons) ==>
        b.meshDisposed && b.meshMaterial == old(b.meshMaterial) && b !in domeManager.viewButtons
      ensures forall b :: b in domeManager.viewButtons ==> fresh(b) && b.meshMaterial == b.material
      ensures old(domeManager.Mirrors()) ==>
        forall j :: 0 <= j < |old(domeManager.viewButtons)| && old(domeManager.viewButtons)[j] == this ==>
          && Follow(DOME_CONFIGURATION, old(domeManager.domeKey), [j]) == Some(domeManager.domeKey)
          && domeManager.dome.photoTexture == Texture(DomeOf(domeManager.domeKey).assetPath)
    {
      ghost var before := domeManager.viewButtons;
      ghost var from := domeManager.domeKey;
      if domeManager.Mirrors() {
        forall j | 0 <= j < |before| && before[j] == this
          ensures Follow(DOME_CONFIGURATION, from, [j]) == Some(targetKey)
          ensures targetPath == DomeOf(targetKey).assetPath
        {
          MirroredButton(domeManager, j);
        }
      }
      domeManager.SetDomeKey(targetKey);
      domeManager.dome.photoTexture := Texture(targetPath);
      domeManager.InitDomeButtons();
    }

    /** Releases the button's mesh. */
    method Dispose()
      modifies this`meshDisposed, domeManager`lifecycle
      ensures meshDisposed
      ensures domeManager.lifecycle == old(domeManager.lifecycle) + [Disposed(this)]
    {
      meshDisposed := true;
      domeManager.lifecycle := domeManager.lifecycle + [Disposed(this)];
    }
  }

  /** Holds the current dome and the buttons that lead away from it. */
  class DomeManager {
    var domeKey: DomeKey
    const dome: PhotoDome
    var viewButtons: seq<ViewpointButton>
    const buttonMaterial: Material
    const buttonMaterialActive: Material
    // Every button creation and disposal the manager has performed, in order.
    ghost var lifecycle: seq<ButtonEvent>

    /**
     * The live buttons belong to this manager, are distinct, still have
     * their meshes and were never disposed; no button was disposed twice.
     */
    ghost predicate Valid()
      reads this, viewButtons
    {
      && (forall i :: 0 <= i < |viewButtons| ==> viewButtons[i].domeManager == this && !viewButtons[i].meshDisposed)
      && Distinct(viewButtons)
      && (forall i :: 0 <= i < |viewButtons| ==> Disposed(viewButtons[i]) !in lifecycle)
      && DisposedAtMostOnce(lifecycle)
    }

    /** A button just built by this manager: owned by it, undisposed, showing the default material. */
    ghost predicate IsNewButton(b: ViewpointButton)
      reads this, b
    {
      && b.domeManager == this && !b.meshDisposed && b.meshMaterial == b.material
      && b.material == buttonMaterial && b.materialActive == buttonMaterialActive
    }

    /** The live buttons are exactly the current dome's hotspots, in order, with the manager's materials. */
    ghost predicate Mirrors()
      reads this
    {
      && Bindings(viewButtons) == DomeBindings(domeKey)
      && forall i :: 0 <= i < |viewButtons| ==>
           viewButtons[i].material == buttonMaterial && viewButtons[i].materialActive == buttonMaterialActive
    }

    constructor ()
      ensures CurrentKey() == DOME_STARTING_KEY && viewButtons == [] && lifecycle == []
      ensures fresh(dome) && dome.photoTexture == Texture(DOME_CONFIGURATION[DOME_STARTING_KEY].assetPath)
      ensures buttonMaterial == StandardMaterial(VIEWPOINT_TEXTURE)
      ensures buttonMaterialActive == StandardMaterial(VIEWPOINT_ACTIVE_TEXTURE)
      ensures Valid()
    {
      domeKey := DOME_STARTING_KEY;
      dome := new PhotoDome(DOME_CONFIGURATION[DOME_STARTING_KEY].assetPath);
      viewButtons := [];
      buttonMaterial := StandardMaterial(VIEWPOINT_TEXTURE);
      buttonMaterialActive := StandardMaterial(VIEWPOINT_ACTIVE_TEXTURE);
      lifecycle := [];
    }

    /**
     * Disposes every current button, empties the list, then builds one
     * button per hotspot of the current dome.
     */
    method InitDomeButtons()
      requires Valid()
      modifies this`viewButtons, this`lifecycle, viewButtons
      ensures Valid() && Mirrors()
      ensures domeKey == old(domeKey)
      ensures lifecycle == old(lifecycle) + Disposals(old(viewButtons)) + Creations(viewButtons)
      ensures forall b :: b in old(viewButtons) ==> b.meshDisposed && b.meshMaterial == old(b.meshMaterial)
      ensures forall b :: b in old(viewButtons) ==> b !in viewButtons
      ensures forall i :: 0 <= i < |viewButtons| ==>
        fresh(viewButtons[i]) && viewButtons[i].meshMaterial == viewButtons[i].material
    {
      DisposeViewButtons();
      CreateViewButtons();
      LifecycleStaysValid(old(lifecycle), old(viewButtons), viewButtons);
    }

    /** Sets up the new set of buttons: one per hotspot of the current dome, pushed in order. */
    method CreateViewButtons()
      requires viewButtons == []
      modifies this`viewButtons, this`lifecycle
      ensures Mirrors()
      ensures lifecycle == old(lifecycle) + Creations(viewButtons)
      ensures Distinct(viewButtons)
      ensures forall k :: 0 <= k < |viewButtons| ==> fresh(viewButtons[k]) && IsNewButton(viewButtons[k])
    {
      KeyInTable(domeKey);
      var currentDome := DOME_CONFIGURATION[domeKey];
      var j := 0;
      while j < |currentDome.hotspots|
        invariant 0 <= j <= |currentDome.hotspots| && |viewButtons| == j
        invariant forall k :: 0 <= k < j ==>
          viewButtons[k].Binding() == BindingFor(currentDome.resolution, currentDome.hotspots[k])
        invariant forall k :: 0 <= k < j ==> fresh(viewButtons[k]) && IsNewButton(viewButtons[k])
        invariant Distinct(viewButtons)
        invariant lifecycle == old(lifecycle) + Creations(viewButtons)
      {
        var buttonPosition := PositionFromPixelPosition(currentDome.hotspots[j].position, currentDome.resolution, BUTTON_DISTANCE);
        var button := new ViewpointButton(
          "button", BUTTON_SIZE, buttonMaterial, buttonMaterialActive, buttonPosition, this,
          DOME_CONFIGURATION[currentDome.hotspots[j].target].assetPath,
          DOME_CONFIGURATION[domeKey].hotspots[j].target,
          DOME_CONFIGURATION[currentDome.hotspots[j].target].name);
        viewButtons := viewButtons + [button];
        j := j + 1;
      }
      BindingsMatch(viewButtons, currentDome);
    }

    /** Removes the old set of buttons: disposes each one, in order, then empties the list. */
    method DisposeViewButtons()
      requires Valid()
      modifies this`viewButtons, this`lifecycle, viewButtons
      ensures viewButtons == [] && DisposedAtMostOnce(lifecycle)
      ensures lifecycle == old(lifecycle) + Disposals(old(viewButtons))
      ensures forall b :: b in old(viewButtons) ==> b.meshDisposed && b.meshMaterial == old(b.meshMaterial)
    {
      var i := 0;
      while i < |viewButtons|
        invariant 0 <= i <= |viewButtons|
        invariant viewButtons == old(viewButtons)
        invariant lifecycle == old(lifecycle) + Disposals(viewButtons[..i])
        invariant forall k :: 0 <= k < |viewButtons| ==> viewButtons[k].meshDisposed == (k < i)
        invariant forall b :: b in viewButtons ==> b.meshMaterial == old(b.meshMaterial) && b.domeManager == this
      {
        viewButtons[i].Dispose();
        i := i + 1;
      }
      assert viewButtons[..i] == old(viewButtons);
      LifecycleStaysValid(old(lifecycle), old(viewButtons), []);
      assert lifecycle == old(lifecycle) + Disposals(old(viewButtons)) + Creations([]);
      viewButtons := [];
    }

    /** The key of the current dome. */
    function CurrentKey(): DomeKey
      reads this
    {
      domeKey
    }

    /** Sets the key of the current dome. */
    method SetDomeKey(key: DomeKey)
      modifies this`domeKey
      ensures CurrentKey() == key
    {
      domeKey := key;
    }
  }

  /**
   * In a manager whose buttons mirror the current dome, button `j` leads
   * along hotspot `j`, shows the target dome's name and loads its panorama.
   */
  lemma MirroredButton(m: DomeManager, j: nat)
    requires m.Mirrors() && j < |m.viewButtons|
    ensures Follow(DOME_CONFIGURATION, m.domeKey, [j]) == Some(m.viewButtons[j].targetKey)
    ensures m.viewButtons[j].targetPath == DomeOf(m.viewButtons[j].targetKey).assetPath
    ensures m.viewButtons[j].targetName == DomeOf(m.viewButtons[j].targetKey).name
    ensures m.viewButtons[j].position ==
      PositionFromPixelPosition(DomeOf(m.domeKey).hotspots[j].position, DomeOf(m.domeKey).resolution, BUTTON_DISTANCE)
  {
    KeyInTable(m.domeKey);
    assert Bindings(m.viewButtons)[j] == m.viewButtons[j].Binding();
    assert DomeBindings(m.domeKey)[j] == m.viewButtons[j].Binding();
    assert [j][1..] == [];
    assert Follow(DOME_CONFIGURATION, m.domeKey, [j]) == Follow(DOME_CONFIGURATION, m.viewButtons[j].targetKey, []);
  }

  /** Buttons built one per hotspot, in order, carry exactly the bindings of that dome's hotspots. */
  lemma BindingsMatch(buttons: seq<ViewpointButton>, dome: Dome)
    requires forall h :: h in dome.hotspots ==> h.target in DOME_CONFIGURATION
    requires |buttons| == |dome.hotspots|
    requires forall k :: 0 <= k < |buttons| ==> buttons[k].Binding() == BindingFor(dome.resolution, dome.hotspots[k])
    ensures Bindings(buttons) == HotspotBindings(dome.resolution, dome.hotspots)
  {
  }

  /**
   * Appending the disposal of every live button and then the creation of
   * buttons that did not exist before keeps each button disposed at most once.
   */
  lemma LifecycleStaysValid(log: seq<ButtonEvent>, disposed: seq<ViewpointButton>, created: seq<ViewpointButton>)
    requires DisposedAtMostOnce(log) && Distinct(disposed)
    requires forall i :: 0 <= i < |disposed| ==> Disposed(disposed[i]) !in log
    ensures DisposedAtMostOnce(log + Disposals(disposed) + Creations(created))
  {
  }
}
