/**
 * Starting the tour and walking it: the start-up the explorer performs and
 * the first move a visitor makes, stated as client code of the dome manager.
 */
module Tour {
  import opened Configuration
  import opened Navigation

  /** Creates the dome manager and builds the starting dome's buttons with the same routine a pick uses. */
  method StartTour() returns (m: DomeManager)
    ensures fresh(m) && fresh(m.dome)
    ensures forall b :: b in m.viewButtons ==> fresh(b) && b.meshMaterial == b.material
    ensures m.buttonMaterial == StandardMaterial(VIEWPOINT_TEXTURE)
    ensures m.buttonMaterialActive == StandardMaterial(VIEWPOINT_ACTIVE_TEXTURE)
    ensures m.Valid() && m.Mirrors()
    ensures m.CurrentKey() == DOME_STARTING_KEY
    ensures m.dome.photoTexture == Texture(DomeOf(DOME_STARTING_KEY).assetPath)
  {
    m := new DomeManager();
    m.InitDomeButtons();
  }

  /** Hovering over a freshly built button and leaving it again restores the button's look. */
  method HoverAndLeave(b: ViewpointButton)
    requires b.meshMaterial == b.material
    modifies b`meshMaterial
    ensures b.meshMaterial == old(b.meshMaterial)
  {
    b.PointerOver();
    assert b.meshMaterial == b.materialActive;
    b.PointerOut();
  }

  /**
   * From the corridor, picking the first button moves the visitor to the
   * main hall, whose only button leads back to the corridor.
   */
  method VisitMainHall() returns (m: DomeManager, picked: ViewpointButton)
    ensures m.CurrentKey() == MainHall
    ensures m.dome.photoTexture == Texture(DomeOf(MainHall).assetPath)
    ensures |m.viewButtons| == 1 && m.viewButtons[0].targetKey == Corridor
    ensures picked.targetKey == MainHall && picked.meshDisposed && picked !in m.viewButtons
    ensures fresh(m) && fresh(m.dome) && m.Valid() && m.Mirrors()
    ensures forall b :: b in m.viewButtons ==> fresh(b) && b.meshMaterial == b.material
  {
    m := StartTour();
    HotspotTargetsPerDome();
    MirroredButton(m, 0);
    picked := m.viewButtons[0];
    HoverAndLeave(picked);
    picked.Pick();
    MirroredButton(m, 0);
  }

  /**
   * A two-step walk: after reaching the main hall, the visitor hovers over its
   * only button and picks it, which brings them back to the corridor and its
   * two buttons.
   */
  method ReturnToCorridor() returns (m: DomeManager)
    ensures m.CurrentKey() == Corridor
    ensures m.dome.photoTexture == Texture(DomeOf(Corridor).assetPath)
    ensures |m.viewButtons| == 2 && m.viewButtons[0].targetKey == MainHall && m.viewButtons[1].targetKey == OldRoom
    ensures forall b :: b in m.viewButtons ==> b.meshMaterial == b.material && !b.meshDisposed
  {
    var picked;
    m, picked := VisitMainHall();
    var back := m.viewButtons[0];
    HoverAndLeave(back);
    back.Pick();
    HotspotTargetsPerDome();
    MirroredButton(m, 0);
    MirroredButton(m, 1);
  }
}
