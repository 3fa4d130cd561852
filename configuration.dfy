/**
 * The static viewpoint graph of the dome explorer: the dome table, the
 * starting key, the scaling constants the navigation code reads, and the
 * well-formedness properties the table is meant to have.
 */
module Configuration {

  datatype Option<T> = None | Some(value: T)

  /** The closed set of dome keys (the property names of the dome table). */
  datatype DomeKey = Corridor | MainHall | OldRoom

  /** A two-component integer vector: pixel positions and texture resolutions. */
  datatype Vector2 = Vector2(x: int, y: int)

  /** A navigable edge: a pixel on the current panorama and the dome it leads to. */
  datatype Hotspot = Hotspot(position: Vector2, target: DomeKey)

  /** One panorama: display name, texture path, authored resolution and its hotspots in order. */
  datatype Dome = Dome(name: string, assetPath: string, resolution: Vector2, hotspots: seq<Hotspot>)

  // Settings the navigation core reads (paths and sizes).
  const ASSET_PATH: string := "./"
  const TEXTURE_PATH: string := ASSET_PATH + "textures/"
  const VIEWPOINT_TEXTURE: string := TEXTURE_PATH + "UI/button.png"
  const VIEWPOINT_ACTIVE_TEXTURE: string := TEXTURE_PATH + "UI/buttonActive.png"
  const DOME_DIAMETER: real := 1000.0
  const BUTTON_DISTANCE: real := DOME_DIAMETER * 0.45
  const BUTTON_SIZE: real := DOME_DIAMETER * 0.1

  /** The dome presets. */
  const DOME_CONFIGURATION: map<DomeKey, Dome> := map[
    Corridor := Dome(
      "Corridor",
      ASSET_PATH + "textures/corridor.webp",
      Vector2(4096, 2048),
      [ Hotspot(Vector2(430, 1520), MainHall),
        Hotspot(Vector2(3360, 1260), OldRoom) ]),
    MainHall := Dome(
      "Main hall",
      ASSET_PATH + "textures/mainHall.webp",
      Vector2(4096, 2048),
      [ Hotspot(Vector2(1400, 1250), Corridor) ]),
    OldRoom := Dome(
      "Old room",
      ASSET_PATH + "textures/oldRoom.webp",
      Vector2(4096, 2048),
      [ Hotspot(Vector2(440, 1350), Corridor) ])
  ]

  const DOME_STARTING_KEY: DomeKey := Corridor

  /** Every key of the closed key set has an entry in the table. */
  predicate CoversAllKeys(cfg: map<DomeKey, Dome>) {
    forall k: DomeKey :: k in cfg
  }

  /** Referential integrity: every hotspot target is a key of the table. */
  predicate TargetsResolve(cfg: map<DomeKey, Dome>) {
    forall k, j :: k in cfg && 0 <= j < |cfg[k].hotspots| ==> cfg[k].hotspots[j].target in cfg
  }

  /** No hotspot leads back to the dome that contains it. */
  predicate NoSelfTargets(cfg: map<DomeKey, Dome>) {
    forall k, j :: k in cfg && 0 <= j < |cfg[k].hotspots| ==> cfg[k].hotspots[j].target != k
  }

  /** Every hotspot pixel lies on its dome's texture. */
  predicate HotspotsInBounds(cfg: map<DomeKey, Dome>) {
    forall k, j :: k in cfg && 0 <= j < |cfg[k].hotspots| ==>
      var p, r := cfg[k].hotspots[j].position, cfg[k].resolution;
      0 <= p.x < r.x && 0 <= p.y < r.y
  }

  /** The lookups the navigation code performs all succeed: the start resolves and so does every target. */
  predicate Resolves(cfg: map<DomeKey, Dome>, start: DomeKey) {
    start in cfg && TargetsResolve(cfg)
  }

  /** The hotspot targets of a dome, in configuration order. */
  function Targets(hotspots: seq<Hotspot>): seq<DomeKey>
  {
    seq(|hotspots|, j requires 0 <= j < |hotspots| => hotspots[j].target)
  }

  /**
   * The dome reached from `from` by picking, one after the other, the
   * hotspots with the given indices; None when an index names no hotspot.
   */
  function Follow(cfg: map<DomeKey, Dome>, from: DomeKey, picks: seq<nat>): Option<DomeKey>
    decreases |picks|
  {
    if picks == [] then Some(from)
    else if from in cfg && picks[0] < |cfg[from].hotspots| then
      Follow(cfg, cfg[from].hotspots[picks[0]].target, picks[1..])
    else None
  }

  /** The table and the starting key have every property above. */
  lemma ConfigurationWellFormed()
    ensures CoversAllKeys(DOME_CONFIGURATION)
    ensures DOME_CONFIGURATION.Keys == {Corridor, MainHall, OldRoom}
    ensures Resolves(DOME_CONFIGURATION, DOME_STARTING_KEY)
    ensures NoSelfTargets(DOME_CONFIGURATION)
    ensures HotspotsInBounds(DOME_CONFIGURATION)
  {
    forall k: DomeKey ensures k in DOME_CONFIGURATION {
      match k
      case Corridor =>
      case MainHall =>
      case OldRoom =>
    }
  }

  /** Every key names a dome of the table. */
  lemma KeyInTable(k: DomeKey)
    ensures k in DOME_CONFIGURATION && CoversAllKeys(DOME_CONFIGURATION)
    ensures TargetsResolve(DOME_CONFIGURATION)
  {
    ConfigurationWellFormed();
  }

  /** The dome stored under key `k`. */
  function DomeOf(k: DomeKey): Dome
  {
    KeyInTable(k);
    DOME_CONFIGURATION[k]
  }

  /** The shape of the graph: corridor leads to the main hall and the old room, both lead back. */
  lemma HotspotTargetsPerDome()
    ensures Targets(DOME_CONFIGURATION[Corridor].hotspots) == [MainHall, OldRoom]
    ensures Targets(DOME_CONFIGURATION[MainHall].hotspots) == [Corridor]
    ensures Targets(DOME_CONFIGURATION[OldRoom].hotspots) == [Corridor]
    ensures forall k :: k in DOME_CONFIGURATION ==> DOME_CONFIGURATION[k].resolution == Vector2(4096, 2048)
  {
  }

  /** In a table with referential integrity, every sequence of picks ends on a dome of the table. */
  lemma {:induction false} FollowStaysInTable(cfg: map<DomeKey, Dome>, from: DomeKey, picks: seq<nat>)
    requires TargetsResolve(cfg) && from in cfg
    ensures Follow(cfg, from, picks).Some? ==> Follow(cfg, from, picks).value in cfg
    decreases |picks|
  {
    if picks != [] && picks[0] < |cfg[from].hotspots| {
      FollowStaysInTable(cfg, cfg[from].hotspots[picks[0]].target, picks[1..]);
    }
  }

  /** No sequence of picks from the starting dome ever reaches a key the table lacks. */
  lemma PicksFromStartStayInTable(picks: seq<nat>)
    ensures Follow(DOME_CONFIGURATION, DOME_STARTING_KEY, picks).Some? ==>
      Follow(DOME_CONFIGURATION, DOME_STARTING_KEY, picks).value in DOME_CONFIGURATION
  {
    ConfigurationWellFormed();
    FollowStaysInTable(DOME_CONFIGURATION, DOME_STARTING_KEY, picks);
  }

  /** Picks compose: following p then q is following p + q. */
  lemma {:induction false} FollowAppend(cfg: map<DomeKey, Dome>, from: DomeKey, p: seq<nat>, q: seq<nat>)
    ensures Follow(cfg, from, p + q) ==
      match Follow(cfg, from, p)
      case None => None
      case Some(mid) => Follow(cfg, mid, q)
    decreases |p|
  {
    if p != [] {
      assert (p + q)[0] == p[0] && (p + q)[1..] == p[1..] + q;
      if from in cfg && p[0] < |cfg[from].hotspots| {
        FollowAppend(cfg, cfg[from].hotspots[p[0]].target, p[1..], q);
      }
    } else {
      assert p + q == q;
    }
  }

  /** Every dome can be reached from the starting dome. */
  lemma EveryDomeReachable(k: DomeKey)
    ensures exists picks :: Follow(DOME_CONFIGURATION, DOME_STARTING_KEY, picks) == Some(k)
  {
    var picks: seq<nat> := match k
      case Corridor => []
      case MainHall => [0]
      case OldRoom => [1];
    assert Follow(DOME_CONFIGURATION, DOME_STARTING_KEY, picks) == Some(k);
  }

  /** From every dome the starting dome can be reached again: no viewpoint is a dead end. */
  lemma StartReachableFromEveryDome(k: DomeKey)
    ensures exists picks :: Follow(DOME_CONFIGURATION, k, picks) == Some(DOME_STARTING_KEY)
  {
    var picks: seq<nat> := if k == DOME_STARTING_KEY then [] else [0];
    assert Follow(DOME_CONFIGURATION, k, picks) == Some(DOME_STARTING_KEY);
  }

  /** Consequently any dome can be reached from any other. */
  lemma StronglyConnected(a: DomeKey, b: DomeKey)
    ensures exists picks :: Follow(DOME_CONFIGURATION, a, picks) == Some(b)
  {
    StartReachableFromEveryDome(a);
    EveryDomeReachable(b);
    var p :| Follow(DOME_CONFIGURATION, a, p) == Some(DOME_STARTING_KEY);
    var q :| Follow(DOME_CONFIGURATION, DOME_STARTING_KEY, q) == Some(b);
    FollowAppend(DOME_CONFIGURATION, a, p, q);
  }
}
