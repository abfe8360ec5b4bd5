/**
  Player state of code/player.py: health, ammo, owned weapons, the key, the
  shot flag and the difficulty multipliers, and the attributes the engine
  keeps across lives and levels (PlayerAttribs). Sound, ray casting, movement
  and rendering are outside the model; the clock is a `now` parameter and the
  capped difficulty controller an opaque function parameter.
*/
module PlayerState {
  import opened Wrappers
  import opened Timing

  datatype WeaponId = Knife | Pistol | Rifle

  /** Texture ids of the items that can lie on a tile. */
  datatype ItemKind = MedKit | Ammo | PistolIcon | RifleIcon | Key

  datatype Item = Item(kind: ItemKind)

  /** A map cell (column, row), as the player's tile position and the item and door maps key it. */
  type Tile = (int, int)

  /** The constants of settings.py the player logic reads. */
  datatype Settings = Settings(
    initHealth: int,
    initAmmo: int,
    maxHealth: int,
    maxAmmo: int,
    medKitValue: int,
    ammoValue: int,
    pistolConsumption: int,
    rifleConsumption: int,
    numLevels: int,
    ddaOn: bool)

  /** Ammo a firearm uses per shot (WEAPON_SETTINGS[...]["ammo_consumption"]). */
  function Consumption(s: Settings, w: WeaponId): int
  {
    match w
    case Knife => 0
    case Pistol => s.pistolConsumption
    case Rifle => s.rifleConsumption
  }

  /**
    check_DDA_adjust_difficulty_capped: from health, deaths, total time and
    level number to the (damage, health) multipliers. Its body is not part of
    this model.
  */
  type Controller = (int, int, real, int) -> (real, real)

  /** The multipliers a death or a door asks for: the controller's, or 1.0 each when DDA is off. */
  function NewMultipliers(s: Settings, capped: Controller, health: int, deaths: int, seconds: real, level: int): (pair: (real, real))
    ensures s.ddaOn ==> pair == capped(health, deaths, seconds, level)
    ensures !s.ddaOn ==> pair == (1.0, 1.0)
  {
    if s.ddaOn then capped(health, deaths, seconds, level) else (1.0, 1.0)
  }

  /** The weapons dictionary: weapon id to 1 (owned) or 0 (not owned). */
  class Arsenal {
    var slots: map<WeaponId, int>

    /** {KNIFE_0: 1, PISTOL_0: 0, RIFLE_0: 0} */
    constructor ()
      ensures slots == map[Knife := 1, Pistol := 0, Rifle := 0]
    {
      slots := map[Knife := 1, Pistol := 0, Rifle := 0];
    }
  }

  /** Owned: present with a non-zero count (Python truthiness). */
  function Owns(weapons: map<WeaponId, int>, w: WeaponId): bool
  {
    w in weapons && weapons[w] != 0
  }

  /** The session statistics the player reports to (hooks/game_stats.py is not part of this model). */
  class GameStats {
    var deaths: int
    var health: int

    constructor ()
      ensures deaths == 0 && health == 0
    {
      deaths := 0;
      health := 0;
    }

    method IncrementDeath()
      modifies this
      ensures deaths == old(deaths) + 1 && health == old(health)
    {
      deaths := deaths + 1;
    }

    method SetHealth(h: int)
      modifies this
      ensures health == h && deaths == old(deaths)
    {
      health := h;
    }
  }

  /** The view of the held weapon; only its id is modelled. */
  class WeaponView {
    var weaponId: WeaponId

    constructor (w: WeaponId)
      ensures weaponId == w
    {
      weaponId := w;
    }
  }

  class Door {
    const isKeyDoor: bool
    var isClosed: bool
    var isMoving: bool

    constructor (isKeyDoor: bool)
      ensures this.isKeyDoor == isKeyDoor && isClosed && !isMoving
    {
      this.isKeyDoor := isKeyDoor;
      isClosed := true;
      isMoving := false;
    }
  }

  /** What the engine keeps between Player instances. */
  class PlayerAttribs {
    var health: int
    var ammo: int
    var weapons: Arsenal
    var weaponId: WeaponId
    var numLevel: int
    var damageMult: real
    var healthMult: real

    /** Initial health and ammo, the knife only, level 0, neutral multipliers. */
    constructor (s: Settings)
      ensures health == s.initHealth && ammo == s.initAmmo
      ensures fresh(weapons) && weapons.slots == map[Knife := 1, Pistol := 0, Rifle := 0]
      ensures weaponId == Knife && numLevel == 0
      ensures damageMult == 1.0 && healthMult == 1.0
    {
      health := s.initHealth;
      ammo := s.initAmmo;
      weapons := new Arsenal();
      weaponId := Knife;
      numLevel := 0;
      damageMult := 1.0;
      healthMult := 1.0;
    }

    /**
      Copies health, ammo, weapons and the held weapon from the player. The
      weapons dictionary is shared, not copied. Level and multipliers stay.
    */
    method Update(player: Player)
      modifies this
      ensures health == player.health && ammo == player.ammo
      ensures weapons == player.weapons && weaponId == player.weaponId
      ensures numLevel == old(numLevel)
      ensures damageMult == old(damageMult) && healthMult == old(healthMult)
    {
      health := player.health;
      ammo := player.ammo;
      weapons := player.weapons;
      weaponId := player.weaponId;
    }
  }

  class Player {
    const settings: Settings
    const attribs: PlayerAttribs
    const weapons: Arsenal
    const view: WeaponView
    var health: int
    var ammo: int
    var weaponId: WeaponId
    var isShot: bool
    var key: bool
    var damageMult: real
    var healthMult: real
    var tilePos: Option<Tile>
    var itemMap: map<Tile, Item>
    var doorMap: map<Tile, Door>

    /**
      A new life or level: health, ammo, weapons and multipliers are read from
      the engine's attributes, and the weapons dictionary is the same object.
    */
    constructor (s: Settings, attribs: PlayerAttribs, view: WeaponView)
      ensures settings == s && this.attribs == attribs && this.view == view
      ensures health == attribs.health && ammo == attribs.ammo
      ensures weapons == attribs.weapons && weaponId == attribs.weaponId
      ensures damageMult == attribs.damageMult && healthMult == attribs.healthMult
      ensures !isShot && !key && tilePos == None && itemMap == map[] && doorMap == map[]
    {
      settings := s;
      this.attribs := attribs;
      this.view := view;
      health := attribs.health;
      ammo := attribs.ammo;
      weapons := attribs.weapons;
      weaponId := attribs.weaponId;
      damageMult := attribs.damageMult;
      healthMult := attribs.healthMult;
      isShot := false;
      key := false;
      tilePos := None;
      itemMap := map[];
      doorMap := map[];
    }

    /** Holds weapon w (and shows it) if and only if it is owned; otherwise nothing changes. */
    method SwitchWeapon(w: WeaponId)
      requires w in weapons.slots
      modifies this, view
      ensures Owns(weapons.slots, w) ==> weaponId == w && view.weaponId == w
      ensures !Owns(weapons.slots, w) ==> weaponId == old(weaponId) && view.weaponId == old(view.weaponId)
      ensures health == old(health) && ammo == old(ammo) && isShot == old(isShot) && key == old(key)
      ensures itemMap == old(itemMap) && doorMap == old(doorMap)
      ensures damageMult == old(damageMult) && healthMult == old(healthMult) && tilePos == old(tilePos)
    {
      if weapons.slots[w] != 0 {
        weaponId := w;
        view.weaponId := w;
      }
    }

    /**
      A knife attack always happens and never touches ammo. A firearm shot
      happens only with some ammo, not while a shot is in progress, and with
      at least one shot's worth; it uses that much ammo, never going below 0.
      The hit test on NPCs is outside the model.
    */
    method DoShot()
      modifies this
      ensures weaponId == Knife ==> isShot && ammo == old(ammo)
      ensures weaponId != Knife && old(ammo) != 0 && !old(isShot) && old(ammo) >= Consumption(settings, weaponId) ==>
        isShot && ammo == Max0(old(ammo) - Consumption(settings, weaponId)) && ammo >= 0
      ensures weaponId != Knife && !(old(ammo) != 0 && !old(isShot) && old(ammo) >= Consumption(settings, weaponId)) ==>
        isShot == old(isShot) && ammo == old(ammo)
      ensures weaponId == old(weaponId) && health == old(health) && key == old(key)
      ensures itemMap == old(itemMap) && doorMap == old(doorMap)
      ensures damageMult == old(damageMult) && healthMult == old(healthMult) && tilePos == old(tilePos)
    {
      if weaponId == Knife {
        isShot := true;
      } else if ammo != 0 {
        var consumption := Consumption(settings, weaponId);
        if !isShot && ammo >= consumption {
          isShot := true;
          ammo := ammo - consumption;
          ammo := Max0(ammo);
        }
      }
    }

    /**
      Picks up the item on the player's tile, if any: a med kit or ammo adds
      its value up to the cap, a new pistol or rifle becomes owned and held
      (a weapon already owned changes nothing), a key is taken. The item
      leaves the map; every other tile keeps its item.
    */
    method PickUpItem()
      requires Knife in weapons.slots && Pistol in weapons.slots && Rifle in weapons.slots
      modifies this, weapons, view
      ensures tilePos.None? || tilePos.value !in old(itemMap) ==>
        && health == old(health) && ammo == old(ammo) && key == old(key) && weaponId == old(weaponId)
        && itemMap == old(itemMap) && weapons.slots == old(weapons.slots) && view.weaponId == old(view.weaponId)
      ensures tilePos.Some? && tilePos.value in old(itemMap) ==> itemMap == old(itemMap) - {tilePos.value}
      ensures tilePos.Some? && tilePos.value in old(itemMap) ==>
        var kind := old(itemMap)[tilePos.value].kind;
        && (kind == MedKit ==> health == MinInt(old(health) + settings.medKitValue, settings.maxHealth))
        && (kind != MedKit ==> health == old(health))
        && (kind == Ammo ==> ammo == MinInt(old(ammo) + settings.ammoValue, settings.maxAmmo))
        && (kind != Ammo ==> ammo == old(ammo))
        && (kind == Key ==> key)
        && (kind != Key ==> key == old(key))
        && (kind == PistolIcon ==>
              Gains(old(weapons.slots), weapons.slots, Pistol, old(weaponId), weaponId, old(view.weaponId), view.weaponId))
        && (kind == RifleIcon ==>
              Gains(old(weapons.slots), weapons.slots, Rifle, old(weaponId), weaponId, old(view.weaponId), view.weaponId))
        && (kind != PistolIcon && kind != RifleIcon ==>
              weapons.slots == old(weapons.slots) && weaponId == old(weaponId) && view.weaponId == old(view.weaponId))
      ensures old(health) <= settings.maxHealth && settings.medKitValue >= 0 ==> old(health) <= health <= settings.maxHealth
      ensures old(ammo) <= settings.maxAmmo && settings.ammoValue >= 0 ==> old(ammo) <= ammo <= settings.maxAmmo
      ensures isShot == old(isShot) && doorMap == old(doorMap) && tilePos == old(tilePos)
      ensures damageMult == old(damageMult) && healthMult == old(healthMult)
    {
      if tilePos.None? || tilePos.value !in itemMap {
        return;
      }
      var item := itemMap[tilePos.value];
      if item.kind == MedKit {
        health := health + settings.medKitValue;
        health := MinInt(health, settings.maxHealth);
      } else if item.kind == Ammo {
        ammo := ammo + settings.ammoValue;
        ammo := MinInt(ammo, settings.maxAmmo);
      } else if item.kind == PistolIcon {
        if weapons.slots[Pistol] == 0 {
          weapons.slots := weapons.slots[Pistol := 1];
          SwitchWeapon(Pistol);
        }
      } else if item.kind == RifleIcon {
        if weapons.slots[Rifle] == 0 {
          weapons.slots := weapons.slots[Rifle := 1];
          SwitchWeapon(Rifle);
        }
      } else if item.kind == Key {
        key := true;
      }
      itemMap := itemMap - {tilePos.value};
    }

    /**
      On death (health 0 or below): one more death and health 0 in the
      statistics, new multipliers from the controller (or 1.0 each with DDA
      off) for the next life, whose health and ammo are the initial ones;
      weapons and level carry over. Returns whether a new game is started.
    */
    method CheckHealth(stats: GameStats, totalDuration: EventTimer, now: int, capped: Controller)
      returns (newGame: bool)
      modifies stats, attribs
      ensures newGame <==> old(health) <= 0
      ensures health > 0 ==>
        && stats.deaths == old(stats.deaths) && stats.health == old(stats.health)
        && attribs.health == old(attribs.health) && attribs.ammo == old(attribs.ammo)
        && attribs.damageMult == old(attribs.damageMult) && attribs.healthMult == old(attribs.healthMult)
      ensures health <= 0 ==>
        && stats.deaths == old(stats.deaths) + 1 && stats.health == 0
        && attribs.health == settings.initHealth && attribs.ammo == settings.initAmmo
        && (attribs.damageMult, attribs.healthMult) ==
           NewMultipliers(settings, capped, 0, stats.deaths, totalDuration.Duration(now), attribs.numLevel)
      ensures attribs.weapons == old(attribs.weapons) && attribs.weaponId == old(attribs.weaponId)
      ensures attribs.numLevel == old(attribs.numLevel)
    {
      newGame := false;
      if health <= 0 {
        stats.IncrementDeath();
        stats.SetHealth(0);
        var mults := NewMultipliers(settings, capped, stats.health, stats.deaths,
                                    totalDuration.Duration(now), attribs.numLevel);
        attribs.health := settings.initHealth;
        attribs.ammo := settings.initAmmo;
        attribs.damageMult := mults.0;
        attribs.healthMult := mults.1;
        newGame := true;
      }
    }

    /**
      Using the door on the faced tile: nothing when there is none; with the
      key at a key door the level is completed, at any other door the door
      opens (see the two methods below).
    */
    method InteractWithDoor(faced: Tile, stats: GameStats, totalDuration: EventTimer, levelDuration: EventTimer,
                            now: int, capped: Controller)
      returns (newGame: bool, quit: bool)
      requires settings.numLevels > 0
      requires 0 <= attribs.numLevel < settings.numLevels
      requires totalDuration != levelDuration
      modifies this, attribs, stats, totalDuration, levelDuration
      modifies if faced in doorMap then {doorMap[faced]} else {}
      ensures faced !in old(doorMap) ==>
        && !newGame && !quit
        && attribs.numLevel == old(attribs.numLevel) && stats.health == old(stats.health)
        && attribs.damageMult == old(attribs.damageMult) && attribs.healthMult == old(attribs.healthMult)
      ensures faced !in old(doorMap) ==>
        && levelDuration.startTime == old(levelDuration.startTime) && levelDuration.endTime == old(levelDuration.endTime)
        && attribs.health == old(attribs.health) && attribs.ammo == old(attribs.ammo)
        && attribs.weapons == old(attribs.weapons) && attribs.weaponId == old(attribs.weaponId)
        && damageMult == old(damageMult) && healthMult == old(healthMult)
        && isShot == old(isShot) && tilePos == old(tilePos)
      ensures faced in old(doorMap) && !(old(key) && old(doorMap)[faced].isKeyDoor) ==>
        && !newGame && !quit
        && old(doorMap)[faced].isMoving && old(doorMap)[faced].isClosed == old(doorMap[faced].isClosed)
        && attribs.numLevel == old(attribs.numLevel)
        && (damageMult, healthMult) == (attribs.damageMult, attribs.healthMult)
        && (damageMult, healthMult) ==
           NewMultipliers(settings, capped, health, stats.deaths, totalDuration.Duration(now), attribs.numLevel)
      ensures faced in old(doorMap) && old(key) && old(doorMap)[faced].isKeyDoor ==>
        && old(doorMap)[faced].isClosed == !old(doorMap[faced].isClosed)
        && (attribs.damageMult, attribs.healthMult) ==
           NewMultipliers(settings, capped, health, stats.deaths, old(totalDuration.Duration(now)), old(attribs.numLevel))
      ensures faced in old(doorMap) && old(key) && old(doorMap)[faced].isKeyDoor ==>
        && (quit <==> old(attribs.numLevel) + 1 == settings.numLevels)
        && (!quit ==> newGame)
      ensures health == old(health) && ammo == old(ammo) && key == old(key) && weaponId == old(weaponId)
      ensures itemMap == old(itemMap) && doorMap == old(doorMap) && stats.deaths == old(stats.deaths)
      ensures !quit ==> totalDuration.startTime == old(totalDuration.startTime) && totalDuration.endTime == old(totalDuration.endTime)
    {
      newGame, quit := false, false;
      if faced !in doorMap {
        return;
      }
      var door := doorMap[faced];
      if key && door.isKeyDoor {
        newGame, quit := CompleteLevel(door, stats, totalDuration, levelDuration, now, capped);
      } else {
        OpenDoor(door, stats, totalDuration, now, capped);
      }
    }

    /**
      The key door: it toggles, the level timer stops, the multipliers for
      the next level are computed from the health at level end and stored
      with the player's health, ammo and weapons, and the level counter
      advances. Reaching the number of levels ends the game with both timers
      stopped; otherwise the counter stays below the number of levels, a new
      game starts and the level timer restarts.
    */
    method CompleteLevel(door: Door, stats: GameStats, totalDuration: EventTimer, levelDuration: EventTimer,
                         now: int, capped: Controller)
      returns (newGame: bool, quit: bool)
      requires settings.numLevels > 0
      requires 0 <= attribs.numLevel < settings.numLevels
      requires totalDuration != levelDuration
      modifies attribs, stats, totalDuration, levelDuration, door
      ensures door.isClosed == !old(door.isClosed) && door.isMoving == old(door.isMoving)
      ensures stats.health == health && stats.deaths == old(stats.deaths)
      ensures attribs.health == health && attribs.ammo == ammo
      ensures attribs.weapons == weapons && attribs.weaponId == weaponId
      ensures (attribs.damageMult, attribs.healthMult) ==
        NewMultipliers(settings, capped, health, stats.deaths, old(totalDuration.Duration(now)), old(attribs.numLevel))
      ensures quit <==> old(attribs.numLevel) + 1 == settings.numLevels
      ensures quit ==> !newGame && attribs.numLevel == settings.numLevels
      ensures quit ==> !levelDuration.IsRunning() && !totalDuration.IsRunning()
      ensures !quit ==> newGame && attribs.numLevel == old(attribs.numLevel) + 1 < settings.numLevels
      ensures !quit ==> levelDuration.IsRunning() && levelDuration.Duration(now) == 0.0
      ensures !quit ==> totalDuration.startTime == old(totalDuration.startTime) && totalDuration.endTime == old(totalDuration.endTime)
    {
      newGame, quit := false, false;
      door.isClosed := !door.isClosed;
      levelDuration.Stop(now);
      stats.SetHealth(health);
      var mults := NewMultipliers(settings, capped, stats.health, stats.deaths,
                                  totalDuration.Duration(now), attribs.numLevel);
      attribs.Update(this);
      attribs.damageMult := mults.0;
      attribs.healthMult := mults.1;
      attribs.numLevel := attribs.numLevel + 1;
      if attribs.numLevel == settings.numLevels {
        totalDuration.Stop(now);
        levelDuration.Stop(now);
        quit := true;
      } else {
        attribs.numLevel := attribs.numLevel % settings.numLevels;
        newGame := true;
        levelDuration.Start(now);
      }
    }

    /**
      Any other door (or a key door without the key): the multipliers are
      recomputed from the current health and stored both in the engine's
      attributes and in the player, together with health, ammo and weapons;
      the door starts moving; the level counter is kept.
    */
    method OpenDoor(door: Door, stats: GameStats, totalDuration: EventTimer, now: int, capped: Controller)
      modifies this, attribs, stats, door
      ensures door.isMoving && door.isClosed == old(door.isClosed)
      ensures stats.health == health && stats.deaths == old(stats.deaths)
      ensures attribs.health == health && attribs.ammo == ammo
      ensures attribs.weapons == weapons && attribs.weaponId == weaponId
      ensures attribs.numLevel == old(attribs.numLevel)
      ensures (damageMult, healthMult) == (attribs.damageMult, attribs.healthMult)
      ensures (damageMult, healthMult) ==
        NewMultipliers(settings, capped, health, stats.deaths, totalDuration.Duration(now), attribs.numLevel)
      ensures health == old(health) && ammo == old(ammo) && key == old(key) && weaponId == old(weaponId)
      ensures isShot == old(isShot) && tilePos == old(tilePos)
      ensures itemMap == old(itemMap) && doorMap == old(doorMap)
    {
      stats.SetHealth(health);
      var mults := NewMultipliers(settings, capped, stats.health, stats.deaths,
                                  totalDuration.Duration(now), attribs.numLevel);
      attribs.Update(this);
      attribs.damageMult := mults.0;
      attribs.healthMult := mults.1;
      damageMult := mults.0;
      healthMult := mults.1;
      door.isMoving := true;
    }
  }

  /**
    Weapon w was newly gained and is now held and shown, or was already owned
    and nothing changed.
  */
  predicate Gains(before: map<WeaponId, int>, after: map<WeaponId, int>, w: WeaponId,
                  heldBefore: WeaponId, heldAfter: WeaponId, shownBefore: WeaponId, shownAfter: WeaponId)
  {
    if w in before && before[w] == 0 then after == before[w := 1] && heldAfter == w && shownAfter == w
    else after == before && heldAfter == heldBefore && shownAfter == shownBefore
  }

  function MinInt(x: int, y: int): int { if x <= y then x else y }

  /** max(0, x): x when it is non-negative, 0 otherwise. */
  function Max0(x: int): (r: int)
    ensures r >= 0 && r >= x
    ensures x >= 0 ==> r == x
    ensures x < 0 ==> r == 0
  {
    if x >= 0 then x else 0
  }
}
