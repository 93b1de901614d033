/**
 * The simulation screen's controller (`SimulationScreen`): it reads the
 * settings file, derives the default S and K, runs the run/stop/reset state
 * machine, advances simulated time one minute per second of frame time, and
 * keeps the particle population in step with the concentration.
 *
 * The three input boxes of the screen are not part of this class: the values
 * their `getFloatValue` yields are parameters of the methods that read them.
 * The exponential is the constructor's parameter `exp`, and the random draws
 * for new particles are parameters of the methods that spawn.
 */
module Simulation {
  import opened Geometry
  import opened Kinetics
  import opened Particles
  import opened Wrappers
  import SettingsFile
  import opened InputField
  import opened NumberText

  /** Particle capacity of the screen (`m_maxParticles`). */
  const MAX_PARTICLES: nat := 500
  /** The initial concentration the screen starts from and is reset to. */
  const DEFAULT_C0: real := 100.0
  /** How the default initial concentration reads in its input box, one decimal place. */
  const DEFAULT_C0_TEXT: string := "100.0"
  /** One second of frame time is one simulated minute. */
  const TICK: real := 1.0

  /** A product of two positive reals is positive, so S/(K*V) is defined once K and V are floored. */
  lemma MulPositive(k: real, v: real)
    requires k > 0.0 && v > 0.0
    ensures k * v > 0.0
  {
  }

  /** The three parameter boxes whose edits the screen applies. */
  datatype ParameterBox = InitialConcentrationBox | InflowBox | RemovalBox

  class SimulationScreen {
    /** `std::exp`, as used by the closed form. */
    const exp: real -> real

    var settings: SettingsFile.Settings
    /** `m_volumeV` */
    var volume: real
    var passagesVis: seq<Opening>
    var windowsVis: seq<Opening>

    /** `m_C0`, `m_S_param`, `m_K_param` */
    var c0: real
    var sParam: real
    var kParam: real

    /** `m_currentTime_t`, in simulated minutes. */
    var currentTime: real
    /** `m_currentConcentration_Ct` */
    var currentConcentration: real
    /** `m_targetConcentration_Ct_for_particles` */
    var targetConcentration: real

    var simulationActive: bool
    var simulationStartedOnce: bool
    /** Frame time not yet turned into a simulated minute. */
    var accumulator: real

    var particles: seq<Particle>
    const maxParticles: nat

    /**
     * The screen's invariant: the floors on K and V hold, the concentrations
     * are never negative, the particle target always equals the current
     * concentration, a running simulation has started, time only moves once
     * it has started, at t = 0 the concentration is C0, and the particles are
     * within capacity and well formed.
     */
    ghost predicate Valid()
      reads this
    {
      RoomConsistent() && RunStateConsistent() && ParticlesWithinCapacity()
    }

    /**
     * The floor on K holds, the concentrations are never negative, the
     * particle target equals the current concentration, a running simulation
     * has started, time only moves once it has started, and at t = 0 the
     * concentration is C0.
     */
    ghost predicate RunStateConsistent()
      reads this`kParam, this`c0, this`currentConcentration, this`targetConcentration
      reads this`simulationActive, this`simulationStartedOnce, this`currentTime, this`accumulator
    {
      && kParam >= K_FLOOR
      && c0 >= 0.0 && currentConcentration >= 0.0
      && targetConcentration == currentConcentration
      && (simulationActive ==> simulationStartedOnce)
      && (!simulationStartedOnce ==> currentTime == 0.0 && accumulator == 0.0)
      && (currentTime == 0.0 ==> currentConcentration == c0)
      && currentTime >= 0.0 && accumulator >= 0.0
    }

    /** The volume and the opening outlines are those the stored settings give. */
    ghost predicate RoomConsistent()
      reads this`settings, this`volume, this`passagesVis, this`windowsVis
    {
      && volume == RoomVolume(settings.width, settings.depth, settings.height)
      && passagesVis == Passages(settings.passages)
      && windowsVis == Windows(settings.windows)
    }

    /** At most `maxParticles` particles, all well formed. */
    ghost predicate ParticlesWithinCapacity()
      reads this`particles
    {
      && maxParticles == MAX_PARTICLES
      && |particles| <= maxParticles
      && AllOk(particles)
    }

    /**
     * A new screen: defaults, then the settings file, the openings, the
     * default S and K, C0 read back from its box, and a first particle
     * adjustment.
     */
    constructor (exp: real -> real, lines: seq<string>, draws: seq<Draw>)
      requires |draws| >= PER_FRAME_ADJUST && ValidDraws(draws)
      ensures Valid()
      ensures this.exp == exp
      ensures settings == SettingsFile.ApplyLines(SettingsFile.DEFAULT_SETTINGS, lines)
      ensures Rates(sParam, kParam) == DefaultRates(settings.pollutantIndex, settings.passages, settings.windows)
      ensures c0 == DEFAULT_C0 && currentConcentration == DEFAULT_C0
      ensures !simulationActive && !simulationStartedOnce && currentTime == 0.0
      ensures particles == [Spawn(draws[0]), Spawn(draws[1])]
    {
      this.exp := exp;
      settings := SettingsFile.DEFAULT_SETTINGS;
      volume := 0.0;
      passagesVis := [];
      windowsVis := [];
      c0 := DEFAULT_C0;
      sParam := 0.0;
      kParam := 0.0;
      currentTime := 0.0;
      currentConcentration := 0.0;
      targetConcentration := 0.0;
      simulationActive := false;
      simulationStartedOnce := false;
      accumulator := 0.0;
      particles := [];
      maxParticles := MAX_PARTICLES;
      new;
      LoadRoom(lines);
      ApplyDefaultParameters();
      RestartParticles(draws);
    }

    /** Re-entering the screen: the settings file is read again over the current settings, then the simulation is reset. */
    method Reset(lines: seq<string>, draws: seq<Draw>)
      requires Valid()
      requires |draws| >= PER_FRAME_ADJUST && ValidDraws(draws)
      modifies this`settings, this`volume, this`passagesVis, this`windowsVis
      modifies this`simulationActive, this`simulationStartedOnce, this`currentTime, this`accumulator
      modifies this`sParam, this`kParam, this`c0, this`currentConcentration, this`targetConcentration, this`particles
      ensures Valid()
      ensures settings == SettingsFile.ApplyLines(old(settings), lines)
      ensures !simulationActive && !simulationStartedOnce && currentTime == 0.0 && accumulator == 0.0
      ensures c0 == DEFAULT_C0 && currentConcentration == DEFAULT_C0
      ensures Rates(sParam, kParam) == DefaultRates(settings.pollutantIndex, settings.passages, settings.windows)
      ensures particles == [Spawn(draws[0]), Spawn(draws[1])]
    {
      LoadRoom(lines);
      ResetSimulationState(draws);
    }

    /** The settings file is read over the current settings and the room is rebuilt from them. */
    method LoadRoom(lines: seq<string>)
      modifies this`settings, this`volume, this`passagesVis, this`windowsVis
      ensures RoomConsistent()
      ensures settings == SettingsFile.ApplyLines(old(settings), lines)
    {
      LoadSettingsFromFile(lines);
      ReconstructOpenings();
    }

    /**
     * Reads the settings file, given as its lines (no lines when it cannot
     * be opened), line by line over the current settings; then floors the
     * room volume.
     */
    method LoadSettingsFromFile(lines: seq<string>)
      modifies this`settings, this`volume
      ensures settings == SettingsFile.ApplyLines(old(settings), lines)
      ensures volume == RoomVolume(settings.width, settings.depth, settings.height)
    {
      var i := 0;
      while i < |lines|
        invariant 0 <= i <= |lines|
        invariant settings == SettingsFile.ApplyLines(old(settings), lines[..i])
      {
        assert lines[..i + 1][..i] == lines[..i];
        ReadSettingsLine(lines[i]);
        i := i + 1;
      }
      assert lines[..i] == lines;
      volume := BoxVolume(settings.width, settings.depth, settings.height);
      if volume < VOLUME_FLOOR {
        volume := VOLUME_FLOOR;
      }
    }

    /**
     * One line of the settings file: split at the first ':', the key routed
     * to its field, the value converted with stof or stoi; a line that does
     * not split, an unknown key or a failed conversion changes nothing.
     */
    method ReadSettingsLine(line: string)
      modifies this`settings
      ensures settings == SettingsFile.ApplyLine(old(settings), line)
    {
      var split := SettingsFile.SplitLine(line);
      if split.Some? {
        var (key, value) := split.value;
        SettingsFile.SplitIsJoin(line);
        StoreSetting(key, value);
      }
    }

    /** The if-chain over the key: the matching field takes the converted value when the conversion succeeds. */
    method StoreSetting(key: string, value: string)
      requires ':' !in key && value != []
      modifies this`settings
      ensures settings == SettingsFile.ApplyLine(old(settings), key + ":" + value)
    {
      SettingsFile.KeyValueLine(settings, key, value);
      if key == "width" {
        var x := ParseFloat(value);
        if x.Some? { settings := settings.(width := x.value); }
      } else if key == "depth" {
        var x := ParseFloat(value);
        if x.Some? { settings := settings.(depth := x.value); }
      } else if key == "height" {
        var x := ParseFloat(value);
        if x.Some? { settings := settings.(height := x.value); }
      } else if key == "pollutant_index" {
        var n := ParseInt(value);
        if n.Some? { settings := settings.(pollutantIndex := n.value); }
      } else if key == "passages_count" {
        var n := ParseInt(value);
        if n.Some? { settings := settings.(passages := n.value); }
      } else if key == "windows_count" {
        var n := ParseInt(value);
        if n.Some? { settings := settings.(windows := n.value); }
      } else {
        assert SettingsFile.FieldNamed(key).None?;
      }
    }

    /** Rebuilds the opening outlines from the stored counts: at most two passages and two windows. */
    method ReconstructOpenings()
      modifies this`passagesVis, this`windowsVis
      ensures passagesVis == Passages(settings.passages)
      ensures windowsVis == Windows(settings.windows)
    {
      passagesVis := [];
      windowsVis := [];
      if settings.passages >= 1 {
        passagesVis := passagesVis + [PassageOn(-0.5)];
      }
      if settings.passages >= 2 {
        passagesVis := passagesVis + [PassageOn(0.5)];
      }
      if settings.windows >= 1 {
        windowsVis := windowsVis + [WindowOn(-0.5)];
      }
      if settings.windows >= 2 {
        windowsVis := windowsVis + [WindowOn(0.5)];
      }
    }

    /** The default S and K: the pollutant's preset, the per-opening increments, K floored. */
    method InitializeDefaultSK()
      modifies this`sParam, this`kParam
      ensures Rates(sParam, kParam) == DefaultRates(settings.pollutantIndex, settings.passages, settings.windows)
    {
      var baseS, baseK;
      var index := settings.pollutantIndex;
      if index == 0 {
        baseS, baseK := BASE_S_PM10, BASE_K_PM10;
      } else if index == 1 {
        baseS, baseK := BASE_S_CO, BASE_K_CO;
      } else if index == 2 {
        baseS, baseK := BASE_S_CL2, BASE_K_CL2;
      } else {
        baseS, baseK := BASE_S_UNKNOWN, BASE_K_UNKNOWN;
      }
      sParam := baseS + PerOpening(settings.passages, S_ADJUST_PASSAGE) + PerOpening(settings.windows, S_ADJUST_WINDOW);
      kParam := baseK + PerOpening(settings.passages, K_ADJUST_PASSAGE) + PerOpening(settings.windows, K_ADJUST_WINDOW);
      if kParam < K_FLOOR {
        kParam := K_FLOOR;
      }
    }

    /**
     * The edit rules for the parameter boxes: nothing is applied while the
     * simulation runs; S takes the box's value, K the value raised to the
     * floor, and C0, only before the first run, the value raised to 0, which
     * also becomes the current concentration.
     */
    method EditParameter(box: ParameterBox, entry: real)
      requires Valid()
      modifies this`sParam, this`kParam, this`c0, this`currentConcentration, this`targetConcentration
      ensures Valid()
      ensures simulationActive ==> sParam == old(sParam) && kParam == old(kParam) && c0 == old(c0)
      ensures !simulationActive && box == InflowBox ==> sParam == entry
      ensures !simulationActive && box == RemovalBox ==> kParam == FloorK(entry)
      ensures !simulationActive && box == InitialConcentrationBox && !simulationStartedOnce ==>
                c0 == (if entry < 0.0 then 0.0 else entry) && currentConcentration == c0
      ensures box != InflowBox ==> sParam == old(sParam)
      ensures box != RemovalBox ==> kParam == old(kParam)
      ensures box != InitialConcentrationBox || simulationStartedOnce ==>
                c0 == old(c0) && currentConcentration == old(currentConcentration)
    {
      if !simulationActive {
        if box == InflowBox {
          sParam := entry;
        } else if box == RemovalBox {
          kParam := entry;
          if kParam < K_FLOOR {
            kParam := K_FLOOR;
          }
        } else if !simulationStartedOnce {
          c0 := entry;
          if c0 < 0.0 {
            c0 := 0.0;
          }
          currentConcentration := c0;
          targetConcentration := c0;
        }
      }
    }

    /**
     * One frame: while running, frame time accumulates and, once a second
     * has gathered, time advances by exactly one minute and the concentration
     * is recomputed (at most one tick per frame); then the particles are
     * adjusted towards the target count and advanced by dt.
     */
    method Update(dt: real, draws: seq<Draw>)
      requires Valid() && dt >= 0.0
      requires |draws| >= PER_FRAME_ADJUST && ValidDraws(draws)
      modifies this`accumulator, this`currentTime, this`currentConcentration, this`targetConcentration, this`particles
      ensures Valid()
      ensures old(simulationActive) && old(accumulator) + dt >= TICK ==>
                && currentTime == old(currentTime) + TICK
                && accumulator == old(accumulator) + dt - TICK
                && currentConcentration == Concentration(c0, sParam, kParam, volume, currentTime, exp)
      ensures old(simulationActive) && old(accumulator) + dt < TICK ==>
                currentTime == old(currentTime) && accumulator == old(accumulator) + dt
                && currentConcentration == old(currentConcentration)
      ensures !simulationActive ==>
                currentTime == old(currentTime) && accumulator == old(accumulator)
                && currentConcentration == old(currentConcentration)
      ensures particles == StepAll(Adjusted(old(particles), TargetParticleCount(c0, targetConcentration, maxParticles),
                                            maxParticles, draws), dt)
    {
      AdvanceTime(dt);
      StepParticles(dt, draws);
    }

    /** The particle part of a frame: the count is adjusted towards the target, then every particle advances by dt. */
    method StepParticles(dt: real, draws: seq<Draw>)
      requires ParticlesWithinCapacity() && dt >= 0.0
      requires |draws| >= PER_FRAME_ADJUST && ValidDraws(draws)
      modifies this`particles
      ensures ParticlesWithinCapacity()
      ensures particles == StepAll(Adjusted(old(particles), TargetParticleCount(c0, targetConcentration, maxParticles),
                                            maxParticles, draws), dt)
    {
      ghost var target := TargetParticleCount(c0, targetConcentration, maxParticles);
      AdjustedOk(particles, target, maxParticles, draws);
      if target > |particles| {
        AdjustedGrowth(particles, target, maxParticles, draws);
      }
      AdjustParticleCount(draws);
      StepAllOk(particles, dt);
      UpdateParticleSystem(dt);
    }

    /**
     * The clock part of a frame: while running, frame time accumulates and,
     * once a second has gathered, one simulated minute passes and the
     * concentration and the particle target are recomputed; when stopped, the
     * particle target follows the current concentration.
     */
    method AdvanceTime(dt: real)
      requires Valid() && dt >= 0.0
      modifies this`accumulator, this`currentTime, this`currentConcentration, this`targetConcentration
      ensures Valid()
      ensures old(simulationActive) && old(accumulator) + dt >= TICK ==>
                && currentTime == old(currentTime) + TICK
                && accumulator == old(accumulator) + dt - TICK
                && currentConcentration == Concentration(c0, sParam, kParam, volume, currentTime, exp)
      ensures old(simulationActive) && old(accumulator) + dt < TICK ==>
                currentTime == old(currentTime) && accumulator == old(accumulator) + dt
                && currentConcentration == old(currentConcentration)
      ensures !simulationActive ==>
                currentTime == old(currentTime) && accumulator == old(accumulator)
                && currentConcentration == old(currentConcentration)
    {
      if simulationActive {
        accumulator := accumulator + dt;
        if accumulator >= TICK {
          currentTime := currentTime + TICK;
          CalculateCurrentConcentration();
          targetConcentration := currentConcentration;
          accumulator := accumulator - TICK;
        }
      } else {
        targetConcentration := currentConcentration;
      }
    }

    /** The closed form at the current time, clamped at 0. */
    method CalculateCurrentConcentration()
      requires kParam >= K_FLOOR && volume >= VOLUME_FLOOR
      modifies this`currentConcentration
      ensures currentConcentration == Concentration(c0, sParam, kParam, volume, currentTime, exp)
    {
      MulPositive(kParam, volume);
      currentConcentration := Concentration(c0, sParam, kParam, volume, currentTime, exp);
    }

    /**
     * The run button: on the first run C0 is taken from its box, raised to
     * 0, and locked; S and K are taken from their boxes, K raised to the
     * floor; the simulation runs, from C0 when no time has passed.
     */
    method RunSimulation(c0Entry: real, sEntry: real, kEntry: real)
      requires Valid()
      modifies this`c0, this`simulationStartedOnce, this`currentConcentration, this`targetConcentration
      modifies this`sParam, this`kParam, this`simulationActive
      ensures Valid()
      ensures simulationActive && simulationStartedOnce
      ensures !old(simulationStartedOnce) ==> c0 == (if c0Entry < 0.0 then 0.0 else c0Entry)
      ensures old(simulationStartedOnce) ==> c0 == old(c0)
      ensures sParam == sEntry && kParam == FloorK(kEntry)
      ensures currentTime == 0.0 ==> currentConcentration == c0
      ensures currentTime != 0.0 ==> currentConcentration == old(currentConcentration)
    {
      if !simulationStartedOnce {
        LockInitialConcentration(c0Entry);
      }
      TakeRates(sEntry, kEntry);
      simulationActive := true;
      if currentTime == 0.0 {
        currentConcentration := c0;
        targetConcentration := c0;
      } else {
        targetConcentration := currentConcentration;
      }
    }

    /** The first run fixes C0 from its box, raised to 0, and the concentration starts from it. */
    method LockInitialConcentration(c0Entry: real)
      modifies this`c0, this`simulationStartedOnce, this`currentConcentration, this`targetConcentration
      ensures c0 == (if c0Entry < 0.0 then 0.0 else c0Entry) && c0 >= 0.0
      ensures simulationStartedOnce && currentConcentration == c0 && targetConcentration == c0
    {
      c0 := c0Entry;
      if c0 < 0.0 {
        c0 := 0.0;
      }
      simulationStartedOnce := true;
      currentConcentration := c0;
      targetConcentration := c0;
    }

    /** S and K are taken from their boxes when the simulation starts, K raised to the floor. */
    method TakeRates(sEntry: real, kEntry: real)
      modifies this`sParam, this`kParam
      ensures sParam == sEntry && kParam == FloorK(kEntry)
    {
      sParam := sEntry;
      kParam := kEntry;
      if kParam < K_FLOOR {
        kParam := K_FLOOR;
      }
    }

    /** The stop button: time stops advancing; nothing else changes. */
    method StopSimulation()
      requires Valid()
      modifies this`simulationActive
      ensures Valid()
      ensures !simulationActive
    {
      simulationActive := false;
    }

    /**
     * The reset button: stopped and unlocked, time and accumulator at 0,
     * default S and K, C0 back to 100 read from its box, particles cleared
     * and a first adjustment made.
     */
    method ResetSimulationState(draws: seq<Draw>)
      requires |draws| >= PER_FRAME_ADJUST && ValidDraws(draws)
      requires RoomConsistent() && maxParticles == MAX_PARTICLES
      modifies this`simulationActive, this`simulationStartedOnce, this`currentTime, this`accumulator
      modifies this`sParam, this`kParam, this`c0, this`currentConcentration, this`targetConcentration, this`particles
      ensures Valid()
      ensures !simulationActive && !simulationStartedOnce && currentTime == 0.0 && accumulator == 0.0
      ensures c0 == DEFAULT_C0 && currentConcentration == DEFAULT_C0
      ensures Rates(sParam, kParam) == DefaultRates(settings.pollutantIndex, settings.passages, settings.windows)
      ensures particles == [Spawn(draws[0]), Spawn(draws[1])]
    {
      ResetRunState();
      RestartParticles(draws);
    }

    /** Everything the reset button restores except the particles. */
    method ResetRunState()
      modifies this`simulationActive, this`simulationStartedOnce, this`currentTime, this`accumulator
      modifies this`sParam, this`kParam, this`c0, this`currentConcentration, this`targetConcentration
      ensures RunStateConsistent()
      ensures !simulationActive && !simulationStartedOnce && currentTime == 0.0 && accumulator == 0.0
      ensures c0 == DEFAULT_C0 && currentConcentration == DEFAULT_C0 && targetConcentration == DEFAULT_C0
      ensures Rates(sParam, kParam) == DefaultRates(settings.pollutantIndex, settings.passages, settings.windows)
    {
      simulationActive := false;
      simulationStartedOnce := false;
      currentTime := 0.0;
      accumulator := 0.0;
      ApplyDefaultParameters();
    }

    /** With the clock stopped at 0: the default S and K, then C0 read back from its box as the starting concentration. */
    method ApplyDefaultParameters()
      requires !simulationActive && !simulationStartedOnce && currentTime == 0.0 && accumulator == 0.0
      modifies this`sParam, this`kParam, this`c0, this`currentConcentration, this`targetConcentration
      ensures RunStateConsistent()
      ensures c0 == DEFAULT_C0 && currentConcentration == DEFAULT_C0 && targetConcentration == DEFAULT_C0
      ensures Rates(sParam, kParam) == DefaultRates(settings.pollutantIndex, settings.passages, settings.windows)
    {
      InitializeDefaultSK();
      RestoreDefaultC0();
    }

    /**
     * C0 goes back to its default through its box: the box is given the
     * default written with one decimal place, C0 is read back from it, and
     * the concentration starts from it.
     */
    method RestoreDefaultC0()
      modifies this`c0, this`currentConcentration, this`targetConcentration
      ensures c0 == DEFAULT_C0 && currentConcentration == DEFAULT_C0 && targetConcentration == DEFAULT_C0
    {
      c0 := FloatValueOf(DEFAULT_C0_TEXT);
      DefaultC0TextValue();
      currentConcentration := c0;
      targetConcentration := c0;
    }

    /**
     * The particles are cleared and one adjustment is made; with the
     * concentration at C0 the target is the full capacity, so two particles
     * are spawned.
     */
    method RestartParticles(draws: seq<Draw>)
      requires |draws| >= PER_FRAME_ADJUST && ValidDraws(draws)
      requires maxParticles == MAX_PARTICLES && c0 == DEFAULT_C0 && targetConcentration == DEFAULT_C0
      modifies this`particles
      ensures particles == [Spawn(draws[0]), Spawn(draws[1])]
      ensures |particles| <= maxParticles && AllOk(particles)
    {
      particles := [];
      TargetCountSaturates(c0, targetConcentration, maxParticles);
      EmptyGrowsByTwo(maxParticles, maxParticles, draws);
      AdjustParticleCount(draws);
      assert ParticleOk(particles[0]) && ParticleOk(particles[1]);
    }

    /** Appends one particle spawned from the draw d. */
    method SpawnNewParticle(d: Draw)
      requires d.Valid()
      modifies this`particles
      ensures particles == old(particles) + [Spawn(d)]
    {
      particles := particles + [Spawn(d)];
    }

    /**
     * Moves the population one frame towards the target count: spawns up to
     * two particles while below the cap, or cuts the front particle's
     * lifetime when there are too many.
     */
    method AdjustParticleCount(draws: seq<Draw>)
      requires |draws| >= PER_FRAME_ADJUST && ValidDraws(draws)
      modifies this`particles
      ensures particles == Adjusted(old(particles), TargetParticleCount(c0, targetConcentration, maxParticles),
                                    maxParticles, draws)
    {
      var target := TargetParticleCount(c0, targetConcentration, maxParticles);
      var n := |particles|;
      var diff := target - n;
      if diff > 0 {
        var limit := MinInt(diff, PER_FRAME_ADJUST);
        var room := Room(n, maxParticles);
        var i := 0;
        while i < limit
          invariant 0 <= i <= limit
          invariant particles == old(particles) + SpawnAll(draws[..MinInt(i, room)])
        {
          if |particles| < maxParticles {
            assert MinInt(i, room) == i;
            assert draws[..i + 1][..i] == draws[..i];
            SpawnNewParticle(draws[i]);
          }
          i := i + 1;
        }
      } else if diff < 0 {
        var limit := MinInt(-diff, PER_FRAME_ADJUST);
        var i := 0;
        while i < limit
          invariant 0 <= i <= limit
          invariant particles == if i == 0 then old(particles) else Retire(old(particles))
        {
          RetireIdempotent(old(particles));
          if particles != [] {
            var front := particles[0];
            particles := particles[0 := front.(lifetime := if front.lifetime <= RETIRE_LIFETIME then front.lifetime
                                                          else RETIRE_LIFETIME)];
          }
          i := i + 1;
        }
      }
    }

    /**
     * The per-frame pass over the particles, in place: each one is moved,
     * wrapped, aged and faded; one whose alpha reached 0 is erased and the
     * pass continues with the particle that took its place.
     */
    method UpdateParticleSystem(dt: real)
      modifies this`particles
      ensures particles == StepAll(old(particles), dt)
    {
      ghost var k := 0;
      var i := 0;
      while i < |particles|
        invariant 0 <= k <= |old(particles)|
        invariant particles == StepAll(old(particles)[..k], dt) + old(particles)[k..]
        invariant i == |StepAll(old(particles)[..k], dt)|
        decreases |particles| - i
      {
        ghost var done, rest := StepAll(old(particles)[..k], dt), old(particles)[k..];
        assert particles[i] == rest[0] == old(particles)[k];
        assert rest[1..] == old(particles)[k + 1..];
        StepAllExtend(old(particles), k, dt);
        var p := Advance(particles[i], dt);
        if p.alpha <= 0.0 {
          EraseAt(done, rest);
          particles := particles[..i] + particles[i + 1..];
        } else {
          ReplaceAt(done, rest, p);
          particles := particles[i := p];
          i := i + 1;
        }
        k := k + 1;
      }
      assert old(particles)[..k] == old(particles);
    }
  }
}
