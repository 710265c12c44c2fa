/** One opened IIO device (main.go's `IIODevice`): what `openIIODevice` finds in the device
    directory, how `configureDevice` fills in missing scales, and how `readSample` turns raw
    channel readings into a sample in rad/s and m/s². */
module Device {
  import opened Wrappers
  import opened Geometry
  import opened Sysfs
  import opened Calibration

  datatype OpenError = NoMotionChannels   // neither `in_anglvel_x_raw` nor `in_accel_x_raw`

  /** The fields of an `IIODevice` the bridge uses. The channel and scale file paths are all
      `base` joined with a fixed file name, so they are left implicit. `sampleRateHz` is never
      set by the source and stays 0. */
  datatype DeviceState = DeviceState(
    base: string,
    gyroScale: Vec3,
    accelScale: Vec3,
    haveGyro: bool,
    haveAccel: bool,
    sampleRateHz: real,
    accelRateHz: real,
    angVelRateHz: real
  )

  /** The scale `openIIODevice` resolves for a present sensor from its scale files. */
  function SensorScale(s: SensorFiles): Vec3 {
    ResolveScale(s.scaleX, s.scaleY, s.scaleZ, s.scale)
  }

  /** What `openIIODevice` makes of the directory `base`: an error when it has neither a gyro
      nor an accel channel; otherwise each present sensor gets its resolved scale, an absent
      one keeps the zero scale, and both sampling frequencies are read whether or not the
      sensor is present (0 when the file does not read). */
  function Opened(base: string, files: DeviceFiles): (r: Result<DeviceState, OpenError>)
    ensures r.Err? <==> !files.gyro.rawX && !files.accel.rawX
    ensures r.Ok? ==> r.value.base == base && r.value.haveGyro == files.gyro.rawX
                      && r.value.haveAccel == files.accel.rawX
  {
    if !files.gyro.rawX && !files.accel.rawX then Err(NoMotionChannels)
    else
      Ok(DeviceState(
        base,
        if files.gyro.rawX then SensorScale(files.gyro) else Zero,
        if files.accel.rawX then SensorScale(files.accel) else Zero,
        files.gyro.rawX,
        files.accel.rawX,
        0.0,
        files.accel.samplingFrequency.GetOr(0.0),
        files.gyro.samplingFrequency.GetOr(0.0)))
  }

  /** The device files with the two sensors' files exchanged. */
  function SwapSensors(files: DeviceFiles): DeviceFiles {
    files.(gyro := files.accel, accel := files.gyro)
  }

  /** The device state with everything about the two sensors exchanged. */
  function SwapState(st: DeviceState): DeviceState {
    st.(gyroScale := st.accelScale, accelScale := st.gyroScale,
        haveGyro := st.haveAccel, haveAccel := st.haveGyro,
        accelRateHz := st.angVelRateHz, angVelRateHz := st.accelRateHz)
  }

  /** The gyro and accel sides of `openIIODevice` follow the same rules. */
  lemma OpenedSymmetric(base: string, files: DeviceFiles)
    ensures Opened(base, SwapSensors(files)).Ok? == Opened(base, files).Ok?
    ensures Opened(base, files).Ok? ==> Opened(base, SwapSensors(files)).value == SwapState(Opened(base, files).value)
  {
  }

  /** An opened device is uncalibrated on a sensor (zero scale) when the sensor is absent, or
      when it is present but its per-axis files read 0 and the global scale file is missing or
      reads 0. */
  lemma OpenedUncalibratedIff(base: string, files: DeviceFiles)
    requires Opened(base, files).Ok?
    ensures var st, g := Opened(base, files).value, files.gyro;
      st.gyroScale == Zero <==>
        !g.rawX || (g.scaleX.GetOr(0.0) == 0.0 && g.scaleY.GetOr(0.0) == 0.0 && g.scaleZ.GetOr(0.0) == 0.0
                    && (g.scale.None? || g.scale.value == 0.0))
  {
    UncalibratedIff(files.gyro.scaleX, files.gyro.scaleY, files.gyro.scaleZ, files.gyro.scale);
  }

  /** The raw channels of the device, in the order `readSample` reads them. */
  datatype Channel = AngVelX | AngVelY | AngVelZ | AccelX | AccelY | AccelZ

  function Position(c: Channel): nat {
    match c
    case AngVelX => 0
    case AngVelY => 1
    case AngVelZ => 2
    case AccelX => 3
    case AccelY => 4
    case AccelZ => 5
  }

  /** The readings of one sensor's three raw files; `None` when a file does not read as an
      integer. */
  datatype RawTriple = RawTriple(x: Option<int>, y: Option<int>, z: Option<int>)

  /** What the six raw channel files read at one instant. */
  datatype RawReads = RawReads(angVel: RawTriple, accel: RawTriple)

  function ReadOf(raw: RawReads, c: Channel): Option<int> {
    match c
    case AngVelX => raw.angVel.x
    case AngVelY => raw.angVel.y
    case AngVelZ => raw.angVel.z
    case AccelX => raw.accel.x
    case AccelY => raw.accel.y
    case AccelZ => raw.accel.z
  }

  /** `readSample` reads a channel only when its sensor is present. */
  predicate Required(st: DeviceState, c: Channel) {
    if Position(c) < 3 then st.haveGyro else st.haveAccel
  }

  /** main.go's `IMUSample`: angular velocity in rad/s, acceleration in m/s², and the
      timestamp in microseconds. */
  datatype IMUSample = IMUSample(gyro: Vec3, accel: Vec3, timestamp: nat)

  datatype ReadError = ReadFailed(channel: Channel)

  /** A raw reading converted by its scale, axis by axis. */
  function Times(t: RawTriple, scale: Vec3): Vec3
    requires t.x.Some? && t.y.Some? && t.z.Some?
  {
    Vec3(t.x.value as real * scale.x, t.y.value as real * scale.y, t.z.value as real * scale.z)
  }

  /** The error for channel `c`, which is required and does not read. */
  function Failed(st: DeviceState, raw: RawReads, c: Channel): (r: Result<IMUSample, ReadError>)
    requires Required(st, c) && ReadOf(raw, c).None?
    ensures r.Err? && r.error.channel == c
    ensures !forall c' :: Required(st, c') ==> ReadOf(raw, c').Some?
  {
    Err(ReadFailed(c))
  }

  /** What `readSample` returns: the first required channel that does not read, in channel
      order, is the error; otherwise each present sensor's value is its raw reading times its
      scale, and an absent sensor's value is the zero vector. */
  function Sample(st: DeviceState, raw: RawReads, ts: nat): (r: Result<IMUSample, ReadError>)
    ensures r.Ok? <==> forall c :: Required(st, c) ==> ReadOf(raw, c).Some?
    ensures r.Err? ==> Required(st, r.error.channel) && ReadOf(raw, r.error.channel).None?
    ensures r.Err? ==> forall c :: Required(st, c) && Position(c) < Position(r.error.channel) ==> ReadOf(raw, c).Some?
    ensures r.Ok? ==> r.value.timestamp == ts
    ensures r.Ok? && !st.haveGyro ==> r.value.gyro == Zero
    ensures r.Ok? && !st.haveAccel ==> r.value.accel == Zero
  {
    var g, a := raw.angVel, raw.accel;
    if st.haveGyro && g.x.None? then Failed(st, raw, AngVelX)
    else if st.haveGyro && g.y.None? then Failed(st, raw, AngVelY)
    else if st.haveGyro && g.z.None? then Failed(st, raw, AngVelZ)
    else if st.haveAccel && a.x.None? then Failed(st, raw, AccelX)
    else if st.haveAccel && a.y.None? then Failed(st, raw, AccelY)
    else if st.haveAccel && a.z.None? then Failed(st, raw, AccelZ)
    else
      Ok(IMUSample(
        if st.haveGyro then Times(g, st.gyroScale) else Zero,
        if st.haveAccel then Times(a, st.accelScale) else Zero,
        ts))
  }

  /** A present sensor's value is its raw reading times its scale on each axis. */
  lemma SampleConverts(st: DeviceState, raw: RawReads, ts: nat)
    requires Sample(st, raw, ts).Ok?
    ensures var s := Sample(st, raw, ts).value;
      (st.haveGyro ==> s.gyro.x == ReadOf(raw, AngVelX).value as real * st.gyroScale.x
                       && s.gyro.y == ReadOf(raw, AngVelY).value as real * st.gyroScale.y
                       && s.gyro.z == ReadOf(raw, AngVelZ).value as real * st.gyroScale.z)
      && (st.haveAccel ==> s.accel.x == ReadOf(raw, AccelX).value as real * st.accelScale.x
                           && s.accel.y == ReadOf(raw, AccelY).value as real * st.accelScale.y
                           && s.accel.z == ReadOf(raw, AccelZ).value as real * st.accelScale.z)
  {
  }

  /** The files of an absent sensor are never looked at. */
  lemma SampleIgnoresAbsentSensor(st: DeviceState, raw: RawReads, raw': RawReads, ts: nat)
    requires (st.haveGyro ==> raw'.angVel == raw.angVel) && (st.haveAccel ==> raw'.accel == raw.accel)
    ensures Sample(st, raw', ts) == Sample(st, raw, ts)
  {
  }

  /** An uncalibrated sensor (zero scale) reports the zero vector whatever it reads. */
  lemma UncalibratedReadsZero(st: DeviceState, raw: RawReads, ts: nat)
    requires Sample(st, raw, ts).Ok? && st.gyroScale == Zero
    ensures Sample(st, raw, ts).value.gyro == Zero
  {
  }

  /** The values `configureDevice` tries to write: the new `in_anglvel_scale` and
      `in_accel_scale`, and the new `in_anglvel_sampling_frequency` and
      `in_accel_sampling_frequency`; `None` where nothing is written. */
  datatype Writes = Writes(gyroScale: Option<real>, accelScale: Option<real>,
                           gyroRate: Option<real>, accelRate: Option<real>)

  /** Whether each scale write succeeds. The outcome of a sampling-frequency write is only
      logged, so it is not an input. */
  datatype WriteOutcome = WriteOutcome(gyroScale: bool, accelScale: bool)

  /** What `configureDevice` tries to write for a device in state `st` whose directory holds
      `files`, at output rate `rate`. */
  function Requested(st: DeviceState, files: DeviceFiles, rate: int, setScales: bool, setRate: bool): Writes {
    Writes(ScalePick(setScales, st.haveGyro, st.gyroScale, files.gyro.scalesAvailable),
           ScalePick(setScales, st.haveAccel, st.accelScale, files.accel.scalesAvailable),
           RatePick(setRate, st.haveGyro, files.gyro.samplingFrequencyAvailable, rate),
           RatePick(setRate, st.haveAccel, files.accel.samplingFrequencyAvailable, rate))
  }

  /** The device state after `configureDevice`: only the scales can change, each to its
      picked value when that write succeeded. */
  function Configured(st: DeviceState, files: DeviceFiles, setScales: bool, outcome: WriteOutcome): DeviceState {
    var w := Requested(st, files, 0, setScales, false);
    st.(gyroScale := ScaleAfter(st.gyroScale, w.gyroScale, outcome.gyroScale),
        accelScale := ScaleAfter(st.accelScale, w.accelScale, outcome.accelScale))
  }

  /** `configureDevice` never changes a non-zero scale, nor anything about an absent sensor,
      and whatever it sets is the same picked value on all three axes. */
  lemma ConfiguredKeeps(st: DeviceState, files: DeviceFiles, setScales: bool, outcome: WriteOutcome)
    ensures var st' := Configured(st, files, setScales, outcome);
      st'.base == st.base && st'.haveGyro == st.haveGyro && st'.haveAccel == st.haveAccel
      && st'.accelRateHz == st.accelRateHz && st'.angVelRateHz == st.angVelRateHz
      && (st.gyroScale != Zero || !st.haveGyro ==> st'.gyroScale == st.gyroScale)
      && (st.accelScale != Zero || !st.haveAccel ==> st'.accelScale == st.accelScale)
      && (st'.gyroScale != st.gyroScale ==> exists x :: Some(x) in files.gyro.scalesAvailable.value && st'.gyroScale == Uniform(x))
      && (st'.accelScale != st.accelScale ==> exists x :: Some(x) in files.accel.scalesAvailable.value && st'.accelScale == Uniform(x))
  {
    AutoScaleKeepsCalibrated(setScales, st.haveGyro, st.gyroScale, files.gyro.scalesAvailable, outcome.gyroScale);
    AutoScaleKeepsCalibrated(setScales, st.haveAccel, st.accelScale, files.accel.scalesAvailable, outcome.accelScale);
  }

  /** Configuring a second time changes nothing once every present sensor has a non-zero
      scale. */
  lemma ConfiguredIdempotent(st: DeviceState, files: DeviceFiles, setScales: bool,
                             outcome: WriteOutcome, outcome': WriteOutcome)
    requires var st' := Configured(st, files, setScales, outcome);
      (st'.haveGyro ==> st'.gyroScale != Zero) && (st'.haveAccel ==> st'.accelScale != Zero)
    ensures var st' := Configured(st, files, setScales, outcome);
      Configured(st', files, setScales, outcome') == st'
  {
  }

  class IIODevice {
    var base: string
    var gyroScale: Vec3
    var accelScale: Vec3
    var haveAccel: bool
    var haveGyro: bool
    var sampleRateHz: real
    var accelRateHz: real
    var angVelRateHz: real

    function State(): DeviceState
      reads this
    {
      DeviceState(base, gyroScale, accelScale, haveGyro, haveAccel, sampleRateHz, accelRateHz, angVelRateHz)
    }

    /** `&IIODevice{Base: base}`: every other field at its zero value. */
    constructor (base: string)
      ensures State() == DeviceState(base, Zero, Zero, false, false, 0.0, 0.0, 0.0)
    {
      this.base := base;
      gyroScale := Zero;
      accelScale := Zero;
      haveAccel := false;
      haveGyro := false;
      sampleRateHz := 0.0;
      accelRateHz := 0.0;
      angVelRateHz := 0.0;
    }

    /** `readSample`: reads the channels of each present sensor in order, returning at the
        first that fails. */
    method ReadSample(raw: RawReads, ts: nat) returns (r: Result<IMUSample, ReadError>)
      ensures r == Sample(State(), raw, ts)
    {
      var s := IMUSample(Zero, Zero, ts);
      if haveGyro {
        var rx := raw.angVel.x;
        if rx.None? { return Err(ReadFailed(AngVelX)); }
        var ry := raw.angVel.y;
        if ry.None? { return Err(ReadFailed(AngVelY)); }
        var rz := raw.angVel.z;
        if rz.None? { return Err(ReadFailed(AngVelZ)); }
        s := s.(gyro := Vec3(rx.value as real * gyroScale.x, ry.value as real * gyroScale.y,
                             rz.value as real * gyroScale.z));
      }
      if haveAccel {
        var ax := raw.accel.x;
        if ax.None? { return Err(ReadFailed(AccelX)); }
        var ay := raw.accel.y;
        if ay.None? { return Err(ReadFailed(AccelY)); }
        var az := raw.accel.z;
        if az.None? { return Err(ReadFailed(AccelZ)); }
        s := s.(accel := Vec3(ax.value as real * accelScale.x, ay.value as real * accelScale.y,
                              az.value as real * accelScale.z));
      }
      assert s.gyro == if haveGyro then Times(raw.angVel, gyroScale) else Zero;
      assert s.accel == if haveAccel then Times(raw.accel, accelScale) else Zero;
      return Ok(s);
    }

    /** `configureDevice` on this device, whose directory holds `files`: the scale of a
        present sensor that reads as zero is set to the middle available scale when the write
        succeeds; each present sensor's sampling frequency is written as the available rate
        nearest to `rate`. Returns the values it tried to write. */
    method Configure(files: DeviceFiles, rate: int, setScales: bool, setRate: bool, outcome: WriteOutcome)
      returns (w: Writes)
      modifies this
      ensures w == Requested(old(State()), files, rate, setScales, setRate)
      ensures State() == Configured(old(State()), files, setScales, outcome)
    {
      var gyroPick: Option<real> := None;
      var accelPick: Option<real> := None;
      if setScales {
        gyroPick := PickScale(haveGyro, gyroScale, files.gyro.scalesAvailable);
        if gyroPick.Some? && outcome.gyroScale {
          gyroScale := Vec3(gyroPick.value, gyroPick.value, gyroPick.value);
        }
        accelPick := PickScale(haveAccel, accelScale, files.accel.scalesAvailable);
        if accelPick.Some? && outcome.accelScale {
          accelScale := Vec3(accelPick.value, accelPick.value, accelPick.value);
        }
      }
      var gyroRate: Option<real> := None;
      var accelRate: Option<real> := None;
      if setRate {
        gyroRate := PickRate(haveGyro, files.gyro.samplingFrequencyAvailable, rate);
        accelRate := PickRate(haveAccel, files.accel.samplingFrequencyAvailable, rate);
      }
      w := Writes(gyroPick, accelPick, gyroRate, accelRate);
    }
  }

  /** One scale step of `configureDevice`: for a present sensor whose scale reads as zero,
      the middle entry of the available scales, if that list reads. */
  method PickScale(have: bool, scale: Vec3, available: Option<seq<Option<real>>>) returns (pick: Option<real>)
    ensures pick == ScalePick(true, have, scale, available)
  {
    pick := None;
    if have && scale.x == 0.0 && scale.y == 0.0 && scale.z == 0.0 {
      var avail := ReadFloatList(available);
      if avail.Ok? {
        pick := Some(avail.value[|avail.value| / 2]);
      }
    }
  }

  /** One sampling-frequency step of `configureDevice`: for a present sensor, the available
      rate nearest to `rate`, if that list reads. */
  method PickRate(have: bool, available: Option<seq<Option<real>>>, rate: int) returns (pick: Option<real>)
    ensures pick == RatePick(true, have, available, rate)
  {
    pick := None;
    if have {
      var avail := ReadFloatList(available);
      if avail.Ok? {
        var best := Nearest(avail.value, rate as real);
        pick := Some(best);
      }
    }
  }

  /** `readFloatIfExists` for the three axis scale files and the global scale file of a
      present sensor, with the fallbacks of `openIIODevice`. */
  method ReadScale(s: SensorFiles) returns (v: Vec3)
    ensures v == SensorScale(s)
  {
    var sx, sy, sz := 0.0, 0.0, 0.0;
    if s.scaleX.Some? { sx := s.scaleX.value; }
    if s.scaleY.Some? { sy := s.scaleY.value; } else { sy := sx; }
    if s.scaleZ.Some? { sz := s.scaleZ.value; } else { sz := sx; }
    if sx == 0.0 && sy == 0.0 && sz == 0.0 {
      if s.scale.Some? {
        var g := s.scale.value;
        sx, sy, sz := g, g, g;
      }
    }
    v := Vec3(sx, sy, sz);
  }

  /** `openIIODevice`: a new device whose fields are filled in from the directory's files. */
  method Open(base: string, files: DeviceFiles) returns (r: Result<IIODevice, OpenError>)
    ensures r.Err? <==> Opened(base, files).Err?
    ensures r.Ok? ==> fresh(r.value) && Opened(base, files) == Ok(r.value.State())
  {
    var dev := new IIODevice(base);
    if files.gyro.rawX { dev.haveGyro := true; }
    if files.accel.rawX { dev.haveAccel := true; }
    if !dev.haveGyro && !dev.haveAccel {
      return Err(NoMotionChannels);
    }
    if dev.haveGyro {
      dev.gyroScale := ReadScale(files.gyro);
    }
    if dev.haveAccel {
      dev.accelScale := ReadScale(files.accel);
    }
    if files.gyro.samplingFrequency.Some? {
      dev.angVelRateHz := files.gyro.samplingFrequency.value;
    }
    if files.accel.samplingFrequency.Some? {
      dev.accelRateHz := files.accel.samplingFrequency.value;
    }
    return Ok(dev);
  }
}
