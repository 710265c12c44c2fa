/** The bridge's `main` apart from configuration loading and the DSU server: which IIO device
    is used, how a split device (gyro and accel on two IIO devices) is paired with its
    complement, which mount matrix each sensor gets, and the fixed-rate loop that reads,
    merges and rotates samples and warns when the gyro stays at zero. */
module Bridge {
  import opened Wrappers
  import opened Geometry
  import opened Sysfs
  import opened Discovery
  import opened Device

  // ---------- Mount matrices ----------

  /** One matrix block of the configuration file: the rows `x`, `y` and `z` as lists of
      floats, empty when the file does not give them. */
  datatype MatrixConfig = MatrixConfig(x: seq<real>, y: seq<real>, z: seq<real>)

  /** `mount_matrix` (both sensors), `accel_matrix` and `gyro_matrix`. */
  datatype MatrixSettings = MatrixSettings(mount: MatrixConfig, accel: MatrixConfig, gyro: MatrixConfig)

  /** The matrix applied to each sensor's readings. */
  datatype Orientation = Orientation(accel: Matrix, gyro: Matrix)

  /** A block counts as configured when all three rows have exactly three floats. */
  predicate Given(m: MatrixConfig) {
    IsRow(m.x) && IsRow(m.y) && IsRow(m.z)
  }

  /** A matrix written back as a configuration block. */
  function Rows(m: Matrix): MatrixConfig {
    MatrixConfig(Components(m.x), Components(m.y), Components(m.z))
  }

  /** The matrix one sensor gets: its own block when configured, else the mount matrix when
      that is configured, else the zero matrix. */
  function SensorMatrix(own: MatrixConfig, mount: MatrixConfig): (r: Matrix)
    ensures Given(own) ==> Rows(r) == own
    ensures !Given(own) && Given(mount) ==> Rows(r) == mount
    ensures !Given(own) && !Given(mount) ==> r == ZeroMatrix
  {
    var base := ParseMatrix(mount.x, mount.y, mount.z).GetOr(ZeroMatrix);
    match ParseMatrix(own.x, own.y, own.z)
    case Some(m) => m
    case None => if Given(mount) then base else ZeroMatrix
  }

  datatype StartupError =
    | DeviceNotFound(name: string)   // no device by that name and no `iio:device0`
    | OpenFailed(reason: OpenError)   // the chosen device has no motion channels
    | NoMountMatrix                   // none of the three matrix blocks is configured

  /** The orientation `main` sets up: fatal only when no block at all is configured. */
  function ResolveOrientation(cfg: MatrixSettings): (r: Result<Orientation, StartupError>)
    ensures r.Err? <==> !Given(cfg.mount) && !Given(cfg.accel) && !Given(cfg.gyro)
    ensures r.Err? ==> r.error == NoMountMatrix
    ensures r.Ok? ==> r.value.accel == SensorMatrix(cfg.accel, cfg.mount)
                      && r.value.gyro == SensorMatrix(cfg.gyro, cfg.mount)
  {
    if !Given(cfg.accel) && !Given(cfg.gyro) && !Given(cfg.mount) then Err(NoMountMatrix)
    else Ok(Orientation(SensorMatrix(cfg.accel, cfg.mount), SensorMatrix(cfg.gyro, cfg.mount)))
  }

  /** A mount matrix alone is used for both sensors. */
  lemma MountMatrixForBoth(cfg: MatrixSettings)
    requires Given(cfg.mount) && !Given(cfg.accel) && !Given(cfg.gyro)
    ensures ResolveOrientation(cfg).Ok?
    ensures var o := ResolveOrientation(cfg).value; o.accel == o.gyro && Rows(o.accel) == cfg.mount
  {
    var o := ResolveOrientation(cfg).value;
    assert Rows(o.accel) == Rows(o.gyro);
  }

  /** With only one sensor's block configured the start-up goes on, and the other sensor's
      readings are all rotated to the zero vector. */
  lemma LoneSensorMatrixZeroesTheOther(cfg: MatrixSettings)
    requires Given(cfg.accel) && !Given(cfg.gyro) && !Given(cfg.mount)
    ensures ResolveOrientation(cfg).Ok?
    ensures forall v :: Apply(ResolveOrientation(cfg).value.gyro, v) == Zero
  {
    forall v ensures Apply(ResolveOrientation(cfg).value.gyro, v) == Zero {
      ApplyZeroMatrix(v);
    }
  }

  // ---------- Device choice and pairing ----------

  /** The hard fallback device. */
  const Device0 := DevicePath("iio:device0")

  /** `findIIODeviceByName` succeeds. */
  predicate Found(fs: Tree, name: string) {
    fs.listing.Some? && ByName(fs, fs.listing.value, name).Ok?
  }

  /** The device `main` chooses, as a value. */
  function Chosen(iioPath: string, name: string, fs: Tree, device0Exists: bool): Result<string, StartupError> {
    if iioPath != "" then Ok(iioPath)
    else if Found(fs, name) then Ok(ByName(fs, fs.listing.value, name).value)
    else if device0Exists then Ok(Device0)
    else Err(DeviceNotFound(name))
  }

  /** The device choice of `main`: an explicit path wins; otherwise the device found by name;
      otherwise `iio:device0` when it exists (`device0Exists`); otherwise start-up fails. */
  method ChooseDevice(iioPath: string, name: string, fs: Tree, device0Exists: bool)
    returns (r: Result<string, StartupError>)
    ensures r == Chosen(iioPath, name, fs, device0Exists)
    ensures iioPath != "" ==> r == Ok(iioPath)
    ensures iioPath == "" && Found(fs, name) ==> r == Ok(ByName(fs, fs.listing.value, name).value)
    ensures iioPath == "" && !Found(fs, name) && device0Exists ==> r == Ok(Device0)
    ensures r.Err? <==> iioPath == "" && !Found(fs, name) && !device0Exists
    ensures r.Err? ==> r.error == DeviceNotFound(name)
  {
    if iioPath != "" {
      return Ok(iioPath);
    }
    var found := FindByName(fs, name);
    if found.Ok? {
      return Ok(found.value);
    }
    if device0Exists {
      return Ok(Device0);
    }
    return Err(DeviceNotFound(name));
  }

  /** `p` is the complement `main` pairs with the device at `base` when that device lacks the
      requested sensor: the first device by name offering it, at a path different from
      `base` once both are cleaned (`clean` stands for `filepath.Clean`). */
  ghost predicate Complement(fs: Tree, clean: string -> string, base: string, p: string, wantGyro: bool, wantAccel: bool) {
    fs.listing.Some? && IsLeastOffering(fs, fs.listing.value, p, wantGyro, wantAccel) && clean(p) != clean(base)
  }

  /** The pairing step of `main`: a gyro-only device gets the first accel device by name and
      an accel-only device the first gyro device, unless that is the primary itself; a device
      with both sensors gets none. The complement is opened from its own files. */
  method PairComplement(dev: IIODevice, fs: Tree, clean: string -> string)
    returns (gyroDev: IIODevice?, accelDev: IIODevice?)
    ensures gyroDev == null || accelDev == null
    ensures accelDev != null ==>
      (fresh(accelDev) && dev.haveGyro && !dev.haveAccel && accelDev.haveAccel
       && Complement(fs, clean, dev.base, accelDev.base, false, true)
       && Opened(accelDev.base, FilesAt(fs, accelDev.base)) == Ok(accelDev.State()))
    ensures gyroDev != null ==>
      (fresh(gyroDev) && dev.haveAccel && !dev.haveGyro && gyroDev.haveGyro
       && Complement(fs, clean, dev.base, gyroDev.base, true, false)
       && Opened(gyroDev.base, FilesAt(fs, gyroDev.base)) == Ok(gyroDev.State()))
    ensures dev.haveGyro && !dev.haveAccel && accelDev == null ==>
      forall p :: !Complement(fs, clean, dev.base, p, false, true)
    ensures dev.haveAccel && !dev.haveGyro && gyroDev == null ==>
      forall p :: !Complement(fs, clean, dev.base, p, true, false)
  {
    gyroDev, accelDev := null, null;
    if dev.haveGyro && !dev.haveAccel {
      accelDev := OpenComplement(dev.base, fs, clean, false, true);
    } else if dev.haveAccel && !dev.haveGyro {
      gyroDev := OpenComplement(dev.base, fs, clean, true, false);
    }
  }

  /** One branch of the pairing step: find the first device offering the missing sensor,
      and open it when it is not the primary and really has that sensor. */
  method OpenComplement(base: string, fs: Tree, clean: string -> string, wantGyro: bool, wantAccel: bool)
    returns (d: IIODevice?)
    requires wantGyro != wantAccel
    ensures d != null ==>
      (fresh(d) && Complement(fs, clean, base, d.base, wantGyro, wantAccel)
       && (wantGyro ==> d.haveGyro) && (wantAccel ==> d.haveAccel)
       && Opened(d.base, FilesAt(fs, d.base)) == Ok(d.State()))
    ensures d == null ==> forall p :: !Complement(fs, clean, base, p, wantGyro, wantAccel)
  {
    d := null;
    var p := FindFirstWith(fs, wantGyro, wantAccel);
    if p.Err? {
      return;
    }
    if clean(p.value) == clean(base) {
      forall q | Complement(fs, clean, base, q, wantGyro, wantAccel) ensures false {
        LeastOfferingUnique(fs, fs.listing.value, p.value, q, wantGyro, wantAccel);
      }
      return;
    }
    LeastOfferingUnique(fs, fs.listing.value, p.value, p.value, wantGyro, wantAccel);
    var d2 := Open(p.value, FilesAt(fs, p.value));
    if d2.Ok? && ((wantGyro && d2.value.haveGyro) || (wantAccel && d2.value.haveAccel)) {
      d := d2.value;
    }
  }

  // ---------- Start-up ----------

  /** The effective settings after the file, environment and flag layers: the device path
      and name, the output rate passed to `configureDevice` (the `--rate` flag's value), the
      two auto-configuration switches and the matrix blocks. */
  datatype Settings = Settings(iioPath: string, name: string, rate: int, setScales: bool, setRate: bool,
                               matrices: MatrixSettings)

  /** What the host contributes at start-up: the sysfs tree, whether `iio:device0` exists,
      `filepath.Clean`, and the outcome of each device's scale writes. */
  datatype Host = Host(fs: Tree, device0Exists: bool, clean: string -> string,
                       primaryWrites: WriteOutcome, gyroWrites: WriteOutcome, accelWrites: WriteOutcome)

  /** The devices and matrices the sample loop runs with. */
  datatype Session = Session(dev: IIODevice, gyroDev: IIODevice?, accelDev: IIODevice?, orientation: Orientation)

  /** `st` is the state of the device at `path` once opened and then configured. */
  predicate ConfiguredFrom(fs: Tree, path: string, setScales: bool, outcome: WriteOutcome, st: DeviceState) {
    Opened(path, FilesAt(fs, path)).Ok?
    && st == Configured(Opened(path, FilesAt(fs, path)).value, FilesAt(fs, path), setScales, outcome)
  }

  /** `configureDevice` on a complement, which may be absent. */
  method ConfigureComplement(d: IIODevice?, fs: Tree, cfg: Settings, outcome: WriteOutcome)
    modifies d
    ensures d != null ==> d.State() == Configured(old(d.State()), FilesAt(fs, old(d.base)), cfg.setScales, outcome)
  {
    if d != null {
      var _ := d.Configure(FilesAt(fs, d.base), cfg.rate, cfg.setScales, cfg.setRate, outcome);
    }
  }

  /** The chosen device opens: a device was chosen and it has a raw X channel of at least
      one sensor. */
  predicate PrimaryOpens(cfg: Settings, host: Host) {
    var c := Chosen(cfg.iioPath, cfg.name, host.fs, host.device0Exists);
    c.Ok? && Opened(c.value, FilesAt(host.fs, c.value)).Ok?
  }

  /** The fatal error when the primary does not open: no device chosen, or the chosen one
      has no motion channel. */
  function PrimaryError(cfg: Settings, host: Host): (e: StartupError)
    requires !PrimaryOpens(cfg, host)
    ensures e.DeviceNotFound? <==> Chosen(cfg.iioPath, cfg.name, host.fs, host.device0Exists).Err?
    ensures e.DeviceNotFound? ==> e.name == cfg.name
    ensures !e.NoMountMatrix?
  {
    var c := Chosen(cfg.iioPath, cfg.name, host.fs, host.device0Exists);
    if c.Err? then c.error else OpenFailed(Opened(c.value, FilesAt(host.fs, c.value)).error)
  }

  /** The first two steps of start-up: choose the device and open it. */
  method OpenPrimary(cfg: Settings, host: Host) returns (r: Result<IIODevice, StartupError>)
    ensures r.Ok? <==> PrimaryOpens(cfg, host)
    ensures r.Err? ==> r.error == PrimaryError(cfg, host)
    ensures r.Err? && r.error.DeviceNotFound? ==>
      cfg.iioPath == "" && !Found(host.fs, cfg.name) && !host.device0Exists
    ensures r.Ok? ==>
      (fresh(r.value) && r.value.base == Chosen(cfg.iioPath, cfg.name, host.fs, host.device0Exists).value
       && Opened(r.value.base, FilesAt(host.fs, r.value.base)) == Ok(r.value.State()))
    ensures r.Ok? && cfg.iioPath != "" ==> r.value.base == cfg.iioPath
  {
    var chosen := ChooseDevice(cfg.iioPath, cfg.name, host.fs, host.device0Exists);
    if chosen.Err? {
      return Err(chosen.error);
    }
    var path := chosen.value;
    var openResult := Open(path, FilesAt(host.fs, path));
    if openResult.Err? {
      return Err(OpenFailed(openResult.error));
    }
    return Ok(openResult.value);
  }

  /** Start-up as `main` orders it: choose and open the device, pair a complement, configure
      every device, then resolve the matrices; each failure is fatal at its own step. */
  method Startup(cfg: Settings, host: Host) returns (r: Result<Session, StartupError>)
    ensures r.Ok? <==> PrimaryOpens(cfg, host) && ResolveOrientation(cfg.matrices).Ok?
    ensures !PrimaryOpens(cfg, host) ==> r.Err? && r.error == PrimaryError(cfg, host)
    ensures PrimaryOpens(cfg, host) && r.Err? ==> r.error == NoMountMatrix
    ensures r.Err? && r.error.NoMountMatrix? ==> ResolveOrientation(cfg.matrices).Err?
    ensures r.Err? && r.error.DeviceNotFound? ==>
      cfg.iioPath == "" && !Found(host.fs, cfg.name) && !host.device0Exists
    ensures r.Ok? ==> ResolveOrientation(cfg.matrices) == Ok(r.value.orientation)
    ensures r.Ok? ==>
      (fresh(r.value.dev)
       && ConfiguredFrom(host.fs, r.value.dev.base, cfg.setScales, host.primaryWrites, r.value.dev.State()))
    ensures r.Ok? ==> r.value.dev.base == Chosen(cfg.iioPath, cfg.name, host.fs, host.device0Exists).value
    ensures r.Ok? && cfg.iioPath != "" ==> r.value.dev.base == cfg.iioPath
    ensures r.Ok? ==> r.value.gyroDev == null || r.value.accelDev == null
    ensures r.Ok? && r.value.accelDev != null ==>
      (fresh(r.value.accelDev) && r.value.dev.haveGyro && !r.value.dev.haveAccel
       && Complement(host.fs, host.clean, r.value.dev.base, r.value.accelDev.base, false, true)
       && ConfiguredFrom(host.fs, r.value.accelDev.base, cfg.setScales, host.accelWrites, r.value.accelDev.State()))
    ensures r.Ok? && r.value.gyroDev != null ==>
      (fresh(r.value.gyroDev) && r.value.dev.haveAccel && !r.value.dev.haveGyro
       && Complement(host.fs, host.clean, r.value.dev.base, r.value.gyroDev.base, true, false)
       && ConfiguredFrom(host.fs, r.value.gyroDev.base, cfg.setScales, host.gyroWrites, r.value.gyroDev.State()))
    ensures r.Ok? && r.value.dev.haveGyro && !r.value.dev.haveAccel && r.value.accelDev == null ==>
      forall p :: !Complement(host.fs, host.clean, r.value.dev.base, p, false, true)
    ensures r.Ok? && r.value.dev.haveAccel && !r.value.dev.haveGyro && r.value.gyroDev == null ==>
      forall p :: !Complement(host.fs, host.clean, r.value.dev.base, p, true, false)
  {
    var primary := OpenPrimary(cfg, host);
    if primary.Err? {
      return Err(primary.error);
    }
    var dev := primary.value;
    var gyroDev, accelDev := PairAndConfigure(dev, cfg, host);
    var orientation := ResolveOrientation(cfg.matrices);
    if orientation.Err? {
      return Err(NoMountMatrix);
    }
    return Ok(Session(dev, gyroDev, accelDev, orientation.value));
  }

  /** The middle steps of start-up on an opened primary: pair a complement, then configure
      the primary and the complement. */
  method PairAndConfigure(dev: IIODevice, cfg: Settings, host: Host) returns (gyroDev: IIODevice?, accelDev: IIODevice?)
    requires Opened(dev.base, FilesAt(host.fs, dev.base)) == Ok(dev.State())
    modifies dev
    ensures dev.base == old(dev.base)
    ensures ConfiguredFrom(host.fs, dev.base, cfg.setScales, host.primaryWrites, dev.State())
    ensures gyroDev == null || accelDev == null
    ensures accelDev != null ==>
      (fresh(accelDev) && dev.haveGyro && !dev.haveAccel
       && Complement(host.fs, host.clean, dev.base, accelDev.base, false, true)
       && ConfiguredFrom(host.fs, accelDev.base, cfg.setScales, host.accelWrites, accelDev.State()))
    ensures gyroDev != null ==>
      (fresh(gyroDev) && dev.haveAccel && !dev.haveGyro
       && Complement(host.fs, host.clean, dev.base, gyroDev.base, true, false)
       && ConfiguredFrom(host.fs, gyroDev.base, cfg.setScales, host.gyroWrites, gyroDev.State()))
    ensures dev.haveGyro && !dev.haveAccel && accelDev == null ==>
      forall p :: !Complement(host.fs, host.clean, dev.base, p, false, true)
    ensures dev.haveAccel && !dev.haveGyro && gyroDev == null ==>
      forall p :: !Complement(host.fs, host.clean, dev.base, p, true, false)
  {
    var fs := host.fs;
    var path := dev.base;
    ghost var initial := dev.State();
    gyroDev, accelDev := PairComplement(dev, fs, host.clean);
    var _ := dev.Configure(FilesAt(fs, path), cfg.rate, cfg.setScales, cfg.setRate, host.primaryWrites);
    ghost var configured := dev.State();
    assert configured == Configured(initial, FilesAt(fs, path), cfg.setScales, host.primaryWrites);
    ConfigureComplement(gyroDev, fs, cfg, host.gyroWrites);
    ConfigureComplement(accelDev, fs, cfg, host.accelWrites);
    assert dev.State() == configured;
    assert accelDev != null ==> ConfiguredFrom(fs, accelDev.base, cfg.setScales, host.accelWrites, accelDev.State());
    assert gyroDev != null ==> ConfiguredFrom(fs, gyroDev.base, cfg.setScales, host.gyroWrites, gyroDev.State());
  }

  // ---------- Zero-gyro watchdog ----------

  /** `zeroGyroCount` and `zeroGyroWarned` of the sample loop. */
  datatype Health = Health(zeroGyroCount: nat, warned: bool)

  const Reset := Health(0, false)

  /** Consecutive all-zero gyro samples before the warning. */
  const ZeroGyroLimit := 100

  /** The new counters and whether the warning is printed on this sample. */
  datatype Observation = Observation(health: Health, warn: bool)

  /** One sample's effect on the counters: a zero gyro counts, and the warning is printed
      once the count reaches the limit unless it already was; a non-zero gyro resets both. */
  function Observe(h: Health, gyro: Vec3): (r: Observation)
    ensures gyro != Zero ==> r == Observation(Reset, false)
    ensures gyro == Zero ==> r.health.zeroGyroCount == h.zeroGyroCount + 1
    ensures r.warn ==> gyro == Zero && !h.warned && r.health.warned
    ensures gyro == Zero && !r.warn ==> r.health.warned == h.warned
  {
    if gyro.x == 0.0 && gyro.y == 0.0 && gyro.z == 0.0 then
      var n := h.zeroGyroCount + 1;
      if n >= ZeroGyroLimit && !h.warned then Observation(Health(n, true), true)
      else Observation(Health(n, h.warned), false)
    else Observation(Reset, false)
  }

  /** The warning has been printed exactly when the count has reached the limit. */
  predicate Consistent(h: Health) {
    h.warned <==> h.zeroGyroCount >= ZeroGyroLimit
  }

  lemma ObserveConsistent(h: Health, gyro: Vec3)
    requires Consistent(h)
    ensures Consistent(Observe(h, gyro).health)
    ensures Observe(h, gyro).warn <==> gyro == Zero && h.zeroGyroCount + 1 == ZeroGyroLimit
  {
  }

  /** The counters and the number of warnings after `k` zero samples. */
  datatype Tally = Tally(health: Health, warnings: nat)

  function ZeroRun(h: Health, k: nat): Tally {
    if k == 0 then Tally(h, 0)
    else
      var prev := ZeroRun(h, k - 1);
      var o := Observe(prev.health, Zero);
      Tally(o.health, prev.warnings + if o.warn then 1 else 0)
  }

  /** A run of `k` zero samples adds `k` to the count and prints the warning once if the run
      crosses the limit, and never otherwise. */
  lemma {:induction false} ZeroRunSpec(h: Health, k: nat)
    requires Consistent(h)
    ensures ZeroRun(h, k).health.zeroGyroCount == h.zeroGyroCount + k
    ensures Consistent(ZeroRun(h, k).health)
    ensures ZeroRun(h, k).warnings == if h.zeroGyroCount < ZeroGyroLimit <= h.zeroGyroCount + k then 1 else 0
  {
    if k > 0 {
      ZeroRunSpec(h, k - 1);
    }
  }

  /** From the reset counters the warning is printed on the 100th zero sample and only
      then. */
  lemma WarnsOnHundredthZero(k: nat)
    ensures ZeroRun(Reset, k).warnings == if k >= ZeroGyroLimit then 1 else 0
    ensures k == ZeroGyroLimit ==> Observe(ZeroRun(Reset, k - 1).health, Zero).warn
  {
    ZeroRunSpec(Reset, k);
    if k == ZeroGyroLimit {
      ZeroRunSpec(Reset, k - 1);
    }
  }

  /** A non-zero gyro sample resets the watchdog, so a later zero run can warn again. */
  lemma NonZeroRearms(h: Health, gyro: Vec3, k: nat)
    requires gyro != Zero
    ensures Observe(h, gyro) == Observation(Reset, false)
    ensures ZeroRun(Observe(h, gyro).health, k).warnings == if k >= ZeroGyroLimit then 1 else 0
  {
    WarnsOnHundredthZero(k);
  }

  // ---------- Sample loop ----------

  /** What the files read at one tick: the primary device and the two possible complements. */
  datatype TickInput = TickInput(timestamp: nat, primary: RawReads, gyroSide: RawReads, accelSide: RawReads)

  /** A tick either is skipped (the primary read failed) or broadcasts a sample, printing the
      zero-gyro warning or not. */
  datatype TickOutput = Skipped | Sent(sample: IMUSample, warn: bool)

  /** The states of the devices the loop reads. */
  datatype Devices = Devices(primary: DeviceState, gyroSide: Option<DeviceState>, accelSide: Option<DeviceState>)

  function StateOf(d: IIODevice?): Option<DeviceState>
    reads d
  {
    if d == null then None else Some(d.State())
  }

  /** The primary sample with the complements merged in: a complement's sensor value
      replaces the primary's only when the complement's own read succeeds. */
  function Merged(devs: Devices, t: TickInput): (r: Result<IMUSample, ReadError>)
    ensures r.Ok? <==> Sample(devs.primary, t.primary, t.timestamp).Ok?
    ensures r.Err? ==> r.error == Sample(devs.primary, t.primary, t.timestamp).error
    ensures r.Ok? ==> r.value.timestamp == t.timestamp
    ensures r.Ok? && (devs.gyroSide.None? || Sample(devs.gyroSide.value, t.gyroSide, t.timestamp).Err?) ==>
      r.value.gyro == Sample(devs.primary, t.primary, t.timestamp).value.gyro
    ensures r.Ok? && (devs.accelSide.None? || Sample(devs.accelSide.value, t.accelSide, t.timestamp).Err?) ==>
      r.value.accel == Sample(devs.primary, t.primary, t.timestamp).value.accel
    ensures r.Ok? && devs.gyroSide.Some? && Sample(devs.gyroSide.value, t.gyroSide, t.timestamp).Ok? ==>
      r.value.gyro == Sample(devs.gyroSide.value, t.gyroSide, t.timestamp).value.gyro
    ensures r.Ok? && devs.accelSide.Some? && Sample(devs.accelSide.value, t.accelSide, t.timestamp).Ok? ==>
      r.value.accel == Sample(devs.accelSide.value, t.accelSide, t.timestamp).value.accel
  {
    match Sample(devs.primary, t.primary, t.timestamp)
    case Err(e) => Err(e)
    case Ok(s) =>
      var withGyro :=
        if devs.gyroSide.Some? && Sample(devs.gyroSide.value, t.gyroSide, t.timestamp).Ok?
        then s.(gyro := Sample(devs.gyroSide.value, t.gyroSide, t.timestamp).value.gyro) else s;
      var withAccel :=
        if devs.accelSide.Some? && Sample(devs.accelSide.value, t.accelSide, t.timestamp).Ok?
        then withGyro.(accel := Sample(devs.accelSide.value, t.accelSide, t.timestamp).value.accel) else withGyro;
      Ok(withAccel)
  }

  /** Each sensor's value rotated by its own matrix. */
  function Rotated(o: Orientation, s: IMUSample): (r: IMUSample)
    ensures r.timestamp == s.timestamp
  {
    s.(gyro := Apply(o.gyro, s.gyro), accel := Apply(o.accel, s.accel))
  }

  datatype TickResult = TickResult(health: Health, output: TickOutput)

  /** One tick of the loop. */
  function TickStep(devs: Devices, o: Orientation, h: Health, t: TickInput): (r: TickResult)
    ensures r.output.Skipped? <==> Merged(devs, t).Err?
    ensures r.output.Skipped? ==> r.health == h
    ensures r.output.Sent? ==> r.output.sample.timestamp == t.timestamp
  {
    match Merged(devs, t)
    case Err(_) => TickResult(h, Skipped)
    case Ok(s) =>
      var sent := Rotated(o, s);
      var obs := Observe(h, sent.gyro);
      TickResult(obs.health, Sent(sent, obs.warn))
  }

  datatype RunState = RunState(health: Health, outputs: seq<TickOutput>)

  /** The loop over a sequence of ticks, from the reset counters. */
  function Run(devs: Devices, o: Orientation, ticks: seq<TickInput>): (r: RunState)
    ensures |r.outputs| == |ticks|
    decreases |ticks|
  {
    if ticks == [] then RunState(Reset, [])
    else
      var prev := Run(devs, o, ticks[..|ticks| - 1]);
      var step := TickStep(devs, o, prev.health, ticks[|ticks| - 1]);
      RunState(step.health, prev.outputs + [step.output])
  }

  /** The sample loop of `main` over the ticks `ticks`; the DSU broadcast is the list of
      outputs. */
  method RunTicks(dev: IIODevice, gyroDev: IIODevice?, accelDev: IIODevice?, o: Orientation, ticks: seq<TickInput>)
    returns (health: Health, outputs: seq<TickOutput>)
    ensures RunState(health, outputs) == Run(Devices(dev.State(), StateOf(gyroDev), StateOf(accelDev)), o, ticks)
  {
    ghost var devs := Devices(dev.State(), StateOf(gyroDev), StateOf(accelDev));
    var zeroGyroCount: nat := 0;
    var zeroGyroWarned := false;
    outputs := [];
    for i := 0 to |ticks|
      invariant RunState(Health(zeroGyroCount, zeroGyroWarned), outputs) == Run(devs, o, ticks[..i])
    {
      assert ticks[..i + 1][..i] == ticks[..i];
      var t := ticks[i];
      var s := dev.ReadSample(t.primary, t.timestamp);
      if s.Err? {
        outputs := outputs + [Skipped];
        continue;
      }
      var sample := s.value;
      if gyroDev != null {
        var gs := gyroDev.ReadSample(t.gyroSide, t.timestamp);
        if gs.Ok? {
          sample := sample.(gyro := gs.value.gyro);
        }
      }
      if accelDev != null {
        var accelRead := accelDev.ReadSample(t.accelSide, t.timestamp);
        if accelRead.Ok? {
          sample := sample.(accel := accelRead.value.accel);
        }
      }
      assert Merged(devs, t) == Ok(sample);
      sample := sample.(gyro := Apply(o.gyro, sample.gyro), accel := Apply(o.accel, sample.accel));
      var warn := false;
      if sample.gyro.x == 0.0 && sample.gyro.y == 0.0 && sample.gyro.z == 0.0 {
        zeroGyroCount := zeroGyroCount + 1;
        if zeroGyroCount >= ZeroGyroLimit && !zeroGyroWarned {
          warn := true;
          zeroGyroWarned := true;
        }
      } else {
        zeroGyroCount := 0;
        zeroGyroWarned := false;
      }
      outputs := outputs + [Sent(sample, warn)];
    }
    assert ticks[..|ticks|] == ticks;
    health := Health(zeroGyroCount, zeroGyroWarned);
  }

  /** Every tick gives one output; it is skipped exactly when the primary read fails, and a
      sent sample carries its tick's timestamp; the counters stay consistent. */
  lemma {:induction false} RunSpec(devs: Devices, o: Orientation, ticks: seq<TickInput>)
    ensures var r := Run(devs, o, ticks);
      |r.outputs| == |ticks| && Consistent(r.health)
      && (forall i :: 0 <= i < |ticks| ==>
            (r.outputs[i].Skipped? <==> Sample(devs.primary, ticks[i].primary, ticks[i].timestamp).Err?))
      && (forall i :: 0 <= i < |ticks| && r.outputs[i].Sent? ==> r.outputs[i].sample.timestamp == ticks[i].timestamp)
    decreases |ticks|
  {
    if ticks != [] {
      var init := ticks[..|ticks| - 1];
      RunSpec(devs, o, init);
      var prev := Run(devs, o, init);
      var t := ticks[|ticks| - 1];
      var step := TickStep(devs, o, prev.health, t);
      var r := Run(devs, o, ticks);
      assert r == RunState(step.health, prev.outputs + [step.output]);
      assert Consistent(step.health) by {
        match Merged(devs, t)
        case Err(_) =>
        case Ok(s) => ObserveConsistent(prev.health, Rotated(o, s).gyro);
      }
      forall i | 0 <= i < |ticks|
        ensures r.outputs[i].Skipped? <==> Sample(devs.primary, ticks[i].primary, ticks[i].timestamp).Err?
        ensures r.outputs[i].Sent? ==> r.outputs[i].sample.timestamp == ticks[i].timestamp
      {
        if i < |init| {
          assert r.outputs[i] == prev.outputs[i] && ticks[i] == init[i];
        } else {
          assert r.outputs[i] == step.output && ticks[i] == t;
        }
      }
    }
  }

  /** A failed primary read skips the tick and leaves the counters alone, whatever the
      complements read. */
  lemma PrimaryFailureSkips(devs: Devices, o: Orientation, h: Health, t: TickInput)
    requires Sample(devs.primary, t.primary, t.timestamp).Err?
    ensures TickStep(devs, o, h, t) == TickResult(h, Skipped)
  {
  }

  /** Split-device merge: for a gyro-only primary paired with an accel device, the sample
      sent has the primary's gyro value and the accel device's accel value, each rotated by
      its own matrix. */
  lemma SplitDeviceMerge(devs: Devices, o: Orientation, h: Health, t: TickInput)
    requires devs.primary.haveGyro && !devs.primary.haveAccel && devs.gyroSide.None?
    requires devs.accelSide.Some? && devs.accelSide.value.haveAccel
    requires Sample(devs.primary, t.primary, t.timestamp).Ok?
    requires Sample(devs.accelSide.value, t.accelSide, t.timestamp).Ok?
    ensures var out := TickStep(devs, o, h, t).output;
      out.Sent?
      && out.sample.gyro == Apply(o.gyro, Sample(devs.primary, t.primary, t.timestamp).value.gyro)
      && out.sample.accel == Apply(o.accel, Sample(devs.accelSide.value, t.accelSide, t.timestamp).value.accel)
  {
  }

  /** When the complement's read fails the primary's own value is kept; for an accel-less
      primary that is the zero vector, and it rotates to zero. */
  lemma ComplementFailureKeepsPrimary(devs: Devices, o: Orientation, h: Health, t: TickInput)
    requires !devs.primary.haveAccel && devs.accelSide.Some?
    requires Sample(devs.primary, t.primary, t.timestamp).Ok?
    requires Sample(devs.accelSide.value, t.accelSide, t.timestamp).Err?
    ensures TickStep(devs, o, h, t).output.Sent?
    ensures TickStep(devs, o, h, t).output.sample.accel == Zero
  {
  }

  /** A tick whose merged reading succeeds sends that reading rotated, with the watchdog
      observing the rotated gyro value. */
  lemma TickSends(devs: Devices, o: Orientation, h: Health, t: TickInput)
    requires Merged(devs, t).Ok?
    ensures var sent := Rotated(o, Merged(devs, t).value); var obs := Observe(h, sent.gyro);
      TickStep(devs, o, h, t) == TickResult(obs.health, Sent(sent, obs.warn))
  {
  }

  /** With identity matrices the sent sample is the merged reading itself. */
  lemma IdentityOrientationPassesThrough(devs: Devices, h: Health, t: TickInput)
    requires Merged(devs, t).Ok?
    ensures var s := Merged(devs, t).value; var obs := Observe(h, s.gyro);
      TickStep(devs, Orientation(Identity, Identity), h, t) == TickResult(obs.health, Sent(s, obs.warn))
  {
    var s := Merged(devs, t).value;
    TickSends(devs, Orientation(Identity, Identity), h, t);
    ApplyIdentity(s.gyro);
    ApplyIdentity(s.accel);
    assert Rotated(Orientation(Identity, Identity), s) == s;
  }

  /** The single device of the example below: calibrated gyro and accel. */
  const ExampleDevice := DeviceState("dev", Uniform(0.001), Uniform(1.0 / 16384.0), true, true, 0.0, 0.0, 0.0)

  const ExampleRaw := RawReads(RawTriple(Some(100), Some(0), Some(0)), RawTriple(Some(0), Some(0), Some(16384)))

  const NothingRead := RawReads(RawTriple(None, None, None), RawTriple(None, None, None))

  lemma {:induction false} ExampleConversion(ts: nat)
    ensures Sample(ExampleDevice, ExampleRaw, ts) == Ok(IMUSample(Vec3(0.1, 0.0, 0.0), Vec3(0.0, 0.0, 1.0), ts))
  {
    assert Times(ExampleRaw.angVel, ExampleDevice.gyroScale) == Vec3(0.1, 0.0, 0.0);
    assert Times(ExampleRaw.accel, ExampleDevice.accelScale) == Vec3(0.0, 0.0, 1.0);
  }

  lemma {:induction false} ExampleMerged(ts: nat)
    ensures Merged(Devices(ExampleDevice, None, None), TickInput(ts, ExampleRaw, NothingRead, NothingRead))
            == Ok(IMUSample(Vec3(0.1, 0.0, 0.0), Vec3(0.0, 0.0, 1.0), ts))
  {
    ExampleConversion(ts);
  }

  /** Raw gyro (100, 0, 0) at scale 0.001 and raw accel (0, 0, 16384) at scale 1/16384 on a
      single device with identity matrices give gyro (0.1, 0, 0) rad/s and accel (0, 0, 1)
      m/s², and no warning. */
  lemma {:induction false} EndToEndExample(ts: nat)
    ensures TickStep(Devices(ExampleDevice, None, None), Orientation(Identity, Identity), Reset,
                     TickInput(ts, ExampleRaw, NothingRead, NothingRead))
            == TickResult(Reset, Sent(IMUSample(Vec3(0.1, 0.0, 0.0), Vec3(0.0, 0.0, 1.0), ts), false))
  {
    var t := TickInput(ts, ExampleRaw, NothingRead, NothingRead);
    var devs := Devices(ExampleDevice, None, None);
    var s := Merged(devs, t).value;
    assert s == IMUSample(Vec3(0.1, 0.0, 0.0), Vec3(0.0, 0.0, 1.0), ts) by { ExampleMerged(ts); }
    assert Observe(Reset, s.gyro) == Observation(Reset, false);
    IdentityOrientationPassesThrough(devs, Reset, t);
  }
}
