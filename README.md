# iio-dsu-bridge startup and sample loop in Dafny

iio-dsu-bridge reads a Linux IIO inertial sensor from `/sys/bus/iio/devices`. It converts
the raw gyroscope and accelerometer readings to rad/s and m/s², rotates them by configured
mount matrices, and hands each sample to a DSU (CemuHook) server.

This project models the decision logic of `main.go`:

- **Device discovery and choice.** This covers `isIIODevice` and the three-level name
  lookup `findIIODeviceByName`. It also covers the capability search
  `findFirstIIODeviceWith`, which walks the devices in sorted name order. `main` chooses its
  device from an explicit path, then the name lookup, then the `iio:device0` fallback.
- **Calibration.** `openIIODevice` resolves each sensor's scale with its per-axis and
  global fallbacks. `configureDevice` picks the middle available scale and the available
  sampling frequency nearest to the output rate. `readFloatList` and `nearest` are modelled
  too.
- **Conversion and orientation.** `readSample` converts raw readings by scale, axis by axis.
  `MountMatrix.Apply` rotates a vector. `main` parses the three matrix blocks and applies
  their precedence.
- **The split-device pairing and the sample loop.** A gyro-only or accel-only device is
  paired with the first device offering the missing sensor. Each tick reads the primary,
  merges in the complement, rotates the result and updates the zero-gyro watchdog.

The filesystem is a value (`Sysfs.Tree`). It holds the directory listing, or `None` when the
listing cannot be read, and the attribute files of each device path. A file that is missing
or does not parse is `None`, which is all the bridge distinguishes. An `*_available` list
file is given field by field, each field parsed or `None`.

Where Go keeps mutable state, the model uses a class or a loop:

- `IIODevice` is a class. `Open` fills in its fields. `Configure` changes its scales in
  place.
- The scans of `findIIODeviceByName`, `findFirstIIODeviceWith`, `readFloatList`, `nearest`
  and the tick loop are methods with loops.
- Most methods are proved equal to a specification function, and the properties are
  proved about that function: `ByName`, `Candidates`, `FloatList`, `NearestValue`,
  `ResolveScale`, `Opened`, `ScalePick`, `RatePick`, `Sample`, `Configured`, `Chosen` and
  `Run`.
- The capability search (`Discovery.FirstOffering`, `Discovery.FindFirstWith`) is proved
  against the relation `IsLeastOffering`: the least name among the devices offering the
  sensors. The pairing methods are proved against `Bridge.Complement`, which is defined
  from it.
- The start-up methods (`Bridge.OpenPrimary`, `Bridge.PairAndConfigure`, `Bridge.Startup`)
  state their results through `Chosen`, `Opened` and `Configured`, and through
  `ResolveOrientation`.

Modules:

- `Wrappers`: `Option` and `Result`.
- `Text`: the parts of Go's `strings` and `sort` the discovery code uses.
- `Geometry`: vectors, matrices and `parseMatrix`.
- `Sysfs`: the tree and `isIIODevice`.
- `Discovery`: the two lookups.
- `Calibration`: the list, scale and rate rules.
- `Device`: `IIODevice`, `openIIODevice`, `configureDevice` and `readSample`.
- `Bridge`: the steps of `main`.

Behaviours of the code that are easy to misread, modelled as written:

- **Present zero axis.** Axis files reading 2, 0 and 0 with a global scale of 5 resolve to
  (2, 0, 0). A present 0 is kept, and the global scale is used only when all three axes
  are 0 (`Calibration.PresentZeroIsKept`).
- **Missing matrix.** This is fatal only when none of the three blocks (`mount_matrix`,
  `accel_matrix`, `gyro_matrix`) is configured. A sensor with neither its own block nor the
  mount block gets the zero matrix and reports zero vectors
  (`Bridge.LoneSensorMatrixZeroesTheOther`).
- **Middle scale.** The scale picked is the middle entry of the list in the file's own
  order, at index `len/2`. The list is not sorted first.
- **Complement exclusion.** The code takes the first device offering the missing sensor.
  If that device is the primary itself, there is no pairing, even when a later device also
  offers the sensor (`Bridge.Complement`, `Bridge.OpenComplement`). The primary lacks
  that sensor, so this case needs two paths that are equal once cleaned but have different
  files, or a tree that changes between opening the primary and the search.
- **Nameless device.** A device whose `name` file is missing or blank partially matches
  every non-blank query, because every string contains the empty string
  (`Discovery.NamelessDeviceMatchesAnyQuery`).

## Model

| member | source | states |
|---|---|---|
| Geometry.ApplyIdentity | main.go:76-82 | The identity matrix maps every vector to itself. |
| Geometry.ApplyZeroMatrix | main.go:76-82 | The zero matrix maps every vector to the zero vector. |
| Geometry.ApplyLinear | main.go:76-82 | `Apply`, the row-by-row matrix-vector product, is linear: it commutes with linear combinations of vectors. |
| Geometry.ParseMatrix | main.go:689-698 | A matrix results exactly when all three rows have length 3, and its rows are those lists in order. |
| Text.TrimSpaceSpec | main.go:108-119 | `strings.TrimSpace` gives a contiguous part of the string, and everything it cut off on either side is white space. |
| Text.TrimSpaceEnds | main.go:108-119 | The trimmed string neither starts nor ends with white space. |
| Text.TrimSpaceIdempotent | main.go:108-119 | Trimming twice is trimming once. |
| Text.ToLowerSpec | main.go:109-120 | Lower-casing keeps the length and maps each character on its own. |
| Text.ToLowerIdempotent | main.go:109-120 | Lower-casing twice is lower-casing once. |
| Text.TrimSpaceOfLower | main.go:108-120 | Lower-casing and trimming commute, since lower-casing changes no white space. |
| Text.StrLeqTotal | main.go:173 | The order `sort.Strings` uses relates any two strings. |
| Text.StrLeqAntisym | main.go:173 | Two strings ordered both ways are equal. |
| Text.StrLeqTrans | main.go:173 | The order is transitive. |
| Discovery.ByName | main.go:102-155 | The lookup fails exactly when no IIO device matches the trimmed, lower-cased query partially and none has a motion channel; the error names the trimmed query; a result is the path of an IIO device of the listing. |
| Discovery.ByNameExact | main.go:135-147 | An exact case-insensitive name match wins: the last one in listing order. |
| Discovery.ByNamePartial | main.go:139-149 | With no exact match, the first device whose name contains the query, or is contained in it, is picked. |
| Discovery.ByNameMotion | main.go:122-151 | With no name match at all, the first device with a gyro or accel raw channel is picked. |
| Discovery.ByNameBlankQuery | main.go:124-153 | A blank query picks the first device with a motion channel, and fails when there is none. |
| Discovery.ByNameIgnoresSpaceAndCase | main.go:108-109 | Trimming or lower-casing the query first gives the same lookup; trimming gives the same error too. |
| Discovery.NamelessDeviceMatchesAnyQuery | main.go:118-143 | A device without a readable, non-blank name matches every non-blank query partially. |
| Discovery.VisitStep | main.go:113-143 | One iteration of the scan (`Visit`) turns the picks (`PicksOf`: last exact match, first partial match, first device with a motion channel) of a prefix of the listing into the picks of the next prefix. |
| Discovery.BlankQueryStopsEarly | main.go:128-133 | For a blank query, returning on the first device with a motion channel gives what the whole scan would give. |
| Discovery.FindByName | main.go:102-155 | An unreadable directory is an error; otherwise the result is `ByName` of the listing. |
| Discovery.FirstIndex | main.go:124-143 | The first index passing a test: it passes, and no earlier index does. |
| Discovery.LastIndex | main.go:135-137 | The last index passing a test: it passes, and no later index does. |
| Discovery.Candidates | main.go:167-172 | The candidates are exactly the entries of the listing passing `Sysfs.IsIIODevice` (main.go:87-100): a directory or symbolic link whose name starts with `iio:device`. |
| Discovery.CollectCandidates | main.go:167-172 | The collection loop yields `Candidates` of the listing. |
| Discovery.SortByNode | main.go:173 | Sorting is a permutation of the candidates. |
| Discovery.SortByNodeSorted | main.go:173 | Sorting leaves the candidates in name order. |
| Discovery.InsertSorted | main.go:173 | Inserting into a list in name order keeps it in name order. |
| Discovery.FirstOfferingIsLeast | main.go:175-182 | The first entry of the sorted candidates that offers the requested sensors has the least name among all IIO devices that do. |
| Discovery.NoneOffering | main.go:175-184 | When no sorted candidate offers the sensors, no IIO device of the listing does. |
| Discovery.LeastOfferingUnique | main.go:175-182 | The least offering device is unique and its files have every requested sensor. |
| Discovery.FirstOffering | main.go:175-184 | The search loop succeeds exactly when some IIO device offers every requested sensor, and then returns the one with the least name; otherwise the error records the request. |
| Discovery.FindFirstWith | main.go:157-185 | No sensor requested is an immediate error; an unreadable directory is an error; otherwise success exactly when some IIO device offers every requested sensor, with the least such name. |
| Calibration.Parsed | main.go:236-242 | The parsed values are never more than the fields. |
| Calibration.ParsedAppend | main.go:236-242 | Parsing two parts of a file one after the other is parsing the whole file: the values keep the file's order and its repeats. |
| Calibration.ParsedSpec | main.go:236-242 | A value is kept exactly when some field parses to it, and nothing is kept exactly when no field parses. |
| Calibration.FloatList | main.go:229-247 | An error exactly when the file is unreadable, or no field parses (and then which of the two); a result is non-empty, holds exactly the parsed fields, and is `Parsed` of the file, so it is in file order with repeats kept. |
| Calibration.ReadFloatList | main.go:229-247 | The append loop yields `FloatList` of the file. |
| Calibration.NearestIndex | main.go:262-270 | The index is in range, no element is closer to the target, and every earlier element is strictly farther (ties go to the earliest). |
| Calibration.Nearest | main.go:258-271 | The loop returns `NearestValue`: the target for an empty list, otherwise the element at `NearestIndex`. |
| Calibration.NearestRateExample | main.go:258-271 | Of 100, 200 and 500 Hz, 200 is nearest to 250 Hz. |
| Calibration.MedianPick | main.go:419 | The picked scale is an element of the list at a position with as many entries after it as before it, or one fewer. |
| Calibration.MedianPickExample | main.go:419 | The list 0.001, 0.01, 0.1 gives 0.01. |
| Calibration.ScalePickKeepsRepeats | main.go:415-436 | The list file 0.1, (unparsable), 0.1, 0.2 gives the scale 0.1: a repeated entry counts twice. |
| Calibration.GlobalScaleOnlyWhenAllZero | main.go:350-371 | The global scale (`ResolveScale`) replaces the per-axis scale (`PerAxisScale`) only when all three axes are 0 and the global file reads, and then on every axis. |
| Calibration.UncalibratedIff | main.go:350-371 | The resolved scale is zero exactly when every axis reads 0 or is missing and the global file is missing or reads 0. |
| Calibration.MissingAxesCopyX | main.go:356-365 | Missing Y and Z files copy a non-zero X scale. |
| Calibration.PresentZeroIsKept | main.go:350-371 | Axis files 2, 0, 0 with global 5 give (2, 0, 0). |
| Calibration.ScalePick | main.go:415-436 | A scale is written exactly when scale setting is on, the sensor is present, its scale is zero and the list reads; the value is an entry of the list, the middle one of the parsed values in file order. |
| Calibration.RatePick | main.go:438-457 | A rate is written exactly when rate setting is on, the sensor is present and the list reads; the value is an entry of the list, no entry is nearer the output rate, and it is `NearestValue` of the parsed values in file order (ties go to the earliest). |
| Calibration.AutoScaleKeepsCalibrated | main.go:415-436 | A non-zero scale is never changed, and a changed scale is a list entry on all three axes, set only after a successful write. |
| Calibration.AutoScaleIdempotent | main.go:415-436 | Once a non-zero scale is set, configuring again changes nothing. |
| Device.Opened | main.go:319-406 | Opening fails exactly when neither raw X channel exists; otherwise the base path and the two presence flags come from the files. |
| Device.OpenedSymmetric | main.go:350-403 | The gyro and accel sides follow the same rules: swapping the sensors' files swaps the resulting fields. |
| Device.OpenedUncalibratedIff | main.go:338-372 | An opened device's gyro scale is zero exactly when the gyro is absent or all its scale files read 0 or are missing. |
| Device.ReadScale | main.go:350-371 | The step-by-step scale reading equals the resolved scale of the sensor's files. |
| Device.Open | main.go:319-406 | A new device results exactly when `Opened` succeeds, and its fields are `Opened`'s state. |
| Device.IIODevice.constructor | main.go:320 | A new device has only its base path set. |
| Device.Sample | main.go:460-503 | A sample results exactly when every channel of each present sensor reads; the error names a missing channel of a present sensor, and every channel read before it (gyro before accel, X, Y, Z) read; the timestamp is the given one and an absent sensor gives the zero vector. |
| Device.SampleConverts | main.go:476-500 | Each present sensor's axis is the raw integer times that axis's scale. |
| Device.SampleIgnoresAbsentSensor | main.go:462-503 | The raw files of an absent sensor do not affect the result. |
| Device.UncalibratedReadsZero | main.go:476-480 | A zero gyro scale yields a zero gyro vector whatever is read. |
| Device.IIODevice.ReadSample | main.go:460-503 | The early-return reads equal `Sample` of the device's state. |
| Device.PickScale | main.go:417-432 | The scale step picks `ScalePick` for the sensor. |
| Device.PickRate | main.go:440-451 | The rate step picks `RatePick` for the sensor. |
| Device.IIODevice.Configure | main.go:410-458 | The values it tries to write are `Requested` of the old state (each sensor's `ScalePick` and `RatePick`), and the new state is `Configured`: only the two scales may change, each to its pick when that write succeeded. |
| Device.ConfiguredKeeps | main.go:410-458 | `Configured` never changes the path, the presence flags, the rates, a non-zero scale or an absent sensor's scale; a new gyro or accel scale is an entry of that sensor's list on all three axes. |
| Device.ConfiguredIdempotent | main.go:415-436 | Once every present sensor has a non-zero scale, configuring again changes nothing. |
| Bridge.SensorMatrix | main.go:714-738 | A sensor's own block wins; else the mount block; else the zero matrix. |
| Bridge.ResolveOrientation | main.go:701-738 | Start-up fails exactly when none of the three blocks is configured; otherwise each sensor gets its `SensorMatrix`. |
| Bridge.MountMatrixForBoth | main.go:714-738 | The mount block alone is used for both sensors. |
| Bridge.LoneSensorMatrixZeroesTheOther | main.go:705-738 | With only the accel block, start-up goes on and every gyro reading rotates to zero. |
| Bridge.ChooseDevice | main.go:609-627 | The result is `Chosen`: an explicit path wins; else the name lookup's result; else `iio:device0` if it exists; start-up fails exactly when none applies. |
| Bridge.OpenComplement | main.go:642-658 | A complement is opened only if it is the least device offering the missing sensor, it differs from the primary after cleaning, and it really has that sensor; when there is no such device, none is opened. |
| Bridge.PairComplement | main.go:639-658 | A gyro-only primary may get an accel complement and an accel-only one a gyro complement, never both and never for a device with both sensors. |
| Bridge.ConfigureComplement | main.go:662-671 | A present complement is configured like the primary. |
| Bridge.PrimaryError | main.go:609-633 | The primary fails with "not found" exactly when no device was chosen, naming the configured name, and otherwise with the open error; never with the matrix error. |
| Bridge.OpenPrimary | main.go:609-633 | A device results exactly when the chosen device opens, and it is that device with `Opened`'s state; otherwise the error is `PrimaryError`. |
| Bridge.PairAndConfigure | main.go:639-671 | The primary is configured from its own files; at most one complement, which is the one `Complement` names for the missing sensor, opened and configured from its own files; no complement only when no device qualifies. |
| Bridge.Startup | main.go:609-738 | Success exactly when the chosen device opens and some matrix block is configured; otherwise `PrimaryError`, or the matrix error once the primary opened. On success: the primary is the chosen device, opened and configured from its own files; the orientation is `ResolveOrientation`; the complements are as in `PairAndConfigure`. |
| Bridge.Observe | main.go:796-806 | A non-zero gyro resets the watchdog; a zero gyro adds one to the count; a warning is printed only for a zero gyro when none was printed yet, and marks it printed. |
| Bridge.ObserveConsistent | main.go:796-806 | The watchdog keeps "warned exactly when the count has reached 100", and warns exactly when a zero gyro brings the count to 100. |
| Bridge.ZeroRunSpec | main.go:796-806 | A run of k zero samples adds k to the count and warns once if it crosses 100, never otherwise. |
| Bridge.WarnsOnHundredthZero | main.go:796-803 | From reset, the warning fires on the 100th zero sample and only once. |
| Bridge.NonZeroRearms | main.go:803-806 | A non-zero gyro resets both counters, so a later zero run warns again. |
| Bridge.Merged | main.go:767-784 | The merged read succeeds exactly when the primary's does, with its error otherwise; it keeps the tick's timestamp; a complement whose read succeeds overwrites the primary's value for its sensor (gyro or accel), and a sensor whose complement is absent or fails to read keeps the primary's value. |
| Bridge.Rotated | main.go:792-794 | Rotating each sensor's vector by its matrix keeps the timestamp. |
| Bridge.TickStep | main.go:766-806 | A tick is skipped exactly when the merged read fails, and then leaves the counters alone; a sent sample carries the tick's timestamp. |
| Bridge.Run | main.go:764-806 | The loop gives one output per tick (a length bound only: the per-tick and watchdog facts are `Bridge.RunSpec`). |
| Bridge.RunTicks | main.go:764-806 | The loop's counters and outputs equal `Run` over the ticks. |
| Bridge.RunSpec | main.go:766-806 | Each tick gives one output, skipped exactly when the primary read fails; a sent sample has its tick's timestamp; the counters stay consistent. |
| Bridge.PrimaryFailureSkips | main.go:767-773 | A failed primary read skips the tick and leaves the counters alone. |
| Bridge.SplitDeviceMerge | main.go:774-794 | A gyro-only primary with an accel complement sends the primary's gyro and the complement's accel, each rotated by its own matrix. |
| Bridge.ComplementFailureKeepsPrimary | main.go:780-784 | When the complement's read fails, the primary's own (zero) accel value is kept. |
| Bridge.TickSends | main.go:792-806 | A tick whose merged read succeeds sends it rotated, and the watchdog observes the rotated gyro. |
| Bridge.IdentityOrientationPassesThrough | main.go:792-794 | With identity matrices the sent sample is the merged reading itself. |
| Bridge.EndToEndExample | main.go:766-806 | Raw gyro (100, 0, 0) at scale 0.001 and raw accel (0, 0, 16384) at scale 1/16384 give gyro (0.1, 0, 0) and accel (0, 0, 1) with identity matrices, and no warning. |

## Left out

- The DSU server, packet builders and UDP socket. `NewDSUServer` and `Broadcast` are not part of this model, and `buildControllerInfo`/`buildControllerData` are empty placeholders (main.go:505-522). The broadcast is the list of outputs of `Bridge.RunTicks`.
- Configuration loading (main.go:21-60, 544-607): the YAML file, the environment overrides and the flag merge. `Bridge.Settings` holds the effective values.
- Logging and diagnostics: `listIIODevices`, every `fmt.Printf`, the debug output in the loop, and the "no working gyroscope/accelerometer" warnings (main.go:673-686), which only print.
- Real filesystem calls (`os.ReadDir`, `os.Stat`, `os.ReadFile`, `os.WriteFile`). Their results are inputs: the `Sysfs.Tree` value, the `device0Exists` flag, the `WriteOutcome` of each scale write and the `RawReads` of each tick. `writeFloat`'s `%.9g` formatting is not modelled, and neither is the outcome of a sampling-frequency write, which is only logged.
- `strconv.ParseFloat`, `strconv.ParseInt` and `strings.Fields`. A file's content is given already parsed, as `Option` values.
- `Device.IIODevice.ReadSample`: does not model the panic of `readInt` on an empty or all-blank raw file (`strings.Fields(s)[0]`); such a file reads as `None`, a read error.
- IEEE-754 rounding, NaN and infinities. `float64` is `real`, `int64` is `int`, and the `uint64` timestamp and the `int` watchdog counter are unbounded (`nat`).
- `Text.ToLower`: lower-cases ASCII letters only, while Go's `strings.ToLower` also folds other Unicode letters.
- `filepath.Join` and `filepath.Clean`. Device paths are `DevicesDir + "/" + node`; `Clean` is the parameter `clean` of `Bridge.PairComplement`.
- The channel and scale file paths stored in `IIODevice` (main.go:310-313). They are fixed functions of `Base`, so the fields are implicit.
- The ticker and the clock: `time.NewTicker(time.Second / rate)` (a `--rate` of 0 panics dividing by zero; a negative rate, or one above 10^9 where the quotient truncates to 0, gives a non-positive period and `NewTicker` panics) and `time.Now().UnixMicro()`. The loop runs over a finite sequence of ticks, each with its timestamp. The complement's own reading time is not modelled: its sample carries the same tick timestamp and only its sensor vector is used.
- The `dev == nil` guard of `configureDevice`. The primary is never nil, and `Bridge.ConfigureComplement` skips an absent complement.
- Sorting as `sort.Strings` does it. `Discovery.SortByNode` is an insertion sort with the same result, names in byte order.
