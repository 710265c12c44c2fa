/** The part of the Linux IIO sysfs tree the bridge reads, as a value. The directory
    `/sys/bus/iio/devices` is a listing of entries; each device directory holds text
    attribute files. A file's content is given already parsed: `None` stands for a file that
    is missing or whose content does not parse, which is all the bridge distinguishes. */
module Sysfs {
  import opened Wrappers
  import opened Text

  /** What `os.DirEntry` says about an entry's type. */
  datatype Kind = Directory | Symlink | Other

  /** One entry of the devices directory: its file name and type. */
  datatype Entry = Entry(node: string, kind: Kind)

  /** The attribute files of one sensor of a device: `in_anglvel_*` for the gyroscope,
      `in_accel_*` for the accelerometer. */
  datatype SensorFiles = SensorFiles(
    rawX: bool,                                         // in_<s>_x_raw exists
    scaleX: Option<real>,                               // in_<s>_x_scale
    scaleY: Option<real>,                               // in_<s>_y_scale
    scaleZ: Option<real>,                               // in_<s>_z_scale
    scale: Option<real>,                                // in_<s>_scale, the device-global scale
    samplingFrequency: Option<real>,                    // in_<s>_sampling_frequency
    scalesAvailable: Option<seq<Option<real>>>,         // in_<s>_scales_available, field by field
    samplingFrequencyAvailable: Option<seq<Option<real>>>  // in_<s>_sampling_frequency_available
  )

  /** The files of one device directory: the `name` attribute and the two sensors. */
  datatype DeviceFiles = DeviceFiles(name: Option<string>, gyro: SensorFiles, accel: SensorFiles)

  const NoSensorFiles := SensorFiles(false, None, None, None, None, None, None, None)

  /** A path with no device files behind it. */
  const NoFiles := DeviceFiles(None, NoSensorFiles, NoSensorFiles)

  /** The listing of the devices directory (`None` when it cannot be read) and the files
      found under each device path. */
  datatype Tree = Tree(listing: Option<seq<Entry>>, devices: map<string, DeviceFiles>)

  const DevicesDir := "/sys/bus/iio/devices"

  /** `filepath.Join(base, node)` for an entry of the devices directory. */
  function DevicePath(node: string): string {
    DevicesDir + "/" + node
  }

  function FilesAt(fs: Tree, path: string): DeviceFiles {
    if path in fs.devices then fs.devices[path] else NoFiles
  }

  function EntryFiles(fs: Tree, e: Entry): DeviceFiles {
    FilesAt(fs, DevicePath(e.node))
  }

  /** `isIIODevice`: a directory, or a symbolic link, whose name starts with `iio:device`. */
  predicate IsIIODevice(e: Entry) {
    HasPrefix(e.node, "iio:device") && (e.kind == Directory || e.kind == Symlink)
  }

  /** The device has an angular-velocity channel (`in_anglvel_x_raw` exists). */
  predicate HasGyro(fs: Tree, e: Entry) {
    EntryFiles(fs, e).gyro.rawX
  }

  /** The device has a linear-acceleration channel (`in_accel_x_raw` exists). */
  predicate HasAccel(fs: Tree, e: Entry) {
    EntryFiles(fs, e).accel.rawX
  }

  /** The device's `name` attribute, trimmed and lower-cased; an unreadable file reads as
      the empty string. */
  function DeviceName(fs: Tree, e: Entry): string {
    ToLower(TrimSpace(EntryFiles(fs, e).name.GetOr("")))
  }
}
