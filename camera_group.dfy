/** A named group of cameras shown together in the user interface. */
module CameraGroup {
  import Json
  import Validators

  /** `CameraGroupConfig`: its cameras after the validator, an icon name and a sort order. */
  datatype CameraGroupConfig = CameraGroupConfig(cameras: Json.JSON, icon: string, order: int)

  /** No cameras, the "generic" icon, order 0. */
  const Default: CameraGroupConfig := CameraGroupConfig(Json.Arr([]), "generic", 0)

  /**
   * `validate_cameras`: a single camera name without a comma becomes a
   * one-element list; a string with a comma and a list are kept as given.
   */
  function WithCameras(base: CameraGroupConfig, cameras: Json.JSON): (g: CameraGroupConfig)
    ensures cameras.Str? && ',' !in cameras.s ==> g.cameras == Json.Arr([cameras])
    ensures cameras.Str? && ',' in cameras.s ==> g.cameras == cameras
    ensures cameras.Arr? ==> g.cameras == cameras
    ensures g.icon == base.icon && g.order == base.order
  {
    base.(cameras := Validators.ListFromName(cameras))
  }
}
