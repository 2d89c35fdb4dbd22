/**
 * A camera's review settings: which objects raise alerts and detections,
 * the zones they require, and the generative-AI review switches.
 */
module ReviewConfig {
  import opened Wrappers
  import Json
  import Validators

  /** The objects that raise an alert when nothing else is configured. */
  const DefaultAlertObjects: seq<string> := ["person", "car"]

  datatype AlertsConfig = AlertsConfig(enabled: bool, labels: seq<string>, requiredZones: Json.JSON, cutoffTime: int)

  datatype DetectionsConfig = DetectionsConfig(enabled: bool, labels: Option<seq<string>>, requiredZones: Json.JSON, cutoffTime: int)

  datatype ImageSource = Preview | Recordings

  datatype GenAIReviewConfig = GenAIReviewConfig(enabled: bool, alerts: bool, detections: bool, imageSource: ImageSource)

  /** Alerts on, for people and cars, anywhere, cut off after 40 seconds. */
  const DefaultAlerts: AlertsConfig := AlertsConfig(true, DefaultAlertObjects, Json.Arr([]), 40)

  /** Detections on, for every label, anywhere, cut off after 30 seconds. */
  const DefaultDetections: DetectionsConfig := DetectionsConfig(true, None, Json.Arr([]), 30)

  /** Generative review off; when on, for alerts only, from the preview frames. */
  const DefaultGenAI: GenAIReviewConfig := GenAIReviewConfig(false, true, false, Preview)

  /** Alert settings built from a raw required-zones value: the validator runs on it first. */
  function AlertsWithZones(base: AlertsConfig, requiredZones: Json.JSON): (a: AlertsConfig)
    ensures requiredZones.Str? && ',' !in requiredZones.s ==> a.requiredZones == Json.Arr([requiredZones])
    ensures !(requiredZones.Str? && ',' !in requiredZones.s) ==> a.requiredZones == requiredZones
    ensures a.(requiredZones := base.requiredZones) == base
  {
    base.(requiredZones := Validators.ListFromName(requiredZones))
  }

  /** Detection settings built from a raw required-zones value, with the same rule. */
  function DetectionsWithZones(base: DetectionsConfig, requiredZones: Json.JSON): (d: DetectionsConfig)
    ensures requiredZones.Str? && ',' !in requiredZones.s ==> d.requiredZones == Json.Arr([requiredZones])
    ensures !(requiredZones.Str? && ',' !in requiredZones.s) ==> d.requiredZones == requiredZones
    ensures d.(requiredZones := base.requiredZones) == base
  {
    base.(requiredZones := Validators.ListFromName(requiredZones))
  }
}
