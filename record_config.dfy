/**
 * A camera's recording settings: retention, the pre- and post-capture
 * windows of alerts and detections, and how a review item's severity picks
 * between them.
 */
module RecordConfig {
  /** The severity of a review item. */
  datatype Severity = Alert | Detection

  datatype RetainMode = All | Motion | ActiveObjects

  /** `EventsConfig`: capture windows in seconds and the review retention. */
  datatype EventsConfig = EventsConfig(preCapture: int, postCapture: int, retainDays: real, retainMode: RetainMode)

  /** The part of `RecordConfig` the capture rules read. */
  datatype RecordSettings = RecordSettings(
    enabled: bool,
    continuousDays: real,
    motionDays: real,
    detections: EventsConfig,
    alerts: EventsConfig)

  /** Five seconds before and after, review items kept ten days in "motion" mode. */
  const DefaultEvents: EventsConfig := EventsConfig(5, 5, 10.0, Motion)

  /** Recording off, continuous and motion footage kept zero days. */
  const Default: RecordSettings := RecordSettings(false, 0.0, 0.0, DefaultEvents, DefaultEvents)

  /** The field bounds of `EventsConfig`; `maxPreCapture` is MAX_PRE_CAPTURE. */
  predicate EventsInBounds(e: EventsConfig, maxPreCapture: int) {
    0 <= e.preCapture <= maxPreCapture && e.postCapture >= 0 && e.retainDays >= 0.0
  }

  /** The field bounds of `RecordConfig` and of its nested settings. */
  predicate InBounds(r: RecordSettings, maxPreCapture: int) {
    && r.continuousDays >= 0.0 && r.motionDays >= 0.0
    && EventsInBounds(r.detections, maxPreCapture) && EventsInBounds(r.alerts, maxPreCapture)
  }

  /** The defaults pass the bounds whenever MAX_PRE_CAPTURE allows five seconds. */
  lemma DefaultInBounds(maxPreCapture: int)
    requires maxPreCapture >= 5
    ensures InBounds(Default, maxPreCapture)
  {
  }

  /** The capture settings of one severity. */
  function EventsFor(r: RecordSettings, severity: Severity): EventsConfig {
    if severity == Alert then r.alerts else r.detections
  }

  /** `event_pre_capture`: the larger of the two pre-capture windows. */
  function EventPreCapture(r: RecordSettings): (p: int)
    ensures p == r.alerts.preCapture || p == r.detections.preCapture
    ensures forall severity :: EventsFor(r, severity).preCapture <= p
  {
    if r.alerts.preCapture >= r.detections.preCapture then r.alerts.preCapture else r.detections.preCapture
  }

  /** `get_review_pre_capture`: alerts use the alert window, everything else the detection window. */
  function ReviewPreCapture(r: RecordSettings, severity: Severity): (p: int)
    ensures severity == Alert ==> p == r.alerts.preCapture
    ensures severity != Alert ==> p == r.detections.preCapture
    ensures p <= EventPreCapture(r)
  {
    EventsFor(r, severity).preCapture
  }

  /** `get_review_post_capture`: alerts use the alert window, everything else the detection window. */
  function ReviewPostCapture(r: RecordSettings, severity: Severity): (p: int)
    ensures severity == Alert ==> p == r.alerts.postCapture
    ensures severity != Alert ==> p == r.detections.postCapture
  {
    EventsFor(r, severity).postCapture
  }

  /**
   * Within the bounds, the event window and every review window lie in
   * [0, MAX_PRE_CAPTURE], post-capture windows are not negative, and the
   * event window is the review window of some severity.
   */
  lemma CapturesInBounds(r: RecordSettings, maxPreCapture: int)
    requires InBounds(r, maxPreCapture)
    ensures 0 <= EventPreCapture(r) <= maxPreCapture
    ensures forall severity :: 0 <= ReviewPreCapture(r, severity) <= maxPreCapture && ReviewPostCapture(r, severity) >= 0
    ensures exists severity :: ReviewPreCapture(r, severity) == EventPreCapture(r)
  {
    if EventPreCapture(r) == r.alerts.preCapture {
      assert ReviewPreCapture(r, Alert) == EventPreCapture(r);
    } else {
      assert ReviewPreCapture(r, Detection) == EventPreCapture(r);
    }
  }
}
