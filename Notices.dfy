/** Notice banners configured in the `notices` setting: the page shows, for
    one location, the notices configured for that location, each as an alert
    that is dismissible (remembered under a storage key derived from its
    message) when the notice says so. */
module Notices {

  import opened Wrappers
  import opened Seqs
  import opened Classes

  /** Where a notice is displayed (`Notice['location']`). */
  datatype Location = Top | Home

  /** One entry of the `notices` setting (an absent `dismissible` is false). */
  datatype Notice = Notice(message: string, location: Location, dismissible: bool)

  /** The value of `notices` in the final settings: missing (or another falsy
      value), present but not an array, or an array of notices. */
  datatype NoticesSetting = Missing | NotAnArray | Listed(notices: seq<Notice>)

  /** The alert component a notice is rendered with. */
  datatype AlertKind = PlainAlert | DismissibleAlert(partialStorageKey: string)

  /** What one rendered notice alert consists of. */
  datatype AlertView = AlertView(kind: AlertKind, testId: Option<string>, variant: Option<string>,
                                 className: string, message: string)

  /** The container of the rendered notices and its alerts, in order. */
  datatype NoticesView = NoticesView(className: string, alerts: seq<AlertView>)

  const TopAlertVariant := "info"
  const InlineAlertClasses := "bg transparent border"
  const NoticeTestId := "notice-alert"

  /** `getAlertVariant`: notices at the top are informational; elsewhere the
      alert's own default variant applies. */
  function AlertVariant(location: Location): (v: Option<string>)
    ensures v.Some? <==> location == Top
    ensures v.Some? ==> v.value == TopAlertVariant
  {
    if location == Top then Some(TopAlertVariant) else None
  }

  /** `NoticeAlert` (its `className` defaults to the empty string). */
  function NoticeAlert(notice: Notice, className: string, testId: Option<string>): (a: AlertView)
    ensures a.message == notice.message && a.testId == testId
    ensures a.kind.DismissibleAlert? <==> notice.dismissible
    ensures a.kind.DismissibleAlert? ==> a.kind.partialStorageKey == "notice." + notice.message
    ensures a.variant == AlertVariant(notice.location)
  {
    var classes := ClassNames([if notice.location != Top then InlineAlertClasses else "", className]);
    var kind := if notice.dismissible then DismissibleAlert("notice." + notice.message) else PlainAlert;
    AlertView(kind, testId, AlertVariant(notice.location), classes, notice.message)
  }

  /** A top notice carries only the caller's class; any other notice is
      drawn transparent with a border, before the caller's class. */
  lemma NoticeAlertClasses(notice: Notice, className: string, testId: Option<string>)
    ensures notice.location == Top ==> NoticeAlert(notice, className, testId).className == className
    ensures notice.location != Top ==>
      NoticeAlert(notice, className, testId).className == InlineAlertClasses + (if className == "" then "" else " " + className)
  {
    ClassNamesPair(if notice.location != Top then InlineAlertClasses else "", className);
  }

  /** Whether a notice is configured for `location`. */
  predicate At(location: Location, n: Notice)
  {
    n.location == location
  }

  /** The notices of the setting that are for `location`, in order. */
  function Shown(notices: seq<Notice>, location: Location): (r: seq<Notice>)
    ensures forall k :: 0 <= k < |r| ==> r[k].location == location
  {
    Filter(notices, n => At(location, n))
  }

  /** `Shown` keeps exactly the notices for `location`, as many times and in
      the order in which the setting lists them. */
  lemma ShownSpec(notices: seq<Notice>, location: Location)
    ensures IsSubsequence(Shown(notices, location), notices)
    ensures forall n :: n in Shown(notices, location) <==> n in notices && n.location == location
    ensures forall n :: multiset(Shown(notices, location))[n] == if n.location == location then multiset(notices)[n] else 0
  {
    FilterSpec(notices, n => At(location, n));
    FilterMembership(notices, n => At(location, n));
  }

  /** `Notices`: nothing when the settings are invalid, when `notices` is not
      an array, or when no notice is for `location`; otherwise one alert per
      matching notice, in the order of the setting. `alertClassName` is
      `undefined` when empty; `className` defaults to the empty string and
      `stylesNotices` is the container's style-module class. */
  function RenderNotices(settingsValid: bool, setting: NoticesSetting, location: Location,
                         className: string, alertClassName: string, stylesNotices: string): (r: Option<NoticesView>)
    ensures !settingsValid || !setting.Listed? ==> r.None?
    ensures r.Some? ==> r.value.className == ClassNames([stylesNotices, className])
    ensures r.Some? ==> setting.Listed? && |r.value.alerts| == |Shown(setting.notices, location)| > 0
    ensures r.Some? ==> forall k :: 0 <= k < |r.value.alerts| ==>
      r.value.alerts[k] == NoticeAlert(Shown(setting.notices, location)[k], alertClassName, Some(NoticeTestId))
  {
    if !settingsValid || !setting.Listed? then None
    else
      var shown := Shown(setting.notices, location);
      if |shown| == 0 then None
      else
        var alerts := seq(|shown|, k requires 0 <= k < |shown| => NoticeAlert(shown[k], alertClassName, Some(NoticeTestId)));
        Some(NoticesView(ClassNames([stylesNotices, className]), alerts))
  }

  /** Something is rendered exactly when the settings are valid, `notices` is
      an array, and at least one of its notices is for `location`. */
  lemma RenderedIff(settingsValid: bool, setting: NoticesSetting, location: Location,
                    className: string, alertClassName: string, stylesNotices: string)
    ensures RenderNotices(settingsValid, setting, location, className, alertClassName, stylesNotices).Some? <==>
      settingsValid && setting.Listed? && exists n :: n in setting.notices && n.location == location
  {
    if setting.Listed? {
      ShownSpec(setting.notices, location);
      var shown := Shown(setting.notices, location);
      if shown != [] {
        assert shown[0] in shown;
      }
    }
  }

  /** Every rendered alert shows the message of a notice configured for
      `location`, and a dismissible one is remembered under "notice." and
      that message. */
  lemma RenderedAlertsAreConfigured(settingsValid: bool, setting: NoticesSetting, location: Location,
                                    className: string, alertClassName: string, stylesNotices: string)
    requires RenderNotices(settingsValid, setting, location, className, alertClassName, stylesNotices).Some?
    ensures var alerts := RenderNotices(settingsValid, setting, location, className, alertClassName, stylesNotices).value.alerts;
      setting.Listed? && forall k :: 0 <= k < |alerts| ==>
        exists n :: n in setting.notices && n.location == location && alerts[k].message == n.message &&
          alerts[k].testId == Some(NoticeTestId) &&
          (alerts[k].kind.DismissibleAlert? <==> n.dismissible)
  {
    ShownSpec(setting.notices, location);
    var alerts := RenderNotices(settingsValid, setting, location, className, alertClassName, stylesNotices).value.alerts;
    var shown := Shown(setting.notices, location);
    forall k | 0 <= k < |alerts|
      ensures exists n :: n in setting.notices && n.location == location && alerts[k].message == n.message &&
                          alerts[k].testId == Some(NoticeTestId) && (alerts[k].kind.DismissibleAlert? <==> n.dismissible)
    {
      assert shown[k] in shown;
    }
  }
}
