/** Timing configuration of the support-notification scheduler: the four
    constants, the optional constructor options, and how a notification's
    kind selects its display duration. All durations are milliseconds. */
module QueueConfig {
  import opened Optional
  import opened SupportTypes

  /** Pause after every notification, before the next one is taken. */
  const NOTIFICATION_SPACE_DELAY: nat := 10000
  /** Display time of a `Normal` notification. */
  const NORMAL_NOTIFICATION_DURATION: nat := 10000
  /** Display time of a `Video` notification. */
  const VIDEO_NOTIFICATION_DURATION: nat := 10000
  /** Display time of an `Ads` notification. */
  const ADS_NOTIFICATION_DURATION: nat := 30000

  /** `SupportNotificationQueueOptions`: every field may be undefined. */
  datatype Options = Options(
    notificationSpaceDelay: Option<nat>,
    normalNotificationDuration: Option<nat>,
    videoNotificationDuration: Option<nat>,
    adsNotificationDuration: Option<nat>)

  /** The four durations the scheduler settles on at construction. */
  datatype Config = Config(space: nat, normal: nat, video: nat, ads: nat)

  /** Names the four settings, so that defaulting can be stated once for all. */
  datatype Setting = Space | NormalDuration | VideoDuration | AdsDuration

  function ValueOf(c: Config, s: Setting): nat {
    match s
    case Space => c.space
    case NormalDuration => c.normal
    case VideoDuration => c.video
    case AdsDuration => c.ads
  }

  /** The value the caller asked for, if the options object and the field are
      both defined. */
  function Requested(options: Option<Options>, s: Setting): Option<nat> {
    match options
    case None => None
    case Some(o) =>
      match s
      case Space => o.notificationSpaceDelay
      case NormalDuration => o.normalNotificationDuration
      case VideoDuration => o.videoNotificationDuration
      case AdsDuration => o.adsNotificationDuration
  }

  /** The constant a setting falls back to. */
  function Fallback(s: Setting): nat {
    match s
    case Space => NOTIFICATION_SPACE_DELAY
    case NormalDuration => NORMAL_NOTIFICATION_DURATION
    case VideoDuration => VIDEO_NOTIFICATION_DURATION
    case AdsDuration => ADS_NOTIFICATION_DURATION
  }

  /** The constructor's four independent if/else blocks: a field takes the
      option's value when the options object and that field are defined,
      and its constant otherwise. */
  function MakeConfig(options: Option<Options>): (c: Config)
    ensures forall s :: Requested(options, s).Some? ==> ValueOf(c, s) == Requested(options, s).value
    ensures forall s :: Requested(options, s).None? ==> ValueOf(c, s) == Fallback(s)
  {
    var space :=
      if options.None? || options.value.notificationSpaceDelay.None? then NOTIFICATION_SPACE_DELAY
      else options.value.notificationSpaceDelay.value;
    var normal :=
      if options.None? || options.value.normalNotificationDuration.None? then NORMAL_NOTIFICATION_DURATION
      else options.value.normalNotificationDuration.value;
    var video :=
      if options.None? || options.value.videoNotificationDuration.None? then VIDEO_NOTIFICATION_DURATION
      else options.value.videoNotificationDuration.value;
    var ads :=
      if options.None? || options.value.adsNotificationDuration.None? then ADS_NOTIFICATION_DURATION
      else options.value.adsNotificationDuration.value;
    Config(space, normal, video, ads)
  }

  /** Without options every setting is its constant; ads are shown longest. */
  lemma DefaultConfig()
    ensures MakeConfig(None) == Config(10000, 10000, 10000, 30000)
    ensures MakeConfig(None).ads > MakeConfig(None).normal
    ensures MakeConfig(None).ads > MakeConfig(None).video
  {
    assert ValueOf(MakeConfig(None), Space) == NOTIFICATION_SPACE_DELAY;
    assert ValueOf(MakeConfig(None), NormalDuration) == NORMAL_NOTIFICATION_DURATION;
    assert ValueOf(MakeConfig(None), VideoDuration) == VIDEO_NOTIFICATION_DURATION;
    assert ValueOf(MakeConfig(None), AdsDuration) == ADS_NOTIFICATION_DURATION;
  }

  /** How long a delivered notification stays on screen: the `switch` on its
      kind. A kind the `switch` does not name gets no display delay at all. */
  function DisplayDuration(c: Config, k: Kind): (d: nat)
    ensures k == Normal ==> d == ValueOf(c, NormalDuration)
    ensures k == Video ==> d == ValueOf(c, VideoDuration)
    ensures k == Ads ==> d == ValueOf(c, AdsDuration)
    ensures !Recognised(k) ==> d == 0
  {
    match k
    case Normal => c.normal
    case Video => c.video
    case Ads => c.ads
    case Unrecognised => 0
  }

  /** Time from delivering a notification of kind `k` until the processor
      looks at its lists again: the display duration, then the space delay. */
  function WaitAfter(c: Config, k: Kind): nat {
    DisplayDuration(c, k) + c.space
  }
}
