/**
 * Model of service/JeffService.kt: the foreground service that registers for
 * location updates and sends one SMS on the first location fix it receives.
 *
 * The platform and the injected helpers are not modelled; every call the
 * service makes into them (the notification manager, startForeground,
 * LocationUtils.registerLocationUpdates, SmsUtils.sendSms and the fix log line)
 * is appended to the field `effects`, in the order the service makes it.
 */
module Service {
  import opened Options

  /** Service.START_STICKY: the platform recreates a killed service without redelivering the intent. */
  const START_STICKY: int := 1
  /** NotificationManager.IMPORTANCE_DEFAULT. */
  const IMPORTANCE_DEFAULT: int := 3
  /** The notification id that startNotificationService passes to startForeground. */
  const FOREGROUND_NOTIFICATION_ID: int := 1
  /** The user-visible name of the notification channel. */
  const CHANNEL_NAME: string := "Jeff"

  /** android.location.Location, reduced to the two fields the service reads. */
  datatype Location = Location(latitude: real, longitude: real)

  /** The notification built by NotificationCompat.Builder: its channel, title and text. */
  datatype Notification = Notification(channelId: string, contentTitle: string, contentText: string)

  /** A call the service makes into the platform or into an injected helper. */
  datatype Effect =
    | CreateNotificationChannel(channel: string, name: string, importance: int)
    | StartForeground(notificationId: int, notification: Notification)
    | RegisterLocationUpdates
    | SendSms
    | LogFix(latitude: real, longitude: real)

  /** The platform callbacks that drive the service's state. */
  datatype Callback = StartCommand | LocationChanged(p: Location)

  /** The binder that onBind hands out: the service never offers one. */
  datatype Binder = Binder

  /** The calls startNotificationService makes: create the channel, then go foreground with id 1. */
  function ForegroundCalls(channelId: string): seq<Effect> {
    [ CreateNotificationChannel(channelId, CHANNEL_NAME, IMPORTANCE_DEFAULT),
      StartForeground(FOREGROUND_NOTIFICATION_ID, Notification(channelId, "", "")) ]
  }

  /** The calls one onStartCommand makes, in order. */
  function StartCalls(channelId: string): seq<Effect> {
    ForegroundCalls(channelId) + [RegisterLocationUpdates]
  }

  /** The service is still armed after `h` exactly when no location fix is in `h`. */
  predicate Armed(h: seq<Callback>) {
    forall i | 0 <= i < |h| :: h[i].StartCommand?
  }

  /** The calls one callback makes, given whether the service was armed when it arrived. */
  function Respond(channelId: string, armed: bool, c: Callback): seq<Effect> {
    match c
    case StartCommand => StartCalls(channelId)
    case LocationChanged(p) =>
      if armed then [SendSms, LogFix(p.latitude, p.longitude)] else []
  }

  /** All calls a fresh instance makes when it receives the callbacks `h` one at a time. */
  function Trace(channelId: string, h: seq<Callback>): seq<Effect>
    decreases |h|
  {
    if h == [] then []
    else
      var prior := h[..|h| - 1];
      Trace(channelId, prior) + Respond(channelId, Armed(prior), h[|h| - 1])
  }

  /** The number of SMS sends in a sequence of calls. */
  function SmsCount(t: seq<Effect>): nat {
    if t == [] then 0 else (if t[0] == SendSms then 1 else 0) + SmsCount(t[1..])
  }

  /** The coordinates written to the log, in order. */
  function LoggedFixes(t: seq<Effect>): seq<Location> {
    if t == [] then []
    else (if t[0].LogFix? then [Location(t[0].latitude, t[0].longitude)] else []) + LoggedFixes(t[1..])
  }

  /** Every location-update registration comes right after a startForeground with id 1. */
  predicate RegistrationsFollowForeground(t: seq<Effect>) {
    forall i | 0 <= i < |t| && t[i].RegisterLocationUpdates? ::
      0 < i && t[i - 1].StartForeground? && t[i - 1].notificationId == FOREGROUND_NOTIFICATION_ID
  }

  // ----- the service instance -----

  class JeffService {
    /** BuildConfig.APPLICATION_ID, the id of the notification channel. */
    const channelId: string
    /** True until the first location fix has been handled. */
    var sendingSms: bool
    /** Calls made so far into the platform and the helpers, oldest first. */
    var effects: seq<Effect>
    /** The callbacks received so far, oldest first. */
    ghost var history: seq<Callback>
    /** The number of SmsUtils.sendSms calls made so far. */
    ghost var smsSends: nat

    ghost predicate Valid()
      reads this
    {
      effects == Trace(channelId, history) &&
      sendingSms == Armed(history) &&
      smsSends == SmsCount(effects)
    }

    /** A new instance (creation and onCreate, which only logs). It starts armed. */
    constructor (applicationId: string)
      ensures Valid()
      ensures channelId == applicationId
      ensures sendingSms && effects == [] && history == [] && smsSends == 0
    {
      channelId := applicationId;
      sendingSms := true;
      effects := [];
      history := [];
      smsSends := 0;
    }

    /** onStartCommand: go foreground, then register for location updates; the flag is not touched. */
    method OnStartCommand() returns (r: int)
      requires Valid()
      modifies this
      ensures Valid()
      ensures r == START_STICKY
      ensures history == old(history) + [StartCommand]
      ensures effects == old(effects) + StartCalls(channelId)
      ensures sendingSms == old(sendingSms) && smsSends == old(smsSends)
    {
      ghost var h := history;
      StartNotificationService();
      effects := effects + [RegisterLocationUpdates];
      history := history + [StartCommand];
      assert history[..|history| - 1] == h;
      assert Armed(history) == Armed(h);
      SmsCountAppend(old(effects), StartCalls(channelId));
      StartCallsQuiet(channelId);
      r := START_STICKY;
    }

    /**
     * startNotificationService: create the channel, then call startForeground
     * with id 1. It is private in the service and is called only from
     * OnStartCommand, which restores Valid() after it; called on its own it
     * leaves `effects` out of step with `history`.
     */
    method StartNotificationService()
      modifies this`effects
      ensures effects == old(effects) + ForegroundCalls(channelId)
    {
      effects := effects + [CreateNotificationChannel(channelId, CHANNEL_NAME, IMPORTANCE_DEFAULT)];
      effects := effects + [StartForeground(FOREGROUND_NOTIFICATION_ID, Notification(channelId, "", ""))];
    }

    /** onBind: binding is not supported. */
    method OnBind() returns (binder: Option<Binder>)
      ensures binder == None
    {
      binder := None;
    }

    /** onLocationChanged: the first fix disarms the service, sends the SMS and logs the fix. */
    method OnLocationChanged(p: Location)
      requires Valid()
      modifies this
      ensures Valid()
      ensures history == old(history) + [LocationChanged(p)]
      ensures !sendingSms
      ensures old(sendingSms) ==>
        effects == old(effects) + [SendSms, LogFix(p.latitude, p.longitude)] &&
        smsSends == old(smsSends) + 1
      ensures !old(sendingSms) ==> effects == old(effects) && smsSends == old(smsSends)
      ensures smsSends <= 1
    {
      ghost var h := history;
      if sendingSms {
        sendingSms := false;
        effects := effects + [SendSms];
        effects := effects + [LogFix(p.latitude, p.longitude)];
      }
      history := history + [LocationChanged(p)];
      assert history[..|history| - 1] == h;
      assert !Armed(history) by { assert !history[|h|].StartCommand?; }
      SmsCountAppend(old(effects), effects[|old(effects)|..]);
      assert old(effects) + effects[|old(effects)|..] == effects;
      smsSends := SmsCount(effects);
      SmsSentOnce(channelId, history);
    }
  }

  // ----- properties of every callback sequence -----

  lemma {:induction false} SmsCountAppend(a: seq<Effect>, b: seq<Effect>)
    ensures SmsCount(a + b) == SmsCount(a) + SmsCount(b)
  {
    if a == [] {
      assert a + b == b;
    } else {
      assert (a + b)[0] == a[0];
      assert (a + b)[1..] == a[1..] + b;
      SmsCountAppend(a[1..], b);
    }
  }

  lemma {:induction false} LoggedFixesAppend(a: seq<Effect>, b: seq<Effect>)
    ensures LoggedFixes(a + b) == LoggedFixes(a) + LoggedFixes(b)
  {
    if a == [] {
      assert a + b == b;
    } else {
      assert (a + b)[0] == a[0];
      assert (a + b)[1..] == a[1..] + b;
      LoggedFixesAppend(a[1..], b);
    }
  }

  /** A start command neither sends an SMS nor logs a fix. */
  lemma StartCallsQuiet(channelId: string)
    ensures SmsCount(StartCalls(channelId)) == 0
    ensures LoggedFixes(StartCalls(channelId)) == []
  {
    var t := StartCalls(channelId);
    assert t[1..][1..][1..] == [];
    assert SmsCount(t[1..][1..]) == 0;
    assert LoggedFixes(t[1..][1..]) == [];
  }

  /** The firing fix sends one SMS and logs its own coordinates. */
  lemma FiringCalls(channelId: string, p: Location)
    ensures SmsCount(Respond(channelId, true, LocationChanged(p))) == 1
    ensures LoggedFixes(Respond(channelId, true, LocationChanged(p))) == [p]
  {
    var t := Respond(channelId, true, LocationChanged(p));
    assert t[1..][1..] == [];
    assert SmsCount(t[1..]) == 0;
    assert LoggedFixes(t[1..]) == [p];
  }

  /** Whatever the callbacks, exactly one SMS has been sent once a fix has arrived, and none before. */
  lemma {:induction false} SmsSentOnce(channelId: string, h: seq<Callback>)
    ensures SmsCount(Trace(channelId, h)) == if Armed(h) then 0 else 1
  {
    if h != [] {
      var prior := h[..|h| - 1];
      SmsSentOnce(channelId, prior);
      SmsCountAppend(Trace(channelId, prior), Respond(channelId, Armed(prior), h[|h| - 1]));
      StartCallsQuiet(channelId);
      if h[|h| - 1].LocationChanged? { FiringCalls(channelId, h[|h| - 1].p); }
      if !Armed(prior) {
        var i :| 0 <= i < |prior| && !prior[i].StartCommand?;
        assert !h[i].StartCommand?;
      }
    }
  }

  /** The first fix of `h`: the one fix arriving while the service is armed. */
  predicate IsFirstFix(h: seq<Callback>, k: int) {
    0 <= k < |h| && h[k].LocationChanged? && Armed(h[..k])
  }

  /**
   * Only the first fix is logged: the log holds no coordinates while armed and
   * exactly those of the first fix afterwards, however many fixes follow.
   */
  lemma {:induction false} OnlyFirstFixLogged(channelId: string, h: seq<Callback>)
    ensures Armed(h) ==> LoggedFixes(Trace(channelId, h)) == []
    ensures forall k | IsFirstFix(h, k) :: LoggedFixes(Trace(channelId, h)) == [h[k].p]
  {
    if h != [] {
      var prior := h[..|h| - 1];
      var last := h[|h| - 1];
      OnlyFirstFixLogged(channelId, prior);
      LoggedFixesAppend(Trace(channelId, prior), Respond(channelId, Armed(prior), last));
      StartCallsQuiet(channelId);
      forall k | IsFirstFix(h, k) ensures LoggedFixes(Trace(channelId, h)) == [h[k].p] {
        if k < |h| - 1 {
          assert prior[..k] == h[..k];
          assert IsFirstFix(prior, k);
          assert !Armed(prior);
        } else {
          assert prior == h[..k];
          FiringCalls(channelId, last.p);
        }
      }
      if Armed(h) {
        assert Armed(prior) by {
          forall i | 0 <= i < |prior| ensures prior[i].StartCommand? { assert prior[i] == h[i]; }
        }
      }
    }
  }

  lemma RegistrationsAppend(a: seq<Effect>, b: seq<Effect>)
    requires RegistrationsFollowForeground(a) && RegistrationsFollowForeground(b)
    requires b != [] ==> !b[0].RegisterLocationUpdates?
    ensures RegistrationsFollowForeground(a + b)
  {
  }

  /** startForeground(1, ...) precedes every registerLocationUpdates, for any callback sequence. */
  lemma {:induction false} ForegroundBeforeRegistration(channelId: string, h: seq<Callback>)
    ensures RegistrationsFollowForeground(Trace(channelId, h))
  {
    if h != [] {
      var prior := h[..|h| - 1];
      ForegroundBeforeRegistration(channelId, prior);
      var r := Respond(channelId, Armed(prior), h[|h| - 1]);
      assert RegistrationsFollowForeground(r) by {
        if h[|h| - 1].StartCommand? {
          assert r == StartCalls(channelId);
          forall i | 0 <= i < |r| && r[i].RegisterLocationUpdates?
            ensures 0 < i && r[i - 1].StartForeground? && r[i - 1].notificationId == FOREGROUND_NOTIFICATION_ID
          {
            assert i == 2;
          }
        }
      }
      RegistrationsAppend(Trace(channelId, prior), r);
    }
  }

  /** A start command never re-arms the service: whether it is armed depends only on the fixes. */
  lemma StartCommandKeepsFlag(h: seq<Callback>)
    ensures Armed(h + [StartCommand]) == Armed(h)
  {
    if !Armed(h) {
      var i :| 0 <= i < |h| && !h[i].StartCommand?;
      assert (h + [StartCommand])[i] == h[i];
    }
  }

  /**
   * For N >= 1 fixes, wherever start commands fall between them, the SMS is sent
   * exactly once, at the first fix, followed immediately by that fix's log line.
   */
  lemma SmsAtFirstFix(channelId: string, h: seq<Callback>, k: int)
    requires IsFirstFix(h, k)
    ensures SmsCount(Trace(channelId, h[..k])) == 0
    ensures Trace(channelId, h[..k + 1]) ==
      Trace(channelId, h[..k]) + [SendSms, LogFix(h[k].p.latitude, h[k].p.longitude)]
    ensures SmsCount(Trace(channelId, h)) == 1
  {
    assert h[..k + 1][..k] == h[..k];
    SmsSentOnce(channelId, h[..k]);
    SmsSentOnce(channelId, h);
    assert !h[k].StartCommand?;
  }

  /** A fix arriving after the first one changes nothing. */
  lemma LaterFixIsNoOp(channelId: string, h: seq<Callback>, p: Location)
    requires !Armed(h)
    ensures Trace(channelId, h + [LocationChanged(p)]) == Trace(channelId, h)
  {
  }
}
