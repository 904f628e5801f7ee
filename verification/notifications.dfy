/** The `$notification` service: its settings, the notification records it
    creates, the history (the records read back from local storage at page
    load, followed by every record created since), the queue of records shown
    on screen, and the desktop-notification branch. */
module Notifications {
  import opened JsArray

  /** What the browser offers: no `Notification` API at all, or the API with
      its permission state (`'granted'`, `'denied'`, or undetermined). */
  datatype Platform = Absent | Granted | Denied | Default

  /** A record's `image`: `false`, or an image reference. */
  datatype Image = NoImage | ImageUrl(url: string)

  /** A record's `icon`: a font-awesome icon name, or `true` for records that
      carry an image instead. */
  datatype Icon = IconName(name: string) | ImageIcon

  /** What `html5Notify` hands back: `null`, `undefined`, or the desktop
      notification it created with a title, an icon and a body. */
  datatype Handle = Null | Undefined | Desktop(title: string, icon: Image, body: string)

  /** The per-kind entry of the settings object. */
  datatype KindSetting = KindSetting(duration: int, enabled: bool)

  /** The settings object: one entry per kind, then the global flags. */
  datatype Settings = Settings(
    kinds: map<string, KindSetting>,
    details: bool,
    localStorage: bool,
    html5Mode: bool,
    html5DefaultIcon: string)

  /** The keys of the settings object that hold a global flag rather than a
      kind entry. */
  const FlagKeys: set<string> := {"details", "localStorage", "html5Mode", "html5DefaultIcon"}

  /** The settings the service starts with: six kinds, all enabled, none
      sharing its key with a global flag; desktop mode and persistence off. */
  function Defaults(): (s: Settings)
    ensures s.kinds.Keys == {"info", "warning", "error", "success", "progress", "custom"}
    ensures s.kinds.Keys !! FlagKeys
    ensures forall k :: k in s.kinds ==> s.kinds[k].enabled
    ensures !s.html5Mode && !s.localStorage
  {
    Settings(
      map[
        "info" := KindSetting(5000, true),
        "warning" := KindSetting(5000, true),
        "error" := KindSetting(5000, true),
        "success" := KindSetting(5000, true),
        "progress" := KindSetting(0, true),
        "custom" := KindSetting(35000, true)],
      true, false, false, "icon.png")
  }

  /** How a settings mutator ends: normally, or with the TypeError strict
      mode raises when `settings[kind]` is not a kind entry. */
  datatype Outcome = Done | TypeError

  /** `settings[kind].enabled = on`, everything else as it was. */
  function SetEnabled(s: Settings, kind: string, on: bool): (r: Settings)
    requires kind in s.kinds
    ensures r.kinds.Keys == s.kinds.Keys
    ensures r.kinds[kind].enabled == on && r.kinds[kind].duration == s.kinds[kind].duration
    ensures forall k :: k in s.kinds && k != kind ==> r.kinds[k] == s.kinds[k]
    ensures r.(kinds := s.kinds) == s
  {
    s.(kinds := s.kinds[kind := s.kinds[kind].(enabled := on)])
  }

  /** Toggling a kind twice gives back the settings it started from. */
  lemma ToggleTwiceRestores(s: Settings, kind: string)
    requires kind in s.kinds
    ensures var once := SetEnabled(s, kind, !s.kinds[kind].enabled);
      SetEnabled(once, kind, !once.kinds[kind].enabled) == s
  {
    var once := SetEnabled(s, kind, !s.kinds[kind].enabled);
    var twice := SetEnabled(once, kind, !once.kinds[kind].enabled);
    assert twice.kinds == s.kinds;
  }

  /** What happens after a record has been queued: the expiry timer is set
      for the kind's duration; or, when `settings[kind]` is a global flag,
      for an undefined delay; or reading `.duration` of an undefined entry
      throws a TypeError and no timer is set. With the desktop mode on no
      timer is involved at all. */
  datatype Expiry = NoTimer | After(ms: int) | UndefinedDelay | LookupThrows

  /** The expiry `makeNotification` arranges for a queued record of `kind`. */
  function ExpiryFor(s: Settings, kind: string): (e: Expiry)
    ensures e.After? <==> kind in s.kinds
    ensures e.After? ==> e.ms == s.kinds[kind].duration
    ensures e.LookupThrows? <==> kind !in s.kinds && kind !in FlagKeys
    ensures !e.NoTimer?
  {
    if kind in s.kinds then After(s.kinds[kind].duration)
    else if kind in FlagKeys then UndefinedDelay
    else LookupThrows
  }

  /** The per-kind `enabled` flag is never consulted when a record is made:
      changing it changes nothing about the record's expiry. */
  lemma EnabledNotConsulted(s: Settings, k: string, on: bool, kind: string)
    requires k in s.kinds
    ensures ExpiryFor(SetEnabled(s, k, on), kind) == ExpiryFor(s, kind)
  {
  }

  /** `requestHtml5ModePermissions`: true exactly when the browser has the
      Notification API and its permission is `'granted'`. */
  function RequestHtml5ModePermissions(p: Platform): (granted: bool)
    ensures granted <==> p == Granted
  {
    if p != Absent then p == Granted else false
  }

  /** What `html5Notify` returns: `null` without the API, a desktop
      notification when permission is granted, and `undefined` otherwise
      (denied, or undetermined and a request for permission sent off). */
  function DesktopHandle(p: Platform, icon: Image, title: string, body: string): (h: Handle)
    ensures h.Desktop? <==> p == Granted
    ensures h.Null? <==> p == Absent
    ensures h.Desktop? ==> h.title == title && h.icon == icon && h.body == body
  {
    match p
    case Absent => Null
    case Granted => Desktop(title, icon, body)
    case Denied => Undefined
    case Default => Undefined
  }

  /** The convenience creators of the service. */
  datatype Wrapper =
    | Info | Error | Success | Warning
    | AwesomeNotify(kind: string, icon: string)
    | Notify(image: string)

  /** The `(type, image, icon)` a creator passes on to `makeNotification`. */
  datatype Creation = Creation(kind: string, image: Image, icon: Icon)

  /** The icon creators draw a font-awesome icon and no image; `notify` draws
      an image, with `icon = true`, under the kind `custom`. */
  function Route(w: Wrapper): (c: Creation)
    ensures !w.Notify? <==> c.image == NoImage
    ensures !w.Notify? <==> c.icon.IconName?
    ensures w.Notify? ==> c.kind == "custom" && c.image.url == w.image
    ensures w.AwesomeNotify? ==> c.kind == w.kind && c.icon.name == w.icon
  {
    match w
    case Info => Creation("info", NoImage, IconName("info"))
    case Error => Creation("error", NoImage, IconName("times"))
    case Success => Creation("success", NoImage, IconName("check"))
    case Warning => Creation("warning", NoImage, IconName("exclamation"))
    case AwesomeNotify(kind, icon) => Creation(kind, NoImage, IconName(icon))
    case Notify(image) => Creation("custom", ImageUrl(image), ImageIcon)
  }

  /** Every fixed kind the creators use has an entry in the initial
      settings, so under them they never take the TypeError path. */
  lemma FixedKindsConfigured(w: Wrapper)
    requires !w.AwesomeNotify?
    ensures ExpiryFor(Defaults(), Route(w).kind).After?
  {
  }

  /** A notification record. JavaScript compares records by identity, so a
      record is an object; only its desktop handle is written after creation. */
  class Note<D> {
    const kind: string
    const image: Image
    const icon: Icon
    const title: string
    const content: string
    const timestamp: int
    const userData: D
    var html5Notification: Handle

    constructor (kind: string, image: Image, icon: Icon, title: string, content: string,
                 timestamp: int, userData: D)
      ensures this.kind == kind && this.image == image && this.icon == icon
      ensures this.title == title && this.content == content
      ensures this.timestamp == timestamp && this.userData == userData
      ensures html5Notification == Null
    {
      this.kind := kind;
      this.image := image;
      this.icon := icon;
      this.title := title;
      this.content := content;
      this.timestamp := timestamp;
      this.userData := userData;
      html5Notification := Null;
    }
  }

  /** The service object. `history`, `queue` and `settings` are the objects
      that `getAll`, `getQueue` and `getSettings` hand out; `timers` holds the
      records whose expiry callback is scheduled and has not yet run;
      `stored` is what local storage holds under `$notifications`;
      `permissionRequests` counts the prompts sent to the browser. */
  class Service<D> {
    var history: seq<Note<D>>
    var queue: seq<Note<D>>
    var settings: Settings
    var timers: set<Note<D>>
    var stored: seq<Note<D>>
    var permissionRequests: nat

    /** Every record history has held, in order, and how many of them the
        last `clear` dropped. */
    ghost var created: seq<Note<D>>
    ghost var cleared: nat

    /** The queue holds each record once; every queued or timed record was
        created by this service; history is what `clear` has not dropped; no
        kind entry shares its key with a global flag, as in one JavaScript
        object. */
    ghost predicate Valid()
      reads this`history, this`queue, this`timers, this`created, this`cleared, this`settings
    {
      && settings.kinds.Keys !! FlagKeys
      && NoDuplicates(queue)
      && (forall x :: x in queue ==> x in created)
      && (forall x :: x in timers ==> x in created)
      && cleared <= |created|
      && history == created[cleared..]
    }

    /** The service as created on page load, with `saved` the records read
        back from local storage (empty when nothing was stored). */
    constructor (saved: seq<Note<D>>)
      ensures Valid()
      ensures history == saved && stored == saved && queue == [] && timers == {}
      ensures settings == Defaults() && permissionRequests == 0 && cleared == 0
    {
      history := saved;
      queue := [];
      settings := Defaults();
      timers := {};
      stored := saved;
      permissionRequests := 0;
      created := saved;
      cleared := 0;
    }

    /** Until the first `clear`, every record on screen is also in history. */
    lemma QueueWithinHistory()
      requires Valid() && cleared == 0
      ensures forall x :: x in queue ==> x in history
    {
    }

    method DisableHtml5Mode()
      requires Valid()
      modifies this`settings
      ensures Valid()
      ensures settings == old(settings).(html5Mode := false)
    {
      settings := settings.(html5Mode := false);
    }

    method DisableType(kind: string) returns (outcome: Outcome)
      requires Valid()
      modifies this`settings
      ensures Valid()
      ensures outcome == Done <==> kind in old(settings.kinds)
      ensures settings == if outcome == Done then SetEnabled(old(settings), kind, false) else old(settings)
    {
      if kind in settings.kinds {
        settings := SetEnabled(settings, kind, false);
        outcome := Done;
      } else {
        outcome := TypeError;
      }
    }

    /** Turns the desktop mode on only when permission is already granted;
        it never prompts (`permissionRequests` is outside its frame). */
    method EnableHtml5Mode(platform: Platform)
      requires Valid()
      modifies this`settings
      ensures Valid()
      ensures settings == old(settings).(html5Mode := platform == Granted)
    {
      settings := settings.(html5Mode := RequestHtml5ModePermissions(platform));
    }

    method EnableType(kind: string) returns (outcome: Outcome)
      requires Valid()
      modifies this`settings
      ensures Valid()
      ensures outcome == Done <==> kind in old(settings.kinds)
      ensures settings == if outcome == Done then SetEnabled(old(settings), kind, true) else old(settings)
    {
      if kind in settings.kinds {
        settings := SetEnabled(settings, kind, true);
        outcome := Done;
      } else {
        outcome := TypeError;
      }
    }

    method ToggleType(kind: string) returns (outcome: Outcome)
      requires Valid()
      modifies this`settings
      ensures Valid()
      ensures outcome == Done <==> kind in old(settings.kinds)
      ensures outcome == Done ==>
        settings == SetEnabled(old(settings), kind, !old(settings.kinds[kind].enabled))
      ensures outcome == TypeError ==> settings == old(settings)
    {
      if kind in settings.kinds {
        settings := SetEnabled(settings, kind, !settings.kinds[kind].enabled);
        outcome := Done;
      } else {
        outcome := TypeError;
      }
    }

    method ToggleHtml5Mode()
      requires Valid()
      modifies this`settings
      ensures Valid()
      ensures settings == old(settings).(html5Mode := !old(settings.html5Mode))
    {
      settings := settings.(html5Mode := !settings.html5Mode);
    }

    /** `html5Notify`: without the API it switches the desktop mode off for
        good; with permission undetermined it sends a permission request and
        shows nothing now. */
    method Html5Notify(icon: Image, title: string, content: string, platform: Platform)
      returns (h: Handle)
      requires Valid()
      modifies this`settings, this`permissionRequests
      ensures Valid()
      ensures h == DesktopHandle(platform, icon, title, content)
      ensures settings == if platform == Absent then old(settings).(html5Mode := false) else old(settings)
      ensures permissionRequests == old(permissionRequests) + if platform == Default then 1 else 0
    {
      if platform == Absent {
        settings := settings.(html5Mode := false);
        h := Null;
      } else if platform == Granted {
        h := Desktop(title, icon, content);
      } else if platform != Denied {
        permissionRequests := permissionRequests + 1;
        h := Undefined;
      } else {
        h := Undefined;
      }
    }

    /** Creates a record stamped `now` and appends it to history. With the
        desktop mode on, the record gets the desktop handle and is not
        queued; otherwise it is queued and its expiry arranged. History is
        then saved, unless arranging the expiry threw. */
    method MakeNotification(kind: string, image: Image, icon: Icon, title: string, content: string,
                            userData: D, now: int, platform: Platform)
      returns (n: Note<D>, expiry: Expiry)
      requires Valid()
      modifies this
      ensures Valid() && fresh(n)
      ensures n.kind == kind && n.image == image && n.icon == icon
      ensures n.title == title && n.content == content
      ensures n.timestamp == now && n.userData == userData
      ensures history == old(history) + [n] && created == old(created) + [n] && cleared == old(cleared)
      ensures old(settings.html5Mode) ==>
        && queue == old(queue) && timers == old(timers) && expiry == NoTimer
        && n.html5Notification == DesktopHandle(platform, image, title, content)
        && settings == (if platform == Absent then old(settings).(html5Mode := false) else old(settings))
        && permissionRequests == old(permissionRequests) + (if platform == Default then 1 else 0)
      ensures !old(settings.html5Mode) ==>
        && queue == old(queue) + [n] && n.html5Notification == Null
        && expiry == ExpiryFor(old(settings), kind)
        && timers == (if expiry.LookupThrows? then old(timers) else old(timers) + {n})
        && settings == old(settings) && permissionRequests == old(permissionRequests)
      ensures stored == if !expiry.LookupThrows? && settings.localStorage then history else old(stored)
    {
      n := new Note(kind, image, icon, title, content, now, userData);
      history := history + [n];
      created := created + [n];
      assert history == created[cleared..];
      if settings.html5Mode {
        var h := Html5Notify(image, title, content, platform);
        n.html5Notification := h;
        expiry := NoTimer;
      } else {
        queue := queue + [n];
        assert NoDuplicates(queue) by {
          forall i, j | 0 <= i < j < |queue| ensures queue[i] != queue[j] {
            if j == |queue| - 1 {
              assert queue[i] in old(queue);
            }
          }
        }
        expiry := ExpiryFor(settings, kind);
        if expiry.LookupThrows? {
          return;
        }
        timers := timers + {n};
      }
      Save();
    }

    /** The expiry callback of record `n`: `queue.splice(queue.indexOf(n), 1)`. */
    method TimerFires(n: Note<D>)
      requires Valid() && n in timers
      modifies this`queue, this`timers
      ensures Valid()
      ensures queue == RemoveByIdentity(old(queue), n)
      ensures timers == old(timers) - {n}
    {
      RemoveKeepsNoDuplicates(queue, n);
      queue := RemoveByIdentity(queue, n);
      timers := timers - {n};
    }

    /** Writes history to local storage when persistence is switched on. */
    method Save()
      modifies this`stored
      ensures stored == if settings.localStorage then history else old(stored)
    {
      if settings.localStorage {
        stored := history;
      }
    }

    /** Empties history (the queue and pending timers are left alone) and
        saves the empty history. */
    method Clear()
      requires Valid()
      modifies this`history, this`cleared, this`stored
      ensures Valid() && created == old(created)
      ensures history == [] && cleared == |created|
      ensures stored == if settings.localStorage then [] else old(stored)
    {
      history := [];
      cleared := |created|;
      Save();
    }

    /** The convenience creators: `info`, `error`, `success`, `warning`,
        `awesomeNotify` and `notify`, each passing its `(type, image, icon)`
        on to `makeNotification`. */
    method Create(w: Wrapper, title: string, content: string, userData: D, now: int, platform: Platform)
      returns (n: Note<D>, expiry: Expiry)
      requires Valid()
      modifies this
      ensures Valid() && fresh(n)
      ensures n.kind == Route(w).kind && n.image == Route(w).image && n.icon == Route(w).icon
      ensures n.title == title && n.content == content
      ensures n.timestamp == now && n.userData == userData
      ensures history == old(history) + [n] && created == old(created) + [n] && cleared == old(cleared)
      ensures old(settings.html5Mode) ==>
        && queue == old(queue) && timers == old(timers) && expiry == NoTimer
        && n.html5Notification == DesktopHandle(platform, Route(w).image, title, content)
        && settings == (if platform == Absent then old(settings).(html5Mode := false) else old(settings))
        && permissionRequests == old(permissionRequests) + (if platform == Default then 1 else 0)
      ensures !old(settings.html5Mode) ==>
        && queue == old(queue) + [n] && n.html5Notification == Null
        && expiry == ExpiryFor(old(settings), Route(w).kind)
        && timers == (if expiry.LookupThrows? then old(timers) else old(timers) + {n})
        && settings == old(settings) && permissionRequests == old(permissionRequests)
      ensures stored == if !expiry.LookupThrows? && settings.localStorage then history else old(stored)
    {
      var c := Route(w);
      n, expiry := MakeNotification(c.kind, c.image, c.icon, title, content, userData, now, platform);
    }
  }

  /** A disabled kind is still recorded and shown: after `disableType('info')`
      an info notification still lands in history and on screen, with a timer. */
  method DisabledKindStillShown<D>(userData: D, now: int, platform: Platform)
    returns (history: seq<Note<D>>, queue: seq<Note<D>>, n: Note<D>, expiry: Expiry)
    ensures history == [n] && queue == [n] && expiry == After(5000)
    ensures n.kind == "info" && n.icon == IconName("info") && n.image == NoImage
  {
    var svc := new Service<D>([]);
    var outcome := svc.DisableType("info");
    assert outcome == Done && !svc.settings.html5Mode;
    n, expiry := svc.Create(Info, "title", "content", userData, now, platform);
    history, queue := svc.history, svc.queue;
  }
}
