/** The `notifications` directive: its `link` function, which turns the
    position attribute into classes on the container element, and its
    controller's `removeNotification`, which works on the very queue array
    the service hands out. */
module NotificationsDirective {
  import opened JsArray
  import opened Notifications

  /** `s.split(' ')`: the pieces between single spaces, so that two spaces in
      a row, or a space at either end, give an empty piece. */
  function Split(s: string): (tokens: seq<string>)
    ensures |tokens| >= 1
    ensures forall t :: t in tokens ==> ' ' !in t
  {
    if s == [] then [""]
    else
      var rest := Split(s[1..]);
      if s[0] == ' ' then [""] + rest
      else [[s[0]] + rest[0]] + rest[1..]
  }

  /** `tokens.join(' ')`, the inverse of Split. */
  function Join(tokens: seq<string>): string
    requires |tokens| >= 1
  {
    if |tokens| == 1 then tokens[0] else tokens[0] + " " + Join(tokens[1..])
  }

  /** Splitting a space-free prefix glued to the rest of the attribute. */
  lemma {:induction false} SplitGlue(a: string, b: string)
    requires ' ' !in a
    ensures Split(a + b) == [a + Split(b)[0]] + Split(b)[1..]
  {
    if a != [] {
      assert (a + b)[1..] == a[1..] + b;
      SplitGlue(a[1..], b);
      assert [a[0]] + (a[1..] + Split(b)[0]) == a + Split(b)[0];
    } else {
      assert a + b == b && a + Split(b)[0] == Split(b)[0];
      assert Split(b) == [Split(b)[0]] + Split(b)[1..];
    }
  }

  /** Joining the pieces of an attribute gives the attribute back. */
  lemma {:induction false} JoinSplit(s: string)
    ensures Join(Split(s)) == s
  {
    if s != [] {
      var rest := Split(s[1..]);
      JoinSplit(s[1..]);
      if s[0] == ' ' {
        assert Split(s) == [""] + rest;
        assert Join(Split(s)) == "" + " " + Join(rest);
      } else {
        var first := [s[0]] + rest[0];
        assert Split(s) == [first] + rest[1..];
        if |rest| == 1 {
          assert Join(Split(s)) == first;
        } else {
          assert Join(Split(s)) == first + " " + Join(rest[1..]);
          assert Join(rest) == rest[0] + " " + Join(rest[1..]);
        }
      }
    }
  }

  /** Splitting a join of space-free pieces gives the pieces back. */
  lemma {:induction false} SplitJoin(tokens: seq<string>)
    requires |tokens| >= 1
    requires forall t :: t in tokens ==> ' ' !in t
    ensures Split(Join(tokens)) == tokens
  {
    var a := tokens[0];
    if |tokens| == 1 {
      SplitGlue(a, "");
      assert a + "" == a;
    } else {
      var b := Join(tokens[1..]);
      SplitJoin(tokens[1..]);
      assert a + " " + b == a + (" " + b);
      SplitGlue(a, " " + b);
      assert (" " + b)[1..] == b;
      assert Split(" " + b) == [""] + tokens[1..];
      assert a + "" == a;
    }
  }

  /** The container element; `addedClasses` lists the `addClass` calls made
      on it, in order. */
  class Element {
    var addedClasses: seq<string>

    constructor ()
      ensures addedClasses == []
    {
      addedClasses := [];
    }

    method AddClass(c: string)
      modifies this
      ensures addedClasses == old(addedClasses) + [c]
    {
      addedClasses := addedClasses + [c];
    }
  }

  /** `link`: marks the element as the notification container, then adds
      every space-separated piece of the position attribute, in order. */
  method Link(element: Element, position: string)
    modifies element
    ensures element.addedClasses == old(element.addedClasses) + ["dr-notification-container"] + Split(position)
  {
    var pieces := Split(position);
    element.AddClass("dr-notification-container");
    var i := 0;
    while i < |pieces|
      invariant 0 <= i <= |pieces|
      invariant element.addedClasses == old(element.addedClasses) + ["dr-notification-container"] + pieces[..i]
    {
      element.AddClass(pieces[i]);
      i := i + 1;
    }
    assert pieces[..i] == pieces;
  }

  /** The dismiss handler: `queue.splice(queue.indexOf(noti), 1)` on the
      service's own queue. History and the pending timers are untouched. */
  method RemoveNotification<D>(svc: Service<D>, noti: Note<D>)
    requires svc.Valid()
    modifies svc`queue
    ensures svc.Valid()
    ensures svc.queue == RemoveByIdentity(old(svc.queue), noti)
  {
    RemoveKeepsNoDuplicates(svc.queue, noti);
    svc.queue := RemoveByIdentity(svc.queue, noti);
  }

  /** A fresh service showing two toasts, an info and a warning, both timed. */
  method TwoToasts<D>(userData: D, now: int, platform: Platform)
    returns (svc: Service<D>, first: Note<D>, second: Note<D>)
    ensures fresh(svc) && svc.Valid() && first != second
    ensures svc.queue == [first, second] && svc.timers == {first, second}
  {
    svc := new Service<D>([]);
    var e1, e2;
    first, e1 := svc.Create(Info, "first", "", userData, now, platform);
    assert e1 == After(5000);
    assert svc.queue == [first] && svc.timers == {first} && svc.settings == Defaults();
    second, e2 := svc.Create(Warning, "second", "", userData, now, platform);
    assert e2 == After(5000);
  }

  /** The user dismisses the first of two toasts before its timer runs; when
      that timer then fires, the second toast disappears with it although it
      was neither dismissed nor timed out: its timer is still pending. */
  method StaleTimerRemovesOther<D>(userData: D, now: int, platform: Platform)
    returns (queue: seq<Note<D>>, timers: set<Note<D>>, first: Note<D>, second: Note<D>)
    ensures first != second
    ensures queue == [] && timers == {second}
  {
    var svc;
    svc, first, second := TwoToasts(userData, now, platform);
    StaleTimerEmptiesQueue(first, second);
    RemoveNotification(svc, first);
    svc.TimerFires(first);
    queue, timers := svc.queue, svc.timers;
  }
}
