/**
 * The relay of NotificationListener: the process-wide connection flag, the
 * registered observer and the live service instance, and the inboxes of the
 * worker and UI handlers, with the callbacks that change them.
 */
module Listener {

  import opened Wrappers
  import opened NotificationFilter

  /** The payload of a posted event, built when the platform reports it. */
  datatype PostedMsg = PostedMsg(
    packageUserKey: PackageUserKey,
    notificationKey: NotificationKeyData,
    shouldBeFilteredOut: bool)

  /**
   * A handler message, for both inboxes. The worker's full-refresh request
   * carries no list (Java: a null object); the UI's carries the filtered
   * active notifications, or None when the platform returned none.
   */
  datatype Msg =
    | Posted(posted: PostedMsg)
    | Removed(packageUserKey: PackageUserKey, notificationKey: NotificationKeyData)
    | FullRefresh(active: Option<seq<StatusBarNotification>>)

  /** Identity of a registered NotificationsChangedListener. */
  datatype Observer = Observer(id: nat)

  /** One call made on an observer: the posted, removed or full-refresh callback for msg. */
  datatype Delivery = Delivery(observer: Observer, msg: Msg)

  /** Identity of a NotificationListener service object. */
  type ServiceId = nat

  /**
   * The list a full-refresh worker step forwards: empty while disconnected,
   * otherwise the active notifications less the hidden ones (None when the
   * platform returned none).
   */
  function RefreshPayload(atLeastOreo: bool, connected: bool, active: Option<seq<StatusBarNotification>>)
    : (payload: Option<seq<StatusBarNotification>>)
    ensures !connected ==> payload == Some([])
    ensures connected ==> (payload.None? <==> active.None?)
    ensures connected && active.Some? ==>
      forall x :: x in payload.value <==> x in active.value && !ShouldBeFilteredOut(atLeastOreo, x)
    ensures connected && active.Some? ==>
      Selects(active.value, payload.value, KeptIndices(atLeastOreo, active.value))
  {
    if !connected then Some([])
    else match active
      case None => None
      case Some(s) =>
        assert forall x :: x in Kept(atLeastOreo, s) <==> x in s && !ShouldBeFilteredOut(atLeastOreo, x) by {
          forall x { KeptMembership(atLeastOreo, s, x); }
        }
        KeptIsOrderedSelection(atLeastOreo, s);
        Some(Kept(atLeastOreo, s))
  }

  /**
   * A message as far as its place in the relay matters: a full refresh
   * stands for itself whatever list it carries, because the worker computes
   * that list only when it handles the request.
   */
  ghost function Shape(m: Msg): Msg {
    if m.FullRefresh? then FullRefresh(None) else m
  }

  ghost function Shapes(s: seq<Msg>): seq<Msg> {
    seq(|s|, i requires 0 <= i < |s| => Shape(s[i]))
  }

  ghost function DeliveredShapes(d: seq<Delivery>): seq<Msg> {
    seq(|d|, i requires 0 <= i < |d| => Shape(d[i].msg))
  }

  ghost function Contents(a: array?<StatusBarNotification>): Option<seq<StatusBarNotification>>
    reads a
  {
    if a == null then None else Some(a[..])
  }

  /**
   * The static fields sIsConnected, sNotificationsChangedListener and
   * sNotificationListenerInstance, the FIFO inboxes of the worker and UI
   * handlers, and the calls made on observers so far, in order.
   */
  class NotificationListener {
    /** Utilities.ATLEAST_OREO, fixed when the process starts. */
    const atLeastOreo: bool
    var instance: Option<ServiceId>
    var observer: Option<Observer>
    var connected: bool
    var workerQueue: seq<Msg>
    var uiQueue: seq<Msg>
    var delivered: seq<Delivery>

    /**
     * Only a service object is ever connected and owns handlers, and the
     * worker's full-refresh requests carry no list.
     */
    ghost predicate Valid()
      reads this
    {
      && (connected ==> instance.Some?)
      && (workerQueue != [] || uiQueue != [] ==> instance.Some?)
      && (forall m :: m in workerQueue && m.FullRefresh? ==> m.active.None?)
    }

    /**
     * Every message still in flight, oldest first: the UI inbox, then the
     * worker inbox. Both handlers are FIFO, so every step either appends to
     * this sequence, removes its head, or leaves it as it is.
     */
    ghost function Pipeline(): seq<Msg>
      reads this
    {
      Shapes(uiQueue) + workerQueue
    }

    /** The static fields' initial values: no instance, no observer, disconnected. */
    constructor (atLeastOreo: bool)
      ensures Valid()
      ensures this.atLeastOreo == atLeastOreo
      ensures instance == None && observer == None && !connected
      ensures workerQueue == [] && uiQueue == [] && delivered == []
    {
      this.atLeastOreo := atLeastOreo;
      instance := None;
      observer := None;
      connected := false;
      workerQueue := [];
      uiQueue := [];
      delivered := [];
    }

    /** The service constructor records the new object as the instance. */
    method RegisterInstance(id: ServiceId)
      requires Valid()
      modifies this`instance
      ensures Valid()
      ensures instance == Some(id)
    {
      instance := Some(id);
    }

    /** getInstanceIfConnected: the instance while connected, never while disconnected. */
    function GetInstanceIfConnected(): (r: Option<ServiceId>)
      requires Valid()
      reads this
      ensures r.Some? <==> connected
      ensures r.Some? ==> r == instance
    {
      if connected then instance else None
    }

    /**
     * Replaces the observer (None clears it) and, once a service object
     * exists, asks the worker for one full refresh.
     */
    method SetNotificationsChangedListener(listener: Option<Observer>)
      requires Valid()
      modifies this`observer, this`workerQueue
      ensures Valid()
      ensures observer == listener
      ensures workerQueue == old(workerQueue) + (if instance.Some? then [FullRefresh(None)] else [])
      ensures Pipeline() == old(Pipeline()) + (if instance.Some? then [FullRefresh(None)] else [])
    {
      observer := listener;
      if instance.Some? {
        workerQueue := workerQueue + [FullRefresh(None)];
      }
    }

    method RemoveNotificationsChangedListener()
      requires Valid()
      modifies this`observer
      ensures Valid()
      ensures observer == None
    {
      observer := None;
    }

    /** The platform connected the service: set the flag and ask for one full refresh. */
    method OnListenerConnected()
      requires Valid() && instance.Some?
      modifies this`connected, this`workerQueue
      ensures Valid()
      ensures connected
      ensures workerQueue == old(workerQueue) + [FullRefresh(None)]
      ensures Pipeline() == old(Pipeline()) + [FullRefresh(None)]
    {
      connected := true;
      workerQueue := workerQueue + [FullRefresh(None)];
    }

    /** The platform disconnected the service: clear the flag, enqueue nothing. */
    method OnListenerDisconnected()
      requires Valid() && instance.Some?
      modifies this`connected
      ensures Valid()
      ensures !connected
    {
      connected := false;
    }

    /**
     * A notification was posted: its keys and the filter's verdict, decided
     * now, go to the worker.
     */
    method OnNotificationPosted(sbn: StatusBarNotification)
      requires Valid() && instance.Some?
      modifies this`workerQueue
      ensures Valid()
      ensures workerQueue == old(workerQueue) +
        [Posted(PostedMsg(sbn.packageUserKey, sbn.keyData, ShouldBeFilteredOut(atLeastOreo, sbn)))]
      ensures Pipeline() == old(Pipeline()) +
        [Posted(PostedMsg(sbn.packageUserKey, sbn.keyData, ShouldBeFilteredOut(atLeastOreo, sbn)))]
    {
      var msg := PostedMsg(sbn.packageUserKey, sbn.keyData, ShouldBeFilteredOut(atLeastOreo, sbn));
      workerQueue := workerQueue + [Posted(msg)];
    }

    /** A notification was removed: its keys go to the worker. */
    method OnNotificationRemoved(sbn: StatusBarNotification)
      requires Valid() && instance.Some?
      modifies this`workerQueue
      ensures Valid()
      ensures workerQueue == old(workerQueue) + [Removed(sbn.packageUserKey, sbn.keyData)]
      ensures Pipeline() == old(Pipeline()) + [Removed(sbn.packageUserKey, sbn.keyData)]
    {
      workerQueue := workerQueue + [Removed(sbn.packageUserKey, sbn.keyData)];
    }

    /**
     * The worker handles its oldest message. Posted and removed events pass to
     * the UI unchanged; a full refresh sends the UI RefreshPayload of what
     * the platform reports active, unless that query is denied
     * (securityDenied), in which case nothing is sent and handled is false.
     */
    method HandleWorkerMessage(active: array?<StatusBarNotification>, securityDenied: bool) returns (handled: bool)
      requires Valid() && workerQueue != []
      modifies this`workerQueue, this`uiQueue
      ensures Valid()
      ensures workerQueue == old(workerQueue)[1..]
      ensures handled <==> !(old(workerQueue)[0].FullRefresh? && connected && securityDenied)
      ensures !old(workerQueue)[0].FullRefresh? ==> uiQueue == old(uiQueue) + [old(workerQueue)[0]]
      ensures old(workerQueue)[0].FullRefresh? ==>
        uiQueue == old(uiQueue) +
          (if connected && securityDenied then []
           else [FullRefresh(RefreshPayload(atLeastOreo, connected, Contents(active)))])
      ensures handled ==> Pipeline() == old(Pipeline())
      ensures !handled ==> Pipeline() == Shapes(old(uiQueue)) + old(workerQueue)[1..]
    {
      var msg := workerQueue[0];
      workerQueue := workerQueue[1..];
      match msg {
        case Posted(_) =>
          uiQueue := uiQueue + [msg];
        case Removed(_, _) =>
          uiQueue := uiQueue + [msg];
        case FullRefresh(_) =>
          if !connected {
            uiQueue := uiQueue + [FullRefresh(Some([]))];
          } else if securityDenied {
            return false;
          } else {
            var filtered := FilterNotifications(atLeastOreo, active);
            uiQueue := uiQueue + [FullRefresh(filtered)];
          }
      }
      return true;
    }

    /**
     * The UI handles its oldest message: it goes to the observer registered
     * now, or is dropped when there is none.
     */
    method HandleUiMessage()
      requires Valid() && uiQueue != []
      modifies this`uiQueue, this`delivered
      ensures Valid()
      ensures uiQueue == old(uiQueue)[1..]
      ensures delivered == old(delivered) +
        (if observer.Some? then [Delivery(observer.value, old(uiQueue)[0])] else [])
      ensures Pipeline() == old(Pipeline())[1..]
    {
      var msg := uiQueue[0];
      uiQueue := uiQueue[1..];
      if observer.Some? {
        delivered := delivered + [Delivery(observer.value, msg)];
      }
    }
  }

  /**
   * One thing that can happen while the observer stays registered: a platform
   * callback, or one handler taking its next message. A worker step's
   * platform query is allowed.
   */
  datatype Step =
    | PostStep(sbn: StatusBarNotification)
    | RemoveStep(sbn: StatusBarNotification)
    | ConnectStep
    | DisconnectStep
    | WorkerStep(active: array?<StatusBarNotification>)
    | UiStep

  /** The messages a step appends to the worker inbox. */
  ghost function EnqueuedBy(atLeastOreo: bool, step: Step): seq<Msg> {
    match step
    case PostStep(sbn) =>
      [Posted(PostedMsg(sbn.packageUserKey, sbn.keyData, ShouldBeFilteredOut(atLeastOreo, sbn)))]
    case RemoveStep(sbn) => [Removed(sbn.packageUserKey, sbn.keyData)]
    case ConnectStep => [FullRefresh(None)]
    case _ => []
  }

  ghost function Enqueued(atLeastOreo: bool, steps: seq<Step>): seq<Msg> {
    if steps == [] then []
    else Enqueued(atLeastOreo, steps[..|steps| - 1]) + EnqueuedBy(atLeastOreo, steps[|steps| - 1])
  }

  /** Delivered messages split where the log was extended. */
  lemma DeliveredShapesSplit(d: seq<Delivery>, a: nat, b: nat)
    requires a <= b <= |d|
    ensures DeliveredShapes(d[a..]) == DeliveredShapes(d[a..b]) + DeliveredShapes(d[b..])
  {
  }

  /**
   * Performs one step; a handler step with an empty inbox waits. What the
   * observer receives, followed by what is then in flight, is what was in
   * flight before, followed by what the step enqueued.
   */
  method Perform(l: NotificationListener, step: Step)
    requires l.Valid() && l.instance.Some? && l.observer.Some?
    modifies l
    ensures l.Valid() && l.instance == old(l.instance) && l.observer == old(l.observer)
    ensures |old(l.delivered)| <= |l.delivered| && l.delivered[..|old(l.delivered)|] == old(l.delivered)
    ensures forall k :: |old(l.delivered)| <= k < |l.delivered| ==> l.delivered[k].observer == l.observer.value
    ensures DeliveredShapes(l.delivered[|old(l.delivered)|..]) + l.Pipeline()
      == old(l.Pipeline()) + EnqueuedBy(l.atLeastOreo, step)
  {
    match step {
      case PostStep(sbn) => l.OnNotificationPosted(sbn);
      case RemoveStep(sbn) => l.OnNotificationRemoved(sbn);
      case ConnectStep => l.OnListenerConnected();
      case DisconnectStep => l.OnListenerDisconnected();
      case WorkerStep(active) =>
        if l.workerQueue != [] {
          var handled := l.HandleWorkerMessage(active, false);
        }
      case UiStep =>
        if l.uiQueue != [] {
          ghost var inFlight := l.Pipeline();
          l.HandleUiMessage();
          assert DeliveredShapes(l.delivered[|old(l.delivered)|..]) == [inFlight[0]];
        }
    }
  }

  /** Two FIFO stretches, one after the other, make one. */
  lemma FifoCompose(before: seq<Msg>, enqueued: seq<Msg>, done: seq<Msg>, inFlight: seq<Msg>,
                    received: seq<Msg>, after: seq<Msg>, added: seq<Msg>)
    requires done + inFlight == before + enqueued
    requires received + after == inFlight + added
    ensures (done + received) + after == before + (enqueued + added)
  {
    calc {
      (done + received) + after;
      done + (received + after);
      done + (inFlight + added);
      (done + inFlight) + added;
      (before + enqueued) + added;
    }
  }

  /**
   * Runs a schedule. Nothing is lost and nothing overtakes: what the
   * observer received during the run, followed by what is still in flight,
   * is what was in flight before, followed by what the run enqueued.
   */
  method RunSchedule(l: NotificationListener, steps: seq<Step>)
    requires l.Valid() && l.instance.Some? && l.observer.Some?
    modifies l
    ensures l.Valid() && l.instance == old(l.instance) && l.observer == old(l.observer)
    ensures |old(l.delivered)| <= |l.delivered|
    ensures forall k :: |old(l.delivered)| <= k < |l.delivered| ==> l.delivered[k].observer == l.observer.value
    ensures DeliveredShapes(l.delivered[|old(l.delivered)|..]) + l.Pipeline()
      == old(l.Pipeline()) + Enqueued(l.atLeastOreo, steps)
  {
    ghost var start := |l.delivered|;
    ghost var before := l.Pipeline();
    var i := 0;
    while i < |steps|
      invariant 0 <= i <= |steps|
      invariant l.Valid() && l.instance == old(l.instance) && l.observer == old(l.observer)
      invariant start <= |l.delivered|
      invariant forall k :: start <= k < |l.delivered| ==> l.delivered[k].observer == l.observer.value
      invariant DeliveredShapes(l.delivered[start..]) + l.Pipeline() == before + Enqueued(l.atLeastOreo, steps[..i])
    {
      assert steps[..i + 1][..i] == steps[..i];
      ghost var log := l.delivered;
      ghost var mid := |l.delivered|;
      ghost var done := DeliveredShapes(l.delivered[start..]);
      ghost var inFlight := l.Pipeline();
      Perform(l, steps[i]);
      DeliveredShapesSplit(l.delivered, start, mid);
      assert l.delivered[start..mid] == log[start..] by {
        assert l.delivered[..mid] == log;
      }
      assert Enqueued(l.atLeastOreo, steps[..i + 1])
        == Enqueued(l.atLeastOreo, steps[..i]) + EnqueuedBy(l.atLeastOreo, steps[i]);
      FifoCompose(before, Enqueued(l.atLeastOreo, steps[..i]), done, inFlight,
        DeliveredShapes(l.delivered[mid..]), l.Pipeline(), EnqueuedBy(l.atLeastOreo, steps[i]));
      i := i + 1;
    }
    assert steps[..i] == steps;
  }

  /**
   * Registering an observer and then running any schedule: the observer
   * receives, in order, a prefix of the messages already in flight, then the
   * full refresh the registration asked for, then what the schedule
   * enqueued. So that refresh reaches it before any message posted after
   * the registration.
   */
  method RefreshPrecedesLaterPosts(l: NotificationListener, o: Observer, steps: seq<Step>)
    requires l.Valid() && l.instance.Some?
    modifies l
    ensures l.Valid() && l.observer == Some(o)
    ensures |old(l.delivered)| <= |l.delivered|
    ensures forall k :: |old(l.delivered)| <= k < |l.delivered| ==> l.delivered[k].observer == o
    ensures DeliveredShapes(l.delivered[|old(l.delivered)|..])
      <= old(l.Pipeline()) + [FullRefresh(None)] + Enqueued(l.atLeastOreo, steps)
    ensures |l.delivered| - |old(l.delivered)| > |old(l.Pipeline())| ==>
      l.delivered[|old(l.delivered)| + |old(l.Pipeline())|].msg.FullRefresh?
  {
    ghost var pending := l.Pipeline();
    l.SetNotificationsChangedListener(Some(o));
    RunSchedule(l, steps);
    ghost var d := DeliveredShapes(l.delivered[|old(l.delivered)|..]);
    ghost var all := pending + [FullRefresh(None)] + Enqueued(l.atLeastOreo, steps);
    assert d + l.Pipeline() == all;
    assert d == all[..|d|];
    if |d| > |pending| {
      assert d[|pending|] == FullRefresh(None);
    }
  }
}
