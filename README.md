# Notification listener of the ZimLX launcher, in Dafny

This project models `NotificationListener`, the launcher's adapter over the
platform's notification listener service. The platform reports notifications
that are posted or removed, and reports when the service connects or
disconnects. The listener passes these events through a worker handler and
then a UI handler to one registered `NotificationsChangedListener` (the
observer). On the way it hides notifications that a launcher badge should not
count.

Two parts are modelled:

- `NotificationFilter` (`notification_filter.dfy`) holds the predicate
  `shouldBeFilteredOut` and the two-loop method `filterNotifications`. The
  predicate is a first-match decision table over:
  - the platform version (`ATLEAST_OREO`),
  - the ranking's badge permission and channel,
  - the `FLAG_ONGOING_EVENT` (0x2) and `FLAG_GROUP_SUMMARY` (0x200) bits of a
    32-bit flag word,
  - the title and text extras.

  The method keeps an order-preserving subsequence. `Kept` specifies it, and
  lemmas about `Kept` give its membership, its order, its length and its
  idempotence.
- `Listener` (`notification_listener.dfy`) holds a class with:
  - the static fields `sIsConnected`, `sNotificationsChangedListener` and
    `sNotificationListenerInstance`,
  - the FIFO inboxes of the two handlers, as sequences,
  - the sequence of calls made on observers.

  Each platform callback, each registration call and each handler step is a
  method that states the whole new state. The class invariant says that only
  an existing service object is connected or has pending messages.
  - `Pipeline` lists the messages in flight, oldest first: the UI inbox, then
    the worker inbox. Every method states how it changes this list.
  - `RunSchedule` runs any sequence of callbacks and handler steps. It proves
    that messages reach the observer in the order they were enqueued.

`wrappers.dfy` gives `Option`, which stands for a Java reference that may be
null.

Inputs from the platform are parameters:
- the ranking of a notification is a field of the notification record;
- `getActiveNotifications()` is an array argument that may be null;
- a `SecurityException` raised by that query is a boolean argument of the
  worker step.

Three details of the code are easy to misread, and the model follows the code in each:
- The filter verdict of a posted notification is computed in
  `onNotificationPosted`, when `NotificationPostedMsg` is built (lines 162 and
  253). It is not computed by the worker.
- `setNotificationsChangedListener` asks for a full refresh only when a
  service object already exists (lines 133-135).
- A full refresh forwards a null list when `getActiveNotifications()` returns
  null (line 194). An empty array gives an empty list.

## Model

| member | source | states |
|---|---|---|
| NotificationFilter.ShouldBeFilteredOut | app/src/main/java/org/zimmob/zimlx/notification/NotificationListener.java:211-230 | On Oreo and later, a ranking that forbids a badge hides the notification. An ongoing notification is hidden before Oreo always, and on Oreo and later only in the default channel. A group summary, or a notification with neither title nor text, is always hidden. A notification that none of these rules hides is kept. |
| NotificationFilter.OngoingFlagByVersion | app/src/main/java/org/zimmob/zimlx/notification/NotificationListener.java:217-224 | On Oreo and later, outside the default channel, setting the ongoing bit never changes the verdict. Before Oreo, setting it always hides the notification. |
| NotificationFilter.Kept | app/src/main/java/org/zimmob/zimlx/notification/NotificationListener.java:203-207 | The filtered list is never longer than the input. |
| NotificationFilter.KeptIsOrderedSelection | app/src/main/java/org/zimmob/zimlx/notification/NotificationListener.java:203-207 | The filtered list takes input elements at strictly increasing positions. A position is taken exactly when its notification is not hidden. |
| NotificationFilter.KeptMembership | app/src/main/java/org/zimmob/zimlx/notification/NotificationListener.java:196-207 | A notification is in the filtered list if and only if it is in the input and is not hidden. |
| NotificationFilter.KeptLength | app/src/main/java/org/zimmob/zimlx/notification/NotificationListener.java:195-202 | The filtered list's length is the input length less the number of positions collected in the set of hidden indices. |
| NotificationFilter.KeptAppend | app/src/main/java/org/zimmob/zimlx/notification/NotificationListener.java:203-207 | Filtering a concatenation gives the concatenation of the filtered parts. |
| NotificationFilter.KeptIdempotent | app/src/main/java/org/zimmob/zimlx/notification/NotificationListener.java:192-230 | Filtering an already filtered list removes nothing more. |
| NotificationFilter.FilterNotifications | app/src/main/java/org/zimmob/zimlx/notification/NotificationListener.java:192-209 | The result is null exactly when the input is null. Otherwise it is the input's kept subsequence, and its length is the input length less the number of hidden positions. |
| NotificationFilter.ThreeNotificationScenario | app/src/main/java/org/zimmob/zimlx/notification/NotificationListener.java:192-230 | Of a group summary, a notification with empty text and one with text "Hello", only the last is kept. |
| Listener.RefreshPayload | app/src/main/java/org/zimmob/zimlx/notification/NotificationListener.java:74-77 | A full refresh forwards an empty list while disconnected. While connected, it forwards null exactly when `getActiveNotifications()` returns null. Otherwise it forwards the active notifications that are not hidden, each once, in their original order. |
| Listener.NotificationListener.constructor | app/src/main/java/org/zimmob/zimlx/notification/NotificationListener.java:54-56 | The process starts with no service object, no observer, disconnected, and with empty inboxes. |
| Listener.NotificationListener.RegisterInstance | app/src/main/java/org/zimmob/zimlx/notification/NotificationListener.java:118-123 | Creating the service records it as the instance. Nothing else changes. |
| Listener.NotificationListener.GetInstanceIfConnected | app/src/main/java/org/zimmob/zimlx/notification/NotificationListener.java:125-128 | The result is the instance while connected and null while disconnected. It is never null while connected. |
| Listener.NotificationListener.SetNotificationsChangedListener | app/src/main/java/org/zimmob/zimlx/notification/NotificationListener.java:130-136 | The observer is replaced. If a service object exists, exactly one full-refresh request is appended to the worker inbox and so to the in-flight messages; otherwise nothing is enqueued. |
| Listener.NotificationListener.RemoveNotificationsChangedListener | app/src/main/java/org/zimmob/zimlx/notification/NotificationListener.java:138-140 | The observer is cleared. Nothing else changes. |
| Listener.NotificationListener.OnListenerConnected | app/src/main/java/org/zimmob/zimlx/notification/NotificationListener.java:142-151 | The service becomes connected, and exactly one full-refresh request is appended to the worker inbox. |
| Listener.NotificationListener.OnListenerDisconnected | app/src/main/java/org/zimmob/zimlx/notification/NotificationListener.java:153-157 | The service becomes disconnected. Nothing is enqueued. |
| Listener.NotificationListener.OnNotificationPosted | app/src/main/java/org/zimmob/zimlx/notification/NotificationListener.java:159-164 | One posted message is appended to the worker inbox. It carries the notification's keys and the filter's verdict for it. |
| Listener.NotificationListener.OnNotificationRemoved | app/src/main/java/org/zimmob/zimlx/notification/NotificationListener.java:166-174 | One removed message is appended to the worker inbox. It carries the notification's keys. |
| Listener.NotificationListener.HandleWorkerMessage | app/src/main/java/org/zimmob/zimlx/notification/NotificationListener.java:63-87 | The oldest worker message is consumed. A posted or removed message goes to the UI inbox unchanged. A full refresh sends the refresh payload, and never fails while disconnected. If the connected query is denied, nothing is sent and the step reports failure. In-flight messages (the UI inbox, then the worker inbox) keep their order; only a denied refresh leaves them. |
| Listener.NotificationListener.HandleUiMessage | app/src/main/java/org/zimmob/zimlx/notification/NotificationListener.java:89-116 | The oldest UI message is consumed. It is delivered to the observer registered at that moment. With no observer it is dropped and nothing is delivered. The in-flight messages lose exactly their head. |
| Listener.Perform | app/src/main/java/org/zimmob/zimlx/notification/NotificationListener.java:63-174 | One callback or handler step, with the observer registered and the query allowed. What the observer receives, followed by what is then in flight, equals what was in flight before, followed by what the step enqueued. Every delivery goes to the registered observer. |
| Listener.RunSchedule | app/src/main/java/org/zimmob/zimlx/notification/NotificationListener.java:63-174 | The same for any sequence of steps: no message is lost, duplicated or overtaken between the platform callbacks and the observer. |
| Listener.RefreshPrecedesLaterPosts | app/src/main/java/org/zimmob/zimlx/notification/NotificationListener.java:130-136 | After registering an observer and then any schedule of steps, the observer has received, in order, a prefix of: the messages in flight at registration, then the full refresh the registration asked for, then everything enqueued afterwards. So that refresh reaches it before any later-posted event, and the observer stays registered. |

## Left out

- Handler and Looper threading: the inboxes are sequences that are handled one step at a time, and nothing runs concurrently.
- The platform's ranking lookup (`getCurrentRanking().getRanking`): each notification carries the ranking it is given. The reuse of the scratch `mTempRanking`, which keeps a stale ranking when a key is unknown, is not modelled.
- `getActiveNotifications()`: its result is an argument of the worker step.
- `getNotificationsForKeys`: it passes a platform lookup through and maps null to the empty list. The lookup is a platform call, so nothing is left to state.
- `PackageUserKey.fromNotification` and `NotificationKeyData.fromNotification`: their keys are opaque fields of the notification record.
- Logging in the `SecurityException` handler: the exception is a boolean argument of the worker step, and the step then sends nothing.
- `Bundle` extras lookup and `CharSequence`: the title and text are optional strings. Empty means absent or of length zero.
- Message codes 1, 2 and 3: they are the constructors of `Msg`.
- Several service objects: the instance field holds the latest one. Both inboxes stand for the worker and main loopers, so all handlers share them.
- RefreshPrecedesLaterPosts: proved for schedules in which the observer is not replaced or removed and every platform query is allowed. A denied query drops the refresh. Messages already in flight at registration reach the new observer first.
