/**
 * The filter of NotificationListener: the predicate shouldBeFilteredOut and the
 * method filterNotifications that drops every notification the predicate hides.
 */
module NotificationFilter {

  import opened Wrappers

  /** Bits of android.app.Notification.flags that the predicate inspects. */
  const FLAG_ONGOING_EVENT: bv32 := 0x0000_0002
  const FLAG_GROUP_SUMMARY: bv32 := 0x0000_0200

  /** Id of the platform's default, legacy "Miscellaneous" channel. */
  const DEFAULT_CHANNEL_ID: string := "miscellaneous"

  /** Identity of the posting package and user (derived outside this model). */
  datatype PackageUserKey = PackageUserKey(packageName: string, userId: int)

  /** Identity of one notification (derived outside this model). */
  datatype NotificationKeyData = NotificationKeyData(notificationKey: string)

  /** What the platform's ranking lookup reports for a notification. */
  datatype Ranking = Ranking(canShowBadge: bool, channelId: string)

  /**
   * A posted notification, reduced to what the listener reads: its keys, the
   * ranking the platform reports for it, its flag word, and the title and text
   * extras (None when the extra is absent).
   */
  datatype StatusBarNotification = StatusBarNotification(
    packageUserKey: PackageUserKey,
    keyData: NotificationKeyData,
    ranking: Ranking,
    flags: bv32,
    title: Option<string>,
    text: Option<string>)

  predicate HasFlag(flags: bv32, flag: bv32) {
    (flags & flag) != 0
  }

  /** TextUtils.isEmpty: absent or of length zero. */
  predicate IsEmptyText(t: Option<string>) {
    t.None? || |t.value| == 0
  }

  predicate IsGroupHeader(n: StatusBarNotification) {
    HasFlag(n.flags, FLAG_GROUP_SUMMARY)
  }

  predicate MissingTitleAndText(n: StatusBarNotification) {
    IsEmptyText(n.title) && IsEmptyText(n.text)
  }

  // The rules of the decision table, each read on its own.

  /** On Oreo and later, a notification whose ranking forbids a badge is hidden. */
  predicate BadgeForbidden(atLeastOreo: bool, n: StatusBarNotification) {
    atLeastOreo && !n.ranking.canShowBadge
  }

  /**
   * An ongoing notification is hidden before Oreo always, and on Oreo and later
   * only when it is in the default channel.
   */
  predicate HiddenOngoing(atLeastOreo: bool, n: StatusBarNotification) {
    HasFlag(n.flags, FLAG_ONGOING_EVENT) && (!atLeastOreo || n.ranking.channelId == DEFAULT_CHANNEL_ID)
  }

  /** A group header, or a notification with neither title nor text, is hidden. */
  predicate Placeholder(n: StatusBarNotification) {
    IsGroupHeader(n) || MissingTitleAndText(n)
  }

  /**
   * shouldBeFilteredOut: a first-match decision table. Its contract says that
   * each rule hides the notification whatever the others say, and that a
   * notification no rule hides is kept.
   */
  function ShouldBeFilteredOut(atLeastOreo: bool, n: StatusBarNotification): (hidden: bool)
    ensures BadgeForbidden(atLeastOreo, n) ==> hidden
    ensures HiddenOngoing(atLeastOreo, n) ==> hidden
    ensures IsGroupHeader(n) ==> hidden
    ensures MissingTitleAndText(n) ==> hidden
    ensures hidden ==> BadgeForbidden(atLeastOreo, n) || HiddenOngoing(atLeastOreo, n) || Placeholder(n)
  {
    if atLeastOreo && !n.ranking.canShowBadge then
      true
    else if atLeastOreo && n.ranking.channelId == DEFAULT_CHANNEL_ID then
      if HasFlag(n.flags, FLAG_ONGOING_EVENT) then true
      else IsGroupHeader(n) || MissingTitleAndText(n)
    else if !atLeastOreo && HasFlag(n.flags, FLAG_ONGOING_EVENT) then
      true
    else
      IsGroupHeader(n) || MissingTitleAndText(n)
  }

  /**
   * On Oreo and later, outside the default channel, marking a notification
   * ongoing changes nothing; before Oreo it always hides it.
   */
  lemma OngoingFlagByVersion(n: StatusBarNotification)
    ensures n.ranking.channelId != DEFAULT_CHANNEL_ID ==>
      ShouldBeFilteredOut(true, n.(flags := n.flags | FLAG_ONGOING_EVENT)) == ShouldBeFilteredOut(true, n)
    ensures ShouldBeFilteredOut(false, n.(flags := n.flags | FLAG_ONGOING_EVENT))
  {
  }

  /** The notifications filterNotifications keeps, in their original order. */
  function Kept(atLeastOreo: bool, s: seq<StatusBarNotification>): (r: seq<StatusBarNotification>)
    ensures |r| <= |s|
  {
    if s == [] then []
    else
      var last := s[|s| - 1];
      Kept(atLeastOreo, s[..|s| - 1]) + (if ShouldBeFilteredOut(atLeastOreo, last) then [] else [last])
  }

  /** The positions of the kept notifications in the input, in increasing order. */
  function KeptIndices(atLeastOreo: bool, s: seq<StatusBarNotification>): seq<int>
  {
    if s == [] then []
    else
      KeptIndices(atLeastOreo, s[..|s| - 1]) + (if ShouldBeFilteredOut(atLeastOreo, s[|s| - 1]) then [] else [|s| - 1])
  }

  /** The set of positions the first loop of filterNotifications collects. */
  function FilteredIndices(atLeastOreo: bool, s: seq<StatusBarNotification>): set<int>
  {
    set i | 0 <= i < |s| && ShouldBeFilteredOut(atLeastOreo, s[i])
  }

  /** r picks the elements of s at the strictly increasing positions idx. */
  ghost predicate Selects<T>(s: seq<T>, r: seq<T>, idx: seq<int>) {
    && |idx| == |r|
    && (forall k :: 0 <= k < |idx| ==> 0 <= idx[k] < |s| && r[k] == s[idx[k]])
    && (forall k, l :: 0 <= k < l < |idx| ==> idx[k] < idx[l])
  }

  /**
   * The filtered list is an order-preserving subsequence of the input that
   * takes exactly the positions whose notification is not hidden.
   */
  lemma {:induction false} KeptIsOrderedSelection(atLeastOreo: bool, s: seq<StatusBarNotification>)
    ensures Selects(s, Kept(atLeastOreo, s), KeptIndices(atLeastOreo, s))
    ensures forall i :: 0 <= i < |s| ==> (i in KeptIndices(atLeastOreo, s) <==> !ShouldBeFilteredOut(atLeastOreo, s[i]))
  {
    if s != [] {
      var p := s[..|s| - 1];
      KeptIsOrderedSelection(atLeastOreo, p);
      var idx := KeptIndices(atLeastOreo, p);
      assert forall k :: 0 <= k < |idx| ==> idx[k] < |p|;
    }
  }

  /** A notification is in the filtered list exactly when it is in the input and not hidden. */
  lemma {:induction false} KeptMembership(atLeastOreo: bool, s: seq<StatusBarNotification>, x: StatusBarNotification)
    ensures x in Kept(atLeastOreo, s) <==> x in s && !ShouldBeFilteredOut(atLeastOreo, x)
  {
    if s != [] {
      var p := s[..|s| - 1];
      KeptMembership(atLeastOreo, p, x);
      assert s == p + [s[|s| - 1]];
    }
  }

  /** The length of the filtered list is the input length less the number of hidden positions. */
  lemma {:induction false} KeptLength(atLeastOreo: bool, s: seq<StatusBarNotification>)
    ensures |Kept(atLeastOreo, s)| == |s| - |FilteredIndices(atLeastOreo, s)|
  {
    if s == [] {
      assert FilteredIndices(atLeastOreo, s) == {};
    } else {
      var p, n := s[..|s| - 1], |s| - 1;
      KeptLength(atLeastOreo, p);
      var before := FilteredIndices(atLeastOreo, p);
      assert n !in before;
      if ShouldBeFilteredOut(atLeastOreo, s[n]) {
        assert FilteredIndices(atLeastOreo, s) == before + {n};
      } else {
        assert FilteredIndices(atLeastOreo, s) == before;
      }
    }
  }

  /** Filtering a concatenation filters each part. */
  lemma {:induction false} KeptAppend(atLeastOreo: bool, a: seq<StatusBarNotification>, b: seq<StatusBarNotification>)
    ensures Kept(atLeastOreo, a + b) == Kept(atLeastOreo, a) + Kept(atLeastOreo, b)
  {
    if b != [] {
      var q := b[..|b| - 1];
      KeptAppend(atLeastOreo, a, q);
      assert (a + b)[..|a + b| - 1] == a + q;
    } else {
      assert a + b == a;
    }
  }

  /** Filtering an already filtered list removes nothing more. */
  lemma {:induction false} KeptIdempotent(atLeastOreo: bool, s: seq<StatusBarNotification>)
    ensures Kept(atLeastOreo, Kept(atLeastOreo, s)) == Kept(atLeastOreo, s)
  {
    if s != [] {
      var p, last := s[..|s| - 1], s[|s| - 1];
      KeptIdempotent(atLeastOreo, p);
      var tail := if ShouldBeFilteredOut(atLeastOreo, last) then [] else [last];
      KeptAppend(atLeastOreo, Kept(atLeastOreo, p), tail);
      if tail != [] {
        assert Kept(atLeastOreo, tail) == Kept(atLeastOreo, []) + tail;
      }
    }
  }

  /**
   * filterNotifications: null in, null out; otherwise a first loop collects the
   * positions to drop and a second copies the others, in order.
   */
  method FilterNotifications(atLeastOreo: bool, notifications: array?<StatusBarNotification>)
    returns (filtered: Option<seq<StatusBarNotification>>)
    ensures filtered.None? <==> notifications == null
    ensures notifications != null ==> filtered == Some(Kept(atLeastOreo, notifications[..]))
    ensures notifications != null ==>
      |filtered.value| == notifications.Length - |FilteredIndices(atLeastOreo, notifications[..])|
  {
    if notifications == null {
      return None;
    }
    var removed: set<int> := {};
    var i := 0;
    while i < notifications.Length
      invariant 0 <= i <= notifications.Length
      invariant removed == set j | 0 <= j < i && ShouldBeFilteredOut(atLeastOreo, notifications[j])
    {
      if ShouldBeFilteredOut(atLeastOreo, notifications[i]) {
        removed := removed + {i};
      }
      i := i + 1;
    }
    var kept: seq<StatusBarNotification> := [];
    i := 0;
    while i < notifications.Length
      invariant 0 <= i <= notifications.Length
      invariant kept == Kept(atLeastOreo, notifications[..i])
    {
      assert notifications[..i + 1][..i] == notifications[..i];
      if i !in removed {
        kept := kept + [notifications[i]];
      }
      i := i + 1;
    }
    assert notifications[..notifications.Length] == notifications[..];
    KeptLength(atLeastOreo, notifications[..]);
    return Some(kept);
  }

  /**
   * Of three active notifications (a group header, one without text, and one
   * saying "Hello"), only the last is kept.
   */
  lemma ThreeNotificationScenario(atLeastOreo: bool, key: PackageUserKey, ranking: Ranking)
    requires ranking.canShowBadge && ranking.channelId != DEFAULT_CHANNEL_ID
    ensures
      var header := StatusBarNotification(key, NotificationKeyData("a"), ranking, FLAG_GROUP_SUMMARY, Some("Group"), None);
      var blank := StatusBarNotification(key, NotificationKeyData("b"), ranking, 0, None, Some(""));
      var hello := StatusBarNotification(key, NotificationKeyData("c"), ranking, 0, None, Some("Hello"));
      Kept(atLeastOreo, [header, blank, hello]) == [hello]
  {
    var header := StatusBarNotification(key, NotificationKeyData("a"), ranking, FLAG_GROUP_SUMMARY, Some("Group"), None);
    var blank := StatusBarNotification(key, NotificationKeyData("b"), ranking, 0, None, Some(""));
    var hello := StatusBarNotification(key, NotificationKeyData("c"), ranking, 0, None, Some("Hello"));
    assert ShouldBeFilteredOut(atLeastOreo, header) && ShouldBeFilteredOut(atLeastOreo, blank);
    assert [header, blank, hello][..2] == [header, blank];
    assert [header, blank][..1] == [header];
    assert Kept(atLeastOreo, [header, blank]) == [];
  }
}
