/**
 * The notification bell: the loaded list and the unread counter the three handlers update,
 * the relative time shown beside each entry, and the badge on the bell.
 */
module NotificationsDropdown {
  import opened Numbers
  import opened Wrappers
  import Seqs

  /** One loaded notification; `id` is its document key. */
  datatype Entry = Entry(id: nat, title: string, message: string, read: bool, createdAt: int)

  // ---------------------------------------------------------------------------------------
  // What the handlers do to the list
  // ---------------------------------------------------------------------------------------

  /** `list.map(n => n._id === id ? { ...n, read: true } : n)`. */
  function MarkRead(s: seq<Entry>, id: nat): (r: seq<Entry>)
    ensures |r| == |s|
    ensures forall i :: 0 <= i < |s| ==> r[i] == s[i].(read := r[i].read)
    ensures forall i :: 0 <= i < |s| ==> (r[i].read <==> s[i].read || s[i].id == id)
  {
    seq(|s|, i requires 0 <= i < |s| => if s[i].id == id then s[i].(read := true) else s[i])
  }

  /** `list.map(n => ({ ...n, read: true }))`. */
  function MarkAllRead(s: seq<Entry>): (r: seq<Entry>)
    ensures |r| == |s|
    ensures forall i :: 0 <= i < |s| ==> r[i] == s[i].(read := true)
  {
    seq(|s|, i requires 0 <= i < |s| => s[i].(read := true))
  }

  predicate Keeps(id: nat, n: Entry) {
    n.id != id
  }

  /** `list.filter(n => n._id !== id)`: exactly the other entries, in their order. */
  function Remove(s: seq<Entry>, id: nat): (r: seq<Entry>)
    ensures forall n: Entry :: n in r <==> n in s && n.id != id
    ensures Seqs.IsSubsequence(r, s)
    ensures forall n: Entry :: n.id != id ==> multiset(r)[n] == multiset(s)[n]
  {
    Seqs.Filter(s, n => Keeps(id, n))
  }

  /** `list.find(n => n._id === id && !n.read)` found something. */
  predicate WasUnread(s: seq<Entry>, id: nat) {
    exists i :: 0 <= i < |s| && s[i].id == id && !s[i].read
  }

  /** `Math.max(0, count - 1)`. */
  function Decrement(count: int): (r: int)
    ensures r >= 0
    ensures count >= 1 ==> r == count - 1
    ensures count <= 1 ==> r == 0
  {
    Max(0, count - 1)
  }

  // ---------------------------------------------------------------------------------------
  // The counter against the list
  // ---------------------------------------------------------------------------------------

  function CountUnread(s: seq<Entry>): (c: nat)
    ensures c <= |s|
    ensures c == 0 <==> forall i :: 0 <= i < |s| ==> s[i].read
  {
    if s == [] then 0 else (if s[0].read then 0 else 1) + CountUnread(s[1..])
  }

  predicate IdsUnique(s: seq<Entry>) {
    forall i, j :: 0 <= i < j < |s| ==> s[i].id != s[j].id
  }

  lemma TailFacts(s: seq<Entry>, id: nat)
    requires s != [] && IdsUnique(s)
    ensures IdsUnique(s[1..])
    ensures WasUnread(s, id) <==> (s[0].id == id && !s[0].read) || WasUnread(s[1..], id)
    ensures s[0].id == id ==> !WasUnread(s[1..], id)
  {
    if WasUnread(s, id) {
      var i :| 0 <= i < |s| && s[i].id == id && !s[i].read;
      if i > 0 {
        assert s[1..][i - 1] == s[i];
      }
    }
    if WasUnread(s[1..], id) {
      var i :| 0 <= i < |s[1..]| && s[1..][i].id == id && !s[1..][i].read;
      assert s[i + 1] == s[1..][i];
    }
  }

  /** Marking one entry read lowers the unread count by one exactly when it was unread. */
  lemma {:induction false} CountMarkRead(s: seq<Entry>, id: nat)
    requires IdsUnique(s)
    ensures CountUnread(MarkRead(s, id)) == CountUnread(s) - (if WasUnread(s, id) then 1 else 0)
  {
    if s != [] {
      TailFacts(s, id);
      var r := MarkRead(s, id);
      assert r[1..] == MarkRead(s[1..], id);
      CountMarkRead(s[1..], id);
    }
  }

  /** Deleting an entry lowers the unread count by one exactly when it was unread. */
  lemma {:induction false} CountRemove(s: seq<Entry>, id: nat)
    requires IdsUnique(s)
    ensures CountUnread(Remove(s, id)) == CountUnread(s) - (if WasUnread(s, id) then 1 else 0)
  {
    if s != [] {
      TailFacts(s, id);
      CountRemove(s[1..], id);
      var rest := Remove(s[1..], id);
      assert Remove(s, id) == if Keeps(id, s[0]) then [s[0]] + rest else rest;
      if Keeps(id, s[0]) {
        assert ([s[0]] + rest)[1..] == rest;
      }
    }
  }

  /**
   * The counter stays equal to the number of unread entries in the list when the handlers
   * are used as the dropdown wires them: "mark as read" is shown only on unread entries.
   */
  lemma HandlersKeepCountExact(s: seq<Entry>, count: int, id: nat)
    requires IdsUnique(s) && count == CountUnread(s)
    ensures WasUnread(s, id) ==> Decrement(count) == CountUnread(MarkRead(s, id))
    ensures CountUnread(MarkAllRead(s)) == 0
    ensures (if WasUnread(s, id) then Decrement(count) else count) == CountUnread(Remove(s, id))
  {
    CountMarkRead(s, id);
    CountRemove(s, id);
    CountMarkAllRead(s);
    if WasUnread(s, id) {
      UnreadIsCounted(s, id);
    }
  }

  /** After "mark all as read" nothing is unread. */
  lemma CountMarkAllRead(s: seq<Entry>)
    ensures CountUnread(MarkAllRead(s)) == 0
  {
    var all := MarkAllRead(s);
    assert forall i :: 0 <= i < |all| ==> all[i].read;
  }

  /** An unread entry is counted. */
  lemma UnreadIsCounted(s: seq<Entry>, id: nat)
    requires WasUnread(s, id)
    ensures CountUnread(s) >= 1
  {
    var i :| 0 <= i < |s| && s[i].id == id && !s[i].read;
    assert !s[i].read;
  }

  // ---------------------------------------------------------------------------------------
  // The dropdown's state
  // ---------------------------------------------------------------------------------------

  /** The loaded notifications and the unread counter the bell shows. */
  class Dropdown {
    var notifications: seq<Entry>
    var unreadCount: int

    /** The counter never goes negative. */
    predicate Valid()
      reads this
    {
      unreadCount >= 0
    }

    constructor()
      ensures notifications == [] && unreadCount == 0 && Valid()
    {
      notifications := [];
      unreadCount := 0;
    }

    /** A fetch replaces both with what the server returned. */
    method Load(entries: seq<Entry>, count: nat)
      modifies this
      ensures notifications == entries && unreadCount == count && Valid()
    {
      notifications := entries;
      unreadCount := count;
    }

    /** `handleMarkAsRead` after the server has accepted the request. */
    method MarkAsRead(id: nat)
      requires Valid()
      modifies this
      ensures Valid()
      ensures notifications == MarkRead(old(notifications), id)
      ensures unreadCount == Decrement(old(unreadCount))
    {
      notifications := MarkRead(notifications, id);
      unreadCount := Decrement(unreadCount);
    }

    /** `handleMarkAllAsRead` after the server has accepted the request. */
    method MarkAllAsRead()
      requires Valid()
      modifies this
      ensures Valid()
      ensures notifications == MarkAllRead(old(notifications)) && unreadCount == 0
    {
      notifications := MarkAllRead(notifications);
      unreadCount := 0;
    }

    /** `handleDelete` after the server has accepted the request. */
    method Delete(id: nat)
      requires Valid()
      modifies this
      ensures Valid()
      ensures notifications == Remove(old(notifications), id)
      ensures unreadCount == if WasUnread(old(notifications), id) then Decrement(old(unreadCount)) else old(unreadCount)
    {
      var wasUnread := WasUnread(notifications, id);
      notifications := Remove(notifications, id);
      if wasUnread {
        unreadCount := Decrement(unreadCount);
      }
    }
  }

  // ---------------------------------------------------------------------------------------
  // Relative time and badge
  // ---------------------------------------------------------------------------------------

  const Minute := 60000
  const Hour := 60 * Minute
  const Day := 24 * Hour
  const Week := 7 * Day

  /** Whole minutes, then whole hours of those, are the whole hours of the milliseconds. */
  lemma HoursOfMinutes(x: int)
    ensures (x / Minute) / 60 == x / Hour
  {
    var q, r := x / Minute, x % Minute;
    var h, r2 := q / 60, q % 60;
    assert x == Hour * h + (Minute * r2 + r);
    assert 0 <= Minute * r2 + r < Hour;
  }

  /** Whole hours, then whole days of those, are the whole days of the milliseconds. */
  lemma DaysOfHours(x: int)
    ensures (x / Hour) / 24 == x / Day
  {
    var q, r := x / Hour, x % Hour;
    var d, r2 := q / 24, q % 24;
    assert x == Day * d + (Hour * r2 + r);
    assert 0 <= Hour * r2 + r < Day;
  }

  /**
   * `formatTime`: `diff` is the age in milliseconds and `dateText` the locale date string of
   * the creation time, shown from a week on.
   */
  function FormatTime(diff: int, dateText: string): (r: string)
    ensures diff < Minute ==> r == "Just now"
    ensures Minute <= diff < Hour ==> r == NatToString(diff / Minute) + "m ago"
    ensures Hour <= diff < Day ==> r == NatToString(diff / Hour) + "h ago"
    ensures Day <= diff < Week ==> r == NatToString(diff / Day) + "d ago"
    ensures Week <= diff ==> r == dateText
  {
    var minutes := diff / 60000;
    var hours := minutes / 60;
    var days := hours / 24;
    HoursOfMinutes(diff);
    DaysOfHours(diff);
    if minutes < 1 then "Just now"
    else if minutes < 60 then IntToString(minutes) + "m ago"
    else if hours < 24 then IntToString(hours) + "h ago"
    else if days < 7 then IntToString(days) + "d ago"
    else dateText
  }

  /** The number on the bell: hidden at zero, capped at "9+". */
  function BadgeText(unreadCount: int): (r: Option<string>)
    ensures r.None? <==> unreadCount <= 0
    ensures unreadCount > 9 ==> r == Some("9+")
    ensures 0 < unreadCount <= 9 ==> r == Some([DigitChar(unreadCount)])
  {
    if unreadCount <= 0 then None
    else if unreadCount > 9 then Some("9+")
    else Some(IntToString(unreadCount))
  }
}
