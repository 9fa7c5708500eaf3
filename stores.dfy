/**
 * The frontend's state: the per-session caches (terminal text and SFTP panel
 * layout), the views derived from the host, session and macro lists, and the
 * update functions of the terminal-output and notification lists.
 *
 * A frontend host is the backend's host record; its last use is a time in
 * milliseconds.
 */
module Stores {
  import opened Outcomes
  import opened Models
  import opened SeqUtil

  /** A session as the frontend lists it: its ID, the ID of its host, and whether it is active. */
  datatype UiSession = UiSession(id: string, hostId: string, isActive: bool)

  /** A macro: a named list of commands, restricted to some hosts (none listed means every host). */
  datatype Macro = Macro(id: string, macroLabel: string, commands: seq<string>, hostIds: seq<string>)

  /** Where a session's SFTP panel is shown. */
  datatype Layout = Bottom | Top | Fullscreen | Hidden

  datatype NotificationKind = Success | Failure | Warning | Info

  /** A notification as the caller describes it, before it gets its ID. */
  datatype NotificationDraft = NotificationDraft(
    kind: NotificationKind, title: string, message: Option<string>, duration: Option<int>)

  datatype Notification = Notification(
    id: string, kind: NotificationKind, title: string, message: Option<string>, duration: Option<int>)

  /** How long a notification stays when its duration is missing or zero, in milliseconds. */
  const DefaultNotificationDuration: int := 5000

  /** The group that tagless hosts are listed under. */
  const UntaggedGroup: string := "Untagged"

  // ---------------------------------------------------------------- caches

  /** Terminal text cached per session ID. */
  class SessionCache {
    var cache: map<string, string>

    constructor ()
      ensures cache == map[]
    {
      cache := map[];
    }

    /** Stores `content` for `sessionId`, replacing what was there; a later `Get` returns it. */
    method Set(sessionId: string, content: string)
      modifies this
      ensures cache == old(cache)[sessionId := content]
      ensures cache[sessionId] == content
      ensures forall other :: other in old(cache) && other != sessionId ==> other in cache && cache[other] == old(cache)[other]
    {
      cache := cache[sessionId := content];
    }

    /** The content stored for `sessionId`, or nothing when none is. */
    method Get(sessionId: string) returns (r: Option<string>)
      ensures r.Some? <==> sessionId in cache
      ensures r.Some? ==> r.value == cache[sessionId]
    {
      if sessionId in cache {
        r := Some(cache[sessionId]);
      } else {
        r := None;
      }
    }

    method Has(sessionId: string) returns (r: bool)
      ensures r <==> sessionId in cache
    {
      r := sessionId in cache;
    }

    /** Forgets `sessionId` only. */
    method Delete(sessionId: string)
      modifies this
      ensures cache == old(cache) - {sessionId}
      ensures sessionId !in cache
    {
      cache := cache - {sessionId};
    }

    method Clear()
      modifies this
      ensures cache == map[]
    {
      cache := map[];
    }
  }

  /** The SFTP panel layout chosen per session ID. */
  class SessionSFTPLayouts {
    var layouts: map<string, Layout>

    constructor ()
      ensures layouts == map[]
    {
      layouts := map[];
    }

    method Set(sessionId: string, layout: Layout)
      modifies this
      ensures layouts == old(layouts)[sessionId := layout]
    {
      layouts := layouts[sessionId := layout];
    }

    /** The stored layout, or `Hidden` for a session without one. */
    method Get(sessionId: string) returns (r: Layout)
      ensures sessionId in layouts ==> r == layouts[sessionId]
      ensures sessionId !in layouts ==> r == Hidden
    {
      if sessionId in layouts {
        r := layouts[sessionId];
      } else {
        r := Hidden;
      }
    }

    method Delete(sessionId: string)
      modifies this
      ensures layouts == old(layouts) - {sessionId}
    {
      layouts := layouts - {sessionId};
    }

    method Clear()
      modifies this
      ensures layouts == map[]
    {
      layouts := map[];
    }
  }

  // ---------------------------------------------------------------- active session

  /** The position of the first session with ID `id`, if any. */
  function FirstWithId(sessions: seq<UiSession>, id: string): (r: Option<nat>)
    ensures r.None? <==> forall i :: 0 <= i < |sessions| ==> sessions[i].id != id
    ensures r.Some? ==> r.value < |sessions| && sessions[r.value].id == id
    ensures r.Some? ==> forall i :: 0 <= i < r.value ==> sessions[i].id != id
  {
    if sessions == [] then None
    else if sessions[0].id == id then Some(0)
    else
      match FirstWithId(sessions[1..], id)
      case None => None
      case Some(i) => Some(i + 1)
  }

  /**
   * The session of the active tab: none when no tab is active (no tab, or the
   * empty tab ID), otherwise the first listed session with the tab's ID, if any.
   */
  function ActiveSession(sessions: seq<UiSession>, activeTab: Option<string>): (r: Option<UiSession>)
    ensures activeTab.None? || activeTab == Some("") ==> r.None?
    ensures r.Some? ==> r.value in sessions && Some(r.value.id) == activeTab
    ensures activeTab.Some? && activeTab.value != "" && (exists i :: 0 <= i < |sessions| && sessions[i].id == activeTab.value) ==>
      r.Some? && exists i :: 0 <= i < |sessions| && sessions[i] == r.value
                             && forall j :: 0 <= j < i ==> sessions[j].id != activeTab.value
  {
    if activeTab.None? || activeTab.value == "" then None
    else
      match FirstWithId(sessions, activeTab.value)
      case None => None
      case Some(i) => Some(sessions[i])
  }

  // ---------------------------------------------------------------- grouping by tag

  /** `group` as it stands in `grouped`; a group not yet created is empty. */
  function GroupOf(grouped: map<string, seq<Host>>, group: string): seq<Host> {
    if group in grouped then grouped[group] else []
  }

  /** `grouped` with `host` pushed onto the end of `group`, creating the group if needed. */
  function Push(grouped: map<string, seq<Host>>, group: string, host: Host): map<string, seq<Host>> {
    grouped[group := GroupOf(grouped, group) + [host]]
  }

  /** `host` pushed onto the group of each of `tags`, in order. */
  function PushTags(grouped: map<string, seq<Host>>, tags: seq<string>, host: Host): map<string, seq<Host>> {
    if tags == [] then grouped
    else Push(PushTags(grouped, tags[..|tags| - 1], host), tags[|tags| - 1], host)
  }

  /** The grouping after `host` is listed: under "Untagged" if it has no tags, under each tag otherwise. */
  function AddHost(grouped: map<string, seq<Host>>, host: Host): map<string, seq<Host>> {
    if |host.tags| == 0 then Push(grouped, UntaggedGroup, host) else PushTags(grouped, host.tags, host)
  }

  /** The grouping the host list produces, host by host in list order. */
  function Grouped(hosts: seq<Host>): map<string, seq<Host>> {
    if hosts == [] then map[] else AddHost(Grouped(hosts[..|hosts| - 1]), hosts[|hosts| - 1])
  }

  /** `host` belongs to `group`: the group is one of its tags, or "Untagged" if it has none. */
  predicate InGroup(host: Host, group: string) {
    if |host.tags| == 0 then group == UntaggedGroup else group in host.tags
  }

  /** How many times `host` is listed under `group`: once per occurrence of the tag. */
  function Copies(host: Host, group: string): (n: nat)
    ensures n > 0 <==> InGroup(host, group)
  {
    if |host.tags| == 0 then (if group == UntaggedGroup then 1 else 0) else Count(host.tags, group)
  }

  /** The reference contents of `group`: each host in list order, repeated once per matching tag. */
  function Members(hosts: seq<Host>, group: string): (r: seq<Host>)
    ensures forall i :: 0 <= i < |r| ==> r[i] in hosts && InGroup(r[i], group)
    ensures forall i :: 0 <= i < |hosts| && InGroup(hosts[i], group) ==> hosts[i] in r
  {
    if hosts == [] then []
    else
      var pre := hosts[..|hosts| - 1];
      var last := hosts[|hosts| - 1];
      var r := Members(pre, group) + Repeat(last, Copies(last, group));
      assert forall i :: 0 <= i < |hosts| - 1 ==> hosts[i] == pre[i];
      assert Copies(last, group) > 0 ==> r[|r| - 1] == last;
      r
  }

  lemma {:induction false} PushTagsGroupOf(grouped: map<string, seq<Host>>, tags: seq<string>, host: Host, group: string)
    ensures group in PushTags(grouped, tags, host) <==> group in grouped || group in tags
    ensures GroupOf(PushTags(grouped, tags, host), group) == GroupOf(grouped, group) + Repeat(host, Count(tags, group))
  {
    if tags != [] {
      var pre := tags[..|tags| - 1];
      PushTagsGroupOf(grouped, pre, host, group);
      if tags[|tags| - 1] == group {
        assert Repeat(host, Count(tags, group)) == Repeat(host, Count(pre, group)) + [host];
      }
    }
  }

  /**
   * The grouping the loop builds is the reference grouping: exactly the
   * groups with at least one member exist, and each lists its members in host
   * order, a host once per matching tag.
   */
  lemma {:induction false} GroupedIsMembers(hosts: seq<Host>, group: string)
    ensures group in Grouped(hosts) <==> Members(hosts, group) != []
    ensures GroupOf(Grouped(hosts), group) == Members(hosts, group)
  {
    if hosts != [] {
      var pre := hosts[..|hosts| - 1];
      var last := hosts[|hosts| - 1];
      GroupedIsMembers(pre, group);
      var g := Grouped(pre);
      if |last.tags| == 0 {
        if group == UntaggedGroup {
          assert Repeat(last, 1) == [last];
        }
      } else {
        PushTagsGroupOf(g, last.tags, last, group);
      }
    }
  }

  /**
   * Grouping by tag: `host` is listed under `group` exactly when it belongs to
   * it, every tagless host under "Untagged" and every tagged host under each
   * of its tags.
   */
  lemma GroupedMembership(hosts: seq<Host>, group: string, host: Host)
    ensures host in GroupOf(Grouped(hosts), group) <==> host in hosts && InGroup(host, group)
  {
    GroupedIsMembers(hosts, group);
  }

  /**
   * When no host repeats a tag, each group lists exactly the hosts that belong
   * to it, each once, in host order.
   */
  lemma {:induction false} GroupedKeepsOrder(hosts: seq<Host>, group: string)
    requires forall i :: 0 <= i < |hosts| ==> NoDuplicates(hosts[i].tags)
    ensures GroupOf(Grouped(hosts), group) == Filter(hosts, h => InGroup(h, group))
    ensures IsSubsequence(GroupOf(Grouped(hosts), group), hosts)
  {
    GroupedIsMembers(hosts, group);
    MembersWithoutDuplicateTags(hosts, group);
    FilterIsSubsequence(hosts, h => InGroup(h, group));
  }

  lemma {:induction false} MembersWithoutDuplicateTags(hosts: seq<Host>, group: string)
    requires forall i :: 0 <= i < |hosts| ==> NoDuplicates(hosts[i].tags)
    ensures Members(hosts, group) == Filter(hosts, h => InGroup(h, group))
  {
    if hosts != [] {
      var pre := hosts[..|hosts| - 1];
      var last := hosts[|hosts| - 1];
      MembersWithoutDuplicateTags(pre, group);
      if |last.tags| != 0 {
        CountWithoutDuplicates(last.tags, group);
      }
      if InGroup(last, group) {
        assert Repeat(last, Copies(last, group)) == [last];
      }
    }
  }

  /** Groups the hosts by tag, building the record host by host and tag by tag. */
  method HostsGroupedByTags(hosts: seq<Host>) returns (grouped: map<string, seq<Host>>)
    ensures grouped == Grouped(hosts)
    ensures forall group :: group in grouped ==> grouped[group] == Members(hosts, group) && grouped[group] != []
  {
    grouped := map[];
    for i := 0 to |hosts|
      invariant grouped == Grouped(hosts[..i])
    {
      var host := hosts[i];
      assert hosts[..i + 1][..i] == hosts[..i];
      if |host.tags| == 0 {
        grouped := Push(grouped, UntaggedGroup, host);
      } else {
        for j := 0 to |host.tags|
          invariant grouped == PushTags(Grouped(hosts[..i]), host.tags[..j], host)
        {
          assert host.tags[..j + 1][..j] == host.tags[..j];
          grouped := Push(grouped, host.tags[j], host);
        }
        assert host.tags[..|host.tags|] == host.tags;
      }
    }
    assert hosts[..|hosts|] == hosts;
    forall group | group in grouped
      ensures grouped[group] == Members(hosts, group) && grouped[group] != []
    {
      GroupedIsMembers(hosts, group);
    }
  }

  // ---------------------------------------------------------------- recent hosts

  /** The host's last-use time, 0 when it has none (the sort key). */
  function UsedAt(host: Host): int {
    if host.lastUsed.Some? then host.lastUsed.value else 0
  }

  predicate HasBeenUsed(host: Host) {
    host.lastUsed.Some?
  }

  /** Newest first: last-use times never increase along the sequence. */
  predicate NewestFirst(hosts: seq<Host>) {
    forall i, j :: 0 <= i < j < |hosts| ==> UsedAt(hosts[i]) >= UsedAt(hosts[j])
  }

  /** `host` placed into newest-first `sorted` ahead of every host used no later than it. */
  function InsertNewest(host: Host, sorted: seq<Host>): (r: seq<Host>)
    requires NewestFirst(sorted)
    ensures NewestFirst(r)
    ensures multiset(r) == multiset(sorted) + multiset{host}
    ensures r != [] && (r[0] == host || (sorted != [] && r[0] == sorted[0]))
  {
    if sorted == [] || UsedAt(sorted[0]) <= UsedAt(host) then
      PrependNewest(host, sorted);
      [host] + sorted
    else
      var rest := InsertNewest(host, sorted[1..]);
      assert sorted == [sorted[0]] + sorted[1..];
      PrependNewest(sorted[0], rest);
      [sorted[0]] + rest
  }

  /** A host used no earlier than the head of a newest-first list can go in front of it. */
  lemma PrependNewest(host: Host, sorted: seq<Host>)
    requires NewestFirst(sorted)
    requires sorted == [] || UsedAt(host) >= UsedAt(sorted[0])
    ensures NewestFirst([host] + sorted)
  {
    var r := [host] + sorted;
    forall i, j | 0 <= i < j < |r|
      ensures UsedAt(r[i]) >= UsedAt(r[j])
    {
      if i == 0 {
        assert r[j] == sorted[j - 1];
      } else {
        assert r[i] == sorted[i - 1] && r[j] == sorted[j - 1];
      }
    }
  }

  /**
   * The hosts ordered newest first; among equally recent hosts the earlier
   * listed comes first (the stable sort JavaScript engines use).
   */
  function SortNewest(hosts: seq<Host>): (r: seq<Host>)
    ensures NewestFirst(r)
    ensures multiset(r) == multiset(hosts)
  {
    if hosts == [] then []
    else
      assert hosts == [hosts[0]] + hosts[1..];
      InsertNewest(hosts[0], SortNewest(hosts[1..]))
  }

  /** How many recently used hosts are shown. */
  const RecentLimit: nat := 5

  /** The recently used hosts: those with a last use, newest first, at most five. */
  function RecentHosts(hosts: seq<Host>): (r: seq<Host>)
    ensures |r| <= RecentLimit
  {
    Take(SortNewest(Filter(hosts, HasBeenUsed)), RecentLimit)
  }

  /** A newest-first prefix is newest first, and nothing after it is newer than anything in it. */
  lemma NewestPrefix(s: seq<Host>, m: nat)
    requires NewestFirst(s) && m <= |s|
    ensures NewestFirst(s[..m])
    ensures multiset(s[..m]) <= multiset(s)
    ensures forall x | x in multiset(s) - multiset(s[..m]) :: forall i :: 0 <= i < m ==> UsedAt(s[i]) >= UsedAt(x)
  {
    var rest := s[m..];
    assert s == s[..m] + rest;
    assert multiset(s) == multiset(s[..m]) + multiset(rest);
    forall x | x in multiset(s) - multiset(s[..m])
      ensures forall i :: 0 <= i < m ==> UsedAt(s[i]) >= UsedAt(x)
    {
      assert x in multiset(rest);
      var j :| 0 <= j < |rest| && rest[j] == x;
      assert s[m + j] == x;
    }
  }

  /**
   * The recent-hosts list holds only hosts with a last use, newest first, as
   * many as there are up to five, and they are the newest: every used host
   * left out was used no later than each one shown.
   */
  lemma RecentHostsAreNewest(hosts: seq<Host>)
    ensures var used := Filter(hosts, HasBeenUsed);
            var r := RecentHosts(hosts);
      && |r| == (if |used| < RecentLimit then |used| else RecentLimit)
      && (forall i :: 0 <= i < |r| ==> r[i] in hosts && HasBeenUsed(r[i]))
      && NewestFirst(r)
      && multiset(r) <= multiset(used)
      && (forall x | x in multiset(used) - multiset(r) :: forall i :: 0 <= i < |r| ==> UsedAt(r[i]) >= UsedAt(x))
  {
    var used := Filter(hosts, HasBeenUsed);
    var s := SortNewest(used);
    var r := RecentHosts(hosts);
    assert r == s[..|r|];
    NewestPrefix(s, |r|);
    forall i | 0 <= i < |r|
      ensures r[i] in hosts && HasBeenUsed(r[i])
    {
      assert r[i] in multiset(s);
      assert r[i] in used;
    }
  }

  // ---------------------------------------------------------------- macros

  /** The macro may run on the host `hostId`: it lists no hosts, or lists that one. */
  predicate AppliesTo(m: Macro, hostId: string) {
    |m.hostIds| == 0 || hostId in m.hostIds
  }

  /**
   * The macros offered for the active session: every macro when there is
   * none, otherwise exactly those that apply to the session's host.
   */
  function MacrosForActiveHost(macros: seq<Macro>, active: Option<UiSession>): (r: seq<Macro>)
    ensures active.None? ==> r == macros
    ensures active.Some? ==> forall i :: 0 <= i < |r| ==> r[i] in macros && AppliesTo(r[i], active.value.hostId)
    ensures active.Some? ==> forall i :: 0 <= i < |macros| && AppliesTo(macros[i], active.value.hostId) ==> macros[i] in r
    ensures active.Some? ==> forall m :: multiset(r)[m] == if AppliesTo(m, active.value.hostId) then multiset(macros)[m] else 0
  {
    if active.None? then macros
    else
      FilterCounts(macros, m => AppliesTo(m, active.value.hostId));
      Filter(macros, m => AppliesTo(m, active.value.hostId))
  }

  /** The macros offered keep their original order. */
  lemma MacrosKeepOrder(macros: seq<Macro>, active: Option<UiSession>)
    ensures IsSubsequence(MacrosForActiveHost(macros, active), macros)
  {
    if active.Some? {
      FilterIsSubsequence(macros, m => AppliesTo(m, active.value.hostId));
    } else {
      FilterIsSubsequence(macros, m => true);
      FilterKeepAll(macros, m => true);
    }
  }

  // ---------------------------------------------------------------- terminal output

  /** The output chunks listed for `sessionId`; none for a session never written to. */
  function OutputOf(outputs: map<string, seq<string>>, sessionId: string): seq<string> {
    if sessionId in outputs then outputs[sessionId] else []
  }

  /** The outputs after one more chunk for `sessionId`. */
  function AddTerminalOutput(outputs: map<string, seq<string>>, sessionId: string, output: string)
    : (r: map<string, seq<string>>)
    ensures r.Keys == outputs.Keys + {sessionId}
    ensures OutputOf(r, sessionId) == OutputOf(outputs, sessionId) + [output]
    ensures forall other :: other in outputs && other != sessionId ==> r[other] == outputs[other]
  {
    outputs[sessionId := OutputOf(outputs, sessionId) + [output]]
  }

  /** The outputs with the list of `sessionId` emptied (and kept as an entry). */
  function ClearTerminalOutput(outputs: map<string, seq<string>>, sessionId: string)
    : (r: map<string, seq<string>>)
    ensures r.Keys == outputs.Keys + {sessionId}
    ensures r[sessionId] == []
    ensures forall other :: other in outputs && other != sessionId ==> r[other] == outputs[other]
  {
    outputs[sessionId := []]
  }

  /** Clearing after appending leaves what clearing alone leaves. */
  lemma ClearAfterAdd(outputs: map<string, seq<string>>, sessionId: string, output: string)
    ensures ClearTerminalOutput(AddTerminalOutput(outputs, sessionId, output), sessionId)
         == ClearTerminalOutput(outputs, sessionId)
  {
  }

  // ---------------------------------------------------------------- notifications

  /** The duration a new notification gets: its own, or the default when missing or zero. */
  function EffectiveDuration(duration: Option<int>): (d: int)
    ensures duration.Some? && duration.value != 0 ==> d == duration.value
    ensures duration.None? || duration.value == 0 ==> d == DefaultNotificationDuration
    ensures d != 0
  {
    if duration.None? || duration.value == 0 then DefaultNotificationDuration else duration.value
  }

  /** The list after the draft is appended under `id`, with its duration defaulted. */
  function AddNotification(notifications: seq<Notification>, draft: NotificationDraft, id: string)
    : (r: seq<Notification>)
    ensures |r| == |notifications| + 1 && r[..|notifications|] == notifications
    ensures r[|notifications|].id == id && r[|notifications|].title == draft.title
    ensures r[|notifications|].kind == draft.kind && r[|notifications|].message == draft.message
    ensures r[|notifications|].duration == Some(EffectiveDuration(draft.duration))
  {
    notifications + [Notification(id, draft.kind, draft.title, draft.message, Some(EffectiveDuration(draft.duration)))]
  }

  predicate HasOtherId(n: Notification, id: string) {
    n.id != id
  }

  /** The list without any notification with ID `id`, the rest in their order. */
  function RemoveNotification(notifications: seq<Notification>, id: string): (r: seq<Notification>)
    ensures forall i :: 0 <= i < |r| ==> r[i].id != id && r[i] in notifications
    ensures forall i :: 0 <= i < |notifications| && notifications[i].id != id ==> notifications[i] in r
    ensures forall n :: multiset(r)[n] == if n.id != id then multiset(notifications)[n] else 0
  {
    FilterCounts(notifications, n => HasOtherId(n, id));
    Filter(notifications, n => HasOtherId(n, id))
  }

  /** Removing keeps the remaining notifications in their order, and removing twice is removing once. */
  lemma RemoveNotificationKeepsOrder(notifications: seq<Notification>, id: string)
    ensures IsSubsequence(RemoveNotification(notifications, id), notifications)
    ensures RemoveNotification(RemoveNotification(notifications, id), id) == RemoveNotification(notifications, id)
  {
    FilterIsSubsequence(notifications, n => HasOtherId(n, id));
    FilterIdempotent(notifications, n => HasOtherId(n, id));
  }

  /** Removing a notification just added (under an ID no other carries) restores the list. */
  lemma {:induction false} RemoveUndoesAdd(notifications: seq<Notification>, draft: NotificationDraft, id: string)
    requires forall i :: 0 <= i < |notifications| ==> notifications[i].id != id
    ensures RemoveNotification(AddNotification(notifications, draft, id), id) == notifications
  {
    var added := AddNotification(notifications, draft, id);
    assert added[..|added| - 1] == notifications;
    FilterKeepAll(notifications, n => HasOtherId(n, id));
  }
}
