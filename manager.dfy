/**
 * The dynamic configuration manager of manager.go: a registry of
 * configuration groups keyed by a derived storage key, each group holding
 * the last document read from etcd and an append-only list of change
 * callbacks, and one step of the watch loop that refreshes a group and
 * starts its callbacks.
 *
 * The run is sequential: each call and each watch response is one atomic
 * step. The remote store is not modelled; an initial read or a re-read is an
 * input that either yields a document (ReadOk) or fails (ReadErr). Starting a
 * goroutine is recorded, not run: GetGroup appends the group whose watch it
 * starts to `watched`, and a notification returns the callbacks it starts,
 * in the order it starts them.
 */
module Manager {
  import opened Wrappers
  import opened Strings
  import opened Configs

  /** A value of the parsed document, as viper returns it through interface{}. */
  datatype Value = VString(s: string) | VInt(i: int) | VBool(b: bool) | VOther

  /** What viper holds for one group: document keys to values. */
  type Snapshot = map<string, Value>

  /** A registered `func()`, identified by a number. */
  type Callback = nat

  /**
   * The outcome of viper's ReadRemoteConfig. On success, `doc` is the key/value
   * store viper holds after the read (viper decodes the fetched document into
   * its existing store, so this is not necessarily the fetched document alone).
   */
  datatype ReadResult = ReadOk(doc: Snapshot) | ReadErr(reason: string)

  /**
   * One etcd change event as the watch loop sees it: the changed key and value
   * (only logged) and the result of the re-read the loop then performs.
   */
  datatype WatchEvent = WatchEvent(key: string, value: string, reread: ReadResult)

  // ---------------------------------------------------------------------
  // Keys
  // ---------------------------------------------------------------------

  const DocumentName := "content.yaml"

  /** The directory of one group: `prefix/app/env/group`. */
  function GroupDir(prefix: string, app: string, env: string, group: string): string {
    prefix + "/" + app + "/" + env + "/" + group
  }

  /** The storage key `prefix/app/env/group/content.yaml`: the five parts joined by '/'. */
  function GroupKey(prefix: string, app: string, env: string, group: string): (key: string)
    ensures key == Join([prefix, app, env, group, DocumentName], '/')
    ensures key == GroupDir(prefix, app, env, group) + "/" + DocumentName
  {
    var parts := [prefix, app, env, group, DocumentName];
    assert Join(parts[4..], '/') == DocumentName;
    assert Join(parts[3..], '/') == group + "/" + DocumentName;
    assert Join(parts[2..], '/') == env + "/" + group + "/" + DocumentName;
    assert Join(parts[1..], '/') == app + "/" + env + "/" + group + "/" + DocumentName;
    prefix + "/" + app + "/" + env + "/" + group + "/content.yaml"
  }

  /** Below a shared prefix, components free of '/' are recovered from the key. */
  lemma GroupKeyInjective(prefix: string, a1: string, e1: string, g1: string, a2: string, e2: string, g2: string)
    requires '/' !in a1 && '/' !in e1 && '/' !in g1
    requires '/' !in a2 && '/' !in e2 && '/' !in g2
    requires GroupKey(prefix, a1, e1, g1) == GroupKey(prefix, a2, e2, g2)
    ensures a1 == a2 && e1 == e2 && g1 == g2
  {
    var tail1 := [a1, e1, g1, DocumentName];
    var tail2 := [a2, e2, g2, DocumentName];
    assert '/' !in DocumentName;
    var n := |prefix| + 1;
    assert GroupKey(prefix, a1, e1, g1)[n..] == Join(tail1, '/');
    assert GroupKey(prefix, a2, e2, g2)[n..] == Join(tail2, '/');
    SplitOfJoin(tail1, '/');
    SplitOfJoin(tail2, '/');
  }

  /** Components holding '/' can alias: two different triples share one key. */
  lemma GroupKeyAliasing(prefix: string)
    ensures GroupKey(prefix, "a/b", "c", "d") == GroupKey(prefix, "a", "b/c", "d")
  {
  }

  /** etcd delivers the change of `key` to a prefix watch on `watchKey` iff it starts with it. */
  predicate Delivered(watchKey: string, key: string): (delivered: bool)
    ensures delivered <==> |watchKey| <= |key| && key[..|watchKey|] == watchKey
  {
    watchKey <= key
  }

  /** manager.go as written watches `groupKey + "/"`. */
  function WatchKeyAsWritten(groupKey: string): (watchKey: string)
    ensures |watchKey| == |groupKey| + 1 && groupKey <= watchKey && watchKey[|groupKey|] == '/'
  {
    groupKey + "/"
  }

  /** As written, a change to the group's own document is never delivered. */
  lemma DocumentChangeMissedAsWritten(prefix: string, app: string, env: string, group: string)
    ensures !Delivered(WatchKeyAsWritten(GroupKey(prefix, app, env, group)), GroupKey(prefix, app, env, group))
  {
  }

  /** The prefix watched instead: the group's directory, `prefix/app/env/group/`. */
  function WatchPrefix(prefix: string, app: string, env: string, group: string): (watchKey: string)
    ensures watchKey + DocumentName == GroupKey(prefix, app, env, group)
  {
    GroupDir(prefix, app, env, group) + "/"
  }

  /** A change to the group's document is delivered to the group's watch. */
  lemma DocumentChangeDelivered(prefix: string, app: string, env: string, group: string)
    ensures Delivered(WatchPrefix(prefix, app, env, group), GroupKey(prefix, app, env, group))
  {
  }

  // ---------------------------------------------------------------------
  // What a batch of watch events does, specified
  // ---------------------------------------------------------------------

  /** The snapshot after an initial read: the document, or empty when the read failed. */
  function Initial(read: ReadResult): Snapshot {
    if read.ReadOk? then read.doc else map[]
  }

  /** One event: a successful re-read replaces the snapshot, a failed one keeps it. */
  function Apply(s: Snapshot, e: WatchEvent): Snapshot {
    if e.reread.ReadOk? then e.reread.doc else s
  }

  /** The snapshot after the events, in order. */
  function Refreshed(s: Snapshot, events: seq<WatchEvent>): Snapshot {
    if events == [] then s else Apply(Refreshed(s, events[..|events| - 1]), events[|events| - 1])
  }

  /** The callbacks started for the events: all watchers, in order, per successful re-read. */
  function Notifications(watchers: seq<Callback>, events: seq<WatchEvent>): seq<Callback> {
    if events == [] then []
    else
      Notifications(watchers, events[..|events| - 1])
        + (if events[|events| - 1].reread.ReadOk? then watchers else [])
  }

  /** The number of successful re-reads. */
  function OkCount(events: seq<WatchEvent>): nat {
    if events == [] then 0
    else OkCount(events[..|events| - 1]) + (if events[|events| - 1].reread.ReadOk? then 1 else 0)
  }

  /** A batch whose every re-read fails is inert: no callback starts, the snapshot stays. */
  lemma {:induction false} FailedRereadsAreInert(watchers: seq<Callback>, s: Snapshot, events: seq<WatchEvent>)
    requires forall i :: 0 <= i < |events| ==> events[i].reread.ReadErr?
    ensures Notifications(watchers, events) == []
    ensures Refreshed(s, events) == s
    decreases |events|
  {
    if events != [] {
      FailedRereadsAreInert(watchers, s, events[..|events| - 1]);
    }
  }

  /** Each successful re-read starts every watcher exactly once. */
  lemma {:induction false} NotificationCount(watchers: seq<Callback>, events: seq<WatchEvent>)
    ensures |Notifications(watchers, events)| == |watchers| * OkCount(events)
    decreases |events|
  {
    if events != [] {
      NotificationCount(watchers, events[..|events| - 1]);
      var k := OkCount(events[..|events| - 1]);
      assert |watchers| * (k + 1) == |watchers| * k + |watchers|;
    }
  }

  /** Processing two batches one after the other starts the concatenated callbacks. */
  lemma {:induction false} NotificationsAppend(watchers: seq<Callback>, a: seq<WatchEvent>, b: seq<WatchEvent>)
    ensures Notifications(watchers, a + b) == Notifications(watchers, a) + Notifications(watchers, b)
    decreases |b|
  {
    if b == [] {
      assert a + b == a;
    } else {
      var b' := b[..|b| - 1];
      assert (a + b)[..|a + b| - 1] == a + b';
      NotificationsAppend(watchers, a, b');
    }
  }

  /** The snapshot after a batch is the document of its last successful re-read. */
  lemma {:induction false} RefreshedIsLastSuccess(s: Snapshot, events: seq<WatchEvent>, j: nat)
    requires j < |events| && events[j].reread.ReadOk?
    requires forall i :: j < i < |events| ==> events[i].reread.ReadErr?
    ensures Refreshed(s, events) == events[j].reread.doc
    decreases |events|
  {
    if j < |events| - 1 {
      RefreshedIsLastSuccess(s, events[..|events| - 1], j);
    }
  }

  // ---------------------------------------------------------------------
  // etcdConfigGroup
  // ---------------------------------------------------------------------

  class ConfigGroup {
    /** The storage key of the group's document. */
    const groupKey: string
    /** The prefix the group's watch stream is opened on. */
    const watchKey: string
    /** The document viper currently holds. */
    var snapshot: Snapshot
    /** The registered callbacks, in registration order. */
    var watchers: seq<Callback>

    constructor (groupKey: string, watchKey: string, initial: ReadResult)
      ensures this.groupKey == groupKey && this.watchKey == watchKey
      ensures snapshot == Initial(initial) && watchers == []
    {
      this.groupKey := groupKey;
      this.watchKey := watchKey;
      snapshot := Initial(initial);
      watchers := [];
    }

    /** Get: the stored value, None (Go's nil) when the key is absent. */
    function Get(key: string): (v: Option<Value>)
      reads this
      ensures v.Some? <==> key in snapshot
      ensures v.Some? ==> v.value == snapshot[key]
    {
      if key in snapshot then Some(snapshot[key]) else None
    }

    /** GetString: a bare type assertion, so the value must be present and a string. */
    function GetString(key: string): (s: string)
      reads this
      requires key in snapshot && snapshot[key].VString?
      ensures Get(key) == Some(VString(s))
    {
      snapshot[key].s
    }

    /** GetInt: a bare type assertion, so the value must be present and an int. */
    function GetInt(key: string): (i: int)
      reads this
      requires key in snapshot && snapshot[key].VInt?
      ensures Get(key) == Some(VInt(i))
    {
      snapshot[key].i
    }

    /** GetBool: a bare type assertion, so the value must be present and a bool. */
    function GetBool(key: string): (b: bool)
      reads this
      requires key in snapshot && snapshot[key].VBool?
      ensures Get(key) == Some(VBool(b))
    {
      snapshot[key].b
    }

    /** OnChange: appends the callback; earlier ones and their order are kept. */
    method OnChange(fn: Callback)
      modifies this
      ensures watchers == old(watchers) + [fn]
      ensures snapshot == old(snapshot)
    {
      watchers := watchers + [fn];
    }

    /** notifyWatchers: starts every registered callback once, in slice order. */
    method NotifyWatchers() returns (launched: seq<Callback>)
      ensures launched == watchers
    {
      launched := [];
      var i := 0;
      while i < |watchers|
        invariant 0 <= i <= |watchers|
        invariant launched == watchers[..i]
      {
        launched := launched + [watchers[i]];
        i := i + 1;
      }
    }
  }

  // ---------------------------------------------------------------------
  // ConfigManager
  // ---------------------------------------------------------------------

  class ConfigManager {
    /** The key prefix from the etcd configuration. */
    const prefix: string
    /** The registry: storage key to group. */
    var groups: map<string, ConfigGroup>
    /** The groups whose watch goroutine has been started, in start order. */
    var watched: seq<ConfigGroup>
    /** Whether Stop has closed the etcd client. */
    var closed: bool

    /**
     * Each group is registered under its own key, its watch covers its own document,
     * and exactly the registered groups have a watch, each one once.
     */
    ghost predicate Valid()
      reads this
    {
      && (forall k :: k in groups ==> groups[k].groupKey == k && Delivered(groups[k].watchKey, k))
      && (forall k :: k in groups ==> groups[k] in watched)
      && (forall i :: 0 <= i < |watched| ==> watched[i] in groups.Values)
      && (forall i, j :: 0 <= i < j < |watched| ==> watched[i] != watched[j])
    }

    /** NewConfigManager: an empty registry over the configured prefix. */
    constructor (cfg: EtcdConfig)
      ensures Valid()
      ensures prefix == cfg.prefix && groups == map[] && watched == [] && !closed
    {
      prefix := cfg.prefix;
      groups := map[];
      watched := [];
      closed := false;
    }

    /**
     * GetGroup: the group registered under the derived key, created and registered
     * (and its watch started) on first use. A failed initial read still creates the
     * group, with an empty snapshot. Nothing is ever removed from the registry.
     */
    method GetGroup(app: string, env: string, group: string, initialRead: ReadResult) returns (g: ConfigGroup)
      requires Valid()
      modifies this
      ensures Valid()
      ensures var key := GroupKey(prefix, app, env, group);
        && key in groups && groups[key] == g && g.groupKey == key
        && (key in old(groups) ==> g == old(groups[key]) && groups == old(groups) && watched == old(watched))
        && (key !in old(groups) ==>
              && fresh(g)
              && g.watchKey == WatchPrefix(prefix, app, env, group)
              && g.snapshot == Initial(initialRead) && g.watchers == []
              && groups == old(groups)[key := g]
              && watched == old(watched) + [g])
      ensures old(groups).Keys <= groups.Keys
      ensures forall k :: k in old(groups) ==> groups[k] == old(groups[k])
      ensures closed == old(closed)
    {
      var key := GroupKey(prefix, app, env, group);
      if key in groups {
        g := groups[key];
        return;
      }
      DocumentChangeDelivered(prefix, app, env, group);
      g := new ConfigGroup(key, WatchPrefix(prefix, app, env, group), initialRead);
      ghost var before := groups;
      groups := groups[key := g];
      watched := watched + [g];
      forall i | 0 <= i < |watched| ensures watched[i] in groups.Values {
        if i < |watched| - 1 {
          var k :| k in before && before[k] == watched[i];
          assert groups[k] == watched[i];
        } else {
          assert groups[key] == g;
        }
      }
    }

    /**
     * One response of watchGroup's loop for a registered group: for each event, a
     * failed re-read is skipped and a successful one replaces the snapshot and then
     * starts every watcher. Responses arrive only while the client is open and only
     * for keys under the group's watch prefix.
     */
    method WatchResponse(g: ConfigGroup, events: seq<WatchEvent>) returns (launched: seq<Callback>)
      requires Valid() && g in groups.Values && !closed
      requires forall i :: 0 <= i < |events| ==> Delivered(g.watchKey, events[i].key)
      modifies g
      ensures g.snapshot == Refreshed(old(g.snapshot), events)
      ensures g.watchers == old(g.watchers)
      ensures launched == Notifications(g.watchers, events)
    {
      launched := [];
      var i := 0;
      while i < |events|
        invariant 0 <= i <= |events|
        invariant g.watchers == old(g.watchers)
        invariant g.snapshot == Refreshed(old(g.snapshot), events[..i])
        invariant launched == Notifications(g.watchers, events[..i])
      {
        assert events[..i + 1][..i] == events[..i];
        match events[i].reread {
          case ReadErr(_) =>
          case ReadOk(doc) =>
            g.snapshot := doc;
            var started := g.NotifyWatchers();
            launched := launched + started;
        }
        i := i + 1;
      }
      assert events[..|events|] == events;
    }

    /** Stop: closes the client and returns its error; the registry is untouched. */
    method Stop(closeResult: Outcome) returns (err: Outcome)
      requires Valid()
      modifies this
      ensures Valid() && closed
      ensures groups == old(groups) && watched == old(watched)
      ensures err == closeResult
    {
      closed := true;
      err := closeResult;
    }
  }

  /**
   * Two GetGroup calls in a row for the same names return the same object, and the
   * second leaves the registry as the first left it.
   */
  method GetGroupTwice(m: ConfigManager, app: string, env: string, group: string, r1: ReadResult, r2: ReadResult)
    returns (g1: ConfigGroup, g2: ConfigGroup)
    requires m.Valid()
    modifies m
    ensures m.Valid() && g1 == g2
    ensures m.groups == old(m.groups)[GroupKey(m.prefix, app, env, group) := g1]
  {
    g1 := m.GetGroup(app, env, group, r1);
    ghost var afterFirst := m.groups;
    g2 := m.GetGroup(app, env, group, r2);
    assert m.groups == afterFirst;
  }
}
