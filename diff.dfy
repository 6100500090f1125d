/** showUpdatedPlugins: compares the plugin list of the default index before and
    after an update, against the installed plugins, and reports what is new and
    which installed plugins can be upgraded. */
module Diff {
  import opened Types
  import opened Seqs
  import opened Format

  const NewPluginsHeader := "New plugins available"
  const UpgradesHeader := "Upgrades available for installed plugins"

  /** The pre-update list indexed by name, filled by assigning each entry in
      list order, so a later entry with the same name overwrites an earlier one. */
  function IndexByName(ps: seq<Plugin>): (m: map<string, Plugin>)
    ensures forall k :: 0 <= k < |ps| ==> ps[k].name in m
    ensures forall n :: n in m ==> m[n].name == n && m[n] in ps
    decreases |ps|
  {
    if ps == [] then map[]
    else IndexByName(ps[..|ps| - 1])[ps[|ps| - 1].name := ps[|ps| - 1]]
  }

  /** Where a name occurs more than once, its last occurrence is the one kept. */
  lemma {:induction false} IndexByNameLastWins(ps: seq<Plugin>, i: nat)
    requires i < |ps|
    requires forall j :: i < j < |ps| ==> ps[j].name != ps[i].name
    ensures IndexByName(ps)[ps[i].name] == ps[i]
    decreases |ps|
  {
    if i < |ps| - 1 {
      IndexByNameLastWins(ps[..|ps| - 1], i);
    }
  }

  /** Post-update entries whose name the pre-update index does not hold. */
  function NewPlugins(oldIndex: map<string, Plugin>, post: seq<Plugin>): (r: seq<Plugin>)
    ensures forall p :: p in r <==> p in post && p.name !in oldIndex
  {
    Filter(post, (p: Plugin) => p.name !in oldIndex)
  }

  /** Post-update entries known before, installed, and at a different version
      than the pre-update index records. */
  function Upgrades(oldIndex: map<string, Plugin>, installed: map<string, string>, post: seq<Plugin>): (r: seq<Plugin>)
    ensures forall p :: p in r <==>
      p in post && p.name in oldIndex && p.name in installed && oldIndex[p.name].version != p.version
  {
    Filter(post, (p: Plugin) => p.name in oldIndex && p.name in installed && oldIndex[p.name].version != p.version)
  }

  lemma NewPluginsStep(oldIndex: map<string, Plugin>, post: seq<Plugin>, i: nat)
    requires i < |post|
    ensures NewPlugins(oldIndex, post[..i + 1])
         == NewPlugins(oldIndex, post[..i]) + (if post[i].name !in oldIndex then [post[i]] else [])
  {
    FilterStep(post, i, (p: Plugin) => p.name !in oldIndex);
  }

  lemma UpgradesStep(oldIndex: map<string, Plugin>, installed: map<string, string>, post: seq<Plugin>, i: nat)
    requires i < |post|
    ensures var p := post[i];
      Upgrades(oldIndex, installed, post[..i + 1])
      == Upgrades(oldIndex, installed, post[..i])
         + (if p.name in oldIndex && p.name in installed && oldIndex[p.name].version != p.version then [p] else [])
  {
    FilterStep(post, i, (p: Plugin) => p.name in oldIndex && p.name in installed && oldIndex[p.name].version != p.version);
  }

  /** The bullet text of an upgrade: `name old -> new`. */
  function UpgradeText(name: string, oldVersion: string, newVersion: string): string
  {
    name + " " + oldVersion + " -> " + newVersion
  }

  /** The names of the plugins, one per plugin, in order. */
  function Names(ps: seq<Plugin>): (names: seq<string>)
    ensures |names| == |ps|
    ensures forall k :: 0 <= k < |ps| ==> names[k] == ps[k].name
  {
    Map(ps, (p: Plugin) => p.name)
  }

  /** Indexing a Go map: the stored entry, or the zero Plugin when the name is absent. */
  function Lookup(oldIndex: map<string, Plugin>, name: string): Plugin
  {
    if name in oldIndex then oldIndex[name] else Plugin("", "")
  }

  function UpgradeItems(oldIndex: map<string, Plugin>, ups: seq<Plugin>): (items: seq<string>)
    ensures |items| == |ups|
    ensures forall k :: 0 <= k < |ups| ==>
      items[k] == UpgradeText(ups[k].name, Lookup(oldIndex, ups[k].name).version, ups[k].version)
  {
    seq(|ups|, k requires 0 <= k < |ups| => UpgradeText(ups[k].name, Lookup(oldIndex, ups[k].name).version, ups[k].version))
  }

  /** The "New plugins available" section: absent when there is nothing new,
      otherwise its header and then one bullet per new plugin, in list order. */
  function NewSection(news: seq<Plugin>): (lines: seq<string>)
    ensures |lines| == if |news| > 0 then |news| + 1 else 0
    ensures |news| > 0 ==> lines[0] == HeaderLine(NewPluginsHeader)
    ensures forall k :: 0 <= k < |news| ==> lines[k + 1] == ItemLine(news[k].name)
  {
    if |news| > 0 then PluginsInfo(NewPluginsHeader, Names(news)) else []
  }

  /** The "Upgrades available for installed plugins" section: absent when there
      is nothing to upgrade, otherwise its header and then one `name old -> new`
      bullet per upgrade, in list order, the old version taken from the old index. */
  function UpgradeSection(oldIndex: map<string, Plugin>, ups: seq<Plugin>): (lines: seq<string>)
    ensures |lines| == if |ups| > 0 then |ups| + 1 else 0
    ensures |ups| > 0 ==> lines[0] == HeaderLine(UpgradesHeader)
    ensures forall k :: 0 <= k < |ups| ==>
      lines[k + 1] == ItemLine(UpgradeText(ups[k].name, Lookup(oldIndex, ups[k].name).version, ups[k].version))
  {
    if |ups| > 0 then PluginsInfo(UpgradesHeader, UpgradeItems(oldIndex, ups)) else []
  }

  /** Everything showUpdatedPlugins writes: the new section, then the upgrades section. */
  function ReportLines(pre: seq<Plugin>, post: seq<Plugin>, installed: map<string, string>): seq<string>
  {
    var oldIndex := IndexByName(pre);
    NewSection(NewPlugins(oldIndex, post)) + UpgradeSection(oldIndex, Upgrades(oldIndex, installed, post))
  }

  /** The walk over the post-update list: an entry whose name the old index
      lacks is new (and nothing more is asked of it); an entry that is known,
      installed and at another version is an upgrade; every other entry is skipped. */
  method SortPosUpdate(oldIndex: map<string, Plugin>, posUpdate: seq<Plugin>, installedPlugins: map<string, string>)
    returns (newPlugins: seq<Plugin>, updatedPlugins: seq<Plugin>)
    ensures newPlugins == NewPlugins(oldIndex, posUpdate)
    ensures updatedPlugins == Upgrades(oldIndex, installedPlugins, posUpdate)
  {
    newPlugins, updatedPlugins := [], [];
    for i := 0 to |posUpdate|
      invariant newPlugins == NewPlugins(oldIndex, posUpdate[..i])
      invariant updatedPlugins == Upgrades(oldIndex, installedPlugins, posUpdate[..i])
    {
      NewPluginsStep(oldIndex, posUpdate, i);
      UpgradesStep(oldIndex, installedPlugins, posUpdate, i);
      var p := posUpdate[i];
      if p.name !in oldIndex {
        newPlugins := newPlugins + [p];
        continue;
      }
      var previous := oldIndex[p.name];
      if p.name !in installedPlugins {
        continue;
      }
      if previous.version != p.version {
        updatedPlugins := updatedPlugins + [p];
      }
    }
    assert posUpdate[..|posUpdate|] == posUpdate;
  }

  /** Lists the new plugins by name under their header, if there are any. */
  method ShowNewPlugins(newPlugins: seq<Plugin>) returns (written: seq<string>)
    ensures written == NewSection(newPlugins)
  {
    written := [];
    if |newPlugins| > 0 {
      var s: seq<string> := [];
      for i := 0 to |newPlugins|
        invariant |s| == i
        invariant forall k :: 0 <= k < i ==> s[k] == newPlugins[k].name
      {
        s := s + [newPlugins[i].name];
      }
      assert s == Names(newPlugins);
      written := ShowFormattedPluginsInfo(NewPluginsHeader, s);
    }
  }

  /** Lists each upgrade as `name old -> new`, the old version looked up in the
      old index, under its header, if there are any. */
  method ShowUpgrades(oldIndex: map<string, Plugin>, updatedPlugins: seq<Plugin>) returns (written: seq<string>)
    ensures written == UpgradeSection(oldIndex, updatedPlugins)
  {
    written := [];
    if |updatedPlugins| > 0 {
      var s: seq<string> := [];
      for i := 0 to |updatedPlugins|
        invariant |s| == i
        invariant forall k :: 0 <= k < i ==>
          s[k] == UpgradeText(updatedPlugins[k].name, Lookup(oldIndex, updatedPlugins[k].name).version, updatedPlugins[k].version)
      {
        var p := updatedPlugins[i];
        var previous := Lookup(oldIndex, p.name);
        s := s + [UpgradeText(p.name, previous.version, p.version)];
      }
      assert s == UpgradeItems(oldIndex, updatedPlugins);
      written := ShowFormattedPluginsInfo(UpgradesHeader, s);
    }
  }

  /** The report, computed the way the source does it: index the old list, sort
      the new list into new and updated plugins, then format each non-empty group. */
  method ShowUpdatedPlugins(preUpdate: seq<Plugin>, posUpdate: seq<Plugin>, installedPlugins: map<string, string>)
    returns (out: seq<string>)
    ensures out == ReportLines(preUpdate, posUpdate, installedPlugins)
  {
    var oldIndex: map<string, Plugin> := map[];
    for i := 0 to |preUpdate|
      invariant oldIndex == IndexByName(preUpdate[..i])
    {
      assert preUpdate[..i + 1][..i] == preUpdate[..i];
      oldIndex := oldIndex[preUpdate[i].name := preUpdate[i]];
    }
    assert preUpdate[..|preUpdate|] == preUpdate;

    var newPlugins, updatedPlugins := SortPosUpdate(oldIndex, posUpdate, installedPlugins);
    var newSection := ShowNewPlugins(newPlugins);
    var upgradeSection := ShowUpgrades(oldIndex, updatedPlugins);
    out := newSection + upgradeSection;
  }

  // Properties of the report.

  /** Names are unique within a snapshot. */
  ghost predicate UniqueNames(ps: seq<Plugin>)
  {
    forall i, j :: 0 <= i < j < |ps| ==> ps[i].name != ps[j].name
  }

  /** A plugin whose name the pre-update list does not hold is always listed
      under "New plugins available", whatever is installed. */
  lemma NewPluginReported(pre: seq<Plugin>, post: seq<Plugin>, installed: map<string, string>, p: Plugin)
    requires p in post
    requires forall i :: 0 <= i < |pre| ==> pre[i].name != p.name
    ensures var news := NewPlugins(IndexByName(pre), post);
      var r := ReportLines(pre, post, installed);
      && |news| > 0
      && r[0] == HeaderLine(NewPluginsHeader)
      && exists k :: 1 <= k <= |news| && r[k] == ItemLine(p.name)
  {
    var news := NewPlugins(IndexByName(pre), post);
    assert p in news;
    var k :| 0 <= k < |news| && news[k] == p;
    assert ReportLines(pre, post, installed)[k + 1] == ItemLine(p.name);
  }

  /** A plugin present in both lists is an upgrade exactly when it is installed
      and its version changed; when it is not installed no upgrade of that name
      is listed, even if the versions differ. */
  lemma UpgradeReportedIff(pre: seq<Plugin>, post: seq<Plugin>, installed: map<string, string>, p: Plugin, i: nat)
    requires p in post
    requires i < |pre| && pre[i].name == p.name
    ensures var oldIndex := IndexByName(pre);
      p in Upgrades(oldIndex, installed, post) <==> p.name in installed && oldIndex[p.name].version != p.version
    ensures p.name !in installed ==>
      forall q :: q in Upgrades(IndexByName(pre), installed, post) ==> q.name != p.name
    ensures p !in NewPlugins(IndexByName(pre), post)
  {
  }

  /** The old version in an upgrade bullet is the one of the last pre-update
      entry with that name; the bullet stands in the upgrades section. */
  lemma UpgradeUsesLastOccurrence(pre: seq<Plugin>, post: seq<Plugin>, installed: map<string, string>, p: Plugin, i: nat)
    requires p in post && p.name in installed
    requires i < |pre| && pre[i].name == p.name && pre[i].version != p.version
    requires forall j :: i < j < |pre| ==> pre[j].name != p.name
    ensures p in Upgrades(IndexByName(pre), installed, post)
    ensures ItemLine(UpgradeText(p.name, pre[i].version, p.version))
            in UpgradeSection(IndexByName(pre), Upgrades(IndexByName(pre), installed, post))
    ensures ItemLine(UpgradeText(p.name, pre[i].version, p.version)) in ReportLines(pre, post, installed)
  {
    var oldIndex := IndexByName(pre);
    IndexByNameLastWins(pre, i);
    var ups := Upgrades(oldIndex, installed, post);
    assert p in ups;
    var k :| 0 <= k < |ups| && ups[k] == p;
    var section := UpgradeSection(oldIndex, ups);
    assert section[k + 1] == ItemLine(UpgradeText(p.name, pre[i].version, p.version));
    assert section[k + 1] in section;
  }

  /** Nothing at all is written exactly when every post-update entry is known
      before and every installed one kept its version. */
  lemma {:induction false} ReportEmptyIff(pre: seq<Plugin>, post: seq<Plugin>, installed: map<string, string>)
    ensures var oldIndex := IndexByName(pre);
      ReportLines(pre, post, installed) == [] <==>
      forall p :: p in post ==>
        p.name in oldIndex && (p.name in installed ==> oldIndex[p.name].version == p.version)
  {
    var oldIndex := IndexByName(pre);
    var news := NewPlugins(oldIndex, post);
    var ups := Upgrades(oldIndex, installed, post);
    if ReportLines(pre, post, installed) == [] {
      forall p | p in post
        ensures p.name in oldIndex && (p.name in installed ==> oldIndex[p.name].version == p.version)
      {
        assert p !in news;
        assert p !in ups;
      }
    } else {
      if news != [] {
        assert news[0] in news;
      } else {
        assert ups[0] in ups;
      }
    }
  }

  /** If both lists give every name the same version, nothing is written,
      whatever the installed set. */
  lemma NoChangeNoReport(pre: seq<Plugin>, post: seq<Plugin>, installed: map<string, string>)
    requires forall p :: p in post ==> exists q :: q in pre && q.name == p.name
    requires forall p, q :: p in post && q in pre && p.name == q.name ==> p.version == q.version
    ensures ReportLines(pre, post, installed) == []
  {
    var oldIndex := IndexByName(pre);
    forall p | p in post
      ensures p.name in oldIndex && oldIndex[p.name].version == p.version
    {
      var q :| q in pre && q.name == p.name;
    }
    ReportEmptyIff(pre, post, installed);
  }

  /** An update that changed nothing reports nothing, when names are unique. */
  lemma IdenticalSnapshotsNoReport(s: seq<Plugin>, installed: map<string, string>)
    requires UniqueNames(s)
    ensures ReportLines(s, s, installed) == []
  {
    var oldIndex := IndexByName(s);
    forall p | p in s
      ensures p.name in oldIndex && oldIndex[p.name] == p
    {
      var i :| 0 <= i < |s| && s[i] == p;
      IndexByNameLastWins(s, i);
    }
    ReportEmptyIff(s, s, installed);
  }

  /** Both lists follow the post-update order, and each holds every qualifying
      entry as often as it occurs there and nothing else. */
  lemma ListsFollowPostOrder(oldIndex: map<string, Plugin>, installed: map<string, string>, post: seq<Plugin>, p: Plugin)
    ensures Subsequence(NewPlugins(oldIndex, post), post)
    ensures Subsequence(Upgrades(oldIndex, installed, post), post)
    ensures multiset(NewPlugins(oldIndex, post))[p] == if p.name !in oldIndex then multiset(post)[p] else 0
    ensures multiset(Upgrades(oldIndex, installed, post))[p]
         == if p.name in oldIndex && p.name in installed && oldIndex[p.name].version != p.version
            then multiset(post)[p] else 0
  {
    var isNew := (p: Plugin) => p.name !in oldIndex;
    var isUpgrade := (p: Plugin) => p.name in oldIndex && p.name in installed && oldIndex[p.name].version != p.version;
    assert NewPlugins(oldIndex, post) == Filter(post, isNew);
    assert Upgrades(oldIndex, installed, post) == Filter(post, isUpgrade);
    FilterIsSubsequence(post, isNew);
    FilterIsSubsequence(post, isUpgrade);
    FilterCounts(post, isNew, p);
    FilterCounts(post, isUpgrade, p);
  }

  /** Plugin `foo` goes from version `v1` to `v2` and plugin `bar` appears, with
      `foo` installed: `bar` is new and `foo` at `v2` is an upgrade. */
  lemma ExampleLists(foo: string, bar: string, v1: string, v2: string, installed: string)
    requires foo != bar && v1 != v2
    ensures var oldIndex := IndexByName([Plugin(foo, v1)]);
      var post := [Plugin(foo, v2), Plugin(bar, v1)];
      && oldIndex == map[foo := Plugin(foo, v1)]
      && NewPlugins(oldIndex, post) == [Plugin(bar, v1)]
      && Upgrades(oldIndex, map[foo := installed], post) == [Plugin(foo, v2)]
  {
    var post := [Plugin(foo, v2), Plugin(bar, v1)];
    var oldIndex := IndexByName([Plugin(foo, v1)]);
    assert [Plugin(foo, v1)][..0] == [];
    assert oldIndex == map[foo := Plugin(foo, v1)];
    NewPluginsStep(oldIndex, post, 0);
    NewPluginsStep(oldIndex, post, 1);
    UpgradesStep(oldIndex, map[foo := installed], post, 0);
    UpgradesStep(oldIndex, map[foo := installed], post, 1);
    assert post[..0] == [] && post[..2] == post;
  }

  /** The report of that scenario, line by line: the new section listing `bar`,
      then the upgrades section listing `foo v1 -> v2`. */
  lemma ExampleReport(foo: string, bar: string, v1: string, v2: string, installed: string)
    requires foo != bar && v1 != v2
    ensures ReportLines([Plugin(foo, v1)], [Plugin(foo, v2), Plugin(bar, v1)], map[foo := installed])
         == [ HeaderLine("New plugins available"),
              ItemLine(bar),
              HeaderLine("Upgrades available for installed plugins"),
              ItemLine(foo + " " + v1 + " -> " + v2) ]
  {
    ExampleLists(foo, bar, v1, v2, installed);
    var oldIndex := IndexByName([Plugin(foo, v1)]);
    assert Names([Plugin(bar, v1)]) == [bar];
    assert UpgradeItems(oldIndex, [Plugin(foo, v2)]) == [UpgradeText(foo, v1, v2)] by {
      assert Lookup(oldIndex, foo).version == v1;
    }
    PluginsInfoOfOne(NewPluginsHeader, bar);
    PluginsInfoOfOne(UpgradesHeader, UpgradeText(foo, v1, v2));
  }
}
