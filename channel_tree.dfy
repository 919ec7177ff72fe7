/**
 * The channel list the backend offers for reminders (`services/traq.go`): the public traQ
 * channels, archived ones dropped, flattened into a pre-order list in which each channel is
 * named by its path from its root (`root/child/grandchild`).  The traQ API call and the cache
 * in front of it are outside the model: the fetched channels are a parameter.
 */
module ChannelTree {
  import opened Wrappers
  import opened Strings
  import opened Entities
  import opened Seqs

  /** A public channel as traQ describes it (the fields `getChannelList` reads). */
  datatype Channel = Channel(id: string, name: string, parentId: Option<string>, children: seq<string>, archived: bool)

  /** `slices.DeleteFunc(all, c => c.Archived)`: the unarchived channels, in order. */
  function Unarchived(all: seq<Channel>): (r: seq<Channel>)
    ensures |r| <= |all|
    ensures forall i :: 0 <= i < |r| ==> r[i] in all && !r[i].archived
    ensures forall i :: 0 <= i < |all| && !all[i].archived ==> all[i] in r
    ensures IsSubsequence(r, all)
  {
    if all == [] then []
    else
      var rest := Unarchived(all[1..]);
      if all[0].archived then rest
      else
        assert ([all[0]] + rest)[1..] == rest;
        [all[0]] + rest
  }

  /** `channelByID` after the loop over `cs`: a later channel with the same id wins. */
  function ById(cs: seq<Channel>): (m: map<string, Channel>)
    ensures forall id :: id in m ==> m[id] in cs && m[id].id == id
    ensures forall i :: 0 <= i < |cs| ==> cs[i].id in m
  {
    if cs == [] then map[] else ById(cs[..|cs| - 1])[cs[|cs| - 1].id := cs[|cs| - 1]]
  }

  /** The channels without a parent, in order. */
  function Roots(cs: seq<Channel>): (r: seq<Channel>)
    ensures forall i :: 0 <= i < |r| ==> r[i] in cs && r[i].parentId.None?
    ensures forall i :: 0 <= i < |cs| && cs[i].parentId.None? ==> cs[i] in r
    ensures IsSubsequence(r, cs)
  {
    if cs == [] then []
    else
      var init, last := cs[..|cs| - 1], cs[|cs| - 1];
      var earlier := Roots(init);
      assert init + [last] == cs;
      if last.parentId.None? then
        SubsequenceSnoc(earlier, init, last);
        earlier + [last]
      else
        SubsequenceOfSnoc(earlier, init, last);
        earlier
  }

  /**
   * What `buildChannelList(parent, path, ...)` appends for the child ids `children`: for each
   * id found in `byId`, the child under `path/name`, then its own subtree.  `fuel` bounds the
   * depth of the walk.
   */
  function Entries(byId: map<string, Channel>, children: seq<string>, path: string, fuel: nat): seq<TraQChannel>
    decreases fuel, |children|
  {
    if children == [] then []
    else Entries(byId, children[..|children| - 1], path, fuel) + Entry(byId, children[|children| - 1], path, fuel)
  }

  /** What one child id contributes: nothing if it is unknown, else the child and its subtree. */
  function Entry(byId: map<string, Channel>, cid: string, path: string, fuel: nat): seq<TraQChannel>
    decreases fuel, 0
  {
    if cid !in byId || fuel == 0 then []
    else
      var c := byId[cid];
      var p := path + "/" + c.name;
      [TraQChannel(c.id, p)] + Entries(byId, c.children, p, fuel - 1)
  }

  /** The list produced for `roots`: each root under its bare name, followed by its subtree. */
  function Listing(byId: map<string, Channel>, roots: seq<Channel>, fuel: nat): seq<TraQChannel>
  {
    if roots == [] then []
    else
      var r := roots[|roots| - 1];
      Listing(byId, roots[..|roots| - 1], fuel) + [TraQChannel(r.id, r.name)] + Entries(byId, r.children, r.name, fuel)
  }

  /** The result of `getChannelList` for the fetched public channels `all`. */
  function ChannelList(all: seq<Channel>): seq<TraQChannel>
  {
    var channels := Unarchived(all);
    Listing(ById(channels), Roots(channels), |channels|)
  }

  /** `buildChannelList`: appends to `res` the subtree below `parent`, whose path is `path`. */
  method BuildChannelList(parent: Channel, path: string, byId: map<string, Channel>, res: seq<TraQChannel>, fuel: nat)
    returns (out: seq<TraQChannel>)
    ensures out == res + Entries(byId, parent.children, path, fuel)
    decreases fuel
  {
    out := res;
    var children := parent.children;
    for i := 0 to |children|
      invariant out == res + Entries(byId, children[..i], path, fuel)
    {
      assert children[..i + 1][..i] == children[..i];
      var cid := children[i];
      if cid in byId && fuel > 0 {
        var channel := byId[cid];
        var newPath := path + "/" + channel.name;
        out := out + [TraQChannel(channel.id, newPath)];
        out := BuildChannelList(channel, newPath, byId, out, fuel - 1);
      }
    }
    assert children[..|children|] == children;
  }

  /** The loop that fills `channelByID`. */
  method IndexChannels(channels: seq<Channel>) returns (channelById: map<string, Channel>)
    ensures channelById == ById(channels)
  {
    channelById := map[];
    for i := 0 to |channels|
      invariant channelById == ById(channels[..i])
    {
      assert channels[..i + 1][..i] == channels[..i];
      channelById := channelById[channels[i].id := channels[i]];
    }
    assert channels[..|channels|] == channels;
  }

  /** The loop that collects `rootChannels`. */
  method CollectRoots(channels: seq<Channel>) returns (rootChannels: seq<Channel>)
    ensures rootChannels == Roots(channels)
  {
    rootChannels := [];
    for i := 0 to |channels|
      invariant rootChannels == Roots(channels[..i])
    {
      assert channels[..i + 1][..i] == channels[..i];
      if channels[i].parentId.None? {
        rootChannels := rootChannels + [channels[i]];
      }
    }
    assert channels[..|channels|] == channels;
  }

  /** The loop over `rootChannels`: each root under its bare name, then its subtree. */
  method ListRoots(rootChannels: seq<Channel>, channelById: map<string, Channel>, fuel: nat) returns (res: seq<TraQChannel>)
    ensures res == Listing(channelById, rootChannels, fuel)
  {
    res := [];
    for i := 0 to |rootChannels|
      invariant res == Listing(channelById, rootChannels[..i], fuel)
    {
      assert rootChannels[..i + 1][..i] == rootChannels[..i];
      var r := rootChannels[i];
      res := res + [TraQChannel(r.id, r.name)];
      res := BuildChannelList(r, r.name, channelById, res, fuel);
    }
    assert rootChannels[..|rootChannels|] == rootChannels;
  }

  /** `getChannelList` after the fetch. */
  method GetChannelList(all: seq<Channel>) returns (res: seq<TraQChannel>)
    ensures res == ChannelList(all)
  {
    var channels := Unarchived(all);
    var channelById := IndexChannels(channels);
    var rootChannels := CollectRoots(channels);
    res := ListRoots(rootChannels, channelById, |channels|);
  }

  // ---------------------------------------------------------------------------------------
  // Properties of the listing.

  /** Each channel of the map is filed under its own id, as `channelByID[c.Id] = c` files it. */
  predicate Keyed(byId: map<string, Channel>)
  {
    forall id :: id in byId ==> byId[id].id == id
  }

  /** Every entry names a channel of `byId` and, when `prefix` is not empty, has a name beginning with it. */
  predicate Below(r: seq<TraQChannel>, prefix: string, byId: map<string, Channel>)
  {
    forall i :: 0 <= i < |r| ==> StartsWith(r[i].name, prefix) && r[i].id in byId
  }

  lemma BelowAppend(a: seq<TraQChannel>, b: seq<TraQChannel>, prefix: string, byId: map<string, Channel>)
    requires Below(a, prefix, byId) && Below(b, prefix, byId)
    ensures Below(a + b, prefix, byId)
  {
    forall i | 0 <= i < |a + b| ensures StartsWith((a + b)[i].name, prefix) && (a + b)[i].id in byId {
      if i < |a| {
        assert (a + b)[i] == a[i];
      } else {
        assert (a + b)[i] == b[i - |a|];
      }
    }
  }

  /** Every child entry is named by the parent's path, a `/`, and more. */
  lemma {:induction false} EntriesExtendPath(byId: map<string, Channel>, children: seq<string>, path: string, fuel: nat)
    requires Keyed(byId)
    ensures Below(Entries(byId, children, path, fuel), path + "/", byId)
    decreases fuel, |children|
  {
    if children != [] {
      EntriesExtendPath(byId, children[..|children| - 1], path, fuel);
      EntryExtendsPath(byId, children[|children| - 1], path, fuel);
      BelowAppend(Entries(byId, children[..|children| - 1], path, fuel), Entry(byId, children[|children| - 1], path, fuel), path + "/", byId);
    }
  }

  lemma {:induction false} EntryExtendsPath(byId: map<string, Channel>, cid: string, path: string, fuel: nat)
    requires Keyed(byId)
    ensures Below(Entry(byId, cid, path, fuel), path + "/", byId)
    decreases fuel, 0
  {
    if cid in byId && fuel > 0 {
      var c := byId[cid];
      var p := path + "/" + c.name;
      var sub := Entries(byId, c.children, p, fuel - 1);
      EntriesExtendPath(byId, c.children, p, fuel - 1);
      assert (p + "/")[..|path + "/"|] == path + "/";
      assert Below(sub, path + "/", byId) by {
        forall i | 0 <= i < |sub| ensures StartsWith(sub[i].name, path + "/") && sub[i].id in byId {
          assert StartsWith(sub[i].name, p + "/");
          assert sub[i].name[..|p + "/"|] == p + "/";
          assert sub[i].name[..|path + "/"|] == (p + "/")[..|path + "/"|];
        }
      }
      assert p[..|path + "/"|] == path + "/";
      BelowAppend([TraQChannel(c.id, p)], sub, path + "/", byId);
    }
  }

  // ---------------------------------------------------------------------------------------
  // Every listed child is reached from a root through its chain of ancestors, and is named by it.

  /**
   * `chain` walks down the tree from a parent whose child ids are `top`: every channel of it is
   * filed in `byId` under its own id, the first is one of `top`, and each next one is listed
   * among the children of the one before.
   */
  ghost predicate Descent(byId: map<string, Channel>, top: seq<string>, chain: seq<Channel>)
  {
    && |chain| >= 1 && chain[0].id in top
    && (forall j :: 0 <= j < |chain| ==> chain[j].id in byId && byId[chain[j].id] == chain[j])
    && (forall j :: 0 <= j < |chain| - 1 ==> chain[j + 1].id in chain[j].children)
  }

  /** `path/c1/c2/.../ck`: the path `buildChannelList` builds down the chain `c1 ... ck`. */
  function PathOf(path: string, chain: seq<Channel>): string
    decreases |chain|
  {
    if chain == [] then path else PathOf(path + "/" + chain[0].name, chain[1..])
  }

  /** Entry `e` is the last channel of a descent from `top`, named by its path below `path`. */
  ghost predicate Reached(byId: map<string, Channel>, top: seq<string>, path: string, e: TraQChannel)
  {
    exists chain: seq<Channel> :: Descent(byId, top, chain) && e.id == chain[|chain| - 1].id && e.name == PathOf(path, chain)
  }

  ghost predicate AllReached(r: seq<TraQChannel>, byId: map<string, Channel>, top: seq<string>, path: string)
  {
    forall i :: 0 <= i < |r| ==> Reached(byId, top, path, r[i])
  }

  lemma AllReachedAppend(a: seq<TraQChannel>, b: seq<TraQChannel>, byId: map<string, Channel>, top: seq<string>, path: string)
    requires AllReached(a, byId, top, path) && AllReached(b, byId, top, path)
    ensures AllReached(a + b, byId, top, path)
  {
    forall i | 0 <= i < |a + b| ensures Reached(byId, top, path, (a + b)[i]) {
      if i < |a| {
        assert (a + b)[i] == a[i];
      } else {
        assert (a + b)[i] == b[i - |a|];
      }
    }
  }

  /** A channel one of `top` names is reached from `top` on its own, one step below `path`. */
  lemma ReachedSingle(byId: map<string, Channel>, top: seq<string>, path: string, c: Channel)
    requires c.id in top && c.id in byId && byId[c.id] == c
    ensures Reached(byId, top, path, TraQChannel(c.id, path + "/" + c.name))
  {
    assert PathOf(path, [c]) == path + "/" + c.name by {
      assert [c][1..] == [];
    }
    assert Descent(byId, top, [c]);
  }

  /** A channel one of `top` names, followed by a descent from its own children, is a descent from `top`. */
  lemma ReachedThrough(byId: map<string, Channel>, top: seq<string>, path: string, c: Channel, e: TraQChannel)
    requires c.id in top && c.id in byId && byId[c.id] == c
    requires Reached(byId, c.children, path + "/" + c.name, e)
    ensures Reached(byId, top, path, e)
  {
    var ch: seq<Channel> :| Descent(byId, c.children, ch) && e.id == ch[|ch| - 1].id && e.name == PathOf(path + "/" + c.name, ch);
    var ext := [c] + ch;
    assert ext[1..] == ch;
    assert PathOf(path, ext) == PathOf(path + "/" + c.name, ch);
    assert ext[|ext| - 1] == ch[|ch| - 1];
    forall j | 0 <= j < |ext| ensures ext[j].id in byId && byId[ext[j].id] == ext[j] {
      if j > 0 {
        assert ext[j] == ch[j - 1];
      }
    }
    forall j | 0 <= j < |ext| - 1 ensures ext[j + 1].id in ext[j].children {
      if j > 0 {
        assert ext[j] == ch[j - 1] && ext[j + 1] == ch[j];
      }
    }
    assert Descent(byId, top, ext);
  }

  /**
   * Every entry `buildChannelList` appends for the child ids `children` (all among `top`) is a
   * channel reached from `top` by a chain of parent-to-child links, named `path/c1/.../ck`.
   */
  lemma {:induction false} EntriesReached(byId: map<string, Channel>, children: seq<string>, path: string, fuel: nat, top: seq<string>)
    requires Keyed(byId)
    requires forall id :: id in children ==> id in top
    ensures AllReached(Entries(byId, children, path, fuel), byId, top, path)
    decreases fuel, |children|
  {
    if children != [] {
      var init, last := children[..|children| - 1], children[|children| - 1];
      forall id | id in init ensures id in top {
        var k :| 0 <= k < |init| && init[k] == id;
        assert children[k] == id;
      }
      EntriesReached(byId, init, path, fuel, top);
      EntryReached(byId, last, path, fuel, top);
      AllReachedAppend(Entries(byId, init, path, fuel), Entry(byId, last, path, fuel), byId, top, path);
    }
  }

  lemma {:induction false} EntryReached(byId: map<string, Channel>, cid: string, path: string, fuel: nat, top: seq<string>)
    requires Keyed(byId)
    requires cid in top
    ensures AllReached(Entry(byId, cid, path, fuel), byId, top, path)
    decreases fuel, 0
  {
    if cid in byId && fuel > 0 {
      var c := byId[cid];
      var p := path + "/" + c.name;
      var sub := Entries(byId, c.children, p, fuel - 1);
      ReachedSingle(byId, top, path, c);
      EntriesReached(byId, c.children, p, fuel - 1, c.children);
      forall i | 0 <= i < |sub| ensures Reached(byId, top, path, sub[i]) {
        ReachedThrough(byId, top, path, c, sub[i]);
      }
      AllReachedAppend([TraQChannel(c.id, p)], sub, byId, top, path);
    }
  }

  /** `e` is a root under its bare name, or is reached from a root's children and named by its path from that root. */
  ghost predicate FromRoot(byId: map<string, Channel>, roots: seq<Channel>, e: TraQChannel)
  {
    exists k :: 0 <= k < |roots| &&
      (e == TraQChannel(roots[k].id, roots[k].name) || Reached(byId, roots[k].children, roots[k].name, e))
  }

  lemma {:induction false} ListingFromRoots(byId: map<string, Channel>, roots: seq<Channel>, fuel: nat)
    requires Keyed(byId)
    ensures forall e :: e in Listing(byId, roots, fuel) ==> FromRoot(byId, roots, e)
  {
    if roots != [] {
      var init, last := roots[..|roots| - 1], roots[|roots| - 1];
      ListingFromRoots(byId, init, fuel);
      EntriesReached(byId, last.children, last.name, fuel, last.children);
      var before := Listing(byId, init, fuel);
      var sub := Entries(byId, last.children, last.name, fuel);
      var r := Listing(byId, roots, fuel);
      assert r == before + [TraQChannel(last.id, last.name)] + sub;
      forall i | 0 <= i < |r| ensures FromRoot(byId, roots, r[i]) {
        if i < |before| {
          assert r[i] == before[i] && before[i] in before;
          var k :| 0 <= k < |init| &&
            (r[i] == TraQChannel(init[k].id, init[k].name) || Reached(byId, init[k].children, init[k].name, r[i]));
          assert roots[k] == init[k];
        } else if i == |before| {
          assert roots[|roots| - 1] == last;
        } else {
          assert r[i] == sub[i - |before| - 1];
          assert roots[|roots| - 1] == last;
        }
      }
    }
  }

  /**
   * Every entry of the list is an unarchived root under its bare name, or a channel reached from
   * such a root by parent-to-child links through unarchived channels, named
   * `root/c1/.../ck` after the names along the way.
   */
  lemma ChannelListFromRoots(all: seq<Channel>)
    ensures var channels := Unarchived(all);
      var roots, r := Roots(channels), ChannelList(all);
      && (forall k :: 0 <= k < |roots| ==> roots[k] in all && !roots[k].archived && roots[k].parentId.None?)
      && forall e :: e in r ==> FromRoot(ById(channels), roots, e)
  {
    var channels := Unarchived(all);
    var roots := Roots(channels);
    assert ChannelList(all) == Listing(ById(channels), roots, |channels|);
    ListingFromRoots(ById(channels), roots, |channels|);
    forall k | 0 <= k < |roots| ensures roots[k] in all && !roots[k].archived && roots[k].parentId.None? {
      assert roots[k] in channels;
    }
  }

  /** The links of a descent in the list's index pass only through unarchived fetched channels. */
  lemma DescentUnarchived(all: seq<Channel>, top: seq<string>, chain: seq<Channel>)
    requires Descent(ById(Unarchived(all)), top, chain)
    ensures forall j :: 0 <= j < |chain| ==> chain[j] in all && !chain[j].archived
  {
    var byId := ById(Unarchived(all));
    forall j | 0 <= j < |chain| ensures chain[j] in all && !chain[j].archived {
      assert byId[chain[j].id] == chain[j];
      assert chain[j] in Unarchived(all);
    }
  }

  /** Every entry of a listing names a channel of the map. */
  lemma {:induction false} ListingIds(byId: map<string, Channel>, roots: seq<Channel>, fuel: nat)
    requires Keyed(byId)
    requires forall i :: 0 <= i < |roots| ==> roots[i].id in byId
    ensures Below(Listing(byId, roots, fuel), "", byId)
  {
    if roots != [] {
      var last := roots[|roots| - 1];
      var init := roots[..|roots| - 1];
      ListingIds(byId, init, fuel);
      EntriesExtendPath(byId, last.children, last.name, fuel);
      var sub := Entries(byId, last.children, last.name, fuel);
      assert Below(sub, "", byId) by {
        forall i | 0 <= i < |sub| ensures StartsWith(sub[i].name, "") && sub[i].id in byId {
          assert StartsWith(sub[i].name, last.name + "/");
        }
      }
      BelowAppend(Listing(byId, init, fuel), [TraQChannel(last.id, last.name)], "", byId);
      BelowAppend(Listing(byId, init, fuel) + [TraQChannel(last.id, last.name)], sub, "", byId);
    }
  }

  /** No archived channel is listed: every entry carries the id of an unarchived public channel. */
  lemma NoArchivedChannelListed(all: seq<Channel>)
    ensures var r := ChannelList(all);
      forall i :: 0 <= i < |r| ==> exists c :: c in all && !c.archived && c.id == r[i].id
  {
    var channels := Unarchived(all);
    var byId := ById(channels);
    var roots := Roots(channels);
    forall i | 0 <= i < |roots| ensures roots[i].id in byId {
      assert roots[i] in channels;
    }
    ListingIds(byId, roots, |channels|);
    var r := ChannelList(all);
    forall i | 0 <= i < |r| ensures exists c :: c in all && !c.archived && c.id == r[i].id {
      assert r[i].id in byId;
      var c := byId[r[i].id];
      assert c in channels;
    }
  }

  /** When every fetched channel is archived, the list is empty. */
  lemma {:induction false} AllArchivedListsNothing(all: seq<Channel>)
    requires forall i :: 0 <= i < |all| ==> all[i].archived
    ensures Unarchived(all) == []
    ensures ChannelList(all) == []
  {
    if all != [] {
      AllArchivedListsNothing(all[1..]);
    }
  }

  /** A child id that is missing from the map adds nothing, subtree included. */
  lemma UnknownChildSkipped(byId: map<string, Channel>, children: seq<string>, cid: string, path: string, fuel: nat)
    requires cid !in byId
    ensures Entries(byId, children + [cid], path, fuel) == Entries(byId, children, path, fuel)
  {
    assert (children + [cid])[..|children|] == children;
  }

  function ExampleRoot(): Channel { Channel("a", "general", None, ["b", "x", "c"], false) }
  function ExampleChildB(): Channel { Channel("b", "random", Some("a"), [], false) }
  function ExampleChildC(): Channel { Channel("c", "dev", Some("a"), [], false) }
  function ExampleArchived(): Channel { Channel("d", "old", None, [], true) }

  lemma ExampleUnarchived()
    ensures Unarchived([ExampleArchived(), ExampleRoot(), ExampleChildB(), ExampleChildC()]) == [ExampleRoot(), ExampleChildB(), ExampleChildC()]
  {
    var a, b, c, d := ExampleRoot(), ExampleChildB(), ExampleChildC(), ExampleArchived();
    assert !a.archived && !b.archived && !c.archived && d.archived;
    UnarchivedAllLive([a, b, c]);
    UnarchivedCons(d, [a, b, c]);
    assert [d] + [a, b, c] == [d, a, b, c];
  }

  /** A list with no archived channel is kept whole. */
  lemma {:induction false} UnarchivedAllLive(cs: seq<Channel>)
    requires forall i :: 0 <= i < |cs| ==> !cs[i].archived
    ensures Unarchived(cs) == cs
  {
    if cs != [] {
      UnarchivedAllLive(cs[1..]);
      assert cs == [cs[0]] + cs[1..];
    }
  }

  /** Proof step for the concrete examples below: the filter peeled by one channel. */
  lemma UnarchivedCons(c: Channel, rest: seq<Channel>)
    ensures Unarchived([c] + rest) == (if c.archived then [] else [c]) + Unarchived(rest)
  {
    assert ([c] + rest)[1..] == rest;
  }

  lemma ExampleById()
    ensures ById([ExampleRoot(), ExampleChildB(), ExampleChildC()]) == map["a" := ExampleRoot(), "b" := ExampleChildB(), "c" := ExampleChildC()]
    ensures Roots([ExampleRoot(), ExampleChildB(), ExampleChildC()]) == [ExampleRoot()]
  {
    var a, b, c := ExampleRoot(), ExampleChildB(), ExampleChildC();
    assert [a, b, c][..2] == [a, b] && [a, b][..1] == [a] && [a][..0] == [];
    assert ById([a]) == map["a" := a];
    assert ById([a, b]) == map["a" := a, "b" := b];
    assert Roots([a]) == [a] && Roots([a, b]) == [a];
  }

  lemma ExampleEntries(byId: map<string, Channel>)
    requires byId == map["a" := ExampleRoot(), "b" := ExampleChildB(), "c" := ExampleChildC()]
    ensures Entries(byId, ["b", "x", "c"], "general", 3) == [TraQChannel("b", "general/random"), TraQChannel("c", "general/dev")]
  {
    var ch := ["b", "x", "c"];
    assert ch[..2] == ["b", "x"] && ["b", "x"][..1] == ["b"] && ["b"][..0] == [];
    assert "general" + "/" + "random" == "general/random";
    assert "general" + "/" + "dev" == "general/dev";
    assert Entries(byId, [], "general/random", 2) == [] && Entries(byId, [], "general/dev", 2) == [];
    assert Entry(byId, "b", "general", 3) == [TraQChannel("b", "general/random")];
    assert Entry(byId, "x", "general", 3) == [];
    assert Entry(byId, "c", "general", 3) == [TraQChannel("c", "general/dev")];
  }

  /** Proof step for the concrete examples below: the list unfolded over given parts. */
  lemma ChannelListOf(all: seq<Channel>, channels: seq<Channel>, byId: map<string, Channel>, roots: seq<Channel>)
    requires Unarchived(all) == channels && ById(channels) == byId && Roots(channels) == roots
    ensures ChannelList(all) == Listing(byId, roots, |channels|)
  {
  }

  lemma ExampleListing(byId: map<string, Channel>)
    requires byId == map["a" := ExampleRoot(), "b" := ExampleChildB(), "c" := ExampleChildC()]
    ensures Listing(byId, [ExampleRoot()], 3) ==
      [TraQChannel("a", "general"), TraQChannel("b", "general/random"), TraQChannel("c", "general/dev")]
  {
    ExampleEntries(byId);
    assert [ExampleRoot()][..0] == [];
  }

  /**
   * A one-level tree: the archived channel is dropped, the root is listed under its bare name,
   * then each known child as `root/child` in the order of `Children`; the unknown id is skipped.
   */
  lemma RootAndChildrenExample()
    ensures ChannelList([ExampleArchived(), ExampleRoot(), ExampleChildB(), ExampleChildC()]) ==
      [TraQChannel("a", "general"), TraQChannel("b", "general/random"), TraQChannel("c", "general/dev")]
  {
    var a, b, c := ExampleRoot(), ExampleChildB(), ExampleChildC();
    ExampleUnarchived();
    ExampleById();
    var byId := map["a" := a, "b" := b, "c" := c];
    ExampleListing(byId);
    ChannelListOf([ExampleArchived(), a, b, c], [a, b, c], byId, [a]);
  }
}
