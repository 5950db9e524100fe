/** Properties of the startup pass over all listed containers. */
module Bootstrap {
  import opened FileSystem
  import opened Docker
  import opened Pilot

  /** When the pass fails, it fails on the first container not being
      removed that cannot be inspected, and keeps what the containers before
      it did. */
  lemma {:induction false} FeedFailFast(tpl: Template, st: State, list: seq<Summary>, inspect: Inspector)
    ensures var r := Feed(tpl, st, list, inspect);
            r.outcome.Fail? ==>
              exists k :: 0 <= k < |list| && Eligible(list[k]) && list[k].id !in inspect
                          && r.outcome == Fail(InspectFailed(list[k].id))
                          && (forall j :: 0 <= j < k && Eligible(list[j]) ==> list[j].id in inspect)
                          && r.state == Feed(tpl, st, list[..k], inspect).state
    decreases |list|
  {
    if list == [] {
    } else if list[0].id !in inspect && Eligible(list[0]) {
      assert list[..0] == [];
    } else {
      var st' := if Eligible(list[0]) then NewContainer(tpl, st, inspect[list[0].id]) else st;
      var tail := list[1..];
      assert Feed(tpl, st, list, inspect) == Feed(tpl, st', tail, inspect);
      FeedFailFast(tpl, st', tail, inspect);
      var r := Feed(tpl, st', tail, inspect);
      if r.outcome.Fail? {
        var k :| 0 <= k < |tail| && Eligible(tail[k]) && tail[k].id !in inspect
                 && r.outcome == Fail(InspectFailed(tail[k].id))
                 && (forall j :: 0 <= j < k && Eligible(tail[j]) ==> tail[j].id in inspect)
                 && r.state == Feed(tpl, st', tail[..k], inspect).state;
        var prefix := list[..k + 1];
        assert prefix[0] == list[0] && prefix[1..] == tail[..k];
        assert Feed(tpl, st, prefix, inspect) == Feed(tpl, st', tail[..k], inspect);
        assert list[k + 1] == tail[k];
        forall j | 0 <= j < k + 1 && Eligible(list[j])
          ensures list[j].id in inspect
        {
          if j > 0 {
            assert list[j] == tail[j - 1];
          }
        }
      }
    }
  }

  /** A container being removed has no effect on the pass, wherever it
      appears in the list. */
  lemma {:induction false} FeedSkipsRemoving(tpl: Template, st: State, a: seq<Summary>, s: Summary,
                                             b: seq<Summary>, inspect: Inspector)
    requires s.state == Removing
    ensures Feed(tpl, st, a + [s] + b, inspect) == Feed(tpl, st, a + b, inspect)
    decreases |a|
  {
    if a == [] {
      assert a + [s] + b == [s] + b;
      assert ([s] + b)[1..] == b;
      assert a + b == b;
    } else {
      var st' := if Eligible(a[0]) && a[0].id in inspect then NewContainer(tpl, st, inspect[a[0].id]) else st;
      assert (a + [s] + b)[0] == a[0] && (a + [s] + b)[1..] == a[1..] + [s] + b;
      assert (a + b)[0] == a[0] && (a + b)[1..] == a[1..] + b;
      FeedSkipsRemoving(tpl, st', a[1..], s, b, inspect);
    }
  }

  /** The pass adds at most one pending record per listed container. */
  lemma {:induction false} FeedTableBound(tpl: Template, st: State, list: seq<Summary>, inspect: Inspector)
    ensures |Feed(tpl, st, list, inspect).state.table| <= |st.table| + |list|
    decreases |list|
  {
    if list != [] {
      if Eligible(list[0]) && list[0].id in inspect {
        var c := inspect[list[0].id];
        var st' := NewContainer(tpl, st, c);
        if c.status == Running && c.name !in st.table {
          assert st'.table.Keys == st.table.Keys + {c.name};
        } else if c.status == Running {
          assert st'.table.Keys == st.table.Keys - {c.name};
        }
        assert |st'.table| <= |st.table| + 1;
        FeedTableBound(tpl, st', list[1..], inspect);
      } else if !Eligible(list[0]) {
        FeedTableBound(tpl, st, list[1..], inspect);
      }
    }
  }

  /** Clearing the configuration directory a second time changes nothing. */
  lemma CleanConfigsIdempotent(fs: Fs)
    requires CleanConfigs(fs).FsOk?
    ensures CleanConfigs(CleanConfigs(fs).fs) == CleanConfigs(fs)
  {
    var once := CleanConfigs(fs).fs;
    assert once[ConfDir] == fs[ConfDir];
    assert CleanConfigs(once).fs == once;
  }

  /** Feeding a container never replaces or removes a node that is not a
      regular file. */
  lemma NewContainerKeepsNonRegular(tpl: Template, st: State, c: Container, p: string)
    requires p in st.fs && !st.fs[p].Regular?
    ensures var r := NewContainer(tpl, st, c);
            p in r.fs && r.fs[p] == st.fs[p]
  {
  }

  /** The pass never replaces or removes a node that is not a regular file. */
  lemma {:induction false} FeedKeepsNonRegular(tpl: Template, st: State, list: seq<Summary>,
                                               inspect: Inspector, p: string)
    requires p in st.fs && !st.fs[p].Regular?
    ensures var r := Feed(tpl, st, list, inspect);
            p in r.state.fs && r.state.fs[p] == st.fs[p]
    decreases |list|
  {
    if list != [] {
      if Eligible(list[0]) && list[0].id in inspect {
        var st' := NewContainer(tpl, st, inspect[list[0].id]);
        NewContainerKeepsNonRegular(tpl, st, inspect[list[0].id], p);
        FeedKeepsNonRegular(tpl, st', list[1..], inspect, p);
      } else if !Eligible(list[0]) {
        FeedKeepsNonRegular(tpl, st, list[1..], inspect, p);
      }
    }
  }

  /** The configuration files of a set of container ids. */
  function PathsOf(ids: set<string>): set<string>
  {
    set x | x in ids :: PathOf(x)
  }

  /** A running container that is not an infrastructure container: the
      only kind whose id a pending record can take. */
  predicate RunningWorkload(c: Container)
  {
    c.status == Running && c.path != PausePath
  }

  /** The ids of the listed running workload containers that the pass
      feeds, and the empty id a record gets from an infrastructure container
      alone. */
  function KnownIds(list: seq<Summary>, inspect: Inspector): set<string>
  {
    {""} + set i | 0 <= i < |list| && Eligible(list[i]) && list[i].id in inspect
                   && RunningWorkload(inspect[list[i].id]) :: inspect[list[i].id].id
  }

  /** Every pending record carries a known id and every configuration file
      belongs to a known id. */
  ghost predicate Accounted(st: State, ids: set<string>)
  {
    && (forall n :: n in st.table ==> st.table[n].containerId in ids)
    && (forall p :: IsConfigFile(st.fs, p) ==> p in PathsOf(ids))
  }

  /** Feeding one container preserves `Accounted` when the container's id
      is known in case it is a running workload. */
  lemma NewContainerKeepsAccounted(tpl: Template, st: State, c: Container, ids: set<string>)
    requires Accounted(st, ids) && "" in ids
    requires RunningWorkload(c) ==> c.id in ids
    ensures Accounted(NewContainer(tpl, st, c), ids)
  {
    var r := NewContainer(tpl, st, c);
    var id := if c.path == PausePath && c.name in st.table then st.table[c.name].containerId else c.id;
    forall p | IsConfigFile(r.fs, p)
      ensures p in PathsOf(ids)
    {
      if p == PathOf(id) && r.fs != st.fs {
        assert id in ids;
        assert p in PathsOf(ids);
      } else if p != PathOf(id) {
        assert p in st.fs && r.fs[p] == st.fs[p];
        assert IsConfigFile(st.fs, p);
      }
    }
  }

  /** The pass preserves `Accounted` when every running workload it feeds
      has a known id. */
  lemma {:induction false} FeedKeepsAccounted(tpl: Template, st: State, list: seq<Summary>,
                                              inspect: Inspector, ids: set<string>)
    requires Accounted(st, ids) && "" in ids
    requires forall i :: (0 <= i < |list| && Eligible(list[i]) && list[i].id in inspect
                          && RunningWorkload(inspect[list[i].id])) ==> inspect[list[i].id].id in ids
    ensures Accounted(Feed(tpl, st, list, inspect).state, ids)
    decreases |list|
  {
    if list != [] {
      var tail := list[1..];
      assert forall i :: 0 <= i < |tail| ==> tail[i] == list[i + 1];
      if Eligible(list[0]) && list[0].id in inspect {
        var c := inspect[list[0].id];
        NewContainerKeepsAccounted(tpl, st, c, ids);
        FeedKeepsAccounted(tpl, NewContainer(tpl, st, c), tail, inspect, ids);
      } else if !Eligible(list[0]) {
        FeedKeepsAccounted(tpl, st, tail, inspect, ids);
      }
    }
  }

  /** At startup (an empty table) a pass that got past listing and cleaning
      leaves in the configuration directory only files of listed running
      workload containers that are not being removed, plus possibly the file
      of the empty id: stale files, and files of exited or removed
      containers, are gone. Every node that is not a regular file is kept. */
  lemma BootstrapLeavesOnlyKnownFiles(tpl: Template, st: State, listing: Listing, inspect: Inspector)
    requires st.table == map[]
    ensures var r := ProcessAllContainers(tpl, st, listing, inspect);
            r.outcome == Ok || r.outcome.error.InspectFailed? ==>
              && listing.Listed?
              && (forall p :: IsConfigFile(r.state.fs, p) ==> p in PathsOf(KnownIds(listing.summaries, inspect)))
              && (forall p :: p in st.fs && !st.fs[p].Regular? ==> p in r.state.fs && r.state.fs[p] == st.fs[p])
  {
    var r := ProcessAllContainers(tpl, st, listing, inspect);
    if listing.Listed? && CleanConfigs(st.fs).FsOk? {
      var list := listing.summaries;
      var ids := KnownIds(list, inspect);
      var cleaned := State(st.table, CleanConfigs(st.fs).fs);
      assert Accounted(cleaned, ids);
      forall i | 0 <= i < |list| && Eligible(list[i]) && list[i].id in inspect
                 && RunningWorkload(inspect[list[i].id])
        ensures inspect[list[i].id].id in ids
      {
      }
      FeedKeepsAccounted(tpl, cleaned, list, inspect, ids);
      forall p | p in st.fs && !st.fs[p].Regular?
        ensures p in r.state.fs && r.state.fs[p] == st.fs[p]
      {
        FeedKeepsNonRegular(tpl, cleaned, list, inspect, p);
      }
    }
  }

  /** A startup pass that gets past cleaning fails on the first listed
      container not being removed that cannot be inspected, and keeps what
      the containers before it did to the cleaned state. */
  lemma PassFailsFast(tpl: Template, st: State, list: seq<Summary>, inspect: Inspector)
    requires CleanConfigs(st.fs).FsOk?
    ensures var r := ProcessAllContainers(tpl, st, Listed(list), inspect);
            var cleaned := State(st.table, CleanConfigs(st.fs).fs);
            r.outcome.Fail? ==>
              exists k :: 0 <= k < |list| && Eligible(list[k]) && list[k].id !in inspect
                          && r.outcome == Fail(InspectFailed(list[k].id))
                          && (forall j :: 0 <= j < k && Eligible(list[j]) ==> list[j].id in inspect)
                          && r.state == Feed(tpl, cleaned, list[..k], inspect).state
  {
    FeedFailFast(tpl, State(st.table, CleanConfigs(st.fs).fs), list, inspect);
  }

  /** A container being removed has no effect on the startup pass, wherever
      it appears in the list. */
  lemma PassSkipsRemoving(tpl: Template, st: State, a: seq<Summary>, s: Summary, b: seq<Summary>,
                          inspect: Inspector)
    requires s.state == Removing
    ensures ProcessAllContainers(tpl, st, Listed(a + [s] + b), inspect)
            == ProcessAllContainers(tpl, st, Listed(a + b), inspect)
  {
    if CleanConfigs(st.fs).FsOk? {
      FeedSkipsRemoving(tpl, State(st.table, CleanConfigs(st.fs).fs), a, s, b, inspect);
    }
  }
}
