/** Properties of handling container events. */
module Events {
  import opened FileSystem
  import opened Docker
  import opened Pilot

  /** The existence test sees the file a successful write leaves, and no
      longer sees it once the container's file is removed. */
  lemma ExistsTracksWriteAndRemove(tpl: Template, info: LogInfo, fs: Fs)
    ensures NewContainerLog(tpl, info, fs).0 == Ok ==> Exists(NewContainerLog(tpl, info, fs).1, info.containerId)
    ensures DelContainer(fs, info.containerId).FsOk? ==>
              !Exists(DelContainer(fs, info.containerId).fs, info.containerId)
  {
  }

  /** A destroy event for a container without a file reports no error and
      changes nothing. */
  lemma DestroyWithoutFileIsQuiet(tpl: Template, st: State, inspect: Inspector, id: string)
    requires !Exists(st.fs, id)
    ensures DelContainer(st.fs, id) == FsFail(NotExist)
    ensures ProcessEvent(tpl, st, inspect, Event(Destroy, id)) == Step(Ok, st)
  {
  }

  /** A repeated destroy event is a no-op. */
  lemma DestroyTwice(tpl: Template, st: State, inspect: Inspector, id: string)
    ensures var once := ProcessEvent(tpl, st, inspect, Event(Destroy, id));
            ProcessEvent(tpl, once.state, inspect, Event(Destroy, id)) == once
  {
    var once := ProcessEvent(tpl, st, inspect, Event(Destroy, id));
    assert !Exists(once.state.fs, id);
  }

  /** A repeated "running" event for a container is a no-op once its file
      is on disk. */
  lemma RunningTwice(tpl: Template, st: State, inspect: Inspector, id: string)
    requires var once := ProcessEvent(tpl, st, inspect, Event(Running, id));
             Exists(once.state.fs, id)
    ensures var once := ProcessEvent(tpl, st, inspect, Event(Running, id));
            ProcessEvent(tpl, once.state, inspect, Event(Running, id)) == Step(Ok, once.state)
  {
  }

  /** Running events for an infrastructure container and then the
      workload container write the workload's file; a destroy event for the
      workload then removes it again, leaving the table as it was. */
  lemma PairThenDestroy(tpl: Template, st: State, inspect: Inspector, pauseId: string, workId: string)
    requires pauseId in inspect && workId in inspect
    requires var p := inspect[pauseId]; p.status == Running && p.path == PausePath && TopicOf(p.labels) != ""
    requires var w := inspect[workId]; w.status == Running && w.path != PausePath && w.id == workId
    requires inspect[pauseId].name == inspect[workId].name && inspect[workId].name !in st.table
    requires !Exists(st.fs, pauseId) && !Exists(st.fs, workId)
    requires var w := inspect[workId];
             NewContainerLog(tpl, LogInfo(w.id, w.logPath, TopicOf(inspect[pauseId].labels)), st.fs).0 == Ok
    ensures var s1 := ProcessEvent(tpl, st, inspect, Event(Running, pauseId)).state;
            var s2 := ProcessEvent(tpl, s1, inspect, Event(Running, workId)).state;
            var s3 := ProcessEvent(tpl, s2, inspect, Event(Destroy, workId)).state;
            && Exists(s2.fs, workId)
            && s2.table == st.table
            && !Exists(s3.fs, workId)
            && s3.table == st.table
  {
    var p := inspect[pauseId];
    var w := inspect[workId];
    var s1 := ProcessEvent(tpl, st, inspect, Event(Running, pauseId)).state;
    assert s1 == NewContainer(tpl, st, p);
    assert s1.fs == st.fs;
    var s2 := ProcessEvent(tpl, s1, inspect, Event(Running, workId)).state;
    assert s2 == NewContainer(tpl, s1, w);
    assert s1.table[w.name] == LogInfo("", "", TopicOf(p.labels));
    assert s2.table == st.table by {
      assert st.table[w.name := LogInfo("", "", TopicOf(p.labels))] - {w.name} == st.table;
    }
  }
}
