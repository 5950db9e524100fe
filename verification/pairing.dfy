/** Properties of the pairing reconciler and of materialising one log
    source. */
module Pairing {
  import opened FileSystem
  import opened Docker
  import opened Pilot

  /** Distinct container ids get distinct configuration files. */
  lemma PathOfInjective(a: string, b: string)
    ensures PathOf(a) == PathOf(b) <==> a == b
  {
    if PathOf(a) == PathOf(b) {
      var k := |ConfDir| + 1;
      assert |a| == |b|;
      assert a == PathOf(a)[k..k + |a|];
      assert b == PathOf(b)[k..k + |b|];
    }
  }

  /** Writing the same log source a second time changes nothing and reports
      the same outcome. */
  lemma NewContainerLogIdempotent(tpl: Template, info: LogInfo, fs: Fs)
    ensures var once := NewContainerLog(tpl, info, fs);
            NewContainerLog(tpl, info, once.1) == once
  {
    var once := NewContainerLog(tpl, info, fs);
    var p := PathOf(info.containerId);
    if once.0 == Ok {
      var text := Render(tpl, info).text;
      assert Parent(p) != p;
      assert once.1 == fs[p := Regular(text)];
      assert WriteFile(once.1, p, text) == FsOk(once.1);
    }
  }

  /** The container id does not reach the template: two log sources with
      the same log path and topic render to the same text. */
  lemma RenderSeesOnlyPathAndTopic(tpl: Template, a: LogInfo, b: LogInfo)
    requires a.logPath == b.logPath && a.logTopic == b.logTopic
    ensures Render(tpl, a) == Render(tpl, b)
  {
  }

  /** Feeding one container changes at most one file: the file of the
      record the pairing completes. */
  lemma NewContainerTouchesOnePath(tpl: Template, st: State, c: Container)
    ensures var r := NewContainer(tpl, st, c);
            var id := if c.path == PausePath && c.name in st.table then st.table[c.name].containerId
                      else c.id;
            forall q :: q != PathOf(id) ==>
              (q in r.fs <==> q in st.fs) && (q in st.fs ==> r.fs[q] == st.fs[q])
  {
  }

  /** An infrastructure and a workload container of the same, not yet
      pending, name end in the same state whichever is fed first: the table
      is as before, and the merged record {id, log path, topic} is written
      exactly when the topic is not empty. */
  lemma PairInEitherOrder(tpl: Template, st: State, pause: Container, work: Container)
    requires pause.status == Running && pause.path == PausePath
    requires work.status == Running && work.path != PausePath
    requires pause.name == work.name && work.name !in st.table
    ensures var info := LogInfo(work.id, work.logPath, TopicOf(pause.labels));
            var expected := State(st.table, if info.logTopic != "" then NewContainerLog(tpl, info, st.fs).1 else st.fs);
            && NewContainer(tpl, NewContainer(tpl, st, pause), work) == expected
            && NewContainer(tpl, NewContainer(tpl, st, work), pause) == expected
  {
    var n := work.name;
    var topic := TopicOf(pause.labels);
    assert st.table[n := LogInfo("", "", topic)] - {n} == st.table;
    assert st.table[n := LogInfo(work.id, work.logPath, "")] - {n} == st.table;
  }

  /** When the pairing completes with a non-empty topic and the write
      succeeds, exactly one file is added or replaced: the container's file,
      holding the rendered merged record. */
  lemma PairWritesOneFile(tpl: Template, st: State, pause: Container, work: Container)
    requires pause.status == Running && pause.path == PausePath
    requires work.status == Running && work.path != PausePath
    requires pause.name == work.name && work.name !in st.table
    requires TopicOf(pause.labels) != ""
    requires var info := LogInfo(work.id, work.logPath, TopicOf(pause.labels));
             NewContainerLog(tpl, info, st.fs).0 == Ok
    ensures var info := LogInfo(work.id, work.logPath, TopicOf(pause.labels));
            var r := NewContainer(tpl, NewContainer(tpl, st, pause), work);
            && r.fs.Keys == st.fs.Keys + {PathOf(work.id)}
            && r.fs[PathOf(work.id)] == Regular(Render(tpl, info).text)
            && forall q :: q in st.fs && q != PathOf(work.id) ==> r.fs[q] == st.fs[q]
  {
    PairInEitherOrder(tpl, st, pause, work);
  }

  /** An infrastructure container without a topic never causes a write,
      and neither does a workload container joining a record without one. */
  lemma EmptyTopicNeverWrites(tpl: Template, st: State, c: Container)
    requires c.path == PausePath ==> TopicOf(c.labels) == ""
    requires c.path != PausePath && c.name in st.table ==> st.table[c.name].logTopic == ""
    ensures NewContainer(tpl, st, c).fs == st.fs
  {
  }

  /** Two infrastructure containers under one name, the second with a topic,
      write a record with an empty id and log path, to the file
      "/etc/fluentd/conf.d/.conf". */
  lemma DoublePauseWritesEmptyId(tpl: Template, st: State, p1: Container, p2: Container)
    requires p1.status == Running && p1.path == PausePath
    requires p2.status == Running && p2.path == PausePath
    requires p1.name == p2.name && p1.name !in st.table
    requires TopicOf(p2.labels) != ""
    ensures var r := NewContainer(tpl, NewContainer(tpl, st, p1), p2);
            && r.table == st.table
            && r.fs == NewContainerLog(tpl, LogInfo("", "", TopicOf(p2.labels)), st.fs).1
            && PathOf("") == "/etc/fluentd/conf.d/.conf"
  {
    assert st.table[p1.name := LogInfo("", "", TopicOf(p1.labels))] - {p1.name} == st.table;
  }

  /** A workload container seen twice under one name, with no infrastructure
      container in between, is dropped: the second sighting removes the
      pending record and nothing is written. */
  lemma WorkloadTwiceIsDropped(tpl: Template, st: State, w1: Container, w2: Container)
    requires w1.status == Running && w1.path != PausePath
    requires w2.status == Running && w2.path != PausePath
    requires w1.name == w2.name && w1.name !in st.table
    ensures NewContainer(tpl, NewContainer(tpl, st, w1), w2) == st
  {
    assert st.table[w1.name := LogInfo(w1.id, w1.logPath, "")] - {w1.name} == st.table;
  }
}
