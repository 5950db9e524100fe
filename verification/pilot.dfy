/** The pilot: it pairs each infrastructure ("/pause") container with
    its workload container by container name, and keeps one rendered fluentd
    configuration file per paired workload container under
    /etc/fluentd/conf.d. */
module Pilot {
  import opened FileSystem
  import opened Docker

  const FluentdConfHome := "/etc/fluentd"
  const ConfDir := FluentdConfHome + "/conf.d"
  /** The label of the infrastructure container that carries the topic. */
  const LabelLogs := "logtopic"
  /** The entrypoint that marks an infrastructure container. */
  const PausePath := "/pause"
  const Running := "running"
  const Removing := "removing"
  const Destroy := "destroy"

  /** What is known of one container name's log source. The empty string stands for a
      field that no container has contributed yet. */
  datatype LogInfo = LogInfo(containerId: string, logPath: string, logTopic: string)

  /** Pending pairings, keyed by container name. */
  type Table = map<string, LogInfo>

  /** Everything the pilot changes: the pending table and the disk. */
  datatype State = State(table: Table, fs: Fs)

  /** What the template is executed with. */
  type Context = map<string, string>

  /** The result of executing the template. */
  datatype Rendered = Rendered(text: string) | RenderError

  /** The parsed template: executing it may fail. */
  type Template = Context -> Rendered

  datatype Error =
    | RenderFailed
    | WriteFailed(cause: FsError)
    | CleanFailed(cause: FsError)
    | ListFailed
    | InspectFailed(id: string)

  /** The error an operation returns, if any. */
  datatype Outcome = Ok | Fail(error: Error)

  /** An operation's error together with the state it leaves behind. */
  datatype Step = Step(outcome: Outcome, state: State)

  // ---------------------------------------------------------------------
  // Topic of an infrastructure container
  // ---------------------------------------------------------------------

  /** The topic label's value, "" when the label is absent. */
  function TopicOf(labels: map<string, string>): string
  {
    if LabelLogs in labels then labels[LabelLogs] else ""
  }

  /** The scan over the labels that picks the topic out. */
  method ScanTopic(labels: map<string, string>) returns (topic: string)
    ensures LabelLogs in labels ==> topic == labels[LabelLogs]
    ensures LabelLogs !in labels ==> topic == ""
    ensures topic == TopicOf(labels)
  {
    topic := "";
    var keys := labels.Keys;
    while keys != {}
      invariant keys <= labels.Keys
      invariant topic == (if LabelLogs in labels && LabelLogs !in keys then labels[LabelLogs] else "")
      decreases keys
    {
      var key :| key in keys;
      if key == LabelLogs {
        topic := labels[key];
      }
      keys := keys - {key};
    }
  }

  // ---------------------------------------------------------------------
  // Materialising one log source
  // ---------------------------------------------------------------------

  /** The configuration file of a container. */
  function PathOf(id: string): (p: string)
    ensures |p| == |ConfDir| + |id| + 6
    ensures p[..|ConfDir| + 1] == ConfDir + "/"
    ensures '/' !in id ==> InDir(p, ConfDir)
  {
    var p := ConfDir + "/" + id + ".conf";
    ConfFileIsInConfDir(id, p);
    p
  }

  /** A configuration file name sits directly in the configuration directory
      as long as the id holds no '/'. */
  lemma ConfFileIsInConfDir(id: string, p: string)
    requires p == ConfDir + "/" + id + ".conf"
    ensures '/' !in id ==> InDir(p, ConfDir)
  {
    if '/' !in id {
      assert p[|ConfDir|] == '/';
      forall j | |ConfDir| < j < |p|
        ensures p[j] != '/'
      {
        if j < |ConfDir| + 1 + |id| {
          assert p[j] == id[j - |ConfDir| - 1];
        } else {
          assert p[j] == ".conf"[j - |ConfDir| - 1 - |id|];
        }
      }
      var i := LastSlash(p);
      assert i == |ConfDir|;
      assert p[..i] == ConfDir;
    }
  }

  /** The template context: only the log path and the topic reach it. */
  function ContextOf(info: LogInfo): Context
  {
    map["logPath" := info.logPath, "logTopic" := info.logTopic]
  }

  /** A context with exactly the two keys and the record's values is the
      record's context. */
  lemma ContextIsDetermined(info: LogInfo)
    ensures forall ctx: Context ::
              (ctx.Keys == {"logPath", "logTopic"} && ctx["logPath"] == info.logPath
               && ctx["logTopic"] == info.logTopic) ==> ctx == ContextOf(info)
  {
    forall ctx: Context | ctx.Keys == {"logPath", "logTopic"} && ctx["logPath"] == info.logPath
                          && ctx["logTopic"] == info.logTopic
      ensures ctx == ContextOf(info)
    {
      assert ctx.Keys == ContextOf(info).Keys;
    }
  }

  /** Executes the template on the context holding exactly the keys
      "logPath" and "logTopic", bound to the record's values. */
  function Render(tpl: Template, info: LogInfo): (r: Rendered)
    ensures forall ctx: Context ::
              (ctx.Keys == {"logPath", "logTopic"} && ctx["logPath"] == info.logPath
               && ctx["logTopic"] == info.logTopic) ==> tpl(ctx) == r
  {
    ContextIsDetermined(info);
    tpl(ContextOf(info))
  }

  /** Renders `info` and writes it to the file of its container. */
  function NewContainerLog(tpl: Template, info: LogInfo, fs: Fs): (r: (Outcome, Fs))
    ensures Render(tpl, info).RenderError? ==> r == (Fail(RenderFailed), fs)
    ensures r.0 == Ok <==> Render(tpl, info).Rendered? && WriteFile(fs, PathOf(info.containerId), Render(tpl, info).text).FsOk?
    ensures r.0.Fail? ==> r.1 == fs
    ensures r.0 == Ok ==> PathOf(info.containerId) in r.1
                          && r.1[PathOf(info.containerId)] == Regular(Render(tpl, info).text)
    ensures forall q :: q != PathOf(info.containerId) ==>
              (q in r.1 <==> q in fs) && (q in fs ==> r.1[q] == fs[q])
  {
    match Render(tpl, info)
    case RenderError => (Fail(RenderFailed), fs)
    case Rendered(text) =>
      match WriteFile(fs, PathOf(info.containerId), text)
      case FsFail(e) => (Fail(WriteFailed(e)), fs)
      case FsOk(fs') => (Ok, fs')
  }

  // ---------------------------------------------------------------------
  // The pairing reconciler
  // ---------------------------------------------------------------------

  /** Feeds one inspected container into the table. The infrastructure
      container contributes the topic, any other container its id and log
      path; the second contribution for a name completes the pairing, which
      is written out when the topic is not empty, and the name's entry is
      dropped either way. An error of the write is not reported. */
  function NewContainer(tpl: Template, st: State, c: Container): (r: State)
    ensures c.status != Running ==> r == st
    ensures c.status == Running ==>
              r.table.Keys == if c.name in st.table then st.table.Keys - {c.name}
                              else st.table.Keys + {c.name}
    ensures forall n :: n in r.table && n != c.name ==> n in st.table && r.table[n] == st.table[n]
    ensures c.name !in st.table ==> r.fs == st.fs
    ensures c.status == Running && c.name !in st.table ==>
              r.table[c.name] == if c.path == PausePath then LogInfo("", "", TopicOf(c.labels))
                                 else LogInfo(c.id, c.logPath, "")
  {
    if c.status != Running then st
    else if c.path == PausePath then
      var topic := TopicOf(c.labels);
      if c.name in st.table then
        var fs := if topic != "" then NewContainerLog(tpl, st.table[c.name].(logTopic := topic), st.fs).1
                  else st.fs;
        State(st.table - {c.name}, fs)
      else
        State(st.table[c.name := LogInfo("", "", topic)], st.fs)
    else
      if c.name in st.table then
        var e := st.table[c.name];
        var fs := if e.logTopic != "" then NewContainerLog(tpl, e.(containerId := c.id, logPath := c.logPath), st.fs).1
                  else st.fs;
        State(st.table - {c.name}, fs)
      else
        State(st.table[c.name := LogInfo(c.id, c.logPath, "")], st.fs)
  }

  // ---------------------------------------------------------------------
  // Events
  // ---------------------------------------------------------------------

  /** Whether the configuration file of a container is on disk. */
  predicate Exists(fs: Fs, id: string)
    ensures Exists(fs, id) <==> Remove(fs, PathOf(id)).FsOk?
  {
    PathOf(id) in fs
  }

  /** Removes the configuration file of a container. */
  function DelContainer(fs: Fs, id: string): (r: FsResult)
    ensures r.FsOk? <==> Exists(fs, id)
    ensures r.FsOk? ==> !Exists(r.fs, id) && r.fs.Keys == fs.Keys - {PathOf(id)}
    ensures r.FsOk? ==> forall q :: q in r.fs ==> r.fs[q] == fs[q]
  {
    Remove(fs, PathOf(id))
  }

  /** Handles one container event. A "running" container whose file is
      already on disk is skipped, otherwise it is inspected and fed into the
      table; "destroy" removes the container's file, ignoring a failure; any
      other action is ignored. */
  function ProcessEvent(tpl: Template, st: State, inspect: Inspector, msg: Event): (r: Step)
    ensures msg.action == Running && Exists(st.fs, msg.actorId) ==> r == Step(Ok, st)
    ensures msg.action == Running && !Exists(st.fs, msg.actorId) && msg.actorId !in inspect ==>
              r == Step(Fail(InspectFailed(msg.actorId)), st)
    ensures msg.action == Running && !Exists(st.fs, msg.actorId) && msg.actorId in inspect ==>
              r.outcome == Ok && r.state == NewContainer(tpl, st, inspect[msg.actorId])
    ensures msg.action == Destroy ==>
              r.outcome == Ok && r.state.table == st.table && !Exists(r.state.fs, msg.actorId)
              && r.state.fs.Keys == st.fs.Keys - {PathOf(msg.actorId)}
              && forall q :: q in r.state.fs ==> r.state.fs[q] == st.fs[q]
    ensures msg.action != Running && msg.action != Destroy ==> r == Step(Ok, st)
  {
    var id := msg.actorId;
    if msg.action == Running then
      if Exists(st.fs, id) then Step(Ok, st)
      else if id !in inspect then Step(Fail(InspectFailed(id)), st)
      else Step(Ok, NewContainer(tpl, st, inspect[id]))
    else if msg.action == Destroy then
      var fs := match DelContainer(st.fs, id)
                case FsOk(fs') => fs'
                case FsFail(_) => st.fs;
      Step(Ok, State(st.table, fs))
    else Step(Ok, st)
  }

  // ---------------------------------------------------------------------
  // Bootstrap
  // ---------------------------------------------------------------------

  /** A regular file directly inside the configuration directory. */
  predicate IsConfigFile(fs: Fs, p: string)
  {
    p in fs && InDir(p, ConfDir) && fs[p].Regular?
  }

  /** Removes every regular file of the configuration directory. */
  function CleanConfigs(fs: Fs): (r: FsResult)
    ensures r.FsOk? <==> ConfDir in fs && fs[ConfDir].Directory?
    ensures r.FsOk? ==> forall p :: p in r.fs ==> !IsConfigFile(r.fs, p)
    ensures r.FsOk? ==> forall p :: p in fs ==> (p in r.fs <==> !IsConfigFile(fs, p))
    ensures r.FsOk? ==> forall p :: p in r.fs ==> p in fs && r.fs[p] == fs[p]
  {
    if ConfDir !in fs then FsFail(NotExist)
    else if !fs[ConfDir].Directory? then FsFail(NotDirectory)
    else FsOk(map p | p in fs && !IsConfigFile(fs, p) :: fs[p])
  }

  /** A listed container the startup pass inspects: one not being removed. */
  predicate Eligible(s: Summary)
  {
    s.state != Removing
  }

  /** Inspects and feeds the listed containers in order, skipping those
      being removed; the first failed inspection ends the pass, keeping what
      the containers before it did. */
  function Feed(tpl: Template, st: State, list: seq<Summary>, inspect: Inspector): (r: Step)
    ensures r.outcome.Ok? <==> forall i :: 0 <= i < |list| && Eligible(list[i]) ==> list[i].id in inspect
    ensures r.outcome.Fail? ==>
              && r.outcome.error.InspectFailed?
              && r.outcome.error.id !in inspect
    decreases |list|
  {
    if list == [] then Step(Ok, st)
    else if !Eligible(list[0]) then Feed(tpl, st, list[1..], inspect)
    else if list[0].id !in inspect then Step(Fail(InspectFailed(list[0].id)), st)
    else Feed(tpl, NewContainer(tpl, st, inspect[list[0].id]), list[1..], inspect)
  }

  /** The startup pass: list all containers, clear the configuration
      directory, then feed every container that is not being removed. */
  function ProcessAllContainers(tpl: Template, st: State, listing: Listing, inspect: Inspector): (r: Step)
    ensures listing.ListError? ==> r == Step(Fail(ListFailed), st)
    ensures listing.Listed? && CleanConfigs(st.fs).FsFail? ==>
              r == Step(Fail(CleanFailed(CleanConfigs(st.fs).error)), st)
    ensures listing.Listed? && CleanConfigs(st.fs).FsOk? ==>
              r == Feed(tpl, State(st.table, CleanConfigs(st.fs).fs), listing.summaries, inspect)
    ensures listing.Listed? && CleanConfigs(st.fs).FsOk? ==>
              (r.outcome.Ok? <==>
                 forall i :: (0 <= i < |listing.summaries| && Eligible(listing.summaries[i])) ==>
                               listing.summaries[i].id in inspect)
  {
    match listing
    case ListError => Step(Fail(ListFailed), st)
    case Listed(list) =>
      match CleanConfigs(st.fs)
      case FsFail(e) => Step(Fail(CleanFailed(e)), st)
      case FsOk(fs) => Feed(tpl, State(st.table, fs), list, inspect)
  }
}
