/** The web view of the plugin: the rewrite that points a JIPipe project's
    "define project ids" nodes at the results project, the request that
    prepares and runs a project (process_datasets), and the lookup of the
    configuration stored on a project (getJIPipeJSON).

    The OMERO server is modelled as a sequence of projects; decoding a body
    and json.loads are abstracted into a `Content` that either parsed to a
    document or failed with a reason. */
module Views {
  import opened Wrappers
  import opened Decimal
  import opened Json
  import opened Host
  import Tasks

  const GraphKey := "graph"
  const NodesKey := "nodes"
  const AliasKey := "jipipe:alias-id"
  const DatasetKey := "dataset-ids"
  const Marker := "define-project-ids"

  // ---------------------------------------------------------------------------
  // The node rewrite

  /** What the loop body needs of a node: a dict whose alias is a string
      (anything else raises TypeError, KeyError or AttributeError). */
  predicate WellShaped(node: Json) {
    node.JObject? && AliasKey in node.fields && node.fields[AliasKey].JStr?
  }

  function Alias(node: Json): string
    requires WellShaped(node)
  {
    node.fields[AliasKey].s
  }

  /** The test of the loop: the lower-cased alias contains the marker. */
  predicate Matches(alias: string) {
    ContainsSub(Lower(alias), Marker)
  }

  /** One iteration of the loop: a matching node gets `dataset-ids` set to a
      one-element list holding the results project id. */
  function RewriteNode(node: Json, id: int): (r: Json)
    requires WellShaped(node)
    ensures WellShaped(r) && Alias(r) == Alias(node)
    ensures Matches(Alias(node)) ==>
      && r.fields.Keys == node.fields.Keys + {DatasetKey}
      && r.fields[DatasetKey] == JArray([JNum(id)])
      && forall f :: f in node.fields && f != DatasetKey ==> r.fields[f] == node.fields[f]
    ensures !Matches(Alias(node)) ==> r == node
  {
    assert DatasetKey[0] != AliasKey[0];
    if Matches(Alias(node)) then JObject(node.fields[DatasetKey := JArray([JNum(id)])]) else node
  }

  /** The whole loop over `nodes.values()`: defined when every node is well
      shaped (otherwise the loop raises and the partly rewritten document is
      dropped), and then every node rewritten under its own key. */
  function Rewritten(nodes: map<string, Json>, id: int): Option<map<string, Json>> {
    if forall k :: k in nodes ==> WellShaped(nodes[k])
    then Some(map k | k in nodes :: RewriteNode(nodes[k], id))
    else None
  }

  /** doc["graph"]["nodes"] as a dict, when every step of that path exists. */
  function NodesOf(doc: Json): Option<map<string, Json>> {
    if doc.JObject? && GraphKey in doc.fields
       && doc.fields[GraphKey].JObject? && NodesKey in doc.fields[GraphKey].fields
       && doc.fields[GraphKey].fields[NodesKey].JObject?
    then Some(doc.fields[GraphKey].fields[NodesKey].fields)
    else None
  }

  /** The document with its node dict replaced (the effect of mutating the
      node dicts in place). */
  function ReplaceNodes(doc: Json, nodes: map<string, Json>): (r: Json)
    requires NodesOf(doc).Some?
    ensures NodesOf(r) == Some(nodes)
  {
    var graph := doc.fields[GraphKey];
    JObject(doc.fields[GraphKey := JObject(graph.fields[NodesKey := JObject(nodes)])])
  }

  /** The project as written to JIPipeProject.jip, or None when the loop raises. */
  function RewriteDocument(doc: Json, id: int): Option<Json> {
    match NodesOf(doc)
    case None => None
    case Some(nodes) =>
      match Rewritten(nodes, id)
      case None => None
      case Some(m) => Some(ReplaceNodes(doc, m))
  }

  /** The loop over the node dicts, one node at a time. */
  method RewriteNodes(nodes: map<string, Json>, id: int) returns (r: Option<map<string, Json>>)
    ensures r == Rewritten(nodes, id)
  {
    var todo := nodes.Keys;
    var out := nodes;
    while todo != {}
      invariant todo <= nodes.Keys && out.Keys == nodes.Keys
      invariant forall k :: k in nodes && k !in todo ==> WellShaped(nodes[k]) && out[k] == RewriteNode(nodes[k], id)
      invariant forall k :: k in todo ==> out[k] == nodes[k]
      decreases todo
    {
      var k :| k in todo;
      var node := out[k];
      if !WellShaped(node) {
        return None;
      }
      out := out[k := RewriteNode(node, id)];
      todo := todo - {k};
    }
    assert out == map k | k in nodes :: RewriteNode(nodes[k], id);
    r := Some(out);
  }

  /** After the rewrite every matching node lists exactly the results project;
      nothing else in the document changes. */
  lemma {:induction false} RewriteDocumentEffect(doc: Json, id: int)
    requires RewriteDocument(doc, id).Some?
    ensures var d := RewriteDocument(doc, id).value;
      && NodesOf(doc).Some? && NodesOf(d).Some?
      && var before, after := NodesOf(doc).value, NodesOf(d).value;
      && after.Keys == before.Keys
      && (forall k :: k in before ==> WellShaped(before[k]))
      && (forall k :: k in before && Matches(Alias(before[k])) ==>
            && after[k].fields.Keys == before[k].fields.Keys + {DatasetKey}
            && after[k].fields[DatasetKey] == JArray([JNum(id)])
            && forall f :: f in before[k].fields && f != DatasetKey ==> after[k].fields[f] == before[k].fields[f])
      && (forall k :: k in before && !Matches(Alias(before[k])) ==> after[k] == before[k])
      && d.fields.Keys == doc.fields.Keys
      && (forall f :: f in doc.fields && f != GraphKey ==> d.fields[f] == doc.fields[f])
      && d.fields[GraphKey].fields.Keys == doc.fields[GraphKey].fields.Keys
      && (forall f :: f in doc.fields[GraphKey].fields && f != NodesKey ==>
            d.fields[GraphKey].fields[f] == doc.fields[GraphKey].fields[f])
  {
    var before := NodesOf(doc).value;
    var after := Rewritten(before, id).value;
    assert NodesOf(RewriteDocument(doc, id).value).value == after;
  }

  /** A missing graph, nodes or alias makes the loop raise. */
  lemma {:induction false} RewriteFailsOnMalformed(doc: Json, id: int)
    ensures (!doc.JObject? || GraphKey !in doc.fields) ==> RewriteDocument(doc, id).None?
    ensures (doc.JObject? && GraphKey in doc.fields && doc.fields[GraphKey].JObject?
             && NodesKey !in doc.fields[GraphKey].fields) ==> RewriteDocument(doc, id).None?
    ensures forall k :: (NodesOf(doc).Some? && k in NodesOf(doc).value
                         && !WellShaped(NodesOf(doc).value[k])) ==> RewriteDocument(doc, id).None?
  {
  }

  /** One rewritten node is left alone by a second rewrite. */
  lemma {:induction false} RewriteNodeIdempotent(node: Json, id: int)
    requires WellShaped(node)
    ensures RewriteNode(RewriteNode(node, id), id) == RewriteNode(node, id)
  {
    var r := RewriteNode(node, id);
    if Matches(Alias(node)) {
      assert r.fields[DatasetKey := JArray([JNum(id)])] == r.fields;
    }
  }

  /** Rewriting a rewritten project changes nothing. */
  lemma {:induction false} RewriteIdempotent(doc: Json, id: int)
    requires RewriteDocument(doc, id).Some?
    ensures RewriteDocument(RewriteDocument(doc, id).value, id) == RewriteDocument(doc, id)
  {
    var d := RewriteDocument(doc, id).value;
    var m := Rewritten(NodesOf(doc).value, id).value;
    assert NodesOf(d) == Some(m);
    assert forall k :: k in m ==> WellShaped(m[k]);
    var m2 := Rewritten(m, id).value;
    forall k | k in m
      ensures m2[k] == m[k]
    {
      RewriteNodeIdempotent(NodesOf(doc).value[k], id);
    }
    assert m2 == m;
    var g := d.fields[GraphKey];
    assert g.fields[NodesKey] == JObject(m);
    assert g.fields[NodesKey := JObject(m)] == g.fields;
    assert d.fields[GraphKey := JObject(g.fields)] == d.fields;
  }

  const MixedCaseAlias := "My-Define-Project-IDs"

  /** Lower-casing the mixed-case alias puts the marker at position 3. */
  lemma LowerMixedCase()
    ensures Lower(MixedCaseAlias)[3..21] == Marker
  {
    var l := Lower(MixedCaseAlias);
    assert |l| == 21;
    forall i | 3 <= i < 21
      ensures l[i] == Marker[i - 3]
    {
    }
  }

  /** The test ignores case and looks for a substring: a mixed-case alias with
      a prefix matches. */
  lemma MatchExample()
    ensures Matches(MixedCaseAlias)
  {
    LowerMixedCase();
    var l := Lower(MixedCaseAlias);
    assert OccursAt(l, Marker, 3);
    ContainsSubAt(l, Marker);
  }

  /** Case never decides a match: an alias and its lower-cased form agree. */
  lemma {:induction false} MatchIgnoresCase(alias: string)
    ensures Matches(Lower(alias)) == Matches(alias)
  {
    LowerIdempotent(alias);
  }

  // ---------------------------------------------------------------------------
  // The object store

  /** What json.loads made of a body: a document, or the reason it failed
      (a UnicodeDecodeError or a JSONDecodeError). */
  datatype Content = Parsed(doc: Json) | Unparseable(reason: string)

  datatype Annotation = FileAnnotation(file: Content) | OtherAnnotation(kind: string)

  datatype Project = Project(id: nat, name: string, description: string, annotations: seq<Annotation>)

  /** The server's projects in listing order and the id the next saved object gets. */
  datatype Store = Store(projects: seq<Project>, nextId: nat) {
    /** Ids are distinct and were handed out before. */
    ghost predicate Valid() {
      && (forall i :: 0 <= i < |projects| ==> projects[i].id < nextId)
      && (forall i, j :: 0 <= i < j < |projects| ==> projects[i].id != projects[j].id)
    }
  }

  const ResultsName := "JIPipeResults"
  const ResultsDescription := "Project to save all JIPipe results"

  /** The projects with a given name, in listing order. */
  function Named(ps: seq<Project>, name: string): (r: seq<Project>)
    ensures forall q :: q in r ==> q in ps && q.name == name
    ensures forall q :: q in ps && q.name == name ==> q in r
  {
    assert ps != [] ==> ps == ps[..|ps| - 1] + [ps[|ps| - 1]];
    if ps == [] then []
    else Named(ps[..|ps| - 1], name) + (if ps[|ps| - 1].name == name then [ps[|ps| - 1]] else [])
  }

  /** getObject("Project", attributes={"name": ...}) followed by the creation
      of the results project when there is none: no match creates it, one
      match is reused, several make the query raise. */
  function FindOrCreate(s: Store): (Store, Option<nat>) {
    var named := Named(s.projects, ResultsName);
    if |named| == 0 then
      (Store(s.projects + [Project(s.nextId, ResultsName, ResultsDescription, [])], s.nextId + 1), Some(s.nextId))
    else if |named| == 1 then (s, Some(named[0].id))
    else (s, None)
  }

  lemma {:induction false} NamedAppend(ps: seq<Project>, p: Project, name: string)
    ensures Named(ps + [p], name) == Named(ps, name) + (if p.name == name then [p] else [])
  {
    assert (ps + [p])[..|ps + [p]| - 1] == ps;
  }

  /** After the lookup there is exactly one results project and its id is the
      one returned; it was created exactly when none existed. */
  lemma {:induction false} ResultsProjectUnique(s: Store)
    ensures var (t, r) := FindOrCreate(s);
      && (r.Some? <==> |Named(s.projects, ResultsName)| <= 1)
      && (r.Some? ==> |Named(t.projects, ResultsName)| == 1 && Named(t.projects, ResultsName)[0].id == r.value)
      && (|Named(s.projects, ResultsName)| == 0 ==>
            t.projects == s.projects + [Project(s.nextId, ResultsName, ResultsDescription, [])])
      && (|Named(s.projects, ResultsName)| != 0 ==> t == s)
      && (s.Valid() ==> t.Valid())
  {
    var p := Project(s.nextId, ResultsName, ResultsDescription, []);
    NamedAppend(s.projects, p, ResultsName);
  }

  /** A second lookup reuses what the first found or created. */
  lemma {:induction false} FindOrCreateStable(s: Store)
    requires FindOrCreate(s).1.Some?
    ensures FindOrCreate(FindOrCreate(s).0) == FindOrCreate(s)
  {
    ResultsProjectUnique(s);
  }

  /** The server-side object store. */
  class ObjectStore {
    var projects: seq<Project>
    var nextId: nat

    function State(): Store
      reads this
    {
      Store(projects, nextId)
    }

    constructor (projects0: seq<Project>, nextId0: nat)
      ensures projects == projects0 && nextId == nextId0
    {
      projects := projects0;
      nextId := nextId0;
    }

    /** Lines 184-195: find the results project or save a new one. */
    method FindOrCreateResults() returns (id: Option<nat>)
      modifies this
      ensures (State(), id) == FindOrCreate(old(State()))
    {
      var named := Named(projects, ResultsName);
      if |named| == 0 {
        projects := projects + [Project(nextId, ResultsName, ResultsDescription, [])];
        id := Some(nextId);
        nextId := nextId + 1;
      } else if |named| == 1 {
        id := Some(named[0].id);
      } else {
        id := None;
      }
    }
  }

  // ---------------------------------------------------------------------------
  // Replies

  /** Why the request failed; the reply reads "An error occurred: " followed by
      the exception's text. */
  datatype Cause = LookupAmbiguous | Undecodable(reason: string) | Malformed | CommandFailed(code: int)

  datatype Body = Text(text: string) | Document(doc: Json) | ErrorReport(cause: Cause)

  datatype Reply = Reply(status: nat, body: Body)

  const SuccessText := "Images successfully processed, refresh the page to see the results in the results project!"
  const ProjectPrefix := "Project "
  const NotFoundSuffix := " not found."
  const NoFilePrefix := "No FileAnnotation found on Project "
  const Period := "."
  const ParseErrorPrefix := "Error parsing JSON: "

  function ProjectMissing(id: int): string { ProjectPrefix + IntToString(id) + NotFoundSuffix }
  function NoFileAnnotation(id: int): string { NoFilePrefix + IntToString(id) + Period }

  // ---------------------------------------------------------------------------
  // process_datasets

  /** The try block up to the command: find the results project, parse the
      body, rewrite it. */
  datatype Prepared = Failed(cause: Cause) | Ready(project: Json)

  function Prepare(s: Store, request: Content): (Store, Prepared) {
    var (t, rid) := FindOrCreate(s);
    if rid.None? then (t, Failed(LookupAmbiguous))
    else if request.Unparseable? then (t, Failed(Undecodable(request.reason)))
    else match RewriteDocument(request.doc, rid.value)
      case None => (t, Failed(Malformed))
      case Some(d) => (t, Ready(d))
  }

  /** What the try block does on the host once the project is prepared:
      write JIPipeProject.jip into the input directory and run the command. */
  function Ran(p: Prepared, tin: nat, tout: nat): seq<Event> {
    if p.Ready? then [FileWritten(tin, Tasks.ProjectFile, p.project), CommandRun(tin, tout)] else []
  }

  /** The reply: the cause of the first exception, else success. */
  function Answer(p: Prepared, code: int): Reply {
    if p.Failed? then Reply(500, ErrorReport(p.cause))
    else if code != 0 then Reply(500, ErrorReport(CommandFailed(code)))
    else Reply(200, Text(SuccessText))
  }

  /** The host side: two fresh directories, what the prepared project runs,
      and the input directory removed in `finally`; the output directory is
      left behind. */
  function Handle(w: World, p: Prepared): World {
    var tin := w.nextTemp;
    World(w.registry, (w.dirs + {tin} + {tin + 1}) - {tin}, tin + 2, w.logs,
          w.events + Ran(p, tin, tin + 1) + [DirRemoved(tin)])
  }

  /** The request once both directories exist; `code` is the exit status of
      the JIPipe command. */
  function Process(w: World, s: Store, request: Content, code: int): (World, Store, Reply) {
    var (t, p) := Prepare(s, request);
    (Handle(w, p), t, Answer(p, code))
  }

  /** Which of the two mkdtemp calls (lines 95 and 98) raises, if either. */
  datatype TempFailure = NoTempFailure | InputTempFails | OutputTempFails

  /** How the view ends: with a reply, or with an exception that escapes it
      because it was raised before the try statement. */
  datatype Response = Answered(reply: Reply) | Uncaught

  /** The whole request. A failing mkdtemp raises outside the try, so the
      finally clause does not run: a first directory already made stays. */
  function Serve(w: World, s: Store, request: Content, code: int, fail: TempFailure): (World, Store, Response) {
    match fail
    case InputTempFails => (w, s, Uncaught)
    case OutputTempFails => (w.(dirs := w.dirs + {w.nextTemp}, nextTemp := w.nextTemp + 1), s, Uncaught)
    case NoTempFailure =>
      var (w2, t, reply) := Process(w, s, request, code);
      (w2, t, Answered(reply))
  }

  /** Lines 184-204: the results project, the body, the rewrite; any
      exception here becomes the cause of a 500 reply. */
  method PrepareProject(store: ObjectStore, request: Content) returns (p: Prepared)
    modifies store
    ensures (store.State(), p) == Prepare(old(store.State()), request)
  {
    var rid := store.FindOrCreateResults();
    if rid.None? {
      return Failed(LookupAmbiguous);
    }
    if request.Unparseable? {
      return Failed(Undecodable(request.reason));
    }
    var nodes := NodesOf(request.doc);
    if nodes.None? {
      return Failed(Malformed);
    }
    var rewritten := RewriteNodes(nodes.value, rid.value);
    if rewritten.None? {
      return Failed(Malformed);
    }
    p := Ready(ReplaceNodes(request.doc, rewritten.value));
  }

  /** Lines 206-318 once the project is prepared: write and run it, answer,
      and in `finally` remove the input directory (and only that one). */
  method RunPrepared(h: Host, p: Prepared, tin: nat, tout: nat, code: int) returns (reply: Reply)
    requires tin in h.dirs
    modifies h
    ensures h.dirs == old(h.dirs) - {tin}
    ensures h.events == old(h.events) + Ran(p, tin, tout) + [DirRemoved(tin)]
    ensures h.registry == old(h.registry) && h.logs == old(h.logs) && h.nextTemp == old(h.nextTemp)
    ensures reply == Answer(p, code)
  {
    if p.Failed? {
      reply := Reply(500, ErrorReport(p.cause));
    } else {
      h.WriteFile(tin, Tasks.ProjectFile, p.project);
      h.RunCommand(tin, tout);
      reply := if code != 0 then Reply(500, ErrorReport(CommandFailed(code))) else Reply(200, Text(SuccessText));
    }
    var _ := h.RemoveTree(tin);
  }

  /** Lines 95-322: two temporary directories, the project prepared from the
      request, then run, and the input directory removed in `finally`. */
  method ProcessDatasets(h: Host, store: ObjectStore, request: Content, code: int, fail: TempFailure)
    returns (response: Response)
    modifies h, store
    ensures (h.State(), store.State(), response) == Serve(old(h.State()), old(store.State()), request, code, fail)
  {
    if fail.InputTempFails? { return Uncaught; }
    var tin := h.MakeTemp();
    if fail.OutputTempFails? { return Uncaught; }
    var tout := h.MakeTemp();
    var p := PrepareProject(store, request);
    var reply := RunPrepared(h, p, tin, tout, code);
    response := Answered(reply);
  }

  /** On every path through the try statement the input directory is gone and
      the output directory stays; the cache and the logs are untouched and the
      removal is the last effect. */
  lemma {:induction false} ProcessRemovesInput(w: World, s: Store, request: Content, code: int)
    requires w.Valid()
    ensures var (w2, _, _) := Process(w, s, request, code);
      && w2.Valid()
      && w.nextTemp !in w2.dirs
      && w2.dirs == w.dirs + {w.nextTemp + 1}
      && w2.registry == w.registry && w2.logs == w.logs
      && |w2.events| > |w.events| && w2.events[|w2.events| - 1] == DirRemoved(w.nextTemp)
  {
    var tin := w.nextTemp;
    assert tin !in w.dirs;
    assert (w.dirs + {tin} + {tin + 1}) - {tin} == w.dirs + {tin + 1};
  }

  /** A failing mkdtemp escapes the view before anything else happens: the
      store and the trace are untouched, and when the second call fails the
      input directory made by the first is left behind. */
  lemma {:induction false} TempFailureLeaks(w: World, s: Store, request: Content, code: int, fail: TempFailure)
    requires w.Valid() && !fail.NoTempFailure?
    ensures var (w2, t, response) := Serve(w, s, request, code, fail);
      && response == Uncaught && t == s
      && w2.registry == w.registry && w2.logs == w.logs && w2.events == w.events
      && w2.dirs == (if fail.OutputTempFails? then w.dirs + {w.nextTemp} else w.dirs)
      && w2.Valid()
  {
  }

  /** The input directory outlives the request exactly when the second mkdtemp
      raises. */
  lemma {:induction false} InputLeftIff(w: World, s: Store, request: Content, code: int, fail: TempFailure)
    requires w.Valid()
    ensures w.nextTemp in Serve(w, s, request, code, fail).0.dirs <==> fail.OutputTempFails?
  {
    if fail.NoTempFailure? {
      ProcessRemovesInput(w, s, request, code);
    } else {
      TempFailureLeaks(w, s, request, code, fail);
    }
  }

  /** The request succeeds exactly when the lookup is unambiguous, the body
      parses, every node is well shaped and the command exits with 0; every
      other path answers 500. */
  lemma {:induction false} ProcessOutcome(w: World, s: Store, request: Content, code: int)
    ensures var (_, _, reply) := Process(w, s, request, code);
      var rid := FindOrCreate(s).1;
      && (reply.status == 200 || reply.status == 500)
      && (reply.status == 200 <==>
            && rid.Some? && request.Parsed?
            && RewriteDocument(request.doc, rid.value).Some? && code == 0)
      && (reply.status == 200 ==> reply.body == Text(SuccessText))
  {
  }

  /** A well-formed request writes the rewritten project, whose matching nodes
      list the results project, runs the command on it and then removes the
      input directory. */
  lemma {:induction false} ProcessWritesProject(w: World, s: Store, request: Content, code: int)
    requires request.Parsed?
    requires FindOrCreate(s).1.Some?
    requires RewriteDocument(request.doc, FindOrCreate(s).1.value).Some?
    ensures var (w2, t, _) := Process(w, s, request, code);
      var id := FindOrCreate(s).1.value;
      var d := RewriteDocument(request.doc, id).value;
      && w2.events == w.events + [FileWritten(w.nextTemp, Tasks.ProjectFile, d),
                                  CommandRun(w.nextTemp, w.nextTemp + 1), DirRemoved(w.nextTemp)]
      && t == FindOrCreate(s).0
  {
  }

  /** A body that does not parse, or lacks graph, nodes or an alias, answers
      500 and writes no project file; the results project has been found or
      created all the same. */
  lemma {:induction false} ProcessRejectsMalformed(w: World, s: Store, request: Content, code: int)
    requires FindOrCreate(s).1.Some?
    requires request.Unparseable? || RewriteDocument(request.doc, FindOrCreate(s).1.value).None?
    ensures var (w2, t, reply) := Process(w, s, request, code);
      && reply.status == 500
      && reply.body == ErrorReport(if request.Unparseable? then Undecodable(request.reason) else Malformed)
      && w2.events == w.events + [DirRemoved(w.nextTemp)]
      && |Named(t.projects, ResultsName)| == 1
  {
    PrepareRejects(s, request);
    ResultsProjectUnique(s);
  }

  /** The try block fails before the project file when the body does not
      parse or cannot be rewritten. */
  lemma {:induction false} PrepareRejects(s: Store, request: Content)
    requires FindOrCreate(s).1.Some?
    requires request.Unparseable? || RewriteDocument(request.doc, FindOrCreate(s).1.value).None?
    ensures Prepare(s, request)
      == (FindOrCreate(s).0, Failed(if request.Unparseable? then Undecodable(request.reason) else Malformed))
  {
  }

  // ---------------------------------------------------------------------------
  // getJIPipeJSON

  /** getObject("Project", id): the project with that id, if any. */
  function FindProject(ps: seq<Project>, id: int): (r: Option<Project>)
    ensures r.Some? ==> r.value in ps && r.value.id == id
    ensures r.None? ==> forall p :: p in ps ==> p.id != id
  {
    if ps == [] then None
    else if ps[0].id == id then Some(ps[0])
    else FindProject(ps[1..], id)
  }

  /** The position of the first file annotation in listing order. */
  function FirstFile(anns: seq<Annotation>): (r: Option<nat>)
    ensures r.Some? ==> r.value < |anns| && anns[r.value].FileAnnotation?
                        && forall j :: 0 <= j < r.value ==> !anns[j].FileAnnotation?
    ensures r.None? ==> forall j :: 0 <= j < |anns| ==> !anns[j].FileAnnotation?
  {
    if anns == [] then None
    else if anns[0].FileAnnotation? then Some(0)
    else match FirstFile(anns[1..])
      case None => None
      case Some(i) => Some(i + 1)
  }

  /** The content of the annotation getJIPipeJSON reads, if there is one. */
  function Chosen(ps: seq<Project>, id: int): Option<Content> {
    match FindProject(ps, id)
    case None => None
    case Some(p) =>
      match FirstFile(p.annotations)
      case None => None
      case Some(i) => Some(p.annotations[i].file)
  }

  /** Lines 343-369: 404 for a missing project or one without a file
      annotation, 400 when the first file annotation does not parse, and the
      parsed document otherwise. */
  method GetJIPipeJSON(ps: seq<Project>, projectId: int) returns (reply: Reply)
    ensures FindProject(ps, projectId).None? ==> reply == Reply(404, Text(ProjectMissing(projectId)))
    ensures FindProject(ps, projectId).Some? && Chosen(ps, projectId).None? ==>
              reply == Reply(404, Text(NoFileAnnotation(projectId)))
    ensures Chosen(ps, projectId).Some? && Chosen(ps, projectId).value.Unparseable? ==>
              reply == Reply(400, Text(ParseErrorPrefix + Chosen(ps, projectId).value.reason))
    ensures Chosen(ps, projectId).Some? && Chosen(ps, projectId).value.Parsed? ==>
              reply == Reply(200, Document(Chosen(ps, projectId).value.doc))
  {
    var project := FindProject(ps, projectId);
    if project.None? {
      return Reply(404, Text(ProjectMissing(projectId)));
    }
    var anns := project.value.annotations;
    var chosen: Option<Annotation> := None;
    var i := 0;
    while i < |anns|
      invariant 0 <= i <= |anns|
      invariant forall j :: 0 <= j < i ==> !anns[j].FileAnnotation?
    {
      if anns[i].FileAnnotation? {
        chosen := Some(anns[i]);
        break;
      }
      i := i + 1;
    }
    if chosen.None? {
      return Reply(404, Text(NoFileAnnotation(projectId)));
    }
    assert FirstFile(anns) == Some(i);
    match chosen.value.file
    case Unparseable(e) =>
      reply := Reply(400, Text(ParseErrorPrefix + e));
    case Parsed(d) =>
      reply := Reply(200, Document(d));
  }
}
