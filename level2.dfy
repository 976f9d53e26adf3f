/**
 * Level 2, the manifest editor page: the player's text, the latest verdict
 * of the validate endpoint and the `serverDone` flag loaded from the saved
 * progress. The page counts as passed, and shows a checklist, from those
 * two alone.
 */
module Level2 {
  import opened Common
  import opened Yaml
  import opened Rubric
  import JsText
  import OnceGuard
  import ProgressStore

  // ---- the two manifests the page ships, as `yaml.safe_load` reads them ----

  function Labels(): Value { Map(map["app" := Str("web")]) }

  /** The pod template's container of the starter manifest. */
  function StarterContainer(): Value
  {
    Map(map["name" := Str("web"), "image" := Str("nginx:latest"),
            "ports" := List([Map(map["containerPort" := Int(80)])])])
  }

  /** A Deployment `web` of `nginx`-labelled pods with the given replica count and single container. */
  function Manifest(replicas: int, container: Value): Value
  {
    Map(map[
      "apiVersion" := Str("apps/v1"),
      "kind" := Str("Deployment"),
      "metadata" := Map(map["name" := Str("web")]),
      "spec" := DeploymentSpec(replicas, container)])
  }

  function DeploymentSpec(replicas: int, container: Value): Value
  {
    Map(map[
      "replicas" := Int(replicas),
      "selector" := Map(map["matchLabels" := Labels()]),
      "template" := PodTemplate(container)])
  }

  function PodTemplate(container: Value): Value
  {
    Map(map["metadata" := Map(map["labels" := Labels()]), "spec" := PodSpecOf(container)])
  }

  function PodSpecOf(container: Value): Value { Map(map["containers" := List([container])]) }

  /** `STARTER_YAML`: one replica, no probes, no resources. */
  function StarterTree(): Value { Manifest(1, StarterContainer()) }

  function Probe(delay: int, period: int): Value
  {
    Map(map["httpGet" := Map(map["path" := Str("/"), "port" := Int(80)]),
            "initialDelaySeconds" := Int(delay), "periodSeconds" := Int(period)])
  }

  /** The container of `PASSING_YAML`: the starter's plus both probes and the resources. */
  function PassingContainer(): Value
  {
    Map(StarterContainer().fields[
      "readinessProbe" := Probe(3, 5)][
      "livenessProbe" := Probe(10, 10)][
      "resources" := Map(map[
        "requests" := Map(map["cpu" := Str("100m"), "memory" := Str("128Mi")]),
        "limits" := Map(map["cpu" := Str("250m"), "memory" := Str("256Mi")])])])
  }

  /** `PASSING_YAML`, pasted by the "Paste Solution" button. */
  function PassingTree(): Value { Manifest(2, PassingContainer()) }

  // ---- what the page derives ----

  /** The result stored when the request failed or its body was not JSON (the HTTP 500 page). */
  const NetworkError := Verdict(false, ["Network error"], [])

  /** The seven checks, all true: the checklist shown for a level saved as done. */
  const AllGreen := Labelled([true, true, true, true, true, true, true])

  /** What `validateYaml` stores in `result`; `reply` is None when `fetch` failed. */
  function Received(reply: Option<Response>): (v: Verdict)
    ensures v.ok ==> reply == Some(Answered(v))
  {
    match reply
    case Some(Answered(v)) => v
    case _ => NetworkError
  }

  /** `serverDone || !!result?.ok` */
  predicate Passed(serverDone: bool, result: Option<Verdict>)
  {
    serverDone || (result.Some? && result.value.ok)
  }

  /** `result?.checks || (serverDone ? {...all true} : {})`: a verdict's checks are an object, never falsy. */
  function DisplayedChecks(serverDone: bool, result: Option<Verdict>): seq<(string, bool)>
  {
    if result.Some? then result.value.checks
    else if serverDone then AllGreen
    else []
  }

  /** `data?.tasks?.validYaml` */
  predicate SavedAsDone(reply: ProgressStore.ProgressRes)
  {
    "validYaml" in reply.tasks && reply.tasks["validYaml"]
  }

  /** The editor text after the load: a saved non-blank manifest of a level saved as done replaces it. */
  function RestoredText(text: string, reply: ProgressStore.ProgressRes): string
  {
    if SavedAsDone(reply) && reply.yaml.Some? && JsText.Trim(reply.yaml.value) != [] then reply.yaml.value
    else text
  }

  // ---- the page ----

  class Page {
    var playerId: Option<string>
    var yamlText: string
    var validating: bool
    var result: Option<Verdict>
    var serverDone: bool
    var fired: bool

    /** `passed` */
    predicate IsPassed()
      reads this
    {
      Passed(serverDone, result)
    }

    /** `checks` */
    function Checks(): seq<(string, bool)>
      reads this
    {
      DisplayedChecks(serverDone, result)
    }

    /** The page as first rendered: the starter text, no player yet, no verdict. */
    constructor (starterText: string)
      ensures playerId == None && yamlText == starterText
      ensures !validating && result == None && !serverDone && !fired
    {
      playerId := None;
      yamlText := starterText;
      validating := false;
      result := None;
      serverDone := false;
      fired := false;
    }

    /** The load effect: the player id, then the saved progress of level 2, or None when the request failed. */
    method Load(pid: string, reply: Option<ProgressStore.ProgressRes>)
      modifies this
      ensures playerId == Some(pid)
      ensures serverDone == (old(serverDone) || (reply.Some? && SavedAsDone(reply.value)))
      ensures yamlText == if reply.Some? then RestoredText(old(yamlText), reply.value) else old(yamlText)
      ensures validating == old(validating) && result == old(result) && fired == old(fired)
    {
      playerId := Some(pid);
      if reply.None? {
        return;
      }
      var data := reply.value;
      if "validYaml" in data.tasks && data.tasks["validYaml"] {
        serverDone := true;
        if data.yaml.Some? && JsText.Trim(data.yaml.value) != [] {
          yamlText := data.yaml.value;
        }
      }
    }

    /** Typing in the editor, or the "Paste Solution" button with the passing manifest's text. */
    method Edit(text: string)
      modifies this
      ensures yamlText == text
      ensures playerId == old(playerId) && validating == old(validating) && result == old(result)
      ensures serverDone == old(serverDone) && fired == old(fired)
    {
      yamlText := text;
    }

    /** `validateYaml` up to the request: nothing without a player; otherwise the old verdict is cleared. */
    method StartValidation() returns (started: bool)
      modifies this
      ensures started <==> old(playerId).Some? && old(playerId).value != ""
      ensures started ==> validating && result == None
      ensures !started ==> validating == old(validating) && result == old(result)
      ensures playerId == old(playerId) && yamlText == old(yamlText)
      ensures serverDone == old(serverDone) && fired == old(fired)
    {
      if playerId.None? || playerId.value == "" {
        return false;
      }
      validating := true;
      result := None;
      started := true;
    }

    /** `validateYaml` once the request settled: the body or the network error, and `serverDone` on a pass. */
    method FinishValidation(reply: Option<Response>)
      modifies this
      ensures result == Some(Received(reply))
      ensures serverDone == (old(serverDone) || Received(reply).ok)
      ensures !validating
      ensures playerId == old(playerId) && yamlText == old(yamlText) && fired == old(fired)
    {
      var data := Received(reply);
      result := Some(data);
      if data.ok {
        serverDone := true;
      }
      validating := false;
    }

    /** The confetti effect, run whenever `passed` changes: fires at most once per page. */
    method Celebrate() returns (fires: bool)
      modifies this
      ensures fires == OnceGuard.Check(Passed(old(serverDone), old(result)), old(fired)).fires
      ensures fired == OnceGuard.Check(Passed(old(serverDone), old(result)), old(fired)).firedAfter
      ensures playerId == old(playerId) && yamlText == old(yamlText) && validating == old(validating)
      ensures result == old(result) && serverDone == old(serverDone)
    {
      if !IsPassed() || fired {
        return false;
      }
      fired := true;
      fires := true;
    }
  }

  // ---- what the page promises ----

  /** A verdict that passed checks every rubric item: what it shows is the saved-progress checklist. */
  lemma PassingVerdictIsAllGreen(parsed: Parsed)
    requires Judge(parsed).Answered? && Judge(parsed).verdict.ok
    ensures Judge(parsed).verdict == Verdict(true, [], AllGreen)
  {
    match parsed
    case ParseError(m) =>
    case Tree(t) =>
      var bs := Outcomes(Document(t));
      GradeOk(bs);
      LabelledValues(bs);
      assert bs[0] && bs[1] && bs[2] && bs[3] && bs[4] && bs[5] && bs[6];
      assert bs == [true, true, true, true, true, true, true];
  }

  /**
   * After a validation the page is passed exactly when it was or the
   * server passed the manifest, and it shows the verdict's checks; a
   * passing verdict shows all seven true.
   */
  lemma ValidationOutcome(serverDone: bool, parsed: Parsed)
    ensures var v := Received(Some(Judge(parsed)));
      && (Passed(serverDone || v.ok, Some(v)) <==> serverDone || (Judge(parsed).Answered? && Judge(parsed).verdict.ok))
      && DisplayedChecks(serverDone || v.ok, Some(v)) == v.checks
      && (v.ok ==> v.checks == AllGreen && v.errors == [])
  {
    var v := Received(Some(Judge(parsed)));
    if v.ok {
      PassingVerdictIsAllGreen(parsed);
    }
  }

  /**
   * A request that failed, or an HTTP 500, stores the network-error
   * verdict: it shows no checks and leaves `passed` to `serverDone`.
   */
  lemma NetworkFailureShowsNothing(serverDone: bool, reply: Option<Response>)
    requires reply == None || reply == Some(ServerError)
    ensures Received(reply) == NetworkError
    ensures DisplayedChecks(serverDone, Some(Received(reply))) == []
    ensures Passed(serverDone, Some(Received(reply))) <==> serverDone
  {
  }

  /**
   * Without a verdict, the checklist is all true exactly when the level
   * was saved as done and empty otherwise; a level saved as done is passed
   * whatever the latest verdict says.
   */
  lemma FallbackChecklist(serverDone: bool, result: Option<Verdict>)
    ensures result.None? ==> (DisplayedChecks(serverDone, result) == AllGreen <==> serverDone)
    ensures result.None? && !serverDone ==> DisplayedChecks(serverDone, result) == [] && !Passed(serverDone, result)
    ensures serverDone ==> Passed(serverDone, result)
  {
  }

  /** The handler's walk down the shipped skeleton reaches the pod spec and its one container. */
  lemma ManifestWalk(replicas: int, c0: Value)
    ensures Document(Manifest(replicas, c0)) == Manifest(replicas, c0)
    ensures Spec(Manifest(replicas, c0)) == DeploymentSpec(replicas, c0)
    ensures Template(Manifest(replicas, c0)) == PodTemplate(c0)
    ensures PodSpec(Manifest(replicas, c0)) == PodSpecOf(c0)
    ensures FirstContainer(Manifest(replicas, c0)) == c0
  {
    var doc := Manifest(replicas, c0);
    assert Field(doc, "spec") == DeploymentSpec(replicas, c0);
    assert Field(DeploymentSpec(replicas, c0), "template") == PodTemplate(c0);
    assert Field(PodTemplate(c0), "spec") == PodSpecOf(c0);
  }

  /**
   * The shipped skeleton raises nothing, and its verdict depends on the
   * replica count and the container alone.
   */
  lemma ManifestOutcomes(replicas: int, c0: Value)
    ensures Document(Manifest(replicas, c0)) == Manifest(replicas, c0) && !Raises(Manifest(replicas, c0))
    ensures Outcomes(Manifest(replicas, c0)) ==
      [true, true, true, replicas >= 2, HasImage(c0), HasProbes(c0), HasResources(c0)]
  {
    ManifestWalk(replicas, c0);
    SkeletonDocumentChecks(replicas, c0);
  }

  /** The skeleton passes the four document checks but replicas, which holds from two replicas up. */
  lemma SkeletonDocumentChecks(replicas: int, c0: Value)
    ensures ApiVersionOk(Manifest(replicas, c0)) && KindOk(Manifest(replicas, c0))
    ensures MetadataNameOk(Manifest(replicas, c0))
    ensures ReplicasOk(Manifest(replicas, c0)) <==> replicas >= 2
  {
    ManifestWalk(replicas, c0);
    var doc := Manifest(replicas, c0);
    assert Field(doc, "metadata") == Map(map["name" := Str("web")]);
    assert Field(DeploymentSpec(replicas, c0), "replicas") == Int(replicas);
  }

  /** The starter container has an image and neither probes nor resources. */
  lemma StarterContainerChecks()
    ensures HasImage(StarterContainer()) && !HasProbes(StarterContainer()) && !HasResources(StarterContainer())
  {
    var c0 := StarterContainer();
    assert Field(c0, "image") == Str("nginx:latest");
    assert Field(c0, "readinessProbe") == Null;
    assert Field(c0, "resources") == Null;
  }

  /** The starter manifest raises nothing and passes all but replicas, probes and resources. */
  lemma StarterOutcomes()
    ensures Document(StarterTree()) == StarterTree() && !Raises(StarterTree())
    ensures Outcomes(StarterTree()) == [true, true, true, false, true, false, false]
  {
    ManifestOutcomes(1, StarterContainer());
    StarterContainerChecks();
  }

  /** A document that raises nothing is answered with the grade of its seven outcomes. */
  lemma JudgedByOutcomes(t: Value)
    requires !Raises(Document(t))
    ensures Judge(Tree(t)) == Answered(Grade(Outcomes(Document(t))))
  {
  }

  /** The grade of the starter manifest's outcomes: three messages, in declaration order. */
  lemma StarterGrade()
    ensures Grade([true, true, true, false, true, false, false]) ==
      Verdict(false, [Messages[3], Messages[5], Messages[6]], Labelled([true, true, true, false, true, false, false]))
  {
    var bs := [true, true, true, false, true, false, false];
    assert FailureMessages(bs, 3) == [];
    assert FailureMessages(bs, 5) == [Messages[3]];
    assert FailureMessages(bs, 7) == [Messages[3], Messages[5], Messages[6]];
    assert !AllPass(bs) by { assert !bs[3]; }
  }

  /** The starter manifest is answered with three failures: replicas, probes and resources. */
  lemma StarterManifestFails()
    ensures Judge(Tree(StarterTree())) ==
      Answered(Verdict(false, [Messages[3], Messages[5], Messages[6]],
                       Labelled([true, true, true, false, true, false, false])))
  {
    StarterOutcomes();
    JudgedByOutcomes(StarterTree());
    StarterGrade();
  }

  /** The pasted container has an image and both probes. */
  lemma PassingContainerProbes()
    ensures HasImage(PassingContainer()) && HasProbes(PassingContainer())
  {
    var c0 := PassingContainer();
    assert Field(c0, "image") == Str("nginx:latest");
    assert Field(c0, "readinessProbe") == Probe(3, 5);
    assert Field(c0, "livenessProbe") == Probe(10, 10);
    assert "httpGet" in Probe(3, 5).fields && "httpGet" in Probe(10, 10).fields;
  }

  /** The pasted container requests and limits both cpu and memory. */
  lemma PassingContainerResources()
    ensures HasResources(PassingContainer())
  {
    var res := Field(PassingContainer(), "resources");
    assert Field(Field(res, "requests"), "cpu") == Str("100m");
    assert Field(Field(res, "requests"), "memory") == Str("128Mi");
    assert Field(Field(res, "limits"), "cpu") == Str("250m");
    assert Field(Field(res, "limits"), "memory") == Str("256Mi");
  }

  /** The pasted manifest raises nothing and passes every check. */
  lemma PassingOutcomes()
    ensures Document(PassingTree()) == PassingTree() && !Raises(PassingTree())
    ensures Outcomes(PassingTree()) == [true, true, true, true, true, true, true]
  {
    ManifestOutcomes(2, PassingContainer());
    PassingContainerProbes();
    PassingContainerResources();
  }

  /** Seven passing outcomes grade as a pass with no message and every check true. */
  lemma PassingGrade()
    ensures Grade([true, true, true, true, true, true, true]) == Verdict(true, [], AllGreen)
  {
    var bs := [true, true, true, true, true, true, true];
    assert FailureMessages(bs, 3) == [];
    assert FailureMessages(bs, 7) == [];
  }

  /** The manifest of "Paste Solution" passes every check. */
  lemma PassingManifestPasses()
    ensures Judge(Tree(PassingTree())) == Answered(Verdict(true, [], AllGreen))
  {
    PassingOutcomes();
    JudgedByOutcomes(PassingTree());
    PassingGrade();
  }

  /**
   * Reloading the page after a passing validation was saved marks it done
   * and restores the validated text when it is not blank.
   */
  lemma ReloadAfterPass(db: ProgressStore.Db, playerId: string, text: string, editor: string)
    ensures var reply := ProgressStore.Progress(ProgressStore.Persisted(db, playerId, text), playerId, 2);
      SavedAsDone(reply) && RestoredText(editor, reply) == if JsText.Trim(text) != [] then text else editor
  {
    ProgressStore.PersistedThenProgress(db, playerId, text);
  }
}
